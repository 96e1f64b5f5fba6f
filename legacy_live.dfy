/**
 * The live manager endpoint of `worker/src/index.js`: the legacy copy of the live scoring. It
 * builds its own projection table from the statistics and the competition-ranked provisional
 * bonus, tests absence with its own `surelyAbsent`, and then scores the squad with the same
 * steps as the module `LiveManager`, adding a trend word for the difference to the average.
 */
module LegacyLive {
  import opened Wrappers
  import opened Fpl
  import IndexBy
  import Projection
  import LiveManager
  import PlayState
  import LegacyBonus

  // buildProjected

  /**
   * The record the legacy `buildProjected` writes for element `id`: the reported points plus the
   * player's provisional bonus unless a bonus is already awarded, and the stats it copies (a
   * missing one reads 0). The fields it does not write (goals conceded, bonus, penalties) are 0.
   */
  function LegacyRecord(stats: Option<Stats>, provisional: map<int, int>, id: int): Projected {
    var s := stats.GetOr(Projection.NoStats);
    var bonusAdd := if s.bonus.GetOr(0) > 0 then 0 else if id in provisional then provisional[id] else 0;
    Projected(
      s.minutes.GetOr(0), s.totalPoints.GetOr(0) + bonusAdd,
      s.goalsScored.GetOr(0), s.assists.GetOr(0), s.cleanSheets.GetOr(0), 0,
      s.saves.GetOr(0), 0, s.bps.GetOr(0), s.yellowCards.GetOr(0), s.redCards.GetOr(0), 0, 0)
  }

  /** The legacy projection table: the record of the last element with each id. */
  function LegacyProjectionOf(elements: seq<LiveElement>, fixtures: seq<Fixture>): map<int, Projected> {
    var byId := IndexBy.Indexed(elements, Projection.LiveId);
    var provisional := LegacyBonus.LegacyProvisionalBonus(elements, fixtures);
    map k | k in byId :: LegacyRecord(byId[k].stats, provisional, k)
  }

  /**
   * `buildProjected(live, fixtures)`; without `live.elements` it throws (the bonus loop cannot
   * iterate a missing list), modelled as `None`.
   */
  method LegacyBuildProjected(live: Option<seq<LiveElement>>, fixtures: seq<Fixture>) returns (m: Option<map<int, Projected>>)
    ensures m.None? <==> live.None?
    ensures live.Some? ==> m == Some(LegacyProjectionOf(live.value, fixtures))
  {
    if live.None? {
      return None;
    }
    var elements := live.value;
    var provisional := LegacyBonus.ComputeProvisionalBonus(elements, fixtures);
    var projected := map[];
    var i := 0;
    while i < |elements|
      invariant 0 <= i <= |elements|
      invariant projected == (var byId := IndexBy.Indexed(elements[..i], Projection.LiveId);
        map k | k in byId :: LegacyRecord(byId[k].stats, provisional, k))
    {
      var el := elements[i];
      assert elements[..i + 1][..i] == elements[..i];
      assert elements[..i + 1][i] == el;
      projected := projected[el.id := LegacyRecord(el.stats, provisional, el.id)];
      i := i + 1;
    }
    assert elements[..i] == elements;
    m := Some(projected);
  }

  /**
   * The legacy table has one record per element id. A record's projected total is the reported
   * points, raised by at most 3 when no bonus is awarded yet and equal to them when one is; its
   * minutes and BPS are the reported ones.
   */
  lemma LegacyProjectedTotal(elements: seq<LiveElement>, fixtures: seq<Fixture>, k: int)
    ensures k in LegacyProjectionOf(elements, fixtures) <==> exists e :: e in elements && e.id == k
    ensures k in LegacyProjectionOf(elements, fixtures) ==>
      var s := IndexBy.Indexed(elements, Projection.LiveId)[k].stats.GetOr(Projection.NoStats);
      var q := LegacyProjectionOf(elements, fixtures)[k];
      && s.totalPoints.GetOr(0) <= q.projectedTotal <= s.totalPoints.GetOr(0) + 3
      && (s.bonus.GetOr(0) > 0 ==> q.projectedTotal == s.totalPoints.GetOr(0))
      && q.minutes == s.minutes.GetOr(0)
      && q.bps == s.bps.GetOr(0)
  {
    IndexBy.IndexedLastWins(elements, Projection.LiveId);
    LegacyBonus.LegacyBonusValues(elements, fixtures);
  }

  // surelyAbsent

  /**
   * The legacy `surelyAbsent(el)`: a player with minutes is not absent, nor is one without a team
   * id (or with the falsy id 0); otherwise it is absent when every fixture of its team is settled.
   */
  function LegacySurelyAbsent(fixtures: seq<Fixture>, players: map<int, Player>, table: map<int, Projected>, el: int): (r: bool)
    ensures r <==> (&& MinutesOf(table, el) <= 0
                    && TeamOf(players, el).Some? && TeamOf(players, el).value != 0
                    && forall f :: f in fixtures && Involves(f, TeamOf(players, el)) ==> Settled(f))
  {
    var team := TeamOf(players, el);
    if MinutesOf(table, el) > 0 then false
    else if team.None? || team.value == 0 then false
    else
      PlayState.TeamFinished(fixtures, team)
  }

  function LegacyAbsentTest(fixtures: seq<Fixture>, players: map<int, Player>, table: map<int, Projected>): int -> bool {
    (el: int) => LegacySurelyAbsent(fixtures, players, table, el)
  }

  /**
   * The two absence tests: a player with no team and no minutes is surely absent for the module
   * `LiveManager` and never for the legacy handler.
   */
  lemma AbsenceWithoutTeam(fixtures: seq<Fixture>, players: map<int, Player>, table: map<int, Projected>, el: int)
    requires TeamOf(players, el).None? && MinutesOf(table, el) == 0
    ensures LiveManager.SurelyAbsent(fixtures, players, table, el)
    ensures !LegacySurelyAbsent(fixtures, players, table, el)
  {
  }

  /** For a player with a nonzero team id and no negative minutes the two absence tests agree. */
  lemma AbsenceAgrees(fixtures: seq<Fixture>, players: map<int, Player>, table: map<int, Projected>, el: int)
    requires TeamOf(players, el).Some? && TeamOf(players, el).value != 0 && MinutesOf(table, el) >= 0
    ensures LiveManager.SurelyAbsent(fixtures, players, table, el) == LegacySurelyAbsent(fixtures, players, table, el)
  {
  }

  // The response

  datatype Trend = Up | Down | Flat

  /** `live_trend`: up above a 5-point lead over the average, down below a 5-point deficit, flat between. */
  function TrendOf(diff: int): (t: Trend)
    ensures t == Up <==> diff > 5
    ensures t == Down <==> diff < -5
    ensures t == Flat <==> -5 <= diff <= 5
  {
    if diff > 5 then Up else if diff < -5 then Down else Flat
  }

  /** The legacy response: the scored squad, the `autosubs` flag it echoes and the trend. */
  datatype LegacyResult = LegacyResult(live: LiveManager.LiveResult, autosubs: bool, trend: Trend)

  /** The legacy response for the inputs and the live element list. */
  function LegacyScore(req: LiveManager.Inputs, elements: seq<LiveElement>): LegacyResult {
    var table := LegacyProjectionOf(elements, req.fixtures);
    var r := LiveManager.Score(req, table, LegacyAbsentTest(req.fixtures, req.players, table));
    LegacyResult(r, LiveManager.AutosubsOn(req.autosubs), TrendOf(r.diffVsAverage))
  }

  /** `handleLiveManager` after its fetches; a live response without elements makes it throw, modelled as `None`. */
  method HandleLiveManager(req: LiveManager.Inputs, live: Option<seq<LiveElement>>) returns (r: Option<LegacyResult>)
    ensures r.None? <==> live.None?
    ensures live.Some? ==> r == Some(LegacyScore(req, live.value))
  {
    var projected := LegacyBuildProjected(live, req.fixtures);
    if projected.None? {
      return None;
    }
    var table := projected.value;
    var scored := LiveManager.ScoreSquad(req, table, LegacyAbsentTest(req.fixtures, req.players, table));
    r := Some(LegacyResult(scored, LiveManager.AutosubsOn(req.autosubs), TrendOf(scored.diffVsAverage)));
  }

  /**
   * The trend is computed from the XI's lead over the average, so it is up exactly when the
   * starters outscore the average by more than 5.
   */
  lemma TrendFollowsStarters(req: LiveManager.Inputs, elements: seq<LiveElement>)
    ensures var r := LegacyScore(req, elements);
      r.trend == Up <==> r.live.starters > LiveManager.LiveAverage(req.events, req.currentEventId) + 5
  {
    var table := LegacyProjectionOf(elements, req.fixtures);
    LiveManager.Totals(req, table, LegacyAbsentTest(req.fixtures, req.players, table));
  }
}
