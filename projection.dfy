/** `compute/projection.ts`: live statistics to projected-score records, and the event badges of one record. */
module Projection {
  import opened Wrappers
  import opened Fpl
  import IndexBy

  /** `el.stats || {}`: a missing `stats` object reads as one whose every field is missing. */
  const NoStats := Stats(None, None, None, None, None, None, None, None, None, None, None, None, None)

  /** The record of a player with no statistics at all. */
  const Blank := Projected(0, 0, 0, 0, 0, 0, 0, 0, 0, 0, 0, 0, 0)

  /** The record `buildProjected` writes for one live element: each present stat is copied, each missing one is 0. */
  function Project(stats: Option<Stats>): Projected {
    var s := stats.GetOr(NoStats);
    Projected(
      s.minutes.GetOr(0), s.totalPoints.GetOr(0),
      s.goalsScored.GetOr(0), s.assists.GetOr(0), s.cleanSheets.GetOr(0), s.goalsConceded.GetOr(0),
      s.saves.GetOr(0), s.bonus.GetOr(0), s.bps.GetOr(0), s.yellowCards.GetOr(0), s.redCards.GetOr(0),
      s.penaltiesMissed.GetOr(0), s.penaltiesSaved.GetOr(0))
  }

  function LiveId(e: LiveElement): int { e.id }

  /** A player without a `stats` object gets the all-zero record. */
  lemma MissingStatsProjectBlank()
    ensures Project(None) == Blank
  {
  }

  /**
   * `projected_total` is the reported `total_points` when there is one and 0 otherwise, and
   * every other field follows the same rule: a present stat is kept as it is, a missing one is 0.
   */
  lemma ProjectKeepsReportedStats(s: Stats)
    ensures Project(Some(s)).projectedTotal == (if s.totalPoints.Some? then s.totalPoints.value else 0)
    ensures Project(Some(s)).minutes == (if s.minutes.Some? then s.minutes.value else 0)
    ensures Project(Some(s)).bps == (if s.bps.Some? then s.bps.value else 0)
    ensures Project(Some(s)).bonus == (if s.bonus.Some? then s.bonus.value else 0)
    ensures Project(Some(s)).goalsScored == (if s.goalsScored.Some? then s.goalsScored.value else 0)
    ensures Project(Some(s)).assists == (if s.assists.Some? then s.assists.value else 0)
    ensures Project(Some(s)).cleanSheets == (if s.cleanSheets.Some? then s.cleanSheets.value else 0)
    ensures Project(Some(s)).goalsConceded == (if s.goalsConceded.Some? then s.goalsConceded.value else 0)
    ensures Project(Some(s)).saves == (if s.saves.Some? then s.saves.value else 0)
    ensures Project(Some(s)).yellowCards == (if s.yellowCards.Some? then s.yellowCards.value else 0)
    ensures Project(Some(s)).redCards == (if s.redCards.Some? then s.redCards.value else 0)
    ensures Project(Some(s)).penaltiesMissed == (if s.penaltiesMissed.Some? then s.penaltiesMissed.value else 0)
    ensures Project(Some(s)).penaltiesSaved == (if s.penaltiesSaved.Some? then s.penaltiesSaved.value else 0)
  {
  }

  /** The projection dictionary as a function of the element list: the record of the last element with each id. */
  function ProjectionOf(elements: seq<LiveElement>): map<int, Projected> {
    var byId := IndexBy.Indexed(elements, LiveId);
    map k | k in byId :: Project(byId[k].stats)
  }

  /** `buildProjected(live)`: one record per id of `live.elements`; a missing list gives an empty dictionary. */
  method BuildProjected(live: Option<seq<LiveElement>>) returns (m: map<int, Projected>)
    ensures m.Keys == set e | e in live.GetOr([]) :: e.id
    ensures forall k :: k in m ==>
      exists i :: (0 <= i < |live.GetOr([])| && live.GetOr([])[i].id == k
        && m[k] == Project(live.GetOr([])[i].stats)
        && forall j :: i < j < |live.GetOr([])| ==> live.GetOr([])[j].id != k)
    ensures m == ProjectionOf(live.GetOr([]))
  {
    var elements := live.GetOr([]);
    m := map[];
    var i := 0;
    while i < |elements|
      invariant 0 <= i <= |elements|
      invariant m == ProjectionOf(elements[..i])
    {
      var el := elements[i];
      assert elements[..i + 1][..i] == elements[..i];
      assert elements[..i + 1][i] == el;
      m := m[el.id := Project(el.stats)];
      i := i + 1;
    }
    assert elements[..i] == elements;
    ProjectionOfLast(elements);
  }

  /**
   * The projection dictionary has a record for exactly the ids in the list, and each record is
   * the projection of the last element with that id.
   */
  lemma ProjectionOfLast(elements: seq<LiveElement>)
    ensures ProjectionOf(elements).Keys == set e | e in elements :: e.id
    ensures var m := ProjectionOf(elements);
      forall k :: k in m ==>
        exists i :: (0 <= i < |elements| && elements[i].id == k
          && m[k] == Project(elements[i].stats)
          && forall j :: i < j < |elements| ==> elements[j].id != k)
  {
    var m := ProjectionOf(elements);
    IndexBy.IndexedLastWins(elements, LiveId);
    var byId := IndexBy.Indexed(elements, LiveId);
    assert m.Keys == byId.Keys;
    forall k | k in m
      ensures exists i :: (0 <= i < |elements| && elements[i].id == k
        && m[k] == Project(elements[i].stats)
        && forall j :: i < j < |elements| ==> elements[j].id != k)
    {
      assert IndexBy.LastWithKey(elements, LiveId, k, byId[k]);
      var i :| 0 <= i < |elements| && elements[i] == byId[k] && LiveId(byId[k]) == k
        && forall j :: i < j < |elements| ==> LiveId(elements[j]) != k;
      assert m[k] == Project(elements[i].stats);
    }
  }

  /** The badges of `pickEventBadges`, in the order they are pushed. */
  datatype Badge =
    | Goals(goals: int) | Assists(assists: int) | CleanSheet | SavePoints(points: int)
    | BonusStar(bonus: int) | YellowCard | RedCard | PenaltyMissed | PenaltySaved

  /** The position of each kind of badge in the fixed order. */
  function BadgeOrder(b: Badge): nat {
    match b
    case Goals(_) => 0
    case Assists(_) => 1
    case CleanSheet => 2
    case SavePoints(_) => 3
    case BonusStar(_) => 4
    case YellowCard => 5
    case RedCard => 6
    case PenaltyMissed => 7
    case PenaltySaved => 8
  }

  /** The badge of order `k` for record `q`, and whether `pickEventBadges` pushes it. */
  function Candidate(q: Projected, k: nat): Badge
    requires k < 9
  {
    if k == 0 then Goals(q.goalsScored) else if k == 1 then Assists(q.assists) else if k == 2 then CleanSheet
    else if k == 3 then SavePoints(q.saves / 3) else if k == 4 then BonusStar(q.bonus) else if k == 5 then YellowCard
    else if k == 6 then RedCard else if k == 7 then PenaltyMissed else PenaltySaved
  }

  predicate Shows(q: Projected, k: nat)
    requires k < 9
  {
    if k == 0 then q.goalsScored != 0 else if k == 1 then q.assists != 0 else if k == 2 then q.cleanSheets != 0
    else if k == 3 then q.saves >= 3 else if k == 4 then q.bonus != 0 else if k == 5 then q.yellowCards != 0
    else if k == 6 then q.redCards != 0 else if k == 7 then q.penaltiesMissed != 0 else q.penaltiesSaved != 0
  }

  /** `out` is what the first `k` conditional pushes of `pickEventBadges` leave. */
  ghost predicate PushedUpTo(q: Projected, out: seq<Badge>, k: nat)
    requires k <= 9
  {
    && (forall i, j :: 0 <= i < j < |out| ==> BadgeOrder(out[i]) < BadgeOrder(out[j]))
    && (forall b :: b in out ==> BadgeOrder(b) < k && b == Candidate(q, BadgeOrder(b)))
    && (forall i :: 0 <= i < k ==> (Candidate(q, i) in out <==> Shows(q, i)))
  }

  /** What the first `k` conditional pushes of `pickEventBadges` leave in `out`. */
  function Pushed(q: Projected, k: nat): seq<Badge>
    requires k <= 9
  {
    if k == 0 then [] else Pushed(q, k - 1) + (if Shows(q, k - 1) then [Candidate(q, k - 1)] else [])
  }

  lemma {:induction false} PushedInOrder(q: Projected, k: nat)
    requires k <= 9
    ensures PushedUpTo(q, Pushed(q, k), k)
  {
    if k > 0 {
      PushedInOrder(q, k - 1);
      assert BadgeOrder(Candidate(q, k - 1)) == k - 1;
      forall i | 0 <= i < k - 1 ensures Candidate(q, i) != Candidate(q, k - 1) {
        assert BadgeOrder(Candidate(q, i)) == i;
      }
    }
  }

  /**
   * The badge list `pickEventBadges` promises for record `q`: a badge for each nonzero counted
   * stat, each at most once and in the fixed order goals, assists, clean sheet, saves, bonus,
   * yellow, red, penalty missed, penalty saved; the saves badge needs at least 3 saves and shows
   * one save point per 3 saves; nothing else.
   */
  predicate BadgeSpec(q: Projected, out: seq<Badge>) {
    && (forall i, j :: 0 <= i < j < |out| ==> BadgeOrder(out[i]) < BadgeOrder(out[j]))
    && (Goals(q.goalsScored) in out <==> q.goalsScored != 0)
    && (Assists(q.assists) in out <==> q.assists != 0)
    && (CleanSheet in out <==> q.cleanSheets != 0)
    && (SavePoints(q.saves / 3) in out <==> q.saves >= 3)
    && (BonusStar(q.bonus) in out <==> q.bonus != 0)
    && (YellowCard in out <==> q.yellowCards != 0)
    && (RedCard in out <==> q.redCards != 0)
    && (PenaltyMissed in out <==> q.penaltiesMissed != 0)
    && (PenaltySaved in out <==> q.penaltiesSaved != 0)
    && (forall b :: b in out ==> b in [Goals(q.goalsScored), Assists(q.assists), CleanSheet,
          SavePoints(q.saves / 3), BonusStar(q.bonus), YellowCard, RedCard, PenaltyMissed, PenaltySaved])
  }

  /** `pickEventBadges(p)`; an absent record (the default `{}`) gets no badge. */
  method PickEventBadges(p: Option<Projected>) returns (out: seq<Badge>)
    ensures BadgeSpec(p.GetOr(Blank), out)
    ensures p.None? ==> out == []
  {
    var q := p.GetOr(Blank);
    out := [];
    if q.goalsScored != 0 { out := out + [Goals(q.goalsScored)]; }
    assert out == Pushed(q, 1);
    if q.assists != 0 { out := out + [Assists(q.assists)]; }
    assert out == Pushed(q, 2);
    if q.cleanSheets != 0 { out := out + [CleanSheet]; }
    assert out == Pushed(q, 3);
    if q.saves >= 3 { out := out + [SavePoints(q.saves / 3)]; }
    assert out == Pushed(q, 4);
    if q.bonus != 0 { out := out + [BonusStar(q.bonus)]; }
    assert out == Pushed(q, 5);
    if q.yellowCards != 0 { out := out + [YellowCard]; }
    assert out == Pushed(q, 6);
    if q.redCards != 0 { out := out + [RedCard]; }
    assert out == Pushed(q, 7);
    if q.penaltiesMissed != 0 { out := out + [PenaltyMissed]; }
    assert out == Pushed(q, 8);
    if q.penaltiesSaved != 0 { out := out + [PenaltySaved]; }
    assert out == Pushed(q, 9);
    PushedSpec(q);
  }

  /** All nine conditional pushes leave the list `BadgeSpec` describes. */
  lemma PushedSpec(q: Projected)
    ensures BadgeSpec(q, Pushed(q, 9))
  {
    PushedInOrder(q, 9);
    AllPushed(q, Pushed(q, 9));
  }

  lemma AllPushed(q: Projected, out: seq<Badge>)
    requires PushedUpTo(q, out, 9)
    ensures BadgeSpec(q, out)
  {
    assert Candidate(q, 0) == Goals(q.goalsScored) && Shows(q, 0) == (q.goalsScored != 0);
    assert Candidate(q, 1) == Assists(q.assists) && Shows(q, 1) == (q.assists != 0);
    assert Candidate(q, 2) == CleanSheet && Shows(q, 2) == (q.cleanSheets != 0);
    assert Candidate(q, 3) == SavePoints(q.saves / 3) && Shows(q, 3) == (q.saves >= 3);
    assert Candidate(q, 4) == BonusStar(q.bonus) && Shows(q, 4) == (q.bonus != 0);
    assert Candidate(q, 5) == YellowCard && Shows(q, 5) == (q.yellowCards != 0);
    assert Candidate(q, 6) == RedCard && Shows(q, 6) == (q.redCards != 0);
    assert Candidate(q, 7) == PenaltyMissed && Shows(q, 7) == (q.penaltiesMissed != 0);
    assert Candidate(q, 8) == PenaltySaved && Shows(q, 8) == (q.penaltiesSaved != 0);
    forall b | b in out
      ensures b in [Goals(q.goalsScored), Assists(q.assists), CleanSheet,
            SavePoints(q.saves / 3), BonusStar(q.bonus), YellowCard, RedCard, PenaltyMissed, PenaltySaved]
    {
      assert b == Candidate(q, BadgeOrder(b));
    }
  }
}
