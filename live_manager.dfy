/**
 * `handlers/liveManager.ts`: the scoring core of the live manager endpoint. Given the catalogue,
 * the fixtures, the live statistics and a squad's picks, it builds the projection table, adds
 * the provisional bonus, runs the autosubs, promotes the vice-captain when the captain has not
 * played, scores every slot as base times multiplier and keeps the starters' and the bench's
 * totals apart.
 */
module LiveManager {
  import opened Wrappers
  import opened Fpl
  import Sorting
  import PlayState
  import Projection
  import ProvisionalBonus
  import opened Autosubs

  // The flags of the request

  /** `(params.autosubs || 'on') !== 'off'`: a missing or empty parameter means on. */
  function AutosubsOn(param: Option<string>): (on: bool)
    ensures !on <==> param == Some("off")
  {
    (if param.None? || param.value == "" then "on" else param.value) != "off"
  }

  /** The `activeChip` echoed in the response: `picks.active_chip || null`. */
  function ActiveChip(activeChip: Option<string>): (c: Option<string>)
    ensures c.Some? <==> activeChip.Some? && activeChip.value != ""
    ensures c.Some? ==> c == activeChip
  {
    if activeChip == Some("") then None else activeChip
  }

  /** Everything the handler reads, after fetching: the request flags, the catalogue, the fixtures and the picks. */
  datatype Inputs = Inputs(
    autosubs: Option<string>, activeChip: Option<string>, currentEventId: int, events: seq<Event>,
    fixtures: seq<Fixture>, players: map<int, Player>, picks: seq<Slot>)

  // Absence and captaincy

  /**
   * `surelyAbsent(el)`: the player's team has no unsettled fixture and the projection records no
   * minutes. A player without a team matches no fixture, so with no minutes it is surely absent.
   */
  function SurelyAbsent(fixtures: seq<Fixture>, players: map<int, Player>, table: map<int, Projected>, el: int): (r: bool)
    ensures r <==> (MinutesOf(table, el) == 0
      && forall f :: f in fixtures && Involves(f, TeamOf(players, el)) ==> Settled(f))
    ensures TeamOf(players, el) == None ==> (r <==> MinutesOf(table, el) == 0)
  {
    var m := MinutesOf(table, el);
    PlayState.Classification(fixtures, players, el, m);
    PlayState.PlayStateFor(fixtures, players, el, m).teamFinished && m == 0
  }

  /** The `surelyAbsent` closure handed to `applyAutosubs`. */
  function AbsentTest(fixtures: seq<Fixture>, players: map<int, Player>, table: map<int, Projected>): int -> bool {
    (el: int) => SurelyAbsent(fixtures, players, table, el)
  }

  /** `effective.find(p => p.is_captain)?.element`: the element of the first captain slot. */
  function CaptainOf(effective: seq<Slot>): (c: Option<int>)
    ensures c.None? <==> forall k :: 0 <= k < |effective| ==> !effective[k].isCaptain
    ensures c.Some? ==> exists k :: (0 <= k < |effective| && effective[k].isCaptain
      && effective[k].element == c.value && forall j :: 0 <= j < k ==> !effective[j].isCaptain)
  {
    match Sorting.FindFirst(effective, (s: Slot) => s.isCaptain)
    case None => None
    case Some(k) => Some(effective[k].element)
  }

  /**
   * `capPlayed`: false when there is no captain (or its element is the falsy 0); otherwise the
   * captain has played if it has recorded minutes or is not surely absent.
   */
  function CapPlayed(table: map<int, Projected>, absent: int -> bool, capEl: Option<int>): bool {
    match capEl
    case None => false
    case Some(e) => e != 0 && (MinutesOf(table, e) > 0 || !absent(e))
  }

  // Scoring one slot

  /** What the scoring loop knows besides the slot itself. */
  datatype Scoring = Scoring(
    fixtures: seq<Fixture>, players: map<int, Player>, table: map<int, Projected>,
    benchBoost: bool, tripleCaptain: bool, capPlayed: bool)

  /**
   * The multiplier a slot is scored with. Under bench boost a bench slot counts once; when the
   * captain has not played the vice-captain gets at least the captain's multiplier (3 under
   * triple captain, else 2), keeping its own if that is higher; every other slot keeps its own.
   */
  function Multiplier(c: Scoring, slot: Slot): (mult: int)
    ensures var own := if c.benchBoost && slot.position >= 12 then 1 else slot.multiplier;
      var promoted := if c.tripleCaptain then 3 else 2;
      && (slot.isViceCaptain && !c.capPlayed ==> mult >= own && mult >= promoted && (mult == own || mult == promoted))
      && (!slot.isViceCaptain || c.capPlayed ==> mult == own)
      && (c.benchBoost && slot.position >= 12 && (!slot.isViceCaptain || c.capPlayed) ==> mult == 1)
      && (!c.benchBoost && (!slot.isViceCaptain || c.capPlayed) ==> mult == slot.multiplier)
  {
    var m := if c.benchBoost && slot.position >= 12 then 1 else slot.multiplier;
    if slot.isViceCaptain && !c.capPlayed then Max(m, if c.tripleCaptain then 3 else 2) else m
  }

  /** `points = base * mult`, with `base` the projected total (0 for a player without a record). */
  function Points(c: Scoring, slot: Slot): int {
    BaseOf(c.table, slot.element) * Multiplier(c, slot)
  }

  /** One entry of the response's `team` list (names and team labels are display only). */
  datatype TeamSlot = TeamSlot(
    position: int, element: int, onBench: bool, kind: PositionName, projectedPoints: int, total: int,
    multiplier: int, isCaptain: bool, isViceCaptain: bool, bps: int, playState: PlayState.PlayStateResult)

  function Info(c: Scoring, slot: Slot): TeamSlot {
    var el := slot.element;
    TeamSlot(slot.position, el, slot.position >= 12, TypeName(TypeOf(c.players, el)), BaseOf(c.table, el),
      Points(c, slot), Multiplier(c, slot), slot.isCaptain, slot.isViceCaptain, BpsOf(c.table, el),
      PlayState.PlayStateFor(c.fixtures, c.players, el, MinutesOf(c.table, el)))
  }

  function Infos(c: Scoring, slots: seq<Slot>): seq<TeamSlot> {
    if slots == [] then [] else Infos(c, slots[..|slots| - 1]) + [Info(c, slots[|slots| - 1])]
  }

  /** The points of the slots on the bench (`onBench`) or in the XI (`!onBench`), the XI being positions up to 11. */
  function SumPoints(c: Scoring, slots: seq<Slot>, onBench: bool): int {
    if slots == [] then 0
    else
      var last := slots[|slots| - 1];
      SumPoints(c, slots[..|slots| - 1], onBench) + (if !IsStarter(last) == onBench then Points(c, last) else 0)
  }

  /** The points of all the slots. */
  function Total(c: Scoring, slots: seq<Slot>): int {
    if slots == [] then 0 else Total(c, slots[..|slots| - 1]) + Points(c, slots[|slots| - 1])
  }

  /** The scoring loop over `[...effective, ...benchFiltered]`: one team entry per slot, and the two running sums. */
  method ScoreSlots(c: Scoring, slots: seq<Slot>) returns (team: seq<TeamSlot>, startersSum: int, benchSum: int)
    ensures team == Infos(c, slots)
    ensures startersSum == SumPoints(c, slots, false)
    ensures benchSum == SumPoints(c, slots, true)
  {
    team := [];
    startersSum, benchSum := 0, 0;
    var i := 0;
    while i < |slots|
      invariant 0 <= i <= |slots|
      invariant team == Infos(c, slots[..i])
      invariant startersSum == SumPoints(c, slots[..i], false)
      invariant benchSum == SumPoints(c, slots[..i], true)
    {
      var slot := slots[i];
      assert slots[..i + 1][..i] == slots[..i];
      var el := slot.element;
      var base := BaseOf(c.table, el);
      var mult := slot.multiplier;
      if c.benchBoost && slot.position >= 12 { mult := 1; }
      if slot.isViceCaptain && !c.capPlayed { mult := Max(mult, if c.tripleCaptain then 3 else 2); }
      var points := base * mult;
      var info := TeamSlot(slot.position, el, slot.position >= 12, TypeName(TypeOf(c.players, el)), base, points,
        mult, slot.isCaptain, slot.isViceCaptain, BpsOf(c.table, el),
        PlayState.PlayStateFor(c.fixtures, c.players, el, MinutesOf(c.table, el)));
      if slot.position <= 11 { startersSum := startersSum + points; } else { benchSum := benchSum + points; }
      team := team + [info];
      i := i + 1;
    }
    assert slots[..i] == slots;
  }

  // The squad

  function SlotPosition(s: Slot): int { s.position }
  function TeamPosition(s: TeamSlot): int { s.position }
  predicate OnBench(s: Slot) { s.position >= 12 }
  function SlotElement(s: Slot): int { s.element }

  /** The picks sorted by position. */
  function SortedPicks(picks: seq<Slot>): seq<Slot> { Sorting.SortBy(picks, SlotPosition) }

  /** `starters`: the sorted picks at positions up to 11. */
  function StartersOf(picks: seq<Slot>): seq<Slot> { Sorting.Filter(SortedPicks(picks), IsStarter) }

  /** `bench`: the sorted picks at positions 12 and above. */
  function BenchOf(picks: seq<Slot>): seq<Slot> { Sorting.Filter(SortedPicks(picks), OnBench) }

  /** `bench.filter(b => !usedBench.has(b.element))`: the reserves that did not come on. */
  function BenchFiltered(bench: seq<Slot>, used: set<int>): (r: seq<Slot>)
    ensures forall b :: b in r <==> b in bench && b.element !in used
  {
    if bench == [] then []
    else (if bench[0].element !in used then [bench[0]] else []) + BenchFiltered(bench[1..], used)
  }

  /** The autosubs of the handler: the guard is off under bench boost or when the request turns them off. */
  function SubsOf(req: Inputs, table: map<int, Projected>, absent: int -> bool): Subs {
    Autosubs.Autosubs(StartersOf(req.picks), BenchOf(req.picks), req.players,
      ChipOf(req.activeChip) != BenchBoost && AutosubsOn(req.autosubs), absent, ByRole)
  }

  function ContextOf(req: Inputs, table: map<int, Projected>, absent: int -> bool): Scoring {
    var chip := ChipOf(req.activeChip);
    Scoring(req.fixtures, req.players, table, chip == BenchBoost, chip == TripleCaptain,
      CapPlayed(table, absent, CaptainOf(SubsOf(req, table, absent).effective)))
  }

  /** `[...effective, ...benchFiltered]`: the slots that are scored, XI first. */
  function ScoredSlots(req: Inputs, table: map<int, Projected>, absent: int -> bool): seq<Slot> {
    var subs := SubsOf(req, table, absent);
    subs.effective + BenchFiltered(BenchOf(req.picks), subs.usedBench)
  }

  /** `events.find(e => e.id === currentEventId)?.average_entry_score ?? 0` */
  function LiveAverage(events: seq<Event>, current: int): (avg: int)
    ensures (forall k :: 0 <= k < |events| ==> events[k].id != current) ==> avg == 0
    ensures forall k :: (0 <= k < |events| && events[k].id == current && (forall j :: 0 <= j < k ==> events[j].id != current))
                        ==> avg == events[k].averageEntryScore.GetOr(0)
  {
    match Sorting.FindFirst(events, (e: Event) => e.id == current)
    case None => 0
    case Some(k) => events[k].averageEntryScore.GetOr(0)
  }

  /** The response body, minus `ok`, `entryId` and the display fields. */
  datatype LiveResult = LiveResult(
    currentEventId: int, activeChip: Option<string>, team: seq<TeamSlot>,
    starters: int, bench: int, overall: int, liveAverage: int, diffVsAverage: int)

  /** The response for the inputs and a projection table that already carries the provisional bonus. */
  function Score(req: Inputs, table: map<int, Projected>, absent: int -> bool): LiveResult {
    var c := ContextOf(req, table, absent);
    var slots := ScoredSlots(req, table, absent);
    var s, b := SumPoints(c, slots, false), SumPoints(c, slots, true);
    var avg := LiveAverage(req.events, req.currentEventId);
    LiveResult(req.currentEventId, ActiveChip(req.activeChip), Sorting.SortBy(Infos(c, slots), TeamPosition),
      s, b, s + b, avg, s - avg)
  }

  /** The handler's steps after the projection table is built, in the handler's order. */
  method ScoreSquad(req: Inputs, table: map<int, Projected>, absent: int -> bool) returns (r: LiveResult)
    ensures r == Score(req, table, absent)
  {
    var sorted := Sorting.SortBy(req.picks, SlotPosition);
    var starters := Sorting.Filter(sorted, IsStarter);
    var bench := Sorting.Filter(sorted, OnBench);
    var chip := ChipOf(req.activeChip);
    var benchBoost := chip == BenchBoost;
    var tcActive := chip == TripleCaptain;
    var effective, usedBench := ApplyAutosubs(starters, bench, req.players, !benchBoost && AutosubsOn(req.autosubs),
      absent, ByRole);
    var benchFiltered := BenchFiltered(bench, usedBench);
    var capPlayed := CapPlayed(table, absent, CaptainOf(effective));
    var c := Scoring(req.fixtures, req.players, table, benchBoost, tcActive, capPlayed);
    var slots, startersSum, benchSum := ScoreSlots(c, effective + benchFiltered);
    var liveAvg := LiveAverage(req.events, req.currentEventId);
    r := LiveResult(req.currentEventId, ActiveChip(req.activeChip), Sorting.SortBy(slots, TeamPosition),
      startersSum, benchSum, startersSum + benchSum, liveAvg, startersSum - liveAvg);
  }

  /** The projection table of the handler: `buildProjected(live)`, then the provisional bonus in place. */
  ghost function TableOf(req: Inputs, live: Option<seq<LiveElement>>): map<int, Projected> {
    ProvisionalBonus.WithProvisionalBonus(Projection.ProjectionOf(live.GetOr([])), req.fixtures, req.players)
  }

  /** `liveManagerHandler` after its fetches. */
  method LiveManagerHandler(req: Inputs, live: Option<seq<LiveElement>>) returns (r: LiveResult)
    ensures r == Score(req, TableOf(req, live), AbsentTest(req.fixtures, req.players, TableOf(req, live)))
  {
    var projected := Projection.BuildProjected(live);
    var projectedById := new ProvisionalBonus.ProjectionTable(projected);
    projectedById.ApplyProvisionalBonus(req.fixtures, req.players);
    r := ScoreSquad(req, projectedById.byId, AbsentTest(req.fixtures, req.players, projectedById.byId));
  }

  // Properties of the scoring

  lemma {:induction false} SumPointsAppend(c: Scoring, a: seq<Slot>, b: seq<Slot>, onBench: bool)
    ensures SumPoints(c, a + b, onBench) == SumPoints(c, a, onBench) + SumPoints(c, b, onBench)
  {
    if b != [] {
      assert (a + b)[..|a + b| - 1] == a + b[..|b| - 1];
      SumPointsAppend(c, a, b[..|b| - 1], onBench);
    } else {
      assert a + b == a;
    }
  }

  /** Over slots all on one side, that side's sum is their total and the other side's is 0. */
  lemma {:induction false} SumPointsOneSide(c: Scoring, slots: seq<Slot>, onBench: bool)
    requires forall s :: s in slots ==> !IsStarter(s) == onBench
    ensures SumPoints(c, slots, onBench) == Total(c, slots)
    ensures SumPoints(c, slots, !onBench) == 0
  {
    if slots != [] {
      assert slots[|slots| - 1] in slots;
      SumPointsOneSide(c, slots[..|slots| - 1], onBench);
    }
  }

  /** The effective XI only holds positions up to 11, and the scored bench only positions 12 and above. */
  lemma ScoredSides(req: Inputs, table: map<int, Projected>, absent: int -> bool)
    ensures forall s :: s in SubsOf(req, table, absent).effective ==> IsStarter(s)
    ensures forall s :: s in BenchFiltered(BenchOf(req.picks), SubsOf(req, table, absent).usedBench) ==> !IsStarter(s)
  {
    var starters := StartersOf(req.picks);
    var subs := SubsOf(req, table, absent);
    AutosubsKeepsSlots(starters, BenchOf(req.picks), req.players,
      ChipOf(req.activeChip) != BenchBoost && AutosubsOn(req.autosubs), absent, ByRole);
    forall s | s in subs.effective ensures IsStarter(s) {
      var k :| 0 <= k < |subs.effective| && subs.effective[k] == s;
      assert starters[k] in starters;
    }
  }

  /**
   * The totals: `starters` is the points of the effective XI, `bench` the points of the reserves
   * that did not come on, `overall` their sum and `diff_vs_average` the XI's points less the
   * gameweek average.
   */
  lemma Totals(req: Inputs, table: map<int, Projected>, absent: int -> bool)
    ensures var r := Score(req, table, absent);
      var c := ContextOf(req, table, absent);
      var subs := SubsOf(req, table, absent);
      && r.starters == Total(c, subs.effective)
      && r.bench == Total(c, BenchFiltered(BenchOf(req.picks), subs.usedBench))
      && r.overall == r.starters + r.bench
      && r.overall == Total(c, ScoredSlots(req, table, absent))
      && r.diffVsAverage == r.starters - LiveAverage(req.events, req.currentEventId)
  {
    var c := ContextOf(req, table, absent);
    var subs := SubsOf(req, table, absent);
    var rest := BenchFiltered(BenchOf(req.picks), subs.usedBench);
    ScoredSides(req, table, absent);
    SumPointsAppend(c, subs.effective, rest, false);
    SumPointsAppend(c, subs.effective, rest, true);
    SumPointsOneSide(c, subs.effective, false);
    SumPointsOneSide(c, rest, true);
    TotalAppend(c, subs.effective, rest);
  }

  lemma {:induction false} TotalAppend(c: Scoring, a: seq<Slot>, b: seq<Slot>)
    ensures Total(c, a + b) == Total(c, a) + Total(c, b)
  {
    if b != [] {
      assert (a + b)[..|a + b| - 1] == a + b[..|b| - 1];
      TotalAppend(c, a, b[..|b| - 1]);
    } else {
      assert a + b == a;
    }
  }

  lemma {:induction false} InfosOf(c: Scoring, slots: seq<Slot>)
    ensures |Infos(c, slots)| == |slots|
    ensures forall k :: 0 <= k < |slots| ==> Infos(c, slots)[k] == Info(c, slots[k])
  {
    if slots != [] {
      InfosOf(c, slots[..|slots| - 1]);
    }
  }

  /**
   * The response's `team`: one entry per scored slot (11 starters's worth of effective slots,
   * then the reserves that did not come on), sorted by position, the entries of equal position
   * in scoring order.
   */
  lemma TeamOrder(req: Inputs, table: map<int, Projected>, absent: int -> bool)
    ensures var team := Score(req, table, absent).team;
      var infos := Infos(ContextOf(req, table, absent), ScoredSlots(req, table, absent));
      && multiset(team) == multiset(infos)
      && |team| == |ScoredSlots(req, table, absent)|
      && (forall i, j :: 0 <= i < j < |team| ==> team[i].position <= team[j].position)
      && (forall v :: Sorting.WithKey(team, TeamPosition, v) == Sorting.WithKey(infos, TeamPosition, v))
  {
    var infos := Infos(ContextOf(req, table, absent), ScoredSlots(req, table, absent));
    InfosOf(ContextOf(req, table, absent), ScoredSlots(req, table, absent));
    Sorting.SortByPermutes(infos, TeamPosition);
    Sorting.SortBySorted(infos, TeamPosition);
    forall v ensures Sorting.WithKey(Sorting.SortBy(infos, TeamPosition), TeamPosition, v) == Sorting.WithKey(infos, TeamPosition, v) {
      Sorting.SortByStable(infos, TeamPosition, v);
    }
  }

  /** Each team entry is the slot's points: its base times its multiplier, and its bench flag is its position. */
  lemma TeamEntries(req: Inputs, table: map<int, Projected>, absent: int -> bool)
    ensures forall t :: t in Score(req, table, absent).team ==>
      && t.total == t.projectedPoints * t.multiplier
      && t.projectedPoints == BaseOf(table, t.element)
      && (t.onBench <==> t.position >= 12)
      && exists s :: s in ScoredSlots(req, table, absent) && t == Info(ContextOf(req, table, absent), s)
  {
    var c := ContextOf(req, table, absent);
    var slots := ScoredSlots(req, table, absent);
    TeamOrder(req, table, absent);
    InfosOf(c, slots);
    forall t | t in Score(req, table, absent).team
      ensures exists s :: s in slots && t == Info(c, s)
    {
      assert t in multiset(Infos(c, slots));
      var k :| 0 <= k < |Infos(c, slots)| && Infos(c, slots)[k] == t;
      assert slots[k] in slots;
    }
  }

  lemma {:induction false} BenchFilteredLength(bench: seq<Slot>, used: set<int>)
    requires Sorting.DistinctBy(bench, SlotElement)
    ensures |BenchFiltered(bench, used)| + |used * ElementsOf(bench)| == |bench|
  {
    if bench != [] {
      var e := bench[0].element;
      var rest := bench[1..];
      Sorting.DistinctTail(bench, SlotElement);
      BenchFilteredLength(rest, used);
      ElementsCons(bench);
      if e in used {
        assert used * ElementsOf(bench) == (used * ElementsOf(rest)) + {e};
      } else {
        assert used * ElementsOf(bench) == used * ElementsOf(rest);
      }
    }
  }

  /** The elements of a squad list with distinct elements: the first one's, apart from the others'. */
  lemma ElementsCons(bench: seq<Slot>)
    requires bench != [] && Sorting.DistinctBy(bench, SlotElement)
    ensures ElementsOf(bench) == {bench[0].element} + ElementsOf(bench[1..])
    ensures bench[0].element !in ElementsOf(bench[1..])
  {
    var rest := bench[1..];
    assert forall s :: s in bench <==> s == bench[0] || s in rest;
    forall s | s in rest ensures s.element != bench[0].element {
      var k :| 0 <= k < |rest| && rest[k] == s;
      assert SlotElement(bench[0]) != SlotElement(bench[k + 1]);
    }
  }

  /**
   * When the squad's elements are distinct, the team holds one entry per pick less one per
   * reserve that came on.
   */
  lemma TeamSize(req: Inputs, table: map<int, Projected>, absent: int -> bool)
    requires Sorting.DistinctBy(req.picks, SlotElement)
    ensures |Score(req, table, absent).team| + |SubsOf(req, table, absent).usedBench| == |req.picks|
  {
    var sorted := SortedPicks(req.picks);
    var subs := SubsOf(req, table, absent);
    var bench := BenchOf(req.picks);
    TeamOrder(req, table, absent);
    AutosubsKeepsSlots(StartersOf(req.picks), bench, req.players,
      ChipOf(req.activeChip) != BenchBoost && AutosubsOn(req.autosubs), absent, ByRole);
    AutosubsUseBench(StartersOf(req.picks), bench, req.players,
      ChipOf(req.activeChip) != BenchBoost && AutosubsOn(req.autosubs), absent, ByRole);
    Sorting.SortByDistinct(req.picks, SlotPosition, SlotElement);
    Sorting.FilterDistinct(sorted, OnBench, SlotElement);
    BenchFilteredLength(bench, subs.usedBench);
    assert subs.usedBench * ElementsOf(bench) == subs.usedBench;
    Sorting.SortByPermutes(req.picks, SlotPosition);
    SidesCover(sorted);
  }

  /** Every pick is either in the XI or on the bench. */
  lemma {:induction false} SidesCover(s: seq<Slot>)
    ensures Sorting.Count(s, IsStarter) + Sorting.Count(s, OnBench) == |s|
  {
    if s != [] {
      SidesCover(s[1..]);
    }
  }

  /**
   * Autosubs are off under bench boost and when the request turns them off: the XI is the
   * starters and every reserve is scored.
   */
  lemma NoAutosubs(req: Inputs, table: map<int, Projected>, absent: int -> bool)
    requires ChipOf(req.activeChip) == BenchBoost || req.autosubs == Some("off")
    ensures SubsOf(req, table, absent) == Subs(StartersOf(req.picks), {})
    ensures ScoredSlots(req, table, absent) == StartersOf(req.picks) + BenchOf(req.picks)
  {
    AutosubsKeepsSlots(StartersOf(req.picks), BenchOf(req.picks), req.players, false,
      absent, ByRole);
    NothingFiltered(BenchOf(req.picks));
  }

  lemma {:induction false} NothingFiltered(bench: seq<Slot>)
    ensures BenchFiltered(bench, {}) == bench
  {
    if bench != [] {
      NothingFiltered(bench[1..]);
    }
  }

  /**
   * The vice-captain's promotion: when the captain is missing from the XI, is the falsy element
   * 0, or is surely absent, every vice-captain slot scores with at least 2 (3 under triple
   * captain); when the captain has played, every slot keeps its multiplier outside bench boost.
   */
  lemma ViceCaptainPromotion(req: Inputs, table: map<int, Projected>)
    ensures var absent := AbsentTest(req.fixtures, req.players, table);
      var c := ContextOf(req, table, absent);
      var cap := CaptainOf(SubsOf(req, table, absent).effective);
      var promoted := if ChipOf(req.activeChip) == TripleCaptain then 3 else 2;
      && (!c.capPlayed <==> cap.None? || cap.value == 0 || SurelyAbsent(req.fixtures, req.players, table, cap.value))
      && (forall s: Slot :: s.isViceCaptain && !c.capPlayed ==> Multiplier(c, s) >= promoted)
      && (forall s: Slot :: c.capPlayed && ChipOf(req.activeChip) != BenchBoost ==> Multiplier(c, s) == s.multiplier)
  {
  }
}
