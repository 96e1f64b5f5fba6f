/**
 * The older provisional bonus of `index.js`: competition ranks over each fixture's BPS list
 * (`assignRanks`), 3/2/1 points for ranks 1/2/3 in every fixture not yet settled, the largest
 * award over a player's fixtures (`computeProvisionalBonus`), and the projection builder that
 * adds it only when no bonus has been awarded yet (`buildProjected`).
 */
module LegacyBonus {
  import opened Wrappers
  import opened Fpl
  import Sorting
  import IndexBy
  import Projection
  import opened ProvisionalBonus

  // assignRanks

  /** The first position of the run of equal neighbours that position `i` is in. */
  function RunStart(values: seq<int>, i: nat): (j: nat)
    requires i < |values|
    ensures j <= i
  {
    if i == 0 || values[i] != values[i - 1] then i else RunStart(values, i - 1)
  }

  /** The run from `RunStart(values, i)` to `i` holds one value, and the position before it another. */
  lemma {:induction false} RunStartRun(values: seq<int>, i: nat)
    requires i < |values|
    ensures forall k :: RunStart(values, i) <= k <= i ==> values[k] == values[i]
    ensures RunStart(values, i) == 0 || values[RunStart(values, i) - 1] != values[RunStart(values, i)]
  {
    if !(i == 0 || values[i] != values[i - 1]) {
      RunStartRun(values, i - 1);
    }
  }

  /** `r <= 1 ? 1 : r <= 2 ? 2 : r <= 3 ? 3 : 4`, which on integers clamps `r` to 1..4. */
  function Cap(r: int): int { if r < 1 then 1 else if r > 4 then 4 else r }

  lemma CapMonotone(a: int, b: int)
    requires a <= b
    ensures Cap(a) <= Cap(b)
  {
  }

  /** The rank `assignRanks` gives position `i`: the 1-based start of its run, capped at 4. */
  function RankAt(values: seq<int>, i: nat): int
    requires i < |values|
  {
    Cap(RunStart(values, i) + 1)
  }

  /** The ranks `assignRanks` gives. */
  function Ranks(values: seq<int>): (ranks: seq<int>)
    ensures |ranks| == |values|
  {
    seq(|values|, i requires 0 <= i < |values| => RankAt(values, i))
  }

  /** `assignRanks(values)` */
  method AssignRanks(values: seq<int>) returns (ranks: seq<int>)
    ensures ranks == Ranks(values)
  {
    var raw: seq<int> := [];
    var rank := 0;
    var lastVal: Option<int> := None;
    var seen := 0;
    for i := 0 to |values|
      invariant seen == i && |raw| == i
      invariant forall k :: 0 <= k < i ==> raw[k] == RunStart(values, k) + 1
      invariant i == 0 ==> lastVal == None
      invariant i > 0 ==> lastVal == Some(values[i - 1]) && rank == RunStart(values, i - 1) + 1
    {
      var v := values[i];
      seen := seen + 1;
      if lastVal != Some(v) {
        rank := seen;
        lastVal := Some(v);
      }
      assert rank == RunStart(values, i) + 1;
      raw := raw + [rank];
    }
    ranks := seq(|raw|, k requires 0 <= k < |raw| => Cap(raw[k]));
    assert forall k :: 0 <= k < |values| ==> ranks[k] == RankAt(values, k) == Ranks(values)[k];
  }

  function Above(x: int): int -> bool { (v: int) => v > x }

  lemma {:induction false} CountAbovePrefix(values: seq<int>, j: nat, x: int)
    requires j <= |values|
    requires forall k :: 0 <= k < j ==> values[k] > x
    requires forall k :: j <= k < |values| ==> values[k] <= x
    ensures Sorting.Count(values, Above(x)) == j
  {
    if values != [] {
      var rest := values[1..];
      if j > 0 {
        CountAbovePrefix(rest, j - 1, x);
      } else {
        CountAbovePrefix(rest, 0, x);
      }
    }
  }

  predicate NonIncreasing(values: seq<int>) { forall i, j :: 0 <= i < j < |values| ==> values[i] >= values[j] }

  /** On a non-increasing list every value before a run is larger than the run's value. */
  lemma {:induction false} RunStartAbove(values: seq<int>, i: nat)
    requires NonIncreasing(values) && i < |values|
    ensures forall k :: 0 <= k < RunStart(values, i) ==> values[k] > values[i]
  {
    if i == 0 || values[i] != values[i - 1] {
      if i > 0 {
        assert values[i - 1] > values[i];
        forall k | 0 <= k < i ensures values[k] > values[i] {
          if k < i - 1 { assert values[k] >= values[i - 1]; }
        }
      }
    } else {
      RunStartAbove(values, i - 1);
    }
  }

  /** On a non-increasing list a run starts after exactly the values larger than its own. */
  lemma RunStartCount(values: seq<int>, i: nat)
    requires NonIncreasing(values) && i < |values|
    ensures Sorting.Count(values, Above(values[i])) == RunStart(values, i)
  {
    var j := RunStart(values, i);
    RunStartAbove(values, i);
    RunStartRun(values, i);
    forall k | j <= k < |values| ensures values[k] <= values[i] {
      if k > i { assert values[i] >= values[k]; }
    }
    CountAbovePrefix(values, j, values[i]);
  }

  /** On a non-increasing list later positions start later runs, and equal values share a run. */
  lemma RunStartOrder(values: seq<int>, i: nat, j: nat)
    requires NonIncreasing(values) && i < |values| && j < |values|
    ensures i <= j ==> RunStart(values, i) <= RunStart(values, j)
    ensures values[i] == values[j] ==> RunStart(values, i) == RunStart(values, j)
  {
    RunStartCount(values, i);
    RunStartCount(values, j);
    if i <= j {
      RunStartAbove(values, i);
      RunStartRun(values, j);
      var sj := RunStart(values, j);
      assert values[sj] == values[j] <= values[i];
      assert !(sj < RunStart(values, i));
    }
  }

  /** One position of a non-increasing list: its rank is one more than the number of larger values, capped. */
  lemma RankIsCompetition(values: seq<int>, i: nat)
    requires NonIncreasing(values) && i < |values|
    ensures Ranks(values)[i] == Cap(1 + Sorting.Count(values, Above(values[i])))
  {
    RunStartCount(values, i);
    assert Ranks(values)[i] == RankAt(values, i);
  }

  /**
   * On a non-increasing list `assignRanks` is competition ranking: a value's rank is one more
   * than the number of larger values, capped at 4.
   */
  lemma CompetitionRanks(values: seq<int>)
    requires NonIncreasing(values)
    ensures forall i :: 0 <= i < |values| ==> Ranks(values)[i] == Cap(1 + Sorting.Count(values, Above(values[i])))
  {
    forall i | 0 <= i < |values|
      ensures Ranks(values)[i] == Cap(1 + Sorting.Count(values, Above(values[i])))
    {
      RankIsCompetition(values, i);
    }
  }

  /** Two positions of a non-increasing list: ranks follow positions, and equal values share one. */
  lemma RankOrder(values: seq<int>, i: nat, j: nat)
    requires NonIncreasing(values) && i < |values| && j < |values|
    ensures i <= j ==> Ranks(values)[i] <= Ranks(values)[j]
    ensures values[i] == values[j] ==> Ranks(values)[i] == Ranks(values)[j]
  {
    RunStartOrder(values, i, j);
    if i <= j {
      CapMonotone(RunStart(values, i) + 1, RunStart(values, j) + 1);
    }
  }

  /** On a non-increasing list equal values share a rank, and ranks run from 1 to 4 without decreasing. */
  lemma RanksShared(values: seq<int>)
    requires NonIncreasing(values)
    ensures forall i, j :: 0 <= i < |values| && 0 <= j < |values| && values[i] == values[j] ==>
              Ranks(values)[i] == Ranks(values)[j]
    ensures forall i, j :: 0 <= i < j < |values| ==> Ranks(values)[i] <= Ranks(values)[j]
  {
    forall i, j | 0 <= i < |values| && 0 <= j < |values|
      ensures i <= j ==> Ranks(values)[i] <= Ranks(values)[j]
      ensures values[i] == values[j] ==> Ranks(values)[i] == Ranks(values)[j]
    {
      RankOrder(values, i, j);
    }
  }

  /** Every rank is 1, 2, 3 or 4, and the first value is ranked 1. */
  lemma RanksRange(values: seq<int>)
    ensures forall i :: 0 <= i < |values| ==> 1 <= Ranks(values)[i] <= 4
    ensures |values| > 0 ==> Ranks(values)[0] == 1
  {
  }

  /** `rank === 1 ? 3 : rank === 2 ? 2 : rank === 3 ? 1 : 0` */
  function RankBonus(rank: int): (b: int)
    ensures 0 <= b <= 3
    ensures b == 3 <==> rank == 1
    ensures b == 2 <==> rank == 2
    ensures b == 1 <==> rank == 3
  {
    if rank == 1 then 3 else if rank == 2 then 2 else if rank == 3 then 1 else 0
  }

  /**
   * Competition ranking in a fixture with two players tied on top BPS: both share rank 1 and
   * the 3 bonus points, the next player is ranked 3rd and gets 1, and the fourth gets none.
   */
  lemma TiedLeadersShareTopBonus()
    ensures Ranks([40, 40, 35, 20]) == [1, 1, 3, 4]
    ensures RankBonus(1) == 3 && RankBonus(3) == 1 && RankBonus(4) == 0
  {
    var v := [40, 40, 35, 20];
    assert RunStart(v, 0) == 0;
    assert RunStart(v, 1) == 0;
    assert RunStart(v, 2) == 2;
    assert RunStart(v, 3) == 3;
  }

  // computeProvisionalBonus: grouping by stint

  /** `Number(el.stats?.bps || 0)` */
  function LiveBps(el: LiveElement): int {
    if el.stats.Some? then el.stats.value.bps.GetOr(0) else 0
  }

  /** `{ id: el.id, bps }`, pushed once per stint of the element. */
  function ElementEntry(el: LiveElement): Entry { Entry(el.id, LiveBps(el)) }

  /** The `byFixture` Map: a list per fixture id, and the ids in insertion order (the Map's iteration order). */
  datatype Grouping = Grouping(byFixture: map<int, seq<Entry>>, order: seq<int>)

  const NoGroups := Grouping(map[], [])

  /** The list of fixture `fid`, empty when there is none. */
  function GroupAt(g: Grouping, fid: int): seq<Entry> {
    if fid in g.byFixture then g.byFixture[fid] else []
  }

  /** The Map's keys are its order's ids, each once. */
  ghost predicate WellOrdered(g: Grouping) {
    && (forall fid :: fid in g.byFixture <==> fid in g.order)
    && (forall i, j :: 0 <= i < j < |g.order| ==> g.order[i] != g.order[j])
  }

  /** A stint counts when its fixture id is truthy (`if (!s.fixture) continue`). */
  predicate Counts(s: Stint) { s.fixture.Some? && s.fixture.value != 0 }

  /** `byFixture.get(fid).push(e)`, after `byFixture.set(fid, [])` when the fixture is new. */
  function Push(g: Grouping, fid: int, e: Entry): Grouping {
    if fid in g.byFixture then g.(byFixture := g.byFixture[fid := g.byFixture[fid] + [e]])
    else Grouping(g.byFixture[fid := [e]], g.order + [fid])
  }

  /** The inner loop, over the stints of one element. */
  function PushStints(g: Grouping, e: Entry, stints: seq<Stint>): Grouping {
    if stints == [] then g
    else
      var g' := PushStints(g, e, stints[..|stints| - 1]);
      var s := stints[|stints| - 1];
      if Counts(s) then Push(g', s.fixture.value, e) else g'
  }

  /** `byFixture` after the outer loop has visited `elements`. */
  function GroupStints(elements: seq<LiveElement>): Grouping {
    if elements == [] then NoGroups
    else
      var el := elements[|elements| - 1];
      PushStints(GroupStints(elements[..|elements| - 1]), ElementEntry(el), el.explain.GetOr([]))
  }

  method PushStintsOf(g0: Grouping, e: Entry, stints: seq<Stint>) returns (g: Grouping)
    ensures g == PushStints(g0, e, stints)
  {
    g := g0;
    for k := 0 to |stints|
      invariant g == PushStints(g0, e, stints[..k])
    {
      assert stints[..k + 1][..k] == stints[..k];
      var s := stints[k];
      assert PushStints(g0, e, stints[..k + 1]) == if Counts(s) then Push(g, s.fixture.value, e) else g;
      if !Counts(s) {
        continue;
      }
      var fid := s.fixture.value;
      ghost var before := g;
      if fid !in g.byFixture {
        g := Grouping(g.byFixture[fid := []], g.order + [fid]);
      }
      g := g.(byFixture := g.byFixture[fid := g.byFixture[fid] + [e]]);
      if fid !in before.byFixture {
        assert [] + [e] == [e];
        assert g.byFixture == before.byFixture[fid := [e]];
      }
      assert g == Push(before, fid, e);
    }
    assert stints[..|stints|] == stints;
  }

  /** The first loop of `computeProvisionalBonus`: every counted stint of every element, in order. */
  method GroupByStint(elements: seq<LiveElement>) returns (g: Grouping)
    ensures g == GroupStints(elements)
  {
    g := NoGroups;
    for n := 0 to |elements|
      invariant g == GroupStints(elements[..n])
    {
      assert elements[..n + 1][..n] == elements[..n];
      var el := elements[n];
      g := PushStintsOf(g, ElementEntry(el), el.explain.GetOr([]));
    }
    assert elements[..|elements|] == elements;
  }

  /** Pushing keeps the Map's order in step with its keys, and adds `e` at the end of `fid`'s list only. */
  lemma PushEffect(g: Grouping, fid: int, e: Entry)
    requires WellOrdered(g)
    ensures WellOrdered(Push(g, fid, e))
    ensures forall f :: f in Push(g, fid, e).byFixture <==> f in g.byFixture || f == fid
    ensures forall f :: GroupAt(Push(g, fid, e), f) == if f == fid then GroupAt(g, f) + [e] else GroupAt(g, f)
  {
  }

  /** Some counted stint of the list is about fixture `fid`. */
  ghost predicate StintFor(stints: seq<Stint>, fid: int) {
    exists s :: s in stints && Counts(s) && s.fixture.value == fid
  }

  lemma {:induction false} PushStintsEffect(g: Grouping, e: Entry, stints: seq<Stint>)
    requires WellOrdered(g)
    ensures var r := PushStints(g, e, stints);
      && WellOrdered(r)
      && (forall f :: f in r.byFixture <==> f in g.byFixture || StintFor(stints, f))
      && (forall f, x :: x in GroupAt(r, f) <==> x in GroupAt(g, f) || (x == e && StintFor(stints, f)))
  {
    if stints != [] {
      var p := stints[..|stints| - 1];
      var s := stints[|stints| - 1];
      PushStintsEffect(g, e, p);
      var g' := PushStints(g, e, p);
      if Counts(s) {
        PushEffect(g', s.fixture.value, e);
      }
      assert stints == p + [s];
      forall f ensures StintFor(stints, f) <==> StintFor(p, f) || (Counts(s) && s.fixture.value == f) {
        if StintFor(stints, f) {
          var t :| t in stints && Counts(t) && t.fixture.value == f;
          if t != s { assert t in p; }
        }
      }
    }
  }

  /** Element `elements[k]` pushes entry `e` to fixture `fid`'s list. */
  ghost predicate Appears(elements: seq<LiveElement>, e: Entry, fid: int) {
    exists k :: 0 <= k < |elements| && ElementEntry(elements[k]) == e && StintFor(elements[k].explain.GetOr([]), fid)
  }

  /**
   * The grouping has a list for each fixture id some counted stint names, and for no other, with
   * the Map's order holding each of those ids once; fixture `fid`'s list holds the entry of every
   * element with a counted stint in it, and nothing else.
   */
  lemma {:induction false} GroupStintsEffect(elements: seq<LiveElement>)
    ensures var g := GroupStints(elements);
      && WellOrdered(g)
      && (forall f :: f in g.byFixture <==> exists k :: 0 <= k < |elements| && StintFor(elements[k].explain.GetOr([]), f))
      && (forall f, x :: x in GroupAt(g, f) <==> Appears(elements, x, f))
  {
    if elements != [] {
      var p := elements[..|elements| - 1];
      var el := elements[|elements| - 1];
      GroupStintsEffect(p);
      PushStintsEffect(GroupStints(p), ElementEntry(el), el.explain.GetOr([]));
      forall f, x ensures Appears(elements, x, f) <==> Appears(p, x, f) || (x == ElementEntry(el) && StintFor(el.explain.GetOr([]), f)) {
        if Appears(elements, x, f) {
          var k :| 0 <= k < |elements| && ElementEntry(elements[k]) == x && StintFor(elements[k].explain.GetOr([]), f);
          if k < |p| { assert elements[k] == p[k]; }
        }
        if Appears(p, x, f) {
          var k :| 0 <= k < |p| && ElementEntry(p[k]) == x && StintFor(p[k].explain.GetOr([]), f);
          assert elements[k] == p[k];
        }
      }
      forall f ensures (exists k :: 0 <= k < |elements| && StintFor(elements[k].explain.GetOr([]), f)) <==>
        (exists k :: 0 <= k < |p| && StintFor(p[k].explain.GetOr([]), f)) || StintFor(el.explain.GetOr([]), f)
      {
        if exists k :: 0 <= k < |p| && StintFor(p[k].explain.GetOr([]), f) {
          var k :| 0 <= k < |p| && StintFor(p[k].explain.GetOr([]), f);
          assert elements[k] == p[k];
        }
        if exists k :: 0 <= k < |elements| && StintFor(elements[k].explain.GetOr([]), f) {
          var k :| 0 <= k < |elements| && StintFor(elements[k].explain.GetOr([]), f);
          if k < |p| { assert elements[k] == p[k]; }
        }
      }
    }
  }

  // computeProvisionalBonus: the awards

  function FixtureId(f: Fixture): int { f.id }

  /**
   * `fixtureState[fxId]?.finished`: the state is keyed by fixture id, the last fixture listed
   * with an id winning; an id with no fixture reads as not finished.
   */
  function FixtureFinished(fixtures: seq<Fixture>, fid: int): bool {
    var state := IndexBy.Indexed(fixtures, FixtureId);
    fid in state && Settled(state[fid])
  }

  /** `players.map(p => p.bps)` */
  function BpsList(s: seq<Entry>): (r: seq<int>)
    ensures |r| == |s|
  {
    seq(|s|, i requires 0 <= i < |s| => s[i].bps)
  }

  /** The ranks of a fixture's sorted list: `assignRanks(players.map(p => p.bps))`. */
  function RanksOf(ranked: seq<Entry>): (r: seq<int>)
    ensures |r| == |ranked|
  {
    Ranks(BpsList(ranked))
  }

  /** `bonusByPlayer[id] = Math.max(bonusByPlayer[id] || 0, b)` */
  function Raise(bonus: map<int, int>, id: int, b: int): map<int, int> {
    bonus[id := Max(if id in bonus then bonus[id] else 0, b)]
  }

  /** The inner loop, over the first `n` players of one fixture's sorted list and their ranks. */
  function AwardRanked(bonus: map<int, int>, ranked: seq<Entry>, ranks: seq<int>, n: nat): map<int, int>
    requires n <= |ranked| == |ranks|
  {
    if n == 0 then bonus
    else Raise(AwardRanked(bonus, ranked, ranks, n - 1), ranked[n - 1].el, RankBonus(ranks[n - 1]))
  }

  /** A fixture's list sorted by descending BPS (a stable sort). */
  function SortedList(g: Grouping, fid: int): seq<Entry> { Ranked(GroupAt(g, fid)) }

  /** `bonusByPlayer` after the second loop has visited the fixtures `fids`, skipping the finished ones. */
  function AwardGroups(g: Grouping, fixtures: seq<Fixture>, fids: seq<int>): map<int, int> {
    if fids == [] then map[]
    else
      var prev := AwardGroups(g, fixtures, fids[..|fids| - 1]);
      var fid := fids[|fids| - 1];
      if FixtureFinished(fixtures, fid) then prev
      else AwardRanked(prev, SortedList(g, fid), RanksOf(SortedList(g, fid)), |SortedList(g, fid)|)
  }

  /** `computeProvisionalBonus(liveElements, fixtures)` */
  function LegacyProvisionalBonus(elements: seq<LiveElement>, fixtures: seq<Fixture>): map<int, int> {
    var g := GroupStints(elements);
    AwardGroups(g, fixtures, g.order)
  }

  /** The loop over one fixture's sorted players. */
  method AwardPlayers(b0: map<int, int>, players: seq<Entry>, ranks: seq<int>) returns (bonusByPlayer: map<int, int>)
    requires |ranks| == |players|
    ensures bonusByPlayer == AwardRanked(b0, players, ranks, |players|)
  {
    bonusByPlayer := b0;
    for i := 0 to |players|
      invariant bonusByPlayer == AwardRanked(b0, players, ranks, i)
    {
      var rank := ranks[i];
      var bonus := 0;
      if rank == 1 { bonus := 3; }
      else if rank == 2 { bonus := 2; }
      else if rank == 3 { bonus := 1; }
      bonusByPlayer := RaiseBonus(bonusByPlayer, players[i].el, bonus);
    }
  }

  /** `if (!bonusByPlayer[id]) bonusByPlayer[id] = 0;` then the `Math.max` update. */
  method RaiseBonus(b0: map<int, int>, id: int, bonus: int) returns (bonusByPlayer: map<int, int>)
    ensures bonusByPlayer == Raise(b0, id, bonus)
  {
    bonusByPlayer := b0;
    if id !in bonusByPlayer || bonusByPlayer[id] == 0 {
      bonusByPlayer := bonusByPlayer[id := 0];
    }
    bonusByPlayer := bonusByPlayer[id := Max(bonusByPlayer[id], bonus)];
  }

  /** `computeProvisionalBonus`: group the stints, then award every fixture that is not finished, in Map order. */
  method ComputeProvisionalBonus(liveElements: seq<LiveElement>, fixtures: seq<Fixture>) returns (bonusByPlayer: map<int, int>)
    ensures bonusByPlayer == LegacyProvisionalBonus(liveElements, fixtures)
  {
    var byFixture := GroupByStint(liveElements);
    var fixtureState := IndexBy.IndexBy(Some(fixtures), FixtureId);
    bonusByPlayer := map[];
    for n := 0 to |byFixture.order|
      invariant bonusByPlayer == AwardGroups(byFixture, fixtures, byFixture.order[..n])
    {
      assert byFixture.order[..n + 1][..n] == byFixture.order[..n];
      var fxId := byFixture.order[n];
      var finished := fxId in fixtureState && Settled(fixtureState[fxId]);
      if finished {
        continue;
      }
      var players := Sorting.SortBy(GroupAt(byFixture, fxId), NegBps);
      var ranks := AssignRanks(BpsList(players));
      bonusByPlayer := AwardPlayers(bonusByPlayer, players, ranks);
    }
    assert byFixture.order[..|byFixture.order|] == byFixture.order;
  }

  // Properties of computeProvisionalBonus

  /** One fixture's loop gives a value to every listed player and to no one else. */
  lemma {:induction false} AwardRankedKeys(prev: map<int, int>, ranked: seq<Entry>, ranks: seq<int>, k: nat)
    requires k <= |ranked| == |ranks|
    ensures forall id :: id in AwardRanked(prev, ranked, ranks, k) <==>
      id in prev || exists i :: 0 <= i < k && ranked[i].el == id
  {
    if k > 0 {
      AwardRankedKeys(prev, ranked, ranks, k - 1);
    }
  }

  /** One fixture's loop never lowers a value and gives every listed player at least the bonus of its rank. */
  lemma {:induction false} AwardRankedGrows(prev: map<int, int>, ranked: seq<Entry>, ranks: seq<int>, k: nat)
    requires k <= |ranked| == |ranks|
    ensures var r := AwardRanked(prev, ranked, ranks, k);
      && (forall id :: id in prev ==> id in r && r[id] >= prev[id])
      && (forall i :: 0 <= i < k ==> ranked[i].el in r && r[ranked[i].el] >= RankBonus(ranks[i]))
  {
    if k > 0 {
      AwardRankedGrows(prev, ranked, ranks, k - 1);
    }
  }

  /** After one fixture's loop each value is the earlier one or the bonus of one of the player's positions. */
  lemma {:induction false} AwardRankedValues(prev: map<int, int>, ranked: seq<Entry>, ranks: seq<int>, k: nat)
    requires k <= |ranked| == |ranks|
    requires forall id :: id in prev ==> prev[id] >= 0
    ensures var r := AwardRanked(prev, ranked, ranks, k);
      forall id :: id in r ==>
        && r[id] >= 0
        && ((id in prev && r[id] == prev[id])
            || (exists i :: 0 <= i < k && ranked[i].el == id && r[id] == RankBonus(ranks[i])))
  {
    if k > 0 {
      AwardRankedValues(prev, ranked, ranks, k - 1);
      var q := AwardRanked(prev, ranked, ranks, k - 1);
      var r := AwardRanked(prev, ranked, ranks, k);
      forall id | id in r
        ensures r[id] >= 0
        ensures (id in prev && r[id] == prev[id])
            || (exists i :: 0 <= i < k && ranked[i].el == id && r[id] == RankBonus(ranks[i]))
      {
        if id != ranked[k - 1].el {
          assert r[id] == q[id];
        } else if r[id] != RankBonus(ranks[k - 1]) {
          assert id in q && r[id] == q[id];
        }
      }
    }
  }

  /** Player `id` earns `b` in one of the fixtures `fids` that is not finished. */
  ghost predicate Earned(g: Grouping, fixtures: seq<Fixture>, fids: seq<int>, id: int, b: int) {
    exists m, i :: 0 <= m < |fids| && !FixtureFinished(fixtures, fids[m]) && 0 <= i < |SortedList(g, fids[m])|
      && SortedList(g, fids[m])[i].el == id && RankBonus(RanksOf(SortedList(g, fids[m]))[i]) == b
  }

  lemma EarnedPrefix(g: Grouping, fixtures: seq<Fixture>, fids: seq<int>, id: int, b: int)
    requires fids != []
    ensures var p, fid := fids[..|fids| - 1], fids[|fids| - 1];
      Earned(g, fixtures, fids, id, b) <==>
        || Earned(g, fixtures, p, id, b)
        || (&& !FixtureFinished(fixtures, fid)
            && (exists i :: 0 <= i < |SortedList(g, fid)|
                 && SortedList(g, fid)[i].el == id && RankBonus(RanksOf(SortedList(g, fid))[i]) == b))
  {
    var p := fids[..|fids| - 1];
    if Earned(g, fixtures, p, id, b) {
      var m, i :| 0 <= m < |p| && !FixtureFinished(fixtures, p[m]) && 0 <= i < |SortedList(g, p[m])|
        && SortedList(g, p[m])[i].el == id && RankBonus(RanksOf(SortedList(g, p[m]))[i]) == b;
      assert fids[m] == p[m];
    }
    if Earned(g, fixtures, fids, id, b) {
      var m, i :| 0 <= m < |fids| && !FixtureFinished(fixtures, fids[m]) && 0 <= i < |SortedList(g, fids[m])|
        && SortedList(g, fids[m])[i].el == id && RankBonus(RanksOf(SortedList(g, fids[m]))[i]) == b;
      if m < |p| { assert fids[m] == p[m]; }
    }
  }

  /**
   * `r` is the value map after the fixtures `fids`: a player has a value exactly when it earns
   * something in one of them that is not finished, and the value is the largest thing it earns.
   */
  ghost predicate MaxOver(g: Grouping, fixtures: seq<Fixture>, fids: seq<int>, r: map<int, int>) {
    && (forall id :: id in r ==> r[id] >= 0 && Earned(g, fixtures, fids, id, r[id]))
    && (forall id, b :: Earned(g, fixtures, fids, id, b) ==> id in r && r[id] >= b)
  }

  lemma {:induction false} AwardGroupsMax(g: Grouping, fixtures: seq<Fixture>, fids: seq<int>)
    ensures MaxOver(g, fixtures, fids, AwardGroups(g, fixtures, fids))
  {
    if fids != [] {
      var p, fid := fids[..|fids| - 1], fids[|fids| - 1];
      AwardGroupsMax(g, fixtures, p);
      var prev := AwardGroups(g, fixtures, p);
      var r := AwardGroups(g, fixtures, fids);
      var l := SortedList(g, fid);
      assert MaxOver(g, fixtures, p, prev);
      assert forall id :: id in prev ==> prev[id] >= 0;
      if !FixtureFinished(fixtures, fid) {
        AwardRankedKeys(prev, l, RanksOf(l), |l|);
        AwardRankedGrows(prev, l, RanksOf(l), |l|);
        AwardRankedValues(prev, l, RanksOf(l), |l|);
      }
      forall id | id in r ensures r[id] >= 0 && Earned(g, fixtures, fids, id, r[id]) {
        EarnedPrefix(g, fixtures, fids, id, r[id]);
        if id in prev && r[id] == prev[id] {
          EarnedPrefix(g, fixtures, fids, id, prev[id]);
        }
      }
      forall id, b | Earned(g, fixtures, fids, id, b) ensures id in r && r[id] >= b {
        EarnedPrefix(g, fixtures, fids, id, b);
      }
    }
  }

  /** The list of fixture `fid` sorted by descending BPS, as the second loop sees it. */
  function FixtureList(elements: seq<LiveElement>, fid: int): seq<Entry> { SortedList(GroupStints(elements), fid) }

  /**
   * A fixture's sorted list holds the entry (id and BPS) of every element with a counted stint
   * in the fixture, as often as the grouping pushed it, in descending order of BPS, so its ranks
   * are competition ranks.
   */
  lemma FixtureListContents(elements: seq<LiveElement>, fid: int)
    ensures var l := FixtureList(elements, fid);
      && (forall x :: x in l <==> Appears(elements, x, fid))
      && multiset(l) == multiset(GroupAt(GroupStints(elements), fid))
      && NonIncreasing(BpsList(l))
  {
    var grp := GroupAt(GroupStints(elements), fid);
    GroupStintsEffect(elements);
    Sorting.SortByPermutes(grp, NegBps);
    Sorting.SortBySorted(grp, NegBps);
    var l := FixtureList(elements, fid);
    forall x ensures x in l <==> x in grp {
      assert x in l <==> x in multiset(l);
    }
    forall i, j | 0 <= i < j < |l| ensures BpsList(l)[i] >= BpsList(l)[j] {
      assert NegBps(l[i]) <= NegBps(l[j]);
    }
  }

  /**
   * `computeProvisionalBonus`: every position of a fixture that is not finished (an unknown
   * fixture id counts as not finished) earns its player at least the bonus of its rank.
   */
  lemma LegacyBonusCovers(elements: seq<LiveElement>, fixtures: seq<Fixture>)
    ensures var r := LegacyProvisionalBonus(elements, fixtures);
      forall fid, i :: !FixtureFinished(fixtures, fid) && 0 <= i < |FixtureList(elements, fid)| ==>
        && FixtureList(elements, fid)[i].el in r
        && r[FixtureList(elements, fid)[i].el] >= RankBonus(RanksOf(FixtureList(elements, fid))[i])
  {
    var g := GroupStints(elements);
    GroupStintsEffect(elements);
    AwardGroupsMax(g, fixtures, g.order);
    assert MaxOver(g, fixtures, g.order, LegacyProvisionalBonus(elements, fixtures));
    forall fid, i | !FixtureFinished(fixtures, fid) && 0 <= i < |FixtureList(elements, fid)|
      ensures Earned(g, fixtures, g.order, FixtureList(elements, fid)[i].el, RankBonus(RanksOf(FixtureList(elements, fid))[i]))
    {
      assert fid in g.byFixture;
      var m :| 0 <= m < |g.order| && g.order[m] == fid;
    }
  }

  /**
   * `computeProvisionalBonus`: a player's value, between 0 and 3, is the bonus of one of its
   * positions in a fixture that is not finished; with the lemma above it is the largest such bonus.
   */
  lemma LegacyBonusValues(elements: seq<LiveElement>, fixtures: seq<Fixture>)
    ensures var r := LegacyProvisionalBonus(elements, fixtures);
      forall id :: id in r ==>
        && 0 <= r[id] <= 3
        && (exists fid, i ::
             && !FixtureFinished(fixtures, fid) && 0 <= i < |FixtureList(elements, fid)|
             && FixtureList(elements, fid)[i].el == id && r[id] == RankBonus(RanksOf(FixtureList(elements, fid))[i]))
  {
    var g := GroupStints(elements);
    AwardGroupsMax(g, fixtures, g.order);
    var r := LegacyProvisionalBonus(elements, fixtures);
    assert MaxOver(g, fixtures, g.order, r);
    forall id | id in r
      ensures 0 <= r[id] <= 3
      ensures exists fid, i ::
             && !FixtureFinished(fixtures, fid) && 0 <= i < |FixtureList(elements, fid)|
             && FixtureList(elements, fid)[i].el == id && r[id] == RankBonus(RanksOf(FixtureList(elements, fid))[i])
    {
      assert Earned(g, fixtures, g.order, id, r[id]);
      var m, i :| 0 <= m < |g.order| && !FixtureFinished(fixtures, g.order[m]) && 0 <= i < |SortedList(g, g.order[m])|
        && SortedList(g, g.order[m])[i].el == id && RankBonus(RanksOf(SortedList(g, g.order[m]))[i]) == r[id];
      assert FixtureList(elements, g.order[m]) == SortedList(g, g.order[m]);
    }
  }

  /** A player gets a provisional bonus only through a counted stint in a fixture that is not finished. */
  lemma LegacyBonusNeedsUnfinishedStint(elements: seq<LiveElement>, fixtures: seq<Fixture>, id: int)
    ensures id in LegacyProvisionalBonus(elements, fixtures) ==>
      exists fid, x: Entry :: x.el == id && Appears(elements, x, fid) && !FixtureFinished(fixtures, fid)
  {
    LegacyBonusValues(elements, fixtures);
    if id in LegacyProvisionalBonus(elements, fixtures) {
      var r := LegacyProvisionalBonus(elements, fixtures);
      var fid, i :| !FixtureFinished(fixtures, fid) && 0 <= i < |FixtureList(elements, fid)|
        && FixtureList(elements, fid)[i].el == id && r[id] == RankBonus(RanksOf(FixtureList(elements, fid))[i]);
      FixtureListContents(elements, fid);
      var x := FixtureList(elements, fid)[i];
      assert x in FixtureList(elements, fid);
      assert Appears(elements, x, fid);
    }
  }
}
