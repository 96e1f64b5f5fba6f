/**
 * `compute/provisionalBonus.ts` `applyProvisionalBonus`: while a fixture is not settled, the
 * three players of it with the highest BPS get 3, 2 and 1 provisional bonus points added to
 * their projected totals, in place in the projection dictionary.
 */
module ProvisionalBonus {
  import opened Wrappers
  import opened Fpl
  import Sorting
  import Projection

  // ---------------------------------------------------------------------------------------
  // The order of `for (const key in obj)` over integer keys

  predicate Increasing(r: seq<int>) { forall i, j :: 0 <= i < j < |r| ==> r[i] < r[j] }

  lemma {:induction false} MinExists(s: set<int>)
    requires s != {}
    ensures exists m :: m in s && forall y :: y in s ==> m <= y
    decreases |s|
  {
    if forall x :: x !in s {
      assert false;
    }
    var x :| x in s;
    if s == {x} {
      assert forall y :: y in s ==> x <= y;
    } else {
      MinExists(s - {x});
      var m :| m in s - {x} && forall y :: y in s - {x} ==> m <= y;
      var least := if x < m then x else m;
      forall y | y in s ensures least <= y {
        if y != x { assert y in s - {x}; }
      }
      assert least in s;
    }
  }

  /**
   * The keys of a set in ascending order. JavaScript visits the integer keys of an object in
   * ascending numeric order, whatever the order they were inserted in.
   */
  ghost function Ascending(s: set<int>): (r: seq<int>)
    ensures Increasing(r)
    ensures forall x :: x in r <==> x in s
    decreases |s|
  {
    if s == {} then []
    else
      MinExists(s);
      var m :| m in s && forall y :: y in s ==> m <= y;
      var rest := Ascending(s - {m});
      assert forall j :: 0 <= j < |rest| ==> m < rest[j] by {
        forall j | 0 <= j < |rest| ensures m < rest[j] { assert rest[j] in rest; }
      }
      [m] + rest
  }

  lemma IncreasingTail(a: seq<int>)
    requires a != [] && Increasing(a)
    ensures Increasing(a[1..])
    ensures forall x :: x in a[1..] <==> x in a && x != a[0]
  {
    forall x | x in a && x != a[0] ensures x in a[1..] {
      var i :| 0 <= i < |a| && a[i] == x;
      assert a[1..][i - 1] == x;
    }
  }

  lemma HeadIn(a: seq<int>)
    ensures a != [] ==> a[0] in a
  {
  }

  /** There is one increasing enumeration of a set. */
  lemma {:induction false} IncreasingUnique(a: seq<int>, b: seq<int>)
    requires Increasing(a) && Increasing(b)
    requires forall x :: x in a <==> x in b
    ensures a == b
    decreases |a|
  {
    HeadIn(a);
    HeadIn(b);
    if a != [] && b != [] {
      assert a[0] in b && b[0] in a;
      assert a[0] == b[0];
      IncreasingTail(a);
      IncreasingTail(b);
      IncreasingUnique(a[1..], b[1..]);
      assert a == [a[0]] + a[1..] && b == [b[0]] + b[1..];
    }
  }

  /** The integer keys of a dictionary, in the order `for..in` and `Object.keys` visit them. */
  method AscendingKeys(s: set<int>) returns (r: seq<int>)
    ensures r == Ascending(s)
  {
    r := [];
    var rest := s;
    while rest != {}
      invariant rest <= s
      invariant Increasing(r)
      invariant forall x :: x in r <==> x in s && x !in rest
      invariant forall x, y :: x in r && y in rest ==> x < y
      decreases |rest|
    {
      MinExists(rest);
      var m :| m in rest && forall y :: y in rest ==> m <= y;
      forall i | 0 <= i < |r| ensures r[i] < m { assert r[i] in r; }
      r := r + [m];
      rest := rest - {m};
    }
    IncreasingUnique(r, Ascending(s));
  }

  // ---------------------------------------------------------------------------------------
  // Grouping players by fixture

  /** `fixtures.find(f => f.team_h === teamId || f.team_a === teamId)` */
  function FixtureOfTeam(fixtures: seq<Fixture>, team: Option<int>): (r: Option<Fixture>)
    ensures r.Some? ==> Involves(r.value, team) && r.value in fixtures
    ensures r.None? <==> forall f :: f in fixtures ==> !Involves(f, team)
  {
    match Sorting.FindFirst(fixtures, (f: Fixture) => Involves(f, team))
    case None => None
    case Some(i) => Some(fixtures[i])
  }

  /** `fixtures.find(f => f.id === fid)` */
  function FixtureById(fixtures: seq<Fixture>, fid: int): (r: Option<Fixture>)
    ensures r.Some? ==> r.value.id == fid && r.value in fixtures
    ensures r.None? <==> forall f :: f in fixtures ==> f.id != fid
  {
    match Sorting.FindFirst(fixtures, (f: Fixture) => f.id == fid)
    case None => None
    case Some(i) => Some(fixtures[i])
  }

  /** `{ el, bps }`, one candidate for a fixture's bonus. */
  datatype Entry = Entry(el: int, bps: int)

  function EntryOf(table: map<int, Projected>, el: int): Entry { Entry(el, BpsOf(table, el)) }

  /** The fixture a player is grouped under: the first fixture of the player's team, if any. */
  function GroupOf(fixtures: seq<Fixture>, players: map<int, Player>, el: int): Option<int> {
    match FixtureOfTeam(fixtures, TeamOf(players, el))
    case None => None
    case Some(fx) => Some(fx.id)
  }

  /** `byFixture` after the first loop has visited the players `ks`, in order. */
  function GroupsOf(ks: seq<int>, table: map<int, Projected>, fixtures: seq<Fixture>, players: map<int, Player>)
    : map<int, seq<Entry>>
  {
    if ks == [] then map[]
    else
      var g := GroupsOf(ks[..|ks| - 1], table, fixtures, players);
      var el := ks[|ks| - 1];
      match GroupOf(fixtures, players, el)
      case None => g
      case Some(fid) => g[fid := (if fid in g then g[fid] else []) + [EntryOf(table, el)]]
  }

  predicate IncreasingEls(s: seq<Entry>) { forall i, j :: 0 <= i < j < |s| ==> s[i].el < s[j].el }

  /** There is a group for each fixture some visited player is grouped under, and for no other. */
  lemma {:induction false} GroupsOfKeys(ks: seq<int>, table: map<int, Projected>, fixtures: seq<Fixture>,
                                        players: map<int, Player>)
    ensures forall fid :: fid in GroupsOf(ks, table, fixtures, players) <==>
      exists k :: k in ks && GroupOf(fixtures, players, k) == Some(fid)
  {
    if ks != [] {
      var p := ks[..|ks| - 1];
      GroupsOfKeys(p, table, fixtures, players);
      assert ks == p + [ks[|ks| - 1]];
    }
  }

  /** A group holds only entries of visited players grouped under its fixture, with their BPS. */
  lemma {:induction false} GroupsOfSound(ks: seq<int>, table: map<int, Projected>, fixtures: seq<Fixture>,
                                         players: map<int, Player>)
    ensures var g := GroupsOf(ks, table, fixtures, players);
      forall fid, e :: fid in g && e in g[fid] ==>
        e.el in ks && GroupOf(fixtures, players, e.el) == Some(fid) && e == EntryOf(table, e.el)
  {
    if ks != [] {
      var p, el := ks[..|ks| - 1], ks[|ks| - 1];
      GroupsOfSound(p, table, fixtures, players);
      assert ks == p + [el];
      var g := GroupsOf(ks, table, fixtures, players);
      var gp := GroupsOf(p, table, fixtures, players);
      forall fid, e: Entry | fid in g && e in g[fid]
        ensures e.el in ks && GroupOf(fixtures, players, e.el) == Some(fid) && e == EntryOf(table, e.el)
      {
        if GroupOf(fixtures, players, el) == Some(fid) {
          var old_ := if fid in gp then gp[fid] else [];
          assert g[fid] == old_ + [EntryOf(table, el)];
          if e != EntryOf(table, el) { assert e in old_; }
        } else {
          assert g[fid] == gp[fid];
        }
      }
    }
  }

  /** Every visited player that has a fixture is in the group of that fixture. */
  lemma {:induction false} GroupsOfComplete(ks: seq<int>, table: map<int, Projected>, fixtures: seq<Fixture>,
                                            players: map<int, Player>)
    ensures var g := GroupsOf(ks, table, fixtures, players);
      forall k :: k in ks && GroupOf(fixtures, players, k).Some? ==>
        GroupOf(fixtures, players, k).value in g && EntryOf(table, k) in g[GroupOf(fixtures, players, k).value]
  {
    if ks != [] {
      var p := ks[..|ks| - 1];
      GroupsOfComplete(p, table, fixtures, players);
      assert ks == p + [ks[|ks| - 1]];
    }
  }

  /** When the players are visited in ascending order, each group is in ascending order of player id. */
  lemma {:induction false} GroupsOfIncreasing(ks: seq<int>, table: map<int, Projected>, fixtures: seq<Fixture>,
                                              players: map<int, Player>)
    requires Increasing(ks)
    ensures var g := GroupsOf(ks, table, fixtures, players);
      forall fid :: fid in g ==> IncreasingEls(g[fid])
  {
    if ks != [] {
      var p, el := ks[..|ks| - 1], ks[|ks| - 1];
      assert Increasing(p);
      GroupsOfIncreasing(p, table, fixtures, players);
      GroupsOfSound(p, table, fixtures, players);
      var g := GroupsOf(ks, table, fixtures, players);
      var gp := GroupsOf(p, table, fixtures, players);
      var home := GroupOf(fixtures, players, el);
      if home.Some? && home.value in gp {
        var fid := home.value;
        forall e: Entry | e in gp[fid] ensures e.el < el {
          var i :| 0 <= i < |p| && p[i] == e.el;
          assert ks[i] == e.el;
        }
        var s := gp[fid] + [EntryOf(table, el)];
        forall i, j | 0 <= i < j < |s| ensures s[i].el < s[j].el {
          assert s[i] == gp[fid][i];
          if j < |s| - 1 { assert s[j] == gp[fid][j]; } else { assert s[i] in gp[fid]; }
        }
        assert g[fid] == s;
      }
      forall fid | fid in g ensures IncreasingEls(g[fid]) {
        if home != Some(fid) { assert g[fid] == gp[fid]; }
      }
    }
  }

  // ---------------------------------------------------------------------------------------
  // Awarding 3, 2, 1

  /** `[3, 2, 1][i] || 0` */
  function Award(i: nat): int { if i < 3 then 3 - i else 0 }

  function NegBps(e: Entry): int { -e.bps }

  function EntryEl(e: Entry): int { e.el }

  /** `byFixture[fid].sort((a, b) => b.bps - a.bps)`: a stable sort by descending BPS. */
  function Ranked(group: seq<Entry>): seq<Entry> { Sorting.SortBy(group, NegBps) }

  /** `.slice(0, 3)` of the ranking. */
  function Top(group: seq<Entry>): seq<Entry> {
    var r := Ranked(group);
    if |r| <= 3 then r else r[..3]
  }

  /** The dictionary after `top.forEach((t, i) => ...)` has run over `top`; a missing record starts as `{ projected_total: 0 }`. */
  function Awarded(t: map<int, Projected>, top: seq<Entry>): map<int, Projected> {
    if top == [] then t
    else
      var t' := Awarded(t, top[..|top| - 1]);
      var e := top[|top| - 1];
      var cur := if e.el in t' then t'[e.el] else Projection.Blank;
      t'[e.el := cur.(projectedTotal := cur.projectedTotal + Award(|top| - 1))]
  }

  /** The dictionary after the second loop has visited the fixture ids `fids`, in order. */
  function ApplyGroups(t: map<int, Projected>, groups: map<int, seq<Entry>>, fids: seq<int>, fixtures: seq<Fixture>)
    : map<int, Projected>
  {
    if fids == [] then t
    else
      var t' := ApplyGroups(t, groups, fids[..|fids| - 1], fixtures);
      var fid := fids[|fids| - 1];
      if fid !in groups then t'
      else
        match FixtureById(fixtures, fid)
        case None => t'
        case Some(fx) => if Settled(fx) then t' else Awarded(t', Top(groups[fid]))
  }

  /** The projection dictionary `applyProvisionalBonus` leaves. */
  ghost function WithProvisionalBonus(table: map<int, Projected>, fixtures: seq<Fixture>, players: map<int, Player>)
    : map<int, Projected>
  {
    var groups := GroupsOf(Ascending(table.Keys), table, fixtures, players);
    ApplyGroups(table, groups, Ascending(groups.Keys), fixtures)
  }

  /** The projection dictionary `projectedById`, updated in place. */
  class ProjectionTable {
    var byId: map<int, Projected>

    constructor(byId: map<int, Projected>)
      ensures this.byId == byId
    {
      this.byId := byId;
    }

    /** `top.forEach((t, i) => { ... projected_total += bonus[i] || 0 })` */
    method AwardTop(top: seq<Entry>)
      modifies this
      ensures byId == Awarded(old(byId), top)
    {
      var k := 0;
      while k < |top|
        invariant 0 <= k <= |top|
        invariant byId == Awarded(old(byId), top[..k])
      {
        assert top[..k + 1][..k] == top[..k];
        var t := top[k];
        var inc := Award(k);
        if t.el !in byId {
          byId := byId[t.el := Projection.Blank];
        }
        byId := byId[t.el := byId[t.el].(projectedTotal := byId[t.el].projectedTotal + inc)];
        k := k + 1;
      }
      assert top[..k] == top;
    }

    /** The second loop of `applyProvisionalBonus`, over the fixture ids `fids` of the groups. */
    method AwardFixtures(byFixture: map<int, seq<Entry>>, fids: seq<int>, fixtures: seq<Fixture>)
      requires forall fid :: fid in fids ==> fid in byFixture
      modifies this
      ensures byId == ApplyGroups(old(byId), byFixture, fids, fixtures)
    {
      var n := 0;
      while n < |fids|
        invariant 0 <= n <= |fids|
        invariant byId == ApplyGroups(old(byId), byFixture, fids[..n], fixtures)
      {
        assert fids[..n + 1][..n] == fids[..n];
        var fid := fids[n];
        assert fid in fids;
        ghost var before := byId;
        var fx := FixtureById(fixtures, fid);
        if fx.Some? && !Settled(fx.value) {
          AwardTop(Top(byFixture[fid]));
        }
        assert ApplyGroups(old(byId), byFixture, fids[..n + 1], fixtures)
            == if fx.Some? && !Settled(fx.value) then Awarded(before, Top(byFixture[fid])) else before;
        n := n + 1;
      }
      assert fids[..n] == fids;
    }

    /** `applyProvisionalBonus(projectedById, fixtures, playersById)` */
    method ApplyProvisionalBonus(fixtures: seq<Fixture>, players: map<int, Player>)
      modifies this
      ensures byId == WithProvisionalBonus(old(byId), fixtures, players)
    {
      var keys := AscendingKeys(byId.Keys);
      var byFixture := GroupByFixture(keys, byId, fixtures, players);
      var fids := AscendingKeys(byFixture.Keys);
      AwardFixtures(byFixture, fids, fixtures);
    }
  }

  /** The first loop of `applyProvisionalBonus`: `(byFixture[fx.id] ||= []).push({ el, bps })` for each player, in order. */
  method GroupByFixture(keys: seq<int>, table: map<int, Projected>, fixtures: seq<Fixture>, players: map<int, Player>)
    returns (byFixture: map<int, seq<Entry>>)
    ensures byFixture == GroupsOf(keys, table, fixtures, players)
  {
    byFixture := map[];
    var i := 0;
    while i < |keys|
      invariant 0 <= i <= |keys|
      invariant byFixture == GroupsOf(keys[..i], table, fixtures, players)
    {
      assert keys[..i + 1][..i] == keys[..i];
      var elId := keys[i];
      var teamId := TeamOf(players, elId);
      var fx := FixtureOfTeam(fixtures, teamId);
      if fx.Some? {
        var fid := fx.value.id;
        byFixture := byFixture[fid := (if fid in byFixture then byFixture[fid] else []) + [Entry(elId, BpsOf(table, elId))]];
      }
      i := i + 1;
    }
    assert keys[..i] == keys;
  }

  // ---------------------------------------------------------------------------------------
  // What the bonus is

  /** The points the entries of `top` give player `el`: `bonus[i]` for each position `i` it holds. */
  function AwardSum(top: seq<Entry>, el: int): int {
    if top == [] then 0
    else AwardSum(top[..|top| - 1], el) + (if top[|top| - 1].el == el then Award(|top| - 1) else 0)
  }

  /** The points the group of fixture `fid` gives player `el`: none when the fixture is unknown or settled. */
  function GroupAward(groups: map<int, seq<Entry>>, fid: int, fixtures: seq<Fixture>, el: int): int {
    if fid !in groups then 0
    else
      match FixtureById(fixtures, fid)
      case None => 0
      case Some(fx) => if Settled(fx) then 0 else AwardSum(Top(groups[fid]), el)
  }

  function GroupsSum(groups: map<int, seq<Entry>>, fids: seq<int>, fixtures: seq<Fixture>, el: int): int {
    if fids == [] then 0
    else GroupsSum(groups, fids[..|fids| - 1], fixtures, el) + GroupAward(groups, fids[|fids| - 1], fixtures, el)
  }

  /** Awarding `top` adds `AwardSum(top, k)` to each existing record's projected total and changes nothing else in it. */
  lemma {:induction false} AwardedAt(t: map<int, Projected>, top: seq<Entry>)
    ensures Awarded(t, top).Keys == t.Keys + set e | e in top :: e.el
    ensures forall k :: k in t ==>
      Awarded(t, top)[k] == t[k].(projectedTotal := t[k].projectedTotal + AwardSum(top, k))
  {
    if top != [] {
      var p := top[..|top| - 1];
      AwardedAt(t, p);
      assert top == p + [top[|top| - 1]];
    }
  }

  lemma TopFromGroup(group: seq<Entry>)
    ensures forall e :: e in Top(group) ==> e in group
  {
    Sorting.SortByPermutes(group, NegBps);
    forall e | e in Top(group) ensures e in group {
      assert e in Ranked(group);
      assert e in multiset(Ranked(group));
    }
  }

  lemma {:induction false} ApplyGroupsAt(t: map<int, Projected>, groups: map<int, seq<Entry>>, fids: seq<int>,
                                         fixtures: seq<Fixture>)
    requires forall fid, e :: fid in groups && e in groups[fid] ==> e.el in t
    ensures ApplyGroups(t, groups, fids, fixtures).Keys == t.Keys
    ensures forall k :: k in t ==>
      ApplyGroups(t, groups, fids, fixtures)[k] == t[k].(projectedTotal := t[k].projectedTotal + GroupsSum(groups, fids, fixtures, k))
  {
    if fids != [] {
      var p, fid := fids[..|fids| - 1], fids[|fids| - 1];
      ApplyGroupsAt(t, groups, p, fixtures);
      var t' := ApplyGroups(t, groups, p, fixtures);
      if fid in groups {
        var fx := FixtureById(fixtures, fid);
        if fx.Some? && !Settled(fx.value) {
          TopFromGroup(groups[fid]);
          AwardedAt(t', Top(groups[fid]));
        }
      }
    }
  }

  lemma {:induction false} AwardSumAbsent(top: seq<Entry>, el: int)
    requires forall e :: e in top ==> e.el != el
    ensures AwardSum(top, el) == 0
  {
    if top != [] {
      var p := top[..|top| - 1];
      assert forall e :: e in p ==> e in top;
      AwardSumAbsent(p, el);
    }
  }

  lemma {:induction false} AwardSumAt(top: seq<Entry>, el: int, i: nat)
    requires Sorting.DistinctBy(top, EntryEl)
    requires i < |top| && top[i].el == el
    ensures AwardSum(top, el) == Award(i)
  {
    var p := top[..|top| - 1];
    assert Sorting.DistinctBy(p, EntryEl);
    if i == |top| - 1 {
      forall e | e in p ensures e.el != el {
        var j :| 0 <= j < |p| && p[j] == e;
        assert EntryEl(top[j]) != EntryEl(top[i]);
      }
      AwardSumAbsent(p, el);
    } else {
      assert EntryEl(top[i]) != EntryEl(top[|top| - 1]);
      AwardSumAt(p, el, i);
    }
  }

  /** Summing over distinct fixtures when only fixture `fid0` gives player `el` anything. */
  lemma {:induction false} GroupsSumOne(groups: map<int, seq<Entry>>, fids: seq<int>, fixtures: seq<Fixture>,
                                        el: int, fid0: int)
    requires Increasing(fids)
    requires forall fid :: fid != fid0 ==> GroupAward(groups, fid, fixtures, el) == 0
    ensures GroupsSum(groups, fids, fixtures, el) == if fid0 in fids then GroupAward(groups, fid0, fixtures, el) else 0
  {
    if fids != [] {
      var p := fids[..|fids| - 1];
      assert Increasing(p);
      GroupsSumOne(groups, p, fixtures, el, fid0);
      assert fids == p + [fids[|fids| - 1]];
      if fids[|fids| - 1] == fid0 {
        forall k | 0 <= k < |p| ensures p[k] != fid0 { assert fids[k] < fids[|fids| - 1]; }
      }
    }
  }

  /** The players grouped under fixture `fid`, in ascending id order. */
  ghost function Group(table: map<int, Projected>, fixtures: seq<Fixture>, players: map<int, Player>, fid: int)
    : seq<Entry>
  {
    var g := GroupsOf(Ascending(table.Keys), table, fixtures, players);
    if fid in g then g[fid] else []
  }

  /** The provisional bonus of player `el`: what the group of the player's fixture awards it. */
  ghost function BonusOf(table: map<int, Projected>, fixtures: seq<Fixture>, players: map<int, Player>, el: int): int {
    match GroupOf(fixtures, players, el)
    case None => 0
    case Some(fid) => GroupAward(GroupsOf(Ascending(table.Keys), table, fixtures, players), fid, fixtures, el)
  }

  /**
   * `applyProvisionalBonus` keeps the dictionary's keys, and changes each record only by adding
   * the player's provisional bonus to `projected_total`.
   */
  lemma ProvisionalBonusEffect(table: map<int, Projected>, fixtures: seq<Fixture>, players: map<int, Player>)
    ensures var r := WithProvisionalBonus(table, fixtures, players);
      && r.Keys == table.Keys
      && forall el :: el in table ==>
           r[el] == table[el].(projectedTotal := table[el].projectedTotal + BonusOf(table, fixtures, players, el))
  {
    var ks := Ascending(table.Keys);
    var groups := GroupsOf(ks, table, fixtures, players);
    var fids := Ascending(groups.Keys);
    assert WithProvisionalBonus(table, fixtures, players) == ApplyGroups(table, groups, fids, fixtures);
    GroupsInTable(table, fixtures, players, groups);
    ApplyGroupsAt(table, groups, fids, fixtures);
    SumsAreBonus(table, fixtures, players, groups, fids);
  }

  /** Every entry of a group is a player of the dictionary. */
  lemma GroupsInTable(table: map<int, Projected>, fixtures: seq<Fixture>, players: map<int, Player>,
                      groups: map<int, seq<Entry>>)
    requires groups == GroupsOf(Ascending(table.Keys), table, fixtures, players)
    ensures forall fid, e :: fid in groups && e in groups[fid] ==> e.el in table
  {
    var ks := Ascending(table.Keys);
    GroupsOfSound(ks, table, fixtures, players);
    assert forall f, e: Entry :: f in GroupsOf(ks, table, fixtures, players) && e in GroupsOf(ks, table, fixtures, players)[f] ==> e.el in ks;
  }

  /** Every player in the dictionary gets, summed over all groups, its provisional bonus. */
  lemma SumsAreBonus(table: map<int, Projected>, fixtures: seq<Fixture>, players: map<int, Player>,
                     groups: map<int, seq<Entry>>, fids: seq<int>)
    requires groups == GroupsOf(Ascending(table.Keys), table, fixtures, players) && fids == Ascending(groups.Keys)
    ensures forall el :: el in table ==> GroupsSum(groups, fids, fixtures, el) == BonusOf(table, fixtures, players, el)
  {
    var ks := Ascending(table.Keys);
    forall el | el in table
      ensures GroupsSum(groups, fids, fixtures, el) == BonusOf(table, fixtures, players, el)
    {
      assert el in ks;
      GroupsSumIsBonus(ks, groups, fids, table, fixtures, players, el);
    }
  }

  /** Over all groups, a visited player gets exactly what the group of its own fixture awards it. */
  lemma GroupsSumIsBonus(ks: seq<int>, groups: map<int, seq<Entry>>, fids: seq<int>, table: map<int, Projected>,
                         fixtures: seq<Fixture>, players: map<int, Player>, el: int)
    requires groups == GroupsOf(ks, table, fixtures, players)
    requires Increasing(fids) && forall fid :: fid in fids <==> fid in groups
    requires el in ks
    ensures GroupsSum(groups, fids, fixtures, el) ==
      if GroupOf(fixtures, players, el).None? then 0 else GroupAward(groups, GroupOf(fixtures, players, el).value, fixtures, el)
  {
    GroupsOfSound(ks, table, fixtures, players);
    var home := GroupOf(fixtures, players, el);
    var fid0 := if home.Some? then home.value else 0;
    forall fid | fid != fid0 || home.None? ensures GroupAward(groups, fid, fixtures, el) == 0 {
      if fid in groups {
        TopFromGroup(groups[fid]);
        AwardSumAbsent(Top(groups[fid]), el);
      }
    }
    GroupsSumOne(groups, fids, fixtures, el, fid0);
    if home.Some? {
      GroupsOfComplete(ks, table, fixtures, players);
    }
  }

  // ---------------------------------------------------------------------------------------
  // The provisional bonus, by rank

  /** A player with no fixture, or whose fixture is unknown by id or settled, keeps its record. */
  lemma NoBonusWhenSettled(table: map<int, Projected>, fixtures: seq<Fixture>, players: map<int, Player>, el: int)
    requires el in table
    requires var home := GroupOf(fixtures, players, el);
      home.None? || FixtureById(fixtures, home.value).None? || Settled(FixtureById(fixtures, home.value).value)
    ensures el in WithProvisionalBonus(table, fixtures, players)
    ensures WithProvisionalBonus(table, fixtures, players)[el] == table[el]
  {
    ProvisionalBonusEffect(table, fixtures, players);
  }

  /**
   * The group of a fixture in ascending id order: the entry (id and BPS) of every player of the
   * dictionary grouped under the fixture, and nothing else.
   */
  lemma GroupContents(table: map<int, Projected>, fixtures: seq<Fixture>, players: map<int, Player>, fid: int)
    ensures var g := Group(table, fixtures, players, fid);
      && IncreasingEls(g)
      && (forall e :: e in g ==> e.el in table && GroupOf(fixtures, players, e.el) == Some(fid) && e == EntryOf(table, e.el))
      && (forall el :: el in table && GroupOf(fixtures, players, el) == Some(fid) ==> EntryOf(table, el) in g)
  {
    GroupInOrder(table, fixtures, players, fid);
    GroupOnlyMembers(table, fixtures, players, fid);
    GroupAllMembers(table, fixtures, players, fid);
  }

  lemma GroupInOrder(table: map<int, Projected>, fixtures: seq<Fixture>, players: map<int, Player>, fid: int)
    ensures IncreasingEls(Group(table, fixtures, players, fid))
  {
    var ks := Ascending(table.Keys);
    var gs := GroupsOf(ks, table, fixtures, players);
    assert Group(table, fixtures, players, fid) == (if fid in gs then gs[fid] else []);
    GroupsOfIncreasing(ks, table, fixtures, players);
    assert forall f :: f in GroupsOf(ks, table, fixtures, players) ==> IncreasingEls(GroupsOf(ks, table, fixtures, players)[f]);
  }

  lemma GroupOnlyMembers(table: map<int, Projected>, fixtures: seq<Fixture>, players: map<int, Player>, fid: int)
    ensures var g := Group(table, fixtures, players, fid);
      forall e :: e in g ==> e.el in table && GroupOf(fixtures, players, e.el) == Some(fid) && e == EntryOf(table, e.el)
  {
    var ks := Ascending(table.Keys);
    var gs := GroupsOf(ks, table, fixtures, players);
    GroupsOfSound(ks, table, fixtures, players);
    assert forall f, e: Entry :: f in GroupsOf(ks, table, fixtures, players) && e in GroupsOf(ks, table, fixtures, players)[f] ==>
      e.el in ks && GroupOf(fixtures, players, e.el) == Some(f) && e == EntryOf(table, e.el);
    forall e | e in Group(table, fixtures, players, fid)
      ensures e.el in table && GroupOf(fixtures, players, e.el) == Some(fid) && e == EntryOf(table, e.el)
    {
      assert fid in gs && e in gs[fid];
      assert e.el in ks;
    }
  }

  lemma GroupAllMembers(table: map<int, Projected>, fixtures: seq<Fixture>, players: map<int, Player>, fid: int)
    ensures forall el :: el in table && GroupOf(fixtures, players, el) == Some(fid) ==>
      EntryOf(table, el) in Group(table, fixtures, players, fid)
  {
    var ks := Ascending(table.Keys);
    GroupsOfComplete(ks, table, fixtures, players);
    forall el | el in table && GroupOf(fixtures, players, el) == Some(fid)
      ensures EntryOf(table, el) in Group(table, fixtures, players, fid)
    {
      assert el in ks;
    }
  }

  /**
   * The ranking of a group in ascending id order: a permutation of the group, in descending
   * order of BPS, each player at most once.
   */
  lemma RankingOf(g: seq<Entry>)
    requires IncreasingEls(g)
    ensures var r := Ranked(g);
      && multiset(r) == multiset(g)
      && (forall i, j :: 0 <= i < j < |r| ==> r[i].bps >= r[j].bps)
      && Sorting.DistinctBy(r, EntryEl)
  {
    assert Sorting.DistinctBy(g, EntryEl);
    Sorting.SortByDistinct(g, NegBps, EntryEl);
    Sorting.SortByPermutes(g, NegBps);
    Sorting.SortBySorted(g, NegBps);
    var r := Ranked(g);
    forall i, j | 0 <= i < j < |r| ensures r[i].bps >= r[j].bps {
      assert NegBps(r[i]) <= NegBps(r[j]);
    }
  }

  /** The player at position `i` of a group's ranking gets `Award(i)` from the top three. */
  lemma AwardByPosition(g: seq<Entry>, el: int, i: nat)
    requires IncreasingEls(g)
    requires i < |Ranked(g)| && Ranked(g)[i].el == el
    ensures AwardSum(Top(g), el) == Award(i)
  {
    var r := Ranked(g);
    var top := Top(g);
    RankingOf(g);
    if i < |top| {
      assert top[i] == r[i];
      assert Sorting.DistinctBy(top, EntryEl);
      AwardSumAt(top, el, i);
    } else {
      forall e | e in top ensures e.el != el {
        var j :| 0 <= j < |top| && top[j] == e;
        assert r[j] == e;
        assert EntryEl(r[j]) != EntryEl(r[i]);
      }
      AwardSumAbsent(top, el);
    }
  }

  /** Of two entries of a group, the one with more BPS, or equal BPS and the lower id, is ranked first. */
  lemma RankedFirst(g: seq<Entry>, e1: Entry, e2: Entry, i1: nat, i2: nat)
    requires IncreasingEls(g)
    requires e1 in g && e2 in g
    requires e1.bps > e2.bps || (e1.bps == e2.bps && e1.el < e2.el)
    requires i1 < |Ranked(g)| && Ranked(g)[i1] == e1 && i2 < |Ranked(g)| && Ranked(g)[i2] == e2
    ensures i1 < i2
  {
    var r := Ranked(g);
    RankingOf(g);
    if e1.bps == e2.bps {
      assert Sorting.Before(g, e1, e2) by {
        var a :| 0 <= a < |g| && g[a] == e1;
        var b :| 0 <= b < |g| && g[b] == e2;
        assert a < b;
      }
      Sorting.SortByKeepsTieOrder(g, NegBps, e1, e2);
      var a, b :| 0 <= a < b < |r| && r[a] == e1 && r[b] == e2;
      assert EntryEl(r[a]) == EntryEl(r[i1]) && EntryEl(r[b]) == EntryEl(r[i2]);
    }
  }

  /** In an unsettled fixture, the bonus of a player is the award of its group for it. */
  lemma BonusIsGroupAward(table: map<int, Projected>, fixtures: seq<Fixture>, players: map<int, Player>, el: int, fid: int)
    requires el in table && GroupOf(fixtures, players, el) == Some(fid)
    requires FixtureById(fixtures, fid).Some? && !Settled(FixtureById(fixtures, fid).value)
    ensures BonusOf(table, fixtures, players, el) == AwardSum(Top(Group(table, fixtures, players, fid)), el)
  {
    var ks := Ascending(table.Keys);
    GroupsOfComplete(ks, table, fixtures, players);
    assert el in ks;
  }

  /** In an unsettled fixture every player of the fixture has a position in the ranking, and its bonus is the award of that position. */
  lemma PositionInRanking(table: map<int, Projected>, fixtures: seq<Fixture>, players: map<int, Player>, el: int, fid: int)
    returns (k: nat)
    requires el in table && GroupOf(fixtures, players, el) == Some(fid)
    requires FixtureById(fixtures, fid).Some? && !Settled(FixtureById(fixtures, fid).value)
    ensures var g := Group(table, fixtures, players, fid);
      && IncreasingEls(g) && EntryOf(table, el) in g
      && k < |Ranked(g)| && Ranked(g)[k] == EntryOf(table, el)
      && BonusOf(table, fixtures, players, el) == Award(k)
  {
    var g := Group(table, fixtures, players, fid);
    GroupContents(table, fixtures, players, fid);
    RankingOf(g);
    assert EntryOf(table, el) in multiset(Ranked(g));
    k :| 0 <= k < |Ranked(g)| && Ranked(g)[k] == EntryOf(table, el);
    BonusIsGroupAward(table, fixtures, players, el, fid);
    AwardByPosition(g, el, k);
  }

  /**
   * In an unsettled fixture the player at position `i` of the ranking gets `[3, 2, 1][i] || 0`
   * points added to its projected total, and every player of the fixture has a position.
   */
  lemma BonusByRank(table: map<int, Projected>, fixtures: seq<Fixture>, players: map<int, Player>, el: int, fid: int)
    requires el in table && GroupOf(fixtures, players, el) == Some(fid)
    requires FixtureById(fixtures, fid).Some? && !Settled(FixtureById(fixtures, fid).value)
    ensures var r := Ranked(Group(table, fixtures, players, fid));
      && (exists i :: 0 <= i < |r| && r[i].el == el)
      && el in WithProvisionalBonus(table, fixtures, players)
      && forall i :: 0 <= i < |r| && r[i].el == el ==>
           WithProvisionalBonus(table, fixtures, players)[el].projectedTotal == table[el].projectedTotal + Award(i)
  {
    var g := Group(table, fixtures, players, fid);
    var r := Ranked(g);
    var k := PositionInRanking(table, fixtures, players, el, fid);
    RankingOf(g);
    forall i | 0 <= i < |r| && r[i].el == el ensures i == k {
      assert EntryEl(r[i]) == EntryEl(r[k]);
    }
    ProvisionalBonusEffect(table, fixtures, players);
  }

  /** The provisional bonus is 3, 2, 1 or 0. */
  lemma BonusRange(table: map<int, Projected>, fixtures: seq<Fixture>, players: map<int, Player>, el: int)
    requires el in table
    ensures 0 <= BonusOf(table, fixtures, players, el) <= 3
  {
    var home := GroupOf(fixtures, players, el);
    if home.Some? {
      var fx := FixtureById(fixtures, home.value);
      if fx.Some? && !Settled(fx.value) {
        var k := PositionInRanking(table, fixtures, players, el, home.value);
      }
    }
  }

  /**
   * Within one unsettled fixture the bonus never favours the lower BPS, and between equal BPS
   * it never favours the higher player id.
   */
  lemma BonusFollowsBps(table: map<int, Projected>, fixtures: seq<Fixture>, players: map<int, Player>,
                        el1: int, el2: int, fid: int)
    requires el1 in table && el2 in table
    requires GroupOf(fixtures, players, el1) == Some(fid) && GroupOf(fixtures, players, el2) == Some(fid)
    requires FixtureById(fixtures, fid).Some? && !Settled(FixtureById(fixtures, fid).value)
    requires BpsOf(table, el1) > BpsOf(table, el2) || (BpsOf(table, el1) == BpsOf(table, el2) && el1 < el2)
    ensures BonusOf(table, fixtures, players, el1) >= BonusOf(table, fixtures, players, el2)
  {
    var g := Group(table, fixtures, players, fid);
    var i1 := PositionInRanking(table, fixtures, players, el1, fid);
    var i2 := PositionInRanking(table, fixtures, players, el2, fid);
    RankedFirst(g, EntryOf(table, el1), EntryOf(table, el2), i1, i2);
  }

  // ---------------------------------------------------------------------------------------
  // What one fixture hands out

  /** The sum of `f` over the elements of `s`. */
  function SumOf<T>(s: seq<T>, f: T -> int): int {
    if s == [] then 0 else SumOf(s[..|s| - 1], f) + f(s[|s| - 1])
  }

  lemma {:induction false} SumOfConcat<T>(a: seq<T>, b: seq<T>, f: T -> int)
    ensures SumOf(a + b, f) == SumOf(a, f) + SumOf(b, f)
  {
    if b != [] {
      var b' := b[..|b| - 1];
      assert (a + b)[..|a + b| - 1] == a + b';
      SumOfConcat(a, b', f);
    } else {
      assert a + b == a;
    }
  }

  /** A sum does not depend on the order of its terms. */
  lemma {:induction false} SumOfPermutation<T>(a: seq<T>, b: seq<T>, f: T -> int)
    requires multiset(a) == multiset(b)
    ensures SumOf(a, f) == SumOf(b, f)
  {
    if a != [] {
      var a', x := a[..|a| - 1], a[|a| - 1];
      assert a == a' + [x];
      assert x in multiset(b);
      var k :| 0 <= k < |b| && b[k] == x;
      var b' := b[..k] + b[k + 1..];
      assert b == b[..k] + [x] + b[k + 1..];
      assert multiset(b') == multiset(b) - multiset{x};
      SumOfPermutation(a', b', f);
      SumOfConcat(b[..k] + [x], b[k + 1..], f);
      SumOfConcat(b[..k], [x], f);
      SumOfConcat(b[..k], b[k + 1..], f);
      assert SumOf([x], f) == f(x) by { assert [x][..0] == []; }
    }
  }

  /** `Award(0) + ... + Award(n - 1)` */
  function AwardTotal(n: nat): int {
    if n == 0 then 0 else AwardTotal(n - 1) + Award(n - 1)
  }

  /** The top three of `n` players share 0, 3, 5 or 6 points. */
  lemma {:induction false} AwardTotalValue(n: nat)
    ensures AwardTotal(n) == [0, 3, 5, 6][if n < 3 then n else 3]
  {
    if n > 3 {
      AwardTotalValue(n - 1);
    } else if n > 0 {
      AwardTotalValue(n - 1);
    }
  }

  lemma {:induction false} SumOfPositions(r: seq<Entry>, f: Entry -> int, n: nat)
    requires n <= |r|
    requires forall i :: 0 <= i < |r| ==> f(r[i]) == Award(i)
    ensures SumOf(r[..n], f) == AwardTotal(n)
  {
    if n > 0 {
      assert r[..n][..n - 1] == r[..n - 1];
      SumOfPositions(r, f, n - 1);
    }
  }

  /** The provisional bonus of the player of an entry. */
  ghost function EntryBonus(table: map<int, Projected>, fixtures: seq<Fixture>, players: map<int, Player>): Entry -> int {
    (e: Entry) => BonusOf(table, fixtures, players, e.el)
  }

  /**
   * In an unsettled fixture the players of the fixture receive, together, 3 + 2 + 1 of the
   * first three places that are filled: 0, 3, 5 or 6 points.
   */
  lemma FixtureBonusTotal(table: map<int, Projected>, fixtures: seq<Fixture>, players: map<int, Player>, fid: int)
    requires FixtureById(fixtures, fid).Some? && !Settled(FixtureById(fixtures, fid).value)
    ensures var g := Group(table, fixtures, players, fid);
      SumOf(g, EntryBonus(table, fixtures, players)) == [0, 3, 5, 6][if |g| < 3 then |g| else 3]
  {
    var g := Group(table, fixtures, players, fid);
    var r := Ranked(g);
    var f := EntryBonus(table, fixtures, players);
    GroupContents(table, fixtures, players, fid);
    RankingOf(g);
    RankedBonus(table, fixtures, players, fid, g, r);
    assert |r| == |g| by { assert |multiset(r)| == |multiset(g)|; }
    SumOfPositions(r, f, |r|);
    assert r[..|r|] == r;
    AwardTotalValue(|r|);
    SumOfPermutation(g, r, f);
  }

  /** In an unsettled fixture the player in place `i` of the ranking gets `Award(i)`. */
  lemma RankedBonus(table: map<int, Projected>, fixtures: seq<Fixture>, players: map<int, Player>, fid: int,
                    g: seq<Entry>, r: seq<Entry>)
    requires FixtureById(fixtures, fid).Some? && !Settled(FixtureById(fixtures, fid).value)
    requires g == Group(table, fixtures, players, fid) && r == Ranked(g)
    ensures forall i :: 0 <= i < |r| ==> EntryBonus(table, fixtures, players)(r[i]) == Award(i)
  {
    GroupOnlyMembers(table, fixtures, players, fid);
    GroupInOrder(table, fixtures, players, fid);
    RankingOf(g);
    forall i | 0 <= i < |r| ensures EntryBonus(table, fixtures, players)(r[i]) == Award(i) {
      assert r[i] in multiset(g);
      assert r[i] in g;
      BonusIsGroupAward(table, fixtures, players, r[i].el, fid);
      AwardByPosition(g, r[i].el, i);
    }
  }

  /** In an unsettled fixture at most three players get a provisional bonus. */
  lemma AtMostThreeRewarded(table: map<int, Projected>, fixtures: seq<Fixture>, players: map<int, Player>, fid: int)
    requires FixtureById(fixtures, fid).Some? && !Settled(FixtureById(fixtures, fid).value)
    ensures |set el | el in table && GroupOf(fixtures, players, el) == Some(fid) && BonusOf(table, fixtures, players, el) > 0| <= 3
  {
    var rewarded := set el | el in table && GroupOf(fixtures, players, el) == Some(fid) && BonusOf(table, fixtures, players, el) > 0;
    var r := Ranked(Group(table, fixtures, players, fid));
    var top := FirstThree(r);
    RewardedOnTop(table, fixtures, players, fid, rewarded);
    SubsetCard(rewarded, top);
  }

  /** The players in the first three places of a ranking. */
  function FirstThree(r: seq<Entry>): (top: set<int>)
    ensures |top| <= 3
    ensures forall k :: 0 <= k < |r| && k < 3 ==> r[k].el in top
  {
    (if |r| > 0 then {r[0].el} else {}) + (if |r| > 1 then {r[1].el} else {}) + (if |r| > 2 then {r[2].el} else {})
  }

  lemma RewardedOnTop(table: map<int, Projected>, fixtures: seq<Fixture>, players: map<int, Player>, fid: int, rewarded: set<int>)
    requires FixtureById(fixtures, fid).Some? && !Settled(FixtureById(fixtures, fid).value)
    requires forall el :: el in rewarded ==>
      el in table && GroupOf(fixtures, players, el) == Some(fid) && BonusOf(table, fixtures, players, el) > 0
    ensures rewarded <= FirstThree(Ranked(Group(table, fixtures, players, fid)))
  {
    var r := Ranked(Group(table, fixtures, players, fid));
    forall el | el in rewarded ensures el in FirstThree(r) {
      var k := PositionInRanking(table, fixtures, players, el, fid);
      assert Award(k) > 0;
      assert r[k].el == el;
    }
  }

  lemma SubsetCard(a: set<int>, b: set<int>)
    requires a <= b
    ensures |a| <= |b|
  {
    assert b == a + (b - a);
    assert a * (b - a) == {};
  }
}
