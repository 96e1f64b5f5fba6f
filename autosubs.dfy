/**
 * `compute/autosubs.ts` `applyAutosubs`, and the two copies of the same algorithm written inline
 * in `index.js` (`handleLiveManager` and `handleLeague`): a goalkeeper-for-goalkeeper phase,
 * then an outfield phase that gives each surely-absent outfield starter the first unused bench
 * outfielder that keeps at least 3 defenders, 2 midfielders and 1 forward.
 */
module Autosubs {
  import opened Wrappers
  import opened Fpl

  /** Outfield counts `{ DEF, MID, FWD }` of the effective XI. */
  datatype Formation = Formation(def: int, mid: int, fwd: int)

  /** `next.DEF >= 3 && next.MID >= 2 && next.FWD >= 1` */
  predicate Legal(f: Formation) { f.def >= 3 && f.mid >= 2 && f.fwd >= 1 }

  datatype Role = Defender | Midfielder | Forward

  /** `et === 2 ? 'DEF' : et === 3 ? 'MID' : 'FWD'`: every other type, even a missing one, is a forward. */
  function RoleOf(et: Option<int>): Role {
    if et == Some(2) then Defender else if et == Some(3) then Midfielder else Forward
  }

  /** The counted key an element type names: only the types 2, 3 and 4 are counted. */
  function KeyOf(et: Option<int>): Option<Role> {
    if et == Some(2) then Some(Defender)
    else if et == Some(3) then Some(Midfielder)
    else if et == Some(4) then Some(Forward)
    else None
  }

  function Bump(f: Formation, r: Role, d: int): Formation {
    match r
    case Defender => f.(def := f.def + d)
    case Midfielder => f.(mid := f.mid + d)
    case Forward => f.(fwd := f.fwd + d)
  }

  /** Adds `d` to the count of type `et`, if it is a counted type. */
  function Delta(f: Formation, et: Option<int>, d: int): Formation {
    Formation(f.def + (if et == Some(2) then d else 0),
              f.mid + (if et == Some(3) then d else 0),
              f.fwd + (if et == Some(4) then d else 0))
  }

  /**
   * How the would-be formation is computed. `ByRole` (autosubs.ts and `handleLiveManager`)
   * moves one player out of `oldRole` and into `newRole`, uncounted types being forwards.
   * `ByTypeKey` (`handleLeague`) does `next[et]--; next[bet]++`, which changes the counts only
   * for the types 2, 3 and 4.
   */
  datatype FormationRule = ByRole | ByTypeKey

  /** The formation the outfield phase would get by swapping a starter of type `et` for a reserve of type `bet`. */
  function Shift(f: Formation, et: Option<int>, bet: Option<int>, rule: FormationRule): Formation {
    match rule
    case ByRole => Bump(Bump(f, RoleOf(et), -1), RoleOf(bet), 1)
    case ByTypeKey => Delta(Delta(f, et, -1), bet, 1)
  }

  const NoOutfield := Formation(0, 0, 0)

  /** `countFormation()`: defenders, midfielders and forwards among the slots' current elements. */
  function CountFormation(slots: seq<Slot>, players: map<int, Player>): Formation {
    if slots == [] then NoOutfield
    else Delta(CountFormation(slots[..|slots| - 1], players), TypeOf(players, slots[|slots| - 1].element), 1)
  }

  /** `playersById[el]?.element_type === 1` */
  predicate IsGK(players: map<int, Player>, el: int) { TypeOf(players, el) == Some(1) }

  /** The player's element type is one of the four the catalogue uses. */
  predicate KnownType(players: map<int, Player>, el: int) {
    TypeOf(players, el).Some? && 1 <= TypeOf(players, el).value <= 4
  }

  /** Every slot's element has a known type. */
  predicate AllKnown(players: map<int, Player>, slots: seq<Slot>) {
    forall k :: 0 <= k < |slots| ==> KnownType(players, slots[k].element)
  }

  function ElementsOf(slots: seq<Slot>): set<int> { set s | s in slots :: s.element }

  /** `slots.find(p => playersById[p.element]?.element_type === 1)`, as an index. */
  function FindGK(slots: seq<Slot>, players: map<int, Player>): (r: Option<nat>)
    ensures r.Some? ==> (r.value < |slots| && IsGK(players, slots[r.value].element)
      && forall k :: 0 <= k < r.value ==> !IsGK(players, slots[k].element))
    ensures r.None? ==> forall k :: 0 <= k < |slots| ==> !IsGK(players, slots[k].element)
  {
    if slots == [] then None
    else if IsGK(players, slots[0].element) then Some(0)
    else
      match FindGK(slots[1..], players)
      case None => None
      case Some(k) => Some(k + 1)
  }

  /** `bench.filter(p => playersById[p.element]?.element_type !== 1)` */
  function OutfieldBench(bench: seq<Slot>, players: map<int, Player>): (r: seq<Slot>)
    ensures forall b :: b in r <==> b in bench && !IsGK(players, b.element)
  {
    if bench == [] then []
    else (if !IsGK(players, bench[0].element) then [bench[0]] else []) + OutfieldBench(bench[1..], players)
  }

  /** Reserve `b` may replace a starter of type `et`: not used yet, and the formation stays legal. */
  predicate Fits(f: Formation, et: Option<int>, b: Slot, used: set<int>, players: map<int, Player>, rule: FormationRule) {
    b.element !in used && Legal(Shift(f, et, TypeOf(players, b.element), rule))
  }

  /** The inner `for (const b of outfieldBench)` loop from position `j` on: the first reserve that fits. */
  function FirstFit(f: Formation, et: Option<int>, ob: seq<Slot>, used: set<int>, players: map<int, Player>,
                    rule: FormationRule, j: nat): (r: Option<nat>)
    ensures r.Some? ==> (j <= r.value < |ob| && Fits(f, et, ob[r.value], used, players, rule)
      && forall k :: j <= k < r.value ==> !Fits(f, et, ob[k], used, players, rule))
    ensures r.None? ==> forall k :: j <= k < |ob| ==> !Fits(f, et, ob[k], used, players, rule)
    decreases |ob| - j
  {
    if j >= |ob| then None
    else if Fits(f, et, ob[j], used, players, rule) then Some(j)
    else FirstFit(f, et, ob, used, players, rule, j + 1)
  }

  /** The `{ effective, usedBench }` result. */
  datatype Subs = Subs(effective: seq<Slot>, usedBench: set<int>)

  /** The outfield phase from starter `i` on, on the effective XI `eff` with reserves `used` taken. */
  function OutfieldFrom(eff: seq<Slot>, i: nat, ob: seq<Slot>, used: set<int>, players: map<int, Player>,
                        absent: int -> bool, rule: FormationRule): Subs
    requires i <= |eff|
    decreases |eff| - i
  {
    if i == |eff| then Subs(eff, used)
    else
      var et := TypeOf(players, eff[i].element);
      if et == Some(1) || !absent(eff[i].element) then OutfieldFrom(eff, i + 1, ob, used, players, absent, rule)
      else
        match FirstFit(CountFormation(eff, players), et, ob, used, players, rule, 0)
        case None => OutfieldFrom(eff, i + 1, ob, used, players, absent, rule)
        case Some(j) =>
          OutfieldFrom(eff[i := eff[i].(element := ob[j].element)], i + 1, ob, used + {ob[j].element},
                       players, absent, rule)
  }

  /** The goalkeeper phase: the first starting goalkeeper, if surely absent, becomes the first bench goalkeeper. */
  function GkPhase(starters: seq<Slot>, bench: seq<Slot>, players: map<int, Player>, absent: int -> bool): Subs {
    match FindGK(starters, players)
    case None => Subs(starters, {})
    case Some(g) =>
      if !absent(starters[g].element) then Subs(starters, {})
      else
        match FindGK(bench, players)
        case None => Subs(starters, {})
        case Some(b) => Subs(starters[g := starters[g].(element := bench[b].element)], {bench[b].element})
  }

  /** `applyAutosubs(starters, bench, playersById, formationGuard, surelyAbsent)` */
  function Autosubs(starters: seq<Slot>, bench: seq<Slot>, players: map<int, Player>, formationGuard: bool,
                    absent: int -> bool, rule: FormationRule): Subs {
    if !formationGuard then Subs(starters, {})
    else
      var gk := GkPhase(starters, bench, players, absent);
      OutfieldFrom(gk.effective, 0, OutfieldBench(bench, players), gk.usedBench, players, absent, rule)
  }

  /** `countFormation()` over the effective array. */
  method CountFormationOf(effective: array<Slot>, players: map<int, Player>) returns (c: Formation)
    ensures c == CountFormation(effective[..], players)
  {
    c := NoOutfield;
    var k := 0;
    while k < effective.Length
      invariant 0 <= k <= effective.Length
      invariant c == CountFormation(effective[..k], players)
    {
      assert effective[..k + 1][..k] == effective[..k];
      var et := TypeOf(players, effective[k].element);
      if et == Some(2) { c := c.(def := c.def + 1); }
      else if et == Some(3) { c := c.(mid := c.mid + 1); }
      else if et == Some(4) { c := c.(fwd := c.fwd + 1); }
      k := k + 1;
    }
    assert effective[..k] == effective[..];
  }

  /**
   * `applyAutosubs`: copies the starters' slots, then swaps `element` in the copies only. Each
   * slot keeps its position, multiplier and captaincy flags; with the guard off nothing changes.
   */
  method ApplyAutosubs(starters: seq<Slot>, bench: seq<Slot>, players: map<int, Player>, formationGuard: bool,
                       surelyAbsent: int -> bool, rule: FormationRule)
    returns (effective: seq<Slot>, usedBench: set<int>)
    ensures Subs(effective, usedBench) == Autosubs(starters, bench, players, formationGuard, surelyAbsent, rule)
    ensures |effective| == |starters|
    ensures forall k :: 0 <= k < |starters| ==> effective[k] == starters[k].(element := effective[k].element)
    ensures usedBench <= ElementsOf(bench)
    ensures !formationGuard ==> effective == starters && usedBench == {}
  {
    usedBench := {};
    var eff := new Slot[|starters|](k requires 0 <= k < |starters| => starters[k]);
    assert eff[..] == starters;
    if !formationGuard {
      effective := eff[..];
      return;
    }

    usedBench := GoalkeeperSwap(eff, bench, players, surelyAbsent);
    usedBench := OutfieldPhase(eff, OutfieldBench(bench, players), usedBench, players, surelyAbsent, rule);
    effective := eff[..];
    AutosubsKeepsSlots(starters, bench, players, formationGuard, surelyAbsent, rule);
    AutosubsUseBench(starters, bench, players, formationGuard, surelyAbsent, rule);
  }

  /** Goalkeeper first: swaps the first starting goalkeeper, if surely absent, for the first bench goalkeeper. */
  method GoalkeeperSwap(eff: array<Slot>, bench: seq<Slot>, players: map<int, Player>, surelyAbsent: int -> bool)
    returns (usedBench: set<int>)
    modifies eff
    ensures Subs(eff[..], usedBench) == GkPhase(old(eff[..]), bench, players, surelyAbsent)
  {
    usedBench := {};
    var startGK := FindGK(eff[..], players);
    if startGK.Some? && surelyAbsent(eff[startGK.value].element) {
      var benchGK := FindGK(bench, players);
      if benchGK.Some? {
        usedBench := usedBench + {bench[benchGK.value].element};
        eff[startGK.value] := eff[startGK.value].(element := bench[benchGK.value].element);
      }
    }
  }

  /** Outfield, keeping 3-2-1: the `for (let i = 0; i < effective.length; i++)` loop. */
  method OutfieldPhase(eff: array<Slot>, outfieldBench: seq<Slot>, used: set<int>, players: map<int, Player>,
                       surelyAbsent: int -> bool, rule: FormationRule) returns (usedBench: set<int>)
    modifies eff
    ensures Subs(eff[..], usedBench) == OutfieldFrom(old(eff[..]), 0, outfieldBench, used, players, surelyAbsent, rule)
  {
    usedBench := used;
    var i := 0;
    while i < eff.Length
      invariant 0 <= i <= eff.Length
      invariant OutfieldFrom(eff[..], i, outfieldBench, usedBench, players, surelyAbsent, rule)
             == OutfieldFrom(old(eff[..]), 0, outfieldBench, used, players, surelyAbsent, rule)
    {
      ghost var before := eff[..];
      var et := TypeOf(players, eff[i].element);
      if et == Some(1) || !surelyAbsent(eff[i].element) {
        i := i + 1;
        continue;
      }
      var formation := CountFormationOf(eff, players);
      var fit := FindFit(formation, et, outfieldBench, usedBench, players, rule);
      if fit.Some? {
        var b := outfieldBench[fit.value];
        usedBench := usedBench + {b.element};
        eff[i] := eff[i].(element := b.element);
        assert eff[..] == before[i := before[i].(element := b.element)];
      }
      i := i + 1;
    }
  }

  /** The inner `for (const b of outfieldBench)` loop, which stops at the first reserve that fits. */
  method FindFit(formation: Formation, et: Option<int>, outfieldBench: seq<Slot>, usedBench: set<int>,
                 players: map<int, Player>, rule: FormationRule) returns (fit: Option<nat>)
    ensures fit == FirstFit(formation, et, outfieldBench, usedBench, players, rule, 0)
  {
    var j := 0;
    while j < |outfieldBench|
      invariant 0 <= j <= |outfieldBench|
      invariant FirstFit(formation, et, outfieldBench, usedBench, players, rule, 0)
             == FirstFit(formation, et, outfieldBench, usedBench, players, rule, j)
    {
      var b := outfieldBench[j];
      if b.element in usedBench {
        j := j + 1;
        continue;
      }
      var bet := TypeOf(players, b.element);
      var next := Shift(formation, et, bet, rule);
      if Legal(next) {
        return Some(j);
      }
      j := j + 1;
    }
    return None;
  }

  // ---------------------------------------------------------------------------------------
  // Properties of the outfield phase

  /**
   * What one run of the outfield phase from starter `i` changes: only slots from `i` on whose
   * element is a surely-absent non-goalkeeper, and only their `element`, each to a reserve that
   * was not used before and is recorded as used now; no two slots get the same reserve.
   */
  lemma {:induction false} OutfieldChanges(eff: seq<Slot>, i: nat, ob: seq<Slot>, used: set<int>,
                                           players: map<int, Player>, absent: int -> bool, rule: FormationRule)
    requires i <= |eff|
    ensures var r := OutfieldFrom(eff, i, ob, used, players, absent, rule);
      && |r.effective| == |eff|
      && used <= r.usedBench
      && r.usedBench - used <= ElementsOf(ob)
      && (forall k :: 0 <= k < |eff| && r.effective[k] != eff[k] ==>
            && i <= k && !IsGK(players, eff[k].element) && absent(eff[k].element)
            && r.effective[k] == eff[k].(element := r.effective[k].element)
            && r.effective[k].element in r.usedBench - used)
      && (forall k1, k2 :: 0 <= k1 < k2 < |eff| && r.effective[k1] != eff[k1] && r.effective[k2] != eff[k2] ==>
            r.effective[k1].element != r.effective[k2].element)
    decreases |eff| - i, 1
  {
    if i < |eff| {
      var et := TypeOf(players, eff[i].element);
      var fit := FirstFit(CountFormation(eff, players), et, ob, used, players, rule, 0);
      if et == Some(1) || !absent(eff[i].element) || fit.None? {
        OutfieldSkip(eff, i, ob, used, players, absent, rule);
        OutfieldChanges(eff, i + 1, ob, used, players, absent, rule);
      } else {
        SubstitutedChanges(eff, i, ob, used, players, absent, rule, fit.value);
      }
    }
  }

  /** `OutfieldChanges` at a starter the outfield phase replaces by reserve `j`. */
  lemma {:induction false} SubstitutedChanges(eff: seq<Slot>, i: nat, ob: seq<Slot>, used: set<int>,
                                              players: map<int, Player>, absent: int -> bool, rule: FormationRule, j: nat)
    requires i < |eff|
    requires var et := TypeOf(players, eff[i].element);
      et != Some(1) && absent(eff[i].element) && FirstFit(CountFormation(eff, players), et, ob, used, players, rule, 0) == Some(j)
    ensures var r := OutfieldFrom(eff, i, ob, used, players, absent, rule);
      && |r.effective| == |eff|
      && used <= r.usedBench
      && r.usedBench - used <= ElementsOf(ob)
      && (forall k :: 0 <= k < |eff| && r.effective[k] != eff[k] ==>
            && i <= k && !IsGK(players, eff[k].element) && absent(eff[k].element)
            && r.effective[k] == eff[k].(element := r.effective[k].element)
            && r.effective[k].element in r.usedBench - used)
      && (forall k1, k2 :: 0 <= k1 < k2 < |eff| && r.effective[k1] != eff[k1] && r.effective[k2] != eff[k2] ==>
            r.effective[k1].element != r.effective[k2].element)
    decreases |eff| - i, 0
  {
    OutfieldSubstitute(eff, i, ob, used, players, absent, rule, j);
    var x := ob[j].element;
    var eff' := eff[i := eff[i].(element := x)];
    OutfieldChanges(eff', i + 1, ob, used + {x}, players, absent, rule);
    var r := OutfieldFrom(eff', i + 1, ob, used + {x}, players, absent, rule);
    assert x in ElementsOf(ob);
    assert r.effective[i] == eff'[i];
  }

  lemma CountReplace(s: seq<Slot>, k: nat, x: int, players: map<int, Player>)
    requires k < |s|
    ensures CountFormation(s[k := s[k].(element := x)], players)
         == Delta(Delta(CountFormation(s, players), TypeOf(players, s[k].element), -1), TypeOf(players, x), 1)
    decreases |s|
  {
    var s' := s[k := s[k].(element := x)];
    var n := |s| - 1;
    if k < n {
      assert s'[..n] == s[..n][k := s[k].(element := x)];
      CountReplace(s[..n], k, x, players);
    } else {
      assert s'[..n] == s[..n];
    }
  }

  /**
   * Each outfield substitution leaves a legal formation: so a legal formation stays legal, and
   * after any substitution the formation is legal. Under `ByRole` this needs every element to
   * have one of the four known types (a missing type is counted as a forward by the role rule
   * but not by `countFormation`).
   */
  lemma {:induction false} OutfieldFormation(eff: seq<Slot>, i: nat, ob: seq<Slot>, used: set<int>,
                                             players: map<int, Player>, absent: int -> bool, rule: FormationRule)
    requires i <= |eff|
    requires forall b :: b in ob ==> !IsGK(players, b.element)
    requires rule == ByRole ==>
      AllKnown(players, eff) && AllKnown(players, ob)
    ensures var r := OutfieldFrom(eff, i, ob, used, players, absent, rule);
      && (Legal(CountFormation(eff, players)) ==> Legal(CountFormation(r.effective, players)))
      && (r.effective == eff || Legal(CountFormation(r.effective, players)))
    decreases |eff| - i, 1
  {
    if i < |eff| {
      var et := TypeOf(players, eff[i].element);
      var fit := FirstFit(CountFormation(eff, players), et, ob, used, players, rule, 0);
      if et == Some(1) || !absent(eff[i].element) || fit.None? {
        OutfieldSkip(eff, i, ob, used, players, absent, rule);
        OutfieldFormation(eff, i + 1, ob, used, players, absent, rule);
      } else {
        SubstitutedFormation(eff, i, ob, used, players, absent, rule, fit.value);
      }
    }
  }

  /** `OutfieldFormation` at a starter the outfield phase replaces by reserve `j`. */
  lemma {:induction false} SubstitutedFormation(eff: seq<Slot>, i: nat, ob: seq<Slot>, used: set<int>,
                                                players: map<int, Player>, absent: int -> bool, rule: FormationRule, j: nat)
    requires i < |eff|
    requires forall b :: b in ob ==> !IsGK(players, b.element)
    requires rule == ByRole ==> AllKnown(players, eff) && AllKnown(players, ob)
    requires var et := TypeOf(players, eff[i].element);
      et != Some(1) && absent(eff[i].element) && FirstFit(CountFormation(eff, players), et, ob, used, players, rule, 0) == Some(j)
    ensures var r := OutfieldFrom(eff, i, ob, used, players, absent, rule);
      && (Legal(CountFormation(eff, players)) ==> Legal(CountFormation(r.effective, players)))
      && (r.effective == eff || Legal(CountFormation(r.effective, players)))
    decreases |eff| - i, 0
  {
    OutfieldSubstitute(eff, i, ob, used, players, absent, rule, j);
    SubstitutionFormation(eff, i, ob, j, used, players, rule);
    OutfieldFormation(eff[i := eff[i].(element := ob[j].element)], i + 1, ob, used + {ob[j].element}, players, absent, rule);
  }

  /** The outfield phase passes over a starter it does not replace. */
  lemma OutfieldSkip(eff: seq<Slot>, i: nat, ob: seq<Slot>, used: set<int>,
                     players: map<int, Player>, absent: int -> bool, rule: FormationRule)
    requires i < |eff|
    requires var et := TypeOf(players, eff[i].element);
      et == Some(1) || !absent(eff[i].element) || FirstFit(CountFormation(eff, players), et, ob, used, players, rule, 0).None?
    ensures OutfieldFrom(eff, i, ob, used, players, absent, rule) == OutfieldFrom(eff, i + 1, ob, used, players, absent, rule)
  {
  }

  /** The outfield phase replaces a surely-absent outfield starter by the first reserve that fits. */
  lemma OutfieldSubstitute(eff: seq<Slot>, i: nat, ob: seq<Slot>, used: set<int>,
                           players: map<int, Player>, absent: int -> bool, rule: FormationRule, j: nat)
    requires i < |eff|
    requires var et := TypeOf(players, eff[i].element);
      et != Some(1) && absent(eff[i].element) && FirstFit(CountFormation(eff, players), et, ob, used, players, rule, 0) == Some(j)
    ensures j < |ob|
    ensures OutfieldFrom(eff, i, ob, used, players, absent, rule)
         == OutfieldFrom(eff[i := eff[i].(element := ob[j].element)], i + 1, ob, used + {ob[j].element}, players, absent, rule)
  {
  }

  /** One outfield substitution chosen by `FirstFit` leaves a legal formation and only known types. */
  lemma SubstitutionFormation(eff: seq<Slot>, i: nat, ob: seq<Slot>, j: nat, used: set<int>,
                              players: map<int, Player>, rule: FormationRule)
    requires i < |eff| && j < |ob|
    requires !IsGK(players, eff[i].element) && !IsGK(players, ob[j].element)
    requires rule == ByRole ==>
      AllKnown(players, eff) && AllKnown(players, ob)
    requires FirstFit(CountFormation(eff, players), TypeOf(players, eff[i].element), ob, used, players, rule, 0) == Some(j)
    ensures Legal(CountFormation(eff[i := eff[i].(element := ob[j].element)], players))
    ensures rule == ByRole ==> AllKnown(players, eff[i := eff[i].(element := ob[j].element)])
  {
    var x := ob[j].element;
    var f := CountFormation(eff, players);
    var et := TypeOf(players, eff[i].element);
    CountReplace(eff, i, x, players);
    assert Fits(f, et, ob[j], used, players, rule);
    if rule == ByRole {
      RoleShiftCounts(f, et, TypeOf(players, x));
      ReplaceKeepsKnown(eff, i, x, players);
    }
  }

  /** For outfield types the role rule's would-be formation is the counted one. */
  lemma RoleShiftCounts(f: Formation, et: Option<int>, bet: Option<int>)
    requires et.Some? && 2 <= et.value <= 4 && bet.Some? && 2 <= bet.value <= 4
    ensures Shift(f, et, bet, ByRole) == Delta(Delta(f, et, -1), bet, 1)
  {
  }

  /** Replacing one element of a list of known types by one of known type keeps every type known. */
  lemma ReplaceKeepsKnown(eff: seq<Slot>, i: nat, x: int, players: map<int, Player>)
    requires i < |eff| && KnownType(players, x)
    requires AllKnown(players, eff)
    ensures AllKnown(players, eff[i := eff[i].(element := x)])
  {
  }

  // ---------------------------------------------------------------------------------------
  // Properties of applyAutosubs

  /**
   * The effective XI has as many slots as the starters, each slot keeping its position,
   * multiplier and captaincy flags (only `element` may change); with the guard off it is the
   * starters unchanged and no reserve is used.
   */
  lemma AutosubsKeepsSlots(starters: seq<Slot>, bench: seq<Slot>, players: map<int, Player>, formationGuard: bool,
                           absent: int -> bool, rule: FormationRule)
    ensures var r := Autosubs(starters, bench, players, formationGuard, absent, rule);
      && |r.effective| == |starters|
      && (forall k :: 0 <= k < |starters| ==> r.effective[k] == starters[k].(element := r.effective[k].element))
      && (!formationGuard ==> r.effective == starters && r.usedBench == {})
  {
    if formationGuard {
      var gk := GkPhase(starters, bench, players, absent);
      OutfieldChanges(gk.effective, 0, OutfieldBench(bench, players), gk.usedBench, players, absent, rule);
    }
  }

  /**
   * Who is replaced. The first starting goalkeeper ends up as the first bench goalkeeper when it
   * is surely absent and there is one, and stays otherwise. Every other starter that is a
   * goalkeeper or not surely absent keeps its element. A starter that is replaced gets an
   * outfield reserve (never a goalkeeper), recorded in `usedBench`.
   */
  lemma AutosubsReplacements(starters: seq<Slot>, bench: seq<Slot>, players: map<int, Player>,
                             absent: int -> bool, rule: FormationRule)
    ensures var r := Autosubs(starters, bench, players, true, absent, rule);
      var g := FindGK(starters, players);
      var bg := FindGK(bench, players);
      && |r.effective| == |starters|
      && (g.Some? ==> (r.effective[g.value].element ==
            if absent(starters[g.value].element) && bg.Some? then bench[bg.value].element else starters[g.value].element))
      && (forall k :: (0 <= k < |starters| && Some(k) != g
            && (IsGK(players, starters[k].element) || !absent(starters[k].element))) ==> r.effective[k] == starters[k])
      && (forall k :: 0 <= k < |starters| && Some(k) != g && r.effective[k] != starters[k] ==>
            && r.effective[k].element in r.usedBench
            && r.effective[k].element in ElementsOf(bench)
            && !IsGK(players, r.effective[k].element))
  {
    var gk := GkPhase(starters, bench, players, absent);
    var ob := OutfieldBench(bench, players);
    OutfieldChanges(gk.effective, 0, ob, gk.usedBench, players, absent, rule);
    var r := Autosubs(starters, bench, players, true, absent, rule);
    var g := FindGK(starters, players);
    if g.Some? {
      assert IsGK(players, gk.effective[g.value].element);
      assert r.effective[g.value] == gk.effective[g.value];
    }
    forall k | 0 <= k < |starters| && Some(k) != g && r.effective[k] != starters[k]
      ensures r.effective[k].element in ElementsOf(bench) && !IsGK(players, r.effective[k].element)
    {
      assert gk.effective[k] == starters[k];
      var b :| b in ob && b.element == r.effective[k].element;
    }
  }

  /**
   * `usedBench` holds only bench elements, and no reserve is given to two starters: the
   * elements brought in by the outfield phase are pairwise distinct.
   */
  lemma AutosubsUseBench(starters: seq<Slot>, bench: seq<Slot>, players: map<int, Player>, formationGuard: bool,
                         absent: int -> bool, rule: FormationRule)
    ensures var r := Autosubs(starters, bench, players, formationGuard, absent, rule);
      var g := FindGK(starters, players);
      && |r.effective| == |starters|
      && r.usedBench <= ElementsOf(bench)
      && (forall k1, k2 :: (0 <= k1 < k2 < |starters| && Some(k1) != g && Some(k2) != g
            && r.effective[k1] != starters[k1] && r.effective[k2] != starters[k2]) ==>
            r.effective[k1].element != r.effective[k2].element)
  {
    if formationGuard {
      var gk := GkPhase(starters, bench, players, absent);
      var ob := OutfieldBench(bench, players);
      OutfieldChanges(gk.effective, 0, ob, gk.usedBench, players, absent, rule);
      var r := Autosubs(starters, bench, players, formationGuard, absent, rule);
      assert r == OutfieldFrom(gk.effective, 0, ob, gk.usedBench, players, absent, rule);
      forall e | e in r.usedBench ensures e in ElementsOf(bench) {
        if e !in gk.usedBench {
          assert e in ElementsOf(ob);
          var b :| b in ob && b.element == e;
        }
      }
    }
  }

  /**
   * The formation guard: if the starters' formation is legal, so is the effective XI's; and
   * unless the outfield phase changed nothing, the effective XI's formation is legal.
   */
  lemma AutosubsFormation(starters: seq<Slot>, bench: seq<Slot>, players: map<int, Player>,
                          absent: int -> bool, rule: FormationRule)
    requires rule == ByRole ==> forall s :: s in starters + bench ==> KnownType(players, s.element)
    ensures var r := Autosubs(starters, bench, players, true, absent, rule);
      && (Legal(CountFormation(starters, players)) ==> Legal(CountFormation(r.effective, players)))
      && (r.effective == GkPhase(starters, bench, players, absent).effective || Legal(CountFormation(r.effective, players)))
  {
    var gk := GkPhase(starters, bench, players, absent);
    var ob := OutfieldBench(bench, players);
    assert CountFormation(gk.effective, players) == CountFormation(starters, players) by {
      var g := FindGK(starters, players);
      var bg := FindGK(bench, players);
      if g.Some? && absent(starters[g.value].element) && bg.Some? {
        CountReplace(starters, g.value, bench[bg.value].element, players);
      }
    }
    if rule == ByRole {
      forall k | 0 <= k < |gk.effective| ensures KnownType(players, gk.effective[k].element) {
        if gk.effective[k] == starters[k] { assert starters[k] in starters + bench; }
        else {
          var bg := FindGK(bench, players);
          assert bench[bg.value] in starters + bench;
        }
      }
      forall k | 0 <= k < |ob| ensures KnownType(players, ob[k].element) {
        assert ob[k] in ob;
        assert ob[k] in starters + bench;
      }
    }
    OutfieldFormation(gk.effective, 0, ob, gk.usedBench, players, absent, rule);
  }
}
