/**
 * The classic-league endpoint of `worker/src/index.js`: a fast mode that echoes the first page of
 * standings, and a full mode that scores every member's picks live with the legacy projection
 * table, then ranks the members by their live season total.
 */
module League {
  import opened Wrappers
  import opened Fpl
  import Sorting
  import LiveManager
  import LegacyLive
  import opened Autosubs

  /** `MAX_FULL`: the largest league that the automatic mode scores in full. */
  const MaxFull := 100

  /** One row of the standings: the entry, its names, its ranks, its gameweek points and its season total. */
  datatype Member = Member(
    entry: int, playerName: string, entryName: string, rank: int, lastRank: int, eventTotal: int, total: int)

  /** The picks response of one entry: its chip and its fifteen picks. */
  datatype EntryPicks = EntryPicks(activeChip: Option<string>, picks: seq<Slot>)

  /**
   * Everything the handler reads: the `mode` parameter, the first standings page (its rows and
   * its `total`), the rows of the further pages, the catalogue, the fixtures, the gameweek and its
   * average, and each entry's picks (an entry missing from `picks` is one whose fetch failed).
   */
  datatype LeagueInputs = LeagueInputs(
    mode: Option<string>, firstPage: seq<Member>, standingsTotal: Option<int>, morePages: seq<Member>,
    players: map<int, Player>, fixtures: seq<Fixture>, events: seq<Event>, currentEventId: int,
    picks: map<int, EntryPicks>)

  // The mode

  /** `params.mode || 'auto'` */
  function ModeOf(mode: Option<string>): (m: string)
    ensures m == "auto" <==> mode.None? || mode.value == "" || mode.value == "auto"
    ensures mode.Some? && mode.value != "" ==> m == mode.value
  {
    if mode.None? || mode.value == "" then "auto" else mode.value
  }

  /** `Number(first.standings.total) || members.length`: a missing or zero total falls back to the first page's size. */
  function TotalMembers(req: LeagueInputs): (n: int)
    ensures req.standingsTotal.Some? && req.standingsTotal.value != 0 ==> n == req.standingsTotal.value
    ensures req.standingsTotal.None? || req.standingsTotal.value == 0 ==> n == |req.firstPage|
  {
    if req.standingsTotal.None? || req.standingsTotal.value == 0 then |req.firstPage| else req.standingsTotal.value
  }

  /** `doFull`: full scoring when asked for, or in automatic mode for a league of at most 100 members. */
  function DoFull(req: LeagueInputs): (full: bool)
    ensures full <==> ModeOf(req.mode) == "full" || (ModeOf(req.mode) == "auto" && TotalMembers(req) <= MaxFull)
    ensures !full ==> ModeOf(req.mode) != "full"
  {
    var mode := ModeOf(req.mode);
    mode == "full" || (mode == "auto" && TotalMembers(req) <= MaxFull)
  }

  // One member's live total

  /** `Σ base × (s.multiplier || 0)` over the effective XI. */
  function XiPoints(table: map<int, Projected>, slots: seq<Slot>): int {
    if slots == [] then 0
    else XiPoints(table, slots[..|slots| - 1]) + BaseOf(table, slots[|slots| - 1].element) * slots[|slots| - 1].multiplier
  }

  /** `Σ base` over the bench, which bench boost adds once each. */
  function BenchPoints(table: map<int, Projected>, bench: seq<Slot>): int {
    if bench == [] then 0 else BenchPoints(table, bench[..|bench| - 1]) + BaseOf(table, bench[|bench| - 1].element)
  }

  /** The autosubs of a league member: only bench boost turns them off, and every absence uses the legacy test. */
  function MemberSubs(table: map<int, Projected>, players: map<int, Player>, fixtures: seq<Fixture>, ep: EntryPicks): Subs {
    Autosubs.Autosubs(LiveManager.StartersOf(ep.picks), LiveManager.BenchOf(ep.picks), players,
      ep.activeChip != Some("bboost"), LegacyLive.LegacyAbsentTest(fixtures, players, table), ByTypeKey)
  }

  /** The member's live gameweek points: the effective XI by multiplier, plus the whole bench under bench boost. */
  function MemberPoints(table: map<int, Projected>, players: map<int, Player>, fixtures: seq<Fixture>, ep: EntryPicks): int {
    XiPoints(table, MemberSubs(table, players, fixtures, ep).effective)
      + (if ep.activeChip == Some("bboost") then BenchPoints(table, LiveManager.BenchOf(ep.picks)) else 0)
  }

  /** The scoring loop over the effective XI. */
  method XiTotal(table: map<int, Projected>, effective: seq<Slot>) returns (total: int)
    ensures total == XiPoints(table, effective)
  {
    total := 0;
    var i := 0;
    while i < |effective|
      invariant 0 <= i <= |effective|
      invariant total == XiPoints(table, effective[..i])
    {
      assert effective[..i + 1][..i] == effective[..i];
      total := total + BaseOf(table, effective[i].element) * effective[i].multiplier;
      i := i + 1;
    }
    assert effective[..i] == effective;
  }

  /** The bench-boost loop, adding each reserve's base once to `total`. */
  method AddBench(table: map<int, Projected>, bench: seq<Slot>, total0: int) returns (total: int)
    ensures total == total0 + BenchPoints(table, bench)
  {
    total := total0;
    var j := 0;
    while j < |bench|
      invariant 0 <= j <= |bench|
      invariant total == total0 + BenchPoints(table, bench[..j])
    {
      assert bench[..j + 1][..j] == bench[..j];
      total := total + BaseOf(table, bench[j].element);
      j := j + 1;
    }
    assert bench[..j] == bench;
  }

  /** One member's live total: the autosubs unless bench boost is on, then the two scoring loops. */
  method MemberTotal(table: map<int, Projected>, players: map<int, Player>, fixtures: seq<Fixture>, ep: EntryPicks)
    returns (total: int)
    ensures total == MemberPoints(table, players, fixtures, ep)
  {
    var sorted := Sorting.SortBy(ep.picks, LiveManager.SlotPosition);
    var starters := Sorting.Filter(sorted, IsStarter);
    var bench := Sorting.Filter(sorted, LiveManager.OnBench);
    var benchBoost := ep.activeChip == Some("bboost");
    var effective, _ := ApplyAutosubs(starters, bench, players, !benchBoost,
      LegacyLive.LegacyAbsentTest(fixtures, players, table), ByTypeKey);
    assert effective == MemberSubs(table, players, fixtures, ep).effective;
    total := XiTotal(table, effective);
    if benchBoost {
      total := AddBench(table, bench, total);
    }
  }

  // The rows

  /** One row of the full table; a member whose picks could not be read has no difference to the average and is marked failed. */
  datatype Row = Row(
    entry: int, playerName: string, entryName: string, rank: int, lastRank: int,
    liveGw: int, total: int, diffVsAvg: Option<int>, failed: bool, liveRank: int)

  /**
   * The row of member `m`: with its picks, the live points, the season total with the gameweek's
   * reported points replaced by the live ones, and the difference to the average; without them,
   * the standings' own gameweek points and total. `live_rank` is set later.
   */
  function MemberRow(table: map<int, Projected>, req: LeagueInputs, m: Member): (row: Row)
    ensures row.entry == m.entry && row.rank == m.rank && row.lastRank == m.lastRank
    ensures row.failed <==> m.entry !in req.picks
    ensures row.failed ==> row.liveGw == m.eventTotal && row.total == m.total && row.diffVsAvg.None?
    ensures m.entry in req.picks ==>
      && row.liveGw == MemberPoints(table, req.players, req.fixtures, req.picks[m.entry])
      && row.total == m.total - m.eventTotal + row.liveGw
      && row.diffVsAvg == Some(row.liveGw - LiveManager.LiveAverage(req.events, req.currentEventId))
  {
    if m.entry in req.picks then
      var total := MemberPoints(table, req.players, req.fixtures, req.picks[m.entry]);
      var avg := LiveManager.LiveAverage(req.events, req.currentEventId);
      Row(m.entry, m.playerName, m.entryName, m.rank, m.lastRank, total, m.total - m.eventTotal + total,
        Some(total - avg), false, 0)
    else
      Row(m.entry, m.playerName, m.entryName, m.rank, m.lastRank, m.eventTotal, m.total, None, true, 0)
  }

  /** `members.map(...)`: one row per member, in the order of the standings (`Promise.all` keeps it). */
  function Rows(table: map<int, Projected>, req: LeagueInputs, members: seq<Member>): seq<Row> {
    seq(|members|, k requires 0 <= k < |members| => MemberRow(table, req, members[k]))
  }

  /** The row of one member, falling back to the standings when its picks could not be read. */
  method ScoreMember(table: map<int, Projected>, req: LeagueInputs, m: Member) returns (row: Row)
    ensures row == MemberRow(table, req, m)
  {
    if m.entry in req.picks {
      var total := MemberTotal(table, req.players, req.fixtures, req.picks[m.entry]);
      var avg := LiveManager.LiveAverage(req.events, req.currentEventId);
      row := Row(m.entry, m.playerName, m.entryName, m.rank, m.lastRank, total, m.total - m.eventTotal + total,
        Some(total - avg), false, 0);
    } else {
      row := Row(m.entry, m.playerName, m.entryName, m.rank, m.lastRank, m.eventTotal, m.total, None, true, 0);
    }
  }

  /** The rows of all members. */
  method ScoreMembers(table: map<int, Projected>, req: LeagueInputs, members: seq<Member>) returns (rows: seq<Row>)
    ensures rows == Rows(table, req, members)
  {
    rows := [];
    var i := 0;
    while i < |members|
      invariant 0 <= i <= |members|
      invariant |rows| == i
      invariant forall k :: 0 <= k < i ==> rows[k] == MemberRow(table, req, members[k])
    {
      var row := ScoreMember(table, req, members[i]);
      rows := rows + [row];
      i := i + 1;
    }
  }

  // Ranking

  function NegTotal(r: Row): int { -r.total }

  /** `rows.sort((a, b) => b.total - a.total)`: a stable sort by descending season total. */
  function SortedRows(rows: seq<Row>): seq<Row> { Sorting.SortBy(rows, NegTotal) }

  /** `rows.forEach((r, i) => r.live_rank = i + 1)`, on the sorted rows in place. */
  method NumberRows(rows: array<Row>)
    modifies rows
    ensures forall i :: 0 <= i < rows.Length ==> rows[i] == old(rows[i]).(liveRank := i + 1)
  {
    var i := 0;
    while i < rows.Length
      invariant 0 <= i <= rows.Length
      invariant forall k :: 0 <= k < i ==> rows[k] == old(rows[k]).(liveRank := k + 1)
      invariant forall k :: i <= k < rows.Length ==> rows[k] == old(rows[k])
    {
      rows[i] := rows[i].(liveRank := i + 1);
      i := i + 1;
    }
  }

  /** The full table: the rows sorted by live season total, each given its 1-based live rank. */
  function RankedRows(rows: seq<Row>): (t: seq<Row>)
    ensures |t| == |rows|
  {
    var s := SortedRows(rows);
    Sorting.SortByPermutes(rows, NegTotal);
    seq(|s|, i requires 0 <= i < |s| => s[i].(liveRank := i + 1))
  }

  /**
   * The full table lists every row once (up to its live rank), by non-increasing season total,
   * rows of equal total in standings order, and the row at index `i` has live rank `i + 1`.
   */
  lemma RankedRowsOrder(rows: seq<Row>)
    ensures var t := RankedRows(rows);
      var s := SortedRows(rows);
      && multiset(s) == multiset(rows)
      && (forall i :: 0 <= i < |t| ==> t[i] == s[i].(liveRank := i + 1))
      && (forall i, j :: 0 <= i < j < |t| ==> t[i].total >= t[j].total)
      && (forall v :: Sorting.WithKey(s, NegTotal, v) == Sorting.WithKey(rows, NegTotal, v))
  {
    var s := SortedRows(rows);
    Sorting.SortByPermutes(rows, NegTotal);
    Sorting.SortBySorted(rows, NegTotal);
    forall v ensures Sorting.WithKey(s, NegTotal, v) == Sorting.WithKey(rows, NegTotal, v) {
      Sorting.SortByStable(rows, NegTotal, v);
    }
    forall i, j | 0 <= i < j < |s| ensures s[i].total >= s[j].total {
      assert NegTotal(s[i]) <= NegTotal(s[j]);
    }
  }

  // The handler

  datatype LeagueResult =
    | Fast(totalMembers: int, standings: seq<Member>)
    | Full(totalMembers: int, rows: seq<Row>)

  /** All members of the full table: the first page, then the further pages. */
  function AllMembers(req: LeagueInputs): seq<Member> { req.firstPage + req.morePages }

  /**
   * The response: the fast table is the first page as it is, with the reported league size; the
   * full table ranks all members' rows and reports how many members it read. A live response
   * without elements makes full mode throw, modelled as `None`.
   */
  function LeagueResponse(req: LeagueInputs, live: Option<seq<LiveElement>>): Option<LeagueResult> {
    if !DoFull(req) then Some(Fast(TotalMembers(req), req.firstPage))
    else if live.None? then None
    else
      var table := LegacyLive.LegacyProjectionOf(live.value, req.fixtures);
      Some(Full(|AllMembers(req)|, RankedRows(Rows(table, req, AllMembers(req)))))
  }

  /** `handleLeague` after its fetches. */
  method HandleLeague(req: LeagueInputs, live: Option<seq<LiveElement>>) returns (r: Option<LeagueResult>)
    ensures r == LeagueResponse(req, live)
  {
    var totalMembers := TotalMembers(req);
    var mode := ModeOf(req.mode);
    var doFull := mode == "full" || (mode == "auto" && totalMembers <= MaxFull);
    if !doFull {
      return Some(Fast(totalMembers, req.firstPage));
    }
    var members := req.firstPage + req.morePages;
    var projected := LegacyLive.LegacyBuildProjected(live, req.fixtures);
    if projected.None? {
      return None;
    }
    var rows := ScoreMembers(projected.value, req, members);
    var sorted := Sorting.SortBy(rows, NegTotal);
    var table := new Row[|sorted|](k requires 0 <= k < |sorted| => sorted[k]);
    NumberRows(table);
    assert table[..] == RankedRows(rows);
    r := Some(Full(|members|, table[..]));
  }

  // Properties of the league table

  /**
   * The full table has one row per member of every page, each row is the row of some member,
   * and the live ranks run 1, 2, ... down the sorted totals.
   */
  lemma FullTable(req: LeagueInputs, live: seq<LiveElement>)
    requires DoFull(req)
    ensures var r := LeagueResponse(req, Some(live));
      var table := LegacyLive.LegacyProjectionOf(live, req.fixtures);
      && r.Some? && r.value.Full?
      && r.value.totalMembers == |req.firstPage| + |req.morePages|
      && |r.value.rows| == |AllMembers(req)|
      && (forall i :: 0 <= i < |r.value.rows| ==> r.value.rows[i].liveRank == i + 1)
      && (forall i, j :: 0 <= i < j < |r.value.rows| ==> r.value.rows[i].total >= r.value.rows[j].total)
      && (forall i :: 0 <= i < |r.value.rows| ==>
            exists k :: 0 <= k < |AllMembers(req)| && r.value.rows[i] == MemberRow(table, req, AllMembers(req)[k]).(liveRank := i + 1))
  {
    var table := LegacyLive.LegacyProjectionOf(live, req.fixtures);
    var rows := Rows(table, req, AllMembers(req));
    RankedRowsOrder(rows);
    var s := SortedRows(rows);
    forall i | 0 <= i < |s|
      ensures exists k :: 0 <= k < |AllMembers(req)| && s[i] == MemberRow(table, req, AllMembers(req)[k])
    {
      assert s[i] in multiset(rows);
      var k :| 0 <= k < |rows| && rows[k] == s[i];
    }
  }

  /** Fast mode, and only fast mode, echoes the first page with the league size of the standings. */
  lemma FastTable(req: LeagueInputs, live: Option<seq<LiveElement>>)
    ensures LeagueResponse(req, live) == Some(Fast(TotalMembers(req), req.firstPage)) <==> !DoFull(req)
  {
  }

  /** Without vice-captain promotion the XI's points are its total in the manager view (under bench boost, for XI positions). */
  lemma {:induction false} XiPointsIsTotal(c: LiveManager.Scoring, slots: seq<Slot>)
    requires c.capPlayed
    requires forall s :: s in slots ==> !c.benchBoost || s.position <= 11
    ensures XiPoints(c.table, slots) == LiveManager.Total(c, slots)
  {
    if slots != [] {
      assert slots[|slots| - 1] in slots;
      XiPointsIsTotal(c, slots[..|slots| - 1]);
    }
  }

  lemma {:induction false} BenchPointsIsTotal(c: LiveManager.Scoring, bench: seq<Slot>)
    requires c.benchBoost && c.capPlayed
    requires forall b :: b in bench ==> b.position >= 12
    ensures BenchPoints(c.table, bench) == LiveManager.Total(c, bench)
  {
    if bench != [] {
      assert bench[|bench| - 1] in bench;
      BenchPointsIsTotal(c, bench[..|bench| - 1]);
    }
  }

  /**
   * The league scores slots as the live manager view does when that view promotes no
   * vice-captain: the XI by its own multipliers and, under bench boost, each reserve once. The
   * league never gives the vice-captain the captain's multiplier.
   */
  lemma LeagueScoresLikeManager(c: LiveManager.Scoring, effective: seq<Slot>, bench: seq<Slot>)
    requires c.capPlayed
    requires forall b :: b in bench ==> b.position >= 12
    requires forall s :: s in effective ==> s.position <= 11
    ensures !c.benchBoost ==> XiPoints(c.table, effective) == LiveManager.Total(c, effective)
    ensures c.benchBoost ==> XiPoints(c.table, effective) + BenchPoints(c.table, bench) == LiveManager.Total(c, effective + bench)
  {
    if !c.benchBoost {
      XiPointsIsTotal(c, effective);
    } else {
      BenchPointsIsTotal(c, bench);
      XiPointsIsTotal(c, effective);
      LiveManager.TotalAppend(c, effective, bench);
    }
  }
}
