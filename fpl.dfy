/**
 * The upstream records the live scoring engine consumes, as the worker reads them: the
 * bootstrap catalogue (players), the gameweek's fixtures, the live statistics, a squad's
 * picks, and the projected-score record the engine builds. Fields that JavaScript may find
 * `undefined` are `Option`s; every number is an `int`.
 */
module Fpl {
  import opened Wrappers

  /** One fixture of the gameweek (`id`, `team_h`, `team_a`, `finished`, `finished_provisional`). */
  datatype Fixture = Fixture(id: int, teamH: int, teamA: int, finished: bool, finishedProvisional: bool)

  /** `f.finished || f.finished_provisional`: the fixture's minutes can be trusted. */
  predicate Settled(f: Fixture) { f.finished || f.finishedProvisional }

  /** `f.team_h === teamId || f.team_a === teamId`; an absent team id matches no fixture. */
  predicate Involves(f: Fixture, team: Option<int>) {
    team.Some? && (f.teamH == team.value || f.teamA == team.value)
  }

  /** A player of the bootstrap catalogue (`id`, `team`, `element_type`). */
  datatype Player = Player(id: int, team: Option<int>, elementType: Option<int>)

  /** `playersById[el]?.team` */
  function TeamOf(players: map<int, Player>, el: int): Option<int> {
    if el in players then players[el].team else None
  }

  /** `playersById[el]?.element_type`: 1 goalkeeper, 2 defender, 3 midfielder, 4 forward. */
  function TypeOf(players: map<int, Player>, el: int): Option<int> {
    if el in players then players[el].elementType else None
  }

  /** The per-player projected-score record built from the live statistics. */
  datatype Projected = Projected(
    minutes: int, projectedTotal: int,
    goalsScored: int, assists: int, cleanSheets: int, goalsConceded: int, saves: int,
    bonus: int, bps: int, yellowCards: int, redCards: int,
    penaltiesMissed: int, penaltiesSaved: int)

  /** `projectedById[el]?.minutes || 0` */
  function MinutesOf(table: map<int, Projected>, el: int): int {
    if el in table then table[el].minutes else 0
  }

  /** `projectedById[el]?.projected_total || 0`: the base points of a player. */
  function BaseOf(table: map<int, Projected>, el: int): int {
    if el in table then table[el].projectedTotal else 0
  }

  /** `projectedById[el]?.bps || 0` */
  function BpsOf(table: map<int, Projected>, el: int): int {
    if el in table then table[el].bps else 0
  }

  /** The raw `stats` object of one live element; every field may be missing. */
  datatype Stats = Stats(
    minutes: Option<int>, totalPoints: Option<int>,
    goalsScored: Option<int>, assists: Option<int>, cleanSheets: Option<int>,
    goalsConceded: Option<int>, saves: Option<int>, bonus: Option<int>, bps: Option<int>,
    yellowCards: Option<int>, redCards: Option<int>,
    penaltiesMissed: Option<int>, penaltiesSaved: Option<int>)

  /** One entry of a live element's `explain` list: the fixture it is about, if any. */
  datatype Stint = Stint(fixture: Option<int>)

  /** One entry of the live endpoint's `elements` list. */
  datatype LiveElement = LiveElement(id: int, stats: Option<Stats>, explain: Option<seq<Stint>>)

  /** One of a squad's picks (`element`, `position` 1-15, `multiplier`, `is_captain`, `is_vice_captain`). */
  datatype Slot = Slot(element: int, position: int, multiplier: int, isCaptain: bool, isViceCaptain: bool)

  /** Position numbers 1-11 are the starting XI, 12 and above the bench in priority order. */
  predicate IsStarter(s: Slot) { s.position <= 11 }

  /** The chip a squad has active this gameweek (`picks.active_chip`). */
  datatype Chip = NoChip | BenchBoost | TripleCaptain | OtherChip(name: string)

  /** `picks.active_chip || null`, with the two chips that change scoring told apart. */
  function ChipOf(activeChip: Option<string>): (c: Chip)
    ensures c == BenchBoost <==> activeChip == Some("bboost")
    ensures c == TripleCaptain <==> activeChip == Some("3xc")
    ensures c == NoChip <==> activeChip == None || activeChip == Some("")
  {
    match activeChip
    case None => NoChip
    case Some(s) =>
      if s == "" then NoChip
      else if s == "bboost" then BenchBoost
      else if s == "3xc" then TripleCaptain
      else OtherChip(s)
  }

  /** One gameweek of the bootstrap catalogue (`id`, `average_entry_score`, `deadline_time` as a timestamp). */
  datatype Event = Event(id: int, averageEntryScore: Option<int>, deadline: int)

  datatype PositionName = GK | DEF | MID | FWD

  /** `typeName`: element type 1, 2, 3 name GK, DEF, MID; anything else, even a missing type, is FWD. */
  function TypeName(t: Option<int>): (n: PositionName)
    ensures n == GK <==> t == Some(1)
    ensures n == DEF <==> t == Some(2)
    ensures n == MID <==> t == Some(3)
  {
    if t == Some(1) then GK else if t == Some(2) then DEF else if t == Some(3) then MID else FWD
  }
}
