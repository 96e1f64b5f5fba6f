/** `compute/playState.ts`: what a player's minutes and the team's fixtures say about whether the player played. */
module PlayState {
  import opened Wrappers
  import opened Fpl
  import Sorting

  datatype Status = Unused | SubbedOff | PlayedFull | NotStarted | PlayingOrOffUnknown

  /** The `{ minutes, team_finished, status }` object `playStateFor` returns. */
  datatype PlayStateResult = PlayStateResult(minutes: int, teamFinished: bool, status: Status)

  /**
   * `teamFinished(teamId)`: the loop returns false at the first fixture of the team that is
   * neither finished nor provisionally finished, and true when there is none, so a team with no
   * fixture at all (or no team id) counts as finished.
   */
  function TeamFinished(fixtures: seq<Fixture>, team: Option<int>): (r: bool)
    ensures r <==> forall i :: 0 <= i < |fixtures| && Involves(fixtures[i], team) ==> Settled(fixtures[i])
  {
    if fixtures == [] then true
    else if Involves(fixtures[0], team) && !Settled(fixtures[0]) then false
    else
      var rest := TeamFinished(fixtures[1..], team);
      assert forall i :: 1 <= i < |fixtures| ==> fixtures[i] == fixtures[1..][i - 1];
      rest
  }

  /** `teamFixtures.filter(f => f.finished || f.finished_provisional).length` */
  function FinishedCount(fixtures: seq<Fixture>, team: Option<int>): nat {
    Sorting.Count(fixtures, (f: Fixture) => Involves(f, team) && Settled(f))
  }

  /** `teamFixtures.length` */
  function FixtureCount(fixtures: seq<Fixture>, team: Option<int>): nat {
    Sorting.Count(fixtures, (f: Fixture) => Involves(f, team))
  }

  /** `playStateFor(elId, minutes)`, for the fixtures and players `makePlayStateBuilder` closed over. */
  function PlayStateFor(fixtures: seq<Fixture>, players: map<int, Player>, el: int, minutes: int): PlayStateResult {
    var team := TeamOf(players, el);
    var finishedAll := TeamFinished(fixtures, team);
    var maxRegMinutes := FinishedCount(fixtures, team) * 90;
    var status :=
      if finishedAll then
        (if minutes == 0 then Unused else if minutes < maxRegMinutes then SubbedOff else PlayedFull)
      else
        (if minutes == 0 then NotStarted else PlayingOrOffUnknown);
    PlayStateResult(minutes, finishedAll, status)
  }

  /** When every fixture of the team is settled, all of them count towards the 90-minute allowance. */
  lemma {:induction false} FinishedTeamCountsAllFixtures(fixtures: seq<Fixture>, team: Option<int>)
    requires TeamFinished(fixtures, team)
    ensures FinishedCount(fixtures, team) == FixtureCount(fixtures, team)
  {
    if fixtures != [] {
      assert TeamFinished(fixtures[1..], team);
      FinishedTeamCountsAllFixtures(fixtures[1..], team);
    }
  }

  /**
   * The classification: a team whose fixtures are all settled gives `unused` for 0 minutes,
   * `subbed_off` below 90 minutes per fixture and `played_full` from there on; otherwise 0
   * minutes is `not_started` and anything else `playing_or_off_unk`. The result echoes the
   * minutes and the team-finished flag.
   */
  lemma Classification(fixtures: seq<Fixture>, players: map<int, Player>, el: int, minutes: int)
    ensures var r := PlayStateFor(fixtures, players, el, minutes);
      var n := FixtureCount(fixtures, TeamOf(players, el));
      && r.minutes == minutes
      && (r.teamFinished <==> forall f :: f in fixtures && Involves(f, TeamOf(players, el)) ==> Settled(f))
      && (r.status == Unused <==> r.teamFinished && minutes == 0)
      && (r.status == SubbedOff <==> r.teamFinished && minutes != 0 && minutes < 90 * n)
      && (r.status == PlayedFull <==> r.teamFinished && minutes != 0 && minutes >= 90 * n)
      && (r.status == NotStarted <==> !r.teamFinished && minutes == 0)
      && (r.status == PlayingOrOffUnknown <==> !r.teamFinished && minutes != 0)
  {
    var team := TeamOf(players, el);
    if TeamFinished(fixtures, team) {
      FinishedTeamCountsAllFixtures(fixtures, team);
    }
    forall f | f in fixtures && Involves(f, team) ensures TeamFinished(fixtures, team) ==> Settled(f) {
      var i :| 0 <= i < |fixtures| && fixtures[i] == f;
    }
  }

  /** A team none of whose fixtures is in the list is finished, so a player of it with 0 minutes is `unused`. */
  lemma TeamWithoutFixturesIsFinished(fixtures: seq<Fixture>, players: map<int, Player>, el: int)
    requires forall f :: f in fixtures ==> !Involves(f, TeamOf(players, el))
    ensures PlayStateFor(fixtures, players, el, 0).teamFinished
    ensures PlayStateFor(fixtures, players, el, 0).status == Unused
  {
  }
}
