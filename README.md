# FPL-Live worker: live scoring engine

FPL-Live is a Cloudflare worker that estimates Fantasy Premier League scores during a
gameweek. It reads the upstream bootstrap catalogue (players, gameweeks), the gameweek's
fixtures, the live statistics of every player and a squad's picks. From these it:

- builds a projection table of per-player records;
- adds a provisional bonus (3, 2 and 1 points) for the top BPS scorers of each fixture that is
  not settled yet;
- brings on bench players for starters who are surely absent, keeping a legal 3-2-1 outfield
  formation and swapping goalkeepers first;
- promotes the vice-captain when the captain has not played;
- scores every slot as base points times its multiplier, and reports the XI's points, the
  bench's points and the difference to the gameweek average.

The worker holds two copies of this pipeline:

- the typed modules under `worker/src/compute`, `worker/src/handlers` and `worker/src/util`;
- the older hand-written handler in `worker/src/index.js`. It has its own projection builder,
  a provisional bonus on competition ranks, its own absence test and a trend word. It also
  serves the classic-league table, whose full mode scores every member live and re-ranks the
  league by the live season total.

`worker/src/fpl/eventStatus.ts` resolves the current gameweek from the event-status feed, and
falls back on the deadlines when the feed does not name one.

The Dafny modules follow the source files:

| module | file | models |
|---|---|---|
| `Wrappers` | `wrappers.dfy` | `Option`, the stand-in for JavaScript's `undefined` |
| `Sorting` | `sorting.dfy` | JavaScript's stable `Array.prototype.sort`, as a stable insertion sort by an integer key; `filter`; `find` |
| `Fpl` | `fpl.dfy` | the upstream records and their field lookups (`?.`, `|| 0`), chips, `typeName` |
| `IndexBy` | `index_by.dfy` | `util/indexBy.ts` |
| `Projection` | `projection.dfy` | `compute/projection.ts` |
| `PlayState` | `play_state.dfy` | `compute/playState.ts` |
| `Autosubs` | `autosubs.dfy` | `compute/autosubs.ts`, and the two inline copies in `index.js` |
| `ProvisionalBonus` | `provisional_bonus.dfy` | `compute/provisionalBonus.ts` (a class over the projection dictionary, which it updates in place) |
| `LiveManager` | `live_manager.dfy` | `handlers/liveManager.ts` |
| `LegacyBonus` | `legacy_bonus.dfy` | `computeProvisionalBonus` and `assignRanks` of `index.js` |
| `LegacyLive` | `legacy_live.dfy` | `buildProjected` and `handleLiveManager` of `index.js` |
| `League` | `league.dfy` | `handleLeague` of `index.js` |
| `EventStatus` | `event_status.dfy` | `fpl/eventStatus.ts` |

Each loop of the source that updates state is a method, proved against a specification
function: its `ensures` ties the result to that function. The read-only `teamFinished` scan of
`compute/playState.ts` (and its two `teamFixturesFinished` copies in `index.js`) is the
recursive function `PlayState.TeamFinished`. The lemmas then state what the source promises about these
functions.

The three autosubs copies are one method with two parameters:

- the absence test, a closure in every copy of the source;
- a `FormationRule`. `ByRole` is the role rule of `autosubs.ts` and of the legacy manager
  handler, where a missing type counts as a forward. `ByTypeKey` is the league's
  `next[et]--; next[bet]++`, which only counts the keys 2, 3 and 4.

Upstream fetches, the clock and the gameweek average are inputs. An exception the source
would throw on a missing list (`live.elements` in the legacy handlers, an empty event list in
the deadline fallback) is `None`.

Three behaviours of the code are worth stating outright:

- On tied BPS, `provisionalBonus.ts` still gives 3, 2 and 1 to the first three entries of a
  stable sort. `index.js` uses competition ranks, so BPS 40, 40, 35 and 20 get ranks 1, 1, 3
  and 4 and bonuses 3, 3, 1 and 0 (`LegacyBonus.TiedLeadersShareTopBonus`).
- The league mode depends only on the `mode` parameter and the league size.
- The full league table carries `live_rank` and no rank-change column.

## Model

| member | source | states |
|---|---|---|
| Fpl.ChipOf | worker/src/handlers/liveManager.ts:32-34 | the chip is bench boost exactly for `"bboost"` and triple captain exactly for `"3xc"`; a missing or empty chip is no chip |
| Fpl.TypeName | worker/src/handlers/liveManager.ts:45 | types 1, 2, 3 are GK, DEF, MID; every other type, even a missing one, is FWD |
| IndexBy.IndexBy | worker/src/util/indexBy.ts:1-5 | the dictionary is the indexed list, and a missing list gives the empty dictionary |
| IndexBy.IndexedLastWins | worker/src/util/indexBy.ts:3 | one entry per distinct key of the list, holding the last element with that key |
| Projection.MissingStatsProjectBlank | worker/src/compute/projection.ts:20-35 | an element without `stats` gets the all-zero record |
| Projection.ProjectKeepsReportedStats | worker/src/compute/projection.ts:21-35 | each of the thirteen fields (`projected_total`, minutes, goals, assists, clean sheets, goals conceded, saves, bonus, BPS, cards, penalties) is the reported value when present, else 0 |
| Projection.BuildProjected | worker/src/compute/projection.ts:17-38 | the keys are the ids of `live.elements`; each record is the projection of the last element with that id; a missing list gives an empty dictionary |
| Projection.ProjectionOfLast | worker/src/compute/projection.ts:17-38 | the dictionary has a record for exactly the ids listed, each the projection of the last element with that id |
| Projection.PickEventBadges | worker/src/compute/projection.ts:40-52 | one badge per nonzero counted stat, in the fixed order, each at most once; the saves badge needs 3 saves and shows one point per 3; an absent record gets none |
| Projection.PushedInOrder | worker/src/compute/projection.ts:41-50 | after the first `k` conditional pushes the list holds exactly the badges of those `k` checks that fired, in order |
| Projection.AllPushed | worker/src/compute/projection.ts:40-52 | after all nine pushes the list meets the badge specification |
| PlayState.TeamFinished | worker/src/compute/playState.ts:2-9 | true exactly when every fixture of the team is finished or provisionally finished (so also for a team with no fixture) |
| PlayState.FinishedTeamCountsAllFixtures | worker/src/compute/playState.ts:13-16 | for a finished team the finished count is the number of its fixtures |
| PlayState.Classification | worker/src/compute/playState.ts:11-28 | finished team: `unused` for 0 minutes, `subbed_off` below 90 per settled fixture, else `played_full`; otherwise `not_started` for 0 minutes, else `playing_or_off_unk`; minutes and the flag are echoed |
| PlayState.TeamWithoutFixturesIsFinished | worker/src/compute/playState.ts:2-20 | a team with no fixture in the list is finished, and 0 minutes then means `unused` |
| Autosubs.FindGK | worker/src/compute/autosubs.ts:13-15 | the index of the first goalkeeper, or none when there is no goalkeeper |
| Autosubs.OutfieldBench | worker/src/compute/autosubs.ts:20 | exactly the reserves that are not goalkeepers |
| Autosubs.FirstFit | worker/src/compute/autosubs.ts:35-44 | the first reserve from the given position on that is unused and keeps the formation legal, or none when no reserve fits |
| Autosubs.CountFormationOf | worker/src/compute/autosubs.ts:22-29 | the loop's counts equal the formation of the effective XI |
| Autosubs.ApplyAutosubs | worker/src/compute/autosubs.ts:1-48 | the result is the specification `Autosubs`; one slot per starter, each changed in `element` only; used reserves come from the bench; with the guard off nothing changes |
| Autosubs.GoalkeeperSwap | worker/src/compute/autosubs.ts:13-17 | the array after the goalkeeper step equals the goalkeeper phase of the old array |
| Autosubs.OutfieldPhase | worker/src/compute/autosubs.ts:31-45 | the array after the outfield loop equals the outfield phase of the old array |
| Autosubs.FindFit | worker/src/compute/autosubs.ts:35-44 | the inner loop stops at `FirstFit` |
| Autosubs.OutfieldChanges | worker/src/compute/autosubs.ts:31-45 | only surely absent non-goalkeepers from the current starter on are replaced, and only their element; each by a fresh reserve that is recorded as used |
| Autosubs.OutfieldFormation | worker/src/compute/autosubs.ts:34-43 | a legal formation stays legal, and after any substitution the formation is legal |
| Autosubs.SubstitutionFormation | worker/src/compute/autosubs.ts:37-42 | one substitution chosen by `FirstFit` leaves a legal formation |
| Autosubs.AutosubsKeepsSlots | worker/src/compute/autosubs.ts:8-10 | one effective slot per starter, with position, multiplier and captaincy kept; guard off means starters unchanged and no reserve used |
| Autosubs.AutosubsReplacements | worker/src/compute/autosubs.ts:12-45 | an absent first goalkeeper becomes the first bench goalkeeper; present players and other goalkeepers stay; every other replacement is a used outfield reserve |
| Autosubs.AutosubsUseBench | worker/src/compute/autosubs.ts:16-42 | `usedBench` holds only bench elements, and no reserve replaces two starters |
| Autosubs.AutosubsFormation | worker/src/compute/autosubs.ts:19-45 | a legal starting formation stays legal, and any outfield change leaves a legal formation |
| ProvisionalBonus.AscendingKeys | worker/src/compute/provisionalBonus.ts:7 | the dictionary's integer keys, each once, visited in ascending order |
| ProvisionalBonus.FixtureOfTeam | worker/src/compute/provisionalBonus.ts:10 | the first fixture involving the team, or none when no fixture does |
| ProvisionalBonus.FixtureById | worker/src/compute/provisionalBonus.ts:16 | the first fixture with the id, or none |
| ProvisionalBonus.GroupByFixture | worker/src/compute/provisionalBonus.ts:6-13 | the loop builds the groups of the ascending keys |
| ProvisionalBonus.GroupsOfKeys | worker/src/compute/provisionalBonus.ts:9-12 | there is a group for each fixture of a visited player and for no other |
| ProvisionalBonus.GroupsOfSound | worker/src/compute/provisionalBonus.ts:9-12 | a group holds only visited players of its fixture, with their BPS |
| ProvisionalBonus.GroupsOfComplete | worker/src/compute/provisionalBonus.ts:9-12 | every visited player with a fixture is in that fixture's group |
| ProvisionalBonus.GroupsOfIncreasing | worker/src/compute/provisionalBonus.ts:7-12 | visited in ascending order, each group is in ascending id order |
| ProvisionalBonus.ProjectionTable.AwardTop | worker/src/compute/provisionalBonus.ts:19-25 | the top entries' awards are added in place, and a missing record starts at 0 |
| ProvisionalBonus.ProjectionTable.AwardFixtures | worker/src/compute/provisionalBonus.ts:14-26 | the second loop leaves the dictionary that the specification gives for the visited fixtures |
| ProvisionalBonus.ProjectionTable.ApplyProvisionalBonus | worker/src/compute/provisionalBonus.ts:1-27 | the dictionary becomes `WithProvisionalBonus` of the old one |
| ProvisionalBonus.ProvisionalBonusEffect | worker/src/compute/provisionalBonus.ts:1-27 | the keys are kept; each record changes only by adding the player's provisional bonus to `projected_total` |
| ProvisionalBonus.GroupsSumIsBonus | worker/src/compute/provisionalBonus.ts:14-26 | over all groups, a player gets exactly what its own fixture's group awards it |
| ProvisionalBonus.NoBonusWhenSettled | worker/src/compute/provisionalBonus.ts:9-18 | no fixture, a fixture unknown by id, or a settled fixture: the record is unchanged |
| ProvisionalBonus.GroupContents | worker/src/compute/provisionalBonus.ts:6-13 | a fixture's group is the entry of every player grouped under it, and nothing else |
| ProvisionalBonus.RankingOf | worker/src/compute/provisionalBonus.ts:19 | the ranking is a permutation of the group, by descending BPS, each player once |
| ProvisionalBonus.AwardByPosition | worker/src/compute/provisionalBonus.ts:19-25 | the player at position `i` of the ranking gets `Award(i)` |
| ProvisionalBonus.RankedFirst | worker/src/compute/provisionalBonus.ts:19 | more BPS, or equal BPS and a lower id, is ranked first |
| ProvisionalBonus.BonusIsGroupAward | worker/src/compute/provisionalBonus.ts:14-25 | in an unsettled fixture the bonus is the group's award |
| ProvisionalBonus.PositionInRanking | worker/src/compute/provisionalBonus.ts:19-25 | a player of an unsettled fixture has a ranking position, and its bonus is that position's award |
| ProvisionalBonus.BonusByRank | worker/src/compute/provisionalBonus.ts:19-25 | position `i` gets `[3, 2, 1][i] || 0`, and every player of the fixture has a position |
| ProvisionalBonus.BonusRange | worker/src/compute/provisionalBonus.ts:20-22 | the provisional bonus is 0, 1, 2 or 3 |
| ProvisionalBonus.BonusFollowsBps | worker/src/compute/provisionalBonus.ts:19-25 | within one fixture a lower BPS, or equal BPS with a higher id, never gets more bonus |
| ProvisionalBonus.FixtureBonusTotal | worker/src/compute/provisionalBonus.ts:19-25 | in an unsettled fixture the bonuses of the fixture's players add up to 0, 3, 5 or 6 points: 6 once the fixture has three players or more |
| ProvisionalBonus.AtMostThreeRewarded | worker/src/compute/provisionalBonus.ts:19-25 | in an unsettled fixture at most three players get a provisional bonus |
| Sorting.SortByPermutes | worker/src/handlers/liveManager.ts:28 | sorting permutes the list |
| Sorting.SortBySorted | worker/src/handlers/liveManager.ts:28 | the sorted list is in ascending key order |
| Sorting.SortByStable | worker/src/handlers/liveManager.ts:28 | elements with equal keys keep their relative order |
| LiveManager.AutosubsOn | worker/src/handlers/liveManager.ts:12 | autosubs are off exactly when the parameter is `"off"` |
| LiveManager.ActiveChip | worker/src/handlers/liveManager.ts:32 | the echoed chip is the present non-empty chip, else none |
| LiveManager.SurelyAbsent | worker/src/handlers/liveManager.ts:36-40 | absent exactly when the team's fixtures are all settled and the record shows 0 minutes |
| LiveManager.CaptainOf | worker/src/handlers/liveManager.ts:46 | the element of the first captain slot of the effective XI, or none |
| LiveManager.Multiplier | worker/src/handlers/liveManager.ts:58-60 | bench boost makes a bench slot count once; without a played captain the vice-captain gets at least 3 (triple captain) or 2; otherwise the slot's own multiplier |
| LiveManager.ScoreSlots | worker/src/handlers/liveManager.ts:49-81 | the scoring loop gives one entry per slot, and the XI and bench sums of those slots |
| LiveManager.BenchFiltered | worker/src/handlers/liveManager.ts:43 | exactly the reserves whose element did not come on, in bench order |
| LiveManager.LiveAverage | worker/src/handlers/liveManager.ts:83 | the first event with the id gives its average, else 0 |
| LiveManager.ScoreSquad | worker/src/handlers/liveManager.ts:28-92 | the handler's steps give `Score` of the inputs |
| LiveManager.LiveManagerHandler | worker/src/handlers/liveManager.ts:11-93 | the response is `Score` on the table with the provisional bonus added |
| LiveManager.ScoredSides | worker/src/handlers/liveManager.ts:29-30 | the effective XI holds positions up to 11, the scored bench 12 and above |
| LiveManager.Totals | worker/src/handlers/liveManager.ts:79-92 | starters is the XI's points, bench the unused reserves' points, overall their sum, diff the XI's points minus the average |
| LiveManager.TeamOrder | worker/src/handlers/liveManager.ts:89 | `team` is the scored slots' entries sorted by position, ties in scoring order |
| LiveManager.TeamEntries | worker/src/handlers/liveManager.ts:52-80 | each entry's total is its base times its multiplier, and its bench flag is its position |
| LiveManager.BenchFilteredLength | worker/src/handlers/liveManager.ts:43 | the filtered bench is one shorter per used reserve |
| LiveManager.TeamSize | worker/src/handlers/liveManager.ts:42-52 | with distinct elements, the team holds one entry per pick less one per reserve that came on |
| LiveManager.SidesCover | worker/src/handlers/liveManager.ts:29-30 | every pick is a starter or a reserve |
| LiveManager.NoAutosubs | worker/src/handlers/liveManager.ts:42-43 | under bench boost or `autosubs=off` the XI is the starters and every reserve is scored |
| LiveManager.ViceCaptainPromotion | worker/src/handlers/liveManager.ts:46-60 | the captain has not played exactly when missing, element 0 or surely absent; then every vice-captain slot scores at least 2 (3 under triple captain); otherwise, outside bench boost, every slot keeps its multiplier |
| LegacyBonus.AssignRanks | worker/src/index.js:492-506 | the loop gives `Ranks` of the values |
| LegacyBonus.RunStartCount | worker/src/index.js:497-505 | on non-increasing BPS, the rank counter of a value's run is the number of strictly higher values |
| LegacyBonus.CompetitionRanks | worker/src/index.js:497-505 | on non-increasing BPS, the rank is 1 plus the number of strictly higher values, capped at 4 |
| LegacyBonus.RanksShared | worker/src/index.js:497-505 | on non-increasing BPS, equal values share a rank and ranks never decrease |
| LegacyBonus.RanksRange | worker/src/index.js:505 | every rank is 1 to 4, and the first is 1 |
| LegacyBonus.RankBonus | worker/src/index.js:480-484 | rank 1, 2, 3 give 3, 2, 1 points; every other rank gives 0 |
| LegacyBonus.TiedLeadersShareTopBonus | worker/src/index.js:476-484 | BPS 40, 40, 35, 20 get ranks 1, 1, 3, 4 and bonuses 3, 3, 1, 0 |
| LegacyBonus.PushStintsOf | worker/src/index.js:462-467 | the stint loop gives the specification grouping |
| LegacyBonus.GroupByStint | worker/src/index.js:459-468 | the first loop gives the specification grouping of all elements' stints |
| LegacyBonus.PushStintsEffect | worker/src/index.js:463-467 | after one element's stints a fixture has a list exactly when it had one or a counted stint names it, and the entry joins exactly those fixtures' lists |
| LegacyBonus.GroupStintsEffect | worker/src/index.js:459-468 | there is a list exactly for each fixture a counted stint names, and a fixture's list holds an entry exactly when that element has a stint for it |
| LegacyBonus.AwardPlayers | worker/src/index.js:479-487 | the award loop gives `AwardRanked` of its inputs |
| LegacyBonus.RaiseBonus | worker/src/index.js:485-486 | the player's entry becomes the larger of its old value (0 if missing) and the new bonus |
| LegacyBonus.ComputeProvisionalBonus | worker/src/index.js:458-490 | the result is `LegacyProvisionalBonus` of the inputs |
| LegacyBonus.AwardRankedKeys | worker/src/index.js:479-487 | the keys are the old keys plus the ranked players |
| LegacyBonus.AwardRankedGrows | worker/src/index.js:485-486 | values never decrease, and each ranked player holds at least its rank's bonus |
| LegacyBonus.AwardRankedValues | worker/src/index.js:485-486 | each value is non-negative and is either its old value or some rank's bonus |
| LegacyBonus.AwardGroupsMax | worker/src/index.js:472-488 | a player has a value exactly when it earns something in an unfinished visited fixture, and the value is the largest it earns |
| LegacyBonus.FixtureListContents | worker/src/index.js:459-477 | a fixture's sorted list is exactly the entries with a stint for it, as a multiset, by non-increasing BPS |
| LegacyBonus.LegacyBonusCovers | worker/src/index.js:458-490 | every player of an unfinished fixture gets at least its rank's bonus |
| LegacyBonus.LegacyBonusValues | worker/src/index.js:458-490 | every value is 0 to 3 and is the bonus of some rank in an unfinished fixture |
| LegacyBonus.LegacyBonusNeedsUnfinishedStint | worker/src/index.js:458-490 | a player has a bonus entry only if it has a stint in an unfinished fixture |
| LegacyLive.LegacyBuildProjected | worker/src/index.js:434-456 | a missing element list throws (none); otherwise the table of the last record per id |
| LegacyLive.LegacyProjectedTotal | worker/src/index.js:439-453 | one record per element id; the total is the reported points plus at most 3, and unchanged once a bonus is awarded; minutes and BPS are copied |
| LegacyLive.LegacySurelyAbsent | worker/src/index.js:142-157 | absent exactly when there are no minutes, a nonzero team id, and all the team's fixtures are settled |
| LegacyLive.AbsenceWithoutTeam | worker/src/index.js:151-157 | a player with no team and 0 minutes is absent in the typed handler but never in the legacy one |
| LegacyLive.AbsenceAgrees | worker/src/index.js:151-157 | the two absence tests agree for a nonzero team and no negative minutes |
| LegacyLive.TrendOf | worker/src/index.js:254 | up exactly above +5, down exactly below −5, flat between |
| LegacyLive.HandleLiveManager | worker/src/index.js:115-270 | a missing element list throws (none); otherwise `LegacyScore` of the inputs |
| LegacyLive.TrendFollowsStarters | worker/src/index.js:252-254 | the trend is up exactly when the XI beats the average by more than 5 |
| League.ModeOf | worker/src/index.js:273 | a missing or empty mode is `auto`; any other value is kept |
| League.TotalMembers | worker/src/index.js:279 | the reported total when nonzero, else the first page's size |
| League.DoFull | worker/src/index.js:282-283 | full exactly when the mode is `full`, or `auto` with at most 100 members |
| League.XiTotal | worker/src/index.js:373-377 | the loop sums base times multiplier over the effective XI |
| League.AddBench | worker/src/index.js:378-379 | the loop adds each reserve's base once |
| League.MemberTotal | worker/src/index.js:321-380 | a member's live points are the XI after autosubs (off only under bench boost), plus the bench under bench boost |
| League.MemberRow | worker/src/index.js:315-406 | names and ranks copied; with picks: live points, total with the gameweek replaced, diff to average; failed exactly without picks, then standings figures and no diff |
| League.ScoreMember | worker/src/index.js:316-406 | one member's row is `MemberRow` |
| League.ScoreMembers | worker/src/index.js:315-407 | one row per member, in standings order |
| League.NumberRows | worker/src/index.js:410 | the row at index `i` gets live rank `i + 1`, and nothing else changes |
| League.RankedRowsOrder | worker/src/index.js:409-410 | the table is a permutation of the rows, by non-increasing total, ties in standings order, ranked 1, 2, … |
| League.HandleLeague | worker/src/index.js:272-413 | the handler gives `LeagueResponse` |
| League.FullTable | worker/src/index.js:298-412 | full mode gives one row per member of every page, each some member's row, by non-increasing total, live ranks 1, 2, … |
| League.FastTable | worker/src/index.js:285-296 | the first page is echoed with the reported size, exactly in fast mode |
| League.LeagueScoresLikeManager | worker/src/index.js:373-380 | without vice-captain promotion the league's points equal the manager view's total, the bench once each under bench boost |
| EventStatus.StatusEventId | worker/src/fpl/eventStatus.ts:5-9 | the first status row's event when it has one, else `current_event`; a falsy 0 is rejected |
| EventStatus.ByDeadline | worker/src/fpl/eventStatus.ts:14 | a permutation of the events, by ascending deadline |
| EventStatus.Fallback | worker/src/fpl/eventStatus.ts:13-22 | there is a fallback exactly when there are events |
| EventStatus.DeadlineFallback | worker/src/fpl/eventStatus.ts:15-21 | the loop with its `break` gives `Fallback` |
| EventStatus.ResolveCurrentEventId | worker/src/fpl/eventStatus.ts:3-23 | the status id when truthy, else the fallback's id |
| EventStatus.FallbackPosition | worker/src/fpl/eventStatus.ts:15-21 | every later event's deadline is to come, and the fallback's has passed unless it is the first of all-future events |
| EventStatus.FallbackLatestStarted | worker/src/fpl/eventStatus.ts:14-21 | when some deadline has passed, the fallback is an event with the latest passed deadline |
| EventStatus.FallbackAllFuture | worker/src/fpl/eventStatus.ts:19 | when all deadlines are to come, the event with the earliest deadline |
| EventStatus.FallbackAllPast | worker/src/fpl/eventStatus.ts:20 | when all deadlines have passed, the event with the latest deadline |
| EventStatus.ResolvedIdSource | worker/src/fpl/eventStatus.ts:3-23 | a truthy status id wins; otherwise the id is a catalogue event's, absent only with no events |

## Left out

- Fetching, caching (`fetchJSONCached`), CORS and the JSON responses are left out. The fetched bodies (picks, live statistics, standings pages, event status) are inputs. A failed per-member picks fetch is an entry missing from the picks map.
- Concurrency (`Promise.all`, `pLimit`) is left out. The model keeps what the code keeps: rows in standings order.
- League paging is not a loop; the further pages come in as one list of members.
- Clock and date parsing are left out: `now` and each deadline are integers.
- `round2` and floating point are left out, because every score here is an integer.
- `Number(...)` of a non-numeric value (NaN) is left out; every number is an `int`.
- Each `?? 0` and `|| 0` on a number is modelled the same way, since they differ only on NaN.
- Display fields are left out: names, `web_name`, `team_short`, `teamsById`, `page` and `league`. A failed league row keeps only a `failed` flag, not the error message. The `ok` and `entryId` echoes are left out too.
- The `event` override parameter of `liveManagerHandler` and the bootstrap fetch (`getBootstrap`) are left out: the gameweek id and the catalogue are inputs.
- `LegacyLive.HandleLiveManager`: the legacy badge list (`index.js` 511-522) is not modelled. It orders its badges differently, shows saves whenever nonzero, and reads a bonus field that the legacy table does not have. The model leaves out the legacy `events` badge list of each team entry, and its entries carry the typed handler's `bps` and `play_state` fields, which the legacy entries do not have; the type name is kept as `TeamSlot.kind`.
- Object keys are taken to be non-negative integers. JavaScript then visits them in ascending order, which is how `AscendingKeys` models the dictionary iteration of `provisionalBonus.ts`. The legacy `Map` keeps insertion order, which the grouping models explicitly.
- The league's `used` set does not record the goalkeeper swap. The model shares the typed autosubs, which do record it. The difference falls away: a bench goalkeeper is never an outfield reserve.
- `Autosubs.AutosubsFormation`: under the role rule it is proved only when every element has one of the four known types. The role rule counts a missing type as a forward; `countFormation` does not count it at all.
- `LiveManager.ViceCaptainPromotion`: under bench boost it says nothing about the multipliers of bench slots beyond `Multiplier`'s own contract.
