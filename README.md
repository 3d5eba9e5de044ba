# Squash court analyzer — a Dafny model of its scoring and analysis core

The squash court analyzer is an iOS app for scoring squash games rally by
rally. For every point it records who won it, in which of six court zones,
with which shot, who served, the score after the point and how long the rally
lasted. From this log it derives statistics for coaching. This project models
the app's model layer:

- `Players` (`player.dfy`): the two players, the opponent mapping and raw
  values.
- `CourtZones` (`court_zone.dfy`): the six zones in declaration order, their
  codes and the classifier from a normalised court position.
- `ShotTypes` (`shot_type.dfy`): the six shot tags and their display metadata.
- `Rallies` (`rally.dfy`): the `Point` and `Let` records.
- `Games` (`game.dfy`): the live game. A `Game` class holds the scores, the
  servers, the point log, the undo stack of previous servers and the
  selection.
  - Every method is specified by a step function over a `GameState` value.
  - The invariant `Consistent` is kept by all of them: one stacked server per
    logged point, scores equal to log counts, and score snapshots that match
    the log.
  - The per-player and per-zone counts, the best, worst and recommended zones
    are pure functions of the point log.
- `Matches` (`match.dfy`): the live best-of-five match. It covers the
  games-to-win rule, the winner, the `Match` class with its game list and
  current index, and the match-wide analytics folded over the games' logs.
  These analytics include the split of rallies at the median duration.
- `SavedPoints`, `SavedLets`, `SavedGames`, `SavedMatches` (`saved_*.dfy`):
  the persistence records. Enums are stored as raw strings and decoded with
  fallbacks. `from` numbers points, lets and games from 1. `toGame` restores
  a live game, sorting by the stored numbers. Round-trip lemmas connect the
  two directions.
- `Seqs` (`seqs.dfy`) holds the generic sequence reasoning: filters,
  flattening, first maximum, stable insertion sort, ranking by count.
  `Wrappers` (`wrappers.dfy`) holds `Option`.

Several parts of the code use members that the declarations in these files
lack:

- `Point` declares no `shotType` or `duration`, and its initialiser takes
  neither. Yet the match analytics read `point.shotType` and
  `point.duration` (SquashAnalyzer/Models/Match.swift:149, 174).
- `toGame` passes `shotType:` and `duration:` to that initialiser
  (SquashAnalyzer/Models/SavedGame.swift:118, 122).
- `Game` declares no `lets`. Yet `toGame` assigns `game.lets`
  (SquashAnalyzer/Models/SavedGame.swift:125), while `from` and `allLets`
  read it (SquashAnalyzer/Models/SavedGame.swift:163,
  SquashAnalyzer/Models/Match.swift:228).
- `SavedPoint` declares no `duration`, yet `toGame` reads `sp.duration`
  (SquashAnalyzer/Models/SavedGame.swift:122).

The model adds `shotType` and `duration` (a `nat`, in milliseconds) to
`Point`, and a `lets` field to `Game` that no `Game` method touches. A
restored point gets duration 0.

## Model

| member | source | states |
|---|---|---|
| Players.Opponent | SquashAnalyzer/Models/Game.swift:17-22 | the opponent is never the player itself |
| Players.OpponentInvolution | SquashAnalyzer/Models/Game.swift:17-22 | the opponent of the opponent is the player; no player is its own opponent |
| Players.ShortName | SquashAnalyzer/Models/Game.swift:10-15 | every short name has two characters |
| Players.ShortNamesDistinct | SquashAnalyzer/Models/Game.swift:10-15 | the two short names differ |
| Players.FromRaw | SquashAnalyzer/Models/Game.swift:4-6 | `Player(rawValue:)` gives p exactly when the string is p's raw value, and nothing otherwise |
| Players.RawInjective | SquashAnalyzer/Models/Game.swift:4-6 | two players have the same raw value only if they are the same |
| Players.DecodeOrPlayer1 | SquashAnalyzer/Models/SavedPoint.swift:43-45 | decoding with the player-1 fallback gives player 2 exactly on player 2's raw value |
| CourtZones.AllZones | SquashAnalyzer/Models/CourtZone.swift:5-10 | `allCases` has six entries, and each zone sits at its declaration index |
| CourtZones.AllZonesEnumerates | SquashAnalyzer/Models/CourtZone.swift:5-10 | `allCases` lists every zone exactly once |
| CourtZones.From | SquashAnalyzer/Models/CourtZone.swift:26-40 | for every (x, y), including values outside [0, 1]: left iff x < 0.5; front iff y < 0.33; middle iff 0.33 <= y < 0.66; back iff y >= 0.66 |
| CourtZones.RowAndColumnDetermineZone | SquashAnalyzer/Models/CourtZone.swift:26-40 | row and column together identify a zone, so the classifier's result is unique |
| CourtZones.ClassifierBoundaries | SquashAnalyzer/Models/CourtZone.swift:27-33 | the strict comparisons put x = 0.5, y = 0.33 and y = 0.66 in the upper bucket; (0.1, 0.1) is front left and (0.99, 0.99) is back right |
| CourtZones.ShortName | SquashAnalyzer/Models/CourtZone.swift:14-23 | every zone code has two letters |
| CourtZones.ShortNamesDistinct | SquashAnalyzer/Models/CourtZone.swift:14-23 | the short names are pairwise distinct |
| CourtZones.FromRaw | SquashAnalyzer/Models/CourtZone.swift:5-10 | `CourtZone(rawValue:)` gives z exactly on z's raw value, and nothing otherwise |
| CourtZones.RawRoundTrip | SquashAnalyzer/Models/CourtZone.swift:5-10 | decoding a zone's raw value gives the zone back |
| ShotTypes.AllShots | SquashAnalyzer/Models/ShotType.swift:5-10 | `allCases` has six entries, and each shot sits at its declaration index |
| ShotTypes.ShortName | SquashAnalyzer/Models/ShotType.swift:15-24 | every short code has three letters |
| ShotTypes.MetadataDistinct | SquashAnalyzer/Models/ShotType.swift:15-48 | short name, icon, description and raw value are each pairwise distinct over the six cases |
| ShotTypes.FromRaw | SquashAnalyzer/Models/ShotType.swift:5-10 | `ShotType(rawValue:)` gives t exactly on t's raw value, and nothing otherwise |
| ShotTypes.RawRoundTrip | SquashAnalyzer/Models/ShotType.swift:5-10 | decoding a shot's raw value gives the shot back |
| ShotTypes.DecodeOrDrive | SquashAnalyzer/Models/SavedPoint.swift:51-53 | decoding with the drive fallback gives a drive exactly on drive's raw value or an unknown string, and any other shot only on its own raw value |
| Games.GameOver | SquashAnalyzer/Models/Game.swift:47-51 | a game is over iff some score is at least 11 and the scores differ by at least 2 |
| Games.GameWinner | SquashAnalyzer/Models/Game.swift:53-56 | no winner iff the game is not over; otherwise the strictly higher scorer, in both directions |
| Games.GameOverExamples | SquashAnalyzer/Models/Game.swift:47-56 | 10-9, 10-10 and 11-10 are live; 11-9, 12-10, 15-13 and 3-11 are over, with the expected winners |
| Games.ZoneWinRatio | SquashAnalyzer/Models/Game.swift:183-189 | the zone win pair is p's wins in the zone over all points played there, and the wins never exceed the total |
| Games.WonPlusLost | SquashAnalyzer/Models/Game.swift:168-180 | the points a player won plus the points they lost are all the points |
| Games.PointsWonExactly | SquashAnalyzer/Models/Game.swift:168-194 | `pointsWon` keeps exactly the points p scored and `pointsLost` exactly those the opponent scored; p's wins in a zone never exceed the points played there |
| Games.ZoneTotalSplits | SquashAnalyzer/Models/Game.swift:173-194 | the points played in a zone are player 1's wins there plus player 2's |
| Games.ZoneCounts | SquashAnalyzer/Models/Game.swift:198-200 | the per-zone counts list each zone's win count at that zone's declaration index |
| Games.BestZone | SquashAnalyzer/Models/Game.swift:197-202 | always a zone; p won no more points in any zone than in it, and strictly fewer in every earlier zone |
| Games.WorstZone | SquashAnalyzer/Models/Game.swift:205-210 | always a zone; the opponent won no more points in any zone than in it, and strictly fewer in every earlier zone |
| Games.WorstZoneIsOpponentsBest | SquashAnalyzer/Models/Game.swift:205-210 | p's worst zone is the opponent's best zone |
| Games.BestZoneOfEmptyLog | SquashAnalyzer/Models/Game.swift:197-202 | with no points, the best zone is front left |
| Games.RecommendedZones | SquashAnalyzer/Models/Game.swift:213-222 | the list is duplicate-free. It has at most three zones, each with a positive opponent score, in non-increasing order of that score. A zone where the opponent scored is missing only when three zones with at least as many points were kept |
| Games.NewGameConsistent | SquashAnalyzer/Models/Game.swift:29-45 | a blank game satisfies the invariant |
| Games.AddPointKeepsConsistent | SquashAnalyzer/Models/Game.swift:93-124 | scoring a point keeps the invariant |
| Games.UndoKeepsConsistent | SquashAnalyzer/Models/Game.swift:132-149 | undoing keeps the invariant |
| Games.ResetConsistent | SquashAnalyzer/Models/Game.swift:151-158 | reset establishes the invariant from any state |
| Games.OtherStepsKeepConsistent | SquashAnalyzer/Models/Game.swift:82-90 | selecting, clearing the selection and setting the starting server keep the invariant |
| Games.GuardedStepsAreNoOps | SquashAnalyzer/Models/Game.swift:82-133 | on a finished game, selecting and scoring leave every field alone; undo on an empty log leaves every field alone, the selection included |
| Games.AddPointEffect | SquashAnalyzer/Models/Game.swift:93-124 | on a live game, scoring adds one to the scorer only. It appends exactly one point carrying scorer, zone, shot, pre-point server and post-point scores. It stacks the old server and clears the selection |
| Games.ServiceGoesToRallyWinner | SquashAnalyzer/Models/Game.swift:117-120 | the rally winner serves next; the server is unchanged exactly when the winner was already serving |
| Games.UndoInvertsAddPoint | SquashAnalyzer/Models/Game.swift:132-149 | undo right after a point restores scores, server, log and stack exactly, and leaves the selection cleared |
| Games.ResetEffect | SquashAnalyzer/Models/Game.swift:151-158 | reset zeroes both scores, empties log and stack, clears the selection and hands service to the starting server |
| Games.ScoreIsPointsWon | SquashAnalyzer/Models/Game.swift:67-72 | under the invariant, each score is the number of points that player won, hence never negative |
| Games.LastPointCarriesLiveScore | SquashAnalyzer/Models/Game.swift:108-115 | under the invariant, the last logged point carries the live score |
| Games.FinishedGameEndsOnLastPoint | SquashAnalyzer/Models/Game.swift:93-124 | under the invariant, a finished game was won on its last point by that point's scorer, either 11 against at most 9 or by exactly two |
| Games.Game.constructor | SquashAnalyzer/Models/Game.swift:29-45 | a new game: default names, 0-0, player 1 to serve, empty logs, no selection, invariant holds |
| Games.Game.SelectPlayer | SquashAnalyzer/Models/Game.swift:82-85 | the new state is the select step of the old one, and the invariant is kept |
| Games.Game.ClearSelection | SquashAnalyzer/Models/Game.swift:88-90 | the new state is the old one without a selection, and the invariant is kept |
| Games.Game.AddPoint | SquashAnalyzer/Models/Game.swift:93-124 | the new state is the scoring step of the old one, and the invariant is kept |
| Games.Game.AddPointWithoutZone | SquashAnalyzer/Models/Game.swift:127-129 | the same as scoring in the middle-left zone |
| Games.Game.UndoLastPoint | SquashAnalyzer/Models/Game.swift:132-149 | the new state is the undo step of the old one, and the invariant is kept |
| Games.Game.Reset | SquashAnalyzer/Models/Game.swift:151-158 | the new state is the reset step of the old one, and the invariant holds afterwards |
| Games.Game.SetStartingServer | SquashAnalyzer/Models/Game.swift:160-163 | both servers become p, nothing else changes, and the invariant is kept |
| Matches.GamesToWin | SquashAnalyzer/Models/Match.swift:23-25 | `bestOf / 2 + 1` with division truncated toward zero |
| Matches.GamesToWinExamples | SquashAnalyzer/Models/Match.swift:20-25 | best of 5 and best of 4 need 3 games, best of 1 needs 1 |
| Matches.GamesWonSplit | SquashAnalyzer/Models/Match.swift:42-48 | the two games-won counts add up to the finished games, never more than the games played |
| Matches.MatchWinner | SquashAnalyzer/Models/Match.swift:54-57 | no winner iff the match is not over; player 1 iff over with strictly more games. The winner has reached the target and won at least as many games as the other player |
| Matches.Match.constructor | SquashAnalyzer/Models/Match.swift:7-20 | default names, player 1 starts, best of 5, exactly one fresh blank game at index 0 |
| Matches.Match.StartNewGame | SquashAnalyzer/Models/Match.swift:86-100 | appends exactly one fresh blank game carrying the match's names, keeping the earlier games. The previous last game's winner serves, or the match's starting server when there is none. The tally gains one unfinished game, and the new game is current |
| Matches.NewGame | SquashAnalyzer/Models/Match.swift:87-96 | a fresh game with the given names, 0-0, empty logs, both servers set to the given one |
| Matches.NewGameKeepsTally | SquashAnalyzer/Models/Match.swift:86-100 | an unfinished game added to the tally changes nobody's games-won count |
| Matches.Match.OnGameEnd | SquashAnalyzer/Models/Match.swift:103-107 | changes nothing when the match is over; otherwise has the effect of starting a new game |
| Matches.Match.ResetMatch | SquashAnalyzer/Models/Match.swift:110-114 | exactly one fresh blank game, started by the match's starting server, at index 0 |
| Matches.Match.SetupMatch | SquashAnalyzer/Models/Match.swift:117-122 | empty names become "Speler 1" / "Speler 2", the starting server is stored, and exactly one fresh blank game is left at index 0 |
| Matches.Match.CurrentGame | SquashAnalyzer/Models/Match.swift:29-40 | the game at the index when it exists; otherwise a fresh blank game is appended and returned. On a valid match nothing is appended |
| Matches.PointLogs | SquashAnalyzer/Models/Match.swift:127-129 | one log per game, in match order, the game's points |
| Matches.LetLogs | SquashAnalyzer/Models/Match.swift:227-229 | one let log per game, in match order |
| Matches.AllPoints | SquashAnalyzer/Models/Match.swift:127-129 | the concatenation is as long as all game logs together |
| Matches.PointsForGame | SquashAnalyzer/Models/Match.swift:132-135 | empty for an index past the end, otherwise that game's log |
| Matches.PointsForGameIsSliceOfAll | SquashAnalyzer/Models/Match.swift:127-135 | a game's log is the slice of `allPoints` that follows the logs of the games before it |
| Matches.TotalPointsWonIsAllPointsCount | SquashAnalyzer/Models/Match.swift:138-140 | the per-game sum of points won equals the count over `allPoints` |
| Matches.TotalPointsWonInIsAllPointsCount | SquashAnalyzer/Models/Match.swift:143-145 | the per-game sum of zone wins equals the count over `allPoints` |
| Matches.TotalPointsWonWithIsSumOverGames | SquashAnalyzer/Models/Match.swift:148-150 | the shot count over `allPoints` equals the per-game sum |
| Matches.TotalPointsWonAddUp | SquashAnalyzer/Models/Match.swift:138-140 | the two players' totals add up to all points of the match |
| Matches.MostEffectiveShot | SquashAnalyzer/Models/Match.swift:153-158 | always a shot; p won no more points with any shot than with it, and strictly fewer with every earlier shot |
| Matches.MatchBestZone | SquashAnalyzer/Models/Match.swift:161-166 | always a zone; p won no more match points in any zone than in it, and strictly fewer in every earlier zone |
| Matches.MatchBestZoneIsBestOfAllPoints | SquashAnalyzer/Models/Match.swift:161-166 | the match's best zone is the game-level best zone of `allPoints` |
| Matches.MedianDuration | SquashAnalyzer/Models/Match.swift:201-202 | the threshold is one of the rally durations; at most n / 2 rallies are shorter than it, more than n / 2 last at most as long, and at least n - n / 2 last at least as long |
| Matches.MedianIsSortedMiddle | SquashAnalyzer/Models/Match.swift:201-202 | any value with at most n / 2 durations below it and more than n / 2 at or below it is the entry at index n / 2 of the durations sorted ascending, so the threshold is exactly that entry |
| Matches.ShortRallyRatio | SquashAnalyzer/Models/Match.swift:199-209 | with pts the match's points and m their median duration: no data iff fewer than two points or no rally shorter than m; otherwise exactly p's wins among the rallies shorter than m over their number, which is between 1 and n / 2 |
| Matches.LongRallyRatio | SquashAnalyzer/Models/Match.swift:212-222 | data iff at least two points; then exactly p's wins among the rallies at least m long over their number, which is at least n - n / 2 |
| Matches.RallyBuckets | SquashAnalyzer/Models/Match.swift:199-222 | the rallies shorter than the median and those at least as long partition the points; the long bucket is non-empty and holds at least n - n / 2, the short one at most n / 2 |
| Matches.UpperHalfAtLeastMedian | SquashAnalyzer/Models/Match.swift:214-217 | in an ascending list, at least n - n / 2 entries are at least the entry at index n / 2 |
| Matches.LowerHalfAtMostMedian | SquashAnalyzer/Models/Match.swift:201-202 | in an ascending list, more than n / 2 entries are at most the entry at index n / 2 |
| Matches.RallyWinsSplit | SquashAnalyzer/Models/Match.swift:199-222 | the points p won in the two buckets are all the points p won |
| Matches.RallyRatiosCoverMatch | SquashAnalyzer/Models/Match.swift:199-222 | with at least two points the long ratio has data; the short and long totals add up to all points and their wins to all of p's wins, or, when the short ratio has none, the long ratio alone covers them |
| Matches.TotalLets | SquashAnalyzer/Models/Match.swift:232-234 | the number of lets is the sum of the per-game let counts |
| Matches.LetsRequested | SquashAnalyzer/Models/Match.swift:237-239 | exactly the match's lets that p asked for: each result is such a let, and every such let is in the result |
| Matches.LetsRequestedAddUp | SquashAnalyzer/Models/Match.swift:232-239 | the lets requested by both players add up to all lets |
| SavedPoints.ScorerPlayer | SquashAnalyzer/Models/SavedPoint.swift:43-45 | player 2 exactly on player 2's raw value, player 1 otherwise |
| SavedPoints.PointZone | SquashAnalyzer/Models/SavedPoint.swift:47-49 | a zone exactly on that zone's raw value, nothing otherwise |
| SavedPoints.PointShotType | SquashAnalyzer/Models/SavedPoint.swift:51-53 | the stored shot when it is a raw shot value, a drive otherwise |
| SavedPoints.ServerPlayer | SquashAnalyzer/Models/SavedPoint.swift:55-57 | player 2 exactly on player 2's raw value, player 1 otherwise |
| SavedPoints.Make | SquashAnalyzer/Models/SavedPoint.swift:19-39 | the four decoders give back scorer, zone, shot and server; number, scores and time are stored verbatim |
| SavedPoints.From | SquashAnalyzer/Models/SavedPoint.swift:62-73 | the record has the given number, the point's scores and time, and decodes to its scorer, server, zone and shot |
| SavedPoints.DecoderFallbacks | SquashAnalyzer/Models/SavedPoint.swift:43-57 | unknown player strings decode to player 1, unknown shot strings to a drive, unknown zone strings to nothing |
| SavedLets.RequestedByPlayer | SquashAnalyzer/Models/SavedLet.swift:37-39 | player 2 exactly on player 2's raw value, player 1 otherwise |
| SavedLets.ServerPlayer | SquashAnalyzer/Models/SavedLet.swift:41-43 | player 2 exactly on player 2's raw value, player 1 otherwise |
| SavedLets.Make | SquashAnalyzer/Models/SavedLet.swift:17-33 | requester and server decode back; number, both scores and time are stored verbatim |
| SavedLets.From | SquashAnalyzer/Models/SavedLet.swift:48-57 | the record has the given number, decodes to the let's requester and server, and keeps both scores and the time |
| SavedLets.DecoderFallbacks | SquashAnalyzer/Models/SavedLet.swift:37-43 | unknown strings decode to player 1 |
| SavedGames.GameStartingServer | SquashAnalyzer/Models/SavedGame.swift:46-48 | player 2 exactly on player 2's raw value, player 1 otherwise |
| SavedGames.GameWinnerOf | SquashAnalyzer/Models/SavedGame.swift:50-53 | none when no winner is stored; p exactly when p's raw value is stored |
| SavedGames.Make | SquashAnalyzer/Models/SavedGame.swift:24-42 | starting server and winner decode back, a winner is stored iff one is given, names and scores are verbatim, no points or lets |
| SavedGames.IsGameOver | SquashAnalyzer/Models/SavedGame.swift:55-59 | the same rule as the live game's `isGameOver` |
| SavedGames.PointsWon | SquashAnalyzer/Models/SavedGame.swift:67-69 | exactly the stored points decoding to scorer p: each result is such a point, and every such point is in the result |
| SavedGames.LetsRequested | SquashAnalyzer/Models/SavedGame.swift:176-178 | exactly the stored lets decoding to requester p: each result is such a let, and every such let is in the result |
| SavedGames.SavedCountsAddUp | SquashAnalyzer/Models/SavedGame.swift:67-69 | both players' stored points add up to all stored points, and likewise the lets |
| SavedGames.From | SquashAnalyzer/Models/SavedGame.swift:141-171 | the loops build the game's header with its points and its lets, numbered from 1 in log order |
| SavedGames.SnapshotHeader | SquashAnalyzer/Models/SavedGame.swift:142-150 | the record keeps number, names, scores, starting server, winner and game-over status |
| SavedGames.SnapshotCountsAgree | SquashAnalyzer/Models/SavedGame.swift:67-77 | the stored per-player, per-zone, per-shot and let counts are the live game's |
| SavedGames.ToGame | SquashAnalyzer/Models/SavedGame.swift:105-136 | a fresh game with the stored names and scores. Both servers are the stored starting server. It holds the records sorted by number and restored, an empty undo stack and no selection |
| SavedGames.Restore | SquashAnalyzer/Models/SavedGame.swift:106-111 | a fresh game with exactly the given names, scores, server, logs, an empty undo stack and no selection |
| SavedGames.RestoredGameWithPoints | SquashAnalyzer/Models/SavedGame.swift:105-124 | a restored game with points breaks the live-game invariant (no stacked servers); undoing then removes one point and its score while the server stays the restored starting server (`undoLastPoint` finds no server to pop) |
| SavedGames.NumberedPointsSorted | SquashAnalyzer/Models/SavedGame.swift:112-113 | sorting the numbered points by number leaves them as they are |
| SavedGames.RestoreOfFrom | SquashAnalyzer/Models/SavedGame.swift:114-124 | a stored point made live again is the original point, up to time and duration |
| SavedGames.NumberedZonesDecode | SquashAnalyzer/Models/SavedGame.swift:117 | every zone string stored by `from` decodes |
| SavedGames.RestoreAllNumbered | SquashAnalyzer/Models/SavedGame.swift:114-124 | restoring the numbered points gives back the log, up to time and duration |
| SavedGames.PointsRoundTrip | SquashAnalyzer/Models/SavedGame.swift:112-124 | `toGame`'s point log of `from`'s records is the original log, in order, up to time and duration |
| SavedGames.NumberedLetsSorted | SquashAnalyzer/Models/SavedGame.swift:125-126 | sorting the numbered lets by number leaves them as they are |
| SavedGames.LetsRoundTrip | SquashAnalyzer/Models/SavedGame.swift:125-134 | `toGame`'s let log of `from`'s records is the original let log, in order, up to time |
| SavedGames.PointsRoundTripAnyOrder | SquashAnalyzer/Models/SavedGame.swift:112-124 | `from`'s point records in any order decode and restore to the original log, in order, up to time and duration |
| SavedGames.LetsRoundTripAnyOrder | SquashAnalyzer/Models/SavedGame.swift:125-134 | `from`'s let records in any order restore to the original let log, in order, up to time |
| SavedGames.ToGameOfFrom | SquashAnalyzer/Models/SavedGame.swift:105-171 | `toGame(from(g))` is defined and has g's scores and starting server, and g's point and let logs up to times and durations |
| SavedMatches.Make | SquashAnalyzer/Models/SavedMatch.swift:17-31 | the starting server decodes back; names, `bestOf` and time are verbatim; no games |
| SavedMatches.StartingServer | SquashAnalyzer/Models/SavedMatch.swift:35-37 | player 2 exactly on player 2's raw value, player 1 otherwise |
| SavedMatches.GamesWonIsDecodedTally | SquashAnalyzer/Models/SavedMatch.swift:39-45 | counting stored winner strings equal to p's raw value is counting decoded winners p |
| SavedMatches.IsMatchOver | SquashAnalyzer/Models/SavedMatch.swift:51-53 | the live match's rule over the decoded winners and the stored `bestOf` |
| SavedMatches.MatchWinner | SquashAnalyzer/Models/SavedMatch.swift:55-58 | the live match's winner rule over the decoded winners and the stored `bestOf` |
| SavedMatches.WinnerName | SquashAnalyzer/Models/SavedMatch.swift:60-63 | none iff there is no match winner, otherwise the winner's stored name |
| SavedMatches.From | SquashAnalyzer/Models/SavedMatch.swift:80-98 | the loop builds the match's header with its games saved in match order, numbered from 1 |
| SavedMatches.SnapshotAgrees | SquashAnalyzer/Models/SavedMatch.swift:80-98 | the saved record has the live match's decoded winners, games-won counts, target, over-ness, winner and starting server |

Query functions that only count or select carry no contract of their own;
the lemmas that specify them are:

- `Games.PointsWon`, `Games.PointsLost`, `Games.PointsWonIn`,
  `Games.TotalPointsIn`: `Games.PointsWonExactly`, `Games.WonPlusLost`,
  `Games.ZoneTotalSplits`, `Games.ZoneWinRatio`.
- `Games.Game.Winner`, `Games.Game.Score`: `Games.GameWinner`, applied to the
  game's two scores, and `Games.ScoreIsPointsWon`.
- `Matches.GamesWon`, `Matches.MatchOver`, `Matches.Match.GamesWonBy`,
  `Matches.Match.Winner`, `Matches.Match.IsMatchOver`: `Matches.GamesWonSplit`,
  `Matches.MatchWinner`, `Matches.NewGameKeepsTally` and
  `SavedMatches.SnapshotAgrees`.
- `Matches.TotalPointsWon`, `Matches.TotalPointsWonIn`,
  `Matches.TotalPointsWonWith`: `Matches.TotalPointsWonIsAllPointsCount`,
  `Matches.TotalPointsWonInIsAllPointsCount`,
  `Matches.TotalPointsWonWithIsSumOverGames` and `Matches.TotalPointsWonAddUp`.
- `Matches.AllLets`: `Matches.TotalLets`, `Matches.LetsRequested`,
  `Matches.LetsRequestedAddUp`.
- `SavedGames.PointsWonIn`, `SavedGames.PointsWonWith`, `SavedGames.TotalLets`,
  `SavedGames.Snapshot`: `SavedGames.SnapshotHeader`,
  `SavedGames.SnapshotCountsAgree`, `SavedGames.SavedCountsAddUp`,
  `SavedGames.ToGameOfFrom`.
- `SavedMatches.GamesWon`, `SavedMatches.GamesToWin`, `SavedMatches.Snapshot`:
  `SavedMatches.GamesWonIsDecodedTally`, `SavedMatches.SnapshotAgrees`.
- `ShotTypes.Icon`, `ShotTypes.Description`: `ShotTypes.MetadataDistinct`.

## Left out

- Views, design system, app entry point, the advice service and the keychain
  helper are not part of this model. So are the app's persistence context,
  `@Relationship` links and observation. The records are values, and `from`
  and `toGame` work on values.
- `id` fields (`UUID()`) are left out. Clock readings (`Date()`) are an
  opaque integer `Timestamp` passed in as a parameter (`now`, `savedAt`).
  Rally durations are `nat` milliseconds passed to `AddPoint`.
- Floating point is left out:
  - `winPercentage` and the short/long rally percentages are won/total count
    pairs, not the scaled `Double`.
  - `averageDurationWon`, `averageDurationLost`, `averagePointDuration`,
    `totalMatchDuration` and `totalGameDuration` are not modelled.
- `canUndo`, `lastPoint`, `name(for:)`, `completedGames`, and
  `scoreString`/`formattedDate` are not modelled. They are one-line
  presentation or convenience accessors.
- Games.Game.AddPoint: the shot type, the rally duration and the clock
  reading are parameters. The two-argument `addPoint` in the code builds a
  `Point` without them.
- SavedGames.ToGame: requires every stored zone string to decode. The code
  falls back to `.middleMiddle`, which `CourtZone` does not declare, so the
  fallback has no meaning. Records made by `from` always satisfy the
  requirement (`SavedGames.NumberedZonesDecode`).
- SavedGames.ToGame: the restored game has an empty stack of previous
  servers, as in the app, so a restored game with points does not satisfy
  `Games.Consistent`; the invariant lemmas apply only to games built by the
  live steps (`SavedGames.RestoredGameWithPoints`).
- SavedGames.ToGame: a restored point gets duration 0, because `SavedPoint`
  stores no duration. Restored points and lets are stamped with `now`, as the
  `Point`/`Let` initialisers stamp the current time. So the round trips hold
  up to time and duration.
- Games.RecommendedZones: the contract does not fix the order among zones
  with equal counts, because `sorted(by:)` does not promise stability. The
  model sorts stably, and every sort in the model is assumed stable.
- Matches.PointsForGame: the index is a `nat`. A negative index, which would
  trap in the code, is not modelled.
- Matches.Match.CurrentGame: `currentGameIndex` is a `nat`, so a negative
  index, which would trap in the code, is not modelled.
- Swift's `Int` traps on overflow (for example `player1Score += 1` on a
  score restored by `toGame`); the model's scores and counts are unbounded
  `int`s, so no overflow is modelled.
- The `SavedMatch` default `bestOf` of 5 and the defaulted clock argument are
  not modelled. `SavedMatches.Make` takes both explicitly.
