/**
 * A best-of-five match (Match.swift): the games played so far, the index of
 * the current one, who starts the match, and the analytics folded over the
 * point and let logs of all games.
 */
module Matches {
  import opened Wrappers
  import opened Seqs
  import opened Players
  import opened CourtZones
  import opened ShotTypes
  import opened Rallies
  import opened Games

  // ---------------------------------------------------------------------
  // Winning a match
  // ---------------------------------------------------------------------

  /**
   * `gamesToWin`: `bestOf / 2 + 1` with Swift's integer division, which
   * truncates toward zero (so the quotient is 2 short of `bestOf` by at most
   * one, on the side of zero).
   */
  function GamesToWin(bestOf: int): (n: int)
    ensures bestOf >= 0 ==> 0 <= bestOf - 2 * (n - 1) <= 1
    ensures bestOf < 0 ==> -1 <= bestOf - 2 * (n - 1) <= 0
  {
    (if bestOf >= 0 then bestOf / 2 else -((-bestOf) / 2)) + 1
  }

  lemma GamesToWinExamples()
    ensures GamesToWin(5) == 3 && GamesToWin(4) == 3 && GamesToWin(1) == 1
    ensures GamesToWin(-3) == 0
  {
  }

  function WonGame(p: Player): Option<Player> -> bool {
    (w: Option<Player>) => w == Some(p)
  }

  function Finished(): Option<Player> -> bool {
    (w: Option<Player>) => w.Some?
  }

  /** `player1GamesWon` / `player2GamesWon` over the games' winners. */
  function GamesWon(winners: seq<Option<Player>>, p: Player): nat {
    |Filter(winners, WonGame(p))|
  }

  /** Every finished game is won by exactly one player; unfinished games count for nobody. */
  lemma GamesWonSplit(winners: seq<Option<Player>>)
    ensures GamesWon(winners, Player1) + GamesWon(winners, Player2) == |Filter(winners, Finished())|
    ensures GamesWon(winners, Player1) + GamesWon(winners, Player2) <= |winners|
  {
    forall w: Option<Player> ensures Finished()(w) <==> WonGame(Player1)(w) || WonGame(Player2)(w) {
      if w.Some? {
        assert w == Some(w.value);
        assert w.value == Player1 || w.value == Player2;
      }
    }
    FilterSplit(winners, Finished(), WonGame(Player1), WonGame(Player2));
  }

  /** `isMatchOver`. */
  function MatchOver(winners: seq<Option<Player>>, toWin: int): bool {
    GamesWon(winners, Player1) >= toWin || GamesWon(winners, Player2) >= toWin
  }

  /**
   * `matchWinner`: none while the match is live, otherwise player 1 exactly
   * when player 1 won strictly more games (so a tie goes to player 2); the
   * winner has reached the target and won at least as many games as the
   * other player.
   */
  function MatchWinner(winners: seq<Option<Player>>, toWin: int): (r: Option<Player>)
    ensures r == None <==> !MatchOver(winners, toWin)
    ensures r == Some(Player1) <==>
              MatchOver(winners, toWin) && GamesWon(winners, Player1) > GamesWon(winners, Player2)
    ensures r.Some? ==>
              GamesWon(winners, r.value) >= toWin &&
              GamesWon(winners, r.value) >= GamesWon(winners, Opponent(r.value))
  {
    if !MatchOver(winners, toWin) then None
    else if GamesWon(winners, Player1) > GamesWon(winners, Player2) then Some(Player1)
    else Some(Player2)
  }

  // ---------------------------------------------------------------------
  // Projections of the game list
  // ---------------------------------------------------------------------

  /** The point log of every game, in match order. */
  function PointLogs(games: seq<Game>): (logs: seq<seq<Point>>)
    reads games
    ensures |logs| == |games|
    ensures forall i :: 0 <= i < |games| ==> logs[i] == games[i].points
  {
    if games == [] then [] else [games[0].points] + PointLogs(games[1..])
  }

  /** The let log of every game, in match order. */
  function LetLogs(games: seq<Game>): (logs: seq<seq<Let>>)
    reads games
    ensures |logs| == |games|
    ensures forall i :: 0 <= i < |games| ==> logs[i] == games[i].lets
  {
    if games == [] then [] else [games[0].lets] + LetLogs(games[1..])
  }

  /** The `winner` of every game, in match order. */
  function Winners(games: seq<Game>): (ws: seq<Option<Player>>)
    reads games
    ensures |ws| == |games|
    ensures forall i :: 0 <= i < |games| ==>
              ws[i] == GameWinner(games[i].player1Score, games[i].player2Score)
  {
    seq(|games|, i reads games requires 0 <= i < |games| =>
      GameWinner(games[i].player1Score, games[i].player2Score))
  }

  // ---------------------------------------------------------------------
  // The live object
  // ---------------------------------------------------------------------

  const DefaultPlayer1Name := "Speler 1"
  const DefaultPlayer2Name := "Speler 2"

  class Match {
    var player1Name: string
    var player2Name: string
    var games: seq<Game>
    var currentGameIndex: nat
    var matchStartingServer: Player
    const bestOf: int

    /** What the methods below keep: at least one game, and the last one is current. */
    ghost predicate Valid()
      reads this
    {
      |games| >= 1 && currentGameIndex == |games| - 1
    }

    /** A game as `startNewGame` makes it: blank, `server` to serve, carrying the match's names. */
    ghost predicate NewGameFor(g: Game, server: Player)
      reads this, g
    {
      && g.State() == NewGameState(server)
      && g.player1Name == player1Name && g.player2Name == player2Name
      && g.lets == []
    }

    function GamesWonBy(p: Player): nat
      reads this, games
    {
      GamesWon(Winners(games), p)
    }

    function IsMatchOver(): bool
      reads this, games
    {
      MatchOver(Winners(games), GamesToWin(bestOf))
    }

    function Winner(): Option<Player>
      reads this, games
    {
      MatchWinner(Winners(games), GamesToWin(bestOf))
    }

    /** The winner of the last game, if there is a last game and it has a winner. */
    function LastWinner(): Option<Player>
      reads this, games
    {
      if games == [] then None else Winners(games)[|games| - 1]
    }

    constructor ()
      ensures player1Name == DefaultPlayer1Name && player2Name == DefaultPlayer2Name
      ensures matchStartingServer == Player1 && bestOf == 5
      ensures |games| == 1 && fresh(games[0]) && NewGameFor(games[0], Player1)
      ensures currentGameIndex == 0 && Valid()
    {
      player1Name := DefaultPlayer1Name;
      player2Name := DefaultPlayer2Name;
      games := [];
      currentGameIndex := 0;
      matchStartingServer := Player1;
      bestOf := 5;
      new;
      StartNewGame();
    }

    /**
     * `startNewGame()`: appends one blank game with the match's names; the
     * winner of the previous last game serves first, or the match's
     * starting server when there is no such winner. The new game is current.
     */
    method StartNewGame()
      modifies this`games, this`currentGameIndex
      ensures |games| == |old(games)| + 1 && games[..|old(games)|] == old(games)
      ensures fresh(games[|games| - 1])
      ensures NewGameFor(games[|games| - 1], old(LastWinner()).GetOr(matchStartingServer))
      ensures Winners(games) == old(Winners(games)) + [None]
      ensures currentGameIndex == |games| - 1
      ensures Valid()
    {
      var server := matchStartingServer;
      if games != [] {
        var lastWinner := games[|games| - 1].Winner();
        if lastWinner.Some? {
          server := lastWinner.value;
        }
      }
      assert server == LastWinner().GetOr(matchStartingServer);
      ghost var oldWinners := Winners(games);
      var game := NewGame(player1Name, player2Name, server);
      assert Winners(games) == oldWinners;
      var extended := games + [game];
      WinnersSnoc(games, game);
      assert Winners(extended) == oldWinners + [None];
      games := extended;
      currentGameIndex := |games| - 1;
    }

    /** `onGameEnd()`: starts the next game unless the match is over. */
    method OnGameEnd()
      modifies this`games, this`currentGameIndex
      ensures old(IsMatchOver()) ==> games == old(games) && currentGameIndex == old(currentGameIndex)
      ensures !old(IsMatchOver()) ==>
                && |games| == |old(games)| + 1 && games[..|old(games)|] == old(games)
                && fresh(games[|games| - 1])
                && NewGameFor(games[|games| - 1], old(LastWinner()).GetOr(matchStartingServer))
                && currentGameIndex == |games| - 1
      ensures old(Valid()) ==> Valid()
    {
      if !IsMatchOver() {
        StartNewGame();
      }
    }

    /** `resetMatch()`: exactly one blank game, started by the match's starting server. */
    method ResetMatch()
      modifies this`games, this`currentGameIndex
      ensures |games| == 1 && fresh(games[0]) && NewGameFor(games[0], matchStartingServer)
      ensures currentGameIndex == 0 && Valid()
    {
      games := [];
      currentGameIndex := 0;
      StartNewGame();
    }

    /** `setupMatch(player1:player2:startingServer:)`: empty names fall back to the defaults. */
    method SetupMatch(player1: string, player2: string, startingServer: Player)
      modifies this`player1Name, this`player2Name, this`matchStartingServer, this`games, this`currentGameIndex
      ensures player1Name == (if player1 == "" then DefaultPlayer1Name else player1)
      ensures player2Name == (if player2 == "" then DefaultPlayer2Name else player2)
      ensures matchStartingServer == startingServer
      ensures |games| == 1 && fresh(games[0]) && NewGameFor(games[0], startingServer)
      ensures currentGameIndex == 0 && Valid()
    {
      player1Name := if player1 == "" then DefaultPlayer1Name else player1;
      player2Name := if player2 == "" then DefaultPlayer2Name else player2;
      matchStartingServer := startingServer;
      ResetMatch();
    }

    /**
     * The `currentGame` getter: the game at the current index, or, when the
     * index is past the end, a new blank game appended to the list (the
     * index is left as it is). In a valid match nothing is appended.
     */
    method CurrentGame() returns (g: Game)
      modifies this`games
      ensures old(currentGameIndex < |games|) ==> games == old(games) && g == games[currentGameIndex]
      ensures old(currentGameIndex >= |games|) ==>
                games == old(games) + [g] && fresh(g) && NewGameFor(g, matchStartingServer)
      ensures old(Valid()) ==> games == old(games) && g == games[|games| - 1]
    {
      if currentGameIndex >= |games| {
        g := new Game();
        g.player1Name := player1Name;
        g.player2Name := player2Name;
        g.SetStartingServer(matchStartingServer);
        games := games + [g];
        return;
      }
      g := games[currentGameIndex];
    }
  }

  /** A fresh game between the named players, with `server` to serve first. */
  method NewGame(name1: string, name2: string, server: Player) returns (game: Game)
    ensures fresh(game)
    ensures game.State() == NewGameState(server)
    ensures game.player1Name == name1 && game.player2Name == name2 && game.lets == []
  {
    game := new Game();
    game.player1Name := name1;
    game.player2Name := name2;
    game.SetStartingServer(server);
  }

  lemma WinnersSnoc(games: seq<Game>, g: Game)
    ensures Winners(games + [g]) == Winners(games) + [GameWinner(g.player1Score, g.player2Score)]
  {
  }

  /** Starting a game when the match is live adds an unfinished game, which leaves the tally alone. */
  lemma NewGameKeepsTally(winners: seq<Option<Player>>, p: Player)
    ensures GamesWon(winners + [None], p) == GamesWon(winners, p)
  {
    FilterSnoc(winners, None, WonGame(p));
  }

  // ---------------------------------------------------------------------
  // Analytics over all games
  // ---------------------------------------------------------------------

  /** `allPoints`: the game logs concatenated in match order. */
  function AllPoints(logs: seq<seq<Point>>): (r: seq<Point>)
    ensures |r| == TotalLength(logs)
  {
    FlattenLength(logs);
    Flatten(logs)
  }

  /** `points(forGame:)`: the log of game `index`, empty when there is no such game. */
  function PointsForGame(logs: seq<seq<Point>>, index: nat): (r: seq<Point>)
    ensures index >= |logs| ==> r == []
    ensures index < |logs| ==> r == logs[index]
  {
    if index < |logs| then logs[index] else []
  }

  /** Game `index`'s log is the slice of `allPoints` after the logs of the games before it. */
  lemma PointsForGameIsSliceOfAll(logs: seq<seq<Point>>, index: nat)
    requires index < |logs|
    ensures var start := TotalLength(logs[..index]);
      start + |logs[index]| <= |AllPoints(logs)| &&
      AllPoints(logs)[start..start + |logs[index]|] == PointsForGame(logs, index)
  {
    assert logs == logs[..index] + ([logs[index]] + logs[index + 1..]);
    FlattenConcat(logs[..index], [logs[index]] + logs[index + 1..]);
    FlattenConcat([logs[index]], logs[index + 1..]);
    FlattenLength(logs[..index]);
    assert Flatten([logs[index]]) == logs[index] by {
      assert [logs[index]][1..] == [];
    }
  }

  /** `totalPointsWon(by:)`: the per-game `pointsWon(by:)` counts summed over the games. */
  function TotalPointsWon(logs: seq<seq<Point>>, p: Player): nat {
    if logs == [] then 0 else |PointsWon(logs[0], p)| + TotalPointsWon(logs[1..], p)
  }

  /** `totalPointsWon(by:in:)`: the per-game zone counts summed over the games. */
  function TotalPointsWonIn(logs: seq<seq<Point>>, p: Player, z: CourtZone): nat {
    if logs == [] then 0 else PointsWonIn(logs[0], p, z) + TotalPointsWonIn(logs[1..], p, z)
  }

  function WonWith(p: Player, shot: ShotType): Point -> bool {
    (pt: Point) => pt.scorer == p && pt.shotType == shot
  }

  /** `totalPointsWon(by:with:)`: counted directly over `allPoints`. */
  function TotalPointsWonWith(logs: seq<seq<Point>>, p: Player, shot: ShotType): nat {
    |Filter(AllPoints(logs), WonWith(p, shot))|
  }

  /** The per-game shot counts summed, the fold the other two totals use. */
  function SumPointsWonWith(logs: seq<seq<Point>>, p: Player, shot: ShotType): nat {
    if logs == [] then 0 else |Filter(logs[0], WonWith(p, shot))| + SumPointsWonWith(logs[1..], p, shot)
  }

  /** The sum of the per-game counts is the count over the concatenated log. */
  lemma {:induction false} TotalPointsWonIsAllPointsCount(logs: seq<seq<Point>>, p: Player)
    ensures TotalPointsWon(logs, p) == |PointsWon(AllPoints(logs), p)|
  {
    if logs != [] {
      TotalPointsWonIsAllPointsCount(logs[1..], p);
      FilterConcat(logs[0], Flatten(logs[1..]), WonBy(p));
    }
  }

  lemma {:induction false} TotalPointsWonInIsAllPointsCount(logs: seq<seq<Point>>, p: Player, z: CourtZone)
    ensures TotalPointsWonIn(logs, p, z) == PointsWonIn(AllPoints(logs), p, z)
  {
    if logs != [] {
      TotalPointsWonInIsAllPointsCount(logs[1..], p, z);
      FilterConcat(logs[0], Flatten(logs[1..]), WonByIn(p, z));
    }
  }

  lemma {:induction false} TotalPointsWonWithIsSumOverGames(logs: seq<seq<Point>>, p: Player, shot: ShotType)
    ensures TotalPointsWonWith(logs, p, shot) == SumPointsWonWith(logs, p, shot)
  {
    if logs != [] {
      TotalPointsWonWithIsSumOverGames(logs[1..], p, shot);
      FilterConcat(logs[0], Flatten(logs[1..]), WonWith(p, shot));
    }
  }

  /** Over the whole match the two players' totals add up to the number of points played. */
  lemma TotalPointsWonAddUp(logs: seq<seq<Point>>)
    ensures TotalPointsWon(logs, Player1) + TotalPointsWon(logs, Player2) == |AllPoints(logs)|
  {
    TotalPointsWonIsAllPointsCount(logs, Player1);
    TotalPointsWonIsAllPointsCount(logs, Player2);
    WonPlusLost(AllPoints(logs), Player1);
  }

  /**
   * `mostEffectiveShot(for:)`: never none; the shot type with which p won
   * most points over the match, the first in declaration order among equals.
   */
  function MostEffectiveShot(logs: seq<seq<Point>>, p: Player): (r: Option<ShotType>)
    ensures r.Some?
    ensures forall t :: TotalPointsWonWith(logs, p, t) <= TotalPointsWonWith(logs, p, r.value)
    ensures forall t :: ShotIndex(t) < ShotIndex(r.value) ==>
              TotalPointsWonWith(logs, p, t) < TotalPointsWonWith(logs, p, r.value)
  {
    var counts := seq(6, i requires 0 <= i < 6 => TotalPointsWonWith(logs, p, AllShots()[i]) as int);
    var k := FirstMaxIndex(counts);
    assert forall t :: counts[ShotIndex(t)] == TotalPointsWonWith(logs, p, t);
    Some(AllShots()[k])
  }

  /**
   * Match-wide `bestZone(for:)`: never none; the zone where p won most
   * points over the match, the first in declaration order among equals.
   */
  function MatchBestZone(logs: seq<seq<Point>>, p: Player): (r: Option<CourtZone>)
    ensures r.Some?
    ensures forall z :: TotalPointsWonIn(logs, p, z) <= TotalPointsWonIn(logs, p, r.value)
    ensures forall z :: ZoneIndex(z) < ZoneIndex(r.value) ==>
              TotalPointsWonIn(logs, p, z) < TotalPointsWonIn(logs, p, r.value)
  {
    var counts := seq(6, i requires 0 <= i < 6 => TotalPointsWonIn(logs, p, AllZones()[i]) as int);
    var k := FirstMaxIndex(counts);
    assert forall z :: counts[ZoneIndex(z)] == TotalPointsWonIn(logs, p, z);
    Some(AllZones()[k])
  }

  /** The match's best zone is the single-game best zone of the concatenated log. */
  lemma MatchBestZoneIsBestOfAllPoints(logs: seq<seq<Point>>, p: Player)
    ensures MatchBestZone(logs, p) == BestZone(AllPoints(logs), p)
  {
    forall z ensures TotalPointsWonIn(logs, p, z) == PointsWonIn(AllPoints(logs), p, z) {
      TotalPointsWonInIsAllPointsCount(logs, p, z);
    }
    var a := MatchBestZone(logs, p).value;
    var b := BestZone(AllPoints(logs), p).value;
    assert ZoneIndex(a) == ZoneIndex(b);
  }

  // ---------------------------------------------------------------------
  // Short and long rallies
  // ---------------------------------------------------------------------

  function Durations(points: seq<Point>): (ds: seq<int>)
    ensures |ds| == |points|
    ensures forall i :: 0 <= i < |points| ==> ds[i] == points[i].duration
  {
    seq(|points|, i requires 0 <= i < |points| => points[i].duration as int)
  }

  function Ascending(): int -> int {
    (d: int) => d
  }

  function ShorterThan(m: int): Point -> bool {
    (pt: Point) => pt.duration < m
  }

  function AtLeast(m: int): Point -> bool {
    (pt: Point) => pt.duration >= m
  }

  function AtMost(m: int): Point -> bool {
    (pt: Point) => pt.duration <= m
  }

  /**
   * The threshold: the durations sorted ascending, taken at index n / 2. It
   * is one of the rally durations, at most n / 2 rallies are shorter than it
   * and more than n / 2 last at most as long; these two counts single out
   * the entry at index n / 2 of the ascending order (`MedianIsSortedMiddle`).
   */
  function MedianDuration(points: seq<Point>): (m: int)
    requires |points| >= 1
    ensures m in Durations(points)
    ensures |Filter(points, ShorterThan(m))| <= |points| / 2
    ensures |Filter(points, AtMost(m))| > |points| / 2
    ensures |Filter(points, AtLeast(m))| >= |points| - |points| / 2
  {
    var ds := Durations(points);
    var sorted := SortBy(ds, Ascending());
    var m := sorted[|points| / 2];
    assert m in multiset(sorted);
    FilterPartition(points, ShorterThan(m), AtLeast(m));
    FilterByDuration(points, m);
    FilterPermutation(ds, sorted, (d: int) => d >= m);
    UpperHalfAtLeastMedian(sorted);
    FilterByDurationAtMost(points, m);
    FilterPermutation(ds, sorted, (d: int) => d <= m);
    LowerHalfAtMostMedian(sorted);
    m
  }

  /**
   * Any value with at most n / 2 durations below it and more than n / 2 at
   * or below it is the entry at index n / 2 of the durations sorted
   * ascending, so the threshold is exactly that entry.
   */
  lemma MedianIsSortedMiddle(points: seq<Point>, m: int)
    requires |points| >= 1
    requires |Filter(points, ShorterThan(m))| <= |points| / 2
    requires |Filter(points, AtMost(m))| > |points| / 2
    ensures m == SortBy(Durations(points), Ascending())[|points| / 2]
  {
    var n := |points|;
    var ds := Durations(points);
    var sorted := SortBy(ds, Ascending());
    var x := sorted[n / 2];
    FilterByDurationShorter(points, m);
    FilterPermutation(ds, sorted, (d: int) => d < m);
    FilterByDurationAtMost(points, m);
    FilterPermutation(ds, sorted, (d: int) => d <= m);
    LowerHalfAtMostMedian(sorted);
    FilterCountGap(sorted, (d: int) => d <= x, (d: int) => d < m);
    UpperHalfAtLeastMedian(sorted);
    FilterPartition(sorted, (d: int) => d <= m, (d: int) => d > m);
    FilterCountGap(sorted, (d: int) => d >= x, (d: int) => d > m);
  }

  /**
   * `shortRallyWinPercentage(for:)` as a count pair: no data with fewer
   * than two points or when no rally is shorter than the threshold;
   * otherwise the points p won among the rallies shorter than the
   * threshold, out of all those rallies, which are at most half the points.
   */
  function ShortRallyRatio(logs: seq<seq<Point>>, p: Player): (r: Option<Ratio>)
    ensures var pts := AllPoints(logs);
      r == None <==> |pts| < 2 || Filter(pts, ShorterThan(MedianDuration(pts))) == []
    ensures var pts := AllPoints(logs);
      r.Some? ==> |pts| >= 2 && var short := Filter(pts, ShorterThan(MedianDuration(pts)));
        r.value == Ratio(|PointsWon(short, p)|, |short|) && 0 < |short| <= |pts| / 2
  {
    var points := AllPoints(logs);
    if |points| < 2 then None
    else
      var short := Filter(points, ShorterThan(MedianDuration(points)));
      if short == [] then None
      else Some(Ratio(|PointsWon(short, p)|, |short|))
  }

  /**
   * `longRallyWinPercentage(for:)` as a count pair: no data exactly when
   * there are fewer than two points (the bucket of rallies at least as long
   * as the threshold is never empty); otherwise the points p won among
   * those rallies, out of all of them, which are at least half the points.
   */
  function LongRallyRatio(logs: seq<seq<Point>>, p: Player): (r: Option<Ratio>)
    ensures r.Some? <==> |AllPoints(logs)| >= 2
    ensures var pts := AllPoints(logs);
      r.Some? ==> |pts| >= 2 && var long := Filter(pts, AtLeast(MedianDuration(pts)));
        r.value == Ratio(|PointsWon(long, p)|, |long|) && |long| >= |pts| - |pts| / 2
  {
    var points := AllPoints(logs);
    if |points| < 2 then None
    else
      var long := Filter(points, AtLeast(MedianDuration(points)));
      if long == [] then None
      else Some(Ratio(|PointsWon(long, p)|, |long|))
  }

  /** Filtering points by duration counts like filtering their durations. */
  lemma {:induction false} FilterByDuration(points: seq<Point>, m: int)
    ensures |Filter(points, AtLeast(m))| == |Filter(Durations(points), (d: int) => d >= m)|
  {
    if points != [] {
      FilterByDuration(points[1..], m);
      assert Durations(points)[1..] == Durations(points[1..]);
    }
  }

  /**
   * The threshold splits the points into two buckets that partition them;
   * the long bucket is never empty and holds at least the upper half, so
   * the short one holds at most n / 2.
   */
  lemma RallyBuckets(points: seq<Point>)
    requires |points| >= 1
    ensures var m := MedianDuration(points);
      && |Filter(points, ShorterThan(m))| + |Filter(points, AtLeast(m))| == |points|
      && 0 < |points| - |points| / 2 <= |Filter(points, AtLeast(m))|
      && |Filter(points, ShorterThan(m))| <= |points| / 2
  {
    var m := MedianDuration(points);
    FilterPartition(points, ShorterThan(m), AtLeast(m));
  }

  lemma {:induction false} FilterByDurationAtMost(points: seq<Point>, m: int)
    ensures |Filter(points, AtMost(m))| == |Filter(Durations(points), (d: int) => d <= m)|
  {
    if points != [] {
      FilterByDurationAtMost(points[1..], m);
      assert Durations(points)[1..] == Durations(points[1..]);
    }
  }

  lemma {:induction false} FilterByDurationShorter(points: seq<Point>, m: int)
    ensures |Filter(points, ShorterThan(m))| == |Filter(Durations(points), (d: int) => d < m)|
  {
    if points != [] {
      FilterByDurationShorter(points[1..], m);
      assert Durations(points)[1..] == Durations(points[1..]);
    }
  }

  /** In an ascending list, every entry up to index n / 2 is at most the one there. */
  lemma LowerHalfAtMostMedian(sorted: seq<int>)
    requires |sorted| >= 1 && SortedBy(sorted, Ascending())
    ensures var m := sorted[|sorted| / 2];
      |Filter(sorted, (d: int) => d <= m)| > |sorted| / 2
  {
    var n := |sorted|;
    var k := n / 2 + 1;
    var m := sorted[n / 2];
    var atMost := (d: int) => d <= m;
    assert sorted == sorted[..k] + sorted[k..];
    FilterConcat(sorted[..k], sorted[k..], atMost);
    forall i | 0 <= i < |sorted[..k]| ensures atMost(sorted[..k][i]) {
      if i < n / 2 {
        assert Ascending()(sorted[i]) <= Ascending()(sorted[n / 2]);
      }
    }
    FilterAll(sorted[..k], atMost);
  }

  /** In an ascending list, every entry from index n / 2 on is at least the one there. */
  lemma UpperHalfAtLeastMedian(sorted: seq<int>)
    requires |sorted| >= 1 && SortedBy(sorted, Ascending())
    ensures var m := sorted[|sorted| / 2];
      |Filter(sorted, (d: int) => d >= m)| >= |sorted| - |sorted| / 2
  {
    var n := |sorted|;
    var m := sorted[n / 2];
    var atLeast := (d: int) => d >= m;
    assert sorted == sorted[..n / 2] + sorted[n / 2..];
    FilterConcat(sorted[..n / 2], sorted[n / 2..], atLeast);
    forall i | 0 <= i < |sorted[n / 2..]| ensures atLeast(sorted[n / 2..][i]) {
      assert Ascending()(sorted[n / 2]) <= Ascending()(sorted[n / 2 + i]) || i == 0;
    }
    FilterAll(sorted[n / 2..], atLeast);
  }

  /** The points p won in the two buckets are all the points p won. */
  lemma RallyWinsSplit(points: seq<Point>, p: Player, m: int)
    ensures |PointsWon(Filter(points, ShorterThan(m)), p)| + |PointsWon(Filter(points, AtLeast(m)), p)|
            == |PointsWon(points, p)|
  {
    var shortWon := (pt: Point) => pt.duration < m && pt.scorer == p;
    var longWon := (pt: Point) => pt.duration >= m && pt.scorer == p;
    FilterFilter(points, ShorterThan(m), WonBy(p), shortWon);
    FilterFilter(points, AtLeast(m), WonBy(p), longWon);
    FilterSplit(points, WonBy(p), shortWon, longWon);
  }

  /**
   * The two rally ratios together account for the whole match: with at
   * least two points the long ratio has data; when the short one has data
   * too, their totals add up to all points and their wins to all of p's
   * wins, and otherwise the long ratio alone covers every point and win.
   */
  lemma RallyRatiosCoverMatch(logs: seq<seq<Point>>, p: Player)
    requires |AllPoints(logs)| >= 2
    ensures LongRallyRatio(logs, p).Some?
    ensures var long := LongRallyRatio(logs, p).value;
      var n := |AllPoints(logs)|;
      var wins := |PointsWon(AllPoints(logs), p)|;
      if ShortRallyRatio(logs, p).Some? then
        var short := ShortRallyRatio(logs, p).value;
        short.total + long.total == n && short.won + long.won == wins
      else
        long.total == n && long.won == wins
  {
    var pts := AllPoints(logs);
    var m := MedianDuration(pts);
    RallyBuckets(pts);
    RallyWinsSplit(pts, p, m);
  }

  // ---------------------------------------------------------------------
  // Lets
  // ---------------------------------------------------------------------

  /** `allLets`: the let logs concatenated in match order. */
  function AllLets(letLogs: seq<seq<Let>>): seq<Let> {
    Flatten(letLogs)
  }

  /** `totalLets`: the number of lets of the match, which is the sum of the per-game counts. */
  function TotalLets(letLogs: seq<seq<Let>>): (n: nat)
    ensures n == TotalLength(letLogs)
  {
    FlattenLength(letLogs);
    |AllLets(letLogs)|
  }

  function RequestedBy(p: Player): Let -> bool {
    (l: Let) => l.requestedBy == p
  }

  /** `letsRequested(by:)`: the lets of the match that p asked for, in match order. */
  function LetsRequested(letLogs: seq<seq<Let>>, p: Player): (r: seq<Let>)
    ensures forall i :: 0 <= i < |r| ==> r[i].requestedBy == p && r[i] in AllLets(letLogs)
    ensures forall i :: 0 <= i < |AllLets(letLogs)| && AllLets(letLogs)[i].requestedBy == p ==>
              AllLets(letLogs)[i] in r
  {
    FilterMembers(AllLets(letLogs), RequestedBy(p));
    Filter(AllLets(letLogs), RequestedBy(p))
  }

  /** Every let was requested by exactly one player. */
  lemma LetsRequestedAddUp(letLogs: seq<seq<Let>>)
    ensures |LetsRequested(letLogs, Player1)| + |LetsRequested(letLogs, Player2)| == TotalLets(letLogs)
  {
    FilterPartition(AllLets(letLogs), RequestedBy(Player1), RequestedBy(Player2));
  }
}
