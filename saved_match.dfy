/**
 * The persisted match record (SavedMatch.swift): names, the starting server
 * as a raw string, the stored `bestOf`, when it was saved and the numbered
 * game records; `from` builds it from a live match.
 */
module SavedMatches {
  import opened Wrappers
  import opened Seqs
  import opened Players
  import opened Rallies
  import Games
  import Matches
  import SavedGames

  datatype SavedMatch = SavedMatch(
    player1Name: string,
    player2Name: string,
    matchStartingServer: string,
    bestOf: int,
    savedAt: Timestamp,
    games: seq<SavedGames.SavedGame>)

  /** The record's `init`: the starting server stored by raw value; no games yet. */
  function Make(player1Name: string, player2Name: string, matchStartingServer: Player,
                bestOf: int, savedAt: Timestamp): (sm: SavedMatch)
    ensures StartingServer(sm) == matchStartingServer
    ensures sm.player1Name == player1Name && sm.player2Name == player2Name
    ensures sm.bestOf == bestOf && sm.savedAt == savedAt && sm.games == []
  {
    RawInjective(matchStartingServer, Player2);
    SavedMatch(player1Name, player2Name, Raw(matchStartingServer), bestOf, savedAt, [])
  }

  /** `startingServer`: an unknown string decodes to player 1. */
  function StartingServer(sm: SavedMatch): (p: Player)
    ensures p == Player2 <==> sm.matchStartingServer == Raw(Player2)
  {
    DecodeOrPlayer1(sm.matchStartingServer)
  }

  function StoredWinnerIs(p: Player): SavedGames.SavedGame -> bool {
    (sg: SavedGames.SavedGame) => sg.winner == Some(Raw(p))
  }

  /** `player1GamesWon` / `player2GamesWon`: the games whose stored winner string is p's raw value. */
  function GamesWon(sm: SavedMatch, p: Player): nat {
    |Filter(sm.games, StoredWinnerIs(p))|
  }

  /** `gamesToWin`, from the stored `bestOf`. */
  function GamesToWin(sm: SavedMatch): int {
    Matches.GamesToWin(sm.bestOf)
  }

  /** The decoded winner of every stored game, in match order. */
  function DecodedWinners(sm: SavedMatch): (ws: seq<Option<Player>>)
    ensures |ws| == |sm.games|
    ensures forall i :: 0 <= i < |ws| ==> ws[i] == SavedGames.GameWinnerOf(sm.games[i])
  {
    seq(|sm.games|, i requires 0 <= i < |sm.games| => SavedGames.GameWinnerOf(sm.games[i]))
  }

  /** Counting raw winner strings is counting decoded winners. */
  lemma GamesWonIsDecodedTally(sm: SavedMatch, p: Player)
    ensures GamesWon(sm, p) == Matches.GamesWon(DecodedWinners(sm), p)
  {
    FilterCountsAgree(sm.games, DecodedWinners(sm), StoredWinnerIs(p), Matches.WonGame(p));
  }

  /** `isMatchOver`: the same rule as the live match's, over the decoded winners. */
  function IsMatchOver(sm: SavedMatch): (over: bool)
    ensures over == Matches.MatchOver(DecodedWinners(sm), GamesToWin(sm))
  {
    GamesWonIsDecodedTally(sm, Player1);
    GamesWonIsDecodedTally(sm, Player2);
    GamesWon(sm, Player1) >= GamesToWin(sm) || GamesWon(sm, Player2) >= GamesToWin(sm)
  }

  /** `matchWinner`: the same rule as the live match's, over the decoded winners. */
  function MatchWinner(sm: SavedMatch): (r: Option<Player>)
    ensures r == Matches.MatchWinner(DecodedWinners(sm), GamesToWin(sm))
  {
    GamesWonIsDecodedTally(sm, Player1);
    GamesWonIsDecodedTally(sm, Player2);
    if !IsMatchOver(sm) then None
    else if GamesWon(sm, Player1) > GamesWon(sm, Player2) then Some(Player1)
    else Some(Player2)
  }

  /** `winnerName`: the stored name of the match winner, none while the match is live. */
  function WinnerName(sm: SavedMatch): (r: Option<string>)
    ensures r == None <==> MatchWinner(sm) == None
    ensures MatchWinner(sm) == Some(Player1) ==> r == Some(sm.player1Name)
    ensures MatchWinner(sm) == Some(Player2) ==> r == Some(sm.player2Name)
  {
    match MatchWinner(sm)
    case None => None
    case Some(w) => if w == Player1 then Some(sm.player1Name) else Some(sm.player2Name)
  }

  // ---------------------------------------------------------------------
  // From a live match
  // ---------------------------------------------------------------------

  /** The games numbered 1, 2, ... in match order, as `from` stores them. */
  function NumberedGames(games: seq<Games.Game>): (r: seq<SavedGames.SavedGame>)
    reads games
    ensures |r| == |games|
    ensures forall i :: 0 <= i < |games| ==> r[i] == SavedGames.Snapshot(games[i], i + 1)
  {
    seq(|games|, i reads games requires 0 <= i < |games| => SavedGames.Snapshot(games[i], i + 1))
  }

  /** The record `from` makes of a live match. */
  function Snapshot(m: Matches.Match, savedAt: Timestamp): SavedMatch
    reads m, m.games
  {
    Make(m.player1Name, m.player2Name, m.matchStartingServer, m.bestOf, savedAt)
      .(games := NumberedGames(m.games))
  }

  /**
   * `from(_:context:)`: copies the names, starting server and `bestOf`,
   * then saves every game in match order, numbering them from 1.
   */
  method From(m: Matches.Match, savedAt: Timestamp) returns (sm: SavedMatch)
    ensures sm == Snapshot(m, savedAt)
  {
    sm := Make(m.player1Name, m.player2Name, m.matchStartingServer, m.bestOf, savedAt);
    ghost var header := sm;
    var games := m.games;
    var i := 0;
    while i < |games|
      invariant 0 <= i <= |games|
      invariant sm == header.(games := NumberedGames(games)[..i])
    {
      var savedGame := SavedGames.From(games[i], i + 1);
      assert NumberedGames(games)[..i + 1] == NumberedGames(games)[..i] + [savedGame];
      sm := sm.(games := sm.games + [savedGame]);
      i := i + 1;
    }
    assert NumberedGames(games)[..i] == NumberedGames(games);
  }

  /**
   * The saved record agrees with the live match: same games-won counts,
   * same target, same over-ness and same winner.
   */
  lemma SnapshotAgrees(m: Matches.Match, savedAt: Timestamp)
    ensures var sm := Snapshot(m, savedAt);
      && DecodedWinners(sm) == Matches.Winners(m.games)
      && GamesWon(sm, Player1) == m.GamesWonBy(Player1)
      && GamesWon(sm, Player2) == m.GamesWonBy(Player2)
      && GamesToWin(sm) == Matches.GamesToWin(m.bestOf)
      && IsMatchOver(sm) == m.IsMatchOver()
      && MatchWinner(sm) == m.Winner()
      && StartingServer(sm) == m.matchStartingServer
  {
    var sm := Snapshot(m, savedAt);
    forall i | 0 <= i < |m.games| ensures DecodedWinners(sm)[i] == Matches.Winners(m.games)[i] {
      SavedGames.SnapshotHeader(m.games[i], i + 1);
    }
    GamesWonIsDecodedTally(sm, Player1);
    GamesWonIsDecodedTally(sm, Player2);
  }
}
