/**
 * The persisted game record (SavedGame.swift): a game's names and final
 * scores, its starting server and winner as raw strings, and its points and
 * lets as numbered records; `from` builds it from a live game and `toGame`
 * rebuilds a live game from it.
 */
module SavedGames {
  import opened Wrappers
  import opened Seqs
  import opened Players
  import CourtZones
  import ShotTypes
  import opened Rallies
  import Games
  import SavedPoints
  import SavedLets

  datatype SavedGame = SavedGame(
    gameNumber: int,
    player1Name: string,
    player2Name: string,
    player1Score: int,
    player2Score: int,
    startingServer: string,
    winner: Option<string>,
    points: seq<SavedPoints.SavedPoint>,
    lets: seq<SavedLets.SavedLet>)

  /** `gameStartingServer`: an unknown string decodes to player 1. */
  function GameStartingServer(sg: SavedGame): (p: Player)
    ensures p == Player2 <==> sg.startingServer == Raw(Player2)
  {
    DecodeOrPlayer1(sg.startingServer)
  }

  /** `gameWinner`: none when no winner is stored, else the player whose raw value is stored. */
  function GameWinnerOf(sg: SavedGame): (r: Option<Player>)
    ensures sg.winner == None ==> r == None
    ensures forall p :: r == Some(p) <==> sg.winner == Some(Raw(p))
  {
    if sg.winner == None then None else FromRaw(sg.winner.value)
  }

  /**
   * The record's `init`: the starting server and the optional winner are
   * stored by raw value and decode back; names and scores are stored
   * verbatim; no points or lets yet.
   */
  function Make(gameNumber: int, player1Name: string, player2Name: string, player1Score: int, player2Score: int,
                startingServer: Player, winner: Option<Player>): (sg: SavedGame)
    ensures GameStartingServer(sg) == startingServer && GameWinnerOf(sg) == winner
    ensures sg.winner == None <==> winner == None
    ensures sg.gameNumber == gameNumber && sg.player1Name == player1Name && sg.player2Name == player2Name
    ensures sg.player1Score == player1Score && sg.player2Score == player2Score
    ensures sg.points == [] && sg.lets == []
  {
    RawInjective(startingServer, Player2);
    var storedWinner := if winner == None then None else Some(Raw(winner.value));
    assert winner.Some? ==> FromRaw(Raw(winner.value)) == Some(winner.value);
    SavedGame(gameNumber, player1Name, player2Name, player1Score, player2Score,
              Raw(startingServer), storedWinner, [], [])
  }

  /** `isGameOver`, written out again over the stored scores: the same rule as the live game's. */
  function IsGameOver(sg: SavedGame): (over: bool)
    ensures over == Games.GameOver(sg.player1Score, sg.player2Score)
  {
    var maxScore := if sg.player1Score >= sg.player2Score then sg.player1Score else sg.player2Score;
    var minScore := if sg.player1Score >= sg.player2Score then sg.player2Score else sg.player1Score;
    maxScore >= 11 && maxScore - minScore >= 2
  }

  // ---------------------------------------------------------------------
  // Count queries over the stored records
  // ---------------------------------------------------------------------

  function ScoredBy(p: Player): SavedPoints.SavedPoint -> bool {
    (sp: SavedPoints.SavedPoint) => SavedPoints.ScorerPlayer(sp) == p
  }

  function ScoredByIn(p: Player, z: CourtZones.CourtZone): SavedPoints.SavedPoint -> bool {
    (sp: SavedPoints.SavedPoint) => SavedPoints.ScorerPlayer(sp) == p && SavedPoints.PointZone(sp) == Some(z)
  }

  function ScoredByWith(p: Player, t: ShotTypes.ShotType): SavedPoints.SavedPoint -> bool {
    (sp: SavedPoints.SavedPoint) => SavedPoints.ScorerPlayer(sp) == p && SavedPoints.PointShotType(sp) == t
  }

  function AskedBy(p: Player): SavedLets.SavedLet -> bool {
    (sl: SavedLets.SavedLet) => SavedLets.RequestedByPlayer(sl) == p
  }

  /** `pointsWon(by:)`: the stored points whose scorer decodes to p, in stored order. */
  function PointsWon(sg: SavedGame, p: Player): (r: seq<SavedPoints.SavedPoint>)
    ensures forall i :: 0 <= i < |r| ==> r[i] in sg.points && SavedPoints.ScorerPlayer(r[i]) == p
    ensures forall i :: 0 <= i < |sg.points| && SavedPoints.ScorerPlayer(sg.points[i]) == p ==> sg.points[i] in r
  {
    FilterMembers(sg.points, ScoredBy(p));
    Filter(sg.points, ScoredBy(p))
  }

  /** `pointsWon(by:in:)`. */
  function PointsWonIn(sg: SavedGame, p: Player, z: CourtZones.CourtZone): nat {
    |Filter(sg.points, ScoredByIn(p, z))|
  }

  /** `pointsWon(by:with:)`. */
  function PointsWonWith(sg: SavedGame, p: Player, t: ShotTypes.ShotType): nat {
    |Filter(sg.points, ScoredByWith(p, t))|
  }

  /** `letsRequested(by:)`: the stored lets whose requester decodes to p, in stored order. */
  function LetsRequested(sg: SavedGame, p: Player): (r: seq<SavedLets.SavedLet>)
    ensures forall i :: 0 <= i < |r| ==> r[i] in sg.lets && SavedLets.RequestedByPlayer(r[i]) == p
    ensures forall i :: 0 <= i < |sg.lets| && SavedLets.RequestedByPlayer(sg.lets[i]) == p ==> sg.lets[i] in r
  {
    FilterMembers(sg.lets, AskedBy(p));
    Filter(sg.lets, AskedBy(p))
  }

  /** `totalLets`. */
  function TotalLets(sg: SavedGame): nat {
    |sg.lets|
  }

  /** Every stored point and every stored let belongs to exactly one player. */
  lemma SavedCountsAddUp(sg: SavedGame)
    ensures |PointsWon(sg, Player1)| + |PointsWon(sg, Player2)| == |sg.points|
    ensures |LetsRequested(sg, Player1)| + |LetsRequested(sg, Player2)| == TotalLets(sg)
  {
    FilterPartition(sg.points, ScoredBy(Player1), ScoredBy(Player2));
    FilterPartition(sg.lets, AskedBy(Player1), AskedBy(Player2));
  }

  // ---------------------------------------------------------------------
  // From a live game
  // ---------------------------------------------------------------------

  /** The points numbered 1, 2, ... in log order, as `from` stores them. */
  function NumberedPoints(ps: seq<Point>): seq<SavedPoints.SavedPoint> {
    seq(|ps|, i requires 0 <= i < |ps| => SavedPoints.From(ps[i], i + 1))
  }

  /** The lets numbered 1, 2, ... in log order, as `from` stores them. */
  function NumberedLets(ls: seq<Let>): seq<SavedLets.SavedLet> {
    seq(|ls|, i requires 0 <= i < |ls| => SavedLets.From(ls[i], i + 1))
  }

  /** The record `from` makes of a live game. */
  function Snapshot(g: Games.Game, gameNumber: int): SavedGame
    reads g
  {
    Make(gameNumber, g.player1Name, g.player2Name, g.player1Score, g.player2Score, g.startingServer, g.Winner())
      .(points := NumberedPoints(g.points), lets := NumberedLets(g.lets))
  }

  /**
   * `from(_:gameNumber:context:)`: copies the header of the live game, then
   * appends its points and its lets one by one, numbering each from 1.
   */
  method From(g: Games.Game, gameNumber: int) returns (sg: SavedGame)
    ensures sg == Snapshot(g, gameNumber)
  {
    sg := Make(gameNumber, g.player1Name, g.player2Name, g.player1Score, g.player2Score, g.startingServer, g.Winner());
    ghost var header := sg;
    var i := 0;
    while i < |g.points|
      invariant 0 <= i <= |g.points|
      invariant sg == header.(points := NumberedPoints(g.points)[..i])
    {
      var savedPoint := SavedPoints.From(g.points[i], i + 1);
      assert NumberedPoints(g.points)[..i + 1] == NumberedPoints(g.points)[..i] + [savedPoint];
      sg := sg.(points := sg.points + [savedPoint]);
      i := i + 1;
    }
    assert NumberedPoints(g.points)[..i] == NumberedPoints(g.points);
    ghost var withPoints := sg;
    var j := 0;
    while j < |g.lets|
      invariant 0 <= j <= |g.lets|
      invariant sg == withPoints.(lets := NumberedLets(g.lets)[..j])
    {
      var savedLet := SavedLets.From(g.lets[j], j + 1);
      assert NumberedLets(g.lets)[..j + 1] == NumberedLets(g.lets)[..j] + [savedLet];
      sg := sg.(lets := sg.lets + [savedLet]);
      j := j + 1;
    }
    assert NumberedLets(g.lets)[..j] == NumberedLets(g.lets);
  }

  /** `from` keeps the live game's names, scores, starting server, winner and game-over status. */
  lemma SnapshotHeader(g: Games.Game, gameNumber: int)
    ensures var sg := Snapshot(g, gameNumber);
      && sg.gameNumber == gameNumber
      && sg.player1Name == g.player1Name && sg.player2Name == g.player2Name
      && sg.player1Score == g.player1Score && sg.player2Score == g.player2Score
      && GameStartingServer(sg) == g.startingServer
      && GameWinnerOf(sg) == g.Winner()
      && IsGameOver(sg) == g.IsGameOver()
  {
  }

  /** The counts over the stored records are the live game's counts. */
  lemma SnapshotCountsAgree(g: Games.Game, gameNumber: int, p: Player, z: CourtZones.CourtZone, t: ShotTypes.ShotType)
    ensures var sg := Snapshot(g, gameNumber);
      && |PointsWon(sg, p)| == |Games.PointsWon(g.points, p)|
      && PointsWonIn(sg, p, z) == Games.PointsWonIn(g.points, p, z)
      && PointsWonWith(sg, p, t) == |Filter(g.points, (pt: Point) => pt.scorer == p && pt.shotType == t)|
      && |LetsRequested(sg, p)| == |Filter(g.lets, (l: Let) => l.requestedBy == p)|
      && TotalLets(sg) == |g.lets|
  {
    NumberedWonAgree(g.points, p);
    NumberedWonInAgree(g.points, p, z);
    NumberedWonWithAgree(g.points, p, t);
    NumberedLetsAgree(g.lets, p);
  }

  lemma NumberedWonAgree(ps: seq<Point>, p: Player)
    ensures |Filter(NumberedPoints(ps), ScoredBy(p))| == |Games.PointsWon(ps, p)|
  {
    var sps := NumberedPoints(ps);
    forall i | 0 <= i < |sps| ensures ScoredBy(p)(sps[i]) == Games.WonBy(p)(ps[i]) {
      assert sps[i] == SavedPoints.From(ps[i], i + 1);
    }
    FilterCountsAgree(sps, ps, ScoredBy(p), Games.WonBy(p));
  }

  lemma NumberedWonInAgree(ps: seq<Point>, p: Player, z: CourtZones.CourtZone)
    ensures |Filter(NumberedPoints(ps), ScoredByIn(p, z))| == Games.PointsWonIn(ps, p, z)
  {
    var sps := NumberedPoints(ps);
    forall i | 0 <= i < |sps| ensures ScoredByIn(p, z)(sps[i]) == Games.WonByIn(p, z)(ps[i]) {
      assert sps[i] == SavedPoints.From(ps[i], i + 1);
    }
    FilterCountsAgree(sps, ps, ScoredByIn(p, z), Games.WonByIn(p, z));
  }

  lemma NumberedWonWithAgree(ps: seq<Point>, p: Player, t: ShotTypes.ShotType)
    ensures |Filter(NumberedPoints(ps), ScoredByWith(p, t))|
            == |Filter(ps, (pt: Point) => pt.scorer == p && pt.shotType == t)|
  {
    var sps := NumberedPoints(ps);
    var live := (pt: Point) => pt.scorer == p && pt.shotType == t;
    forall i | 0 <= i < |sps| ensures ScoredByWith(p, t)(sps[i]) == live(ps[i]) {
      assert sps[i] == SavedPoints.From(ps[i], i + 1);
    }
    FilterCountsAgree(sps, ps, ScoredByWith(p, t), live);
  }

  lemma NumberedLetsAgree(ls: seq<Let>, p: Player)
    ensures |Filter(NumberedLets(ls), AskedBy(p))| == |Filter(ls, (l: Let) => l.requestedBy == p)|
  {
    var sls := NumberedLets(ls);
    var live := (l: Let) => l.requestedBy == p;
    forall i | 0 <= i < |sls| ensures AskedBy(p)(sls[i]) == live(ls[i]) {
      assert sls[i] == SavedLets.From(ls[i], i + 1);
    }
    FilterCountsAgree(sls, ls, AskedBy(p), live);
  }

  // ---------------------------------------------------------------------
  // Back to a live game
  // ---------------------------------------------------------------------

  /** Every stored zone string names one of the six zones. */
  predicate ZonesDecode(sps: seq<SavedPoints.SavedPoint>) {
    forall i :: 0 <= i < |sps| ==> SavedPoints.PointZone(sps[i]).Some?
  }

  /**
   * A stored point made live again, as `toGame` does: decoded scorer, zone,
   * shot and server, the stored scores, the clock reading `now` (Swift's
   * `Point` initialiser stamps the current time), and duration 0,
   * since the record keeps no duration.
   */
  function RestorePoint(sp: SavedPoints.SavedPoint, now: Timestamp): Point
    requires SavedPoints.PointZone(sp).Some?
  {
    Point(SavedPoints.ScorerPlayer(sp), SavedPoints.PointZone(sp).value, SavedPoints.PointShotType(sp),
          SavedPoints.ServerPlayer(sp), sp.player1Score, sp.player2Score, now, 0)
  }

  function RestoreAll(sps: seq<SavedPoints.SavedPoint>, now: Timestamp): (r: seq<Point>)
    requires ZonesDecode(sps)
    ensures |r| == |sps|
    ensures forall i :: 0 <= i < |sps| ==> r[i] == RestorePoint(sps[i], now)
  {
    if sps == [] then [] else [RestorePoint(sps[0], now)] + RestoreAll(sps[1..], now)
  }

  function ByPointNumber(): SavedPoints.SavedPoint -> int {
    (sp: SavedPoints.SavedPoint) => sp.pointNumber
  }

  function ByLetNumber(): SavedLets.SavedLet -> int {
    (sl: SavedLets.SavedLet) => sl.letNumber
  }

  /** Reordering the records keeps every zone decodable. */
  lemma ZonesDecodePermutation(a: seq<SavedPoints.SavedPoint>, b: seq<SavedPoints.SavedPoint>)
    requires ZonesDecode(a) && multiset(a) == multiset(b)
    ensures ZonesDecode(b)
  {
    forall i | 0 <= i < |b| ensures SavedPoints.PointZone(b[i]).Some? {
      assert b[i] in multiset(a);
      var k :| 0 <= k < |a| && a[k] == b[i];
    }
  }

  /** `toGame`'s point log: the records sorted by `pointNumber`, each made live again. */
  function RestoredPoints(sps: seq<SavedPoints.SavedPoint>, now: Timestamp): (r: seq<Point>)
    requires ZonesDecode(sps)
    ensures |r| == |sps|
  {
    var sorted := SortBy(sps, ByPointNumber());
    ZonesDecodePermutation(sps, sorted);
    RestoreAll(sorted, now)
  }

  function RestoreLet(sl: SavedLets.SavedLet, now: Timestamp): Let {
    Let(SavedLets.RequestedByPlayer(sl), SavedLets.ServerPlayer(sl), now, sl.player1Score, sl.player2Score)
  }

  /** `toGame`'s let log: the records sorted by `letNumber`, each made live again. */
  function RestoredLets(sls: seq<SavedLets.SavedLet>, now: Timestamp): (r: seq<Let>)
    ensures |r| == |sls|
  {
    var sorted := SortBy(sls, ByLetNumber());
    seq(|sorted|, i requires 0 <= i < |sorted| => RestoreLet(sorted[i], now))
  }

  /**
   * `toGame()`: a new live game with the stored names and scores, the
   * stored starting server as both starting and current server, the
   * restored point and let logs, an empty undo stack and no selection.
   */
  method ToGame(sg: SavedGame, now: Timestamp) returns (g: Games.Game)
    requires ZonesDecode(sg.points)
    ensures fresh(g)
    ensures g.player1Name == sg.player1Name && g.player2Name == sg.player2Name
    ensures g.State() == Games.GameState(sg.player1Score, sg.player2Score,
                                         GameStartingServer(sg), GameStartingServer(sg),
                                         RestoredPoints(sg.points, now), [], None)
    ensures g.lets == RestoredLets(sg.lets, now)
  {
    g := Restore(sg.player1Name, sg.player2Name, sg.player1Score, sg.player2Score,
                 GameStartingServer(sg), RestoredPoints(sg.points, now), RestoredLets(sg.lets, now));
  }

  /**
   * `toGame` restores the point log but not the stack of previous servers,
   * so a restored game with points is outside the live-game invariant, and
   * undoing its last point takes that point's score away while the server
   * stays the restored starting server.
   */
  lemma RestoredGameWithPoints(sg: SavedGame, now: Timestamp)
    requires ZonesDecode(sg.points) && sg.points != []
    ensures var st := Games.GameState(sg.player1Score, sg.player2Score,
                                      GameStartingServer(sg), GameStartingServer(sg),
                                      RestoredPoints(sg.points, now), [], None);
      && !Games.Consistent(st)
      && Games.UndoStep(st).currentServer == GameStartingServer(sg)
      && |Games.UndoStep(st).points| == |sg.points| - 1
      && Games.UndoStep(st).player1Score + Games.UndoStep(st).player2Score
         == sg.player1Score + sg.player2Score - 1
  {
  }

  /** The field-by-field steps of `toGame()` on a fresh game. */
  method Restore(name1: string, name2: string, score1: int, score2: int, server: Player,
                 points: seq<Point>, lets: seq<Let>) returns (g: Games.Game)
    ensures fresh(g)
    ensures g.player1Name == name1 && g.player2Name == name2
    ensures g.State() == Games.GameState(score1, score2, server, server, points, [], None)
    ensures g.lets == lets
  {
    g := new Games.Game();
    g.player1Name, g.player2Name := name1, name2;
    g.player1Score, g.player2Score := score1, score2;
    g.SetStartingServer(server);
    g.points, g.lets := points, lets;
  }

  // ---------------------------------------------------------------------
  // Round trips
  // ---------------------------------------------------------------------

  /** A point as `toGame(from(g))` gives it back: only the time and the duration differ. */
  function Stamped(ps: seq<Point>, now: Timestamp): seq<Point> {
    seq(|ps|, i requires 0 <= i < |ps| => ps[i].(timestamp := now, duration := 0))
  }

  function StampedLets(ls: seq<Let>, now: Timestamp): seq<Let> {
    seq(|ls|, i requires 0 <= i < |ls| => ls[i].(timestamp := now))
  }

  /** The numbers `from` gives are increasing, so sorting by them changes nothing. */
  lemma NumberedPointsSorted(ps: seq<Point>)
    ensures SortBy(NumberedPoints(ps), ByPointNumber()) == NumberedPoints(ps)
  {
    var sps := NumberedPoints(ps);
    forall i, j | 0 <= i < j < |sps| ensures ByPointNumber()(sps[i]) <= ByPointNumber()(sps[j]) {
      assert sps[i].pointNumber == i + 1 && sps[j].pointNumber == j + 1;
    }
    SortOfSorted(sps, ByPointNumber());
  }

  /** A stored point restored gives back the live point, up to time and duration. */
  lemma RestoreOfFrom(pt: Point, n: int, now: Timestamp)
    ensures SavedPoints.PointZone(SavedPoints.From(pt, n)).Some?
    ensures RestorePoint(SavedPoints.From(pt, n), now) == pt.(timestamp := now, duration := 0)
  {
  }

  /** Every zone `from` stores is a zone name. */
  lemma NumberedZonesDecode(ps: seq<Point>)
    ensures ZonesDecode(NumberedPoints(ps))
  {
    var sps := NumberedPoints(ps);
    forall i | 0 <= i < |sps| ensures SavedPoints.PointZone(sps[i]).Some? {
      RestoreOfFrom(ps[i], i + 1, 0);
    }
  }

  /** Restoring the numbered points one by one gives back the log, up to time and duration. */
  lemma RestoreAllNumbered(ps: seq<Point>, now: Timestamp)
    ensures ZonesDecode(NumberedPoints(ps))
    ensures RestoreAll(NumberedPoints(ps), now) == Stamped(ps, now)
  {
    NumberedZonesDecode(ps);
    var sps := NumberedPoints(ps);
    var r := RestoreAll(sps, now);
    forall i | 0 <= i < |ps| ensures r[i] == Stamped(ps, now)[i] {
      RestoreOfFrom(ps[i], i + 1, now);
    }
  }

  /**
   * Sorting the numbered records by their numbers keeps their order, so
   * restoring the points `from` stored gives back the live log: scorer,
   * zone, shot, server and scores of every point, in order.
   */
  lemma PointsRoundTrip(ps: seq<Point>, now: Timestamp)
    ensures ZonesDecode(NumberedPoints(ps))
    ensures RestoredPoints(NumberedPoints(ps), now) == Stamped(ps, now)
  {
    NumberedPointsSorted(ps);
    RestoreAllNumbered(ps, now);
  }

  /** The let numbers `from` gives are increasing, so sorting by them changes nothing. */
  lemma NumberedLetsSorted(ls: seq<Let>)
    ensures SortBy(NumberedLets(ls), ByLetNumber()) == NumberedLets(ls)
  {
    var sls := NumberedLets(ls);
    forall i, j | 0 <= i < j < |sls| ensures ByLetNumber()(sls[i]) <= ByLetNumber()(sls[j]) {
      assert sls[i].letNumber == i + 1 && sls[j].letNumber == j + 1;
    }
    SortOfSorted(sls, ByLetNumber());
  }

  /** Restoring the lets `from` stored gives back the live let log, in order. */
  lemma LetsRoundTrip(ls: seq<Let>, now: Timestamp)
    ensures RestoredLets(NumberedLets(ls), now) == StampedLets(ls, now)
  {
    NumberedLetsSorted(ls);
    var sls := NumberedLets(ls);
    var r := RestoredLets(sls, now);
    forall i | 0 <= i < |ls| ensures r[i] == StampedLets(ls, now)[i] {
      assert sls[i] == SavedLets.From(ls[i], i + 1);
    }
  }

  /** The point numbers `from` gives strictly increase. */
  lemma NumberedPointsStrictlySorted(ps: seq<Point>)
    ensures StrictlySortedBy(NumberedPoints(ps), ByPointNumber())
  {
    var sps := NumberedPoints(ps);
    forall i, j | 0 <= i < j < |sps| ensures ByPointNumber()(sps[i]) < ByPointNumber()(sps[j]) {
      assert sps[i].pointNumber == i + 1 && sps[j].pointNumber == j + 1;
    }
  }

  /**
   * `toGame` sorts by `pointNumber`, so the stored points may come back in
   * any order: every rearrangement of the records `from` made restores the
   * same live log.
   */
  lemma PointsRoundTripAnyOrder(ps: seq<Point>, sps: seq<SavedPoints.SavedPoint>, now: Timestamp)
    requires multiset(sps) == multiset(NumberedPoints(ps))
    ensures ZonesDecode(sps)
    ensures RestoredPoints(sps, now) == Stamped(ps, now)
  {
    var numbered := NumberedPoints(ps);
    NumberedZonesDecode(ps);
    ZonesDecodePermutation(numbered, sps);
    NumberedPointsStrictlySorted(ps);
    SortedPermutationUnique(SortBy(sps, ByPointNumber()), numbered, ByPointNumber());
    RestoreAllNumbered(ps, now);
  }

  /** The let numbers `from` gives strictly increase. */
  lemma NumberedLetsStrictlySorted(ls: seq<Let>)
    ensures StrictlySortedBy(NumberedLets(ls), ByLetNumber())
  {
    var sls := NumberedLets(ls);
    forall i, j | 0 <= i < j < |sls| ensures ByLetNumber()(sls[i]) < ByLetNumber()(sls[j]) {
      assert sls[i].letNumber == i + 1 && sls[j].letNumber == j + 1;
    }
  }

  /** Every rearrangement of the let records `from` made restores the same live let log. */
  lemma LetsRoundTripAnyOrder(ls: seq<Let>, sls: seq<SavedLets.SavedLet>, now: Timestamp)
    requires multiset(sls) == multiset(NumberedLets(ls))
    ensures RestoredLets(sls, now) == StampedLets(ls, now)
  {
    var numbered := NumberedLets(ls);
    NumberedLetsStrictlySorted(ls);
    SortedPermutationUnique(SortBy(sls, ByLetNumber()), numbered, ByLetNumber());
    NumberedLetsSorted(ls);
    LetsRoundTrip(ls, now);
  }

  /**
   * `toGame(from(g))` can always be built and has g's names, scores,
   * starting server, point log and let log (up to times and durations);
   * its current server is g's starting server, whoever served last.
   */
  lemma ToGameOfFrom(g: Games.Game, gameNumber: int, now: Timestamp)
    ensures var sg := Snapshot(g, gameNumber);
      && ZonesDecode(sg.points)
      && RestoredPoints(sg.points, now) == Stamped(g.points, now)
      && RestoredLets(sg.lets, now) == StampedLets(g.lets, now)
      && GameStartingServer(sg) == g.startingServer
      && sg.player1Score == g.player1Score && sg.player2Score == g.player2Score
  {
    PointsRoundTrip(g.points, now);
    LetsRoundTrip(g.lets, now);
  }
}
