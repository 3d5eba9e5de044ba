/**
 * One squash game (Game.swift): the win-by-two scoring rule, the hand-out
 * service rule, the point log with its undo stack of previous servers, and
 * the analytics computed from the point log.
 *
 * Every state change of the `Game` class is specified by a step function
 * on `GameState` (the part of the object the scoring methods touch), so
 * that properties relating several calls, such as "undo inverts add", are
 * lemmas about values.
 */
module Games {
  import opened Wrappers
  import opened Seqs
  import opened Players
  import opened CourtZones
  import opened ShotTypes
  import opened Rallies

  // ---------------------------------------------------------------------
  // The scoring rule
  // ---------------------------------------------------------------------

  /** `isGameOver`: someone has reached 11 and leads by at least two. */
  function GameOver(s1: int, s2: int): (over: bool)
    ensures over <==> (s1 >= 11 || s2 >= 11) && (s1 - s2 >= 2 || s2 - s1 >= 2)
  {
    var maxScore := if s1 >= s2 then s1 else s2;
    var minScore := if s1 >= s2 then s2 else s1;
    maxScore >= 11 && maxScore - minScore >= 2
  }

  /** `winner`: none while the game is live, otherwise the higher scorer. */
  function GameWinner(s1: int, s2: int): (w: Option<Player>)
    ensures w == None <==> !GameOver(s1, s2)
    ensures w == Some(Player1) <==> GameOver(s1, s2) && s1 > s2
    ensures w == Some(Player2) <==> GameOver(s1, s2) && s2 > s1
  {
    if !GameOver(s1, s2) then None
    else if s1 > s2 then Some(Player1) else Some(Player2)
  }

  lemma GameOverExamples()
    ensures !GameOver(10, 9) && !GameOver(10, 10) && !GameOver(11, 10)
    ensures GameOver(11, 9) && GameOver(12, 10) && GameOver(15, 13) && GameOver(3, 11)
    ensures GameWinner(11, 9) == Some(Player1) && GameWinner(3, 11) == Some(Player2)
  {
  }

  // ---------------------------------------------------------------------
  // Queries over a point log
  // ---------------------------------------------------------------------

  function WonBy(p: Player): Point -> bool {
    (pt: Point) => pt.scorer == p
  }

  function WonByIn(p: Player, z: CourtZone): Point -> bool {
    (pt: Point) => pt.scorer == p && pt.zone == z
  }

  function InZone(z: CourtZone): Point -> bool {
    (pt: Point) => pt.zone == z
  }

  /** `pointsWon(by:)`. */
  function PointsWon(points: seq<Point>, p: Player): seq<Point> {
    Filter(points, WonBy(p))
  }

  /** `pointsWon(by:in:)`. */
  function PointsWonIn(points: seq<Point>, p: Player, z: CourtZone): nat {
    |Filter(points, WonByIn(p, z))|
  }

  /** `pointsLost(by:)`: the points the opponent won. */
  function PointsLost(points: seq<Point>, p: Player): seq<Point> {
    Filter(points, WonBy(Opponent(p)))
  }

  /** `totalPoints(in:)`. */
  function TotalPointsIn(points: seq<Point>, z: CourtZone): nat {
    |Filter(points, InZone(z))|
  }

  /** A won/total pair, standing for a percentage the app computes in floating point. */
  datatype Ratio = Ratio(won: nat, total: nat)

  /**
   * `winPercentage(for:in:)` as the pair it divides: p's wins in the zone
   * over all points played there (0 of 0 when the zone saw no point).
   */
  function ZoneWinRatio(points: seq<Point>, p: Player, z: CourtZone): (r: Ratio)
    ensures r.won == PointsWonIn(points, p, z)
    ensures r.total == TotalPointsIn(points, z)
    ensures r.won <= r.total
  {
    var won := PointsWonIn(points, p, z);
    var lost := PointsWonIn(points, Opponent(p), z);
    ZoneTotalSplits(points, z);
    Ratio(won, won + lost)
  }

  /** Every point of the log is won by exactly one of the two players. */
  lemma WonPlusLost(points: seq<Point>, p: Player)
    ensures |PointsWon(points, p)| + |PointsLost(points, p)| == |points|
  {
    FilterPartition(points, WonBy(p), WonBy(Opponent(p)));
  }

  /**
   * The per-player queries select exactly the right points of the log:
   * p's wins are the points p scored, p's losses the points the opponent
   * scored, and p's wins in a zone the points p scored there.
   */
  lemma PointsWonExactly(points: seq<Point>, p: Player, z: CourtZone)
    ensures forall i :: 0 <= i < |points| ==> (points[i] in PointsWon(points, p) <==> points[i].scorer == p)
    ensures forall i :: 0 <= i < |points| ==> (points[i] in PointsLost(points, p) <==> points[i].scorer != p)
    ensures forall pt :: pt in PointsWon(points, p) ==> pt in points && pt.scorer == p
    ensures forall pt :: pt in PointsLost(points, p) ==> pt in points && pt.scorer == Opponent(p)
    ensures PointsWonIn(points, p, z) <= TotalPointsIn(points, z)
  {
    FilterMembers(points, WonBy(p));
    FilterMembers(points, WonBy(Opponent(p)));
    ZoneTotalSplits(points, z);
  }

  /** The points played in a zone are those won there by player 1 plus those won there by player 2. */
  lemma ZoneTotalSplits(points: seq<Point>, z: CourtZone)
    ensures TotalPointsIn(points, z) == PointsWonIn(points, Player1, z) + PointsWonIn(points, Player2, z)
  {
    FilterSplit(points, InZone(z), WonByIn(Player1, z), WonByIn(Player2, z));
  }

  /** The per-zone win counts of p, in declaration order of the zones. */
  function ZoneCounts(points: seq<Point>, p: Player): (c: seq<int>)
    ensures |c| == 6
    ensures forall z :: c[ZoneIndex(z)] == PointsWonIn(points, p, z)
  {
    seq(6, i requires 0 <= i < 6 => PointsWonIn(points, p, AllZones()[i]))
  }

  /**
   * `bestZone(for:)`: never none; the zone where p won most points, the
   * first one in declaration order among equals.
   */
  function BestZone(points: seq<Point>, p: Player): (r: Option<CourtZone>)
    ensures r.Some?
    ensures forall z :: PointsWonIn(points, p, z) <= PointsWonIn(points, p, r.value)
    ensures forall z :: ZoneIndex(z) < ZoneIndex(r.value) ==>
              PointsWonIn(points, p, z) < PointsWonIn(points, p, r.value)
  {
    var counts := ZoneCounts(points, p);
    var k := FirstMaxIndex(counts);
    assert forall z :: counts[ZoneIndex(z)] <= counts[k];
    Some(AllZones()[k])
  }

  /**
   * `worstZone(for:)`: never none; the zone where p's opponent won most
   * points, the first one in declaration order among equals.
   */
  function WorstZone(points: seq<Point>, p: Player): (r: Option<CourtZone>)
    ensures r.Some?
    ensures forall z :: PointsWonIn(points, Opponent(p), z) <= PointsWonIn(points, Opponent(p), r.value)
    ensures forall z :: ZoneIndex(z) < ZoneIndex(r.value) ==>
              PointsWonIn(points, Opponent(p), z) < PointsWonIn(points, Opponent(p), r.value)
  {
    var counts := ZoneCounts(points, Opponent(p));
    var k := FirstMaxIndex(counts);
    assert forall z :: counts[ZoneIndex(z)] <= counts[k];
    Some(AllZones()[k])
  }

  lemma WorstZoneIsOpponentsBest(points: seq<Point>, p: Player)
    ensures WorstZone(points, p) == BestZone(points, Opponent(p))
  {
  }

  /** With an empty log every count ties at zero, so the first zone wins. */
  lemma BestZoneOfEmptyLog(p: Player)
    ensures BestZone([], p) == Some(FrontLeft)
  {
    var r := BestZone([], p).value;
    assert PointsWonIn([], p, FrontLeft) == PointsWonIn([], p, r);
    assert ZoneIndex(r) == 0;
  }

  /** How many points p's opponent won in each zone. */
  function LossCount(points: seq<Point>, p: Player): (count: CourtZone -> int)
    ensures forall z :: count(z) == PointsWonIn(points, Opponent(p), z)
  {
    (z: CourtZone) => PointsWonIn(points, Opponent(p), z)
  }

  /**
   * `recommendedZones(against:)`: ranked by the points p's opponent won in
   * them, the zones where the opponent won at least one point, at most
   * three, most such points first; a zone where the opponent scored is left
   * out only when three zones with at least as many such points were kept.
   */
  function RecommendedZones(points: seq<Point>, p: Player): (r: seq<CourtZone>)
    ensures TopRanked(r, LossCount(points, p), 3)
  {
    AllZonesEnumerates();
    TopOfAll(AllZones(), LossCount(points, p), 3)
  }

  // ---------------------------------------------------------------------
  // The scoring state and its transitions
  // ---------------------------------------------------------------------

  /** The fields of a Game that the scoring methods read and write. */
  datatype GameState = GameState(
    player1Score: int,
    player2Score: int,
    currentServer: Player,
    startingServer: Player,
    points: seq<Point>,
    previousServers: seq<Player>,
    selectedPlayer: Option<Player>)

  /** `score(for:)`. */
  function ScoreOf(st: GameState, p: Player): int {
    match p
    case Player1 => st.player1Score
    case Player2 => st.player2Score
  }

  function IsOver(st: GameState): bool {
    GameOver(st.player1Score, st.player2Score)
  }

  /** A blank game: 0-0, nothing logged, nothing selected, `server` to serve. */
  function NewGameState(server: Player): GameState {
    GameState(0, 0, server, server, [], [], None)
  }

  /** `selectPlayer(_:)`: ignored once the game is over. */
  function SelectPlayerStep(st: GameState, p: Player): GameState {
    if IsOver(st) then st else st.(selectedPlayer := Some(p))
  }

  /** `clearSelection()`. */
  function ClearSelectionStep(st: GameState): GameState {
    st.(selectedPlayer := None)
  }

  /**
   * `addPoint(to:at:)`: ignored once the game is over; otherwise push the
   * server, score the point, log it with the pre-point server and the
   * post-point scores, hand service to the rally winner, clear the selection.
   */
  function AddPointStep(st: GameState, p: Player, z: CourtZone, shot: ShotType, duration: nat, now: Timestamp): GameState {
    if IsOver(st) then st
    else
      var s1 := if p == Player1 then st.player1Score + 1 else st.player1Score;
      var s2 := if p == Player2 then st.player2Score + 1 else st.player2Score;
      var point := Point(p, z, shot, st.currentServer, s1, s2, now, duration);
      GameState(
        s1, s2,
        if p != st.currentServer then p else st.currentServer,
        st.startingServer,
        st.points + [point],
        st.previousServers + [st.currentServer],
        None)
  }

  /**
   * `undoLastPoint()`: nothing on an empty log; otherwise pop the last
   * point, take its point back from its scorer, restore the server from
   * the stack when the stack has one, clear the selection.
   */
  function UndoStep(st: GameState): GameState {
    if st.points == [] then st
    else
      var last := st.points[|st.points| - 1];
      var s1 := if last.scorer == Player1 then st.player1Score - 1 else st.player1Score;
      var s2 := if last.scorer == Player2 then st.player2Score - 1 else st.player2Score;
      var n := |st.previousServers|;
      GameState(
        s1, s2,
        if n > 0 then st.previousServers[n - 1] else st.currentServer,
        st.startingServer,
        st.points[..|st.points| - 1],
        if n > 0 then st.previousServers[..n - 1] else st.previousServers,
        None)
  }

  /** `reset()`. */
  function ResetStep(st: GameState): GameState {
    NewGameState(st.startingServer)
  }

  /** `setStartingServer(_:)`. */
  function SetStartingServerStep(st: GameState, p: Player): GameState {
    st.(startingServer := p, currentServer := p)
  }

  // ---------------------------------------------------------------------
  // The invariant kept by the public methods
  // ---------------------------------------------------------------------

  /** The number of points p won among the first i logged points. */
  function CountBefore(points: seq<Point>, i: nat, p: Player): nat
    requires i <= |points|
  {
    |PointsWon(points[..i], p)|
  }

  /** The server stacked for point i is the server that point records. */
  ghost predicate ServerStackedAt(servers: seq<Player>, points: seq<Point>, i: nat)
    requires i < |points| == |servers|
  {
    servers[i] == points[i].server
  }

  /** The score snapshot of point i equals the counts of the first i + 1 points. */
  ghost predicate SnapshotAt(points: seq<Point>, i: nat)
    requires i < |points|
  {
    points[i].player1Score == CountBefore(points, i + 1, Player1) &&
    points[i].player2Score == CountBefore(points, i + 1, Player2)
  }

  /** Point i was scored while the game was still live. */
  ghost predicate LiveAt(points: seq<Point>, i: nat)
    requires i < |points|
  {
    !GameOver(CountBefore(points, i, Player1), CountBefore(points, i, Player2))
  }

  ghost predicate LogWellFormed(points: seq<Point>) {
    forall i :: 0 <= i < |points| ==> SnapshotAt(points, i) && LiveAt(points, i)
  }

  /**
   * What scoring only through the methods guarantees: one stacked server
   * per logged point (the server that point records), live scores equal to
   * the players' point counts, every logged score snapshot equal to the
   * counts up to and including that point, and no point logged after the
   * game was over.
   */
  ghost predicate Consistent(st: GameState) {
    && |st.previousServers| == |st.points|
    && (forall i :: 0 <= i < |st.points| ==> ServerStackedAt(st.previousServers, st.points, i))
    && st.player1Score == |PointsWon(st.points, Player1)|
    && st.player2Score == |PointsWon(st.points, Player2)|
    && LogWellFormed(st.points)
  }

  /** Extending the log at its end leaves the counts over its old prefixes alone. */
  lemma CountBeforeSnoc(s: seq<Point>, x: Point, i: nat, p: Player)
    requires i <= |s|
    ensures CountBefore(s + [x], i, p) == CountBefore(s, i, p)
  {
    assert (s + [x])[..i] == s[..i];
  }

  lemma CountWhole(s: seq<Point>, p: Player)
    ensures CountBefore(s, |s|, p) == |PointsWon(s, p)|
  {
    assert s[..|s|] == s;
  }

  /** The log stays well formed when a point carrying the next snapshot is appended to a live game. */
  lemma {:induction false} LogSnoc(s: seq<Point>, x: Point)
    requires LogWellFormed(s)
    requires x.player1Score == |PointsWon(s, Player1)| + (if x.scorer == Player1 then 1 else 0)
    requires x.player2Score == |PointsWon(s, Player2)| + (if x.scorer == Player2 then 1 else 0)
    requires !GameOver(|PointsWon(s, Player1)|, |PointsWon(s, Player2)|)
    ensures LogWellFormed(s + [x])
    ensures |PointsWon(s + [x], Player1)| == x.player1Score
    ensures |PointsWon(s + [x], Player2)| == x.player2Score
  {
    var t := s + [x];
    var n := |s|;
    FilterSnoc(s, x, WonBy(Player1));
    FilterSnoc(s, x, WonBy(Player2));
    forall i | 0 <= i < |t| ensures SnapshotAt(t, i) && LiveAt(t, i) {
      CountBeforeSnoc(s, x, i, Player1);
      CountBeforeSnoc(s, x, i, Player2);
      if i < n {
        CountBeforeSnoc(s, x, i + 1, Player1);
        CountBeforeSnoc(s, x, i + 1, Player2);
        assert SnapshotAt(s, i) && LiveAt(s, i);
      } else {
        CountWhole(s, Player1);
        CountWhole(s, Player2);
        CountWhole(t, Player1);
        CountWhole(t, Player2);
      }
    }
  }

  /** Removing the last point keeps the log well formed and takes back its point from the counts. */
  lemma {:induction false} LogPop(s: seq<Point>, x: Point)
    requires LogWellFormed(s + [x])
    ensures LogWellFormed(s)
    ensures |PointsWon(s + [x], Player1)| == |PointsWon(s, Player1)| + (if x.scorer == Player1 then 1 else 0)
    ensures |PointsWon(s + [x], Player2)| == |PointsWon(s, Player2)| + (if x.scorer == Player2 then 1 else 0)
  {
    var t := s + [x];
    FilterSnoc(s, x, WonBy(Player1));
    FilterSnoc(s, x, WonBy(Player2));
    forall i | 0 <= i < |s| ensures SnapshotAt(s, i) && LiveAt(s, i) {
      assert SnapshotAt(t, i) && LiveAt(t, i);
      assert t[i] == s[i];
      CountBeforeSnoc(s, x, i, Player1);
      CountBeforeSnoc(s, x, i, Player2);
      CountBeforeSnoc(s, x, i + 1, Player1);
      CountBeforeSnoc(s, x, i + 1, Player2);
    }
  }

  lemma NewGameConsistent(server: Player)
    ensures Consistent(NewGameState(server))
  {
  }

  lemma {:induction false} AddPointKeepsConsistent(st: GameState, p: Player, z: CourtZone, shot: ShotType, duration: nat, now: Timestamp)
    requires Consistent(st)
    ensures Consistent(AddPointStep(st, p, z, shot, duration, now))
  {
    if !IsOver(st) {
      var r := AddPointStep(st, p, z, shot, duration, now);
      var pt := r.points[|st.points|];
      assert r.points == st.points + [pt];
      LogSnoc(st.points, pt);
      forall i | 0 <= i < |r.points| ensures ServerStackedAt(r.previousServers, r.points, i) {
        if i < |st.points| {
          assert ServerStackedAt(st.previousServers, st.points, i);
        }
      }
    }
  }

  lemma {:induction false} UndoKeepsConsistent(st: GameState)
    requires Consistent(st)
    ensures Consistent(UndoStep(st))
  {
    if st.points != [] {
      var r := UndoStep(st);
      var last := st.points[|st.points| - 1];
      assert st.points == r.points + [last];
      LogPop(r.points, last);
      forall i | 0 <= i < |r.points| ensures ServerStackedAt(r.previousServers, r.points, i) {
        assert ServerStackedAt(st.previousServers, st.points, i);
      }
    }
  }

  lemma ResetConsistent(st: GameState)
    ensures Consistent(ResetStep(st))
  {
  }

  lemma OtherStepsKeepConsistent(st: GameState, p: Player)
    requires Consistent(st)
    ensures Consistent(SelectPlayerStep(st, p))
    ensures Consistent(ClearSelectionStep(st))
    ensures Consistent(SetStartingServerStep(st, p))
  {
  }

  // ---------------------------------------------------------------------
  // Properties of the transitions
  // ---------------------------------------------------------------------

  /** On a finished game, selecting and scoring change nothing; undo on an empty log changes nothing. */
  lemma GuardedStepsAreNoOps(st: GameState, p: Player, z: CourtZone, shot: ShotType, duration: nat, now: Timestamp)
    ensures IsOver(st) ==> SelectPlayerStep(st, p) == st
    ensures IsOver(st) ==> AddPointStep(st, p, z, shot, duration, now) == st
    ensures st.points == [] ==> UndoStep(st) == st
  {
  }

  /**
   * Scoring a live game adds one to the scorer only, logs exactly one point
   * carrying the scorer, zone, shot, pre-point server and post-point
   * scores, stacks the old server and clears the selection.
   */
  lemma AddPointEffect(st: GameState, p: Player, z: CourtZone, shot: ShotType, duration: nat, now: Timestamp)
    requires !IsOver(st)
    ensures var r := AddPointStep(st, p, z, shot, duration, now);
      && ScoreOf(r, p) == ScoreOf(st, p) + 1
      && ScoreOf(r, Opponent(p)) == ScoreOf(st, Opponent(p))
      && r.points == st.points + [Point(p, z, shot, st.currentServer, r.player1Score, r.player2Score, now, duration)]
      && r.previousServers == st.previousServers + [st.currentServer]
      && r.selectedPlayer == None
      && r.startingServer == st.startingServer
  {
  }

  /** Hand-out rule: the rally winner serves next; service changes exactly when the receiver wins. */
  lemma ServiceGoesToRallyWinner(st: GameState, p: Player, z: CourtZone, shot: ShotType, duration: nat, now: Timestamp)
    requires !IsOver(st)
    ensures AddPointStep(st, p, z, shot, duration, now).currentServer == p
    ensures AddPointStep(st, p, z, shot, duration, now).currentServer == st.currentServer <==> p == st.currentServer
  {
  }

  /** Undo right after a point restores everything but the selection, which ends cleared. */
  lemma UndoInvertsAddPoint(st: GameState, p: Player, z: CourtZone, shot: ShotType, duration: nat, now: Timestamp)
    requires !IsOver(st)
    ensures UndoStep(AddPointStep(st, p, z, shot, duration, now)) == st.(selectedPlayer := None)
  {
    var r := AddPointStep(st, p, z, shot, duration, now);
    assert r.points[..|r.points| - 1] == st.points;
    assert r.previousServers[..|r.previousServers| - 1] == st.previousServers;
  }

  lemma ResetEffect(st: GameState)
    ensures var r := ResetStep(st);
      && r.player1Score == 0 && r.player2Score == 0
      && r.points == [] && r.previousServers == [] && r.selectedPlayer == None
      && r.currentServer == st.startingServer && r.startingServer == st.startingServer
  {
  }

  /** In a consistent state each score is the number of points its player won. */
  lemma ScoreIsPointsWon(st: GameState, p: Player)
    requires Consistent(st)
    ensures ScoreOf(st, p) == |PointsWon(st.points, p)|
    ensures ScoreOf(st, p) >= 0
  {
  }

  /** In a consistent state the last logged point carries the live score. */
  lemma LastPointCarriesLiveScore(st: GameState)
    requires Consistent(st) && st.points != []
    ensures st.points[|st.points| - 1].player1Score == st.player1Score
    ensures st.points[|st.points| - 1].player2Score == st.player2Score
  {
    var n := |st.points|;
    assert SnapshotAt(st.points, n - 1);
    CountWhole(st.points, Player1);
    CountWhole(st.points, Player2);
  }

  /**
   * A game played through the methods ends on its last point: the scorer of
   * that point is the winner, who has either exactly 11 against at most 9
   * or exactly a two-point lead.
   */
  lemma {:induction false} FinishedGameEndsOnLastPoint(st: GameState)
    requires Consistent(st) && IsOver(st)
    ensures st.points != []
    ensures var w := st.points[|st.points| - 1].scorer;
      && GameWinner(st.player1Score, st.player2Score) == Some(w)
      && ((ScoreOf(st, w) == 11 && ScoreOf(st, Opponent(w)) <= 9) ||
          ScoreOf(st, w) == ScoreOf(st, Opponent(w)) + 2)
  {
    var n := |st.points|;
    var last := st.points[n - 1];
    var prefix := st.points[..n - 1];
    assert st.points == prefix + [last];
    LogPop(prefix, last);
    assert LiveAt(st.points, n - 1);
    CountWhole(prefix, Player1);
    CountWhole(prefix, Player2);
    CountBeforeSnoc(prefix, last, n - 1, Player1);
    CountBeforeSnoc(prefix, last, n - 1, Player2);
  }

  // ---------------------------------------------------------------------
  // The live object
  // ---------------------------------------------------------------------

  class Game {
    var player1Name: string
    var player2Name: string
    var player1Score: int
    var player2Score: int
    var currentServer: Player
    var startingServer: Player
    /** All points of this game, in the order they were scored. */
    var points: seq<Point>
    /** The lets of this game; none of the methods below touches them. */
    var lets: seq<Let>
    var selectedPlayer: Option<Player>
    /** The server before each logged point, for undo. */
    var previousServers: seq<Player>

    function State(): GameState
      reads this
    {
      GameState(player1Score, player2Score, currentServer, startingServer, points, previousServers, selectedPlayer)
    }

    ghost predicate Valid()
      reads this
    {
      Consistent(State())
    }

    constructor ()
      ensures player1Name == "Speler 1" && player2Name == "Speler 2"
      ensures State() == NewGameState(Player1) && lets == []
      ensures Valid()
    {
      player1Name := "Speler 1";
      player2Name := "Speler 2";
      player1Score := 0;
      player2Score := 0;
      currentServer := Player1;
      startingServer := Player1;
      points := [];
      lets := [];
      selectedPlayer := None;
      previousServers := [];
      NewGameConsistent(Player1);
    }

    function IsGameOver(): bool
      reads this
    {
      GameOver(player1Score, player2Score)
    }

    function Winner(): Option<Player>
      reads this
    {
      GameWinner(player1Score, player2Score)
    }

    function Score(p: Player): int
      reads this
    {
      ScoreOf(State(), p)
    }

    method SelectPlayer(p: Player)
      modifies this`selectedPlayer
      ensures State() == SelectPlayerStep(old(State()), p)
      ensures old(Valid()) ==> Valid()
    {
      if IsGameOver() {
        return;
      }
      selectedPlayer := Some(p);
    }

    method ClearSelection()
      modifies this`selectedPlayer
      ensures State() == ClearSelectionStep(old(State()))
      ensures old(Valid()) ==> Valid()
    {
      selectedPlayer := None;
    }

    /** Scores a rally for `player`; `duration` and `now` are the rally length and the clock reading. */
    method AddPoint(player: Player, zone: CourtZone, shotType: ShotType, duration: nat, now: Timestamp)
      modifies this`player1Score, this`player2Score, this`currentServer, this`points,
               this`previousServers, this`selectedPlayer
      ensures State() == AddPointStep(old(State()), player, zone, shotType, duration, now)
      ensures old(Valid()) ==> Valid()
    {
      ghost var before := State();
      if IsGameOver() {
        return;
      }
      previousServers := previousServers + [currentServer];
      match player {
        case Player1 => player1Score := player1Score + 1;
        case Player2 => player2Score := player2Score + 1;
      }
      var point := Point(player, zone, shotType, currentServer, player1Score, player2Score, now, duration);
      points := points + [point];
      if player != currentServer {
        currentServer := player;
      }
      selectedPlayer := None;
      if Consistent(before) {
        AddPointKeepsConsistent(before, player, zone, shotType, duration, now);
      }
    }

    /** The legacy overload without a location: scores in the middle-left zone. */
    method AddPointWithoutZone(player: Player, shotType: ShotType, duration: nat, now: Timestamp)
      modifies this`player1Score, this`player2Score, this`currentServer, this`points,
               this`previousServers, this`selectedPlayer
      ensures State() == AddPointStep(old(State()), player, MiddleLeft, shotType, duration, now)
      ensures old(Valid()) ==> Valid()
    {
      AddPoint(player, MiddleLeft, shotType, duration, now);
    }

    method UndoLastPoint()
      modifies this`player1Score, this`player2Score, this`currentServer, this`points,
               this`previousServers, this`selectedPlayer
      ensures State() == UndoStep(old(State()))
      ensures old(Valid()) ==> Valid()
    {
      ghost var before := State();
      if points == [] {
        return;
      }
      var lastPoint := points[|points| - 1];
      points := points[..|points| - 1];
      match lastPoint.scorer {
        case Player1 => player1Score := player1Score - 1;
        case Player2 => player2Score := player2Score - 1;
      }
      if previousServers != [] {
        var previousServer := previousServers[|previousServers| - 1];
        previousServers := previousServers[..|previousServers| - 1];
        currentServer := previousServer;
      }
      selectedPlayer := None;
      if Consistent(before) {
        UndoKeepsConsistent(before);
      }
    }

    method Reset()
      modifies this`player1Score, this`player2Score, this`currentServer, this`points,
               this`previousServers, this`selectedPlayer
      ensures State() == ResetStep(old(State()))
      ensures Valid()
    {
      player1Score := 0;
      player2Score := 0;
      currentServer := startingServer;
      points := [];
      previousServers := [];
      selectedPlayer := None;
      NewGameConsistent(startingServer);
    }

    method SetStartingServer(p: Player)
      modifies this`startingServer, this`currentServer
      ensures State() == SetStartingServerStep(old(State()), p)
      ensures old(Valid()) ==> Valid()
    {
      startingServer := p;
      currentServer := p;
    }
  }
}
