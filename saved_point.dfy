/**
 * The persisted point record (SavedPoint.swift): a point's enums are kept
 * as their raw strings next to a 1-based point number, both scores and the
 * time the point was recorded.
 */
module SavedPoints {
  import opened Wrappers
  import opened Players
  import CourtZones
  import ShotTypes
  import opened Rallies

  datatype SavedPoint = SavedPoint(
    pointNumber: int,
    scorer: string,
    zone: string,
    shotType: string,
    server: string,
    player1Score: int,
    player2Score: int,
    timestamp: Timestamp)

  /** `scorerPlayer`: an unknown string decodes to player 1. */
  function ScorerPlayer(sp: SavedPoint): (p: Player)
    ensures p == Player2 <==> sp.scorer == Raw(Player2)
  {
    DecodeOrPlayer1(sp.scorer)
  }

  /**
   * `pointZone`. The app falls back to a zone that CourtZone does not
   * declare, so decoding is partial here: defined exactly on the six raw
   * values.
   */
  function PointZone(sp: SavedPoint): (r: Option<CourtZones.CourtZone>)
    ensures forall z :: r == Some(z) <==> sp.zone == CourtZones.Raw(z)
  {
    CourtZones.FromRaw(sp.zone)
  }

  /** `pointShotType`: an unknown string decodes to a drive. */
  function PointShotType(sp: SavedPoint): (t: ShotTypes.ShotType)
    ensures t == ShotTypes.Drive <==> sp.shotType == ShotTypes.Raw(ShotTypes.Drive) || ShotTypes.FromRaw(sp.shotType) == None
    ensures t != ShotTypes.Drive ==> sp.shotType == ShotTypes.Raw(t)
  {
    ShotTypes.DecodeOrDrive(sp.shotType)
  }

  /** `serverPlayer`: an unknown string decodes to player 1. */
  function ServerPlayer(sp: SavedPoint): (p: Player)
    ensures p == Player2 <==> sp.server == Raw(Player2)
  {
    DecodeOrPlayer1(sp.server)
  }

  /**
   * The record's `init`: the enums are stored by raw value, and the four
   * decoders give the originals back; the numbers are stored verbatim.
   */
  function Make(pointNumber: int, scorer: Player, zone: CourtZones.CourtZone, shotType: ShotTypes.ShotType,
                server: Player, player1Score: int, player2Score: int, timestamp: Timestamp): (sp: SavedPoint)
    ensures ScorerPlayer(sp) == scorer && ServerPlayer(sp) == server
    ensures PointZone(sp) == Some(zone) && PointShotType(sp) == shotType
    ensures sp.pointNumber == pointNumber && sp.timestamp == timestamp
    ensures sp.player1Score == player1Score && sp.player2Score == player2Score
  {
    RawInjective(scorer, Player2);
    RawInjective(server, Player2);
    CourtZones.RawRoundTrip(zone);
    ShotTypes.RawRoundTrip(shotType);
    SavedPoint(pointNumber, Raw(scorer), CourtZones.Raw(zone), ShotTypes.Raw(shotType), Raw(server),
               player1Score, player2Score, timestamp)
  }

  /**
   * `from(_:pointNumber:)`: numbers the point, keeps its scores and time,
   * and stores scorer, zone, shot and server so that they decode back.
   */
  function From(pt: Point, pointNumber: int): (sp: SavedPoint)
    ensures sp.pointNumber == pointNumber
    ensures sp.player1Score == pt.player1Score && sp.player2Score == pt.player2Score
    ensures sp.timestamp == pt.timestamp
    ensures ScorerPlayer(sp) == pt.scorer && ServerPlayer(sp) == pt.server
    ensures PointZone(sp) == Some(pt.zone) && PointShotType(sp) == pt.shotType
  {
    Make(pointNumber, pt.scorer, pt.zone, pt.shotType, pt.server, pt.player1Score, pt.player2Score, pt.timestamp)
  }

  /** Unknown player strings decode to player 1 and unknown shot strings to a drive. */
  lemma DecoderFallbacks(sp: SavedPoint)
    requires FromRaw(sp.scorer) == None && FromRaw(sp.server) == None
    requires ShotTypes.FromRaw(sp.shotType) == None
    ensures ScorerPlayer(sp) == Player1 && ServerPlayer(sp) == Player1
    ensures PointShotType(sp) == ShotTypes.Drive
    ensures PointZone(sp) == None <==> CourtZones.FromRaw(sp.zone) == None
  {
  }
}
