/** The two rally records: Point (Point.swift) and Let (Let.swift). */
module Rallies {
  import opened Players
  import opened CourtZones
  import opened ShotTypes

  /** A clock reading, taken as an opaque parameter wherever the app calls `Date()`. */
  type Timestamp = int

  /**
   * One scored rally: who won it, where and with which shot, who served,
   * both scores right after it, when it was recorded and how long it lasted
   * (in milliseconds).
   */
  datatype Point = Point(
    scorer: Player,
    zone: CourtZone,
    shotType: ShotType,
    server: Player,
    player1Score: int,
    player2Score: int,
    timestamp: Timestamp,
    duration: nat)

  /** One replayed rally: who asked for it, who served, both scores at the time. */
  datatype Let = Let(
    requestedBy: Player,
    server: Player,
    timestamp: Timestamp,
    player1Score: int,
    player2Score: int)
}
