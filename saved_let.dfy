/**
 * The persisted let record (SavedLet.swift): who asked for the let and who
 * served, as raw strings, next to a 1-based let number, both scores and the
 * time of the call.
 */
module SavedLets {
  import opened Wrappers
  import opened Players
  import opened Rallies

  datatype SavedLet = SavedLet(
    letNumber: int,
    requestedBy: string,
    server: string,
    player1Score: int,
    player2Score: int,
    timestamp: Timestamp)

  /** `requestedByPlayer`: an unknown string decodes to player 1. */
  function RequestedByPlayer(sl: SavedLet): (p: Player)
    ensures p == Player2 <==> sl.requestedBy == Raw(Player2)
  {
    DecodeOrPlayer1(sl.requestedBy)
  }

  /** `serverPlayer`: an unknown string decodes to player 1. */
  function ServerPlayer(sl: SavedLet): (p: Player)
    ensures p == Player2 <==> sl.server == Raw(Player2)
  {
    DecodeOrPlayer1(sl.server)
  }

  /** The record's `init`: players stored by raw value and decoded back; numbers stored verbatim. */
  function Make(letNumber: int, requestedBy: Player, server: Player,
                player1Score: int, player2Score: int, timestamp: Timestamp): (sl: SavedLet)
    ensures RequestedByPlayer(sl) == requestedBy && ServerPlayer(sl) == server
    ensures sl.letNumber == letNumber && sl.timestamp == timestamp
    ensures sl.player1Score == player1Score && sl.player2Score == player2Score
  {
    RawInjective(requestedBy, Player2);
    RawInjective(server, Player2);
    SavedLet(letNumber, Raw(requestedBy), Raw(server), player1Score, player2Score, timestamp)
  }

  /** `from(_:letNumber:)`: numbers the let and keeps everything else. */
  function From(l: Let, letNumber: int): (sl: SavedLet)
    ensures sl.letNumber == letNumber
    ensures RequestedByPlayer(sl) == l.requestedBy && ServerPlayer(sl) == l.server
    ensures sl.player1Score == l.player1Score && sl.player2Score == l.player2Score
    ensures sl.timestamp == l.timestamp
  {
    Make(letNumber, l.requestedBy, l.server, l.player1Score, l.player2Score, l.timestamp)
  }

  /** Unknown player strings decode to player 1. */
  lemma DecoderFallbacks(sl: SavedLet)
    requires FromRaw(sl.requestedBy) == None && FromRaw(sl.server) == None
    ensures RequestedByPlayer(sl) == Player1 && ServerPlayer(sl) == Player1
  {
  }
}
