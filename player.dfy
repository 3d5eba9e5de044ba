/** The two players of a game (the `Player` enum of Game.swift). */
module Players {
  import opened Wrappers

  datatype Player = Player1 | Player2

  /** The enum's raw value, which the persistence records store. */
  function Raw(p: Player): string {
    match p
    case Player1 => "Speler 1"
    case Player2 => "Speler 2"
  }

  function ShortName(p: Player): (s: string)
    ensures |s| == 2
  {
    match p
    case Player1 => "S1"
    case Player2 => "S2"
  }

  /** The other player. */
  function Opponent(p: Player): (q: Player)
    ensures q != p
  {
    match p
    case Player1 => Player2
    case Player2 => Player1
  }

  /** `Player(rawValue:)`: defined exactly on the two raw values. */
  function FromRaw(s: string): (r: Option<Player>)
    ensures forall p :: r == Some(p) <==> s == Raw(p)
  {
    if s == "Speler 1" then Some(Player1)
    else if s == "Speler 2" then Some(Player2)
    else None
  }

  /** `Player(rawValue: s) ?? .player1`, the decoder every record uses. */
  function DecodeOrPlayer1(s: string): (p: Player)
    ensures p == Player2 <==> s == Raw(Player2)
  {
    FromRaw(s).GetOr(Player1)
  }

  lemma OpponentInvolution(p: Player)
    ensures Opponent(Opponent(p)) == p
    ensures p != Opponent(p)
  {
  }

  lemma RawInjective(p: Player, q: Player)
    ensures Raw(p) == Raw(q) <==> p == q
  {
  }

  lemma ShortNamesDistinct()
    ensures ShortName(Player1) != ShortName(Player2)
  {
  }
}
