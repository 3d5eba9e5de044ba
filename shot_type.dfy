/** The six shot tags (ShotType.swift) and their display metadata. */
module ShotTypes {
  import opened Wrappers

  /** Declaration order matters: it is `allCases` and fixes the mostEffectiveShot tie-break. */
  datatype ShotType = Drive | Cross | Volley | Drop | Lob | Boast

  /** `ShotType.allCases`. */
  function AllShots(): (r: seq<ShotType>)
    ensures |r| == 6
    ensures forall t :: ShotIndex(t) < 6 && r[ShotIndex(t)] == t
    ensures forall i :: 0 <= i < 6 ==> ShotIndex(r[i]) == i
  {
    [Drive, Cross, Volley, Drop, Lob, Boast]
  }

  /** The position of a shot type in declaration order. */
  function ShotIndex(t: ShotType): nat {
    match t
    case Drive => 0
    case Cross => 1
    case Volley => 2
    case Drop => 3
    case Lob => 4
    case Boast => 5
  }

  function Raw(t: ShotType): string {
    match t
    case Drive => "Drive"
    case Cross => "Cross"
    case Volley => "Volley"
    case Drop => "Drop"
    case Lob => "Lob"
    case Boast => "Boast"
  }

  function ShortName(t: ShotType): (s: string)
    ensures |s| == 3
  {
    match t
    case Drive => "DRV"
    case Cross => "CRS"
    case Volley => "VLY"
    case Drop => "DRP"
    case Lob => "LOB"
    case Boast => "BST"
  }

  function Icon(t: ShotType): string {
    match t
    case Drive => "arrow.right"
    case Cross => "arrow.left.and.right"
    case Volley => "bolt.fill"
    case Drop => "arrow.down.to.line"
    case Lob => "arrow.up.forward"
    case Boast => "arrow.turn.up.right"
  }

  function Description(t: ShotType): string {
    match t
    case Drive => "Rechte slag langs de muur"
    case Cross => "Diagonale slag"
    case Volley => "Slag uit de lucht"
    case Drop => "Korte bal naar de voorkant"
    case Lob => "Hoge bal naar achteren"
    case Boast => "Slag via de zijmuur"
  }

  /** `ShotType(rawValue:)`: defined exactly on the six raw values. */
  function FromRaw(s: string): (r: Option<ShotType>)
    ensures forall t :: r == Some(t) <==> s == Raw(t)
  {
    if s == "Drive" then Some(Drive)
    else if s == "Cross" then Some(Cross)
    else if s == "Volley" then Some(Volley)
    else if s == "Drop" then Some(Drop)
    else if s == "Lob" then Some(Lob)
    else if s == "Boast" then Some(Boast)
    else None
  }

  /** `ShotType(rawValue: s) ?? .drive`. */
  function DecodeOrDrive(s: string): (t: ShotType)
    ensures t == Drive <==> (s == Raw(Drive) || FromRaw(s) == None)
    ensures t != Drive ==> s == Raw(t)
  {
    FromRaw(s).GetOr(Drive)
  }

  lemma MetadataDistinct(a: ShotType, b: ShotType)
    ensures ShortName(a) == ShortName(b) <==> a == b
    ensures Icon(a) == Icon(b) <==> a == b
    ensures Description(a) == Description(b) <==> a == b
    ensures Raw(a) == Raw(b) <==> a == b
  {
  }

  lemma RawRoundTrip(t: ShotType)
    ensures FromRaw(Raw(t)) == Some(t)
  {
  }
}
