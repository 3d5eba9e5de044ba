/** The six court zones (CourtZone.swift) and the position classifier. */
module CourtZones {
  import opened Wrappers
  import opened Seqs

  /** Declaration order matters: it is `allCases` and fixes every tie-break. */
  datatype CourtZone = FrontLeft | FrontRight | MiddleLeft | MiddleRight | BackLeft | BackRight

  datatype Row = Front | Middle | Back
  datatype Column = Left | Right

  /** `CourtZone.allCases`. */
  function AllZones(): (r: seq<CourtZone>)
    ensures |r| == 6
    ensures forall z :: ZoneIndex(z) < 6 && r[ZoneIndex(z)] == z
    ensures forall i :: 0 <= i < 6 ==> ZoneIndex(r[i]) == i
  {
    [FrontLeft, FrontRight, MiddleLeft, MiddleRight, BackLeft, BackRight]
  }

  /** The position of a zone in declaration order. */
  function ZoneIndex(z: CourtZone): (i: nat)
    ensures i < 6
  {
    match z
    case FrontLeft => 0
    case FrontRight => 1
    case MiddleLeft => 2
    case MiddleRight => 3
    case BackLeft => 4
    case BackRight => 5
  }

  function ZoneRow(z: CourtZone): Row {
    match z
    case FrontLeft | FrontRight => Front
    case MiddleLeft | MiddleRight => Middle
    case BackLeft | BackRight => Back
  }

  function ZoneColumn(z: CourtZone): Column {
    match z
    case FrontLeft | MiddleLeft | BackLeft => Left
    case FrontRight | MiddleRight | BackRight => Right
  }

  /** The raw value, stored by the persistence records. */
  function Raw(z: CourtZone): string {
    match z
    case FrontLeft => "Voor Links"
    case FrontRight => "Voor Rechts"
    case MiddleLeft => "Midden Links"
    case MiddleRight => "Midden Rechts"
    case BackLeft => "Achter Links"
    case BackRight => "Achter Rechts"
  }

  function ShortName(z: CourtZone): (s: string)
    ensures |s| == 2
  {
    match z
    case FrontLeft => "VL"
    case FrontRight => "VR"
    case MiddleLeft => "ML"
    case MiddleRight => "MR"
    case BackLeft => "AL"
    case BackRight => "AR"
  }

  /** `CourtZone(rawValue:)`: defined exactly on the six raw values. */
  function FromRaw(s: string): (r: Option<CourtZone>)
    ensures forall z :: r == Some(z) <==> s == Raw(z)
  {
    if s == "Voor Links" then Some(FrontLeft)
    else if s == "Voor Rechts" then Some(FrontRight)
    else if s == "Midden Links" then Some(MiddleLeft)
    else if s == "Midden Rechts" then Some(MiddleRight)
    else if s == "Achter Links" then Some(BackLeft)
    else if s == "Achter Rechts" then Some(BackRight)
    else None
  }

  /**
   * `CourtZone.from(x:y:)` on a normalised position (y = 0 is the front
   * wall). No clamping: every pair of reals gets exactly one zone, its
   * column from x alone and its row from y alone.
   */
  function From(x: real, y: real): (z: CourtZone)
    ensures ZoneColumn(z) == Left <==> x < 0.5
    ensures ZoneRow(z) == Front <==> y < 0.33
    ensures ZoneRow(z) == Middle <==> 0.33 <= y < 0.66
    ensures ZoneRow(z) == Back <==> 0.66 <= y
  {
    var isLeft := x < 0.5;
    if y < 0.33 then
      (if isLeft then FrontLeft else FrontRight)
    else if y < 0.66 then
      (if isLeft then MiddleLeft else MiddleRight)
    else
      (if isLeft then BackLeft else BackRight)
  }

  /** A zone is determined by its row and column, so From's contract pins its result. */
  lemma RowAndColumnDetermineZone(a: CourtZone, b: CourtZone)
    ensures ZoneRow(a) == ZoneRow(b) && ZoneColumn(a) == ZoneColumn(b) <==> a == b
  {
  }

  /** The strict comparisons put each boundary value in the upper bucket. */
  lemma ClassifierBoundaries()
    ensures From(0.1, 0.1) == FrontLeft
    ensures From(0.99, 0.99) == BackRight
    ensures From(0.5, 0.1) == FrontRight
    ensures From(0.1, 0.33) == MiddleLeft
    ensures From(0.1, 0.66) == BackLeft
    ensures From(0.33, 0.33) == MiddleLeft
    ensures From(-1.0, 2.0) == BackLeft
  {
  }

  lemma ShortNamesDistinct(a: CourtZone, b: CourtZone)
    ensures ShortName(a) == ShortName(b) <==> a == b
  {
  }

  lemma RawRoundTrip(z: CourtZone)
    ensures FromRaw(Raw(z)) == Some(z)
  {
  }

  lemma AllZonesEnumerates()
    ensures Enumerates(AllZones())
  {
    var all := AllZones();
    forall i, j | 0 <= i < j < 6 ensures all[i] != all[j] {
      assert ZoneIndex(all[i]) != ZoneIndex(all[j]);
    }
    forall z ensures z in all {
      assert all[ZoneIndex(z)] == z;
    }
  }
}
