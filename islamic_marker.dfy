/** The marker categories and the point-of-interest record that the map
    services switch on. */
module IslamicMarker {
  import opened Wrappers
  import Entities

  /** The categories of a map marker. */
  datatype MarkerType = Kaaba | Mosque | Mussala | Muslin | Sponsor | Team | Pointer

  /** The number each category stands for in records and `switch` cases. */
  function Ordinal(t: MarkerType): (n: int)
    ensures n > 0
  {
    match t
    case Kaaba => 1
    case Mosque => 10
    case Mussala => 15
    case Muslin => 40
    case Sponsor => 50
    case Team => 60
    case Pointer => 1000
  }

  /** The category a number stands for, if any: the inverse of Ordinal. */
  function FromOrdinal(n: int): (r: Option<MarkerType>)
    ensures r.Some? ==> Ordinal(r.value) == n
    ensures r.None? ==> forall t :: Ordinal(t) != n
  {
    if n == 1 then Some(Kaaba)
    else if n == 10 then Some(Mosque)
    else if n == 15 then Some(Mussala)
    else if n == 40 then Some(Muslin)
    else if n == 50 then Some(Sponsor)
    else if n == 60 then Some(Team)
    else if n == 1000 then Some(Pointer)
    else None
  }

  /** Distinct categories have distinct numbers, so a `switch` on a
      number selects at most one category's case. */
  lemma OrdinalInjective(a: MarkerType, b: MarkerType)
    ensures Ordinal(a) == Ordinal(b) ==> a == b
  {
  }

  /** FromOrdinal undoes Ordinal. */
  lemma FromOrdinalRoundTrip(t: MarkerType)
    ensures FromOrdinal(Ordinal(t)) == Some(t)
  {
  }

  /** The numbers that select the bundled prayer-site icon. */
  predicate IsPlaceOrdinal(n: int)
  {
    n == Ordinal(Kaaba) || n == Ordinal(Mosque) || n == Ordinal(Mussala)
  }

  /** The name of the info-window template every marker uses. */
  const IslamicMarkerTemplate: string := "IslamicMarkerTemplate"

  /** The bundled icon for prayer sites. */
  const QuiblaIconFile: string := "~/assets/images/mussala-maps/quipla.png"

  /** A point of interest as declared by the MarkerInfo interface.
      A record whose JSON has no type is represented with type 0. */
  datatype MarkerInfo = MarkerInfo(
    description: string,
    title: string,
    id: int,
    address: string,
    markerType: int,
    gps: Entities.GPSInfo)
}
