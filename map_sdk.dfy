/** The map SDK's marker, seen as a plain record. */
module MapSdk {
  import opened Wrappers
  import opened Entities
  import opened IslamicMarker

  /** A map position built from a latitude and a longitude. */
  datatype Position = Position(latitude: real, longitude: real)

  /** An image view; its image source is the file it was loaded from, or
      None when no source was assigned. */
  datatype Image = Image(imageSource: Option<string>)

  /** What a marker carries as `userData`. */
  datatype UserData =
    | Fields(id: int, title: Option<string>, address: Option<string>, gps: GPSInfo)
    | Islamic(islamicId: int, islamicTitle: string, islamicAddress: string, gpsInfo: GPSInfo)
    | MemberData(member: TeamMember)
    | SponsorData(sponsor: Sponsor)
    | InfoData(info: MarkerInfo)

  /** A marker; every field is unset (None) on a fresh marker. */
  datatype Marker = Marker(
    position: Option<Position>,
    title: Option<string>,
    snippet: Option<string>,
    infoWindowTemplate: Option<string>,
    userData: Option<UserData>,
    icon: Option<Image>)

  /** `new Marker()`. */
  const NewMarker: Marker := Marker(None, None, None, None, None, None)

  /** `Position.positionFromLatLng(gps.latitude, gps.longitude)`. */
  function PositionOf(gps: GPSInfo): Position
  {
    Position(gps.latitude, gps.longitude)
  }
}
