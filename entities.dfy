/** The application's entity records that the core reads: positions,
    sponsors and team members. Only the fields the core reads are kept. */
module Entities {
  import opened Wrappers

  /** A published position. Coordinates are opaque reals: the model makes
      no numeric claim about them beyond equality and "is zero". */
  datatype GPSInfo = GPSInfo(
    latitude: real,
    longitude: real,
    elevation: Option<real>,
    direction: Option<real>)

  /** A project sponsor as loaded from the settings. */
  datatype Sponsor = Sponsor(
    id: int,
    name: Option<string>,
    description: Option<string>,
    logo: Option<string>,
    gps: Option<GPSInfo>)

  /** A member of the project team as loaded from the settings. */
  datatype TeamMember = TeamMember(
    id: int,
    name: Option<string>,
    role: Option<string>,
    photo: Option<string>,
    gps: Option<GPSInfo>)

  /** JavaScript's `gps && gps.latitude`: a position is present and its
      latitude is not zero. */
  predicate HasLatitude(gps: Option<GPSInfo>)
  {
    gps.Some? && gps.value.latitude != 0.0
  }
}
