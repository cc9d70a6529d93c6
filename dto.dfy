/**
 * The stored and exchanged records of pkg/dto: users, zones, their GeoJSON location,
 * the per-state COVID-19 figures, and the list query parameters.
 *
 * A stored document and the in-memory struct share one datatype. Fields tagged
 * `bson:"-"` (a user's and a zone's Lat/Long, a zone's UsersWithin and
 * IsCapacityExceeded) are not persisted: reading a document back yields zero for them
 * (LoadUser, LoadZone), and Lat/Long are then recomputed from Location.
 */
module Dto {
  import opened Wrappers

  /** A GeoJSON position: x is the longitude, y the latitude (section 3.1.1 of RFC 7946). */
  datatype Point = Point(x: real, y: real)

  /** `dto.Location`: a GeoJSON geometry; the core only ever writes `Point` geometries. */
  datatype Location = Location(kind: string, coordinates: seq<real>)

  /**
   * The union of the user fields the core reads or writes: pkg/dto/user.go declares
   * ID..Name, the DAOs and handlers also use Zones, IC, PhoneNumber, Infected, Consent, Alert.
   * `users` is the contact history, `zones` the visited-zone history.
   */
  datatype User = User(
    id: string, role: string, name: string, email: string, password: string,
    lastUpdated: int, lat: real, long: real, location: Option<Location>, time: int,
    users: seq<User>, zones: seq<Zone>, isActive: bool,
    ic: string, phoneNumber: string, infected: int, consent: int, alert: bool)

  /** `dto.Zone`; `users` is the visitor history. */
  datatype Zone = Zone(
    id: string, name: string, lat: real, long: real, kind: int, capacity: int,
    radius: real, location: Option<Location>, usersWithin: int, isCapacityExceeded: bool,
    time: int, risk: int, users: seq<User>)

  /** The zero value `&dto.User{}`. */
  function EmptyUser(): User
  {
    User("", "", "", "", "", 0, 0.0, 0.0, None, 0, [], [], false, "", "", 0, 0, false)
  }

  /** The zero value `&dto.Zone{}`. */
  function EmptyZone(): Zone
  {
    Zone("", "", 0.0, 0.0, 0, 0, 0.0, None, 0, false, 0, 0, [])
  }

  /** The key of a history entry: its ID. */
  function UserKey(u: User): string { u.id }
  function ZoneKey(z: Zone): string { z.id }

  /** `&dto.Location{Type: "Point", Coordinates: []float64{long, lat}}` as written by UserDAO.Create and Update. */
  function EncodeLocation(lat: real, long: real): (l: Location)
    ensures l.kind == "Point" && |l.coordinates| == 2
    ensures l.coordinates[0] == long && l.coordinates[1] == lat
  {
    Location("Point", [long, lat])
  }

  /**
   * The point a location stands for; None exactly when the location is nil or its
   * coordinate list does not have length 2, the test every geo operation makes first.
   */
  function PointOf(loc: Option<Location>): (p: Option<Point>)
    ensures p.Some? <==> loc.Some? && |loc.value.coordinates| == 2
    ensures p.Some? ==> p.value == Point(loc.value.coordinates[0], loc.value.coordinates[1])
  {
    if loc.Some? && |loc.value.coordinates| == 2 then Some(Point(loc.value.coordinates[0], loc.value.coordinates[1]))
    else None
  }

  /** Reading a user document: Lat/Long are not stored and are decoded as Long = [0], Lat = [1] when the location is valid. */
  function LoadUser(doc: User): (u: User)
    ensures u.(lat := doc.lat, long := doc.long) == doc
    ensures PointOf(doc.location).Some? ==> u.long == doc.location.value.coordinates[0] && u.lat == doc.location.value.coordinates[1]
    ensures PointOf(doc.location).None? ==> u.lat == 0.0 && u.long == 0.0
  {
    match PointOf(doc.location)
    case Some(p) => doc.(lat := p.y, long := p.x)
    case None => doc.(lat := 0.0, long := 0.0)
  }

  /** Decoding a zone document: the four `bson:"-"` fields read as zero values. */
  function LoadZone(doc: Zone): (z: Zone)
    ensures z.(lat := doc.lat, long := doc.long, usersWithin := doc.usersWithin, isCapacityExceeded := doc.isCapacityExceeded) == doc
    ensures z.lat == 0.0 && z.long == 0.0 && z.usersWithin == 0 && !z.isCapacityExceeded
  {
    doc.(lat := 0.0, long := 0.0, usersWithin := 0, isCapacityExceeded := false)
  }

  /** Lat/Long set from a valid location (Long = [0], Lat = [1]); an invalid location leaves them as they are. */
  function WithCoordinates(z: Zone): (r: Zone)
    ensures r.(lat := z.lat, long := z.long) == z
    ensures PointOf(z.location).Some? ==> r.long == z.location.value.coordinates[0] && r.lat == z.location.value.coordinates[1]
    ensures PointOf(z.location).None? ==> r == z
  {
    match PointOf(z.location)
    case Some(p) => z.(lat := p.y, long := p.x)
    case None => z
  }

  /** A write then a read of a user's coordinates gives them back (UserDAO.Create/Update then Get). */
  lemma LocationRoundTrip(u: User)
    ensures PointOf(Some(EncodeLocation(u.lat, u.long))) == Some(Point(u.long, u.lat))
    ensures LoadUser(u.(location := Some(EncodeLocation(u.lat, u.long)))) == u.(location := Some(EncodeLocation(u.lat, u.long)))
  {
  }

  /** One state's figures: its name, its total and its districts. */
  datatype District = District(name: string, total: int)
  datatype State = State(name: string, total: int, districts: seq<District>)
  datatype Daily = Daily(states: seq<State>)

  /** List query parameters of the admin endpoints (`dto.SortData`, `dto.RangeData`, `dto.FilterData`). */
  datatype SortData = SortData(item: string, order: string)
  datatype RangeData = RangeData(from: int, to: int)
  datatype FilterData = FilterData(item: string, value: string)
}
