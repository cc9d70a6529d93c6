/**
 * pkg/dao/zonedao.go: zone resolution for a user, occupancy and the derived fields
 * (UsersWithin, Risk, IsCapacityExceeded), the reciprocal visit histories, the 14-day
 * recent visitors of a zone, and the sort and paging of derived fields in Query.
 */
module ZoneDao {
  import opened Wrappers
  import opened Constants
  import opened Dto
  import opened Utility
  import opened History
  import opened Sorting
  import opened Database

  // ---------------------------------------------------------------------------
  // Geometry

  /** `$geoWithin: {$centerSphere: [centre, km / 6378.1]}`: a valid location within `km` of the centre. */
  predicate Within(distance: (Point, Point) -> real, centre: Point, loc: Option<Location>, km: real)
  {
    PointOf(loc).Some? && distance(centre, PointOf(loc).value) <= km
  }

  /** A larger radius selects at least the same points. */
  lemma WithinMonotone(distance: (Point, Point) -> real, centre: Point, loc: Option<Location>, small: real, large: real)
    requires small <= large && Within(distance, centre, loc, small)
    ensures Within(distance, centre, loc, large)
  {
  }

  // ---------------------------------------------------------------------------
  // Occupancy (GetUsersByZone)

  /** The occupant query: active, role "user", located within `km` of the centre. */
  predicate IsOccupant(u: User, centre: Point, km: real, distance: (Point, Point) -> real)
  {
    u.isActive && u.role == UserRole && Within(distance, centre, u.location, km)
  }

  /** The user documents the occupant query selects, in collection order. */
  function OccupantDocs(users: seq<User>, centre: Point, km: real, distance: (Point, Point) -> real): seq<User>
  {
    Filter(users, u => IsOccupant(u, centre, km, distance))
  }

  /** Decoding each document. */
  function LoadUsers(docs: seq<User>): (r: seq<User>)
    ensures |r| == |docs|
  {
    if docs == [] then [] else LoadUsers(docs[..|docs| - 1]) + [LoadUser(docs[|docs| - 1])]
  }

  lemma {:induction false} LoadUsersAt(docs: seq<User>, i: nat)
    requires i < |docs|
    ensures LoadUsers(docs)[i] == LoadUser(docs[i])
  {
    if i < |docs| - 1 {
      LoadUsersAt(docs[..|docs| - 1], i);
    }
  }

  function LoadZones(docs: seq<Zone>): (r: seq<Zone>)
    ensures |r| == |docs|
  {
    if docs == [] then [] else LoadZones(docs[..|docs| - 1]) + [LoadZone(docs[|docs| - 1])]
  }

  lemma {:induction false} LoadZonesAt(docs: seq<Zone>, i: nat)
    requires i < |docs|
    ensures LoadZones(docs)[i] == LoadZone(docs[i])
  {
    if i < |docs| - 1 {
      LoadZonesAt(docs[..|docs| - 1], i);
    }
  }

  /** What `GetUsersByZone` returns: no one for an invalid location, else the decoded occupants. */
  function Occupants(users: seq<User>, zone: Zone, distance: (Point, Point) -> real): seq<User>
  {
    match PointOf(zone.location)
    case None => []
    case Some(c) => LoadUsers(OccupantDocs(users, c, zone.radius, distance))
  }

  /** The zone's occupants include the user: some occupant carries the user's ID. */
  predicate Contains(zone: Zone, users: seq<User>, user: User, distance: (Point, Point) -> real)
  {
    UserInUsers(Occupants(users, zone, distance), user)
  }

  lemma ContainsOnlyOccupants(zone: Zone, users: seq<User>, user: User, distance: (Point, Point) -> real, c: Point)
    requires PointOf(zone.location) == Some(c) && Contains(zone, users, user, distance)
    ensures exists i :: 0 <= i < |users| && users[i].id == user.id && IsOccupant(users[i], c, zone.radius, distance)
  {
    var docs := OccupantDocs(users, c, zone.radius, distance);
    var occ := LoadUsers(docs);
    var k :| 0 <= k < |occ| && occ[k].id == user.id;
    LoadUsersAt(docs, k);
    var i :| 0 <= i < |users| && users[i] == docs[k];
    assert users[i].id == user.id && IsOccupant(users[i], c, zone.radius, distance);
  }

  lemma ContainsEveryOccupant(zone: Zone, users: seq<User>, user: User, distance: (Point, Point) -> real, c: Point, i: nat)
    requires PointOf(zone.location) == Some(c)
    requires i < |users| && users[i].id == user.id && IsOccupant(users[i], c, zone.radius, distance)
    ensures Contains(zone, users, user, distance)
  {
    var docs := OccupantDocs(users, c, zone.radius, distance);
    FilterComplete(users, u => IsOccupant(u, c, zone.radius, distance), users[i]);
    var k :| 0 <= k < |docs| && docs[k] == users[i];
    LoadUsersAt(docs, k);
    assert LoadUsers(docs)[k].id == user.id;
  }

  /**
   * The occupants are exactly the qualifying documents: a zone contains a user iff some
   * document with the user's ID is active, has role "user" and lies within the radius.
   */
  lemma ContainsMeaning(zone: Zone, users: seq<User>, user: User, distance: (Point, Point) -> real)
    ensures Contains(zone, users, user, distance) <==>
      PointOf(zone.location).Some? &&
      exists i :: 0 <= i < |users| && users[i].id == user.id && IsOccupant(users[i], PointOf(zone.location).value, zone.radius, distance)
  {
    match PointOf(zone.location)
    case None =>
    case Some(c) =>
      if Contains(zone, users, user, distance) {
        ContainsOnlyOccupants(zone, users, user, distance, c);
      }
      if i :| 0 <= i < |users| && users[i].id == user.id && IsOccupant(users[i], c, zone.radius, distance) {
        ContainsEveryOccupant(zone, users, user, distance, c, i);
      }
  }

  /** An account that is inactive, or whose role is not "user", is nobody's occupant. */
  lemma NonParticipantNeverContained(zone: Zone, users: seq<User>, user: User, distance: (Point, Point) -> real)
    requires forall i :: 0 <= i < |users| && users[i].id == user.id ==> !users[i].isActive || users[i].role != UserRole
    ensures !Contains(zone, users, user, distance)
  {
    ContainsMeaning(zone, users, user, distance);
  }

  /** The occupant query reads the profiles only, never the history lists. */
  lemma {:induction false} OccupantDocsSameProfiles(a: seq<User>, b: seq<User>, c: Point, km: real, distance: (Point, Point) -> real)
    requires SameProfiles(a, b)
    ensures SameProfiles(OccupantDocs(a, c, km, distance), OccupantDocs(b, c, km, distance))
  {
    if a != [] {
      var n := |a| - 1;
      assert SameProfiles(a[..n], b[..n]) by {
        forall i | 0 <= i < n ensures a[..n][i].(users := [], zones := []) == b[..n][i].(users := [], zones := []) {
          assert a[..n][i] == a[i] && b[..n][i] == b[i];
        }
      }
      OccupantDocsSameProfiles(a[..n], b[..n], c, km, distance);
      assert a[n].(users := [], zones := []) == b[n].(users := [], zones := []);
      assert IsOccupant(a[n], c, km, distance) == IsOccupant(b[n], c, km, distance);
    }
  }

  /** Hence occupancy is the same before and after any history write. */
  lemma OccupancySameProfiles(a: seq<User>, b: seq<User>, zone: Zone, user: User, distance: (Point, Point) -> real)
    requires SameProfiles(a, b)
    ensures |Occupants(a, zone, distance)| == |Occupants(b, zone, distance)|
    ensures Contains(zone, a, user, distance) == Contains(zone, b, user, distance)
  {
    match PointOf(zone.location)
    case None =>
    case Some(c) =>
      var da, db := OccupantDocs(a, c, zone.radius, distance), OccupantDocs(b, c, zone.radius, distance);
      OccupantDocsSameProfiles(a, b, c, zone.radius, distance);
      forall k | 0 <= k < |da| ensures LoadUsers(da)[k].id == LoadUsers(db)[k].id {
        LoadUsersAt(da, k);
        LoadUsersAt(db, k);
        assert da[k].(users := [], zones := []) == db[k].(users := [], zones := []);
      }
  }

  // ---------------------------------------------------------------------------
  // Derived fields

  /**
   * UsersWithin := n, Risk recomputed, and IsCapacityExceeded assigned `n > Capacity`
   * only at the maximum risk level (otherwise it keeps its value).
   */
  function WithDerived(z: Zone, n: int): Zone
  {
    var risk := GetZoneRisk(z.radius, z.capacity, n);
    z.(usersWithin := n, risk := risk,
       isCapacityExceeded := if risk == MaximumRisk then n > z.capacity else z.isCapacityExceeded)
  }

  /** A zone as Query and GetSubZones present it: decoded, coordinates set, derived fields set; a failed lookup counts 0. */
  function DerivedView(doc: Zone, users: seq<User>, distance: (Point, Point) -> real, lookupFailed: bool): Zone
  {
    var z := WithCoordinates(LoadZone(doc));
    WithDerived(z, if lookupFailed then 0 else |Occupants(users, z, distance)|)
  }

  /** A zone as Get presents it: a failed lookup returns early with UsersWithin 0 and the stored Risk. */
  function GetView(doc: Zone, users: seq<User>, distance: (Point, Point) -> real, lookupFailed: bool): Zone
  {
    var z := WithCoordinates(LoadZone(doc));
    if lookupFailed then z else WithDerived(z, |Occupants(users, z, distance)|)
  }

  /**
   * The derived fields of a presented zone: UsersWithin is the occupant count, Risk is
   * GetZoneRisk of it, and the capacity is exceeded exactly at the maximum level with
   * more occupants than capacity; every stored field is kept.
   */
  lemma DerivedFields(doc: Zone, users: seq<User>, distance: (Point, Point) -> real)
    ensures var v, n := DerivedView(doc, users, distance, false), |Occupants(users, doc, distance)|;
      v.usersWithin == n && v.risk == GetZoneRisk(doc.radius, doc.capacity, n) &&
      (v.isCapacityExceeded <==> v.risk == MaximumRisk && n > doc.capacity) &&
      v.(lat := doc.lat, long := doc.long, usersWithin := doc.usersWithin, isCapacityExceeded := doc.isCapacityExceeded, risk := doc.risk) == doc
    ensures GetView(doc, users, distance, false) == DerivedView(doc, users, distance, false)
  {
  }

  /**
   * A failed occupant lookup: Get keeps the stored Risk and reports no capacity excess,
   * while Query and GetSubZones recompute the Risk of an empty zone, the minimum level.
   */
  lemma FailedLookupViews(doc: Zone, users: seq<User>, distance: (Point, Point) -> real)
    ensures var g := GetView(doc, users, distance, true);
      g.usersWithin == 0 && g.risk == doc.risk && !g.isCapacityExceeded
    ensures var q := DerivedView(doc, users, distance, true);
      q.usersWithin == 0 && q.risk == MinimumRisk && !q.isCapacityExceeded
  {
    RiskOfEmptyZone(doc.radius, doc.capacity);
  }

  /** The presented zones of a cursor, one lookup outcome per zone. */
  function DerivedViews(docs: seq<Zone>, users: seq<User>, distance: (Point, Point) -> real, failed: seq<bool>): (r: seq<Zone>)
    requires |failed| == |docs|
    ensures |r| == |docs|
  {
    if docs == [] then []
    else
      var n := |docs| - 1;
      DerivedViews(docs[..n], users, distance, failed[..n]) + [DerivedView(docs[n], users, distance, failed[n])]
  }

  lemma {:induction false} DerivedViewsAt(docs: seq<Zone>, users: seq<User>, distance: (Point, Point) -> real, failed: seq<bool>, i: nat)
    requires |failed| == |docs| && i < |docs|
    ensures DerivedViews(docs, users, distance, failed)[i] == DerivedView(docs[i], users, distance, failed[i])
  {
    var n := |docs| - 1;
    var earlier := DerivedViews(docs[..n], users, distance, failed[..n]);
    assert DerivedViews(docs, users, distance, failed) == earlier + [DerivedView(docs[n], users, distance, failed[n])];
    if i < n {
      DerivedViewsAt(docs[..n], users, distance, failed[..n], i);
      assert docs[..n][i] == docs[i] && failed[..n][i] == failed[i];
    }
  }

  lemma DerivedViewSameProfiles(doc: Zone, a: seq<User>, b: seq<User>, user: User, distance: (Point, Point) -> real, lookupFailed: bool)
    requires SameProfiles(a, b)
    ensures DerivedView(doc, a, distance, lookupFailed) == DerivedView(doc, b, distance, lookupFailed)
    ensures Contains(doc, a, user, distance) == Contains(doc, b, user, distance)
  {
    OccupancySameProfiles(a, b, WithCoordinates(LoadZone(doc)), user, distance);
    OccupancySameProfiles(a, b, doc, user, distance);
  }

  // ---------------------------------------------------------------------------
  // Candidates

  /** `$nearSphere` with `$maxDistance: 100 * 1000` metres, `type == Zone`. */
  predicate IsNearbyZone(z: Zone, p: Point, distance: (Point, Point) -> real)
  {
    z.kind == ZoneKind && Within(distance, p, z.location, 100.0)
  }

  /** The distance of a zone from the point, the order `$nearSphere` returns. */
  function DistanceKey(z: Zone, p: Point, distance: (Point, Point) -> real): Key
  {
    match PointOf(z.location)
    case None => KReal(0.0)
    case Some(q) => KReal(distance(p, q))
  }

  /** The main-zone candidates of GetByUser, nearest first. */
  function NearbyZones(zones: seq<Zone>, p: Point, distance: (Point, Point) -> real): seq<Zone>
  {
    InsertionSort(Filter(zones, z => IsNearbyZone(z, p, distance)), z => DistanceKey(z, p, distance))
  }

  /** The candidates are the Zone-type documents within 100 km, ordered by increasing distance. */
  lemma NearbyZonesMeaning(zones: seq<Zone>, p: Point, distance: (Point, Point) -> real)
    ensures var c := NearbyZones(zones, p, distance);
      (forall z :: z in c <==> z in zones && z.kind == ZoneKind && Within(distance, p, z.location, 100.0)) &&
      multiset(c) == multiset(Filter(zones, z => IsNearbyZone(z, p, distance))) &&
      SortedBy(c, z => DistanceKey(z, p, distance))
  {
    var pred := z => IsNearbyZone(z, p, distance);
    var f := Filter(zones, pred);
    InsertionSortSorted(f, z => DistanceKey(z, p, distance));
    forall z ensures z in NearbyZones(zones, p, distance) <==> z in zones && IsNearbyZone(z, p, distance) {
      FilterComplete(zones, pred, z);
      assert z in NearbyZones(zones, p, distance) <==> z in multiset(f);
    }
  }

  /** `$geoWithin` the parent's circle, `type == SubZone`, in collection order. */
  predicate IsSubZoneOf(z: Zone, c: Point, km: real, distance: (Point, Point) -> real)
  {
    z.kind == SubZoneKind && Within(distance, c, z.location, km)
  }

  function SubZoneDocs(zones: seq<Zone>, parent: Zone, distance: (Point, Point) -> real): seq<Zone>
  {
    match PointOf(parent.location)
    case None => []
    case Some(c) => Filter(zones, z => IsSubZoneOf(z, c, parent.radius, distance))
  }

  /** The sub-zones are exactly the SubZone-type documents within the parent's radius. */
  lemma SubZoneDocsMeaning(zones: seq<Zone>, parent: Zone, distance: (Point, Point) -> real, z: Zone)
    ensures z in SubZoneDocs(zones, parent, distance) <==>
      PointOf(parent.location).Some? && z in zones && z.kind == SubZoneKind &&
      Within(distance, PointOf(parent.location).value, z.location, parent.radius)
  {
    match PointOf(parent.location)
    case None =>
    case Some(c) => FilterComplete(zones, z => IsSubZoneOf(z, c, parent.radius, distance), z);
  }

  /** The position of the first candidate that contains the user. */
  function FirstContaining(cands: seq<Zone>, users: seq<User>, user: User, distance: (Point, Point) -> real): Option<nat>
  {
    FirstWhere(cands, z => Contains(z, users, user, distance))
  }

  /** The first containing candidate is at k when k contains the user and no earlier one does. */
  lemma FirstContainingAt(cands: seq<Zone>, users: seq<User>, user: User, distance: (Point, Point) -> real, k: nat)
    requires k < |cands| && Contains(cands[k], users, user, distance)
    requires forall j :: 0 <= j < k ==> !Contains(cands[j], users, user, distance)
    ensures FirstContaining(cands, users, user, distance) == Some(k)
  {
  }

  /** No candidate contains the user: there is no first one. */
  lemma FirstContainingNone(cands: seq<Zone>, users: seq<User>, user: User, distance: (Point, Point) -> real)
    requires forall j :: 0 <= j < |cands| ==> !Contains(cands[j], users, user, distance)
    ensures FirstContaining(cands, users, user, distance) == None
  {
  }

  // ---------------------------------------------------------------------------
  // Recording visits

  /** The two collections together. */
  datatype Store = Store(users: seq<User>, zones: seq<Zone>)

  /**
   * updateZonesList then updateUsersList for a visit of `user` to the presented zone `z`:
   * the user's visited-zone list and the zone's visitor list are each reconciled with a
   * fresh snapshot. The zone list's pull is decided on the user's copy in memory, the
   * visitor list's on the zone document read just before.
   */
  function RecordVisit(s: Store, user: User, z: Zone, now: int): Store
  {
    var visited := VisitedZonesOf(s.users, user.id);
    var visitors := VisitorsOf(s.zones, z.id);
    Store(
      SetVisitedZones(s.users, user.id, Reconcile(visited, ZoneKey, ZoneInZones(user.zones, z), StoredZone(ZoneSnapshot(z, now)))),
      SetVisitors(s.zones, z.id, Reconcile(visitors, UserKey, UserInUsers(visitors, user), StoredUser(VisitorSnapshot(user, now)))))
  }

  /** Visits recorded one after the other. */
  function RecordVisits(s: Store, user: User, zs: seq<Zone>, now: int): Store
  {
    if zs == [] then s else RecordVisit(RecordVisits(s, user, zs[..|zs| - 1], now), user, zs[|zs| - 1], now)
  }

  /** A visit touches the two history lists only: the user's entry for the zone and the zone's entry for the user. */
  lemma RecordVisitEffect(s: Store, user: User, z: Zone, now: int)
    ensures var t := RecordVisit(s, user, z, now);
      SameProfiles(s.users, t.users) && SameZoneProfiles(s.zones, t.zones) &&
      (HasKey(s.users, UserKey, user.id) ==>
        VisitedZonesOf(t.users, user.id) == Reconcile(VisitedZonesOf(s.users, user.id), ZoneKey, ZoneInZones(user.zones, z), StoredZone(ZoneSnapshot(z, now)))) &&
      (HasKey(s.zones, ZoneKey, z.id) ==>
        VisitorsOf(t.zones, z.id) == Reconcile(VisitorsOf(s.zones, z.id), UserKey, UserInUsers(VisitorsOf(s.zones, z.id), user), StoredUser(VisitorSnapshot(user, now))))
  {
    var visited := VisitedZonesOf(s.users, user.id);
    var visitors := VisitorsOf(s.zones, z.id);
    SetVisitedZonesEffect(s.users, user.id, Reconcile(visited, ZoneKey, ZoneInZones(user.zones, z), StoredZone(ZoneSnapshot(z, now))), user.id);
    SetVisitorsEffect(s.zones, z.id, Reconcile(visitors, UserKey, UserInUsers(visitors, user), StoredUser(VisitorSnapshot(user, now))), z.id);
  }

  /** The visitor list of a zone keeps at most one entry per user across visits. */
  lemma RecordVisitKeepsVisitorsUnique(s: Store, user: User, z: Zone, now: int)
    requires UniqueKeys(VisitorsOf(s.zones, z.id), UserKey)
    ensures UniqueKeys(VisitorsOf(RecordVisit(s, user, z, now).zones, z.id), UserKey)
  {
    var visitors := VisitorsOf(s.zones, z.id);
    var e := StoredUser(VisitorSnapshot(user, now));
    assert UserInUsers(visitors, user) == HasKey(visitors, UserKey, e.id);
    ReconcileKeepsUnique(visitors, UserKey, e);
    SetVisitorsTwice(s.zones, z.id, Reconcile(visitors, UserKey, UserInUsers(visitors, user), e), []);
  }

  lemma {:induction false} RecordVisitsProfiles(s: Store, user: User, zs: seq<Zone>, now: int)
    ensures SameProfiles(s.users, RecordVisits(s, user, zs, now).users)
    ensures SameZoneProfiles(s.zones, RecordVisits(s, user, zs, now).zones)
  {
    if zs != [] {
      var mid := RecordVisits(s, user, zs[..|zs| - 1], now);
      RecordVisitsProfiles(s, user, zs[..|zs| - 1], now);
      RecordVisitEffect(mid, user, zs[|zs| - 1], now);
      SameProfilesTrans(s.users, mid.users, RecordVisits(s, user, zs, now).users);
      SameZoneProfilesTrans(s.zones, mid.zones, RecordVisits(s, user, zs, now).zones);
    }
  }

  /** The sub-zones whose occupants (looked up successfully) include the user, as presented. */
  function VisitedSubZones(docs: seq<Zone>, users: seq<User>, user: User, distance: (Point, Point) -> real, failed: seq<bool>): seq<Zone>
    requires |failed| == |docs|
  {
    Picked(docs, failed, z => Contains(z, users, user, distance), z => DerivedView(z, users, distance, false))
  }

  /** A visit is recorded for exactly the sub-zones whose lookup succeeded and whose occupants include the user. */
  lemma VisitedSubZonesMembers(docs: seq<Zone>, users: seq<User>, user: User, distance: (Point, Point) -> real, failed: seq<bool>, z: Zone)
    requires |failed| == |docs|
    ensures z in VisitedSubZones(docs, users, user, distance, failed) <==>
      exists i :: 0 <= i < |docs| && !failed[i] && Contains(docs[i], users, user, distance) && z == DerivedView(docs[i], users, distance, false)
  {
    PickedMembers(docs, failed, z => Contains(z, users, user, distance), z => DerivedView(z, users, distance, false), z);
  }

  /** One more cursor position of GetSubZones appends that sub-zone's view. */
  lemma DerivedViewsStep(cursor: seq<Zone>, users: seq<User>, distance: (Point, Point) -> real, failed: seq<bool>, lf: bool, i: nat)
    requires |failed| == i < |cursor|
    ensures DerivedViews(cursor[..i + 1], users, distance, failed + [lf]) ==
      DerivedViews(cursor[..i], users, distance, failed) + [DerivedView(cursor[i], users, distance, lf)]
  {
    assert cursor[..i + 1][..i] == cursor[..i] && (failed + [lf])[..i] == failed;
  }

  /** One more cursor position of GetSubZones records a visit to that sub-zone exactly when it is visited. */
  lemma SubZoneVisitStep(s0: Store, si: Store, t: Store, cursor: seq<Zone>, user: User, distance: (Point, Point) -> real, now: int, failed: seq<bool>, lf: bool, i: nat)
    requires |failed| == i < |cursor|
    requires si == RecordVisits(s0, user, VisitedSubZones(cursor[..i], s0.users, user, distance, failed), now)
    requires t == if !lf && Contains(cursor[i], s0.users, user, distance) then RecordVisit(si, user, DerivedView(cursor[i], s0.users, distance, lf), now) else si
    ensures t == RecordVisits(s0, user, VisitedSubZones(cursor[..i + 1], s0.users, user, distance, failed + [lf]), now)
  {
    var hit := z => Contains(z, s0.users, user, distance);
    var view := z => DerivedView(z, s0.users, distance, false);
    PickedStep(cursor, failed, hit, view, lf, i);
    var before := Picked(cursor[..i], failed, hit, view);
    if !lf && hit(cursor[i]) {
      assert (before + [view(cursor[i])])[..|before|] == before;
    } else {
      assert before + [] == before;
    }
  }

  /** Decoding the candidates does not change which of them contains the user. */
  lemma LoadedCandidates(docs: seq<Zone>, users: seq<User>, user: User, distance: (Point, Point) -> real)
    ensures FirstContaining(LoadZones(docs), users, user, distance) == FirstContaining(docs, users, user, distance)
  {
    var loaded := LoadZones(docs);
    forall j | 0 <= j < |docs| ensures Contains(loaded[j], users, user, distance) == Contains(docs[j], users, user, distance) {
      LoadZonesAt(docs, j);
    }
    FirstWhereSame(loaded, docs, z => Contains(z, users, user, distance));
  }

  // ---------------------------------------------------------------------------
  // The derived-field sort of Query

  /** The comparator key of a derived sort field, if sortZones knows it as a total order. */
  function DerivedKey(field: string): Option<Zone -> Key>
  {
    if field == "usersWithin" then Some((z: Zone) => KInt(z.usersWithin))
    else if field == "risk" then Some((z: Zone) => KInt(z.risk))
    else None
  }

  /** Query sorts and pages itself only for the derived fields. */
  predicate IsDerivedSort(sort: Option<SortData>)
  {
    sort.Some? && (sort.value.item == "usersWithin" || sort.value.item == "isCapacityExceeded" || sort.value.item == "risk")
  }

  /** The derived-sort page: positions From..To when a range with a non-zero To is given, else the whole list. */
  function DerivedPage(arranged: seq<Zone>, range: Option<RangeData>): seq<Zone>
  {
    if range.Some? && range.value.to != 0 then Window(arranged, range.value.from, range.value.to) else arranged
  }

  /** Sorting by a derived field orders the zones by it; "DESC" reverses, also for a field sortZones does not know. */
  lemma DerivedSortMeaning(s: seq<Zone>, field: string, order: string)
    ensures multiset(Arrange(s, DerivedKey(field), order)) == multiset(s)
    ensures field == "usersWithin" && order != Descending ==>
      forall i, j :: 0 <= i < j < |s| ==> Arrange(s, DerivedKey(field), order)[i].usersWithin <= Arrange(s, DerivedKey(field), order)[j].usersWithin
    ensures field == "usersWithin" && order == Descending ==>
      forall i, j :: 0 <= i < j < |s| ==> Arrange(s, DerivedKey(field), order)[i].usersWithin >= Arrange(s, DerivedKey(field), order)[j].usersWithin
    ensures field == "risk" && order != Descending ==>
      forall i, j :: 0 <= i < j < |s| ==> Arrange(s, DerivedKey(field), order)[i].risk <= Arrange(s, DerivedKey(field), order)[j].risk
    ensures field == "risk" && order == Descending ==>
      forall i, j :: 0 <= i < j < |s| ==> Arrange(s, DerivedKey(field), order)[i].risk >= Arrange(s, DerivedKey(field), order)[j].risk
    ensures DerivedKey(field).None? ==> Arrange(s, DerivedKey(field), order) == if order == Descending then Reversed(s) else s
  {
    ArrangeMeaning(s, DerivedKey(field), order);
    assert |Arrange(s, DerivedKey(field), order)| == |s| by {
      assert |multiset(Arrange(s, DerivedKey(field), order))| == |multiset(s)|;
    }
  }

  // ---------------------------------------------------------------------------
  // The recent window

  /** `users[i].Time > users[j].Time` as a key: the newest first. */
  function NewestFirst(u: User): Key
  {
    KInt(-u.time)
  }

  /** What QueryRecentUsersByZoneID returns for a visitor list. */
  function RecentVisitors(visitors: seq<User>, now: int): seq<User>
  {
    InsertionSort(RecentEntries(visitors, RecentCutoff(now)), NewestFirst)
  }

  /**
   * Exactly the entries of the last 14 local calendar days (today included), newest
   * first, as a permutation of the filtered list.
   */
  lemma RecentVisitorsMeaning(visitors: seq<User>, now: int)
    ensures var r := RecentVisitors(visitors, now);
      multiset(r) == multiset(RecentEntries(visitors, RecentCutoff(now))) &&
      (forall i, j :: 0 <= i < j < |r| ==> r[i].time >= r[j].time) &&
      (forall u :: u in r <==> u in visitors && LocalDay(u.time) >= LocalDay(now) - 13)
  {
    var f := RecentEntries(visitors, RecentCutoff(now));
    var r := RecentVisitors(visitors, now);
    InsertionSortSorted(f, NewestFirst);
    assert forall i, j :: 0 <= i < j < |r| ==> KeyLe(NewestFirst(r[i]), NewestFirst(r[j]));
    forall u ensures u in r <==> u in visitors && LocalDay(u.time) >= LocalDay(now) - 13 {
      RecentIsFourteenDays(now, u.time);
      assert u in r <==> u in multiset(f);
      if u in visitors && u.time >= RecentCutoff(now) {
        var i :| 0 <= i < |visitors| && visitors[i] == u;
      }
    }
  }

  // ---------------------------------------------------------------------------
  // The DAO

  class ZoneDao {
    const db: Database

    constructor (db0: Database)
      ensures db == db0
    {
      db := db0;
    }

    /** GetUsersByZone: the occupant query and its cursor loop; an invalid zone location gives no one. */
    method GetUsersByZone(zone: Zone) returns (r: Result<seq<User>, Error>)
      ensures PointOf(zone.location).None? ==> r == Ok([])
      ensures r.Ok? ==> r.value == Occupants(db.users, zone, db.distance)
      ensures r.Err? ==> r.error == DriverError
    {
      if PointOf(zone.location).None? {
        return Ok([]);
      }
      var c := PointOf(zone.location).value;
      var findFailed: bool := *;
      if findFailed {
        return Err(DriverError);
      }
      var cursor := OccupantDocs(db.users, c, zone.radius, db.distance);
      var users: seq<User> := [];
      for i := 0 to |cursor|
        invariant users == LoadUsers(cursor[..i])
      {
        var decodeFailed: bool := *;
        if decodeFailed {
          return Err(DriverError);
        }
        assert cursor[..i + 1][..i] == cursor[..i];
        users := users + [LoadUser(cursor[i])];
      }
      assert cursor[..|cursor|] == cursor;
      return Ok(users);
    }

    /** Get: the first zone document with the ID, presented with its derived fields. */
    method Get(id: string) returns (r: Result<Zone, Error>, ghost lookupFailed: bool)
      ensures FirstIndex(db.zones, ZoneKey, id).None? ==> r.Err?
      ensures r.Err? ==> r.error == DriverError || (r.error == NoDocuments && FirstIndex(db.zones, ZoneKey, id).None?)
      ensures r.Ok? ==> FirstIndex(db.zones, ZoneKey, id).Some?
      ensures r.Ok? ==> r.value == GetView(db.zones[FirstIndex(db.zones, ZoneKey, id).value], db.users, db.distance, lookupFailed)
      ensures r.Ok? ==> r.value.id == id && r.value.users == VisitorsOf(db.zones, id)
    {
      lookupFailed := false;
      var found := db.FindZone(id);
      if found.Err? {
        return Err(found.error), false;
      }
      var zone := WithCoordinates(LoadZone(found.value));
      var users := GetUsersByZone(zone);
      if users.Err? {
        return Ok(zone), true;
      }
      var n := |users.value|;
      var risk := GetZoneRisk(zone.radius, zone.capacity, n);
      zone := zone.(usersWithin := n, risk := risk);
      if risk == MaximumRisk {
        zone := zone.(isCapacityExceeded := n > zone.capacity);
      }
      return Ok(zone), false;
    }

    /**
     * One step of a cursor loop over zones: decode the document, set the coordinates, look
     * up the occupants, then set UsersWithin (only when the lookup succeeds), Risk, and
     * IsCapacityExceeded at the maximum level.
     */
    method Present(doc: Zone) returns (z: Zone, ghost lookupFailed: bool, users: seq<User>)
      ensures z == DerivedView(doc, db.users, db.distance, lookupFailed)
      ensures lookupFailed ==> users == [] && z.risk == MinimumRisk
      ensures !lookupFailed ==> users == Occupants(db.users, z, db.distance)
    {
      z := WithCoordinates(LoadZone(doc));
      var occ := GetUsersByZone(z);
      lookupFailed := occ.Err?;
      users := if occ.Ok? then occ.value else [];
      if occ.Ok? {
        z := z.(usersWithin := |occ.value|);
      }
      var risk := GetZoneRisk(z.radius, z.capacity, z.usersWithin);
      z := z.(risk := risk);
      if risk == MaximumRisk {
        z := z.(isCapacityExceeded := z.usersWithin > z.capacity);
      }
      RiskOfEmptyZone(doc.radius, doc.capacity);
    }

    /**
     * sortZones: by UsersWithin or Risk ascending; for "isCapacityExceeded" its comparator
     * is not a strict weak order, so only some permutation is promised; then "DESC"
     * reverses in place.
     */
    method SortZones(zones: array<Zone>, field: string, order: string)
      modifies zones
      ensures multiset(zones[..]) == multiset(old(zones[..]))
      ensures field != "isCapacityExceeded" ==> zones[..] == Arrange(old(zones[..]), DerivedKey(field), order)
    {
      if field == "isCapacityExceeded" {
        ghost var w := zones[..];
        assert |w| == zones.Length && multiset(w) == multiset(zones[..]);
        var p: seq<Zone> :| |p| == zones.Length && multiset(p) == multiset(zones[..]);
        forall i | 0 <= i < zones.Length {
          zones[i] := p[i];
        }
        assert zones[..] == p;
        if order == Descending {
          ReverseSlice(zones);
          ReversedMultiset(p);
        }
      } else {
        SortAndOrder(zones, DerivedKey(field), order);
        ArrangeMeaning(old(zones[..]), DerivedKey(field), order);
      }
    }

    /**
     * Query. Selection, the server-side sort, skip, limit and count are the datastore's:
     * `cursor` is the documents it returns and `count` its CountDocuments result. A filter
     * on "id" is answered by Get instead. Each cursor zone is presented with its derived
     * fields; a derived sort field is then sorted here and paged From..To when To != 0.
     */
    method Query(sort: Option<SortData>, range: Option<RangeData>, filter: Option<FilterData>, cursor: seq<Zone>, count: int)
      returns (r: Result<(int, seq<Zone>), Error>, ghost failed: seq<bool>, ghost arranged: seq<Zone>)
      ensures filter.Some? && filter.value.item == "id" && FirstIndex(db.zones, ZoneKey, filter.value.value).None? ==> r.Err?
      ensures filter.Some? && filter.value.item == "id" && r.Ok? ==>
        FirstIndex(db.zones, ZoneKey, filter.value.value).Some? && |failed| == 1 &&
        r.value == (1, [GetView(db.zones[FirstIndex(db.zones, ZoneKey, filter.value.value).value], db.users, db.distance, failed[0])])
      ensures r.Err? ==> r.error == DriverError || r.error == NoDocuments
      ensures !(filter.Some? && filter.value.item == "id") && r.Ok? ==>
        |failed| == |cursor| && r.value.0 == count &&
        var views := DerivedViews(cursor, db.users, db.distance, failed);
        (!IsDerivedSort(sort) ==> r.value.1 == views) &&
        (IsDerivedSort(sort) ==>
          multiset(arranged) == multiset(views) &&
          (sort.value.item != "isCapacityExceeded" ==> arranged == Arrange(views, DerivedKey(sort.value.item), sort.value.order)) &&
          r.value.1 == DerivedPage(arranged, range))
    {
      failed, arranged := [], [];
      if filter.Some? && filter.value.item == "id" {
        var d, lf := Get(filter.value.value);
        if d.Err? {
          return Err(d.error), [], [];
        }
        return Ok((1, [d.value])), [lf], [];
      }
      var findFailed: bool := *;
      var countFailed: bool := *;
      if findFailed || countFailed {
        return Err(DriverError), [], [];
      }
      var zones: seq<Zone> := [];
      for i := 0 to |cursor|
        invariant |failed| == i
        invariant zones == DerivedViews(cursor[..i], db.users, db.distance, failed)
      {
        var decodeFailed: bool := *;
        if decodeFailed {
          return Err(DriverError), [], [];
        }
        var z, lf, _ := Present(cursor[i]);
        assert cursor[..i + 1][..i] == cursor[..i] && (failed + [lf])[..i] == failed;
        zones := zones + [z];
        failed := failed + [lf];
      }
      assert cursor[..|cursor|] == cursor;
      if IsDerivedSort(sort) {
        var a := new Zone[|zones|](i requires 0 <= i < |zones| => zones[i]);
        assert a[..] == zones;
        SortZones(a, sort.value.item, sort.value.order);
        var sorted := a[..];
        arranged := sorted;
        if range.Some? && range.value.to != 0 {
          var rslt := Page(sorted, range.value.from, range.value.to);
          return Ok((count, rslt)), failed, arranged;
        }
        return Ok((count, sorted)), failed, arranged;
      }
      return Ok((count, zones)), failed, arranged;
    }

    /** updateZonesList: reconcile the user's visited-zone list with a snapshot of the zone. */
    method UpdateZonesList(user: User, target: Zone, now: int) returns (err: Option<Error>)
      modifies db
      ensures db.zones == old(db.zones)
      ensures err.None? ==> db.users == SetVisitedZones(old(db.users), user.id,
        Reconcile(VisitedZonesOf(old(db.users), user.id), ZoneKey, ZoneInZones(user.zones, target), StoredZone(ZoneSnapshot(target, now))))
      ensures err.Some? ==> err == Some(DriverError) && SameProfiles(old(db.users), db.users)
    {
      var tmp := ZoneSnapshot(target, now);
      ghost var u0 := db.users;
      if ZoneInZones(user.zones, tmp) {
        ghost var front := Pull(VisitedZonesOf(u0, user.id), ZoneKey, tmp.id);
        err := db.PullVisitedZone(user.id, tmp.id);
        if err.Some? {
          return;
        }
        ghost var u1 := db.users;
        SetVisitedZonesEffect(u0, user.id, front, user.id);
        err := db.PushVisitedZone(user.id, tmp);
        if err.Some? {
          return;
        }
        SetVisitedZonesTwice(u0, user.id, front, VisitedZonesOf(u1, user.id) + [StoredZone(tmp)]);
      } else {
        err := db.PushVisitedZone(user.id, tmp);
        if err.Some? {
          return;
        }
      }
    }

    /** updateUsersList: reconcile the zone's visitor list, as read by a fresh Get, with a snapshot of the user. */
    method UpdateUsersList(zone: Zone, targetUser: User, now: int) returns (err: Option<Error>)
      modifies db
      ensures db.users == old(db.users)
      ensures err.None? ==> HasKey(old(db.zones), ZoneKey, zone.id)
      ensures err.None? ==> db.zones == SetVisitors(old(db.zones), zone.id,
        Reconcile(VisitorsOf(old(db.zones), zone.id), UserKey, UserInUsers(VisitorsOf(old(db.zones), zone.id), targetUser),
          StoredUser(VisitorSnapshot(targetUser, now))))
      ensures err.Some? ==> (err == Some(DriverError) || err == Some(NoDocuments)) && SameZoneProfiles(old(db.zones), db.zones)
    {
      var withList, _ := Get(zone.id);
      if withList.Err? {
        return Some(withList.error);
      }
      var tmp := VisitorSnapshot(targetUser, now);
      ghost var z0 := db.zones;
      ghost var visitors := VisitorsOf(z0, zone.id);
      assert withList.value.users == visitors;
      if UserInUsers(withList.value.users, tmp) {
        ghost var front := Pull(visitors, UserKey, tmp.id);
        err := db.PullVisitor(zone.id, tmp.id);
        if err.Some? {
          return;
        }
        ghost var z1 := db.zones;
        SetVisitorsEffect(z0, zone.id, front, zone.id);
        err := db.PushVisitor(zone.id, tmp);
        if err.Some? {
          return;
        }
        SetVisitorsTwice(z0, zone.id, front, VisitorsOf(z1, zone.id) + [StoredUser(tmp)]);
      } else {
        err := db.PushVisitor(zone.id, tmp);
        if err.Some? {
          return;
        }
      }
    }

    /** A visit recorded both ways: updateZonesList, then updateUsersList; the first failing write aborts. */
    method RecordVisitBothWays(user: User, z: Zone, now: int) returns (err: Option<Error>)
      modifies db
      ensures SameProfiles(old(db.users), db.users) && SameZoneProfiles(old(db.zones), db.zones)
      ensures err.None? ==> Store(db.users, db.zones) == RecordVisit(Store(old(db.users), old(db.zones)), user, z, now)
      ensures err.Some? ==> err == Some(DriverError) || err == Some(NoDocuments)
    {
      ghost var s0 := Store(db.users, db.zones);
      RecordVisitEffect(s0, user, z, now);
      err := UpdateZonesList(user, z, now);
      if err.Some? {
        return;
      }
      err := UpdateUsersList(z, user, now);
    }

    /**
     * One step of GetSubZones' cursor loop: present the sub-zone, and when the lookup
     * succeeded and its occupants include the user, record the visit both ways.
     */
    method VisitSubZone(doc: Zone, user: User, now: int, ghost users0: seq<User>) returns (z: Zone, err: Option<Error>, ghost lookupFailed: bool)
      requires SameProfiles(users0, db.users)
      modifies db
      ensures z == DerivedView(doc, users0, db.distance, lookupFailed)
      ensures SameProfiles(old(db.users), db.users) && SameZoneProfiles(old(db.zones), db.zones)
      ensures err.None? ==> var visited := !lookupFailed && Contains(doc, users0, user, db.distance);
        Store(db.users, db.zones) == if visited then RecordVisit(Store(old(db.users), old(db.zones)), user, z, now) else Store(old(db.users), old(db.zones))
      ensures err.Some? ==> err == Some(DriverError) || err == Some(NoDocuments)
    {
      var users;
      z, lookupFailed, users := Present(doc);
      DerivedViewSameProfiles(doc, users0, db.users, user, db.distance, lookupFailed);
      assert !lookupFailed ==> Contains(doc, users0, user, db.distance) == UserInUsers(users, user);
      err := None;
      if UserInUsers(users, user) {
        err := RecordVisitBothWays(user, z, now);
      }
    }

    /**
     * GetSubZones: the SubZone-type zones within the parent's circle, presented with their
     * derived fields in collection order; a reciprocal visit is recorded for each one whose
     * occupants include the user, and the first failing write aborts the call.
     */
    method GetSubZones(zone: Zone, user: User, now: int) returns (r: Result<seq<Zone>, Error>, ghost failed: seq<bool>)
      modifies db
      ensures SameProfiles(old(db.users), db.users) && SameZoneProfiles(old(db.zones), db.zones)
      ensures PointOf(zone.location).None? ==> r == Ok([]) && db.users == old(db.users) && db.zones == old(db.zones)
      ensures r.Err? ==> r.error == DriverError || r.error == NoDocuments
      ensures r.Ok? ==>
        var subs := SubZoneDocs(old(db.zones), zone, db.distance);
        |failed| == |subs| &&
        r.value == DerivedViews(subs, old(db.users), db.distance, failed) &&
        Store(db.users, db.zones) == RecordVisits(Store(old(db.users), old(db.zones)), user, VisitedSubZones(subs, old(db.users), user, db.distance, failed), now)
    {
      failed := [];
      if PointOf(zone.location).None? {
        return Ok([]), [];
      }
      var findFailed: bool := *;
      if findFailed {
        return Err(DriverError), [];
      }
      ghost var s0 := Store(db.users, db.zones);
      var cursor := SubZoneDocs(db.zones, zone, db.distance);
      var zones: seq<Zone> := [];
      for i := 0 to |cursor|
        invariant |failed| == i
        invariant zones == DerivedViews(cursor[..i], s0.users, db.distance, failed)
        invariant Store(db.users, db.zones) == RecordVisits(s0, user, VisitedSubZones(cursor[..i], s0.users, user, db.distance, failed), now)
        invariant SameProfiles(s0.users, db.users) && SameZoneProfiles(s0.zones, db.zones)
      {
        var decodeFailed: bool := *;
        if decodeFailed {
          return Err(DriverError), failed;
        }
        ghost var si := Store(db.users, db.zones);
        var z, err, lf := VisitSubZone(cursor[i], user, now, s0.users);
        SameProfilesTrans(s0.users, si.users, db.users);
        SameZoneProfilesTrans(s0.zones, si.zones, db.zones);
        if err.Some? {
          return Err(err.value), failed;
        }
        DerivedViewsStep(cursor, s0.users, db.distance, failed, lf, i);
        SubZoneVisitStep(s0, si, Store(db.users, db.zones), cursor, user, db.distance, now, failed, lf, i);
        zones := zones + [z];
        failed := failed + [lf];
      }
      assert cursor[..|cursor|] == cursor;
      return Ok(zones), failed;
    }

    /** Decoding every document of a cursor in order; a decode failure aborts. */
    method DecodeAll(cursor: seq<Zone>) returns (r: Result<seq<Zone>, Error>)
      ensures r.Err? ==> r.error == DriverError
      ensures r.Ok? ==> r.value == LoadZones(cursor)
    {
      var zones: seq<Zone> := [];
      for i := 0 to |cursor|
        invariant zones == LoadZones(cursor[..i])
      {
        var decodeFailed: bool := *;
        if decodeFailed {
          return Err(DriverError);
        }
        assert cursor[..i + 1][..i] == cursor[..i];
        zones := zones + [LoadZone(cursor[i])];
      }
      assert cursor[..|cursor|] == cursor;
      return Ok(zones);
    }

    /**
     * The candidate walk of GetByUser: the position of the first candidate whose occupants
     * include the user, with those occupants; a failed lookup aborts the walk.
     */
    method FindContaining(cands: seq<Zone>, user: User) returns (r: Result<Option<nat>, Error>, occupants: seq<User>)
      ensures r.Err? ==> r.error == DriverError
      ensures r.Ok? ==> r.value == FirstContaining(cands, db.users, user, db.distance)
      ensures r.Ok? && r.value.Some? ==> occupants == Occupants(db.users, cands[r.value.value], db.distance)
    {
      occupants := [];
      for k := 0 to |cands|
        invariant forall j :: 0 <= j < k ==> !Contains(cands[j], db.users, user, db.distance)
      {
        var u := GetUsersByZone(cands[k]);
        if u.Err? {
          return Err(u.error), [];
        }
        if UserInUsers(u.value, user) {
          assert Contains(cands[k], db.users, user, db.distance);
          FirstContainingAt(cands, db.users, user, db.distance, k);
          return Ok(Some(k)), u.value;
        }
      }
      FirstContainingNone(cands, db.users, user, db.distance);
      return Ok(None), [];
    }

    /**
     * GetByUser: the Zone-type candidates within 100 km, nearest first; the first whose
     * occupants include the user is presented, the visit is recorded both ways, and its
     * sub-zones are evaluated. No match, or an invalid location, gives an empty zone and
     * writes nothing; a failed occupant lookup aborts.
     */
    method GetByUser(user: User, now: int) returns (r: Result<(Zone, seq<Zone>), Error>, ghost failed: seq<bool>)
      modifies db
      ensures SameProfiles(old(db.users), db.users) && SameZoneProfiles(old(db.zones), db.zones)
      ensures PointOf(user.location).None? ==> r == Ok((EmptyZone(), [])) && db.users == old(db.users) && db.zones == old(db.zones)
      ensures r.Err? ==> r.error == DriverError || r.error == NoDocuments
      ensures r.Ok? && PointOf(user.location).Some? ==>
        var cands := NearbyZones(old(db.zones), PointOf(user.location).value, db.distance);
        match FirstContaining(cands, old(db.users), user, db.distance)
        case None => r.value == (EmptyZone(), []) && db.users == old(db.users) && db.zones == old(db.zones)
        case Some(k) =>
          var main := DerivedView(cands[k], old(db.users), db.distance, false);
          var mid := RecordVisit(Store(old(db.users), old(db.zones)), user, main, now);
          var subs := SubZoneDocs(mid.zones, main, db.distance);
          |failed| == |subs| && r.value.0 == main &&
          r.value.1 == DerivedViews(subs, mid.users, db.distance, failed) &&
          Store(db.users, db.zones) == RecordVisits(mid, user, VisitedSubZones(subs, mid.users, user, db.distance, failed), now)
    {
      failed := [];
      if PointOf(user.location).None? {
        return Ok((EmptyZone(), [])), [];
      }
      var findFailed: bool := *;
      if findFailed {
        return Err(DriverError), [];
      }
      var cursor := NearbyZones(db.zones, PointOf(user.location).value, db.distance);
      var loaded := DecodeAll(cursor);
      if loaded.Err? {
        return Err(loaded.error), [];
      }
      var zones := loaded.value;
      LoadedCandidates(cursor, db.users, user, db.distance);
      var found, u := FindContaining(zones, user);
      if found.Err? {
        return Err(found.error), [];
      }
      if found.value.None? {
        return Ok((EmptyZone(), [])), [];
      }
      var k := found.value.value;
      assert FirstContaining(cursor, db.users, user, db.distance) == Some(k);
      LoadZonesAt(cursor, k);
      var z := WithDerived(WithCoordinates(zones[k]), |u|);
      assert z == DerivedView(cursor[k], db.users, db.distance, false);
      r, failed := EnterZone(z, user, now);
    }

    /** The zone found by GetByUser: record the visit both ways, then evaluate its sub-zones. */
    method EnterZone(z: Zone, user: User, now: int) returns (r: Result<(Zone, seq<Zone>), Error>, ghost failed: seq<bool>)
      modifies db
      ensures SameProfiles(old(db.users), db.users) && SameZoneProfiles(old(db.zones), db.zones)
      ensures r.Err? ==> r.error == DriverError || r.error == NoDocuments
      ensures r.Ok? ==>
        var mid := RecordVisit(Store(old(db.users), old(db.zones)), user, z, now);
        var subs := SubZoneDocs(mid.zones, z, db.distance);
        |failed| == |subs| && r.value.0 == z &&
        r.value.1 == DerivedViews(subs, mid.users, db.distance, failed) &&
        Store(db.users, db.zones) == RecordVisits(mid, user, VisitedSubZones(subs, mid.users, user, db.distance, failed), now)
    {
      failed := [];
      ghost var s0 := Store(db.users, db.zones);
      var err := RecordVisitBothWays(user, z, now);
      if err.Some? {
        return Err(err.value), [];
      }
      ghost var mid := Store(db.users, db.zones);
      var subs;
      subs, failed := GetSubZones(z, user, now);
      SameProfilesTrans(s0.users, mid.users, db.users);
      SameZoneProfilesTrans(s0.zones, mid.zones, db.zones);
      if subs.Err? {
        return Err(subs.error), failed;
      }
      return Ok((z, subs.value)), failed;
    }

    /**
     * QueryRecentUsersByZoneID: the zone's stored visitor entries of the last 14 local
     * days, newest first.
     */
    method QueryRecentUsersByZoneID(zoneId: string, now: int) returns (r: Result<seq<User>, Error>)
      ensures FirstIndex(db.zones, ZoneKey, zoneId).None? ==> r.Err?
      ensures r.Err? ==> r.error == DriverError || (r.error == NoDocuments && FirstIndex(db.zones, ZoneKey, zoneId).None?)
      ensures r.Ok? ==> r.value == RecentVisitors(VisitorsOf(db.zones, zoneId), now)
    {
      var zone, _ := Get(zoneId);
      if zone.Err? {
        return Err(zone.error);
      }
      var users := RecentOf(zone.value.users, RecentCutoff(now));
      var a := new User[|users|](i requires 0 <= i < |users| => users[i]);
      assert a[..] == users;
      SortSlice(a, NewestFirst);
      return Ok(a[..]);
    }

    /** The filter loop of QueryRecentUsersByZoneID: the entries with Time at or after the cutoff, in list order. */
    method RecentOf(list: seq<User>, t: int) returns (users: seq<User>)
      ensures users == RecentEntries(list, t)
    {
      users := [];
      for i := 0 to |list|
        invariant users == RecentEntries(list[..i], t)
      {
        assert list[..i + 1][..i] == list[..i];
        if list[i].time >= t {
          users := users + [list[i]];
        }
      }
      assert list[..|list|] == list;
    }
  }
}
