/**
 * The list handlers user/getrecentusersbyuser.go, user/getusersbyzone.go and
 * zone/getrecentzonesbyuser.go: fetch a list from the model, sort it in place when both
 * a field and an order are given, count it, keep the From..To page and map each item
 * to its response record.
 */
module Listing {
  import opened Wrappers
  import opened Constants
  import opened Dto
  import opened Sorting
  import opened Api

  /** `pb.GetUsersRequest` / `pb.GetZonesRequest`: the filter value, the sort and the page. */
  datatype ListRequest = ListRequest(filterValue: string, item: string, order: string, from: int, to: int)

  /** `pb.GetUsersResponse` / `pb.GetZonesResponse` */
  datatype Listed<T> = Listed(data: seq<T>, total: int)

  /** The comparator key of a sortUsers field in getrecentusersbyuser.go. */
  function RecentUserKey(field: string): Option<User -> Key>
  {
    if field == "id" then Some((u: User) => KStr(u.id))
    else if field == "name" then Some((u: User) => KStr(u.name))
    else if field == "ic" then Some((u: User) => KStr(u.ic))
    else if field == "phoneNumber" then Some((u: User) => KStr(u.phoneNumber))
    else if field == "email" then Some((u: User) => KStr(u.email))
    else if field == "lat" then Some((u: User) => KReal(u.lat))
    else if field == "long" then Some((u: User) => KReal(u.long))
    else if field == "lastUpdated" then Some((u: User) => KInt(u.lastUpdated))
    else if field == "time" then Some((u: User) => KInt(u.time))
    else None
  }

  /** The comparator key of a sortUsers field in getusersbyzone.go: the same fields but "time". */
  function ZoneUserKey(field: string): Option<User -> Key>
  {
    if field == "time" then None else RecentUserKey(field)
  }

  /** The comparator key of a sortZones field in getrecentzonesbyuser.go. */
  function RecentZoneKey(field: string): Option<Zone -> Key>
  {
    if field == "id" then Some((z: Zone) => KStr(z.id))
    else if field == "name" then Some((z: Zone) => KStr(z.name))
    else if field == "type" then Some((z: Zone) => KInt(z.kind))
    else if field == "radius" then Some((z: Zone) => KReal(z.radius))
    else if field == "capacity" then Some((z: Zone) => KInt(z.capacity))
    else if field == "time" then Some((z: Zone) => KInt(z.time))
    else if field == "risk" then Some((z: Zone) => KInt(z.risk))
    else None
  }

  /** The list as presented before paging: arranged only when both Item and Order are given. */
  function Presented<T>(items: seq<T>, key: Option<T -> Key>, req: ListRequest): seq<T>
  {
    if req.item != "" && req.order != "" then Arrange(items, key, req.order) else items
  }

  /** `usersToResponses` of getrecentusersbyuser.go: with the Time field. */
  function RecentUserView(u: User): ApiUser
  {
    BlankUser().(id := u.id, role := u.role, name := u.name, phoneNumber := u.phoneNumber,
                 ic := u.ic, email := u.email, isActive := u.isActive, lastUpdated := u.lastUpdated,
                 lat := u.lat, long := u.long, consent := u.consent, time := u.time, infected := u.infected)
  }

  /** `usersToResponses` of getusersbyzone.go: the same fields but Time. */
  function ZoneUserView(u: User): ApiUser
  {
    RecentUserView(u).(time := 0)
  }

  /** `zonesToResponses` of getrecentzonesbyuser.go: occupancy and the capacity flag are not copied. */
  function RecentZoneView(z: Zone): ApiZone
  {
    BlankZone().(id := z.id, name := z.name, lat := z.lat, long := z.long, kind := z.kind,
                 radius := z.radius, capacity := z.capacity, time := z.time, risk := z.risk)
  }

  /** Every item mapped through `view`, in order. */
  function MapAll<T, U>(items: seq<T>, view: T -> U): (r: seq<U>)
    ensures |r| == |items|
    ensures forall i :: 0 <= i < |items| ==> r[i] == view(items[i])
  {
    if items == [] then [] else MapAll(items[..|items| - 1], view) + [view(items[|items| - 1])]
  }

  /** The response loop: one record per item, appended in order. */
  method ToResponses<T, U>(items: seq<T>, view: T -> U) returns (resps: seq<U>)
    ensures resps == MapAll(items, view)
  {
    resps := [];
    for k := 0 to |items|
      invariant resps == MapAll(items[..k], view)
    {
      assert items[..k + 1][..k] == items[..k];
      resps := resps + [view(items[k])];
    }
    assert items[..|items|] == items;
  }

  /**
   * The shared body of the three handlers once the model has answered: sort in place
   * when asked, take the total before paging, page, map to responses.
   */
  method Present<T, U>(items: seq<T>, key: Option<T -> Key>, req: ListRequest, view: T -> U) returns (r: Listed<U>)
    ensures r.total == |items|
    ensures r.data == MapAll(Window(Presented(items, key, req), req.from, req.to), view)
  {
    var a := new T[|items|](i requires 0 <= i < |items| => items[i]);
    assert a[..] == items;
    if req.item != "" && req.order != "" {
      SortAndOrder(a, key, req.order);
    }
    var arranged := a[..];
    var total := |arranged|;
    ArrangeMeaning(items, key, req.order);
    assert |multiset(arranged)| == |multiset(items)|;
    var rslt := Page(arranged, req.from, req.to);
    var resps := ToResponses(rslt, view);
    return Listed(resps, total);
  }

  /** GetRecentUsersByUser: a model error is returned as is. */
  method GetRecentUsersByUser(req: ListRequest, m: Model) returns (r: Result<Listed<ApiUser>, Error>)
    ensures m.getRecentUsersByUser(req.filterValue).Err? ==> r == Err(m.getRecentUsersByUser(req.filterValue).error)
    ensures m.getRecentUsersByUser(req.filterValue).Ok? ==>
        r.Ok? &&
        var users := m.getRecentUsersByUser(req.filterValue).value;
        r.value.total == |users| &&
        r.value.data == MapAll(Window(Presented(users, RecentUserKey(req.item), req), req.from, req.to), RecentUserView)
  {
    var users := m.getRecentUsersByUser(req.filterValue);
    if users.Err? {
      return Err(users.error);
    }
    var resp := Present(users.value, RecentUserKey(req.item), req, RecentUserView);
    return Ok(resp);
  }

  /** GetUsersByZone: the zone lookup's error comes first, then the occupant query's. */
  method GetUsersByZone(req: ListRequest, m: Model) returns (r: Result<Listed<ApiUser>, Error>)
    ensures m.getZone(req.filterValue).Err? ==> r == Err(m.getZone(req.filterValue).error)
    ensures m.getZone(req.filterValue).Ok? && m.queryUsersByZone(m.getZone(req.filterValue).value).Err? ==>
      r == Err(m.queryUsersByZone(m.getZone(req.filterValue).value).error)
    ensures r.Ok? ==>
        m.getZone(req.filterValue).Ok? &&
        var users := m.queryUsersByZone(m.getZone(req.filterValue).value);
        users.Ok? && r.value.total == |users.value| &&
        r.value.data == MapAll(Window(Presented(users.value, ZoneUserKey(req.item), req), req.from, req.to), ZoneUserView)
    ensures m.getZone(req.filterValue).Ok? && m.queryUsersByZone(m.getZone(req.filterValue).value).Ok? ==> r.Ok?
  {
    var zone := m.getZone(req.filterValue);
    if zone.Err? {
      return Err(zone.error);
    }
    var users := m.queryUsersByZone(zone.value);
    if users.Err? {
      return Err(users.error);
    }
    var resp := Present(users.value, ZoneUserKey(req.item), req, ZoneUserView);
    return Ok(resp);
  }

  /** GetRecentZonesByUser: a model error is returned as is. */
  method GetRecentZonesByUser(req: ListRequest, m: Model) returns (r: Result<Listed<ApiZone>, Error>)
    ensures m.getRecentZonesByUser(req.filterValue).Err? ==> r == Err(m.getRecentZonesByUser(req.filterValue).error)
    ensures m.getRecentZonesByUser(req.filterValue).Ok? ==>
        r.Ok? &&
        var zones := m.getRecentZonesByUser(req.filterValue).value;
        r.value.total == |zones| &&
        r.value.data == MapAll(Window(Presented(zones, RecentZoneKey(req.item), req), req.from, req.to), RecentZoneView)
  {
    var zones := m.getRecentZonesByUser(req.filterValue);
    if zones.Err? {
      return Err(zones.error);
    }
    var resp := Present(zones.value, RecentZoneKey(req.item), req, RecentZoneView);
    return Ok(resp);
  }

  // ---------------------------------------------------------------------------
  // What the presented list and the page are

  /**
   * The presented list is a permutation of the fetched one; it is left as fetched unless
   * both Item and Order are given; a known field sorts it ascending, "DESC" descending.
   */
  lemma PresentedMeaning<T>(items: seq<T>, key: Option<T -> Key>, req: ListRequest)
    ensures multiset(Presented(items, key, req)) == multiset(items)
    ensures req.item == "" || req.order == "" ==> Presented(items, key, req) == items
    ensures req.item != "" && req.order != "" && key.Some? && req.order != Descending ==>
      SortedBy(Presented(items, key, req), key.value)
    ensures req.item != "" && req.order != "" && key.Some? && req.order == Descending ==>
      SortedDescBy(Presented(items, key, req), key.value)
    ensures req.item != "" && req.order != "" && key.None? ==>
      Presented(items, key, req) == if req.order == Descending then Reversed(items) else items
  {
    ArrangeMeaning(items, key, req.order);
  }

  /** The page holds, in order, exactly the items at positions From.. (To when non-zero). */
  lemma PageMeaning<T>(items: seq<T>, key: Option<T -> Key>, req: ListRequest)
    ensures var page := Window(Presented(items, key, req), req.from, req.to);
      |page| <= |items| &&
      (forall x :: x in page ==> x in multiset(items)) &&
      (0 <= req.from <= req.to < |items| && req.to != 0 ==> page == Presented(items, key, req)[req.from..req.to + 1]) &&
      (0 <= req.from <= |items| && req.to == 0 ==> page == Presented(items, key, req)[req.from..])
  {
    var p := Presented(items, key, req);
    PresentedMeaning(items, key, req);
    assert |multiset(p)| == |multiset(items)|;
    WindowMembers(p, req.from, req.to);
    forall x | x in Window(p, req.from, req.to)
      ensures x in multiset(items)
    {
      assert x in p;
      assert x in multiset(p);
    }
    if 0 <= req.from <= req.to < |items| && req.to != 0 {
      WindowSlice(p, req.from, req.to);
    }
    if 0 <= req.from <= |items| && req.to == 0 {
      WindowUnbounded(p, req.from);
    }
  }

  /** The known sort fields: every sortUsers field of getrecentusersbyuser.go, and "time" only there. */
  lemma SortFields()
    ensures forall f :: f in {"id", "name", "ic", "phoneNumber", "email", "lat", "long", "lastUpdated", "time"} ==> RecentUserKey(f).Some?
    ensures forall f :: RecentUserKey(f).Some? ==> f in {"id", "name", "ic", "phoneNumber", "email", "lat", "long", "lastUpdated", "time"}
    ensures forall f :: f != "time" ==> ZoneUserKey(f) == RecentUserKey(f)
    ensures ZoneUserKey("time").None?
    ensures forall f :: RecentZoneKey(f).Some? <==> f in {"id", "name", "type", "radius", "capacity", "time", "risk"}
  {
  }

  /** Sorting users by zone on "time" leaves the order, or reverses it for "DESC". */
  lemma ZoneUsersIgnoreTimeSort(users: seq<User>, req: ListRequest)
    requires req.item == "time" && req.order != ""
    ensures Presented(users, ZoneUserKey(req.item), req) == if req.order == Descending then Reversed(users) else users
  {
  }

  /** The occupancy and capacity flag of a recent zone never reach its response record. */
  lemma RecentZoneViewDropsOccupancy(z: Zone, w: Zone)
    requires w == z.(usersWithin := w.usersWithin, isCapacityExceeded := w.isCapacityExceeded, users := w.users, location := w.location)
    ensures RecentZoneView(z) == RecentZoneView(w)
    ensures RecentZoneView(z).usersWithin == 0 && !RecentZoneView(z).isCapacityExceeded
  {
  }

  /** A user's Time reaches the record of a recent contact but not that of a zone occupant. */
  lemma OccupantViewDropsTime(u: User, w: User)
    requires w == u.(time := w.time)
    ensures ZoneUserView(u) == ZoneUserView(w)
    ensures RecentUserView(u).time == u.time && ZoneUserView(u) == RecentUserView(u).(time := 0)
  {
  }
}
