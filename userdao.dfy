/**
 * pkg/dao/userdao.go: the `[Long, Lat]` location written by Create and Update and read
 * back by Get, the proximity match of GetNearbyUsers (a 0.1 km visible set and a 0.05 km
 * close-contact set), and the one-directional contact list written by updateUsersList.
 */
module UserDao {
  import opened Wrappers
  import opened Constants
  import opened Dto
  import opened Utility
  import opened History
  import opened Database
  import opened ZoneDao

  // ---------------------------------------------------------------------------
  // Stored documents

  /** A user whose location is the `Point [Long, Lat]` that Create and Update write. */
  function WithLocation(user: User): (u: User)
    ensures u.(location := user.location) == user
    ensures PointOf(u.location) == Some(Point(user.long, user.lat))
  {
    user.(location := Some(EncodeLocation(user.lat, user.long)))
  }

  /** Dropping Lat/Long on write and decoding them from the location on read gives the user back. */
  lemma StoredUserRoundTrip(user: User)
    ensures LoadUser(StoredUser(WithLocation(user))) == WithLocation(user)
  {
    var u := WithLocation(user);
    assert PointOf(StoredUser(u).location) == Some(Point(user.long, user.lat));
  }

  // ---------------------------------------------------------------------------
  // Proximity (GetNearbyUsers)

  /** The radius of the visible set and of the close-contact set, in kilometres. */
  const VisibleKm: real := 0.1
  const CloseKm: real := 0.05

  /** The proximity query: active, role "user", not the requester, located within `km` of the centre. */
  predicate IsNearby(u: User, requester: User, centre: Point, km: real, distance: (Point, Point) -> real)
  {
    u.isActive && u.role == UserRole && u.id != requester.id && Within(distance, centre, u.location, km)
  }

  function NearbyDocs(users: seq<User>, requester: User, centre: Point, km: real, distance: (Point, Point) -> real): seq<User>
  {
    Filter(users, u => IsNearby(u, requester, centre, km, distance))
  }

  /** The decoded users the proximity query returns, in collection order. */
  function Nearby(users: seq<User>, requester: User, centre: Point, km: real, distance: (Point, Point) -> real): seq<User>
  {
    LoadUsers(NearbyDocs(users, requester, centre, km, distance))
  }

  lemma NearbyOnlyQualifying(users: seq<User>, requester: User, centre: Point, km: real, distance: (Point, Point) -> real, x: User)
    requires x in Nearby(users, requester, centre, km, distance)
    ensures exists i :: 0 <= i < |users| && IsNearby(users[i], requester, centre, km, distance) && x == LoadUser(users[i])
  {
    var docs := NearbyDocs(users, requester, centre, km, distance);
    var r := LoadUsers(docs);
    var k :| 0 <= k < |r| && r[k] == x;
    LoadUsersAt(docs, k);
    var i :| 0 <= i < |users| && users[i] == docs[k];
    assert IsNearby(users[i], requester, centre, km, distance) && x == LoadUser(users[i]);
  }

  lemma NearbyEveryQualifying(users: seq<User>, requester: User, centre: Point, km: real, distance: (Point, Point) -> real, i: nat)
    requires i < |users| && IsNearby(users[i], requester, centre, km, distance)
    ensures LoadUser(users[i]) in Nearby(users, requester, centre, km, distance)
  {
    var docs := NearbyDocs(users, requester, centre, km, distance);
    FilterComplete(users, u => IsNearby(u, requester, centre, km, distance), users[i]);
    var k :| 0 <= k < |docs| && docs[k] == users[i];
    LoadUsersAt(docs, k);
  }

  /** The result holds the decoded qualifying documents and nothing else; the requester is never among them. */
  lemma NearbyMeaning(users: seq<User>, requester: User, centre: Point, km: real, distance: (Point, Point) -> real, x: User)
    ensures x in Nearby(users, requester, centre, km, distance) <==>
      exists i :: 0 <= i < |users| && IsNearby(users[i], requester, centre, km, distance) && x == LoadUser(users[i])
    ensures x in Nearby(users, requester, centre, km, distance) ==> x.id != requester.id
  {
    if x in Nearby(users, requester, centre, km, distance) {
      NearbyOnlyQualifying(users, requester, centre, km, distance, x);
    }
    if i :| 0 <= i < |users| && IsNearby(users[i], requester, centre, km, distance) && x == LoadUser(users[i]) {
      NearbyEveryQualifying(users, requester, centre, km, distance, i);
    }
  }

  /** Every close contact is also visible, so the contact count never exceeds the visible users. */
  lemma CloseContactsAreVisible(users: seq<User>, requester: User, centre: Point, distance: (Point, Point) -> real, x: User)
    ensures x in Nearby(users, requester, centre, CloseKm, distance) ==> x in Nearby(users, requester, centre, VisibleKm, distance)
    ensures |Nearby(users, requester, centre, CloseKm, distance)| <= |Nearby(users, requester, centre, VisibleKm, distance)|
  {
    NearbyMeaning(users, requester, centre, CloseKm, distance, x);
    NearbyMeaning(users, requester, centre, VisibleKm, distance, x);
    FilterWeaker(users, u => IsNearby(u, requester, centre, CloseKm, distance), u => IsNearby(u, requester, centre, VisibleKm, distance));
  }

  // ---------------------------------------------------------------------------
  // The contact list step of updateUsersList

  /** Processing one more contact: its old entries pulled when the initial list held it, then its snapshot pushed. */
  lemma RecordContactsNext(list: seq<User>, targets: seq<User>, now: int, i: nat)
    requires i < |targets|
    ensures RecordContacts(list, list, targets[..i + 1], now) ==
      Reconcile(RecordContacts(list, list, targets[..i], now), UserKey, UserInUsers(list, targets[i]), StoredUser(ContactSnapshot(targets[i], now)))
  {
    assert targets[..i + 1][..i] == targets[..i];
  }

  class UserDao {
    const db: Database

    constructor (db0: Database)
      ensures db == db0
    {
      db := db0;
    }

    /**
     * Create: the password replaced by its hash (`hashPassword` stands for bcrypt), the
     * location set to `[Long, Lat]`, and the document inserted.
     */
    method Create(user: User, hashPassword: string -> Result<string, Error>) returns (r: Result<User, Error>)
      modifies db
      ensures db.zones == old(db.zones)
      ensures hashPassword(user.password).Err? ==> r == Err(hashPassword(user.password).error) && db.users == old(db.users)
      ensures r.Ok? ==>
        hashPassword(user.password).Ok? &&
        r.value == WithLocation(user).(password := hashPassword(user.password).value) &&
        db.users == old(db.users) + [StoredUser(r.value)]
      ensures r.Err? && hashPassword(user.password).Ok? ==> r.error == DriverError && db.users == old(db.users)
    {
      var hashed := hashPassword(user.password);
      if hashed.Err? {
        return Err(hashed.error);
      }
      var u := user.(password := hashed.value);
      u := u.(location := Some(EncodeLocation(u.lat, u.long)));
      var err := db.InsertUser(StoredUser(u));
      if err.Some? {
        return Err(err.value);
      }
      return Ok(u);
    }

    /** Get: the first document with the ID, with Lat/Long decoded from its location. */
    method Get(id: string) returns (r: Result<User, Error>)
      ensures match FirstIndex(db.users, UserKey, id)
              case None => r == Err(NoDocuments) || r == Err(DriverError)
              case Some(i) => r == Ok(LoadUser(db.users[i])) || r == Err(DriverError)
    {
      var found := db.FindUser(id);
      if found.Err? {
        return Err(found.error);
      }
      var user := found.value;
      if user.location.Some? && |user.location.value.coordinates| == 2 {
        user := user.(long := user.location.value.coordinates[0], lat := user.location.value.coordinates[1]);
      } else {
        user := user.(lat := 0.0, long := 0.0);
      }
      return Ok(user);
    }

    /** Update: the location set to `[Long, Lat]`, then the whole document `$set` on the first match of the ID. */
    method Update(user: User) returns (r: Result<User, Error>)
      modifies db
      ensures db.zones == old(db.zones)
      ensures r.Ok? ==> r.value == WithLocation(user)
      ensures r.Ok? ==>
        db.users == match FirstIndex(old(db.users), UserKey, user.id)
                    case None => old(db.users)
                    case Some(i) => old(db.users)[i := StoredUser(r.value)]
      ensures r.Ok? && HasKey(old(db.users), UserKey, user.id) ==>
        FirstIndex(db.users, UserKey, user.id) == FirstIndex(old(db.users), UserKey, user.id) &&
        LoadUser(db.users[FirstIndex(db.users, UserKey, user.id).value]) == r.value
      ensures r.Err? ==> r.error == DriverError && db.users == old(db.users)
    {
      var u := user.(location := Some(EncodeLocation(user.lat, user.long)));
      ghost var u0 := db.users;
      var err := db.SetUser(user.id, StoredUser(u));
      if err.Some? {
        return Err(err.value);
      }
      FirstIndexSameKeys(u0, db.users, UserKey, user.id);
      StoredUserRoundTrip(user);
      return Ok(u);
    }

    /** One run of the proximity query and its cursor loop. */
    method FindNearby(requester: User, centre: Point, km: real) returns (r: Result<seq<User>, Error>)
      ensures r.Ok? ==> r.value == Nearby(db.users, requester, centre, km, db.distance)
      ensures r.Err? ==> r.error == DriverError
    {
      var findFailed: bool := *;
      if findFailed {
        return Err(DriverError);
      }
      var cursor := NearbyDocs(db.users, requester, centre, km, db.distance);
      var users: seq<User> := [];
      for i := 0 to |cursor|
        invariant users == LoadUsers(cursor[..i])
      {
        var decodeFailed: bool := *;
        if decodeFailed {
          return Err(DriverError);
        }
        assert cursor[..i + 1][..i] == cursor[..i];
        users := users + [LoadUser(cursor[i])];
      }
      assert cursor[..|cursor|] == cursor;
      return Ok(users);
    }

    /**
     * One contact of updateUsersList: its old entries pulled from the owner's list when
     * `present`, then the snapshot pushed; a failing write stops with the list as it was
     * before that write.
     */
    method ReconcileContact(owner: string, ghost u0: seq<User>, ghost current: seq<User>, present: bool, tmp: User)
      returns (err: Option<Error>, ghost pulled: seq<User>)
      requires HasKey(u0, UserKey, owner) && db.users == SetContacts(u0, owner, current)
      modifies db
      ensures db.zones == old(db.zones)
      ensures pulled == if present then Pull(current, UserKey, tmp.id) else current
      ensures err.None? ==> db.users == SetContacts(u0, owner, Reconcile(current, UserKey, present, StoredUser(tmp)))
      ensures err.Some? ==> err == Some(DriverError)
      ensures err.Some? ==> db.users == SetContacts(u0, owner, current) || db.users == SetContacts(u0, owner, pulled)
    {
      pulled := if present then Pull(current, UserKey, tmp.id) else current;
      if present {
        SetContactsTwice(u0, owner, current, current);
        err := db.PullContact(owner, tmp.id);
        if err.Some? {
          return;
        }
        SetContactsTwice(u0, owner, current, pulled);
      }
      SetContactsTwice(u0, owner, pulled, pulled);
      err := db.PushContact(owner, tmp);
      if err.Some? {
        return;
      }
      SetContactsTwice(u0, owner, pulled, pulled + [StoredUser(tmp)]);
      assert StoredUser(tmp).id == tmp.id;
    }

    /**
     * updateUsersList: with the requester's contact list read once by Get, each contact in
     * turn has its old entries pulled when that list held it, then a fresh snapshot pushed.
     * Only the requester's own list is written; a failure aborts without undoing the
     * contacts already processed (`done` of them, the next one possibly pulled).
     */
    method UpdateUsersList(user: User, targets: seq<User>, now: int) returns (err: Option<Error>, ghost done: nat)
      modifies db
      ensures db.zones == old(db.zones)
      ensures db.users == SetContacts(old(db.users), user.id, ContactsOf(db.users, user.id))
      ensures err.None? ==> HasKey(old(db.users), UserKey, user.id)
      ensures err.None? ==>
        var list := ContactsOf(old(db.users), user.id);
        ContactsOf(db.users, user.id) == RecordContacts(list, list, targets, now)
      ensures err.Some? ==> err == Some(DriverError) || err == Some(NoDocuments)
      ensures err.Some? ==> done <= |targets|
      ensures err.Some? && done <= |targets| ==>
        var list := ContactsOf(old(db.users), user.id);
        var processed := RecordContacts(list, list, targets[..done], now);
        ContactsOf(db.users, user.id) == processed ||
        (done < |targets| && ContactsOf(db.users, user.id) == Pull(processed, UserKey, targets[done].id))
    {
      done := 0;
      ghost var u0 := db.users;
      var withList := Get(user.id);
      if withList.Err? {
        SetContactsTwice(u0, user.id, ContactsOf(u0, user.id), ContactsOf(u0, user.id));
        return Some(withList.error), 0;
      }
      var initial := withList.value.users;
      ghost var list := ContactsOf(u0, user.id);
      assert HasKey(u0, UserKey, user.id) && initial == list;
      SetContactsTwice(u0, user.id, list, list);
      assert db.users == SetContacts(u0, user.id, list) by {
        var k := FirstIndex(u0, UserKey, user.id).value;
        assert u0[k := u0[k].(users := list)] == u0;
      }
      for i := 0 to |targets|
        invariant db.zones == old(db.zones)
        invariant db.users == SetContacts(u0, user.id, RecordContacts(list, list, targets[..i], now))
      {
        done := i;
        ghost var current := RecordContacts(list, list, targets[..i], now);
        SetContactsTwice(u0, user.id, current, current);
        var tmp := ContactSnapshot(targets[i], now);
        ghost var pulled: seq<User>;
        err, pulled := ReconcileContact(user.id, u0, current, UserInUsers(initial, tmp), tmp);
        if err.Some? {
          SetContactsTwice(u0, user.id, pulled, pulled);
          return;
        }
        RecordContactsNext(list, targets, now, i);
      }
      assert targets[..|targets|] == targets;
      done := |targets|;
      SetContactsTwice(u0, user.id, RecordContacts(list, list, targets, now), RecordContacts(list, list, targets, now));
      return None, done;
    }

    /**
     * GetNearbyUsers: the visible set (within 0.1 km) and the number of close contacts
     * (within 0.05 km), whose snapshots are recorded on the requester's contact list.
     * An invalid location is rejected before any query or write.
     */
    method GetNearbyUsers(user: User, now: int) returns (r: Result<(int, seq<User>), Error>)
      modifies db
      ensures db.zones == old(db.zones)
      ensures db.users == SetContacts(old(db.users), user.id, ContactsOf(db.users, user.id))
      ensures PointOf(user.location).None? ==> r == Err(InvalidArgumentError) && db.users == old(db.users)
      ensures r.Err? ==> r.error in {InvalidArgumentError, DriverError, NoDocuments}
      ensures r.Ok? ==> PointOf(user.location).Some?
      ensures r.Ok? && PointOf(user.location).Some? ==>
        var centre := PointOf(user.location).value;
        var close := Nearby(old(db.users), user, centre, CloseKm, db.distance);
        var list := ContactsOf(old(db.users), user.id);
        r.value.1 == Nearby(old(db.users), user, centre, VisibleKm, db.distance) &&
        r.value.0 == |close| && r.value.0 <= |r.value.1| &&
        ContactsOf(db.users, user.id) == RecordContacts(list, list, close, now)
    {
      if user.location.None? || |user.location.value.coordinates| != 2 {
        return Err(InvalidArgumentError);
      }
      var centre := Point(user.location.value.coordinates[0], user.location.value.coordinates[1]);
      ghost var u0 := db.users;
      SetContactsTwice(u0, user.id, ContactsOf(u0, user.id), ContactsOf(u0, user.id));
      assert SetContacts(u0, user.id, ContactsOf(u0, user.id)) == u0 by {
        if HasKey(u0, UserKey, user.id) {
          var k := FirstIndex(u0, UserKey, user.id).value;
          assert u0[k := u0[k].(users := u0[k].users)] == u0;
        }
      }
      var users := FindNearby(user, centre, VisibleKm);
      if users.Err? {
        return Err(users.error);
      }
      var nearbyUsers := FindNearby(user, centre, CloseKm);
      if nearbyUsers.Err? {
        return Err(nearbyUsers.error);
      }
      CloseContactsAreVisible(u0, user, centre, db.distance, user);
      var err, _ := UpdateUsersList(user, nearbyUsers.value, now);
      if err.Some? {
        return Err(err.value);
      }
      return Ok((|nearbyUsers.value|, users.value));
    }
  }
}
