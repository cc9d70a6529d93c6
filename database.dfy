/**
 * The document store behind the DAOs: the `users` and `zones` collections of MongoDB,
 * each a sequence of documents in natural (cursor) order, and the geometry its geo
 * operators use. `FindOne` and `UpdateOne` with `{id: …}` select the first document
 * carrying that ID; an `UpdateOne` that selects nothing succeeds without effect.
 * A driver call may fail for reasons the model does not see (network, decoding); such
 * a failure is a nondeterministic choice and is reported as `DriverError`.
 */
module Database {
  import opened Wrappers
  import opened Constants
  import opened Dto
  import opened History

  // ---------------------------------------------------------------------------
  // Selecting documents

  /** The documents a query with predicate `p` selects, in collection order. */
  function Filter<T>(s: seq<T>, p: T -> bool): (r: seq<T>)
    ensures |r| <= |s|
    ensures forall i :: 0 <= i < |r| ==> p(r[i]) && r[i] in s
  {
    if s == [] then []
    else
      var front := s[..|s| - 1];
      assert forall x :: x in front ==> x in s;
      Filter(front, p) + (if p(s[|s| - 1]) then [s[|s| - 1]] else [])
  }

  /** Every selected document passes the filter, and every passing document is selected. */
  lemma {:induction false} FilterComplete<T>(s: seq<T>, p: T -> bool, x: T)
    ensures x in Filter(s, p) <==> x in s && p(x)
  {
    if s != [] {
      var front := s[..|s| - 1];
      FilterComplete(front, p, x);
      assert s == front + [s[|s| - 1]];
    }
  }

  /** Every passing document is selected as often as it occurs; every other is never selected. */
  lemma {:induction false} FilterCounts<T>(s: seq<T>, p: T -> bool)
    ensures forall x :: multiset(Filter(s, p))[x] == if p(x) then multiset(s)[x] else 0
  {
    if s != [] {
      var front := s[..|s| - 1];
      FilterCounts(front, p);
      assert s == front + [s[|s| - 1]];
    }
  }

  /** The selection keeps collection order: filtering distributes over concatenation. */
  lemma {:induction false} FilterAppend<T>(a: seq<T>, b: seq<T>, p: T -> bool)
    ensures Filter(a + b, p) == Filter(a, p) + Filter(b, p)
  {
    if b == [] {
      assert a + b == a;
    } else {
      var front := b[..|b| - 1];
      assert (a + b)[..|a + b| - 1] == a + front;
      assert (a + b)[|a + b| - 1] == b[|b| - 1];
      FilterAppend(a, front, p);
    }
  }

  /** One document: selected exactly when it passes. */
  lemma FilterSingle<T>(x: T, p: T -> bool)
    ensures Filter([x], p) == if p(x) then [x] else []
  {
    assert [x][..0] == [];
  }

  /** A filter implied by another selects at least as many documents. */
  lemma {:induction false} FilterWeaker<T>(s: seq<T>, p: T -> bool, q: T -> bool)
    requires forall x :: p(x) ==> q(x)
    ensures |Filter(s, p)| <= |Filter(s, q)|
  {
    if s != [] {
      FilterWeaker(s[..|s| - 1], p, q);
    }
  }

  /** The first position holding a document with the ID: the one `FindOne`/`UpdateOne` select. */
  function FirstIndex<T>(s: seq<T>, key: T -> string, id: string): (r: Option<nat>)
    ensures r.Some? ==> r.value < |s| && key(s[r.value]) == id
    ensures r.Some? ==> forall j :: 0 <= j < r.value ==> key(s[j]) != id
    ensures r.None? <==> !HasKey(s, key, id)
  {
    if s == [] then None
    else if key(s[0]) == id then Some(0)
    else
      assert forall j :: 1 <= j < |s| ==> s[j] == s[1..][j - 1];
      match FirstIndex(s[1..], key, id)
      case None => None
      case Some(k) => Some(k + 1)
  }

  /** The first position whose element satisfies `p`. */
  function FirstWhere<T>(s: seq<T>, p: T -> bool): (r: Option<nat>)
    ensures r.Some? ==> r.value < |s| && p(s[r.value])
    ensures r.Some? ==> forall j :: 0 <= j < r.value ==> !p(s[j])
    ensures r.None? ==> forall j :: 0 <= j < |s| ==> !p(s[j])
  {
    if s == [] then None
    else if p(s[0]) then Some(0)
    else
      assert forall j :: 1 <= j < |s| ==> s[j] == s[1..][j - 1];
      match FirstWhere(s[1..], p)
      case None => None
      case Some(k) => Some(k + 1)
  }

  /** Sequences that agree on `p` position by position have the same first position satisfying it. */
  lemma {:induction false} FirstWhereSame<T>(a: seq<T>, b: seq<T>, p: T -> bool)
    requires |a| == |b| && forall i :: 0 <= i < |a| ==> p(a[i]) == p(b[i])
    ensures FirstWhere(a, p) == FirstWhere(b, p)
  {
    if a != [] && !p(a[0]) {
      assert forall i :: 0 <= i < |a| - 1 ==> a[1..][i] == a[i + 1] && b[1..][i] == b[i + 1];
      FirstWhereSame(a[1..], b[1..], p);
    }
  }

  /** The views of the elements whose outcome did not fail and that satisfy `hit`, in order. */
  function Picked<T, U>(s: seq<T>, failed: seq<bool>, hit: T -> bool, view: T -> U): seq<U>
    requires |failed| == |s|
  {
    if s == [] then []
    else
      var n := |s| - 1;
      Picked(s[..n], failed[..n], hit, view) + (if !failed[n] && hit(s[n]) then [view(s[n])] else [])
  }

  /** One more position extends the picked views by that element's view exactly when it is picked. */
  lemma PickedStep<T, U>(s: seq<T>, failed: seq<bool>, hit: T -> bool, view: T -> U, b: bool, i: nat)
    requires |failed| == i < |s|
    ensures Picked(s[..i + 1], failed + [b], hit, view) ==
      Picked(s[..i], failed, hit, view) + (if !b && hit(s[i]) then [view(s[i])] else [])
  {
    assert s[..i + 1][..i] == s[..i] && (failed + [b])[..i] == failed;
  }

  lemma {:induction false} PickedMembers<T, U>(s: seq<T>, failed: seq<bool>, hit: T -> bool, view: T -> U, y: U)
    requires |failed| == |s|
    ensures y in Picked(s, failed, hit, view) <==> exists i :: 0 <= i < |s| && !failed[i] && hit(s[i]) && y == view(s[i])
  {
    if s != [] {
      var n := |s| - 1;
      PickedMembers(s[..n], failed[..n], hit, view, y);
      assert forall i :: 0 <= i < n ==> s[..n][i] == s[i] && failed[..n][i] == failed[i];
    }
  }

  /** The selection depends on the keys alone. */
  lemma {:induction false} FirstIndexSameKeys<T>(a: seq<T>, b: seq<T>, key: T -> string, id: string)
    requires |a| == |b| && forall i :: 0 <= i < |a| ==> key(a[i]) == key(b[i])
    ensures FirstIndex(a, key, id) == FirstIndex(b, key, id)
  {
    if a != [] && key(a[0]) != id {
      assert forall i :: 0 <= i < |a| - 1 ==> a[1..][i] == a[i + 1] && b[1..][i] == b[i + 1];
      FirstIndexSameKeys(a[1..], b[1..], key, id);
    }
  }

  // ---------------------------------------------------------------------------
  // The history lists embedded in documents

  /** The contact list (`users`) of the user document with the ID; none when absent. */
  function ContactsOf(users: seq<User>, owner: string): seq<User>
  {
    match FirstIndex(users, UserKey, owner)
    case None => []
    case Some(i) => users[i].users
  }

  /** The visited-zone list (`zones`) of the user document with the ID. */
  function VisitedZonesOf(users: seq<User>, owner: string): seq<Zone>
  {
    match FirstIndex(users, UserKey, owner)
    case None => []
    case Some(i) => users[i].zones
  }

  /** The visitor list (`users`) of the zone document with the ID. */
  function VisitorsOf(zones: seq<Zone>, owner: string): seq<User>
  {
    match FirstIndex(zones, ZoneKey, owner)
    case None => []
    case Some(i) => zones[i].users
  }

  /** The collection after an `UpdateOne` on the contact list of the owner's document. */
  function SetContacts(users: seq<User>, owner: string, list: seq<User>): (r: seq<User>)
    ensures |r| == |users|
  {
    match FirstIndex(users, UserKey, owner)
    case None => users
    case Some(i) => users[i := users[i].(users := list)]
  }

  function SetVisitedZones(users: seq<User>, owner: string, list: seq<Zone>): (r: seq<User>)
    ensures |r| == |users|
  {
    match FirstIndex(users, UserKey, owner)
    case None => users
    case Some(i) => users[i := users[i].(zones := list)]
  }

  function SetVisitors(zones: seq<Zone>, owner: string, list: seq<User>): (r: seq<Zone>)
    ensures |r| == |zones|
  {
    match FirstIndex(zones, ZoneKey, owner)
    case None => zones
    case Some(i) => zones[i := zones[i].(users := list)]
  }

  /** Two user collections that differ at most in the history lists of their documents. */
  predicate SameProfiles(a: seq<User>, b: seq<User>)
  {
    |a| == |b| && forall i :: 0 <= i < |a| ==> a[i].(users := [], zones := []) == b[i].(users := [], zones := [])
  }

  /** Two zone collections that differ at most in the visitor lists of their documents. */
  predicate SameZoneProfiles(a: seq<Zone>, b: seq<Zone>)
  {
    |a| == |b| && forall i :: 0 <= i < |a| ==> a[i].(users := []) == b[i].(users := [])
  }

  lemma SameProfilesTrans(a: seq<User>, b: seq<User>, c: seq<User>)
    requires SameProfiles(a, b) && SameProfiles(b, c)
    ensures SameProfiles(a, c)
  {
    forall i | 0 <= i < |a| ensures a[i].(users := [], zones := []) == c[i].(users := [], zones := []) {
      assert a[i].(users := [], zones := []) == b[i].(users := [], zones := []);
    }
  }

  lemma SameZoneProfilesTrans(a: seq<Zone>, b: seq<Zone>, c: seq<Zone>)
    requires SameZoneProfiles(a, b) && SameZoneProfiles(b, c)
    ensures SameZoneProfiles(a, c)
  {
    forall i | 0 <= i < |a| ensures a[i].(users := []) == c[i].(users := []) {
      assert a[i].(users := []) == b[i].(users := []);
    }
  }

  /**
   * Writing a history list changes nothing but that list: the profiles stay, the owner
   * reads the new list back, and every other owner's list is as before.
   */
  lemma SetContactsEffect(users: seq<User>, owner: string, list: seq<User>, other: string)
    ensures SameProfiles(users, SetContacts(users, owner, list))
    ensures HasKey(users, UserKey, owner) ==> ContactsOf(SetContacts(users, owner, list), owner) == list
    ensures other != owner ==> ContactsOf(SetContacts(users, owner, list), other) == ContactsOf(users, other)
    ensures VisitedZonesOf(SetContacts(users, owner, list), other) == VisitedZonesOf(users, other)
  {
    var r := SetContacts(users, owner, list);
    FirstIndexSameKeys(users, r, UserKey, owner);
    FirstIndexSameKeys(users, r, UserKey, other);
  }

  lemma SetVisitedZonesEffect(users: seq<User>, owner: string, list: seq<Zone>, other: string)
    ensures SameProfiles(users, SetVisitedZones(users, owner, list))
    ensures HasKey(users, UserKey, owner) ==> VisitedZonesOf(SetVisitedZones(users, owner, list), owner) == list
    ensures other != owner ==> VisitedZonesOf(SetVisitedZones(users, owner, list), other) == VisitedZonesOf(users, other)
    ensures ContactsOf(SetVisitedZones(users, owner, list), other) == ContactsOf(users, other)
  {
    var r := SetVisitedZones(users, owner, list);
    FirstIndexSameKeys(users, r, UserKey, owner);
    FirstIndexSameKeys(users, r, UserKey, other);
  }

  lemma SetVisitorsEffect(zones: seq<Zone>, owner: string, list: seq<User>, other: string)
    ensures SameZoneProfiles(zones, SetVisitors(zones, owner, list))
    ensures HasKey(zones, ZoneKey, owner) ==> VisitorsOf(SetVisitors(zones, owner, list), owner) == list
    ensures other != owner ==> VisitorsOf(SetVisitors(zones, owner, list), other) == VisitorsOf(zones, other)
  {
    var r := SetVisitors(zones, owner, list);
    FirstIndexSameKeys(zones, r, ZoneKey, owner);
    FirstIndexSameKeys(zones, r, ZoneKey, other);
  }

  /** A second write of the same owner's list replaces the first; an absent owner reads back an empty list. */
  lemma SetContactsTwice(users: seq<User>, owner: string, l1: seq<User>, l2: seq<User>)
    ensures SetContacts(SetContacts(users, owner, l1), owner, l2) == SetContacts(users, owner, l2)
    ensures ContactsOf(SetContacts(users, owner, l1), owner) == if HasKey(users, UserKey, owner) then l1 else []
  {
    FirstIndexSameKeys(users, SetContacts(users, owner, l1), UserKey, owner);
  }

  lemma SetVisitedZonesTwice(users: seq<User>, owner: string, l1: seq<Zone>, l2: seq<Zone>)
    ensures SetVisitedZones(SetVisitedZones(users, owner, l1), owner, l2) == SetVisitedZones(users, owner, l2)
    ensures VisitedZonesOf(SetVisitedZones(users, owner, l1), owner) == if HasKey(users, UserKey, owner) then l1 else []
  {
    FirstIndexSameKeys(users, SetVisitedZones(users, owner, l1), UserKey, owner);
  }

  lemma SetVisitorsTwice(zones: seq<Zone>, owner: string, l1: seq<User>, l2: seq<User>)
    ensures SetVisitors(SetVisitors(zones, owner, l1), owner, l2) == SetVisitors(zones, owner, l2)
    ensures VisitorsOf(SetVisitors(zones, owner, l1), owner) == if HasKey(zones, ZoneKey, owner) then l1 else []
  {
    FirstIndexSameKeys(zones, SetVisitors(zones, owner, l1), ZoneKey, owner);
  }

  // ---------------------------------------------------------------------------
  // The store

  class Database {
    /** The `users` collection. */
    var users: seq<User>
    /** The `zones` collection. */
    var zones: seq<Zone>
    /**
     * The distance in kilometres between two GeoJSON points as the geo operators measure
     * it (`$centerSphere` takes `km / 6378.1` radians, `$nearSphere` a `$maxDistance` in
     * metres); the spherical geometry itself is not modelled.
     */
    const distance: (Point, Point) -> real

    constructor (users0: seq<User>, zones0: seq<Zone>, distance0: (Point, Point) -> real)
      ensures users == users0 && zones == zones0 && distance == distance0
    {
      users := users0;
      zones := zones0;
      distance := distance0;
    }

    /** `users.FindOne({id})`: the first document with the ID (as stored), or `NoDocuments`. */
    method FindUser(id: string) returns (r: Result<User, Error>)
      ensures match FirstIndex(users, UserKey, id)
              case None => r == Err(NoDocuments) || r == Err(DriverError)
              case Some(i) => r == Ok(users[i]) || r == Err(DriverError)
    {
      var failed: bool := *;
      if failed {
        return Err(DriverError);
      }
      match FirstIndex(users, UserKey, id)
      case None => r := Err(NoDocuments);
      case Some(i) => r := Ok(users[i]);
    }

    /** `zones.FindOne({id})`. */
    method FindZone(id: string) returns (r: Result<Zone, Error>)
      ensures match FirstIndex(zones, ZoneKey, id)
              case None => r == Err(NoDocuments) || r == Err(DriverError)
              case Some(i) => r == Ok(zones[i]) || r == Err(DriverError)
    {
      var failed: bool := *;
      if failed {
        return Err(DriverError);
      }
      match FirstIndex(zones, ZoneKey, id)
      case None => r := Err(NoDocuments);
      case Some(i) => r := Ok(zones[i]);
    }

    /** `users.InsertOne(doc)`: the document is appended, or the insert fails and nothing changes. */
    method InsertUser(doc: User) returns (err: Option<Error>)
      modifies this
      ensures zones == old(zones)
      ensures err.None? ==> users == old(users) + [doc]
      ensures err.Some? ==> err == Some(DriverError) && users == old(users)
    {
      var failed: bool := *;
      if failed {
        return Some(DriverError);
      }
      users := users + [doc];
      return None;
    }

    /** `users.UpdateOne({id}, {$set: doc})`: the first document with the ID becomes `doc`. */
    method SetUser(id: string, doc: User) returns (err: Option<Error>)
      modifies this
      ensures zones == old(zones)
      ensures err.None? ==> users == match FirstIndex(old(users), UserKey, id)
                                     case None => old(users)
                                     case Some(i) => old(users)[i := doc]
      ensures err.Some? ==> err == Some(DriverError) && users == old(users)
    {
      var failed: bool := *;
      if failed {
        return Some(DriverError);
      }
      err := None;
      match FirstIndex(users, UserKey, id)
      case None =>
      case Some(i) => users := users[i := doc];
    }

    /** `users.UpdateOne({id: owner}, {$pull: {users: {id}}})`. */
    method PullContact(owner: string, id: string) returns (err: Option<Error>)
      modifies this
      ensures zones == old(zones)
      ensures err.None? ==> users == SetContacts(old(users), owner, Pull(ContactsOf(old(users), owner), UserKey, id))
      ensures err.Some? ==> err == Some(DriverError) && users == old(users)
    {
      var failed: bool := *;
      if failed {
        return Some(DriverError);
      }
      users := SetContacts(users, owner, Pull(ContactsOf(users, owner), UserKey, id));
      return None;
    }

    /** `users.UpdateOne({id: owner}, {$push: {users: entry}})`; the entry is stored without its `bson:"-"` fields. */
    method PushContact(owner: string, entry: User) returns (err: Option<Error>)
      modifies this
      ensures zones == old(zones)
      ensures err.None? ==> users == SetContacts(old(users), owner, ContactsOf(old(users), owner) + [StoredUser(entry)])
      ensures err.Some? ==> err == Some(DriverError) && users == old(users)
    {
      var failed: bool := *;
      if failed {
        return Some(DriverError);
      }
      users := SetContacts(users, owner, ContactsOf(users, owner) + [StoredUser(entry)]);
      return None;
    }

    /** `users.UpdateOne({id: owner}, {$pull: {zones: {id}}})`. */
    method PullVisitedZone(owner: string, id: string) returns (err: Option<Error>)
      modifies this
      ensures zones == old(zones)
      ensures err.None? ==> users == SetVisitedZones(old(users), owner, Pull(VisitedZonesOf(old(users), owner), ZoneKey, id))
      ensures err.Some? ==> err == Some(DriverError) && users == old(users)
    {
      var failed: bool := *;
      if failed {
        return Some(DriverError);
      }
      users := SetVisitedZones(users, owner, Pull(VisitedZonesOf(users, owner), ZoneKey, id));
      return None;
    }

    /** `users.UpdateOne({id: owner}, {$push: {zones: entry}})`. */
    method PushVisitedZone(owner: string, entry: Zone) returns (err: Option<Error>)
      modifies this
      ensures zones == old(zones)
      ensures err.None? ==> users == SetVisitedZones(old(users), owner, VisitedZonesOf(old(users), owner) + [StoredZone(entry)])
      ensures err.Some? ==> err == Some(DriverError) && users == old(users)
    {
      var failed: bool := *;
      if failed {
        return Some(DriverError);
      }
      users := SetVisitedZones(users, owner, VisitedZonesOf(users, owner) + [StoredZone(entry)]);
      return None;
    }

    /** `zones.UpdateOne({id: owner}, {$pull: {users: {id}}})`. */
    method PullVisitor(owner: string, id: string) returns (err: Option<Error>)
      modifies this
      ensures users == old(users)
      ensures err.None? ==> zones == SetVisitors(old(zones), owner, Pull(VisitorsOf(old(zones), owner), UserKey, id))
      ensures err.Some? ==> err == Some(DriverError) && zones == old(zones)
    {
      var failed: bool := *;
      if failed {
        return Some(DriverError);
      }
      zones := SetVisitors(zones, owner, Pull(VisitorsOf(zones, owner), UserKey, id));
      return None;
    }

    /** `zones.UpdateOne({id: owner}, {$push: {users: entry}})`. */
    method PushVisitor(owner: string, entry: User) returns (err: Option<Error>)
      modifies this
      ensures users == old(users)
      ensures err.None? ==> zones == SetVisitors(old(zones), owner, VisitorsOf(old(zones), owner) + [StoredUser(entry)])
      ensures err.Some? ==> err == Some(DriverError) && zones == old(zones)
    {
      var failed: bool := *;
      if failed {
        return Some(DriverError);
      }
      zones := SetVisitors(zones, owner, VisitorsOf(zones, owner) + [StoredUser(entry)]);
      return None;
    }
  }
}
