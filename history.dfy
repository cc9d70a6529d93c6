/**
 * The contact-tracing histories kept inside documents: a zone's visitor list, a user's
 * visited-zone list and a user's contact list. All three are updated the same way
 * (pkg/dao/zonedao.go updateZonesList and updateUsersList, pkg/dao/userdao.go
 * updateUsersList): `$pull` every entry carrying the counterpart's ID when the owner's
 * copy in memory lists it, then `$push` a fresh snapshot. This module defines that list
 * update on values, the snapshots, and the 14-day recent window.
 */
module History {
  import opened Wrappers
  import opened Constants
  import opened Dto
  import opened Utility

  // ---------------------------------------------------------------------------
  // Lists keyed by ID

  /** Some entry carries the ID (UserInUsers, ZoneInZones). */
  predicate HasKey<T>(s: seq<T>, key: T -> string, id: string)
  {
    exists i :: 0 <= i < |s| && key(s[i]) == id
  }

  /** At most one entry per ID. */
  predicate UniqueKeys<T>(s: seq<T>, key: T -> string)
  {
    forall i, j :: 0 <= i < j < |s| ==> key(s[i]) != key(s[j])
  }

  /** The number of entries carrying the ID. */
  function CountKey<T>(s: seq<T>, key: T -> string, id: string): (n: nat)
    ensures n <= |s|
    ensures n == 0 <==> !HasKey(s, key, id)
  {
    if s == [] then 0
    else
      assert forall i :: 1 <= i < |s| ==> s[i] == s[1..][i - 1];
      (if key(s[0]) == id then 1 else 0) + CountKey(s[1..], key, id)
  }

  /** `$pull: {list: {id: id}}`: every entry carrying the ID removed, the rest in order. */
  function Pull<T>(s: seq<T>, key: T -> string, id: string): (r: seq<T>)
    ensures |r| <= |s|
    ensures !HasKey(r, key, id)
    ensures forall i :: 0 <= i < |r| ==> r[i] in s
  {
    if s == [] then []
    else
      var rest := Pull(s[1..], key, id);
      assert forall x :: x in s[1..] ==> x in s;
      (if key(s[0]) == id then [] else [s[0]]) + rest
  }

  /** Pulling is applied entry by entry: it distributes over concatenation. */
  lemma {:induction false} PullAppend<T>(a: seq<T>, b: seq<T>, key: T -> string, id: string)
    ensures Pull(a + b, key, id) == Pull(a, key, id) + Pull(b, key, id)
  {
    if a == [] {
      assert a + b == b;
    } else {
      assert (a + b)[1..] == a[1..] + b;
      PullAppend(a[1..], b, key, id);
    }
  }

  /** Pulling an ID that is absent changes nothing. */
  lemma {:induction false} PullAbsent<T>(s: seq<T>, key: T -> string, id: string)
    requires !HasKey(s, key, id)
    ensures Pull(s, key, id) == s
  {
    if s != [] {
      assert key(s[0]) != id;
      assert !HasKey(s[1..], key, id) by {
        forall i | 0 <= i < |s[1..]| ensures key(s[1..][i]) != id { assert s[1..][i] == s[i + 1]; }
      }
      PullAbsent(s[1..], key, id);
    }
  }

  /** Pulling keeps the entries of every other ID, with their counts. */
  lemma {:induction false} PullCountOthers<T>(s: seq<T>, key: T -> string, id: string, other: string)
    requires other != id
    ensures CountKey(Pull(s, key, id), key, other) == CountKey(s, key, other)
  {
    if s != [] {
      PullCountOthers(s[1..], key, id, other);
      var head := if key(s[0]) == id then [] else [s[0]];
      CountKeyAppend(head, Pull(s[1..], key, id), key, other);
    }
  }

  lemma {:induction false} CountKeyAppend<T>(a: seq<T>, b: seq<T>, key: T -> string, id: string)
    ensures CountKey(a + b, key, id) == CountKey(a, key, id) + CountKey(b, key, id)
  {
    if a == [] {
      assert a + b == b;
    } else {
      assert (a + b)[1..] == a[1..] + b;
      CountKeyAppend(a[1..], b, key, id);
    }
  }

  /** A pulled list keeps at most one entry per ID if the original did. */
  lemma {:induction false} PullUnique<T>(s: seq<T>, key: T -> string, id: string)
    requires UniqueKeys(s, key)
    ensures UniqueKeys(Pull(s, key, id), key)
  {
    if s != [] {
      var tail := s[1..];
      assert UniqueKeys(tail, key) by {
        forall i, j | 0 <= i < j < |tail| ensures key(tail[i]) != key(tail[j]) {
          assert tail[i] == s[i + 1] && tail[j] == s[j + 1];
        }
      }
      PullUnique(tail, key, id);
      var rest := Pull(tail, key, id);
      if key(s[0]) != id {
        assert !HasKey(rest, key, key(s[0])) by {
          forall i | 0 <= i < |rest| ensures key(rest[i]) != key(s[0]) {
            assert rest[i] in tail;
            var k :| 0 <= k < |tail| && tail[k] == rest[i];
            assert s[k + 1] == rest[i];
          }
        }
        var r := [s[0]] + rest;
        forall i, j | 0 <= i < j < |r| ensures key(r[i]) != key(r[j]) {
          if i == 0 {
            assert r[j] == rest[j - 1];
          } else {
            assert r[i] == rest[i - 1] && r[j] == rest[j - 1];
          }
        }
      }
    }
  }

  // ---------------------------------------------------------------------------
  // The list update

  /**
   * The owner's list after recording a visit: when the owner's copy in memory lists the
   * counterpart (`present`), first every entry with its ID is pulled; then the fresh
   * entry is appended.
   */
  function Reconcile<T>(s: seq<T>, key: T -> string, present: bool, entry: T): (r: seq<T>)
    ensures |r| >= 1 && r[|r| - 1] == entry
    ensures r[..|r| - 1] == if present then Pull(s, key, key(entry)) else s
  {
    (if present then Pull(s, key, key(entry)) else s) + [entry]
  }

  /** With the pull, the counterpart has exactly one entry afterwards: the fresh one, at the tail. */
  lemma ReconcileExactlyOnce<T>(s: seq<T>, key: T -> string, entry: T)
    ensures CountKey(Reconcile(s, key, true, entry), key, key(entry)) == 1
  {
    var p := Pull(s, key, key(entry));
    CountKeyAppend(p, [entry], key, key(entry));
    assert CountKey([entry], key, key(entry)) == 1 by {
      assert [entry][1..] == [];
    }
  }

  /** Without the pull (a stale or missing copy in memory) the counterpart gains one more entry. */
  lemma ReconcileWithoutPull<T>(s: seq<T>, key: T -> string, entry: T)
    ensures CountKey(Reconcile(s, key, false, entry), key, key(entry)) == CountKey(s, key, key(entry)) + 1
  {
    CountKeyAppend(s, [entry], key, key(entry));
    assert [entry][1..] == [];
  }

  /** Every other entry keeps its content and relative order. */
  lemma ReconcileKeepsOthers<T>(s: seq<T>, key: T -> string, present: bool, entry: T)
    ensures Pull(Reconcile(s, key, present, entry), key, key(entry)) == Pull(s, key, key(entry))
  {
    var id := key(entry);
    var front := if present then Pull(s, key, id) else s;
    PullAppend(front, [entry], key, id);
    assert [entry][1..] == [];
    assert Pull([entry], key, id) == [];
    if present {
      PullAbsent(Pull(s, key, id), key, id);
    }
  }

  /** The counts of all other IDs are unchanged. */
  lemma ReconcileCountsOthers<T>(s: seq<T>, key: T -> string, present: bool, entry: T, other: string)
    requires other != key(entry)
    ensures CountKey(Reconcile(s, key, present, entry), key, other) == CountKey(s, key, other)
  {
    var front := if present then Pull(s, key, key(entry)) else s;
    CountKeyAppend(front, [entry], key, other);
    assert [entry][1..] == [];
    if present { PullCountOthers(s, key, key(entry), other); }
  }

  /**
   * The invariant "at most one entry per counterpart" is kept when the presence test is
   * made on the stored list itself.
   */
  lemma ReconcileKeepsUnique<T>(s: seq<T>, key: T -> string, entry: T)
    requires UniqueKeys(s, key)
    ensures UniqueKeys(Reconcile(s, key, HasKey(s, key, key(entry)), entry), key)
  {
    var present := HasKey(s, key, key(entry));
    var front := if present then Pull(s, key, key(entry)) else s;
    if present { PullUnique(s, key, key(entry)); }
    assert !HasKey(front, key, key(entry));
    var r := front + [entry];
    forall i, j | 0 <= i < j < |r| ensures key(r[i]) != key(r[j]) {
      if j == |r| - 1 {
        assert r[i] == front[i];
      } else {
        assert r[i] == front[i] && r[j] == front[j];
      }
    }
  }

  /** Recording the same counterpart twice leaves only the later snapshot. */
  lemma ReconcileTwice<T>(s: seq<T>, key: T -> string, present: bool, first: T, second: T)
    requires key(first) == key(second)
    ensures Reconcile(Reconcile(s, key, present, first), key, true, second) == Reconcile(s, key, true, second)
  {
    ReconcileKeepsOthers(s, key, present, first);
  }

  /** Visits A, B, A on an empty list leave [B, A]: the stale A entry has moved to the tail. */
  lemma ReconcileScenario<T>(key: T -> string, a1: T, b: T, a2: T)
    requires key(a1) == key(a2) && key(a1) != key(b)
    ensures var s1 := Reconcile([], key, false, a1);
            var s2 := Reconcile(s1, key, HasKey(s1, key, key(b)), b);
            var s3 := Reconcile(s2, key, HasKey(s2, key, key(a2)), a2);
            s1 == [a1] && s2 == [a1, b] && s3 == [b, a2]
  {
    var s1 := Reconcile([], key, false, a1);
    assert s1 == [a1];
    assert !HasKey(s1, key, key(b));
    var s2 := Reconcile(s1, key, false, b);
    assert s2 == [a1, b];
    assert HasKey(s2, key, key(a2)) by { assert key(s2[0]) == key(a2); }
    assert s2[1..] == [b] && s2[1..][1..] == [];
    assert Pull(s2, key, key(a2)) == [b];
  }

  /** `ZoneInZones`: the visited-zone list has an entry with the zone's ID. */
  function ZoneInZones(zones: seq<Zone>, zone: Zone): (b: bool)
    ensures b <==> exists i :: 0 <= i < |zones| && zones[i].id == zone.id
  {
    HasKey(zones, ZoneKey, zone.id)
  }

  // ---------------------------------------------------------------------------
  // Snapshots

  /**
   * The zone entry pushed onto a user's visited-zone list (zonedao.go `tmp` in
   * updateZonesList): a field copy with Time = now and Risk recomputed; no location and
   * no visitor list.
   */
  function ZoneSnapshot(z: Zone, now: int): (s: Zone)
    ensures s.id == z.id && s.time == now
  {
    Zone(z.id, z.name, z.lat, z.long, z.kind, z.capacity, z.radius, None, z.usersWithin,
      z.isCapacityExceeded, now, GetZoneRisk(z.radius, z.capacity, z.usersWithin), [])
  }

  /** Every copied field of the zone entry, and the fields left at their zero value. */
  lemma ZoneSnapshotFields(z: Zone, now: int)
    ensures var s := ZoneSnapshot(z, now);
      s.id == z.id && s.name == z.name && s.lat == z.lat && s.long == z.long && s.kind == z.kind &&
      s.capacity == z.capacity && s.radius == z.radius &&
      s.usersWithin == z.usersWithin && s.isCapacityExceeded == z.isCapacityExceeded &&
      s.time == now && s.risk == GetZoneRisk(z.radius, z.capacity, z.usersWithin) &&
      s.users == [] && s.location == None
  {
  }

  /** The user entry pushed onto a zone's visitor list (zonedao.go `tmp` in updateUsersList). */
  function VisitorSnapshot(u: User, now: int): (s: User)
    ensures s.id == u.id && s.time == now
  {
    User(u.id, u.role, u.name, u.email, "", 0, u.lat, u.long, None, now, [], [], false,
      u.ic, u.phoneNumber, u.infected, 0, false)
  }

  /** Every copied field of the visitor entry; every other field is the zero value. */
  lemma VisitorSnapshotFields(u: User, now: int)
    ensures var s := VisitorSnapshot(u, now);
      s.id == u.id && s.role == u.role && s.name == u.name && s.email == u.email &&
      s.lat == u.lat && s.long == u.long && s.ic == u.ic && s.phoneNumber == u.phoneNumber && s.infected == u.infected &&
      s.time == now &&
      s.(id := "", role := "", name := "", email := "", lat := 0.0, long := 0.0, ic := "", phoneNumber := "",
         infected := 0, time := 0) == EmptyUser()
  {
  }

  /** The user entry pushed onto a user's contact list (userdao.go `tmp` in updateUsersList). */
  function ContactSnapshot(u: User, now: int): (s: User)
    ensures s.id == u.id && s.time == now
  {
    User(u.id, u.role, "", u.email, "", 0, u.lat, u.long, None, now, [], [], false, "", "", 0, 0, false)
  }

  /** Every copied field of the contact entry; every other field is the zero value. */
  lemma ContactSnapshotFields(u: User, now: int)
    ensures var s := ContactSnapshot(u, now);
      s.id == u.id && s.role == u.role && s.email == u.email && s.lat == u.lat && s.long == u.long &&
      s.time == now &&
      s.(id := "", role := "", email := "", lat := 0.0, long := 0.0, time := 0) == EmptyUser()
  {
  }

  /**
   * Snapshots are copies, not live references: they depend only on the copied fields,
   * never on the source's own history lists, location, stored time or risk.
   */
  lemma SnapshotsAreCopies(z: Zone, u: User, now: int, zs: seq<User>, us: seq<User>, vz: seq<Zone>)
    ensures ZoneSnapshot(z.(users := zs, location := None, time := 0, risk := 0), now) == ZoneSnapshot(z, now)
    ensures VisitorSnapshot(u.(users := us, zones := vz, location := None, time := 0), now) == VisitorSnapshot(u, now)
    ensures ContactSnapshot(u.(users := us, zones := vz, location := None, time := 0, name := "", ic := ""), now) == ContactSnapshot(u, now)
  {
  }

  /**
   * A record as it is stored, whether inserted, `$set` or pushed as a history entry: the
   * `bson:"-"` fields of a zone (Lat, Long, UsersWithin, IsCapacityExceeded) and of a user
   * (Lat, Long) are not written.
   */
  function StoredZone(z: Zone): (e: Zone)
    ensures e == LoadZone(z)
  {
    z.(lat := 0.0, long := 0.0, usersWithin := 0, isCapacityExceeded := false)
  }

  function StoredUser(u: User): (e: User)
    ensures e.(lat := u.lat, long := u.long) == u && e.lat == 0.0 && e.long == 0.0
  {
    u.(lat := 0.0, long := 0.0)
  }

  /** The stored entries keep the key and Time of the snapshot, so the list update and the recent window see them. */
  lemma StoredEntriesKeepKeyAndTime(z: Zone, u: User)
    ensures ZoneKey(StoredZone(z)) == ZoneKey(z) && StoredZone(z).time == z.time
    ensures UserKey(StoredUser(u)) == UserKey(u) && StoredUser(u).time == u.time
  {
  }

  // ---------------------------------------------------------------------------
  // The contact list written by UserDAO.updateUsersList

  /** The snapshots pushed for the contacts, in contact order. */
  function ContactEntries(targets: seq<User>, now: int): (r: seq<User>)
    ensures |r| == |targets|
  {
    if targets == [] then []
    else ContactEntries(targets[..|targets| - 1], now) + [StoredUser(ContactSnapshot(targets[|targets| - 1], now))]
  }

  /** The i-th pushed entry is the stored snapshot of the i-th contact. */
  lemma {:induction false} ContactEntriesAt(targets: seq<User>, now: int, i: nat)
    requires i < |targets|
    ensures ContactEntries(targets, now)[i] == StoredUser(ContactSnapshot(targets[i], now))
  {
    var n := |targets| - 1;
    if i < n {
      ContactEntriesAt(targets[..n], now, i);
    }
  }

  /**
   * The requester's contact list after the contacts are processed in order; the presence
   * of each contact is tested on the list `initial` read once before the loop.
   */
  function RecordContacts(list: seq<User>, initial: seq<User>, targets: seq<User>, now: int): seq<User>
  {
    if targets == [] then list
    else
      var t := targets[|targets| - 1];
      Reconcile(RecordContacts(list, initial, targets[..|targets| - 1], now), UserKey,
        UserInUsers(initial, t), StoredUser(ContactSnapshot(t, now)))
  }

  function Ids(users: seq<User>): (ids: seq<string>)
    ensures |ids| == |users| && forall i :: 0 <= i < |users| ==> ids[i] == users[i].id
  {
    if users == [] then [] else Ids(users[..|users| - 1]) + [users[|users| - 1].id]
  }

  /** Every entry whose ID is one of `ids` removed, the rest in order. */
  function PullAll(s: seq<User>, ids: seq<string>): seq<User>
  {
    if ids == [] then s else Pull(PullAll(s, ids[..|ids| - 1]), UserKey, ids[|ids| - 1])
  }

  /** What PullAll leaves: entries of the list whose ID is none of `ids`. */
  lemma {:induction false} PullAllSubset(s: seq<User>, ids: seq<string>)
    ensures forall i :: 0 <= i < |PullAll(s, ids)| ==> PullAll(s, ids)[i] in s && PullAll(s, ids)[i].id !in ids
  {
    if ids != [] {
      var front := ids[..|ids| - 1];
      PullAllSubset(s, front);
      var p := PullAll(s, front);
      var r := Pull(p, UserKey, ids[|ids| - 1]);
      forall i | 0 <= i < |r| ensures r[i] in s && r[i].id !in ids {
        assert r[i] in p;
        var k :| 0 <= k < |p| && p[k] == r[i];
        assert r[i].id != ids[|ids| - 1];
        assert ids == front + [ids[|ids| - 1]];
      }
    }
  }

  predicate DistinctIds(users: seq<User>)
  {
    forall i, j :: 0 <= i < j < |users| ==> users[i].id != users[j].id
  }

  /**
   * With distinct contact IDs, processing the contacts one by one equals removing every
   * contact's old entries and appending one fresh entry per contact, in contact order.
   */
  lemma {:induction false} RecordContactsShape(list: seq<User>, targets: seq<User>, now: int)
    requires DistinctIds(targets)
    ensures RecordContacts(list, list, targets, now) == PullAll(list, Ids(targets)) + ContactEntries(targets, now)
  {
    if targets == [] {
      assert Ids(targets) == [] && ContactEntries(targets, now) == [];
    } else {
      var n := |targets| - 1;
      var front := targets[..n];
      assert DistinctIds(front) by {
        forall i, j | 0 <= i < j < |front| ensures front[i].id != front[j].id {
          assert front[i] == targets[i] && front[j] == targets[j];
        }
      }
      RecordContactsShape(list, front, now);
      RecordContactsShapeStep(list, targets, now);
    }
  }

  /** The inductive step of RecordContactsShape: one more contact, distinct from the earlier ones. */
  lemma RecordContactsShapeStep(list: seq<User>, targets: seq<User>, now: int)
    requires targets != [] && DistinctIds(targets)
    requires var front := targets[..|targets| - 1];
      RecordContacts(list, list, front, now) == PullAll(list, Ids(front)) + ContactEntries(front, now)
    ensures RecordContacts(list, list, targets, now) == PullAll(list, Ids(targets)) + ContactEntries(targets, now)
  {
    var n := |targets| - 1;
    var front, t := targets[..n], targets[n];
    assert forall i :: 0 <= i < |front| ==> front[i].id != t.id by {
      forall i | 0 <= i < |front| ensures front[i].id != t.id { assert front[i] == targets[i]; }
    }
    var entry := StoredUser(ContactSnapshot(t, now));
    var a, e := PullAll(list, Ids(front)), ContactEntries(front, now);
    RecordContactsStep(list, front, t, now);
    RecordContactsUnfold(list, list, targets, now);
    var ids := Ids(targets);
    assert ids[..n] == Ids(front) && ids[n] == t.id;
    var p := Pull(a, UserKey, t.id);
    var rc, pa, ce := RecordContacts(list, list, targets, now), PullAll(list, ids), ContactEntries(targets, now);
    assert rc == p + e + [entry];
    assert pa == p;
    assert ce == e + [entry];
    AppendAssoc(p, e, entry);
    assert rc == pa + ce;
  }

  lemma AppendAssoc(p: seq<User>, e: seq<User>, x: User)
    ensures p + e + [x] == p + (e + [x])
  {
  }

  lemma RecordContactsUnfold(list: seq<User>, initial: seq<User>, targets: seq<User>, now: int)
    requires targets != []
    ensures var n := |targets| - 1;
      RecordContacts(list, initial, targets, now)
        == Reconcile(RecordContacts(list, initial, targets[..n], now), UserKey,
             UserInUsers(initial, targets[n]), StoredUser(ContactSnapshot(targets[n], now)))
  {
  }

  lemma RecordContactsStep(list: seq<User>, front: seq<User>, t: User, now: int)
    requires forall i :: 0 <= i < |front| ==> front[i].id != t.id
    ensures var a, e := PullAll(list, Ids(front)), ContactEntries(front, now);
      Reconcile(a + e, UserKey, UserInUsers(list, t), StoredUser(ContactSnapshot(t, now)))
        == Pull(a, UserKey, t.id) + e + [StoredUser(ContactSnapshot(t, now))]
  {
    var a, e := PullAll(list, Ids(front)), ContactEntries(front, now);
    assert !HasKey(e, UserKey, t.id) by {
      forall i | 0 <= i < |e| ensures e[i].id != t.id { ContactEntriesAt(front, now, i); }
    }
    PullAbsent(e, UserKey, t.id);
    if UserInUsers(list, t) {
      PullAppend(a, e, UserKey, t.id);
    } else {
      assert !HasKey(a, UserKey, t.id) by {
        PullAllSubset(list, Ids(front));
        forall i | 0 <= i < |a| ensures a[i].id != t.id { assert a[i] in list; }
      }
      PullAbsent(a, UserKey, t.id);
    }
  }

  /** The entries of the old list whose ID is not a contact's survive, in order. */
  lemma {:induction false} PullAllKeepsOthers(s: seq<User>, ids: seq<string>, x: User)
    requires x.id !in ids
    ensures CountKey(PullAll(s, ids), UserKey, x.id) == CountKey(s, UserKey, x.id)
  {
    if ids != [] {
      PullAllKeepsOthers(s, ids[..|ids| - 1], x);
      assert ids[|ids| - 1] != x.id;
      PullCountOthers(PullAll(s, ids[..|ids| - 1]), UserKey, ids[|ids| - 1], x.id);
    }
  }

  /** Each contact then has exactly one entry in the requester's list. */
  lemma RecordContactsOncePerContact(list: seq<User>, targets: seq<User>, now: int, k: nat)
    requires DistinctIds(targets) && k < |targets|
    ensures CountKey(RecordContacts(list, list, targets, now), UserKey, targets[k].id) == 1
  {
    RecordContactsShape(list, targets, now);
    var ids, id := Ids(targets), targets[k].id;
    var a, e := PullAll(list, ids), ContactEntries(targets, now);
    assert id in ids by { assert ids[k] == id; }
    PullAllSubset(list, ids);
    assert !HasKey(a, UserKey, id);
    CountKeyAppend(a, e, UserKey, id);
    ContactEntriesCount(targets, now, k);
  }

  lemma {:induction false} ContactEntriesCount(targets: seq<User>, now: int, k: nat)
    requires DistinctIds(targets) && k < |targets|
    ensures CountKey(ContactEntries(targets, now), UserKey, targets[k].id) == 1
  {
    var n := |targets| - 1;
    var front := targets[..n];
    var last := [StoredUser(ContactSnapshot(targets[n], now))];
    CountKeyAppend(ContactEntries(front, now), last, UserKey, targets[k].id);
    assert last[1..] == [];
    if k < n {
      assert DistinctIds(front);
      ContactEntriesCount(front, now, k);
      assert targets[n].id != targets[k].id;
    } else {
      var e := ContactEntries(front, now);
      assert !HasKey(e, UserKey, targets[k].id) by {
        forall i | 0 <= i < |e| ensures e[i].id != targets[k].id {
          ContactEntriesAt(front, now, i);
          assert front[i] == targets[i];
        }
      }
    }
  }

  // ---------------------------------------------------------------------------
  // The recent window (QueryRecentUsersByZoneID)

  /** Malaysia time is UTC+8 without daylight saving: the offset and the day in milliseconds. */
  const Offset: int := 28_800_000
  const Day: int := 86_400_000

  /** The UTC+8 calendar day of a millisecond timestamp (days since 1970-01-01 local). */
  function LocalDay(t: int): int
  {
    (t + Offset) / Day
  }

  /**
   * Local midnight of the day 13 days before now: `now - 13 days` formatted as a yyyyMMdd
   * date, parsed as UTC midnight, shifted by -8 h, in milliseconds.
   */
  function RecentCutoff(now: int): (c: int)
    ensures (c + Offset) % Day == 0
    ensures now - 14 * Day < c <= now - 13 * Day
  {
    LocalDay(now - 13 * Day) * Day - Offset
  }

  /** An entry is recent iff its local day is today or one of the 13 days before. */
  lemma RecentIsFourteenDays(now: int, t: int)
    ensures t >= RecentCutoff(now) <==> LocalDay(t) >= LocalDay(now) - 13
  {
    var d := LocalDay(now);
    assert LocalDay(now - 13 * Day) == d - 13 by {
      assert now - 13 * Day + Offset == (now + Offset) - 13 * Day;
      DivShift(now + Offset, 13);
    }
    var c := RecentCutoff(now);
    assert c + Offset == (d - 13) * Day;
    if t >= c {
      assert t + Offset >= (d - 13) * Day;
      DivMonotone((d - 13) * Day, t + Offset);
      assert (d - 13) * Day / Day == d - 13;
    } else {
      assert t + Offset < (d - 13) * Day;
      DivBelow(t + Offset, d - 13);
    }
  }

  lemma DivShift(x: int, k: int)
    ensures (x - k * Day) / Day == x / Day - k
  {
    var q, r := x / Day, x % Day;
    assert x == q * Day + r && 0 <= r < Day;
    assert x - k * Day == (q - k) * Day + r;
  }

  lemma DivMonotone(x: int, y: int)
    requires x <= y
    ensures x / Day <= y / Day
  {
    var qx, rx := x / Day, x % Day;
    var qy, ry := y / Day, y % Day;
    assert x == qx * Day + rx && y == qy * Day + ry;
    assert (qx - qy - 1) * Day < 0;
  }

  lemma DivBelow(x: int, k: int)
    requires x < k * Day
    ensures x / Day < k
  {
    var q, r := x / Day, x % Day;
    assert x == q * Day + r && 0 <= r;
    assert (q - k) * Day < 0;
  }

  /** The entries with Time at or after the cutoff, in list order. */
  function RecentEntries(users: seq<User>, cutoff: int): (r: seq<User>)
    ensures |r| <= |users|
    ensures forall i :: 0 <= i < |r| ==> r[i].time >= cutoff && r[i] in users
    ensures forall i :: 0 <= i < |users| && users[i].time >= cutoff ==> users[i] in r
  {
    if users == [] then []
    else
      var front := users[..|users| - 1];
      var last := users[|users| - 1];
      var r := RecentEntries(front, cutoff) + (if last.time >= cutoff then [last] else []);
      assert forall i :: 0 <= i < |users| - 1 ==> users[i] == front[i];
      assert forall x :: x in front ==> x in users;
      r
  }

  /** Every recent entry is kept as often as it occurs; every older one is dropped. */
  lemma {:induction false} RecentEntriesCounts(users: seq<User>, cutoff: int)
    ensures forall u :: multiset(RecentEntries(users, cutoff))[u] == if u.time >= cutoff then multiset(users)[u] else 0
  {
    if users != [] {
      var front := users[..|users| - 1];
      RecentEntriesCounts(front, cutoff);
      assert users == front + [users[|users| - 1]];
    }
  }

  /** The kept entries keep list order: the filter distributes over concatenation. */
  lemma {:induction false} RecentEntriesAppend(a: seq<User>, b: seq<User>, cutoff: int)
    ensures RecentEntries(a + b, cutoff) == RecentEntries(a, cutoff) + RecentEntries(b, cutoff)
  {
    if b == [] {
      assert a + b == a;
    } else {
      var front := b[..|b| - 1];
      assert (a + b)[..|a + b| - 1] == a + front;
      assert (a + b)[|a + b| - 1] == b[|b| - 1];
      RecentEntriesAppend(a, front, cutoff);
    }
  }

  /** One entry: kept exactly when its Time is at or after the cutoff. */
  lemma RecentEntriesSingle(u: User, cutoff: int)
    ensures RecentEntries([u], cutoff) == if u.time >= cutoff then [u] else []
  {
    assert [u][..0] == [];
  }
}
