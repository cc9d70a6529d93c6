# GalaBackend contact-tracing core in Dafny

A model of the core of GalaSejahtera's GalaBackend, the Go backend of a COVID-19
contact-tracing app, with proofs about that model. The core covers these parts:

- **Zone resolution.** `ZoneDAO.GetByUser` finds the zone a user is in: the nearest
  Zone-type zone within 100 km whose occupants include the user. Occupants are active
  users with role `"user"` inside the zone's radius. The zone is returned with its
  derived fields: `UsersWithin`, a five-level `Risk` (1 is the highest) and
  `IsCapacityExceeded`. Its sub-zones are returned with the same fields. A visit is
  recorded both ways, on the main zone and on every sub-zone that contains the user.
- **Visit histories.** Each list (a user's visited zones, a zone's visitors, a user's
  contacts) is updated the same way. Every entry with the counterpart's ID is pulled
  when the owner's in-memory copy lists it. Then a fresh snapshot is pushed.
- **The 14-day window.** `QueryRecentUsersByZoneID` keeps the visitor entries of the
  last 14 local (UTC+8) calendar days, newest first.
- **Proximity.** `UserDAO.GetNearbyUsers` returns the users within 0.1 km and counts
  the close contacts within 0.05 km. Only the close contacts go onto the requester's
  contact list.
- **List presentation.** Sort by a field, reverse in place for `DESC`, then keep
  positions From..To. This is the same in three list handlers and in `ZoneDAO.Query`
  for the derived fields.
- **Helpers and handlers.** The string helpers of `pkg/utility`. The role gate
  `validateUser` and the role group of each endpoint. The user create and update
  handlers, whose first failing check decides the error. The district lookup.

The datastore is a class `Database.Database` with the `users` and `zones` collections as
sequences in cursor order. A driver failure is a nondeterministic choice. Geometry is a
distance oracle. The DAOs are classes over that store. The handlers see the model layer
(`pkg/model`) through `Api.Model`, a record of functions, and the unseen string
normalisers through `Api.Helpers`.

Two behaviours of the code are modelled as written:

- When `BACKEND_USER` is unset, a call whose first token is empty passes every gate;
  see `Handlers.EmptyTokenWithoutBackendUser`.
- `UpdateUsers` with no IDs panics on `req.Ids[0]`; it is modelled as `Err(Panic)`.

## Model

| member | source | states |
|---|---|---|
| Constants.CodeOf | pkg/constants/error.go:8-37 | Driver, plain (`errors.New`) and panic errors read as code Unknown. Each status error has exactly its declared code: InvalidArgument for the seven invalid-input and consent errors, AlreadyExists, Unauthenticated, Unimplemented and Internal for one error each, and NotFound for DailyNotFoundError |
| Dto.EncodeLocation | pkg/dao/userdao.go:37-41 | The stored location is a `Point` with coordinates `[Long, Lat]` |
| Dto.PointOf | pkg/dao/userdao.go:59-62 | A location is usable exactly when it is present and has two coordinates; x is `[0]`, y is `[1]` |
| Dto.LoadUser | pkg/dao/userdao.go:52-64 | Reading a user keeps every stored field; Long/Lat come from `[0]`/`[1]` of a valid location, else they are zero |
| Dto.LoadZone | pkg/dto/zone.go:4-18 | The `bson:"-"` fields of a zone (Lat, Long, UsersWithin, IsCapacityExceeded) read back as zero; the rest is kept |
| Dto.WithCoordinates | pkg/dao/zonedao.go:52-55 | Lat/Long are set from a valid location; an invalid one leaves the zone unchanged |
| Dto.LocationRoundTrip | pkg/dao/userdao.go:225-229 | Encoding a user's coordinates and decoding them gives the same point and the same user |
| Utility.NormalizeContent | pkg/utility/utils.go:21-24 | Only ASCII letters and digits remain, never more characters than the input, and clean input is unchanged |
| Utility.NormalizeContentCounts | pkg/utility/utils.go:21-24 | Each ASCII letter or digit occurs as often as in the input; every other character occurs zero times |
| Utility.NormalizeContentSingle | pkg/utility/utils.go:21-24 | One character is kept when it is an ASCII letter or digit, and deleted (not replaced) otherwise |
| Utility.NormalizeContentAppend | pkg/utility/utils.go:21-24 | The filter keeps the original order: it distributes over concatenation |
| Utility.NormalizePlace | pkg/utility/utils.go:26-29 | The result holds only upper-case ASCII letters and digits. It is the upper-cased NormalizeContent of the input, character by character |
| Utility.NormalizePlaceIgnoresCase | pkg/utility/utils.go:26-29 | Upper-casing the input first does not change the normal form |
| Utility.NormalizePlaceFixes | pkg/utility/utils.go:26-29 | Text of upper-case letters and digits is its own normal form |
| Utility.NormalizePlaceIdempotent | pkg/utility/utils.go:26-29 | Normalising twice equals normalising once |
| Utility.NormalizeDate | pkg/utility/utils.go:31-38 | Success iff at least 8 digits remain; the value is the digits in order; the failure is InvalidDateError |
| Utility.DigitsCounts | pkg/utility/utils.go:31-38 | Each ASCII digit occurs as often as in the date string; every other character occurs zero times |
| Utility.DigitsSingle | pkg/utility/utils.go:31-38 | One character is kept when it is an ASCII digit, and deleted otherwise |
| Utility.DigitsAppend | pkg/utility/utils.go:31-38 | The digits keep their order: the filter distributes over concatenation |
| Utility.ByteLength | pkg/handlers/user/createuser.go:62-64 | Go's `len` on a string is at least its rune count, and equals it for ASCII text |
| Utility.KeepRunes | pkg/utility/utils.go:84-104 | Only kept runes (newline, `↵`, graphic non-blank runes) remain; text without other runes is unchanged |
| Utility.KeepRunesCounts | pkg/utility/utils.go:84-104 | Each kept rune occurs as often as in the input; every other rune occurs zero times |
| Utility.KeepRunesSingle | pkg/utility/utils.go:84-104 | One rune is kept when it is kept by the mapping, and deleted (not replaced) otherwise |
| Utility.KeepRunesAppend | pkg/utility/utils.go:84-104 | The kept runes keep their order: the mapping distributes over concatenation |
| Utility.TrimLeading | pkg/utility/utils.go:111 | Exactly the leading ASCII spaces are dropped |
| Utility.TrimTrailing | pkg/utility/utils.go:111 | Exactly the trailing ASCII spaces are dropped |
| Utility.Trim | pkg/utility/utils.go:111 | The result is the input between its leading and trailing spaces, and starts and ends with no space. Everything cut off at either end is a space |
| Utility.RemoveZeroWidth | pkg/utility/utils.go:83-113 | At most 500 kept runes give the trimmed KeepRunes of the input; more than 500 give "". The result has at most 500 runes, all kept, and no space at either end |
| Utility.RemoveZeroWidthKeepsCleanText | pkg/utility/utils.go:83-113 | Clean text of at most 500 runes without edge spaces is unchanged |
| Utility.RemoveZeroWidthTrims | pkg/utility/utils.go:107-111 | One space at each end of clean text is trimmed away |
| Utility.RemoveZeroWidthExampleZeroWidth | pkg/utility/utils_test.go:94-96 | `"a​‌‍﻿b"` becomes `"ab"` |
| Utility.RemoveZeroWidthExampleBlank | pkg/utility/utils_test.go:113-117 | The blank rune U+2000 is removed from `"< >"` |
| Utility.RemoveZeroWidthExampleNewlines | pkg/utility/utils_test.go:194-202 | `"<\n>"` and `"<↵>"` are unchanged |
| Utility.UserInUsers | pkg/utility/utils.go:116-123 | True iff some element has the same ID; no other field matters |
| Utility.Div | pkg/utility/utils.go:140 | A finite float64 divided by a non-zero value is the exact quotient. A finite value divided by zero is +Inf, -Inf or NaN by its sign. NaN stays NaN, and an infinity stays an infinity whose sign is the product of the signs |
| Utility.GetZoneRisk | pkg/utility/utils.go:139-155 | The level is between 1 and 5, and the score is a finite real when radius and capacity are non-zero |
| Utility.RiskBands | pkg/utility/utils.go:139-155 | For non-zero radius and capacity, each level is exactly one band of the score: above 100, 80, 60, 40, or at most 40 |
| Utility.RiskBoundaries | pkg/utility/utils.go:141-153 | The comparisons are strict: a score of exactly 100 gives 2, exactly 40 gives 5 |
| Utility.RiskExamples | pkg/utility/utils.go:140-154 | Radius 2 and capacity 10 with 25, 17, 13, 9 and 4 users give levels 1 to 5 |
| Utility.RiskMonotone | pkg/utility/utils.go:140-154 | With positive radius and capacity, more occupants never give a lower risk |
| Utility.ScoreMonotone | pkg/utility/utils.go:140 | With positive radius and capacity, the score never decreases as occupants are added |
| Utility.RiskOfEmptyZone | pkg/utility/utils.go:140-154 | An empty zone is at level 5 for any radius and capacity, including 0/0 = NaN |
| Utility.RiskOfZeroRadius | pkg/utility/utils.go:140-154 | A zero radius with occupants (+Inf score) gives level 1 for every non-negative capacity |
| History.CountKey | pkg/utility/utils.go:116-123 | The number of entries carrying an ID is zero exactly when no entry carries it |
| History.Pull | pkg/dao/zonedao.go:597-606 | `$pull`: no entry with the ID remains, and every remaining entry was in the list |
| History.PullAppend | pkg/dao/zonedao.go:597-606 | Pulling acts entry by entry: it distributes over concatenation |
| History.PullAbsent | pkg/dao/zonedao.go:597-606 | Pulling an absent ID changes nothing |
| History.PullCountOthers | pkg/dao/zonedao.go:597-606 | Pulling keeps the number of entries of every other ID |
| History.PullUnique | pkg/dao/zonedao.go:597-606 | A list with at most one entry per ID keeps that property when pulled |
| History.Reconcile | pkg/dao/zonedao.go:590-627 | The fresh entry is at the tail; before it is the pulled list when the owner's copy lists the counterpart, else the old list |
| History.ReconcileExactlyOnce | pkg/dao/zonedao.go:590-627 | With the pull, exactly one entry of the counterpart remains: the fresh one |
| History.ReconcileWithoutPull | pkg/dao/zonedao.go:590-627 | Without the pull, the counterpart gains one more entry |
| History.ReconcileKeepsOthers | pkg/dao/zonedao.go:590-627 | The entries of every other counterpart keep their content and relative order |
| History.ReconcileCountsOthers | pkg/dao/zonedao.go:590-627 | The number of entries of every other ID is unchanged |
| History.ReconcileKeepsUnique | pkg/dao/zonedao.go:656-693 | When the presence test uses the stored list, as in the visitor list update, at most one entry per user stays |
| History.ReconcileTwice | pkg/dao/zonedao.go:590-627 | A second visit by the same counterpart leaves only the later snapshot |
| History.ReconcileScenario | pkg/dao/zonedao.go:590-627 | Visits A, B, A on an empty list leave [B, A] |
| History.ZoneInZones | pkg/dao/zonedao.go:591 | True iff some visited zone has the zone's ID |
| History.ZoneSnapshot | pkg/dao/zonedao.go:576-588 | The zone entry keeps the ID and takes Time = now |
| History.ZoneSnapshotFields | pkg/dao/zonedao.go:576-588 | Name, Lat, Long, Type, Capacity, Radius, UsersWithin and IsCapacityExceeded are copied. Time is now and Risk is recomputed. There is no location and no visitor list |
| History.VisitorSnapshot | pkg/dao/zonedao.go:643-654 | The visitor entry keeps the ID and takes Time = now |
| History.VisitorSnapshotFields | pkg/dao/zonedao.go:643-654 | ID, Role, Name, Email, Lat, Long, IC, PhoneNumber and Infected are copied and Time is now. Every other field is the zero value |
| History.ContactSnapshot | pkg/dao/userdao.go:393-400 | The contact entry keeps the ID and takes Time = now |
| History.ContactSnapshotFields | pkg/dao/userdao.go:393-400 | ID, Role, Email, Lat and Long are copied and Time is now. Every other field is the zero value |
| History.SnapshotsAreCopies | pkg/dao/zonedao.go:576-588 | Snapshots depend only on the copied fields, never on the source's lists, location, time or stored risk |
| History.StoredZone | pkg/dto/zone.go:4-18 | A zone is stored without its `bson:"-"` fields |
| History.StoredUser | pkg/dto/user.go:4-25 | A user is stored without Lat/Long |
| History.StoredEntriesKeepKeyAndTime | pkg/dao/zonedao.go:619 | Stored entries keep the ID and Time the list update and the window read |
| History.ContactEntries | pkg/dao/userdao.go:390-439 | One pushed entry per contact |
| History.ContactEntriesAt | pkg/dao/userdao.go:390-439 | The i-th pushed entry is the stored snapshot of the i-th contact |
| History.PullAllSubset | pkg/dao/userdao.go:403-421 | What the pulls leave comes from the old list and carries no contact's ID |
| History.RecordContactsShape | pkg/dao/userdao.go:383-439 | With distinct contact IDs, the final list is the old list without the contacts, then one fresh entry per contact in contact order |
| History.PullAllKeepsOthers | pkg/dao/userdao.go:403-421 | Entries of non-contacts keep their number |
| History.RecordContactsOncePerContact | pkg/dao/userdao.go:383-439 | With distinct contact IDs, each contact has exactly one entry afterwards |
| History.ContactEntriesCount | pkg/dao/userdao.go:390-439 | Each distinct contact has exactly one pushed entry |
| History.RecentCutoff | pkg/dao/zonedao.go:548-551 | The cutoff is a UTC+8 midnight between 14 and 13 days before now |
| History.RecentIsFourteenDays | pkg/dao/zonedao.go:548-562 | An entry passes the cutoff iff its local day is today or one of the 13 days before |
| History.RecentEntries | pkg/dao/zonedao.go:558-562 | Exactly the entries with Time at or after the cutoff |
| History.RecentEntriesCounts | pkg/dao/zonedao.go:558-562 | An entry at or after the cutoff occurs as often as in the list; an older one occurs zero times |
| History.RecentEntriesSingle | pkg/dao/zonedao.go:558-562 | One entry is kept iff its Time is at or after the cutoff |
| History.RecentEntriesAppend | pkg/dao/zonedao.go:558-562 | The window keeps the list's order: it distributes over concatenation |
| Database.Filter | pkg/dao/zonedao.go:339-358 | Every selected document satisfies the query and comes from the collection |
| Database.FilterComplete | pkg/dao/zonedao.go:339-358 | A document is selected iff it is in the collection and satisfies the query |
| Database.FilterCounts | pkg/dao/zonedao.go:339-358 | A document that satisfies the query occurs as often as in the collection; any other occurs zero times |
| Database.FilterSingle | pkg/dao/zonedao.go:339-358 | One document is selected iff it satisfies the query |
| Database.FilterAppend | pkg/dao/zonedao.go:339-358 | Selection keeps the collection order: it distributes over concatenation |
| Database.FirstIndex | pkg/dao/zonedao.go:49 | `FindOne({id})` selects the first document with the ID, and finds none iff no document has it |
| Database.FirstWhere | pkg/handlers/daily/getdistrict.go:32-37 | The first position satisfying the test, or none when no position does |
| Database.SetContactsEffect | pkg/dao/userdao.go:403-438 | Writing a contact list changes only that list: profiles stay, the owner reads the new list, others keep theirs |
| Database.SetVisitedZonesEffect | pkg/dao/zonedao.go:590-627 | Writing a visited-zone list changes only that list |
| Database.SetVisitorsEffect | pkg/dao/zonedao.go:656-693 | Writing a visitor list changes only that list |
| Database.SetContactsTwice | pkg/dao/userdao.go:403-438 | A second write replaces the first; an absent owner reads back an empty list |
| Database.SetVisitedZonesTwice | pkg/dao/zonedao.go:590-627 | A second write replaces the first; an absent owner reads back an empty list |
| Database.SetVisitorsTwice | pkg/dao/zonedao.go:656-693 | A second write replaces the first; an absent owner reads back an empty list |
| Database.Database.FindUser | pkg/dao/userdao.go:52-57 | The first user with the ID, NoDocuments when none has it, or a driver error |
| Database.Database.FindZone | pkg/dao/zonedao.go:46-50 | The first zone with the ID, NoDocuments when none has it, or a driver error |
| Database.Database.InsertUser | pkg/dao/userdao.go:44-47 | The document is appended, or a driver error leaves the store unchanged |
| Database.Database.SetUser | pkg/dao/userdao.go:231-237 | The first document with the ID is replaced; none with the ID means no change |
| Database.Database.PullContact | pkg/dao/userdao.go:403-421 | Only the owner's contact list changes, pulled by the ID |
| Database.Database.PushContact | pkg/dao/userdao.go:423-438 | Only the owner's contact list changes, with the stored entry appended |
| Database.Database.PullVisitedZone | pkg/dao/zonedao.go:591-610 | Only the owner's visited-zone list changes, pulled by the ID |
| Database.Database.PushVisitedZone | pkg/dao/zonedao.go:612-627 | Only the owner's visited-zone list changes, with the stored entry appended |
| Database.Database.PullVisitor | pkg/dao/zonedao.go:657-676 | Only the zone's visitor list changes, pulled by the ID |
| Database.Database.PushVisitor | pkg/dao/zonedao.go:678-693 | Only the zone's visitor list changes, with the stored entry appended |
| Sorting.InsertionSort | pkg/handlers/user/getrecentusersbyuser.go:79-117 | The sort is a permutation of its input with the same length |
| Sorting.InsertionSortSorted | pkg/handlers/user/getrecentusersbyuser.go:79-117 | The sorted list is ascending by the key |
| Sorting.SortSlice | pkg/dao/zonedao.go:564-566 | `sort.Slice` with a key order leaves the array as the sorted permutation |
| Sorting.Reversed | pkg/dao/zonedao.go:250-255 | Reversal keeps the length |
| Sorting.ReversedMultiset | pkg/dao/zonedao.go:250-255 | Reversal is a permutation |
| Sorting.ReversedSortedIsDesc | pkg/dao/zonedao.go:250-255 | Reversing an ascending list gives a descending one |
| Sorting.ReverseSlice | pkg/dao/zonedao.go:252-254 | The in-place swap loop leaves the array reversed |
| Sorting.ArrangeMeaning | pkg/handlers/user/getrecentusersbyuser.go:79-126 | A permutation; ascending for a known field, descending with DESC; an unknown field keeps the order, reversed with DESC |
| Sorting.SortAndOrder | pkg/handlers/user/getrecentusersbyuser.go:79-126 | The in-place sort and reversal leave the array arranged as `Arrange` says |
| Sorting.Window | pkg/handlers/user/getrecentusersbyuser.go:29-43 | The page is never longer than the list |
| Sorting.WindowMembers | pkg/handlers/user/getrecentusersbyuser.go:29-43 | Every shown item comes from the list, and every position in the window is shown |
| Sorting.WindowSlice | pkg/handlers/user/getrecentusersbyuser.go:29-43 | For 0 <= From <= To < length and To != 0, the page is positions From..To inclusive |
| Sorting.WindowUnbounded | pkg/handlers/user/getrecentusersbyuser.go:37 | With To = 0 the page is everything from From on |
| Sorting.WindowBelow | pkg/handlers/user/getrecentusersbyuser.go:33 | A From beyond the list shows nothing |
| Sorting.WindowInverted | pkg/handlers/user/getrecentusersbyuser.go:37 | A non-zero To below From shows nothing |
| Sorting.Page | pkg/dao/zonedao.go:207-221 | The paging loop with its `index` counter yields exactly the window |
| ZoneDao.WithinMonotone | pkg/dao/zonedao.go:331 | A larger radius selects at least the same points |
| ZoneDao.LoadUsersAt | pkg/dao/zonedao.go:346-358 | The cursor loop decodes each user document in place |
| ZoneDao.LoadZonesAt | pkg/dao/zonedao.go:486-492 | The cursor loop decodes each zone document in place |
| ZoneDao.ContainsOnlyOccupants | pkg/dao/zonedao.go:308-337 | A zone contains a user only through an active `"user"` document with that ID inside the radius |
| ZoneDao.ContainsEveryOccupant | pkg/dao/zonedao.go:308-337 | Every such document makes the zone contain the user |
| ZoneDao.ContainsMeaning | pkg/dao/zonedao.go:301-337 | A zone contains a user iff its location is valid and some active `"user"` document with the user's ID is inside the radius |
| ZoneDao.NonParticipantNeverContained | pkg/dao/zonedao.go:308-337 | An inactive or non-`"user"` account is in no zone |
| ZoneDao.OccupantDocsSameProfiles | pkg/dao/zonedao.go:308-337 | The occupant query reads profiles only, never history lists |
| ZoneDao.OccupancySameProfiles | pkg/dao/zonedao.go:301-361 | Occupancy is the same before and after any history write |
| ZoneDao.DerivedFields | pkg/dao/zonedao.go:507-516 | UsersWithin is the occupant count, Risk is GetZoneRisk of it, capacity is exceeded iff Risk is 1 and count > capacity; stored fields kept |
| ZoneDao.FailedLookupViews | pkg/dao/zonedao.go:185-198 | A failed occupant lookup: Get keeps the stored Risk with UsersWithin 0; Query and GetSubZones give UsersWithin 0 and Risk 5 |
| ZoneDao.DerivedViews | pkg/dao/zonedao.go:173-201 | One presented zone per cursor document |
| ZoneDao.DerivedViewsAt | pkg/dao/zonedao.go:173-201 | The i-th presented zone is the i-th document with its derived fields |
| ZoneDao.DerivedViewSameProfiles | pkg/dao/zonedao.go:402-427 | Derived fields do not depend on history lists, so earlier visit writes do not affect later sub-zones |
| ZoneDao.NearbyZonesMeaning | pkg/dao/zonedao.go:454-492 | The candidates are the Zone-type documents within 100 km, nearest first, a permutation of the matching documents |
| ZoneDao.SubZoneDocsMeaning | pkg/dao/zonedao.go:365-398 | A sub-zone is a SubZone-type document inside the parent's circle, and the parent's location is valid |
| ZoneDao.RecordVisitEffect | pkg/dao/zonedao.go:519-526 | A visit changes only the user's visited-zone list and the zone's visitor list, each by the list update |
| ZoneDao.RecordVisitKeepsVisitorsUnique | pkg/dao/zonedao.go:633-696 | A zone's visitor list keeps at most one entry per user across visits |
| ZoneDao.RecordVisitsProfiles | pkg/dao/zonedao.go:429-439 | Any sequence of visits keeps every profile |
| ZoneDao.VisitedSubZonesMembers | pkg/dao/zonedao.go:429-439 | A visit is recorded exactly for the sub-zones whose lookup succeeded and whose occupants include the user |
| ZoneDao.LoadedCandidates | pkg/dao/zonedao.go:486-501 | Decoding the candidates does not change which one contains the user |
| ZoneDao.DerivedSortMeaning | pkg/dao/zonedao.go:230-256 | A permutation; ascending by UsersWithin or by Risk, and descending by either with DESC; DESC alone reverses an unknown field |
| ZoneDao.RecentVisitorsMeaning | pkg/dao/zonedao.go:542-569 | Exactly the entries of the last 14 local days, newest first, a permutation of the filtered list |
| ZoneDao.ZoneDao.GetUsersByZone | pkg/dao/zonedao.go:301-361 | An invalid location gives no one; otherwise the decoded occupants, or a driver error |
| ZoneDao.ZoneDao.Get | pkg/dao/zonedao.go:46-76 | The first zone with the ID with its derived fields, or the stored Risk when the lookup fails; NoDocuments only when absent |
| ZoneDao.ZoneDao.Present | pkg/dao/zonedao.go:173-201 | One cursor step presents the document with its derived fields; a failed lookup gives Risk 5 |
| ZoneDao.ZoneDao.SortZones | pkg/dao/zonedao.go:230-256 | Always a permutation; for usersWithin, risk or an unknown field, the array is as `Arrange` says |
| ZoneDao.ZoneDao.Query | pkg/dao/zonedao.go:91-228 | An "id" filter answers Get's result with count 1; otherwise the presented cursor, sorted and paged here only for a derived field |
| ZoneDao.ZoneDao.UpdateZonesList | pkg/dao/zonedao.go:572-630 | The user's visited-zone list is reconciled with the zone snapshot, the pull decided on the user's copy in memory |
| ZoneDao.ZoneDao.UpdateUsersList | pkg/dao/zonedao.go:633-696 | The zone's visitor list, read by a fresh Get, is reconciled with the user snapshot |
| ZoneDao.ZoneDao.RecordVisitBothWays | pkg/dao/zonedao.go:519-526 | Both list updates, in order; on success the store is `RecordVisit` of the old one |
| ZoneDao.ZoneDao.VisitSubZone | pkg/dao/zonedao.go:402-442 | One sub-zone: presented, and a visit recorded iff its lookup succeeded and it contains the user |
| ZoneDao.ZoneDao.GetSubZones | pkg/dao/zonedao.go:364-445 | Every sub-zone in order with derived fields; visits recorded for those containing the user; profiles unchanged |
| ZoneDao.ZoneDao.DecodeAll | pkg/dao/zonedao.go:484-492 | The candidate cursor decoded in order, or a driver error |
| ZoneDao.ZoneDao.FindContaining | pkg/dao/zonedao.go:495-501 | The first candidate whose occupants include the user, with those occupants; a failed lookup aborts |
| ZoneDao.ZoneDao.GetByUser | pkg/dao/zonedao.go:448-539 | Invalid location or no containing candidate: empty zone, no sub-zones, no writes. Else the first containing candidate with derived fields, its visit, and its sub-zones |
| ZoneDao.ZoneDao.EnterZone | pkg/dao/zonedao.go:518-532 | The found zone: its visit recorded both ways, then its sub-zones evaluated on the store after that visit; the first failing write aborts |
| ZoneDao.ZoneDao.QueryRecentUsersByZoneID | pkg/dao/zonedao.go:542-569 | The zone's visitor entries of the last 14 local days, newest first; NoDocuments only for an absent zone |
| ZoneDao.ZoneDao.RecentOf | pkg/dao/zonedao.go:556-562 | The filter loop keeps exactly the entries at or after the cutoff, in order |
| UserDao.WithLocation | pkg/dao/userdao.go:225-229 | Only the location changes, and it decodes to `(Long, Lat)` |
| UserDao.StoredUserRoundTrip | pkg/dao/userdao.go:52-64 | Writing a user and reading it back gives the user with its location |
| UserDao.NearbyOnlyQualifying | pkg/dao/userdao.go:249-307 | Every returned user is a decoded active `"user"` document, not the requester, within the radius |
| UserDao.NearbyEveryQualifying | pkg/dao/userdao.go:249-307 | Every qualifying document is returned |
| UserDao.NearbyMeaning | pkg/dao/userdao.go:249-307 | Returned iff qualifying, and the requester is never returned |
| UserDao.CloseContactsAreVisible | pkg/dao/userdao.go:310-347 | Every close contact is visible, so the count is at most the number of visible users |
| UserDao.RecordContactsNext | pkg/dao/userdao.go:390-439 | One more contact: pulled when the list fetched once holds it, then its snapshot pushed |
| UserDao.UserDao.Create | pkg/dao/userdao.go:27-49 | The hashed password and `[Long, Lat]` location are stored by one insert; a hash error writes nothing |
| UserDao.UserDao.Get | pkg/dao/userdao.go:52-65 | The first user with the ID, decoded; NoDocuments only when absent |
| UserDao.UserDao.Update | pkg/dao/userdao.go:222-239 | The whole document with its new location replaces the first match of the ID and reads back as the result |
| UserDao.UserDao.FindNearby | pkg/dao/userdao.go:288-307 | One proximity query with its cursor loop yields the decoded qualifying users |
| UserDao.UserDao.UpdateUsersList | pkg/dao/userdao.go:380-442 | Only the requester's contact list changes; on success it is the contacts processed in order; a failure keeps what was done |
| UserDao.UserDao.ReconcileContact | pkg/dao/userdao.go:402-438 | One contact: old entries with its ID pulled when the list held it, then the snapshot pushed. A failed write leaves the list as it was before that write |
| UserDao.UserDao.GetNearbyUsers | pkg/dao/userdao.go:242-377 | Invalid location: InvalidArgumentError, no write. Else the visible users, the close-contact count (at most that many), close contacts recorded |
| DistrictHandler.DailyError | pkg/handlers/daily/getdistrict.go:22-28 | Code Unknown gives DailyNotFoundError, any other gives InternalError |
| DistrictHandler.FindDistrict | pkg/handlers/daily/getdistrict.go:32-37 | The inner loop finds the first district of the state named like the id, or keeps the previous one |
| DistrictHandler.GetDistrict | pkg/handlers/daily/getdistrict.go:20-51 | The mapped GetDaily error, or the result of the nested search |
| DistrictHandler.NoMatchIsEmpty | pkg/handlers/daily/getdistrict.go:30 | With no matching name the result is the empty district |
| DistrictHandler.FirstMatchingStateWins | pkg/handlers/daily/getdistrict.go:38-42 | The first state whose name matches gives its Name and Total, whatever came before |
| DistrictHandler.LastStateDistrictWins | pkg/handlers/daily/getdistrict.go:31-37 | With no state matching, the first matching district of the last state that has one wins |
| DistrictHandler.SearchKeeps | pkg/handlers/daily/getdistrict.go:31-43 | If nothing in the remaining states matches, the district found so far is kept |
| DistrictHandler.LookupIgnoresCaseAndPunctuation | pkg/handlers/daily/getdistrict.go:33-38 | Ids with the same NormalizePlace form find the same district |
| Api.Normalized | pkg/handlers/client/clientcreateuser.go:60-62 | Only Name, PhoneNumber and IC are replaced |
| Api.ViewsHidePassword | pkg/handlers/user/createuser.go:75-88 | No response record depends on the password or the history lists, and none carries the password |
| Handlers.ValidateUser | pkg/handlers/handlers.go:559-600 | The early-return chain and the role loop return `Validation` |
| Handlers.AuthDisabledAdmitsEveryone | pkg/handlers/handlers.go:560-562 | With AUTH_ENABLED not exactly "true", every caller passes as the empty user |
| Handlers.MissingTokenRefused | pkg/handlers/handlers.go:563-570 | With authentication on, no metadata or no token is an error |
| Handlers.BackendUserExempt | pkg/handlers/handlers.go:573-581 | A first token equal to BACKEND_USER always passes, whatever the roles, as the stored user or the empty user |
| Handlers.EmptyTokenWithoutBackendUser | pkg/handlers/handlers.go:574 | With BACKEND_USER unset, an empty first token passes |
| Handlers.RoleDecides | pkg/handlers/handlers.go:584-598 | A verification error is returned; a verified user passes iff its role is allowed, and is then returned |
| Handlers.WiderGroupAdmits | pkg/handlers/handlers.go:590-598 | A caller admitted under some roles is admitted, as the same user, under any larger set |
| Handlers.RoleGroupsNested | pkg/constants/user.go:15-17 | SuperUserOnly is strictly within SuperUserAndAdmin, which is strictly within AllCanAccess |
| Handlers.RefusedCallNeverReachesHandler | pkg/handlers/handlers.go:136-149 | A refused call gets UnauthorizedAccessError whatever the handler would return |
| Handlers.AdmittedCallGetsHandlerResult | pkg/handlers/handlers.go:136-149 | An admitted call, or one on an ungated endpoint, gets the handler's result |
| Handlers.UngatedEndpoints | pkg/handlers/handlers.go:333-453 | Exactly GetUser, GetPasswordReset, UpdatePassword, Login, Logout, Refresh, GetFaqs, ClientGetRecentZones and ClientCreateUser call no gate |
| Handlers.AdminMayUpdateButNotDeleteZones | pkg/handlers/handlers.go:181-209 | A verified admin may update but not delete a zone; an app user may not update a zone but may update its profile |
| Listing.MapAll | pkg/handlers/user/getusersbyzone.go:55-80 | One response per item, the i-th from the i-th item |
| Listing.ToResponses | pkg/handlers/user/getusersbyzone.go:55-80 | The response loop yields exactly `MapAll` |
| Listing.Present | pkg/handlers/user/getrecentusersbyuser.go:22-48 | Total is the count before paging; data is the window of the presented list, mapped |
| Listing.GetRecentUsersByUser | pkg/handlers/user/getrecentusersbyuser.go:15-49 | A model error is returned as is; else the total and the page of recent users with Time |
| Listing.GetUsersByZone | pkg/handlers/user/getusersbyzone.go:15-53 | The zone lookup's error first, then the occupant query's; else the total and the page of occupants |
| Listing.GetRecentZonesByUser | pkg/handlers/zone/getrecentzonesbyuser.go:15-49 | A model error is returned as is; else the total and the page of recent zones |
| Listing.PresentedMeaning | pkg/handlers/user/getrecentusersbyuser.go:22-24 | A permutation, unchanged unless both Item and Order are given; sorted by a known field, DESC reversing |
| Listing.PageMeaning | pkg/handlers/user/getrecentusersbyuser.go:29-43 | The page is positions From..To inclusive (To = 0 unbounded) of the presented list, all from the fetched items |
| Listing.SortFields | pkg/handlers/user/getusersbyzone.go:82-125 | The known fields of each sortUsers/sortZones; "time" is known for recent users but not for zone occupants |
| Listing.ZoneUsersIgnoreTimeSort | pkg/handlers/user/getusersbyzone.go:119-124 | Sorting zone occupants by "time" leaves the order, reversed for DESC |
| Listing.RecentZoneViewDropsOccupancy | pkg/handlers/zone/getrecentzonesbyuser.go:51-72 | A recent zone's record never carries occupancy or the capacity flag |
| Listing.OccupantViewDropsTime | pkg/handlers/user/getusersbyzone.go:55-80 | An occupant's record has no Time; a recent contact's does, and is otherwise the same |
| UserHandlers.NewUser | pkg/handlers/user/createuser.go:23-33 | The new user has the fresh ID, the name as sent and no contacts. Role, Email and Password are RemoveZeroWidth of the request's. Lat, Long and IsActive are copied, and every other field is the zero value |
| UserHandlers.CheckNewUser | pkg/handlers/user/createuser.go:57-73 | Passes iff the email is valid and non-empty, the password has at least 6 bytes and the role is non-empty |
| UserHandlers.CreateUser | pkg/handlers/user/createuser.go:19-55 | Nil data: InvalidArgumentError. A failing check returns that check's error. Success only past all checks, with a free address and a model success; every error is one of six |
| UserHandlers.CreateCheckOrder | pkg/handlers/user/createuser.go:57-73 | The checks run in order and the first failing one decides |
| UserHandlers.PasswordOfSixAccepted | pkg/handlers/user/createuser.go:62-64 | A 6-byte password passes and a 5-byte one does not |
| UserHandlers.PasswordLengthInBytes | pkg/handlers/user/createuser.go:62 | Three two-byte runes pass the six-byte minimum |
| UserHandlers.CreateRefusesTakenEmail | pkg/handlers/user/createuser.go:39-46 | A taken address gives EmailAlreadyExistError and the model's create is not consulted |
| UserHandlers.CreateIgnoresQueryError | pkg/handlers/user/createuser.go:39-46 | Only the query's count matters, not its error |
| UserHandlers.CreateHidesModelError | pkg/handlers/user/createuser.go:48-52 | Past the checks, the result fails iff the model's create fails, and then with InternalError |
| UserHandlers.UpdatePayload | pkg/handlers/user/updateuser.go:56-67 | ID, Role and Email are RemoveZeroWidth of the request's; IsActive, Lat, Long and Name are copied; every other field is the zero value |
| UserHandlers.UsersPayload | pkg/handlers/user/updateusers.go:58-71 | Role, Name, IC, PhoneNumber, Email and Password are RemoveZeroWidth of the request's. IsActive, Lat and Long are copied, and there is no ID. Every other field is the zero value |
| UserHandlers.CheckUpdate | pkg/handlers/user/updateuser.go:85-98 | Passes iff the email is valid and non-empty and the role non-empty; InvalidRoleError iff only the role fails |
| UserHandlers.EmailFree | pkg/handlers/user/updateuser.go:33-45 | An unchanged address is not queried; a changed one passes only with no error and count 0 |
| UserHandlers.UpdateUser | pkg/handlers/user/updateuser.go:17-54 | Nil data: InvalidArgumentError; a failing check decides; success only past lookup, uniqueness and the model's update |
| UserHandlers.UpdateValidatesFirst | pkg/handlers/user/updateuser.go:23-31 | An invalid payload is refused before the model is consulted |
| UserHandlers.UpdateLookupFails | pkg/handlers/user/updateuser.go:28-31 | A lookup failure is returned as is |
| UserHandlers.UpdateSameEmailSkipsQuery | pkg/handlers/user/updateuser.go:33 | Keeping the stored address makes the uniqueness query irrelevant |
| UserHandlers.UpdateQueryErrorReturned | pkg/handlers/user/updateuser.go:39-41 | A failing uniqueness query for a changed address is returned |
| UserHandlers.UpdateHidesModelError | pkg/handlers/user/updateuser.go:47-51 | Past the checks, the result is InternalError iff the model's update fails |
| UserHandlers.ValidateUsersPayload | pkg/handlers/user/updateusers.go:73-89 | Normalises in place, then the result is the check of the normalised user |
| UserHandlers.UpdateUsers | pkg/handlers/user/updateusers.go:17-56 | Nil data, then more than one ID, then the check; no ID panics; the lookup error; success is the model's; a model failure gives InternalError |
| ClientHandlers.SignUpUser | pkg/handlers/client/clientcreateuser.go:23-35 | Role "user", alert on, consent as sent, empty lists; Name, IC, PhoneNumber, Email and Password are RemoveZeroWidth of the request's; every other field is the zero value |
| ClientHandlers.CheckSignUp | pkg/handlers/client/clientcreateuser.go:63-79 | Passes iff the four checks of CreateUser pass and consent is given; ConsentNotSignedError iff only consent fails |
| ClientHandlers.ValidateSignUp | pkg/handlers/client/clientcreateuser.go:59-80 | Normalises Name, PhoneNumber and IC, then returns the check of the normalised user |
| ClientHandlers.CreateUser | pkg/handlers/client/clientcreateuser.go:19-57 | Nil data, then the check, then a taken address, then the model's create (InternalError on failure) |
| ClientHandlers.SignUpNeverInvalidRole | pkg/handlers/client/clientcreateuser.go:73-75 | The role is fixed, so InvalidRoleError never occurs |
| ClientHandlers.SignUpCheckOrder | pkg/handlers/client/clientcreateuser.go:63-75 | The checks run in order and the first failing one decides |
| ClientHandlers.SignUpNormalisesFirst | pkg/handlers/client/clientcreateuser.go:60-62 | The checked and stored Name, PhoneNumber and IC are the normalised cleaned inputs |
| ClientHandlers.ProfilePayload | pkg/handlers/client/clientupdateuser.go:42-52 | ID, Name, IC and PhoneNumber are RemoveZeroWidth of the request's; Alert and Infected are copied; every other field is the zero value |
| ClientHandlers.ValidateProfile | pkg/handlers/client/clientupdateuser.go:72-81 | Normalises in place; InvalidPhoneNumberError iff a given phone number normalises to "" |
| ClientHandlers.UpdateUser | pkg/handlers/client/clientupdateuser.go:17-40 | Nil data, then the phone check, then the lookup error, then the model's update (InternalError on failure) |
| ClientHandlers.EmptyPhoneAccepted | pkg/handlers/client/clientupdateuser.go:77 | An empty phone number is never refused |

## Left out

- MongoDB driver mechanics (BSON, cursors, `InsertOne`, `UpdateOne`) are operations on sequences. Any driver failure is a nondeterministic `DriverError`.
- ZoneDao.ZoneDao.Query: the selection, server-side sort, skip, limit and count are the datastore's. The method takes the returned cursor and count as inputs.
- The spherical geometry of `$nearSphere` and `$centerSphere` is a distance oracle. `km / 6378.1` and `100 * 1000` metres are kept as the radii only.
- `DateStringToTime` and the time-zone code are fixed UTC+8 day arithmetic on millisecond timestamps. Its error path is not modelled: the date string it parses is always well formed.
- Each operation takes one `now` for all its snapshots; the clock is not modelled.
- Float rounding is not modelled: scores and coordinates are reals. Utility.GetZoneRisk keeps IEEE infinities and NaN for a zero radius or capacity.
- ZoneDao.ZoneDao.SortZones: the `isCapacityExceeded` comparator is not a strict weak order, so only a permutation is promised for it.
- Sorting.SortSlice: `sort.Slice` is not stable. The model fixes one sorted permutation, stable insertion sort, so the order of ties is not modelled. The order of equal distances from `$nearSphere` is not modelled either.
- UserDao.UserDao.Create: password hashing (bcrypt) is a function parameter.
- `ValidateEmail`'s regular expression and `unicode.IsGraphic` are uninterpreted. `NormalizeName`, `NormalizePhoneNumber` and `NormalizeID` are uninterpreted too: their code is not part of this model.
- pkg/model is not part of this model. The handler layer calls it through `Api.Model`, one snapshot of answers.
- `UserDAO.Query`, `BatchGet`, `Delete` and `BatchDelete` are not modelled. Neither are `ZoneDAO.Create`, `BatchGet`, `Update`, `Delete` and `BatchDelete`. They only forward to the datastore.
- The database name: zonedao.go uses `constants.SafeWorkout`, which pkg/constants/database.go does not declare. Both DAOs are modelled on one store.
- The fresh UUID of a created user and the environment variables `AUTH_ENABLED` and `BACKEND_USER` are inputs.
- Logging is not modelled.
- The in-place mutation of `validateAndProcessReq` is modelled as a method that returns the updated user. Pointer aliasing between the request and the user is not modelled.
- DistrictHandler.GetDistrict: assigning `d.Name` and `d.Total` through a pointer into the day's figures also changes that stored district. The model returns the same district but does not model that side effect.
- A Go runtime panic is the error value `Panic`.
- Constants.CodeOf: `DailyNotFoundError` is used by pkg/handlers/daily/getdistrict.go but not declared in pkg/constants/error.go. Its code is taken to be NotFound.
- Protobuf request and response plumbing is reduced to the fields the handlers read and copy.
- The endpoint bodies other than those named above are only their gates: the orchestration handlers, the CRUD handlers of faqs, reports, covid figures, zones and activities, and the crawlers, e-mail and schedulers.
- Concurrency is not modelled. The lost update between two concurrent pull/push sequences on one document is out of scope for a sequential model.
