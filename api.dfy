/**
 * The handler layer's view of the outside world: the protobuf messages the handlers
 * build (pb.User, pb.Zone), the model calls they make, and the string helpers whose
 * definitions are not part of this model.
 */
module Api {
  import opened Wrappers
  import opened Constants
  import opened Dto

  /** `pb.User`: both the request payload (`req.Data`) and the response record. */
  datatype ApiUser = ApiUser(
    id: string, role: string, name: string, email: string, password: string,
    phoneNumber: string, ic: string, isActive: bool, lastUpdated: int,
    lat: real, long: real, consent: int, time: int, infected: int, alert: bool)

  /** `pb.Zone` */
  datatype ApiZone = ApiZone(
    id: string, name: string, lat: real, long: real, kind: int, radius: real,
    capacity: int, usersWithin: int, isCapacityExceeded: bool, time: int, risk: int)

  /** The zero value `&pb.User{}`. */
  function BlankUser(): ApiUser
  {
    ApiUser("", "", "", "", "", "", "", false, 0, 0.0, 0.0, 0, 0, 0, false)
  }

  /** The zero value `&pb.Zone{}`. */
  function BlankZone(): ApiZone
  {
    ApiZone("", "", 0.0, 0.0, 0, 0.0, 0, 0, false, 0, 0)
  }

  /**
   * Helpers of pkg/utility whose definitions are not part of this model: the e-mail
   * regular expression, the name, phone-number and identity-card normalisers, and
   * `unicode.IsGraphic` (used by RemoveZeroWidth).
   */
  datatype Helpers = Helpers(
    validateEmail: string -> bool,
    normalizeName: string -> string,
    normalizePhoneNumber: (string, string) -> string,
    normalizeID: string -> string,
    isGraphic: char -> bool)

  /**
   * The model-layer calls the handlers make (`model.IModel`); pkg/model's user and daily
   * code is not part of this model, so each call is an oracle on one snapshot of the store.
   * `queryUsersByEmail` is `QueryUsers` with the filter `email == value`: its count and error.
   */
  datatype Model = Model(
    getUser: string -> Result<User, Error>,
    verifyUser: string -> Result<User, Error>,
    queryUsersByEmail: string -> (int, Option<Error>),
    createUser: User -> Result<User, Error>,
    updateUser: User -> Result<User, Error>,
    updateUsers: (User, seq<string>) -> Result<seq<string>, Error>,
    clientUpdateAppUser: User -> Result<User, Error>,
    getRecentUsersByUser: string -> Result<seq<User>, Error>,
    getZone: string -> Result<Zone, Error>,
    queryUsersByZone: Zone -> Result<seq<User>, Error>,
    getRecentZonesByUser: string -> Result<seq<Zone>, Error>,
    getDaily: Result<Daily, Error>)

  /** `pb.CreateUserRequest`: `data` is None when the request carries no payload. */
  datatype CreateUserRequest = CreateUserRequest(data: Option<ApiUser>)

  /** `pb.UpdateUserRequest` */
  datatype UpdateUserRequest = UpdateUserRequest(id: string, data: Option<ApiUser>)

  /** `pb.UpdateUsersRequest` */
  datatype UpdateUsersRequest = UpdateUsersRequest(ids: seq<string>, data: Option<ApiUser>)

  /**
   * The in-place normalisation that opens several validateAndProcessReq functions:
   * Name, PhoneNumber (with "" as the second argument) and IC are replaced by their
   * normalised forms; every other field is kept.
   */
  function Normalized(u: User, h: Helpers): (v: User)
    ensures v.(name := u.name, phoneNumber := u.phoneNumber, ic := u.ic) == u
  {
    u.(name := h.normalizeName(u.name), phoneNumber := h.normalizePhoneNumber(u.phoneNumber, ""), ic := h.normalizeID(u.ic))
  }

  /** The response record of user/createuser.go and user/updateuser.go (`userToResp`). */
  function AdminUserView(u: User): ApiUser
  {
    BlankUser().(id := u.id, role := u.role, email := u.email, lastUpdated := u.lastUpdated,
                 lat := u.lat, long := u.long, isActive := u.isActive, name := u.name)
  }

  /** The response record of client/clientcreateuser.go and client/clientupdateuser.go (`userToResp`). */
  function ClientUserView(u: User): ApiUser
  {
    BlankUser().(id := u.id, name := u.name, email := u.email, isActive := u.isActive,
                 lastUpdated := u.lastUpdated, lat := u.lat, long := u.long, ic := u.ic,
                 phoneNumber := u.phoneNumber, alert := u.alert)
  }

  /** Neither response record carries the password or the history lists. */
  lemma ViewsHidePassword(u: User, v: User)
    requires v == u.(password := v.password, users := v.users, zones := v.zones)
    ensures AdminUserView(u) == AdminUserView(v) && ClientUserView(u) == ClientUserView(v)
    ensures AdminUserView(u).password == "" && ClientUserView(u).password == ""
  {
  }
}
