/**
 * pkg/handlers/handlers.go: the gate in front of the endpoints. `validateUser` lets
 * every caller through when authentication is off, exempts the backend user, and
 * otherwise verifies the joined authorization tokens and checks the verified user's
 * role against the endpoint's role group.
 */
module Handlers {
  import opened Wrappers
  import opened Constants
  import opened Dto
  import opened Api

  /** The environment variables the gate reads; an unset variable reads as "". */
  datatype Env = Env(authEnabled: string, backendUser: string)

  /**
   * The incoming call as the gate sees it: None when the context carries no metadata,
   * otherwise the values stored under its "authorization" key.
   */
  datatype Incoming = Incoming(authorization: Option<seq<string>>)

  /** `strings.Join` */
  function Join(parts: seq<string>, sep: string): string
  {
    if parts == [] then ""
    else if |parts| == 1 then parts[0]
    else parts[0] + sep + Join(parts[1..], sep)
  }

  /** What validateUser returns for a call on an endpoint guarded by `roles`. */
  function Validation(env: Env, call: Incoming, roles: seq<string>, m: Model): Result<User, Error>
  {
    if env.authEnabled != "true" then Ok(EmptyUser())
    else if call.authorization.None? then Err(Plain("ValidateUser: metadata not found"))
    else
      var tokens := call.authorization.value;
      if |tokens| < 1 then Err(Plain("ValidateUser: token not found"))
      else if tokens[0] == env.backendUser then
        (match m.getUser(tokens[0])
         case Ok(u) => Ok(u)
         case Err(_) => Ok(EmptyUser()))
      else
        match m.verifyUser(Join(tokens, " "))
        case Err(e) => Err(e)
        case Ok(u) => if u.role in roles then Ok(u) else Err(Plain("unauthorized access"))
  }

  /** validateUser: an early-return chain, then a loop over the allowed roles. */
  method ValidateUser(env: Env, call: Incoming, roles: seq<string>, m: Model) returns (r: Result<User, Error>)
    ensures r == Validation(env, call, roles, m)
  {
    if env.authEnabled != "true" {
      return Ok(EmptyUser());
    }
    if call.authorization.None? {
      return Err(Plain("ValidateUser: metadata not found"));
    }
    var tokenSlice := call.authorization.value;
    if |tokenSlice| < 1 {
      return Err(Plain("ValidateUser: token not found"));
    }
    var token := tokenSlice[0];
    if token == env.backendUser {
      var u := m.getUser(token);
      if u.Err? {
        return Ok(EmptyUser());
      }
      return Ok(u.value);
    }
    var v := m.verifyUser(Join(tokenSlice, " "));
    if v.Err? {
      return Err(v.error);
    }
    var u := v.value;
    var authorized := false;
    for i := 0 to |roles|
      invariant authorized <==> u.role in roles[..i]
    {
      assert roles[..i + 1] == roles[..i] + [roles[i]];
      if u.role == roles[i] {
        authorized := true;
      }
    }
    assert roles[..|roles|] == roles;
    if !authorized {
      return Err(Plain("unauthorized access"));
    }
    return Ok(u);
  }

  /** With AUTH_ENABLED anything but "true", every caller passes as the empty user. */
  lemma AuthDisabledAdmitsEveryone(env: Env, call: Incoming, roles: seq<string>, m: Model)
    requires env.authEnabled != "true"
    ensures Validation(env, call, roles, m) == Ok(EmptyUser())
  {
  }

  /** With authentication on, a call without metadata or without a token is refused. */
  lemma MissingTokenRefused(env: Env, call: Incoming, roles: seq<string>, m: Model)
    requires env.authEnabled == "true"
    requires call.authorization.None? || call.authorization.value == []
    ensures Validation(env, call, roles, m).Err?
  {
  }

  /**
   * The backend exemption: a first token equal to BACKEND_USER is neither verified nor
   * role-checked; the caller is the stored user of that ID, or the empty user.
   */
  lemma BackendUserExempt(env: Env, call: Incoming, roles: seq<string>, other: seq<string>, m: Model)
    requires env.authEnabled == "true" && call.authorization.Some?
    requires |call.authorization.value| >= 1 && call.authorization.value[0] == env.backendUser
    ensures Validation(env, call, roles, m).Ok?
    ensures Validation(env, call, roles, m) == Validation(env, call, other, m)
    ensures Validation(env, call, roles, m).value ==
      match m.getUser(env.backendUser) case Ok(u) => u case Err(_) => EmptyUser()
  {
  }

  /**
   * With BACKEND_USER unset, an empty first token takes the exemption: with
   * authentication on, such a call passes every gate unverified.
   */
  lemma EmptyTokenWithoutBackendUser(call: Incoming, roles: seq<string>, m: Model)
    requires call.authorization.Some? && |call.authorization.value| >= 1
    requires call.authorization.value[0] == ""
    ensures Validation(Env("true", ""), call, roles, m).Ok?
  {
  }

  /** Otherwise the joined tokens must verify, and the verified user passes iff its role is allowed. */
  lemma RoleDecides(env: Env, call: Incoming, roles: seq<string>, m: Model)
    requires env.authEnabled == "true" && call.authorization.Some?
    requires |call.authorization.value| >= 1 && call.authorization.value[0] != env.backendUser
    ensures m.verifyUser(Join(call.authorization.value, " ")).Err? ==>
      Validation(env, call, roles, m) == Err(m.verifyUser(Join(call.authorization.value, " ")).error)
    ensures m.verifyUser(Join(call.authorization.value, " ")).Ok? ==>
      (Validation(env, call, roles, m).Ok? <==> m.verifyUser(Join(call.authorization.value, " ")).value.role in roles)
    ensures Validation(env, call, roles, m).Ok? ==>
      Validation(env, call, roles, m) == m.verifyUser(Join(call.authorization.value, " "))
  {
  }

  /** A caller admitted under some roles is admitted, as the same user, under any larger set of roles. */
  lemma WiderGroupAdmits(env: Env, call: Incoming, roles: seq<string>, wider: seq<string>, m: Model)
    requires forall role :: role in roles ==> role in wider
    requires Validation(env, call, roles, m).Ok?
    ensures Validation(env, call, wider, m) == Validation(env, call, roles, m)
  {
  }

  /** The role groups are nested: SuperUserOnly within SuperUserAndAdmin within AllCanAccess, each strictly. */
  lemma RoleGroupsNested()
    ensures forall role :: role in SuperUserOnly ==> role in SuperUserAndAdmin
    ensures forall role :: role in SuperUserAndAdmin ==> role in AllCanAccess
    ensures Admin in SuperUserAndAdmin && Admin !in SuperUserOnly
    ensures UserRole in AllCanAccess && UserRole !in SuperUserAndAdmin
  {
  }

  /** The endpoints of handlers.go. */
  datatype Endpoint =
    | ClientGetRecentZones | ClientCreateUser | ClientUpdateUser | ClientGetNearbyUsers
    | ClientGetCurrentZones | ClientGetZones | ClientGetUsers
    | CreateZone | GetZones | GetZone | DeleteZone | UpdateZone | DeleteZones | UpdateZones
    | GetRecentUsersByZone | GetRecentUsersByUser | GetRecentZonesByUser | GetUsersByZone
    | CreateUser | GetUsers | GetUser | DeleteUser | UpdateUser | DeleteUsers | UpdateUsers
    | GetPasswordReset | UpdatePassword | Login | Logout | Refresh
    | CreateFaq | GetFaqs | GetFaq | DeleteFaq | UpdateFaq | DeleteFaqs | UpdateFaqs
    | GetActivities

  /** The role group an endpoint passes to validateUser, or None when it calls no gate. */
  function Gate(e: Endpoint): Option<seq<string>>
  {
    match e
    case ClientGetRecentZones => None
    case ClientCreateUser => None
    case ClientUpdateUser => Some(AllCanAccess)
    case ClientGetNearbyUsers => Some(AllCanAccess)
    case ClientGetCurrentZones => Some(AllCanAccess)
    case ClientGetZones => Some(AllCanAccess)
    case ClientGetUsers => Some(AllCanAccess)
    case CreateZone => Some(SuperUserAndAdmin)
    case GetZones => Some(SuperUserAndAdmin)
    case GetZone => Some(SuperUserAndAdmin)
    case DeleteZone => Some(SuperUserOnly)
    case UpdateZone => Some(SuperUserAndAdmin)
    case DeleteZones => Some(SuperUserOnly)
    case UpdateZones => Some(SuperUserAndAdmin)
    case GetRecentUsersByZone => Some(SuperUserAndAdmin)
    case GetRecentUsersByUser => Some(SuperUserAndAdmin)
    case GetRecentZonesByUser => Some(SuperUserAndAdmin)
    case GetUsersByZone => Some(SuperUserAndAdmin)
    case CreateUser => Some(SuperUserOnly)
    case GetUsers => Some(SuperUserAndAdmin)
    case GetUser => None
    case DeleteUser => Some(SuperUserOnly)
    case UpdateUser => Some(SuperUserOnly)
    case DeleteUsers => Some(SuperUserOnly)
    case UpdateUsers => Some(SuperUserOnly)
    case GetPasswordReset => None
    case UpdatePassword => None
    case Login => None
    case Logout => None
    case Refresh => None
    case CreateFaq => Some(SuperUserOnly)
    case GetFaqs => None
    case GetFaq => Some(SuperUserOnly)
    case DeleteFaq => Some(SuperUserOnly)
    case UpdateFaq => Some(SuperUserOnly)
    case DeleteFaqs => Some(SuperUserOnly)
    case UpdateFaqs => Some(SuperUserOnly)
    case GetActivities => Some(SuperUserAndAdmin)
  }

  /**
   * An endpoint: a guarded one answers UnauthorizedAccessError when the gate refuses and
   * otherwise returns what its handler returns (`outcome`), as does an unguarded one.
   */
  function Serve<R>(e: Endpoint, env: Env, call: Incoming, m: Model, outcome: Result<R, Error>): Result<R, Error>
  {
    match Gate(e)
    case None => outcome
    case Some(roles) => if Validation(env, call, roles, m).Err? then Err(UnauthorizedAccessError) else outcome
  }

  /** A refused call gets UnauthorizedAccessError whatever the handler would have returned. */
  lemma RefusedCallNeverReachesHandler<R>(e: Endpoint, env: Env, call: Incoming, m: Model, outcome: Result<R, Error>, other: Result<R, Error>)
    requires Gate(e).Some? && Validation(env, call, Gate(e).value, m).Err?
    ensures Serve(e, env, call, m, outcome) == Err(UnauthorizedAccessError)
    ensures Serve(e, env, call, m, outcome) == Serve(e, env, call, m, other)
  {
  }

  /** An admitted call, or a call on an unguarded endpoint, returns the handler's result unchanged. */
  lemma AdmittedCallGetsHandlerResult<R>(e: Endpoint, env: Env, call: Incoming, m: Model, outcome: Result<R, Error>)
    requires Gate(e).None? || Validation(env, call, Gate(e).value, m).Ok?
    ensures Serve(e, env, call, m, outcome) == outcome
  {
  }

  /** The endpoints that call no gate. */
  lemma UngatedEndpoints(e: Endpoint)
    ensures Gate(e).None? <==>
      e in {GetUser, GetPasswordReset, UpdatePassword, Login, Logout, Refresh, GetFaqs, ClientGetRecentZones, ClientCreateUser}
  {
  }

  /** A verified admin may update a zone but not delete one; a verified app user may do neither. */
  lemma AdminMayUpdateButNotDeleteZones<R>(env: Env, call: Incoming, m: Model, outcome: Result<R, Error>)
    requires env.authEnabled == "true" && call.authorization.Some?
    requires |call.authorization.value| >= 1 && call.authorization.value[0] != env.backendUser
    requires m.verifyUser(Join(call.authorization.value, " ")).Ok?
    ensures m.verifyUser(Join(call.authorization.value, " ")).value.role == Admin ==>
      Serve(UpdateZone, env, call, m, outcome) == outcome &&
      Serve(DeleteZone, env, call, m, outcome) == Err(UnauthorizedAccessError)
    ensures m.verifyUser(Join(call.authorization.value, " ")).value.role == UserRole ==>
      Serve(UpdateZone, env, call, m, outcome) == Err(UnauthorizedAccessError) &&
      Serve(ClientUpdateUser, env, call, m, outcome) == outcome
  {
  }
}
