/**
 * The administrator's user handlers: user/createuser.go, user/updateuser.go and
 * user/updateusers.go. Each builds a user from the request, runs a chain of checks in
 * which the first failure decides, checks that a new e-mail address is not taken, and
 * only then calls the model; a model failure is reported as InternalError.
 */
module UserHandlers {
  import opened Wrappers
  import opened Constants
  import opened Dto
  import opened Utility
  import opened Api

  // ---------------------------------------------------------------------------
  // user/createuser.go

  /** The user CreateUser builds: Role, Email and Password cleaned by RemoveZeroWidth, Name as sent. */
  function NewUser(data: ApiUser, id: string, h: Helpers): (u: User)
    ensures u.id == id && u.name == data.name && u.users == []
    ensures forall i :: 0 <= i < |u.email| ==> Kept(u.email[i], h.isGraphic)
    ensures forall i :: 0 <= i < |u.role| ==> Kept(u.role[i], h.isGraphic)
    ensures forall i :: 0 <= i < |u.password| ==> Kept(u.password[i], h.isGraphic)
    ensures u.role == RemoveZeroWidth(data.role, h.isGraphic) && u.email == RemoveZeroWidth(data.email, h.isGraphic)
    ensures u.password == RemoveZeroWidth(data.password, h.isGraphic)
    ensures u.lat == data.lat && u.long == data.long && u.isActive == data.isActive
    ensures u.(id := "", role := "", email := "", password := "", lat := 0.0, long := 0.0,
               isActive := false, name := "") == EmptyUser()
  {
    EmptyUser().(id := id, role := RemoveZeroWidth(data.role, h.isGraphic),
                 email := RemoveZeroWidth(data.email, h.isGraphic),
                 password := RemoveZeroWidth(data.password, h.isGraphic),
                 lat := data.lat, long := data.long, users := [], isActive := data.isActive,
                 name := data.name)
  }

  /** validateAndProcessReq of createuser.go; the password length is Go's `len`, in bytes. */
  function CheckNewUser(u: User, h: Helpers): (err: Option<Error>)
    ensures err.None? <==> h.validateEmail(u.email) && ByteLength(u.password) >= 6 && u.email != "" && u.role != ""
    ensures err.Some? ==> err.value == InvalidEmailError || err.value == InvalidPasswordError || err.value == InvalidRoleError
  {
    if !h.validateEmail(u.email) then Some(InvalidEmailError)
    else if ByteLength(u.password) < 6 then Some(InvalidPasswordError)
    else if u.email == "" then Some(InvalidEmailError)
    else if u.role == "" then Some(InvalidRoleError)
    else None
  }

  /**
   * CreateUser. `id` is the fresh UUID. The uniqueness query's error is discarded: only
   * its count is looked at.
   */
  function CreateUser(req: CreateUserRequest, id: string, h: Helpers, m: Model): (r: Result<ApiUser, Error>)
    ensures req.data.None? ==> r == Err(InvalidArgumentError)
    ensures r.Ok? ==>
        req.data.Some? &&
        var u := NewUser(req.data.value, id, h);
        CheckNewUser(u, h).None? && m.queryUsersByEmail(u.email).0 <= 0 &&
        m.createUser(u).Ok? && r.value == AdminUserView(m.createUser(u).value)
    ensures req.data.Some? && CheckNewUser(NewUser(req.data.value, id, h), h).Some? ==>
      r == Err(CheckNewUser(NewUser(req.data.value, id, h), h).value)
    ensures r.Err? ==>
        r.error in {InvalidArgumentError, InvalidEmailError, InvalidPasswordError, InvalidRoleError,
                    EmailAlreadyExistError, InternalError}
  {
    if req.data.None? then Err(InvalidArgumentError)
    else
      var user := NewUser(req.data.value, id, h);
      var err := CheckNewUser(user, h);
      if err.Some? then Err(err.value)
      else if m.queryUsersByEmail(user.email).0 > 0 then Err(EmailAlreadyExistError)
      else
        match m.createUser(user)
        case Err(_) => Err(InternalError)
        case Ok(rslt) => Ok(AdminUserView(rslt))
  }

  /** The checks run in order and the first failing one decides. */
  lemma CreateCheckOrder(u: User, h: Helpers)
    ensures !h.validateEmail(u.email) ==> CheckNewUser(u, h) == Some(InvalidEmailError)
    ensures h.validateEmail(u.email) && ByteLength(u.password) < 6 ==> CheckNewUser(u, h) == Some(InvalidPasswordError)
    ensures h.validateEmail(u.email) && ByteLength(u.password) >= 6 && u.email == "" ==> CheckNewUser(u, h) == Some(InvalidEmailError)
    ensures h.validateEmail(u.email) && ByteLength(u.password) >= 6 && u.email != "" && u.role == "" ==>
      CheckNewUser(u, h) == Some(InvalidRoleError)
  {
  }

  /** Six bytes are enough and five are not. */
  lemma PasswordOfSixAccepted(u: User, h: Helpers)
    requires h.validateEmail(u.email) && u.email != "" && u.role != ""
    ensures CheckNewUser(u.(password := "secret"), h).None?
    ensures CheckNewUser(u.(password := "short"), h) == Some(InvalidPasswordError)
  {
    assert ByteLength("secret") == 6;
    assert ByteLength("short") == 5;
  }

  /** Go's `len` counts bytes: three two-byte runes pass the six-byte minimum. */
  lemma PasswordLengthInBytes(u: User, h: Helpers)
    requires h.validateEmail(u.email) && u.email != "" && u.role != ""
    ensures CheckNewUser(u.(password := "ééé"), h).None?
  {
    assert ByteLength("ééé") == 6;
  }

  /** A taken e-mail address is refused before the model's CreateUser is consulted. */
  lemma CreateRefusesTakenEmail(req: CreateUserRequest, id: string, h: Helpers, m: Model, create: User -> Result<User, Error>)
    requires req.data.Some? && CheckNewUser(NewUser(req.data.value, id, h), h).None?
    requires m.queryUsersByEmail(NewUser(req.data.value, id, h).email).0 > 0
    ensures CreateUser(req, id, h, m) == Err(EmailAlreadyExistError)
    ensures CreateUser(req, id, h, m.(createUser := create)) == Err(EmailAlreadyExistError)
  {
  }

  /** A failing uniqueness query does not stop the creation: only its count matters. */
  lemma CreateIgnoresQueryError(req: CreateUserRequest, id: string, h: Helpers, m: Model, query: string -> (int, Option<Error>))
    requires forall e :: query(e).0 == m.queryUsersByEmail(e).0
    ensures CreateUser(req, id, h, m.(queryUsersByEmail := query)) == CreateUser(req, id, h, m)
  {
  }

  /** A valid request with a free address fails only when the model does, and then with InternalError. */
  lemma CreateHidesModelError(req: CreateUserRequest, id: string, h: Helpers, m: Model)
    requires req.data.Some? && CheckNewUser(NewUser(req.data.value, id, h), h).None?
    requires m.queryUsersByEmail(NewUser(req.data.value, id, h).email).0 <= 0
    ensures m.createUser(NewUser(req.data.value, id, h)).Err? <==> CreateUser(req, id, h, m) == Err(InternalError)
    ensures m.createUser(NewUser(req.data.value, id, h)).Ok? <==> CreateUser(req, id, h, m).Ok?
  {
  }

  // ---------------------------------------------------------------------------
  // user/updateuser.go

  /** reqToUser of updateuser.go: only ID, Role, Email, IsActive, Lat, Long and Name. */
  function UpdatePayload(id: string, data: ApiUser, h: Helpers): (u: User)
    ensures u.(id := "", role := "", email := "", isActive := false, lat := 0.0, long := 0.0, name := "") == EmptyUser()
    ensures u.id == RemoveZeroWidth(id, h.isGraphic) && u.name == data.name
    ensures u.role == RemoveZeroWidth(data.role, h.isGraphic) && u.email == RemoveZeroWidth(data.email, h.isGraphic)
    ensures u.isActive == data.isActive && u.lat == data.lat && u.long == data.long
  {
    EmptyUser().(id := RemoveZeroWidth(id, h.isGraphic), role := RemoveZeroWidth(data.role, h.isGraphic),
                 email := RemoveZeroWidth(data.email, h.isGraphic), isActive := data.isActive,
                 lat := data.lat, long := data.long, name := data.name)
  }

  /** validateAndProcessReq of updateuser.go and of updateusers.go (after its normalisation). */
  function CheckUpdate(u: User, h: Helpers): (err: Option<Error>)
    ensures err.None? <==> h.validateEmail(u.email) && u.email != "" && u.role != ""
    ensures err.Some? && err.value == InvalidRoleError <==> h.validateEmail(u.email) && u.email != "" && u.role == ""
    ensures err.Some? ==> err.value == InvalidEmailError || err.value == InvalidRoleError
  {
    if !h.validateEmail(u.email) then Some(InvalidEmailError)
    else if u.email == "" then Some(InvalidEmailError)
    else if u.role == "" then Some(InvalidRoleError)
    else None
  }

  /**
   * The uniqueness step shared by UpdateUser and UpdateUsers: only an address that
   * differs from the stored one is queried; the query's error is returned.
   */
  function EmailFree(stored: User, email: string, m: Model): (err: Option<Error>)
    ensures stored.email == email ==> err.None?
    ensures err.Some? ==> err == m.queryUsersByEmail(email).1 || err == Some(EmailAlreadyExistError)
    ensures err.None? && stored.email != email ==> m.queryUsersByEmail(email).1.None? && m.queryUsersByEmail(email).0 <= 0
  {
    if stored.email == email then None
    else
      var (count, qerr) := m.queryUsersByEmail(email);
      if qerr.Some? then qerr
      else if count > 0 then Some(EmailAlreadyExistError)
      else None
  }

  /**
   * UpdateUser. The target is looked up with the request's ID as sent, while the
   * update itself carries the ID after RemoveZeroWidth.
   */
  function UpdateUser(req: UpdateUserRequest, h: Helpers, m: Model): (r: Result<ApiUser, Error>)
    ensures req.data.None? ==> r == Err(InvalidArgumentError)
    ensures req.data.Some? && CheckUpdate(UpdatePayload(req.id, req.data.value, h), h).Some? ==>
      r == Err(CheckUpdate(UpdatePayload(req.id, req.data.value, h), h).value)
    ensures r.Ok? ==>
        req.data.Some? && m.getUser(req.id).Ok? &&
        var u := UpdatePayload(req.id, req.data.value, h);
        CheckUpdate(u, h).None? && EmailFree(m.getUser(req.id).value, u.email, m).None? &&
        m.updateUser(u).Ok? && r.value == AdminUserView(m.updateUser(u).value)
  {
    if req.data.None? then Err(InvalidArgumentError)
    else
      var user := UpdatePayload(req.id, req.data.value, h);
      var err := CheckUpdate(user, h);
      if err.Some? then Err(err.value)
      else
        match m.getUser(req.id)
        case Err(e) => Err(e)
        case Ok(u) =>
          var taken := EmailFree(u, user.email, m);
          if taken.Some? then Err(taken.value)
          else
            match m.updateUser(user)
            case Err(_) => Err(InternalError)
            case Ok(v) => Ok(AdminUserView(v))
  }

  /** An invalid payload is refused before the target is looked up or anything is queried. */
  lemma UpdateValidatesFirst(req: UpdateUserRequest, h: Helpers, m: Model, other: Model)
    requires req.data.Some? && CheckUpdate(UpdatePayload(req.id, req.data.value, h), h).Some?
    ensures UpdateUser(req, h, m) == UpdateUser(req, h, other)
  {
  }

  /** A lookup failure is returned as is. */
  lemma UpdateLookupFails(req: UpdateUserRequest, h: Helpers, m: Model)
    requires req.data.Some? && CheckUpdate(UpdatePayload(req.id, req.data.value, h), h).None?
    requires m.getUser(req.id).Err?
    ensures UpdateUser(req, h, m) == Err(m.getUser(req.id).error)
  {
  }

  /** Keeping the stored address skips the uniqueness query: its answer does not matter. */
  lemma UpdateSameEmailSkipsQuery(req: UpdateUserRequest, h: Helpers, m: Model, query: string -> (int, Option<Error>))
    requires req.data.Some? && m.getUser(req.id).Ok?
    requires m.getUser(req.id).value.email == UpdatePayload(req.id, req.data.value, h).email
    ensures UpdateUser(req, h, m.(queryUsersByEmail := query)) == UpdateUser(req, h, m)
  {
    var u := UpdatePayload(req.id, req.data.value, h);
    var other := m.(queryUsersByEmail := query);
    assert other.getUser == m.getUser && other.updateUser == m.updateUser;
    var stored := m.getUser(req.id).value;
    assert EmailFree(stored, u.email, other) == None == EmailFree(stored, u.email, m);
    var expected: Result<ApiUser, Error> :=
      if CheckUpdate(u, h).Some? then Err(CheckUpdate(u, h).value)
      else match m.updateUser(u) case Err(_) => Err(InternalError) case Ok(v) => Ok(AdminUserView(v));
    assert UpdateUser(req, h, m) == expected;
    assert UpdateUser(req, h, other) == expected;
  }

  /** A failing uniqueness query for a changed address is returned. */
  lemma UpdateQueryErrorReturned(req: UpdateUserRequest, h: Helpers, m: Model)
    requires req.data.Some? && CheckUpdate(UpdatePayload(req.id, req.data.value, h), h).None?
    requires m.getUser(req.id).Ok?
    requires m.getUser(req.id).value.email != UpdatePayload(req.id, req.data.value, h).email
    requires m.queryUsersByEmail(UpdatePayload(req.id, req.data.value, h).email).1.Some?
    ensures UpdateUser(req, h, m) == Err(m.queryUsersByEmail(UpdatePayload(req.id, req.data.value, h).email).1.value)
  {
  }

  /** Past the checks, a model failure is reported as InternalError. */
  lemma UpdateHidesModelError(req: UpdateUserRequest, h: Helpers, m: Model)
    requires req.data.Some? && CheckUpdate(UpdatePayload(req.id, req.data.value, h), h).None?
    requires m.getUser(req.id).Ok?
    requires EmailFree(m.getUser(req.id).value, UpdatePayload(req.id, req.data.value, h).email, m).None?
    ensures m.updateUser(UpdatePayload(req.id, req.data.value, h)).Err? <==> UpdateUser(req, h, m) == Err(InternalError)
  {
  }

  // ---------------------------------------------------------------------------
  // user/updateusers.go

  /** reqToUser of updateusers.go: every string field cleaned by RemoveZeroWidth; no ID. */
  function UsersPayload(data: ApiUser, h: Helpers): (u: User)
    ensures u.role == RemoveZeroWidth(data.role, h.isGraphic) && u.name == RemoveZeroWidth(data.name, h.isGraphic)
    ensures u.ic == RemoveZeroWidth(data.ic, h.isGraphic) && u.phoneNumber == RemoveZeroWidth(data.phoneNumber, h.isGraphic)
    ensures u.email == RemoveZeroWidth(data.email, h.isGraphic) && u.password == RemoveZeroWidth(data.password, h.isGraphic)
    ensures u.isActive == data.isActive && u.lat == data.lat && u.long == data.long
    ensures u.id == "" && u.(role := "", name := "", ic := "", phoneNumber := "", email := "", password := "",
                             isActive := false, lat := 0.0, long := 0.0) == EmptyUser()
  {
    EmptyUser().(role := RemoveZeroWidth(data.role, h.isGraphic), name := RemoveZeroWidth(data.name, h.isGraphic),
                 ic := RemoveZeroWidth(data.ic, h.isGraphic), phoneNumber := RemoveZeroWidth(data.phoneNumber, h.isGraphic),
                 email := RemoveZeroWidth(data.email, h.isGraphic), password := RemoveZeroWidth(data.password, h.isGraphic),
                 isActive := data.isActive, lat := data.lat, long := data.long)
  }

  /** validateAndProcessReq of updateusers.go: normalise Name, PhoneNumber and IC in place, then check. */
  method ValidateUsersPayload(user: User, h: Helpers) returns (processed: User, err: Option<Error>)
    ensures processed == Normalized(user, h)
    ensures err == CheckUpdate(processed, h)
  {
    processed := user;
    processed := processed.(name := h.normalizeName(processed.name));
    processed := processed.(phoneNumber := h.normalizePhoneNumber(processed.phoneNumber, ""));
    processed := processed.(ic := h.normalizeID(processed.ic));
    if !h.validateEmail(processed.email) {
      return processed, Some(InvalidEmailError);
    }
    if processed.email == "" {
      return processed, Some(InvalidEmailError);
    }
    if processed.role == "" {
      return processed, Some(InvalidRoleError);
    }
    return processed, None;
  }

  /**
   * UpdateUsers: at most one ID is supported. With no ID at all, a valid payload reaches
   * `req.Ids[0]`, which panics.
   */
  method UpdateUsers(req: UpdateUsersRequest, h: Helpers, m: Model) returns (r: Result<seq<string>, Error>)
    ensures req.data.None? ==> r == Err(InvalidArgumentError)
    ensures req.data.Some? && |req.ids| > 1 ==> r == Err(OperationUnsupportedError)
    ensures req.data.Some? && |req.ids| <= 1 ==>
        var u := Normalized(UsersPayload(req.data.value, h), h);
        (CheckUpdate(u, h).Some? ==> r == Err(CheckUpdate(u, h).value)) &&
        (CheckUpdate(u, h).None? && req.ids == [] ==> r == Err(Panic)) &&
        (CheckUpdate(u, h).None? && |req.ids| == 1 && m.getUser(req.ids[0]).Err? ==> r == Err(m.getUser(req.ids[0]).error))
    ensures r.Ok? ==>
        req.data.Some? && |req.ids| == 1 && m.getUser(req.ids[0]).Ok? &&
        var u := Normalized(UsersPayload(req.data.value, h), h);
        CheckUpdate(u, h).None? && EmailFree(m.getUser(req.ids[0]).value, u.email, m).None? &&
        m.updateUsers(u, req.ids) == Ok(r.value)
    ensures (req.data.Some? && |req.ids| == 1 && m.getUser(req.ids[0]).Ok? &&
             CheckUpdate(Normalized(UsersPayload(req.data.value, h), h), h).None? &&
             EmailFree(m.getUser(req.ids[0]).value, Normalized(UsersPayload(req.data.value, h), h).email, m).None? &&
             m.updateUsers(Normalized(UsersPayload(req.data.value, h), h), req.ids).Err?) ==>
      r == Err(InternalError)
  {
    if req.data.None? {
      return Err(InvalidArgumentError);
    }
    if |req.ids| > 1 {
      return Err(OperationUnsupportedError);
    }
    var user := UsersPayload(req.data.value, h);
    var err;
    user, err := ValidateUsersPayload(user, h);
    if err.Some? {
      return Err(err.value);
    }
    if |req.ids| == 0 {
      return Err(Panic);
    }
    var u := m.getUser(req.ids[0]);
    if u.Err? {
      return Err(u.error);
    }
    var taken := EmailFree(u.value, user.email, m);
    if taken.Some? {
      return Err(taken.value);
    }
    var ids := m.updateUsers(user, req.ids);
    if ids.Err? {
      return Err(InternalError);
    }
    return Ok(ids.value);
  }
}
