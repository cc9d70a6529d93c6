/**
 * The app's own user handlers: client/clientcreateuser.go (self sign-up, always as an
 * app user, with consent) and client/clientupdateuser.go (the profile fields an app
 * user may change). Both normalise Name, PhoneNumber and IC in place before checking.
 */
module ClientHandlers {
  import opened Wrappers
  import opened Constants
  import opened Dto
  import opened Utility
  import opened Api

  // ---------------------------------------------------------------------------
  // client/clientcreateuser.go

  /** The user the sign-up builds: role "user", alert on, every string cleaned by RemoveZeroWidth. */
  function SignUpUser(data: ApiUser, id: string, h: Helpers): (u: User)
    ensures u.id == id && u.role == UserRole && u.alert && u.consent == data.consent
    ensures u.users == [] && u.zones == []
    ensures u.name == RemoveZeroWidth(data.name, h.isGraphic) && u.email == RemoveZeroWidth(data.email, h.isGraphic)
    ensures u.ic == RemoveZeroWidth(data.ic, h.isGraphic) && u.phoneNumber == RemoveZeroWidth(data.phoneNumber, h.isGraphic)
    ensures u.password == RemoveZeroWidth(data.password, h.isGraphic)
    ensures u.(id := "", role := "", name := "", ic := "", phoneNumber := "", email := "", password := "",
               alert := false, consent := 0, users := [], zones := []) == EmptyUser()
  {
    EmptyUser().(id := id, role := UserRole, name := RemoveZeroWidth(data.name, h.isGraphic),
                 ic := RemoveZeroWidth(data.ic, h.isGraphic),
                 phoneNumber := RemoveZeroWidth(data.phoneNumber, h.isGraphic),
                 email := RemoveZeroWidth(data.email, h.isGraphic),
                 password := RemoveZeroWidth(data.password, h.isGraphic),
                 alert := true, consent := data.consent, users := [], zones := [])
  }

  /** The checks of the sign-up, on the normalised user; the first failing one decides. */
  function CheckSignUp(u: User, h: Helpers): (err: Option<Error>)
    ensures err.None? <==>
      h.validateEmail(u.email) && ByteLength(u.password) >= 6 && u.email != "" && u.role != "" && u.consent != 0
    ensures err == Some(ConsentNotSignedError) <==>
      h.validateEmail(u.email) && ByteLength(u.password) >= 6 && u.email != "" && u.role != "" && u.consent == 0
  {
    if !h.validateEmail(u.email) then Some(InvalidEmailError)
    else if ByteLength(u.password) < 6 then Some(InvalidPasswordError)
    else if u.email == "" then Some(InvalidEmailError)
    else if u.role == "" then Some(InvalidRoleError)
    else if u.consent == 0 then Some(ConsentNotSignedError)
    else None
  }

  /** validateAndProcessReq of clientcreateuser.go: normalise in place, then check. */
  method ValidateSignUp(user: User, h: Helpers) returns (processed: User, err: Option<Error>)
    ensures processed == Normalized(user, h)
    ensures err == CheckSignUp(processed, h)
  {
    processed := user;
    processed := processed.(name := h.normalizeName(processed.name));
    processed := processed.(phoneNumber := h.normalizePhoneNumber(processed.phoneNumber, ""));
    processed := processed.(ic := h.normalizeID(processed.ic));
    if !h.validateEmail(processed.email) {
      return processed, Some(InvalidEmailError);
    }
    if ByteLength(processed.password) < 6 {
      return processed, Some(InvalidPasswordError);
    }
    if processed.email == "" {
      return processed, Some(InvalidEmailError);
    }
    if processed.role == "" {
      return processed, Some(InvalidRoleError);
    }
    if processed.consent == 0 {
      return processed, Some(ConsentNotSignedError);
    }
    return processed, None;
  }

  /** The sign-up's EmailAlreadyExist check and model call, as in CreateUser; the query's error is discarded. */
  method CreateUser(req: CreateUserRequest, id: string, h: Helpers, m: Model) returns (r: Result<ApiUser, Error>)
    ensures req.data.None? ==> r == Err(InvalidArgumentError)
    ensures req.data.Some? ==>
        var u := Normalized(SignUpUser(req.data.value, id, h), h);
        (CheckSignUp(u, h).Some? ==> r == Err(CheckSignUp(u, h).value)) &&
        (CheckSignUp(u, h).None? && m.queryUsersByEmail(u.email).0 > 0 ==> r == Err(EmailAlreadyExistError)) &&
        (CheckSignUp(u, h).None? && m.queryUsersByEmail(u.email).0 <= 0 ==>
           (m.createUser(u).Err? ==> r == Err(InternalError)) &&
           (m.createUser(u).Ok? ==> r == Ok(ClientUserView(m.createUser(u).value))))
  {
    if req.data.None? {
      return Err(InvalidArgumentError);
    }
    var user := SignUpUser(req.data.value, id, h);
    var err;
    user, err := ValidateSignUp(user, h);
    if err.Some? {
      return Err(err.value);
    }
    var (count, _) := m.queryUsersByEmail(user.email);
    if count > 0 {
      return Err(EmailAlreadyExistError);
    }
    var rslt := m.createUser(user);
    if rslt.Err? {
      return Err(InternalError);
    }
    return Ok(ClientUserView(rslt.value));
  }

  /** The role is fixed, so the sign-up never answers InvalidRoleError; consent is checked last. */
  lemma SignUpNeverInvalidRole(data: ApiUser, id: string, h: Helpers)
    ensures CheckSignUp(Normalized(SignUpUser(data, id, h), h), h) != Some(InvalidRoleError)
    ensures Normalized(SignUpUser(data, id, h), h).role == UserRole
  {
  }

  /** The sign-up checks in order: those of the administrator's CreateUser, then consent. */
  lemma SignUpCheckOrder(u: User, h: Helpers)
    ensures !h.validateEmail(u.email) ==> CheckSignUp(u, h) == Some(InvalidEmailError)
    ensures h.validateEmail(u.email) && ByteLength(u.password) < 6 ==> CheckSignUp(u, h) == Some(InvalidPasswordError)
    ensures h.validateEmail(u.email) && ByteLength(u.password) >= 6 && u.email == "" ==> CheckSignUp(u, h) == Some(InvalidEmailError)
    ensures h.validateEmail(u.email) && ByteLength(u.password) >= 6 && u.email != "" && u.role == "" ==>
      CheckSignUp(u, h) == Some(InvalidRoleError)
  {
  }

  /** The normalised Name, PhoneNumber and IC are what the model receives and what is checked. */
  lemma SignUpNormalisesFirst(data: ApiUser, id: string, h: Helpers)
    ensures var u := Normalized(SignUpUser(data, id, h), h);
      u.name == h.normalizeName(RemoveZeroWidth(data.name, h.isGraphic)) &&
      u.phoneNumber == h.normalizePhoneNumber(RemoveZeroWidth(data.phoneNumber, h.isGraphic), "") &&
      u.ic == h.normalizeID(RemoveZeroWidth(data.ic, h.isGraphic)) &&
      u.email == RemoveZeroWidth(data.email, h.isGraphic)
  {
  }

  // ---------------------------------------------------------------------------
  // client/clientupdateuser.go

  /** reqToUser of clientupdateuser.go: only ID, Name, IC, PhoneNumber, Alert and Infected. */
  function ProfilePayload(id: string, data: ApiUser, h: Helpers): (u: User)
    ensures u.(id := "", name := "", ic := "", phoneNumber := "", alert := false, infected := 0) == EmptyUser()
    ensures u.alert == data.alert && u.infected == data.infected
    ensures u.id == RemoveZeroWidth(id, h.isGraphic) && u.name == RemoveZeroWidth(data.name, h.isGraphic)
    ensures u.ic == RemoveZeroWidth(data.ic, h.isGraphic) && u.phoneNumber == RemoveZeroWidth(data.phoneNumber, h.isGraphic)
  {
    EmptyUser().(id := RemoveZeroWidth(id, h.isGraphic), name := RemoveZeroWidth(data.name, h.isGraphic),
                 ic := RemoveZeroWidth(data.ic, h.isGraphic),
                 phoneNumber := RemoveZeroWidth(data.phoneNumber, h.isGraphic),
                 alert := data.alert, infected := data.infected)
  }

  /** A phone number that was given but normalises to nothing is refused. */
  predicate PhoneLost(before: User, after: User)
  {
    before.phoneNumber != "" && after.phoneNumber == ""
  }

  /** validateAndProcessReq of clientupdateuser.go: normalise in place, keeping the phone number as sent. */
  method ValidateProfile(user: User, h: Helpers) returns (processed: User, err: Option<Error>)
    ensures processed == Normalized(user, h)
    ensures err.Some? <==> PhoneLost(user, processed)
    ensures err.Some? ==> err.value == InvalidPhoneNumberError
  {
    processed := user;
    processed := processed.(name := h.normalizeName(processed.name));
    var oldPhoneNumber := processed.phoneNumber;
    processed := processed.(phoneNumber := h.normalizePhoneNumber(processed.phoneNumber, ""));
    processed := processed.(ic := h.normalizeID(processed.ic));
    if oldPhoneNumber != "" && processed.phoneNumber == "" {
      return processed, Some(InvalidPhoneNumberError);
    }
    return processed, None;
  }

  /** UpdateUser of the app: the target's existence is checked with the ID as sent. */
  method UpdateUser(req: UpdateUserRequest, h: Helpers, m: Model) returns (r: Result<ApiUser, Error>)
    ensures req.data.None? ==> r == Err(InvalidArgumentError)
    ensures req.data.Some? ==>
        var sent := ProfilePayload(req.id, req.data.value, h);
        var u := Normalized(sent, h);
        (PhoneLost(sent, u) ==> r == Err(InvalidPhoneNumberError)) &&
        (!PhoneLost(sent, u) && m.getUser(req.id).Err? ==> r == Err(m.getUser(req.id).error)) &&
        (!PhoneLost(sent, u) && m.getUser(req.id).Ok? ==>
           (m.clientUpdateAppUser(u).Err? ==> r == Err(InternalError)) &&
           (m.clientUpdateAppUser(u).Ok? ==> r == Ok(ClientUserView(m.clientUpdateAppUser(u).value))))
  {
    if req.data.None? {
      return Err(InvalidArgumentError);
    }
    var user := ProfilePayload(req.id, req.data.value, h);
    var err;
    user, err := ValidateProfile(user, h);
    if err.Some? {
      return Err(err.value);
    }
    var stored := m.getUser(req.id);
    if stored.Err? {
      return Err(stored.error);
    }
    var v := m.clientUpdateAppUser(user);
    if v.Err? {
      return Err(InternalError);
    }
    return Ok(ClientUserView(v.value));
  }

  /** An empty phone number is accepted, and is passed on as whatever the normaliser makes of it. */
  lemma EmptyPhoneAccepted(id: string, data: ApiUser, h: Helpers)
    requires RemoveZeroWidth(data.phoneNumber, h.isGraphic) == ""
    ensures !PhoneLost(ProfilePayload(id, data, h), Normalized(ProfilePayload(id, data, h), h))
  {
  }
}
