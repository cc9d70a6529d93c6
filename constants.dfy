/** Constants of pkg/constants: zone kinds, risk levels, roles, role groups and errors. */
module Constants {

  // pkg/constants/zone.go: zone kinds (iota + 1)
  const ZoneKind: int := 1
  const SubZoneKind: int := 2

  // pkg/constants/zone.go: risk levels, 1 is the highest risk
  const MaximumRisk: int := 1
  const HighRisk: int := 2
  const MediumRisk: int := 3
  const LowRisk: int := 4
  const MinimumRisk: int := 5

  // pkg/constants/user.go: roles and the role groups the endpoints use
  const SuperUser: string := "superuser"
  const Admin: string := "admin"
  const UserRole: string := "user"
  const SuperUserOnly: seq<string> := [SuperUser]
  const SuperUserAndAdmin: seq<string> := [SuperUser, Admin]
  const AllCanAccess: seq<string> := [SuperUser, Admin, UserRole]

  /** The sort order that reverses a sorted list. */
  const Descending: string := "DESC"

  /** gRPC status codes that the handlers inspect. */
  datatype Code = Unknown | InvalidArgument | AlreadyExists | NotFound | Internal | Unauthenticated | Unimplemented

  /** The errors of pkg/constants/error.go that the core returns, plus the driver's own errors. */
  datatype Error =
    | InvalidArgumentError
    | InvalidPhoneNumberError
    | InvalidEmailError
    | InvalidRoleError
    | InvalidDateError
    | ConsentNotSignedError
    | InvalidPasswordError
    | EmailAlreadyExistError
    | UnauthorizedAccessError
    | OperationUnsupportedError
    | InternalError
    | DailyNotFoundError
    /** mongo.ErrNoDocuments: FindOne matched nothing */
    | NoDocuments
    /** any other failure of the datastore driver (network, decode) */
    | DriverError
    /** `errors.New(message)` */
    | Plain(message: string)
    /** a Go runtime panic (index out of range) */
    | Panic

  /** `status.Code(err)`: errors built with `status.Error` carry their code; plain errors read as Unknown. */
  function CodeOf(e: Error): (c: Code)
    ensures c == Unknown <==> e.NoDocuments? || e.DriverError? || e.Plain? || e.Panic?
    ensures c == InvalidArgument <==>
      e.InvalidArgumentError? || e.InvalidPhoneNumberError? || e.InvalidEmailError? || e.InvalidRoleError? ||
      e.InvalidDateError? || e.ConsentNotSignedError? || e.InvalidPasswordError?
    ensures c == AlreadyExists <==> e.EmailAlreadyExistError?
    ensures c == Unauthenticated <==> e.UnauthorizedAccessError?
    ensures c == Unimplemented <==> e.OperationUnsupportedError?
    ensures c == Internal <==> e.InternalError?
    ensures c == NotFound <==> e.DailyNotFoundError?
  {
    match e
    case InvalidArgumentError => InvalidArgument
    case InvalidPhoneNumberError => InvalidArgument
    case InvalidEmailError => InvalidArgument
    case InvalidRoleError => InvalidArgument
    case InvalidDateError => InvalidArgument
    case ConsentNotSignedError => InvalidArgument
    case InvalidPasswordError => InvalidArgument
    case EmailAlreadyExistError => AlreadyExists
    case UnauthorizedAccessError => Unauthenticated
    case OperationUnsupportedError => Unimplemented
    case InternalError => Internal
    case DailyNotFoundError => NotFound
    case NoDocuments => Unknown
    case DriverError => Unknown
    case Plain(_) => Unknown
    case Panic => Unknown
  }
}
