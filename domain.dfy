/** Types shared by the backend and the frontend of the permit-application tracker. */
module Domain {

  /** `T | null` or `T | undefined` in the source, as one option type. */
  datatype Option<+T> = None | Some(value: T)

  /** The Prisma `Role` enum. */
  datatype Role = USER | ADMIN

  /** The Prisma `ApplicationStatus` enum. */
  datatype ApplicationStatus = Pending | Approved | Rejected

  /** A JSON value: what the source types as `unknown` or `Record<string, unknown>`.
      Numbers are integers here; no value in this model needs a fraction. */
  datatype Json =
    | JNull
    | JBool(b: bool)
    | JNum(n: int)
    | JStr(s: string)
    | JArr(items: seq<Json>)
    | JObj(fields: map<string, Json>)

  /** JavaScript truthiness of a JSON value. */
  predicate Truthy(v: Json)
  {
    match v
    case JNull => false
    case JBool(b) => b
    case JNum(n) => n != 0
    case JStr(s) => s != ""
    case JArr(_) => true
    case JObj(_) => true
  }

  /** JavaScript's `s || undefined` on an optional string: null, undefined and the empty
      string all become undefined, any other string is kept. */
  function OrUndefined(s: Option<string>): (r: Option<string>)
    ensures r.Some? <==> s.Some? && s.value != ""
    ensures r.Some? ==> r == s
  {
    if s.Some? && s.value != "" then s else None
  }

  /** A stored permit application (the shape of `PermitApplicationResponse`);
      `owner` is the nullable `userId` column, `submittedAt` a timestamp. */
  datatype PermitApplication = PermitApplication(
    id: string,
    applicantName: string,
    applicantEmail: string,
    permitType: string,
    status: ApplicationStatus,
    submittedAt: int,
    owner: Option<string>)

  /** The verified caller that the JWT strategy attaches to the request as `request.user`. */
  datatype Identity = Identity(id: string, email: string, role: Role)

  /** The string value Prisma gives an enum member. */
  function RoleName(r: Role): string
  {
    match r
    case USER => "USER"
    case ADMIN => "ADMIN"
  }

  function StatusName(s: ApplicationStatus): string
  {
    match s
    case Pending => "Pending"
    case Approved => "Approved"
    case Rejected => "Rejected"
  }

  /** Reads an enum member back from its string value (what `@IsEnum` accepts). */
  function ParseStatus(s: string): (r: Option<ApplicationStatus>)
    ensures r.Some? <==> s in {"Pending", "Approved", "Rejected"}
    ensures r.Some? ==> StatusName(r.value) == s
  {
    if s == "Pending" then Some(Pending)
    else if s == "Approved" then Some(Approved)
    else if s == "Rejected" then Some(Rejected)
    else None
  }

  /** Every status survives the trip through its string value. */
  lemma StatusNameRoundTrip(s: ApplicationStatus)
    ensures ParseStatus(StatusName(s)) == Some(s)
  {
  }
}
