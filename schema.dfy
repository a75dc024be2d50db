/** The enumerations and the profile row of the hosted database, as the generated types declare them. */
module Schema {
  import opened Common

  /** The `user_role` enumeration. */
  datatype Role = Student | Teacher | Admin

  /** The `meeting_status` enumeration. */
  datatype MeetingStatus = Scheduled | Active | Ended

  /** The string the database and the client code use for a role. */
  function RoleName(r: Role): string
  {
    match r
    case Student => "student"
    case Teacher => "teacher"
    case Admin => "admin"
  }

  /** Recognises a role string; every other string is no role at all. */
  function ParseRole(s: string): (r: Option<Role>)
    ensures r.Some? ==> RoleName(r.value) == s
    ensures r.None? ==> forall x: Role :: RoleName(x) != s
  {
    if s == "student" then Some(Student)
    else if s == "teacher" then Some(Teacher)
    else if s == "admin" then Some(Admin)
    else None
  }

  lemma ParseRoleName(r: Role)
    ensures ParseRole(RoleName(r)) == Some(r)
  {
  }

  /** The string the database uses for a meeting status. */
  function StatusName(s: MeetingStatus): string
  {
    match s
    case Scheduled => "scheduled"
    case Active => "active"
    case Ended => "ended"
  }

  /** Recognises a meeting-status string. */
  function ParseStatus(s: string): (r: Option<MeetingStatus>)
    ensures r.Some? ==> StatusName(r.value) == s
    ensures r.None? ==> forall x: MeetingStatus :: StatusName(x) != s
  {
    if s == "scheduled" then Some(Scheduled)
    else if s == "active" then Some(Active)
    else if s == "ended" then Some(Ended)
    else None
  }

  lemma ParseStatusName(s: MeetingStatus)
    ensures ParseStatus(StatusName(s)) == Some(s)
  {
  }

  /** A row of the `profiles` table (timestamps left out). */
  datatype Profile = Profile(id: string, name: string, email: string, instituteId: string, role: Role)
}
