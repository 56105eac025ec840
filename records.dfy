/**
  The records the pages pass around, as the pages see them (camelCase
  fields), and the JavaScript truthiness tests they apply to those fields.
 */
module Records {
  import opened Wrappers

  /** A job posting. A salary bound is None when it is null, undefined or NaN. */
  datatype Job = Job(
    id: int,
    employerId: int,
    title: string,
    companyName: string,
    description: string,
    requirements: string,
    location: string,
    salaryMin: Option<int>,
    salaryMax: Option<int>,
    jobType: string,
    experienceLevel: string,
    postedDate: string,
    deadline: string,
    status: string)

  /**
    A job seeker's application, with the job's title, company and location
    copied in when it is created. Statuses are never validated, so `status` is
    any string; an absent `employerNotes` is the empty string.
   */
  datatype Application = Application(
    id: int,
    jobId: int,
    jobSeekerId: int,
    jobTitle: string,
    companyName: string,
    location: string,
    coverLetter: string,
    appliedDate: string,
    status: string,
    employerNotes: string)

  /** A user account; `role` is "jobSeeker", "employer" or "admin". */
  datatype User = User(id: int, email: string, role: string, isActive: bool)

  /** A field value of a plain profile or form object. */
  datatype Value = Text(text: string) | List(items: seq<string>) | Flag(flag: bool) | Null

  /** A profile or form: a plain object, from field name to value. */
  type Profile = map<string, Value>

  const ActiveStatus := "active"
  const InactiveStatus := "inactive"

  const AppliedStatus := "applied"
  const ReviewedStatus := "reviewed"
  const ShortlistedStatus := "shortlisted"
  const RejectedStatus := "rejected"
  const HiredStatus := "hired"

  /** The five application statuses the pages name. */
  predicate IsKnownStatus(s: string) {
    s == AppliedStatus || s == ReviewedStatus || s == ShortlistedStatus || s == RejectedStatus || s == HiredStatus
  }

  /** `job.status === "active"`. */
  predicate IsActive(job: Job) {
    job.status == ActiveStatus
  }

  /** A number field in a truthy position: present and not zero. */
  predicate IsSet(x: Option<int>) {
    x.Some? && x.value != 0
  }

  /** JavaScript truthiness of a field value. */
  predicate Truthy(v: Value) {
    match v
    case Text(s) => s != ""
    case List(_) => true
    case Flag(b) => b
    case Null => false
  }

  /** `value?.length > 0`: a non-empty string or array. */
  predicate HasItems(v: Value) {
    match v
    case Text(s) => |s| > 0
    case List(xs) => |xs| > 0
    case Flag(_) => false
    case Null => false
  }

  /** The value of `profile[field]`; a missing field reads as `undefined`. */
  function Field(profile: Profile, field: string): Value {
    if field in profile then profile[field] else Null
  }

  /**
    `{ ...app, status, employerNotes }`: the record with a new status and new
    notes, every other field as it was.
   */
  function WithStatus(app: Application, status: string, notes: string): (r: Application)
    ensures r.status == status && r.employerNotes == notes
    ensures r.(status := app.status, employerNotes := app.employerNotes) == app
  {
    app.(status := status, employerNotes := notes)
  }
}
