/**
  The job search page: the pool of active jobs, the search and filter
  pipeline over it, clearing the filters, and applying to a job with a
  check for an earlier application to the same job.
 */
module JobSearch {
  import opened Wrappers
  import opened Records
  import opened Text
  import opened Seqs
  import opened Queries
  import opened Store

  /** The filter panel's state. `industry` is held here but no stage reads it. */
  datatype Filters = Filters(
    location: string,
    jobType: string,
    experienceLevel: string,
    industry: string,
    salaryMin: string,
    salaryMax: string)

  /** The initial filter state, and the one "Clear All" restores. */
  const NoFilters := Filters("", "", "", "", "", "")

  /** Some of the four searchable fields, lower-cased, contains `term`. */
  predicate SearchHit(job: Job, term: string) {
    || Contains(Lower(job.title), term)
    || Contains(Lower(job.companyName), term)
    || Contains(Lower(job.description), term)
    || Contains(Lower(job.location), term)
  }

  /** `job.salaryMin && job.salaryMin >= minSalary`; a `NaN` bound admits nothing. */
  predicate MeetsMinimum(job: Job, minSalary: Option<int>) {
    IsSet(job.salaryMin) && minSalary.Some? && job.salaryMin.value >= minSalary.value
  }

  /** `job.salaryMax && job.salaryMax <= maxSalary`; a `NaN` bound admits nothing. */
  predicate MeetsMaximum(job: Job, maxSalary: Option<int>) {
    IsSet(job.salaryMax) && maxSalary.Some? && job.salaryMax.value <= maxSalary.value
  }

  // The six stage predicates, one per `filtered.filter(...)` of the page.

  function BySearchTerm(searchTerm: string): Job -> bool {
    (job: Job) => SearchHit(job, Lower(searchTerm))
  }

  function ByLocation(location: string): Job -> bool {
    (job: Job) => Contains(Lower(job.location), Lower(location))
  }

  function ByJobType(jobType: string): Job -> bool {
    (job: Job) => job.jobType == jobType
  }

  function ByExperienceLevel(level: string): Job -> bool {
    (job: Job) => job.experienceLevel == level
  }

  function BySalaryMin(salaryMin: string): Job -> bool {
    (job: Job) => MeetsMinimum(job, ParseInt(salaryMin))
  }

  function BySalaryMax(salaryMax: string): Job -> bool {
    (job: Job) => MeetsMaximum(job, ParseInt(salaryMax))
  }

  /**
    `filterJobs`: six filter stages in the page's order, each run only when
    its criterion is set. The search term and location count as set when
    they are not blank, but are matched untrimmed; the other criteria count
    as set when non-empty.
   */
  function FilterJobs(jobs: seq<Job>, searchTerm: string, filters: Filters): (listed: seq<Job>)
    ensures |listed| <= |jobs|
    ensures forall job :: job in listed ==> job in jobs
  {
    var bySearch := KeepIf(jobs, !IsBlank(searchTerm), BySearchTerm(searchTerm));
    var byLocation := KeepIf(bySearch, !IsBlank(filters.location), ByLocation(filters.location));
    var byType := KeepIf(byLocation, filters.jobType != "", ByJobType(filters.jobType));
    var byLevel := KeepIf(byType, filters.experienceLevel != "", ByExperienceLevel(filters.experienceLevel));
    var byMin := KeepIf(byLevel, filters.salaryMin != "", BySalaryMin(filters.salaryMin));
    KeepIf(byMin, filters.salaryMax != "", BySalaryMax(filters.salaryMax))
  }

  /**
    The criteria one job must meet to be listed, stated as one condition:
    the untrimmed lower-cased term occurs in the title, company, description
    or location; the lower-cased location filter occurs in the location; job
    type and experience level are equal to the chosen ones; and each salary
    filter compares the job's bound ON THE SAME SIDE (minimum with salaryMin,
    maximum with salaryMax), where a missing or zero bound fails.
   */
  predicate Matches(searchTerm: string, filters: Filters, job: Job) {
    && (!IsBlank(searchTerm) ==> SearchHit(job, Lower(searchTerm)))
    && (!IsBlank(filters.location) ==> Contains(Lower(job.location), Lower(filters.location)))
    && (filters.jobType != "" ==> job.jobType == filters.jobType)
    && (filters.experienceLevel != "" ==> job.experienceLevel == filters.experienceLevel)
    && (filters.salaryMin != "" ==> MeetsMinimum(job, ParseInt(filters.salaryMin)))
    && (filters.salaryMax != "" ==> MeetsMaximum(job, ParseInt(filters.salaryMax)))
  }

  function Matcher(searchTerm: string, filters: Filters): Job -> bool {
    (job: Job) => Matches(searchTerm, filters, job)
  }

  lemma FilterJobsAppend(a: seq<Job>, b: seq<Job>, searchTerm: string, filters: Filters)
    ensures FilterJobs(a + b, searchTerm, filters) == FilterJobs(a, searchTerm, filters) + FilterJobs(b, searchTerm, filters)
  {
    var f := filters;
    KeepIfAppend(a, b, !IsBlank(searchTerm), BySearchTerm(searchTerm));
    var a1 := KeepIf(a, !IsBlank(searchTerm), BySearchTerm(searchTerm));
    var b1 := KeepIf(b, !IsBlank(searchTerm), BySearchTerm(searchTerm));
    KeepIfAppend(a1, b1, !IsBlank(f.location), ByLocation(f.location));
    var a2 := KeepIf(a1, !IsBlank(f.location), ByLocation(f.location));
    var b2 := KeepIf(b1, !IsBlank(f.location), ByLocation(f.location));
    KeepIfAppend(a2, b2, f.jobType != "", ByJobType(f.jobType));
    var a3 := KeepIf(a2, f.jobType != "", ByJobType(f.jobType));
    var b3 := KeepIf(b2, f.jobType != "", ByJobType(f.jobType));
    KeepIfAppend(a3, b3, f.experienceLevel != "", ByExperienceLevel(f.experienceLevel));
    var a4 := KeepIf(a3, f.experienceLevel != "", ByExperienceLevel(f.experienceLevel));
    var b4 := KeepIf(b3, f.experienceLevel != "", ByExperienceLevel(f.experienceLevel));
    KeepIfAppend(a4, b4, f.salaryMin != "", BySalaryMin(f.salaryMin));
    var a5 := KeepIf(a4, f.salaryMin != "", BySalaryMin(f.salaryMin));
    var b5 := KeepIf(b4, f.salaryMin != "", BySalaryMin(f.salaryMin));
    KeepIfAppend(a5, b5, f.salaryMax != "", BySalaryMax(f.salaryMax));
  }

  lemma FilterJobsSingleton(job: Job, searchTerm: string, filters: Filters)
    ensures FilterJobs([job], searchTerm, filters) == if Matches(searchTerm, filters, job) then [job] else []
  {
    var f := filters;
    KeepIfSingleton(job, !IsBlank(searchTerm), BySearchTerm(searchTerm));
    KeepIfSingleton(job, !IsBlank(f.location), ByLocation(f.location));
    KeepIfSingleton(job, f.jobType != "", ByJobType(f.jobType));
    KeepIfSingleton(job, f.experienceLevel != "", ByExperienceLevel(f.experienceLevel));
    KeepIfSingleton(job, f.salaryMin != "", BySalaryMin(f.salaryMin));
    KeepIfSingleton(job, f.salaryMax != "", BySalaryMax(f.salaryMax));
  }

  /** The staged pipeline selects exactly the jobs that meet all criteria at once. */
  lemma {:induction false} FilterJobsIsMatching(jobs: seq<Job>, searchTerm: string, filters: Filters)
    ensures FilterJobs(jobs, searchTerm, filters) == Keep(jobs, Matcher(searchTerm, filters))
  {
    if jobs == [] {
      assert FilterJobs([], searchTerm, filters) == [];
    } else {
      assert jobs == [jobs[0]] + jobs[1..];
      FilterJobsAppend([jobs[0]], jobs[1..], searchTerm, filters);
      FilterJobsSingleton(jobs[0], searchTerm, filters);
      FilterJobsIsMatching(jobs[1..], searchTerm, filters);
    }
  }

  /** The result keeps a job of the input exactly when it meets every criterion. */
  lemma FilterJobsExactly(jobs: seq<Job>, searchTerm: string, filters: Filters, job: Job)
    ensures job in FilterJobs(jobs, searchTerm, filters) <==> job in jobs && Matches(searchTerm, filters, job)
  {
    FilterJobsIsMatching(jobs, searchTerm, filters);
    KeepMember(jobs, Matcher(searchTerm, filters), job);
  }

  /** The result is the input with some jobs left out, in the same relative order. */
  lemma FilterJobsIsSubsequence(jobs: seq<Job>, searchTerm: string, filters: Filters)
    ensures IsSubsequence(FilterJobs(jobs, searchTerm, filters), jobs)
  {
    FilterJobsIsMatching(jobs, searchTerm, filters);
    KeepIsSubsequence(jobs, Matcher(searchTerm, filters));
  }

  /** Filtering the filtered list again with the same criteria changes nothing. */
  lemma FilterJobsIdempotent(jobs: seq<Job>, searchTerm: string, filters: Filters)
    ensures FilterJobs(FilterJobs(jobs, searchTerm, filters), searchTerm, filters) == FilterJobs(jobs, searchTerm, filters)
  {
    var once := FilterJobs(jobs, searchTerm, filters);
    FilterJobsIsMatching(jobs, searchTerm, filters);
    FilterJobsIsMatching(once, searchTerm, filters);
    KeepIdempotent(jobs, Matcher(searchTerm, filters));
  }

  /** With a blank search term and no filter set, every job is listed. */
  lemma FilterJobsUnfiltered(jobs: seq<Job>, searchTerm: string, filters: Filters)
    requires IsBlank(searchTerm) && IsBlank(filters.location)
    requires filters.jobType == "" && filters.experienceLevel == ""
    requires filters.salaryMin == "" && filters.salaryMax == ""
    ensures FilterJobs(jobs, searchTerm, filters) == jobs
  {
  }

  /** The industry criterion never changes the result. */
  lemma FilterJobsIgnoresIndustry(jobs: seq<Job>, searchTerm: string, filters: Filters, industry: string)
    ensures FilterJobs(jobs, searchTerm, filters.(industry := industry)) == FilterJobs(jobs, searchTerm, filters)
  {
  }

  /**
    A set minimum salary keeps only jobs whose own salaryMin is present, not
    zero, and at least the parsed minimum; a set maximum keeps only jobs
    whose own salaryMax is present, not zero, and at most the parsed maximum.
    A bound that does not parse as a number lists no job at all.
   */
  lemma SalaryFiltersCompareSameSide(jobs: seq<Job>, searchTerm: string, filters: Filters, job: Job)
    requires job in FilterJobs(jobs, searchTerm, filters)
    ensures filters.salaryMin != "" ==>
      ParseInt(filters.salaryMin).Some? && job.salaryMin.Some? && job.salaryMin.value != 0
      && job.salaryMin.value >= ParseInt(filters.salaryMin).value
    ensures filters.salaryMax != "" ==>
      ParseInt(filters.salaryMax).Some? && job.salaryMax.Some? && job.salaryMax.value != 0
      && job.salaryMax.value <= ParseInt(filters.salaryMax).value
  {
    FilterJobsExactly(jobs, searchTerm, filters, job);
  }

  /**
    A job paying 50000 to 90000 is not listed under a minimum of "60000":
    the minimum is compared with the job's own minimum, not its maximum.
   */
  lemma SalaryMinimumIsNotRangeOverlap(job: Job)
    requires job.salaryMin == Some(50000) && job.salaryMax == Some(90000)
    ensures FilterJobs([job], "", NoFilters.(salaryMin := DecimalString(60000))) == []
  {
    ParseIntDecimal(60000);
    FilterJobsSingleton(job, "", NoFilters.(salaryMin := DecimalString(60000)));
  }

  /**
    The job search page's state. The page re-runs `filterJobs` whenever the
    pool, the search term or the filters change, so the listed jobs are
    always the filter of the pool under the current criteria.
   */
  class JobSearchPage {
    var jobs: seq<Job>
    var filteredJobs: seq<Job>
    var searchTerm: string
    var filters: Filters

    ghost predicate Valid()
      reads this
    {
      filteredJobs == FilterJobs(jobs, searchTerm, filters)
    }

    constructor ()
      ensures Valid()
      ensures jobs == [] && filteredJobs == [] && searchTerm == "" && filters == NoFilters
    {
      jobs, filteredJobs, searchTerm, filters := [], [], "", NoFilters;
    }

    /** `loadJobs`: only the active jobs of the store enter the pool. */
    method LoadJobs(allJobs: seq<Job>)
      modifies this
      ensures Valid()
      ensures jobs == ActiveJobs(allJobs)
      ensures searchTerm == old(searchTerm) && filters == old(filters)
      ensures filteredJobs == FilterJobs(ActiveJobs(allJobs), searchTerm, filters)
    {
      jobs := ActiveJobs(allJobs);
      filteredJobs := FilterJobs(jobs, searchTerm, filters);
    }

    /** `handleSearch`. */
    method Search(term: string)
      modifies this
      ensures Valid()
      ensures jobs == old(jobs) && filters == old(filters) && searchTerm == term
    {
      searchTerm := term;
      filteredJobs := FilterJobs(jobs, searchTerm, filters);
    }

    /** `handleFiltersChange`. */
    method ChangeFilters(newFilters: Filters)
      modifies this
      ensures Valid()
      ensures jobs == old(jobs) && searchTerm == old(searchTerm) && filters == newFilters
    {
      filters := newFilters;
      filteredJobs := FilterJobs(jobs, searchTerm, filters);
    }

    /** `handleClearFilters`: back to the initial criteria, so every pooled job is listed. */
    method ClearFilters()
      modifies this
      ensures Valid()
      ensures jobs == old(jobs) && searchTerm == "" && filters == NoFilters
      ensures filteredJobs == jobs
    {
      filters := NoFilters;
      searchTerm := "";
      filteredJobs := FilterJobs(jobs, searchTerm, filters);
    }
  }

  /** What `handleApplyToJob` does with an apply request. */
  datatype ApplyOutcome = SignInRequired | JobSeekersOnly | AlreadyApplied | Submitted

  /** The cover letter this page writes. */
  function CoverLetter(job: Job): string {
    "I am very interested in the " + job.title + " position at " + job.companyName
    + ". I believe my skills and experience make me a great fit for this role."
  }

  /** The record sent to the store; the store replaces the Id. */
  function NewApplication(job: Job, seekerId: int, now: string): (app: Application)
    ensures app.status == AppliedStatus && app.jobId == job.id && app.jobSeekerId == seekerId
    ensures app.jobTitle == job.title && app.companyName == job.companyName && app.location == job.location
    ensures app.coverLetter == CoverLetter(job) && app.appliedDate == now && app.employerNotes == ""
  {
    Application(0, job.id, seekerId, job.title, job.companyName, job.location, CoverLetter(job), now, AppliedStatus, "")
  }

  /** `existingApplications.some(app => app.jobId === job.Id)` over the seeker's applications. */
  predicate HasApplied(apps: seq<Application>, seekerId: int, jobId: int) {
    exists app :: app in ApplicationsBySeeker(apps, seekerId) && app.jobId == jobId
  }

  /** The checks of `handleApplyToJob`, in the page's order. */
  function Decide(currentUser: Option<User>, apps: seq<Application>, job: Job): (outcome: ApplyOutcome)
    ensures outcome == SignInRequired <==> currentUser.None?
    ensures outcome == JobSeekersOnly <==> currentUser.Some? && currentUser.value.role != "jobSeeker"
    ensures outcome == AlreadyApplied <==>
      currentUser.Some? && currentUser.value.role == "jobSeeker" && HasApplied(apps, currentUser.value.id, job.id)
  {
    if currentUser.None? then SignInRequired
    else if currentUser.value.role != "jobSeeker" then JobSeekersOnly
    else if HasApplied(apps, currentUser.value.id, job.id) then AlreadyApplied
    else Submitted
  }

  /** No two applications are for the same job by the same job seeker. */
  ghost predicate OnePerPair(apps: seq<Application>) {
    forall i, j :: 0 <= i < j < |apps| ==>
      apps[i].jobId != apps[j].jobId || apps[i].jobSeekerId != apps[j].jobSeekerId
  }

  /**
    An application is submitted exactly when a job seeker is signed in and
    none of the stored applications is theirs for this job.
   */
  lemma DecideSubmits(currentUser: Option<User>, apps: seq<Application>, job: Job)
    ensures Decide(currentUser, apps, job) == Submitted <==>
      && currentUser.Some? && currentUser.value.role == "jobSeeker"
      && forall app :: app in apps ==> app.jobSeekerId != currentUser.value.id || app.jobId != job.id
  {
    if currentUser.Some? {
      var id := currentUser.value.id;
      forall app ensures app in ApplicationsBySeeker(apps, id) <==> app in apps && app.jobSeekerId == id {
        KeepMember(apps, (a: Application) => a.jobSeekerId == id, app);
      }
    }
  }

  /** Submitting through this page never creates a second application for the same pair. */
  lemma ApplyKeepsOnePerPair(currentUser: Option<User>, apps: seq<Application>, job: Job, now: string, id: int)
    requires OnePerPair(apps)
    requires Decide(currentUser, apps, job) == Submitted
    ensures OnePerPair(apps + [NewApplication(job, currentUser.value.id, now).(id := id)])
  {
    DecideSubmits(currentUser, apps, job);
    var added := apps + [NewApplication(job, currentUser.value.id, now).(id := id)];
    forall i, j | 0 <= i < j < |added|
      ensures added[i].jobId != added[j].jobId || added[i].jobSeekerId != added[j].jobSeekerId
    {
      if j == |apps| {
        assert added[i] in apps;
      }
    }
  }

  /** Once an application is submitted, applying again to the same job is refused. */
  lemma SecondApplyRefused(currentUser: Option<User>, apps: seq<Application>, job: Job, now: string, id: int)
    requires Decide(currentUser, apps, job) == Submitted
    ensures Decide(currentUser, apps + [NewApplication(job, currentUser.value.id, now).(id := id)], job) == AlreadyApplied
  {
    var added := apps + [NewApplication(job, currentUser.value.id, now).(id := id)];
    DecideSubmits(currentUser, added, job);
    assert added[|apps|] in added;
  }

  /**
    `handleApplyToJob`: refused when nobody is signed in or the user is not a
    job seeker; nothing is created when the seeker already applied to this
    job; otherwise exactly one application is added, in status "applied",
    with the job's title, company name and location.
   */
  method HandleApplyToJob(store: ApplicationStore, currentUser: Option<User>, job: Job, now: string)
    returns (outcome: ApplyOutcome)
    requires store.Valid()
    modifies store
    ensures store.Valid()
    ensures outcome == Decide(currentUser, old(store.records), job)
    ensures outcome == Submitted ==>
      store.records == old(store.records) + [NewApplication(job, currentUser.value.id, now).(id := old(store.nextId))]
    ensures outcome != Submitted ==> store.records == old(store.records)
  {
    if currentUser.None? {
      return SignInRequired;
    }
    var user := currentUser.value;
    if user.role != "jobSeeker" {
      return JobSeekersOnly;
    }
    var existing := ApplicationsBySeeker(store.records, user.id);
    if exists app :: app in existing && app.jobId == job.id {
      return AlreadyApplied;
    }
    var created := store.Create(NewApplication(job, user.id, now));
    outcome := Submitted;
  }
}
