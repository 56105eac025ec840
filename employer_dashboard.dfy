/**
  The employer dashboard: the employer's jobs and the applications to them,
  three counts, the "post a job" form and record, and the one-click
  shortlist / hire actions.
 */
module EmployerDashboard {
  import opened Wrappers
  import opened Records
  import opened Seqs
  import opened Text
  import opened Queries
  import opened Store
  import ApplicationsPage

  /** What `loadDashboardData` puts on screen. */
  datatype Dashboard = Dashboard(
    myJobs: seq<Job>,
    recentApplications: seq<Application>,
    activeJobs: nat,
    totalApplications: nat,
    shortlisted: nat)

  /** How many records each of the two lists shows. */
  const RecentCount: nat := 5

  /** `loadDashboardData` over the loaded job and application lists. */
  function LoadDashboard(allJobs: seq<Job>, allApps: seq<Application>, employerId: int): (d: Dashboard)
    ensures |d.myJobs| <= RecentCount && |d.recentApplications| <= RecentCount
    ensures IsPrefix(d.myJobs, EmployerJobs(allJobs, employerId))
    ensures |d.myJobs| == RecentCount || d.myJobs == EmployerJobs(allJobs, employerId)
    ensures d.totalApplications == |ApplicationsForJobs(allApps, EmployerJobs(allJobs, employerId))|
    ensures IsPrefix(d.recentApplications, ApplicationsForJobs(allApps, EmployerJobs(allJobs, employerId)))
    ensures |d.recentApplications| == if d.totalApplications < RecentCount then d.totalApplications else RecentCount
    ensures d.activeJobs <= |EmployerJobs(allJobs, employerId)|
    ensures d.shortlisted <= d.totalApplications
  {
    var employerJobs := EmployerJobs(allJobs, employerId);
    var employerApplications := ApplicationsForJobs(allApps, employerJobs);
    Dashboard(
      Take(employerJobs, RecentCount),
      Take(employerApplications, RecentCount),
      |Keep(employerJobs, IsActive)|,
      |employerApplications|,
      CountStatus(employerApplications, ShortlistedStatus))
  }

  /**
    The dashboard's "Total Applications" and "Shortlisted" figures are the
    applications page's total and shortlisted cards for the same employer.
   */
  lemma FiguresMatchApplicationsPage(allJobs: seq<Job>, allApps: seq<Application>, employer: User)
    requires employer.role == "employer"
    ensures LoadDashboard(allJobs, allApps, employer.id).totalApplications
         == ApplicationsPage.GetStats(ApplicationsPage.LoadApplications(employer, allJobs, allApps)).total
    ensures LoadDashboard(allJobs, allApps, employer.id).shortlisted
         == ApplicationsPage.GetStats(ApplicationsPage.LoadApplications(employer, allJobs, allApps)).shortlisted
  {
  }

  function IsOwnActiveJob(employerId: int): Job -> bool {
    (job: Job) => job.employerId == employerId && job.status == ActiveStatus
  }

  /**
    Every job and application the dashboard lists is the employer's, and the
    active-jobs count is the number of the employer's jobs in status "active".
   */
  lemma DashboardIsTheEmployers(allJobs: seq<Job>, allApps: seq<Application>, employerId: int)
    ensures forall job :: job in LoadDashboard(allJobs, allApps, employerId).myJobs ==>
      job in allJobs && job.employerId == employerId
    ensures forall app :: app in LoadDashboard(allJobs, allApps, employerId).recentApplications ==>
      app in allApps && exists job :: job in allJobs && job.employerId == employerId && job.id == app.jobId
    ensures LoadDashboard(allJobs, allApps, employerId).activeJobs == Count(allJobs, IsOwnActiveJob(employerId))
  {
    var d := LoadDashboard(allJobs, allApps, employerId);
    var employerJobs := EmployerJobs(allJobs, employerId);
    var employerApplications := ApplicationsForJobs(allApps, employerJobs);
    forall job | job in d.myJobs ensures job in allJobs && job.employerId == employerId {
      assert job in employerJobs;
    }
    forall app | app in d.recentApplications
      ensures app in allApps && exists job :: job in allJobs && job.employerId == employerId && job.id == app.jobId
    {
      assert app in employerApplications;
      EmployerApplicationsExactly(allApps, allJobs, employerId, app);
    }
    KeepKeep(allJobs, (job: Job) => job.employerId == employerId, IsActive, IsOwnActiveJob(employerId));
  }

  /** The "Applications:" figure under one of the employer's jobs. */
  function ApplicationsShownFor(d: Dashboard, jobId: int): (shown: nat)
    ensures shown <= |d.recentApplications|
    ensures shown == 0 <==> forall app :: app in d.recentApplications ==> app.jobId != jobId
  {
    var forJob := (app: Application) => app.jobId == jobId;
    assert forall app :: app in d.recentApplications && forJob(app) ==> app in Keep(d.recentApplications, forJob) by {
      forall app | app in d.recentApplications && forJob(app) ensures app in Keep(d.recentApplications, forJob) {
        KeepMember(d.recentApplications, forJob, app);
      }
    }
    var kept := Keep(d.recentApplications, forJob);
    assert kept != [] ==> kept[0] in kept;
    Count(d.recentApplications, forJob)
  }

  /**
    The per-job figure counts only the five recent applications, so it is at
    most five and never more than the job's real number of applications.
   */
  lemma ApplicationsShownUndercount(allJobs: seq<Job>, allApps: seq<Application>, employerId: int, jobId: int)
    ensures ApplicationsShownFor(LoadDashboard(allJobs, allApps, employerId), jobId) <= RecentCount
    ensures ApplicationsShownFor(LoadDashboard(allJobs, allApps, employerId), jobId)
         <= Count(ApplicationsForJobs(allApps, EmployerJobs(allJobs, employerId)), (app: Application) => app.jobId == jobId)
  {
    var employerApplications := ApplicationsForJobs(allApps, EmployerJobs(allJobs, employerId));
    CountTake(employerApplications, RecentCount, (app: Application) => app.jobId == jobId);
  }

  /**
    The one action offered on a recent application: "Shortlist" for an
    applied one, "Hire" for a shortlisted one, nothing otherwise.
   */
  function OfferedTransition(status: string): (next: Option<string>)
    ensures next.Some? <==> status == AppliedStatus || status == ShortlistedStatus
  {
    if status == AppliedStatus then Some(ShortlistedStatus)
    else if status == ShortlistedStatus then Some(HiredStatus)
    else None
  }

  /** Position along applied → shortlisted → hired. */
  function Stage(status: string): int {
    if status == AppliedStatus then 0
    else if status == ShortlistedStatus then 1
    else if status == HiredStatus then 2
    else -1
  }

  /**
    The offered actions only move an application one step forward along
    applied → shortlisted → hired; from "hired" nothing more is offered.
   */
  lemma OfferedTransitionsMoveForward(status: string)
    ensures OfferedTransition(status).Some? ==>
      IsKnownStatus(OfferedTransition(status).value)
      && Stage(OfferedTransition(status).value) == Stage(status) + 1
    ensures OfferedTransition(AppliedStatus) == Some(ShortlistedStatus)
    ensures OfferedTransition(ShortlistedStatus) == Some(HiredStatus)
    ensures OfferedTransition(HiredStatus).None?
  {
  }

  /** The note the quick action writes. */
  function UpdateNote(status: string): string {
    "Status updated to " + status
  }

  /** `{ ...application, status: newStatus, employerNotes: "Status updated to <newStatus>" }`. */
  function QuickStatusUpdate(app: Application, newStatus: string): (r: Application)
    ensures r.status == newStatus && r.employerNotes == "Status updated to " + newStatus
    ensures r.(status := app.status, employerNotes := app.employerNotes) == app
  {
    WithStatus(app, newStatus, UpdateNote(newStatus))
  }

  /**
    Shortlisting an applied application raises the shortlisted count by one
    and lowers the applied count by one.
   */
  lemma ShortlistMovesOneApplication(apps: seq<Application>, i: nat)
    requires i < |apps| && apps[i].status == AppliedStatus
    ensures CountStatus(apps[i := QuickStatusUpdate(apps[i], OfferedTransition(apps[i].status).value)], ShortlistedStatus)
         == CountStatus(apps, ShortlistedStatus) + 1
    ensures CountStatus(apps[i := QuickStatusUpdate(apps[i], OfferedTransition(apps[i].status).value)], AppliedStatus)
         == CountStatus(apps, AppliedStatus) - 1
  {
    var updated := QuickStatusUpdate(apps[i], ShortlistedStatus);
    CountStatusReplace(apps, i, updated, ShortlistedStatus);
    CountStatusReplace(apps, i, updated, AppliedStatus);
  }

  /** `handleUpdateApplicationStatus`: rewrites the stored record with that Id. */
  method HandleUpdateApplicationStatus(store: ApplicationStore, app: Application, newStatus: string)
    returns (found: bool)
    requires store.Valid()
    modifies store
    ensures store.Valid()
    ensures found <==> exists i :: 0 <= i < |old(store.records)| && old(store.records)[i].id == app.id
    ensures |store.records| == |old(store.records)|
    ensures forall i :: 0 <= i < |store.records| ==>
      store.records[i] == if old(store.records)[i].id == app.id
        then QuickStatusUpdate(app, newStatus) else old(store.records)[i]
  {
    found := store.Update(app.id, QuickStatusUpdate(app, newStatus));
  }

  /** The "post a job" form; every field holds the text of its input. */
  datatype JobForm = JobForm(
    title: string,
    description: string,
    requirements: string,
    location: string,
    salaryMin: string,
    salaryMax: string,
    jobType: string,
    experienceLevel: string,
    deadline: string)

  /** The form as the page first shows it, and again after a job is posted. */
  const InitialJobForm := JobForm("", "", "", "", "", "", "full-time", "mid", "")

  /** `userProfile?.companyName || "Your Company"`. */
  function CompanyName(userProfile: Option<Profile>): (name: string)
    ensures name != ""
    ensures !(userProfile.Some? && Field(userProfile.value, "companyName").Text? && Field(userProfile.value, "companyName").text != "")
      ==> name == "Your Company"
    ensures userProfile.Some? && Field(userProfile.value, "companyName").Text? && Field(userProfile.value, "companyName").text != ""
      ==> name == Field(userProfile.value, "companyName").text
  {
    if userProfile.None? then "Your Company"
    else match Field(userProfile.value, "companyName")
      case Text(s) => if s != "" then s else "Your Company"
      case _ => "Your Company"
  }

  /** `field ? parseInt(field) : null`: an empty salary input is no bound. */
  function SalaryBound(field: string): (bound: Option<int>)
    ensures field == "" ==> bound.None?
  {
    if field == "" then None else ParseInt(field)
  }

  /** The record `handleCreateJob` sends to the store; the store replaces the Id. */
  function NewJob(form: JobForm, employerId: int, userProfile: Option<Profile>, now: string): (job: Job)
    ensures job.status == ActiveStatus && job.employerId == employerId
    ensures job.title == form.title && job.location == form.location && job.jobType == form.jobType
    ensures job.experienceLevel == form.experienceLevel && job.deadline == form.deadline
    ensures job.description == form.description && job.requirements == form.requirements
    ensures job.companyName == CompanyName(userProfile) && job.postedDate == now
    ensures job.salaryMin == SalaryBound(form.salaryMin) && job.salaryMax == SalaryBound(form.salaryMax)
  {
    Job(0, employerId, form.title, CompanyName(userProfile), form.description, form.requirements, form.location,
      SalaryBound(form.salaryMin), SalaryBound(form.salaryMax), form.jobType, form.experienceLevel, now,
      form.deadline, ActiveStatus)
  }

  /** A salary typed as a plain decimal number is stored as that number. */
  lemma TypedSalaryIsStored(form: JobForm, employerId: int, userProfile: Option<Profile>, now: string, n: nat)
    requires form.salaryMin == DecimalString(n)
    ensures NewJob(form, employerId, userProfile, now).salaryMin == Some(n)
  {
    ParseIntDecimal(n);
  }

  /**
    A posted job heads the listing the pages load: it is the first of the
    employer's jobs on the dashboard and the first job of the search pool,
    ahead of the active jobs that stay within the page limit. While fewer
    than PageLimit jobs exist, nothing drops out, so it counts as exactly one
    more active job on the dashboard.
   */
  lemma PostedJobIsActive(records: seq<Job>, allApps: seq<Application>, job: Job)
    requires job.status == ActiveStatus
    ensures LoadDashboard(Listing(records + [job]), allApps, job.employerId).myJobs[0] == job
    ensures ActiveJobs(Listing(records + [job])) == [job] + ActiveJobs(Take(Listing(records), PageLimit - 1))
    ensures |records| < PageLimit ==> ActiveJobs(Listing(records + [job])) == [job] + ActiveJobs(Listing(records))
    ensures |records| < PageLimit ==>
      LoadDashboard(Listing(records + [job]), allApps, job.employerId).activeJobs
      == LoadDashboard(Listing(records), allApps, job.employerId).activeJobs + 1
  {
    var kept := Take(Listing(records), PageLimit - 1);
    CreatedHeadsListing(records, job);
    var mine := (j: Job) => j.employerId == job.employerId;
    KeepAppend([job], kept, mine);
    KeepSingleton(job, mine);
    KeepAppend([job], Keep(kept, mine), IsActive);
    KeepSingleton(job, IsActive);
    KeepAppend([job], kept, IsActive);
    if |records| < PageLimit {
      assert kept == Listing(records);
    }
  }

  /** The page's form state. */
  class JobFormPanel {
    var jobFormData: JobForm
    var showJobForm: bool

    constructor ()
      ensures jobFormData == InitialJobForm && !showJobForm
    {
      jobFormData, showJobForm := InitialJobForm, false;
    }

    /** Editing one input of the form. */
    method Edit(newForm: JobForm)
      modifies this
      ensures jobFormData == newForm && showJobForm == old(showJobForm)
    {
      jobFormData := newForm;
    }

    /** "Post Job" opens the form. */
    method Open()
      modifies this
      ensures showJobForm && jobFormData == old(jobFormData)
    {
      showJobForm := true;
    }

    /**
      `handleCreateJob`: stores the job built from the form, closes the form
      and resets it to its initial values.
     */
    method HandleCreateJob(store: JobStore, employerId: int, userProfile: Option<Profile>, now: string)
      returns (created: Job)
      requires store.Valid()
      modifies this, store
      ensures store.Valid()
      ensures created == NewJob(old(jobFormData), employerId, userProfile, now).(id := old(store.nextId))
      ensures store.records == old(store.records) + [created]
      ensures jobFormData == InitialJobForm && !showJobForm
    {
      created := store.Create(NewJob(jobFormData, employerId, userProfile, now));
      showJobForm := false;
      jobFormData := InitialJobForm;
    }
  }
}
