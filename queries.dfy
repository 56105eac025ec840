/**
  The selections several pages make from the record lists they load: the
  active jobs, an employer's jobs, the applications to a set of jobs, one job
  seeker's applications, and counts by status.
 */
module Queries {
  import opened Records
  import opened Seqs

  /** `jobs.filter(job => job.status === "active")`. */
  function ActiveJobs(jobs: seq<Job>): (active: seq<Job>)
    ensures |active| <= |jobs|
    ensures forall job :: job in active ==> job in jobs && job.status == ActiveStatus
  {
    Keep(jobs, IsActive)
  }

  /** `allJobs.filter(job => job.employerId === employerId)`. */
  function EmployerJobs(jobs: seq<Job>, employerId: int): seq<Job> {
    Keep(jobs, (job: Job) => job.employerId == employerId)
  }

  /** `jobs.some(job => job.Id === jobId)`. */
  predicate HasJob(jobs: seq<Job>, jobId: int) {
    exists job :: job in jobs && job.id == jobId
  }

  /** `applications.filter(app => jobs.some(job => job.Id === app.jobId))`. */
  function ApplicationsForJobs(apps: seq<Application>, jobs: seq<Job>): seq<Application> {
    Keep(apps, (app: Application) => HasJob(jobs, app.jobId))
  }

  /** The store's "by job seeker" query: the applications whose jobSeekerId matches. */
  function ApplicationsBySeeker(apps: seq<Application>, seekerId: int): seq<Application> {
    Keep(apps, (app: Application) => app.jobSeekerId == seekerId)
  }

  function StatusIs(status: string): Application -> bool {
    (app: Application) => app.status == status
  }

  /** One for a condition that holds, none otherwise. */
  function Point(b: bool): nat {
    if b then 1 else 0
  }

  /** One application counts once under its own status. */
  lemma CountStatusSingleton(app: Application, status: string)
    ensures CountStatus([app], status) == Point(app.status == status)
  {
    KeepSingleton(app, StatusIs(status));
  }

  /** `applications.filter(app => app.status === status).length`. */
  function CountStatus(apps: seq<Application>, status: string): nat {
    Count(apps, StatusIs(status))
  }

  /** The active pool holds exactly the active jobs, in their original order. */
  lemma ActiveJobsExactly(jobs: seq<Job>)
    ensures IsSubsequence(ActiveJobs(jobs), jobs)
    ensures forall job :: job in ActiveJobs(jobs) <==> job in jobs && job.status == "active"
  {
    KeepIsSubsequence(jobs, IsActive);
    forall job ensures job in ActiveJobs(jobs) <==> job in jobs && IsActive(job) {
      KeepMember(jobs, IsActive, job);
    }
  }

  /**
    An application belongs to an employer exactly when its jobId is the Id of
    one of the jobs that employer posted.
   */
  lemma EmployerApplicationsExactly(apps: seq<Application>, jobs: seq<Job>, employerId: int, app: Application)
    ensures app in ApplicationsForJobs(apps, EmployerJobs(jobs, employerId))
        <==> app in apps && exists job :: job in jobs && job.employerId == employerId && job.id == app.jobId
  {
    var mine := EmployerJobs(jobs, employerId);
    KeepMember(apps, (a: Application) => HasJob(mine, a.jobId), app);
    forall job ensures job in mine <==> job in jobs && job.employerId == employerId {
      KeepMember(jobs, (j: Job) => j.employerId == employerId, job);
    }
  }

  /** Counting by status and counting every application add up over concatenation. */
  lemma CountStatusAppend(a: seq<Application>, b: seq<Application>, status: string)
    ensures CountStatus(a + b, status) == CountStatus(a, status) + CountStatus(b, status)
  {
    CountAppend(a, b, StatusIs(status));
  }

  /**
    Replacing one application moves it from the count of its old status to
    the count of its new one; every other status count stays the same.
   */
  lemma CountStatusReplace(apps: seq<Application>, i: nat, app: Application, status: string)
    requires i < |apps|
    ensures CountStatus(apps[i := app], status)
         == CountStatus(apps, status) - (if apps[i].status == status then 1 else 0) + (if app.status == status then 1 else 0)
  {
    CountReplace(apps, i, app, StatusIs(status));
  }
}
