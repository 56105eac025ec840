/**
  The job seeker dashboard: the seeker's three counts, the three most recent
  applications, six recommended jobs, the profile completion score, and a
  one-click apply that, unlike the search page, does not look for an
  earlier application.
 */
module JobSeekerDashboard {
  import opened Records
  import opened Wrappers
  import opened Seqs
  import opened Queries
  import opened Store
  import JobSearch
  import ApplicationsPage

  /** The three totals: all applications, shortlisted ones ("interviews") and hired ones ("offers"). */
  datatype SeekerStats = SeekerStats(applied: nat, interviews: nat, offers: nat)

  /** The stats computed from the seeker's own applications. */
  function GetStats(apps: seq<Application>): (stats: SeekerStats)
    ensures stats.applied == |apps|
    ensures stats.interviews <= stats.applied && stats.offers <= stats.applied
    ensures apps == [] ==> stats == SeekerStats(0, 0, 0)
  {
    SeekerStats(|apps|, CountStatus(apps, ShortlistedStatus), CountStatus(apps, HiredStatus))
  }

  /**
    No application is both shortlisted and hired, so interviews and offers
    together never exceed the applications.
   */
  lemma {:induction false} InterviewsAndOffersBounded(apps: seq<Application>)
    ensures GetStats(apps).interviews + GetStats(apps).offers <= GetStats(apps).applied
  {
    if apps != [] {
      var head, tail := [apps[0]], apps[1..];
      assert apps == head + tail;
      InterviewsAndOffersBounded(tail);
      CountStatusAppend(head, tail, ShortlistedStatus);
      CountStatusAppend(head, tail, HiredStatus);
      assert head[1..] == [];
    }
  }

  /**
    "Interviews" counts the shortlisted applications and "Offers" the hired
    ones: the figures the applications page shows on those two cards.
   */
  lemma StatsNameTheirStatuses(apps: seq<Application>)
    ensures GetStats(apps).interviews == |Keep(apps, StatusIs(ShortlistedStatus))|
    ensures GetStats(apps).offers == |Keep(apps, StatusIs(HiredStatus))|
    ensures GetStats(apps).interviews == ApplicationsPage.GetStats(apps).shortlisted
    ensures GetStats(apps).offers == ApplicationsPage.GetStats(apps).hired
  {
  }

  /**
    One more application raises "Applied" by one, "Interviews" by one if it
    is shortlisted and "Offers" by one if it is hired.
   */
  lemma SeekerStatsOfAppended(apps: seq<Application>, app: Application)
    ensures GetStats(apps + [app]) == SeekerStats(
      GetStats(apps).applied + 1,
      GetStats(apps).interviews + Point(app.status == ShortlistedStatus),
      GetStats(apps).offers + Point(app.status == HiredStatus))
  {
    CountStatusAppend(apps, [app], ShortlistedStatus);
    CountStatusSingleton(app, ShortlistedStatus);
    CountStatusAppend(apps, [app], HiredStatus);
    CountStatusSingleton(app, HiredStatus);
  }

  datatype SeekerDashboard = SeekerDashboard(
    recentApplications: seq<Application>,
    stats: SeekerStats,
    recommendedJobs: seq<Job>)

  /** `loadDashboardData` for the seeker with Id `seekerId`. */
  function LoadDashboard(allApps: seq<Application>, allJobs: seq<Job>, seekerId: int): (d: SeekerDashboard)
    ensures |d.recentApplications| <= 3 && IsPrefix(d.recentApplications, ApplicationsBySeeker(allApps, seekerId))
    ensures d.stats == GetStats(ApplicationsBySeeker(allApps, seekerId))
    ensures |d.recommendedJobs| <= 6 && IsPrefix(d.recommendedJobs, ActiveJobs(allJobs))
  {
    var applications := ApplicationsBySeeker(allApps, seekerId);
    SeekerDashboard(Take(applications, 3), GetStats(applications), Take(ActiveJobs(allJobs), 6))
  }

  /**
    The recommended jobs are the first (at most) six active jobs: all active,
    in the order of the job list, and all six shown when there are six.
   */
  lemma RecommendedJobsAreActive(allApps: seq<Application>, allJobs: seq<Job>, seekerId: int)
    ensures forall job :: job in LoadDashboard(allApps, allJobs, seekerId).recommendedJobs ==> job.status == "active"
    ensures IsSubsequence(LoadDashboard(allApps, allJobs, seekerId).recommendedJobs, allJobs)
    ensures |LoadDashboard(allApps, allJobs, seekerId).recommendedJobs| == 6 || Count(allJobs, IsActive) < 6
  {
    var recommended := LoadDashboard(allApps, allJobs, seekerId).recommendedJobs;
    PrefixIsSubsequence(recommended, ActiveJobs(allJobs));
    ActiveJobsExactly(allJobs);
    SubsequenceTransitive(recommended, ActiveJobs(allJobs), allJobs);
    forall job | job in recommended ensures job.status == "active" {
      assert job in ActiveJobs(allJobs);
    }
  }

  /** The recent applications are all the seeker's own. */
  lemma RecentApplicationsAreOwn(allApps: seq<Application>, allJobs: seq<Job>, seekerId: int)
    ensures forall app :: app in LoadDashboard(allApps, allJobs, seekerId).recentApplications ==>
      app in allApps && app.jobSeekerId == seekerId
  {
    forall app | app in LoadDashboard(allApps, allJobs, seekerId).recentApplications
      ensures app in allApps && app.jobSeekerId == seekerId
    {
      assert app in ApplicationsBySeeker(allApps, seekerId);
    }
  }

  /** The four profile checks that each add a quarter. */
  predicate HasFirstName(profile: Profile) { Truthy(Field(profile, "firstName")) }
  predicate HasSkills(profile: Profile) { HasItems(Field(profile, "skills")) }
  predicate HasExperience(profile: Profile) { Truthy(Field(profile, "experience")) }
  predicate HasResume(profile: Profile) { Truthy(Field(profile, "resumeUrl")) }

  /**
    `profileCompletionPercent`: 0 without a profile, otherwise a quarter of
    100 for each check that holds. The page rounds k / 4 * 100, which is the
    integer 25 * k for every k in 0..4.
   */
  function ProfileCompletion(userProfile: Option<Profile>): (percent: nat)
    ensures percent <= 100 && percent % 25 == 0
    ensures userProfile.None? ==> percent == 0
  {
    match userProfile
    case None => 0
    case Some(profile) =>
      25 * (Point(HasFirstName(profile)) + Point(HasSkills(profile))
        + Point(HasExperience(profile)) + Point(HasResume(profile)))
  }

  /** The completion alert is shown while the score is below 100. */
  function ShowCompletionAlert(userProfile: Option<Profile>): (shown: bool)
    ensures shown <==> (userProfile.None? || !(HasFirstName(userProfile.value) && HasSkills(userProfile.value)
      && HasExperience(userProfile.value) && HasResume(userProfile.value)))
  {
    ProfileCompletion(userProfile) < 100
  }

  /** The score is 100, and the alert hidden, exactly when all four checks hold. */
  lemma CompleteExactlyWhenAllChecksHold(userProfile: Option<Profile>)
    ensures ProfileCompletion(userProfile) == 100 <==>
      userProfile.Some? && HasFirstName(userProfile.value) && HasSkills(userProfile.value)
      && HasExperience(userProfile.value) && HasResume(userProfile.value)
    ensures ShowCompletionAlert(userProfile) <==> ProfileCompletion(userProfile) != 100
  {
  }

  /** Each check adds exactly 25 points: the score is 25 times the number of checks that hold. */
  lemma CompletionCountsChecks(profile: Profile)
    ensures ProfileCompletion(Some(profile)) == 25 * |Keep([HasFirstName(profile), HasSkills(profile),
      HasExperience(profile), HasResume(profile)], (b: bool) => b)|
  {
    PassingChecks(HasFirstName(profile), HasSkills(profile), HasExperience(profile), HasResume(profile));
  }

  /** Of four checks, as many pass as they score points. */
  lemma PassingChecks(a: bool, b: bool, c: bool, d: bool)
    ensures |Keep([a, b, c, d], (x: bool) => x)| == Point(a) + Point(b) + Point(c) + Point(d)
  {
    var checks, holds := [a, b, c, d], (x: bool) => x;
    assert checks == [a] + [b] + [c] + [d];
    KeepAppend([a] + [b] + [c], [d], holds);
    KeepAppend([a] + [b], [c], holds);
    KeepAppend([a], [b], holds);
    KeepSingleton(a, holds);
    KeepSingleton(b, holds);
    KeepSingleton(c, holds);
    KeepSingleton(d, holds);
  }

  /**
    A profile with a first name, an empty skills list, an empty experience
    and no resume scores 25.
   */
  lemma FirstNameOnlyScoresAQuarter()
    ensures ProfileCompletion(Some(map["firstName" := Text("A"), "skills" := List([]),
      "experience" := Text(""), "resumeUrl" := Null])) == 25
  {
  }

  /** The cover letter this page writes: shorter than the search page's. */
  function ShortCoverLetter(job: Job): string {
    "I am very interested in the " + job.title + " position at " + job.companyName + "."
  }

  /** The record `handleApplyToJob` sends to the store (no employer notes). */
  function DashboardApplication(job: Job, seekerId: int, now: string): (app: Application)
    ensures app.status == AppliedStatus && app.jobId == job.id && app.jobSeekerId == seekerId
    ensures app.jobTitle == job.title && app.companyName == job.companyName && app.location == job.location
  {
    Application(0, job.id, seekerId, job.title, job.companyName, job.location, ShortCoverLetter(job), now, AppliedStatus, "")
  }

  /** The two apply paths build the same record apart from the cover letter. */
  lemma SameRecordAsSearchPage(job: Job, seekerId: int, now: string)
    ensures DashboardApplication(job, seekerId, now)
         == JobSearch.NewApplication(job, seekerId, now).(coverLetter := ShortCoverLetter(job))
    ensures DashboardApplication(job, seekerId, now).coverLetter != JobSearch.NewApplication(job, seekerId, now).coverLetter
  {
    var short := ShortCoverLetter(job);
    var long := JobSearch.NewApplication(job, seekerId, now).coverLetter;
    assert |short| < |long|;
  }

  /**
    `handleApplyToJob`: always adds exactly one application, in status
    "applied", whatever the seeker has already applied to.
   */
  method HandleApplyToJob(store: ApplicationStore, seekerId: int, job: Job, now: string)
    returns (created: Application)
    requires store.Valid()
    modifies store
    ensures store.Valid()
    ensures created == DashboardApplication(job, seekerId, now).(id := old(store.nextId))
    ensures store.records == old(store.records) + [created]
  {
    created := store.Create(DashboardApplication(job, seekerId, now));
  }

  /**
    Applying from the dashboard to a job the seeker already applied to
    leaves two applications for the same job and seeker, which the search
    page's guard would have refused.
   */
  lemma DashboardApplyDuplicates(apps: seq<Application>, seekerId: int, job: Job, now: string, id: int)
    requires exists app :: app in apps && app.jobSeekerId == seekerId && app.jobId == job.id
    ensures !JobSearch.OnePerPair(apps + [DashboardApplication(job, seekerId, now).(id := id)])
    ensures JobSearch.Decide(Some(User(seekerId, "", "jobSeeker", true)), apps, job) == JobSearch.AlreadyApplied
  {
    var app :| app in apps && app.jobSeekerId == seekerId && app.jobId == job.id;
    var i :| 0 <= i < |apps| && apps[i] == app;
    var added := apps + [DashboardApplication(job, seekerId, now).(id := id)];
    assert added[i] == app && added[|apps|].jobId == job.id && added[|apps|].jobSeekerId == seekerId;
    JobSearch.DecideSubmits(Some(User(seekerId, "", "jobSeeker", true)), apps, job);
  }
}
