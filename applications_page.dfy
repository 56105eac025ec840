/**
  The applications page: which applications a user sees, the status filter,
  the per-status totals, and the employer's status update form.
 */
module ApplicationsPage {
  import opened Records
  import opened Seqs
  import opened Queries
  import opened Store

  datatype StatusOption = StatusOption(value: string, caption: string)

  /** The status filter's options; the first, with the empty value, means "all". */
  const StatusOptions := [
    StatusOption("", "All Statuses"),
    StatusOption("applied", "Applied"),
    StatusOption("reviewed", "Reviewed"),
    StatusOption("shortlisted", "Shortlisted"),
    StatusOption("rejected", "Rejected"),
    StatusOption("hired", "Hired")
  ]

  function HasValue(option: StatusOption): bool {
    option.value != ""
  }

  /**
    The update form's options, `statusOptions.filter(opt => opt.value)`: the
    filter's options without the one whose value is empty ("All Statuses").
   */
  function UpdateFormOptions(options: seq<StatusOption>): (offered: seq<StatusOption>)
    ensures forall option :: option in offered <==> option in options && option.value != ""
  {
    var kept := Keep(options, HasValue);
    assert forall option :: option in options && HasValue(option) ==> option in kept by {
      forall option | option in options && HasValue(option) ensures option in kept {
        KeepMember(options, HasValue, option);
      }
    }
    kept
  }

  /** The update form offers exactly the five statuses, in the filter's order. */
  lemma UpdateFormOffersFiveStatuses()
    ensures UpdateFormOptions(StatusOptions) == StatusOptions[1..]
    ensures |UpdateFormOptions(StatusOptions)| == 5
    ensures forall option :: option in UpdateFormOptions(StatusOptions) ==> IsKnownStatus(option.value)
  {
    DropsOnlyTheFirst(StatusOptions);
  }

  lemma DropsOnlyTheFirst(options: seq<StatusOption>)
    requires |options| >= 1 && !HasValue(options[0])
    requires forall i :: 1 <= i < |options| ==> HasValue(options[i])
    ensures Keep(options, HasValue) == options[1..]
  {
    var rest := options[1..];
    assert forall i :: 0 <= i < |rest| ==> HasValue(rest[i]) by {
      forall i | 0 <= i < |rest| ensures HasValue(rest[i]) {
        assert rest[i] == options[i + 1];
      }
    }
    KeepAll(rest, HasValue);
    assert options == [options[0]] + rest;
    KeepAppend([options[0]], rest, HasValue);
    KeepSingleton(options[0], HasValue);
  }

  /**
    `loadApplications`: a job seeker sees their own applications, an employer
    the applications to the jobs they posted, anyone else every application.
   */
  function LoadApplications(currentUser: User, allJobs: seq<Job>, allApps: seq<Application>): (apps: seq<Application>)
    ensures |apps| <= |allApps|
    ensures forall app :: app in apps ==> app in allApps
    ensures currentUser.role == "jobSeeker" ==> forall app :: app in apps ==> app.jobSeekerId == currentUser.id
    ensures currentUser.role != "jobSeeker" && currentUser.role != "employer" ==> apps == allApps
  {
    if currentUser.role == "jobSeeker" then ApplicationsBySeeker(allApps, currentUser.id)
    else if currentUser.role == "employer" then ApplicationsForJobs(allApps, EmployerJobs(allJobs, currentUser.id))
    else allApps
  }

  lemma LoadApplicationsScope(currentUser: User, allJobs: seq<Job>, allApps: seq<Application>, app: Application)
    ensures IsSubsequence(LoadApplications(currentUser, allJobs, allApps), allApps)
    ensures currentUser.role == "jobSeeker" ==>
      (app in LoadApplications(currentUser, allJobs, allApps) <==> app in allApps && app.jobSeekerId == currentUser.id)
    ensures currentUser.role == "employer" ==>
      (app in LoadApplications(currentUser, allJobs, allApps) <==>
        app in allApps && exists job :: job in allJobs && job.employerId == currentUser.id && job.id == app.jobId)
    ensures currentUser.role != "jobSeeker" && currentUser.role != "employer" ==>
      LoadApplications(currentUser, allJobs, allApps) == allApps
  {
    var id := currentUser.id;
    if currentUser.role == "jobSeeker" {
      KeepIsSubsequence(allApps, (a: Application) => a.jobSeekerId == id);
      KeepMember(allApps, (a: Application) => a.jobSeekerId == id, app);
    } else if currentUser.role == "employer" {
      var mine := EmployerJobs(allJobs, id);
      KeepIsSubsequence(allApps, (a: Application) => HasJob(mine, a.jobId));
      EmployerApplicationsExactly(allApps, allJobs, id, app);
    } else {
      SubsequenceOfItself(allApps);
    }
  }

  lemma {:induction false} SubsequenceOfItself(s: seq<Application>)
    ensures IsSubsequence(s, s)
  {
    if s != [] {
      SubsequenceOfItself(s[1..]);
    }
  }

  /** `filterApplications`: all applications, or those whose status equals the filter. */
  function FilterApplications(apps: seq<Application>, statusFilter: string): (shown: seq<Application>)
    ensures statusFilter == "" ==> shown == apps
    ensures forall app :: app in shown ==> app in apps && (statusFilter != "" ==> app.status == statusFilter)
  {
    KeepIf(apps, statusFilter != "", StatusIs(statusFilter))
  }

  lemma FilterApplicationsExactly(apps: seq<Application>, statusFilter: string, app: Application)
    ensures statusFilter == "" ==> FilterApplications(apps, statusFilter) == apps
    ensures statusFilter != "" ==>
      (app in FilterApplications(apps, statusFilter) <==> app in apps && app.status == statusFilter)
    ensures statusFilter != "" ==> IsSubsequence(FilterApplications(apps, statusFilter), apps)
    ensures statusFilter != "" ==> |FilterApplications(apps, statusFilter)| == CountStatus(apps, statusFilter)
  {
    if statusFilter != "" {
      KeepMember(apps, StatusIs(statusFilter), app);
      KeepIsSubsequence(apps, StatusIs(statusFilter));
    }
  }

  /** The six totals shown above the list. */
  datatype Stats = Stats(total: nat, applied: nat, reviewed: nat, shortlisted: nat, hired: nat, rejected: nat)

  /** `getStats`. */
  function GetStats(apps: seq<Application>): (stats: Stats)
    ensures stats.total == |apps|
    ensures stats.applied <= stats.total && stats.reviewed <= stats.total && stats.shortlisted <= stats.total
    ensures stats.hired <= stats.total && stats.rejected <= stats.total
    ensures apps == [] ==> stats == Stats(0, 0, 0, 0, 0, 0)
  {
    Stats(|apps|,
      CountStatus(apps, AppliedStatus),
      CountStatus(apps, ReviewedStatus),
      CountStatus(apps, ShortlistedStatus),
      CountStatus(apps, HiredStatus),
      CountStatus(apps, RejectedStatus))
  }

  /**
    Each status card shows as many applications as the list holds when the
    status filter is set to that status; the total card, as many as with no
    filter.
   */
  lemma StatCardsMatchFilter(apps: seq<Application>)
    ensures GetStats(apps).total == |FilterApplications(apps, "")|
    ensures GetStats(apps).applied == |FilterApplications(apps, AppliedStatus)|
    ensures GetStats(apps).reviewed == |FilterApplications(apps, ReviewedStatus)|
    ensures GetStats(apps).shortlisted == |FilterApplications(apps, ShortlistedStatus)|
    ensures GetStats(apps).hired == |FilterApplications(apps, HiredStatus)|
    ensures GetStats(apps).rejected == |FilterApplications(apps, RejectedStatus)|
  {
  }

  /**
    One more application raises the total and the card of its own status by
    one, and leaves every other card as it was.
   */
  lemma StatsOfAppended(apps: seq<Application>, app: Application)
    ensures GetStats(apps + [app]) == Stats(
      GetStats(apps).total + 1,
      GetStats(apps).applied + Point(app.status == AppliedStatus),
      GetStats(apps).reviewed + Point(app.status == ReviewedStatus),
      GetStats(apps).shortlisted + Point(app.status == ShortlistedStatus),
      GetStats(apps).hired + Point(app.status == HiredStatus),
      GetStats(apps).rejected + Point(app.status == RejectedStatus))
  {
    var statuses := [AppliedStatus, ReviewedStatus, ShortlistedStatus, HiredStatus, RejectedStatus];
    forall status | status in statuses
      ensures CountStatus(apps + [app], status) == CountStatus(apps, status) + Point(app.status == status)
    {
      CountStatusAppend(apps, [app], status);
      CountStatusSingleton(app, status);
    }
  }

  function StatusSum(stats: Stats): nat {
    stats.applied + stats.reviewed + stats.shortlisted + stats.hired + stats.rejected
  }

  /**
    The five per-status totals add up to at most the total, and to exactly
    the total when every application carries one of the five statuses.
   */
  lemma {:induction false} StatusTotalsBounded(apps: seq<Application>)
    ensures StatusSum(GetStats(apps)) <= |apps|
    ensures StatusSum(GetStats(apps)) == |apps| <==> forall app :: app in apps ==> IsKnownStatus(app.status)
  {
    if apps != [] {
      var head, tail := [apps[0]], apps[1..];
      assert apps == head + tail;
      StatusTotalsBounded(tail);
      CountStatusAppend(head, tail, AppliedStatus);
      CountStatusAppend(head, tail, ReviewedStatus);
      CountStatusAppend(head, tail, ShortlistedStatus);
      CountStatusAppend(head, tail, HiredStatus);
      CountStatusAppend(head, tail, RejectedStatus);
      assert head[1..] == [];
      assert forall app :: app in apps <==> app == apps[0] || app in tail;
    }
  }

  /**
    `handleUpdateApplication` fills the form with the record's current status
    and notes; submitting them unchanged writes back the same record.
   */
  lemma UnchangedFormRewritesSameRecord(app: Application)
    ensures WithStatus(app, app.status, app.employerNotes) == app
  {
  }

  /**
    `handleStatusUpdate`: the store record with the selected application's Id
    becomes the selected application (as loaded) with the chosen status and
    notes; no other record changes.
   */
  method HandleStatusUpdate(store: ApplicationStore, selected: Application, newStatus: string, notes: string)
    returns (found: bool)
    requires store.Valid()
    modifies store
    ensures store.Valid()
    ensures found <==> exists i :: 0 <= i < |old(store.records)| && old(store.records)[i].id == selected.id
    ensures |store.records| == |old(store.records)|
    ensures forall i :: 0 <= i < |store.records| ==>
      store.records[i] == if old(store.records)[i].id == selected.id
        then WithStatus(selected, newStatus, notes) else old(store.records)[i]
  {
    found := store.Update(selected.id, WithStatus(selected, newStatus, notes));
  }

  /**
    The page's list state: the page re-runs `filterApplications` whenever the
    loaded applications or the filter change.
   */
  class ApplicationsView {
    var applications: seq<Application>
    var filteredApplications: seq<Application>
    var statusFilter: string

    ghost predicate Valid()
      reads this
    {
      filteredApplications == FilterApplications(applications, statusFilter)
    }

    constructor ()
      ensures Valid() && applications == [] && statusFilter == ""
    {
      applications, filteredApplications, statusFilter := [], [], "";
    }

    /** The result of `loadApplications` for the current user replaces the list. */
    method Load(currentUser: User, allJobs: seq<Job>, allApps: seq<Application>)
      modifies this
      ensures Valid()
      ensures applications == LoadApplications(currentUser, allJobs, allApps)
      ensures statusFilter == old(statusFilter)
    {
      applications := LoadApplications(currentUser, allJobs, allApps);
      filteredApplications := FilterApplications(applications, statusFilter);
    }

    /** Choosing a status in the filter. */
    method SetStatusFilter(status: string)
      modifies this
      ensures Valid()
      ensures applications == old(applications) && statusFilter == status
    {
      statusFilter := status;
      filteredApplications := FilterApplications(applications, statusFilter);
    }
  }
}
