/**
  The admin dashboard: platform-wide totals, the "Recent Users" and "Recent
  Jobs" panels, and the two toggles, user active / inactive and job active /
  inactive. The panels take the last five records of a newest-first listing,
  so they show the five oldest records, oldest first.
 */
module AdminDashboard {
  import opened Records
  import opened Seqs
  import opened Store

  datatype AdminStats = AdminStats(totalUsers: nat, totalJobs: nat, totalApplications: nat, activeJobs: nat)

  /** The stats `loadDashboardData` computes from the three loaded lists. */
  function GetStats(users: seq<User>, jobs: seq<Job>, apps: seq<Application>): (stats: AdminStats)
    ensures stats.totalUsers == |users| && stats.totalJobs == |jobs| && stats.totalApplications == |apps|
    ensures stats.activeJobs <= stats.totalJobs
  {
    AdminStats(|users|, |jobs|, |apps|, Count(jobs, IsActive))
  }

  /** Every job is counted as active exactly when every job's status is "active". */
  lemma {:induction false} AllJobsActive(users: seq<User>, jobs: seq<Job>, apps: seq<Application>)
    ensures GetStats(users, jobs, apps).activeJobs == |jobs| <==> forall job :: job in jobs ==> job.status == "active"
  {
    if jobs != [] {
      var head, tail := [jobs[0]], jobs[1..];
      assert jobs == head + tail;
      AllJobsActive(users, tail, apps);
      CountAppend(head, tail, IsActive);
      KeepSingleton(jobs[0], IsActive);
      assert forall job :: job in jobs <==> job == jobs[0] || job in tail;
    }
  }

  /** The number of items in the "recent" panels. */
  const RecentCount: nat := 5

  /** `s.slice(-5).reverse()`: the last five items of the list, the last one first. */
  function RecentItems<T>(s: seq<T>): (r: seq<T>)
    ensures |r| == if |s| < RecentCount then |s| else RecentCount
    ensures forall i :: 0 <= i < |r| ==> r[i] == s[|s| - 1 - i]
  {
    Reverse(Last(s, RecentCount))
  }

  /**
    The users and jobs arrive newest first, at most PageLimit of them, so a
    panel shows the oldest five records of that page, in creation order: the
    first five ever created while at most PageLimit exist, and otherwise the
    five created just after the PageLimit-th newest.
   */
  lemma RecentPanelShowsOldest<T>(records: seq<T>)
    ensures RecentItems(Listing(records)) == Take(records[|records| - |Listing(records)|..], RecentCount)
    ensures |records| <= PageLimit ==> RecentItems(Listing(records)) == Take(records, RecentCount)
  {
    var start := |records| - |Listing(records)|;
    var shown, oldest := RecentItems(Listing(records)), Take(records[start..], RecentCount);
    assert forall i :: 0 <= i < |oldest| ==> oldest[i] == records[start + i];
    assert forall i :: 0 <= i < |shown| ==> shown[i] == records[start + i];
  }

  /**
    A record is in its panel right after it is created exactly when fewer
    than five records existed before it, and it is then shown last.
   */
  lemma NewRecordShownOnlyWhileFew<T>(records: seq<T>, created: T)
    requires created !in records
    ensures created in RecentItems(Listing(records + [created])) <==> |records| < RecentCount
    ensures |records| < RecentCount ==> RecentItems(Listing(records + [created])) == records + [created]
  {
    var all := records + [created];
    RecentPanelShowsOldest(all);
    if |records| >= RecentCount {
      var start := |all| - |Listing(all)|;
      var shown := RecentItems(Listing(all));
      assert shown == records[start..start + RecentCount] by {
        assert forall i :: 0 <= i < RecentCount ==> shown[i] == all[start + i] == records[start + i];
      }
      assert created !in records[start..start + RecentCount];
    }
  }

  /** `{ ...user, isActive: !user.isActive }`. */
  function ToggledUser(user: User): (r: User)
    ensures r.isActive == !user.isActive
    ensures r.(isActive := user.isActive) == user
  {
    user.(isActive := !user.isActive)
  }

  /** Toggling a user twice restores the record. */
  lemma ToggleUserTwice(user: User)
    ensures ToggledUser(ToggledUser(user)) == user
  {
  }

  /** `job.status === "active" ? "inactive" : "active"`. */
  function NextJobStatus(status: string): (next: string)
    ensures next == InactiveStatus <==> status == ActiveStatus
    ensures next == ActiveStatus <==> status != ActiveStatus
  {
    if status == ActiveStatus then InactiveStatus else ActiveStatus
  }

  /**
    Toggling twice restores "active" and "inactive"; any other status
    (a closed or draft job, say) becomes "active" and then "inactive".
   */
  lemma ToggleJobStatusTwice(status: string)
    ensures status == ActiveStatus || status == InactiveStatus ==> NextJobStatus(NextJobStatus(status)) == status
    ensures status != ActiveStatus && status != InactiveStatus ==> NextJobStatus(NextJobStatus(status)) == InactiveStatus
  {
  }

  /** `{ ...job, status: newStatus }`. */
  function ToggledJob(job: Job): (r: Job)
    ensures r.status == NextJobStatus(job.status)
    ensures r.(status := job.status) == job
  {
    job.(status := NextJobStatus(job.status))
  }

  /** Toggling one job moves the active-jobs count by exactly one. */
  lemma ToggleMovesActiveCount(users: seq<User>, jobs: seq<Job>, apps: seq<Application>, i: nat)
    requires i < |jobs|
    ensures jobs[i].status == ActiveStatus ==>
      GetStats(users, jobs[i := ToggledJob(jobs[i])], apps).activeJobs == GetStats(users, jobs, apps).activeJobs - 1
    ensures jobs[i].status != ActiveStatus ==>
      GetStats(users, jobs[i := ToggledJob(jobs[i])], apps).activeJobs == GetStats(users, jobs, apps).activeJobs + 1
  {
    CountReplace(jobs, i, ToggledJob(jobs[i]), IsActive);
  }

  /** `handleToggleUserStatus`: the stored user with that Id gets the toggled record. */
  method HandleToggleUserStatus(store: UserStore, user: User) returns (found: bool)
    requires store.Valid()
    modifies store
    ensures store.Valid()
    ensures found <==> exists i :: 0 <= i < |old(store.records)| && old(store.records)[i].id == user.id
    ensures |store.records| == |old(store.records)|
    ensures forall i :: 0 <= i < |store.records| ==>
      store.records[i] == if old(store.records)[i].id == user.id then ToggledUser(user) else old(store.records)[i]
  {
    found := store.Update(user.id, ToggledUser(user));
  }

  /** `handleToggleJobStatus`: the stored job with that Id gets the toggled record. */
  method HandleToggleJobStatus(store: JobStore, job: Job) returns (found: bool)
    requires store.Valid()
    modifies store
    ensures store.Valid()
    ensures found <==> exists i :: 0 <= i < |old(store.records)| && old(store.records)[i].id == job.id
    ensures |store.records| == |old(store.records)|
    ensures forall i :: 0 <= i < |store.records| ==>
      store.records[i] == if old(store.records)[i].id == job.id then ToggledJob(job) else old(store.records)[i]
  {
    found := store.Update(job.id, ToggledJob(job));
  }
}
