# Job board page logic, in Dafny

This project models the client-side business rules of a job board web
application: the React pages for job search, applications, the three role
dashboards (job seeker, employer, admin), the profile form, the salary line of
a job card and the header navigation. Each page's rules are stated over
in-memory record lists. They are proved against independent definitions or
invariants: subsequence and order, exact membership, count bounds, a
parse/join round trip, involutive toggles, and "only this field changes".

Layout, one module per file:

- `wrappers.dfy` (`Wrappers`): `Option`, standing for a JavaScript `null`, `undefined` or `NaN`.
- `seqs.dfy` (`Seqs`): `Array.filter`, `slice`, `reverse` and an Id lookup on sequences, with their lemmas.
- `text.dfy` (`Text`): the string built-ins the pages use: `trim`, `toLowerCase`, `includes`, `split(",")`, `join` and `parseInt`.
- `records.dfy` (`Records`): jobs, applications, users, profile objects, and JavaScript truthiness.
- `queries.dfy` (`Queries`): selections several pages share: active jobs, an employer's jobs and their applications, one seeker's applications, counts by status.
- `store.dfy` (`Store`): the three record collections as classes. `create` appends under a fresh Id and `update` overwrites the record with a given Id.
- `job_search.dfy`, `applications_page.dfy`, `employer_dashboard.dfy`, `job_seeker_dashboard.dfy`, `admin_dashboard.dfy`, `profile_page.dfy`, `job_card.dfy`, `header.dfy`: one module per page or component.

Pure computations (filters, counts, slices, labels, the skills parser) are
functions with lemmas. State the pages keep and change (the job search page's
lists and criteria, the applications list and its filter, the employer's job
form, the profile form) is held in classes whose methods keep it consistent.
Each store write is a method on a store class.

The salary filters compare the same sides, not salary ranges: the minimum
filter is tested against the job's `salaryMin` and the maximum filter against
the job's `salaryMax` (src/components/pages/JobSearch.jsx:90-102).
`JobSearch.SalaryMinimumIsNotRangeOverlap` shows what that means: a job paying
50000 to 90000 is not listed under a minimum of 60000.

The services list records newest first: they order by creation time,
descending, and fetch one page of at most 100 records. `Store.Listing` gives
that page for a store, which keeps its records in creation order. The admin
dashboard's "Recent Users" and "Recent Jobs" panels take `slice(-5).reverse()`
of those pages, so they show the five oldest records of the page, oldest
first (`AdminDashboard.RecentPanelShowsOldest`). While at most 100 records
exist, these are the first five ever created. A record created once five
exist is not in the panel when it is created
(`AdminDashboard.NewRecordShownOnlyWhileFew`).

## Model

| member | source | states |
|---|---|---|
| Seqs.Keep | src/components/pages/JobSearch.jsx:64-69 | `Array.filter`: the result is no longer than the input and holds only input elements that pass the predicate |
| Seqs.KeepIsSubsequence | src/components/pages/JobSearch.jsx:64-69 | a filtered list is a subsequence of its input, in the same relative order |
| Seqs.KeepMember | src/components/pages/ApplicationsPage.jsx:85 | an element is kept exactly when it is in the input and passes the predicate |
| Seqs.KeepIdempotent | src/components/pages/JobSearch.jsx:64-69 | filtering a filtered list again by the same predicate changes nothing |
| Seqs.KeepKeep | src/components/pages/EmployerDashboard.jsx:64-75 | filtering by one predicate and then another equals filtering once by their conjunction |
| Seqs.Take | src/components/pages/JobSeekerDashboard.jsx:33 | `slice(0, n)` is a prefix of length min(n, length) |
| Seqs.Last | src/components/pages/AdminDashboard.jsx:47 | `slice(-n)` is a suffix of length min(n, length) |
| Seqs.Reverse | src/components/pages/AdminDashboard.jsx:47 | `reverse()` puts element i at position length-1-i |
| Seqs.CountTake | src/components/pages/EmployerDashboard.jsx:422 | a prefix has at most as many elements satisfying a predicate as the whole list |
| Seqs.CountReplace | src/components/pages/AdminDashboard.jsx:80-83 | replacing one element changes a count by the old element's contribution out and the new one's in |
| Seqs.SubsequenceTransitive | src/components/pages/JobSeekerDashboard.jsx:48 | a subsequence of a subsequence is a subsequence |
| Seqs.PrefixIsSubsequence | src/components/pages/JobSeekerDashboard.jsx:48 | a prefix is a subsequence |
| Text.Trim | src/components/pages/ProfilePage.jsx:74 | `trim()` is the input with a blank prefix and a blank suffix cut off, and it neither starts nor ends with whitespace; so it is empty exactly for all-whitespace text |
| Text.Lower | src/components/pages/JobSearch.jsx:63 | `toLowerCase()` keeps the length and lower-cases each ASCII capital |
| Text.Split | src/components/pages/ProfilePage.jsx:74 | `split(",")` yields at least one piece, no piece holds a comma, and pieces hold only input characters |
| Text.SplitAppend | src/components/pages/ProfilePage.jsx:74 | splitting at a comma splits the two sides independently |
| Text.Join | src/components/pages/ProfilePage.jsx:175 | `join(sep)` of no items is "", of one item is that item, and holds only characters of the items and the separator |
| Text.ParseInt | src/components/pages/JobSearch.jsx:91 | `parseInt` of blank text is NaN, and a negative result only comes from text whose first non-space character is '-' |
| Text.ParseIntDecimal | src/components/pages/EmployerDashboard.jsx:108 | `parseInt` of a natural number's decimal text gives back that number |
| Records.WithStatus | src/components/pages/ApplicationsPage.jsx:106-110 | the rewritten application has the new status and notes, and every other field as before |
| Queries.ActiveJobs | src/components/pages/JobSearch.jsx:38 | the active jobs are drawn from the input, all with status "active", no more of them than the input |
| Queries.ActiveJobsExactly | src/components/pages/JobSearch.jsx:38 | the search pool holds exactly the input jobs with status "active", in input order |
| Queries.EmployerApplicationsExactly | src/components/pages/ApplicationsPage.jsx:49-55 | an application is selected iff its jobId is the Id of a job whose employerId is the employer's |
| Queries.CountStatusSingleton | src/components/pages/ApplicationsPage.jsx:123-128 | one application counts once under its own status and not under any other |
| Queries.CountStatusAppend | src/components/pages/ApplicationsPage.jsx:123-128 | per-status counts add up over concatenation |
| Queries.CountStatusReplace | src/components/pages/ApplicationsPage.jsx:123-128 | after one application's status changes, only the counts of its old and new status move, by one each |
| Store.Listing | src/services/api/jobService.js:33-34 | `getAll()` lists the newest records first, at most 100 of them: the store's creation order reversed and cut at the page limit |
| Store.CreatedHeadsListing | src/services/api/jobService.js:33-34 | a record created last heads the listing and the others follow in their former order, the oldest dropping out when 100 were listed; with fewer than 100, none drops out |
| Store.JobStore.Create | src/services/api/jobService.js:87-127 | the job is appended under the next unused Id, which stays distinct from every stored Id |
| Store.JobStore.Update | src/services/api/jobService.js:131-172 | the job with that Id becomes the given record and no other changes; nothing changes when the Id is absent |
| Store.ApplicationStore.Create | src/services/api/applicationService.js:79-115 | the application is appended under the next unused Id; Ids stay distinct |
| Store.ApplicationStore.Update | src/services/api/applicationService.js:119-156 | the application with that Id becomes the given record and no other changes |
| Store.UserStore.Update | src/services/api/userService.js:110-142 | the user with that Id becomes the given record and no other changes |
| JobSearch.FilterJobs | src/components/pages/JobSearch.jsx:58-105 | the listed jobs are drawn from the pool, no more of them than the pool |
| JobSearch.FilterJobsIsMatching | src/components/pages/JobSearch.jsx:58-105 | the six conditional filter stages select exactly the jobs meeting all set criteria at once, in input order |
| JobSearch.FilterJobsExactly | src/components/pages/JobSearch.jsx:62-102 | a job is listed iff it is in the pool and: the untrimmed lower-cased term occurs in title, company, description or location; the lower-cased location occurs in its location; type and level are equal; the salary bounds hold |
| JobSearch.FilterJobsIsSubsequence | src/components/pages/JobSearch.jsx:58-104 | the listed jobs are a subsequence of the pool |
| JobSearch.FilterJobsIdempotent | src/components/pages/JobSearch.jsx:58-104 | filtering the listed jobs again with the same criteria lists the same jobs |
| JobSearch.FilterJobsUnfiltered | src/components/pages/JobSearch.jsx:58-104 | with a blank term, a blank location and every other criterion empty, the whole pool is listed |
| JobSearch.FilterJobsIgnoresIndustry | src/components/pages/JobSearch.jsx:58-105 | the industry criterion is never read: changing it never changes the result |
| JobSearch.SalaryFiltersCompareSameSide | src/components/pages/JobSearch.jsx:89-102 | a set minimum lists only jobs whose own salaryMin is present, non-zero and at least the parsed minimum; a set maximum likewise with salaryMax; an unparsable bound lists nothing |
| JobSearch.SalaryMinimumIsNotRangeOverlap | src/components/pages/JobSearch.jsx:90-95 | a 50000-90000 job is excluded by a minimum of "60000" |
| JobSearch.JobSearchPage.constructor | src/components/pages/JobSearch.jsx:17-29 | the page starts with empty lists, an empty term and empty filters |
| JobSearch.JobSearchPage.LoadJobs | src/components/pages/JobSearch.jsx:37-41 | the pool becomes the active jobs and the listed jobs their filter under the current criteria |
| JobSearch.JobSearchPage.Search | src/components/pages/JobSearch.jsx:107-109 | a new term re-filters the pool; pool and filters unchanged |
| JobSearch.JobSearchPage.ChangeFilters | src/components/pages/JobSearch.jsx:111-113 | new filters re-filter the pool; pool and term unchanged |
| JobSearch.JobSearchPage.ClearFilters | src/components/pages/JobSearch.jsx:115-125 | clearing restores empty criteria and lists the whole pool |
| JobSearch.NewApplication | src/components/pages/JobSearch.jsx:148-157 | the search page's record: "applied", for this job and seeker, with the job's title, company and location, the long cover letter, the given date and no employer notes |
| JobSearch.Decide | src/components/pages/JobSearch.jsx:127-146 | sign-in is required exactly when nobody is signed in; job seekers only exactly for another role; already applied exactly when a signed-in job seeker has an application for this job |
| JobSearch.DecideSubmits | src/components/pages/JobSearch.jsx:127-146 | an application is submitted iff a job seeker is signed in and none of their stored applications is for this job |
| JobSearch.ApplyKeepsOnePerPair | src/components/pages/JobSearch.jsx:139-157 | submitting through the search page never creates a second application for the same job and seeker |
| JobSearch.SecondApplyRefused | src/components/pages/JobSearch.jsx:139-146 | once submitted, applying again to the same job is refused as already applied |
| JobSearch.HandleApplyToJob | src/components/pages/JobSearch.jsx:127-157 | refused when signed out or not a job seeker; nothing created when already applied; otherwise exactly one "applied" application with the job's title, company and location is appended |
| ApplicationsPage.UpdateFormOptions | src/components/pages/ApplicationsPage.jsx:247 | the update form offers exactly the filter's options whose value is not empty |
| ApplicationsPage.UpdateFormOffersFiveStatuses | src/components/pages/ApplicationsPage.jsx:29-36 | the update form offers exactly the five statuses, in order, without the "All Statuses" option |
| ApplicationsPage.LoadApplications | src/components/pages/ApplicationsPage.jsx:38-62 | the loaded applications are drawn from all applications; a seeker's are all their own; anyone but a seeker or an employer gets every application |
| ApplicationsPage.LoadApplicationsScope | src/components/pages/ApplicationsPage.jsx:38-62 | a seeker sees exactly their own applications, an employer exactly those to jobs they posted, anyone else all of them; always in store order |
| ApplicationsPage.FilterApplications | src/components/pages/ApplicationsPage.jsx:81-89 | an empty filter shows the list unchanged; every shown application is in the list and, under a set filter, has that status |
| ApplicationsPage.FilterApplicationsExactly | src/components/pages/ApplicationsPage.jsx:81-89 | an empty filter returns the list unchanged; a set filter returns exactly the applications with that status, in order, as many as that status's count |
| ApplicationsPage.GetStats | src/components/pages/ApplicationsPage.jsx:122-131 | total is the number of applications, each of the five per-status counts is at most total, and no applications give all zeros |
| ApplicationsPage.StatCardsMatchFilter | src/components/pages/ApplicationsPage.jsx:122-183 | each status card equals the number of applications listed under that status filter, and the total card the number listed with no filter |
| ApplicationsPage.StatsOfAppended | src/components/pages/ApplicationsPage.jsx:122-131 | one more application raises the total and the card of its own status by one, and no other card |
| ApplicationsPage.StatusTotalsBounded | src/components/pages/ApplicationsPage.jsx:122-131 | the five per-status counts sum to at most total, with equality iff every status is one of the five |
| ApplicationsPage.UnchangedFormRewritesSameRecord | src/components/pages/ApplicationsPage.jsx:96-110 | submitting the form as pre-filled writes back the same record |
| ApplicationsPage.HandleStatusUpdate | src/components/pages/ApplicationsPage.jsx:103-120 | the stored application with the selected Id becomes the selected record with the chosen status and notes; nothing else changes |
| ApplicationsPage.ApplicationsView.constructor | src/components/pages/ApplicationsPage.jsx:19-23 | the page starts with no applications and an empty status filter |
| ApplicationsPage.ApplicationsView.Load | src/components/pages/ApplicationsPage.jsx:61-62 | the loaded list replaces the applications; the shown list is its filter |
| ApplicationsPage.ApplicationsView.SetStatusFilter | src/components/pages/ApplicationsPage.jsx:77-89 | a new status filter re-filters the same applications |
| EmployerDashboard.LoadDashboard | src/components/pages/EmployerDashboard.jsx:62-83 | myJobs and recentApplications are prefixes of at most 5 of the employer's jobs and applications; activeJobs is at most the employer's jobs; shortlisted is at most totalApplications, the number of employer applications (which status each figure counts: FiguresMatchApplicationsPage) |
| EmployerDashboard.FiguresMatchApplicationsPage | src/components/pages/EmployerDashboard.jsx:74-82 | the dashboard's total and shortlisted figures are the applications page's total and shortlisted cards for the same employer |
| EmployerDashboard.DashboardIsTheEmployers | src/components/pages/EmployerDashboard.jsx:64-75 | every listed job and application is the employer's, and activeJobs counts the employer's active jobs |
| EmployerDashboard.ApplicationsShownFor | src/components/pages/EmployerDashboard.jsx:422 | the per-job figure is at most the number of recent applications, and 0 exactly when none of them is for that job |
| EmployerDashboard.ApplicationsShownUndercount | src/components/pages/EmployerDashboard.jsx:422 | the per-job figure counts only the recent applications, so it is at most 5 and at most the job's real count |
| EmployerDashboard.OfferedTransition | src/components/pages/EmployerDashboard.jsx:363-379 | an action is offered exactly for "applied" and "shortlisted" applications |
| EmployerDashboard.OfferedTransitionsMoveForward | src/components/pages/EmployerDashboard.jsx:363-379 | the offered actions are applied to shortlisted and shortlisted to hired, each one step forward; none from hired |
| EmployerDashboard.QuickStatusUpdate | src/components/pages/EmployerDashboard.jsx:134-138 | the record gets the new status and the note "Status updated to <status>", every other field as before |
| EmployerDashboard.ShortlistMovesOneApplication | src/components/pages/EmployerDashboard.jsx:363-371 | shortlisting an applied application raises the shortlisted count by one and lowers the applied count by one |
| EmployerDashboard.HandleUpdateApplicationStatus | src/components/pages/EmployerDashboard.jsx:132-146 | the stored application with that Id becomes the quick-updated record; nothing else changes |
| EmployerDashboard.CompanyName | src/components/pages/EmployerDashboard.jsx:105 | the profile's non-empty company name text; "Your Company" whenever there is none |
| EmployerDashboard.SalaryBound | src/components/pages/EmployerDashboard.jsx:108-109 | an empty salary input is stored as no bound |
| EmployerDashboard.NewJob | src/components/pages/EmployerDashboard.jsx:102-110 | a new job is "active", belongs to the current user, copies the form's title, description, requirements, location, type, level and deadline, carries the company name and the given posting date, and each salary is absent for an empty input and the parsed integer otherwise |
| EmployerDashboard.TypedSalaryIsStored | src/components/pages/EmployerDashboard.jsx:108 | a salary typed as a decimal number is stored as that number |
| EmployerDashboard.PostedJobIsActive | src/components/pages/EmployerDashboard.jsx:62-75 | once posted, a job heads the listing: it is first among the employer's dashboard jobs and first in the search pool, ahead of the active jobs still within the page limit; with fewer than 100 jobs it adds exactly one to the employer's active-jobs count and the pool keeps every other active job |
| EmployerDashboard.JobFormPanel.constructor | src/components/pages/EmployerDashboard.jsx:29-40 | the form starts closed with jobType "full-time", experienceLevel "mid" and every other field empty |
| EmployerDashboard.JobFormPanel.Edit | src/components/pages/EmployerDashboard.jsx:233 | an input change replaces the form contents and leaves it open or closed |
| EmployerDashboard.JobFormPanel.Open | src/components/pages/EmployerDashboard.jsx:168 | "Post Job" opens the form without touching its contents |
| EmployerDashboard.JobFormPanel.HandleCreateJob | src/components/pages/EmployerDashboard.jsx:99-130 | the job built from the form is appended to the store under a fresh Id; the form closes and resets to its initial values |
| JobSeekerDashboard.GetStats | src/components/pages/JobSeekerDashboard.jsx:36-44 | applied is the number of applications; interviews and offers are at most applied; an empty list gives zeros (which status each counts: StatsNameTheirStatuses) |
| JobSeekerDashboard.StatsNameTheirStatuses | src/components/pages/JobSeekerDashboard.jsx:36-44 | interviews counts the "shortlisted" applications and offers the "hired" ones, equal to the applications page's shortlisted and hired cards |
| JobSeekerDashboard.SeekerStatsOfAppended | src/components/pages/JobSeekerDashboard.jsx:36-44 | one more application raises applied by one, interviews by one only if it is shortlisted, offers by one only if it is hired |
| JobSeekerDashboard.InterviewsAndOffersBounded | src/components/pages/JobSeekerDashboard.jsx:36-44 | interviews plus offers never exceed applied |
| JobSeekerDashboard.LoadDashboard | src/components/pages/JobSeekerDashboard.jsx:26-49 | recent applications are a prefix of at most 3 of the seeker's applications; recommended jobs a prefix of at most 6 active jobs |
| JobSeekerDashboard.RecommendedJobsAreActive | src/components/pages/JobSeekerDashboard.jsx:46-49 | every recommended job is active, they keep input order, and there are six whenever six active jobs exist |
| JobSeekerDashboard.RecentApplicationsAreOwn | src/components/pages/JobSeekerDashboard.jsx:32-33 | every recent application is the seeker's own |
| JobSeekerDashboard.ProfileCompletion | src/components/pages/JobSeekerDashboard.jsx:99-103 | the score is 0 without a profile and always one of 0, 25, 50, 75, 100 |
| JobSeekerDashboard.ShowCompletionAlert | src/components/pages/JobSeekerDashboard.jsx:120 | the completion alert shows exactly when there is no profile or one of the four checks fails |
| JobSeekerDashboard.CompleteExactlyWhenAllChecksHold | src/components/pages/JobSeekerDashboard.jsx:99-120 | the score is 100 iff all four checks hold; the alert shows iff it is below 100 |
| JobSeekerDashboard.CompletionCountsChecks | src/components/pages/JobSeekerDashboard.jsx:99-103 | the score is 25 times the number of checks that hold |
| JobSeekerDashboard.FirstNameOnlyScoresAQuarter | src/components/pages/JobSeekerDashboard.jsx:99-103 | a first name with empty skills, experience and resume scores 25 |
| JobSeekerDashboard.DashboardApplication | src/components/pages/JobSeekerDashboard.jsx:67-76 | the dashboard's application is "applied" and copies the job's Id, title, company and location |
| JobSeekerDashboard.SameRecordAsSearchPage | src/components/pages/JobSeekerDashboard.jsx:67-76 | it equals the search page's record except for a different, shorter cover letter |
| JobSeekerDashboard.HandleApplyToJob | src/components/pages/JobSeekerDashboard.jsx:65-84 | always appends exactly one application, without looking for an earlier one |
| JobSeekerDashboard.DashboardApplyDuplicates | src/components/pages/JobSeekerDashboard.jsx:65-76 | applying again to a job already applied to leaves two applications for the same pair, which the search page would refuse |
| AdminDashboard.GetStats | src/components/pages/AdminDashboard.jsx:39-44 | the three totals are the list lengths, and activeJobs is at most totalJobs |
| AdminDashboard.AllJobsActive | src/components/pages/AdminDashboard.jsx:43 | activeJobs equals totalJobs iff every job is active |
| AdminDashboard.RecentItems | src/components/pages/AdminDashboard.jsx:47-48 | the last (at most) 5 items of the list, the last one first |
| AdminDashboard.RecentPanelShowsOldest | src/components/pages/AdminDashboard.jsx:32-48 | a panel shows the five oldest records of the listed page, in creation order: the first five created while at most 100 exist |
| AdminDashboard.NewRecordShownOnlyWhileFew | src/components/pages/AdminDashboard.jsx:32-48 | right after it is created, a record is in its panel iff fewer than five records existed before it, and it is then shown last |
| AdminDashboard.ToggledUser | src/components/pages/AdminDashboard.jsx:64-67 | isActive is negated and every other field kept |
| AdminDashboard.ToggleUserTwice | src/components/pages/AdminDashboard.jsx:64-67 | toggling a user twice restores the record |
| AdminDashboard.NextJobStatus | src/components/pages/AdminDashboard.jsx:79 | "active" becomes "inactive"; every other status becomes "active" |
| AdminDashboard.ToggleJobStatusTwice | src/components/pages/AdminDashboard.jsx:79 | toggling twice restores "active" and "inactive"; any other status ends up "inactive" |
| AdminDashboard.ToggledJob | src/components/pages/AdminDashboard.jsx:79-83 | only the status changes |
| AdminDashboard.ToggleMovesActiveCount | src/components/pages/AdminDashboard.jsx:77-83 | toggling a job moves the active-jobs count by exactly one, down for an active job and up otherwise |
| AdminDashboard.HandleToggleUserStatus | src/components/pages/AdminDashboard.jsx:62-75 | the stored user with that Id becomes the toggled record; nothing else changes |
| AdminDashboard.HandleToggleJobStatus | src/components/pages/AdminDashboard.jsx:77-91 | the stored job with that Id becomes the toggled record; nothing else changes |
| ProfilePage.InitialForm | src/components/pages/ProfilePage.jsx:18-47 | the stored profile if any; else a seeker's empty form (skills [], profileComplete false) or an employer's (verificationStatus "pending"); else the form is left as it was |
| ProfilePage.EmptySeekerFormIsBlank | src/components/pages/ProfilePage.jsx:23-34 | a fresh seeker form has every text field empty, scores 0 on the dashboard and shows an empty skills input |
| ProfilePage.WithField | src/components/pages/ProfilePage.jsx:69-71 | exactly the named field takes the value; all others are equal |
| ProfilePage.LastChangeWins | src/components/pages/ProfilePage.jsx:69-71 | of two changes to one field, the second wins |
| ProfilePage.ChangesToDifferentFieldsCommute | src/components/pages/ProfilePage.jsx:69-71 | changes to two different fields commute |
| ProfilePage.ParseSkills | src/components/pages/ProfilePage.jsx:74 | no parsed skill is empty, and there are no more skills than comma-separated pieces |
| ProfilePage.ParsedSkillsAreClean | src/components/pages/ProfilePage.jsx:74 | every parsed skill is non-empty, has no surrounding whitespace and no comma |
| ProfilePage.ParseSkillsAppend | src/components/pages/ProfilePage.jsx:74 | the skills on each side of a comma come out in input order |
| ProfilePage.ParseSkillsLeadingSpace | src/components/pages/ProfilePage.jsx:74 | a leading space changes nothing |
| ProfilePage.ParseSkillsLeadingComma | src/components/pages/ProfilePage.jsx:74 | a leading comma changes nothing |
| ProfilePage.ParseSkillsEmpty | src/components/pages/ProfilePage.jsx:74 | the text parses to no skills iff it holds only whitespace and commas, so empty or blank text gives [] |
| ProfilePage.ParseSingleSkill | src/components/pages/ProfilePage.jsx:74 | one clean skill parses to itself |
| ProfilePage.ParseJoinRoundTrip | src/components/pages/ProfilePage.jsx:175 | clean skills joined with ", " parse back to the same list |
| ProfilePage.SkillsChange | src/components/pages/ProfilePage.jsx:73-76 | the parsed list replaces the skills field; the other fields are unchanged |
| ProfilePage.SkillsText | src/components/pages/ProfilePage.jsx:175 | the skills input is empty for a missing, non-list or empty skills value, and is the skill itself for a single skill |
| ProfilePage.SkillsInputIsStable | src/components/pages/ProfilePage.jsx:175 | the text shown for parsed skills parses back to the same skills |
| ProfilePage.UploadUrl | src/components/pages/ProfilePage.jsx:95-96 | "/uploads/resume.pdf" for resumeUrl, "/uploads/company-logo.png" for any other field |
| ProfilePage.FileUpload | src/components/pages/ProfilePage.jsx:93-97 | the field gets the upload URL; the other fields are unchanged |
| ProfilePage.ResumeUploadCounts | src/components/pages/ProfilePage.jsx:93-97 | a resume upload satisfies the dashboard's resume check and never lowers the score |
| ProfilePage.ProfileForm.constructor | src/components/pages/ProfilePage.jsx:15 | the form starts as the empty object |
| ProfilePage.ProfileForm.Initialise | src/components/pages/ProfilePage.jsx:18-47 | the form becomes the initial form for the profile and user |
| ProfilePage.ProfileForm.InputChange | src/components/pages/ProfilePage.jsx:69-71 | the form becomes the old form with that one field set |
| ProfilePage.ProfileForm.HandleSkillsChange | src/components/pages/ProfilePage.jsx:73-76 | the form's skills become the parsed list |
| ProfilePage.ProfileForm.HandleFileUpload | src/components/pages/ProfilePage.jsx:93-99 | the form's field becomes the upload URL |
| JobCard.FormatSalary | src/components/molecules/JobCard.jsx:17-22 | "Salary not specified" when both bounds are falsy; "$min+" with only min; "Up to $max" with only max; "$min - $max" with both |
| JobCard.ZeroIsMissing | src/components/molecules/JobCard.jsx:18-20 | a bound of 0 gives the same label as a missing one |
| JobCard.NotSpecifiedExactly | src/components/molecules/JobCard.jsx:17-22 | "Salary not specified" appears iff neither bound is set, whatever the number formatter returns |
| Header.DashboardPath | src/components/organisms/Header.jsx:19-24 | job seeker, employer and admin dashboards by role, in that order; "/" for no role |
| Header.NavItems | src/components/organisms/Header.jsx:26-57 | none when signed out; otherwise Dashboard then Profile, plus Find Jobs and Applications for seekers, Applications for employers, Manage System for admins |
| Header.NavItemsAreRoutes | src/App.jsx:19-26 | every header link is a declared route and no two links of one header share a path |
| Header.DashboardLinkMatchesRole | src/components/organisms/Header.jsx:19-32 | a signed-in user's Dashboard link opens their own role's dashboard |

## Left out

- The backend SDK calls, their network I/O, and the services' mapping to `*_c` field names are not modelled. Each store is an in-memory sequence, and the pages receive loaded lists as parameters.
- The services' newest-first order is by creation time; the model takes creation order to be the order in which the store created the records, and the page functions take the lists they are given as already in that order.
- The services swallow errors and return `[]` or `null`, so the pages' error branches, toasts and loading flags are not modelled. Every store write here succeeds.
- Overlapping loads and last-write-wins between them are concurrency and are not modelled. The same holds for the gap between the duplicate check and the create in the search page's apply.
- Clocks and formatting are parameters: `new Date().toISOString()` is the `now` string, and `toLocaleString` is the `fmt` function of the salary label.
- Text.Trim and Text.Lower: `trim` strips the common whitespace characters but not every Unicode space separator, and lower-casing covers ASCII letters only.
- Text.ParseInt: integers are unbounded, so the loss of precision of JavaScript numbers above 2^53 is not modelled, nor is `parseInt` on non-string inputs.
- A user's role is a single `role` field. The user context derives its role flags from `role_c`, while the search page's apply check reads `role`; here both read this one field, so a record whose two fields disagree is not modelled.
- ProfilePage.SkillsText: a truthy `skills` value that is not a list (where the page's `join` would throw) shows as the empty input.
- EmployerDashboard.CompanyName: a truthy `companyName` that is not text (a list or flag) is treated as missing.
- The user's profile is a parameter (`userProfile`) of the profile-dependent members: ProfileCompletion, ShowCompletionAlert, CompanyName, NewJob and InitialForm. In the application as written, the user context starts it as `null` and never sets it, so the completion score stays 0, the company name stays "Your Company" and the profile form starts empty. The model states what the pages do for any profile they receive.
- Saving the profile is not modelled: `updateProfile` returns its input and stores nothing.
- Rendering is not modelled: layout, badges, icons, navigation and animation.
