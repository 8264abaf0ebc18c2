// The job search page controller (css/js/jobs.js): the loaded and filtered
// job lists, the set of cards whose details are expanded, the four guards in
// front of an application, the results-count wording and the two label tables.

module Jobs {
  import opened Seqs
  import opened Text
  import opened Storage

  /** Why `applyToJob` creates nothing, in the order its guards run. */
  datatype ApplyError = LoginRequired | EmployersCannotApply | AlreadyApplied | JobNotFound

  datatype ApplyOutcome = Applied(application: Application, job: Job) | Refused(error: ApplyError)

  // ------------------------------------------------------------ applying

  /** The first guard of `applyToJob` that stops it, or `None` when it goes on to create the application. */
  function ApplyRefusal(user: Option<User>, jobs: seq<Job>, apps: seq<Application>, jobId: string): (r: Option<ApplyError>)
    ensures r.None? <==>
      && user.Some? && user.value.userType != Employer
      && (forall i :: 0 <= i < |apps| ==> !(apps[i].jobId == jobId && apps[i].applicantId == user.value.id))
      && exists i :: 0 <= i < |jobs| && jobs[i].id == jobId
    ensures r == Some(LoginRequired) <==> user.None?
    ensures r == Some(EmployersCannotApply) <==> user.Some? && user.value.userType == Employer
    ensures r == Some(AlreadyApplied) <==>
      && user.Some? && user.value.userType != Employer
      && exists i :: 0 <= i < |apps| && apps[i].jobId == jobId && apps[i].applicantId == user.value.id
    ensures r == Some(JobNotFound) <==>
      && user.Some? && user.value.userType != Employer
      && (forall i :: 0 <= i < |apps| ==> !(apps[i].jobId == jobId && apps[i].applicantId == user.value.id))
      && forall k :: 0 <= k < |jobs| ==> jobs[k].id != jobId
  {
    if user.None? then Some(LoginRequired)
    else if user.value.userType == Employer then Some(EmployersCannotApply)
    else if HasApplied(apps, jobId, user.value.id) then Some(AlreadyApplied)
    else if GetJobById(jobs, jobId).None? then Some(JobNotFound)
    else None
  }

  /** The record `applyToJob` hands to `createApplication`: the job and the applicant's id, name and email. */
  function ApplicationRequest(user: User, jobId: string): ApplicationData {
    ApplicationData(None, jobId, user.id, user.name, user.email, None, None)
  }

  /** An accepted application keeps "at most one application per job and applicant". */
  lemma ApplyKeepsApplicationsUnique(user: User, jobs: seq<Job>, apps: seq<Application>, jobId: string,
                                     freshId: string, now: int)
    requires UniqueApplications(apps)
    requires ApplyRefusal(Some(user), jobs, apps, jobId).None?
    ensures UniqueApplications(apps + [NewApplication(ApplicationRequest(user, jobId), freshId, now)])
  {
    var all := apps + [NewApplication(ApplicationRequest(user, jobId), freshId, now)];
    forall i, j | 0 <= i < j < |all|
      ensures !(all[i].jobId == all[j].jobId && all[i].applicantId == all[j].applicantId)
    {
      if j == |apps| {
        assert all[i] == apps[i];
      } else {
        assert all[i] == apps[i] && all[j] == apps[j];
      }
    }
  }

  /** Applying a second time to the same job is refused as already applied. */
  lemma SecondApplyRefused(user: User, jobs: seq<Job>, apps: seq<Application>, jobId: string,
                           freshId: string, now: int)
    requires ApplyRefusal(Some(user), jobs, apps, jobId).None?
    ensures ApplyRefusal(Some(user), jobs, apps + [NewApplication(ApplicationRequest(user, jobId), freshId, now)], jobId)
            == Some(AlreadyApplied)
  {
    AppliedAfterCreate(apps, ApplicationRequest(user, jobId), freshId, now);
  }

  /** Every application names a job that exists. */
  ghost predicate ApplicationsReferToJobs(jobs: seq<Job>, apps: seq<Application>) {
    forall i :: 0 <= i < |apps| ==> exists k :: 0 <= k < |jobs| && jobs[k].id == apps[i].jobId
  }

  /** `applyToJob` only ever creates applications for jobs that exist. */
  lemma ApplyKeepsReferences(user: User, jobs: seq<Job>, apps: seq<Application>, jobId: string,
                             freshId: string, now: int)
    requires ApplicationsReferToJobs(jobs, apps)
    requires ApplyRefusal(Some(user), jobs, apps, jobId).None?
    ensures ApplicationsReferToJobs(jobs, apps + [NewApplication(ApplicationRequest(user, jobId), freshId, now)])
  {
    var all := apps + [NewApplication(ApplicationRequest(user, jobId), freshId, now)];
    forall i | 0 <= i < |all| ensures exists k :: 0 <= k < |jobs| && jobs[k].id == all[i].jobId {
      if i < |apps| {
        assert all[i] == apps[i];
      }
    }
  }

  // ------------------------------------------------------------- labels

  const SingularNoun := "empleo encontrado"
  const PluralNoun := "empleos encontrados"

  predicate EndsWith(s: string, suffix: string) {
    |suffix| <= |s| && s[|s| - |suffix|..] == suffix
  }

  /** `updateResultsCount`: the count, then the singular wording exactly when the count is one. */
  function ResultsLabel(count: nat): (r: string)
    ensures NatToString(count) + " " <= r
    ensures EndsWith(r, SingularNoun) <==> count == 1
    ensures count != 1 ==> EndsWith(r, PluralNoun)
  {
    var prefix := NatToString(count) + " ";
    if count == 1 then
      var r := prefix + SingularNoun;
      assert r[|prefix|..] == SingularNoun;
      r
    else
      var r := prefix + PluralNoun;
      assert r[|prefix|..] == PluralNoun;
      assert r[|r| - |SingularNoun|..][|SingularNoun| - 1] == 's';
      r
  }

  const TypeBadges: map<string, string> := map[
    "Tiempo Completo" := "badge-full",
    "Medio Tiempo" := "badge-part",
    "Remoto" := "badge-remote",
    "Por Proyecto" := "badge-project"
  ]

  const DefaultBadge := "badge-full"

  /** `getTypeBadgeClass`: the class for a known job type; any other type gets the full-time class. */
  function GetTypeBadgeClass(jobType: string): (c: string)
    ensures jobType in TypeBadges ==> c == TypeBadges[jobType]
    ensures jobType !in TypeBadges ==> c == DefaultBadge
    ensures c in TypeBadges.Values
  {
    if jobType in TypeBadges then TypeBadges[jobType]
    else
      assert TypeBadges["Tiempo Completo"] == DefaultBadge;
      DefaultBadge
  }

  const CategoryLabels: map<string, string> := map[
    "servicios" := "Servicios",
    "construccion" := "Construcción",
    "tecnologia" := "Tecnología",
    "educacion" := "Educación",
    "comercio" := "Comercio",
    "transporte" := "Transporte"
  ]

  /** `getCategoryLabel`: the display name of a known category; any other category is shown as it is. */
  function GetCategoryLabel(category: string): (name: string)
    ensures category in CategoryLabels ==> name == CategoryLabels[category]
    ensures category !in CategoryLabels ==> name == category
    ensures name == "" <==> category == ""
  {
    if category in CategoryLabels then CategoryLabels[category] else category
  }

  // -------------------------------------------------------- expanded set

  /** The set after `toggleDetails`: `id` changes membership, nothing else does. */
  function Toggled(expanded: set<string>, id: string): (r: set<string>)
    ensures id in r <==> id !in expanded
    ensures forall x :: x != id ==> (x in r <==> x in expanded)
  {
    if id in expanded then expanded - {id} else expanded + {id}
  }

  /** Toggling the same card twice restores the set. */
  lemma ToggleTwice(expanded: set<string>, id: string)
    ensures Toggled(Toggled(expanded, id), id) == expanded
  {
  }

  /**
   * What a `<select>` reports after its value is set to `v`: `v` when one of
   * its options carries that value, and '' when none does.
   */
  function SelectedValue(options: set<string>, v: string): (r: string)
    ensures r == v <==> v in options || v == ""
    ensures r != v ==> r == ""
  {
    if v in options then v else ""
  }

  /** The category link of the home page shows exactly the jobs of that category, in stored order. */
  lemma CategoryLinkShowsCategory(jobs: seq<Job>, category: string)
    requires category != ""
    ensures SearchJobs(jobs, Filters("", category, "", "")) == Filter(jobs, HasCategory(category))
  {
    var f := Filters("", category, "", "");
    SearchJobsIsOneFilter(jobs, f);
    FilterSame(jobs, MatchesAll(f), HasCategory(category));
  }

  /** What the search box and the two selects leave on the page: no location test is ever applied. */
  lemma FilteredJobsMatch(jobs: seq<Job>, query: string, category: string, jobType: string)
    ensures var r := SearchJobs(jobs, Filters(query, category, jobType, ""));
      forall j :: j in r <==>
        && j in jobs
        && (query == "" || MatchesQuery(ToLower(query))(j))
        && (category == "" || j.category == category)
        && (jobType == "" || j.jobType == jobType)
  {
    SearchJobsMembers(jobs, Filters(query, category, jobType, ""));
  }

  // ---------------------------------------------------------- controller

  /** `JobsController`: the job lists and expanded cards of the search page over the shared store. */
  class JobsController {
    var allJobs: seq<Job>
    var filteredJobs: seq<Job>
    var currentUser: Option<User>
    var expandedJobs: set<string>
    const store: StorageManager

    /**
     * `init`: caches the session, loads the jobs, and when the page was
     * opened with a category in its URL writes it into the category select
     * (whose option values are `categoryOptions`) and searches by what the
     * select then reports; the search box and type select are still empty.
     */
    constructor (store: StorageManager, categoryOptions: set<string>, urlCategory: string)
      ensures this.store == store && currentUser == store.currentUser && expandedJobs == {}
      ensures allJobs == store.jobs
      ensures filteredJobs ==
        if urlCategory in categoryOptions && urlCategory != "" then Filter(store.jobs, HasCategory(urlCategory))
        else store.jobs
    {
      this.store := store;
      currentUser := store.currentUser;
      expandedJobs := {};
      new;
      LoadJobs();
      if urlCategory != "" {
        var category := SelectedValue(categoryOptions, urlCategory);
        FilterJobs("", category, "");
        if category == "" {
          SearchWithoutFiltersIsAll(store.jobs);
        } else {
          CategoryLinkShowsCategory(store.jobs, category);
        }
      }
    }

    /** `loadJobs`: both lists become the stored jobs. */
    method LoadJobs()
      modifies this
      ensures allJobs == store.jobs && filteredJobs == allJobs
      ensures currentUser == old(currentUser) && expandedJobs == old(expandedJobs)
    {
      allJobs := store.jobs;
      filteredJobs := allJobs;
    }

    /** `filterJobs`: the stored jobs searched by query, category and type; the location filter is never set. */
    method FilterJobs(query: string, category: string, jobType: string)
      modifies this
      ensures filteredJobs == SearchJobs(store.jobs, Filters(query, category, jobType, ""))
      ensures |filteredJobs| <= |store.jobs|
      ensures allJobs == old(allJobs) && currentUser == old(currentUser) && expandedJobs == old(expandedJobs)
    {
      filteredJobs := SearchJobs(store.jobs, Filters(query, category, jobType, ""));
      SearchJobsMembers(store.jobs, Filters(query, category, jobType, ""));
    }

    /** `toggleDetails`: expands a collapsed card or collapses an expanded one. */
    method ToggleDetails(jobId: string)
      modifies this
      ensures expandedJobs == Toggled(old(expandedJobs), jobId)
      ensures allJobs == old(allJobs) && filteredJobs == old(filteredJobs) && currentUser == old(currentUser)
    {
      if jobId in expandedJobs {
        expandedJobs := expandedJobs - {jobId};
      } else {
        expandedJobs := expandedJobs + {jobId};
      }
    }

    /**
     * The card's apply button is disabled (`hasApplied` in `renderJobCard`):
     * there is a cached session and it has applied to this job, so a click
     * would be refused anyway.
     */
    function ApplyDisabled(jobId: string): (r: bool)
      reads this, store
      ensures r <==> currentUser.Some? && HasApplied(store.applications, jobId, currentUser.value.id)
      ensures r ==> exists i :: 0 <= i < |store.applications| && store.applications[i].jobId == jobId
                                && store.applications[i].applicantId == currentUser.value.id
      ensures r ==> ApplyRefusal(currentUser, store.jobs, store.applications, jobId).Some?
    {
      currentUser.Some? && HasApplied(store.applications, jobId, currentUser.value.id)
    }

    /**
     * `applyToJob`: with the cached session, refuses when there is none, when
     * it is an employer's, when it already applied, or when the job is gone;
     * otherwise appends one pending application for it.
     */
    method ApplyToJob(jobId: string, freshId: string, now: int) returns (outcome: ApplyOutcome)
      modifies store
      ensures var refusal := ApplyRefusal(currentUser, old(store.jobs), old(store.applications), jobId);
        && (refusal.Some? ==> outcome == Refused(refusal.value) && store.applications == old(store.applications))
        && (refusal.None? ==>
              && outcome.Applied?
              && store.applications == old(store.applications) + [outcome.application]
              && outcome.application == NewApplication(ApplicationRequest(currentUser.value, jobId), freshId, now)
              && GetJobById(old(store.jobs), jobId) == Some(outcome.job))
      ensures outcome.Applied? ==> outcome.application.status == Pending && ApplyDisabled(jobId)
      ensures UniqueApplications(old(store.applications)) ==> UniqueApplications(store.applications)
      ensures store.users == old(store.users) && store.jobs == old(store.jobs)
      ensures store.currentUser == old(store.currentUser)
    {
      if currentUser.None? {
        return Refused(LoginRequired);
      }
      var user := currentUser.value;
      if user.userType == Employer {
        return Refused(EmployersCannotApply);
      }
      if HasApplied(store.applications, jobId, user.id) {
        return Refused(AlreadyApplied);
      }
      var job := GetJobById(store.jobs, jobId);
      if job.None? {
        return Refused(JobNotFound);
      }
      if UniqueApplications(store.applications) {
        ApplyKeepsApplicationsUnique(user, store.jobs, store.applications, jobId, freshId, now);
      }
      var application := store.CreateApplication(ApplicationRequest(user, jobId), freshId, now);
      outcome := Applied(application, job.value);
    }
  }
}
