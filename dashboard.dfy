// The dashboard controller (js/dashboard.js): the session gate and the
// employer/applicant branch, the numbers on the stat cards, the job and
// application listings, and the two store-changing actions of an employer:
// publishing a validated job and a confirmed delete.

module Dashboard {
  import opened Seqs
  import opened Text
  import opened Storage
  import opened Auth

  /** Seven days in milliseconds: how far back "new this week" reaches. */
  const WeekMs := 7 * 24 * 60 * 60 * 1000

  datatype EmployerStats = EmployerStats(published: nat, received: nat, active: nat)

  datatype ApplicantStats = ApplicantStats(sent: nat, available: nat, newThisWeek: nat)

  /** What the page shows below the header. */
  datatype View =
    | NotLoaded
    | EmployerPanel(employerStats: EmployerStats, postings: seq<(Job, nat)>)
    | ApplicantPanel(applicantStats: ApplicantStats, sentApplications: seq<(Application, Job)>)

  /** The fields of the new-job form. */
  datatype JobForm = JobForm(title: string, description: string, category: string, location: string,
                             salary: string, jobType: string, requirements: string)

  datatype JobFormProblem = TitleTooShort | DescriptionTooShort

  datatype PublishOutcome = Published(job: Job) | NotPublished(problem: JobFormProblem)

  // ------------------------------------------------------------- stats

  predicate IsActive(j: Job) {
    j.status == Active
  }

  /** The "active" card: how many of the employer's jobs are active. */
  function ActiveCount(mine: seq<Job>): (n: nat)
    ensures n <= |mine|
    ensures n == |mine| <==> forall i :: 0 <= i < |mine| ==> mine[i].status == Active
  {
    FilterKeepsAll(mine, IsActive);
    |Filter(mine, IsActive)|
  }

  function PostedAfter(t: int): Job -> bool {
    (j: Job) => j.createdAt > t
  }

  /** The "new this week" card: jobs created less than seven days before `now`. */
  function NewThisWeek(jobs: seq<Job>, now: int): (n: nat)
    ensures n <= |jobs|
    ensures n == |jobs| <==> forall i :: 0 <= i < |jobs| ==> jobs[i].createdAt > now - WeekMs
    ensures n == 0 <==> forall i :: 0 <= i < |jobs| ==> jobs[i].createdAt <= now - WeekMs
  {
    FilterKeepsAll(jobs, PostedAfter(now - WeekMs));
    var r := Filter(jobs, PostedAfter(now - WeekMs));
    assert r != [] ==> r[0] in jobs;
    |r|
  }

  // ---------------------------------------------------------- listings

  /** The employer's job cards: each job with the number of applications to it. */
  function EmployerRows(mine: seq<Job>, apps: seq<Application>): (rows: seq<(Job, nat)>)
    ensures |rows| == |mine|
    ensures forall k :: 0 <= k < |rows| ==> rows[k].0 == mine[k] && rows[k].1 == |GetApplicationsByJob(apps, mine[k].id)|
  {
    seq(|mine|, k requires 0 <= k < |mine| => (mine[k], |GetApplicationsByJob(apps, mine[k].id)|))
  }

  /** The sum of the counts on the job cards. */
  function TotalCount(rows: seq<(Job, nat)>): nat {
    if rows == [] then 0 else TotalCount(rows[..|rows| - 1]) + rows[|rows| - 1].1
  }

  function JobExistsFor(jobs: seq<Job>): Application -> bool {
    (a: Application) => GetJobById(jobs, a.jobId).Some?
  }

  /**
   * The applicant's application cards: each application whose job is still
   * stored, with that job, in the order of the applications; the others are
   * skipped without a trace.
   */
  function ApplicantRows(apps: seq<Application>, jobs: seq<Job>): (rows: seq<(Application, Job)>)
    ensures |rows| <= |apps|
    ensures forall k :: 0 <= k < |rows| ==> GetJobById(jobs, rows[k].0.jobId) == Some(rows[k].1)
  {
    if apps == [] then []
    else
      var job := GetJobById(jobs, apps[0].jobId);
      var rest := ApplicantRows(apps[1..], jobs);
      if job.Some? then
        var rows := [(apps[0], job.value)] + rest;
        assert forall k :: 1 <= k < |rows| ==> rows[k] == rest[k - 1];
        rows
      else
        rest
  }

  /** The applications a listing shows, in its order. */
  function Shown(rows: seq<(Application, Job)>): (shown: seq<Application>)
    ensures |shown| == |rows| && forall k :: 0 <= k < |rows| ==> shown[k] == rows[k].0
  {
    seq(|rows|, k requires 0 <= k < |rows| => rows[k].0)
  }

  /** The listing shows exactly the applications whose job is still stored, in stored order. */
  lemma {:induction false} ApplicantRowsAreFilter(apps: seq<Application>, jobs: seq<Job>)
    ensures Shown(ApplicantRows(apps, jobs)) == Filter(apps, JobExistsFor(jobs))
  {
    if apps != [] {
      var p := JobExistsFor(jobs);
      ApplicantRowsAreFilter(apps[1..], jobs);
      var rest := ApplicantRows(apps[1..], jobs);
      var job := GetJobById(jobs, apps[0].jobId);
      assert Filter(apps, p) == (if p(apps[0]) then [apps[0]] else []) + Filter(apps[1..], p);
      if job.Some? {
        assert ApplicantRows(apps, jobs) == [(apps[0], job.value)] + rest;
        assert Shown([(apps[0], job.value)] + rest) == [apps[0]] + Shown(rest);
      } else {
        assert ApplicantRows(apps, jobs) == rest;
      }
    }
  }

  /**
   * The employer panel for `user`: one card per own job, in stored order, each
   * with the applications to it; the stat cards count the own jobs, the
   * applications to any of them, and the active ones.
   */
  function EmployerDashboard(jobs: seq<Job>, apps: seq<Application>, user: User): (v: View)
    ensures v.EmployerPanel? && |v.postings| == v.employerStats.published
    ensures v.employerStats.published == |GetJobsByEmployer(jobs, user.id)|
    ensures forall k :: 0 <= k < |v.postings| ==>
              && v.postings[k].0 == GetJobsByEmployer(jobs, user.id)[k]
              && v.postings[k].0 in jobs && v.postings[k].0.employerId == user.id
              && v.postings[k].1 == |GetApplicationsByJob(apps, v.postings[k].0.id)|
    ensures forall i :: 0 <= i < |jobs| && jobs[i].employerId == user.id ==>
              exists k :: 0 <= k < |v.postings| && v.postings[k].0 == jobs[i]
    ensures v.employerStats.received == |GetApplicationsByEmployer(jobs, apps, user.id)|
    ensures v.employerStats.active == ActiveCount(GetJobsByEmployer(jobs, user.id))
    ensures v.employerStats.active <= v.employerStats.published
  {
    var mine := GetJobsByEmployer(jobs, user.id);
    var rows := EmployerRows(mine, apps);
    assert forall i :: 0 <= i < |jobs| && jobs[i].employerId == user.id ==>
      exists k :: 0 <= k < |rows| && rows[k].0 == jobs[i] by {
      forall i | 0 <= i < |jobs| && jobs[i].employerId == user.id
        ensures exists k :: 0 <= k < |rows| && rows[k].0 == jobs[i]
      {
        var k :| 0 <= k < |mine| && mine[k] == jobs[i];
        assert rows[k].0 == jobs[i];
      }
    }
    EmployerPanel(EmployerStats(|mine|, |GetApplicationsByEmployer(jobs, apps, user.id)|, ActiveCount(mine)), rows)
  }

  /**
   * The applicant panel for `user`; `now` is the moment the week is counted
   * back from. The cards are the user's applications whose job is still
   * stored, in stored order, each with that job.
   */
  function ApplicantDashboard(jobs: seq<Job>, apps: seq<Application>, user: User, now: int): (v: View)
    ensures v.ApplicantPanel? && v.applicantStats.available == |jobs|
    ensures v.applicantStats.sent == |GetApplicationsByApplicant(apps, user.id)|
    ensures v.applicantStats.newThisWeek == NewThisWeek(jobs, now)
    ensures v.applicantStats.newThisWeek <= v.applicantStats.available
    ensures |v.sentApplications| <= v.applicantStats.sent
    ensures Shown(v.sentApplications) == Filter(GetApplicationsByApplicant(apps, user.id), JobExistsFor(jobs))
    ensures forall k :: 0 <= k < |v.sentApplications| ==>
              && v.sentApplications[k].0 in apps && v.sentApplications[k].0.applicantId == user.id
              && GetJobById(jobs, v.sentApplications[k].0.jobId) == Some(v.sentApplications[k].1)
  {
    var mine := GetApplicationsByApplicant(apps, user.id);
    var rows := ApplicantRows(mine, jobs);
    ApplicantRowsAreFilter(mine, jobs);
    assert forall k :: 0 <= k < |rows| ==> rows[k].0 in mine by {
      forall k | 0 <= k < |rows| ensures rows[k].0 in mine {
        assert Shown(rows)[k] == rows[k].0;
        assert Shown(rows)[k] in Filter(mine, JobExistsFor(jobs));
      }
    }
    ApplicantPanel(ApplicantStats(|mine|, |jobs|, NewThisWeek(jobs, now)), rows)
  }

  // ------------------------------------------------------------ lemmas

  /** Every application is listed exactly when none of them points at a job that is gone. */
  lemma {:induction false} ApplicantRowsComplete(apps: seq<Application>, jobs: seq<Job>)
    ensures |ApplicantRows(apps, jobs)| == |apps| <==>
            forall i :: 0 <= i < |apps| ==> exists k :: 0 <= k < |jobs| && jobs[k].id == apps[i].jobId
  {
    ApplicantRowsAreFilter(apps, jobs);
    FilterKeepsAll(apps, JobExistsFor(jobs));
  }

  /** After a job is deleted, no application card shows it, though its applications are still stored. */
  lemma DeletedJobNotListed(apps: seq<Application>, jobs: seq<Job>, jobId: string)
    ensures var rows := ApplicantRows(apps, JobsWithoutId(jobs, jobId));
      forall k :: 0 <= k < |rows| ==> rows[k].0.jobId != jobId && rows[k].1.id != jobId
  {
  }

  /** Filtering keeps ids distinct. */
  lemma {:induction false} FilterKeepsUniqueIds(jobs: seq<Job>, p: Job -> bool)
    requires UniqueJobIds(jobs)
    ensures UniqueJobIds(Filter(jobs, p))
  {
    if jobs != [] {
      var rest := jobs[1..];
      assert UniqueJobIds(rest) by {
        forall i, j | 0 <= i < j < |rest| ensures rest[i].id != rest[j].id {
          assert rest[i] == jobs[i + 1] && rest[j] == jobs[j + 1];
        }
      }
      FilterKeepsUniqueIds(rest, p);
      var tail := Filter(rest, p);
      forall k | 0 <= k < |tail| ensures tail[k].id != jobs[0].id {
        var m :| 0 <= m < |rest| && rest[m] == tail[k];
        assert rest[m] == jobs[m + 1];
      }
      var r := Filter(jobs, p);
      if p(jobs[0]) {
        assert r == [jobs[0]] + tail;
        forall i, j | 0 <= i < j < |r| ensures r[i].id != r[j].id {
          assert r[j] == tail[j - 1];
          if i > 0 {
            assert r[i] == tail[i - 1];
          }
        }
      } else {
        assert r == tail;
      }
    }
  }

  /** With distinct ids, the job cards' counts add up to the applications whose job is among them. */
  lemma {:induction false} RowCountsAddUp(mine: seq<Job>, apps: seq<Application>)
    requires UniqueJobIds(mine)
    ensures TotalCount(EmployerRows(mine, apps)) == |Filter(apps, JobIdIn(JobIds(mine)))|
  {
    if mine == [] {
      assert EmployerRows(mine, apps) == [];
      assert JobIds(mine) == [];
      FilterNone(apps, JobIdIn([]));
    } else {
      var n := |mine| - 1;
      var init, last := mine[..n], mine[n];
      assert UniqueJobIds(init) by {
        forall i, j | 0 <= i < j < |init| ensures init[i].id != init[j].id {
          assert init[i] == mine[i] && init[j] == mine[j];
        }
      }
      RowCountsAddUp(init, apps);
      var rows := EmployerRows(mine, apps);
      assert rows[..n] == EmployerRows(init, apps);
      assert JobIds(mine) == JobIds(init) + [last.id];
      forall x | x in JobIds(init) ensures x != last.id {
        var i :| 0 <= i < n && JobIds(init)[i] == x;
        assert init[i] == mine[i];
      }
      FilterSplit(apps, JobIdIn(JobIds(init)), ForJob(last.id), JobIdIn(JobIds(mine)));
    }
  }

  /**
   * When job ids are distinct, the counts on an employer's job cards add up
   * to the "applications" card.
   */
  lemma EmployerCountsAddUp(jobs: seq<Job>, apps: seq<Application>, user: User)
    requires UniqueJobIds(jobs)
    ensures var v := EmployerDashboard(jobs, apps, user);
      TotalCount(v.postings) == v.employerStats.received
  {
    var mine := GetJobsByEmployer(jobs, user.id);
    FilterKeepsUniqueIds(jobs, PostedBy(user.id));
    RowCountsAddUp(mine, apps);
  }

  // ---------------------------------------------------------- job form

  /** The first check of `handleJobSubmit` that fails, or `None`. */
  function JobFormError(form: JobForm): (r: Option<JobFormProblem>)
    ensures r.None? <==> Utf16Length(form.title) >= 5 && Utf16Length(form.description) >= 20
    ensures r == Some(TitleTooShort) <==> Utf16Length(form.title) < 5
  {
    if form.title == "" || Utf16Length(form.title) < 5 then Some(TitleTooShort)
    else if form.description == "" || Utf16Length(form.description) < 20 then Some(DescriptionTooShort)
    else None
  }

  /** The record `handleJobSubmit` hands to `createJob`: the form plus the poster's id, name and company. */
  function JobRequest(form: JobForm, user: User): JobData {
    JobData(None, form.title, form.description, form.category, form.location, form.salary, form.jobType,
            form.requirements, user.id, user.name, user.company, None, None)
  }

  /** A published job is the employer's last job, and one more active job. */
  lemma PublishedJobCounts(jobs: seq<Job>, user: User, form: JobForm, freshId: string, now: int)
    ensures var j := NewJob(JobRequest(form, user), freshId, now);
      && GetJobsByEmployer(jobs + [j], user.id) == GetJobsByEmployer(jobs, user.id) + [j]
      && ActiveCount(GetJobsByEmployer(jobs + [j], user.id)) == ActiveCount(GetJobsByEmployer(jobs, user.id)) + 1
  {
    var j := NewJob(JobRequest(form, user), freshId, now);
    FilterSnoc(jobs, j, PostedBy(user.id));
    FilterSnoc(GetJobsByEmployer(jobs, user.id), j, IsActive);
  }

  // -------------------------------------------------------- controller

  /** `DashboardController` over the shared store. */
  class DashboardController {
    var currentUser: Option<User>
    var view: View
    const store: StorageManager

    constructor (store: StorageManager)
      ensures this.store == store && currentUser.None? && view == NotLoaded
    {
      this.store := store;
      currentUser := None;
      view := NotLoaded;
    }

    /**
     * `init`: without a session nothing is loaded; otherwise the session is
     * cached and the employer panel is loaded for an employer, the applicant
     * panel for anyone else.
     */
    method Init(now: int)
      modifies this
      ensures store.currentUser.None? ==> currentUser == old(currentUser) && view == old(view)
      ensures store.currentUser.Some? ==> currentUser == store.currentUser
      ensures store.currentUser.Some? ==>
        view == if store.currentUser.value.userType == Employer
                then EmployerDashboard(store.jobs, store.applications, store.currentUser.value)
                else ApplicantDashboard(store.jobs, store.applications, store.currentUser.value, now)
    {
      if !RequireAuth(store) {
        return;
      }
      currentUser := store.currentUser;
      if currentUser.value.userType == Employer {
        LoadEmployerDashboard();
      } else {
        LoadApplicantDashboard(now);
      }
    }

    /** `loadEmployerDashboard`. */
    method LoadEmployerDashboard()
      requires currentUser.Some?
      modifies this
      ensures currentUser == old(currentUser)
      ensures view == EmployerDashboard(store.jobs, store.applications, currentUser.value)
    {
      view := EmployerDashboard(store.jobs, store.applications, currentUser.value);
    }

    /** `loadApplicantDashboard`. */
    method LoadApplicantDashboard(now: int)
      requires currentUser.Some?
      modifies this
      ensures currentUser == old(currentUser)
      ensures view == ApplicantDashboard(store.jobs, store.applications, currentUser.value, now)
    {
      view := ApplicantDashboard(store.jobs, store.applications, currentUser.value, now);
    }

    /**
     * `handleJobSubmit`: a title of at least 5 and a description of at least
     * 20 characters publish one active job signed with the session's id, name
     * and company, and reload the employer panel; otherwise nothing changes.
     */
    method HandleJobSubmit(form: JobForm, freshId: string, now: int) returns (outcome: PublishOutcome)
      requires currentUser.Some?
      modifies this, store
      ensures currentUser == old(currentUser)
      ensures var problem := JobFormError(form);
        && (problem.Some? ==> outcome == NotPublished(problem.value) && store.jobs == old(store.jobs) && view == old(view))
        && (problem.None? ==>
              && outcome == Published(NewJob(JobRequest(form, currentUser.value), freshId, now))
              && store.jobs == old(store.jobs) + [outcome.job]
              && view == EmployerDashboard(store.jobs, store.applications, currentUser.value))
      ensures outcome.Published? ==>
        && outcome.job.employerId == currentUser.value.id && outcome.job.employerName == currentUser.value.name
        && outcome.job.company == currentUser.value.company && outcome.job.status == Active
      ensures store.users == old(store.users) && store.applications == old(store.applications)
      ensures store.currentUser == old(store.currentUser)
    {
      var problem := JobFormError(form);
      if problem.Some? {
        return NotPublished(problem.value);
      }
      var job := store.CreateJob(JobRequest(form, currentUser.value), freshId, now);
      LoadEmployerDashboard();
      outcome := Published(job);
    }

    /**
     * `deleteJob`: only when confirmed, removes every job with this id and,
     * if one was there, reloads the employer panel.
     */
    method DeleteJob(jobId: string, confirmed: bool) returns (deleted: bool)
      requires currentUser.Some?
      modifies this, store
      ensures currentUser == old(currentUser)
      ensures !confirmed ==> !deleted && store.jobs == old(store.jobs)
      ensures confirmed ==> store.jobs == JobsWithoutId(old(store.jobs), jobId)
      ensures deleted <==> confirmed && exists i :: 0 <= i < |old(store.jobs)| && old(store.jobs)[i].id == jobId
      ensures view == if deleted then EmployerDashboard(store.jobs, store.applications, currentUser.value) else old(view)
      ensures store.users == old(store.users) && store.applications == old(store.applications)
      ensures store.currentUser == old(store.currentUser)
    {
      deleted := false;
      if confirmed {
        deleted := store.DeleteJob(jobId);
        if deleted {
          LoadEmployerDashboard();
        }
      }
    }
  }
}
