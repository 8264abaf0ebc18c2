// The data layer of the board (js/storage.js): three ordered collections
// (users, jobs, applications) and the session slot, with creation by append,
// merge update, filter delete, linear-scan queries and the multi-filter search.
// The JSON/localStorage layer underneath is replaced by the fields themselves.

module Storage {
  import opened Seqs
  import opened Text

  const Employer := "employer"
  const Applicant := "applicant"
  const Active := "active"
  const Pending := "pending"

  datatype User = User(id: string, email: string, password: string, name: string,
                       userType: string, company: string, createdAt: int)

  /** What a caller hands to `createUser`: `id` may be supplied, `createdAt` is always replaced. */
  datatype UserData = UserData(id: Option<string>, email: string, password: string, name: string,
                               userType: string, company: string, createdAt: Option<int>)

  datatype Job = Job(id: string, title: string, description: string, category: string,
                     location: string, salary: string, jobType: string, requirements: string,
                     employerId: string, employerName: string, company: string,
                     status: string, createdAt: int)

  /** What a caller hands to `createJob`: `id` may be supplied, `status` and `createdAt` are always replaced. */
  datatype JobData = JobData(id: Option<string>, title: string, description: string, category: string,
                             location: string, salary: string, jobType: string, requirements: string,
                             employerId: string, employerName: string, company: string,
                             status: Option<string>, createdAt: Option<int>)

  /** The fields an `updateJob` call overwrites; absent fields keep their old value. */
  datatype JobPatch = JobPatch(id: Option<string>, title: Option<string>, description: Option<string>,
                               category: Option<string>, location: Option<string>, salary: Option<string>,
                               jobType: Option<string>, requirements: Option<string>,
                               employerId: Option<string>, employerName: Option<string>,
                               company: Option<string>, status: Option<string>, createdAt: Option<int>)

  datatype Application = Application(id: string, jobId: string, applicantId: string,
                                     applicantName: string, applicantEmail: string,
                                     status: string, createdAt: int)

  /** What a caller hands to `createApplication`: `id` may be supplied, `status` and `createdAt` are always replaced. */
  datatype ApplicationData = ApplicationData(id: Option<string>, jobId: string, applicantId: string,
                                             applicantName: string, applicantEmail: string,
                                             status: Option<string>, createdAt: Option<int>)

  /** Search filters; the empty string is an absent filter, as in the source's truthiness tests. */
  datatype Filters = Filters(query: string, category: string, jobType: string, location: string)

  // The records built by the object spreads `{ id, ...data, createdAt }` and
  // `{ id, ...data, status, createdAt }`: fields written after the spread win.

  /** One field after a spread: the value the spread object carries, if any, else the one before it. */
  predicate Spread<T(==)>(carried: Option<T>, before: T, after: T) {
    && (carried.Some? ==> after == carried.value)
    && (carried.None? ==> after == before)
  }

  /** `createUser`'s record: a caller-supplied id beats the fresh one, `createdAt` is always `now`. */
  function NewUser(d: UserData, freshId: string, now: int): (u: User)
    ensures Spread(d.id, freshId, u.id) && u.createdAt == now
    ensures u.email == d.email && u.password == d.password && u.name == d.name
    ensures u.userType == d.userType && u.company == d.company
  {
    User(d.id.GetOr(freshId), d.email, d.password, d.name, d.userType, d.company, now)
  }

  /** `createJob`'s record: a caller-supplied id beats the fresh one; status and `createdAt` are always overwritten. */
  function NewJob(d: JobData, freshId: string, now: int): (j: Job)
    ensures Spread(d.id, freshId, j.id) && j.status == Active && j.createdAt == now
    ensures j.title == d.title && j.description == d.description && j.category == d.category
    ensures j.location == d.location && j.salary == d.salary && j.jobType == d.jobType
    ensures j.requirements == d.requirements && j.employerId == d.employerId
    ensures j.employerName == d.employerName && j.company == d.company
  {
    Job(d.id.GetOr(freshId), d.title, d.description, d.category, d.location, d.salary, d.jobType,
        d.requirements, d.employerId, d.employerName, d.company, Active, now)
  }

  /** `createApplication`'s record: a caller-supplied id beats the fresh one; it is always 'pending' and dated `now`. */
  function NewApplication(d: ApplicationData, freshId: string, now: int): (a: Application)
    ensures Spread(d.id, freshId, a.id) && a.status == Pending && a.createdAt == now
    ensures a.jobId == d.jobId && a.applicantId == d.applicantId
    ensures a.applicantName == d.applicantName && a.applicantEmail == d.applicantEmail
  {
    Application(d.id.GetOr(freshId), d.jobId, d.applicantId, d.applicantName, d.applicantEmail, Pending, now)
  }

  /** `{ ...job, ...patch }`: each field the patch carries wins, every other field is the job's. */
  function Merge(j: Job, p: JobPatch): (r: Job)
    ensures Spread(p.id, j.id, r.id) && Spread(p.title, j.title, r.title)
    ensures Spread(p.description, j.description, r.description) && Spread(p.category, j.category, r.category)
    ensures Spread(p.location, j.location, r.location) && Spread(p.salary, j.salary, r.salary)
    ensures Spread(p.jobType, j.jobType, r.jobType) && Spread(p.requirements, j.requirements, r.requirements)
    ensures Spread(p.employerId, j.employerId, r.employerId)
    ensures Spread(p.employerName, j.employerName, r.employerName) && Spread(p.company, j.company, r.company)
    ensures Spread(p.status, j.status, r.status) && Spread(p.createdAt, j.createdAt, r.createdAt)
  {
    Job(p.id.GetOr(j.id), p.title.GetOr(j.title), p.description.GetOr(j.description),
        p.category.GetOr(j.category), p.location.GetOr(j.location), p.salary.GetOr(j.salary),
        p.jobType.GetOr(j.jobType), p.requirements.GetOr(j.requirements),
        p.employerId.GetOr(j.employerId), p.employerName.GetOr(j.employerName),
        p.company.GetOr(j.company), p.status.GetOr(j.status), p.createdAt.GetOr(j.createdAt))
  }

  /** The patch that carries no field. */
  const EmptyPatch := JobPatch(None, None, None, None, None, None, None, None, None, None, None, None, None)

  /** Spreading an empty patch copies the job. */
  lemma MergeEmpty(j: Job)
    ensures Merge(j, EmptyPatch) == j
  {
  }

  /** Applying the same patch twice is applying it once. */
  lemma MergeTwice(j: Job, p: JobPatch)
    ensures Merge(Merge(j, p), p) == Merge(j, p)
  {
  }

  // ---------------------------------------------------------------- users

  function EmailIs(email: string): User -> bool {
    (u: User) => u.email == email
  }

  /** `findUserByEmail`: the first user whose email equals `email` exactly. */
  function FindUserByEmail(users: seq<User>, email: string): (r: Option<User>)
    ensures r.None? <==> forall i :: 0 <= i < |users| ==> users[i].email != email
    ensures r.Some? ==> exists i :: 0 <= i < |users| && users[i] == r.value && r.value.email == email
                                    && forall k :: 0 <= k < i ==> users[k].email != email
  {
    Find(users, EmailIs(email))
  }

  /** `validateCredentials`: the first user with exactly this email and password. */
  function ValidateCredentials(users: seq<User>, email: string, password: string): (r: Option<User>)
    ensures r.None? <==> forall i :: 0 <= i < |users| ==> !(users[i].email == email && users[i].password == password)
    ensures r.Some? ==> exists i :: 0 <= i < |users| && users[i] == r.value
                                    && r.value.email == email && r.value.password == password
                                    && forall k :: 0 <= k < i ==> !(users[k].email == email && users[k].password == password)
  {
    Find(users, (u: User) => u.email == email && u.password == password)
  }

  /** Every user has a different email. */
  ghost predicate UniqueEmails(users: seq<User>) {
    forall i, j :: 0 <= i < j < |users| ==> users[i].email != users[j].email
  }

  /** A user created under an email no one has is what `findUserByEmail` then returns. */
  lemma CreatedUserIsFound(users: seq<User>, d: UserData, freshId: string, now: int)
    requires FindUserByEmail(users, d.email).None?
    ensures FindUserByEmail(users + [NewUser(d, freshId, now)], d.email) == Some(NewUser(d, freshId, now))
  {
    FindConcat(users, [NewUser(d, freshId, now)], EmailIs(d.email));
  }

  // ----------------------------------------------------------------- jobs

  function JobHasId(id: string): Job -> bool {
    (j: Job) => j.id == id
  }

  function JobLacksId(id: string): Job -> bool {
    (j: Job) => j.id != id
  }

  /** `getJobById`: the first job with this id. */
  function GetJobById(jobs: seq<Job>, id: string): (r: Option<Job>)
    ensures r.None? <==> forall i :: 0 <= i < |jobs| ==> jobs[i].id != id
    ensures r.Some? ==> exists i :: 0 <= i < |jobs| && jobs[i] == r.value && r.value.id == id
                                    && forall k :: 0 <= k < i ==> jobs[k].id != id
  {
    Find(jobs, JobHasId(id))
  }

  /** The filter inside `deleteJob`: every job whose id differs, in stored order. */
  function JobsWithoutId(jobs: seq<Job>, id: string): (r: seq<Job>)
    ensures forall i :: 0 <= i < |r| ==> r[i].id != id && r[i] in jobs
    ensures forall i :: 0 <= i < |jobs| && jobs[i].id != id ==> jobs[i] in r
    ensures |r| == |jobs| <==> forall i :: 0 <= i < |jobs| ==> jobs[i].id != id
    ensures (forall i :: 0 <= i < |jobs| ==> jobs[i].id != id) ==> r == jobs
  {
    FilterKeepsAll(jobs, JobLacksId(id));
    Filter(jobs, JobLacksId(id))
  }

  /** Every job has a different id. */
  ghost predicate UniqueJobIds(jobs: seq<Job>) {
    forall i, j :: 0 <= i < j < |jobs| ==> jobs[i].id != jobs[j].id
  }

  /** With distinct ids, deleting an existing id removes exactly one job. */
  lemma {:induction false} DeleteUniqueRemovesOne(jobs: seq<Job>, id: string)
    requires UniqueJobIds(jobs)
    requires exists i :: 0 <= i < |jobs| && jobs[i].id == id
    ensures |JobsWithoutId(jobs, id)| == |jobs| - 1
  {
    if jobs[0].id == id {
      assert forall i :: 0 <= i < |jobs[1..]| ==> jobs[1..][i].id != id by {
        forall i | 0 <= i < |jobs[1..]| ensures jobs[1..][i].id != id {
          assert jobs[1..][i] == jobs[i + 1];
        }
      }
      assert JobsWithoutId(jobs, id) == JobsWithoutId(jobs[1..], id);
    } else {
      var i :| 0 <= i < |jobs| && jobs[i].id == id;
      assert jobs[1..][i - 1].id == id;
      DeleteUniqueRemovesOne(jobs[1..], id);
      assert JobsWithoutId(jobs, id) == [jobs[0]] + JobsWithoutId(jobs[1..], id);
    }
  }

  /** A job created under an id no job has is what `getJobById` then returns, and it is active. */
  lemma CreatedJobIsFound(jobs: seq<Job>, d: JobData, freshId: string, now: int)
    requires GetJobById(jobs, NewJob(d, freshId, now).id).None?
    ensures GetJobById(jobs + [NewJob(d, freshId, now)], NewJob(d, freshId, now).id) == Some(NewJob(d, freshId, now))
    ensures NewJob(d, freshId, now).status == Active
  {
    var j := NewJob(d, freshId, now);
    FindConcat(jobs, [j], JobHasId(j.id));
  }

  function PostedBy(employerId: string): Job -> bool {
    (j: Job) => j.employerId == employerId
  }

  /** Deleting a job just created under an id no other job has gives back the jobs as they were. */
  lemma DeleteUndoesCreate(jobs: seq<Job>, d: JobData, freshId: string, now: int)
    requires forall i :: 0 <= i < |jobs| ==> jobs[i].id != NewJob(d, freshId, now).id
    ensures JobsWithoutId(jobs + [NewJob(d, freshId, now)], NewJob(d, freshId, now).id) == jobs
  {
    var j := NewJob(d, freshId, now);
    FilterConcat(jobs, [j], JobLacksId(j.id));
    assert [j][1..] == [];
    assert JobsWithoutId(jobs, j.id) == jobs;
  }

  /** After `updateJob` merges a patch that keeps the id, `getJobById` finds the merged job. */
  lemma UpdatedJobIsFound(jobs: seq<Job>, id: string, patch: JobPatch)
    requires patch.id.None? || patch.id == Some(id)
    ensures var i := FindIndex(jobs, JobHasId(id));
      0 <= i ==> GetJobById(jobs[i := Merge(jobs[i], patch)], id) == Some(Merge(jobs[i], patch))
  {
    var i := FindIndex(jobs, JobHasId(id));
    if 0 <= i {
      var updated := jobs[i := Merge(jobs[i], patch)];
      assert forall k :: 0 <= k < i ==> updated[k] == jobs[k];
      assert JobHasId(id)(updated[i]);
    }
  }

  /** `getJobsByEmployer`: the jobs posted by `employerId`, in stored order. */
  function GetJobsByEmployer(jobs: seq<Job>, employerId: string): (r: seq<Job>)
    ensures forall i :: 0 <= i < |r| ==> r[i] in jobs && r[i].employerId == employerId
    ensures forall i :: 0 <= i < |jobs| && jobs[i].employerId == employerId ==> jobs[i] in r
  {
    Filter(jobs, PostedBy(employerId))
  }

  // --------------------------------------------------------------- search

  /** The query test: `q` (already lower-cased) occurs in the lower-cased title, description or company. */
  function MatchesQuery(q: string): Job -> bool {
    (j: Job) => Includes(ToLower(j.title), q) || Includes(ToLower(j.description), q) || Includes(ToLower(j.company), q)
  }

  function HasCategory(c: string): Job -> bool {
    (j: Job) => j.category == c
  }

  function HasType(t: string): Job -> bool {
    (j: Job) => j.jobType == t
  }

  function MatchesLocation(l: string): Job -> bool {
    (j: Job) => Includes(ToLower(j.location), l)
  }

  /** `searchJobs`: the four filters applied one after the other, each only when set. */
  function SearchJobs(jobs: seq<Job>, f: Filters): (r: seq<Job>)
    ensures |r| <= |jobs|
    ensures forall i :: 0 <= i < |r| ==> r[i] in jobs && Matches(f, r[i])
  {
    var byQuery := if f.query != "" then Filter(jobs, MatchesQuery(ToLower(f.query))) else jobs;
    var byCategory := if f.category != "" then Filter(byQuery, HasCategory(f.category)) else byQuery;
    var byType := if f.jobType != "" then Filter(byCategory, HasType(f.jobType)) else byCategory;
    if f.location != "" then Filter(byType, MatchesLocation(ToLower(f.location))) else byType
  }

  /** A job passes every filter that is set (logical AND; an empty filter does not restrict). */
  predicate Matches(f: Filters, j: Job) {
    && (f.query == "" || MatchesQuery(ToLower(f.query))(j))
    && (f.category == "" || HasCategory(f.category)(j))
    && (f.jobType == "" || HasType(f.jobType)(j))
    && (f.location == "" || MatchesLocation(ToLower(f.location))(j))
  }

  function MatchesAll(f: Filters): Job -> bool {
    (j: Job) => Matches(f, j)
  }

  /** The chain of filters is a single order-preserving filter by the conjunction of the set filters. */
  lemma SearchJobsIsOneFilter(jobs: seq<Job>, f: Filters)
    ensures SearchJobs(jobs, f) == Filter(jobs, MatchesAll(f))
  {
    var p1: Job -> bool := (j: Job) => f.query == "" || MatchesQuery(ToLower(f.query))(j);
    var p12: Job -> bool := (j: Job) => p1(j) && (f.category == "" || HasCategory(f.category)(j));
    var p123: Job -> bool := (j: Job) => p12(j) && (f.jobType == "" || HasType(f.jobType)(j));
    var p1234: Job -> bool := (j: Job) => p123(j) && (f.location == "" || MatchesLocation(ToLower(f.location))(j));
    FilterWhen(jobs, f.query != "", MatchesQuery(ToLower(f.query)), p1);
    FilterThenWhen(jobs, p1, f.category != "", HasCategory(f.category), p12);
    FilterThenWhen(jobs, p12, f.jobType != "", HasType(f.jobType), p123);
    FilterThenWhen(jobs, p123, f.location != "", MatchesLocation(ToLower(f.location)), p1234);
    forall j ensures p1234(j) == MatchesAll(f)(j) {
    }
    FilterSame(jobs, p1234, MatchesAll(f));
  }

  /** `searchJobs` returns exactly the stored jobs that pass every set filter, and no more than there are. */
  lemma SearchJobsMembers(jobs: seq<Job>, f: Filters)
    ensures |SearchJobs(jobs, f)| <= |jobs|
    ensures forall j :: j in SearchJobs(jobs, f) <==> j in jobs && Matches(f, j)
  {
    SearchJobsIsOneFilter(jobs, f);
    var r := SearchJobs(jobs, f);
    forall j ensures j in r <==> j in jobs && Matches(f, j) {
      if j in r {
        var i :| 0 <= i < |r| && r[i] == j;
      }
      if j in jobs && Matches(f, j) {
        var i :| 0 <= i < |jobs| && jobs[i] == j;
      }
    }
  }

  /** With every filter empty the search returns all jobs, in stored order. */
  lemma SearchWithoutFiltersIsAll(jobs: seq<Job>)
    ensures SearchJobs(jobs, Filters("", "", "", "")) == jobs
  {
  }

  /** The query and location filters ignore ASCII case: queries that lower-case alike give the same result. */
  lemma SearchIgnoresCase(jobs: seq<Job>, f: Filters, query: string, location: string)
    requires ToLower(query) == ToLower(f.query) && ToLower(location) == ToLower(f.location)
    ensures SearchJobs(jobs, f.(query := query, location := location)) == SearchJobs(jobs, f)
  {
    assert (query == "") == (f.query == "") by {
      assert |ToLower(query)| == |query| && |ToLower(f.query)| == |f.query|;
    }
    assert (location == "") == (f.location == "") by {
      assert |ToLower(location)| == |location| && |ToLower(f.location)| == |f.location|;
    }
  }

  // --------------------------------------------------------- applications

  /** `hasApplied`: some application pairs this job with this applicant. */
  function HasApplied(apps: seq<Application>, jobId: string, applicantId: string): (r: bool)
    ensures r <==> exists i :: 0 <= i < |apps| && apps[i].jobId == jobId && apps[i].applicantId == applicantId
  {
    Any(apps, (a: Application) => a.jobId == jobId && a.applicantId == applicantId)
  }

  /** After `createApplication` the pair it names has applied. */
  lemma AppliedAfterCreate(apps: seq<Application>, d: ApplicationData, freshId: string, now: int)
    ensures HasApplied(apps + [NewApplication(d, freshId, now)], d.jobId, d.applicantId)
    ensures NewApplication(d, freshId, now).status == Pending
  {
    var all := apps + [NewApplication(d, freshId, now)];
    assert all[|apps|].jobId == d.jobId && all[|apps|].applicantId == d.applicantId;
  }

  /** At most one application per (job, applicant) pair. */
  ghost predicate UniqueApplications(apps: seq<Application>) {
    forall i, j :: 0 <= i < j < |apps| ==> !(apps[i].jobId == apps[j].jobId && apps[i].applicantId == apps[j].applicantId)
  }

  function SentBy(applicantId: string): Application -> bool {
    (a: Application) => a.applicantId == applicantId
  }

  function ForJob(jobId: string): Application -> bool {
    (a: Application) => a.jobId == jobId
  }

  /** `getApplicationsByApplicant`. */
  function GetApplicationsByApplicant(apps: seq<Application>, applicantId: string): (r: seq<Application>)
    ensures forall i :: 0 <= i < |r| ==> r[i] in apps && r[i].applicantId == applicantId
    ensures forall i :: 0 <= i < |apps| && apps[i].applicantId == applicantId ==> apps[i] in r
  {
    Filter(apps, SentBy(applicantId))
  }

  /** `getApplicationsByJob`. */
  function GetApplicationsByJob(apps: seq<Application>, jobId: string): (r: seq<Application>)
    ensures forall i :: 0 <= i < |r| ==> r[i] in apps && r[i].jobId == jobId
    ensures forall i :: 0 <= i < |apps| && apps[i].jobId == jobId ==> apps[i] in r
  {
    Filter(apps, ForJob(jobId))
  }

  /** Some job with this id was posted by `employerId`. */
  ghost predicate OwnedBy(jobs: seq<Job>, employerId: string, jobId: string) {
    exists k :: 0 <= k < |jobs| && jobs[k].employerId == employerId && jobs[k].id == jobId
  }

  /** `jobs.map(j => j.id)`. */
  function JobIds(jobs: seq<Job>): (ids: seq<string>)
    ensures |ids| == |jobs| && forall i :: 0 <= i < |jobs| ==> ids[i] == jobs[i].id
  {
    seq(|jobs|, i requires 0 <= i < |jobs| => jobs[i].id)
  }

  function JobIdIn(ids: seq<string>): Application -> bool {
    (a: Application) => a.jobId in ids
  }

  /** `getApplicationsByEmployer`: the applications whose job id is among the employer's job ids. */
  function GetApplicationsByEmployer(jobs: seq<Job>, apps: seq<Application>, employerId: string): (r: seq<Application>)
    ensures forall i :: 0 <= i < |r| ==> r[i] in apps && OwnedBy(jobs, employerId, r[i].jobId)
    ensures forall i :: 0 <= i < |apps| && OwnedBy(jobs, employerId, apps[i].jobId) ==> apps[i] in r
  {
    var mine := GetJobsByEmployer(jobs, employerId);
    var jobIds := JobIds(mine);
    assert forall id :: id in jobIds <==> OwnedBy(jobs, employerId, id) by {
      forall id ensures id in jobIds <==> OwnedBy(jobs, employerId, id) {
        if id in jobIds {
          var i :| 0 <= i < |mine| && jobIds[i] == id;
          assert mine[i] in jobs;
        }
        if OwnedBy(jobs, employerId, id) {
          var k :| 0 <= k < |jobs| && jobs[k].employerId == employerId && jobs[k].id == id;
          assert jobs[k] in mine;
          var i :| 0 <= i < |mine| && mine[i] == jobs[k];
          assert jobIds[i] == id;
        }
      }
    }
    Filter(apps, JobIdIn(jobIds))
  }

  // ---------------------------------------------------------------- store

  /** `StorageManager`: the collections as they stand in the browser's storage. */
  class StorageManager {
    var users: seq<User>
    var jobs: seq<Job>
    var applications: seq<Application>
    var currentUser: Option<User>

    /** The store as a page finds it when it loads. */
    constructor (users: seq<User>, jobs: seq<Job>, applications: seq<Application>, currentUser: Option<User>)
      ensures this.users == users && this.jobs == jobs
      ensures this.applications == applications && this.currentUser == currentUser
    {
      this.users := users;
      this.jobs := jobs;
      this.applications := applications;
      this.currentUser := currentUser;
    }

    /** `isAuthenticated`: a session record is present. */
    function IsAuthenticated(): (r: bool)
      reads this
      ensures r <==> currentUser != None
    {
      currentUser.Some?
    }

    /** `createUser`: appends one user; the caller's `id` wins over the fresh one, `createdAt` is always `now`. */
    method CreateUser(data: UserData, freshId: string, now: int) returns (u: User)
      modifies this
      ensures users == old(users) + [u]
      ensures u.id == (if data.id.Some? then data.id.value else freshId) && u.createdAt == now
      ensures u.email == data.email && u.password == data.password && u.name == data.name
      ensures u.userType == data.userType && u.company == data.company
      ensures jobs == old(jobs) && applications == old(applications) && currentUser == old(currentUser)
    {
      u := NewUser(data, freshId, now);
      users := users + [u];
    }

    /** `setCurrentUser`. */
    method SetCurrentUser(user: User)
      modifies this
      ensures currentUser == Some(user)
      ensures users == old(users) && jobs == old(jobs) && applications == old(applications)
    {
      currentUser := Some(user);
    }

    /** `logout`: removes the session record. */
    method Logout()
      modifies this
      ensures currentUser == None && !IsAuthenticated()
      ensures users == old(users) && jobs == old(jobs) && applications == old(applications)
    {
      currentUser := None;
    }

    /** `createJob`: appends one job that is `'active'` whatever the caller says. */
    method CreateJob(data: JobData, freshId: string, now: int) returns (job: Job)
      modifies this
      ensures jobs == old(jobs) + [job] && |jobs| == |old(jobs)| + 1
      ensures job.status == Active && job.createdAt == now
      ensures job.id == (if data.id.Some? then data.id.value else freshId)
      ensures job.title == data.title && job.description == data.description && job.category == data.category
      ensures job.location == data.location && job.salary == data.salary && job.jobType == data.jobType
      ensures job.requirements == data.requirements && job.employerId == data.employerId
      ensures job.employerName == data.employerName && job.company == data.company
      ensures users == old(users) && applications == old(applications) && currentUser == old(currentUser)
    {
      job := NewJob(data, freshId, now);
      jobs := jobs + [job];
    }

    /** `updateJob`: merges `patch` into the first job with this id; no such job, no change. */
    method UpdateJob(id: string, patch: JobPatch) returns (r: Option<Job>)
      modifies this
      ensures r.None? <==> forall i :: 0 <= i < |old(jobs)| ==> old(jobs)[i].id != id
      ensures r.None? ==> jobs == old(jobs)
      ensures r.Some? ==> exists i :: 0 <= i < |old(jobs)| && old(jobs)[i].id == id
                                      && (forall k :: 0 <= k < i ==> old(jobs)[k].id != id)
                                      && jobs == old(jobs)[i := Merge(old(jobs)[i], patch)]
                                      && r.value == jobs[i]
      ensures |jobs| == |old(jobs)|
      ensures users == old(users) && applications == old(applications) && currentUser == old(currentUser)
    {
      var index := FindIndex(jobs, JobHasId(id));
      if index == -1 {
        return None;
      }
      jobs := jobs[index := Merge(jobs[index], patch)];
      r := Some(jobs[index]);
    }

    /** `deleteJob`: drops every job with this id; reports whether any was there. */
    method DeleteJob(id: string) returns (deleted: bool)
      modifies this
      ensures deleted <==> exists i :: 0 <= i < |old(jobs)| && old(jobs)[i].id == id
      ensures jobs == JobsWithoutId(old(jobs), id)
      ensures !deleted ==> jobs == old(jobs)
      ensures users == old(users) && applications == old(applications) && currentUser == old(currentUser)
    {
      var filtered := JobsWithoutId(jobs, id);
      if |filtered| == |jobs| {
        return false;
      }
      jobs := filtered;
      return true;
    }

    /** `createApplication`: appends one application that is `'pending'` whatever the caller says. */
    method CreateApplication(data: ApplicationData, freshId: string, now: int) returns (app: Application)
      modifies this
      ensures applications == old(applications) + [app]
      ensures app.status == Pending && app.createdAt == now
      ensures app.id == (if data.id.Some? then data.id.value else freshId)
      ensures app.jobId == data.jobId && app.applicantId == data.applicantId
      ensures app.applicantName == data.applicantName && app.applicantEmail == data.applicantEmail
      ensures HasApplied(applications, data.jobId, data.applicantId)
      ensures users == old(users) && jobs == old(jobs) && currentUser == old(currentUser)
    {
      app := NewApplication(data, freshId, now);
      AppliedAfterCreate(applications, data, freshId, now);
      applications := applications + [app];
    }

    /** `initTestUsers`: seeds the users only when there are none. */
    method InitTestUsers(seed: seq<User>)
      modifies this
      ensures users == if old(users) == [] then seed else old(users)
      ensures jobs == old(jobs) && applications == old(applications) && currentUser == old(currentUser)
    {
      if |users| == 0 {
        users := seed;
      }
    }

    /** `initSampleJobs`: seeds the jobs only when there are none. */
    method InitSampleJobs(seed: seq<Job>)
      modifies this
      ensures jobs == if old(jobs) == [] then seed else old(jobs)
      ensures users == old(users) && applications == old(applications) && currentUser == old(currentUser)
    {
      if |jobs| == 0 {
        jobs := seed;
      }
    }

    /** `initialize`: both seeds, each under its own emptiness guard. */
    method Initialize(seedUsers: seq<User>, seedJobs: seq<Job>)
      modifies this
      ensures users == if old(users) == [] then seedUsers else old(users)
      ensures jobs == if old(jobs) == [] then seedJobs else old(jobs)
      ensures applications == old(applications) && currentUser == old(currentUser)
    {
      InitTestUsers(seedUsers);
      InitSampleJobs(seedJobs);
    }

    /** `clearAll`: removes all four records. */
    method ClearAll()
      modifies this
      ensures users == [] && jobs == [] && applications == [] && currentUser == None
    {
      users := [];
      jobs := [];
      applications := [];
      currentUser := None;
    }
  }
}
