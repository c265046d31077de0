/** The webhook payload types the receiver reads (as decoded by the GitHub
    client library, every field a nilable pointer) and the receiver's own
    value types `LogLine`, `Repository` and `Run`, with the field mappings
    `mapRun` and `mapRepository` (model.go). */
module Model {
  import opened Wrappers

  const MinInt64: int := -0x8000_0000_0000_0000
  const MaxInt64: int := 0x7fff_ffff_ffff_ffff

  /** Go's `int64` (and `int`, which is 64 bits wide on the targets the
      receiver is built for). */
  type Int64 = x: int | MinInt64 <= x <= MaxInt64

  /** An instant (`time.Time`), kept opaque: the receiver only copies it. */
  datatype Time = Time(instant: int)

  // ---------------------------------------------------------------------
  // Payload types. `None` stands for a nil pointer.
  // ---------------------------------------------------------------------

  datatype User = User(login: Option<string>)

  datatype GitHubRepository = GitHubRepository(
    fullName: Option<string>,
    owner: Option<User>,
    name: Option<string>)

  datatype WorkflowJob = WorkflowJob(
    id: Option<Int64>,
    runID: Option<Int64>,
    runAttempt: Option<Int64>,
    runURL: Option<string>,
    status: Option<string>,
    conclusion: Option<string>,
    startedAt: Option<Time>,
    createdAt: Option<Time>,
    completedAt: Option<Time>,
    headBranch: Option<string>,
    workflowName: Option<string>)

  /** A check-run annotation; the positional fields are carried but never read. */
  datatype CheckRunAnnotation = CheckRunAnnotation(
    message: Option<string>,
    annotationLevel: Option<string>,
    path: Option<string>,
    startLine: Option<int>,
    endLine: Option<int>)

  // ---------------------------------------------------------------------
  // The client library's nil-safe getters: the zero value for nil.
  // ---------------------------------------------------------------------

  function GetString(p: Option<string>): string
  {
    if p.Some? then p.value else ""
  }

  function GetInt64(p: Option<Int64>): Int64
  {
    if p.Some? then p.value else 0
  }

  /** `repo.GetOwner().GetLogin()`: empty when the repository, its owner or the login is nil. */
  function OwnerLogin(repo: Option<GitHubRepository>): string
  {
    if repo.Some? && repo.value.owner.Some? then GetString(repo.value.owner.value.login) else ""
  }

  function RepoFullName(repo: Option<GitHubRepository>): string
  {
    if repo.Some? then GetString(repo.value.fullName) else ""
  }

  function RepoName(repo: Option<GitHubRepository>): string
  {
    if repo.Some? then GetString(repo.value.name) else ""
  }

  // ---------------------------------------------------------------------
  // The receiver's own types (model.go:9-32).
  // ---------------------------------------------------------------------

  datatype LogLine = LogLine(body: string, timestamp: Time, severityNumber: int, severityText: string)

  datatype Repository = Repository(fullName: string, org: string, name: string)

  datatype Run = Run(
    id: Int64,
    runAttempt: Int64,
    runStartedAt: Time,
    url: string,
    status: string,
    conclusion: string,
    createdAt: Time,
    completedAt: Time,
    headBranch: string)

  /** The pointers `mapRun` dereferences without a nil check; if one of them
      is nil, `mapRun` panics. */
  predicate MapRunDefined(job: WorkflowJob)
  {
    job.runID.Some? && job.runAttempt.Some? && job.runURL.Some? &&
    job.status.Some? && job.conclusion.Some? &&
    job.startedAt.Some? && job.createdAt.Some? && job.completedAt.Some?
  }

  /** mapRun: the run identity, the URL, status and conclusion are copied
      by dereference, the start time comes from `StartedAt`, and only the
      head branch goes through a nil-safe getter. */
  function MapRun(job: WorkflowJob): (r: Run)
    requires MapRunDefined(job)
    ensures r.id == job.runID.value && r.runAttempt == job.runAttempt.value
    ensures r.url == job.runURL.value && r.status == job.status.value && r.conclusion == job.conclusion.value
    ensures r.runStartedAt == job.startedAt.value
    ensures r.createdAt == job.createdAt.value && r.completedAt == job.completedAt.value
    ensures job.headBranch.None? ==> r.headBranch == ""
    ensures job.headBranch.Some? ==> r.headBranch == job.headBranch.value
  {
    Run(
      id := job.runID.value,
      runAttempt := job.runAttempt.value,
      url := job.runURL.value,
      status := job.status.value,
      conclusion := job.conclusion.value,
      runStartedAt := job.startedAt.value,
      createdAt := job.createdAt.value,
      completedAt := job.completedAt.value,
      headBranch := GetString(job.headBranch))
  }

  /** mapRepository: every field through a nil-safe getter, so a missing
      repository, owner or name yields empty strings rather than a panic. */
  function MapRepository(repo: Option<GitHubRepository>): (r: Repository)
    ensures repo.None? ==> r == Repository("", "", "")
    ensures repo.Some? && repo.value.fullName.Some? ==> r.fullName == repo.value.fullName.value
    ensures repo.Some? && repo.value.fullName.None? ==> r.fullName == ""
    ensures repo.Some? && repo.value.owner.Some? && repo.value.owner.value.login.Some? ==>
              r.org == repo.value.owner.value.login.value
    ensures (repo.Some? && repo.value.owner.Some? && repo.value.owner.value.login.Some?) || r.org == ""
    ensures repo.Some? && repo.value.name.Some? ==> r.name == repo.value.name.value
    ensures repo.Some? && repo.value.name.None? ==> r.name == ""
  {
    Repository(fullName := RepoFullName(repo), org := OwnerLogin(repo), name := RepoName(repo))
  }

  /** The fields of a job that `mapRun` does not read (the job's own id and
      the workflow name) have no influence on the run. */
  lemma MapRunIgnoresJobIdentity(a: WorkflowJob, b: WorkflowJob)
    requires MapRunDefined(a)
    requires b == a.(id := b.id, workflowName := b.workflowName)
    ensures MapRun(a) == MapRun(b)
  {
  }
}
