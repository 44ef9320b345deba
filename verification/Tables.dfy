/** The business schema (db/migrations/001_init.sql) as values, and the store whose
    columns the handlers update. Times are seconds; a transaction reads the clock once. */
module Tables {
  import opened Wrappers

  // ---- identifiers and hashes -------------------------------------------------------

  ghost predicate IsUuid(s: string) {
    |s| == 36 && forall i :: 0 <= i < |s| ==> s[i] in "0123456789abcdef-"
  }

  type Id = string

  /** SHA-256 over JSON is taken to be injective, so a hash is represented by what it hashes. */
  datatype EvidenceHash = EvidenceHash(report: Option<Report>)
  datatype ActionDigest = ActionDigest(target: string, title: string, body: string, evidence: EvidenceHash)
  datatype CallbackHash = CallbackHash(callback: Callback)

  // ---- rows -------------------------------------------------------------------------

  datatype Role = Investigator | Approver

  datatype Service = Service(team: string, repo: string, watermark: nat, enabled: bool)

  datatype Status =
    | Queued | Running | Completed | Partial | WaitingInformation | Failed | Cancelled
    | OtherStatus(text: string)

  datatype Report = Report(
    answerEvidence: seq<string>, evidence: seq<string>, facts: seq<seq<string>>, candidates: seq<seq<string>>)

  datatype Investigation = Investigation(
    team: string, service: string, subject: string, idem: string, requestHash: string, symptom: string,
    status: Status, report: Option<Report>, manifest: Option<string>, sourceVersion: nat, seqNo: nat)

  datatype JobState = JobQueued | JobRunning | JobDone | JobFailed | JobCancelled

  datatype Job = Job(
    state: JobState, owner: Option<string>, generation: nat, attempts: nat, leaseUntil: Option<int>,
    availableAt: int, lastError: string, lastCallback: Option<string>, resultHash: Option<CallbackHash>)
  {
    predicate Live(now: int) {
      state.JobRunning? && leaseUntil.Some? && leaseUntil.value > now
    }

    predicate LeaseFree(now: int) {
      leaseUntil.None? || leaseUntil.value < now
    }
  }

  datatype ActionState = Draft | Approved | Rejected | Executing | Unknown | Succeeded | Invalidated {
    /** An external request may already have left. */
    predicate Dispatched() {
      Executing? || Unknown? || Succeeded?
    }

    /** Still under human control. */
    predicate Pending() {
      Draft? || Approved? || Rejected?
    }
  }

  datatype ActionResult = NoResult | Verified(issue: nat) | Unresolved(marker: string)

  datatype Action = Action(
    id: Id, version: nat, state: ActionState, target: string, title: string, body: string,
    digest: ActionDigest, evidence: EvidenceHash, sourceVersion: nat,
    approvedBy: Option<string>, approvedDigest: Option<ActionDigest>, approvedVersion: Option<nat>,
    result: ActionResult, marker: string, updatedAt: int)

  datatype Approval = Approval(
    action: Id, version: nat, digest: ActionDigest, evidence: EvidenceHash, subject: string, approve: bool)

  datatype EventKind =
    | QueuedEvent | ClaimedEvent | ResultEvent | CancelledEvent | ResumedEvent | SandboxRequested | AuthorizedEvent
    | DraftSaved | ApprovedEvent | RejectedEvent | ApprovalInvalidated | ExecutingEvent | UnknownEvent
    | ActionFinished(succeeded: bool) | SourceInvalidated | WorkerEvent(kind: string)

  datatype Event = Event(kind: EventKind, contentRemoved: bool)

  /** A worker callback body; owner, generation and operation arguments together. */
  datatype Callback = Callback(
    owner: string, generation: nat, callbackId: string, kind: string, payload: string, status: Status,
    report: Option<Report>, reportSize: nat, manifest: string, tool: string)

  // ---- the database -----------------------------------------------------------------

  /** The rows that belong to one investigation: its own row, its job (same primary key), its events by
      number, its action (the investigation is unique there) and the approvals of that action. */
  datatype Task = Task(
    inv: Investigation, job: Job, log: map<int, Event>, action: Option<Action>, approvals: seq<Approval>)
  {
    /** Append one event: bump the investigation's counter and insert under the new number. */
    function WithEvent(kind: EventKind): Task {
      var n := inv.seqNo + 1;
      this.(inv := inv.(seqNo := n), log := log[n := Event(kind, false)])
    }
  }

  datatype Db = Db(
    members: map<(string, string), Role>,
    services: map<string, Service>,
    idems: map<(string, string), Id>,          // the unique index on investigations(subject, idem)
    tasks: map<Id, Task>)
  {
    /** What the foreign keys enforce. */
    ghost predicate Valid() {
      && (forall id :: id in tasks ==> tasks[id].inv.service in services)
      && (forall k :: k in idems ==> idems[k] in tasks)
    }

    predicate Member(subject: string, team: string, approve: bool) {
      && (subject, team) in members
      && (approve ==> members[(subject, team)].Approver?)
    }

    function ServiceOf(id: Id): Service
      requires id in tasks && tasks[id].inv.service in services
    {
      services[tasks[id].inv.service]
    }

    function WithTask(id: Id, t: Task): Db {
      this.(tasks := tasks[id := t])
    }
  }

  datatype Error =
    | NoRows | NullColumn | TeamForbidden | ReportNotReady | EvidenceStale | ActionAlreadyDispatched | VersionConflict
    | InvalidDraft | NotUnknown | ApprovalScopeStale | InvalidActionState | TargetChanged
    | InvalidWorker | StaleExecution | CallbackPayloadConflict | ToolNotAllowed | InvalidEvent | SourceVersionChanged
    | InvalidResult | InvalidStatus | InvalidReport | InvalidEvidenceIds | UngroundedClaim | UnknownEvidence
    | UnknownOperation
    | IdempotencyPayloadConflict | TeamQuotaExhausted | NotResumable | InformationTooLarge

  datatype Outcome<+T> = Outcome(db: Db, reply: Result<T, Error>)

  /** The live tables. Each handler runs one transaction over them. */
  class Store {
    var members: map<(string, string), Role>
    var services: map<string, Service>
    var idems: map<(string, string), Id>
    var tasks: map<Id, Task>

    ghost function Snapshot(): Db
      reads this
    {
      Db(members, services, idems, tasks)
    }

    predicate Member(subject: string, team: string, approve: bool)
      reads this
    {
      && (subject, team) in members
      && (approve ==> members[(subject, team)].Approver?)
    }

    /** Commit the rows of one task, as left by the statements of a transaction. */
    method Commit(id: Id, t: Task)
      modifies this`tasks
      ensures tasks == old(tasks)[id := t]
    {
      tasks := tasks[id := t];
    }
  }
}
