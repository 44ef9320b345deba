/** backend/internal/app/queue.go: claims, fenced worker callbacks and report grounding. */
module Queue {
  import opened Wrappers
  import opened Tables

  const MAX_ATTEMPTS: nat := 4
  const MAX_OWNER: nat := 128
  const MAX_REPORT: nat := 262144
  const MAX_MANIFEST: nat := 524288

  datatype Grant = Grant(id: Id, owner: string, generation: nat, attempt: nat, sourceVersion: nat)

  datatype Operation = SandboxOp | HeartbeatOp | AuthorizeOp | EventOp | ResultOp | FailureOp | OtherOp

  // ---- claim ------------------------------------------------------------------------

  /** Out of attempts and not held by anyone: the retry-limit sweep fails it. */
  predicate Exhausted(j: Job, now: int) {
    (j.state.JobQueued? || j.state.JobRunning?) && j.attempts >= MAX_ATTEMPTS && j.LeaseFree(now)
  }

  function Swept(t: Task, now: int): Task {
    if Exhausted(t.job, now)
    then t.(inv := t.inv.(status := Failed), job := t.job.(state := JobFailed, lastError := "retry_limit")) else t
  }

  function Sweep(db: Db, now: int): (r: Db)
    requires db.Valid()
    ensures r.Valid()
  {
    db.(tasks := map id | id in db.tasks :: Swept(db.tasks[id], now))
  }

  function LiveJobs(tasks: map<Id, Task>, now: int): set<Id> {
    set id | id in tasks && tasks[id].job.Live(now)
  }

  predicate Claimable(t: Task, now: int) {
    && (|| (t.job.state.JobQueued? && t.job.availableAt <= now)
        || (t.job.state.JobRunning? && t.job.leaseUntil.Some? && t.job.leaseUntil.value < now))
    && t.inv.status in {Queued, Running}
  }

  function Candidates(tasks: map<Id, Task>, now: int, locked: set<Id>): (s: set<Id>)
    ensures s <= tasks.Keys
  {
    set id | id in tasks && Claimable(tasks[id], now) && id !in locked
  }

  predicate Oldest(tasks: map<Id, Task>, s: set<Id>, id: Id)
    requires s <= tasks.Keys
  {
    id in s && forall k :: k in s ==> tasks[id].job.availableAt <= tasks[k].job.availableAt
  }

  /** The row "order by available_at ... skip locked limit 1" may return. */
  predicate Selects(tasks: map<Id, Task>, now: int, locked: set<Id>, pick: Option<Id>) {
    match pick
    case None => Candidates(tasks, now, locked) == {}
    case Some(id) => Oldest(tasks, Candidates(tasks, now, locked), id)
  }

  function ClaimedTask(t: Task, now: int, lease: nat, owner: string, watermark: nat): Task {
    t.(job := t.job.(state := JobRunning, owner := Some(owner), generation := t.job.generation + 1,
                     attempts := t.job.attempts + 1, leaseUntil := Some(now + lease)),
       inv := t.inv.(status := Running, sourceVersion := watermark)).WithEvent(ClaimedEvent)
  }

  function RevokedTask(t: Task): Task {
    t.(job := t.job.(state := JobFailed, lastError := "permission_revoked"), inv := t.inv.(status := Failed))
  }

  function GrantOf(id: Id, t: Task): Grant {
    Grant(id, t.job.owner.GetOr(""), t.job.generation, t.job.attempts, t.inv.sourceVersion)
  }

  /** The end of a claim: the selected job is taken, or failed when its owner lost access. */
  function TakeTx(swept: Db, now: int, lease: nat, owner: string, id: Id): (r: Outcome<Option<Grant>>)
    requires swept.Valid() && id in swept.tasks
    ensures r.db.Valid()
  {
    var t := swept.tasks[id];
    if !swept.Member(t.inv.subject, t.inv.team, false) then Outcome(swept.WithTask(id, RevokedTask(t)), Ok(None))
    else
      var t' := ClaimedTask(t, now, lease, owner, swept.ServiceOf(id).watermark);
      Outcome(swept.WithTask(id, t'), Ok(Some(GrantOf(id, t'))))
  }

  /** One claim transaction; pick is the row the selection returned. */
  function ClaimTx(db: Db, now: int, lease: nat, maxActive: nat, owner: string,
      pick: Option<Id>): (r: Outcome<Option<Grant>>)
    requires db.Valid()
    requires pick.Some? ==> pick.value in db.tasks
    ensures r.db.Valid()
  {
    if |owner| < 1 || |owner| > MAX_OWNER then Outcome(db, Err(InvalidWorker))
    else
      var swept := Sweep(db, now);
      if |LiveJobs(swept.tasks, now)| >= maxActive || pick.None? then Outcome(swept, Ok(None))
      else TakeTx(swept, now, lease, owner, pick.value)
  }

  lemma {:induction false} OldestExists(tasks: map<Id, Task>, s: set<Id>) returns (id: Id)
    requires s != {} && s <= tasks.Keys
    ensures Oldest(tasks, s, id)
    decreases s
  {
    id :| id in s;
    if s != {id} {
      var rest := s - {id};
      assert s == rest + {id};
      var other := OldestExists(tasks, rest);
      if tasks[other].job.availableAt < tasks[id].job.availableAt {
        id := other;
      }
    }
  }

  method Select(tasks: map<Id, Task>, now: int, locked: set<Id>) returns (pick: Option<Id>)
    ensures Selects(tasks, now, locked, pick)
  {
    var candidates := Candidates(tasks, now, locked);
    if candidates == {} {
      return None;
    }
    ghost var oldest := OldestExists(tasks, candidates);
    var id :| id in candidates && Oldest(tasks, candidates, id);
    pick := Some(id);
  }

  method Claim(st: Store, now: int, lease: nat, maxActive: nat, owner: string, locked: set<Id>)
    returns (reply: Result<Option<Grant>, Error>, ghost pick: Option<Id>)
    requires st.Snapshot().Valid()
    modifies st
    ensures reply.Ok? ==> Selects(Sweep(old(st.Snapshot()), now).tasks, now, locked, pick)
    ensures pick.Some? ==> pick.value in old(st.tasks)
    ensures Outcome(st.Snapshot(), reply) == ClaimTx(old(st.Snapshot()), now, lease, maxActive, owner, pick)
  {
    if |owner| < 1 || |owner| > MAX_OWNER {
      return Err(InvalidWorker), None;
    }
    st.tasks := map id | id in st.tasks :: Swept(st.tasks[id], now);
    var choice := Select(st.tasks, now, locked);
    pick := choice;
    if |LiveJobs(st.tasks, now)| >= maxActive || choice.None? {
      reply := Ok(None);
      return;
    }
    var id := choice.value;
    var t := st.tasks[id];
    if !st.Member(t.inv.subject, t.inv.team, false) {
      st.Commit(id, RevokedTask(t));
      reply := Ok(None);
      return;
    }
    t := ClaimedTask(t, now, lease, owner, st.services[t.inv.service].watermark);
    st.Commit(id, t);
    reply := Ok(Some(GrantOf(id, t)));
  }

  // ---- report grounding ---------------------------------------------------------------

  predicate DistinctIds(ids: seq<string>) {
    forall i :: 0 <= i < |ids| ==> ids[i] != "" && ids[i] !in ids[..i]
  }

  /** Every group of references the report makes, in the order they are checked. */
  function References(r: Report): seq<seq<string>> {
    (if |r.answerEvidence| > 0 then [r.answerEvidence] else []) + r.facts + r.candidates
  }

  /** Every claim cites something, and cites only listed evidence. */
  predicate Grounded(r: Report) {
    && DistinctIds(r.evidence)
    && forall k :: 0 <= k < |References(r)| ==>
         |References(r)[k]| > 0 && forall i :: 0 <= i < |References(r)[k]| ==> References(r)[k][i] in r.evidence
  }

  function ReferenceError(refs: seq<seq<string>>, known: seq<string>): Option<Error> {
    if refs == [] then None
    else if refs[0] == [] then Some(UngroundedClaim)
    else if exists i :: 0 <= i < |refs[0]| && refs[0][i] !in known then Some(UnknownEvidence)
    else ReferenceError(refs[1..], known)
  }

  function ReportError(doc: Option<Report>): Option<Error> {
    if doc.None? then Some(InvalidReport)
    else if !DistinctIds(doc.value.evidence) then Some(InvalidEvidenceIds)
    else ReferenceError(References(doc.value), doc.value.evidence)
  }

  lemma {:induction false} ReferenceErrorMeans(refs: seq<seq<string>>, known: seq<string>)
    ensures ReferenceError(refs, known).None? <==>
            forall k :: 0 <= k < |refs| ==> |refs[k]| > 0 && forall i :: 0 <= i < |refs[k]| ==> refs[k][i] in known
    decreases refs
  {
    if refs != [] {
      ReferenceErrorMeans(refs[1..], known);
      if ReferenceError(refs, known).None? {
        forall k | 0 <= k < |refs| ensures |refs[k]| > 0 && forall i :: 0 <= i < |refs[k]| ==> refs[k][i] in known {
          if k > 0 {
            assert refs[1..][k - 1] == refs[k];
          }
        }
      } else if refs[0] != [] && forall i :: 0 <= i < |refs[0]| ==> refs[0][i] in known {
        var k :| 0 <= k < |refs[1..]|
            && !(|refs[1..][k]| > 0 && forall i :: 0 <= i < |refs[1..][k]| ==> refs[1..][k][i] in known);
        assert refs[k + 1] == refs[1..][k];
      }
    }
  }

  lemma AcceptedIffGrounded(doc: Option<Report>)
    ensures ReportError(doc).None? <==> doc.Some? && Grounded(doc.value)
  {
    if doc.Some? {
      ReferenceErrorMeans(References(doc.value), doc.value.evidence);
    }
  }

  method ValidateReport(doc: Option<Report>) returns (error: Option<Error>)
    ensures error == ReportError(doc)
  {
    if doc.None? {
      return Some(InvalidReport);
    }
    var b := doc.value;
    var ids: map<string, bool> := map[];
    for k := 0 to |b.evidence|
      invariant DistinctIds(b.evidence[..k])
      invariant forall e :: e in ids <==> e in b.evidence[..k]
    {
      var e := b.evidence[k];
      assert b.evidence[..k + 1] == b.evidence[..k] + [e];
      if e == "" || e in ids {
        assert b.evidence[k] == "" || b.evidence[k] in b.evidence[..k];
        return Some(InvalidEvidenceIds);
      }
      assert forall i :: 0 <= i < k ==> b.evidence[..k + 1][..i] == b.evidence[..k][..i];
      assert b.evidence[..k + 1][..k] == b.evidence[..k];
      ids := ids[e := true];
    }
    assert b.evidence[..|b.evidence|] == b.evidence;
    var refs: seq<seq<string>> := [];
    if |b.answerEvidence| > 0 {
      refs := refs + [b.answerEvidence];
    }
    refs := refs + b.facts;
    refs := refs + b.candidates;
    assert refs == References(b);
    for k := 0 to |refs|
      invariant ReferenceError(refs, b.evidence) == ReferenceError(refs[k..], b.evidence)
    {
      assert refs[k..][0] == refs[k] && refs[k..][1..] == refs[k + 1..];
      if |refs[k]| == 0 {
        return Some(UngroundedClaim);
      }
      for i := 0 to |refs[k]|
        invariant forall x :: 0 <= x < i ==> refs[k][x] in b.evidence
      {
        if refs[k][i] !in ids {
          return Some(UnknownEvidence);
        }
      }
    }
    error := None;
  }

  // ---- callbacks ----------------------------------------------------------------------

  const ALLOWED_TOOLS := {"logs", "deployments", "git", "runbook", "cluster", "context", "memory", "sandbox"}

  function Published(s: Status): bool {
    s in {Completed, Partial, WaitingInformation, Failed}
  }

  /** The execution fence: owner, generation, running state, unexpired lease, membership. */
  function Fence(db: Db, now: int, id: Id, b: Callback): Option<Error>
    requires db.Valid() && id in db.tasks
  {
    var t := db.tasks[id];
    if t.job.owner.None? then Some(NullColumn)
    else if t.job.owner.value != b.owner || t.job.generation != b.generation || !t.job.Live(now)
    then Some(StaleExecution)
    else if !db.Member(t.inv.subject, t.inv.team, false) then Some(TeamForbidden)
    else None
  }

  /** The worker holds the lease of the generation it reports for. */
  predicate Holds(j: Job, now: int, b: Callback) {
    j.owner == Some(b.owner) && j.generation == b.generation && j.Live(now)
  }

  predicate Replays(j: Job, b: Callback) {
    && j.lastCallback == Some(b.callbackId) && b.callbackId != ""
    && j.owner.GetOr("") == b.owner && j.generation == b.generation
  }

  /** The guards of a result after the fence, in order. */
  function ResultError(db: Db, id: Id, b: Callback): Option<Error>
    requires db.Valid() && id in db.tasks
  {
    if db.tasks[id].inv.sourceVersion != db.ServiceOf(id).watermark then Some(SourceVersionChanged)
    else if b.callbackId == "" || b.reportSize > MAX_REPORT || |b.manifest| > MAX_MANIFEST then Some(InvalidResult)
    else if !Published(b.status) then Some(InvalidStatus)
    else ReportError(b.report)
  }

  // What each operation behind the fence does to the task.

  function HeartbeatTask(t: Task, now: int, lease: nat): Task {
    t.(job := t.job.(leaseUntil := Some(now + lease)))
  }

  function PublishedTask(t: Task, b: Callback): Task {
    t.(inv := t.inv.(status := b.status, report := b.report, manifest := Some(b.manifest)),
       job := t.job.(state := JobDone, leaseUntil := None, lastCallback := Some(b.callbackId),
                     resultHash := Some(CallbackHash(b)))).WithEvent(ResultEvent)
  }

  function RequeuedTask(t: Task, now: int, kind: string): Task {
    t.(job := t.job.(state := JobQueued, leaseUntil := None, availableAt := now + Min(30, t.job.attempts * 2),
        lastError := kind),
       inv := t.inv.(status := Queued))
  }

  function Fenced(db: Db, now: int, lease: nat, id: Id, op: Operation, b: Callback): (r: Result<Task, Error>)
    requires db.Valid() && id in db.tasks
    ensures r.Ok? ==> r.value.inv.service == db.tasks[id].inv.service
  {
    var t := db.tasks[id];
    match op
    case SandboxOp => Ok(t.WithEvent(SandboxRequested))
    case HeartbeatOp => Ok(HeartbeatTask(t, now, lease))
    case AuthorizeOp =>
      if b.tool !in ALLOWED_TOOLS then Err(ToolNotAllowed)
      else if !db.ServiceOf(id).enabled then Err(NoRows)
      else Ok(t.WithEvent(AuthorizedEvent))
    case EventOp =>
      if |b.kind| < 1 || |b.kind| > 64 || |b.payload| > 32768 then Err(InvalidEvent)
      else Ok(t.WithEvent(WorkerEvent(b.kind)))
    case ResultOp =>
      var rejected := ResultError(db, id, b);
      if rejected.Some? then Err(rejected.value) else Ok(PublishedTask(t, b))
    case FailureOp => Ok(RequeuedTask(t, now, b.kind))
    case OtherOp => Err(UnknownOperation)
  }

  function CallbackTx(db: Db, now: int, lease: nat, id: Id, op: Operation, b: Callback): (r: Outcome<()>)
    requires db.Valid()
    ensures r.db.Valid()
  {
    if id !in db.tasks then Outcome(db, Err(NoRows))
    else if op.ResultOp? && Replays(db.tasks[id].job, b) then
      if db.tasks[id].job.resultHash != Some(CallbackHash(b)) then Outcome(db, Err(CallbackPayloadConflict))
      else Outcome(db, Ok(()))
    else
      var refused := Fence(db, now, id, b);
      if refused.Some? then Outcome(db, Err(refused.value))
      else
        match Fenced(db, now, lease, id, op, b)
        case Err(e) => Outcome(db, Err(e))
        case Ok(t) => Outcome(db.WithTask(id, t), Ok(()))
  }

  method CheckFence(st: Store, now: int, id: Id, b: Callback) returns (error: Option<Error>)
    requires st.Snapshot().Valid() && id in st.tasks
    ensures var t := st.tasks[id];
            && (error.None? <==> Holds(t.job, now, b) && st.Member(t.inv.subject, t.inv.team, false))
            && (error == Some(TeamForbidden) <==> Holds(t.job, now, b) && !st.Member(t.inv.subject, t.inv.team, false))
            && (error == Some(NullColumn) <==> t.job.owner.None?)
    ensures error == Fence(st.Snapshot(), now, id, b)
  {
    var j := st.tasks[id].job;
    if j.owner.None? {
      return Some(NullColumn);
    }
    var live := j.leaseUntil.Some? && j.leaseUntil.value > now;
    if j.owner.value != b.owner || j.generation != b.generation || !j.state.JobRunning? || !live {
      return Some(StaleExecution);
    }
    var inv := st.tasks[id].inv;
    if !st.Member(inv.subject, inv.team, false) {
      return Some(TeamForbidden);
    }
    error := None;
  }

  /** A result that may be published: current sources, bounded sizes, a final status and a grounded report. */
  predicate Publishable(t: Task, watermark: nat, b: Callback) {
    && t.inv.sourceVersion == watermark && b.callbackId != ""
    && b.reportSize <= MAX_REPORT && |b.manifest| <= MAX_MANIFEST
    && Published(b.status) && b.report.Some? && Grounded(b.report.value)
  }

  lemma PublishableIff(db: Db, id: Id, b: Callback)
    requires db.Valid() && id in db.tasks
    ensures ResultError(db, id, b).None? <==> Publishable(db.tasks[id], db.ServiceOf(id).watermark, b)
  {
    AcceptedIffGrounded(b.report);
  }

  method Publish(st: Store, id: Id, b: Callback) returns (reply: Result<Task, Error>)
    requires st.Snapshot().Valid() && id in st.tasks
    ensures reply.Ok? <==> Publishable(st.tasks[id], st.services[st.tasks[id].inv.service].watermark, b)
    ensures reply == Fenced(st.Snapshot(), 0, 0, id, ResultOp, b)
  {
    PublishableIff(st.Snapshot(), id, b);
    var t := st.tasks[id];
    if t.inv.sourceVersion != st.services[t.inv.service].watermark {
      return Err(SourceVersionChanged);
    }
    if b.callbackId == "" || b.reportSize > MAX_REPORT || |b.manifest| > MAX_MANIFEST {
      return Err(InvalidResult);
    }
    if !Published(b.status) {
      return Err(InvalidStatus);
    }
    var invalid := ValidateReport(b.report);
    if invalid.Some? {
      return Err(invalid.value);
    }
    t := t.(inv := t.inv.(status := b.status, report := b.report, manifest := Some(b.manifest)));
    t := t.(job := t.job.(state := JobDone, leaseUntil := None, lastCallback := Some(b.callbackId),
                          resultHash := Some(CallbackHash(b))));
    reply := Ok(t.WithEvent(ResultEvent));
  }

  /** When a fenced operation is accepted. */
  predicate Accepts(t: Task, s: Service, op: Operation, b: Callback) {
    match op
    case SandboxOp => true
    case HeartbeatOp => true
    case AuthorizeOp => b.tool in ALLOWED_TOOLS && s.enabled
    case EventOp => 1 <= |b.kind| <= 64 && |b.payload| <= 32768
    case ResultOp => Publishable(t, s.watermark, b)
    case FailureOp => true
    case OtherOp => false
  }

  /** What an accepted operation may change: a heartbeat the lease only, a failure back to the queue, a result
      the outcome, anything else one more event. */
  predicate Effect(t: Task, t': Task, now: int, lease: nat, op: Operation, b: Callback) {
    && t'.action == t.action && t'.approvals == t.approvals
    && t'.job.generation == t.job.generation && t'.job.attempts == t.job.attempts && t'.job.owner == t.job.owner
    && t'.inv.seqNo == t.inv.seqNo + (if op.HeartbeatOp? || op.FailureOp? then 0 else 1)
    && (op.HeartbeatOp? || op.FailureOp? ==> t'.log == t.log)
    && (op.HeartbeatOp? ==> t'.inv == t.inv && t'.job.state == t.job.state && t'.job.leaseUntil == Some(now + lease))
    && (op.FailureOp? ==>
          && t'.inv == t.inv.(status := Queued) && t'.job.state.JobQueued? && t'.job.leaseUntil.None?
          && now <= t'.job.availableAt <= now + 30)
    && (op.ResultOp? ==>
          && t'.inv.status == b.status && t'.inv.report == b.report && t'.inv.manifest == Some(b.manifest)
          && t'.job.state.JobDone? && t'.job.lastCallback == Some(b.callbackId)
          && t'.job.resultHash == Some(CallbackHash(b)))
    && (op.SandboxOp? || op.AuthorizeOp? || op.EventOp? ==>
          t'.job == t.job && t'.inv == t.inv.(seqNo := t.inv.seqNo + 1))
  }

  method Operate(st: Store, now: int, lease: nat, id: Id, op: Operation, b: Callback) returns (reply: Result<Task,
      Error>)
    requires st.Snapshot().Valid() && id in st.tasks
    ensures reply.Ok? <==> Accepts(st.tasks[id], st.services[st.tasks[id].inv.service], op, b)
    ensures reply.Ok? ==> Effect(st.tasks[id], reply.value, now, lease, op, b)
    ensures reply == Fenced(st.Snapshot(), now, lease, id, op, b)
  {
    var t := st.tasks[id];
    match op {
      case SandboxOp =>
        t := t.WithEvent(SandboxRequested);
      case HeartbeatOp =>
        t := t.(job := t.job.(leaseUntil := Some(now + lease)));
      case AuthorizeOp =>
        if b.tool !in ALLOWED_TOOLS {
          return Err(ToolNotAllowed);
        }
        if !st.services[t.inv.service].enabled {
          return Err(NoRows);
        }
        t := t.WithEvent(AuthorizedEvent);
      case EventOp =>
        if |b.kind| < 1 || |b.kind| > 64 || |b.payload| > 32768 {
          return Err(InvalidEvent);
        }
        t := t.WithEvent(WorkerEvent(b.kind));
      case ResultOp =>
        reply := Publish(st, id, b);
        return;
      case FailureOp =>
        t := t.(job := t.job.(state := JobQueued, leaseUntil := None, availableAt := now + Min(30, t.job.attempts * 2),
                              lastError := b.kind));
        t := t.(inv := t.inv.(status := Queued));
      case OtherOp =>
        return Err(UnknownOperation);
    }
    reply := Ok(t);
  }

  method HandleCallback(st: Store, now: int, lease: nat, id: Id, op: Operation, b: Callback) returns (reply: Result<(),
      Error>)
    requires st.Snapshot().Valid()
    modifies st
    ensures Outcome(st.Snapshot(), reply) == CallbackTx(old(st.Snapshot()), now, lease, id, op, b)
  {
    if id !in st.tasks {
      return Err(NoRows);
    }
    if op.ResultOp? {
      var j := st.tasks[id].job;
      if j.lastCallback == Some(b.callbackId) && b.callbackId != "" && j.owner.GetOr("") == b.owner
          && j.generation == b.generation {
        if j.resultHash != Some(CallbackHash(b)) {
          return Err(CallbackPayloadConflict);
        }
        return Ok(());
      }
    }
    var refused := CheckFence(st, now, id, b);
    if refused.Some? {
      return Err(refused.value);
    }
    var done := Operate(st, now, lease, id, op, b);
    if done.Err? {
      return Err(done.error);
    }
    st.Commit(id, done.value);
    reply := Ok(());
  }
}
