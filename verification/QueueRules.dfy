/** What a claim and a worker's callback do, row by row: stated over the tables alone, apart from the functions
    that compute it. */
module QueueRules {
  import opened Wrappers
  import opened Tables
  import opened TaskRules
  import Queue

  // ---- claim ----------------------------------------------------------------------------

  /** Queued or running, tried four times, and held by nobody. */
  predicate OutOfTries(j: Job, now: int) {
    && (j.state.JobQueued? || j.state.JobRunning?) && j.attempts >= 4
    && (j.leaseUntil.None? || j.leaseUntil.value < now)
  }

  /** The sweep fails exactly the jobs that are out of tries. */
  predicate SweptRow(t: Task, t': Task, now: int) {
    if OutOfTries(t.job, now)
    then t' == t.(inv := t.inv.(status := Failed), job := t.job.(state := JobFailed, lastError := "retry_limit"))
    else t' == t
  }

  /** Every row but this one was only swept. */
  predicate OnlySwept(db: Db, db': Db, now: int, except: Option<Id>) {
    && db'.members == db.members && db'.services == db.services && db'.idems == db.idems
    && db'.tasks.Keys == db.tasks.Keys
    && forall k :: k in db.tasks && Some(k) != except ==> SweptRow(db.tasks[k], db'.tasks[k], now)
  }

  /** The jobs running with a lease that has not passed. */
  function Busy(tasks: map<Id, Task>, now: int): set<Id> {
    set k | k in tasks && tasks[k].job.state.JobRunning? && tasks[k].job.leaseUntil.Some?
            && tasks[k].job.leaseUntil.value > now
  }

  /** A row a claim may take: queued and due or running past its lease, with a try left, not locked elsewhere. */
  predicate Takeable(t: Task, now: int) {
    && (t.inv.status.Queued? || t.inv.status.Running?) && !OutOfTries(t.job, now)
    && (|| (t.job.state.JobQueued? && t.job.availableAt <= now)
        || (t.job.state.JobRunning? && t.job.leaseUntil.Some? && t.job.leaseUntil.value < now))
  }

  /** What the selection returns: a takeable unlocked row that waits longest, and nothing only if there is none. */
  lemma PickRule(db: Db, now: int, locked: set<Id>, pick: Option<Id>)
    requires db.Valid() && Queue.Selects(Queue.Sweep(db, now).tasks, now, locked, pick)
    ensures pick.Some? ==>
              && pick.value in db.tasks && pick.value !in locked && Takeable(db.tasks[pick.value], now)
              && forall k :: k in db.tasks && k !in locked && Takeable(db.tasks[k], now) ==>
                   db.tasks[pick.value].job.availableAt <= db.tasks[k].job.availableAt
    ensures pick.None? ==> forall k :: k in db.tasks && k !in locked ==> !Takeable(db.tasks[k], now)
  {
    var swept := Queue.Sweep(db, now).tasks;
    forall k | k in db.tasks
      ensures Queue.Claimable(swept[k], now) <==> Takeable(db.tasks[k], now)
      ensures swept[k].job.availableAt == db.tasks[k].job.availableAt
    {
      assert swept[k] == Queue.Swept(db.tasks[k], now);
    }
    forall k | k in db.tasks && k !in locked && Takeable(db.tasks[k], now)
      ensures k in Queue.Candidates(swept, now, locked)
    {
    }
  }

  lemma SweepRule(db: Db, now: int)
    requires db.Valid()
    ensures OnlySwept(db, Queue.Sweep(db, now), now, None)
    ensures Queue.LiveJobs(Queue.Sweep(db, now).tasks, now) == Busy(db.tasks, now)
  {
    var swept := Queue.Sweep(db, now).tasks;
    forall k | k in db.tasks
      ensures SweptRow(db.tasks[k], swept[k], now) && (k in Queue.LiveJobs(swept, now) <==> k in Busy(db.tasks, now))
    {
      assert swept[k] == Queue.Swept(db.tasks[k], now);
    }
  }

  predicate OwnerOk(owner: string) {
    1 <= |owner| <= 128
  }

  /** There is room for one more running job, and a row to take. */
  predicate CanTake(db: Db, now: int, maxActive: nat, owner: string, pick: Option<Id>) {
    OwnerOk(owner) && |Busy(db.tasks, now)| < maxActive && pick.Some?
  }

  predicate InitiatorIsMember(db: Db, id: Id)
    requires id in db.tasks
  {
    (db.tasks[id].inv.subject, db.tasks[id].inv.team) in db.members
  }

  /** The row of a claimed job: the next generation and attempt run for this worker on the current sources until the
      lease ends, and one event says so. */
  predicate TakenRow(t: Task, t': Task, now: int, lease: nat, owner: string, watermark: nat) {
    && t'.job == t.job.(state := JobRunning, owner := Some(owner), generation := t.job.generation + 1,
                        attempts := t.job.attempts + 1, leaseUntil := Some(now + lease))
    && t'.inv == t.inv.(status := Running, sourceVersion := watermark, seqNo := t.inv.seqNo + 1)
    && t'.action == t.action && t'.approvals == t.approvals && OneMoreEvent(t, t', ClaimedEvent)
  }

  lemma ClaimedRow(id: Id, t: Task, now: int, lease: nat, owner: string, watermark: nat)
    ensures var t' := Queue.ClaimedTask(t, now, lease, owner, watermark);
            && TakenRow(t, t', now, lease, owner, watermark)
            && Queue.GrantOf(id, t') == Queue.Grant(id, owner, t.job.generation + 1, t.job.attempts + 1, watermark)
  {
  }

  lemma TakeIs(swept: Db, now: int, lease: nat, owner: string, id: Id)
    requires swept.Valid() && id in swept.tasks && InitiatorIsMember(swept, id)
    ensures var t' := Queue.ClaimedTask(swept.tasks[id], now, lease, owner,
                                        swept.services[swept.tasks[id].inv.service].watermark);
            Queue.TakeTx(swept, now, lease, owner, id)
            == Outcome(swept.WithTask(id, t'), Ok(Some(Queue.GrantOf(id, t'))))
  {
  }

  /** One task changed after the sweep. */
  lemma SweptThenOne(db: Db, swept: Db, now: int, id: Id, t': Task)
    requires OnlySwept(db, swept, now, None) && id in db.tasks
    ensures OnlySwept(db, swept.WithTask(id, t'), now, Some(id))
  {
  }

  /** A picked row was not swept, and whether it is taken depends on the original tables only. */
  lemma ClaimTakes(db: Db, now: int, lease: nat, maxActive: nat, owner: string, locked: set<Id>, pick: Option<Id>)
    requires db.Valid() && Queue.Selects(Queue.Sweep(db, now).tasks, now, locked, pick)
    requires (pick.Some? ==> pick.value in db.tasks) && CanTake(db, now, maxActive, owner, pick)
    ensures Queue.ClaimTx(db, now, lease, maxActive, owner, pick)
            == Queue.TakeTx(Queue.Sweep(db, now), now, lease, owner, pick.value)
    ensures Queue.Sweep(db, now).tasks[pick.value] == db.tasks[pick.value]
  {
    SweepRule(db, now);
    PickRule(db, now, locked, pick);
  }

  /** A job is handed out exactly when fewer than maxActive run, a row was picked and its initiator still belongs to
      the team. */
  lemma ClaimGrantsIff(db: Db, now: int, lease: nat, maxActive: nat, owner: string, locked: set<Id>, pick: Option<Id>)
    requires db.Valid() && Queue.Selects(Queue.Sweep(db, now).tasks, now, locked, pick)
    requires pick.Some? ==> pick.value in db.tasks
    ensures var reply := Queue.ClaimTx(db, now, lease, maxActive, owner, pick).reply;
            reply.Ok? && reply.value.Some?
            <==> CanTake(db, now, maxActive, owner, pick) && InitiatorIsMember(db, pick.value)
  {
    if CanTake(db, now, maxActive, owner, pick) {
      ClaimTakes(db, now, lease, maxActive, owner, locked, pick);
    } else {
      SweepRule(db, now);
    }
  }

  /** The grant names the row, the worker, the next generation and attempt and the current sources; the row runs for
      that worker until the lease ends, and every other row was only swept. */
  lemma ClaimRule(db: Db, now: int, lease: nat, maxActive: nat, owner: string, locked: set<Id>, id: Id)
    requires db.Valid() && Queue.Selects(Queue.Sweep(db, now).tasks, now, locked, Some(id)) && id in db.tasks
    requires CanTake(db, now, maxActive, owner, Some(id)) && InitiatorIsMember(db, id)
    ensures var r := Queue.ClaimTx(db, now, lease, maxActive, owner, Some(id));
            var t, watermark := db.tasks[id], db.services[db.tasks[id].inv.service].watermark;
            && OnlySwept(db, r.db, now, Some(id)) && TakenRow(t, r.db.tasks[id], now, lease, owner, watermark)
            && r.reply
               == Ok(Some(Queue.Grant(id, owner, t.job.generation + 1, t.job.attempts + 1, watermark)))
  {
    var swept := Queue.Sweep(db, now);
    var t, watermark := db.tasks[id], db.services[db.tasks[id].inv.service].watermark;
    SweepRule(db, now);
    ClaimTakes(db, now, lease, maxActive, owner, locked, Some(id));
    TakeIs(swept, now, lease, owner, id);
    ClaimedRow(id, t, now, lease, owner, watermark);
    SweptThenOne(db, swept, now, id, Queue.ClaimedTask(t, now, lease, owner, watermark));
  }

  /** Every other claim: a worker without a proper name changes nothing and is refused; a picked job whose initiator
      left the team fails for good with its investigation; otherwise only the sweep happened. */
  lemma UngrantedRule(db: Db, now: int, lease: nat, maxActive: nat, owner: string, locked: set<Id>, pick: Option<Id>)
    requires db.Valid() && Queue.Selects(Queue.Sweep(db, now).tasks, now, locked, pick)
    requires pick.Some? ==> pick.value in db.tasks
    ensures var r := Queue.ClaimTx(db, now, lease, maxActive, owner, pick);
            && (!OwnerOk(owner) ==> r == Outcome(db, Err(InvalidWorker)))
            && (OwnerOk(owner) ==> r.reply.Ok?)
            && (OwnerOk(owner) && !CanTake(db, now, maxActive, owner, pick) ==>
                  r.reply == Ok(None) && OnlySwept(db, r.db, now, None))
            && (CanTake(db, now, maxActive, owner, pick) && !InitiatorIsMember(db, pick.value) ==>
                  var t, t' := db.tasks[pick.value], r.db.tasks[pick.value];
                  && r.reply == Ok(None) && OnlySwept(db, r.db, now, pick)
                  && t' == t.(inv := t.inv.(status := Failed),
                              job := t.job.(state := JobFailed, lastError := "permission_revoked")))
  {
    SweepRule(db, now);
    PickRule(db, now, locked, pick);
  }

  // ---- callbacks ---------------------------------------------------------------------------

  /** The result this generation of the worker already sent. */
  predicate AlreadySent(j: Job, op: Queue.Operation, b: Callback) {
    && op.ResultOp? && b.callbackId != "" && j.lastCallback == Some(b.callbackId)
    && b.owner == (if j.owner.Some? then j.owner.value else "") && b.generation == j.generation
  }

  /** The worker runs the job's current generation under an unexpired lease. */
  predicate HoldsLease(j: Job, now: int, b: Callback) {
    && j.state.JobRunning? && j.owner == Some(b.owner) && j.generation == b.generation
    && j.leaseUntil.Some? && j.leaseUntil.value > now
  }

  /** Every claim of the report cites some of its listed evidence and nothing else, and no evidence id is empty or
      listed twice. */
  predicate WellFounded(r: Report) {
    && "" !in r.evidence && (forall i, j :: 0 <= i < j < |r.evidence| ==> r.evidence[i] != r.evidence[j])
    && (forall e :: e in r.answerEvidence ==> e in r.evidence)
    && (forall k :: 0 <= k < |r.facts| ==> |r.facts[k]| > 0 && forall e :: e in r.facts[k] ==> e in r.evidence)
    && (forall k :: 0 <= k < |r.candidates| ==>
          |r.candidates[k]| > 0 && forall e :: e in r.candidates[k] ==> e in r.evidence)
  }

  lemma DistinctIdsMean(ids: seq<string>)
    ensures Queue.DistinctIds(ids)
            <==> "" !in ids && forall i, j :: 0 <= i < j < |ids| ==> ids[i] != ids[j]
  {
    if Queue.DistinctIds(ids) {
      forall i, j | 0 <= i < j < |ids| ensures ids[i] != ids[j] {
        assert ids[..j][i] == ids[i];
      }
    }
  }

  predicate CitesOnly(refs: seq<seq<string>>, known: seq<string>) {
    forall k :: 0 <= k < |refs| ==> |refs[k]| > 0 && forall i :: 0 <= i < |refs[k]| ==> refs[k][i] in known
  }

  lemma CitesConcat(a: seq<seq<string>>, b: seq<seq<string>>, known: seq<string>)
    ensures CitesOnly(a + b, known) <==> CitesOnly(a, known) && CitesOnly(b, known)
  {
    var all := a + b;
    forall k | 0 <= k < |a| ensures all[k] == a[k] {
    }
    forall k | 0 <= k < |b| ensures all[|a| + k] == b[k] {
    }
    if CitesOnly(all, known) {
      forall k | 0 <= k < |b| ensures |b[k]| > 0 && forall i :: 0 <= i < |b[k]| ==> b[k][i] in known {
        assert b[k] == all[|a| + k];
      }
    }
  }

  lemma WellFoundedIff(r: Report)
    ensures Queue.Grounded(r) <==> WellFounded(r)
  {
    DistinctIdsMean(r.evidence);
    var answer := if |r.answerEvidence| > 0 then [r.answerEvidence] else [];
    CitesConcat(answer + r.facts, r.candidates, r.evidence);
    CitesConcat(answer, r.facts, r.evidence);
    assert Queue.References(r) == answer + r.facts + r.candidates;
    assert Queue.Grounded(r) <==> Queue.DistinctIds(r.evidence) && CitesOnly(Queue.References(r), r.evidence);
    if |r.answerEvidence| > 0 {
      assert CitesOnly(answer, r.evidence) <==> forall e :: e in r.answerEvidence ==> e in r.evidence by {
        assert answer[0] == r.answerEvidence;
      }
    }
  }

  /** What each operation asks for beyond the lease. */
  predicate Asked(t: Task, s: Service, op: Queue.Operation, b: Callback) {
    match op
    case SandboxOp => true
    case HeartbeatOp => true
    case AuthorizeOp =>
      && s.enabled
      && b.tool in {"logs", "deployments", "git", "runbook", "cluster", "context", "memory", "sandbox"}
    case EventOp => 1 <= |b.kind| <= 64 && |b.payload| <= 32768
    case ResultOp =>
      && t.inv.sourceVersion == s.watermark && b.callbackId != "" && b.reportSize <= 262144
      && |b.manifest| <= 524288
      && (b.status.Completed? || b.status.Partial? || b.status.WaitingInformation? || b.status.Failed?)
      && b.report.Some? && WellFounded(b.report.value)
    case FailureOp => true
    case OtherOp => false
  }

  /** What each accepted operation leaves in the job's and the investigation's row. */
  predicate RowsAfter(t: Task, t': Task, now: int, lease: nat, op: Queue.Operation, b: Callback) {
    match op
    case SandboxOp => t'.job == t.job && t'.inv == t.inv.(seqNo := t.inv.seqNo + 1)
    case HeartbeatOp => t'.job == t.job.(leaseUntil := Some(now + lease)) && t'.inv == t.inv
    case AuthorizeOp => t'.job == t.job && t'.inv == t.inv.(seqNo := t.inv.seqNo + 1)
    case EventOp => t'.job == t.job && t'.inv == t.inv.(seqNo := t.inv.seqNo + 1)
    case ResultOp =>
      && t'.job == t.job.(state := JobDone, leaseUntil := None, lastCallback := Some(b.callbackId),
                          resultHash := Some(CallbackHash(b)))
      && t'.inv == t.inv.(status := b.status, report := b.report, manifest := Some(b.manifest),
                          seqNo := t.inv.seqNo + 1)
    case FailureOp =>
      && t'.job == t.job.(state := JobQueued, leaseUntil := None, lastError := b.kind,
                          availableAt := now + if t.job.attempts <= 15 then 2 * t.job.attempts else 30)
      && t'.inv == t.inv.(status := Queued)
    case OtherOp => false
  }

  /** The event each accepted operation stores, if any. */
  function EventAfter(op: Queue.Operation, b: Callback): Option<EventKind> {
    match op
    case SandboxOp => Some(SandboxRequested)
    case HeartbeatOp => None
    case AuthorizeOp => Some(AuthorizedEvent)
    case EventOp => Some(WorkerEvent(b.kind))
    case ResultOp => Some(ResultEvent)
    case FailureOp => None
    case OtherOp => None
  }

  /** A callback is acted on exactly when it is no repeated result, its worker holds the lease, the initiator still
      belongs to the team and the operation's own conditions hold. */
  predicate ActedOn(db: Db, now: int, id: Id, op: Queue.Operation, b: Callback)
    requires db.Valid()
  {
    && id in db.tasks && !AlreadySent(db.tasks[id].job, op, b) && HoldsLease(db.tasks[id].job, now, b)
    && (db.tasks[id].inv.subject, db.tasks[id].inv.team) in db.members
    && Asked(db.tasks[id], db.services[db.tasks[id].inv.service], op, b)
  }

  lemma AskedIff(db: Db, now: int, lease: nat, id: Id, op: Queue.Operation, b: Callback)
    requires db.Valid() && id in db.tasks
    ensures Queue.Fenced(db, now, lease, id, op, b).Ok?
            <==> Asked(db.tasks[id], db.services[db.tasks[id].inv.service], op, b)
  {
    if op.ResultOp? {
      Queue.PublishableIff(db, id, b);
      if b.report.Some? {
        WellFoundedIff(b.report.value);
      }
    }
  }

  lemma AcceptedRow(db: Db, now: int, lease: nat, id: Id, op: Queue.Operation, b: Callback)
    requires db.Valid() && id in db.tasks && Queue.Fenced(db, now, lease, id, op, b).Ok?
    ensures var t, t' := db.tasks[id], Queue.Fenced(db, now, lease, id, op, b).value;
            && RowsAfter(t, t', now, lease, op, b) && t'.action == t.action && t'.approvals == t.approvals
            && (if EventAfter(op, b).Some? then OneMoreEvent(t, t', EventAfter(op, b).value) else t'.log == t.log)
  {
  }

  /** The whole effect of a callback that is acted on: the job and investigation rows of its operation, and exactly
      one event of its own kind for all but heartbeats and failures. */
  lemma CallbackRule(db: Db, now: int, lease: nat, id: Id, op: Queue.Operation, b: Callback)
    requires db.Valid() && ActedOn(db, now, id, op, b)
    ensures var r := Queue.CallbackTx(db, now, lease, id, op, b);
            && r.reply.Ok? && OnlyTask(db, r.db, id)
            && var t, t' := db.tasks[id], r.db.tasks[id];
               && RowsAfter(t, t', now, lease, op, b) && t'.action == t.action && t'.approvals == t.approvals
               && (if EventAfter(op, b).Some? then OneMoreEvent(t, t', EventAfter(op, b).value) else t'.log == t.log)
  {
    AskedIff(db, now, lease, id, op, b);
    AcceptedRow(db, now, lease, id, op, b);
  }

  /** Every other callback changes nothing: the stored result sent again is accepted, and a different body under its
      callback id, a stale worker, a lost membership or a failed condition is refused. */
  lemma UnactedRule(db: Db, now: int, lease: nat, id: Id, op: Queue.Operation, b: Callback)
    requires db.Valid() && !ActedOn(db, now, id, op, b)
    ensures var r := Queue.CallbackTx(db, now, lease, id, op, b);
            && r.db == db
            && (r.reply.Ok? <==> id in db.tasks && AlreadySent(db.tasks[id].job, op, b)
                                 && db.tasks[id].job.resultHash == Some(CallbackHash(b)))
            && (id !in db.tasks ==> r.reply == Err(NoRows))
            && (id in db.tasks && AlreadySent(db.tasks[id].job, op, b) && r.reply.Err? ==>
                  r.reply == Err(CallbackPayloadConflict))
            && (id in db.tasks && !AlreadySent(db.tasks[id].job, op, b) && !HoldsLease(db.tasks[id].job, now, b) ==>
                  r.reply == Err(if db.tasks[id].job.owner.None? then NullColumn else StaleExecution))
            && (id in db.tasks && !AlreadySent(db.tasks[id].job, op, b) && HoldsLease(db.tasks[id].job, now, b)
                && (db.tasks[id].inv.subject, db.tasks[id].inv.team) !in db.members ==>
                  r.reply == Err(TeamForbidden))
  {
    if id in db.tasks {
      AskedIff(db, now, lease, id, op, b);
    }
  }

  /** The first group of references that is empty or cites unlisted evidence decides the error. */
  lemma {:induction false} FirstBadReference(refs: seq<seq<string>>, known: seq<string>, k: nat)
    requires k < |refs| && CitesOnly(refs[..k], known) && !CitesOnly([refs[k]], known)
    ensures Queue.ReferenceError(refs, known) == Some(if |refs[k]| == 0 then UngroundedClaim else UnknownEvidence)
    decreases k
  {
    if k == 0 {
      assert [refs[0]][0] == refs[0];
    } else {
      assert refs[..k][0] == refs[0];
      assert refs[1..][..k - 1] == refs[..k][1..];
      assert refs[1..][k - 1] == refs[k];
      FirstBadReference(refs[1..], known, k - 1);
    }
  }

  /** Why the worker that holds the lease is refused: the first condition of its operation that fails. */
  lemma ConditionRefused(db: Db, now: int, lease: nat, id: Id, op: Queue.Operation, b: Callback)
    requires db.Valid() && id in db.tasks && !AlreadySent(db.tasks[id].job, op, b)
    requires HoldsLease(db.tasks[id].job, now, b) && (db.tasks[id].inv.subject, db.tasks[id].inv.team) in db.members
    requires !Asked(db.tasks[id], db.services[db.tasks[id].inv.service], op, b)
    ensures var reply := Queue.CallbackTx(db, now, lease, id, op, b).reply;
            reply.Err? && match op
            case AuthorizeOp =>
              reply.error == if b.tool in Queue.ALLOWED_TOOLS then NoRows else ToolNotAllowed
            case EventOp => reply.error == InvalidEvent
            case ResultOp =>
              if db.tasks[id].inv.sourceVersion != db.services[db.tasks[id].inv.service].watermark
              then reply.error == SourceVersionChanged
              else if b.callbackId == "" || b.reportSize > 262144 || |b.manifest| > 524288
              then reply.error == InvalidResult
              else if !(b.status.Completed? || b.status.Partial? || b.status.WaitingInformation? || b.status.Failed?)
              then reply.error == InvalidStatus
              else if b.report.None? then reply.error == InvalidReport
              else if !Queue.DistinctIds(b.report.value.evidence) then reply.error == InvalidEvidenceIds
              else Some(reply.error)
                   == Queue.ReferenceError(Queue.References(b.report.value), b.report.value.evidence)
            case OtherOp => reply.error == UnknownOperation
            case _ => false
  {
    AskedIff(db, now, lease, id, op, b);
  }
}
