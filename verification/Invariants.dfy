/** What every transaction of the control plane keeps, and how the tables may evolve. */
module Invariants {
  import opened Wrappers
  import opened Tables
  import Tasks
  import Sources
  import Queue
  import Actions

  // ---- the invariant ------------------------------------------------------------------

  /** Investigation status and job state move together. */
  predicate Coupled(s: Status, j: JobState) {
    match j
    case JobQueued => s.Queued?
    case JobRunning => s.Running?
    case JobDone => s in {Completed, Partial, WaitingInformation, Failed}
    case JobFailed => s.Failed?
    case JobCancelled => s.Cancelled?
  }

  /** Only a running job can hold a lease that has not passed; attempts stay within the retry limit. */
  predicate JobRow(now: int, t: Task) {
    && Coupled(t.inv.status, t.job.state)
    && t.job.attempts <= Queue.MAX_ATTEMPTS
    && (t.job.state.JobRunning? ==> t.job.owner.Some? && t.job.leaseUntil.Some?)
    && (!t.job.state.JobRunning? ==> t.job.LeaseFree(now))
  }

  /** The events of an investigation are numbered 1 to its counter, without gaps. */
  ghost predicate Numbered(t: Task) {
    forall n :: n in t.log <==> 1 <= n <= t.inv.seqNo
  }

  function LastDecision(t: Task): Option<Approval> {
    if t.approvals == [] then None else Some(t.approvals[|t.approvals| - 1])
  }

  /** An action under human control describes the current report, sources and repository. */
  predicate FreshAction(s: Service, inv: Investigation, a: Action) {
    && (inv.status.Completed? || inv.status.Partial?)
    && a.sourceVersion == s.watermark && inv.sourceVersion == s.watermark
    && a.evidence == EvidenceHash(inv.report)
    && a.digest == Actions.Digest(s.repo, a.title, a.body, a.evidence)
  }

  /** An approved action is exactly what its last decision approved, for the configured repository. */
  predicate ApprovedAsIs(s: Service, a: Action, last: Option<Approval>) {
    && a.target == s.repo
    && a.approvedVersion == Some(a.version) && a.approvedDigest == Some(a.digest) && a.approvedBy.Some?
    && last == Some(Approval(a.id, a.version, a.digest, a.evidence, a.approvedBy.value, true))
  }

  ghost predicate ActionRow(s: Service, t: Task) {
    t.action.Some? ==>
      var a := t.action.value;
      && IsUuid(a.id) && a.marker == Actions.MARKER_PREFIX + a.id && a.version >= 1
      && (a.state.Pending() ==> FreshAction(s, t.inv, a))
      && (a.state.Approved? ==> ApprovedAsIs(s, a, LastDecision(t)))
  }

  /** Everything that must hold of one task whose service is s. */
  ghost predicate TaskInv(now: int, s: Service, t: Task) {
    JobRow(now, t) && Numbered(t) && ActionRow(s, t)
  }

  ghost predicate SameAction(tasks: map<Id, Task>, i: Id, k: Id)
    requires i in tasks && k in tasks
  {
    tasks[i].action.Some? && tasks[k].action.Some? && tasks[i].action.value.id == tasks[k].action.value.id
  }

  ghost predicate RowsInv(db: Db, now: int)
    requires db.Valid()
  {
    forall id :: id in db.tasks ==> TaskInv(now, db.ServiceOf(id), db.tasks[id])
  }

  ghost predicate DistinctActions(tasks: map<Id, Task>) {
    forall i, k :: i in tasks && k in tasks && SameAction(tasks, i, k) ==> i == k
  }

  ghost predicate DbInv(db: Db, now: int) {
    db.Valid() && RowsInv(db, now) && DistinctActions(db.tasks)
  }

  // ---- evolution ----------------------------------------------------------------------

  /** An action before and after: identity is fixed, and a dispatched action stays dispatched,
      at the same version, with no further decision on it. */
  predicate ActionEvolves(t: Task, t': Task) {
    t.action.Some? ==>
      && t'.action.Some?
      && var a, a' := t.action.value, t'.action.value;
      && a'.id == a.id && a'.marker == a.marker && a'.target == a.target && a.version <= a'.version
      && (a.state.Dispatched() ==>
           a'.state.Dispatched() && a'.version == a.version && a'.digest == a.digest && t'.approvals == t.approvals)
  }

  /** A stored event keeps its kind; its content may be removed. */
  predicate Persists(e: Event, f: Event) {
    f.kind == e.kind && (e.contentRemoved ==> f.contentRemoved)
  }

  /** Stored events stay under their numbers. */
  predicate LogGrows(a: map<int, Event>, b: map<int, Event>) {
    forall n :: n in a ==> n in b && Persists(a[n], b[n])
  }

  /** A task before and after: generations grow, a generation that stopped running never runs again,
      its source version is fixed while it runs, and cancellation is final. */
  predicate TaskEvolves(t: Task, t': Task) {
    && t'.inv.service == t.inv.service && t'.inv.team == t.inv.team && t'.inv.subject == t.inv.subject
    && t'.inv.idem == t.inv.idem
    && t.job.generation <= t'.job.generation
    && (t'.job.generation == t.job.generation && t'.job.state.JobRunning? ==>
         t.job.state.JobRunning? && t'.inv.sourceVersion == t.inv.sourceVersion)
    && (t.inv.status.Cancelled? ==> t'.inv.status.Cancelled?)
    && t.inv.seqNo <= t'.inv.seqNo && LogGrows(t.log, t'.log)
    && ActionEvolves(t, t')
  }

  lemma TaskEvolvesTransitive(a: Task, b: Task, c: Task)
    requires TaskEvolves(a, b) && TaskEvolves(b, c)
    ensures TaskEvolves(a, c)
  {
  }

  ghost predicate Evolves(db: Db, db': Db) {
    && (forall s :: s in db.services ==> s in db'.services && db.services[s].watermark <= db'.services[s].watermark)
    && (forall id :: id in db.tasks ==> id in db'.tasks && TaskEvolves(db.tasks[id], db'.tasks[id]))
  }

  lemma EvolvesTransitive(a: Db, b: Db, c: Db)
    requires Evolves(a, b) && Evolves(b, c)
    ensures Evolves(a, c)
  {
    forall id | id in a.tasks ensures id in c.tasks && TaskEvolves(a.tasks[id], c.tasks[id]) {
      TaskEvolvesTransitive(a.tasks[id], b.tasks[id], c.tasks[id]);
    }
  }

  /** A change that grants no lease, publishes and restarts nothing, and leaves success alone. */
  predicate Quiet(now: int, t: Task, t': Task) {
    && (t'.job.Live(now) ==> t.job.Live(now))
    && t'.job.generation == t.job.generation && t'.job.attempts == t.job.attempts
    && (t'.job.state.JobRunning? ==> t.job.state.JobRunning?)
    && (t'.job.state.JobDone? ==> t.job.state.JobDone?)
    && (t'.job.resultHash.Some? ==> t'.job.resultHash == t.job.resultHash)
    && SuccessStands(t, t')
  }

  predicate IsSucceeded(t: Task) {
    t.action.Some? && t.action.value.state.Succeeded?
  }

  /** An action neither becomes nor stops being succeeded, and keeps the result it succeeded with. */
  predicate SuccessStands(t: Task, t': Task) {
    (IsSucceeded(t') <==> IsSucceeded(t)) && (IsSucceeded(t') ==> t'.action.value.result == t.action.value.result)
  }

  predicate Untouched(t: Task) {
    t.job.state.JobQueued? && t.job.generation == 0 && t.job.attempts == 0 && t.job.resultHash.None? && t.action.None?
  }

  /** Outside the given tasks nothing but quiet changes and brand-new tasks. */
  ghost predicate QuietExcept(now: int, db: Db, db': Db, except: set<Id>) {
    forall id :: id in db'.tasks && id !in except ==>
      if id in db.tasks then Quiet(now, db.tasks[id], db'.tasks[id]) else Untouched(db'.tasks[id])
  }

  // ---- each task-level change keeps the row invariant -----------------------------------

  ghost predicate Step(now: int, s: Service, t: Task, t': Task) {
    TaskInv(now, s, t) ==> TaskInv(now, s, t') && TaskEvolves(t, t')
  }

  lemma EventStep(now: int, s: Service, t: Task, kind: EventKind)
    ensures Step(now, s, t, t.WithEvent(kind)) && Quiet(now, t, t.WithEvent(kind))
  {
  }

  lemma CancelStep(now: int, s: Service, t: Task)
    ensures Step(now, s, t, Tasks.CancelledTask(t)) && Quiet(now, t, Tasks.CancelledTask(t))
  {
  }

  lemma ResumeStep(now: int, s: Service, t: Task, information: string)
    requires Tasks.Resumable(t.inv.status)
    ensures Step(now, s, t, Tasks.ResumedTask(t, now, information, s.watermark))
  {
  }

  lemma SweepStep(now: int, s: Service, t: Task)
    ensures Step(now, s, t, Queue.Swept(t, now)) && Quiet(now, t, Queue.Swept(t, now))
  {
  }

  lemma ClaimStep(now: int, s: Service, t: Task, lease: nat, owner: string)
    requires Queue.Claimable(t, now) && !Queue.Exhausted(t.job, now)
    ensures Step(now, s, t, Queue.ClaimedTask(t, now, lease, owner, s.watermark))
  {
  }

  lemma RevokeStep(now: int, s: Service, t: Task)
    requires Queue.Claimable(t, now)
    ensures Step(now, s, t, Queue.RevokedTask(t)) && Quiet(now, t, Queue.RevokedTask(t))
  {
  }

  lemma HeartbeatStep(now: int, s: Service, t: Task, lease: nat)
    requires t.job.Live(now)
    ensures Step(now, s, t, Queue.HeartbeatTask(t, now, lease)) && Quiet(now, t, Queue.HeartbeatTask(t, now, lease))
  {
  }

  lemma PublishStep(now: int, s: Service, t: Task, b: Callback)
    requires t.job.Live(now) && Queue.Published(b.status)
    ensures Step(now, s, t, Queue.PublishedTask(t, b))
  {
  }

  lemma RequeueStep(now: int, s: Service, t: Task, kind: string)
    requires t.job.Live(now)
    ensures Step(now, s, t, Queue.RequeuedTask(t, now, kind)) && Quiet(now, t, Queue.RequeuedTask(t, now, kind))
  {
  }

  lemma DraftStep(db: Db, now: int, u: string, id: Id, aid: Id, version: nat, title: string, body: string)
    requires db.Valid() && id in db.tasks && IsUuid(aid)
    requires Actions.DraftError(db, u, id, version).None?
    ensures var t' := Actions.DraftedTask(db.tasks[id], now, db.ServiceOf(id), aid, title, body);
            Step(now, db.ServiceOf(id), db.tasks[id], t') && Quiet(now, db.tasks[id], t')
  {
  }

  lemma DecideStep(now: int, s: Service, t: Task, u: string, approve: bool)
    requires t.action.Some? && (t.action.value.state.Draft? || t.action.value.state.Rejected?)
             && t.action.value.target == s.repo
    ensures Step(now, s, t, Actions.DecidedTask(t, now, u, approve))
            && Quiet(now, t, Actions.DecidedTask(t, now, u, approve))
  {
  }

  lemma ReconcileStep(now: int, s: Service, t: Task, at: int)
    requires t.action.Some? && t.action.value.state.Unknown?
    ensures var t' := t.(action := Some(t.action.value.(updatedAt := at))); Step(now, s, t, t') && Quiet(now, t, t')
  {
  }

  lemma DispatchStep(now: int, s: Service, t: Task, reconcile: bool)
    requires Actions.Due(t, now) && reconcile == !t.action.value.state.Approved?
    ensures Step(now, s, t, Actions.TakenTask(t, now, reconcile)) && Quiet(now, t, Actions.TakenTask(t, now, reconcile))
  {
  }

  lemma RetireStep(now: int, s: Service, t: Task)
    requires t.action.Some? && t.action.value.state.Approved?
    ensures Step(now, s, t, Actions.RetiredTask(t, now)) && Quiet(now, t, Actions.RetiredTask(t, now))
  {
  }

  lemma FinishStep(now: int, s: Service, t: Task, marker: string, issue: Option<nat>)
    requires t.action.Some? && t.action.value.state.Dispatched()
    ensures Step(now, s, t, Actions.FinishedTask(t, now, marker, issue))
  {
  }

  /** The one step that moves the service row: nothing pending is left to be stale. */
  lemma InvalidateStep(now: int, s: Service, s': Service, t: Task, remove: bool)
    requires TaskInv(now, s, t)
    ensures var t' := Sources.InvalidatedTask(t, remove);
            TaskInv(now, s', t') && TaskEvolves(t, t') && Quiet(now, t, t')
  {
  }

  // ---- each transaction keeps the invariant ---------------------------------------------

  lemma PutDistinct(tasks: map<Id, Task>, id: Id, t': Task)
    requires DistinctActions(tasks) && FreshOrSame(tasks, id, t')
    ensures DistinctActions(tasks[id := t'])
  {
  }

  /** The action of the new row is the one the row had, or one no other row has. */
  ghost predicate FreshOrSame(tasks: map<Id, Task>, id: Id, t': Task) {
    t'.action.Some? ==>
      || (id in tasks && tasks[id].action.Some? && tasks[id].action.value.id == t'.action.value.id)
      || (forall k :: k in tasks && tasks[k].action.Some? ==> tasks[k].action.value.id != t'.action.value.id)
  }

  /** A transaction on one task whose rows keep their own invariant. */
  lemma OneTaskKeeps(db: Db, now: int, id: Id, t': Task)
    requires DbInv(db, now) && id in db.tasks && t'.inv.service == db.tasks[id].inv.service
    requires Step(now, db.ServiceOf(id), db.tasks[id], t') && FreshOrSame(db.tasks, id, t')
    ensures var r := db.WithTask(id, t'); DbInv(r, now) && Evolves(db, r) && QuietExcept(now, db, r, {id})
  {
    var r := db.WithTask(id, t');
    PutDistinct(db.tasks, id, t');
    forall k | k in r.tasks
      ensures TaskInv(now, r.ServiceOf(k), r.tasks[k]) && TaskEvolves(db.tasks[k], r.tasks[k])
      ensures k != id ==> Quiet(now, db.tasks[k], r.tasks[k])
    {
      assert TaskInv(now, db.ServiceOf(k), db.tasks[k]);
    }
  }

  lemma NothingKeeps(db: Db, now: int)
    requires DbInv(db, now)
    ensures Evolves(db, db) && QuietExcept(now, db, db, {})
  {
  }

  lemma InsertKeeps(db: Db, now: int, r: Db, id: Id, t: Task)
    requires DbInv(db, now) && r.Valid() && id !in db.tasks
    requires r.services == db.services && r.tasks == db.tasks[id := t]
    requires t.inv.service in db.services && TaskInv(now, db.services[t.inv.service], t) && Untouched(t)
    ensures DbInv(r, now) && Evolves(db, r) && QuietExcept(now, db, r, {})
  {
    NothingKeeps(db, now);
    PutDistinct(db.tasks, id, t);
    forall k | k in r.tasks ensures TaskInv(now, r.ServiceOf(k), r.tasks[k]) {
      assert k != id ==> TaskInv(now, db.ServiceOf(k), db.tasks[k]);
    }
  }

  lemma CreateKeeps(db: Db, now: int, u: string, idem: string, hash: string, service: string, symptom: string, id: Id)
    requires DbInv(db, now) && id !in db.tasks
    ensures var r := Tasks.CreateTx(db, now, u, idem, hash, service, symptom, id).db;
            DbInv(r, now) && Evolves(db, r) && QuietExcept(now, db, r, {})
  {
    var r := Tasks.CreateTx(db, now, u, idem, hash, service, symptom, id).db;
    if id in r.tasks {
      NewTaskInv(now, db.services[service], service, u, idem, hash, symptom);
      InsertKeeps(db, now, r, id, Tasks.NewTask(now, db.services[service], service, u, idem, hash, symptom));
    } else {
      assert r == db;
      NothingKeeps(db, now);
    }
  }

  lemma NewTaskInv(now: int, s: Service, service: string, u: string, idem: string, hash: string, symptom: string)
    ensures var t := Tasks.NewTask(now, s, service, u, idem, hash, symptom); TaskInv(now, s, t) && Untouched(t)
  {
  }

  /** What a set-oriented statement owes each row. */
  ghost predicate RowKeeps(db: Db, r: Db, now: int, id: Id)
    requires r.Valid() && id in db.tasks && id in r.tasks
  {
    && TaskInv(now, r.ServiceOf(id), r.tasks[id]) && TaskEvolves(db.tasks[id], r.tasks[id])
    && Quiet(now, db.tasks[id], r.tasks[id])
    && (r.tasks[id].action.Some? ==> db.tasks[id].action.Some?)
  }

  lemma AllRowsKeep(db: Db, r: Db, now: int)
    requires DbInv(db, now) && r.Valid() && r.tasks.Keys == db.tasks.Keys
    requires forall s :: s in db.services ==> s in r.services && db.services[s].watermark <= r.services[s].watermark
    requires forall id :: id in db.tasks ==> RowKeeps(db, r, now, id)
    ensures DbInv(r, now) && Evolves(db, r) && QuietExcept(now, db, r, {})
  {
    forall i, k | i in r.tasks && k in r.tasks && SameAction(r.tasks, i, k) ensures i == k {
      assert RowKeeps(db, r, now, i) && RowKeeps(db, r, now, k);
      assert SameAction(db.tasks, i, k);
    }
  }

  lemma SweepKeeps(db: Db, now: int)
    requires DbInv(db, now)
    ensures var r := Queue.Sweep(db, now); DbInv(r, now) && Evolves(db, r) && QuietExcept(now, db, r, {})
  {
    var r := Queue.Sweep(db, now);
    forall id | id in db.tasks ensures RowKeeps(db, r, now, id) {
      assert TaskInv(now, db.ServiceOf(id), db.tasks[id]);
      SweepStep(now, db.ServiceOf(id), db.tasks[id]);
    }
    AllRowsKeep(db, r, now);
  }

  /** db1 is db with other settings on one service row, its watermark aside. */
  ghost predicate Reconfigured(db: Db, db1: Db, service: string) {
    && db1.Valid() && db1.tasks == db.tasks && db1.services.Keys == db.services.Keys
    && (forall s :: s in db.services ==>
         if s == service then db1.services[s].watermark == db.services[s].watermark
         else db1.services[s] == db.services[s])
  }

  lemma InvalidatedRow(db: Db, db1: Db, now: int, service: string, remove: bool, id: Id)
    requires DbInv(db, now) && service in db.services && Reconfigured(db, db1, service) && id in db.tasks
    ensures var r := Sources.InvalidateTx(db1, service, remove).db;
            RowKeeps(db, r, now, id)
  {
    var r := Sources.InvalidateTx(db1, service, remove).db;
    assert TaskInv(now, db.ServiceOf(id), db.tasks[id]);
    if db.tasks[id].inv.service == service {
      InvalidateStep(now, db.ServiceOf(id), r.ServiceOf(id), db.tasks[id], remove);
    } else {
      assert r.tasks[id] == db.tasks[id] && r.ServiceOf(id) == db.ServiceOf(id);
    }
  }

  lemma InvalidateKeeps(db: Db, db1: Db, now: int, service: string, remove: bool)
    requires DbInv(db, now) && service in db.services && Reconfigured(db, db1, service)
    ensures var r := Sources.InvalidateTx(db1, service, remove).db;
            DbInv(r, now) && Evolves(db, r) && QuietExcept(now, db, r, {})
  {
    forall id | id in db.tasks ensures RowKeeps(db, Sources.InvalidateTx(db1, service, remove).db, now, id) {
      InvalidatedRow(db, db1, now, service, remove, id);
    }
    AllRowsKeep(db, Sources.InvalidateTx(db1, service, remove).db, now);
  }

  lemma CancelKeeps(db: Db, now: int, id: Id)
    requires DbInv(db, now)
    ensures var r := Tasks.CancelTx(db, id).db; DbInv(r, now) && Evolves(db, r) && QuietExcept(now, db, r, {})
  {
    NothingKeeps(db, now);
    if id in db.tasks {
      CancelStep(now, db.ServiceOf(id), db.tasks[id]);
      OneTaskKeeps(db, now, id, Tasks.CancelledTask(db.tasks[id]));
    }
  }

  lemma ResumeKeeps(db: Db, now: int, id: Id, information: string)
    requires DbInv(db, now)
    ensures var r := Tasks.ResumeTx(db, now, id, information).db;
            DbInv(r, now) && Evolves(db, r) && QuietExcept(now, db, r, {id})
  {
    NothingKeeps(db, now);
    var r := Tasks.ResumeTx(db, now, id, information);
    if r.reply.Ok? {
      ResumeStep(now, db.ServiceOf(id), db.tasks[id], information);
      OneTaskKeeps(db, now, id, Tasks.ResumedTask(db.tasks[id], now, information, db.ServiceOf(id).watermark));
    }
  }

  lemma ClaimKeeps(db: Db, now: int, lease: nat, maxActive: nat, owner: string, locked: set<Id>, pick: Option<Id>)
    requires DbInv(db, now) && Queue.Selects(Queue.Sweep(db, now).tasks, now, locked, pick)
    ensures var r := Queue.ClaimTx(db, now, lease, maxActive, owner, pick).db;
            DbInv(r, now) && Evolves(db, r) && QuietExcept(now, db, r, if pick.Some? then {pick.value} else {})
  {
    var swept := Queue.Sweep(db, now);
    var r := Queue.ClaimTx(db, now, lease, maxActive, owner, pick).db;
    ClaimCases(db, now, lease, maxActive, owner, pick);
    NothingKeeps(db, now);
    SweepKeeps(db, now);
    if r != db && r != swept {
      PickKeeps(db, now, lease, owner, locked, pick.value);
    }
  }

  lemma PickKeeps(db: Db, now: int, lease: nat, owner: string, locked: set<Id>, id: Id)
    requires DbInv(db, now) && Queue.Selects(Queue.Sweep(db, now).tasks, now, locked, Some(id))
    requires id in Queue.Sweep(db, now).tasks
    ensures var r := Queue.TakeTx(Queue.Sweep(db, now), now, lease, owner, id).db;
            DbInv(r, now) && Evolves(db, r) && QuietExcept(now, db, r, {id})
  {
    var swept := Queue.Sweep(db, now);
    SweepKeeps(db, now);
    PickIsClaimable(swept, now, locked, id);
    assert swept.tasks[id] == Queue.Swept(db.tasks[id], now);
    TakeKeeps(db, swept, now, lease, owner, id);
  }

  lemma PickIsClaimable(swept: Db, now: int, locked: set<Id>, id: Id)
    requires Queue.Selects(swept.tasks, now, locked, Some(id))
    ensures id in swept.tasks && Queue.Claimable(swept.tasks[id], now)
  {
  }

  lemma ClaimCases(db: Db, now: int, lease: nat, maxActive: nat, owner: string, pick: Option<Id>)
    requires db.Valid() && (pick.Some? ==> pick.value in db.tasks)
    ensures var r := Queue.ClaimTx(db, now, lease, maxActive, owner, pick).db;
            || r == db || r == Queue.Sweep(db, now)
            || (pick.Some? && r == Queue.TakeTx(Queue.Sweep(db, now), now, lease, owner, pick.value).db
                && |Queue.LiveJobs(Queue.Sweep(db, now).tasks, now)| < maxActive)
    ensures forall id :: id in db.tasks ==> !Queue.Exhausted(Queue.Sweep(db, now).tasks[id].job, now)
  {
    forall id | id in db.tasks ensures !Queue.Exhausted(Queue.Sweep(db, now).tasks[id].job, now) {
      assert Queue.Sweep(db, now).tasks[id] == Queue.Swept(db.tasks[id], now);
    }
  }

  /** The second half of a claim, on the swept tables. */
  lemma TakeKeeps(db: Db, swept: Db, now: int, lease: nat, owner: string, id: Id)
    requires DbInv(swept, now) && Evolves(db, swept) && QuietExcept(now, db, swept, {})
             && swept.tasks.Keys == db.tasks.Keys
    requires id in swept.tasks && Queue.Claimable(swept.tasks[id], now) && !Queue.Exhausted(swept.tasks[id].job, now)
    ensures var r := Queue.TakeTx(swept, now, lease, owner, id).db;
            DbInv(r, now) && Evolves(db, r) && QuietExcept(now, db, r, {id})
  {
    var s, t := swept.ServiceOf(id), swept.tasks[id];
    if swept.Member(t.inv.subject, t.inv.team, false) {
      ClaimStep(now, s, t, lease, owner);
      OneTaskAfter(db, swept, now, id, Queue.ClaimedTask(t, now, lease, owner, s.watermark));
    } else {
      RevokeStep(now, s, t);
      OneTaskAfter(db, swept, now, id, Queue.RevokedTask(t));
    }
  }

  lemma OneTaskAfter(db: Db, swept: Db, now: int, id: Id, t': Task)
    requires DbInv(swept, now) && Evolves(db, swept) && QuietExcept(now, db, swept, {})
             && swept.tasks.Keys == db.tasks.Keys
    requires id in swept.tasks && t'.inv.service == swept.tasks[id].inv.service
    requires Step(now, swept.ServiceOf(id), swept.tasks[id], t') && FreshOrSame(swept.tasks, id, t')
    ensures var r := swept.WithTask(id, t'); DbInv(r, now) && Evolves(db, r) && QuietExcept(now, db, r, {id})
  {
    OneTaskKeeps(swept, now, id, t');
    EvolvesTransitive(db, swept, swept.WithTask(id, t'));
  }

  lemma FencedStep(db: Db, now: int, lease: nat, id: Id, op: Queue.Operation, b: Callback)
    requires db.Valid() && id in db.tasks && db.tasks[id].job.Live(now)
    ensures var r := Queue.Fenced(db, now, lease, id, op, b);
            r.Ok? ==> Step(now, db.ServiceOf(id), db.tasks[id], r.value)
                      && r.value.action == db.tasks[id].action
                      && (op.ResultOp? || Quiet(now, db.tasks[id], r.value))
  {
    var s, t := db.ServiceOf(id), db.tasks[id];
    match op {
      case SandboxOp => EventStep(now, s, t, SandboxRequested);
      case HeartbeatOp => HeartbeatStep(now, s, t, lease);
      case AuthorizeOp => EventStep(now, s, t, AuthorizedEvent);
      case EventOp => EventStep(now, s, t, WorkerEvent(b.kind));
      case ResultOp => if Queue.Published(b.status) { PublishStep(now, s, t, b); }
      case FailureOp => RequeueStep(now, s, t, b.kind);
      case OtherOp =>
    }
  }

  lemma CallbackKeeps(db: Db, now: int, lease: nat, id: Id, op: Queue.Operation, b: Callback)
    requires DbInv(db, now)
    ensures var r := Queue.CallbackTx(db, now, lease, id, op, b).db;
            DbInv(r, now) && Evolves(db, r) && QuietExcept(now, db, r, if op.ResultOp? then {id} else {})
  {
    NothingKeeps(db, now);
    var r := Queue.CallbackTx(db, now, lease, id, op, b).db;
    if r != db {
      FencedStep(db, now, lease, id, op, b);
      OneTaskKeeps(db, now, id, Queue.Fenced(db, now, lease, id, op, b).value);
    }
  }

  lemma DraftKeeps(db: Db, now: int, u: string, id: Id, aid: Id, version: nat, title: string, body: string)
    requires DbInv(db, now) && IsUuid(aid)
    requires forall k :: k in db.tasks && db.tasks[k].action.Some? ==> db.tasks[k].action.value.id != aid
    ensures var r := Actions.DraftTx(db, now, u, id, aid, version, title, body).db;
            DbInv(r, now) && Evolves(db, r) && QuietExcept(now, db, r, {})
  {
    NothingKeeps(db, now);
    if Actions.DraftTx(db, now, u, id, aid, version, title, body).reply.Ok? {
      DraftStep(db, now, u, id, aid, version, title, body);
      OneTaskKeeps(db, now, id, Actions.DraftedTask(db.tasks[id], now, db.ServiceOf(id), aid, title, body));
    }
  }

  lemma DecideRowStep(db: Db, now: int, u: string, id: Id, decision: Actions.Decision, version: nat)
    requires db.Valid() && id in db.tasks && db.tasks[id].action.Some?
    ensures var t, r := db.tasks[id], Actions.DecideTask(db, now, u, id, decision, version);
            r.Ok? ==> Step(now, db.ServiceOf(id), t, r.value) && Quiet(now, t, r.value)
                      && r.value.action.Some? && r.value.action.value.id == t.action.value.id
  {
    var s, t := db.ServiceOf(id), db.tasks[id];
    var r := Actions.DecideTask(db, now, u, id, decision, version);
    if r.Ok? && decision.Reconcile? {
      ReconcileStep(now, s, t, now - 60);
    } else if r.Ok? && r.value != t {
      DecideStep(now, s, t, u, decision.Approve?);
    }
  }

  lemma DecideKeeps(db: Db, now: int, u: string, id: Id, decision: Actions.Decision, version: nat)
    requires DbInv(db, now)
    ensures var r := Actions.DecideTx(db, now, u, id, decision, version).db;
            DbInv(r, now) && Evolves(db, r) && QuietExcept(now, db, r, {})
  {
    NothingKeeps(db, now);
    if Actions.DecideTx(db, now, u, id, decision, version).reply.Ok? {
      DecideRowStep(db, now, u, id, decision, version);
      OneTaskKeeps(db, now, id, Actions.DecideTask(db, now, u, id, decision, version).value);
    }
  }

  lemma DispatchKeeps(db: Db, now: int, id: Id)
    requires DbInv(db, now) && id in db.tasks && Actions.Due(db.tasks[id], now)
    ensures var r := Actions.DispatchTx(db, now, id).db; DbInv(r, now) && Evolves(db, r) && QuietExcept(now, db, r, {})
  {
    NothingKeeps(db, now);
    var s, t := db.ServiceOf(id), db.tasks[id];
    var reconcile := !t.action.value.state.Approved?;
    if !reconcile && Actions.Withdrawn(db, id) {
      RetireStep(now, s, t);
      OneTaskKeeps(db, now, id, Actions.RetiredTask(t, now));
    } else if reconcile || s.repo == t.action.value.target {
      DispatchStep(now, s, t, reconcile);
      OneTaskKeeps(db, now, id, Actions.TakenTask(t, now, reconcile));
    }
  }

  lemma FinishKeeps(db: Db, now: int, run: Actions.ActionRun, issue: Option<nat>)
    requires DbInv(db, now) && run.investigation in db.tasks
    requires db.tasks[run.investigation].action.Some? && db.tasks[run.investigation].action.value.state.Dispatched()
    ensures var r := Actions.FinishTx(db, now, run, issue);
            DbInv(r, now) && Evolves(db, r) && QuietExcept(now, db, r, {run.investigation})
  {
    var id := run.investigation;
    FinishStep(now, db.ServiceOf(id), db.tasks[id], run.marker, issue);
    OneTaskKeeps(db, now, id, Actions.FinishedTask(db.tasks[id], now, run.marker, issue));
  }

  lemma TimePasses(db: Db, now: int, later: int)
    requires DbInv(db, now) && now <= later
    ensures DbInv(db, later)
  {
    forall id | id in db.tasks ensures TaskInv(later, db.ServiceOf(id), db.tasks[id]) {
      assert TaskInv(now, db.ServiceOf(id), db.tasks[id]);
    }
  }
}
