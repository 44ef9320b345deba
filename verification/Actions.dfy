/** backend/internal/app/actions.go: drafting, approval, and the two transactions around a dispatch. */
module Actions {
  import opened Wrappers
  import opened Tables

  const RECONCILE_AFTER: nat := 15
  const MARKER_PREFIX := "incidentdesk:"

  datatype Decision = Approve | Reject | Reconcile

  /** What a runner carries out of its first transaction. */
  datatype ActionRun = ActionRun(
    id: Id, investigation: Id, target: string, title: string, body: string, marker: string, reconcile: bool)

  function Digest(target: string, title: string, body: string, evidence: EvidenceHash): ActionDigest {
    ActionDigest(target, title, body, evidence)
  }

  // ---- draft ------------------------------------------------------------------------

  predicate DraftSizes(title: string, body: string) {
    3 <= |title| <= 200 && 3 <= |body| <= 20000
  }

  function NewAction(aid: Id, target: string, title: string, body: string, evidence: EvidenceHash, source: nat,
      now: int): Action {
    Action(aid, 1, Draft, target, title, body, Digest(target, title, body, evidence), evidence, source,
           None, None, None, NoResult, MARKER_PREFIX + aid, now)
  }

  /** The upsert keeps the id, the marker and the target of the first draft. */
  function Redrafted(a: Action, target: string, title: string, body: string, evidence: EvidenceHash, source: nat,
      now: int): Action {
    a.(version := a.version + 1, state := Draft, title := title, body := body,
       digest := Digest(target, title, body, evidence), evidence := evidence, sourceVersion := source,
       approvedBy := None, approvedDigest := None, approvedVersion := None, updatedAt := now)
  }

  function DraftedTask(t: Task, now: int, s: Service, aid: Id, title: string, body: string): Task {
    var evidence := EvidenceHash(t.inv.report);
    t.(action := Some(
         if t.action.Some?
         then Redrafted(t.action.value, s.repo, title, body, evidence, t.inv.sourceVersion, now)
         else NewAction(aid, s.repo, title, body, evidence, t.inv.sourceVersion, now))).WithEvent(DraftSaved)
  }

  /** Why a draft is refused, the task having been found. */
  function DraftError(db: Db, u: string, id: Id, version: nat): Option<Error>
    requires db.Valid() && id in db.tasks
  {
    var t := db.tasks[id];
    if !db.Member(u, t.inv.team, false) then Some(TeamForbidden)
    else if !t.inv.status.Completed? && !t.inv.status.Partial? then Some(ReportNotReady)
    else if t.inv.sourceVersion != db.ServiceOf(id).watermark then Some(EvidenceStale)
    else if t.action.Some? && t.action.value.state.Dispatched() then Some(ActionAlreadyDispatched)
    else if version != (if t.action.Some? then t.action.value.version else 0) then Some(VersionConflict)
    else None
  }

  function DraftTx(db: Db, now: int, u: string, id: Id, aid: Id, version: nat, title: string,
      body: string): (r: Outcome<()>)
    requires db.Valid()
    ensures r.db.Valid()
  {
    if !DraftSizes(title, body) then Outcome(db, Err(InvalidDraft))
    else if id !in db.tasks then Outcome(db, Err(NoRows))
    else
      var refused := DraftError(db, u, id, version);
      if refused.Some? then Outcome(db, Err(refused.value))
      else Outcome(db.WithTask(id, DraftedTask(db.tasks[id], now, db.ServiceOf(id), aid, title, body)), Ok(()))
  }

  method SaveDraft(st: Store, now: int, u: string, id: Id, aid: Id, version: nat, title: string, body: string)
    returns (reply: Result<(), Error>)
    requires st.Snapshot().Valid()
    modifies st
    ensures Outcome(st.Snapshot(), reply) == DraftTx(old(st.Snapshot()), now, u, id, aid, version, title, body)
  {
    if !DraftSizes(title, body) {
      return Err(InvalidDraft);
    }
    if id !in st.tasks {
      return Err(NoRows);
    }
    var t := st.tasks[id];
    var s := st.services[t.inv.service];
    if !st.Member(u, t.inv.team, false) {
      return Err(TeamForbidden);
    }
    if t.inv.status != Completed && t.inv.status != Partial {
      return Err(ReportNotReady);
    }
    if t.inv.sourceVersion != s.watermark {
      return Err(EvidenceStale);
    }
    var current := 0;
    if t.action.Some? {
      current := t.action.value.version;
      var state := t.action.value.state;
      if state == Executing || state == Unknown || state == Succeeded {
        return Err(ActionAlreadyDispatched);
      }
    }
    if version != current {
      return Err(VersionConflict);
    }
    var evidence := EvidenceHash(t.inv.report);
    if t.action.Some? {
      t := t.(action := Some(Redrafted(t.action.value, s.repo, title, body, evidence, t.inv.sourceVersion, now)));
    } else {
      t := t.(action := Some(NewAction(aid, s.repo, title, body, evidence, t.inv.sourceVersion, now)));
    }
    st.Commit(id, t.WithEvent(DraftSaved));
    reply := Ok(());
  }

  // ---- decide -----------------------------------------------------------------------

  function Decided(a: Action, u: string, approve: bool, now: int): Action {
    a.(state := if approve then Approved else Rejected, approvedBy := Some(u), approvedVersion := Some(a.version),
       approvedDigest := Some(a.digest), updatedAt := now)
  }

  /** The approval row, the action row and the event of one decision. */
  function DecidedTask(t: Task, now: int, u: string, approve: bool): Task
    requires t.action.Some?
  {
    var a := t.action.value;
    t.(approvals := t.approvals + [Approval(a.id, a.version, a.digest, a.evidence, u, approve)],
       action := Some(Decided(a, u, approve, now))).WithEvent(if approve then ApprovedEvent else RejectedEvent)
  }

  function DecideTask(db: Db, now: int, u: string, id: Id, decision: Decision, version: nat): (r: Result<Task, Error>)
    requires db.Valid() && id in db.tasks && db.tasks[id].action.Some?
    ensures r.Ok? ==> r.value.inv.service == db.tasks[id].inv.service
  {
    var t := db.tasks[id];
    var a := t.action.value;
    if !db.Member(u, t.inv.team, true) then Err(TeamForbidden)
    else if a.version != version then Err(VersionConflict)
    else if decision.Reconcile? then
      if !a.state.Unknown? then Err(NotUnknown) else Ok(t.(action := Some(a.(updatedAt := now - 60))))
    else if t.inv.status.Cancelled? || a.sourceVersion != db.ServiceOf(id).watermark
            || a.target != db.ServiceOf(id).repo
    then Err(ApprovalScopeStale)
    else if decision.Approve? && (a.state.Approved? || a.state.Dispatched()) then Ok(t)
    else if !a.state.Draft? && !a.state.Rejected? then Err(InvalidActionState)
    else Ok(DecidedTask(t, now, u, decision.Approve?))
  }

  function DecideTx(db: Db, now: int, u: string, id: Id, decision: Decision, version: nat): (r: Outcome<()>)
    requires db.Valid()
    ensures r.db.Valid()
  {
    if id !in db.tasks || db.tasks[id].action.None? then Outcome(db, Err(NoRows))
    else
      match DecideTask(db, now, u, id, decision, version)
      case Err(e) => Outcome(db, Err(e))
      case Ok(t) => Outcome(db.WithTask(id, t), Ok(()))
  }

  /** When a decision is accepted: by an approver, on the version shown, on an unknown outcome to reconcile, and
      otherwise on current content for the configured repository that is still undecided, rejected, or (to
      approve) already approved. */
  predicate Decidable(t: Task, s: Service, approver: bool, decision: Decision, version: nat)
    requires t.action.Some?
  {
    var a := t.action.value;
    && approver && a.version == version
    && if decision.Reconcile? then a.state.Unknown?
       else
         && !t.inv.status.Cancelled? && a.sourceVersion == s.watermark && a.target == s.repo
         && (a.state.Draft? || a.state.Rejected? || (decision.Approve? && (a.state.Approved? || a.state.Dispatched())))
  }

  /** What an accepted decision records: nothing twice, and otherwise the verdict on exactly this version. */
  predicate Recorded(t: Task, t': Task, now: int, u: string, decision: Decision)
    requires t.action.Some?
  {
    var a := t.action.value;
    && t'.job == t.job && t'.action.Some? && t'.action.value.digest == a.digest && t'.action.value.version == a.version
    && if decision.Reconcile? then t'.approvals == t.approvals && t'.action.value == a.(updatedAt := now - 60)
    && t'.inv == t.inv
       else if a.state.Approved? || a.state.Dispatched() then t' == t
       else
         && t'.approvals == t.approvals + [Approval(a.id, a.version, a.digest, a.evidence, u, decision.Approve?)]
         && t'.action.value.state == (if decision.Approve? then Approved else Rejected)
         && t'.action.value.approvedBy == Some(u) && t'.action.value.approvedVersion == Some(a.version)
         && t'.action.value.approvedDigest == Some(a.digest) && t'.inv == t.inv.(seqNo := t.inv.seqNo + 1)
  }

  method DecideRow(st: Store, now: int, u: string, id: Id, decision: Decision, version: nat)
      returns (reply: Result<Task, Error>)
    requires st.Snapshot().Valid() && id in st.tasks && st.tasks[id].action.Some?
    ensures var t := st.tasks[id];
            && (reply.Ok?
                <==> Decidable(t, st.services[t.inv.service], st.Member(u, t.inv.team, true), decision, version))
            && (reply.Ok? ==> Recorded(t, reply.value, now, u, decision))
    ensures reply == DecideTask(st.Snapshot(), now, u, id, decision, version)
  {
    var t := st.tasks[id];
    var a := t.action.value;
    var s := st.services[t.inv.service];
    if !st.Member(u, t.inv.team, true) {
      return Err(TeamForbidden);
    }
    if a.version != version {
      return Err(VersionConflict);
    }
    if decision == Reconcile {
      if a.state != Unknown {
        return Err(NotUnknown);
      }
      return Ok(t.(action := Some(a.(updatedAt := now - 60))));
    }
    if t.inv.status == Cancelled || a.sourceVersion != s.watermark || a.target != s.repo {
      return Err(ApprovalScopeStale);
    }
    if decision == Approve
        && (a.state == Approved || a.state == Executing || a.state == Unknown || a.state == Succeeded) {
      return Ok(t);
    }
    if a.state != Draft && a.state != Rejected {
      return Err(InvalidActionState);
    }
    var next := if decision == Approve then Approved else Rejected;
    t := t.(approvals := t.approvals + [Approval(a.id, version, a.digest, a.evidence, u, decision == Approve)]);
    t := t.(action := Some(a.(state := next, approvedBy := Some(u), approvedVersion := Some(a.version),
                              approvedDigest := Some(a.digest), updatedAt := now)));
    reply := Ok(t.WithEvent(if decision == Approve then ApprovedEvent else RejectedEvent));
  }

  method Decide(st: Store, now: int, u: string, id: Id, decision: Decision, version: nat) returns (reply: Result<(),
      Error>)
    requires st.Snapshot().Valid()
    modifies st
    ensures Outcome(st.Snapshot(), reply) == DecideTx(old(st.Snapshot()), now, u, id, decision, version)
  {
    if id !in st.tasks || st.tasks[id].action.None? {
      return Err(NoRows);
    }
    var decided := DecideRow(st, now, u, id, decision, version);
    if decided.Err? {
      return Err(decided.error);
    }
    st.Commit(id, decided.value);
    reply := Ok(());
  }

  // ---- actionStep -------------------------------------------------------------------

  predicate Due(t: Task, now: int) {
    && t.action.Some?
    && (|| t.action.value.state.Approved?
        || ((t.action.value.state.Executing? || t.action.value.state.Unknown?)
            && t.action.value.updatedAt < now - RECONCILE_AFTER))
  }

  function DueActions(tasks: map<Id, Task>, now: int, locked: set<Id>): (s: set<Id>)
    ensures s <= tasks.Keys
    ensures forall id :: id in s ==> tasks[id].action.Some?
  {
    set id | id in tasks && Due(tasks[id], now) && id !in locked
  }

  predicate Oldest(tasks: map<Id, Task>, s: set<Id>, id: Id)
    requires s <= tasks.Keys && forall k :: k in s ==> tasks[k].action.Some?
  {
    id in s && forall k :: k in s ==> tasks[id].action.value.updatedAt <= tasks[k].action.value.updatedAt
  }

  /** The row "order by updated_at ... skip locked limit 1" may return. */
  predicate Selects(tasks: map<Id, Task>, now: int, locked: set<Id>, pick: Option<Id>) {
    match pick
    case None => DueActions(tasks, now, locked) == {}
    case Some(id) => Oldest(tasks, DueActions(tasks, now, locked), id)
  }

  /** Why an approved action is withdrawn instead of sent. */
  predicate Withdrawn(db: Db, id: Id)
    requires db.Valid() && id in db.tasks && db.tasks[id].action.Some?
  {
    var t := db.tasks[id];
    var a := t.action.value;
    || t.inv.status.Cancelled?
    || a.sourceVersion != db.ServiceOf(id).watermark
    || a.version != a.approvedVersion.GetOr(0)
    || a.approvedDigest != Some(a.digest)
    || !RolesHold(db, id)
  }

  /** The approver is still an approver and the initiator still a member. */
  predicate RolesHold(db: Db, id: Id)
    requires id in db.tasks && db.tasks[id].action.Some?
  {
    var t := db.tasks[id];
    db.Member(t.action.value.approvedBy.GetOr(""), t.inv.team, true) && db.Member(t.inv.subject, t.inv.team, false)
  }

  function RunOf(id: Id, a: Action, reconcile: bool): ActionRun {
    ActionRun(a.id, id, a.target, a.title, a.body, a.marker, reconcile)
  }

  function RetiredTask(t: Task, now: int): Task
    requires t.action.Some?
  {
    t.(action := Some(t.action.value.(state := Invalidated, updatedAt := now))).WithEvent(ApprovalInvalidated)
  }

  function TakenTask(t: Task, now: int, reconcile: bool): Task
    requires t.action.Some?
  {
    t.(action := Some(t.action.value.(state := if reconcile then Unknown else Executing, updatedAt := now)))
     .WithEvent(if reconcile then UnknownEvent else ExecutingEvent)
  }

  /** The first transaction of actionStep on the selected action. */
  function DispatchTx(db: Db, now: int, id: Id): (r: Outcome<Option<ActionRun>>)
    requires db.Valid() && id in db.tasks && Due(db.tasks[id], now)
    ensures r.db.Valid()
  {
    var t := db.tasks[id];
    var reconcile := !t.action.value.state.Approved?;
    if !reconcile && Withdrawn(db, id) then Outcome(db.WithTask(id, RetiredTask(t, now)), Ok(None))
    else if !reconcile && db.ServiceOf(id).repo != t.action.value.target then Outcome(db, Err(TargetChanged))
    else Outcome(db.WithTask(id, TakenTask(t, now, reconcile)), Ok(Some(RunOf(id, t.action.value, reconcile))))
  }

  function FinishedTask(t: Task, now: int, marker: string, issue: Option<nat>): Task
    requires t.action.Some?
  {
    var a := t.action.value;
    t.(action := Some(
         if issue.Some? then a.(state := Succeeded, result := Verified(issue.value), updatedAt := now)
         else a.(state := Unknown, result := Unresolved(marker), updatedAt := now)))
     .WithEvent(ActionFinished(issue.Some?))
  }

  /** The last transaction of actionStep: no guard on the state it overwrites. */
  function FinishTx(db: Db, now: int, run: ActionRun, issue: Option<nat>): (r: Db)
    requires db.Valid() && run.investigation in db.tasks && db.tasks[run.investigation].action.Some?
    ensures r.Valid()
  {
    db.WithTask(run.investigation, FinishedTask(db.tasks[run.investigation], now, run.marker, issue))
  }

  lemma {:induction false} OldestExists(tasks: map<Id, Task>, s: set<Id>) returns (id: Id)
    requires s != {} && s <= tasks.Keys && forall k :: k in s ==> tasks[k].action.Some?
    ensures Oldest(tasks, s, id)
    decreases s
  {
    id :| id in s;
    if s != {id} {
      var rest := s - {id};
      assert s == rest + {id};
      var other := OldestExists(tasks, rest);
      if tasks[other].action.value.updatedAt < tasks[id].action.value.updatedAt {
        id := other;
      }
    }
  }

  method Select(tasks: map<Id, Task>, now: int, locked: set<Id>) returns (pick: Option<Id>)
    ensures Selects(tasks, now, locked, pick)
  {
    var due := DueActions(tasks, now, locked);
    if due == {} {
      return None;
    }
    ghost var oldest := OldestExists(tasks, due);
    var id :| id in due && Oldest(tasks, due, id);
    pick := Some(id);
  }

  method DispatchRow(st: Store, now: int, id: Id) returns (reply: Result<Option<ActionRun>, Error>)
    requires st.Snapshot().Valid() && id in st.tasks && Due(st.tasks[id], now)
    modifies st
    ensures Outcome(st.Snapshot(), reply) == DispatchTx(old(st.Snapshot()), now, id)
  {
    var t := st.tasks[id];
    var a := t.action.value;
    var s := st.services[t.inv.service];
    var reconcile := a.state != Approved;
    var approver := st.Member(a.approvedBy.GetOr(""), t.inv.team, true);
    var initiator := st.Member(t.inv.subject, t.inv.team, false);
    if !reconcile
        && (t.inv.status == Cancelled || a.sourceVersion != s.watermark || a.version != a.approvedVersion.GetOr(0)
                      || a.approvedDigest != Some(a.digest) || !approver || !initiator) {
      t := t.(action := Some(a.(state := Invalidated, updatedAt := now)));
      st.Commit(id, t.WithEvent(ApprovalInvalidated));
      return Ok(None);
    }
    if !reconcile && s.repo != a.target {
      return Err(TargetChanged);
    }
    t := t.(action := Some(a.(state := if reconcile then Unknown else Executing, updatedAt := now)));
    st.Commit(id, t.WithEvent(if reconcile then UnknownEvent else ExecutingEvent));
    reply := Ok(Some(ActionRun(a.id, id, a.target, a.title, a.body, a.marker, reconcile)));
  }

  method Dispatch(st: Store, now: int, locked: set<Id>) returns (reply: Result<Option<ActionRun>, Error>,
      pick: Option<Id>)
    requires st.Snapshot().Valid()
    modifies st
    ensures Selects(old(st.tasks), now, locked, pick)
    ensures pick.None? ==> reply == Ok(None) && st.Snapshot() == old(st.Snapshot())
    ensures pick.Some? ==> Outcome(st.Snapshot(), reply) == DispatchTx(old(st.Snapshot()), now, pick.value)
  {
    pick := Select(st.tasks, now, locked);
    if pick.None? {
      return Ok(None), None;
    }
    reply := DispatchRow(st, now, pick.value);
  }

  method Finish(st: Store, now: int, run: ActionRun, issue: Option<nat>)
    requires st.Snapshot().Valid() && run.investigation in st.tasks && st.tasks[run.investigation].action.Some?
    modifies st
    ensures st.Snapshot() == FinishTx(old(st.Snapshot()), now, run, issue)
  {
    var t := st.tasks[run.investigation];
    var a := t.action.value;
    if issue.Some? {
      t := t.(action := Some(a.(state := Succeeded, result := Verified(issue.value), updatedAt := now)));
    } else {
      t := t.(action := Some(a.(state := Unknown, result := Unresolved(run.marker), updatedAt := now)));
    }
    st.Commit(run.investigation, t.WithEvent(ActionFinished(issue.Some?)));
  }
}
