/** What drafting, deciding, dispatching and finishing do, row by row: stated over the tables alone, apart from the
    functions that compute it. */
module ActionRules {
  import opened Wrappers
  import opened Tables
  import opened TaskRules
  import Actions

  // ---- draft ----------------------------------------------------------------------------

  predicate Sent(s: ActionState) {
    s.Executing? || s.Unknown? || s.Succeeded?
  }

  /** A member of the team may save a draft of proper size on a finished report of current sources, naming the version
      it replaces, as long as no request may have left. */
  predicate CanDraft(db: Db, u: string, id: Id, version: nat, title: string, body: string)
    requires db.Valid()
  {
    && 3 <= |title| <= 200 && 3 <= |body| <= 20000 && id in db.tasks
    && var t := db.tasks[id];
       && (u, t.inv.team) in db.members && (t.inv.status.Completed? || t.inv.status.Partial?)
       && t.inv.sourceVersion == db.services[t.inv.service].watermark
       && match t.action
          case None => version == 0
          case Some(a) => !Sent(a.state) && version == a.version
  }

  /** The stored draft: new text on the current report and sources with its own digest and no approval left, at the
      next version. The id, the marker and the target of the first draft stay. */
  predicate DraftedRow(t: Task, a': Action, now: int, s: Service, aid: Id, title: string, body: string) {
    var evidence := EvidenceHash(t.inv.report);
    && a'.state.Draft? && a'.title == title && a'.body == body && a'.evidence == evidence
    && a'.digest == ActionDigest(s.repo, title, body, evidence) && a'.sourceVersion == t.inv.sourceVersion
    && a'.approvedBy.None? && a'.approvedDigest.None? && a'.approvedVersion.None? && a'.updatedAt == now
    && match t.action
       case None =>
         a'.id == aid && a'.version == 1 && a'.target == s.repo && a'.marker == "incidentdesk:" + aid
         && a'.result.NoResult?
       case Some(a) =>
         a'.id == a.id && a'.version == a.version + 1 && a'.target == a.target && a'.marker == a.marker
         && a'.result == a.result
  }

  lemma DraftRule(db: Db, now: int, u: string, id: Id, aid: Id, version: nat, title: string, body: string)
    requires db.Valid()
    ensures var r := Actions.DraftTx(db, now, u, id, aid, version, title, body);
            && (r.reply.Ok? <==> CanDraft(db, u, id, version, title, body))
            && (r.reply.Err? ==> r.db == db)
            && (r.reply.Ok? ==>
                  && OnlyTask(db, r.db, id)
                  && var t, t' := db.tasks[id], r.db.tasks[id];
                     && t'.action.Some?
                     && DraftedRow(t, t'.action.value, now, db.services[t.inv.service], aid, title, body)
                     && t'.inv == t.inv.(seqNo := t.inv.seqNo + 1) && t'.job == t.job && t'.approvals == t.approvals
                     && OneMoreEvent(t, t', DraftSaved))
  {
  }

  /** Why a draft is refused: the first of these that holds. */
  lemma DraftRefused(db: Db, now: int, u: string, id: Id, aid: Id, version: nat, title: string, body: string)
    requires db.Valid() && !CanDraft(db, u, id, version, title, body)
    ensures var reply := Actions.DraftTx(db, now, u, id, aid, version, title, body).reply;
            reply == Err(
              if |title| < 3 || |title| > 200 || |body| < 3 || |body| > 20000 then InvalidDraft
              else if id !in db.tasks then NoRows
              else
                var t := db.tasks[id];
                if (u, t.inv.team) !in db.members then TeamForbidden
                else if !(t.inv.status.Completed? || t.inv.status.Partial?) then ReportNotReady
                else if t.inv.sourceVersion != db.services[t.inv.service].watermark then EvidenceStale
                else if t.action.Some? && Sent(t.action.value.state) then ActionAlreadyDispatched
                else VersionConflict)
  {
  }

  // ---- decide ---------------------------------------------------------------------------

  predicate IsApprover(db: Db, u: string, team: string) {
    (u, team) in db.members && db.members[(u, team)] == Approver
  }

  /** An approver may decide on exactly the version shown: send an unknown outcome to reconciliation, or approve or
      reject current content for the configured repository that is undecided or rejected; approving again what is
      approved or sent is accepted too. */
  predicate CanDecide(db: Db, u: string, id: Id, decision: Actions.Decision, version: nat)
    requires db.Valid()
  {
    && id in db.tasks && db.tasks[id].action.Some?
    && var t := db.tasks[id];
       var a, s := t.action.value, db.services[t.inv.service];
       && IsApprover(db, u, t.inv.team) && version == a.version
       && if decision.Reconcile? then a.state.Unknown?
          else
            && !t.inv.status.Cancelled? && a.sourceVersion == s.watermark && a.target == s.repo
            && (a.state.Draft? || a.state.Rejected? || (decision.Approve? && (a.state.Approved? || Sent(a.state))))
  }

  /** What an accepted decision stores: reconciliation makes the outcome due, a repeated approval stores nothing, and
      otherwise the verdict on this version is recorded with who gave it, in the action's row and in the list of
      decisions. */
  predicate DecidedRow(t: Task, t': Task, now: int, u: string, decision: Actions.Decision)
    requires t.action.Some?
  {
    var a := t.action.value;
    if decision.Reconcile? then t' == t.(action := Some(a.(updatedAt := now - 60)))
    else if a.state.Approved? || Sent(a.state) then t' == t
    else
      var approve := decision.Approve?;
      && t'.action == Some(a.(state := if approve then Approved else Rejected, approvedBy := Some(u),
                              approvedVersion := Some(a.version), approvedDigest := Some(a.digest), updatedAt := now))
      && t'.approvals == t.approvals + [Approval(a.id, a.version, a.digest, a.evidence, u, approve)]
      && t'.inv == t.inv.(seqNo := t.inv.seqNo + 1) && t'.job == t.job
      && OneMoreEvent(t, t', if approve then ApprovedEvent else RejectedEvent)
  }

  lemma DecidedRowIs(db: Db, now: int, u: string, id: Id, decision: Actions.Decision, version: nat)
    requires db.Valid() && id in db.tasks && db.tasks[id].action.Some?
    ensures var r := Actions.DecideTask(db, now, u, id, decision, version);
            && (r.Ok? <==> CanDecide(db, u, id, decision, version))
            && (r.Ok? ==> DecidedRow(db.tasks[id], r.value, now, u, decision))
  {
  }

  lemma DecideRule(db: Db, now: int, u: string, id: Id, decision: Actions.Decision, version: nat)
    requires db.Valid()
    ensures var r := Actions.DecideTx(db, now, u, id, decision, version);
            && (r.reply.Ok? <==> CanDecide(db, u, id, decision, version))
            && (r.reply.Err? ==> r.db == db)
            && (r.reply.Ok? ==>
                  OnlyTask(db, r.db, id) && DecidedRow(db.tasks[id], r.db.tasks[id], now, u, decision))
  {
    if id in db.tasks && db.tasks[id].action.Some? {
      DecidedRowIs(db, now, u, id, decision, version);
    }
  }

  /** Why a decision is refused: the first of these that holds. */
  lemma DecideRefused(db: Db, now: int, u: string, id: Id, decision: Actions.Decision, version: nat)
    requires db.Valid() && !CanDecide(db, u, id, decision, version)
    ensures var reply := Actions.DecideTx(db, now, u, id, decision, version).reply;
            reply == Err(
              if id !in db.tasks || db.tasks[id].action.None? then NoRows
              else
                var t := db.tasks[id];
                var a, s := t.action.value, db.services[t.inv.service];
                if !IsApprover(db, u, t.inv.team) then TeamForbidden
                else if version != a.version then VersionConflict
                else if decision.Reconcile? then NotUnknown
                else if t.inv.status.Cancelled? || a.sourceVersion != s.watermark || a.target != s.repo
                then ApprovalScopeStale
                else InvalidActionState)
  {
  }

  // ---- dispatch and finish ------------------------------------------------------------------

  /** An approval that may be sent: of exactly this version and content, on current sources, not cancelled, with the
      approver still an approver and the initiator still a member of the team. */
  predicate StillApproved(db: Db, id: Id)
    requires db.Valid() && id in db.tasks && db.tasks[id].action.Some?
  {
    var t := db.tasks[id];
    var a := t.action.value;
    && !t.inv.status.Cancelled? && a.sourceVersion == db.services[t.inv.service].watermark
    && (if a.approvedVersion.Some? then a.approvedVersion.value else 0) == a.version
    && a.approvedDigest == Some(a.digest)
    && IsApprover(db, if a.approvedBy.Some? then a.approvedBy.value else "", t.inv.team)
    && (t.inv.subject, t.inv.team) in db.members
  }

  /** The row of a due action after its first transaction. */
  predicate MovedTo(t: Task, t': Task, now: int, state: ActionState, kind: EventKind)
    requires t.action.Some?
  {
    && t'.action == Some(t.action.value.(state := state, updatedAt := now))
    && t'.inv == t.inv.(seqNo := t.inv.seqNo + 1) && t'.job == t.job && t'.approvals == t.approvals
    && OneMoreEvent(t, t', kind)
  }

  /** What a runner takes along: the stored action as it stands. */
  predicate Carries(run: Actions.ActionRun, id: Id, a: Action, reconcile: bool) {
    && run.id == a.id && run.investigation == id && run.target == a.target && run.title == a.title
    && run.body == a.body && run.marker == a.marker && run.reconcile == reconcile
  }

  /** A due approval is handed to a runner exactly when it may still be sent and names the configured repository; an
      approval that may not be sent is withdrawn, and one for another repository is refused. */
  lemma DispatchedIff(db: Db, now: int, id: Id)
    requires db.Valid() && id in db.tasks && Actions.Due(db.tasks[id], now)
    requires db.tasks[id].action.value.state.Approved?
    ensures var reply := Actions.DispatchTx(db, now, id).reply;
            && (reply.Ok? && reply.value.Some?
                <==> StillApproved(db, id)
                     && db.tasks[id].action.value.target == db.services[db.tasks[id].inv.service].repo)
            && (reply == Ok(None) <==> !StillApproved(db, id))
            && (reply.Err? ==> reply.error == TargetChanged)
  {
  }

  lemma RetiredMoves(t: Task, now: int)
    requires t.action.Some?
    ensures MovedTo(t, Actions.RetiredTask(t, now), now, Invalidated, ApprovalInvalidated)
  {
  }

  lemma TakenMoves(t: Task, now: int, reconcile: bool)
    requires t.action.Some?
    ensures MovedTo(t, Actions.TakenTask(t, now, reconcile), now, if reconcile then Unknown else Executing,
                    if reconcile then UnknownEvent else ExecutingEvent)
  {
  }

  /** What each of the three leaves behind: an executing action and its content with the runner, a withdrawn action,
      or the tables as they were. */
  lemma DispatchRule(db: Db, now: int, id: Id)
    requires db.Valid() && id in db.tasks && Actions.Due(db.tasks[id], now)
    requires db.tasks[id].action.value.state.Approved?
    ensures var r := Actions.DispatchTx(db, now, id);
            match r.reply
            case Err(_) => r.db == db
            case Ok(None) =>
              OnlyTask(db, r.db, id) && MovedTo(db.tasks[id], r.db.tasks[id], now, Invalidated, ApprovalInvalidated)
            case Ok(Some(run)) =>
              && OnlyTask(db, r.db, id) && MovedTo(db.tasks[id], r.db.tasks[id], now, Executing, ExecutingEvent)
              && Carries(run, id, db.tasks[id].action.value, false)
  {
    RetiredMoves(db.tasks[id], now);
    TakenMoves(db.tasks[id], now, false);
  }

  /** An action whose request may have left is always handed out, to be looked up and not to be sent. */
  lemma RedispatchRule(db: Db, now: int, id: Id)
    requires db.Valid() && id in db.tasks && Actions.Due(db.tasks[id], now)
    requires !db.tasks[id].action.value.state.Approved?
    ensures var r := Actions.DispatchTx(db, now, id);
            var t := db.tasks[id];
            && OnlyTask(db, r.db, id) && MovedTo(t, r.db.tasks[id], now, Unknown, UnknownEvent)
            && r.reply.Ok? && r.reply.value.Some? && Carries(r.reply.value.value, id, t.action.value, true)
  {
    TakenMoves(db.tasks[id], now, true);
  }

  /** Due: approved, or left executing or unknown for more than 15 seconds. */
  predicate Waits(t: Task, now: int) {
    && t.action.Some?
    && var a := t.action.value;
       a.state.Approved? || ((a.state.Executing? || a.state.Unknown?) && a.updatedAt < now - 15)
  }

  /** What the selection returns: an unlocked due action that waits longest, and nothing only if there is none. */
  lemma PickRule(tasks: map<Id, Task>, now: int, locked: set<Id>, pick: Option<Id>)
    requires Actions.Selects(tasks, now, locked, pick)
    ensures pick.Some? ==>
              && pick.value in tasks && pick.value !in locked && Waits(tasks[pick.value], now)
              && forall k :: k in tasks && k !in locked && Waits(tasks[k], now) ==>
                   tasks[pick.value].action.value.updatedAt <= tasks[k].action.value.updatedAt
    ensures pick.None? ==> forall k :: k in tasks && k !in locked ==> !Waits(tasks[k], now)
  {
    forall k | k in tasks && k !in locked && Waits(tasks[k], now) ensures k in Actions.DueActions(tasks, now, locked) {
    }
  }

  /** The outcome is written over whatever state the action is in. */
  lemma FinishRule(db: Db, now: int, run: Actions.ActionRun, issue: Option<nat>)
    requires db.Valid() && run.investigation in db.tasks && db.tasks[run.investigation].action.Some?
    ensures var db' := Actions.FinishTx(db, now, run, issue);
            var id := run.investigation;
            && OnlyTask(db, db', id)
            && var t, t' := db.tasks[id], db'.tasks[id];
               && t'.inv == t.inv.(seqNo := t.inv.seqNo + 1) && t'.job == t.job && t'.approvals == t.approvals
               && t'.action
                  == Some(t.action.value.(state := if issue.Some? then Succeeded else Unknown, updatedAt := now,
                            result := if issue.Some? then Verified(issue.value) else Unresolved(run.marker)))
               && OneMoreEvent(t, t', ActionFinished(issue.Some?))
  {
  }
}
