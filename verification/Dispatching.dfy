/** The approval and dispatch of an external write, over every interleaving: at most one POST for an
    investigation, and what is posted is what was last approved. */
module Dispatching {
  import opened Wrappers
  import opened Tables
  import opened Invariants
  import opened ControlPlane
  import opened Safety
  import ActionRules
  import Actions

  /** The last decision on the action approved exactly this content for this repository. */
  predicate Authorised(db: Db, run: Actions.ActionRun) {
    && run.investigation in db.tasks
    && var last := LastDecision(db.tasks[run.investigation]);
       && last.Some? && last.value.approve && last.value.action == run.id
       && last.value.digest == Actions.Digest(run.target, run.title, run.body, last.value.evidence)
  }

  predicate IsReady(w: World, r: nat) {
    r in w.runners && w.runners[r].phase.Ready?
  }

  ghost predicate ReadyOk(w: World) {
    && (forall r :: IsReady(w, r) ==> !w.runners[r].run.reconcile && Authorised(w.db, w.runners[r].run))
    && (forall r, q :: IsReady(w, r) && IsReady(w, q) && r != q ==>
         w.runners[r].run.investigation != w.runners[q].run.investigation)
  }

  ghost predicate PostsOk(w: World) {
    && (forall k :: 0 <= k < |w.posts| ==> RunTracks(w.db, w.posts[k]) && Authorised(w.db, w.posts[k]))
    && (forall j, k :: 0 <= j < k < |w.posts| ==> w.posts[j].investigation != w.posts[k].investigation)
    && (forall r, k :: IsReady(w, r) && 0 <= k < |w.posts| ==>
          w.posts[k].investigation != w.runners[r].run.investigation)
  }

  ghost predicate OnePost(w: World) {
    ReadyOk(w) && PostsOk(w)
  }

  lemma AuthorisedOn(db: Db, db': Db, run: Actions.ActionRun)
    requires Evolves(db, db') && RunTracks(db, run) && Authorised(db, run)
    ensures RunTracks(db', run) && Authorised(db', run)
  {
  }

  /** Nobody new is about to post, and nothing was posted. */
  ghost predicate NoNewPost(w: World, w': World) {
    && w'.posts == w.posts
    && (forall r :: IsReady(w', r) ==> IsReady(w, r) && w'.runners[r] == w.runners[r])
  }

  lemma NoNewPostKeeps(w: World, w': World)
    requires RunnersTrack(w) && OnePost(w) && Evolves(w.db, w'.db) && NoNewPost(w, w')
    ensures OnePost(w')
  {
    forall r | IsReady(w', r) ensures !w'.runners[r].run.reconcile && Authorised(w'.db, w'.runners[r].run) {
      AuthorisedOn(w.db, w'.db, w.runners[r].run);
    }
    forall k | 0 <= k < |w'.posts| ensures RunTracks(w'.db, w'.posts[k]) && Authorised(w'.db, w'.posts[k]) {
      AuthorisedOn(w.db, w'.db, w.posts[k]);
    }
  }

  lemma QuietSteps(w: World, s: Step)
    requires w.db.Valid() && (!Enabled(w, s) || (!s.Dispatch? && !s.SendPost?))
    ensures NoNewPost(w, Apply(w, s))
  {
    if TablesOnly(s) {
      TablesFrame(w, s);
    } else if MovesRunner(s) {
      MoveFrame(w, s);
    } else if s.Finish? || s.RunnerDies? {
      EndFrame(w, s);
    } else if s.SendPost? || s.Dispatch? {
      IdleFrame(w, s);
    } else {
      RecordFrame(w, s);
    }
  }

  lemma PostKeeps(w: World, r: nat, committed: bool, answered: bool)
    requires RunnersTrack(w) && OnePost(w) && IsReady(w, r) && (answered ==> committed)
    ensures OnePost(Posted(w, r, committed, answered))
  {
    var w' := Posted(w, r, committed, answered);
    forall q | IsReady(w', q) ensures q != r && IsReady(w, q) && w'.runners[q] == w.runners[q] {
    }
  }

  /** A new runner about to post, for a task nothing was dispatched for before. */
  lemma ReadyAdded(w: World, w': World, id: Id, runner: Runner)
    requires RunnersTrack(w) && OnePost(w) && Evolves(w.db, w'.db)
    requires id in w.db.tasks && w.db.tasks[id].action.Some? && !w.db.tasks[id].action.value.state.Dispatched()
    requires w'.posts == w.posts && w'.runners == w.runners[w.started := runner]
    requires runner.run.investigation == id && !runner.run.reconcile && Authorised(w'.db, runner.run)
    ensures OnePost(w')
  {
    forall r | IsReady(w', r) && r != w.started
      ensures !w'.runners[r].run.reconcile && Authorised(w'.db, w'.runners[r].run)
              && w'.runners[r].run.investigation != id
    {
      assert IsReady(w, r);
      AuthorisedOn(w.db, w'.db, w.runners[r].run);
    }
    forall k | 0 <= k < |w'.posts|
      ensures RunTracks(w'.db, w'.posts[k]) && Authorised(w'.db, w'.posts[k]) && w'.posts[k].investigation != id
    {
      AuthorisedOn(w.db, w'.db, w.posts[k]);
    }
  }

  /** A dispatched write was approved as it stands, and no earlier run of the investigation could post. */
  lemma DispatchPosts(w: World, id: Id)
    requires Core(w) && OnePost(w) && id in w.db.tasks && Actions.Due(w.db.tasks[id], w.now)
    requires Evolves(w.db, DispatchWorld(w, id).db)
    ensures OnePost(DispatchWorld(w, id))
  {
    if StartsPost(w, id) {
      PostStarted(w, id);
    } else {
      NoPostStarted(w, id);
      NoNewPostKeeps(w, DispatchWorld(w, id));
    }
  }

  lemma PostStarted(w: World, id: Id)
    requires Core(w) && OnePost(w) && id in w.db.tasks && Actions.Due(w.db.tasks[id], w.now) && StartsPost(w, id)
    requires Evolves(w.db, DispatchWorld(w, id).db)
    ensures OnePost(DispatchWorld(w, id))
  {
    NewReady(w, id);
    ReadyAdded(w, DispatchWorld(w, id), id, DispatchWorld(w, id).runners[w.started]);
  }

  predicate StartsPost(w: World, id: Id)
    requires w.db.Valid() && id in w.db.tasks && Actions.Due(w.db.tasks[id], w.now)
  {
    w.db.tasks[id].action.value.state.Approved? && Actions.DispatchTx(w.db, w.now, id).reply.Ok?
    && Actions.DispatchTx(w.db, w.now, id).reply.value.Some?
  }

  lemma NoPostStarted(w: World, id: Id)
    requires w.db.Valid() && id in w.db.tasks && Actions.Due(w.db.tasks[id], w.now) && !StartsPost(w, id)
    ensures NoNewPost(w, DispatchWorld(w, id))
  {
  }

  lemma NewReady(w: World, id: Id)
    requires Core(w) && id in w.db.tasks && Actions.Due(w.db.tasks[id], w.now) && StartsPost(w, id)
    ensures var w' := DispatchWorld(w, id);
            && w'.posts == w.posts
            && w.started in w'.runners && w'.runners == w.runners[w.started := w'.runners[w.started]]
            && w'.runners[w.started].run.investigation == id && !w'.runners[w.started].run.reconcile
            && Authorised(w'.db, w'.runners[w.started].run)
  {
    assert TaskInv(w.now, w.db.ServiceOf(id), w.db.tasks[id]);
  }

  lemma DispatchedOnePost(w: World, s: Step)
    requires Core(w) && OnePost(w) && Enabled(w, s) && s.Dispatch?
    ensures OnePost(Apply(w, s))
  {
    CoreStep(w, s);
    DispatchIsDue(w, s);
    DispatchPosts(w, s.id);
  }

  lemma SentOnePost(w: World, s: Step)
    requires Core(w) && OnePost(w) && Enabled(w, s) && s.SendPost?
    ensures OnePost(Apply(w, s))
  {
    PostIs(w, s);
    PostKeeps(w, s.runner, s.committed, s.answered);
  }

  lemma PostIs(w: World, s: Step)
    requires w.db.Valid() && Enabled(w, s) && s.SendPost?
    ensures IsReady(w, s.runner) && Apply(w, s) == Posted(w, s.runner, s.committed, s.answered)
  {
  }

  lemma QuietOnePost(w: World, s: Step)
    requires Core(w) && OnePost(w) && (!Enabled(w, s) || (!s.Dispatch? && !s.SendPost?))
    ensures OnePost(Apply(w, s))
  {
    CoreStep(w, s);
    QuietSteps(w, s);
    NoNewPostKeeps(w, Apply(w, s));
  }

  lemma OnePostStep(w: World, s: Step)
    requires Core(w) && OnePost(w)
    ensures OnePost(Apply(w, s))
  {
    if Enabled(w, s) && s.Dispatch? {
      DispatchedOnePost(w, s);
    } else if Enabled(w, s) && s.SendPost? {
      SentOnePost(w, s);
    } else {
      QuietOnePost(w, s);
    }
  }

  lemma {:induction false} RunOnePost(w: World, steps: seq<Step>)
    requires Core(w) && OnePost(w)
    ensures OnePost(Run(w, steps))
    decreases |steps|
  {
    if steps != [] {
      OnePostStep(w, steps[0]);
      CoreStep(w, steps[0]);
      RunOnePost(Apply(w, steps[0]), steps[1..]);
    }
  }

  // ---- the guarantees -------------------------------------------------------------------

  /** However drafts, decisions, cancels, resumes, invalidations, repository changes, crashes and any
      number of runners interleave, an investigation causes at most one POST. */
  lemma AtMostOnePost(w: World, steps: seq<Step>, j: nat, k: nat)
    requires Init(w) && j < |Run(w, steps).posts| && k < |Run(w, steps).posts|
    requires Run(w, steps).posts[j].investigation == Run(w, steps).posts[k].investigation
    ensures j == k
  {
    InitCore(w);
    RunOnePost(w, steps);
  }

  /** Every POST ever sent carries the repository, title and body of the action's last decision, which is
      an approval, and so it remains. */
  lemma PostedAsApproved(w: World, steps: seq<Step>, k: nat)
    requires Init(w) && k < |Run(w, steps).posts|
    ensures Authorised(Run(w, steps).db, Run(w, steps).posts[k])
    ensures RunTracks(Run(w, steps).db, Run(w, steps).posts[k])
  {
    InitCore(w);
    RunOnePost(w, steps);
  }

  /** Once dispatched, an action stays in executing, unknown or succeeded at the same version, and no
      further decision on it is ever recorded. */
  lemma DispatchedForGood(w: World, before: seq<Step>, after: seq<Step>, id: Id)
    requires Init(w) && id in Run(w, before).db.tasks && Run(w, before).db.tasks[id].action.Some?
    requires Run(w, before).db.tasks[id].action.value.state.Dispatched()
    ensures id in Run(Run(w, before), after).db.tasks
    ensures var t, t' := Run(w, before).db.tasks[id], Run(Run(w, before), after).db.tasks[id];
            && t'.action.Some? && t'.action.value.state.Dispatched()
            && t'.action.value.version == t.action.value.version && t'.approvals == t.approvals
  {
    Reached(w, before, after);
  }

  /** A dispatched action refuses every draft, and no decision changes its state. */
  lemma DispatchedRefuses(db: Db, now: int, id: Id, u: string, aid: Id, version: nat, title: string, body: string,
      d: Actions.Decision)
    requires db.Valid() && id in db.tasks && db.tasks[id].action.Some? && db.tasks[id].action.value.state.Dispatched()
    ensures Actions.DraftTx(db, now, u, id, aid, version, title, body).reply.Err?
    ensures var t' := Actions.DecideTx(db, now, u, id, d, version).db.tasks[id];
            && t'.action.Some? && t'.action.value.state == db.tasks[id].action.value.state
            && t'.approvals == db.tasks[id].approvals
  {
  }

  /** The person who approved the action may still approve for the team, and who asked for the investigation still
      belongs to it. */
  predicate RolesStand(db: Db, id: Id)
    requires id in db.tasks && db.tasks[id].action.Some? && db.tasks[id].action.value.approvedBy.Some?
  {
    var i, person := db.tasks[id].inv, db.tasks[id].action.value.approvedBy.value;
    && (person, i.team) in db.members && db.members[(person, i.team)] == Approver
    && (i.subject, i.team) in db.members
  }

  /** In reachable states nothing but a lost role withdraws a due approval: it is handed to a runner, as it stands and
      executing, exactly when the approver is still an approver and the initiator still a member, and it is
      invalidated otherwise. Content, version, evidence, cancellation and repository have not moved. */
  lemma OnlyRolesWithdraw(w: World, steps: seq<Step>, id: Id)
    requires Init(w) && id in Run(w, steps).db.tasks
    requires Run(w, steps).db.tasks[id].action.Some? && Run(w, steps).db.tasks[id].action.value.state.Approved?
    ensures Run(w, steps).db.tasks[id].action.value.approvedBy.Some?
    ensures var end := Run(w, steps);
            var a := end.db.tasks[id].action.value;
            var r := Actions.DispatchTx(end.db, end.now, id);
            && r.reply.Ok? && (r.reply.value.Some? <==> RolesStand(end.db, id))
            && id in r.db.tasks
            && if RolesStand(end.db, id)
               then
                 && r.db.tasks[id].action == Some(a.(state := Executing, updatedAt := end.now))
                 && r.reply.value.value == Actions.ActionRun(a.id, id, a.target, a.title, a.body, a.marker, false)
               else r.db.tasks[id].action == Some(a.(state := Invalidated, updatedAt := end.now))
  {
    InitCore(w);
    RunCore(w, steps);
    WithdrawnHere(Run(w, steps).db, Run(w, steps).now, id);
  }

  lemma WithdrawnHere(db: Db, now: int, id: Id)
    requires DbInv(db, now) && id in db.tasks && db.tasks[id].action.Some? && db.tasks[id].action.value.state.Approved?
    ensures db.tasks[id].action.value.approvedBy.Some?
    ensures var a := db.tasks[id].action.value;
            var r := Actions.DispatchTx(db, now, id);
            && r.reply.Ok? && (r.reply.value.Some? <==> RolesStand(db, id)) && id in r.db.tasks
            && (RolesStand(db, id) ==>
                  && r.db.tasks[id].action == Some(a.(state := Executing, updatedAt := now))
                  && r.reply.value.value == Actions.ActionRun(a.id, id, a.target, a.title, a.body, a.marker, false))
            && (!RolesStand(db, id) ==> r.db.tasks[id].action == Some(a.(state := Invalidated, updatedAt := now)))
  {
    assert TaskInv(now, db.ServiceOf(id), db.tasks[id]);
    ActionRules.DispatchedIff(db, now, id);
    ActionRules.DispatchRule(db, now, id);
  }

  /** Exactly when a draft can be approved: the repository must still be the one of the first draft,
      which no later draft changes. */
  lemma DraftApprovableIff(w: World, steps: seq<Step>, id: Id, u: string)
    requires Init(w) && id in Run(w, steps).db.tasks
    requires Run(w, steps).db.tasks[id].action.Some? && Run(w, steps).db.tasks[id].action.value.state.Draft?
    requires Run(w, steps).db.Member(u, Run(w, steps).db.tasks[id].inv.team, true)
    ensures var end := Run(w, steps);
            var a := end.db.tasks[id].action.value;
            var r := Actions.DecideTx(end.db, end.now, u, id, Actions.Approve, a.version);
            && (r.reply.Ok? <==> a.target == end.db.ServiceOf(id).repo)
            && (r.reply.Ok? ==> r.db.tasks[id].action.value.state.Approved?)
  {
    InitCore(w);
    RunCore(w, steps);
    ApprovableHere(Run(w, steps), id, u);
  }

  lemma ApprovableHere(w: World, id: Id, u: string)
    requires Core(w) && id in w.db.tasks && w.db.tasks[id].action.Some? && w.db.tasks[id].action.value.state.Draft?
    requires w.db.Member(u, w.db.tasks[id].inv.team, true)
    ensures var a := w.db.tasks[id].action.value;
            var r := Actions.DecideTx(w.db, w.now, u, id, Actions.Approve, a.version);
            && (r.reply.Ok? <==> a.target == w.db.ServiceOf(id).repo)
            && (r.reply.Ok? ==> r.db.tasks[id].action.value.state.Approved?)
  {
    assert TaskInv(w.now, w.db.ServiceOf(id), w.db.tasks[id]);
  }

  /** The first draft's repository is the target for ever. */
  lemma TargetIsForGood(w: World, before: seq<Step>, after: seq<Step>, id: Id)
    requires Init(w) && id in Run(w, before).db.tasks && Run(w, before).db.tasks[id].action.Some?
    ensures id in Run(Run(w, before), after).db.tasks
    ensures var a, a' := Run(w, before).db.tasks[id].action, Run(Run(w, before), after).db.tasks[id].action;
            a'.Some? && a'.value.target == a.value.target && a'.value.marker == a.value.marker
  {
    Reached(w, before, after);
  }

  /** After the service moved to another repository, a new draft of an existing action is saved and can
      then be approved by nobody. */
  lemma RedraftAfterMove(db: Db, now: int, u: string, approver: string, id: Id, aid: Id, title: string, body: string)
    requires db.Valid() && id in db.tasks && db.tasks[id].action.Some?
             && db.tasks[id].action.value.target != db.ServiceOf(id).repo
    requires Actions.DraftTx(db, now, u, id, aid, db.tasks[id].action.value.version, title, body).reply.Ok?
    ensures var r := Actions.DraftTx(db, now, u, id, aid, db.tasks[id].action.value.version, title, body).db;
            && r.tasks[id].action.Some? && r.tasks[id].action.value.state.Draft?
            && Actions.DecideTx(r, now, approver, id, Actions.Approve, r.tasks[id].action.value.version).reply.Err?
  {
  }
}
