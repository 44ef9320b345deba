/** What losing a role stops: no write goes out on the approval of somebody who is no approver. */
module Roles {
  import opened Wrappers
  import opened Tables
  import opened Invariants
  import opened ControlPlane
  import opened Safety
  import opened Dispatching
  import ActionRules
  import Actions

  /** The run writes for an investigation of the team whose last decision is this person's approval. */
  predicate OnApprovalOf(db: Db, run: Actions.ActionRun, person: string, team: string) {
    && run.investigation in db.tasks && db.tasks[run.investigation].inv.team == team
    && var last := LastDecision(db.tasks[run.investigation]);
       last.Some? && last.value.approve && last.value.subject == person
  }

  /** A write that a runner held, ready to send, in the earlier state. */
  ghost predicate WasReady(w: World, run: Actions.ActionRun) {
    exists r :: IsReady(w, r) && w.runners[r].run == run
  }

  /** Since the earlier state nothing was started and nothing sent on this person's approval, except by runners that
      already held it. */
  ghost predicate NothingSince(past: World, w: World, person: string, team: string) {
    && past.posts <= w.posts
    && (forall r :: IsReady(w, r) && OnApprovalOf(w.db, w.runners[r].run, person, team) ==>
          WasReady(past, w.runners[r].run))
    && (forall k :: |past.posts| <= k < |w.posts| && OnApprovalOf(w.db, w.posts[k], person, team) ==>
          WasReady(past, w.posts[k]))
  }

  /** Whose approval a dispatched action rests on never changes. */
  lemma ApprovalStays(db: Db, db': Db, run: Actions.ActionRun, person: string, team: string)
    requires Evolves(db, db') && RunTracks(db, run)
    ensures OnApprovalOf(db', run, person, team) <==> OnApprovalOf(db, run, person, team)
  {
  }

  lemma QuietSince(past: World, w: World, w': World, person: string, team: string)
    requires RunnersTrack(w) && PostsOk(w) && Evolves(w.db, w'.db) && NoNewPost(w, w')
    requires NothingSince(past, w, person, team)
    ensures NothingSince(past, w', person, team)
  {
    forall r | IsReady(w', r) && OnApprovalOf(w'.db, w'.runners[r].run, person, team)
      ensures WasReady(past, w'.runners[r].run)
    {
      ApprovalStays(w.db, w'.db, w.runners[r].run, person, team);
    }
    forall k | |past.posts| <= k < |w'.posts| && OnApprovalOf(w'.db, w'.posts[k], person, team)
      ensures WasReady(past, w'.posts[k])
    {
      ApprovalStays(w.db, w'.db, w.posts[k], person, team);
    }
  }

  lemma PostSince(past: World, w: World, s: Step, person: string, team: string)
    requires w.db.Valid() && Enabled(w, s) && s.SendPost? && NothingSince(past, w, person, team)
    ensures NothingSince(past, Apply(w, s), person, team)
  {
    PostIs(w, s);
    var w' := Posted(w, s.runner, s.committed, s.answered);
    forall r | IsReady(w', r) ensures IsReady(w, r) && w'.runners[r] == w.runners[r] {
    }
  }

  /** What a dispatch starts rests on an approval of somebody who is an approver at that moment. */
  lemma StartedByApprover(w: World, id: Id, person: string, team: string)
    requires Core(w) && id in w.db.tasks && Actions.Due(w.db.tasks[id], w.now) && StartsPost(w, id)
    requires OnApprovalOf(w.db, Actions.RunOf(id, w.db.tasks[id].action.value, false), person, team)
    ensures (person, team) in w.db.members && w.db.members[(person, team)] == Approver
  {
    assert TaskInv(w.now, w.db.ServiceOf(id), w.db.tasks[id]);
    ActionRules.DispatchedIff(w.db, w.now, id);
  }

  lemma DispatchSince(past: World, w: World, id: Id, person: string, team: string)
    requires Core(w) && OnePost(w) && id in w.db.tasks && Actions.Due(w.db.tasks[id], w.now)
    requires Evolves(w.db, DispatchWorld(w, id).db) && NothingSince(past, w, person, team)
    requires !ActionRules.IsApprover(w.db, person, team)
    ensures NothingSince(past, DispatchWorld(w, id), person, team)
  {
    if StartsPost(w, id) {
      StartSince(past, w, id, person, team);
    } else {
      NoPostStarted(w, id);
      QuietSince(past, w, DispatchWorld(w, id), person, team);
    }
  }

  lemma StartSince(past: World, w: World, id: Id, person: string, team: string)
    requires Core(w) && OnePost(w) && id in w.db.tasks && Actions.Due(w.db.tasks[id], w.now) && StartsPost(w, id)
    requires Evolves(w.db, DispatchWorld(w, id).db) && NothingSince(past, w, person, team)
    requires !ActionRules.IsApprover(w.db, person, team)
    ensures NothingSince(past, DispatchWorld(w, id), person, team)
  {
    var w' := DispatchWorld(w, id);
    NewReady(w, id);
    StartedRun(w, id, person, team);
    AddedSince(past, w, w', w'.runners[w.started], person, team);
  }

  lemma StartedRun(w: World, id: Id, person: string, team: string)
    requires Core(w) && id in w.db.tasks && Actions.Due(w.db.tasks[id], w.now) && StartsPost(w, id)
    requires !ActionRules.IsApprover(w.db, person, team)
    ensures var w' := DispatchWorld(w, id);
            w.started in w'.runners && !OnApprovalOf(w'.db, w'.runners[w.started].run, person, team)
  {
    ActionRules.DispatchRule(w.db, w.now, id);
    if OnApprovalOf(w.db, Actions.RunOf(id, w.db.tasks[id].action.value, false), person, team) {
      StartedByApprover(w, id, person, team);
    }
  }

  /** A runner was added for somebody else's approval. */
  lemma AddedSince(past: World, w: World, w': World, x: Runner, person: string, team: string)
    requires RunnersTrack(w) && PostsOk(w) && Evolves(w.db, w'.db) && NothingSince(past, w, person, team)
    requires w'.posts == w.posts && w'.runners == w.runners[w.started := x]
    requires !OnApprovalOf(w'.db, x.run, person, team)
    ensures NothingSince(past, w', person, team)
  {
    forall r | IsReady(w', r) && OnApprovalOf(w'.db, w'.runners[r].run, person, team)
      ensures WasReady(past, w'.runners[r].run)
    {
      assert IsReady(w, r);
      ApprovalStays(w.db, w'.db, w.runners[r].run, person, team);
    }
    forall k | |past.posts| <= k < |w'.posts| && OnApprovalOf(w'.db, w'.posts[k], person, team)
      ensures WasReady(past, w'.posts[k])
    {
      ApprovalStays(w.db, w'.db, w.posts[k], person, team);
    }
  }

  lemma StepSince(past: World, w: World, s: Step, person: string, team: string)
    requires Core(w) && OnePost(w) && NothingSince(past, w, person, team)
    requires !ActionRules.IsApprover(w.db, person, team)
    ensures NothingSince(past, Apply(w, s), person, team)
  {
    CoreStep(w, s);
    if Enabled(w, s) && s.Dispatch? {
      DispatchIsDue(w, s);
      DispatchSince(past, w, s.id, person, team);
    } else if Enabled(w, s) && s.SendPost? {
      PostSince(past, w, s, person, team);
    } else {
      QuietSteps(w, s);
      QuietSince(past, w, Apply(w, s), person, team);
    }
  }

  lemma {:induction false} RunSince(past: World, w: World, steps: seq<Step>, person: string, team: string)
    requires Core(w) && OnePost(w) && NothingSince(past, w, person, team)
    requires forall n :: 0 <= n < |steps| ==> !ActionRules.IsApprover(Run(w, steps[..n]).db, person, team)
    ensures NothingSince(past, Run(w, steps), person, team)
    decreases |steps|
  {
    if steps != [] {
      assert Run(w, steps[..0]) == w;
      StepSince(past, w, steps[0], person, team);
      CoreStep(w, steps[0]);
      OnePostStep(w, steps[0]);
      forall n | 0 <= n < |steps| - 1
        ensures !ActionRules.IsApprover(Run(Apply(w, steps[0]), steps[1..][..n]).db, person, team)
      {
        RunCons(w, steps, n + 1);
      }
      RunSince(past, Apply(w, steps[0]), steps[1..], person, team);
    }
  }

  /** From the moment a person is no approver of the team until that person is one again, every POST that rests on
      that person's approval is sent by a runner that held it already, and no runner is started on such an approval:
      in particular, with no such runner left, no POST is sent. */
  lemma LostRoleStopsPosts(w: World, before: seq<Step>, after: seq<Step>, person: string, team: string)
    requires Init(w)
    requires forall n :: 0 <= n < |after| ==>
               !ActionRules.IsApprover(Run(Run(w, before), after[..n]).db, person, team)
    ensures var past, end := Run(w, before), Run(Run(w, before), after);
            && past.posts <= end.posts
            && (forall k :: |past.posts| <= k < |end.posts| && OnApprovalOf(end.db, end.posts[k], person, team) ==>
                  WasReady(past, end.posts[k]))
            && (forall r :: IsReady(end, r) && OnApprovalOf(end.db, end.runners[r].run, person, team) ==>
                  WasReady(past, end.runners[r].run))
  {
    InitCore(w);
    RunCore(w, before);
    RunOnePost(w, before);
    RunSince(Run(w, before), Run(w, before), after, person, team);
  }
}
