/** When succeeded is final: a runner that still holds the investigation can overwrite it, and only such
    a runner can. */
module Finality {
  import opened Wrappers
  import opened Tables
  import opened Invariants
  import opened ControlPlane
  import opened Safety
  import opened Reconciliation
  import Actions

  predicate SettledOnIssue(p: Phase) {
    p.Settled? && p.success.Some?
  }

  /** Every runner still holding the investigation has settled on an issue. */
  predicate AllSettled(w: World, id: Id) {
    forall r :: r in w.runners && w.runners[r].run.investigation == id ==> SettledOnIssue(w.runners[r].phase)
  }

  predicate Stands(w: World, id: Id) {
    id in w.db.tasks && IsSucceeded(w.db.tasks[id]) && AllSettled(w, id)
  }

  // ---- settled runners keep success ----------------------------------------------------------

  lemma OutsideStands(w: World, s: Step, id: Id)
    requires Core(w) && Stands(w, id) && Enabled(w, s) && Outside(s)
    ensures Stands(Apply(w, s), id)
  {
    SameTables(w, s);
    if MovesRunner(s) {
      MoveFrame(w, s);
    } else if s.RunnerDies? {
      EndFrame(w, s);
    } else if s.ForeignIssue? {
      RecordFrame(w, s);
    } else {
      PostStands(w, s, id);
    }
  }

  lemma PostStands(w: World, s: Step, id: Id)
    requires w.db.Valid() && AllSettled(w, id) && Enabled(w, s) && s.SendPost?
    ensures AllSettled(Apply(w, s), id)
  {
  }

  lemma FinishStands(w: World, s: Step, id: Id)
    requires Core(w) && Stands(w, id) && Enabled(w, s) && s.Finish?
    ensures Stands(Apply(w, s), id)
  {
    EndFrame(w, s);
  }

  lemma DispatchStands(w: World, s: Step, id: Id)
    requires Core(w) && Stands(w, id) && Enabled(w, s) && s.Dispatch?
    ensures AllSettled(Apply(w, s), id)
  {
    DispatchIsDue(w, s);
    OwnRunnerAdded(w, s.id);
  }

  /** The only runner a dispatch adds is of the dispatched investigation. */
  lemma OwnRunnerAdded(w: World, due: Id)
    requires w.db.Valid() && due in w.db.tasks && Actions.Due(w.db.tasks[due], w.now)
    ensures var w' := DispatchWorld(w, due);
            forall r :: r in w'.runners && w'.runners[r].run.investigation != due
                        ==> r in w.runners && w'.runners[r] == w.runners[r]
  {
  }

  lemma TablesStand(w: World, s: Step, id: Id)
    requires Core(w) && Stands(w, id) && Enabled(w, s) && !Outside(s) && !s.Finish?
    ensures Stands(Apply(w, s), id)
  {
    DatabaseOutcome(w, s, Apply(w, s));
    CoreStep(w, s);
    if TablesOnly(s) {
      TablesFrame(w, s);
    } else if s.Dispatch? {
      DispatchStands(w, s, id);
    } else {
      RecordFrame(w, s);
    }
  }

  lemma StandsStep(w: World, s: Step, id: Id)
    requires Core(w) && Stands(w, id)
    ensures Stands(Apply(w, s), id)
  {
    if !Enabled(w, s) {
      IdleFrame(w, s);
    } else if s.Finish? {
      FinishStands(w, s, id);
    } else if Outside(s) {
      OutsideStands(w, s, id);
    } else {
      TablesStand(w, s, id);
    }
  }

  lemma {:induction false} RunStands(w: World, steps: seq<Step>, id: Id)
    requires Core(w) && Stands(w, id)
    ensures Stands(Run(w, steps), id)
    decreases |steps|
  {
    if steps != [] {
      StandsStep(w, steps[0], id);
      CoreStep(w, steps[0]);
      RunStands(Apply(w, steps[0]), steps[1..], id);
    }
  }

  // ---- an unsettled runner can end it -----------------------------------------------------------

  lemma FailedFinish(w: World, r: nat)
    requires w.db.Valid() && r in w.runners && RunTracks(w.db, w.runners[r].run) && w.runners[r].phase == Settled(None)
    ensures var id := w.runners[r].run.investigation;
            id in Apply(w, Finish(r)).db.tasks && !IsSucceeded(Apply(w, Finish(r)).db.tasks[id])
  {
  }

  lemma FailedRequest(w: World, r: nat)
    requires w.db.Valid() && r in w.runners && !w.runners[r].phase.Settled?
    ensures Apply(w, RequestFails(r)) == WithPhase(w, r, Settled(None))
  {
  }

  /** What the runner does to succeeded, if its pending request fails. */
  function Overwrites(w: World, r: nat): seq<Step>
    requires r in w.runners
  {
    if w.runners[r].phase.Settled? then [Finish(r)] else [RequestFails(r), Finish(r)]
  }

  lemma UnsettledOverwrites(w: World, id: Id, r: nat)
    requires w.db.Valid() && r in w.runners && w.runners[r].run.investigation == id && RunTracks(w.db, w.runners[r].run)
    requires !SettledOnIssue(w.runners[r].phase)
    ensures !StaysSucceeded(w, Overwrites(w, r), id)
  {
    if w.runners[r].phase.Settled? {
      FailedFinish(w, r);
      RunOne(w, Finish(r));
    } else {
      FailedRequest(w, r);
      FailedFinish(WithPhase(w, r, Settled(None)), r);
      RunTwo(w, RequestFails(r), Finish(r));
    }
  }

  ghost predicate StaysSucceeded(w: World, steps: seq<Step>, id: Id) {
    w.db.Valid() && id in Run(w, steps).db.tasks && IsSucceeded(Run(w, steps).db.tasks[id])
  }

  /** A succeeded action is succeeded after every continuation exactly when every runner that still holds
      its investigation has already settled on an issue. */
  lemma SucceededForGoodIff(w: World, id: Id)
    requires Reachable(w) && id in w.db.tasks && IsSucceeded(w.db.tasks[id])
    ensures (forall steps: seq<Step> :: StaysSucceeded(w, steps, id)) <==> AllSettled(w, id)
  {
    ReachableOk(w);
    if AllSettled(w, id) {
      forall steps: seq<Step> ensures StaysSucceeded(w, steps, id) {
        RunStands(w, steps, id);
      }
    } else {
      var r :| r in w.runners && w.runners[r].run.investigation == id && !SettledOnIssue(w.runners[r].phase);
      UnsettledOverwrites(w, id, r);
    }
  }
}
