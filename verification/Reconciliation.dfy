/** Outcomes against the tracker: what "succeeded" means for the issues that exist, when a POST may
    commit and lose its reply. */
module Reconciliation {
  import opened Wrappers
  import opened Tables
  import opened Invariants
  import opened ControlPlane
  import opened Safety
  import opened Dispatching
  import Tasks
  import Queue
  import Actions
  import Tracker

  /** Issue i of the repository shows the marker. */
  predicate Shows(tracker: seq<Tracker.Issue>, target: string, marker: string, i: nat) {
    i < |tracker| && tracker[i].repo == target && Tracker.Carries(tracker[i], marker)
  }

  /** Whatever issue a runner has in hand shows its marker. */
  predicate InHand(tracker: seq<Tracker.Issue>, rn: Runner) {
    match rn.phase
    case Ready => true
    case Created(i) => Shows(tracker, rn.run.target, rn.run.marker, i)
    case Scanning(_, c) => c.Some? ==> Shows(tracker, rn.run.target, rn.run.marker, c.value)
    case Found(i) => Shows(tracker, rn.run.target, rn.run.marker, i)
    case Settled(i) => i.Some? ==> Shows(tracker, rn.run.target, rn.run.marker, i.value)
  }

  /** A succeeded action names an issue of its repository that shows its marker. */
  predicate SuccessShown(tracker: seq<Tracker.Issue>, t: Task) {
    t.action.Some? && t.action.value.state.Succeeded? ==>
      t.action.value.result.Verified?
      && Shows(tracker, t.action.value.target, t.action.value.marker, t.action.value.result.issue)
  }

  /** Issue j was created by POST k. */
  predicate CreatedBy(w: World, j: nat, k: nat)
    requires j < |w.tracker| && k < |w.posts|
  {
    w.tracker[j] == Tracker.Issue(w.posts[k].target, w.posts[k].title, w.posts[k].body, Some(w.posts[k].marker))
  }

  ghost predicate StampsOk(w: World) {
    && (forall j: nat :: j < |w.tracker| && w.tracker[j].stamp.Some? ==>
          exists k: nat :: k < |w.posts| && CreatedBy(w, j, k))
    && (forall i: nat, j: nat :: i < j < |w.tracker| && w.tracker[i].stamp.Some? ==>
          w.tracker[i].stamp != w.tracker[j].stamp)
  }

  ghost predicate Outcomes(w: World) {
    && (forall r :: r in w.runners ==> InHand(w.tracker, w.runners[r]))
    && (forall id :: id in w.db.tasks ==> SuccessShown(w.tracker, w.db.tasks[id]))
  }

  // ---- stamps ---------------------------------------------------------------------------

  lemma SameMarkerSameTask(db: Db, now: int, a: Actions.ActionRun, b: Actions.ActionRun)
    requires DbInv(db, now) && RunTracks(db, a) && RunTracks(db, b) && a.marker == b.marker
    ensures a.investigation == b.investigation
  {
    var x, y := db.tasks[a.investigation], db.tasks[b.investigation];
    assert TaskInv(now, db.ServiceOf(a.investigation), x) && TaskInv(now, db.ServiceOf(b.investigation), y);
    assert (Actions.MARKER_PREFIX + a.id)[|Actions.MARKER_PREFIX|..] == a.id;
    assert (Actions.MARKER_PREFIX + b.id)[|Actions.MARKER_PREFIX|..] == b.id;
    assert SameAction(db.tasks, a.investigation, b.investigation);
  }

  /** The marker of a runner about to post is on no issue yet. */
  lemma MarkerUnused(w: World, r: nat, j: nat)
    requires Core(w) && OnePost(w) && StampsOk(w) && IsReady(w, r) && j < |w.tracker|
    ensures w.tracker[j].stamp != Some(w.runners[r].run.marker)
  {
    if w.tracker[j].stamp == Some(w.runners[r].run.marker) {
      var k: nat :| k < |w.posts| && CreatedBy(w, j, k);
      SameMarkerSameTask(w.db, w.now, w.posts[k], w.runners[r].run);
    }
  }

  ghost predicate SamePosts(w: World, w': World) {
    && w'.posts == w.posts
    && (w'.tracker == w.tracker || exists i: Tracker.Issue :: i.stamp.None? && w'.tracker == w.tracker + [i])
  }

  lemma StampsKept(w: World, w': World)
    requires StampsOk(w) && SamePosts(w, w')
    ensures StampsOk(w')
  {
    forall j: nat | j < |w'.tracker| && w'.tracker[j].stamp.Some? ensures exists k: nat ::
          k < |w'.posts| && CreatedBy(w', j, k) {
      var k: nat :| k < |w.posts| && CreatedBy(w, j, k);
      assert CreatedBy(w', j, k);
    }
  }

  lemma StampsAdded(w: World, w': World, run: Actions.ActionRun)
    requires StampsOk(w) && w'.posts == w.posts + [run]
    requires w'.tracker == w.tracker + [Tracker.Issue(run.target, run.title, run.body, Some(run.marker))]
    requires forall j: nat :: j < |w.tracker| ==> w.tracker[j].stamp != Some(run.marker)
    ensures StampsOk(w')
  {
    forall j: nat | j < |w'.tracker| && w'.tracker[j].stamp.Some? ensures exists k: nat ::
          k < |w'.posts| && CreatedBy(w', j, k) {
      if j < |w.tracker| {
        var k: nat :| k < |w.posts| && CreatedBy(w, j, k);
        assert CreatedBy(w', j, k);
      } else {
        assert CreatedBy(w', j, |w.posts|);
      }
    }
  }

  lemma StampsLost(w: World, w': World, run: Actions.ActionRun)
    requires StampsOk(w) && w'.posts == w.posts + [run] && w'.tracker == w.tracker
    ensures StampsOk(w')
  {
    forall j: nat | j < |w'.tracker| && w'.tracker[j].stamp.Some? ensures exists k: nat ::
          k < |w'.posts| && CreatedBy(w', j, k) {
      var k: nat :| k < |w.posts| && CreatedBy(w, j, k);
      assert CreatedBy(w', j, k);
    }
  }

  lemma StampsPosted(w: World, r: nat, committed: bool, answered: bool)
    requires Core(w) && OnePost(w) && StampsOk(w) && IsReady(w, r) && (answered ==> committed)
    ensures StampsOk(Posted(w, r, committed, answered))
  {
    if committed {
      forall j: nat | j < |w.tracker| ensures w.tracker[j].stamp != Some(w.runners[r].run.marker) {
        MarkerUnused(w, r, j);
      }
      StampsAdded(w, Posted(w, r, committed, answered), w.runners[r].run);
    } else {
      StampsLost(w, Posted(w, r, committed, answered), w.runners[r].run);
    }
  }

  lemma StampsStep(w: World, s: Step)
    requires Core(w) && OnePost(w) && StampsOk(w)
    ensures StampsOk(Apply(w, s))
  {
    if Enabled(w, s) && s.SendPost? {
      PostStamps(w, s);
    } else {
      QuietStamps(w, s);
    }
  }

  lemma PostStamps(w: World, s: Step)
    requires Core(w) && OnePost(w) && StampsOk(w) && Enabled(w, s) && s.SendPost?
    ensures StampsOk(Apply(w, s))
  {
    PostIs(w, s);
    StampsPosted(w, s.runner, s.committed, s.answered);
  }

  lemma QuietStamps(w: World, s: Step)
    requires w.db.Valid() && StampsOk(w) && (!s.SendPost? || !Enabled(w, s))
    ensures StampsOk(Apply(w, s))
  {
    PostsUnchanged(w, s);
    StampsKept(w, Apply(w, s));
  }

  lemma PostsUnchanged(w: World, s: Step)
    requires w.db.Valid() && (!s.SendPost? || !Enabled(w, s))
    ensures SamePosts(w, Apply(w, s))
  {
    if TablesOnly(s) {
      TablesFrame(w, s);
    } else if MovesRunner(s) {
      MoveFrame(w, s);
    } else if s.Finish? || s.RunnerDies? {
      EndFrame(w, s);
    } else {
      OtherPostsUnchanged(w, s);
    }
  }

  lemma OtherPostsUnchanged(w: World, s: Step)
    requires w.db.Valid() && (s.SendPost? ==> !Enabled(w, s))
    requires s.Tick? || s.Resume? || s.Callback? || s.Dispatch? || s.SendPost? || s.ForeignIssue?
    ensures SamePosts(w, Apply(w, s))
  {
  }

  // ---- outcomes -------------------------------------------------------------------------

  lemma MergeShows(tracker: seq<Tracker.Issue>, target: string, marker: string, page: nat, c: Option<nat>)
    requires page >= 1 && (c.Some? ==> Shows(tracker, target, marker, c.value))
    ensures match Tracker.ScanPage(Tracker.Page(tracker, target, page), marker, page, c)
            case More(_, next) => next.Some? ==> Shows(tracker, target, marker, next.value)
            case Stop(found) => found.Some? ==> Shows(tracker, target, marker, found.value)
  {
    var items := Tracker.Page(tracker, target, page);
    var hits := Tracker.Matching(items, marker);
    forall i: nat | i in hits ensures Shows(tracker, target, marker, i) {
      Tracker.MatchingMembers(items, marker, i);
      var k :| Tracker.IsMatch(items, marker, k, i);
    }
    if hits != [] {
      assert hits[0] in hits;
    }
  }

  /** The tracker may grow and the database move, but no action newly succeeds. */
  ghost predicate NoNewOutcome(w: World, w': World) {
    && w.tracker <= w'.tracker
    && (forall id :: id in w'.db.tasks ==>
         if id in w.db.tasks then SuccessStands(w.db.tasks[id], w'.db.tasks[id]) else w'.db.tasks[id].action.None?)
  }

  lemma SuccessKept(w: World, w': World)
    requires Outcomes(w) && Evolves(w.db, w'.db) && NoNewOutcome(w, w')
    ensures forall id :: id in w'.db.tasks ==> SuccessShown(w'.tracker, w'.db.tasks[id])
  {
    forall id | id in w'.db.tasks ensures SuccessShown(w'.tracker, w'.db.tasks[id]) {
      if id in w.db.tasks {
        assert SuccessShown(w.tracker, w.db.tasks[id]) && TaskEvolves(w.db.tasks[id], w'.db.tasks[id]);
      }
    }
  }

  lemma InHandKept(tracker: seq<Tracker.Issue>, tracker': seq<Tracker.Issue>, rn: Runner)
    requires tracker <= tracker' && InHand(tracker, rn)
    ensures InHand(tracker', rn)
  {
  }

  /** One runner moves to a phase whose issue is shown; everything else stays or grows. */
  lemma PhaseMoves(w: World, w': World, r: nat)
    requires Outcomes(w) && w'.db == w.db && w.tracker <= w'.tracker
    requires r in w'.runners && InHand(w'.tracker, w'.runners[r])
    requires forall q :: q in w'.runners && q != r ==> q in w.runners && w'.runners[q] == w.runners[q]
    ensures Outcomes(w')
  {
    forall q | q in w'.runners && q != r ensures InHand(w'.tracker, w'.runners[q]) {
      InHandKept(w.tracker, w'.tracker, w.runners[q]);
    }
    forall id | id in w'.db.tasks ensures SuccessShown(w'.tracker, w'.db.tasks[id]) {
      assert SuccessShown(w.tracker, w.db.tasks[id]);
    }
  }

  lemma PostedOutcome(w: World, r: nat, committed: bool, answered: bool)
    requires Outcomes(w) && IsReady(w, r) && (answered ==> committed)
    ensures Outcomes(Posted(w, r, committed, answered))
  {
    var run := w.runners[r].run;
    Tracker.StampIsFound(run.body, run.marker);
    PhaseMoves(w, Posted(w, r, committed, answered), r);
  }

  lemma NetworkOutcome(w: World, s: Step)
    requires w.db.Valid() && Enabled(w, s) && Outcomes(w)
    requires s.ReadBack? || s.ReadListing? || s.ReadIssue? || s.RequestFails?
    ensures Outcomes(Apply(w, s))
  {
    MoveIs(w, s);
    PhaseShows(w, s);
    PhaseMoves(w, WithPhase(w, s.runner, NextPhase(w, s)), s.runner);
  }

  lemma PhaseShows(w: World, s: Step)
    requires Enabled(w, s) && MovesRunner(s) && s.runner in w.runners && InHand(w.tracker, w.runners[s.runner])
    ensures InHand(w.tracker, w.runners[s.runner].(phase := NextPhase(w, s)))
  {
    var rn := w.runners[s.runner];
    if s.ReadListing? {
      MergeShows(w.tracker, rn.run.target, rn.run.marker, rn.phase.page, rn.phase.candidate);
    }
  }

  lemma FinishOutcome(w: World, s: Step)
    requires Core(w) && Enabled(w, s) && Outcomes(w) && s.Finish?
    ensures Outcomes(Apply(w, s))
  {
    FinishIs(w, s);
    FinishedOutcome(w, s.runner);
  }

  lemma FinishIs(w: World, s: Step)
    requires w.db.Valid() && Enabled(w, s) && s.Finish?
    ensures Apply(w, s) == FinishWorld(w, s.runner) && w.runners[s.runner].phase.Settled?
  {
  }

  lemma FinishedOutcome(w: World, r: nat)
    requires Core(w) && Enabled(w, Finish(r)) && Outcomes(w)
    ensures Outcomes(FinishWorld(w, r))
  {
    var w' := FinishWorld(w, r);
    forall id | id in w'.db.tasks ensures SuccessShown(w'.tracker, w'.db.tasks[id]) {
      if id == w.runners[r].run.investigation {
        FinishedShown(w, r);
      }
    }
  }

  lemma FinishedShown(w: World, r: nat)
    requires w.db.Valid() && Enabled(w, Finish(r)) && InHand(w.tracker, w.runners[r])
    requires RunTracks(w.db, w.runners[r].run)
    requires SuccessShown(w.tracker, w.db.tasks[w.runners[r].run.investigation])
    ensures SuccessShown(w.tracker, FinishWorld(w, r).db.tasks[w.runners[r].run.investigation])
  {
  }

  // Claims, callbacks and resumes leave the action as it was or withdraw it.

  lemma ResumeNoSuccess(db: Db, now: int, id: Id, information: string)
    requires db.Valid() && id in db.tasks
    ensures var r := Tasks.ResumeTx(db, now, id, information).db;
            id in r.tasks && SuccessStands(db.tasks[id], r.tasks[id])
  {
  }

  lemma ClaimNoSuccess(db: Db, now: int, lease: nat, maxActive: nat, owner: string, id: Id)
    requires db.Valid() && id in db.tasks
    ensures var r := Queue.ClaimTx(db, now, lease, maxActive, owner, Some(id)).db;
            id in r.tasks && SuccessStands(db.tasks[id], r.tasks[id])
  {
    ClaimCases(db, now, lease, maxActive, owner, Some(id));
    assert Queue.Sweep(db, now).tasks[id] == Queue.Swept(db.tasks[id], now);
  }

  lemma CallbackNoSuccess(db: Db, now: int, lease: nat, id: Id, op: Queue.Operation, b: Callback)
    requires db.Valid() && id in db.tasks
    ensures var r := Queue.CallbackTx(db, now, lease, id, op, b).db;
            id in r.tasks && SuccessStands(db.tasks[id], r.tasks[id])
  {
  }

  lemma LoudTables(w: World, s: Step)
    requires w.db.Valid() && Enabled(w, s) && (s.Resume? || s.Claim? || s.Callback?)
    ensures Apply(w, s).db == match s
              case Resume(id, information) => Tasks.ResumeTx(w.db, w.now, id, information).db
              case Claim(owner, _, pick) => Queue.ClaimTx(w.db, w.now, w.lease, w.maxActive, owner, pick).db
              case Callback(id, op, b) => Queue.CallbackTx(w.db, w.now, w.lease, id, op, b).db
    ensures forall id :: id in Loud(w, s) && id in Apply(w, s).db.tasks ==> id in w.db.tasks
  {
  }

  lemma LoudNoSuccess(w: World, s: Step, id: Id, db': Db)
    requires w.db.Valid() && (s.Resume? || s.Claim? || s.Callback?) && id in Loud(w, s) && id in w.db.tasks
    requires s.Resume? ==> db' == Tasks.ResumeTx(w.db, w.now, id, s.information).db
    requires s.Claim? ==> db' == Queue.ClaimTx(w.db, w.now, w.lease, w.maxActive, s.owner, Some(id)).db
    requires s.Callback? ==> db' == Queue.CallbackTx(w.db, w.now, w.lease, id, s.op, s.body).db
    ensures id in db'.tasks && SuccessStands(w.db.tasks[id], db'.tasks[id])
  {
    if s.Resume? {
      ResumeNoSuccess(w.db, w.now, id, s.information);
    } else if s.Claim? {
      ClaimNoSuccess(w.db, w.now, w.lease, w.maxActive, s.owner, id);
    } else {
      CallbackNoSuccess(w.db, w.now, w.lease, id, s.op, s.body);
    }
  }

  lemma DatabaseOutcome(w: World, s: Step, w': World)
    requires Core(w) && Enabled(w, s) && !Outside(s) && !s.Finish? && w' == Apply(w, s)
    ensures NoNewOutcome(w, w')
  {
    DbStep(w, s);
    SameTracker(w, s);
    forall id | id in w'.db.tasks
      ensures if id in w.db.tasks then SuccessStands(w.db.tasks[id], w'.db.tasks[id]) else w'.db.tasks[id].action.None?
    {
      if id in Loud(w, s) {
        LoudTables(w, s);
        LoudNoSuccess(w, s, id, w'.db);
      }
    }
  }

  lemma SameTracker(w: World, s: Step)
    requires w.db.Valid() && !Outside(s)
    ensures Apply(w, s).tracker == w.tracker
  {
  }

  /** A new runner starts with nothing in hand. */
  lemma NewRunnerOutcome(w: World, s: Step)
    requires w.db.Valid() && Enabled(w, s) && !Outside(s) && !s.Finish? && Outcomes(w)
    ensures forall r :: r in Apply(w, s).runners ==> InHand(w.tracker, Apply(w, s).runners[r])
  {
    if s.Dispatch? {
      DispatchIsDue(w, s);
    }
  }

  lemma OutcomeStep(w: World, s: Step)
    requires Core(w) && Outcomes(w)
    ensures Outcomes(Apply(w, s))
  {
    if !Enabled(w, s) {
      IdleFrame(w, s);
    } else if s.SendPost? {
      PostIs(w, s);
      PostedOutcome(w, s.runner, s.committed, s.answered);
    } else if MovesRunner(s) {
      NetworkOutcome(w, s);
    } else if s.Finish? {
      FinishOutcome(w, s);
    } else if Outside(s) {
      OtherOutcome(w, s);
    } else {
      TablesOutcome(w, s);
    }
  }

  lemma TablesOutcome(w: World, s: Step)
    requires Core(w) && Outcomes(w) && Enabled(w, s) && !Outside(s) && !s.Finish?
    ensures Outcomes(Apply(w, s))
  {
    CoreStep(w, s);
    DatabaseOutcome(w, s, Apply(w, s));
    SameTracker(w, s);
    SuccessKept(w, Apply(w, s));
    NewRunnerOutcome(w, s);
  }

  lemma OtherOutcome(w: World, s: Step)
    requires w.db.Valid() && Enabled(w, s) && Outcomes(w) && (s.ForeignIssue? || s.RunnerDies?)
    ensures Outcomes(Apply(w, s))
  {
    var w' := Apply(w, s);
    forall q | q in w'.runners ensures InHand(w'.tracker, w'.runners[q]) {
      InHandKept(w.tracker, w'.tracker, w.runners[q]);
    }
    forall id | id in w'.db.tasks ensures SuccessShown(w'.tracker, w'.db.tasks[id]) {
      assert SuccessShown(w.tracker, w.db.tasks[id]);
    }
  }

  lemma {:induction false} RunOutcomes(w: World, steps: seq<Step>)
    requires Core(w) && OnePost(w) && StampsOk(w) && Outcomes(w)
    ensures Outcomes(Run(w, steps)) && StampsOk(Run(w, steps))
    decreases |steps|
  {
    if steps != [] {
      CoreStep(w, steps[0]);
      OnePostStep(w, steps[0]);
      StampsStep(w, steps[0]);
      OutcomeStep(w, steps[0]);
      RunOutcomes(Apply(w, steps[0]), steps[1..]);
    }
  }

  // ---- the guarantees -------------------------------------------------------------------

  predicate Quotes(issue: Tracker.Issue, marker: string) {
    issue.stamp != Some(marker) && Tracker.Contains(issue.text, Tracker.Tag(marker))
  }

  /** No issue but the marker's own has its tag in the text. */
  ghost predicate Unquoted(w: World, marker: string) {
    forall j: nat :: j < |w.tracker| ==> !Quotes(w.tracker[j], marker)
  }

  lemma UuidMarker(id: string)
    requires IsUuid(id)
    ensures Tracker.OneLine(Actions.MARKER_PREFIX + id) && |Actions.MARKER_PREFIX + id| == 49
  {
    var m := Actions.MARKER_PREFIX + id;
    forall i | 0 <= i < |m| ensures m[i] != '\n' {
      if i >= |Actions.MARKER_PREFIX| {
        assert m[i] == id[i - |Actions.MARKER_PREFIX|];
      }
    }
  }

  /** The marker of a reachable action, and every stamp on the tracker, is a one-line uuid marker. */
  lemma MarkerShape(w: World, id: Id)
    requires Core(w) && id in w.db.tasks && w.db.tasks[id].action.Some?
    ensures var m := w.db.tasks[id].action.value.marker; Tracker.OneLine(m) && |m| == 49
  {
    assert TaskInv(w.now, w.db.ServiceOf(id), w.db.tasks[id]);
    UuidMarker(w.db.tasks[id].action.value.id);
  }

  /** An issue carries a marker exactly if it was created with it or quotes it. */
  lemma CarriesIff(w: World, id: Id, j: nat)
    requires Core(w) && OnePost(w) && StampsOk(w) && id in w.db.tasks && w.db.tasks[id].action.Some? && j < |w.tracker|
    ensures var m := w.db.tasks[id].action.value.marker;
            Tracker.Carries(w.tracker[j], m) <==> w.tracker[j].stamp == Some(m) || Quotes(w.tracker[j], m)
  {
    var m := w.db.tasks[id].action.value.marker;
    if w.tracker[j].stamp.Some? {
      var k: nat :| k < |w.posts| && CreatedBy(w, j, k);
      MarkerShape(w, id);
      MarkerShape(w, w.posts[k].investigation);
      Tracker.StampedBodyCarries(w.tracker[j].text, w.tracker[j].stamp.value, m);
    }
  }

  /** An unquoted marker is carried exactly by the issue stamped with it. */
  lemma CarriesIsStamped(w: World, id: Id, j: nat)
    requires Core(w) && OnePost(w) && StampsOk(w) && id in w.db.tasks && w.db.tasks[id].action.Some? && j < |w.tracker|
    requires Unquoted(w, w.db.tasks[id].action.value.marker)
    ensures Tracker.Carries(w.tracker[j], w.db.tasks[id].action.value.marker)
            <==> w.tracker[j].stamp == Some(w.db.tasks[id].action.value.marker)
  {
    CarriesIff(w, id, j);
  }

  ghost predicate Reachable(w: World) {
    exists w0: World, steps: seq<Step> :: Init(w0) && w == Run(w0, steps)
  }

  lemma ReachableOk(w: World)
    requires Reachable(w)
    ensures Core(w) && OnePost(w) && StampsOk(w) && Outcomes(w)
  {
    var w0: World, steps: seq<Step> :| Init(w0) && w == Run(w0, steps);
    InitCore(w0);
    RunCore(w0, steps);
    RunOnePost(w0, steps);
    RunOutcomes(w0, steps);
  }

  /** In every reachable state a succeeded action has its issue: one that shows its marker in its repository. */
  lemma SucceededIsShown(w: World, id: Id)
    requires Reachable(w) && id in w.db.tasks
    requires w.db.tasks[id].action.Some? && w.db.tasks[id].action.value.state.Succeeded?
    ensures var a := w.db.tasks[id].action.value;
            a.result.Verified? && Shows(w.tracker, a.target, a.marker, a.result.issue)
  {
    ReachableOk(w);
    assert SuccessShown(w.tracker, w.db.tasks[id]);
  }

  /** The named issue was created with the marker, and no other issue of the tracker carries it. */
  ghost predicate OnlyCarrier(w: World, marker: string, i: nat) {
    && i < |w.tracker| && w.tracker[i].stamp == Some(marker)
    && forall j: nat :: j < |w.tracker| && Tracker.Carries(w.tracker[j], marker) ==> j == i
  }

  /** The issue a succeeded action names is the one created for it, and the only one carrying its marker,
      exactly when no other issue has the tag in its text. */
  lemma SucceededExactlyOnce(w: World, id: Id)
    requires Reachable(w) && id in w.db.tasks && IsSucceeded(w.db.tasks[id])
    ensures var a := w.db.tasks[id].action.value;
            a.result.Verified? && (OnlyCarrier(w, a.marker, a.result.issue) <==> Unquoted(w, a.marker))
  {
    ReachableOk(w);
    SucceededIsShown(w, id);
    OnlyCarrierIff(w, id, w.db.tasks[id].action.value.result.issue);
  }

  lemma OnlyCarrierIff(w: World, id: Id, i: nat)
    requires Core(w) && OnePost(w) && StampsOk(w) && id in w.db.tasks && w.db.tasks[id].action.Some?
    requires i < |w.tracker| && Tracker.Carries(w.tracker[i], w.db.tasks[id].action.value.marker)
    ensures var m := w.db.tasks[id].action.value.marker; OnlyCarrier(w, m, i) <==> Unquoted(w, m)
  {
    var m := w.db.tasks[id].action.value.marker;
    forall j: nat | j < |w.tracker|
      ensures Tracker.Carries(w.tracker[j], m) <==> w.tracker[j].stamp == Some(m) || Quotes(w.tracker[j], m)
    {
      CarriesIff(w, id, j);
    }
  }

  /** That issue was created by the one POST of the investigation, with the content last approved. */
  lemma OnlyCarrierWasPosted(w: World, id: Id)
    requires Reachable(w) && id in w.db.tasks && IsSucceeded(w.db.tasks[id])
    requires Unquoted(w, w.db.tasks[id].action.value.marker)
    ensures var a := w.db.tasks[id].action.value;
            && a.result.Verified? && a.result.issue < |w.tracker|
            && exists k: nat :: k < |w.posts| && CreatedBy(w, a.result.issue, k)
                                && w.posts[k].investigation == id && Authorised(w.db, w.posts[k])
  {
    ReachableOk(w);
    SucceededIsShown(w, id);
    var i := w.db.tasks[id].action.value.result.issue;
    CarriesIsStamped(w, id, i);
    var k: nat :| k < |w.posts| && CreatedBy(w, i, k);
    PostOfMarker(w, id, k);
  }

  lemma PostOfMarker(w: World, id: Id, k: nat)
    requires Core(w) && OnePost(w) && id in w.db.tasks && w.db.tasks[id].action.Some? && k < |w.posts|
    requires w.posts[k].marker == w.db.tasks[id].action.value.marker
    ensures w.posts[k].investigation == id
  {
    var p := w.posts[k];
    var x, y := w.db.tasks[p.investigation], w.db.tasks[id];
    assert TaskInv(w.now, w.db.ServiceOf(p.investigation), x) && TaskInv(w.now, w.db.ServiceOf(id), y);
    assert (Actions.MARKER_PREFIX + x.action.value.id)[|Actions.MARKER_PREFIX|..] == x.action.value.id;
    assert (Actions.MARKER_PREFIX + y.action.value.id)[|Actions.MARKER_PREFIX|..] == y.action.value.id;
    assert SameAction(w.db.tasks, p.investigation, id);
  }

  /** An unquoted marker is carried by at most one issue. */
  lemma OneCarrier(w: World, id: Id, i: nat, j: nat)
    requires Core(w) && OnePost(w) && StampsOk(w) && id in w.db.tasks && w.db.tasks[id].action.Some?
    requires Unquoted(w, w.db.tasks[id].action.value.marker) && i < |w.tracker| && j < |w.tracker|
    requires Tracker.Carries(w.tracker[i], w.db.tasks[id].action.value.marker)
    requires Tracker.Carries(w.tracker[j], w.db.tasks[id].action.value.marker)
    ensures i == j
  {
    CarriesIsStamped(w, id, i);
    CarriesIsStamped(w, id, j);
  }

  lemma HitCarries(issues: seq<Tracker.Issue>, repo: string, page: nat, marker: string, i: nat)
    requires page >= 1 && i in Tracker.Matching(Tracker.Page(issues, repo, page), marker)
    ensures i < |issues| && Tracker.Carries(issues[i], marker)
  {
    var items := Tracker.Page(issues, repo, page);
    Tracker.MatchingMembers(items, marker, i);
    var k :| Tracker.IsMatch(items, marker, k, i);
  }

  lemma ListedCarrierHits(issues: seq<Tracker.Issue>, repo: string, page: nat, marker: string, i: nat)
    requires page >= 1 && i < |issues| && Tracker.Carries(issues[i], marker)
    ensures Tracker.Listed(Tracker.Page(issues, repo, page), i)
            <==> i in Tracker.Matching(Tracker.Page(issues, repo, page), marker)
  {
    var items := Tracker.Page(issues, repo, page);
    Tracker.MatchingMembers(items, marker, i);
    if Tracker.Listed(items, i) {
      var k :| 0 <= k < |items| && items[k].number == i;
      assert Tracker.IsMatch(items, marker, k, i);
    }
  }

  /** Reconciling an unquoted marker calls a listing page ambiguous exactly when the candidate already
      found is listed again, because the listing moved between two page requests. */
  lemma AmbiguousOnlyByShift(w: World, r: nat)
    requires Reachable(w) && r in w.runners && w.runners[r].phase.Scanning? && w.runners[r].phase.page >= 1
    requires Unquoted(w, w.runners[r].run.marker)
    ensures var rn := w.runners[r];
            var items := Tracker.Page(w.tracker, rn.run.target, rn.phase.page);
            Tracker.Merge(items, rn.run.marker, rn.phase.candidate).Err? <==>
            rn.phase.candidate.Some? && Tracker.Listed(items, rn.phase.candidate.value)
  {
    ReachableOk(w);
    var rn := w.runners[r];
    assert InHand(w.tracker, rn) && RunTracks(w.db, rn.run);
    HitsUnique(w, r);
    MergeFailsIff(Tracker.Matching(Tracker.Page(w.tracker, rn.run.target, rn.phase.page), rn.run.marker),
        rn.phase.candidate);
    if rn.phase.candidate.Some? {
      HitIsCandidate(w, rn.run, rn.phase.page, rn.phase.candidate.value);
    }
  }

  lemma MergeFailsIff(hits: seq<nat>, c: Option<nat>)
    requires |hits| <= 1
    ensures Tracker.MergeHits(hits, c).Err? <==> c.Some? && hits != []
  {
  }

  /** What a page shows of an unquoted marker is the candidate found before. */
  lemma HitIsCandidate(w: World, run: Actions.ActionRun, page: nat, c: nat)
    requires Core(w) && OnePost(w) && StampsOk(w) && RunTracks(w.db, run) && page >= 1
    requires Unquoted(w, run.marker) && c < |w.tracker| && Tracker.Carries(w.tracker[c], run.marker)
    ensures var items := Tracker.Page(w.tracker, run.target, page);
            Tracker.Matching(items, run.marker) != [] <==> Tracker.Listed(items, c)
  {
    var hits := Tracker.Matching(Tracker.Page(w.tracker, run.target, page), run.marker);
    ListedCarrierHits(w.tracker, run.target, page, run.marker, c);
    if hits != [] {
      HitCarries(w.tracker, run.target, page, run.marker, hits[0]);
      OneCarrier(w, run.investigation, c, hits[0]);
    }
  }

  lemma HitsUnique(w: World, r: nat)
    requires Core(w) && OnePost(w) && StampsOk(w)
    requires r in w.runners && w.runners[r].phase.Scanning? && w.runners[r].phase.page >= 1
    requires Unquoted(w, w.runners[r].run.marker)
    ensures |Tracker.Matching(Tracker.Page(w.tracker, w.runners[r].run.target, w.runners[r].phase.page),
        w.runners[r].run.marker)| <= 1
  {
    var run, page := w.runners[r].run, w.runners[r].phase.page;
    var items := Tracker.Page(w.tracker, run.target, page);
    var hits := Tracker.Matching(items, run.marker);
    assert RunTracks(w.db, run);
    PageIncreases(w.tracker, run.target, page);
    Tracker.MatchingIncreases(items, run.marker);
    forall i: nat, j: nat | i in hits && j in hits ensures i == j {
      HitCarries(w.tracker, run.target, page, run.marker, i);
      HitCarries(w.tracker, run.target, page, run.marker, j);
      OneCarrier(w, run.investigation, i, j);
    }
    AtMostOneHit(hits);
  }

  lemma AtMostOneHit(hits: seq<nat>)
    requires forall k, m :: 0 <= k < m < |hits| ==> hits[k] > hits[m]
    requires forall i: nat, j: nat :: i in hits && j in hits ==> i == j
    ensures |hits| <= 1
  {
    if hits != [] {
      var first, last := hits[0], hits[|hits| - 1];
      assert first in hits && last in hits;
    }
  }

  lemma PageIncreases(issues: seq<Tracker.Issue>, repo: string, page: nat)
    requires page >= 1
    ensures var items := Tracker.Page(issues, repo, page);
            forall k, m :: 0 <= k < m < |items| ==> items[k].number > items[m].number
  {
  }
}
