/** Concrete runs from an empty system: a succeeded action that is demoted, a success on somebody else's
    issue, and a saved draft that nobody can approve. */
module Witnesses {
  import opened Wrappers
  import opened Tables
  import opened Invariants
  import opened ControlPlane
  import Safety
  import Reconciliation
  import Finality
  import Tasks
  import Sources
  import Queue
  import Actions
  import Tracker

  const ANN := "ann"
  const BOB := "bob"
  const TEAM := "payments"
  const SVC := "checkout"
  const REPO := "acme/checkout"
  const MOVED := "acme/archive"
  const WORKER := "w1"
  const TASK: Id := "t1"
  const MEMBERS: map<(string, string), Role> := map[(ANN, TEAM) := Investigator, (BOB, TEAM) := Approver]

  const AID: Id := seq(36, _ => '0')
  const SECOND_AID: Id := seq(36, _ => '1')

  function Empty(): World {
    World(0, 60, 1, Db(MEMBERS, map[SVC := Service(TEAM, REPO, 0, true)], map[], map[]),
          [], map[], 0, [], map[], map[])
  }

  function Admitted(): Task {
    Tasks.NewTask(0, Service(TEAM, REPO, 0, true), SVC, ANN, "key", "hash", "errors")
  }

  /** The system holds this one task, of ann's, on the one service. */
  ghost predicate Lone(w: World, t: Task) {
    && w.db.tasks == map[TASK := t] && w.db.services.Keys == {SVC} && w.db.members == MEMBERS && w.maxActive == 1
    && w.db.services[SVC].enabled && w.db.services[SVC].team == TEAM && w.db.Valid()
    && t.inv.service == SVC && t.inv.team == TEAM && t.inv.subject == ANN
  }

  function Put(w: World, t: Task): World {
    w.(db := w.db.WithTask(TASK, t))
  }

  // ---- one step of a lone task ------------------------------------------------------------------

  lemma CreateLone()
    ensures Init(Empty()) && Empty().db.Valid()
    ensures var w := Apply(Empty(), Create(ANN, "key", "hash", SVC, "errors", TASK));
            Lone(w, Admitted()) && w == Empty().(db := w.db) && w.db.services == Empty().db.services
  {
    assert Tasks.ActiveTasks(map[], TEAM) == {};
  }

  lemma SweepLone(w: World, t: Task)
    requires Lone(w, t) && !Queue.Exhausted(t.job, w.now)
    ensures Queue.Sweep(w.db, w.now) == w.db
  {
    assert Queue.Sweep(w.db, w.now).tasks == w.db.tasks;
  }

  lemma ClaimLone(w: World, t: Task)
    requires Lone(w, t) && t.job.state.JobQueued? && t.inv.status.Queued?
    requires t.job.availableAt <= w.now && t.job.attempts < Queue.MAX_ATTEMPTS
    ensures Apply(w, Claim(WORKER, {}, Some(TASK)))
            == Put(w, Queue.ClaimedTask(t, w.now, w.lease, WORKER, w.db.services[SVC].watermark))
  {
    SweepLone(w, t);
    assert Queue.LiveJobs(w.db.tasks, w.now) == {};
    assert Queue.Candidates(w.db.tasks, w.now, {}) == {TASK};
    assert Queue.Selects(w.db.tasks, w.now, {}, Some(TASK));
  }

  function Body(generation: nat): Callback {
    Tables.Callback(WORKER, generation, "cb", "", "", Completed, Some(Report([], [], [], [])), 0, "", "")
  }

  lemma ResultLone(w: World, t: Task)
    requires Lone(w, t) && t.job.Live(w.now) && t.job.owner == Some(WORKER) && t.job.lastCallback.None?
    requires t.inv.sourceVersion == w.db.services[SVC].watermark
    ensures var w' := Apply(w, ControlPlane.Callback(TASK, Queue.ResultOp, Body(t.job.generation)));
            w' == Put(w, Queue.PublishedTask(t, Body(t.job.generation))).(published := w'.published)
  {
    var b := Body(t.job.generation);
    assert Queue.References(b.report.value) == [];
    PublishesLone(w, t, b);
  }

  lemma PublishesLone(w: World, t: Task, b: Callback)
    requires Lone(w, t) && t.job.Live(w.now) && t.job.owner == Some(WORKER) && t.job.lastCallback.None?
    requires t.inv.sourceVersion == w.db.services[SVC].watermark && b == Body(t.job.generation)
    requires Queue.References(b.report.value) == []
    ensures Queue.CallbackTx(w.db, w.now, w.lease, TASK, Queue.ResultOp, b).db
            == w.db.WithTask(TASK, Queue.PublishedTask(t, b))
  {
    assert Queue.Fence(w.db, w.now, TASK, b).None?;
    assert Queue.ResultError(w.db, TASK, b).None?;
  }

  lemma DraftLone(w: World, t: Task, aid: Id, version: nat)
    requires Lone(w, t) && t.inv.status.Completed? && t.inv.sourceVersion == w.db.services[SVC].watermark
    requires IsUuid(aid) && (t.action.Some? ==> t.action.value.id != aid && !t.action.value.state.Dispatched())
    requires version == if t.action.Some? then t.action.value.version else 0
    ensures Apply(w, SaveDraft(ANN, TASK, aid, version, "title", "body"))
            == Put(w, Actions.DraftedTask(t, w.now, w.db.services[SVC], aid, "title", "body"))
  {
    var s := SaveDraft(ANN, TASK, aid, version, "title", "body");
    assert Enabled(w, s);
    assert Actions.DraftError(w.db, ANN, TASK, version).None?;
  }

  lemma ApproveLone(w: World, t: Task)
    requires Lone(w, t) && !t.inv.status.Cancelled? && t.action.Some? && t.action.value.state.Draft?
    requires t.action.value.sourceVersion == w.db.services[SVC].watermark
             && t.action.value.target == w.db.services[SVC].repo
    ensures Apply(w, Decide(BOB, TASK, Actions.Approve, t.action.value.version))
            == Put(w, Actions.DecidedTask(t, w.now, BOB, true))
  {
    assert Actions.DecideTask(w.db, w.now, BOB, TASK, Actions.Approve, t.action.value.version)
           == Ok(Actions.DecidedTask(t, w.now, BOB, true));
  }

  lemma DueLone(w: World, t: Task)
    requires Lone(w, t) && Actions.Due(t, w.now)
    ensures Enabled(w, Dispatch({}, TASK)) && Apply(w, Dispatch({}, TASK)) == DispatchWorld(w, TASK)
  {
    assert Actions.DueActions(w.db.tasks, w.now, {}) == {TASK};
  }

  function Posting(w: World, t: Task): World
    requires t.action.Some?
  {
    var run := Actions.RunOf(TASK, t.action.value, false);
    Put(w, Actions.TakenTask(t, w.now, false)).(
      runners := w.runners[w.started := Runner(run, Ready)], started := w.started + 1)
  }

  lemma DispatchLone(w: World, t: Task)
    requires Lone(w, t) && t.action.Some? && t.action.value.state.Approved? && !t.inv.status.Cancelled?
    requires t.action.value.sourceVersion == w.db.services[SVC].watermark
             && t.action.value.target == w.db.services[SVC].repo
    requires t.action.value.approvedVersion == Some(t.action.value.version) && t.action.value.approvedBy == Some(BOB)
    requires t.action.value.approvedDigest == Some(t.action.value.digest)
    ensures Apply(w, Dispatch({}, TASK)) == Posting(w, t)
  {
    DueLone(w, t);
    assert !Actions.Withdrawn(w.db, TASK);
    assert Actions.DispatchTx(w.db, w.now, TASK).db == w.db.WithTask(TASK, Actions.TakenTask(t, w.now, false));
  }

  // ---- stages of a run ------------------------------------------------------------------------------

  ghost predicate Reaches(steps: seq<Step>, w: World) {
    Empty().db.Valid() && w == Run(Empty(), steps)
  }

  lemma Extend(steps: seq<Step>, w: World, s: Step, w': World)
    requires Reaches(steps, w) && w' == Apply(w, s)
    ensures Reaches(steps + [s], w')
  {
    RunSnoc(Empty(), steps, s);
  }

  /** Nothing outside the tables and the clock differs. */
  predicate SameOutside(w: World, w': World) {
    && w'.tracker == w.tracker && w'.runners == w.runners && w'.started == w.started
    && w'.now == w.now && w'.lease == w.lease
  }

  predicate Waiting(t: Task, now: int) {
    && t.job.state.JobQueued? && t.inv.status.Queued? && t.job.availableAt <= now && t.job.attempts < Queue.MAX_ATTEMPTS
    && t.job.lastCallback.None?
  }

  /** Claimed and running on current sources. */
  ghost predicate Working(w: World, t: Task) {
    && Lone(w, t) && t.job.Live(w.now) && t.job.owner == Some(WORKER) && t.job.lastCallback.None?
    && t.inv.sourceVersion == w.db.services[SVC].watermark
  }

  lemma ClaimedWorks(w: World, t: Task)
    requires Lone(w, t) && Waiting(t, w.now) && w.lease > 0
    ensures var t' := Queue.ClaimedTask(t, w.now, w.lease, WORKER, w.db.services[SVC].watermark);
            Working(Put(w, t'), t') && t'.action == t.action
  {
  }

  lemma Claimed(steps: seq<Step>, w: World, t: Task) returns (steps': seq<Step>, w': World, t': Task)
    requires Reaches(steps, w) && Lone(w, t) && Waiting(t, w.now) && w.lease > 0
    ensures Reaches(steps', w') && Working(w', t') && SameOutside(w, w') && w'.db.services == w.db.services
    ensures t'.action == t.action
  {
    t' := Queue.ClaimedTask(t, w.now, w.lease, WORKER, w.db.services[SVC].watermark);
    w' := Put(w, t');
    ClaimLone(w, t);
    ClaimedWorks(w, t);
    Extend(steps, w, Claim(WORKER, {}, Some(TASK)), w');
    steps' := steps + [Claim(WORKER, {}, Some(TASK))];
  }

  lemma Published(steps: seq<Step>, w: World, t: Task) returns (steps': seq<Step>, w': World, t': Task)
    requires Reaches(steps, w) && Working(w, t)
    ensures Reaches(steps', w') && Lone(w', t') && SameOutside(w, w') && w'.db.services == w.db.services
    ensures t'.inv.status.Completed? && t'.inv.sourceVersion == w.db.services[SVC].watermark && t'.action == t.action
  {
    t' := Queue.PublishedTask(t, Body(t.job.generation));
    var s := ControlPlane.Callback(TASK, Queue.ResultOp, Body(t.job.generation));
    ResultLone(w, t);
    w' := Apply(w, s);
    Extend(steps, w, s, w');
    steps' := steps + [s];
  }

  /** A waiting task is claimed and its result published. */
  lemma Work(steps: seq<Step>, w: World, t: Task) returns (steps': seq<Step>, w': World, t': Task)
    requires Reaches(steps, w) && Lone(w, t) && Waiting(t, w.now) && w.lease > 0
    ensures Reaches(steps', w') && Lone(w', t') && SameOutside(w, w') && w'.db.services == w.db.services
    ensures t'.inv.status.Completed? && t'.inv.sourceVersion == w.db.services[SVC].watermark && t'.action == t.action
  {
    var steps1, w1, t1 := Claimed(steps, w, t);
    steps', w', t' := Published(steps1, w1, t1);
  }

  /** Admitted and worked on. */
  lemma FirstWork() returns (steps: seq<Step>, w: World, t: Task)
    ensures Reaches(steps, w) && Lone(w, t) && SameOutside(Empty(), w) && w.db.services == Empty().db.services
    ensures t.inv.status.Completed? && t.inv.sourceVersion == 0 && t.action.None?
  {
    var create := Create(ANN, "key", "hash", SVC, "errors", TASK);
    CreateLone();
    var admitted := Apply(Empty(), create);
    Extend([], Empty(), create, admitted);
    steps, w, t := Work([] + [create], admitted, Admitted());
  }

  /** Admitted, worked on, and drafted for the configured repository. */
  lemma FirstDraft() returns (steps: seq<Step>, w: World, t: Task)
    ensures Reaches(steps, w) && Lone(w, t) && SameOutside(Empty(), w) && w.db.services == Empty().db.services
    ensures t.inv.status.Completed? && t.inv.sourceVersion == 0
    ensures t.action == Some(Actions.NewAction(AID, REPO, "title", "body", EvidenceHash(t.inv.report), 0, w.now))
  {
    var steps1, w1, t1 := FirstWork();
    var draft := SaveDraft(ANN, TASK, AID, 0, "title", "body");
    DraftLone(w1, t1, AID, 0);
    t := Actions.DraftedTask(t1, w1.now, w1.db.services[SVC], AID, "title", "body");
    w := Put(w1, t);
    Extend(steps1, w1, draft, w);
    steps := steps1 + [draft];
  }

  predicate ApprovedByBob(t: Task) {
    LastDecision(t).Some? && LastDecision(t).value.approve && LastDecision(t).value.subject == BOB
  }

  /** The draft is approved. */
  lemma FirstApproval() returns (steps: seq<Step>, w: World, t: Task)
    ensures Reaches(steps, w) && Lone(w, t) && SameOutside(Empty(), w) && w.db.services == Empty().db.services
    ensures t.inv.status.Completed? && t.action.Some?
    ensures var a := Actions.NewAction(AID, REPO, "title", "body", EvidenceHash(t.inv.report), 0, w.now);
            t.action.value == Actions.Decided(a, BOB, true, w.now)
    ensures ApprovedByBob(t)
  {
    var steps1, w1, t1 := FirstDraft();
    var approve := Decide(BOB, TASK, Actions.Approve, 1);
    ApproveLone(w1, t1);
    t := Actions.DecidedTask(t1, w1.now, BOB, true);
    w := Put(w1, t);
    Extend(steps1, w1, approve, w);
    steps := steps1 + [approve];
  }

  /** Handed to a runner, the approved action is executing and its decisions are as they were. */
  lemma TakenLone(w: World, t: Task)
    requires Lone(w, t) && t.action.Some? && ApprovedByBob(t)
    ensures var t' := Actions.TakenTask(t, w.now, false);
            && Lone(Posting(w, t), t') && ApprovedByBob(t')
            && t'.action == Some(t.action.value.(state := Executing, updatedAt := w.now))
  {
  }

  /** Approved, dispatched, and about to be posted by runner 0. */
  lemma AboutToPost() returns (steps: seq<Step>, w: World, t: Task)
    ensures Reaches(steps, w) && Lone(w, t) && w.tracker == [] && w.started == 1
    ensures t.action.Some? && t.action.value.state.Executing? && t.action.value.updatedAt == w.now
    ensures t.action.value.target == REPO
    ensures w.runners == map[0 := Runner(Actions.RunOf(TASK, t.action.value, false), Ready)] && ApprovedByBob(t)
  {
    var steps1, w1, t1 := FirstApproval();
    DispatchLone(w1, t1);
    TakenLone(w1, t1);
    t := Actions.TakenTask(t1, w1.now, false);
    w := Posting(w1, t1);
    Extend(steps1, w1, Dispatch({}, TASK), w);
    steps := steps1 + [Dispatch({}, TASK)];
  }

  lemma BobLeaves(w: World, t: Task)
    requires Lone(w, t)
    ensures var w' := Apply(w, SetMember(BOB, TEAM, None));
            w' == w.(db := w.db.(members := w'.db.members)) && (BOB, TEAM) !in w'.db.members
  {
  }

  lemma PostsNow(w: World)
    requires w.db.Valid() && 0 in w.runners && w.runners[0].phase.Ready?
    ensures var w' := Apply(w, SendPost(0, true, true)); w'.posts == w.posts + [w.runners[0].run] && w'.db == w.db
  {
  }

  /** Roles are looked at when an action is handed to a runner and not when the runner sends: a run in which bob
      approves, leaves the team while a runner is about to send, and the POST goes out all the same. */
  lemma PostedAfterRoleLost() returns (before: seq<Step>)
    ensures Empty().db.Valid() && Init(Empty())
    ensures var w := Run(Empty(), before);
            var w' := Apply(w, SendPost(0, true, true));
            && (BOB, TEAM) !in w.db.members
            && |w'.posts| == |w.posts| + 1 && w'.posts[|w.posts|].investigation == TASK
            && TASK in w'.db.tasks && ApprovedByBob(w'.db.tasks[TASK])
  {
    CreateLone();
    var steps, w, t := AboutToPost();
    BobLeaves(w, t);
    var gone := Apply(w, SetMember(BOB, TEAM, None));
    Extend(steps, w, SetMember(BOB, TEAM, None), gone);
    PostsNow(gone);
    before := steps + [SetMember(BOB, TEAM, None)];
  }

  // ---- a reconciling runner ---------------------------------------------------------------------------

  /** The action was dispatched and has not succeeded. */
  ghost predicate Undecided(w: World, t: Task) {
    && Lone(w, t) && t.action.Some? && (t.action.value.state.Executing? || t.action.value.state.Unknown?)
    && t.action.value.updatedAt <= w.now && w.started !in w.runners
  }

  /** Moreover, the only issue of the tracker carries its marker. */
  ghost predicate Unresolved(w: World, t: Task) {
    && Undecided(w, t) && |w.tracker| == 1 && w.tracker[0].repo == t.action.value.target
    && Tracker.Carries(w.tracker[0], t.action.value.marker)
  }

  function Reconciling(w: World, t: Task, p: Phase): World
    requires t.action.Some?
  {
    var run := Actions.RunOf(TASK, t.action.value, true);
    Put(w, Actions.TakenTask(t, w.now, true)).(runners := w.runners[w.started := Runner(run, p)],
        started := w.started + 1)
  }

  lemma TakeUp(w: World, t: Task)
    requires Undecided(w, t) && t.action.value.updatedAt < w.now - Actions.RECONCILE_AFTER
    ensures Apply(w, Dispatch({}, TASK)) == Reconciling(w, t, Scanning(1, None))
  {
    DueLone(w, t);
  }

  lemma OneIssuePage(tracker: seq<Tracker.Issue>, marker: string)
    requires |tracker| == 1 && Tracker.Carries(tracker[0], marker)
    ensures Tracker.ScanPage(Tracker.Page(tracker, tracker[0].repo, 1), marker, 1, None) == Tracker.Stop(Some(0))
  {
    var items := Tracker.Page(tracker, tracker[0].repo, 1);
    assert Tracker.Listing(tracker, tracker[0].repo)
           == [Tracker.Item(0, tracker[0])] + Tracker.ListingUpTo(tracker, 0, tracker[0].repo);
    assert items == [Tracker.Item(0, tracker[0])];
    assert Tracker.Selected(items, Tracker.Carrier(marker)) == [0] + Tracker.Selected([], Tracker.Carrier(marker));
  }

  lemma Scan(w: World, r: nat)
    requires w.db.Valid() && r in w.runners && w.runners[r].phase == Scanning(1, None)
    requires |w.tracker| == 1 && w.tracker[0].repo == w.runners[r].run.target
    requires Tracker.Carries(w.tracker[0], w.runners[r].run.marker)
    ensures Apply(w, ReadListing(r)) == WithPhase(w, r, Found(0))
  {
    OneIssuePage(w.tracker, w.runners[r].run.marker);
  }

  lemma ReadFound(w: World, r: nat)
    requires w.db.Valid() && r in w.runners && w.runners[r].phase == Found(0)
    ensures Apply(w, ReadIssue(r)) == WithPhase(w, r, Settled(Some(0)))
  {
  }

  lemma FinishLone(w: World, t: Task, r: nat)
    requires Lone(w, t) && t.action.Some? && r in w.runners && w.runners[r].phase.Settled?
    requires w.runners[r].run.investigation == TASK
    ensures Apply(w, Finish(r))
        == Put(w, Actions.FinishedTask(t, w.now, w.runners[r].run.marker, w.runners[r].phase.success))
                                   .(runners := w.runners - {r})
  {
  }

  /** A while later a runner takes the action up. */
  lemma TakesUp(steps: seq<Step>, w: World, t: Task) returns (steps': seq<Step>, later: World)
    requires Reaches(steps, w) && Undecided(w, t)
    ensures later == w.(now := w.now + 16) && Reaches(steps', Reconciling(later, t, Scanning(1, None)))
  {
    later := w.(now := w.now + 16);
    assert Apply(w, Tick(16)) == later;
    Extend(steps, w, Tick(16), later);
    TakeUp(later, t);
    Extend(steps + [Tick(16)], later, Dispatch({}, TASK), Reconciling(later, t, Scanning(1, None)));
    steps' := steps + [Tick(16)] + [Dispatch({}, TASK)];
  }

  lemma ReconcilingMoves(w: World, t: Task, p: Phase, q: Phase)
    requires t.action.Some?
    ensures WithPhase(Reconciling(w, t, p), w.started, q) == Reconciling(w, t, q)
  {
  }

  lemma FindsInListing(steps: seq<Step>, w: World, t: Task) returns (steps': seq<Step>)
    requires Unresolved(w, t) && Reaches(steps, Reconciling(w, t, Scanning(1, None)))
    ensures Reaches(steps', Reconciling(w, t, Found(0)))
  {
    var r, w1 := w.started, Reconciling(w, t, Scanning(1, None));
    Scan(w1, r);
    ReconcilingMoves(w, t, w1.runners[r].phase, Found(0));
    Extend(steps, w1, ReadListing(r), Reconciling(w, t, Found(0)));
    steps' := steps + [ReadListing(r)];
  }

  lemma ReadsIt(steps: seq<Step>, w: World, t: Task) returns (steps': seq<Step>)
    requires Unresolved(w, t) && Reaches(steps, Reconciling(w, t, Found(0)))
    ensures Reaches(steps', Reconciling(w, t, Settled(Some(0))))
  {
    var r, w2 := w.started, Reconciling(w, t, Found(0));
    ReadFound(w2, r);
    ReconcilingMoves(w, t, w2.runners[r].phase, Settled(Some(0)));
    Extend(steps, w2, ReadIssue(r), Reconciling(w, t, Settled(Some(0))));
    steps' := steps + [ReadIssue(r)];
  }

  /** The task after the reconciling runner found the issue. */
  function Resolved(w: World, t: Task): Task
    requires t.action.Some?
  {
    Actions.FinishedTask(Actions.TakenTask(t, w.now, true), w.now, t.action.value.marker, Some(0))
  }

  lemma ResolvedSucceeds(w: World, t: Task)
    requires Unresolved(w, t)
    ensures Lone(Put(w, Resolved(w, t)), Resolved(w, t)) && IsSucceeded(Resolved(w, t))
    ensures Resolved(w, t).action.value.result == Verified(0)
            && Resolved(w, t).action.value.marker == t.action.value.marker
  {
  }

  lemma TakenIsLone(w: World, t: Task, p: Phase)
    requires Undecided(w, t)
    ensures Lone(Reconciling(w, t, p), Actions.TakenTask(t, w.now, true))
  {
  }

  lemma PutOver(w: World, t: Task, p: Phase, u: Task)
    requires Undecided(w, t)
    ensures Put(Reconciling(w, t, p), u).(runners := Reconciling(w, t, p).runners - {w.started})
            == Put(w, u).(started := w.started + 1)
  {
    assert w.db.tasks[TASK := Actions.TakenTask(t, w.now, true)][TASK := u] == w.db.tasks[TASK := u];
    assert Reconciling(w, t, p).runners - {w.started} == w.runners;
  }

  lemma FinishTaken(w: World, t: Task)
    requires Unresolved(w, t)
    ensures Apply(Reconciling(w, t, Settled(Some(0))), Finish(w.started))
            == Put(w, Resolved(w, t)).(started := w.started + 1)
  {
    TakenIsLone(w, t, Settled(Some(0)));
    FinishLone(Reconciling(w, t, Settled(Some(0))), Actions.TakenTask(t, w.now, true), w.started);
    PutOver(w, t, Settled(Some(0)), Resolved(w, t));
  }

  lemma FinishesIt(steps: seq<Step>, w: World, t: Task) returns (steps': seq<Step>, w': World, t': Task)
    requires Unresolved(w, t) && Reaches(steps, Reconciling(w, t, Settled(Some(0))))
    ensures Reaches(steps', w') && Lone(w', t') && w'.tracker == w.tracker && w'.runners == w.runners
    ensures IsSucceeded(t') && t'.action.value.result == Verified(0) && t'.action.value.marker == t.action.value.marker
  {
    var finish := Finish(w.started);
    t', w' := Resolved(w, t), Put(w, Resolved(w, t)).(started := w.started + 1);
    FinishTaken(w, t);
    ResolvedSucceeds(w, t);
    Extend(steps, Reconciling(w, t, Settled(Some(0))), finish, w');
    steps' := steps + [finish];
  }

  /** Taken up after a while, the action succeeds on that issue; other runners stay where they are. */
  lemma Reconciles(steps: seq<Step>, w: World, t: Task) returns (steps': seq<Step>, w': World, t': Task)
    requires Reaches(steps, w) && Unresolved(w, t)
    ensures Reaches(steps', w') && Lone(w', t') && w'.tracker == w.tracker && w'.runners == w.runners
    ensures IsSucceeded(t') && t'.action.value.result == Verified(0) && t'.action.value.marker == t.action.value.marker
  {
    var steps1, later := TakesUp(steps, w, t);
    var steps2 := FindsInListing(steps1, later, t);
    var steps3 := ReadsIt(steps2, later, t);
    steps', w', t' := FinishesIt(steps3, later, t);
  }

  // ---- the witnesses --------------------------------------------------------------------------------------

  /** The POST is answered, but its runner hangs before the read-back; meanwhile the action is reconciled and
      succeeds. Then the read-back fails, and the slow runner's last write demotes it. */
  lemma SuccessDemoted() returns (steps: seq<Step>, more: seq<Step>)
    ensures Init(Empty()) && Empty().db.Valid()
    ensures Finality.StaysSucceeded(Run(Empty(), steps), [], TASK)
    ensures !Finality.StaysSucceeded(Run(Empty(), steps), more, TASK)
  {
    var steps1, w1, t1 := AboutToPost();
    var post := SendPost(0, true, true);
    var w2 := Apply(w1, post);
    PostAnswered(w1, t1);
    Extend(steps1, w1, post, w2);
    var steps3, w3, t3 := Reconciles(steps1 + [post], w2, t1);
    CreateLone();
    ReachedIsReachable(steps3, w3);
    steps, more := steps3, Finality.Overwrites(w3, 0);
    Finality.UnsettledOverwrites(w3, TASK, 0);
  }

  lemma PostAnswered(w: World, t: Task)
    requires Lone(w, t) && t.action.Some? && t.action.value.state.Executing? && t.action.value.updatedAt == w.now
    requires t.action.value.target == REPO && w.tracker == [] && w.started == 1
    requires w.runners == map[0 := Runner(Actions.RunOf(TASK, t.action.value, false), Ready)]
    ensures var w' := Apply(w, SendPost(0, true, true));
            Unresolved(w', t) && 0 in w'.runners && w'.runners[0] == Runner(w.runners[0].run, Created(0))
  {
    var a := t.action.value;
    Tracker.StampIsFound(a.body, a.marker);
    var w' := Apply(w, SendPost(0, true, true));
    assert w'.tracker == [Tracker.Issue(a.target, a.title, a.body, Some(a.marker))];
  }

  lemma ReachedIsReachable(steps: seq<Step>, w: World)
    requires Reaches(steps, w) && Init(Empty())
    ensures Reconciliation.Reachable(w) && Safety.Core(w)
  {
    Reconciliation.ReachableOk(w);
  }

  lemma LostLone(w: World, r: nat, committed: bool)
    requires w.db.Valid() && r in w.runners && w.runners[r].phase.Ready?
    ensures Apply(w, SendPost(r, committed, false)) == Posted(w, r, committed, false)
  {
  }

  /** What a POST of the action leaves on the tracker. */
  function Own(t: Task): Tracker.Issue
    requires t.action.Some?
  {
    Tracker.Issue(t.action.value.target, t.action.value.title, t.action.value.body, Some(t.action.value.marker))
  }

  /** No reply to the POST arrives, whether it committed or not. */
  lemma PostLost(committed: bool) returns (steps: seq<Step>, w: World, t: Task)
    ensures Reaches(steps, w) && Lone(w, t) && w.started == 1 && w.runners == map[]
    ensures t.action.Some? && t.action.value.state.Unknown? && t.action.value.updatedAt == w.now
    ensures t.action.value.target == REPO && w.tracker == if committed then [Own(t)] else []
  {
    var steps1, w1, t1 := AboutToPost();
    var lost, finish := SendPost(0, committed, false), Finish(0);
    var w2 := Posted(w1, 0, committed, false);
    LostLone(w1, 0, committed);
    Extend(steps1, w1, lost, w2);
    FinishLone(w2, t1, 0);
    t := Actions.FinishedTask(t1, w2.now, t1.action.value.marker, None);
    w := Apply(w2, finish);
    Extend(steps1 + [lost], w2, finish, w);
    steps := steps1 + [lost] + [finish];
  }

  /** The POST is lost, somebody files an issue quoting the marker, and the action succeeds on that issue. */
  lemma SuccessOnForeignIssue() returns (steps: seq<Step>)
    ensures Init(Empty()) && Empty().db.Valid()
    ensures var w := Run(Empty(), steps);
            && Finality.StaysSucceeded(w, [], TASK)
            && w.db.tasks[TASK].action.value.result == Verified(0) && |w.tracker| == 1 && w.tracker[0].stamp.None?
  {
    CreateLone();
    var steps1, w1, t1 := PostLost(false);
    var quote := Tracker.Tag(t1.action.value.marker);
    var foreign := ForeignIssue(REPO, "seen here too", quote);
    FiledLone(w1, t1, "seen here too");
    Extend(steps1, w1, foreign, Filed(w1, "seen here too", quote));
    var w3: World, t3: Task;
    steps, w3, t3 := Reconciles(steps1 + [foreign], Filed(w1, "seen here too", quote), t1);
  }

  /** The only issue of the tracker was filed by somebody else. */
  function Filed(w: World, title: string, text: string): World {
    w.(tracker := [Tracker.Issue(REPO, title, text, None)])
  }

  lemma FiledLone(w: World, t: Task, title: string)
    requires Lone(w, t) && w.tracker == [] && w.started !in w.runners
    requires t.action.Some? && t.action.value.state.Unknown? && t.action.value.updatedAt <= w.now
    requires t.action.value.target == REPO
    ensures var quote := Tracker.Tag(t.action.value.marker);
            Apply(w, ForeignIssue(REPO, title, quote)) == Filed(w, title, quote)
            && Unresolved(Filed(w, title, quote), t)
  {
    Quoted(Filed(w, title, Tracker.Tag(t.action.value.marker)).tracker[0], t.action.value.marker);
  }

  lemma Quoted(issue: Tracker.Issue, marker: string)
    requires issue.stamp.None? && issue.text == Tracker.Tag(marker)
    ensures Tracker.Carries(issue, marker)
  {
    Tracker.ContainsMeans(issue.text, Tracker.Tag(marker));
    assert Tracker.OccursAt(issue.text, Tracker.Tag(marker), 0);
  }

  lemma MoveTables(db: Db, t: Task)
    requires db.Valid() && db.tasks == map[TASK := t] && db.services.Keys == {SVC} && t.inv.service == SVC
    ensures var r := Sources.ConfigureTx(db, SVC, MOVED, true).db;
            && r == db.(services := r.services, tasks := map[TASK := Sources.InvalidatedTask(t, false)])
            && r.services == map[SVC := db.services[SVC].(repo := MOVED, enabled := true,
                                                          watermark := db.services[SVC].watermark + 1)]
  {
  }

  lemma MoveLone(w: World, t: Task)
    requires Lone(w, t)
    ensures var w' := Apply(w, Configure(SVC, MOVED, true));
            && Lone(w', Sources.InvalidatedTask(t, false)) && w'.now == w.now && w'.lease == w.lease
            && w'.db.services[SVC].repo == MOVED
            && w'.db.services[SVC].watermark == w.db.services[SVC].watermark + 1
  {
    MoveTables(w.db, t);
  }

  /** The repository moves after the first draft, and the task is resumed. */
  lemma Moved() returns (steps: seq<Step>, w: World, t: Task)
    ensures Reaches(steps, w) && Lone(w, t) && t.inv.status.Completed? && w.now == 0 && w.lease == 60
    ensures w.db.services[SVC].watermark == 1 && w.db.services[SVC].repo == MOVED
    ensures t.action.Some? && t.action.value.state.Invalidated? && t.action.value.target == REPO
    ensures t.action.value.id == AID && t.action.value.version == 1
  {
    var steps1, w1, t1 := FirstDraft();
    var move := Configure(SVC, MOVED, true);
    MoveLone(w1, t1);
    t := Sources.InvalidatedTask(t1, false);
    w := Apply(w1, move);
    Extend(steps1, w1, move, w);
    steps := steps1 + [move];
  }

  lemma ResumeTables(db: Db, t: Task, now: int)
    requires db.Valid() && db.tasks == map[TASK := t] && t.inv.status.Completed?
    ensures Tasks.ResumeTx(db, now, TASK, "more")
            == Outcome(db.WithTask(TASK, Tasks.ResumedTask(t, now, "more", db.ServiceOf(TASK).watermark)), Ok(()))
  {
  }

  lemma ResumeLone(w: World, t: Task)
    requires Lone(w, t) && t.inv.status.Completed?
    ensures var w' := Apply(w, Resume(TASK, "more"));
            && w' == w.(db := w'.db, resumes := w'.resumes)
            && w'.db == w.db.WithTask(TASK, Tasks.ResumedTask(t, w.now, "more", w.db.services[SVC].watermark))
  {
    ResumeTables(w.db, t, w.now);
  }

  lemma Redrafted(steps: seq<Step>, w: World, t: Task) returns (steps': seq<Step>, w': World)
    requires Reaches(steps, w) && Lone(w, t) && t.inv.status.Completed? && w.lease > 0
    requires t.action.Some? && !t.action.value.state.Dispatched() && t.action.value.target != w.db.services[SVC].repo
    requires t.action.value.id == AID
    ensures Reaches(steps', w') && TASK in w'.db.tasks && w'.db.tasks[TASK].inv.service in w'.db.services
    ensures var a := w'.db.tasks[TASK].action;
            a.Some? && a.value.state.Draft? && a.value.target != w'.db.ServiceOf(TASK).repo
  {
    var resume := Resume(TASK, "more");
    var t1 := Tasks.ResumedTask(t, w.now, "more", w.db.services[SVC].watermark);
    ResumeLone(w, t);
    Extend(steps, w, resume, Apply(w, resume));
    var steps2, w2, t2 := Work(steps + [resume], Apply(w, resume), t1);
    var draft := SaveDraft(ANN, TASK, SECOND_AID, t2.action.value.version, "title", "body");
    assert SECOND_AID[0] != AID[0];
    DraftLone(w2, t2, SECOND_AID, t2.action.value.version);
    w' := Apply(w2, draft);
    Extend(steps2, w2, draft, w');
    steps' := steps2 + [draft];
  }

  lemma NobodyApproves(db: Db, now: int, u: string, version: nat)
    requires db.Valid() && TASK in db.tasks && db.tasks[TASK].action.Some?
    requires db.tasks[TASK].action.value.target != db.ServiceOf(TASK).repo
    ensures Actions.DecideTx(db, now, u, TASK, Actions.Approve, version).reply.Err?
  {
  }

  /** After the move the task is worked on and drafted again: that draft is saved, and nobody can approve it. */
  lemma DraftStuck() returns (steps: seq<Step>)
    ensures Init(Empty()) && Empty().db.Valid()
    ensures var w := Run(Empty(), steps);
            && TASK in w.db.tasks && w.db.tasks[TASK].action.Some? && w.db.tasks[TASK].action.value.state.Draft?
            && forall u, now, version :: Actions.DecideTx(w.db, now, u, TASK, Actions.Approve, version).reply.Err?
  {
    CreateLone();
    var steps1, w1, t1 := Moved();
    var w: World;
    steps, w := Redrafted(steps1, w1, t1);
    forall u, now, version ensures Actions.DecideTx(w.db, now, u, TASK, Actions.Approve, version).reply.Err? {
      NobodyApproves(w.db, now, u, version);
    }
  }
}
