/** The control plane as one transition system: users, administrators, workers and any number of action
    runners interleave transaction by transaction, and network requests fall between transactions. */
module ControlPlane {
  import opened Wrappers
  import opened Tables
  import Tasks
  import Sources
  import Queue
  import Actions
  import Tracker

  /** Where a runner stands between its two transactions. */
  datatype Phase =
    | Ready                                            // about to send the POST
    | Created(issue: nat)                              // the POST was answered; read-back pending
    | Scanning(page: nat, candidate: Option<nat>)      // reconciling, next listing page
    | Found(issue: nat)                                // reconciled; final GET pending
    | Settled(success: Option<nat>)                    // outcome known to the runner only

  datatype Runner = Runner(run: Actions.ActionRun, phase: Phase)

  datatype Publication = Publication(generation: nat, callback: Callback)

  /** posts, published and resumes record the history that the properties speak about. */
  datatype World = World(
    now: int, lease: nat, maxActive: nat, db: Db,
    tracker: seq<Tracker.Issue>, runners: map<nat, Runner>, started: nat,
    posts: seq<Actions.ActionRun>, published: map<Id, seq<Publication>>, resumes: map<Id, nat>)
  {
    function Published(id: Id): seq<Publication> {
      if id in published then published[id] else []
    }

    function Resumes(id: Id): nat {
      if id in resumes then resumes[id] else 0
    }
  }

  datatype Step =
    | Tick(seconds: nat)
    | Create(u: string, idem: string, hash: string, service: string, symptom: string, id: Id)
    | Cancel(id: Id)
    | Resume(id: Id, information: string)
    | Claim(owner: string, locked: set<Id>, pick: Option<Id>)
    | Callback(id: Id, op: Queue.Operation, body: Callback)
    | Invalidate(service: string, remove: bool)
    | Configure(service: string, repo: string, enabled: bool)
    | SetMember(subject: string, team: string, role: Option<Role>)
    | SaveDraft(u: string, id: Id, aid: Id, version: nat, title: string, text: string)
    | Decide(u: string, id: Id, decision: Actions.Decision, version: nat)
    | Dispatch(locked: set<Id>, id: Id)
    | SendPost(runner: nat, committed: bool, answered: bool)
    | ReadBack(runner: nat)
    | ReadListing(runner: nat)
    | ReadIssue(runner: nat)
    | RequestFails(runner: nat)
    | Finish(runner: nat)
    | RunnerDies(runner: nat)
    | ForeignIssue(repo: string, title: string, text: string)

  /** Steps whose choices the environment could really make: generated ids are fresh, a selected row is
      one the query returns, and a runner is where the step finds it. */
  ghost predicate Enabled(w: World, s: Step) {
    match s
    case Create(_, _, _, _, _, id) => id !in w.db.tasks
    case Claim(_, locked, pick) => w.db.Valid() && Queue.Selects(Queue.Sweep(w.db, w.now).tasks, w.now, locked, pick)
    case SaveDraft(_, _, aid, _, _, _) =>
      IsUuid(aid) && forall k :: k in w.db.tasks && w.db.tasks[k].action.Some? ==> w.db.tasks[k].action.value.id != aid
    case Dispatch(locked, id) => Actions.Selects(w.db.tasks, w.now, locked, Some(id))
    case SendPost(r, committed, answered) => r in w.runners && w.runners[r].phase.Ready? && (answered ==> committed)
    case ReadBack(r) => r in w.runners && w.runners[r].phase.Created? && w.runners[r].phase.issue < |w.tracker|
    case ReadListing(r) => r in w.runners && w.runners[r].phase.Scanning? && w.runners[r].phase.page >= 1
    case ReadIssue(r) => r in w.runners && w.runners[r].phase.Found?
    case RequestFails(r) => r in w.runners && !w.runners[r].phase.Settled?
    case Finish(r) =>
      && r in w.runners && w.runners[r].phase.Settled?
      && w.runners[r].run.investigation in w.db.tasks && w.db.tasks[w.runners[r].run.investigation].action.Some?
    case RunnerDies(r) => r in w.runners
    case _ => true
  }

  function InitialPhase(run: Actions.ActionRun): Phase {
    if run.reconcile then Scanning(1, None) else Ready
  }

  function WithPhase(w: World, r: nat, p: Phase): World
    requires r in w.runners
  {
    w.(runners := w.runners[r := w.runners[r].(phase := p)])
  }

  /** POST .../issues: it may commit, and it may commit and lose the reply. */
  function Posted(w: World, r: nat, committed: bool, answered: bool): World
    requires r in w.runners && (answered ==> committed)
  {
    var run := w.runners[r].run;
    var issue := Tracker.Issue(run.target, run.title, run.body, Some(run.marker));
    var w' := w.(posts := w.posts + [run], tracker := if committed then w.tracker + [issue] else w.tracker);
    WithPhase(w', r, if answered then Created(|w.tracker|) else Settled(None))
  }

  /** The read-back must show the marker. */
  function ReadBackPhase(w: World, r: nat): Phase
    requires r in w.runners && w.runners[r].phase.Created? && w.runners[r].phase.issue < |w.tracker|
  {
    var i := w.runners[r].phase.issue;
    Settled(if Tracker.Contains(w.tracker[i].Body(), w.runners[r].run.marker) then Some(i) else None)
  }

  function ListingPhase(w: World, r: nat): Phase
    requires r in w.runners && w.runners[r].phase.Scanning? && w.runners[r].phase.page >= 1
  {
    var run, p := w.runners[r].run, w.runners[r].phase;
    match Tracker.ScanPage(Tracker.Page(w.tracker, run.target, p.page), run.marker, p.page, p.candidate)
    case More(page, candidate) => Scanning(page, candidate)
    case Stop(None) => Settled(None)
    case Stop(Some(i)) => Found(i)
  }

  /** A callback publishes when it takes the job from running to done. */
  predicate Publishes(before: Db, after: Db, id: Id) {
    && id in before.tasks && id in after.tasks
    && before.tasks[id].job.state.JobRunning? && after.tasks[id].job.state.JobDone?
  }

  ghost function CallbackWorld(w: World, id: Id, op: Queue.Operation, b: Callback): World
    requires w.db.Valid()
  {
    var db' := Queue.CallbackTx(w.db, w.now, w.lease, id, op, b).db;
    w.(db := db',
       published := if Publishes(w.db, db', id)
                    then w.published[id := w.Published(id) + [Publication(b.generation, b)]] else w.published)
  }

  ghost function DispatchWorld(w: World, id: Id): World
    requires w.db.Valid() && id in w.db.tasks && Actions.Due(w.db.tasks[id], w.now)
  {
    var r := Actions.DispatchTx(w.db, w.now, id);
    if r.reply.Ok? && r.reply.value.Some? then
      var run := r.reply.value.value;
      w.(db := r.db, runners := w.runners[w.started := Runner(run, InitialPhase(run))], started := w.started + 1)
    else w.(db := r.db)
  }

  ghost function ResumeWorld(w: World, id: Id, information: string): World
    requires w.db.Valid()
  {
    var r := Tasks.ResumeTx(w.db, w.now, id, information);
    w.(db := r.db, resumes := if r.reply.Ok? then w.resumes[id := w.Resumes(id) + 1] else w.resumes)
  }

  /** Steps whose only effect is one transaction on the tables. */
  predicate TablesOnly(s: Step) {
    s.Create? || s.Cancel? || s.Claim? || s.Invalidate? || s.Configure? || s.SetMember? || s.SaveDraft? || s.Decide?
  }

  ghost function TablesAfter(w: World, s: Step): (r: Db)
    requires w.db.Valid() && TablesOnly(s) && Enabled(w, s)
    ensures r.Valid()
  {
    match s
    case Create(u, idem, hash, service, symptom, id) => Tasks.CreateTx(w.db, w.now, u, idem, hash, service, symptom,
        id).db
    case Cancel(id) => Tasks.CancelTx(w.db, id).db
    case Claim(owner, locked, pick) => Queue.ClaimTx(w.db, w.now, w.lease, w.maxActive, owner, pick).db
    case Invalidate(service, remove) => Sources.InvalidateTx(w.db, service, remove).db
    case Configure(service, repo, enabled) => Sources.ConfigureTx(w.db, service, repo, enabled).db
    case SetMember(subject, team, role) => Sources.SetMemberTx(w.db, subject, team, role)
    case SaveDraft(u, id, aid, version, title, text) => Actions.DraftTx(w.db, w.now, u, id, aid, version, title,
        text).db
    case Decide(u, id, decision, version) => Actions.DecideTx(w.db, w.now, u, id, decision, version).db
  }

  /** Requests that only move their runner to another phase. */
  predicate MovesRunner(s: Step) {
    s.ReadBack? || s.ReadListing? || s.ReadIssue? || s.RequestFails?
  }

  ghost function NextPhase(w: World, s: Step): Phase
    requires MovesRunner(s) && Enabled(w, s)
  {
    match s
    case ReadBack(r) => ReadBackPhase(w, r)
    case ReadListing(r) => ListingPhase(w, r)
    case ReadIssue(r) => Settled(Some(w.runners[r].phase.issue))
    case RequestFails(r) => Settled(None)
  }

  ghost function FinishWorld(w: World, r: nat): World
    requires w.db.Valid() && Enabled(w, Finish(r))
  {
    w.(db := Actions.FinishTx(w.db, w.now, w.runners[r].run, w.runners[r].phase.success), runners := w.runners - {r})
  }

  /** One step; a step that is not enabled does nothing. */
  ghost function Apply(w: World, s: Step): (w': World)
    requires w.db.Valid()
    ensures w'.db.Valid()
    ensures w'.now >= w.now && w'.lease == w.lease && w'.maxActive == w.maxActive
  {
    if !Enabled(w, s) then w
    else if TablesOnly(s) then w.(db := TablesAfter(w, s))
    else if MovesRunner(s) then WithPhase(w, s.runner, NextPhase(w, s))
    else
      match s
      case Tick(d) => w.(now := w.now + d)
      case Resume(id, information) => ResumeWorld(w, id, information)
      case Callback(id, op, b) => CallbackWorld(w, id, op, b)
      case Dispatch(_, id) => DispatchWorld(w, id)
      case SendPost(r, committed, answered) => Posted(w, r, committed, answered)
      case Finish(r) => FinishWorld(w, r)
      case RunnerDies(r) => w.(runners := w.runners - {r})
      case ForeignIssue(repo, title, text) => w.(tracker := w.tracker + [Tracker.Issue(repo, title, text, None)])
  }

  ghost function Run(w: World, steps: seq<Step>): (w': World)
    requires w.db.Valid()
    ensures w'.db.Valid()
    decreases |steps|
  {
    if steps == [] then w else Run(Apply(w, steps[0]), steps[1..])
  }

  // ---- what each family of steps leaves alone ----------------------------------------------

  lemma TablesFrame(w: World, s: Step)
    requires w.db.Valid() && TablesOnly(s)
    ensures Apply(w, s) == w.(db := Apply(w, s).db)
  {
  }

  lemma MoveIs(w: World, s: Step)
    requires w.db.Valid() && MovesRunner(s)
    ensures Apply(w, s) == if Enabled(w, s) then WithPhase(w, s.runner, NextPhase(w, s)) else w
  {
  }

  /** Only an unsettled runner moves, and never to the start. */
  lemma MovesOn(w: World, s: Step)
    requires MovesRunner(s) && Enabled(w, s)
    ensures s.runner in w.runners && !w.runners[s.runner].phase.Settled? && !NextPhase(w, s).Ready?
  {
  }

  lemma MoveFrame(w: World, s: Step)
    requires w.db.Valid() && MovesRunner(s)
    ensures Moved(w, Apply(w, s))
  {
    MoveIs(w, s);
    if Enabled(w, s) {
      MovesOn(w, s);
      PhaseFrame(w, s.runner, NextPhase(w, s));
    }
  }

  /** At most one unsettled runner changed its phase. */
  predicate Moved(w: World, w': World) {
    && w' == w.(runners := w'.runners) && w'.runners.Keys == w.runners.Keys
    && (forall r :: r in w.runners ==> w'.runners[r].run == w.runners[r].run)
    && (forall r :: r in w.runners && w'.runners[r].phase.Ready? ==> w'.runners[r] == w.runners[r])
    && (forall r :: r in w.runners && w.runners[r].phase.Settled? ==> w'.runners[r] == w.runners[r])
  }

  lemma PhaseFrame(w: World, r: nat, p: Phase)
    requires r in w.runners && !w.runners[r].phase.Settled? && !p.Ready?
    ensures Moved(w, WithPhase(w, r, p))
  {
  }

  /** Runners end; nothing is posted. */
  lemma EndFrame(w: World, s: Step)
    requires w.db.Valid() && (s.Finish? || s.RunnerDies?)
    ensures var w' := Apply(w, s);
            && w' == w.(db := w'.db, runners := w'.runners)
            && (forall r :: r in w'.runners ==> r in w.runners && w'.runners[r] == w.runners[r])
  {
  }

  /** Steps that neither start, move nor end a runner. */
  predicate Records(s: Step) {
    s.Tick? || s.Resume? || s.Callback? || s.ForeignIssue?
  }

  lemma RecordFrame(w: World, s: Step)
    requires w.db.Valid() && Records(s)
    ensures var w' := Apply(w, s);
            w'.runners == w.runners && w'.started == w.started && w'.posts == w.posts
  {
    if s.Resume? || s.Callback? {
      RequestFrame(w, s);
    }
  }

  lemma RequestFrame(w: World, s: Step)
    requires w.db.Valid() && (s.Resume? || s.Callback?)
    ensures var w' := Apply(w, s);
            w'.runners == w.runners && w'.started == w.started && w'.posts == w.posts
  {
  }

  lemma TickFrame(w: World, s: Step)
    requires w.db.Valid() && (s.Tick? || s.ForeignIssue?)
    ensures Apply(w, s).published == w.published && Apply(w, s).resumes == w.resumes
  {
  }

  lemma RunnerFrame(w: World, s: Step)
    requires w.db.Valid() && (s.Dispatch? || s.SendPost?)
    ensures Apply(w, s).published == w.published && Apply(w, s).resumes == w.resumes
  {
    if s.Dispatch? {
      DispatchFrame(w, s.locked, s.id);
    } else {
      PostFrame(w, s.runner, s.committed, s.answered);
    }
  }

  lemma DispatchFrame(w: World, locked: set<Id>, id: Id)
    requires w.db.Valid()
    ensures var w' := Apply(w, Dispatch(locked, id)); w'.published == w.published && w'.resumes == w.resumes
  {
  }

  lemma PostFrame(w: World, r: nat, committed: bool, answered: bool)
    requires w.db.Valid()
    ensures var w' := Apply(w, SendPost(r, committed, answered)); w'.published == w.published && w'.resumes == w.resumes
  {
  }

  lemma IdleFrame(w: World, s: Step)
    requires w.db.Valid() && !Enabled(w, s)
    ensures Apply(w, s) == w
  {
  }

  /** Services and members exist; nothing has been asked yet. */
  ghost predicate Init(w: World) {
    && w.db.tasks == map[] && w.db.idems == map[]
    && w.tracker == [] && w.runners == map[] && w.posts == [] && w.published == map[] && w.resumes == map[]
  }

  lemma {:induction false} RunConcat(w: World, a: seq<Step>, b: seq<Step>)
    requires w.db.Valid()
    ensures Run(w, a + b) == Run(Run(w, a), b)
    decreases |a|
  {
    if a == [] {
      assert a + b == b;
    } else {
      assert (a + b)[0] == a[0] && (a + b)[1..] == a[1..] + b;
      RunConcat(Apply(w, a[0]), a[1..], b);
    }
  }

  lemma RunSplit(w: World, steps: seq<Step>, n: nat)
    requires w.db.Valid() && n <= |steps|
    ensures Run(w, steps) == Run(Run(w, steps[..n]), steps[n..])
  {
    assert steps == steps[..n] + steps[n..];
    RunConcat(w, steps[..n], steps[n..]);
  }

  lemma RunOne(w: World, s: Step)
    requires w.db.Valid()
    ensures Run(w, [s]) == Apply(w, s)
  {
    assert [s][1..] == [];
  }

  lemma RunTwo(w: World, s: Step, t: Step)
    requires w.db.Valid()
    ensures Run(w, [s, t]) == Apply(Apply(w, s), t)
  {
    assert [s, t][1..] == [t];
    RunOne(Apply(w, s), t);
  }

  lemma RunSnoc(w: World, steps: seq<Step>, s: Step)
    requires w.db.Valid()
    ensures Run(w, steps + [s]) == Apply(Run(w, steps), s)
  {
    RunConcat(w, steps, [s]);
    RunOne(Run(w, steps), s);
  }

  lemma RunCons(w: World, steps: seq<Step>, k: nat)
    requires w.db.Valid() && 0 < k <= |steps|
    ensures Run(w, steps[..k]) == Run(Apply(w, steps[0]), steps[1..][..k - 1])
  {
    assert steps[..k][1..] == steps[1..][..k - 1];
  }
}
