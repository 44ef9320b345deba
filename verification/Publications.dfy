/** Results over whole runs: one publication per generation, in increasing order, never on stale sources,
    and a bound on how often a job can be tried. */
module Publications {
  import opened Wrappers
  import opened Tables
  import opened Invariants
  import opened ControlPlane
  import opened Safety
  import Tasks
  import Queue

  // ---- the history invariant ---------------------------------------------------------------

  predicate Increasing(pubs: seq<Publication>) {
    forall i, k :: 0 <= i < k < |pubs| ==> pubs[i].generation < pubs[k].generation
  }

  ghost predicate Recorded(hash: CallbackHash, pubs: seq<Publication>) {
    exists k :: 0 <= k < |pubs| && hash == CallbackHash(pubs[k].callback)
  }

  /** A task against its publications so far and the number of times it was resumed. */
  ghost predicate HistoryRow(t: Task, pubs: seq<Publication>, resumes: nat) {
    && Increasing(pubs)
    && (forall k :: 0 <= k < |pubs| ==>
         && pubs[k].generation == pubs[k].callback.generation
         && pubs[k].generation <= t.job.generation
         && (t.job.state.JobRunning? ==> pubs[k].generation < t.job.generation))
    && t.job.generation <= t.job.attempts + Queue.MAX_ATTEMPTS * resumes
    && (t.job.resultHash.Some? ==> Recorded(t.job.resultHash.value, pubs))
  }

  ghost predicate TaskHistory(w: World, id: Id) {
    if id in w.db.tasks then HistoryRow(w.db.tasks[id], w.Published(id), w.Resumes(id))
    else w.Published(id) == [] && w.Resumes(id) == 0
  }

  ghost predicate History(w: World) {
    forall id :: TaskHistory(w, id)
  }

  lemma QuietHistory(now: int, t: Task, t': Task, pubs: seq<Publication>, resumes: nat)
    requires HistoryRow(t, pubs, resumes) && Quiet(now, t, t')
    ensures HistoryRow(t', pubs, resumes)
  {
  }

  /** A task the step leaves quiet, with its history as it was. */
  lemma QuietTaskHistory(w: World, w': World, except: set<Id>, id: Id)
    requires TaskHistory(w, id) && QuietExcept(w.now, w.db, w'.db, except) && id !in except
    requires id in w.db.tasks ==> id in w'.db.tasks
    requires w'.Published(id) == w.Published(id) && w'.Resumes(id) == w.Resumes(id)
    ensures TaskHistory(w', id)
  {
    if id in w.db.tasks {
      QuietHistory(w.now, w.db.tasks[id], w'.db.tasks[id], w.Published(id), w.Resumes(id));
    }
  }

  /** A step that is quiet outside one task, whose history is accounted for. */
  lemma HistoryKeptAt(w: World, w': World, x: Id)
    requires History(w) && Evolves(w.db, w'.db) && QuietExcept(w.now, w.db, w'.db, {x}) && TaskHistory(w', x)
    requires forall id :: id != x ==> w'.Published(id) == w.Published(id) && w'.Resumes(id) == w.Resumes(id)
    ensures History(w')
  {
    forall id ensures TaskHistory(w', id) {
      if id != x {
        assert TaskHistory(w, id);
        QuietTaskHistory(w, w', {x}, id);
      }
    }
  }

  lemma HistoryKept(w: World, w': World)
    requires History(w) && Evolves(w.db, w'.db) && QuietExcept(w.now, w.db, w'.db, {})
    requires w'.published == w.published && w'.resumes == w.resumes
    ensures History(w')
  {
    forall id ensures TaskHistory(w', id) {
      assert TaskHistory(w, id);
      QuietTaskHistory(w, w', {}, id);
    }
  }

  // ---- the loud steps ----------------------------------------------------------------------

  lemma ResumedRow(db: Db, now: int, id: Id, information: string, pubs: seq<Publication>, resumes: nat)
    requires DbInv(db, now) && id in db.tasks && HistoryRow(db.tasks[id], pubs, resumes)
    ensures var r := Tasks.ResumeTx(db, now, id, information);
            id in r.db.tasks && HistoryRow(r.db.tasks[id], pubs, if r.reply.Ok? then resumes + 1 else resumes)
  {
    assert TaskInv(now, db.ServiceOf(id), db.tasks[id]);
  }

  lemma ResumedTaskHistory(w: World, id: Id, information: string)
    requires DbInv(w.db, w.now) && id in w.db.tasks && TaskHistory(w, id)
    ensures TaskHistory(ResumeWorld(w, id, information), id)
  {
    ResumedRow(w.db, w.now, id, information, w.Published(id), w.Resumes(id));
  }

  lemma ResumedHistory(w: World, id: Id, information: string, w': World)
    requires History(w) && w.db.Valid() && w' == ResumeWorld(w, id, information)
    requires DbInv(w.db, w.now) && Evolves(w.db, w'.db) && QuietExcept(w.now, w.db, w'.db, {id})
    ensures History(w')
  {
    assert TaskHistory(w, id);
    if id in w.db.tasks {
      ResumedTaskHistory(w, id, information);
      HistoryKeptAt(w, w', id);
    } else {
      assert w' == w;
    }
  }

  lemma ClaimedHistory(w: World, w': World, owner: string, pick: Option<Id>)
    requires w.db.Valid() && History(w) && (pick.Some? ==> pick.value in w.db.tasks)
    requires w'.db == Queue.ClaimTx(w.db, w.now, w.lease, w.maxActive, owner, pick).db
    requires w'.published == w.published && w'.resumes == w.resumes
    requires Evolves(w.db, w'.db) && QuietExcept(w.now, w.db, w'.db, if pick.Some? then {pick.value} else {})
    ensures History(w')
  {
    if pick.Some? {
      var id := pick.value;
      assert TaskHistory(w, id);
      ClaimedRow(w.db, w.now, w.lease, w.maxActive, owner, id, w.Published(id), w.Resumes(id));
      HistoryKeptAt(w, w', id);
    } else {
      HistoryKept(w, w');
    }
  }

  lemma ClaimedRow(db: Db, now: int, lease: nat, maxActive: nat, owner: string, id: Id, pubs: seq<Publication>,
      resumes: nat)
    requires db.Valid() && id in db.tasks && HistoryRow(db.tasks[id], pubs, resumes)
    ensures var r := Queue.ClaimTx(db, now, lease, maxActive, owner, Some(id)).db;
            id in r.tasks && HistoryRow(r.tasks[id], pubs, resumes)
  {
    var swept := Queue.Sweep(db, now);
    var r := Queue.ClaimTx(db, now, lease, maxActive, owner, Some(id)).db;
    ClaimCases(db, now, lease, maxActive, owner, Some(id));
    assert swept.tasks[id] == Queue.Swept(db.tasks[id], now);
    SweptRow(db.tasks[id], now, pubs, resumes);
    if r != db && r != swept {
      TakenRow(swept, now, lease, owner, id, pubs, resumes);
    }
  }

  lemma SweptRow(t: Task, now: int, pubs: seq<Publication>, resumes: nat)
    requires HistoryRow(t, pubs, resumes)
    ensures HistoryRow(Queue.Swept(t, now), pubs, resumes)
  {
  }

  lemma TakenRow(swept: Db, now: int, lease: nat, owner: string, id: Id, pubs: seq<Publication>, resumes: nat)
    requires swept.Valid() && id in swept.tasks && HistoryRow(swept.tasks[id], pubs, resumes)
    ensures var r := Queue.TakeTx(swept, now, lease, owner, id).db;
            id in r.tasks && HistoryRow(r.tasks[id], pubs, resumes)
  {
  }

  lemma PublishedRow(t: Task, pubs: seq<Publication>, resumes: nat, b: Callback)
    requires HistoryRow(t, pubs, resumes) && t.job.state.JobRunning? && t.job.generation == b.generation
    ensures HistoryRow(Queue.PublishedTask(t, b), pubs + [Publication(b.generation, b)], resumes)
  {
    var pubs' := pubs + [Publication(b.generation, b)];
    assert CallbackHash(b) == CallbackHash(pubs'[|pubs|].callback);
  }

  /** A result callback either leaves the tables alone or publishes for the running generation. */
  lemma ResultCases(db: Db, now: int, lease: nat, id: Id, b: Callback)
    requires db.Valid()
    ensures var r := Queue.CallbackTx(db, now, lease, id, Queue.ResultOp, b).db;
            if id in db.tasks && Publishes(db, r, id)
            then r == db.WithTask(id, Queue.PublishedTask(db.tasks[id], b)) && db.tasks[id].job.Live(now)
                 && db.tasks[id].job.generation == b.generation
                 && db.tasks[id].inv.sourceVersion == db.ServiceOf(id).watermark
            else r == db
  {
  }

  lemma ResultTaskHistory(w: World, id: Id, b: Callback)
    requires w.db.Valid() && TaskHistory(w, id)
    ensures TaskHistory(CallbackWorld(w, id, Queue.ResultOp, b), id)
  {
    ResultCases(w.db, w.now, w.lease, id, b);
    if id in w.db.tasks && Publishes(w.db, CallbackWorld(w, id, Queue.ResultOp, b).db, id) {
      PublishedRow(w.db.tasks[id], w.Published(id), w.Resumes(id), b);
    }
  }

  lemma ResultHistory(w: World, id: Id, b: Callback, w': World)
    requires History(w) && w.db.Valid() && w' == CallbackWorld(w, id, Queue.ResultOp, b)
    requires Evolves(w.db, w'.db) && QuietExcept(w.now, w.db, w'.db, {id})
    ensures History(w')
  {
    assert TaskHistory(w, id);
    ResultTaskHistory(w, id, b);
    HistoryKeptAt(w, w', id);
  }

  lemma QuietPublishesNothing(now: int, db: Db, db': Db, id: Id)
    requires QuietExcept(now, db, db', {})
    ensures !Publishes(db, db', id)
  {
  }

  /** Any other callback publishes nothing. */
  lemma OtherCallbackHistory(w: World, id: Id, op: Queue.Operation, b: Callback)
    requires Core(w) && History(w) && !op.ResultOp?
    ensures History(CallbackWorld(w, id, op, b))
  {
    var db' := Queue.CallbackTx(w.db, w.now, w.lease, id, op, b).db;
    CallbackKeeps(w.db, w.now, w.lease, id, op, b);
    QuietPublishesNothing(w.now, w.db, db', id);
    HistoryKept(w, w.(db := db'));
  }

  lemma FinishedHistory(w: World, w': World, run: Id)
    requires Core(w) && History(w) && Evolves(w.db, w'.db) && QuietExcept(w.now, w.db, w'.db, {run})
    requires run in w.db.tasks && run in w'.db.tasks && w'.db.tasks[run].job == w.db.tasks[run].job
    requires w'.published == w.published && w'.resumes == w.resumes
    ensures History(w')
  {
    assert TaskHistory(w, run);
    HistoryKeptAt(w, w', run);
  }

  lemma QuietStepHistory(w: World, s: Step)
    requires w.db.Valid() && (!Enabled(w, s) || (!s.Resume? && !s.Callback?))
    ensures Apply(w, s).published == w.published && Apply(w, s).resumes == w.resumes
  {
    if TablesOnly(s) {
      TablesFrame(w, s);
    } else if MovesRunner(s) {
      MoveFrame(w, s);
    } else if s.Finish? || s.RunnerDies? {
      EndFrame(w, s);
    } else if s.Resume? || s.Callback? {
      IdleFrame(w, s);
    } else if s.Dispatch? || s.SendPost? {
      RunnerFrame(w, s);
    } else {
      TickFrame(w, s);
    }
  }

  lemma ResumeStepHistory(w: World, s: Step)
    requires Core(w) && History(w) && Enabled(w, s) && s.Resume?
    ensures History(Apply(w, s))
  {
    DbStep(w, s);
    ResumedHistory(w, s.id, s.information, Apply(w, s));
  }

  lemma CallbackStepHistory(w: World, s: Step)
    requires Core(w) && History(w) && Enabled(w, s) && s.Callback?
    ensures History(Apply(w, s))
  {
    if s.op.ResultOp? {
      DbStep(w, s);
      ResultHistory(w, s.id, s.body, Apply(w, s));
    } else {
      OtherCallbackHistory(w, s.id, s.op, s.body);
    }
  }

  lemma ClaimStepHistory(w: World, s: Step)
    requires Core(w) && History(w) && Enabled(w, s) && s.Claim?
    ensures History(Apply(w, s))
  {
    DbStep(w, s);
    QuietStepHistory(w, s);
    ClaimedHistory(w, Apply(w, s), s.owner, s.pick);
  }

  lemma FinishStepHistory(w: World, s: Step)
    requires Core(w) && History(w) && Enabled(w, s) && s.Finish?
    ensures History(Apply(w, s))
  {
    DbStep(w, s);
    QuietStepHistory(w, s);
    FinishedHistory(w, Apply(w, s), w.runners[s.runner].run.investigation);
  }

  lemma OtherStepHistory(w: World, s: Step)
    requires Core(w) && History(w)
    requires !Enabled(w, s) || (!s.Resume? && !s.Callback? && !s.Claim? && !s.Finish?)
    ensures History(Apply(w, s))
  {
    DbStep(w, s);
    QuietStepHistory(w, s);
    if !Enabled(w, s) {
      IdleFrame(w, s);
    }
    SilentHistory(w, s, Apply(w, s));
  }

  lemma HistoryStep(w: World, s: Step)
    requires Core(w) && History(w)
    ensures History(Apply(w, s))
  {
    if !Enabled(w, s) {
      OtherStepHistory(w, s);
    } else if s.Resume? {
      ResumeStepHistory(w, s);
    } else if s.Callback? {
      CallbackStepHistory(w, s);
    } else if s.Claim? {
      ClaimStepHistory(w, s);
    } else if s.Finish? {
      FinishStepHistory(w, s);
    } else {
      OtherStepHistory(w, s);
    }
  }

  lemma SilentHistory(w: World, s: Step, w': World)
    requires Core(w) && History(w) && Kept(w, s, w') && w'.published == w.published && w'.resumes == w.resumes
    requires w' == w || Loud(w, s) == {}
    ensures History(w')
  {
    if w' != w {
      HistoryKept(w, w');
    }
  }

  lemma {:induction false} RunHistory(w: World, steps: seq<Step>)
    requires Core(w) && History(w)
    ensures History(Run(w, steps))
    decreases |steps|
  {
    if steps != [] {
      CoreStep(w, steps[0]);
      HistoryStep(w, steps[0]);
      RunHistory(Apply(w, steps[0]), steps[1..]);
    }
  }

  // ---- the guarantees ------------------------------------------------------------------------

  /** Published generations of a job strictly increase, each with the callback that published it. */
  lemma OnePublicationPerGeneration(w: World, steps: seq<Step>, id: Id)
    requires Init(w)
    ensures var pubs := Run(w, steps).Published(id);
            && Increasing(pubs)
            && forall k :: 0 <= k < |pubs| ==> pubs[k].generation == pubs[k].callback.generation
  {
    InitCore(w);
    RunCore(w, steps);
    RunHistory(w, steps);
    assert TaskHistory(Run(w, steps), id);
  }

  /** However often it fails, expires or is taken over, a job is started at most four times per resume. */
  lemma RetryBound(w: World, steps: seq<Step>, id: Id)
    requires Init(w) && id in Run(w, steps).db.tasks
    ensures Run(w, steps).db.tasks[id].job.generation <= 4 * (1 + Run(w, steps).Resumes(id))
  {
    InitCore(w);
    RunCore(w, steps);
    RunHistory(w, steps);
    var end := Run(w, steps);
    assert TaskHistory(end, id);
    assert TaskInv(end.now, end.db.ServiceOf(id), end.db.tasks[id]);
  }

  /** Generation g of the job is over: a later one was started, or it stopped running. */
  predicate Over(db: Db, id: Id, g: nat) {
    && id in db.tasks
    && var j := db.tasks[id].job; j.generation > g || (j.generation == g && !j.state.JobRunning?)
  }

  /** Once a generation is over - published, failed, cancelled or taken over - no callback of it or of an
      earlier one ever changes any table again, whatever it asks and however often it is sent. */
  lemma OverForGood(w: World, before: seq<Step>, after: seq<Step>, id: Id, g: nat, op: Queue.Operation, b: Callback)
    requires Init(w) && Over(Run(w, before).db, id, g) && b.generation <= g
    ensures var end := Run(Run(w, before), after);
            Over(end.db, id, g) && Queue.CallbackTx(end.db, end.now, end.lease, id, op, b).db == end.db
  {
    Reached(w, before, after);
    assert TaskEvolves(Run(w, before).db.tasks[id], Run(Run(w, before), after).db.tasks[id]);
    OverRefuses(Run(Run(w, before), after).db, Run(Run(w, before), after).now, Run(Run(w, before), after).lease, id, g,
        op, b);
  }

  lemma OverRefuses(db: Db, now: int, lease: nat, id: Id, g: nat, op: Queue.Operation, b: Callback)
    requires db.Valid() && b.generation <= g
    ensures Over(db, id, g) ==> Queue.CallbackTx(db, now, lease, id, op, b).db == db
  {
  }

  // ---- freshness -----------------------------------------------------------------------------

  /** The step bumps the watermark of the service. */
  predicate Bumps(w: World, s: Step, service: string) {
    service in w.db.services
    && ((s.Invalidate? && s.service == service) || (s.Configure? && s.service == service))
  }

  lemma BumpRaises(w: World, s: Step, service: string)
    requires w.db.Valid() && Bumps(w, s, service)
    ensures service in Apply(w, s).db.services
    ensures Apply(w, s).db.services[service].watermark == w.db.services[service].watermark + 1
  {
  }

  /** A run seen at its k-th step. */
  lemma Through(w: World, steps: seq<Step>, k: nat)
    requires Core(w) && k < |steps|
    ensures var mid := Run(w, steps[..k]);
            && Core(mid) && Evolves(w.db, mid.db)
            && Evolves(mid.db, Apply(mid, steps[k]).db) && Evolves(Apply(mid, steps[k]).db, Run(w, steps).db)
  {
    var mid := Run(w, steps[..k]);
    assert steps == steps[..k] + steps[k..] && steps[k..] == [steps[k]] + steps[k + 1..];
    RunConcat(w, steps[..k], steps[k..]);
    RunCore(w, steps[..k]);
    CoreStep(mid, steps[k]);
    RunCore(Apply(mid, steps[k]), steps[k + 1..]);
  }

  /** A generation that still runs on the watermark it started on: nothing in between moved it. */
  lemma WatermarkStood(a: Db, m: Db, m': Db, e: Db, id: Id)
    requires a.Valid() && e.Valid() && Evolves(a, m) && Evolves(m, m') && Evolves(m', e)
    requires id in a.tasks && a.tasks[id].inv.sourceVersion == a.ServiceOf(id).watermark
    requires id in e.tasks && e.tasks[id].inv.sourceVersion == e.ServiceOf(id).watermark
    requires e.tasks[id].job.state.JobRunning? && e.tasks[id].job.generation == a.tasks[id].job.generation
    ensures var service := a.tasks[id].inv.service;
            && service in m.services && service in m'.services
            && m'.services[service].watermark == m.services[service].watermark
  {
    EvolvesTransitive(a, m, m');
    EvolvesTransitive(a, m', e);
    assert TaskEvolves(a.tasks[id], e.tasks[id]);
  }

  /** A published result saw no invalidation since its generation was claimed: from a state where the
      generation runs on current sources to the state where it publishes, no step of the run bumped the
      watermark of its service. */
  lemma PublishedOnCurrentSources(w: World, steps: seq<Step>, id: Id, b: Callback, k: nat)
    requires Core(w) && id in w.db.tasks
    requires w.db.tasks[id].job.state.JobRunning? && w.db.tasks[id].job.generation == b.generation
    requires w.db.tasks[id].inv.sourceVersion == w.db.ServiceOf(id).watermark
    requires var end := Run(w, steps);
             Publishes(end.db, Queue.CallbackTx(end.db, end.now, end.lease, id, Queue.ResultOp, b).db, id)
    requires k < |steps|
    ensures !Bumps(Run(w, steps[..k]), steps[k], w.db.tasks[id].inv.service)
  {
    var mid, end := Run(w, steps[..k]), Run(w, steps);
    var service := w.db.tasks[id].inv.service;
    Through(w, steps, k);
    ResultCases(end.db, end.now, end.lease, id, b);
    WatermarkStood(w.db, mid.db, Apply(mid, steps[k]).db, end.db, id);
    if Bumps(mid, steps[k], service) {
      BumpRaises(mid, steps[k], service);
    }
  }

  /** A claim always starts its generation on current sources. */
  lemma ClaimIsCurrent(db: Db, now: int, lease: nat, maxActive: nat, owner: string, id: Id)
    requires db.Valid() && id in db.tasks
    ensures var r := Queue.ClaimTx(db, now, lease, maxActive, owner, Some(id));
            r.reply.Ok? && r.reply.value.Some? ==>
              && id in r.db.tasks && r.db.tasks[id].job.state.JobRunning?
              && r.db.tasks[id].job.generation == r.reply.value.value.generation == db.tasks[id].job.generation + 1
              && r.db.tasks[id].inv.sourceVersion == r.db.ServiceOf(id).watermark
  {
    assert Queue.Sweep(db, now).tasks[id] == Queue.Swept(db.tasks[id], now);
  }
}
