/** The core of every run: the tables stay consistent, and capacity, retries and coupling are bounded. */
module Safety {
  import opened Wrappers
  import opened Tables
  import opened Invariants
  import opened ControlPlane
  import Tasks
  import Sources
  import Queue
  import Actions

  /** The action a runner works on is the one it took, and it has been dispatched. */
  predicate RunTracks(db: Db, run: Actions.ActionRun) {
    && run.investigation in db.tasks && db.tasks[run.investigation].action.Some?
    && var a := db.tasks[run.investigation].action.value;
       a.id == run.id && a.marker == run.marker && a.target == run.target && a.state.Dispatched()
  }

  ghost predicate RunnersTrack(w: World) {
    forall r :: r in w.runners ==> r < w.started && RunTracks(w.db, w.runners[r].run)
  }

  ghost predicate Core(w: World) {
    DbInv(w.db, w.now) && RunnersTrack(w) && |Queue.LiveJobs(w.db.tasks, w.now)| <= w.maxActive
  }

  /** The only task a step may claim, publish, restart or settle. */
  function Loud(w: World, s: Step): set<Id> {
    match s
    case Resume(id, _) => {id}
    case Claim(_, _, pick) => if pick.Some? then {pick.value} else {}
    case Callback(id, op, _) => if op.ResultOp? then {id} else {}
    case Finish(r) => if r in w.runners then {w.runners[r].run.investigation} else {}
    case _ => {}
  }

  ghost predicate Kept(w: World, s: Step, w': World) {
    DbInv(w'.db, w'.now) && Evolves(w.db, w'.db) && QuietExcept(w.now, w.db, w'.db, Loud(w, s))
  }

  lemma TickKept(w: World, s: Step, w': World)
    requires Core(w) && s.Tick? && w'.db == w.db && w'.now == w.now + s.seconds
    ensures Kept(w, s, w')
  {
    NothingKeeps(w.db, w.now);
    TimePasses(w.db, w.now, w'.now);
  }

  lemma ResumeKept(w: World, s: Step, w': World)
    requires Core(w) && s.Resume? && w'.now == w.now
    requires w'.db == Tasks.ResumeTx(w.db, w.now, s.id, s.information).db
    ensures Kept(w, s, w')
  {
    ResumeKeeps(w.db, w.now, s.id, s.information);
  }

  lemma CallbackKept(w: World, s: Step, w': World)
    requires Core(w) && s.Callback? && w'.now == w.now
    requires w'.db == Queue.CallbackTx(w.db, w.now, w.lease, s.id, s.op, s.body).db
    ensures Kept(w, s, w')
  {
    CallbackKeeps(w.db, w.now, w.lease, s.id, s.op, s.body);
  }

  lemma RecordTables(w: World, s: Step)
    requires w.db.Valid() && Enabled(w, s) && (s.Tick? || s.Resume? || s.Callback?)
    ensures Apply(w, s).now == w.now + (if s.Tick? then s.seconds else 0)
    ensures Apply(w, s).db ==
              if s.Tick? then w.db
              else if s.Resume? then Tasks.ResumeTx(w.db, w.now, s.id, s.information).db
              else Queue.CallbackTx(w.db, w.now, w.lease, s.id, s.op, s.body).db
  {
  }

  lemma RecordKept(w: World, s: Step)
    requires Core(w) && Enabled(w, s) && (s.Tick? || s.Resume? || s.Callback?)
    ensures Kept(w, s, Apply(w, s))
  {
    RecordTables(w, s);
    if s.Tick? {
      TickKept(w, s, Apply(w, s));
    } else if s.Resume? {
      ResumeKept(w, s, Apply(w, s));
    } else {
      CallbackKept(w, s, Apply(w, s));
    }
  }

  lemma CreateKept(w: World, s: Step)
    requires Core(w) && Enabled(w, s) && s.Create?
    ensures Kept(w, s, Apply(w, s))
  {
    CreateKeeps(w.db, w.now, s.u, s.idem, s.hash, s.service, s.symptom, s.id);
  }

  lemma CancelKept(w: World, s: Step)
    requires Core(w) && Enabled(w, s) && s.Cancel?
    ensures Kept(w, s, Apply(w, s))
  {
    CancelKeeps(w.db, w.now, s.id);
  }

  lemma ClaimKept(w: World, s: Step)
    requires Core(w) && Enabled(w, s) && s.Claim?
    ensures Kept(w, s, Apply(w, s))
  {
    ClaimKeeps(w.db, w.now, w.lease, w.maxActive, s.owner, s.locked, s.pick);
  }

  lemma InvalidateKept(w: World, s: Step)
    requires Core(w) && Enabled(w, s) && s.Invalidate?
    ensures Kept(w, s, Apply(w, s))
  {
    NothingKeeps(w.db, w.now);
    if s.service in w.db.services {
      InvalidateKeeps(w.db, w.db, w.now, s.service, s.remove);
    }
  }

  lemma ConfigureKept(w: World, s: Step)
    requires Core(w) && Enabled(w, s) && s.Configure?
    ensures Kept(w, s, Apply(w, s))
  {
    ConfigureKeeps(w.db, w.now, s.service, s.repo, s.enabled);
  }

  lemma SetMemberKept(w: World, s: Step)
    requires Core(w) && Enabled(w, s) && s.SetMember?
    ensures Kept(w, s, Apply(w, s))
  {
    SetMemberKeeps(w.db, w.now, s.subject, s.team, s.role);
  }

  lemma SaveDraftKept(w: World, s: Step)
    requires Core(w) && Enabled(w, s) && s.SaveDraft?
    ensures Kept(w, s, Apply(w, s))
  {
    DraftKeeps(w.db, w.now, s.u, s.id, s.aid, s.version, s.title, s.text);
  }

  lemma DecideKept(w: World, s: Step)
    requires Core(w) && Enabled(w, s) && s.Decide?
    ensures Kept(w, s, Apply(w, s))
  {
    DecideKeeps(w.db, w.now, s.u, s.id, s.decision, s.version);
  }

  lemma DispatchIsDue(w: World, s: Step)
    requires w.db.Valid() && Enabled(w, s) && s.Dispatch?
    ensures s.id in w.db.tasks && Actions.Due(w.db.tasks[s.id], w.now) && Apply(w, s) == DispatchWorld(w, s.id)
  {
  }

  lemma DispatchedTables(w: World, id: Id)
    requires w.db.Valid() && id in w.db.tasks && Actions.Due(w.db.tasks[id], w.now)
    ensures DispatchWorld(w, id).db == Actions.DispatchTx(w.db, w.now, id).db && DispatchWorld(w, id).now == w.now
  {
  }

  lemma DispatchKept(w: World, s: Step, w': World)
    requires Core(w) && s.Dispatch? && s.id in w.db.tasks && Actions.Due(w.db.tasks[s.id], w.now)
    requires w'.db == Actions.DispatchTx(w.db, w.now, s.id).db && w'.now == w.now
    ensures Kept(w, s, w')
  {
    DispatchKeeps(w.db, w.now, s.id);
  }

  lemma FinishKept(w: World, s: Step)
    requires Core(w) && Enabled(w, s) && s.Finish?
    ensures Kept(w, s, Apply(w, s))
  {
    assert RunTracks(w.db, w.runners[s.runner].run);
    FinishKeeps(w.db, w.now, w.runners[s.runner].run, w.runners[s.runner].phase.success);
  }

  /** Steps outside the database: network requests, other people's issues, a runner's death. */
  predicate Outside(s: Step) {
    s.SendPost? || s.ReadBack? || s.ReadListing? || s.ReadIssue? || s.RequestFails? || s.RunnerDies? || s.ForeignIssue?
  }

  lemma SameTables(w: World, s: Step)
    requires w.db.Valid() && (!Enabled(w, s) || Outside(s))
    ensures Apply(w, s).db == w.db && Apply(w, s).now == w.now
  {
  }

  lemma OutsideKept(w: World, s: Step, w': World)
    requires Core(w) && w'.db == w.db && w'.now == w.now
    ensures Kept(w, s, w')
  {
    NothingKeeps(w.db, w.now);
  }

  lemma DbStep(w: World, s: Step)
    requires Core(w)
    ensures Kept(w, s, Apply(w, s))
  {
    var enabled := Enabled(w, s);
    if !enabled || Outside(s) {
      SameTables(w, s);
      OutsideKept(w, s, Apply(w, s));
    } else {
      match s {
        case Tick(_) => RecordKept(w, s);
        case Create(_, _, _, _, _, _) => CreateKept(w, s);
        case Cancel(_) => CancelKept(w, s);
        case Resume(_, _) => RecordKept(w, s);
        case Claim(_, _, _) => ClaimKept(w, s);
        case Callback(_, _, _) => RecordKept(w, s);
        case Invalidate(_, _) => InvalidateKept(w, s);
        case Configure(_, _, _) => ConfigureKept(w, s);
        case SetMember(_, _, _) => SetMemberKept(w, s);
        case SaveDraft(_, _, _, _, _, _) => SaveDraftKept(w, s);
        case Decide(_, _, _, _) => DecideKept(w, s);
        case Dispatch(_, id) =>
          DispatchIsDue(w, s);
          DispatchedTables(w, id);
          DispatchKept(w, s, Apply(w, s));
        case Finish(_) => FinishKept(w, s);
      }
    }
  }

  lemma ConfigureKeeps(db: Db, now: int, service: string, repo: string, enabled: bool)
    requires DbInv(db, now)
    ensures var r := Sources.ConfigureTx(db, service, repo, enabled).db;
            DbInv(r, now) && Evolves(db, r) && QuietExcept(now, db, r, {})
  {
    NothingKeeps(db, now);
    if service in db.services {
      var s := db.services[service].(repo := repo, enabled := enabled);
      InvalidateKeeps(db, db.(services := db.services[service := s]), now, service, false);
    }
  }

  lemma SetMemberKeeps(db: Db, now: int, subject: string, team: string, role: Option<Role>)
    requires DbInv(db, now)
    ensures var r := Sources.SetMemberTx(db, subject, team, role);
            DbInv(r, now) && Evolves(db, r) && QuietExcept(now, db, r, {})
  {
    NothingKeeps(db, now);
  }

  // ---- what every run keeps ---------------------------------------------------------------

  lemma TracksOn(db: Db, db': Db, run: Actions.ActionRun)
    requires Evolves(db, db') && RunTracks(db, run)
    ensures RunTracks(db', run)
  {
  }

  /** Runners are only added by a dispatch, which numbers them afresh, and keep their run. */
  ghost predicate RunnersFrom(w: World, w': World) {
    && w.started <= w'.started
    && (forall r :: r in w'.runners ==>
         if r in w.runners then w'.runners[r].run == w.runners[r].run
         else r == w.started < w'.started && RunTracks(w'.db, w'.runners[r].run))
  }

  lemma RunnersAfterDispatch(w: World, id: Id)
    requires w.db.Valid() && id in w.db.tasks && Actions.Due(w.db.tasks[id], w.now)
    requires w.started !in w.runners
    ensures RunnersFrom(w, DispatchWorld(w, id))
  {
  }

  lemma RunnersAfter(w: World, s: Step)
    requires w.db.Valid() && (!s.Dispatch? || !Enabled(w, s))
    ensures RunnersFrom(w, Apply(w, s))
  {
    if TablesOnly(s) {
      TablesFrame(w, s);
    } else if MovesRunner(s) {
      MoveFrame(w, s);
    } else if s.Finish? || s.RunnerDies? {
      EndFrame(w, s);
    } else if s.SendPost? {
      RunnersAfterPost(w, s);
    } else if s.Dispatch? {
      IdleFrame(w, s);
    } else {
      RecordFrame(w, s);
    }
  }

  lemma RunnersAfterPost(w: World, s: Step)
    requires w.db.Valid() && s.SendPost?
    ensures RunnersFrom(w, Apply(w, s))
  {
  }

  lemma RunnersStep(w: World, s: Step, w': World)
    requires RunnersTrack(w) && Evolves(w.db, w'.db) && RunnersFrom(w, w')
    ensures RunnersTrack(w')
  {
    forall r | r in w'.runners ensures r < w'.started && RunTracks(w'.db, w'.runners[r].run) {
      if r in w.runners {
        TracksOn(w.db, w'.db, w.runners[r].run);
      }
    }
  }

  /** Quiet changes outside one task, and that task not newly live: no lease is added. */
  lemma NoLeaseAdded(now: int, later: int, db: Db, db': Db, except: set<Id>)
    requires now <= later && QuietExcept(now, db, db', except)
    requires forall id :: id in except && id in db'.tasks && db'.tasks[id].job.Live(now) ==>
          id in db.tasks && db.tasks[id].job.Live(now)
    ensures |Queue.LiveJobs(db'.tasks, later)| <= |Queue.LiveJobs(db.tasks, now)|
  {
    SubsetSize(Queue.LiveJobs(db'.tasks, later), Queue.LiveJobs(db.tasks, now));
  }

  lemma ResumeAddsNoLease(db: Db, now: int, id: Id, information: string)
    requires db.Valid()
    ensures var r := Tasks.ResumeTx(db, now, id, information).db;
            id in r.tasks && r.tasks[id].job.Live(now) ==> id in db.tasks && db.tasks[id].job.Live(now)
  {
  }

  lemma ResultAddsNoLease(db: Db, now: int, lease: nat, id: Id, op: Queue.Operation, b: Callback)
    requires db.Valid() && op.ResultOp?
    ensures var r := Queue.CallbackTx(db, now, lease, id, op, b).db;
            id in r.tasks && r.tasks[id].job.Live(now) ==> id in db.tasks && db.tasks[id].job.Live(now)
  {
  }

  /** A claim takes its lease only while fewer than the limit are live, and adds at most one. */
  lemma ClaimCapacity(db: Db, now: int, lease: nat, maxActive: nat, owner: string, pick: Option<Id>)
    requires DbInv(db, now) && (pick.Some? ==> pick.value in db.tasks)
    requires |Queue.LiveJobs(db.tasks, now)| <= maxActive
    ensures |Queue.LiveJobs(Queue.ClaimTx(db, now, lease, maxActive, owner, pick).db.tasks, now)| <= maxActive
  {
    var swept := Queue.Sweep(db, now);
    ClaimCases(db, now, lease, maxActive, owner, pick);
    SweepKeeps(db, now);
    NoLeaseAdded(now, now, db, swept, {});
    var r := Queue.ClaimTx(db, now, lease, maxActive, owner, pick).db;
    if r != db && r != swept {
      var live := Queue.LiveJobs(swept.tasks, now);
      assert Queue.LiveJobs(r.tasks, now) <= live + {pick.value};
      SubsetSize(Queue.LiveJobs(r.tasks, now), live + {pick.value});
    }
  }

  /** Resuming, publishing and finishing never start a lease. */
  lemma LoudAddsNoLease(w: World, s: Step, id: Id)
    requires w.db.Valid() && Enabled(w, s) && (s.Resume? || s.Callback? || s.Finish?) && id in Loud(w, s)
    ensures var db' := Apply(w, s).db;
            id in db'.tasks && db'.tasks[id].job.Live(w.now) ==> id in w.db.tasks && w.db.tasks[id].job.Live(w.now)
  {
    match s {
      case Resume(_, information) => ResumeAddsNoLease(w.db, w.now, id, information);
      case Callback(_, op, b) => ResultAddsNoLease(w.db, w.now, w.lease, id, op, b);
      case Finish(_) =>
    }
  }

  lemma CapacityStep(w: World, s: Step, w': World)
    requires Core(w) && Enabled(w, s) && !s.Claim? && w' == Apply(w, s)
    ensures |Queue.LiveJobs(w'.db.tasks, w'.now)| <= w.maxActive
  {
    DbStep(w, s);
    forall id | id in Loud(w, s) && id in w'.db.tasks && w'.db.tasks[id].job.Live(w.now)
      ensures id in w.db.tasks && w.db.tasks[id].job.Live(w.now)
    {
      LoudAddsNoLease(w, s, id);
    }
    NoLeaseAdded(w.now, w'.now, w.db, w'.db, Loud(w, s));
  }

  lemma ClaimStepCapacity(w: World, s: Step)
    requires Core(w) && Enabled(w, s) && s.Claim?
    ensures |Queue.LiveJobs(Apply(w, s).db.tasks, Apply(w, s).now)| <= w.maxActive
  {
    ClaimCapacity(w.db, w.now, w.lease, w.maxActive, s.owner, s.pick);
  }

  lemma CoreStep(w: World, s: Step)
    requires Core(w)
    ensures Core(Apply(w, s)) && Evolves(w.db, Apply(w, s).db)
  {
    DbStep(w, s);
    if Enabled(w, s) {
      if s.Claim? {
        ClaimStepCapacity(w, s);
      } else {
        CapacityStep(w, s, Apply(w, s));
      }
    }
    if s.Dispatch? && Enabled(w, s) {
      DispatchIsDue(w, s);
      RunnersAfterDispatch(w, s.id);
    } else {
      RunnersAfter(w, s);
    }
    RunnersStep(w, s, Apply(w, s));
  }

  // ---- over whole runs --------------------------------------------------------------------

  lemma InitCore(w: World)
    requires Init(w)
    ensures w.db.Valid() && Core(w)
  {
    assert Queue.LiveJobs(w.db.tasks, w.now) == {};
  }

  lemma {:induction false} RunCore(w: World, steps: seq<Step>)
    requires Core(w)
    ensures Core(Run(w, steps)) && Evolves(w.db, Run(w, steps).db)
    ensures Run(w, steps).now >= w.now && Run(w, steps).maxActive == w.maxActive
    decreases |steps|
  {
    if steps == [] {
      NothingKeeps(w.db, w.now);
    } else {
      CoreStep(w, steps[0]);
      RunCore(Apply(w, steps[0]), steps[1..]);
      EvolvesTransitive(w.db, Apply(w, steps[0]).db, Run(w, steps).db);
    }
  }

  /** A reachable state, and a later one. */
  lemma Reached(w: World, before: seq<Step>, after: seq<Step>)
    requires Init(w)
    ensures var mid := Run(w, before);
            Core(mid) && Core(Run(mid, after)) && Evolves(mid.db, Run(mid, after).db)
  {
    InitCore(w);
    RunCore(w, before);
    RunCore(Run(w, before), after);
  }

  /** At every instant of every run, at most maxActive running jobs hold an unexpired lease. */
  lemma CapacityNeverExceeded(w: World, steps: seq<Step>)
    requires Init(w)
    ensures |Queue.LiveJobs(Run(w, steps).db.tasks, Run(w, steps).now)| <= w.maxActive
  {
    InitCore(w);
    RunCore(w, steps);
  }

  /** In every reachable state each investigation and its job agree, and no job is tried a fifth time. */
  lemma StatusesAgree(w: World, steps: seq<Step>, id: Id)
    requires Init(w) && id in Run(w, steps).db.tasks
    ensures var t := Run(w, steps).db.tasks[id];
            Coupled(t.inv.status, t.job.state) && t.job.attempts <= 4
  {
    InitCore(w);
    RunCore(w, steps);
    assert TaskInv(Run(w, steps).now, Run(w, steps).db.ServiceOf(id), Run(w, steps).db.tasks[id]);
  }

  /** Cancelled is final for the investigation and for its job. */
  lemma CancelledForGood(w: World, before: seq<Step>, after: seq<Step>, id: Id)
    requires Init(w) && id in Run(w, before).db.tasks && Run(w, before).db.tasks[id].inv.status.Cancelled?
    ensures var end := Run(Run(w, before), after);
            id in end.db.tasks && end.db.tasks[id].inv.status.Cancelled? && end.db.tasks[id].job.state.JobCancelled?
  {
    Reached(w, before, after);
    var end := Run(Run(w, before), after);
    assert TaskInv(end.now, end.db.ServiceOf(id), end.db.tasks[id]);
  }

  /** The events of every investigation are numbered 1 to its counter in every reachable state, and
      the counter never goes back. */
  lemma EventsWithoutGaps(w: World, before: seq<Step>, after: seq<Step>, id: Id)
    requires Init(w) && id in Run(w, before).db.tasks
    ensures Numbered(Run(w, before).db.tasks[id])
    ensures id in Run(Run(w, before), after).db.tasks
    ensures Run(w, before).db.tasks[id].inv.seqNo <= Run(Run(w, before), after).db.tasks[id].inv.seqNo
  {
    Reached(w, before, after);
    var mid := Run(w, before);
    assert TaskInv(mid.now, mid.db.ServiceOf(id), mid.db.tasks[id]);
  }
}
