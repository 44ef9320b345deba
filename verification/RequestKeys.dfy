/** A request key stands for one investigation in every run. */
module RequestKeys {
  import opened Wrappers
  import opened Tables
  import opened ControlPlane
  import opened TaskRules
  import opened QueueRules
  import opened Safety
  import ActionRules
  import Actions
  import Queue
  import Sources
  import Tasks

  /** What identifies the request an investigation was created for. */
  predicate SameRequest(t: Task, t': Task) {
    t'.inv.subject == t.inv.subject && t'.inv.idem == t.inv.idem && t'.inv.requestHash == t.inv.requestHash
  }

  /** The key index names every investigation under its own subject and key. */
  ghost predicate KeysOk(db: Db) {
    forall id :: id in db.tasks ==>
      var k := (db.tasks[id].inv.subject, db.tasks[id].inv.idem); k in db.idems && db.idems[k] == id
  }

  ghost predicate KeysGrow(db: Db, db': Db) {
    && (forall k :: k in db.idems ==> k in db'.idems && db'.idems[k] == db.idems[k])
    && (forall id :: id in db.tasks ==> id in db'.tasks && SameRequest(db.tasks[id], db'.tasks[id]))
  }

  /** No key and no investigation was added. */
  ghost predicate KeysStay(db: Db, db': Db) {
    KeysGrow(db, db') && db'.idems == db.idems && db'.tasks.Keys == db.tasks.Keys
  }

  lemma StayKeeps(db: Db, db': Db)
    requires KeysOk(db) && KeysStay(db, db')
    ensures KeysOk(db')
  {
    forall id | id in db'.tasks ensures SameRequest(db.tasks[id], db'.tasks[id]) {
    }
  }

  /** A new investigation under a new key. */
  lemma KeyAdded(db: Db, db': Db, id: Id)
    requires KeysOk(db) && id !in db.tasks && id in db'.tasks && db'.tasks == db.tasks[id := db'.tasks[id]]
    requires var k := (db'.tasks[id].inv.subject, db'.tasks[id].inv.idem);
             k !in db.idems && db'.idems == db.idems[k := id]
    ensures KeysOk(db') && KeysGrow(db, db')
  {
  }

  lemma CreateKeys(db: Db, now: int, u: string, idem: string, hash: string, service: string, symptom: string, id: Id)
    requires db.Valid() && id !in db.tasks && KeysOk(db)
    ensures var db' := Tasks.CreateTx(db, now, u, idem, hash, service, symptom, id).db;
            KeysOk(db') && KeysGrow(db, db')
  {
    if (u, idem) in db.idems {
      UsedKeyReplays(db, now, u, idem, hash, service, symptom, id);
    } else {
      NewKeyCreates(db, now, u, idem, hash, service, symptom, id);
      if Admissible(db, u, service) {
        KeyAdded(db, Tasks.CreateTx(db, now, u, idem, hash, service, symptom, id).db, id);
      }
    }
  }

  lemma OneTaskStays(db: Db, db': Db, id: Id)
    requires OnlyTask(db, db', id) && (id in db.tasks ==> SameRequest(db.tasks[id], db'.tasks[id]))
    ensures KeysStay(db, db')
  {
  }

  lemma SweptStays(db: Db, db': Db, now: int, except: Option<Id>)
    requires OnlySwept(db, db', now, except)
    requires except.Some? && except.value in db.tasks ==>
               SameRequest(db.tasks[except.value], db'.tasks[except.value])
    ensures KeysStay(db, db')
  {
  }

  lemma ClaimKeys(w: World, s: Step)
    requires w.db.Valid() && Enabled(w, s) && s.Claim? && (s.pick.Some? ==> s.pick.value in w.db.tasks)
    ensures KeysStay(w.db, Queue.ClaimTx(w.db, w.now, w.lease, w.maxActive, s.owner, s.pick).db)
  {
    var db' := Queue.ClaimTx(w.db, w.now, w.lease, w.maxActive, s.owner, s.pick).db;
    if CanTake(w.db, w.now, w.maxActive, s.owner, s.pick) && InitiatorIsMember(w.db, s.pick.value) {
      ClaimRule(w.db, w.now, w.lease, w.maxActive, s.owner, s.locked, s.pick.value);
      SweptStays(w.db, db', w.now, s.pick);
    } else {
      UngrantedRule(w.db, w.now, w.lease, w.maxActive, s.owner, s.locked, s.pick);
      if CanTake(w.db, w.now, w.maxActive, s.owner, s.pick) {
        SweptStays(w.db, db', w.now, s.pick);
      } else if OwnerOk(s.owner) {
        SweptStays(w.db, db', w.now, None);
      }
    }
  }

  lemma ChangeKeys(db: Db, db': Db, service: string, s': Service, remove: bool)
    requires SourcesChanged(db, db', service, s', remove)
    ensures KeysStay(db, db')
  {
  }

  lemma InvalidateKeys(db: Db, service: string, remove: bool)
    requires db.Valid()
    ensures KeysStay(db, Sources.InvalidateTx(db, service, remove).db)
  {
    InvalidateRule(db, service, remove);
    if service in db.services {
      var s := db.services[service];
      ChangeKeys(db, Sources.InvalidateTx(db, service, remove).db, service, s.(watermark := s.watermark + 1), remove);
    }
  }

  lemma ConfigureKeys(db: Db, service: string, repo: string, enabled: bool)
    requires db.Valid()
    ensures KeysStay(db, Sources.ConfigureTx(db, service, repo, enabled).db)
  {
    ConfigureRule(db, service, repo, enabled);
    if service in db.services {
      var s := db.services[service];
      ChangeKeys(db, Sources.ConfigureTx(db, service, repo, enabled).db, service,
                 Service(s.team, repo, s.watermark + 1, enabled), false);
    }
  }

  lemma CancelKeys(db: Db, id: Id)
    requires db.Valid()
    ensures KeysStay(db, Tasks.CancelTx(db, id).db)
  {
    CancelRule(db, id);
    if id in db.tasks {
      OneTaskStays(db, Tasks.CancelTx(db, id).db, id);
    }
  }

  lemma ResumeKeys(db: Db, now: int, id: Id, information: string)
    requires db.Valid()
    ensures KeysStay(db, Tasks.ResumeTx(db, now, id, information).db)
  {
    ResumeRule(db, now, id, information);
    if CanResume(db, id, information) {
      OneTaskStays(db, Tasks.ResumeTx(db, now, id, information).db, id);
    }
  }

  lemma CallbackKeys(db: Db, now: int, lease: nat, id: Id, op: Queue.Operation, b: Callback)
    requires db.Valid()
    ensures KeysStay(db, Queue.CallbackTx(db, now, lease, id, op, b).db)
  {
    if ActedOn(db, now, id, op, b) {
      CallbackRule(db, now, lease, id, op, b);
      OneTaskStays(db, Queue.CallbackTx(db, now, lease, id, op, b).db, id);
    } else {
      UnactedRule(db, now, lease, id, op, b);
    }
  }

  lemma DraftKeys(db: Db, now: int, u: string, id: Id, aid: Id, version: nat, title: string, body: string)
    requires db.Valid()
    ensures KeysStay(db, Actions.DraftTx(db, now, u, id, aid, version, title, body).db)
  {
    ActionRules.DraftRule(db, now, u, id, aid, version, title, body);
    if ActionRules.CanDraft(db, u, id, version, title, body) {
      OneTaskStays(db, Actions.DraftTx(db, now, u, id, aid, version, title, body).db, id);
    }
  }

  lemma DecideKeys(db: Db, now: int, u: string, id: Id, decision: Actions.Decision, version: nat)
    requires db.Valid()
    ensures KeysStay(db, Actions.DecideTx(db, now, u, id, decision, version).db)
  {
    ActionRules.DecideRule(db, now, u, id, decision, version);
    if ActionRules.CanDecide(db, u, id, decision, version) {
      OneTaskStays(db, Actions.DecideTx(db, now, u, id, decision, version).db, id);
    }
  }

  lemma DispatchKeys(db: Db, now: int, id: Id)
    requires db.Valid() && id in db.tasks && Actions.Due(db.tasks[id], now)
    ensures KeysStay(db, Actions.DispatchTx(db, now, id).db)
  {
    if db.tasks[id].action.value.state.Approved? {
      ActionRules.DispatchRule(db, now, id);
    } else {
      ActionRules.RedispatchRule(db, now, id);
    }
    if Actions.DispatchTx(db, now, id).reply.Ok? {
      OneTaskStays(db, Actions.DispatchTx(db, now, id).db, id);
    }
  }

  lemma TablesKeys(w: World, s: Step)
    requires w.db.Valid() && Enabled(w, s) && TablesOnly(s) && !s.Create?
    ensures KeysStay(w.db, TablesAfter(w, s))
  {
    match s {
      case Cancel(id) => CancelKeys(w.db, id);
      case Claim(_, _, _) => ClaimKeys(w, s);
      case Invalidate(service, remove) => InvalidateKeys(w.db, service, remove);
      case Configure(service, repo, enabled) => ConfigureKeys(w.db, service, repo, enabled);
      case SetMember(subject, team, role) => SetMemberRule(w.db, subject, team, role);
      case SaveDraft(u, id, aid, version, title, text) => DraftKeys(w.db, w.now, u, id, aid, version, title, text);
      case Decide(u, id, decision, version) => DecideKeys(w.db, w.now, u, id, decision, version);
    }
  }

  lemma TablesAre(w: World, s: Step)
    requires w.db.Valid() && Enabled(w, s) && TablesOnly(s)
    ensures Apply(w, s).db == TablesAfter(w, s)
  {
  }

  lemma RequestAre(w: World, s: Step)
    requires w.db.Valid()
    ensures s.Resume? ==> Apply(w, s).db == Tasks.ResumeTx(w.db, w.now, s.id, s.information).db
    ensures s.Callback? ==> Apply(w, s).db == Queue.CallbackTx(w.db, w.now, w.lease, s.id, s.op, s.body).db
    ensures s.Tick? ==> Apply(w, s).db == w.db
  {
  }

  lemma FinishKeys(w: World, s: Step)
    requires w.db.Valid() && Enabled(w, s) && s.Finish?
    ensures KeysStay(w.db, Apply(w, s).db)
  {
    var run := w.runners[s.runner].run;
    ActionRules.FinishRule(w.db, w.now, run, w.runners[s.runner].phase.success);
    OneTaskStays(w.db, Apply(w, s).db, run.investigation);
  }

  lemma StillKeys(w: World, s: Step)
    requires w.db.Valid() && Enabled(w, s) && (s.Resume? || s.Callback? || s.Dispatch? || s.Finish?)
    ensures KeysStay(w.db, Apply(w, s).db)
  {
    if s.Dispatch? {
      DispatchIsDue(w, s);
      DispatchedTables(w, s.id);
      DispatchKeys(w.db, w.now, s.id);
    } else if s.Finish? {
      FinishKeys(w, s);
    } else {
      RequestAre(w, s);
      if s.Resume? {
        ResumeKeys(w.db, w.now, s.id, s.information);
      } else {
        CallbackKeys(w.db, w.now, w.lease, s.id, s.op, s.body);
      }
    }
  }

  lemma KeysStep(w: World, s: Step)
    requires w.db.Valid() && KeysOk(w.db)
    ensures KeysOk(Apply(w, s).db) && KeysGrow(w.db, Apply(w, s).db)
  {
    if !Enabled(w, s) || Outside(s) {
      SameTables(w, s);
    } else if s.Tick? {
      RequestAre(w, s);
    } else if s.Create? {
      TablesAre(w, s);
      CreateKeys(w.db, w.now, s.u, s.idem, s.hash, s.service, s.symptom, s.id);
    } else {
      if TablesOnly(s) {
        TablesKeys(w, s);
        TablesAre(w, s);
      } else {
        StillKeys(w, s);
      }
      StayKeeps(w.db, Apply(w, s).db);
    }
  }

  lemma {:induction false} RunKeys(w: World, steps: seq<Step>)
    requires w.db.Valid() && KeysOk(w.db)
    ensures KeysOk(Run(w, steps).db) && KeysGrow(w.db, Run(w, steps).db)
    decreases |steps|
  {
    if steps != [] {
      KeysStep(w, steps[0]);
      RunKeys(Apply(w, steps[0]), steps[1..]);
    }
  }

  /** In every run a subject's key stands for at most one investigation. */
  lemma OneTaskPerKey(w: World, steps: seq<Step>, i: Id, k: Id)
    requires Init(w) && i in Run(w, steps).db.tasks && k in Run(w, steps).db.tasks
    requires var a, b := Run(w, steps).db.tasks[i].inv, Run(w, steps).db.tasks[k].inv;
             a.subject == b.subject && a.idem == b.idem
    ensures i == k
  {
    RunKeys(w, steps);
  }

  /** Once an investigation exists, repeating its request returns it in every later state, any other request under
      the key is a conflict, and neither stores anything. */
  lemma RepeatedRequestReplays(w: World, before: seq<Step>, after: seq<Step>, id: Id, hash: string, service: string,
      symptom: string, unused: Id)
    requires Init(w) && id in Run(w, before).db.tasks && unused !in Run(Run(w, before), after).db.tasks
    ensures var i, end := Run(w, before).db.tasks[id].inv, Run(Run(w, before), after);
            var r := Tasks.CreateTx(end.db, end.now, i.subject, i.idem, hash, service, symptom, unused);
            && r.db == end.db
            && r.reply == if hash == i.requestHash then Ok(id) else Err(IdempotencyPayloadConflict)
  {
    RunKeys(w, before);
    RunKeys(Run(w, before), after);
    var i, end := Run(w, before).db.tasks[id].inv, Run(Run(w, before), after);
    assert SameRequest(Run(w, before).db.tasks[id], end.db.tasks[id]);
    UsedKeyReplays(end.db, end.now, i.subject, i.idem, hash, service, symptom, unused);
  }
}
