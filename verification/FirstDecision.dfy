/** Every run of the unified endpoint: any number of executions interleave statement by statement, the data
    workers move their rows along, and tasks are also created directly. */
module FirstDecision {
  import opened Wrappers
  import opened History
  import opened Unified

  datatype Thread = Thread(call: Call, pc: Pc)
  datatype System = System(db: Db, threads: seq<Thread>)

  datatype Step =
    | Begin(call: Call)
    | Go(i: nat, outside: Outside)
    | Work(key: Key, status: QueryStatus)
    | Direct(key: Key, task: Investigated)

  predicate Moves(a: QueryStatus, b: QueryStatus) {
    (a.QueryQueued? && b.QueryRunning?) || (a.QueryRunning? && !b.QueryQueued?)
  }

  predicate Enabled(s: System, step: Step) {
    match step
    case Begin(call) => Accepted(call.input)
    case Go(i, _) => i < |s.threads| && !s.threads[i].pc.Replied?
    case Work(key, status) => key in s.db.queries && Moves(s.db.queries[key].status, status)
    case Direct(key, _) => key !in s.db.investigations
  }

  ghost function Apply(s: System, step: Step): System
    requires Enabled(s, step)
  {
    match step
    case Begin(call) => s.(threads := s.threads + [Thread(call, Arrived)])
    case Go(i, outside) =>
      var t := s.threads[i];
      var (db, pc) := Advance(s.db, t.call, t.pc, outside);
      System(db, s.threads[i := t.(pc := pc)])
    case Work(key, status) => s.(db := s.db.(queries := s.db.queries[key := s.db.queries[key].(status := status)]))
    case Direct(key, task) => s.(db := s.db.(investigations := s.db.investigations[key := task]))
  }

  ghost predicate Runs(s: System, steps: seq<Step>)
    decreases |steps|
  {
    steps == [] || (Enabled(s, steps[0]) && Runs(Apply(s, steps[0]), steps[1..]))
  }

  ghost function Run(s: System, steps: seq<Step>): System
    requires Runs(s, steps)
    decreases |steps|
  {
    if steps == [] then s else Run(Apply(s, steps[0]), steps[1..])
  }

  predicate Init(s: System) {
    s == System(Db(map[], map[], map[]), [])
  }

  // ---- the invariant ---------------------------------------------------------------------

  predicate RowOk(row: Request) {
    && (row.decision.Some? ==> DecisionOk(row.decision.value, row.hash))
    && (row.kind.Some? <==> row.decision.Some?)
  }

  predicate Persisted(db: Db, c: Call, d: Decision) {
    c.Index() in db.requests && db.requests[c.Index()].hash == c.input && db.requests[c.Index()].decision == Some(d)
  }

  /** A data query row serves the stored decision of its request. */
  predicate QueryOk(db: Db, k: Key) {
    && k in db.requests && k in db.queries
    && db.queries[k].hash == db.requests[k].hash
    && db.requests[k].decision.Some?
    && var d := db.requests[k].decision.value;
       d.kind.WarehouseKind? && db.queries[k].question == d.question
  }

  predicate DbOk(db: Db) {
    && (forall k :: k in db.requests ==> RowOk(db.requests[k]))
    && (forall k {:trigger QueryOk(db, k)} :: k in db.queries ==> QueryOk(db, k))
  }

  predicate Held(db: Db, c: Call) {
    c.Index() in db.requests && db.requests[c.Index()].hash == c.input
  }

  predicate CachedOk(db: Db, c: Call, cached: Option<Decision>, kind: Option<Kind>) {
    Held(db, c) && (cached.Some? ==> Persisted(db, c, cached.value)) && (kind.Some? <==> cached.Some?)
  }

  predicate Asks(db: Db, c: Call, kind: Kind, question: string) {
    && Held(db, c) && db.requests[c.Index()].decision.Some?
    && db.requests[c.Index()].decision.value.kind == kind && db.requests[c.Index()].decision.value.question == question
  }

  predicate ReplyOk(db: Db, c: Call, r: Reply) {
    match r
    case Said(d) => Persisted(db, c, d) && !d.kind.Tool()
    case QueryAccepted(id, question) =>
      Asks(db, c, WarehouseKind, question) && c.Index() in db.queries && db.queries[c.Index()].id == id
    case TaskAccepted(id) =>
      && c.Index() in db.investigations && db.investigations[c.Index()].id == id
      && db.investigations[c.Index()].hash.NaturalHash?
      && Asks(db, c, InvestigationKind, db.investigations[c.Index()].hash.question)
    case Asked(_) => true
    case Refused(_) => true
  }

  predicate PcOk(db: Db, c: Call, pc: Pc) {
    match pc
    case Arrived => true
    case Reserved(cached, kind) => CachedOk(db, c, cached, kind)
    case Unqueried(cached, kind) => CachedOk(db, c, cached, kind)
    case Probed(cached, kind, _) => CachedOk(db, c, cached, kind)
    case Routed(d) => Held(db, c) && DecisionOk(d, c.input)
    case Decided(d) => Persisted(db, c, d)
    case Admitting(question) => Asks(db, c, WarehouseKind, question)
    case Interpreting(question) => Asks(db, c, InvestigationKind, question)
    case Planning(question) => Asks(db, c, InvestigationKind, question)
    case Creating(question) => Asks(db, c, InvestigationKind, question)
    case Replied(reply) => ReplyOk(db, c, reply)
  }

  predicate Inv(s: System) {
    && DbOk(s.db)
    && forall i {:trigger s.threads[i]} :: 0 <= i < |s.threads| ==>
         Accepted(s.threads[i].call.input) && PcOk(s.db, s.threads[i].call, s.threads[i].pc)
  }

  /** Stored decisions, and the identity of what they created, never change. */
  predicate Grows(a: Db, b: Db) {
    && (forall k :: k in a.requests ==>
          && k in b.requests && b.requests[k].hash == a.requests[k].hash
          && (a.requests[k].decision.Some? ==> b.requests[k].decision == a.requests[k].decision))
    && (forall k :: k in a.queries ==>
          k in b.queries && b.queries[k].id == a.queries[k].id && b.queries[k].question == a.queries[k].question
          && b.queries[k].hash == a.queries[k].hash)
    && (forall k :: k in a.investigations ==> k in b.investigations && b.investigations[k] == a.investigations[k])
  }

  lemma PcStays(a: Db, b: Db, c: Call, pc: Pc)
    requires Grows(a, b) && PcOk(a, c, pc)
    ensures PcOk(b, c, pc)
  {
  }

  lemma QueryStays(a: Db, b: Db, k: Key)
    requires QueryOk(a, k) && Grows(a, b)
    ensures QueryOk(b, k)
  {
  }

  lemma DecideOk(b: UnifiedInput, known: bool, route: Option<Decision>)
    requires Accepted(b)
    ensures var r := Decide(b, None, known, route);
            r.Ok? ==> DecisionOk(r.value, b)
  {
  }

  lemma ReserveOk(a: Db, c: Call, b: Db, pc: Pc)
    requires DbOk(a) && (b, pc) == ReserveStep(a, c)
    ensures DbOk(b) && Grows(a, b) && PcOk(b, c, pc)
  {
    forall k | k in b.queries ensures QueryOk(b, k) {
      QueryStays(a, b, k);
    }
  }

  lemma PersistOk(a: Db, c: Call, d: Decision, b: Db, pc: Pc)
    requires DbOk(a) && Held(a, c) && DecisionOk(d, c.input) && (b, pc) == PersistStep(a, c, d)
    ensures DbOk(b) && Grows(a, b) && PcOk(b, c, pc)
  {
    forall k | k in b.queries ensures QueryOk(b, k) {
      QueryStays(a, b, k);
    }
  }

  lemma DirectOk(a: Db, key: Key, task: Investigated, b: Db)
    requires DbOk(a) && key !in a.investigations && b == a.(investigations := a.investigations[key := task])
    ensures DbOk(b) && Grows(a, b)
  {
    forall k | k in b.queries ensures QueryOk(b, k) {
      QueryStays(a, b, k);
    }
  }

  lemma QueryAdded(a: Db, c: Call, q: DataQuery, b: Db)
    requires DbOk(a) && Asks(a, c, WarehouseKind, q.question) && q.hash == c.input && c.Index() !in a.queries
    requires b == a.(queries := a.queries[c.Index() := q])
    ensures DbOk(b) && Grows(a, b)
  {
    forall k | k in b.queries ensures QueryOk(b, k) {
      if k in a.queries {
        QueryStays(a, b, k);
      }
    }
  }

  lemma AdmitOk(a: Db, c: Call, question: string, id: string, b: Db, pc: Pc)
    requires DbOk(a) && Asks(a, c, WarehouseKind, question) && (b, pc) == AdmitStep(a, c, question, id)
    ensures DbOk(b) && Grows(a, b) && PcOk(b, c, pc)
  {
    if b != a {
      QueryAdded(a, c, DataQuery(id, question, c.input, QueryQueued), b);
    }
  }

  lemma CreateOk(a: Db, c: Call, question: string, o: Outside, b: Db, pc: Pc)
    requires DbOk(a) && Asks(a, c, InvestigationKind, question) && (b, pc) == CreateStep(a, c, question, o)
    ensures DbOk(b) && Grows(a, b) && PcOk(b, c, pc)
  {
    if b != a {
      DirectOk(a, c.Index(), Investigated(o.id, NaturalHash(question, c.input.timezone)), b);
    }
  }

  lemma LookupOk(a: Db, c: Call, pc: Pc, o: Outside)
    requires DbOk(a) && pc.Reserved? && PcOk(a, c, pc)
    ensures PcOk(a, c, LookupStep(a, c, pc, o))
  {
    if c.Index() in a.queries {
      assert QueryOk(a, c.Index());
    }
  }

  lemma ServeOk(a: Db, c: Call, d: Decision, o: Outside)
    requires Persisted(a, c, d)
    ensures PcOk(a, c, ServeStep(d, o))
  {
  }

  lemma AdvanceOk(a: Db, c: Call, pc: Pc, o: Outside, b: Db, next: Pc)
    requires DbOk(a) && Accepted(c.input) && PcOk(a, c, pc) && !pc.Replied? && (b, next) == Advance(a, c, pc, o)
    ensures DbOk(b) && Grows(a, b) && PcOk(b, c, next)
  {
    match pc
    case Arrived => ReserveOk(a, c, b, next);
    case Reserved(_, _) => LookupOk(a, c, pc, o);
    case Unqueried(_, _) =>
    case Probed(_, _, known) => DecideOk(c.input, known, o.route);
    case Routed(d) => PersistOk(a, c, d, b, next);
    case Decided(d) => ServeOk(a, c, d, o);
    case Admitting(question) => AdmitOk(a, c, question, o.id, b, next);
    case Interpreting(question) =>
    case Planning(question) =>
    case Creating(question) => CreateOk(a, c, question, o, b, next);
  }

  lemma WorkOk(a: Db, key: Key, status: QueryStatus, b: Db)
    requires DbOk(a) && key in a.queries && b == a.(queries := a.queries[key := a.queries[key].(status := status)])
    ensures DbOk(b) && Grows(a, b)
  {
    forall k | k in b.queries ensures QueryOk(b, k) {
      QueryStays(a, b, k);
    }
  }

  lemma ThreadsStay(threads: seq<Thread>, a: Db, b: Db)
    requires Inv(System(a, threads)) && Grows(a, b)
    ensures forall i :: 0 <= i < |threads| ==> PcOk(b, threads[i].call, threads[i].pc)
  {
    forall i | 0 <= i < |threads| ensures PcOk(b, threads[i].call, threads[i].pc) {
      PcStays(a, b, threads[i].call, threads[i].pc);
    }
  }

  /** A thread keeps its call, and a reply once given. */
  predicate Extends(ts: seq<Thread>, us: seq<Thread>) {
    |ts| <= |us| && forall i :: 0 <= i < |ts| ==> us[i].call == ts[i].call && (ts[i].pc.Replied? ==> us[i] == ts[i])
  }

  lemma StepKeeps(s: System, step: Step)
    requires Inv(s) && Enabled(s, step)
    ensures Inv(Apply(s, step)) && Grows(s.db, Apply(s, step).db) && Extends(s.threads, Apply(s, step).threads)
  {
    match step
    case Begin(_) =>
    case Go(i, outside) =>
      var t := s.threads[i];
      var (db, pc) := Advance(s.db, t.call, t.pc, outside);
      AdvanceOk(s.db, t.call, t.pc, outside, db, pc);
      ThreadsStay(s.threads, s.db, db);
    case Work(key, status) =>
      WorkOk(s.db, key, status, Apply(s, step).db);
      ThreadsStay(s.threads, s.db, Apply(s, step).db);
    case Direct(key, task) =>
      DirectOk(s.db, key, task, Apply(s, step).db);
      ThreadsStay(s.threads, s.db, Apply(s, step).db);
  }

  lemma {:induction false} RunKeeps(s: System, steps: seq<Step>)
    requires Inv(s) && Runs(s, steps)
    ensures Inv(Run(s, steps)) && Grows(s.db, Run(s, steps).db) && Extends(s.threads, Run(s, steps).threads)
    decreases |steps|
  {
    if steps != [] {
      StepKeeps(s, steps[0]);
      RunKeeps(Apply(s, steps[0]), steps[1..]);
    }
  }

  // ---- theorems ----------------------------------------------------------------------------

  /** Any two executions of one subject and key that were served from what is stored asked for the same thing
      and got the same reply, whatever the router said to each of them. */
  lemma RepliesAgree(s: System, steps: seq<Step>, i: nat, j: nat)
    requires Init(s) && Runs(s, steps)
    requires i < |Run(s, steps).threads| && j < |Run(s, steps).threads|
    requires var a, b := Run(s, steps).threads[i], Run(s, steps).threads[j];
             && a.call.Index() == b.call.Index()
             && a.pc.Replied? && a.pc.reply.Stored() && b.pc.Replied? && b.pc.reply.Stored()
    ensures Run(s, steps).threads[i] == Run(s, steps).threads[j]
  {
    RunKeeps(s, steps);
    var db := Run(s, steps).db;
    var a, b := Run(s, steps).threads[i], Run(s, steps).threads[j];
    assert PcOk(db, a.call, a.pc) && PcOk(db, b.call, b.pc);
  }

  /** A stored decision is valid, keeps to the tool the user chose and a standalone question to the letter,
      and is the same in every later state. */
  lemma DecisionForGood(s: System, before: seq<Step>, after: seq<Step>, k: Key)
    requires Init(s) && Runs(s, before) && Runs(Run(s, before), after)
    requires k in Run(s, before).db.requests && Run(s, before).db.requests[k].decision.Some?
    ensures var row := Run(s, before).db.requests[k];
            && DecisionOk(row.decision.value, row.hash)
            && k in Run(Run(s, before), after).db.requests
            && Run(Run(s, before), after).db.requests[k].decision == row.decision
  {
    RunKeeps(s, before);
    RunKeeps(Run(s, before), after);
  }

  /** A key serves one hash only: once it is reserved, a different request is refused in every later state. */
  lemma OtherPayloadRefused(s: System, steps: seq<Step>, c: Call, o: Outside)
    requires Inv(s) && Runs(s, steps)
    requires c.Index() in s.db.requests && s.db.requests[c.Index()].hash != c.input
    ensures Serve(Run(s, steps).db, c, Arrived, o).1 == Refused(PayloadConflict)
  {
    RunKeeps(s, steps);
    ServeUnrolls(Run(s, steps).db, c, Arrived, o);
  }

  /** A retry of a request whose data query exists never consults the router: for any of its outputs it
      returns the stored row's id and question, and writes nothing. */
  lemma RetryIgnoresRouter(s: System, steps: seq<Step>, c: Call, o: Outside)
    requires Inv(s) && Runs(s, steps) && c.Index() in s.db.queries && s.db.queries[c.Index()].hash == c.input
             && o.dataset
    ensures var db := Run(s, steps).db;
            var q := s.db.queries[c.Index()];
            Serve(db, c, Arrived, o) == (db, QueryAccepted(q.id, q.question))
  {
    RunKeeps(s, steps);
    var db := Run(s, steps).db;
    assert QueryOk(db, c.Index());
    var row := db.requests[c.Index()];
    assert db.requests == db.requests[c.Index() := row];
    ServeUnrolls(db, c, Arrived, o);
    ServeUnrolls(db, c, Reserved(row.decision, row.kind), o);
  }

  // ---- admission ---------------------------------------------------------------------------

  ghost predicate WithinLimit(queries: map<Key, DataQuery>) {
    forall u :: |ActiveKeys(queries, u)| <= ACTIVE_LIMIT
  }

  lemma AdmitWithin(db: Db, c: Call, question: string, id: string)
    requires WithinLimit(db.queries)
    ensures WithinLimit(AdmitStep(db, c, question, id).0.queries)
  {
    var next := AdmitStep(db, c, question, id).0.queries;
    forall u ensures |ActiveKeys(next, u)| <= ACTIVE_LIMIT {
      if next != db.queries {
        SubsetSize(ActiveKeys(next, u), ActiveKeys(db.queries, u) + (if u == c.subject then {c.Index()} else {}));
      }
    }
  }

  lemma WorkWithin(db: Db, key: Key, status: QueryStatus)
    requires WithinLimit(db.queries) && key in db.queries && Moves(db.queries[key].status, status)
    ensures WithinLimit(db.queries[key := db.queries[key].(status := status)])
  {
    var next := db.queries[key := db.queries[key].(status := status)];
    forall u ensures |ActiveKeys(next, u)| <= ACTIVE_LIMIT {
      SubsetSize(ActiveKeys(next, u), ActiveKeys(db.queries, u));
    }
  }

  lemma StepWithin(s: System, step: Step)
    requires WithinLimit(s.db.queries) && Enabled(s, step)
    ensures WithinLimit(Apply(s, step).db.queries)
  {
    if step.Work? {
      WorkWithin(s.db, step.key, step.status);
    } else if step.Go? && s.threads[step.i].pc.Admitting? {
      AdmitWithin(s.db, s.threads[step.i].call, s.threads[step.i].pc.question, step.outside.id);
    }
  }

  lemma {:induction false} RunWithin(s: System, steps: seq<Step>)
    requires WithinLimit(s.db.queries) && Runs(s, steps)
    ensures WithinLimit(Run(s, steps).db.queries)
    decreases |steps|
  {
    if steps != [] {
      StepWithin(s, steps[0]);
      RunWithin(Apply(s, steps[0]), steps[1..]);
    }
  }

  /** In every run, no subject ever has more than five data queries waiting or running. */
  lemma ActiveQueriesBounded(s: System, steps: seq<Step>, subject: string)
    requires Init(s) && Runs(s, steps)
    ensures |ActiveKeys(Run(s, steps).db.queries, subject)| <= ACTIVE_LIMIT
  {
    forall u ensures |ActiveKeys(s.db.queries, u)| <= ACTIVE_LIMIT {
      assert ActiveKeys(s.db.queries, u) == {};
    }
    RunWithin(s, steps);
  }
}
