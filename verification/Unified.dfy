/** backend/internal/app/data_queries.go: one request key is routed once, and every execution of it, however
    many run at the same time, serves the decision that was stored first. */
module Unified {
  import opened Wrappers
  import opened History

  const ACTIVE_LIMIT: nat := 5

  // ---- entities -------------------------------------------------------------------------

  datatype Kind =
    | AnswerKind | ClarificationKind | WarehouseKind | InvestigationKind | AutoKind | UnknownKind(name: string)
  {
    predicate Tool() {
      WarehouseKind? || InvestigationKind?
    }
  }

  datatype Mode = AutoMode | WarehouseMode | InvestigationMode

  /** The input after trimming and defaults; its hash is taken to be injective, so it stands for itself. */
  datatype UnifiedInput = UnifiedInput(text: string, timezone: string, mode: Mode, history: seq<Message>)

  /** What is checked before anything is stored: the text is trimmed, so a non-empty one is not blank. */
  predicate Accepted(b: UnifiedInput) {
    !Blank(b.text) && Validation(b.text, b.history).None?
  }

  datatype Decision = Decision(kind: Kind, reset: bool, answer: string, clarification: string, question: string)

  datatype Request = Request(hash: UnifiedInput, kind: Option<Kind>, decision: Option<Decision>)

  datatype QueryStatus = QueryQueued | QueryRunning | QueryCompleted | QueryFailed
  {
    predicate Active() {
      QueryQueued? || QueryRunning?
    }
  }

  datatype DataQuery = DataQuery(id: string, question: string, hash: UnifiedInput, status: QueryStatus)

  datatype TaskHash = NaturalHash(question: string, timezone: string) | DirectHash(body: string)
  datatype Investigated = Investigated(id: string, hash: TaskHash)

  type Key = (string, string) // (subject, idem)

  datatype Db = Db(requests: map<Key, Request>, queries: map<Key, DataQuery>, investigations: map<Key, Investigated>)

  datatype Failure =
    | NoRows | PayloadConflict | DatasetForbidden | RouteUnavailable | InvalidRoute | TooManyQueries
    | TeamForbidden | PlannerFailed(code: string) | TaskRefused(code: string)

  datatype Reply =
    | Said(decision: Decision)                      // an answer or a clarification
    | QueryAccepted(id: string, question: string)
    | TaskAccepted(id: string)
    | Asked(clarification: string)                  // the planner of an investigation asks back; nothing is stored
    | Refused(failure: Failure)
  {
    /** Served from what is stored. */
    predicate Stored() {
      Said? || QueryAccepted? || TaskAccepted?
    }
  }

  /** What the outside contributes to one execution: the router's output, the current memberships, fresh ids,
      the planner's output and what admission says of the planned task. */
  datatype Plan = PlanFailed(code: string) | PlanAsks(text: string) | PlanReady
  datatype Outside = Outside(
    route: Option<Decision>, dataset: bool, member: bool, id: string, plan: Plan, admission: Option<string>)

  datatype Call = Call(subject: string, key: string, input: UnifiedInput)
  {
    function Index(): Key {
      (subject, key)
    }
  }

  /** Between which two statements an execution stands. */
  datatype Pc =
    | Arrived
    | Reserved(cached: Option<Decision>, kind: Option<Kind>)
    | Unqueried(cached: Option<Decision>, kind: Option<Kind>)
    | Probed(cached: Option<Decision>, kind: Option<Kind>, known: bool)
    | Routed(decision: Decision)
    | Decided(decision: Decision)
    | Admitting(question: string)
    | Interpreting(question: string)
    | Planning(question: string)
    | Creating(question: string)
    | Replied(reply: Reply)

  function Rank(pc: Pc): nat {
    match pc
    case Arrived => 10
    case Reserved(_, _) => 9
    case Unqueried(_, _) => 8
    case Probed(_, _, _) => 7
    case Routed(_) => 6
    case Decided(_) => 5
    case Admitting(_) => 4
    case Interpreting(_) => 3
    case Planning(_) => 2
    case Creating(_) => 1
    case Replied(_) => 0
  }

  // ---- decisions ------------------------------------------------------------------------

  predicate ValidDecision(d: Decision) {
    match d.kind
    case AnswerKind => !Blank(d.answer) && |d.answer| <= MAX_RUNES
    case ClarificationKind => !Blank(d.clarification) && |d.clarification| <= MAX_RUNES
    case WarehouseKind => !Blank(d.question) && |d.question| <= MAX_RUNES
    case InvestigationKind => !Blank(d.question) && |d.question| <= MAX_RUNES
    case AutoKind => false
    case UnknownKind(_) => false
  }

  function KindOf(m: Mode): Kind {
    match m
    case AutoMode => AutoKind
    case WarehouseMode => WarehouseKind
    case InvestigationMode => InvestigationKind
  }

  /** The router is asked for a request in automatic mode, and for any with history. */
  predicate Routes(b: UnifiedInput, kind: Option<Kind>, known: bool) {
    |b.history| > 0 || (!known && kind.GetOr(KindOf(b.mode)).AutoKind?)
  }

  const SWITCH_MODE := "这个问题需要另一种查询方式，请切换为自动识别后重新提问。"

  lemma SwitchModeIsValid()
    ensures ValidDecision(Decision(ClarificationKind, false, "", SWITCH_MODE, ""))
  {
    assert SWITCH_MODE[|SWITCH_MODE| - 1] == '\U{3002}';
  }

  /** The decision one execution would store; the router's output, if it is asked, is arbitrary. */
  function Decide(b: UnifiedInput, kind: Option<Kind>, known: bool, route: Option<Decision>): Result<Decision,
      Failure> {
    var preset := if known then InvestigationKind else kind.GetOr(KindOf(b.mode));
    var asks := preset.AutoKind? || |b.history| > 0;
    if asks && route.None? then Err(RouteUnavailable)
    else
      var d := if asks then route.value else Decision(preset, false, "", "", b.text);
      var e := if b.mode != AutoMode && d.kind.Tool() && d.kind != KindOf(b.mode)
               then Decision(ClarificationKind, false, "", SWITCH_MODE, "") else d;
      if !ValidDecision(e) then Err(InvalidRoute)
      else Ok(if |b.history| == 0 && e.kind.Tool() then e.(question := b.text) else e)
  }

  /** What a stored decision satisfies, given the request it was stored for. */
  predicate DecisionOk(d: Decision, b: UnifiedInput) {
    && ValidDecision(d)
    && (d.kind.Tool() && b.mode != AutoMode ==> d.kind == KindOf(b.mode))   // the chosen tool is never replaced
    && (d.kind.Tool() && b.history == [] ==> d.question == b.text)          // a standalone question is never rewritten
  }

  // ---- one statement of one execution ----------------------------------------------------

  function Upserted(db: Db, c: Call): Request {
    if c.Index() in db.requests then db.requests[c.Index()] else Request(c.input, None, None)
  }

  function ReserveStep(db: Db, c: Call): (Db, Pc) {
    var row := Upserted(db, c);
    (db.(requests := db.requests[c.Index() := row]),
     if row.hash != c.input then Replied(Refused(PayloadConflict)) else Reserved(row.decision, row.kind))
  }

  function LookupStep(db: Db, c: Call, pc: Pc, o: Outside): Pc
    requires pc.Reserved?
  {
    if c.Index() !in db.queries then Unqueried(pc.cached, pc.kind)
    else
      var q := db.queries[c.Index()];
      if q.hash != c.input then Replied(Refused(PayloadConflict))
      else if !o.dataset then Replied(Refused(DatasetForbidden))
      else Replied(QueryAccepted(q.id, q.question))
  }

  function RouteStep(c: Call, pc: Pc, o: Outside): Pc
    requires pc.Probed?
  {
    if pc.cached.Some? then Decided(pc.cached.value)
    else
      match Decide(c.input, pc.kind, pc.known, o.route)
      case Ok(d) => Routed(d)
      case Err(e) => Replied(Refused(e))
  }

  /** set decision=coalesce(decision, mine), kind=coalesce(decision->>'kind', mine) returning decision */
  function PersistStep(db: Db, c: Call, d: Decision): (Db, Pc) {
    if c.Index() !in db.requests then (db, Replied(Refused(NoRows)))
    else
      var row := db.requests[c.Index()];
      var stored := row.decision.GetOr(d);
      (db.(requests := db.requests[c.Index() := row.(decision := Some(stored), kind := Some(stored.kind))]),
       Decided(stored))
  }

  function ServeStep(d: Decision, o: Outside): Pc {
    if !ValidDecision(d) then Replied(Refused(InvalidRoute))
    else if d.kind.AnswerKind? || d.kind.ClarificationKind? then Replied(Said(d))
    else if d.kind.InvestigationKind? then Interpreting(d.question)
    else if !o.dataset then Replied(Refused(DatasetForbidden))
    else Admitting(d.question)
  }

  ghost function ActiveKeys(queries: map<Key, DataQuery>, subject: string): set<Key> {
    set k | k in queries && k.0 == subject && queries[k].status.Active()
  }

  ghost function AdmitStep(db: Db, c: Call, question: string, id: string): (Db, Pc) {
    if c.Index() in db.queries then
      var q := db.queries[c.Index()];
      (db, if q.hash != c.input then Replied(Refused(PayloadConflict)) else Replied(QueryAccepted(q.id, question)))
    else if |ActiveKeys(db.queries, c.subject)| >= ACTIVE_LIMIT then (db, Replied(Refused(TooManyQueries)))
    else (db.(queries := db.queries[c.Index() := DataQuery(id, question, c.input, QueryQueued)]),
          Replied(QueryAccepted(id, question)))
  }

  function InterpretStep(db: Db, c: Call, question: string, o: Outside): Pc {
    if c.Index() !in db.investigations then Planning(question)
    else
      var i := db.investigations[c.Index()];
      if i.hash != NaturalHash(question, c.input.timezone) then Replied(Refused(PayloadConflict))
      else if !o.member then Replied(Refused(TeamForbidden))
      else Replied(TaskAccepted(i.id))
  }

  function PlanStep(question: string, o: Outside): Pc {
    match o.plan
    case PlanFailed(code) => Replied(Refused(PlannerFailed(code)))
    case PlanAsks(text) => Replied(Asked(text))
    case PlanReady => Creating(question)
  }

  function CreateStep(db: Db, c: Call, question: string, o: Outside): (Db, Pc) {
    var hash := NaturalHash(question, c.input.timezone);
    if c.Index() in db.investigations then
      var i := db.investigations[c.Index()];
      (db, if i.hash != hash then Replied(Refused(PayloadConflict)) else Replied(TaskAccepted(i.id)))
    else if o.admission.Some? then (db, Replied(Refused(TaskRefused(o.admission.value))))
    else (db.(investigations := db.investigations[c.Index() := Investigated(o.id, hash)]), Replied(TaskAccepted(o.id)))
  }

  ghost function Advance(db: Db, c: Call, pc: Pc, o: Outside): (r: (Db, Pc))
    requires !pc.Replied?
    ensures Rank(r.1) < Rank(pc)
  {
    match pc
    case Arrived => ReserveStep(db, c)
    case Reserved(_, _) => (db, LookupStep(db, c, pc, o))
    case Unqueried(cached, kind) => (db, Probed(cached, kind, c.Index() in db.investigations))
    case Probed(_, _, _) => (db, RouteStep(c, pc, o))
    case Routed(d) => PersistStep(db, c, d)
    case Decided(d) => (db, ServeStep(d, o))
    case Admitting(question) => AdmitStep(db, c, question, o.id)
    case Interpreting(question) => (db, InterpretStep(db, c, question, o))
    case Planning(question) => (db, PlanStep(question, o))
    case Creating(question) => CreateStep(db, c, question, o)
  }

  /** An execution nobody interrupts. */
  ghost function Serve(db: Db, c: Call, pc: Pc, o: Outside): (Db, Reply)
    decreases Rank(pc)
  {
    if pc.Replied? then (db, pc.reply)
    else
      var (next, pc') := Advance(db, c, pc, o);
      Serve(next, c, pc', o)
  }

  lemma ServeUnrolls(db: Db, c: Call, pc: Pc, o: Outside)
    requires !pc.Replied?
    ensures var (next, pc') := Advance(db, c, pc, o);
            Serve(db, c, pc, o) == if pc'.Replied? then (next, pc'.reply) else Serve(next, c, pc', o)
  {
  }

  // ---- the handler -----------------------------------------------------------------------

  class RequestStore {
    var requests: map<Key, Request>
    var queries: map<Key, DataQuery>
    var investigations: map<Key, Investigated>

    constructor ()
      ensures Value() == Db(map[], map[], map[])
    {
      requests, queries, investigations := map[], map[], map[];
    }

    function Value(): Db
      reads this
    {
      Db(requests, queries, investigations)
    }

    /** insert ... on conflict do update set idem=excluded.idem returning the row */
    method Reserve(c: Call) returns (row: Request)
      modifies this`requests
      ensures row == Upserted(old(Value()), c) && requests == old(requests)[c.Index() := row]
    {
      var k := c.Index();
      if k !in requests {
        requests := requests[k := Request(c.input, None, None)];
      }
      row := requests[k];
      assert requests == old(requests)[k := row];
    }

    /** select count(*) ... where subject and status in ('queued','running') */
    method CountActive(subject: string) returns (n: nat)
      ensures n == |ActiveKeys(queries, subject)|
    {
      var active := set k | k in queries && k.0 == subject && queries[k].status.Active();
      assert active == ActiveKeys(queries, subject);
      n := |active|;
    }

    method Natural(c: Call, question: string, o: Outside) returns (reply: Reply)
      modifies this`investigations
      ensures (Value(), reply) == Serve(old(Value()), c, Interpreting(question), o)
    {
      var k := c.Index();
      var hash := NaturalHash(question, c.input.timezone);
      ServeUnrolls(Value(), c, Interpreting(question), o);
      if k in investigations {
        if investigations[k].hash != hash {
          return Refused(PayloadConflict);
        }
        if !o.member {
          return Refused(TeamForbidden);
        }
        return TaskAccepted(investigations[k].id);
      }
      ServeUnrolls(Value(), c, Planning(question), o);
      if o.plan.PlanFailed? {
        return Refused(PlannerFailed(o.plan.code));
      }
      if o.plan.PlanAsks? {
        return Asked(o.plan.text);
      }
      ServeUnrolls(Value(), c, Creating(question), o);
      if o.admission.Some? {
        return Refused(TaskRefused(o.admission.value));
      }
      investigations := investigations[k := Investigated(o.id, hash)];
      reply := TaskAccepted(o.id);
    }

    method Admit(c: Call, question: string, o: Outside) returns (reply: Reply)
      modifies this`queries
      ensures (Value(), reply) == Serve(old(Value()), c, Admitting(question), o)
    {
      var k := c.Index();
      if k in queries {
        if queries[k].hash != c.input {
          return Refused(PayloadConflict);
        }
        return QueryAccepted(queries[k].id, question);
      }
      var n := CountActive(c.subject);
      if n >= ACTIVE_LIMIT {
        return Refused(TooManyQueries);
      }
      queries := queries[k := DataQuery(o.id, question, c.input, QueryQueued)];
      reply := QueryAccepted(o.id, question);
    }

    method ServeDecision(c: Call, d: Decision, o: Outside) returns (reply: Reply)
      modifies this
      ensures (Value(), reply) == Serve(old(Value()), c, Decided(d), o)
    {
      if !ValidDecision(d) {
        return Refused(InvalidRoute);
      }
      if d.kind.AnswerKind? || d.kind.ClarificationKind? {
        return Said(d);
      }
      if d.kind.InvestigationKind? {
        reply := Natural(c, d.question, o);
        return;
      }
      if !o.dataset {
        return Refused(DatasetForbidden);
      }
      reply := Admit(c, d.question, o);
    }

    /** Choosing a capability for a request that has no stored decision. */
    method Choose(b: UnifiedInput, kind: Option<Kind>, known: bool, route: Option<Decision>)
        returns (r: Result<Decision, Failure>)
      ensures r == Decide(b, kind, known, route)
      ensures Accepted(b) && r.Ok? ==> DecisionOk(r.value, b)
      ensures r == Err(RouteUnavailable) <==> Routes(b, kind, known) && route.None?
      ensures Accepted(b) && !Routes(b, kind, known) && kind.None? ==> r.Ok?
    {
      var decision := Decision(KindOf(b.mode), false, "", "", b.text);
      if kind.Some? {
        decision := decision.(kind := kind.value);
      }
      if known {
        decision := decision.(kind := InvestigationKind);
      }
      if decision.kind.AutoKind? || |b.history| > 0 {
        if route.None? {
          return Err(RouteUnavailable);
        }
        decision := route.value;
      }
      if b.mode != AutoMode && decision.kind.Tool() && decision.kind != KindOf(b.mode) {
        SwitchModeIsValid();
        decision := Decision(ClarificationKind, false, "", SWITCH_MODE, "");
      }
      if !ValidDecision(decision) {
        return Err(InvalidRoute);
      }
      if |b.history| == 0 && decision.kind.Tool() {
        decision := decision.(question := b.text);
      }
      r := Ok(decision);
    }

    method ExecuteUnified(c: Call, o: Outside) returns (reply: Reply)
      modifies this
      ensures (Value(), reply) == Serve(old(Value()), c, Arrived, o)
    {
      var k, b := c.Index(), c.input;
      ServeUnrolls(Value(), c, Arrived, o);
      var row := Reserve(c);
      if row.hash != b {
        return Refused(PayloadConflict);
      }
      ServeUnrolls(Value(), c, Reserved(row.decision, row.kind), o);
      if k in queries {
        if queries[k].hash != b {
          return Refused(PayloadConflict);
        }
        if !o.dataset {
          return Refused(DatasetForbidden);
        }
        return QueryAccepted(queries[k].id, queries[k].question);
      }
      ServeUnrolls(Value(), c, Unqueried(row.decision, row.kind), o);
      var known := k in investigations;
      ServeUnrolls(Value(), c, Probed(row.decision, row.kind, known), o);
      var decision: Decision;
      if row.decision.Some? {
        decision := row.decision.value;
      } else {
        var chosen := Choose(b, row.kind, known, o.route);
        if chosen.Err? {
          return Refused(chosen.error);
        }
        decision := chosen.value;
        ServeUnrolls(Value(), c, Routed(decision), o);
        requests := requests[k := row.(decision := Some(decision), kind := Some(decision.kind))];
      }
      reply := ServeDecision(c, decision, o);
    }
  }
}
