/** What an uninterrupted request to the unified endpoint is answered and what it leaves stored, as a function of the
    stored rows, the memberships, the router and the planner: stated apart from the steps that compute it. */
module ReplyRules {
  import opened Wrappers
  import opened History
  import opened Unified
  import opened FirstDecision

  // ---- vocabulary ---------------------------------------------------------------------------

  predicate Presentable(s: string) {
    !Blank(s) && |s| <= 2000
  }

  /** The decision can be said at once: an answer or a question back. */
  predicate Sayable(d: Decision) {
    (d.kind.AnswerKind? && Presentable(d.answer)) || (d.kind.ClarificationKind? && Presentable(d.clarification))
  }

  predicate ForWarehouse(d: Decision) {
    d.kind.WarehouseKind? && Presentable(d.question)
  }

  predicate ForInvestigation(d: Decision) {
    d.kind.InvestigationKind? && Presentable(d.question)
  }

  predicate Proper(d: Decision) {
    Sayable(d) || ForWarehouse(d) || ForInvestigation(d)
  }

  /** The data queries of a subject that wait or run. */
  ghost function Waiting(db: Db, subject: string): set<Key> {
    set k | k in db.queries && k.0 == subject
            && (db.queries[k].status.QueryQueued? || db.queries[k].status.QueryRunning?)
  }

  // ---- serving a decision ---------------------------------------------------------------------

  lemma SaidRule(db: Db, c: Call, d: Decision, o: Outside)
    requires Sayable(d) || !Proper(d)
    ensures Serve(db, c, Decided(d), o) == (db, if Sayable(d) then Said(d) else Refused(InvalidRoute))
  {
    ServeUnrolls(db, c, Decided(d), o);
  }

  /** A warehouse question: refused without access, answered from an existing row of this very request, and otherwise
      queued as a new row unless five of the subject's queries are active. */
  function QueryReply(db: Db, c: Call, d: Decision, o: Outside, active: nat): Reply {
    if !o.dataset then Refused(DatasetForbidden)
    else if c.Index() in db.queries then
      if db.queries[c.Index()].hash == c.input then QueryAccepted(db.queries[c.Index()].id, d.question)
      else Refused(PayloadConflict)
    else if active < 5 then QueryAccepted(o.id, d.question) else Refused(TooManyQueries)
  }

  lemma QueryRule(db: Db, c: Call, d: Decision, o: Outside)
    requires ForWarehouse(d)
    ensures var (db', reply) := Serve(db, c, Decided(d), o);
            && reply == QueryReply(db, c, d, o, |Waiting(db, c.subject)|)
            && db' == if reply.QueryAccepted? && c.Index() !in db.queries
                      then db.(queries := db.queries[c.Index() := DataQuery(o.id, d.question, c.input, QueryQueued)])
                      else db
  {
    assert ActiveKeys(db.queries, c.subject) == Waiting(db, c.subject);
    ServeUnrolls(db, c, Decided(d), o);
    if o.dataset {
      ServeUnrolls(db, c, Admitting(d.question), o);
    }
  }

  /** An investigation: an existing row answers the same question to a member; otherwise the planner refuses, asks back
      or has a task created, which admission may refuse. */
  function TaskReply(db: Db, c: Call, d: Decision, o: Outside): Reply {
    var hash := NaturalHash(d.question, c.input.timezone);
    if c.Index() in db.investigations then
      if db.investigations[c.Index()].hash != hash then Refused(PayloadConflict)
      else if o.member then TaskAccepted(db.investigations[c.Index()].id) else Refused(TeamForbidden)
    else
      match o.plan
      case PlanFailed(code) => Refused(PlannerFailed(code))
      case PlanAsks(text) => Asked(text)
      case PlanReady => if o.admission.None? then TaskAccepted(o.id) else Refused(TaskRefused(o.admission.value))
  }

  lemma TaskRule(db: Db, c: Call, d: Decision, o: Outside)
    requires ForInvestigation(d)
    ensures var (db', reply) := Serve(db, c, Decided(d), o);
            && reply == TaskReply(db, c, d, o)
            && db' == if reply.TaskAccepted? && c.Index() !in db.investigations
                      then db.(investigations := db.investigations[c.Index() :=
                                 Investigated(o.id, NaturalHash(d.question, c.input.timezone))])
                      else db
  {
    ServeUnrolls(db, c, Decided(d), o);
    ServeUnrolls(db, c, Interpreting(d.question), o);
    if c.Index() !in db.investigations {
      ServeUnrolls(db, c, Planning(d.question), o);
      if o.plan.PlanReady? {
        ServeUnrolls(db, c, Creating(d.question), o);
      }
    }
  }

  // ---- choosing a decision ----------------------------------------------------------------------

  /** The router is asked about every message with history, and in automatic mode about one whose key has no
      investigation yet. */
  predicate AsksRouter(b: UnifiedInput, known: bool) {
    b.history != [] || (b.mode.AutoMode? && !known)
  }

  predicate OtherTool(m: Mode, k: Kind) {
    (m.WarehouseMode? && k.InvestigationKind?) || (m.InvestigationMode? && k.WarehouseKind?)
  }

  predicate PleaseSwitch(d: Decision) {
    d == Decision(ClarificationKind, false, "", "这个问题需要另一种查询方式，请切换为自动识别后重新提问。", "")
  }

  /** The decision taken for a request that has none stored. A tool other than the one the user chose is never taken:
      the user is asked to switch instead. A message without history is never rewritten. */
  predicate Chosen(b: UnifiedInput, known: bool, route: Option<Decision>, d: Decision) {
    if !AsksRouter(b, known) then
      if known && b.mode.WarehouseMode? then PleaseSwitch(d)
      else d == Decision(if known || b.mode.InvestigationMode? then InvestigationKind else WarehouseKind,
                         false, "", "", b.text)
    else
      && route.Some?
      && var r := route.value;
         if OtherTool(b.mode, r.kind) then PleaseSwitch(d)
         else
           && Proper(r)
           && d == if b.history == [] && (r.kind.WarehouseKind? || r.kind.InvestigationKind?)
                   then r.(question := b.text) else r
  }

  lemma ProperIff(d: Decision)
    ensures ValidDecision(d) <==> Proper(d)
  {
  }

  /** A decision is taken exactly when one can be chosen; otherwise the router did not answer, or its answer was not a
      proper one. */
  lemma ChosenIff(b: UnifiedInput, known: bool, route: Option<Decision>)
    requires Accepted(b)
    ensures var r := Unified.Decide(b, None, known, route);
            && (r.Ok? ==> Chosen(b, known, route, r.value))
            && (r == Err(RouteUnavailable) <==> AsksRouter(b, known) && route.None?)
            && (r == Err(InvalidRoute) <==>
                  AsksRouter(b, known) && route.Some? && !OtherTool(b.mode, route.value.kind) && !Proper(route.value))
            && (r.Err? ==> r.error.RouteUnavailable? || r.error.InvalidRoute?)
  {
    SwitchModeIsValid();
    if route.Some? {
      ProperIff(route.value);
    }
  }

  // ---- a whole execution --------------------------------------------------------------------------

  predicate Taken(db: Db, c: Call) {
    c.Index() in db.requests && db.requests[c.Index()].hash != c.input
  }

  /** The key was used for another request: refused, and nothing is stored. */
  lemma TakenKeyRefused(db: Db, c: Call, o: Outside)
    requires Taken(db, c)
    ensures Serve(db, c, Arrived, o) == (db, Refused(PayloadConflict))
  {
    ServeUnrolls(db, c, Arrived, o);
    assert db.requests == db.requests[c.Index() := db.requests[c.Index()]];
  }

  function StoredDecision(db: Db, c: Call): Option<Decision> {
    if c.Index() in db.requests then db.requests[c.Index()].decision else None
  }

  /** The tables with the key reserved for this request. */
  function WithRow(db: Db, c: Call): Db {
    if c.Index() in db.requests then db else db.(requests := db.requests[c.Index() := Request(c.input, None, None)])
  }

  lemma ReservedIs(db: Db, c: Call, o: Outside) returns (kind: Option<Kind>)
    requires DbOk(db) && !Taken(db, c)
    ensures kind.Some? <==> StoredDecision(db, c).Some?
    ensures Serve(db, c, Arrived, o) == Serve(WithRow(db, c), c, Unified.Reserved(StoredDecision(db, c), kind), o)
  {
    ServeUnrolls(db, c, Arrived, o);
    kind := None;
    if c.Index() in db.requests {
      assert RowOk(db.requests[c.Index()]);
      assert db.requests == db.requests[c.Index() := db.requests[c.Index()]];
      kind := db.requests[c.Index()].kind;
    }
  }

  /** A request whose data query exists is answered from that row, whatever the router would say: with its id and
      question to a caller with access, and nothing is stored. */
  lemma StoredQueryReplies(db: Db, c: Call, o: Outside)
    requires DbOk(db) && !Taken(db, c) && c.Index() in db.queries
    ensures var q := db.queries[c.Index()];
            Serve(db, c, Arrived, o) == (db, if o.dataset then QueryAccepted(q.id, q.question)
                                             else Refused(DatasetForbidden))
  {
    assert QueryOk(db, c.Index());
    var kind := ReservedIs(db, c, o);
    ServeUnrolls(db, c, Unified.Reserved(StoredDecision(db, c), kind), o);
  }

  /** Without a stored query row, the execution comes to its decision with the key reserved. */
  lemma ProbedIs(db: Db, c: Call, o: Outside) returns (kind: Option<Kind>)
    requires DbOk(db) && !Taken(db, c) && c.Index() !in db.queries
    ensures kind.Some? <==> StoredDecision(db, c).Some?
    ensures Serve(db, c, Arrived, o)
            == Serve(WithRow(db, c), c, Probed(StoredDecision(db, c), kind, c.Index() in db.investigations), o)
  {
    kind := ReservedIs(db, c, o);
    var row := WithRow(db, c);
    ServeUnrolls(row, c, Unified.Reserved(StoredDecision(db, c), kind), o);
    ServeUnrolls(row, c, Unqueried(StoredDecision(db, c), kind), o);
  }

  /** No decision stored and none to be had: the key stays reserved and the reply says why. */
  lemma UndecidedRefused(db: Db, c: Call, o: Outside)
    requires DbOk(db) && Accepted(c.input) && !Taken(db, c) && c.Index() !in db.queries
    requires StoredDecision(db, c).None? && AsksRouter(c.input, c.Index() in db.investigations)
    requires o.route.Some? ==> !OtherTool(c.input.mode, o.route.value.kind) && !Proper(o.route.value)
    ensures Serve(db, c, Arrived, o)
            == (WithRow(db, c), Refused(if o.route.None? then RouteUnavailable else InvalidRoute))
  {
    var kind := ProbedIs(db, c, o);
    var known := c.Index() in db.investigations;
    ChosenIff(c.input, known, o.route);
    ServeUnrolls(WithRow(db, c), c, Probed(None, None, known), o);
  }

  lemma ChosenIs(b: UnifiedInput, known: bool, route: Option<Decision>, d: Decision)
    requires Accepted(b) && Chosen(b, known, route, d)
    ensures Unified.Decide(b, None, known, route) == Ok(d) && Proper(d)
  {
    ChosenIff(b, known, route);
    SwitchModeIsValid();
    ProperIff(d);
  }

  /** The decision an execution serves: the stored one, and the one it chooses if none is stored. */
  predicate Serves(db: Db, c: Call, o: Outside, d: Decision) {
    match StoredDecision(db, c)
    case Some(stored) => d == stored
    case None => Chosen(c.input, c.Index() in db.investigations, o.route, d)
  }

  /** The tables once the decision is stored. */
  function Holding(db: Db, c: Call, d: Decision): Db {
    if StoredDecision(db, c).Some? then db
    else db.(requests := db.requests[c.Index() := Request(c.input, Some(d.kind), Some(d))])
  }

  lemma RoutedIs(db: Db, c: Call, o: Outside, d: Decision)
    requires !Taken(db, c) && StoredDecision(db, c).None?
    ensures Serve(WithRow(db, c), c, Routed(d), o) == Serve(Holding(db, c, d), c, Decided(d), o)
  {
    var row := WithRow(db, c);
    ServeUnrolls(row, c, Routed(d), o);
    assert Holding(db, c, d).requests
        == row.requests[c.Index() := row.requests[c.Index()].(decision := Some(d), kind := Some(d.kind))];
  }

  lemma DecidedIs(db: Db, c: Call, o: Outside, d: Decision)
    requires DbOk(db) && Accepted(c.input) && !Taken(db, c) && c.Index() !in db.queries && Serves(db, c, o, d)
    ensures Serve(db, c, Arrived, o) == Serve(Holding(db, c, d), c, Decided(d), o) && Proper(d)
  {
    var kind := ProbedIs(db, c, o);
    var row, known := WithRow(db, c), c.Index() in db.investigations;
    ServeUnrolls(row, c, Probed(StoredDecision(db, c), kind, known), o);
    if StoredDecision(db, c).Some? {
      assert RowOk(db.requests[c.Index()]);
      ProperIff(d);
    } else {
      ChosenIs(c.input, known, o.route, d);
      RoutedIs(db, c, o, d);
    }
  }

  /** The investigation of this key answers it, or a new one may be created. */
  predicate TaskServes(db: Db, c: Call, o: Outside, d: Decision) {
    if c.Index() in db.investigations
    then db.investigations[c.Index()].hash == NaturalHash(d.question, c.input.timezone) && o.member
    else o.plan.PlanReady? && o.admission.None?
  }

  /** Why a decision is not served: the first of these that holds. */
  function Obstacle(db: Db, c: Call, o: Outside, d: Decision): Failure
    requires (ForWarehouse(d) && (o.dataset ==> c.Index() !in db.queries))
             || (ForInvestigation(d) && !TaskServes(db, c, o, d)
                 && (c.Index() !in db.investigations ==> !o.plan.PlanAsks?))
  {
    if d.kind.WarehouseKind? then if o.dataset then TooManyQueries else DatasetForbidden
    else if c.Index() in db.investigations then
      if db.investigations[c.Index()].hash != NaturalHash(d.question, c.input.timezone) then PayloadConflict
      else TeamForbidden
    else if o.plan.PlanFailed? then PlannerFailed(o.plan.code) else TaskRefused(o.admission.GetOr(""))
  }

  /** What an accepted request without a stored query row is answered. An answer or a question back is said exactly when
      that was decided; a query is accepted exactly for a warehouse decision with access and fewer than five active
      queries; a task exactly for an investigation decision whose task exists for this question and its member, or is
      planned and admitted; the planner asks back for a new task only; anything else is the first obstacle. */
  lemma ExecutionReplies(db: Db, c: Call, o: Outside, d: Decision)
    requires DbOk(db) && Accepted(c.input) && !Taken(db, c) && c.Index() !in db.queries && Serves(db, c, o, d)
    ensures Proper(d)
    ensures var reply := Serve(db, c, Arrived, o).1;
            && (reply.Said? <==> Sayable(d)) && (reply.Said? ==> reply.decision == d)
            && (reply.QueryAccepted? <==> ForWarehouse(d) && o.dataset && |Waiting(db, c.subject)| < 5)
            && (reply.QueryAccepted? ==> reply.id == o.id && reply.question == d.question)
            && (reply.TaskAccepted? <==> ForInvestigation(d) && TaskServes(db, c, o, d))
            && (reply.TaskAccepted? ==>
                  reply.id == if c.Index() in db.investigations then db.investigations[c.Index()].id else o.id)
            && (reply.Asked? <==> ForInvestigation(d) && c.Index() !in db.investigations && o.plan.PlanAsks?)
            && (reply.Asked? ==> reply.clarification == o.plan.text)
            && (reply.Refused? ==> !Sayable(d) && reply.failure == Obstacle(db, c, o, d))
  {
    DecidedIs(db, c, o, d);
    var held := Holding(db, c, d);
    assert Waiting(held, c.subject) == Waiting(db, c.subject);
    if ForWarehouse(d) {
      QueryRule(held, c, d, o);
    } else if ForInvestigation(d) {
      TaskRule(held, c, d, o);
    } else {
      SaidRule(held, c, d, o);
    }
  }

  lemma ServedStores(db: Db, c: Call, o: Outside, d: Decision)
    requires Proper(d) && c.Index() !in db.queries
    ensures var (db', reply) := Serve(db, c, Decided(d), o);
            var k := c.Index();
            && db'.requests == db.requests
            && db'.queries == (if reply.QueryAccepted?
                               then db.queries[k := DataQuery(o.id, d.question, c.input, QueryQueued)] else db.queries)
            && db'.investigations
               == (if reply.TaskAccepted? && k !in db.investigations
                   then db.investigations[k := Investigated(o.id, NaturalHash(d.question, c.input.timezone))]
                   else db.investigations)
  {
    if ForWarehouse(d) {
      QueryRule(db, c, d, o);
    } else if ForInvestigation(d) {
      TaskRule(db, c, d, o);
    } else {
      SaidRule(db, c, d, o);
    }
  }

  /** What it leaves stored: the decision under the key, at most one new query or task of exactly this request, and
      nothing else. */
  lemma ExecutionStores(db: Db, c: Call, o: Outside, d: Decision)
    requires DbOk(db) && Accepted(c.input) && !Taken(db, c) && c.Index() !in db.queries && Serves(db, c, o, d)
    ensures var (db', reply) := Serve(db, c, Arrived, o);
            var k := c.Index();
            && k in db'.requests && db'.requests[k].hash == c.input && db'.requests[k].decision == Some(d)
            && (forall j :: j != k ==>
                  (j in db'.requests <==> j in db.requests) && (j in db.requests ==> db'.requests[j] == db.requests[j]))
            && db'.queries == (if reply.QueryAccepted?
                               then db.queries[k := DataQuery(o.id, d.question, c.input, QueryQueued)] else db.queries)
            && db'.investigations
               == (if reply.TaskAccepted? && k !in db.investigations
                   then db.investigations[k := Investigated(o.id, NaturalHash(d.question, c.input.timezone))]
                   else db.investigations)
  {
    DecidedIs(db, c, o, d);
    ServedStores(Holding(db, c, d), c, o, d);
    if StoredDecision(db, c).Some? {
      assert RowOk(db.requests[c.Index()]);
    }
  }
}
