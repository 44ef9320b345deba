/** Conversations that cannot go on: once the context of the current revision fails the router's validation, no
    turn is ever completed again. Two short conversations get there. */
module Impasse {
  import opened Wrappers
  import opened History
  import opened Conversations
  import opened Dialogue
  import Contexts

  // ---- stuck for good ---------------------------------------------------------------------------

  /** What validation asks of the context, whatever the new message says. */
  predicate HistoryValid(history: seq<Message>) {
    |history| <= MAX_MESSAGES && AllOk(history) && Size(history) <= MAX_TOTAL
  }

  lemma ValidationSplits(text: string, history: seq<Message>)
    ensures Validation(text, history).None? <==> 1 <= |text| <= MAX_RUNES && HistoryValid(history)
  {
    if 1 <= |text| <= MAX_RUNES && |history| <= MAX_MESSAGES {
      ValidIffAllOk(text, history);
    }
  }

  /** The context every turn of the current revision is given. */
  function Current(t: Talk): seq<Message> {
    FrozenAt(Done(t.conv.turns))
  }

  lemma TicketContext(t: Talk, tk: Ticket)
    requires Inv(t) && tk in t.held && tk.baseRevision == t.conv.revision
    ensures tk.history == Current(t)
  {
    var i :| 0 <= i < |t.held| && t.held[i] == tk;
    var k :| 0 <= k < |t.conv.turns| && Fits(tk, t.conv.turns[k]);
    assert RowOk(t.conv.turns[k], Done(t.conv.turns));
    assert Done(t.conv.turns)[..t.conv.revision] == Done(t.conv.turns);
  }

  lemma StuckStep(t: Talk, s: Step)
    requires Inv(t) && Enabled(t, s) && !HistoryValid(Current(t))
    ensures Apply(t, s).conv.revision == t.conv.revision
  {
    if s.Complete? {
      CompletesNothing(t, s);
    }
  }

  lemma CompletesNothing(t: Talk, s: Step)
    requires Inv(t) && Enabled(t, s) && s.Complete? && !HistoryValid(Current(t))
    ensures Apply(t, s) == t
  {
    ValidationSplits(s.ticket.input.text, s.ticket.history);
    if s.ticket.baseRevision == t.conv.revision {
      TicketContext(t, s.ticket);
    }
  }

  lemma SameDone(t: Talk, u: Talk)
    requires Inv(t) && Inv(u) && Later(t, u) && u.conv.revision == t.conv.revision
    ensures Done(u.conv.turns) == Done(t.conv.turns)
  {
  }

  /** Once the context of the current revision is invalid, no turn is completed any more: neither a reset nor
      any other message leads out. */
  lemma {:induction false} StuckForGood(t: Talk, steps: seq<Step>)
    requires Inv(t) && Runs(t, steps) && !HistoryValid(Current(t))
    ensures Run(t, steps).conv.revision == t.conv.revision && Done(Run(t, steps).conv.turns) == Done(t.conv.turns)
    decreases |steps|
  {
    if steps != [] {
      var u := Apply(t, steps[0]);
      StepKeeps(t, steps[0], u);
      StuckStep(t, steps[0]);
      SameDone(t, u);
      StuckForGood(u, steps[1..]);
    }
  }

  // ---- and only then -------------------------------------------------------------------------------

  /** A time at which no lease is left. */
  function AfterLeases(turns: seq<Turn>, now: int): (later: int)
    ensures now <= later && forall k :: 0 <= k < |turns| ==> turns[k].leaseUntil < later
  {
    if turns == [] then now
    else
      var before, last := AfterLeases(turns[..|turns| - 1], now), turns[|turns| - 1];
      Max(before, last.leaseUntil + 1)
  }

  const THANKS := Response(None, AnswerStatus, "ok", "", "", "", false)

  function Hello(revision: nat): Input {
    Input("hello", "UTC", "auto", revision)
  }

  function TicketFor(t: Talk, id: string, fence: string, seqNo: nat): Ticket {
    Ticket(id, seqNo, t.conv.revision, Hello(t.conv.revision), Current(t), HasAnchor(t.conv.summary), fence, "")
  }

  /** Once the leases are over, a message is reserved and answered. */
  function WayOn(t: Talk, who: Access, key: string, id: string, fence: string, seqNo: nat): seq<Step> {
    [Tick(AfterLeases(t.conv.turns, t.now)),
     Reserve(who, key, Hello(t.conv.revision), id, fence, seqNo, ""),
     Complete(who, TicketFor(t, id, fence, seqNo), THANKS, None)]
  }

  /** The draws are new, the key is unused, and there is room for one more turn. */
  predicate Free(t: Talk, who: Access, key: string, id: string, fence: string, seqNo: nat) {
    && Visible(t.conv, who) && fence !in t.fences && NewDraw(t.conv.turns, id, seqNo)
    && |t.conv.turns| < TURN_LIMIT && forall k :: 0 <= k < |t.conv.turns| ==> t.conv.turns[k].idem != key
  }

  lemma SweptIsSame(c: Conv, now: int)
    requires ConvInv(c)
    ensures ConvInv(c.(turns := Sweep(c.turns, now))) && Done(Sweep(c.turns, now)) == Done(c.turns)
  {
    SweepKeeps(c, now, c.(turns := Sweep(c.turns, now)));
  }

  lemma TicketIs(t: Talk, key: string, id: string, fence: string, seqNo: nat)
    requires Inv(t)
    ensures var swept := t.conv.(turns := Sweep(t.conv.turns, t.now));
            TicketOf(Fresh(swept, t.now, key, Hello(t.conv.revision), id, fence, seqNo, ""))
            == TicketFor(t, id, fence, seqNo)
  {
    SweptIsSame(t.conv, t.now);
  }

  lemma Grants(c: Conv, now: int, who: Access, key: string, b: Input, id: string, fence: string, seqNo: nat,
               created: string)
    requires Visible(c, who) && b.revision == c.revision && |c.turns| < TURN_LIMIT && !Contexts.Live(c.turns, now)
    requires forall k :: 0 <= k < |c.turns| ==> c.turns[k].idem != key
    ensures var swept := c.(turns := Sweep(c.turns, now));
            var f := Fresh(swept, now, key, b, id, fence, seqNo, created);
            ReserveTx(c, now, who, key, b, id, fence, seqNo, created)
            == (swept.(turns := swept.turns + [f]), Granted(TicketOf(f)))
  {
    assert ByKey(Sweep(c.turns, now), key).None?;
    assert !AnyPending(Sweep(c.turns, now));
  }

  lemma ReservesOn(t: Talk, who: Access, key: string, id: string, fence: string, seqNo: nat)
    requires Inv(t) && Free(t, who, key, id, fence, seqNo) && !Contexts.Live(t.conv.turns, t.now)
    ensures var s := Reserve(who, key, Hello(t.conv.revision), id, fence, seqNo, "");
            var u := Apply(t, s);
            && Enabled(t, s) && u.conv.revision == t.conv.revision && Visible(u.conv, who)
            && TicketFor(t, id, fence, seqNo) in u.held && OpenAt(u.conv.turns, id, fence).Some?
  {
    var b := Hello(t.conv.revision);
    Grants(t.conv, t.now, who, key, b, id, fence, seqNo, "");
    TicketIs(t, key, id, fence, seqNo);
    var u := Apply(t, Reserve(who, key, b, id, fence, seqNo, ""));
    assert u.held[|t.held|] == TicketFor(t, id, fence, seqNo);
    assert IsOpen(u.conv.turns[|t.conv.turns|], id, fence);
  }

  lemma AnswersOn(t: Talk, who: Access, tk: Ticket)
    requires Inv(t) && tk in t.held && Validation(tk.input.text, tk.history).None?
    requires Visible(t.conv, who) && tk.baseRevision == t.conv.revision && OpenAt(t.conv.turns, tk.id, tk.fence).Some?
    ensures Enabled(t, Complete(who, tk, THANKS, None))
    ensures Apply(t, Complete(who, tk, THANKS, None)).conv.revision == t.conv.revision + 1
  {
  }

  lemma AnswersNext(t: Talk, who: Access, key: string, id: string, fence: string, seqNo: nat)
    requires Inv(t) && Free(t, who, key, id, fence, seqNo) && !Contexts.Live(t.conv.turns, t.now)
    requires HistoryValid(Current(t))
    ensures var s := Reserve(who, key, Hello(t.conv.revision), id, fence, seqNo, "");
            var c := Complete(who, TicketFor(t, id, fence, seqNo), THANKS, None);
            && Enabled(t, s) && Enabled(Apply(t, s), c)
            && Apply(Apply(t, s), c).conv.revision == t.conv.revision + 1
  {
    var s := Reserve(who, key, Hello(t.conv.revision), id, fence, seqNo, "");
    ReservesOn(t, who, key, id, fence, seqNo);
    StepKeeps(t, s, Apply(t, s));
    ValidationSplits("hello", Current(t));
    AnswersOn(Apply(t, s), who, TicketFor(t, id, fence, seqNo));
  }

  /** As long as the context of the current revision is valid, a message gets through. */
  lemma WayOnWorks(t: Talk, who: Access, key: string, id: string, fence: string, seqNo: nat)
    requires Inv(t) && Free(t, who, key, id, fence, seqNo) && HistoryValid(Current(t))
    ensures var steps := WayOn(t, who, key, id, fence, seqNo);
            Runs(t, steps) && Run(t, steps).conv.revision == t.conv.revision + 1
  {
    var steps := WayOn(t, who, key, id, fence, seqNo);
    var t1 := Apply(t, steps[0]);
    AnswersNext(t1, who, key, id, fence, seqNo);
    StepThen(Apply(t1, steps[1]), steps[2], []);
    StepThen(t1, steps[1], [steps[2]]);
    StepThen(t, steps[0], [steps[1], steps[2]]);
    assert steps == [steps[0]] + [steps[1], steps[2]] && [steps[1], steps[2]] == [steps[1]] + [steps[2]];
    assert [steps[2]] == [steps[2]] + [];
  }

  lemma StepThen(t: Talk, s: Step, rest: seq<Step>)
    requires Enabled(t, s) && Runs(Apply(t, s), rest)
    ensures Runs(t, [s] + rest) && Run(t, [s] + rest) == Run(Apply(t, s), rest)
  {
    assert ([s] + rest)[1..] == rest;
  }

  /** A conversation with room for a turn can go on exactly when the context of its current revision is valid. */
  lemma GoesOnIff(t: Talk, who: Access, key: string, id: string, fence: string, seqNo: nat)
    requires Inv(t) && Free(t, who, key, id, fence, seqNo)
    ensures (exists steps: seq<Step> :: Runs(t, steps) && Run(t, steps).conv.revision > t.conv.revision)
            <==> HistoryValid(Current(t))
  {
    if HistoryValid(Current(t)) {
      WayOnWorks(t, who, key, id, fence, seqNo);
    } else {
      forall steps: seq<Step> | Runs(t, steps) ensures Run(t, steps).conv.revision == t.conv.revision {
        StuckForGood(t, steps);
      }
    }
  }

  // ---- two ways there ----------------------------------------------------------------------------------

  const ANN := Access("ann", {"payments"}, {})
  const NEW := Talk(Start("ann"), 0, {}, [])

  /** The first turn of a conversation. */
  function FirstTurn(b: Input): Turn {
    Turn("t1", 1, "k1", 0, b, [], false, Pending, None, "", "f1", LEASE, "noon")
  }

  function Opened(b: Input): Talk {
    Talk(Start("ann").(turns := [FirstTurn(b)]), 0, {"f1"}, [TicketOf(FirstTurn(b))])
  }

  lemma Opens(b: Input)
    requires b.revision == 0
    ensures var s := Reserve(ANN, "k1", b, "t1", "f1", 1, "noon");
            Init(NEW) && Enabled(NEW, s) && Apply(NEW, s) == Opened(b)
  {
    assert Sweep([], 0) == [];
    assert NEW.fences + {"f1"} == {"f1"};
    FirstContext(b);
    Grants(NEW.conv, 0, ANN, "k1", b, "t1", "f1", 1, "noon");
  }

  lemma FirstContext(b: Input)
    ensures Fresh(Start("ann"), 0, "k1", b, "t1", "f1", 1, "noon") == FirstTurn(b)
  {
    assert Recent(Done([]), 0) == [];
    assert Context(None, []) == [];
  }

  /** A first reply that the database accepts. */
  predicate Acceptable(b: Input, r: Response, task: Option<TaskRow>) {
    && b.revision == 0 && 1 <= |b.text| <= MAX_RUNES && !r.reset
    && (r.kind.Some? ==> SourceOf(ANN, r, task).Some?)
  }

  lemma Replies(b: Input, r: Response, task: Option<TaskRow>)
    requires Acceptable(b, r, task)
    ensures var s := Complete(ANN, TicketOf(FirstTurn(b)), r, task);
            var t := Apply(Opened(b), s);
            && Enabled(Opened(b), s) && t.conv.revision == 1 && t.conv.turns == [Answered(FirstTurn(b), r)]
            && t.now == 0 && t.fences == {"f1"} && t.conv.subject == "ann"
            && t.conv.summary == NextSummary(None, r, "noon", b.timezone) && t.conv.contextAfter == 0
  {
    ValidationSplits(b.text, []);
    assert OpenAt([FirstTurn(b)], "t1", "f1") == Some(0);
  }

  /** The steps of a first exchange, and the reservation of the next turn. */
  function Exchange(b: Input, r: Response, task: Option<TaskRow>): seq<Step> {
    [Reserve(ANN, "k1", b, "t1", "f1", 1, "noon"), Complete(ANN, TicketOf(FirstTurn(b)), r, task)]
  }

  function AfterExchange(b: Input, r: Response, task: Option<TaskRow>): Talk {
    Apply(Opened(b), Complete(ANN, TicketOf(FirstTurn(b)), r, task))
  }

  lemma Exchanged(b: Input, r: Response, task: Option<TaskRow>)
    requires Acceptable(b, r, task)
    ensures var t := AfterExchange(b, r, task);
            && Runs(NEW, Exchange(b, r, task)) && Run(NEW, Exchange(b, r, task)) == t && Inv(t)
            && Current(t) == Context(NextSummary(None, r, "noon", b.timezone), [Answered(FirstTurn(b), r)])
  {
    var steps := Exchange(b, r, task);
    Opens(b);
    Replies(b, r, task);
    StepThen(Opened(b), steps[1], []);
    StepThen(NEW, steps[0], [steps[1]]);
    assert steps == [steps[0]] + [steps[1]] && [steps[1]] == [steps[1]] + [];
    InitInv(NEW);
    RunKeeps(NEW, steps);
    OneDone(Answered(FirstTurn(b), r), AfterExchange(b, r, task).conv.contextAfter);
  }

  lemma OneDone(u: Turn, boundary: nat)
    requires u.status.Completed? && u.seqNo > boundary
    ensures Done([u]) == [u] && Recent([u], boundary) == [u]
  {
    assert [u][..0] == [];
    assert After([], boundary) == [];
    assert After([u], boundary) == [u];
  }

  ghost predicate GoesNowhere(t: Talk) {
    forall more: seq<Step> :: Runs(t, more) ==> Run(t, more).conv.revision == t.conv.revision
  }

  /** The next message is still given a ticket, with a context that the router refuses. */
  ghost predicate NextRefused(t: Talk) {
    var s := Reserve(ANN, "k2", Hello(t.conv.revision), "t2", "f2", 2, "");
    && Enabled(t, s)
    && var tk := TicketFor(t, "t2", "f2", 2);
    tk in Apply(t, s).held && Validation(tk.input.text, tk.history).Some?
  }

  lemma InvalidIsStuck(b: Input, r: Response, task: Option<TaskRow>)
    requires Acceptable(b, r, task) && Visible(AfterExchange(b, r, task).conv, ANN)
    requires !HistoryValid(Current(AfterExchange(b, r, task)))
    ensures var t := Run(NEW, Exchange(b, r, task)); Init(NEW) && GoesNowhere(t) && NextRefused(t)
  {
    Exchanged(b, r, task);
    Replies(b, r, task);
    RoomForMore(AfterExchange(b, r, task), Answered(FirstTurn(b), r));
    InvalidStops(AfterExchange(b, r, task));
  }

  lemma RoomForMore(t: Talk, u: Turn)
    requires t.conv.turns == [u] && u.status.Completed? && u.id == "t1" && u.seqNo == 1 && u.idem == "k1"
    requires t.fences == {"f1"} && Visible(t.conv, ANN)
    ensures Free(t, ANN, "k2", "t2", "f2", 2) && !Contexts.Live(t.conv.turns, t.now)
  {
  }

  lemma InvalidStops(t: Talk)
    requires Inv(t) && Free(t, ANN, "k2", "t2", "f2", 2) && !Contexts.Live(t.conv.turns, t.now)
    requires !HistoryValid(Current(t))
    ensures GoesNowhere(t) && NextRefused(t)
  {
    forall more: seq<Step> | Runs(t, more) ensures Run(t, more).conv.revision == t.conv.revision {
      StuckForGood(t, more);
    }
    ReservesOn(t, ANN, "k2", "t2", "f2", 2);
    ValidationSplits("hello", Current(t));
  }

  lemma BadClarificationSticks(b: Input, r: Response)
    requires Acceptable(b, r, None) && r.kind.None? && r.status.ClarificationStatus? && r.question == ""
    requires Blank(r.clarification) || |r.clarification| > MAX_RUNES
    ensures var t := Run(NEW, Exchange(b, r, None));
            Init(NEW) && Runs(NEW, Exchange(b, r, None)) && GoesNowhere(t) && NextRefused(t)
  {
    Exchanged(b, r, None);
    Replies(b, r, None);
    BadClarificationBreaks("hello", None, [Answered(FirstTurn(b), r)]);
    ValidationSplits("hello", Current(AfterExchange(b, r, None)));
    InvalidIsStuck(b, r, None);
  }

  /** The planner asks back with nothing but a space: the reply is stored, and the conversation is over. */
  lemma BlankClarificationSticks()
    ensures var steps := Exchange(Hello(0), Response(None, ClarificationStatus, "", " ", "", "", false), None);
            Init(NEW) && Runs(NEW, steps) && GoesNowhere(Run(NEW, steps)) && NextRefused(Run(NEW, steps))
  {
    assert Blank(" ");
    BadClarificationSticks(Hello(0), Response(None, ClarificationStatus, "", " ", "", "", false));
  }

  lemma LongHeaderSticks(b: Input, r: Response, task: Option<TaskRow>)
    requires Acceptable(b, r, task) && r.kind.Some? && r.question != ""
    requires |HEADER + "noon" + HEADER_ZONE + b.timezone| > MAX_RUNES
    requires Visible(AfterExchange(b, r, task).conv, ANN)
    ensures var t := Run(NEW, Exchange(b, r, task));
            Init(NEW) && Runs(NEW, Exchange(b, r, task)) && GoesNowhere(t) && NextRefused(t)
  {
    Exchanged(b, r, task);
    var a := NextSummary(None, r, "noon", b.timezone);
    assert !MessageOk(Message(Assistant, AnchorHeader(a.value)));
    OneBadMessage("hello", Context(a, [Answered(FirstTurn(b), r)]), 0);
    ValidationSplits("hello", Current(AfterExchange(b, r, task)));
    InvalidIsStuck(b, r, task);
  }

  /** The name of a zone, the long way: "./" a thousand times and "UTC". */
  const LONG_ZONE: string := seq(2000, k => if k % 2 == 0 then '.' else '/') + "UTC"

  /** A tool question is asked in a zone with a long name: its header is longer than a message may be. */
  lemma LongZoneSticks()
    ensures var b := Input("hello", LONG_ZONE, "auto", 0);
            var r := Response(Some(Investigation), OtherStatus, "", "", "what failed?", "i1", false);
            var steps := Exchange(b, r, Some(TaskRow("ann", "payments", "")));
            Init(NEW) && Runs(NEW, steps) && GoesNowhere(Run(NEW, steps)) && NextRefused(Run(NEW, steps))
  {
    LongHeaderSticks(Input("hello", LONG_ZONE, "auto", 0),
                     Response(Some(Investigation), OtherStatus, "", "", "what failed?", "i1", false),
                     Some(TaskRow("ann", "payments", "")));
  }
}
