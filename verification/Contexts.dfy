/** What the stored context of a turn can contain: nothing from before a reset, nothing the router would
    refuse, and nothing from a source its reader may no longer use. */
module Contexts {
  import opened Wrappers
  import opened History
  import opened Conversations
  import opened Dialogue

  // ---- resets ---------------------------------------------------------------------------

  predicate IsReset(t: Turn) {
    t.status.Completed? && t.response.Some? && t.response.value.reset
  }

  /** The anchor the k-th completed turn left. */
  predicate AnchoredBy(summary: Option<Anchor>, t: Turn) {
    && t.response.Some? && t.response.value.kind.Some?
    && summary == Some(AnchorOf(t.response.value.kind.value, t.response.value, t.createdAt, t.input.timezone))
  }

  predicate Climbing(done: seq<Turn>) {
    forall i, j :: 0 <= i < j < |done| ==> done[i].seqNo < done[j].seqNo
  }

  lemma DoneClimbs(c: Conv)
    requires ConvInv(c)
    ensures Climbing(Done(c.turns))
  {
    var done := Done(c.turns);
    DoneOf(c.turns);
    forall i, j | 0 <= i < j < |done| ensures done[i].seqNo < done[j].seqNo {
      var x :| 0 <= x < |c.turns| && c.turns[x] == done[i];
      var y :| 0 <= y < |c.turns| && c.turns[y] == done[j];
      assert y < x ==> Before(c.turns[y], c.turns[x]);
      assert x < y ==> Before(c.turns[x], c.turns[y]);
    }
  }

  lemma {:induction false} BoundaryAtLeast(done: seq<Turn>, k: nat)
    requires Climbing(done) && k < |done| && IsReset(done[k])
    ensures BoundaryOf(done) >= done[k].seqNo
    decreases |done|
  {
    var n := |done| - 1;
    if k < n && !(done[n].response.Some? && done[n].response.value.reset) {
      BoundaryAtLeast(done[..n], k);
    }
  }

  lemma {:induction false} SummarySince(done: seq<Turn>, k: nat)
    requires k < |done| && IsReset(done[k])
    ensures SummaryOf(done).None? || exists x :: k <= x < |done| && AnchoredBy(SummaryOf(done), done[x])
    decreases |done|
  {
    var n := |done| - 1;
    if done[n].response.Some? && done[n].response.value.kind.Some? {
      assert AnchoredBy(SummaryOf(done), done[n]);
    } else if k < n && !(done[n].response.Some? && done[n].response.value.reset) {
      SummarySince(done[..n], k);
      if SummaryOf(done).Some? {
        var x :| k <= x < n && AnchoredBy(SummaryOf(done[..n]), done[..n][x]);
        assert AnchoredBy(SummaryOf(done), done[x]);
      }
    }
  }

  lemma {:induction false} AfterIsAfter(ts: seq<Turn>, n: nat)
    ensures forall k :: 0 <= k < |After(ts, n)| ==> After(ts, n)[k].seqNo > n && After(ts, n)[k] in ts
  {
    if ts != [] {
      AfterIsAfter(ts[..|ts| - 1], n);
    }
  }

  /** Built from exchanges after a turn and an anchor from it or later. */
  predicate Cut(summary: Option<Anchor>, recent: seq<Turn>, done: seq<Turn>, reset: Turn) {
    && (forall k :: 0 <= k < |recent| ==> recent[k] in done && recent[k].seqNo > reset.seqNo)
    && (summary.None? || exists x :: reset.baseRevision <= x < |done| && AnchoredBy(summary, done[x]))
  }

  lemma PastIsCut(done: seq<Turn>, n: nat, reset: nat)
    requires Climbing(done) && reset < n <= |done| && IsReset(done[reset]) && done[reset].baseRevision == reset
    ensures Cut(SummaryOf(done[..n]), Recent(done[..n], BoundaryOf(done[..n])), done, done[reset])
  {
    var past := done[..n];
    BoundaryAtLeast(past, reset);
    SummarySince(past, reset);
    AfterIsAfter(past, BoundaryOf(past));
    if SummaryOf(past).Some? {
      var x :| reset <= x < |past| && AnchoredBy(SummaryOf(past), past[x]);
      assert AnchoredBy(SummaryOf(past), done[x]);
    }
  }

  /** Once a reset turn completed, the context of every turn built on it holds only exchanges that came after
      it, and an anchor only from a task requested at or after it. */
  lemma ResetCutsContext(t: Talk, steps: seq<Step>, i: nat, j: nat)
    requires Init(t) && Runs(t, steps)
    requires i < |Run(t, steps).conv.turns| && j < |Run(t, steps).conv.turns|
    requires var turns := Run(t, steps).conv.turns;
             IsReset(turns[i]) && turns[i].baseRevision < turns[j].baseRevision
    ensures var turns := Run(t, steps).conv.turns;
            exists summary, recent ::
              turns[j].history == Context(summary, recent) && Cut(summary, recent, Done(turns), turns[i])
  {
    ContextIsOfItsRevision(t, steps, j);
    InitInv(t);
    RunKeeps(t, steps);
    var c := Run(t, steps).conv;
    assert RowOk(c.turns[i], Done(c.turns));
    DoneClimbs(c);
    PastIsCut(Done(c.turns), c.turns[j].baseRevision, c.turns[i].baseRevision);
  }

  // ---- validity --------------------------------------------------------------------------

  /** What is checked of a reply before it is stored. */
  predicate ReplyChecked(r: Response) {
    ResponseChecked(r) && (r.kind.Some? ==> r.status.OtherStatus?)
  }

  predicate InputOk(b: Input) {
    !Blank(b.text) && |b.text| <= MAX_RUNES
  }

  /** What normalization checks of the input, and routing of the reply. */
  predicate Admitted(s: Step) {
    && (s.Reserve? ==> InputOk(s.input))
    && (s.Complete? ==> ReplyChecked(s.response))
  }

  predicate TextOk(t: Turn) {
    InputOk(t.input) && (t.status.Completed? ==> t.response.Some? && ReplyChecked(t.response.value))
  }

  predicate TextsOk(ts: seq<Turn>) {
    forall k {:trigger TextOk(ts[k])} :: 0 <= k < |ts| ==> TextOk(ts[k])
  }

  lemma ReserveTexts(c: Conv, now: int, who: Access, key: string, b: Input, id: string, fence: string, seqNo: nat,
      created: string)
    requires TextsOk(c.turns) && InputOk(b)
    ensures TextsOk(ReserveTx(c, now, who, key, b, id, fence, seqNo, created).0.turns)
  {
    var s := c.(turns := Sweep(c.turns, now));
    var d := ReserveTx(c, now, who, key, b, id, fence, seqNo, created).0;
    ReserveCases(c, now, who, key, b, id, fence, seqNo, created, s, d);
    forall k | 0 <= k < |d.turns| ensures TextOk(d.turns[k]) {
      assert k < |c.turns| ==> TextOk(c.turns[k]);
    }
  }

  lemma StepTexts(t: Talk, s: Step, u: Talk)
    requires TextsOk(t.conv.turns) && Admitted(s) && u == Apply(t, s)
    ensures TextsOk(u.conv.turns)
  {
    if s.Reserve? {
      ReserveTexts(t.conv, t.now, s.who, s.key, s.input, s.id, s.fence, s.seqNo, s.created);
    } else {
      forall k | 0 <= k < |u.conv.turns| ensures TextOk(u.conv.turns[k]) {
        assert TextOk(t.conv.turns[k]);
      }
    }
  }

  lemma {:induction false} RunTexts(t: Talk, steps: seq<Step>)
    requires TextsOk(t.conv.turns) && forall i :: 0 <= i < |steps| ==> Admitted(steps[i])
    ensures TextsOk(Run(t, steps).conv.turns)
    decreases |steps|
  {
    if steps != [] {
      StepTexts(t, steps[0], Apply(t, steps[0]));
      RunTexts(Apply(t, steps[0]), steps[1..]);
    }
  }

  lemma DoneTexts(ts: seq<Turn>, k: nat)
    requires TextsOk(ts) && k < |Done(ts)|
    ensures TextOk(Done(ts)[k]) && Done(ts)[k].status.Completed?
  {
    DoneOf(ts);
    var x :| 0 <= x < |ts| && ts[x] == Done(ts)[k];
    assert TextOk(ts[x]);
  }

  lemma {:induction false} AnchorTexts(done: seq<Turn>)
    requires forall k :: 0 <= k < |done| ==> TextOk(done[k]) && done[k].status.Completed?
    ensures AnchorOk(SummaryOf(done))
    decreases |done|
  {
    if done != [] {
      AnchorTexts(done[..|done| - 1]);
      assert TextOk(done[|done| - 1]);
    }
  }

  lemma {:induction false} AfterTexts(done: seq<Turn>, n: nat, k: nat)
    requires forall i :: 0 <= i < |done| ==> TextOk(done[i]) && done[i].status.Completed?
    requires k < |After(done, n)|
    ensures StoredChecked(After(done, n)[k])
    decreases |done|
  {
    var last := done[|done| - 1];
    var before := After(done[..|done| - 1], n);
    if k < |before| {
      AfterTexts(done[..|done| - 1], n, k);
    } else {
      assert After(done, n)[k] == last;
      assert TextOk(last);
    }
  }

  /** In every run, the frozen context of a turn passes the router's validation exactly when the header naming
      the anchor's time zone fits in a message and so does every clarification in the exchanges it keeps. */
  lemma FrozenContextValidIff(t: Talk, steps: seq<Step>, k: nat)
    requires Init(t) && Runs(t, steps) && k < |Run(t, steps).conv.turns|
    requires forall i :: 0 <= i < |steps| ==> Admitted(steps[i])
    ensures var turns := Run(t, steps).conv.turns;
            && turns[k].baseRevision <= |Done(turns)|
            && var past := Done(turns)[..turns[k].baseRevision];
               (Validation(turns[k].input.text, turns[k].history).None?
                <==> HeaderFits(SummaryOf(past))
                     && AllClarified(KeptTurns(SummaryOf(past), Recent(past, BoundaryOf(past)))))
  {
    ContextIsOfItsRevision(t, steps, k);
    RunTexts(t, steps);
    var turns := Run(t, steps).conv.turns;
    var u := turns[k];
    assert TextOk(u);
    var past := Done(turns)[..u.baseRevision];
    forall i | 0 <= i < |past| ensures TextOk(past[i]) && past[i].status.Completed? {
      DoneTexts(turns, i);
    }
    AnchorTexts(past);
    var recent := Recent(past, BoundaryOf(past));
    forall i | 0 <= i < |recent| ensures StoredChecked(recent[i]) {
      AfterTexts(past, BoundaryOf(past), |After(past, BoundaryOf(past))| - |recent| + i);
    }
    ContextValidIff(u.input.text, SummaryOf(past), recent);
  }

  // ---- access ------------------------------------------------------------------------------

  /** After a turn used a team's source, nobody without that team can reserve or complete in any later state. */
  lemma SourceGuardsConversation(t: Talk, s: Step, steps: seq<Step>, who: Access,
                                 key: string, b: Input, id: string, fence: string, seqNo: nat, created: string,
                                 tk: Ticket, r: Response, task: Option<TaskRow>)
    requires Inv(t) && s.Complete? && Enabled(t, s) && CompleteTx(t.conv, s.who, s.ticket, s.response, s.task).Ok?
    requires s.response.kind.Some? && s.task.value.team != "" && Runs(Apply(t, s), steps)
    requires s.task.value.team !in who.teams
             || (s.response.kind.value.Warehouse? && s.task.value.dataset != ""
                 && s.task.value.dataset !in who.datasets)
    ensures var u := Run(Apply(t, s), steps);
            && ReserveTx(u.conv, u.now, who, key, b, id, fence, seqNo, created) == (u.conv, Refused(NoRows))
            && CompleteTx(u.conv, who, tk, r, task) == Err(NoRows)
  {
    var v := Apply(t, s);
    StepKeeps(t, s, v);
    RunKeeps(v, steps);
    assert s.task.value.team in v.conv.teams;
    assert s.response.kind.value.Warehouse? && s.task.value.dataset != "" ==> s.task.value.dataset in v.conv.datasets;
  }

  /** Completing narrows the audience by exactly the source the reply came from. */
  lemma CompletionNarrowsAccess(c: Conv, who: Access, tk: Ticket, r: Response, task: Option<TaskRow>, d: Conv,
      other: Access)
    requires CompleteTx(c, who, tk, r, task) == Ok(d)
    ensures Visible(d, who)
    ensures Visible(d, other) <==>
            && Visible(c, other)
            && (r.kind.Some? && task.value.team != "" ==> task.value.team in other.teams)
            && (r.kind == Some(Warehouse) && task.value.dataset != "" ==> task.value.dataset in other.datasets)
  {
    forall t ensures t in d.teams <==> t in c.teams || (r.kind.Some? && task.value.team != "" && t == task.value.team) {
    }
  }

  // ---- admission ---------------------------------------------------------------------------

  predicate Live(ts: seq<Turn>, now: int) {
    exists k :: 0 <= k < |ts| && ts[k].status.Pending? && ts[k].leaseUntil >= now
  }

  /** A new message is admitted exactly when it is written against the current revision, no attempt is still
      leased and the conversation is not full: an abandoned attempt blocks nobody past its lease. */
  lemma NewMessageAdmittedIff(c: Conv, now: int, who: Access, key: string, b: Input, id: string, fence: string,
      seqNo: nat, created: string)
    requires forall k :: 0 <= k < |c.turns| ==> c.turns[k].idem != key
    ensures ReserveTx(c, now, who, key, b, id, fence, seqNo, created).1.Granted?
            <==> Visible(c, who) && b.revision == c.revision && !Live(c.turns, now) && |c.turns| < TURN_LIMIT
  {
    var swept := Sweep(c.turns, now);
    assert ByKey(swept, key).None?;
    if Live(c.turns, now) {
      var k :| 0 <= k < |c.turns| && c.turns[k].status.Pending? && c.turns[k].leaseUntil >= now;
      assert swept[k].status.Pending?;
    }
  }

  /** A granted attempt keeps every new message out for its lease, and not longer. */
  lemma GrantIsLeased(c: Conv, now: int, who: Access, key: string, b: Input, id: string, fence: string, seqNo: nat,
      created: string,
                      d: Conv, later: int)
    requires ConvInv(c) && NewDraw(c.turns, id, seqNo)
    requires ReserveTx(c, now, who, key, b, id, fence, seqNo, created).1.Granted?
    requires d == ReserveTx(c, now, who, key, b, id, fence, seqNo, created).0
    ensures Live(d.turns, later) <==> later <= now + LEASE
  {
    ReserveKeeps(c, now, who, key, b, id, fence, seqNo, created, d);
    var reply := ReserveTx(c, now, who, key, b, id, fence, seqNo, created).1;
    var k := GrantedRow(c, now, who, key, b, id, fence, seqNo, created, d, reply);
    OnlyLease(d.turns, k, later);
  }

  lemma OnlyLease(ts: seq<Turn>, k: nat, later: int)
    requires OnePending(ts) && k < |ts| && ts[k].status.Pending?
    ensures Live(ts, later) <==> later <= ts[k].leaseUntil
  {
    forall j | 0 <= j < |ts| && j != k ensures !ts[j].status.Pending? {
      assert NotBothPending(ts[if j < k then j else k], ts[if j < k then k else j]);
    }
  }
}
