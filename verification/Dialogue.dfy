/** Every run of one conversation: any number of tabs reserve, fail and complete turns while leases expire
    and memberships come and go. */
module Dialogue {
  import opened Wrappers
  import opened History
  import opened Conversations

  /** The stored conversation, the clock, the fences drawn so far, and the tickets callers still hold. */
  datatype Talk = Talk(conv: Conv, now: int, fences: set<string>, held: seq<Ticket>)

  datatype Step =
    | Tick(now: int)
    | Reserve(who: Access, key: string, input: Input, id: string, fence: string, seqNo: nat, created: string)
    | Fail(ticket: Ticket, code: string)
    | Complete(who: Access, ticket: Ticket, response: Response, task: Option<TaskRow>)

  /** Drawn ids and fences are new, the sequence only climbs, and callers present tickets they were given. A reply
      is only computed for a context that passes the router's validation. */
  predicate Enabled(t: Talk, s: Step) {
    match s
    case Tick(now) => t.now <= now
    case Reserve(_, _, _, id, fence, seqNo, _) =>
      fence !in t.fences && NewDraw(t.conv.turns, id, seqNo)
    case Fail(ticket, _) => ticket in t.held
    case Complete(_, ticket, _, _) => ticket in t.held && Validation(ticket.input.text, ticket.history).None?
  }

  function Apply(t: Talk, s: Step): Talk {
    match s
    case Tick(now) => t.(now := now)
    case Reserve(who, key, input, id, fence, seqNo, created) =>
      var (c, reply) := ReserveTx(t.conv, t.now, who, key, input, id, fence, seqNo, created);
      if reply.Granted? then Talk(c, t.now, t.fences + {fence}, t.held + [reply.ticket]) else t.(conv := c)
    case Fail(ticket, code) => t.(conv := FailTx(t.conv, ticket, code))
    case Complete(who, ticket, response, task) =>
      (match CompleteTx(t.conv, who, ticket, response, task)
       case Ok(c) => t.(conv := c)
       case Err(_) => t)
  }

  predicate Runs(t: Talk, steps: seq<Step>)
    decreases |steps|
  {
    steps == [] || (Enabled(t, steps[0]) && Runs(Apply(t, steps[0]), steps[1..]))
  }

  function Run(t: Talk, steps: seq<Step>): Talk
    decreases |steps|
  {
    if steps == [] then t else Run(Apply(t, steps[0]), steps[1..])
  }

  predicate Init(t: Talk) {
    t.conv == Start(t.conv.subject) && t.held == []
  }

  // ---- what the completed turns determine ---------------------------------------------

  /** The summary column as a function of the completed turns. */
  function SummaryOf(done: seq<Turn>): Option<Anchor> {
    if done == [] then None
    else
      var last := done[|done| - 1];
      var before := SummaryOf(done[..|done| - 1]);
      if last.response.None? then before
      else NextSummary(before, last.response.value, last.createdAt, last.input.timezone)
  }

  /** The context boundary as a function of the completed turns. */
  function BoundaryOf(done: seq<Turn>): nat {
    if done == [] then 0
    else
      var last := done[|done| - 1];
      if last.response.Some? && last.response.value.reset then last.seqNo else BoundaryOf(done[..|done| - 1])
  }

  function FrozenAt(done: seq<Turn>): seq<Message> {
    Context(SummaryOf(done), Recent(done, BoundaryOf(done)))
  }

  // ---- the invariant --------------------------------------------------------------------

  predicate Before(t: Turn, u: Turn) {
    t.seqNo < u.seqNo && t.baseRevision <= u.baseRevision && t.id != u.id && t.idem != u.idem
  }

  predicate Ordered(ts: seq<Turn>) {
    forall i, j {:trigger Before(ts[i], ts[j])} :: 0 <= i < j < |ts| ==> Before(ts[i], ts[j])
  }

  predicate NotBothPending(t: Turn, u: Turn) {
    !(t.status.Pending? && u.status.Pending?)
  }

  predicate OnePending(ts: seq<Turn>) {
    forall i, j {:trigger NotBothPending(ts[i], ts[j])} :: 0 <= i < j < |ts| ==> NotBothPending(ts[i], ts[j])
  }

  /** One completed turn for each base revision, in order. */
  predicate Linear(done: seq<Turn>, revision: nat) {
    |done| == revision && forall k :: 0 <= k < |done| ==> done[k].baseRevision == k && done[k].response.Some?
  }

  predicate Frozen(t: Turn, done: seq<Turn>)
    requires t.baseRevision <= |done|
  {
    && t.history == FrozenAt(done[..t.baseRevision])
    && t.hasAnchor == HasAnchor(SummaryOf(done[..t.baseRevision]))
  }

  predicate RowOk(t: Turn, done: seq<Turn>) {
    && 0 < t.seqNo && t.baseRevision <= |done|
    && (t.status.Pending? ==> t.baseRevision == |done|)
    && (t.status.Completed? ==> t.baseRevision < |done| && t == done[t.baseRevision])
    && Frozen(t, done)
  }

  predicate RowsOk(ts: seq<Turn>, done: seq<Turn>) {
    forall k {:trigger RowOk(ts[k], done)} :: 0 <= k < |ts| ==> RowOk(ts[k], done)
  }

  predicate ConvInv(c: Conv) {
    && Ordered(c.turns) && OnePending(c.turns) && |c.turns| <= TURN_LIMIT
    && Linear(Done(c.turns), c.revision)
    && c.summary == SummaryOf(Done(c.turns)) && c.contextAfter == BoundaryOf(Done(c.turns))
    && RowsOk(c.turns, Done(c.turns))
  }

  predicate Fits(tk: Ticket, t: Turn) {
    && tk.id == t.id && tk.seqNo == t.seqNo && tk.baseRevision == t.baseRevision && tk.input == t.input
    && tk.history == t.history && tk.hasAnchor == t.hasAnchor && tk.createdAt == t.createdAt
  }

  predicate HeldOk(tk: Ticket, ts: seq<Turn>) {
    exists k :: 0 <= k < |ts| && Fits(tk, ts[k])
  }

  predicate Inv(t: Talk) {
    && ConvInv(t.conv)
    && (forall k :: 0 <= k < |t.conv.turns| ==> t.conv.turns[k].fence in t.fences)
    && (forall i :: 0 <= i < |t.held| ==> HeldOk(t.held[i], t.conv.turns) && t.held[i].fence in t.fences)
  }

  // ---- what every step keeps --------------------------------------------------------------

  /** What never changes in a row; a completed row never changes at all. */
  predicate Same(t: Turn, u: Turn) {
    && t.id == u.id && t.seqNo == u.seqNo && t.idem == u.idem && t.baseRevision == u.baseRevision && t.input == u.input
    && t.history == u.history && t.hasAnchor == u.hasAnchor && t.createdAt == u.createdAt
    && (t.status.Completed? ==> t == u)
  }

  predicate Extends(ts: seq<Turn>, us: seq<Turn>) {
    |ts| <= |us| && forall k {:trigger Same(ts[k], us[k])} :: 0 <= k < |ts| ==> Same(ts[k], us[k])
  }

  predicate Evolves(c: Conv, d: Conv) {
    && c.subject == d.subject && c.revision <= d.revision && c.contextAfter <= d.contextAfter
    && Extends(c.turns, d.turns) && Done(c.turns) <= Done(d.turns)
    && (forall x :: x in c.teams ==> x in d.teams)
    && (forall x :: x in c.datasets ==> x in d.datasets)
  }

  lemma {:induction false} DoneOf(ts: seq<Turn>)
    ensures |Done(ts)| <= |ts|
    ensures forall i :: 0 <= i < |Done(ts)| ==> Done(ts)[i].status.Completed? && Done(ts)[i] in ts
  {
    if ts != [] {
      DoneOf(ts[..|ts| - 1]);
    }
  }

  lemma {:induction false} DoneUnchanged(ts: seq<Turn>, us: seq<Turn>)
    requires |ts| == |us|
    requires forall k :: 0 <= k < |ts| ==> Moved(ts[k], us[k])
    ensures Done(us) == Done(ts)
  {
    if ts != [] {
      DoneUnchanged(ts[..|ts| - 1], us[..|us| - 1]);
    }
  }

  /** Completing a turn with no completed turn after it appends it. */
  lemma {:induction false} DoneAppends(ts: seq<Turn>, k: nat, t: Turn)
    requires k < |ts| && t.status.Completed?
    requires forall j :: k <= j < |ts| ==> !ts[j].status.Completed?
    ensures Done(ts[k := t]) == Done(ts) + [t]
  {
    var us := ts[k := t];
    var n := |ts| - 1;
    if k == n {
      assert us[..n] == ts[..n];
    } else {
      DoneAppends(ts[..n], k, t);
      assert us[..n] == ts[..n][k := t];
    }
  }

  lemma BoundaryWithin(done: seq<Turn>, n: nat)
    requires forall k :: 0 <= k < |done| ==> done[k].seqNo <= n
    ensures BoundaryOf(done) <= n
  {
    if done != [] {
      BoundaryWithin(done[..|done| - 1], n);
    }
  }

  /** A row stays right when the completed list grows. */
  lemma RowGrows(t: Turn, done: seq<Turn>, more: seq<Turn>)
    requires RowOk(t, done) && !t.status.Pending?
    ensures RowOk(t, done + more)
  {
    assert (done + more)[..t.baseRevision] == done[..t.baseRevision];
  }

  /** A row that moved between pending and failed. */
  predicate Moved(t: Turn, u: Turn) {
    Same(t, u) && (u.status.Completed? ==> t.status.Completed?)
  }

  lemma MovedRow(t: Turn, u: Turn, done: seq<Turn>)
    requires RowOk(t, done) && Moved(t, u) && (u.status.Pending? ==> u.baseRevision == |done|)
    ensures RowOk(u, done)
  {
  }

  lemma MovesOrder(ts: seq<Turn>, us: seq<Turn>)
    requires Ordered(ts) && |us| == |ts| && forall k :: 0 <= k < |us| ==> Moved(ts[k], us[k])
    ensures Ordered(us)
  {
    forall i, j | 0 <= i < j < |us| ensures Before(us[i], us[j]) {
      assert Before(ts[i], ts[j]) && Moved(ts[i], us[i]) && Moved(ts[j], us[j]);
    }
  }

  /** Statements that only move unfinished rows between pending and failed. */
  lemma MovesKeep(c: Conv, us: seq<Turn>, d: Conv)
    requires ConvInv(c) && |us| == |c.turns| && OnePending(us) && d == c.(turns := us)
    requires forall k :: 0 <= k < |us| ==> Moved(c.turns[k], us[k])
    requires forall k :: 0 <= k < |us| && us[k].status.Pending? ==> us[k].baseRevision == c.revision
    ensures ConvInv(d) && Evolves(c, d)
  {
    assert forall k :: 0 <= k < |us| ==> Moved(c.turns[k], us[k]);
    DoneUnchanged(c.turns, us);
    MovesOrder(c.turns, us);
    forall k | 0 <= k < |us| ensures RowOk(us[k], Done(us)) {
      assert RowOk(c.turns[k], Done(c.turns));
      MovedRow(c.turns[k], us[k], Done(us));
    }
    forall k | 0 <= k < |us| ensures Same(c.turns[k], us[k]) {
      assert Moved(c.turns[k], us[k]);
    }
  }

  lemma PendingIsCurrent(c: Conv, k: nat)
    requires ConvInv(c) && k < |c.turns| && c.turns[k].status.Pending?
    ensures c.turns[k].baseRevision == c.revision
  {
    assert RowOk(c.turns[k], Done(c.turns));
  }

  lemma SweepKeeps(c: Conv, now: int, s: Conv)
    requires ConvInv(c) && s == c.(turns := Sweep(c.turns, now))
    ensures ConvInv(s) && Evolves(c, s)
  {
    var us := s.turns;
    forall k | 0 <= k < |us| && us[k].status.Pending? ensures us[k].baseRevision == c.revision {
      PendingIsCurrent(c, k);
    }
    forall i, j | 0 <= i < j < |us| ensures NotBothPending(us[i], us[j]) {
      assert NotBothPending(c.turns[i], c.turns[j]);
    }
    MovesKeep(c, us, s);
  }

  lemma RetryKeeps(c: Conv, k: nat, now: int, fence: string, d: Conv)
    requires ConvInv(c) && k < |c.turns| && c.turns[k].status.Failed? && !AnyPending(c.turns)
    requires c.turns[k].baseRevision == c.revision && d == c.(turns := c.turns[k := Retried(c.turns[k], now, fence)])
    ensures ConvInv(d) && Evolves(c, d)
  {
    MovesKeep(c, d.turns, d);
  }

  lemma FailKeeps(c: Conv, tk: Ticket, code: string, d: Conv)
    requires ConvInv(c) && d == FailTx(c, tk, code)
    ensures ConvInv(d) && Evolves(c, d)
  {
    if OpenAt(c.turns, tk.id, tk.fence).Some? {
      var us := d.turns;
      forall j | 0 <= j < |us| && us[j].status.Pending? ensures us[j].baseRevision == c.revision {
        PendingIsCurrent(c, j);
      }
      forall i, j | 0 <= i < j < |us| ensures NotBothPending(us[i], us[j]) {
        assert NotBothPending(c.turns[i], c.turns[j]);
      }
      MovesKeep(c, us, d);
    }
  }

  lemma OrderedAppend(ts: seq<Turn>, t: Turn)
    requires Ordered(ts) && forall k :: 0 <= k < |ts| ==> Before(ts[k], t)
    ensures Ordered(ts + [t])
  {
    var us := ts + [t];
    forall i, j | 0 <= i < j < |us| ensures Before(us[i], us[j]) {
      if j < |ts| {
        assert Before(ts[i], ts[j]);
      }
    }
  }

  lemma RowsAppend(ts: seq<Turn>, done: seq<Turn>, t: Turn)
    requires RowsOk(ts, done) && t.baseRevision == |done| && t.status.Pending? && 0 < t.seqNo
    requires t.history == FrozenAt(done) && t.hasAnchor == HasAnchor(SummaryOf(done))
    ensures RowsOk(ts + [t], done)
  {
    assert done[..|done|] == done;
    assert RowOk(t, done);
    forall k | 0 <= k < |ts| + 1 ensures RowOk((ts + [t])[k], done) {
      assert (ts + [t])[k] == if k < |ts| then ts[k] else t;
    }
  }

  lemma AppendKeeps(c: Conv, t: Turn, d: Conv)
    requires ConvInv(c) && !AnyPending(c.turns) && |c.turns| < TURN_LIMIT && d == c.(turns := c.turns + [t])
    requires t.baseRevision == c.revision && t.status.Pending? && 0 < t.seqNo
    requires t.history == FrozenAt(Done(c.turns)) && t.hasAnchor == HasAnchor(SummaryOf(Done(c.turns)))
    requires forall k :: 0 <= k < |c.turns| ==>
          c.turns[k].id != t.id && c.turns[k].seqNo < t.seqNo && c.turns[k].idem != t.idem
    ensures ConvInv(d) && Evolves(c, d)
  {
    assert d.turns[..|d.turns| - 1] == c.turns;
    assert Done(d.turns) == Done(c.turns);
    forall k | 0 <= k < |c.turns| ensures Before(c.turns[k], t) {
      assert RowOk(c.turns[k], Done(c.turns));
    }
    OrderedAppend(c.turns, t);
    RowsAppend(c.turns, Done(c.turns), t);
  }

  predicate NewDraw(ts: seq<Turn>, id: string, seqNo: nat) {
    0 < seqNo && forall k :: 0 <= k < |ts| ==> ts[k].id != id && ts[k].seqNo < seqNo
  }

  lemma FreshKeeps(s: Conv, now: int, key: string, b: Input, id: string, fence: string, seqNo: nat, created: string,
      d: Conv)
    requires ConvInv(s) && NewDraw(s.turns, id, seqNo) && !AnyPending(s.turns) && |s.turns| < TURN_LIMIT
    requires ByKey(s.turns, key).None? && d == s.(turns := s.turns + [Fresh(s, now, key, b, id, fence, seqNo, created)])
    ensures ConvInv(d) && Evolves(s, d)
  {
    AppendKeeps(s, Fresh(s, now, key, b, id, fence, seqNo, created), d);
  }

  /** What a reservation does to the swept conversation: nothing, a retry, or a new row. */
  lemma ReserveCases(c: Conv, now: int, who: Access, key: string, b: Input, id: string, fence: string, seqNo: nat,
      created: string,
                     s: Conv, d: Conv)
    requires s == c.(turns := Sweep(c.turns, now))
    requires d == ReserveTx(c, now, who, key, b, id, fence, seqNo, created).0
    ensures var prior := ByKey(s.turns, key);
            || d == c || d == s
            || (prior.Some? && s.turns[prior.value].status.Failed? && s.turns[prior.value].baseRevision == s.revision
                && !AnyPending(s.turns)
                && d == s.(turns := s.turns[prior.value := Retried(s.turns[prior.value], now, fence)]))
            || (prior.None? && !AnyPending(s.turns) && |s.turns| < TURN_LIMIT
                && d == s.(turns := s.turns + [Fresh(s, now, key, b, id, fence, seqNo, created)]))
  {
  }

  lemma EvolvesTransitive(a: Conv, b: Conv, c: Conv)
    requires Evolves(a, b) && Evolves(b, c)
    ensures Evolves(a, c)
  {
    forall k | 0 <= k < |a.turns| ensures Same(a.turns[k], c.turns[k]) {
      assert Same(a.turns[k], b.turns[k]) && Same(b.turns[k], c.turns[k]);
    }
  }

  lemma ReserveKeeps(c: Conv, now: int, who: Access, key: string, b: Input, id: string, fence: string, seqNo: nat,
      created: string,
                     d: Conv)
    requires ConvInv(c) && NewDraw(c.turns, id, seqNo)
             && d == ReserveTx(c, now, who, key, b, id, fence, seqNo, created).0
    ensures ConvInv(d) && Evolves(c, d)
  {
    var s := c.(turns := Sweep(c.turns, now));
    SweepKeeps(c, now, s);
    ReserveCases(c, now, who, key, b, id, fence, seqNo, created, s, d);
    if d != c && d != s {
      var prior := ByKey(s.turns, key);
      if prior.Some? {
        RetryKeeps(s, prior.value, now, fence, d);
      } else {
        FreshKeeps(s, now, key, b, id, fence, seqNo, created, d);
      }
      EvolvesTransitive(c, s, d);
    }
  }

  // ---- completing --------------------------------------------------------------------------

  /** The turn a ticket may still complete is the one it was issued for. */
  lemma OpenTurn(c: Conv, tk: Ticket, k: nat)
    requires ConvInv(c) && HeldOk(tk, c.turns) && k < |c.turns| && c.turns[k].id == tk.id
    ensures Fits(tk, c.turns[k])
  {
    var i :| 0 <= i < |c.turns| && Fits(tk, c.turns[i]);
    assert i < k ==> Before(c.turns[i], c.turns[k]);
    assert k < i ==> Before(c.turns[k], c.turns[i]);
  }

  /** No completed turn comes after a pending one. */
  lemma PendingIsLast(c: Conv, k: nat, j: nat)
    requires ConvInv(c) && k <= j < |c.turns| && c.turns[k].status.Pending?
    ensures !c.turns[j].status.Completed?
  {
    PendingIsCurrent(c, k);
    if k < j {
      assert Before(c.turns[k], c.turns[j]);
      assert RowOk(c.turns[j], Done(c.turns));
    }
  }

  lemma CompletedRow(t: Turn, done: seq<Turn>, u: Turn)
    requires RowOk(t, done) && t.status.Pending? && Same(t, u) && u.status.Completed?
    ensures RowOk(u, done + [u])
  {
    assert (done + [u])[..u.baseRevision] == done[..u.baseRevision];
  }

  lemma RowsComplete(ts: seq<Turn>, done: seq<Turn>, k: nat, u: Turn, us: seq<Turn>)
    requires RowsOk(ts, done) && OnePending(ts) && k < |ts| && ts[k].status.Pending?
    requires Same(ts[k], u) && u.status.Completed? && us == ts[k := u]
    ensures RowsOk(us, done + [u])
  {
    forall j | 0 <= j < |us| ensures RowOk(us[j], done + [u]) {
      assert RowOk(ts[j], done);
      if j == k {
        CompletedRow(ts[k], done, u);
      } else {
        if j < k {
          assert NotBothPending(ts[j], ts[k]);
        } else {
          assert NotBothPending(ts[k], ts[j]);
        }
        RowGrows(ts[j], done, [u]);
      }
    }
  }

  lemma CompleteShape(ts: seq<Turn>, k: nat, u: Turn, us: seq<Turn>)
    requires Ordered(ts) && OnePending(ts) && k < |ts| && Same(ts[k], u) && u.status.Completed? && us == ts[k := u]
    ensures Ordered(us) && OnePending(us) && (!ts[k].status.Completed? ==> Extends(ts, us))
  {
    forall i, j | 0 <= i < j < |us| ensures Before(us[i], us[j]) && NotBothPending(us[i], us[j]) {
      assert Before(ts[i], ts[j]) && NotBothPending(ts[i], ts[j]);
    }
  }

  lemma BoundaryBelow(c: Conv, k: nat)
    requires ConvInv(c) && k < |c.turns| && c.turns[k].status.Pending?
    ensures c.contextAfter <= c.turns[k].seqNo
  {
    var done := Done(c.turns);
    DoneOf(c.turns);
    forall i | 0 <= i < |done| ensures done[i].seqNo <= c.turns[k].seqNo {
      var j :| 0 <= j < |c.turns| && c.turns[j] == done[i];
      if j < k {
        assert Before(c.turns[j], c.turns[k]);
      } else {
        PendingIsLast(c, k, j);
      }
    }
    BoundaryWithin(done, c.turns[k].seqNo);
  }

  /** The two columns that are folds of the completed turns keep being so. */
  lemma FoldsAdvance(done: seq<Turn>, u: Turn, r: Response)
    requires u.response == Some(r)
    ensures SummaryOf(done + [u]) == NextSummary(SummaryOf(done), r, u.createdAt, u.input.timezone)
    ensures BoundaryOf(done + [u]) == if r.reset then u.seqNo else BoundaryOf(done)
  {
    assert (done + [u])[..|done|] == done;
  }

  lemma CompleteKeeps(c: Conv, who: Access, tk: Ticket, r: Response, task: Option<TaskRow>, d: Conv)
    requires ConvInv(c) && HeldOk(tk, c.turns) && CompleteTx(c, who, tk, r, task) == Ok(d)
    ensures ConvInv(d) && Evolves(c, d)
  {
    var k := OpenAt(c.turns, tk.id, tk.fence).value;
    var u := Answered(c.turns[k], r);
    OpenTurn(c, tk, k);
    PendingIsCurrent(c, k);
    forall j | k <= j < |c.turns| ensures !c.turns[j].status.Completed? {
      PendingIsLast(c, k, j);
    }
    BoundaryBelow(c, k);
    DoneAppends(c.turns, k, u);
    FoldsAdvance(Done(c.turns), u, r);
    CompleteShape(c.turns, k, u, d.turns);
    RowsComplete(c.turns, Done(c.turns), k, u, d.turns);
  }

  // ---- every run ----------------------------------------------------------------------------

  predicate Later(t: Talk, u: Talk) {
    Evolves(t.conv, u.conv) && t.fences <= u.fences && t.held <= u.held
  }

  lemma HeldStays(tk: Ticket, c: Conv, d: Conv)
    requires HeldOk(tk, c.turns) && Evolves(c, d)
    ensures HeldOk(tk, d.turns)
  {
    var k :| 0 <= k < |c.turns| && Fits(tk, c.turns[k]);
    assert Same(c.turns[k], d.turns[k]);
    assert Fits(tk, d.turns[k]);
  }

  predicate FencesKnown(ts: seq<Turn>, fences: set<string>) {
    forall k :: 0 <= k < |ts| ==> ts[k].fence in fences
  }

  lemma InitInv(t: Talk)
    requires Init(t)
    ensures Inv(t)
  {
  }

  /** The row a granted ticket was issued for. */
  lemma GrantedRow(c: Conv, now: int, who: Access, key: string, b: Input, id: string, fence: string, seqNo: nat,
      created: string,
                   d: Conv, reply: Reservation) returns (k: nat)
    requires (d, reply) == ReserveTx(c, now, who, key, b, id, fence, seqNo, created) && reply.Granted?
    ensures k < |d.turns| && reply.ticket == TicketOf(d.turns[k]) && reply.ticket.fence == fence
    ensures d.turns[k].status.Pending? && d.turns[k].leaseUntil == now + LEASE
  {
    var prior := ByKey(Sweep(c.turns, now), key);
    k := if prior.Some? then prior.value else |c.turns|;
  }

  lemma ReserveFences(c: Conv, now: int, who: Access, key: string, b: Input, id: string, fence: string, seqNo: nat,
      created: string,
                      fences: set<string>, d: Conv, reply: Reservation)
    requires FencesKnown(c.turns, fences)
    requires (d, reply) == ReserveTx(c, now, who, key, b, id, fence, seqNo, created)
    ensures FencesKnown(d.turns, if reply.Granted? then fences + {fence} else fences)
  {
    assert FencesKnown(Sweep(c.turns, now), fences);
  }

  lemma HeldStay(held: seq<Ticket>, c: Conv, d: Conv)
    requires Evolves(c, d) && forall i :: 0 <= i < |held| ==> HeldOk(held[i], c.turns)
    ensures forall i :: 0 <= i < |held| ==> HeldOk(held[i], d.turns)
  {
    forall i | 0 <= i < |held| ensures HeldOk(held[i], d.turns) {
      HeldStays(held[i], c, d);
    }
  }

  lemma ReserveStep(t: Talk, s: Step, u: Talk)
    requires s.Reserve? && Inv(t) && Enabled(t, s) && u == Apply(t, s)
    ensures Inv(u) && Later(t, u)
  {
    ReserveKeeps(t.conv, t.now, s.who, s.key, s.input, s.id, s.fence, s.seqNo, s.created, u.conv);
    var (c, reply) := ReserveTx(t.conv, t.now, s.who, s.key, s.input, s.id, s.fence, s.seqNo, s.created);
    ReserveFences(t.conv, t.now, s.who, s.key, s.input, s.id, s.fence, s.seqNo, s.created, t.fences, c, reply);
    HeldStay(t.held, t.conv, c);
    if reply.Granted? {
      var k := GrantedRow(t.conv, t.now, s.who, s.key, s.input, s.id, s.fence, s.seqNo, s.created, c, reply);
      assert Fits(reply.ticket, c.turns[k]);
    }
  }

  lemma FailStep(t: Talk, s: Step, u: Talk)
    requires s.Fail? && Inv(t) && Enabled(t, s) && u == Apply(t, s)
    ensures Inv(u) && Later(t, u)
  {
    FailKeeps(t.conv, s.ticket, s.code, u.conv);
    HeldStay(t.held, t.conv, u.conv);
  }

  lemma CompletedKeeps(t: Talk, who: Access, tk: Ticket, r: Response, task: Option<TaskRow>, c: Conv)
    requires Inv(t) && tk in t.held && CompleteTx(t.conv, who, tk, r, task) == Ok(c)
    ensures Inv(t.(conv := c)) && Later(t, t.(conv := c))
  {
    CompleteKeeps(t.conv, who, tk, r, task, c);
    HeldStay(t.held, t.conv, c);
  }

  lemma CompleteStep(t: Talk, s: Step, u: Talk)
    requires s.Complete? && Inv(t) && Enabled(t, s) && u == Apply(t, s)
    ensures Inv(u) && Later(t, u)
  {
    if CompleteTx(t.conv, s.who, s.ticket, s.response, s.task).Ok? {
      CompletedKeeps(t, s.who, s.ticket, s.response, s.task, u.conv);
    }
  }

  lemma StepKeeps(t: Talk, s: Step, u: Talk)
    requires Inv(t) && Enabled(t, s) && u == Apply(t, s)
    ensures Inv(u) && Later(t, u)
  {
    if s.Reserve? {
      ReserveStep(t, s, u);
    } else if s.Fail? {
      FailStep(t, s, u);
    } else if s.Complete? {
      CompleteStep(t, s, u);
    }
  }

  lemma {:induction false} RunKeeps(t: Talk, steps: seq<Step>)
    requires Inv(t) && Runs(t, steps)
    ensures Inv(Run(t, steps)) && Later(t, Run(t, steps))
    decreases |steps|
  {
    if steps != [] {
      var u := Apply(t, steps[0]);
      StepKeeps(t, steps[0], u);
      RunKeeps(u, steps[1..]);
      EvolvesTransitive(t.conv, u.conv, Run(t, steps).conv);
    }
  }

  // ---- theorems -----------------------------------------------------------------------------

  predicate HasCompleted(ts: seq<Turn>, r: nat) {
    exists k :: 0 <= k < |ts| && ts[k].status.Completed? && ts[k].baseRevision == r
  }

  /** Two turns in sequence order: later ones build on no earlier revision, completed ones on a later one. */
  predicate InLine(t: Turn, u: Turn) {
    && t.seqNo < u.seqNo && t.baseRevision <= u.baseRevision && !(t.status.Pending? && u.status.Pending?)
    && (t.status.Completed? && u.status.Completed? ==> t.baseRevision < u.baseRevision)
  }

  predicate OneLine(ts: seq<Turn>, revision: nat) {
    && (forall r: nat {:trigger HasCompleted(ts, r)} :: r < revision ==> HasCompleted(ts, r))
    && (forall i, j {:trigger InLine(ts[i], ts[j])} :: 0 <= i < j < |ts| ==> InLine(ts[i], ts[j]))
    && (forall k :: 0 <= k < |ts| && ts[k].status.Completed? ==> ts[k].baseRevision < revision)
    && (forall k :: 0 <= k < |ts| && ts[k].status.Pending? ==> ts[k].baseRevision == revision)
  }

  lemma CompletedPairInLine(c: Conv, i: nat, j: nat)
    requires ConvInv(c) && i < j < |c.turns|
    ensures InLine(c.turns[i], c.turns[j])
  {
    assert Before(c.turns[i], c.turns[j]) && NotBothPending(c.turns[i], c.turns[j]);
    assert RowOk(c.turns[i], Done(c.turns)) && RowOk(c.turns[j], Done(c.turns));
  }

  lemma DoneCovers(c: Conv, r: nat)
    requires ConvInv(c) && r < c.revision
    ensures HasCompleted(c.turns, r)
  {
    DoneOf(c.turns);
    var t := Done(c.turns)[r];
    var k :| 0 <= k < |c.turns| && c.turns[k] == t;
  }

  /** The completed turns form one line: exactly one for each revision below the current one, in sequence
      order, with at most one turn pending and that one at the current revision. */
  lemma HistoryIsLinear(t: Talk, steps: seq<Step>)
    requires Init(t) && Runs(t, steps)
    ensures OneLine(Run(t, steps).conv.turns, Run(t, steps).conv.revision)
  {
    InitInv(t);
    RunKeeps(t, steps);
    var c := Run(t, steps).conv;
    forall r: nat | r < c.revision ensures HasCompleted(c.turns, r) {
      DoneCovers(c, r);
    }
    forall i, j | 0 <= i < j < |c.turns| ensures InLine(c.turns[i], c.turns[j]) {
      CompletedPairInLine(c, i, j);
    }
    forall k | 0 <= k < |c.turns| ensures RowOk(c.turns[k], Done(c.turns)) {
    }
  }

  lemma KeyFinds(ts: seq<Turn>, now: int, k: nat)
    requires Ordered(ts) && k < |ts|
    ensures ByKey(Sweep(ts, now), ts[k].idem) == Some(k)
  {
    var swept := Sweep(ts, now);
    assert swept[k].idem == ts[k].idem;
    var i := ByKey(swept, ts[k].idem).value;
    assert i < k ==> Before(ts[i], ts[k]);
    assert k < i ==> Before(ts[k], ts[i]);
  }

  /** A completed turn never changes, and its key keeps returning its response to the owner. */
  lemma CompletedForGood(t: Talk, steps: seq<Step>, k: nat, who: Access, b: Input, id: string, fence: string,
      seqNo: nat, created: string)
    requires Inv(t) && Runs(t, steps) && k < |t.conv.turns| && t.conv.turns[k].status.Completed?
    ensures var u := Run(t, steps);
            && k < |u.conv.turns| && u.conv.turns[k] == t.conv.turns[k]
            && (Visible(u.conv, who) ==>
                  ReserveTx(u.conv, u.now, who, t.conv.turns[k].idem, b, id, fence, seqNo, created).1
                  == (if b == t.conv.turns[k].input then Replayed(t.conv.turns[k].response)
                      else Refused(PayloadConflict)))
  {
    RunKeeps(t, steps);
    var u := Run(t, steps);
    assert Same(t.conv.turns[k], u.conv.turns[k]);
    KeyFinds(u.conv.turns, u.now, k);
    assert Sweep(u.conv.turns, u.now)[k] == t.conv.turns[k];
  }

  /** All turns ever reserved at one revision, retries included, were given the same context. */
  lemma SameRevisionSameContext(t: Talk, steps: seq<Step>, i: nat, j: nat)
    requires Init(t) && Runs(t, steps)
    requires i < |Run(t, steps).held| && j < |Run(t, steps).held|
    requires Run(t, steps).held[i].baseRevision == Run(t, steps).held[j].baseRevision
    ensures var held := Run(t, steps).held;
            held[i].history == held[j].history && held[i].hasAnchor == held[j].hasAnchor
  {
    InitInv(t);
    RunKeeps(t, steps);
    var c := Run(t, steps).conv;
    var a, b := Run(t, steps).held[i], Run(t, steps).held[j];
    var x :| 0 <= x < |c.turns| && Fits(a, c.turns[x]);
    var y :| 0 <= y < |c.turns| && Fits(b, c.turns[y]);
    assert RowOk(c.turns[x], Done(c.turns)) && RowOk(c.turns[y], Done(c.turns));
  }

  /** The context of a turn is the one its base revision determines, whatever was completed since. */
  lemma ContextIsOfItsRevision(t: Talk, steps: seq<Step>, k: nat)
    requires Init(t) && Runs(t, steps) && k < |Run(t, steps).conv.turns|
    ensures var c := Run(t, steps).conv;
            var u := c.turns[k];
            && u.baseRevision <= c.revision == |Done(c.turns)|
            && u.history == FrozenAt(Done(c.turns)[..u.baseRevision])
            && u.hasAnchor == HasAnchor(SummaryOf(Done(c.turns)[..u.baseRevision]))
  {
    InitInv(t);
    RunKeeps(t, steps);
    assert RowOk(Run(t, steps).conv.turns[k], Done(Run(t, steps).conv.turns));
  }

  /** A fence that a retry replaced. */
  predicate Replaced(tk: Ticket, t: Talk) {
    && tk.fence in t.fences
    && exists k :: 0 <= k < |t.conv.turns| && t.conv.turns[k].id == tk.id && t.conv.turns[k].fence != tk.fence
  }

  lemma NeverOpen(tk: Ticket, t: Talk)
    requires Inv(t) && Replaced(tk, t)
    ensures OpenAt(t.conv.turns, tk.id, tk.fence).None?
  {
    var k :| 0 <= k < |t.conv.turns| && t.conv.turns[k].id == tk.id && t.conv.turns[k].fence != tk.fence;
    forall j | 0 <= j < |t.conv.turns| ensures !IsOpen(t.conv.turns[j], tk.id, tk.fence) {
      assert j < k ==> Before(t.conv.turns[j], t.conv.turns[k]);
      assert k < j ==> Before(t.conv.turns[k], t.conv.turns[j]);
    }
  }

  predicate FenceKeptOrIs(ts: seq<Turn>, us: seq<Turn>, fence: string) {
    |ts| <= |us| && forall k :: 0 <= k < |ts| ==> us[k].fence == ts[k].fence || us[k].fence == fence
  }

  lemma ReserveFence(c: Conv, now: int, who: Access, key: string, b: Input, id: string, fence: string, seqNo: nat,
      created: string)
    ensures FenceKeptOrIs(c.turns, ReserveTx(c, now, who, key, b, id, fence, seqNo, created).0.turns, fence)
  {
  }

  lemma FenceKeptOrFresh(t: Talk, s: Step, k: nat)
    requires Enabled(t, s) && k < |t.conv.turns|
    ensures k < |Apply(t, s).conv.turns|
    ensures Apply(t, s).conv.turns[k].fence == t.conv.turns[k].fence
            || (s.Reserve? && Apply(t, s).conv.turns[k].fence == s.fence)
  {
    if s.Reserve? {
      ReserveFence(t.conv, t.now, s.who, s.key, s.input, s.id, s.fence, s.seqNo, s.created);
    }
  }

  lemma ReplacedStep(tk: Ticket, t: Talk, s: Step, u: Talk)
    requires Inv(t) && Enabled(t, s) && Replaced(tk, t) && u == Apply(t, s) && Later(t, u)
    ensures Replaced(tk, u)
  {
    var k :| 0 <= k < |t.conv.turns| && t.conv.turns[k].id == tk.id && t.conv.turns[k].fence != tk.fence;
    assert Same(t.conv.turns[k], u.conv.turns[k]);
    FenceKeptOrFresh(t, s, k);
    assert u.conv.turns[k].fence != tk.fence;
  }

  /** Only the newest fence can complete a turn: a replaced one is refused in every later state. */
  lemma {:induction false} ReplacedFenceIsDead(tk: Ticket, t: Talk, steps: seq<Step>, who: Access, r: Response,
      task: Option<TaskRow>, code: string)
    requires Inv(t) && Runs(t, steps) && Replaced(tk, t)
    ensures var c := Run(t, steps).conv;
            CompleteTx(c, who, tk, r, task).Err? && FailTx(c, tk, code) == c
    decreases |steps|
  {
    if steps == [] {
      NeverOpen(tk, t);
    } else {
      var u := Apply(t, steps[0]);
      StepKeeps(t, steps[0], u);
      ReplacedStep(tk, t, steps[0], u);
      ReplacedFenceIsDead(tk, u, steps[1..], who, r, task, code);
    }
  }

  /** A retry replaces every fence its turn had before. */
  lemma RetryReplaces(t: Talk, s: Step, tk: Ticket)
    requires Inv(t) && Enabled(t, s) && s.Reserve? && tk in t.held
    requires var reply := ReserveTx(t.conv, t.now, s.who, s.key, s.input, s.id, s.fence, s.seqNo, s.created).1;
             reply.Granted? && reply.ticket.id == tk.id
    ensures Replaced(tk, Apply(t, s))
  {
    var u := Apply(t, s);
    var (c, reply) := ReserveTx(t.conv, t.now, s.who, s.key, s.input, s.id, s.fence, s.seqNo, s.created);
    var k := GrantedRow(t.conv, t.now, s.who, s.key, s.input, s.id, s.fence, s.seqNo, s.created, c, reply);
    assert u.conv.turns[k].id == tk.id && u.conv.turns[k].fence == s.fence;
  }
}
