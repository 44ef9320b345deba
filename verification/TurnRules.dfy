/** What reserving, failing and completing a turn do, field by field, and which tool request the summary of a
    conversation names: stated over the rows alone, apart from the functions that compute it. */
module TurnRules {
  import opened Wrappers
  import opened History
  import opened Conversations
  import opened Dialogue

  // ---- who may use a conversation -----------------------------------------------------------

  /** The owner, as long as every team and dataset the conversation used is still open to that person. */
  predicate MayUse(c: Conv, who: Access) {
    && c.subject == who.subject && (forall x :: x in c.teams ==> x in who.teams)
    && (forall x :: x in c.datasets ==> x in who.datasets)
  }

  predicate Lapsed(t: Turn, now: int) {
    t.status.Pending? && t.leaseUntil < now
  }

  predicate Live(t: Turn, now: int) {
    t.status.Pending? && t.leaseUntil >= now
  }

  /** A lapsed attempt becomes a failed one; nothing else moves. */
  predicate LapsedRow(t: Turn, t': Turn, now: int) {
    t' == if Lapsed(t, now) then t.(status := Failed, error := "conversation_interrupted") else t
  }

  predicate OnlyLapsed(ts: seq<Turn>, us: seq<Turn>, now: int, except: int) {
    |ts| <= |us| && forall k :: 0 <= k < |ts| && k != except ==> LapsedRow(ts[k], us[k], now)
  }

  // ---- reserving ----------------------------------------------------------------------------

  /** Whoever may not use the conversation sees nothing of it. */
  lemma StrangerRefused(c: Conv, now: int, who: Access, key: string, b: Input, id: string, fence: string, seqNo: nat,
      created: string)
    requires !MayUse(c, who)
    ensures ReserveTx(c, now, who, key, b, id, fence, seqNo, created) == (c, Refused(NoRows))
  {
  }

  /** The attempt may be made again: it ended without an answer, the conversation has not moved since, and nobody else
      is being answered. */
  predicate RetryDue(c: Conv, now: int, b: Input, k: nat)
    requires k < |c.turns|
  {
    && c.turns[k].input == b && (c.turns[k].status.Failed? || Lapsed(c.turns[k], now))
    && c.turns[k].baseRevision == c.revision && b.revision == c.revision
    && forall j :: 0 <= j < |c.turns| ==> !Live(c.turns[j], now)
  }

  lemma NobodyPends(ts: seq<Turn>, now: int)
    ensures AnyPending(Sweep(ts, now)) <==> exists j :: 0 <= j < |ts| && Live(ts[j], now)
  {
    var us := Sweep(ts, now);
    forall j | 0 <= j < |ts| ensures us[j].status.Pending? <==> Live(ts[j], now) {
    }
    if j :| 0 <= j < |ts| && Live(ts[j], now) {
      assert us[j].status.Pending?;
    }
  }

  /** A key used before: a different message is a conflict, an answered one replays its answer, and the attempt is
      granted again exactly when it is due for a retry. */
  lemma KnownKeyIff(c: Conv, now: int, who: Access, b: Input, id: string, fence: string, seqNo: nat, created: string,
      k: nat)
    requires Ordered(c.turns) && k < |c.turns| && MayUse(c, who)
    ensures var t := c.turns[k];
            var (d, reply) := ReserveTx(c, now, who, t.idem, b, id, fence, seqNo, created);
            && (reply.Granted? <==> RetryDue(c, now, b, k))
            && (reply == Refused(PayloadConflict) <==> t.input != b)
            && (reply.Replayed? <==> t.input == b && t.status.Completed?)
            && (reply.Replayed? ==> reply.response == t.response && OnlyLapsed(c.turns, d.turns, now, -1))
            && (reply == Refused(Changed) <==>
                  t.input == b && (t.status.Failed? || Lapsed(t, now))
                  && (t.baseRevision != c.revision || b.revision != c.revision))
            && (reply.Refused? ==> d == c && reply.error in {PayloadConflict, Busy, Changed})
            && d == c.(turns := d.turns) && |d.turns| == |c.turns|
  {
    KeyFinds(c.turns, now, k);
    NobodyPends(c.turns, now);
  }

  /** What a retry leaves: the same turn pending under the new fence for 180 seconds, and a ticket for it. */
  lemma RetryRule(c: Conv, now: int, who: Access, b: Input, id: string, fence: string, seqNo: nat, created: string,
      k: nat)
    requires Ordered(c.turns) && k < |c.turns| && MayUse(c, who) && RetryDue(c, now, b, k)
    ensures var t := c.turns[k];
            var (d, reply) := ReserveTx(c, now, who, t.idem, b, id, fence, seqNo, created);
            && reply == Granted(Ticket(t.id, t.seqNo, t.baseRevision, t.input, t.history, t.hasAnchor, fence,
                                       t.createdAt))
            && |d.turns| == |c.turns| && OnlyLapsed(c.turns, d.turns, now, k)
            && d.turns[k] == t.(status := Pending, error := "", fence := fence, leaseUntil := now + 180)
  {
    KeyFinds(c.turns, now, k);
    NobodyPends(c.turns, now);
  }

  predicate NewKey(c: Conv, key: string) {
    forall k :: 0 <= k < |c.turns| ==> c.turns[k].idem != key
  }

  /** A new message is granted exactly when it was written for the current revision, nobody else is being answered and
      there are fewer than 500 turns. */
  lemma NewKeyIff(c: Conv, now: int, who: Access, key: string, b: Input, id: string, fence: string, seqNo: nat,
      created: string)
    requires NewKey(c, key) && MayUse(c, who)
    ensures var (d, reply) := ReserveTx(c, now, who, key, b, id, fence, seqNo, created);
            var busy := exists j :: 0 <= j < |c.turns| && Live(c.turns[j], now);
            && (reply.Granted? <==> b.revision == c.revision && !busy && |c.turns| < 500)
            && (!reply.Granted? ==>
                  && d == c
                  && reply == Refused(if b.revision != c.revision then Changed else if busy then Busy else Full))
  {
    NoKey(c, now, key);
    NobodyPends(c.turns, now);
  }

  lemma NoKey(c: Conv, now: int, key: string)
    requires NewKey(c, key)
    ensures ByKey(Sweep(c.turns, now), key).None?
  {
    var swept := Sweep(c.turns, now);
    forall k | 0 <= k < |swept| ensures swept[k].idem != key {
      assert swept[k].idem == c.turns[k].idem;
    }
  }

  /** The row of a new message: pending for 180 seconds at the current revision, with the context of that moment. */
  lemma NewKeyRule(c: Conv, now: int, who: Access, key: string, b: Input, id: string, fence: string, seqNo: nat,
      created: string)
    requires NewKey(c, key) && MayUse(c, who) && b.revision == c.revision && |c.turns| < 500
    requires forall j :: 0 <= j < |c.turns| ==> !Live(c.turns[j], now)
    ensures var (d, reply) := ReserveTx(c, now, who, key, b, id, fence, seqNo, created);
            && d == c.(turns := d.turns) && |d.turns| == |c.turns| + 1 && OnlyLapsed(c.turns, d.turns, now, -1)
            && var t := d.turns[|c.turns|];
               && t.id == id && t.seqNo == seqNo && t.idem == key && t.baseRevision == c.revision && t.input == b
               && t.status.Pending? && t.response.None? && t.error == "" && t.fence == fence
               && t.leaseUntil == now + 180 && t.createdAt == created
               && (t.hasAnchor <==> c.summary.Some? && c.summary.value.question != "")
               && t.history == Context(c.summary, Recent(Done(c.turns), c.contextAfter))
               && reply == Granted(Ticket(id, seqNo, c.revision, b, t.history, t.hasAnchor, fence, created))
  {
    NoKey(c, now, key);
    NobodyPends(c.turns, now);
    DoneAfterSweep(c.turns, now);
  }

  lemma {:induction false} DoneAfterSweep(ts: seq<Turn>, now: int)
    ensures Done(Sweep(ts, now)) == Done(ts)
    decreases |ts|
  {
    if ts != [] {
      var n := |ts| - 1;
      DoneAfterSweep(ts[..n], now);
      assert Sweep(ts, now)[..n] == Sweep(ts[..n], now);
    }
  }

  // ---- what a context quotes ----------------------------------------------------------------

  /** An answered turn after the boundary. */
  predicate Quotable(t: Turn, after: nat) {
    t.status.Completed? && t.seqNo > after
  }

  function LaterQuotable(ts: seq<Turn>, after: nat, k: nat): set<int> {
    set j | k < j < |ts| && Quotable(ts[j], after)
  }

  lemma LaterStep(ts: seq<Turn>, after: nat, k: nat)
    requires k < |ts|
    ensures var n := |ts| - 1;
            |LaterQuotable(ts, after, k)|
            == if k == n then 0 else |LaterQuotable(ts[..n], after, k)| + (if Quotable(ts[n], after) then 1 else 0)
  {
    var n := |ts| - 1;
    if k == n {
      assert LaterQuotable(ts, after, k) == {};
    } else {
      assert LaterQuotable(ts, after, k)
          == LaterQuotable(ts[..n], after, k) + (if Quotable(ts[n], after) then {n} else {});
    }
  }

  /** A quotable turn stands as far from the end as there are later ones. */
  lemma {:induction false} QuotedAt(ts: seq<Turn>, after: nat, k: nat, q: seq<Turn>)
    requires k < |ts| && Quotable(ts[k], after) && q == After(Done(ts), after)
    ensures var later := |LaterQuotable(ts, after, k)|;
            later < |q| && q[|q| - 1 - later] == ts[k]
    decreases |ts|
  {
    var n := |ts| - 1;
    var p := After(Done(ts[..n]), after);
    AfterDoneStep(ts, after);
    LaterStep(ts, after, k);
    if k < n {
      QuotedAt(ts[..n], after, k, p);
    }
  }

  lemma DoneStep(ts: seq<Turn>)
    requires ts != []
    ensures var n := |ts| - 1;
            if ts[n].status.Completed?
            then Done(ts) == Done(ts[..n]) + [ts[n]] && Done(ts)[..|Done(ts)| - 1] == Done(ts[..n])
            else Done(ts) == Done(ts[..n])
  {
  }

  lemma AfterDoneStep(ts: seq<Turn>, after: nat)
    requires ts != []
    ensures var n := |ts| - 1;
            After(Done(ts), after)
            == After(Done(ts[..n]), after) + (if Quotable(ts[n], after) then [ts[n]] else [])
  {
    DoneStep(ts);
  }

  /** A turn is quoted exactly when it was answered after the boundary and fewer than four such turns came later. */
  lemma QuotedIff(ts: seq<Turn>, after: nat, k: nat)
    requires Ordered(ts) && k < |ts|
    ensures ts[k] in Recent(Done(ts), after)
            <==> Quotable(ts[k], after) && |LaterQuotable(ts, after, k)| < 4
  {
    var q, t, later := After(Done(ts), after), ts[k], |LaterQuotable(ts, after, k)|;
    assert Recent(Done(ts), after) == LastFew(q);
    AfterDoneOrdered(ts, after, q);
    if Quotable(t, after) {
      QuotedAt(ts, after, k, q);
      LastFewIff(q, later, t);
    } else {
      LastFewLacks(q, after, t);
    }
  }

  lemma LastFewLacks(q: seq<Turn>, after: nat, t: Turn)
    requires (forall i :: 0 <= i < |q| ==> Quotable(q[i], after)) && !Quotable(t, after)
    ensures t !in LastFew(q)
  {
  }

  lemma LastFewIff(q: seq<Turn>, later: nat, t: Turn)
    requires forall i, j :: 0 <= i < j < |q| ==> q[i].seqNo < q[j].seqNo
    requires later < |q| && q[|q| - 1 - later] == t
    ensures t in LastFew(q) <==> later < 4
  {
    var r := LastFew(q);
    var p := |q| - 1 - later;
    if later < 4 {
      assert r[|r| - 1 - later] == t;
    } else {
      forall i | 0 <= i < |r| ensures r[i] != t {
        assert q[p].seqNo < q[|q| - |r| + i].seqNo;
      }
    }
  }

  lemma {:induction false} AfterDoneOrdered(ts: seq<Turn>, after: nat, q: seq<Turn>)
    requires Ordered(ts) && q == After(Done(ts), after)
    ensures forall i :: 0 <= i < |q| ==> q[i] in ts && Quotable(q[i], after)
    ensures forall i, j :: 0 <= i < j < |q| ==> q[i].seqNo < q[j].seqNo
    decreases |ts|
  {
    if ts != [] {
      var n := |ts| - 1;
      var init := ts[..n];
      forall i, j | 0 <= i < j < n ensures Before(init[i], init[j]) {
        assert Before(ts[i], ts[j]);
      }
      var p := After(Done(init), after);
      AfterDoneOrdered(init, after, p);
      AfterDoneStep(ts, after);
      forall i | 0 <= i < |p| ensures p[i].seqNo < ts[n].seqNo {
        var k :| 0 <= k < n && init[k] == p[i];
        assert Before(ts[k], ts[n]);
      }
    }
  }

  lemma LastFewInOrder(q: seq<Turn>)
    requires forall i, j :: 0 <= i < j < |q| ==> q[i].seqNo < q[j].seqNo
    ensures forall i, j :: 0 <= i < j < |LastFew(q)| ==> LastFew(q)[i].seqNo < LastFew(q)[j].seqNo
  {
    var r := LastFew(q);
    var n := |q| - |r|;
    forall i, j | 0 <= i < j < |r| ensures r[i].seqNo < r[j].seqNo {
      assert r[i] == q[n + i] && r[j] == q[n + j];
    }
  }

  lemma QuotedInOrder(ts: seq<Turn>, after: nat)
    requires Ordered(ts)
    ensures var r := Recent(Done(ts), after);
            |r| <= 4 && forall i, j :: 0 <= i < j < |r| ==> r[i].seqNo < r[j].seqNo
  {
    var q := After(Done(ts), after);
    AfterDoneOrdered(ts, after, q);
    LastFewInOrder(q);
  }

  /** How an answered turn is quoted: by what it said, and by the question of its tool request where that is too long.
      A tool request itself is quoted with its question. */
  predicate Quotes(m: Message, t: Turn) {
    && m.role.Assistant?
    && (t.response.Some? ==>
          var r := t.response.value;
          match r.status
          case AnswerStatus => m.content == if |r.answer| <= 2000 then r.answer else r.question
          case ClarificationStatus => m.content == if |r.clarification| <= 2000 then r.clarification else r.question
          case OtherStatus =>
            || (|m.content| <= 2000 && SUBMITTED + r.question <= m.content)
            || m.content == r.question)
  }

  lemma QuoteRule(t: Turn)
    ensures Quotes(Message(Assistant, ReplyText(t)), t)
  {
    if t.response.Some? && t.response.value.status.OtherStatus? {
      var r := t.response.value;
      var note := REQUESTED_AT + t.createdAt + HEADER_ZONE + t.input.timezone + SUBMITTED_NOTE;
      assert ConversationReply(r, t.createdAt, t.input.timezone) == SUBMITTED + r.question + note;
    }
  }

  /** The i-th exchange of the messages is that of the turn. */
  predicate Exchanged(m: seq<Message>, i: nat, t: Turn) {
    2 * i + 1 < |m| && m[2 * i] == Message(User, t.input.text) && Quotes(m[2 * i + 1], t)
  }

  lemma {:induction false} PairsAt(turns: seq<Turn>, i: nat)
    requires i < |turns|
    ensures Exchanged(Pairs(turns), i, turns[i])
    decreases |turns|
  {
    var n := |turns| - 1;
    if i < n {
      PairsAt(turns[..n], i);
    } else {
      QuoteRule(turns[n]);
    }
  }

  lemma ExchangedAfter(m: seq<Message>, d: nat, i: nat, t: Turn)
    requires Exchanged(m, d + i, t)
    ensures Exchanged(m[2 * d..], i, t)
  {
    var kept := m[2 * d..];
    assert kept[2 * i] == m[2 * (d + i)] && kept[2 * i + 1] == m[2 * (d + i) + 1];
  }

  /** The newest n of the turns, oldest first, each as the user's text and its quoted reply. */
  predicate QuotesNewest(m: seq<Message>, recent: seq<Turn>, n: nat) {
    && n <= |recent| && |m| == 2 * n
    && var newest := recent[|recent| - n..];
       forall i :: 0 <= i < n ==> Exchanged(m, i, newest[i])
  }

  lemma KeptQuotes(recent: seq<Turn>, kept: seq<Message>, n: nat)
    requires n <= |recent| && |kept| == 2 * n && kept == Pairs(recent)[2 * (|recent| - n)..]
    ensures QuotesNewest(kept, recent, n)
  {
    var d := |recent| - n;
    var newest := recent[d..];
    forall i | 0 <= i < n ensures Exchanged(kept, i, newest[i]) {
      PairsAt(recent, d + i);
      ExchangedAfter(Pairs(recent), d, i, recent[d + i]);
    }
  }

  lemma HeadIs(summary: Option<Anchor>)
    ensures var first := AnchorMessages(summary);
            if summary.Some? && summary.value.question != ""
            then |first| == 2 && first[0].role.Assistant? && first[1] == Message(Assistant, summary.value.question)
            else first == []
  {
  }

  /** No more of the turns would fit: the next older one takes the text over 16000 characters. */
  predicate FitsNoMore(first: seq<Message>, recent: seq<Turn>, n: nat) {
    n < |recent| ==> Size(first) + Size(Pairs(recent)[2 * (|recent| - n - 1)..]) > 16000
  }

  lemma TrimmedIs(first: seq<Message>, recent: seq<Turn>) returns (n: nat)
    ensures |Trim(first, Pairs(recent))| == 2 * n && (recent != [] ==> n > 0)
    ensures QuotesNewest(Trim(first, Pairs(recent)), recent, n) && FitsNoMore(first, recent, n)
    ensures Size(first) + Size(Trim(first, Pairs(recent))) <= 16000 || n <= 1
  {
    var pairs := Pairs(recent);
    var kept := Trim(first, pairs);
    n := |kept| / 2;
    TrimKeepsWholePairs(first, pairs);
    KeptQuotes(recent, kept, n);
    TrimmedFits(first, recent, n);
  }

  lemma TrimmedFits(first: seq<Message>, recent: seq<Turn>, n: nat)
    requires |Trim(first, Pairs(recent))| == 2 * n
    ensures FitsNoMore(first, recent, n)
  {
    if n < |recent| {
      OneMoreIsTooMuch(first, Pairs(recent), |recent|, n);
    }
  }

  lemma OneMoreIsTooMuch(first: seq<Message>, pairs: seq<Message>, m: nat, n: nat)
    requires |pairs| == 2 * m && |Trim(first, pairs)| == 2 * n && n < m
    ensures Size(first) + Size(pairs[2 * (m - n - 1)..]) > 16000
  {
    TrimDropsTheFewest(first, pairs, 2 * n + 2);
    assert |pairs| - (2 * n + 2) == 2 * (m - n - 1);
  }

  /** A context: the question of the anchor after a header, if there is one, and then as many of the newest turns as
      fit in 16000 characters, and always the newest. */
  lemma ContextIs(summary: Option<Anchor>, recent: seq<Turn>) returns (first: seq<Message>, n: nat)
    ensures |Context(summary, recent)| == |first| + 2 * n && (recent != [] ==> n > 0)
    ensures Context(summary, recent)[..|first|] == first
    ensures QuotesNewest(Context(summary, recent)[|first|..], recent, n) && FitsNoMore(first, recent, n)
    ensures Size(Context(summary, recent)) <= 16000 || n <= 1
    ensures if summary.Some? && summary.value.question != ""
            then |first| == 2 && first[0].role.Assistant? && first[1] == Message(Assistant, summary.value.question)
            else first == []
  {
    first := AnchorMessages(summary);
    HeadIs(summary);
    n := TrimmedIs(first, recent);
    Splits(first, Trim(first, Pairs(recent)));
    SizeConcat(first, Trim(first, Pairs(recent)));
  }

  lemma Splits(a: seq<Message>, b: seq<Message>)
    ensures (a + b)[|a|..] == b && |a + b| == |a| + |b|
  {
  }

  // ---- failing and completing -----------------------------------------------------------------

  /** The attempt the ticket stands for is still being answered. */
  predicate Awaited(t: Turn, tk: Ticket) {
    t.id == tk.id && t.fence == tk.fence && t.status.Pending?
  }

  lemma AwaitedAt(ts: seq<Turn>, tk: Ticket, k: nat)
    requires Ordered(ts) && k < |ts| && Awaited(ts[k], tk)
    ensures OpenAt(ts, tk.id, tk.fence) == Some(k)
  {
    var j := OpenAt(ts, tk.id, tk.fence).value;
    assert j < k ==> Before(ts[j], ts[k]);
    assert k < j ==> Before(ts[k], ts[j]);
  }

  /** A failure is recorded on the awaited attempt and on nothing else. */
  lemma FailRule(c: Conv, tk: Ticket, code: string)
    requires Ordered(c.turns)
    ensures var d := FailTx(c, tk, code);
            && d == c.(turns := d.turns) && |d.turns| == |c.turns|
            && forall k :: 0 <= k < |c.turns| ==>
                 d.turns[k] == if Awaited(c.turns[k], tk) then c.turns[k].(status := Failed, error := code)
                               else c.turns[k]
  {
    forall k | 0 <= k < |c.turns| && Awaited(c.turns[k], tk) ensures OpenAt(c.turns, tk.id, tk.fence) == Some(k) {
      AwaitedAt(c.turns, tk, k);
    }
  }

  /** The row behind a tool reply is the caller's own and still open to the caller. */
  predicate SourceOpen(who: Access, r: Response, task: Option<TaskRow>) {
    r.kind.Some? ==>
      && task.Some? && task.value.owner == who.subject && task.value.team in who.teams
      && (r.kind.value.Warehouse? ==> task.value.dataset in who.datasets)
  }

  predicate CanComplete(c: Conv, who: Access, tk: Ticket, r: Response, task: Option<TaskRow>) {
    && MayUse(c, who) && c.revision == tk.baseRevision && SourceOpen(who, r, task)
    && exists k :: 0 <= k < |c.turns| && Awaited(c.turns[k], tk)
  }

  /** A reply is stored exactly when its attempt is awaited at the current revision and its source is open to the
      caller; the refusal names the first of these that fails. */
  lemma CompleteIff(c: Conv, who: Access, tk: Ticket, r: Response, task: Option<TaskRow>)
    requires Ordered(c.turns)
    ensures CompleteTx(c, who, tk, r, task).Ok? <==> CanComplete(c, who, tk, r, task)
    ensures !CanComplete(c, who, tk, r, task) ==>
              CompleteTx(c, who, tk, r, task)
              == Err(if !MayUse(c, who) then NoRows else if c.revision != tk.baseRevision then Changed
                     else if !SourceOpen(who, r, task) then NoRows else Changed)
  {
  }

  /** The columns of the conversation after a completed turn. A tool reply becomes the anchor, whether or not there was
      one before; a reset without a tool reply clears it; any other reply leaves it. */
  predicate ColumnsAfter(c: Conv, d: Conv, tk: Ticket, r: Response, task: Option<TaskRow>)
    requires r.kind.Some? ==> task.Some?
  {
    && d.subject == c.subject && d.revision == c.revision + 1
    && d.title == (if c.revision > 0 then c.title
                   else if |tk.input.text| <= 60 then tk.input.text else tk.input.text[..60])
    && (r.kind.Some? ==>
          d.summary == Some(Anchor(r.kind.value, r.question, r.id, tk.createdAt, tk.input.timezone)))
    && (r.kind.None? && r.reset ==> d.summary.None?)
    && (r.kind.None? && !r.reset ==> d.summary == c.summary)
    && d.contextAfter == (if r.reset then tk.seqNo else c.contextAfter)
    && d.teams == (if r.kind.Some? && task.value.team != "" && task.value.team !in c.teams
                   then c.teams + [task.value.team] else c.teams)
    && d.datasets == (if r.kind == Some(Warehouse) && task.value.dataset != "" && task.value.dataset !in c.datasets
                      then c.datasets + [task.value.dataset] else c.datasets)
  }

  lemma CompleteRule(c: Conv, who: Access, tk: Ticket, r: Response, task: Option<TaskRow>)
    requires Ordered(c.turns) && CanComplete(c, who, tk, r, task)
    ensures CompleteTx(c, who, tk, r, task).Ok?
    ensures var d := CompleteTx(c, who, tk, r, task).value;
            && ColumnsAfter(c, d, tk, r, task) && |d.turns| == |c.turns|
            && forall k :: 0 <= k < |c.turns| ==>
                 d.turns[k] == if Awaited(c.turns[k], tk)
                               then c.turns[k].(status := Completed, response := Some(r), error := "")
                               else c.turns[k]
  {
    forall k | 0 <= k < |c.turns| && Awaited(c.turns[k], tk) ensures OpenAt(c.turns, tk.id, tk.fence) == Some(k) {
      AwaitedAt(c.turns, tk, k);
    }
  }

  // ---- the anchor over a run ------------------------------------------------------------------

  predicate ToolTurn(t: Turn) {
    t.status.Completed? && t.response.Some? && t.response.value.kind.Some?
  }

  predicate ResetTurn(t: Turn) {
    t.status.Completed? && t.response.Some? && t.response.value.reset
  }

  /** The turn decided what the summary says: a tool reply, or a reset without one. */
  predicate SetsAnchor(t: Turn) {
    ToolTurn(t) || ResetTurn(t)
  }

  function AnchorFor(t: Turn): Option<Anchor>
    requires SetsAnchor(t)
  {
    var r := t.response.value;
    if r.kind.None? then None else Some(Anchor(r.kind.value, r.question, r.id, t.createdAt, t.input.timezone))
  }

  predicate LastSetting(ts: seq<Turn>, k: int) {
    0 <= k < |ts| && SetsAnchor(ts[k]) && forall j :: k < j < |ts| ==> !SetsAnchor(ts[j])
  }

  predicate LastReset(ts: seq<Turn>, k: int) {
    0 <= k < |ts| && ResetTurn(ts[k]) && forall j :: k < j < |ts| ==> !ResetTurn(ts[j])
  }

  predicate AnchorIsLast(ts: seq<Turn>, summary: Option<Anchor>) {
    && (forall k :: 0 <= k < |ts| && LastSetting(ts, k) ==> summary == AnchorFor(ts[k]))
    && ((forall k :: 0 <= k < |ts| ==> !SetsAnchor(ts[k])) ==> summary.None?)
  }

  predicate BoundaryIsLast(ts: seq<Turn>, after: nat) {
    && (forall k :: 0 <= k < |ts| && LastReset(ts, k) ==> after == ts[k].seqNo)
    && ((forall k :: 0 <= k < |ts| ==> !ResetTurn(ts[k])) ==> after == 0)
  }

  lemma SummaryStep(ts: seq<Turn>)
    requires ts != []
    ensures var n := |ts| - 1;
            SummaryOf(Done(ts)) == if SetsAnchor(ts[n]) then AnchorFor(ts[n]) else SummaryOf(Done(ts[..n]))
  {
    DoneStep(ts);
  }

  lemma BoundaryStep(ts: seq<Turn>)
    requires ts != []
    ensures var n := |ts| - 1;
            BoundaryOf(Done(ts)) == if ResetTurn(ts[n]) then ts[n].seqNo else BoundaryOf(Done(ts[..n]))
  {
    DoneStep(ts);
  }

  lemma AnchorStep(ts: seq<Turn>, before: Option<Anchor>, now: Option<Anchor>)
    requires ts != [] && AnchorIsLast(ts[..|ts| - 1], before)
    requires now == if SetsAnchor(ts[|ts| - 1]) then AnchorFor(ts[|ts| - 1]) else before
    ensures AnchorIsLast(ts, now)
  {
    var n := |ts| - 1;
    forall k | 0 <= k < |ts| && LastSetting(ts, k) ensures now == AnchorFor(ts[k]) {
      if k < n {
        assert !SetsAnchor(ts[n]) && LastSetting(ts[..n], k);
      }
    }
    if forall k :: 0 <= k < |ts| ==> !SetsAnchor(ts[k]) {
      assert forall k :: 0 <= k < n ==> ts[..n][k] == ts[k];
    }
  }

  lemma {:induction false} SummaryIsLast(ts: seq<Turn>)
    ensures AnchorIsLast(ts, SummaryOf(Done(ts)))
    decreases |ts|
  {
    if ts != [] {
      var init := ts[..|ts| - 1];
      SummaryIsLast(init);
      SummaryStep(ts);
      AnchorStep(ts, SummaryOf(Done(init)), SummaryOf(Done(ts)));
    }
  }

  lemma ResetStep(ts: seq<Turn>, before: nat, now: nat)
    requires ts != [] && BoundaryIsLast(ts[..|ts| - 1], before)
    requires now == if ResetTurn(ts[|ts| - 1]) then ts[|ts| - 1].seqNo else before
    ensures BoundaryIsLast(ts, now)
  {
    var n := |ts| - 1;
    forall k | 0 <= k < |ts| && LastReset(ts, k) ensures now == ts[k].seqNo {
      if k < n {
        assert !ResetTurn(ts[n]) && LastReset(ts[..n], k);
      }
    }
    if forall k :: 0 <= k < |ts| ==> !ResetTurn(ts[k]) {
      assert forall k :: 0 <= k < n ==> ts[..n][k] == ts[k];
    }
  }

  lemma {:induction false} ResetIsLast(ts: seq<Turn>)
    ensures BoundaryIsLast(ts, BoundaryOf(Done(ts)))
    decreases |ts|
  {
    if ts != [] {
      var init := ts[..|ts| - 1];
      ResetIsLast(init);
      BoundaryStep(ts);
      ResetStep(ts, BoundaryOf(Done(init)), BoundaryOf(Done(ts)));
    }
  }

  /** In every run the summary names the last answered turn with a tool reply, unless a later answered turn reset the
      conversation without one; and the context starts after the last reset. */
  lemma AnchorIsLastTool(t: Talk, steps: seq<Step>)
    requires Init(t) && Runs(t, steps)
    ensures AnchorIsLast(Run(t, steps).conv.turns, Run(t, steps).conv.summary)
    ensures BoundaryIsLast(Run(t, steps).conv.turns, Run(t, steps).conv.contextAfter)
  {
    InitInv(t);
    RunKeeps(t, steps);
    SummaryIsLast(Run(t, steps).conv.turns);
    ResetIsLast(Run(t, steps).conv.turns);
  }
}
