/** backend/internal/app/conversations.go: the bounded context a turn is given, and
    backend/internal/app/data_queries.go: the check it has to pass. */
module History {
  import opened Wrappers

  const MAX_RUNES: nat := 2000
  const MAX_TOTAL: nat := 16000
  const MAX_MESSAGES: nat := 12
  const RECENT_TURNS: nat := 4

  datatype Role = User | Assistant | OtherRole(name: string)
  datatype Message = Message(role: Role, content: string)

  datatype Input = Input(text: string, timezone: string, mode: string, revision: nat)

  datatype ToolKind = Warehouse | Investigation
  datatype ReplyStatus = AnswerStatus | ClarificationStatus | OtherStatus

  /** The stored JSON response; absent text fields read as "". */
  datatype Response = Response(
    kind: Option<ToolKind>, status: ReplyStatus, answer: string, clarification: string, question: string,
    id: string, reset: bool)

  datatype TurnStatus = Pending | Completed | Failed

  datatype Turn = Turn(
    id: string, seqNo: nat, idem: string, baseRevision: nat, input: Input, history: seq<Message>, hasAnchor: bool,
    status: TurnStatus, response: Option<Response>, error: string, fence: string, leaseUntil: int, createdAt: string)

  /** The stored summary of the last tool request. */
  datatype Anchor = Anchor(kind: ToolKind, question: string, taskId: string, capturedAt: string, timezone: string)

  // ---- replies ------------------------------------------------------------------------

  const HEADER := "历史查询上下文（仅理解追问，不是当前结果；新话题优先）。下一条是当时的完整查询问题。创建于"
  const HEADER_ZONE := "，时区"
  const SUBMITTED := "已提交查询："
  const REQUESTED_AT := "。请求时间："
  const SUBMITTED_NOTE := "；相对时间以当次日期为基准。此处只记录任务引用，业务数值需重新查询。"

  function ConversationReply(r: Response, created: string, zone: string): string {
    match r.status
    case AnswerStatus => r.answer
    case ClarificationStatus => r.clarification
    case OtherStatus => SUBMITTED + r.question + REQUESTED_AT + created + HEADER_ZONE + zone + SUBMITTED_NOTE
  }

  /** A wrapped tool question that outgrows the limit is replaced by the question itself. */
  function ReplyText(t: Turn): string {
    if t.response.None? then ""
    else
      var reply := ConversationReply(t.response.value, t.createdAt, t.input.timezone);
      if |reply| > MAX_RUNES then t.response.value.question else reply
  }

  function AnchorHeader(a: Anchor): string {
    HEADER + a.capturedAt + HEADER_ZONE + a.timezone
  }

  function AnchorMessages(a: Option<Anchor>): seq<Message> {
    if a.None? || a.value.question == "" then []
    else [Message(Assistant, AnchorHeader(a.value)), Message(Assistant, a.value.question)]
  }

  function PairOf(t: Turn): seq<Message> {
    [Message(User, t.input.text), Message(Assistant, ReplyText(t))]
  }

  function Pairs(turns: seq<Turn>): (p: seq<Message>)
    ensures |p| == 2 * |turns|
  {
    if turns == [] then [] else Pairs(turns[..|turns| - 1]) + PairOf(turns[|turns| - 1])
  }

  lemma PairsStep(turns: seq<Turn>, k: nat)
    requires k < |turns|
    ensures Pairs(turns[..k + 1])
        == Pairs(turns[..k]) + [Message(User, turns[k].input.text)] + [Message(Assistant, ReplyText(turns[k]))]
  {
    assert turns[..k + 1][..k] == turns[..k];
  }

  function Size(m: seq<Message>): nat {
    if m == [] then 0 else Size(m[..|m| - 1]) + |m[|m| - 1].content|
  }

  lemma {:induction false} SizeConcat(a: seq<Message>, b: seq<Message>)
    ensures Size(a + b) == Size(a) + Size(b)
    decreases |b|
  {
    if b == [] {
      assert a + b == a;
    } else {
      assert (a + b)[..|a + b| - 1] == a + b[..|b| - 1];
      SizeConcat(a, b[..|b| - 1]);
    }
  }

  /** Whole pairs are dropped from the front while the total is too large and more than one is left. */
  function Trim(head: seq<Message>, pairs: seq<Message>): (r: seq<Message>)
    ensures |r| <= |pairs|
    decreases |pairs|
  {
    if |pairs| > 2 && Size(head) + Size(pairs) > MAX_TOTAL then Trim(head, pairs[2..]) else pairs
  }

  /** The messages a turn is given: the anchor, then the recent exchanges that fit. */
  function Context(anchor: Option<Anchor>, recent: seq<Turn>): seq<Message> {
    AnchorMessages(anchor) + Trim(AnchorMessages(anchor), Pairs(recent))
  }

  /** The exchanges of the rows, which arrive newest first. */
  method CollectPairs(rows: seq<Turn>) returns (pairs: seq<Message>)
    ensures pairs == Pairs(Reversed(rows))
  {
    pairs := [];
    var i := |rows|;
    while i > 0
      invariant 0 <= i <= |rows|
      invariant pairs == Pairs(Reversed(rows)[..|rows| - i])
    {
      i := i - 1;
      var t := rows[i];
      PairsStep(Reversed(rows), |rows| - i - 1);
      pairs := pairs + [Message(User, t.input.text)];
      var reply := "";
      if t.response.Some? {
        reply := ConversationReply(t.response.value, t.createdAt, t.input.timezone);
        if |reply| > MAX_RUNES {
          reply := t.response.value.question;
        }
      }
      pairs := pairs + [Message(Assistant, reply)];
    }
    assert Reversed(rows)[..|rows|] == Reversed(rows);
  }

  /** conversationHistory: the anchor, then the exchanges, the oldest dropped while the total is too large. */
  method BuildHistory(rows: seq<Turn>, anchor: Option<Anchor>) returns (history: seq<Message>)
    ensures history == Context(anchor, Reversed(rows))
  {
    history := [];
    if anchor.Some? && anchor.value.question != "" {
      history := history + [Message(Assistant, HEADER + anchor.value.capturedAt + HEADER_ZONE + anchor.value.timezone),
                            Message(Assistant, anchor.value.question)];
    }
    assert history == AnchorMessages(anchor);
    var pairs := CollectPairs(rows);
    ghost var all := pairs;
    while |pairs| > 2 && Size(history) + Size(pairs) > MAX_TOTAL
      invariant Trim(history, pairs) == Trim(history, all)
    {
      pairs := pairs[2..];
    }
    history := history + pairs;
  }

  function Reversed<T>(s: seq<T>): (r: seq<T>)
    ensures |r| == |s|
    ensures forall k :: 0 <= k < |s| ==> r[k] == s[|s| - 1 - k]
  {
    seq(|s|, k requires 0 <= k < |s| => s[|s| - 1 - k])
  }

  /** What trimming keeps: the newest whole pairs, always the last one, and never more than fit. */
  lemma {:induction false} TrimKeepsWholePairs(head: seq<Message>, pairs: seq<Message>)
    requires |pairs| % 2 == 0
    ensures var r := Trim(head, pairs);
            && |r| <= |pairs| && |r| % 2 == 0 && r == pairs[|pairs| - |r|..]
            && (pairs != [] ==> |r| >= 2)
            && (Size(head) + Size(r) <= MAX_TOTAL || |r| <= 2)
    decreases |pairs|
  {
    if |pairs| > 2 && Size(head) + Size(pairs) > MAX_TOTAL {
      TrimKeepsWholePairs(head, pairs[2..]);
    }
  }

  /** It drops the fewest pairs: no longer run of newest whole pairs would have fitted. */
  lemma {:induction false} TrimDropsTheFewest(head: seq<Message>, pairs: seq<Message>, k: nat)
    requires |pairs| % 2 == 0 && k % 2 == 0 && |Trim(head, pairs)| < k <= |pairs|
    ensures Size(head) + Size(pairs[|pairs| - k..]) > MAX_TOTAL
    decreases |pairs|
  {
    assert |pairs| > 2 && Size(head) + Size(pairs) > MAX_TOTAL;
    if k == |pairs| {
      assert pairs[|pairs| - k..] == pairs;
    } else {
      var rest := pairs[2..];
      assert Trim(head, pairs) == Trim(head, rest);
      TrimDropsTheFewest(head, rest, k);
      assert rest[|rest| - k..] == pairs[|pairs| - k..];
    }
  }

  // ---- validation ---------------------------------------------------------------------

  /** unicode.IsSpace */
  predicate IsSpace(c: char) {
    c in {'\t', '\n', '\U{b}', '\U{c}', '\r', ' ', '\U{85}', '\U{a0}', '\U{1680}',
          '\U{2028}', '\U{2029}', '\U{202f}', '\U{205f}', '\U{3000}'}
    || '\U{2000}' <= c <= '\U{200a}'
  }

  predicate Blank(s: string) {
    forall i :: 0 <= i < |s| ==> IsSpace(s[i])
  }

  datatype ValidationError = InvalidQuestion | InvalidConversation

  predicate MessageOk(m: Message) {
    (m.role.User? || m.role.Assistant?) && !Blank(m.content) && |m.content| <= MAX_RUNES
  }

  function Validation(text: string, history: seq<Message>): Option<ValidationError> {
    if |text| < 1 || |text| > MAX_RUNES || |history| > MAX_MESSAGES then Some(InvalidQuestion)
    else if exists k :: 0 <= k < |history| && !MessageOk(history[k]) then Some(InvalidConversation)
    else if Size(history) > MAX_TOTAL then Some(InvalidConversation)
    else None
  }

  method ValidateConversation(text: string, history: seq<Message>) returns (error: Option<ValidationError>)
    ensures error == Validation(text, history)
  {
    if |text| < 1 || |text| > MAX_RUNES || |history| > MAX_MESSAGES {
      return Some(InvalidQuestion);
    }
    var total := 0;
    for k := 0 to |history|
      invariant total == Size(history[..k])
      invariant forall j :: 0 <= j < k ==> MessageOk(history[j])
    {
      var m := history[k];
      var n := |m.content|;
      if !(m.role.User? || m.role.Assistant?) || Blank(m.content) || n > MAX_RUNES {
        assert !MessageOk(history[k]);
        return Some(InvalidConversation);
      }
      assert history[..k + 1][..k] == history[..k];
      total := total + n;
    }
    assert history[..|history|] == history;
    if total > MAX_TOTAL {
      return Some(InvalidConversation);
    }
    error := None;
  }

  // ---- every stored context is valid ----------------------------------------------------

  /** What the code checks of a stored turn: its input and every text a decision carries. A clarification may
      come from the planner of an investigation, which is taken as it is and carries no question. */
  predicate StoredChecked(t: Turn) {
    && !Blank(t.input.text) && |t.input.text| <= MAX_RUNES
    && t.response.Some? && ResponseChecked(t.response.value)
  }

  predicate ResponseChecked(r: Response) {
    match r.status
    case AnswerStatus => !Blank(r.answer) && |r.answer| <= MAX_RUNES
    case ClarificationStatus => r.question == ""
    case OtherStatus => !Blank(r.question) && |r.question| <= MAX_RUNES
  }

  /** A clarification that fits in a message. */
  predicate Clarified(t: Turn) {
    t.response.Some? && t.response.value.status.ClarificationStatus? ==>
      !Blank(t.response.value.clarification) && |t.response.value.clarification| <= MAX_RUNES
  }

  predicate AllClarified(turns: seq<Turn>) {
    forall k {:trigger Clarified(turns[k])} :: 0 <= k < |turns| ==> Clarified(turns[k])
  }

  lemma NonBlankInside(a: string, b: string, c: string)
    requires !Blank(b)
    ensures !Blank(a + b + c)
  {
    var i :| 0 <= i < |b| && !IsSpace(b[i]);
    assert (a + b + c)[|a| + i] == b[i];
  }

  predicate AllOk(m: seq<Message>) {
    forall k {:trigger MessageOk(m[k])} :: 0 <= k < |m| ==> MessageOk(m[k])
  }

  lemma AllOkConcat(a: seq<Message>, b: seq<Message>)
    ensures AllOk(a + b) <==> AllOk(a) && AllOk(b)
  {
    if AllOk(a + b) {
      forall k | 0 <= k < |a| ensures MessageOk(a[k]) {
        assert MessageOk((a + b)[k]);
      }
      forall k | 0 <= k < |b| ensures MessageOk(b[k]) {
        assert MessageOk((a + b)[|a| + k]);
      }
    }
    if AllOk(a) && AllOk(b) {
      forall k | 0 <= k < |a + b| ensures MessageOk((a + b)[k]) {
        assert if k < |a| then MessageOk(a[k]) else MessageOk(b[k - |a|]);
      }
    }
  }

  lemma ReplyOkIff(t: Turn)
    requires StoredChecked(t)
    ensures MessageOk(Message(Assistant, ReplyText(t))) <==> Clarified(t)
  {
    var r := t.response.value;
    if r.status.OtherStatus? {
      var tail := REQUESTED_AT + t.createdAt + HEADER_ZONE + t.input.timezone + SUBMITTED_NOTE;
      NonBlankInside(SUBMITTED, r.question, tail);
      assert ConversationReply(r, t.createdAt, t.input.timezone) == SUBMITTED + r.question + tail;
    }
  }

  lemma PairOkIff(t: Turn)
    requires StoredChecked(t)
    ensures AllOk(PairOf(t)) <==> Clarified(t)
  {
    ReplyOkIff(t);
    assert MessageOk(PairOf(t)[0]);
    assert MessageOk(PairOf(t)[1]) <==> Clarified(t);
  }

  lemma {:induction false} PairsOkIff(turns: seq<Turn>)
    requires forall i :: 0 <= i < |turns| ==> StoredChecked(turns[i])
    ensures AllOk(Pairs(turns)) <==> AllClarified(turns)
    decreases |turns|
  {
    if turns != [] {
      var n := |turns| - 1;
      PairsOkIff(turns[..n]);
      PairOkIff(turns[n]);
      AllOkConcat(Pairs(turns[..n]), PairOf(turns[n]));
      ClarifiedSplits(turns, n);
    }
  }

  lemma ClarifiedSplits(turns: seq<Turn>, n: nat)
    requires n == |turns| - 1
    ensures AllClarified(turns) <==> AllClarified(turns[..n]) && Clarified(turns[n])
  {
    if AllClarified(turns) {
      forall k | 0 <= k < n ensures Clarified(turns[..n][k]) {
        assert Clarified(turns[k]);
      }
    }
    if AllClarified(turns[..n]) && Clarified(turns[n]) {
      forall k | 0 <= k < |turns| ensures Clarified(turns[k]) {
        assert k < n ==> Clarified(turns[..n][k]);
      }
    }
  }

  lemma {:induction false} SizeBounded(m: seq<Message>)
    requires AllOk(m)
    ensures Size(m) <= MAX_RUNES * |m|
    decreases |m|
  {
    if m != [] {
      var n := |m| - 1;
      AllOkConcat(m[..n], m[n..]);
      assert m[..n] + m[n..] == m;
      assert MessageOk(m[n]);
      SizeBounded(m[..n]);
    }
  }

  predicate AnchorOk(a: Option<Anchor>) {
    a.Some? && a.value.question != "" ==> !Blank(a.value.question) && |a.value.question| <= MAX_RUNES
  }

  lemma HeaderNotBlank(a: Anchor)
    ensures !Blank(AnchorHeader(a))
  {
    var last := |HEADER| - 1;
    assert AnchorHeader(a)[last] == HEADER[last] == '\U{4e8e}';
  }

  /** The turns whose exchanges trimming keeps. */
  function KeptTurns(anchor: Option<Anchor>, recent: seq<Turn>): seq<Turn> {
    recent[|recent| - |Trim(AnchorMessages(anchor), Pairs(recent))| / 2..]
  }

  lemma {:induction false} PairsSuffix(turns: seq<Turn>, k: nat)
    requires k <= |turns|
    ensures Pairs(turns[k..]) == Pairs(turns)[2 * k..]
    decreases |turns|
  {
    if k == |turns| {
    } else {
      var n := |turns| - 1;
      PairsSuffix(turns[..n], k);
      assert turns[k..][..n - k] == turns[..n][k..];
    }
  }

  lemma KeptArePairs(anchor: Option<Anchor>, recent: seq<Turn>)
    ensures Trim(AnchorMessages(anchor), Pairs(recent)) == Pairs(KeptTurns(anchor, recent))
  {
    TrimKeepsWholePairs(AnchorMessages(anchor), Pairs(recent));
    PairsSuffix(recent, |recent| - |Trim(AnchorMessages(anchor), Pairs(recent))| / 2);
  }

  predicate HeaderFits(anchor: Option<Anchor>) {
    anchor.Some? && anchor.value.question != "" ==> |AnchorHeader(anchor.value)| <= MAX_RUNES
  }

  lemma HeadOkIff(anchor: Option<Anchor>)
    requires AnchorOk(anchor)
    ensures AllOk(AnchorMessages(anchor)) <==> HeaderFits(anchor)
  {
    var head := AnchorMessages(anchor);
    if head != [] {
      HeaderNotBlank(anchor.value);
      assert MessageOk(head[0]) <==> HeaderFits(anchor);
      assert MessageOk(head[1]);
    }
  }

  lemma ContextSize(anchor: Option<Anchor>, recent: seq<Turn>)
    requires AllOk(AnchorMessages(anchor)) && AllOk(Trim(AnchorMessages(anchor), Pairs(recent)))
    ensures Size(Context(anchor, recent)) <= MAX_TOTAL
  {
    var head := AnchorMessages(anchor);
    var kept := Trim(head, Pairs(recent));
    TrimKeepsWholePairs(head, Pairs(recent));
    SizeConcat(head, kept);
    SizeBounded(head);
    SizeBounded(kept);
  }

  lemma ValidIffAllOk(text: string, history: seq<Message>)
    requires 1 <= |text| <= MAX_RUNES && |history| <= MAX_MESSAGES
    ensures Validation(text, history).None? <==> AllOk(history) && Size(history) <= MAX_TOTAL
  {
  }

  /** From turns as the code checks them, a context passes validation exactly when the header of its anchor,
      whose time zone name the client chose, fits in a message and so does every clarification it keeps. */
  lemma ContextValidIff(text: string, anchor: Option<Anchor>, recent: seq<Turn>)
    requires 1 <= |text| <= MAX_RUNES && |recent| <= RECENT_TURNS && AnchorOk(anchor)
    requires forall i :: 0 <= i < |recent| ==> StoredChecked(recent[i])
    ensures Validation(text, Context(anchor, recent)).None?
            <==> HeaderFits(anchor) && AllClarified(KeptTurns(anchor, recent))
  {
    var head, kept := AnchorMessages(anchor), KeptTurns(anchor, recent);
    KeptArePairs(anchor, recent);
    PairsOkIff(kept);
    HeadOkIff(anchor);
    AllOkConcat(head, Pairs(kept));
    ValidIffAllOk(text, head + Pairs(kept));
    if HeaderFits(anchor) && AllClarified(kept) {
      ContextSize(anchor, recent);
    }
  }

  lemma OneBadMessage(text: string, history: seq<Message>, k: nat)
    requires k < |history| && !MessageOk(history[k])
    ensures Validation(text, history).Some?
  {
  }

  /** The context ends with the reply of the newest turn. */
  lemma ContextEnds(anchor: Option<Anchor>, recent: seq<Turn>)
    requires recent != []
    ensures var c := Context(anchor, recent);
            |c| >= 1 && c[|c| - 1] == Message(Assistant, ReplyText(recent[|recent| - 1]))
  {
    var head, pairs := AnchorMessages(anchor), Pairs(recent);
    TrimKeepsWholePairs(head, pairs);
    var kept := Trim(head, pairs);
    assert kept[|kept| - 1] == pairs[|pairs| - 1];
  }

  /** In particular, a blank clarification is kept, an over-long one is replaced by a question the reply does not
      have, and either way the context of the next turn is refused. */
  lemma BadClarificationBreaks(text: string, anchor: Option<Anchor>, recent: seq<Turn>)
    requires recent != [] && !Clarified(recent[|recent| - 1]) && recent[|recent| - 1].response.value.question == ""
    ensures Validation(text, Context(anchor, recent)).Some?
  {
    ContextEnds(anchor, recent);
    var c := Context(anchor, recent);
    OneBadMessage(text, c, |c| - 1);
  }
}
