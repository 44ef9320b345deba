/** backend/internal/app/conversations.go: durable turns with an optimistic revision, one fence per attempt,
    an expiring lease and a history frozen at reservation. */
module Conversations {
  import opened Wrappers
  import opened History

  const LEASE: int := 180
  const TURN_LIMIT: nat := 500
  const TITLE_RUNES: nat := 60
  const INTERRUPTED := "conversation_interrupted"
  const NEW_TITLE := "新对话"

  datatype Conv = Conv(
    subject: string, revision: nat, title: string, summary: Option<Anchor>, contextAfter: nat,
    teams: seq<string>, datasets: seq<string>, turns: seq<Turn>)

  /** Who calls, and the teams and enabled datasets that person may use right now. */
  datatype Access = Access(subject: string, teams: set<string>, datasets: set<string>)

  /** The row behind a tool's reply: a data query joined with its dataset, or an investigation. */
  datatype TaskRow = TaskRow(owner: string, team: string, dataset: string)

  /** What the caller holds while the models run. */
  datatype Ticket = Ticket(
    id: string, seqNo: nat, baseRevision: nat, input: Input, history: seq<Message>, hasAnchor: bool,
    fence: string, createdAt: string)

  datatype ConvError = NoRows | PayloadConflict | Busy | Changed | Full
  datatype Reservation = Granted(ticket: Ticket) | Replayed(response: Option<Response>) | Refused(error: ConvError)

  // ---- queries ------------------------------------------------------------------------

  predicate Visible(c: Conv, who: Access) {
    && c.subject == who.subject
    && (forall t :: t in c.teams ==> t in who.teams)
    && (forall d :: d in c.datasets ==> d in who.datasets)
  }

  predicate Expired(t: Turn, now: int) {
    t.status.Pending? && t.leaseUntil < now
  }

  function Swept(t: Turn, now: int): Turn {
    if Expired(t, now) then t.(status := Failed, error := INTERRUPTED) else t
  }

  function Sweep(turns: seq<Turn>, now: int): (r: seq<Turn>)
    ensures |r| == |turns|
    ensures forall k :: 0 <= k < |r| ==> r[k] == Swept(turns[k], now)
  {
    seq(|turns|, k requires 0 <= k < |turns| => Swept(turns[k], now))
  }

  /** The unique index on (conversation, idem). */
  function ByKey(turns: seq<Turn>, key: string): (r: Option<nat>)
    ensures r.Some? ==> r.value < |turns| && turns[r.value].idem == key
    ensures r.None? ==> forall k :: 0 <= k < |turns| ==> turns[k].idem != key
  {
    if turns == [] then None
    else if turns[|turns| - 1].idem == key then Some(|turns| - 1)
    else ByKey(turns[..|turns| - 1], key)
  }

  predicate IsOpen(t: Turn, id: string, fence: string) {
    t.id == id && t.fence == fence && t.status.Pending?
  }

  /** id = $1 and fence = $2 and status = 'pending'; the id is the primary key. */
  function OpenAt(turns: seq<Turn>, id: string, fence: string): (r: Option<nat>)
    ensures r.Some? ==> r.value < |turns| && IsOpen(turns[r.value], id, fence)
    ensures r.None? ==> forall k :: 0 <= k < |turns| ==> !IsOpen(turns[k], id, fence)
  {
    if turns == [] then None
    else if IsOpen(turns[|turns| - 1], id, fence) then Some(|turns| - 1)
    else OpenAt(turns[..|turns| - 1], id, fence)
  }

  predicate AnyPending(turns: seq<Turn>) {
    exists k :: 0 <= k < |turns| && turns[k].status.Pending?
  }

  /** The completed turns, oldest first. */
  function Done(turns: seq<Turn>): seq<Turn> {
    if turns == [] then []
    else
      var last := turns[|turns| - 1];
      Done(turns[..|turns| - 1]) + (if last.status.Completed? then [last] else [])
  }

  function After(turns: seq<Turn>, n: nat): seq<Turn> {
    if turns == [] then []
    else
      var last := turns[|turns| - 1];
      After(turns[..|turns| - 1], n) + (if last.seqNo > n then [last] else [])
  }

  function LastFew(turns: seq<Turn>): (r: seq<Turn>)
    ensures |r| <= RECENT_TURNS && |r| <= |turns|
    ensures forall k :: 0 <= k < |r| ==> r[k] == turns[|turns| - |r| + k]
  {
    if |turns| <= RECENT_TURNS then turns else turns[|turns| - RECENT_TURNS..]
  }

  /** The newest completed turns after the context boundary, oldest first. */
  function Recent(done: seq<Turn>, after: nat): seq<Turn> {
    LastFew(After(done, after))
  }

  predicate HasAnchor(summary: Option<Anchor>) {
    summary.Some? && summary.value.question != ""
  }

  function SourceOf(who: Access, r: Response, task: Option<TaskRow>): Option<TaskRow> {
    if task.Some? && task.value.owner == who.subject && task.value.team in who.teams
       && (r.kind == Some(Warehouse) ==> task.value.dataset in who.datasets) then task
    else None
  }

  function ShortText(s: string, n: nat): string {
    if |s| > n then s[..n] else s
  }

  function AppendNew(s: seq<string>, x: string): seq<string> {
    if x == "" || x in s then s else s + [x]
  }

  // ---- transactions -------------------------------------------------------------------

  function TicketOf(t: Turn): Ticket {
    Ticket(t.id, t.seqNo, t.baseRevision, t.input, t.history, t.hasAnchor, t.fence, t.createdAt)
  }

  /** The row of a new turn, with its frozen history. */
  function Fresh(c: Conv, now: int, key: string, b: Input, id: string, fence: string, seqNo: nat,
      created: string): Turn {
    Turn(id, seqNo, key, c.revision, b, Context(c.summary, Recent(Done(c.turns), c.contextAfter)), HasAnchor(c.summary),
         Pending, None, "", fence, now + LEASE, created)
  }

  function Retried(t: Turn, now: int, fence: string): Turn {
    t.(status := Pending, error := "", fence := fence, leaseUntil := now + LEASE)
  }

  /** Every error rolls the transaction back, the sweep included. */
  function ReserveTx(c: Conv, now: int, who: Access, key: string, b: Input,
                     id: string, fence: string, seqNo: nat, created: string): (Conv, Reservation) {
    if !Visible(c, who) then (c, Refused(NoRows))
    else
      var s := c.(turns := Sweep(c.turns, now));
      var prior := ByKey(s.turns, key);
      if prior.Some? && s.turns[prior.value].input != b then (c, Refused(PayloadConflict))
      else if prior.Some? && s.turns[prior.value].status.Completed? then (s, Replayed(s.turns[prior.value].response))
      else if prior.Some? && s.turns[prior.value].status.Pending? then (c, Refused(Busy))
      else if prior.Some? && s.turns[prior.value].baseRevision != c.revision then (c, Refused(Changed))
      else if b.revision != c.revision then (c, Refused(Changed))
      else if AnyPending(s.turns) then (c, Refused(Busy))
      else if prior.Some? then
        var t := Retried(s.turns[prior.value], now, fence);
        (s.(turns := s.turns[prior.value := t]), Granted(TicketOf(t)))
      else if |s.turns| >= TURN_LIMIT then (c, Refused(Full))
      else
        var t := Fresh(s, now, key, b, id, fence, seqNo, created);
        (s.(turns := s.turns + [t]), Granted(TicketOf(t)))
  }

  function FailTx(c: Conv, tk: Ticket, code: string): Conv {
    var k := OpenAt(c.turns, tk.id, tk.fence);
    if k.None? then c else c.(turns := c.turns[k.value := c.turns[k.value].(status := Failed, error := code)])
  }

  function AnchorOf(kind: ToolKind, r: Response, created: string, zone: string): Anchor {
    Anchor(kind, r.question, r.id, created, zone)
  }

  function Answered(t: Turn, r: Response): Turn {
    t.(status := Completed, response := Some(r), error := "")
  }

  function NextSummary(before: Option<Anchor>, r: Response, created: string, zone: string): Option<Anchor> {
    if r.kind.Some? then Some(AnchorOf(r.kind.value, r, created, zone)) else if r.reset then None else before
  }

  /** The conversation row after a completed turn. */
  function Advanced(c: Conv, tk: Ticket, r: Response, team: string, dataset: string): Conv {
    Conv(c.subject, c.revision + 1,
         if c.revision == 0 then ShortText(tk.input.text, TITLE_RUNES) else c.title,
         NextSummary(c.summary, r, tk.createdAt, tk.input.timezone),
         if r.reset then tk.seqNo else c.contextAfter,
         AppendNew(c.teams, team), AppendNew(c.datasets, dataset), c.turns)
  }

  function CompleteTx(c: Conv, who: Access, tk: Ticket, r: Response, task: Option<TaskRow>): Result<Conv, ConvError> {
    if !Visible(c, who) then Err(NoRows)
    else if c.revision != tk.baseRevision then Err(Changed)
    else
      var source := SourceOf(who, r, task);
      if r.kind.Some? && source.None? then Err(NoRows)
      else
        var k := OpenAt(c.turns, tk.id, tk.fence);
        if k.None? then Err(Changed)
        else
          var team := if r.kind.Some? then source.value.team else "";
          var dataset := if r.kind == Some(Warehouse) then source.value.dataset else "";
          Ok(Advanced(c.(turns := c.turns[k.value := Answered(c.turns[k.value], r)]), tk, r, team, dataset))
  }

  // ---- the row in the database ----------------------------------------------------------

  class Conversation {
    var subject: string
    var revision: nat
    var title: string
    var summary: Option<Anchor>
    var contextAfter: nat
    var teams: seq<string>
    var datasets: seq<string>
    var turns: seq<Turn>

    constructor (owner: string)
      ensures Value() == Start(owner)
    {
      subject, revision, title, summary, contextAfter := owner, 0, NEW_TITLE, None, 0;
      teams, datasets, turns := [], [], [];
    }

    function Value(): Conv
      reads this
    {
      Conv(subject, revision, title, summary, contextAfter, teams, datasets, turns)
    }

    method Reserve(now: int, who: Access, key: string, b: Input, id: string, fence: string, seqNo: nat, created: string)
      returns (reply: Reservation)
      modifies this`turns
      ensures (Value(), reply) == ReserveTx(old(Value()), now, who, key, b, id, fence, seqNo, created)
    {
      if !Visible(Value(), who) {
        return Refused(NoRows);
      }
      var swept := Sweep(turns, now);
      var prior := ByKey(swept, key);
      if prior.Some? {
        var t := swept[prior.value];
        if t.input != b {
          return Refused(PayloadConflict);
        }
        if t.status.Completed? {
          turns := swept;
          return Replayed(t.response);
        }
        if t.status.Pending? {
          return Refused(Busy);
        }
        if t.baseRevision != revision {
          return Refused(Changed);
        }
      }
      if b.revision != revision {
        return Refused(Changed);
      }
      if AnyPending(swept) {
        return Refused(Busy);
      }
      if prior.Some? {
        var t := swept[prior.value].(status := Pending, error := "", fence := fence, leaseUntil := now + LEASE);
        turns := swept[prior.value := t];
        return Granted(TicketOf(t));
      }
      if |swept| >= TURN_LIMIT {
        return Refused(Full);
      }
      var recent := Recent(Done(swept), contextAfter);
      var history := BuildHistory(Reversed(recent), summary);
      assert Reversed(Reversed(recent)) == recent;
      var t := Turn(id, seqNo, key, revision, b, history, summary.Some? && summary.value.question != "",
                    Pending, None, "", fence, now + LEASE, created);
      turns := swept + [t];
      reply := Granted(TicketOf(t));
    }

    method Fail(tk: Ticket, code: string)
      modifies this`turns
      ensures Value() == FailTx(old(Value()), tk, code)
    {
      var k := OpenAt(turns, tk.id, tk.fence);
      if k.Some? {
        turns := turns[k.value := turns[k.value].(status := Failed, error := code)];
      }
    }

    method Complete(who: Access, tk: Ticket, r: Response, task: Option<TaskRow>) returns (error: Option<ConvError>)
      modifies this
      ensures match CompleteTx(old(Value()), who, tk, r, task)
              case Ok(c) => error == None && Value() == c
              case Err(e) => error == Some(e) && Value() == old(Value())
    {
      if !Visible(Value(), who) {
        return Some(NoRows);
      }
      if revision != tk.baseRevision {
        return Some(Changed);
      }
      var team, dataset := "", "";
      if r.kind.Some? {
        var source := SourceOf(who, r, task);
        if source.None? {
          return Some(NoRows);
        }
        team := source.value.team;
        if r.kind.value.Warehouse? {
          dataset := source.value.dataset;
        }
      }
      var k := OpenAt(turns, tk.id, tk.fence);
      if k.None? {
        return Some(Changed);
      }
      turns := turns[k.value := turns[k.value].(status := Completed, response := Some(r), error := "")];
      Advance(tk, r, team, dataset);
      error := None;
    }

    /** update conversations set revision=revision+1, ... */
    method Advance(tk: Ticket, r: Response, team: string, dataset: string)
      modifies this
      ensures Value() == Advanced(old(Value()), tk, r, team, dataset)
    {
      if r.kind.Some? {
        summary := Some(Anchor(r.kind.value, r.question, r.id, tk.createdAt, tk.input.timezone));
      } else if r.reset {
        summary := None;
      }
      if revision == 0 {
        title := ShortText(tk.input.text, TITLE_RUNES);
      }
      if team != "" && team !in teams {
        teams := teams + [team];
      }
      if dataset != "" && dataset !in datasets {
        datasets := datasets + [dataset];
      }
      if r.reset {
        contextAfter := tk.seqNo;
      }
      revision := revision + 1;
    }
  }

  function Start(owner: string): Conv {
    Conv(owner, 0, NEW_TITLE, None, 0, [], [], [])
  }
}
