/** backend/internal/app/conversations.go, postConversationTurn: the turn's id is the key of its routing request,
    so every attempt of a turn asks for the same thing and is served the same decision. */
module TurnRequests {
  import opened Wrappers
  import opened History
  import C = Conversations
  import Dialogue
  import opened Unified
  import opened FirstDecision

  const KEY_PREFIX := "conversation:"

  function ModeOf(mode: string): Mode {
    if mode == "warehouse" then WarehouseMode else if mode == "investigation" then InvestigationMode else AutoMode
  }

  /** The request an attempt makes with its ticket. */
  function CallOf(subject: string, tk: C.Ticket): Call {
    Call(subject, KEY_PREFIX + tk.id, UnifiedInput(tk.input.text, tk.input.timezone, ModeOf(tk.input.mode), tk.history))
  }

  /** All attempts of one turn make the same request, however often it failed, expired and was retried. */
  lemma AttemptsAskTheSame(t: Dialogue.Talk, steps: seq<Dialogue.Step>, i: nat, j: nat, subject: string)
    requires Dialogue.Init(t) && Dialogue.Runs(t, steps)
    requires i < |Dialogue.Run(t, steps).held| && j < |Dialogue.Run(t, steps).held|
    requires Dialogue.Run(t, steps).held[i].id == Dialogue.Run(t, steps).held[j].id
    ensures CallOf(subject, Dialogue.Run(t, steps).held[i]) == CallOf(subject, Dialogue.Run(t, steps).held[j])
  {
    Dialogue.InitInv(t);
    Dialogue.RunKeeps(t, steps);
    var u := Dialogue.Run(t, steps);
    var a, b := u.held[i], u.held[j];
    var x :| 0 <= x < |u.conv.turns| && Dialogue.Fits(a, u.conv.turns[x]);
    Dialogue.OpenTurn(u.conv, b, x);
  }

  /** The key is used by one request only, and not by tasks created directly. */
  predicate OnlyCall(s: Step, c: Call) {
    && (s.Begin? && s.call.Index() == c.Index() ==> s.call == c)
    && (s.Direct? ==> s.key != c.Index())
  }

  /** Everything stored under the key stems from the request. */
  predicate Clean(db: Db, c: Call) {
    var k := c.Index();
    && (k in db.requests ==> db.requests[k].hash == c.input)
    && (k in db.investigations ==>
          && k in db.requests && db.requests[k].decision.Some?
          && db.investigations[k].hash == NaturalHash(db.requests[k].decision.value.question, c.input.timezone))
  }

  predicate Unrefused(t: Thread, c: Call) {
    t.call.Index() == c.Index() ==> t.call == c && t.pc != Replied(Refused(PayloadConflict))
  }

  predicate AllUnrefused(threads: seq<Thread>, c: Call) {
    forall i {:trigger threads[i]} :: 0 <= i < |threads| ==> Unrefused(threads[i], c)
  }

  lemma OwnAdvance(a: Db, c: Call, pc: Pc, o: Outside)
    requires DbOk(a) && PcOk(a, c, pc) && !pc.Replied? && Clean(a, c)
    ensures var (b, next) := Advance(a, c, pc, o);
            Clean(b, c) && next != Replied(Refused(PayloadConflict))
  {
    assert c.Index() in a.queries ==> QueryOk(a, c.Index());
  }

  lemma OtherAdvance(a: Db, c: Call, other: Call, pc: Pc, o: Outside)
    requires !pc.Replied? && Clean(a, c) && other.Index() != c.Index()
    ensures Clean(Advance(a, other, pc, o).0, c)
  {
  }

  lemma StepStaysClean(s: System, step: Step, c: Call)
    requires Inv(s) && Enabled(s, step) && OnlyCall(step, c) && Clean(s.db, c) && AllUnrefused(s.threads, c)
    ensures Clean(Apply(s, step).db, c) && AllUnrefused(Apply(s, step).threads, c)
  {
    if step.Go? {
      var t := s.threads[step.i];
      assert Unrefused(t, c) && PcOk(s.db, t.call, t.pc);
      if t.call.Index() == c.Index() {
        OwnAdvance(s.db, t.call, t.pc, step.outside);
      } else {
        OtherAdvance(s.db, c, t.call, t.pc, step.outside);
      }
    }
  }

  lemma {:induction false} RunStaysClean(s: System, steps: seq<Step>, c: Call)
    requires Inv(s) && Runs(s, steps) && Clean(s.db, c) && AllUnrefused(s.threads, c)
    requires forall i :: 0 <= i < |steps| ==> OnlyCall(steps[i], c)
    ensures AllUnrefused(Run(s, steps).threads, c)
    decreases |steps|
  {
    if steps != [] {
      StepStaysClean(s, steps[0], c);
      StepKeeps(s, steps[0]);
      RunStaysClean(Apply(s, steps[0]), steps[1..], c);
    }
  }

  /** As long as only its own attempts use a turn's key, none of them is ever refused as a different request, and
      all that are served from what is stored get the same reply. */
  lemma AttemptsNeverConflict(s: System, steps: seq<Step>, subject: string, tk: C.Ticket, i: nat, j: nat)
    requires FirstDecision.Init(s) && Runs(s, steps)
    requires forall k :: 0 <= k < |steps| ==> OnlyCall(steps[k], CallOf(subject, tk))
    requires i < |Run(s, steps).threads| && j < |Run(s, steps).threads|
    requires Run(s, steps).threads[i].call == CallOf(subject, tk) == Run(s, steps).threads[j].call
    ensures var a, b := Run(s, steps).threads[i].pc, Run(s, steps).threads[j].pc;
            && a != Replied(Refused(PayloadConflict))
            && (a.Replied? && a.reply.Stored() && b.Replied? && b.reply.Stored() ==> a.reply == b.reply)
  {
    RunStaysClean(s, steps, CallOf(subject, tk));
    var a, b := Run(s, steps).threads[i], Run(s, steps).threads[j];
    assert Unrefused(a, CallOf(subject, tk));
    if a.pc.Replied? && a.pc.reply.Stored() && b.pc.Replied? && b.pc.reply.Stored() {
      RepliesAgree(s, steps, i, j);
    }
  }
}
