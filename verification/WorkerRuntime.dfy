/** worker/incident_worker/runtime.py: a worker delivers one result over a network that loses requests
    and replies, while the rest of the system moves on. */
module WorkerRuntime {
  import opened Wrappers
  import opened Tables
  import opened Invariants
  import opened ControlPlane
  import opened Safety
  import opened Publications
  import Queue

  const MAX_SENDS: nat := 3

  /** What happens around one attempt: steps of others first, then the request arrives or not, and the
      reply comes back or not. */
  datatype Attempt = Attempt(meanwhile: seq<Step>, delivered: bool, answered: bool)

  datatype Answer = Lost | Refused(error: Error) | Accepted

  /** The answer the server gives to the callback in this state. */
  function Reply(w: World, id: Id, b: Callback): Answer
    requires w.db.Valid()
  {
    match Queue.CallbackTx(w.db, w.now, w.lease, id, Queue.ResultOp, b).reply
    case Ok(_) => Accepted
    case Err(e) => Refused(e)
  }

  /** The callback was published, by this very body. */
  ghost predicate PublishedBy(w: World, id: Id, b: Callback) {
    exists k :: 0 <= k < |w.Published(id)| && w.Published(id)[k] == Publication(b.generation, b)
  }

  /** How many publications of the job carry the generation. */
  ghost function CountOf(pubs: seq<Publication>, g: nat): nat {
    if pubs == [] then 0 else (if pubs[|pubs| - 1].generation == g then 1 else 0) + CountOf(pubs[..|pubs| - 1], g)
  }

  lemma {:induction false} IncreasingCountsOnce(pubs: seq<Publication>, g: nat)
    requires Increasing(pubs)
    ensures CountOf(pubs, g) <= 1
    ensures CountOf(pubs, g) == 1 <==> exists k :: 0 <= k < |pubs| && pubs[k].generation == g
    decreases |pubs|
  {
    if pubs != [] {
      var init := pubs[..|pubs| - 1];
      IncreasingCountsOnce(init, g);
      if exists k :: 0 <= k < |pubs| && pubs[k].generation == g {
        var k :| 0 <= k < |pubs| && pubs[k].generation == g;
        assert k < |init| ==> init[k].generation == g;
      }
    }
  }

  /** An accepted callback is published, now or before, with exactly this body. */
  lemma AcceptedIsPublished(w: World, id: Id, b: Callback)
    requires Core(w) && History(w) && Reply(w, id, b).Accepted?
    ensures PublishedBy(Apply(w, ControlPlane.Callback(id, Queue.ResultOp, b)), id, b)
  {
    if Publishes(w.db, CallbackWorld(w, id, Queue.ResultOp, b).db, id) {
      PublishedNow(w, id, b);
    } else {
      ResultCases(w.db, w.now, w.lease, id, b);
      ReplayedBefore(w.db, w.now, w.lease, id, b);
      assert TaskHistory(w, id);
      RecordedIsPublished(w, id, b);
    }
  }

  lemma PublishedNow(w: World, id: Id, b: Callback)
    requires w.db.Valid() && Publishes(w.db, CallbackWorld(w, id, Queue.ResultOp, b).db, id)
    ensures PublishedBy(CallbackWorld(w, id, Queue.ResultOp, b), id, b)
  {
    var w' := CallbackWorld(w, id, Queue.ResultOp, b);
    assert w'.Published(id)[|w.Published(id)|] == Publication(b.generation, b);
  }

  lemma RecordedIsPublished(w: World, id: Id, b: Callback)
    requires TaskHistory(w, id) && id in w.db.tasks && w.db.tasks[id].job.resultHash == Some(CallbackHash(b))
    ensures PublishedBy(w, id, b)
  {
    var k :| 0 <= k < |w.Published(id)|
        && w.db.tasks[id].job.resultHash.value == CallbackHash(w.Published(id)[k].callback);
    assert w.Published(id)[k] == Publication(b.generation, b);
  }

  lemma ReplayedBefore(db: Db, now: int, lease: nat, id: Id, b: Callback)
    requires db.Valid()
    requires var r := Queue.CallbackTx(db, now, lease, id, Queue.ResultOp, b); r.reply.Ok? && !Publishes(db, r.db, id)
    ensures id in db.tasks && db.tasks[id].job.resultHash == Some(CallbackHash(b))
  {
  }

  lemma PublishedStays(w: World, s: Step, id: Id, b: Callback)
    requires Core(w) && PublishedBy(w, id, b)
    ensures PublishedBy(Apply(w, s), id, b)
  {
    var w' := Apply(w, s);
    HistoryGrows(w, s, id);
    var k :| 0 <= k < |w.Published(id)| && w.Published(id)[k] == Publication(b.generation, b);
    assert w'.Published(id)[k] == Publication(b.generation, b);
  }

  lemma HistoryGrows(w: World, s: Step, id: Id)
    requires w.db.Valid()
    ensures w.Published(id) <= Apply(w, s).Published(id)
  {
    if s.Callback? {
      CallbackGrows(w, s, id);
    } else if s.Resume? {
      ResumeGrows(w, s);
    } else {
      QuietStepHistory(w, s);
    }
  }

  lemma CallbackGrows(w: World, s: Step, id: Id)
    requires w.db.Valid() && s.Callback?
    ensures w.Published(id) <= Apply(w, s).Published(id)
  {
  }

  lemma ResumeGrows(w: World, s: Step)
    requires w.db.Valid() && s.Resume?
    ensures Apply(w, s).published == w.published
  {
  }

  lemma {:induction false} PublishedStaysOverRun(w: World, steps: seq<Step>, id: Id, b: Callback)
    requires Core(w) && PublishedBy(w, id, b)
    ensures PublishedBy(Run(w, steps), id, b)
    decreases |steps|
  {
    if steps != [] {
      CoreStep(w, steps[0]);
      PublishedStays(w, steps[0], id, b);
      PublishedStaysOverRun(Apply(w, steps[0]), steps[1..], id, b);
    }
  }

  ghost predicate Sound(w: World) {
    Core(w) && History(w)
  }

  lemma SoundRun(w: World, steps: seq<Step>)
    requires Sound(w)
    ensures Sound(Run(w, steps))
  {
    RunCore(w, steps);
    RunHistory(w, steps);
  }

  /** The system once the first n attempts have happened. */
  ghost function After(w: World, id: Id, b: Callback, net: seq<Attempt>, n: nat): (r: World)
    requires w.db.Valid() && n <= |net|
    ensures r.db.Valid()
  {
    if n == 0 then w
    else
      var arrived := Run(After(w, id, b, net, n - 1), net[n - 1].meanwhile);
      if net[n - 1].delivered then Apply(arrived, ControlPlane.Callback(id, Queue.ResultOp, b)) else arrived
  }

  /** What the worker sees of attempt k. */
  ghost function AnswerAt(w: World, id: Id, b: Callback, net: seq<Attempt>, k: nat): Answer
    requires w.db.Valid() && k < |net|
  {
    if net[k].delivered && net[k].answered
    then Reply(Run(After(w, id, b, net, k), net[k].meanwhile), id, b) else Lost
  }

  /** What is known once n attempts have happened. */
  ghost predicate SoundAfter(w0: World, id: Id, b: Callback, net: seq<Attempt>, n: nat) {
    w0.db.Valid() && n <= |net| && Sound(After(w0, id, b, net, n))
  }

  /** The answers are those the attempts produce. */
  ghost predicate Heard(w0: World, id: Id, b: Callback, net: seq<Attempt>, answers: seq<Answer>)
    requires w0.db.Valid()
  {
    |answers| == |net| && forall k :: 0 <= k < |net| ==> answers[k] == AnswerAt(w0, id, b, net, k)
  }

  /** After n attempts the generation is published at most once, and by this body if the last was accepted. */
  ghost predicate Settled(w0: World, id: Id, b: Callback, net: seq<Attempt>, n: nat, last: Answer) {
    && w0.db.Valid() && n <= |net|
    && var w := After(w0, id, b, net, n);
    && CountOf(w.Published(id), b.generation) <= 1
    && (last.Accepted? ==> PublishedBy(w, id, b) && CountOf(w.Published(id), b.generation) == 1)
  }

  lemma AttemptKeeps(w0: World, id: Id, b: Callback, net: seq<Attempt>, answers: seq<Answer>, k: nat)
    requires SoundAfter(w0, id, b, net, k) && k < |net| && Heard(w0, id, b, net, answers)
    ensures SoundAfter(w0, id, b, net, k + 1) && Settled(w0, id, b, net, k + 1, answers[k])
  {
    var w := After(w0, id, b, net, k);
    SoundRun(w, net[k].meanwhile);
    var arrived := Run(w, net[k].meanwhile);
    CoreStep(arrived, ControlPlane.Callback(id, Queue.ResultOp, b));
    HistoryStep(arrived, ControlPlane.Callback(id, Queue.ResultOp, b));
    assert answers[k] == AnswerAt(w0, id, b, net, k);
    if answers[k].Accepted? {
      AcceptedIsPublished(arrived, id, b);
    }
    PublishedOnce(After(w0, id, b, net, k + 1), id, b);
  }

  lemma PublishedOnce(w: World, id: Id, b: Callback)
    requires Sound(w)
    ensures CountOf(w.Published(id), b.generation) <= 1
    ensures PublishedBy(w, id, b) ==> CountOf(w.Published(id), b.generation) == 1
  {
    assert TaskHistory(w, id);
    IncreasingCountsOnce(w.Published(id), b.generation);
  }

  lemma {:induction false} AllAttempts(w0: World, id: Id, b: Callback, net: seq<Attempt>, answers: seq<Answer>, n: nat)
    requires Sound(w0) && n <= |net| && Heard(w0, id, b, net, answers)
    ensures SoundAfter(w0, id, b, net, n)
    ensures n > 0 ==> Settled(w0, id, b, net, n, answers[n - 1])
    decreases n
  {
    if n > 0 {
      AllAttempts(w0, id, b, net, answers, n - 1);
      AttemptKeeps(w0, id, b, net, answers, n - 1);
    }
  }

  /** In every later state this body is published, once, and nothing else is for its generation. */
  ghost predicate ForGood(w: World, id: Id, b: Callback) {
    w.db.Valid() && forall steps: seq<Step> ::
      var later := Run(w, steps); PublishedBy(later, id, b) && CountOf(later.Published(id), b.generation) == 1
  }

  lemma PublishedForGood(w: World, id: Id, b: Callback)
    requires Sound(w) && PublishedBy(w, id, b)
    ensures ForGood(w, id, b)
  {
    forall steps: seq<Step>
      ensures var later := Run(w, steps); PublishedBy(later, id, b) && CountOf(later.Published(id), b.generation) == 1
    {
      SoundRun(w, steps);
      PublishedStaysOverRun(w, steps, id, b);
      PublishedOnce(Run(w, steps), id, b);
    }
  }

  /** Runtime.result: one body with one callback id, sent up to three times, again only when the transport
      failed. If the call succeeds, this body was published and stays so; either way its generation is published
      at most once, whatever happened in between. */
  method SendResult(ghost w0: World, id: Id, b: Callback, ghost net: seq<Attempt>, answers: seq<Answer>)
    returns (answer: Answer, sends: nat)
    requires Sound(w0) && |net| == MAX_SENDS && |answers| == MAX_SENDS && Heard(w0, id, b, net, answers)
    ensures 1 <= sends <= MAX_SENDS
    ensures answer == answers[sends - 1] && (answer.Lost? ==> sends == MAX_SENDS)
    ensures forall k :: 0 <= k < sends - 1 ==> answers[k].Lost?
    ensures Settled(w0, id, b, net, sends, answer)
    ensures answer.Accepted? ==> ForGood(After(w0, id, b, net, sends), id, b)
  {
    answer, sends := Resend(answers);
    AllAttempts(w0, id, b, net, answers, sends);
    if answer.Accepted? {
      PublishedForGood(After(w0, id, b, net, sends), id, b);
    }
  }

  /** The loop itself: stop at the first answer, whatever it is. */
  method Resend(answers: seq<Answer>) returns (answer: Answer, sends: nat)
    requires |answers| == MAX_SENDS
    ensures 1 <= sends <= MAX_SENDS
    ensures answer == answers[sends - 1] && (answer.Lost? ==> sends == MAX_SENDS)
    ensures forall k :: 0 <= k < sends - 1 ==> answers[k].Lost?
  {
    answer := Lost;
    sends := 0;
    while sends < MAX_SENDS && answer.Lost?
      invariant 0 <= sends <= MAX_SENDS
      invariant if sends == 0 then answer.Lost? else answer == answers[sends - 1]
      invariant forall k :: 0 <= k < sends - 1 ==> answers[k].Lost?
    {
      answer := answers[sends];
      sends := sends + 1;
    }
  }

  /** A changed payload under the same callback id is refused and changes nothing, as long as the
      publication stands. */
  lemma ChangedPayloadRefused(w: World, id: Id, b: Callback, changed: Callback)
    requires Core(w) && id in w.db.tasks && w.db.tasks[id].job.resultHash == Some(CallbackHash(b))
    requires w.db.tasks[id].job.lastCallback == Some(b.callbackId) && !w.db.tasks[id].job.state.JobRunning?
    requires changed.callbackId == b.callbackId && changed != b
    ensures Reply(w, id, changed).Refused? && Apply(w, ControlPlane.Callback(id, Queue.ResultOp, changed)).db == w.db
  {
  }
}
