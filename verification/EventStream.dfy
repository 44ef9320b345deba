/** The cursor replay of backend/internal/app/queue.go (events): pages of 200, polled while the log grows,
    over any number of reconnects with Last-Event-ID. */
module EventStream {
  import opened Wrappers
  import opened Tables
  import opened Invariants
  import opened ControlPlane
  import opened Safety

  const PAGE: nat := 200

  /** A reload notice with the latest number, or one stored event. */
  datatype Frame = Reload(seqNo: int) | Row(seqNo: int, event: Event)

  /** "seq > n order by seq limit 200": increasing, from the log, and nothing skipped. */
  ghost predicate IsPage(log: map<int, Event>, n: int, rows: seq<int>) {
    && |rows| <= PAGE
    && (forall k :: 0 <= k < |rows| ==> rows[k] in log && rows[k] > n)
    && (forall i, k :: 0 <= i < k < |rows| ==> rows[i] < rows[k])
    && (forall s :: s in log && s > n && s !in rows ==> |rows| == PAGE && s > rows[PAGE - 1])
  }

  lemma {:induction false} RowIsNext(t: Task, n: int, rows: seq<int>, k: nat)
    requires Numbered(t) && 0 <= n && IsPage(t.log, n, rows) && k < |rows|
    ensures rows[k] == n + 1 + k
    decreases k
  {
    if k > 0 {
      RowIsNext(t, n, rows, k - 1);
    }
    var expected := n + 1 + k;
    assert rows[k] in t.log && rows[k] >= expected;
    assert expected in rows;
    var i :| 0 <= i < |rows| && rows[i] == expected;
    assert i == k;
  }

  /** In a log without gaps a page is the next 200 numbers, or all that remain. */
  lemma PageIsNextNumbers(t: Task, n: int, rows: seq<int>)
    requires Numbered(t) && 0 <= n <= t.inv.seqNo && IsPage(t.log, n, rows)
    ensures |rows| == Min(PAGE, t.inv.seqNo - n) && forall k :: 0 <= k < |rows| ==> rows[k] == n + 1 + k
  {
    forall k | 0 <= k < |rows| ensures rows[k] == n + 1 + k {
      RowIsNext(t, n, rows, k);
    }
    if |rows| > 0 {
      assert rows[|rows| - 1] in t.log;
    }
    var s := n + |rows| + 1;
    assert s !in rows;
    assert s in t.log ==> |rows| == PAGE;
  }

  /** The lowest number stored, or the counter when nothing is. */
  ghost predicate IsEarliest(t: Task, earliest: int) {
    if t.log == map[] then earliest == t.inv.seqNo
    else earliest in t.log && forall s :: s in t.log ==> earliest <= s
  }

  predicate NeedsSnapshot(n: int, latest: int, earliest: int) {
    n > latest || (n > 0 && n < earliest - 1)
  }

  /** The reload branch fires exactly for a cursor beyond the latest event. */
  lemma SnapshotOnlyBeyondLatest(t: Task, n: int, earliest: int)
    requires Numbered(t) && 0 <= n && IsEarliest(t, earliest)
    ensures NeedsSnapshot(n, t.inv.seqNo, earliest) <==> n > t.inv.seqNo
  {
    if t.log == map[] {
      assert t.inv.seqNo >= 1 ==> 1 in t.log;
    } else {
      assert t.inv.seqNo >= 1 ==> 1 in t.log;
    }
  }

  // ---- one connection --------------------------------------------------------------------

  function LastOf(n: int, rows: seq<int>): int {
    if rows == [] then n else rows[|rows| - 1]
  }

  /** The cursor once the pages were shown. */
  function CursorAt(n: int, pages: seq<seq<int>>): int {
    if pages == [] then n else LastOf(CursorAt(n, pages[..|pages| - 1]), pages[|pages| - 1])
  }

  /** Each poll reads the page after the cursor from the log as it is then. */
  ghost predicate Queried(n: int, views: seq<Task>, pages: seq<seq<int>>) {
    |views| == |pages|
        && forall i {:trigger PageAt(n, views, pages, i)} :: 0 <= i < |pages| ==> PageAt(n, views, pages, i)
  }

  ghost predicate PageAt(n: int, views: seq<Task>, pages: seq<seq<int>>, i: nat)
    requires i < |views| == |pages|
  {
    IsPage(views[i].log, CursorAt(n, pages[..i]), pages[i])
  }

  predicate AllIn(rows: seq<int>, log: map<int, Event>) {
    forall k :: 0 <= k < |rows| ==> rows[k] in log
  }

  predicate Stored(views: seq<Task>, pages: seq<seq<int>>) {
    && |views| == |pages|
    && forall i {:trigger AllIn(pages[i], views[i].log)} :: 0 <= i < |pages| ==> AllIn(pages[i], views[i].log)
  }

  lemma QueriedBefore(n: int, views: seq<Task>, pages: seq<seq<int>>, k: nat)
    requires Queried(n, views, pages) && k <= |pages|
    ensures Queried(n, views[..k], pages[..k])
    ensures k < |pages| ==> IsPage(views[k].log, CursorAt(n, pages[..k]), pages[k])
  {
    forall i | 0 <= i < k ensures PageAt(n, views[..k], pages[..k], i) {
      assert PageAt(n, views, pages, i) && pages[..k][..i] == pages[..i];
    }
    assert k < |pages| ==> PageAt(n, views, pages, k);
  }

  lemma QueriedIsStored(n: int, views: seq<Task>, pages: seq<seq<int>>)
    requires Queried(n, views, pages)
    ensures Stored(views, pages)
  {
    forall i | 0 <= i < |pages| ensures AllIn(pages[i], views[i].log) {
      assert PageAt(n, views, pages, i);
    }
  }

  function RowsOf(log: map<int, Event>, rows: seq<int>): (frames: seq<Frame>)
    requires AllIn(rows, log)
    ensures |frames| == |rows| && forall k :: 0 <= k < |rows| ==> frames[k] == Row(rows[k], log[rows[k]])
  {
    seq(|rows|, k requires 0 <= k < |rows| => Row(rows[k], log[rows[k]]))
  }

  /** The rows one connection writes. */
  function Written(views: seq<Task>, pages: seq<seq<int>>): seq<Frame>
    requires Stored(views, pages)
  {
    if pages == [] then []
    else
      var n := |pages| - 1;
      assert AllIn(pages[n], views[n].log);
      assert forall i :: 0 <= i < n ==> AllIn(pages[..n][i], views[..n][i].log) by {
        assert forall i :: 0 <= i < n ==> AllIn(pages[i], views[i].log);
      }
      Written(views[..n], pages[..n]) + RowsOf(views[n].log, pages[n])
  }

  /** One poll. */
  method Show(t: Task, rows: seq<int>) returns (frames: seq<Frame>)
    requires AllIn(rows, t.log)
    ensures frames == RowsOf(t.log, rows)
  {
    frames := [];
    for k := 0 to |rows|
      invariant |frames| == k && forall j :: 0 <= j < k ==> frames[j] == Row(rows[j], t.log[rows[j]])
    {
      frames := frames + [Row(rows[k], t.log[rows[k]])];
    }
  }

  /** One connection: the reload notice exactly for a cursor beyond the latest event, then every page polled,
      each frame with the event stored under its number. */
  method Stream(start: Task, earliest: int, cursor: int, views: seq<Task>, pages: seq<seq<int>>)
    returns (frames: seq<Frame>, n: int)
    requires Numbered(start) && IsEarliest(start, earliest) && 0 <= cursor && |views| == |pages|
    requires Queried(if cursor > start.inv.seqNo then start.inv.seqNo else cursor, views, pages)
    ensures Stored(views, pages)
    ensures var from := if cursor > start.inv.seqNo then start.inv.seqNo else cursor;
            && frames == (if cursor > start.inv.seqNo then [Reload(start.inv.seqNo)] else []) + Written(views, pages)
            && n == CursorAt(from, pages)
  {
    SnapshotOnlyBeyondLatest(start, cursor, earliest);
    n, frames := cursor, [];
    var latest := start.inv.seqNo;
    if n > latest || (n > 0 && n < earliest - 1) {
      frames := [Reload(latest)];
      n := latest;
    }
    ghost var from, notice := n, frames;
    QueriedIsStored(from, views, pages);
    for i := 0 to |pages|
      invariant n == CursorAt(from, pages[..i])
      invariant Stored(views[..i], pages[..i]) && frames == notice + Written(views[..i], pages[..i])
    {
      WrittenStep(views, pages, i);
      CursorStep(from, pages, i);
      var shown := Show(views[i], pages[i]);
      frames := frames + shown;
      n := if pages[i] == [] then n else pages[i][|pages[i]| - 1];
      assert frames == notice + (Written(views[..i], pages[..i]) + shown);
    }
    assert pages[..|pages|] == pages && views[..|views|] == views;
  }

  lemma CursorStep(n: int, pages: seq<seq<int>>, i: nat)
    requires i < |pages|
    ensures CursorAt(n, pages[..i + 1]) == LastOf(CursorAt(n, pages[..i]), pages[i])
  {
    assert pages[..i + 1][..i] == pages[..i];
  }

  lemma WrittenStep(views: seq<Task>, pages: seq<seq<int>>, i: nat)
    requires Stored(views, pages) && i < |pages|
    ensures Stored(views[..i], pages[..i]) && Stored(views[..i + 1], pages[..i + 1]) && AllIn(pages[i], views[i].log)
    ensures Written(views[..i + 1], pages[..i + 1]) == Written(views[..i], pages[..i]) + RowsOf(views[i].log, pages[i])
  {
    StoredBefore(views, pages, i);
    StoredBefore(views, pages, i + 1);
    assert AllIn(pages[i], views[i].log);
    assert pages[..i + 1][..i] == pages[..i] && views[..i + 1][..i] == views[..i];
  }

  lemma StoredBefore(views: seq<Task>, pages: seq<seq<int>>, k: nat)
    requires Stored(views, pages) && k <= |pages|
    ensures Stored(views[..k], pages[..k])
  {
    forall i | 0 <= i < k ensures AllIn(pages[..k][i], views[..k][i].log) {
      assert AllIn(pages[i], views[i].log);
    }
  }

  // ---- what it amounts to -------------------------------------------------------------------

  /** The log as seen by successive polls: complete at each, and never shrinking. */
  ghost predicate Growing(views: seq<Task>, from: int, log: map<int, Event>) {
    && (forall i {:trigger Within(views[i], from, log)} :: 0 <= i < |views| ==> Within(views[i], from, log))
    && (forall i, k {:trigger NoLater(views[i], views[k])} :: 0 <= i < k < |views| ==> NoLater(views[i], views[k]))
  }

  ghost predicate Within(t: Task, from: int, log: map<int, Event>) {
    Numbered(t) && from <= t.inv.seqNo && LogGrows(t.log, log)
  }

  predicate NoLater(a: Task, b: Task) {
    a.inv.seqNo <= b.inv.seqNo
  }

  lemma GrowingBefore(views: seq<Task>, from: int, log: map<int, Event>, k: nat)
    requires Growing(views, from, log) && k < |views|
    ensures Growing(views[..k], from, log) && Within(views[k], from, log)
    ensures k > 0 ==> NoLater(views[k - 1], views[k]) && NoLater(views[0], views[k])
  {
    forall i | 0 <= i < k ensures Within(views[..k][i], from, log) {
      assert Within(views[i], from, log);
    }
    forall i, m | 0 <= i < m < k ensures NoLater(views[..k][i], views[..k][m]) {
      assert NoLater(views[i], views[m]);
    }
    assert Within(views[k], from, log);
    assert k > 0 ==> NoLater(views[k - 1], views[k]) && NoLater(views[0], views[k]);
  }

  /** The frame shows the stored event; its content may have been removed since. */
  predicate Shows(f: Frame, s: int, log: map<int, Event>) {
    f.Row? && f.seqNo == s && s in log && Persists(f.event, log[s])
  }

  /** Exactly the events n + 1, n + 2, ... of the log, in order. */
  predicate Exact(n: int, frames: seq<Frame>, log: map<int, Event>) {
    forall k {:trigger frames[k]} :: 0 <= k < |frames| ==> Shows(frames[k], n + 1 + k, log)
  }

  lemma ExactConcat(n: int, a: seq<Frame>, b: seq<Frame>, log: map<int, Event>)
    requires Exact(n, a, log) && Exact(n + |a|, b, log)
    ensures Exact(n, a + b, log)
  {
    forall k | 0 <= k < |a + b| ensures Shows((a + b)[k], n + 1 + k, log) {
      assert (a + b)[k] == if k < |a| then a[k] else b[k - |a|];
    }
  }

  lemma {:induction false} CursorWithin(n: int, views: seq<Task>, pages: seq<seq<int>>, log: map<int, Event>)
    requires 0 <= n && Growing(views, n, log) && Queried(n, views, pages)
    ensures n <= CursorAt(n, pages)
    ensures pages != [] ==> CursorAt(n, pages) <= views[|views| - 1].inv.seqNo
    ensures pages != [] ==> CursorAt(n, pages) >= Min(n + PAGE * |pages|, views[0].inv.seqNo)
    decreases |pages|
  {
    if pages != [] {
      var k := |pages| - 1;
      QueriedBefore(n, views, pages, k);
      GrowingBefore(views, n, log, k);
      CursorWithin(n, views[..k], pages[..k], log);
      PageIsNextNumbers(views[k], CursorAt(n, pages[..k]), pages[k]);
    }
  }

  /** The rows of a connection are exactly the events after its cursor, up to the cursor it reaches. */
  lemma {:induction false} WrittenIsExact(n: int, views: seq<Task>, pages: seq<seq<int>>, log: map<int, Event>)
    requires 0 <= n && Growing(views, n, log) && Queried(n, views, pages) && Stored(views, pages)
    ensures |Written(views, pages)| == CursorAt(n, pages) - n && Exact(n, Written(views, pages), log)
    decreases |pages|
  {
    if pages != [] {
      var k := |pages| - 1;
      QueriedBefore(n, views, pages, k);
      GrowingBefore(views, n, log, k);
      WrittenStep(views, pages, k);
      assert views[..k + 1] == views && pages[..k + 1] == pages;
      WrittenIsExact(n, views[..k], pages[..k], log);
      CursorWithin(n, views[..k], pages[..k], log);
      PageShows(views[k], CursorAt(n, pages[..k]), pages[k], log);
      ExactConcat(n, Written(views[..k], pages[..k]), RowsOf(views[k].log, pages[k]), log);
    }
  }

  lemma PageShows(t: Task, n: int, rows: seq<int>, log: map<int, Event>)
    requires Numbered(t) && 0 <= n <= t.inv.seqNo && IsPage(t.log, n, rows) && LogGrows(t.log, log)
    ensures LastOf(n, rows) == n + |rows| && AllIn(rows, t.log) && Exact(n, RowsOf(t.log, rows), log)
  {
    PageIsNextNumbers(t, n, rows);
  }

  /** A page that is not full has caught up with the log. */
  lemma ShortPageCatchesUp(t: Task, n: int, rows: seq<int>)
    requires Numbered(t) && 0 <= n <= t.inv.seqNo && IsPage(t.log, n, rows) && |rows| < PAGE
    ensures LastOf(n, rows) == t.inv.seqNo
  {
    PageIsNextNumbers(t, n, rows);
  }

  /** A connection that stays up long enough delivers everything there was when it started. */
  lemma CatchesUp(n: int, views: seq<Task>, pages: seq<seq<int>>, log: map<int, Event>)
    requires 0 <= n && Growing(views, n, log) && Queried(n, views, pages) && pages != []
    requires PAGE * |pages| >= views[0].inv.seqNo - n
    ensures CursorAt(n, pages) >= views[0].inv.seqNo
  {
    CursorWithin(n, views, pages, log);
  }

  // ---- any number of connections -------------------------------------------------------------------

  /** A complete log, and a later state of it. */
  ghost predicate Becomes(a: Task, b: Task) {
    Numbered(a) && Numbered(b) && a.inv.seqNo <= b.inv.seqNo && LogGrows(a.log, b.log)
  }

  lemma BecomesTransitive(a: Task, b: Task, c: Task)
    requires Becomes(a, b) && Becomes(b, c)
    ensures Becomes(a, c)
  {
  }

  /** One investigation at successive moments. */
  ghost predicate Timeline(ts: seq<Task>) {
    forall i, k {:trigger Becomes(ts[i], ts[k])} :: 0 <= i <= k < |ts| ==> Becomes(ts[i], ts[k])
  }

  /** A connection: the moments it polled, the pages it read, and how many of its rows the client received
      before it broke. */
  datatype Session = Session(times: seq<nat>, pages: seq<seq<int>>, received: nat)

  predicate InTime(ts: seq<Task>, floor: nat, times: seq<nat>) {
    && (forall i :: 0 <= i < |times| ==> floor <= times[i] < |ts|)
    && (forall i, k :: 0 <= i < k < |times| ==> times[i] <= times[k])
  }

  function ViewsAt(ts: seq<Task>, times: seq<nat>): (views: seq<Task>)
    requires forall i :: 0 <= i < |times| ==> times[i] < |ts|
    ensures |views| == |times| && forall i :: 0 <= i < |times| ==> views[i] == ts[times[i]]
  {
    seq(|times|, i requires 0 <= i < |times| => ts[times[i]])
  }

  /** The connection polls the log from the given cursor. */
  ghost predicate Polls(ts: seq<Task>, n: int, floor: nat, s: Session) {
    && InTime(ts, floor, s.times) && Queried(n, ViewsAt(ts, s.times), s.pages)
    && Stored(ViewsAt(ts, s.times), s.pages) && s.received <= |Written(ViewsAt(ts, s.times), s.pages)|
  }

  /** The rows the client receives of one connection. */
  ghost function Got(ts: seq<Task>, n: int, floor: nat, s: Session): seq<Frame>
    requires Polls(ts, n, floor, s)
  {
    Written(ViewsAt(ts, s.times), s.pages)[..s.received]
  }

  /** Last-Event-ID: the number of the last row received. */
  function NextCursor(n: int, got: seq<Frame>): int {
    if got == [] then n else got[|got| - 1].seqNo
  }

  function Latest(floor: nat, s: Session): nat {
    if s.times == [] then floor else s.times[|s.times| - 1]
  }

  /** Connections one after another, each resuming at the last number received. */
  ghost predicate Follows(ts: seq<Task>, n: int, floor: nat, sessions: seq<Session>)
    decreases |sessions|
  {
    sessions == []
    || (Polls(ts, n, floor, sessions[0])
        && Follows(ts, NextCursor(n, Got(ts, n, floor, sessions[0])), Latest(floor, sessions[0]), sessions[1..]))
  }

  /** Everything the client receives. */
  ghost function Received(ts: seq<Task>, n: int, floor: nat, sessions: seq<Session>): seq<Frame>
    requires Follows(ts, n, floor, sessions)
    decreases |sessions|
  {
    if sessions == [] then []
    else
      var got := Got(ts, n, floor, sessions[0]);
      got + Received(ts, NextCursor(n, got), Latest(floor, sessions[0]), sessions[1..])
  }

  lemma SessionGrows(ts: seq<Task>, n: int, floor: nat, times: seq<nat>)
    requires Timeline(ts) && InTime(ts, floor, times) && floor < |ts| && n <= ts[floor].inv.seqNo
    ensures Growing(ViewsAt(ts, times), n, ts[|ts| - 1].log)
  {
    var views := ViewsAt(ts, times);
    forall i | 0 <= i < |views| ensures Within(views[i], n, ts[|ts| - 1].log) {
      assert Becomes(ts[floor], ts[times[i]]) && Becomes(ts[times[i]], ts[|ts| - 1]);
    }
    forall i, k | 0 <= i < k < |views| ensures NoLater(views[i], views[k]) {
      assert Becomes(ts[times[i]], ts[times[k]]);
    }
  }

  /** What one broken connection leaves the client with. */
  lemma SessionIsExact(ts: seq<Task>, n: int, floor: nat, s: Session)
    requires Timeline(ts) && floor < |ts| && 0 <= n <= ts[floor].inv.seqNo && Polls(ts, n, floor, s)
    ensures var got := Got(ts, n, floor, s);
            && Exact(n, got, ts[|ts| - 1].log) && NextCursor(n, got) == n + |got|
            && Latest(floor, s) < |ts| && n + |got| <= ts[Latest(floor, s)].inv.seqNo
  {
    var views, log := ViewsAt(ts, s.times), ts[|ts| - 1].log;
    SessionGrows(ts, n, floor, s.times);
    WrittenIsExact(n, views, s.pages, log);
    CursorWithin(n, views, s.pages, log);
    var got := Got(ts, n, floor, s);
    if got != [] {
      assert Shows(Written(views, s.pages)[s.received - 1], n + s.received, log);
      assert got[|got| - 1] == Written(views, s.pages)[s.received - 1];
    }
    if s.times != [] {
      assert Becomes(ts[floor], ts[Latest(floor, s)]);
    }
  }

  lemma {:induction false} SessionsAreExact(ts: seq<Task>, n: int, floor: nat, sessions: seq<Session>)
    requires Timeline(ts) && floor < |ts| && 0 <= n <= ts[floor].inv.seqNo && Follows(ts, n, floor, sessions)
    ensures var frames := Received(ts, n, floor, sessions);
            Exact(n, frames, ts[|ts| - 1].log) && n + |frames| <= ts[|ts| - 1].inv.seqNo
    decreases |sessions|
  {
    if sessions == [] {
      assert Becomes(ts[floor], ts[|ts| - 1]);
    } else {
      var s := sessions[0];
      SessionIsExact(ts, n, floor, s);
      var got := Got(ts, n, floor, s);
      SessionsAreExact(ts, NextCursor(n, got), Latest(floor, s), sessions[1..]);
      ExactConcat(n, got, Received(ts, NextCursor(n, got), Latest(floor, s), sessions[1..]), ts[|ts| - 1].log);
    }
  }

  // ---- over a run of the whole system -----------------------------------------------------------------

  /** The investigation before the run and after each of its steps. */
  ghost function TimelineOf(w: World, steps: seq<Step>, id: Id): (ts: seq<Task>)
    requires Core(w) && id in w.db.tasks
    ensures |ts| == |steps| + 1 && ts[0] == w.db.tasks[id]
    decreases |steps|
  {
    if steps == [] then [w.db.tasks[id]]
    else
      CoreStep(w, steps[0]);
      [w.db.tasks[id]] + TimelineOf(Apply(w, steps[0]), steps[1..], id)
  }

  lemma {:induction false} TimelineShowsRun(w: World, steps: seq<Step>, id: Id, k: nat)
    requires Core(w) && id in w.db.tasks && k <= |steps|
    ensures id in Run(w, steps[..k]).db.tasks && TimelineOf(w, steps, id)[k] == Run(w, steps[..k]).db.tasks[id]
    decreases k
  {
    if k > 0 {
      CoreStep(w, steps[0]);
      TimelineShowsRun(Apply(w, steps[0]), steps[1..], id, k - 1);
      RunCons(w, steps, k);
    }
  }

  lemma StepBecomes(w: World, s: Step, id: Id)
    requires Core(w) && id in w.db.tasks
    ensures var w' := Apply(w, s);
            Core(w') && id in w'.db.tasks && Becomes(w.db.tasks[id], w'.db.tasks[id])
  {
    CoreStep(w, s);
    var w' := Apply(w, s);
    IsNumbered(w, id);
    IsNumbered(w', id);
    assert TaskEvolves(w.db.tasks[id], w'.db.tasks[id]);
  }

  lemma IsNumbered(w: World, id: Id)
    requires Core(w) && id in w.db.tasks
    ensures Numbered(w.db.tasks[id])
  {
    assert TaskInv(w.now, w.db.ServiceOf(id), w.db.tasks[id]);
  }

  lemma {:induction false} RunIsTimeline(w: World, steps: seq<Step>, id: Id)
    requires Core(w) && id in w.db.tasks
    ensures Timeline(TimelineOf(w, steps, id))
    decreases |steps|
  {
    IsNumbered(w, id);
    if steps != [] {
      StepBecomes(w, steps[0], id);
      RunIsTimeline(Apply(w, steps[0]), steps[1..], id);
      TimelineCons(w.db.tasks[id], TimelineOf(Apply(w, steps[0]), steps[1..], id));
    }
  }

  lemma TimelineCons(t: Task, ts: seq<Task>)
    requires Timeline(ts) && ts != [] && Becomes(t, ts[0])
    ensures Timeline([t] + ts)
  {
    var all := [t] + ts;
    forall i, k | 0 <= i <= k < |all| ensures Becomes(all[i], all[k]) {
      if i > 0 {
        assert Becomes(ts[i - 1], ts[k - 1]);
      } else if k > 0 {
        assert Becomes(ts[0], ts[k - 1]);
        BecomesTransitive(t, ts[0], ts[k - 1]);
      }
    }
  }

  /** From an in-range cursor and across any disconnects, while the rest of the system moves on, the frames a
      client receives are the events after its cursor, in order, each once and none skipped, as the log stores
      them; and the number it stands at never makes the server send a reload. */
  lemma ReplayIsExact(w: World, steps: seq<Step>, id: Id, n: int, sessions: seq<Session>, earliest: int)
    requires Core(w) && id in w.db.tasks && 0 <= n <= w.db.tasks[id].inv.seqNo
    requires Follows(TimelineOf(w, steps, id), n, 0, sessions)
    ensures id in Run(w, steps).db.tasks
    ensures var end := Run(w, steps).db.tasks[id];
            var frames := Received(TimelineOf(w, steps, id), n, 0, sessions);
            && Exact(n, frames, end.log)
            && (IsEarliest(end, earliest) ==> !NeedsSnapshot(n + |frames|, end.inv.seqNo, earliest))
  {
    var ts := TimelineOf(w, steps, id);
    RunIsTimeline(w, steps, id);
    SessionsAreExact(ts, n, 0, sessions);
    TimelineShowsRun(w, steps, id, |steps|);
    assert steps[..|steps|] == steps;
    assert Becomes(ts[|steps|], ts[|steps|]);
    if IsEarliest(ts[|steps|], earliest) {
      SnapshotOnlyBeyondLatest(ts[|steps|], n + |Received(ts, n, 0, sessions)|, earliest);
    }
  }
}
