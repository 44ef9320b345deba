/** A run in which nobody quotes anything and reconcile still meets two matches: the listing grows by one issue
    between two pages, and the only issue that carries the marker is listed on both. */
module Ambiguity {
  import opened Wrappers
  import opened Tables
  import opened ControlPlane
  import opened Witnesses
  import Actions
  import Reconciliation
  import Scans
  import Tracker

  // ---- a crowded repository ------------------------------------------------------------------

  /** Issues of other people. */
  function Others(n: nat): (s: seq<Tracker.Issue>)
    ensures |s| == n && forall k :: 0 <= k < n ==> s[k] == Tracker.Issue(REPO, "other", "", None)
  {
    seq(n, _ => Tracker.Issue(REPO, "other", "", None))
  }

  function Crowded(w: World, n: nat): World {
    w.(tracker := w.tracker + Others(n))
  }

  const OTHER := ForeignIssue(REPO, "other", "")

  lemma FilesOne(w: World, n: nat)
    requires w.db.Valid()
    ensures Apply(Crowded(w, n), OTHER) == Crowded(w, n + 1)
  {
    assert Others(n + 1) == Others(n) + [Tracker.Issue(REPO, "other", "", None)];
  }

  lemma {:induction false} FilesMany(steps: seq<Step>, w: World, n: nat) returns (steps': seq<Step>)
    requires Reaches(steps, w) && w.db.Valid()
    ensures Reaches(steps', Crowded(w, n))
  {
    if n == 0 {
      assert w.tracker + Others(0) == w.tracker;
      steps' := steps;
    } else {
      var before := FilesMany(steps, w, n - 1);
      FilesOne(w, n - 1);
      Extend(before, Crowded(w, n - 1), OTHER, Crowded(w, n));
      steps' := before + [OTHER];
    }
  }

  // ---- the marker's own issue, last but for newer ones -----------------------------------------------

  /** The marker's own issue, and n issues filed after it. */
  predicate OwnFirst(tracker: seq<Tracker.Issue>, marker: string, n: nat) {
    && |tracker| == n + 1 && tracker[0].repo == REPO && tracker[0].stamp == Some(marker)
    && tracker[1..] == Others(n)
  }

  lemma OwnIsListed(tracker: seq<Tracker.Issue>, marker: string, n: nat)
    requires OwnFirst(tracker, marker, n)
    ensures |Tracker.Listing(tracker, REPO)| == n + 1
    ensures Tracker.Listing(tracker, REPO)[n] == Tracker.Item(0, tracker[0])
  {
    forall j | 0 <= j < |tracker| ensures tracker[j].repo == REPO {
      assert j > 0 ==> tracker[j] == tracker[1..][j - 1];
    }
    Tracker.OldestIsLast(tracker, REPO);
  }

  lemma OnlyOwnCarries(tracker: seq<Tracker.Issue>, marker: string, n: nat, j: nat)
    requires OwnFirst(tracker, marker, n) && j <= n
    ensures Tracker.Carries(tracker[j], marker) <==> j == 0
  {
    Tracker.StampIsFound(tracker[0].text, marker);
    if j > 0 {
      assert tracker[j] == tracker[1..][j - 1];
    }
  }

  /** A page that lists it has it as its only match. */
  lemma OwnMatches(tracker: seq<Tracker.Issue>, marker: string, n: nat, page: nat, k: nat)
    requires OwnFirst(tracker, marker, n) && page >= 1
    requires k < |Tracker.Page(tracker, REPO, page)| && Tracker.Page(tracker, REPO, page)[k].number == 0
    ensures Tracker.Matching(Tracker.Page(tracker, REPO, page), marker) == [0]
  {
    var items := Tracker.Page(tracker, REPO, page);
    OnlyOwnCarries(tracker, marker, n, 0);
    assert Tracker.IsMatch(items, marker, k, 0);
    forall m, j: nat | Tracker.IsMatch(items, marker, m, j) ensures j == 0 {
      OnlyOwnCarries(tracker, marker, n, j);
    }
    Reconciliation.PageIncreases(tracker, REPO, page);
    Tracker.OnlyMatch(items, marker, 0);
  }

  /** With 99 newer issues it is the last of the first page. */
  lemma FirstPage(tracker: seq<Tracker.Issue>, marker: string)
    requires OwnFirst(tracker, marker, 99)
    ensures Tracker.ScanPage(Tracker.Page(tracker, REPO, 1), marker, 1, None) == Tracker.More(2, Some(0))
  {
    OwnIsListed(tracker, marker, 99);
    assert Tracker.Page(tracker, REPO, 1)[99] == Tracker.Listing(tracker, REPO)[99];
    OwnMatches(tracker, marker, 99, 1, 99);
  }

  /** One more, and it is the first of the second page. */
  lemma SecondPage(tracker: seq<Tracker.Issue>, marker: string)
    requires OwnFirst(tracker, marker, 100)
    ensures Tracker.Merge(Tracker.Page(tracker, REPO, 2), marker, Some(0)).Err?
  {
    OwnIsListed(tracker, marker, 100);
    assert Tracker.Page(tracker, REPO, 2)[0] == Tracker.Listing(tracker, REPO)[100];
    OwnMatches(tracker, marker, 100, 2, 0);
  }

  // ---- the run ------------------------------------------------------------------------------------------

  /** Undecided, with the action's own issue and n newer ones on the tracker. */
  ghost predicate Buried(w: World, t: Task, n: nat) {
    && Undecided(w, t) && t.action.value.target == REPO && OwnFirst(w.tracker, t.action.value.marker, n)
  }

  lemma ReadsFirst(steps: seq<Step>, w: World, t: Task) returns (steps': seq<Step>)
    requires Buried(w, t, 99) && Reaches(steps, Reconciling(w, t, Scanning(1, None)))
    ensures Reaches(steps', Reconciling(w, t, Scanning(2, Some(0))))
  {
    var read, w1 := ReadListing(w.started), Reconciling(w, t, Scanning(1, None));
    FirstPage(w.tracker, t.action.value.marker);
    ReconcilingMoves(w, t, Scanning(1, None), Scanning(2, Some(0)));
    Extend(steps, w1, read, Reconciling(w, t, Scanning(2, Some(0))));
    steps' := steps + [read];
  }

  lemma OneMore(steps: seq<Step>, w: World, t: Task) returns (steps': seq<Step>)
    requires Buried(w, t, 99) && Reaches(steps, Reconciling(w, t, Scanning(2, Some(0))))
    ensures Buried(Crowded(w, 1), t, 100) && Reaches(steps', Reconciling(Crowded(w, 1), t, Scanning(2, Some(0))))
  {
    FiledMeanwhile(w, t, Scanning(2, Some(0)));
    assert Crowded(w, 1).tracker[1..] == Others(100);
    Extend(steps, Reconciling(w, t, Scanning(2, Some(0))), OTHER, Reconciling(Crowded(w, 1), t, Scanning(2, Some(0))));
    steps' := steps + [OTHER];
  }

  lemma FiledMeanwhile(w: World, t: Task, p: Phase)
    requires Undecided(w, t)
    ensures Reconciling(w, t, p).db.Valid() && Apply(Reconciling(w, t, p), OTHER) == Reconciling(Crowded(w, 1), t, p)
  {
    var x := Reconciling(w, t, p);
    TakenIsLone(w, t, p);
    FilesOne(x, 0);
    assert x.tracker + Others(0) == x.tracker;
  }

  function GivenUp(w: World, t: Task): Task
    requires t.action.Some?
  {
    Actions.FinishedTask(Actions.TakenTask(t, w.now, true), w.now, t.action.value.marker, None)
  }

  /** The second read ends the scan, and the runner gives up. */
  lemma GivesUp(w: World, t: Task)
    requires Buried(w, t, 100)
    ensures var w2 := Reconciling(w, t, Scanning(2, Some(0)));
            w2.db.Valid() && Run(w2, [ReadListing(w.started), Finish(w.started)])
                             == Put(w, GivenUp(w, t)).(started := w.started + 1)
  {
    var w2, read, finish := Reconciling(w, t, Scanning(2, Some(0))), ReadListing(w.started), Finish(w.started);
    SecondPage(w.tracker, t.action.value.marker);
    TakenIsLone(w, t, Scanning(2, Some(0)));
    ReconcilingMoves(w, t, Scanning(2, Some(0)), Settled(None));
    assert Apply(w2, read) == Reconciling(w, t, Settled(None));
    TakenIsLone(w, t, Settled(None));
    FinishLone(Reconciling(w, t, Settled(None)), Actions.TakenTask(t, w.now, true), w.started);
    PutOver(w, t, Settled(None), GivenUp(w, t));
    RunTwo(w2, read, finish);
  }

  lemma OwnCarriesOnly(w: World, marker: string, n: nat)
    requires OwnFirst(w.tracker, marker, n)
    ensures Reconciliation.OnlyCarrier(w, marker, 0)
  {
    forall j: nat | j < |w.tracker| ensures Tracker.Carries(w.tracker[j], marker) <==> j == 0 {
      OnlyOwnCarries(w.tracker, marker, n, j);
    }
  }

  /** The POST committed and its reply was lost; 99 issues are filed; reconcile finds the action's issue at the end
      of the first page. */
  lemma FoundAtTheEnd() returns (steps: seq<Step>, w: World, t: Task)
    ensures Buried(w, t, 99) && w.runners == map[] && Reaches(steps, Reconciling(w, t, Scanning(2, Some(0))))
  {
    var steps0, w0, t0 := PostLost(true);
    var steps1 := FilesMany(steps0, w0, 99);
    assert Crowded(w0, 99).tracker[1..] == Others(99);
    t := t0;
    var steps2: seq<Step>;
    steps2, w := TakesUp(steps1, Crowded(w0, 99), t);
    steps := ReadsFirst(steps2, w, t);
  }

  /** The only issue that carries the marker is met on two pages, because one more was filed between the reads;
      the scan calls it ambiguous and the action stays unknown. */
  lemma AmbiguousByShift() returns (steps: seq<Step>, r: nat, rest: seq<Step>)
    ensures Init(Empty()) && Empty().db.Valid()
    ensures var w := Run(Empty(), steps);
            && r in w.runners && w.runners[r].phase == Scanning(2, Some(0))
            && Reconciliation.OnlyCarrier(w, w.runners[r].run.marker, 0) && Scans.Ambiguous(w, r)
    ensures var end := Run(Run(Empty(), steps), rest);
            && TASK in end.db.tasks && end.db.tasks[TASK].action.Some?
            && end.db.tasks[TASK].action.value.state.Unknown? && end.runners == map[]
  {
    CreateLone();
    var before, w, t := FoundAtTheEnd();
    steps := OneMore(before, w, t);
    r, rest := w.started, [ReadListing(w.started), Finish(w.started)];
    GivesUp(Crowded(w, 1), t);
    SecondPage(Crowded(w, 1).tracker, t.action.value.marker);
    OwnCarriesOnly(Run(Empty(), steps), t.action.value.marker, 100);
  }
}
