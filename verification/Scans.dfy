/** Reconciling runners inside the runs of the whole system: what a runner settles on is what reconcile makes of
    the pages it read, and what issues filed between two of its reads do to it. */
module Scans {
  import opened Wrappers
  import opened Tables
  import opened ControlPlane
  import opened Safety
  import opened Dispatching
  import opened Reconciliation
  import Actions
  import Tracker

  // ---- issues filed during a run ----------------------------------------------------------------

  /** The step adds an issue to the repository. */
  ghost predicate Files(w: World, s: Step, repo: string) {
    && Enabled(w, s)
    && ((s.ForeignIssue? && s.repo == repo) || (s.SendPost? && s.committed && w.runners[s.runner].run.target == repo))
  }

  /** How many issues a run adds to the repository. */
  ghost function FiledIn(w: World, steps: seq<Step>, repo: string): nat
    requires w.db.Valid()
    decreases |steps|
  {
    if steps == [] then 0
    else (if Files(w, steps[0], repo) then 1 else 0) + FiledIn(Apply(w, steps[0]), steps[1..], repo)
  }

  /** The newer listing is the older one behind n more items. */
  predicate Behind(older: seq<Tracker.Item>, newer: seq<Tracker.Item>, n: nat) {
    |newer| == |older| + n && newer[n..] == older
  }

  lemma StepFiles(w: World, s: Step, repo: string)
    requires w.db.Valid()
    ensures Behind(Tracker.Listing(w.tracker, repo), Tracker.Listing(Apply(w, s).tracker, repo),
                   if Files(w, s, repo) then 1 else 0)
  {
    if !Enabled(w, s) {
      IdleFrame(w, s);
    } else if s.ForeignIssue? {
      Tracker.ListingSnoc(w.tracker, Tracker.Issue(s.repo, s.title, s.text, None), repo);
    } else if s.SendPost? {
      PostIs(w, s);
      var run := w.runners[s.runner].run;
      Tracker.ListingSnoc(w.tracker, Tracker.Issue(run.target, run.title, run.body, Some(run.marker)), repo);
    } else {
      TrackerKept(w, s);
    }
  }

  lemma TrackerKept(w: World, s: Step)
    requires w.db.Valid() && !s.ForeignIssue? && !s.SendPost?
    ensures Apply(w, s).tracker == w.tracker
  {
    if MovesRunner(s) {
      MoveFrame(w, s);
    } else if s.RunnerDies? {
      EndFrame(w, s);
    } else {
      SameTracker(w, s);
    }
  }

  lemma {:induction false} RunFiles(w: World, steps: seq<Step>, repo: string)
    requires w.db.Valid()
    ensures Behind(Tracker.Listing(w.tracker, repo), Tracker.Listing(Run(w, steps).tracker, repo),
                   FiledIn(w, steps, repo))
    decreases |steps|
  {
    if steps != [] {
      StepFiles(w, steps[0], repo);
      RunFiles(Apply(w, steps[0]), steps[1..], repo);
    }
  }

  // ---- the phases of one runner -----------------------------------------------------------------

  /** Past its POST, a runner is moved by its own requests only. */
  ghost function NextRunner(w: World, s: Step, r: nat): Runner
    requires r in w.runners
  {
    if Enabled(w, s) && MovesRunner(s) && s.runner == r then w.runners[r].(phase := NextPhase(w, s)) else w.runners[r]
  }

  lemma PhaseStep(w: World, s: Step, r: nat)
    requires w.db.Valid() && w.started !in w.runners && r in w.runners && !w.runners[r].phase.Ready?
    requires r in Apply(w, s).runners
    ensures Apply(w, s).runners[r] == NextRunner(w, s, r)
  {
    if !Enabled(w, s) {
      IdleFrame(w, s);
    } else if MovesRunner(s) {
      MoveKeeps(w, s, r);
    } else if s.SendPost? || s.Dispatch? {
      StartKeeps(w, s, r);
    } else {
      RecordKeeps(w, s, r);
    }
  }

  lemma MoveKeeps(w: World, s: Step, r: nat)
    requires w.db.Valid() && r in w.runners && Enabled(w, s) && MovesRunner(s)
    ensures r in Apply(w, s).runners && Apply(w, s).runners[r] == NextRunner(w, s, r)
  {
    MoveIs(w, s);
  }

  lemma RecordKeeps(w: World, s: Step, r: nat)
    requires w.db.Valid() && r in w.runners && r in Apply(w, s).runners
    requires !MovesRunner(s) && !s.SendPost? && !s.Dispatch?
    ensures Apply(w, s).runners[r] == w.runners[r]
  {
    if TablesOnly(s) {
      TablesFrame(w, s);
    } else if s.Finish? || s.RunnerDies? {
      EndFrame(w, s);
    } else {
      RecordFrame(w, s);
    }
  }

  lemma StartKeeps(w: World, s: Step, r: nat)
    requires w.db.Valid() && w.started !in w.runners && r in w.runners && !w.runners[r].phase.Ready?
    requires Enabled(w, s) && (s.SendPost? || s.Dispatch?)
    ensures r in Apply(w, s).runners && Apply(w, s).runners[r] == w.runners[r]
  {
    if s.SendPost? {
      PostIs(w, s);
    } else {
      DispatchIsDue(w, s);
      DispatchAdds(w, s.id);
    }
  }

  lemma DispatchAdds(w: World, id: Id)
    requires w.db.Valid() && id in w.db.tasks && Actions.Due(w.db.tasks[id], w.now) && w.started !in w.runners
    ensures forall r :: r in w.runners ==> r in DispatchWorld(w, id).runners
                                           && DispatchWorld(w, id).runners[r] == w.runners[r]
  {
  }

  lemma RunnersOn(w: World, s: Step)
    requires Core(w)
    ensures RunnersFrom(w, Apply(w, s))
  {
    if s.Dispatch? && Enabled(w, s) {
      DispatchIsDue(w, s);
      RunnersAfterDispatch(w, s.id);
    } else {
      RunnersAfter(w, s);
    }
  }

  /** A runner that is gone does not come back. */
  lemma {:induction false} GoneForGood(w: World, steps: seq<Step>, r: nat)
    requires Core(w) && r < w.started && r !in w.runners
    ensures r !in Run(w, steps).runners
    decreases |steps|
  {
    if steps != [] {
      CoreStep(w, steps[0]);
      RunnersOn(w, steps[0]);
      GoneForGood(Apply(w, steps[0]), steps[1..], r);
    }
  }

  /** A runner that is there at the end of a run was there all along. */
  lemma StillThere(w: World, steps: seq<Step>, r: nat)
    requires Core(w) && steps != [] && r in w.runners && !w.runners[r].phase.Ready? && r in Run(w, steps).runners
    ensures Core(Apply(w, steps[0])) && r in Apply(w, steps[0]).runners
    ensures Apply(w, steps[0]).runners[r] == NextRunner(w, steps[0], r)
  {
    CoreStep(w, steps[0]);
    RunnersOn(w, steps[0]);
    if r !in Apply(w, steps[0]).runners {
      GoneForGood(Apply(w, steps[0]), steps[1..], r);
    }
    PhaseStep(w, steps[0], r);
  }

  // ---- what a runner has read --------------------------------------------------------------------

  ghost predicate Reads(w: World, s: Step, r: nat) {
    s == ReadListing(r) && Enabled(w, s)
  }

  /** The listing pages a runner gets to see in a run. */
  ghost function PagesRead(w: World, steps: seq<Step>, r: nat): seq<seq<Tracker.Item>>
    requires w.db.Valid()
    decreases |steps|
  {
    if steps == [] then []
    else
      WithRead(w, steps[0], r, PagesRead(Apply(w, steps[0]), steps[1..], r))
  }

  /** Past the POST: scanning, or done with it. */
  predicate Searches(p: Phase) {
    (p.Scanning? && p.page >= 1) || p.Found? || p.Settled?
  }

  function ScanFrom(p: Phase, pages: seq<seq<Tracker.Item>>, marker: string): Tracker.Scan
    requires Searches(p)
  {
    match p
    case Scanning(page, c) => Tracker.ScanOver(pages, marker, page, c)
    case Found(i) => Tracker.Stop(Some(i))
    case Settled(success) => Tracker.Stop(success)
  }

  /** The phase of a runner whose scan stands here; a request of it may have failed. */
  predicate StandsAt(scan: Tracker.Scan, p: Phase, failed: bool) {
    || (failed && p == Settled(None))
    || match scan
       case More(page, c) => p == Scanning(page, c)
       case Stop(None) => p == Settled(None)
       case Stop(Some(i)) => p == Found(i) || p == Settled(Some(i))
  }

  /** The pages once this step and what follows is read. */
  ghost function WithRead(w: World, s: Step, r: nat, rest: seq<seq<Tracker.Item>>): seq<seq<Tracker.Item>> {
    if Reads(w, s, r) then [Tracker.Page(w.tracker, w.runners[r].run.target, w.runners[r].phase.page)] + rest else rest
  }

  lemma ListingScans(w: World, r: nat, rest: seq<seq<Tracker.Item>>)
    requires r in w.runners && w.runners[r].phase.Scanning? && w.runners[r].phase.page >= 1
    ensures var rn, p := w.runners[r], ListingPhase(w, r);
            && Searches(p)
            && ScanFrom(p, rest, rn.run.marker)
               == ScanFrom(rn.phase, [Tracker.Page(w.tracker, rn.run.target, rn.phase.page)] + rest, rn.run.marker)
  {
    var rn := w.runners[r];
    var items := Tracker.Page(w.tracker, rn.run.target, rn.phase.page);
    assert ([items] + rest)[1..] == rest;
  }

  /** A request of the runner takes its scan on, unless it fails. */
  lemma ScanStep(w: World, s: Step, r: nat, rest: seq<seq<Tracker.Item>>)
    requires r in w.runners && Searches(w.runners[r].phase)
    ensures var rn, rn' := w.runners[r], NextRunner(w, s, r);
            var pages := WithRead(w, s, r, rest);
            && rn'.run == rn.run && Searches(rn'.phase)
            && (if s == RequestFails(r) && rn' != rn then rn'.phase == Settled(None)
                else ScanFrom(rn'.phase, rest, rn.run.marker) == ScanFrom(rn.phase, pages, rn.run.marker))
  {
    if Reads(w, s, r) {
      ListingScans(w, r, rest);
    } else if Enabled(w, s) && MovesRunner(s) && s.runner == r {
      assert s.ReadIssue? || s.RequestFails?;
    }
  }

  lemma {:induction false} ScanTracks(w: World, steps: seq<Step>, r: nat)
    requires Core(w) && r in w.runners && Searches(w.runners[r].phase) && r in Run(w, steps).runners
    ensures var rn, rn' := w.runners[r], Run(w, steps).runners[r];
            && rn'.run == rn.run
            && StandsAt(ScanFrom(rn.phase, PagesRead(w, steps, r), rn.run.marker), rn'.phase, RequestFails(r) in steps)
    decreases |steps|
  {
    if steps != [] {
      StillThere(w, steps, r);
      ScanStep(w, steps[0], r, PagesRead(Apply(w, steps[0]), steps[1..], r));
      ScanTracks(Apply(w, steps[0]), steps[1..], r);
    }
  }

  /** What a reconciling runner settles on, in any run, is what reconcile makes of the pages it read. */
  lemma SettlesAsReconciled(w: World, steps: seq<Step>, r: nat)
    requires Reachable(w) && r in w.runners && w.runners[r].phase == Scanning(1, None) && r in Run(w, steps).runners
    ensures var pages := PagesRead(w, steps, r);
            var found := Tracker.Reconciled(Tracker.Replies(pages), w.runners[r].run.marker);
            match Run(w, steps).runners[r].phase
            case Scanning(page, _) => page == |pages| + 1 && found == None
            case Found(i) => found == Some(i)
            case Settled(Some(i)) => found == Some(i)
            case Settled(None) => found == None || RequestFails(r) in steps
            case _ => false
  {
    ReachableOk(w);
    ScanTracks(w, steps, r);
    var pages := PagesRead(w, steps, r);
    Tracker.StoppedIsReconciled(pages, Tracker.Replies(pages), w.runners[r].run.marker);
  }

  // ---- a repository in which nothing is filed meanwhile ---------------------------------------------

  lemma SamePages(w: World, u: World, repo: string)
    requires Behind(Tracker.Listing(w.tracker, repo), Tracker.Listing(u.tracker, repo), 0)
    ensures Tracker.Listing(u.tracker, repo) == Tracker.Listing(w.tracker, repo)
    ensures forall p: nat :: p >= 1 ==> Tracker.Page(u.tracker, repo, p) == Tracker.Page(w.tracker, repo, p)
  {
    assert Tracker.Listing(u.tracker, repo)[0..] == Tracker.Listing(u.tracker, repo);
  }

  /** The pages are the consecutive ones from the page the scan stands at. */
  predicate Consecutive(pages: seq<seq<Tracker.Item>>, tracker: seq<Tracker.Issue>, repo: string, p: Phase) {
    if p.Scanning? && p.page >= 1
    then forall k: nat :: k < |pages| ==> pages[k] == Tracker.Page(tracker, repo, p.page + k)
    else pages == []
  }

  lemma ConsecutiveStep(w: World, s: Step, r: nat, rest: seq<seq<Tracker.Item>>)
    requires r in w.runners && Searches(w.runners[r].phase)
    requires Consecutive(rest, w.tracker, w.runners[r].run.target, NextRunner(w, s, r).phase)
    ensures var rn := w.runners[r];
            var pages := WithRead(w, s, r, rest);
            Consecutive(pages, w.tracker, rn.run.target, rn.phase)
  {
    if Reads(w, s, r) {
      NextPage(w, r);
      FirstPage(rest, w.tracker, w.runners[r].run.target, w.runners[r].phase, ListingPhase(w, r));
    }
  }

  lemma NextPage(w: World, r: nat)
    requires r in w.runners && w.runners[r].phase.Scanning? && w.runners[r].phase.page >= 1
    ensures ListingPhase(w, r).Scanning? ==> ListingPhase(w, r).page == w.runners[r].phase.page + 1
  {
  }

  lemma FirstPage(rest: seq<seq<Tracker.Item>>, tracker: seq<Tracker.Issue>, repo: string, p: Phase, next: Phase)
    requires p.Scanning? && p.page >= 1 && (next.Scanning? ==> next.page == p.page + 1)
    requires Consecutive(rest, tracker, repo, next)
    ensures Consecutive([Tracker.Page(tracker, repo, p.page)] + rest, tracker, repo, p)
  {
    var pages := [Tracker.Page(tracker, repo, p.page)] + rest;
    forall k: nat | k < |pages| ensures pages[k] == Tracker.Page(tracker, repo, p.page + k) {
      assert k > 0 ==> pages[k] == rest[k - 1];
    }
  }

  lemma {:induction false} UnchangedPages(w: World, steps: seq<Step>, r: nat)
    requires Core(w) && r in w.runners && Searches(w.runners[r].phase) && r in Run(w, steps).runners
    requires FiledIn(w, steps, w.runners[r].run.target) == 0
    ensures Consecutive(PagesRead(w, steps, r), w.tracker, w.runners[r].run.target, w.runners[r].phase)
    decreases |steps|
  {
    if steps != [] {
      StillThere(w, steps, r);
      ScanStep(w, steps[0], r, []);
      UnchangedPages(Apply(w, steps[0]), steps[1..], r);
      StepFiles(w, steps[0], w.runners[r].run.target);
      SamePages(w, Apply(w, steps[0]), w.runners[r].run.target);
      ConsecutiveStep(w, steps[0], r, PagesRead(Apply(w, steps[0]), steps[1..], r));
    }
  }

  predicate Finds(p: Phase, i: nat) {
    p == Found(i) || p == Settled(Some(i))
  }

  /** If nothing is filed in the repository during the scan, the runner finds an issue exactly when that is the
      only one among the newest 500 that carries the marker, unless a request fails. */
  lemma FindsTheOnlyCarrier(w: World, steps: seq<Step>, r: nat, i: nat)
    requires Reachable(w) && r in w.runners && w.runners[r].phase == Scanning(1, None) && r in Run(w, steps).runners
    requires FiledIn(w, steps, w.runners[r].run.target) == 0
    ensures var run, phase := w.runners[r].run, Run(w, steps).runners[r].phase;
            var only := Tracker.OnlyMatchIs(Tracker.Newest(w.tracker, run.target), run.marker, i);
            && (Finds(phase, i) ==> only)
            && (!phase.Scanning? && RequestFails(r) !in steps ==> (Finds(phase, i) <==> only))
  {
    ReachableOk(w);
    ScanTracks(w, steps, r);
    UnchangedScan(w, steps, r, i);
  }

  lemma UnchangedScan(w: World, steps: seq<Step>, r: nat, i: nat)
    requires Core(w) && r in w.runners && w.runners[r].phase == Scanning(1, None) && r in Run(w, steps).runners
    requires FiledIn(w, steps, w.runners[r].run.target) == 0
    ensures var run := w.runners[r].run;
            var scan := Tracker.ScanOver(PagesRead(w, steps, r), run.marker, 1, None);
            scan.Stop? ==>
              (scan.found == Some(i) <==> Tracker.OnlyMatchIs(Tracker.Newest(w.tracker, run.target), run.marker, i))
  {
    var run := w.runners[r].run;
    UnchangedPages(w, steps, r);
    Tracker.ScanOfFixedListing(w.tracker, run.target, run.marker, PagesRead(w, steps, r), i);
  }

  // ---- an issue that is listed twice ----------------------------------------------------------------

  /** Before this step the runner had no match, and page q of the listing shows issue c at place k. */
  ghost predicate SeenAt(w: World, r: nat, q: nat, k: nat, c: nat) {
    && r in w.runners && q >= 1 && w.runners[r].phase == Scanning(q, None)
    && var items := Tracker.Page(w.tracker, w.runners[r].run.target, q);
    k < |items| && items[k].number == c
  }

  lemma {:induction false} MatchKept(pages: seq<seq<Tracker.Item>>, marker: string, page: nat, m: Option<nat>)
    ensures match Tracker.ScanOver(pages, marker, page, m)
            case More(next, m') => next == page + |pages| && (m.Some? ==> m' == m)
            case Stop(_) => true
    decreases |pages|
  {
    if pages != [] {
      var next := Tracker.ScanPage(pages[0], marker, page, m);
      if next.More? {
        MatchKept(pages[1..], marker, page + 1, next.candidate);
      }
    }
  }

  lemma FirstMatch(w: World, r: nat, q: nat, p: Phase)
    requires q >= 1 && r in w.runners && w.runners[r].phase == Scanning(q, None) && p == ListingPhase(w, r)
    requires p.Scanning? && p.candidate.Some?
    ensures exists k: nat :: SeenAt(w, r, q, k, p.candidate.value)
  {
    var run := w.runners[r].run;
    var items := Tracker.Page(w.tracker, run.target, q);
    var c := p.candidate.value;
    assert c == Tracker.Matching(items, run.marker)[0];
    Tracker.MatchingMembers(items, run.marker, c);
    var k :| Tracker.IsMatch(items, run.marker, k, c);
    assert SeenAt(w, r, q, k, c);
  }

  /** Scanning on, a runner with a match keeps it, and pages only go up. */
  lemma ScanKeeps(w: World, steps: seq<Step>, r: nat)
    requires Core(w) && r in w.runners && Searches(w.runners[r].phase) && r in Run(w, steps).runners
    requires Run(w, steps).runners[r].phase.Scanning?
    ensures var p, p' := w.runners[r].phase, Run(w, steps).runners[r].phase;
            p.Scanning? && p.page <= p'.page && (p.candidate.Some? ==> p'.candidate == p.candidate)
            && Run(w, steps).runners[r].run == w.runners[r].run
  {
    ScanTracks(w, steps, r);
    var p := w.runners[r].phase;
    if p.Scanning? {
      MatchKept(PagesRead(w, steps, r), w.runners[r].run.marker, p.page, p.candidate);
    }
  }

  /** The step after which a runner without a match has one. */
  lemma StepMatches(w: World, s: Step, r: nat, q: nat)
    requires q >= 1 && r in w.runners && w.runners[r].phase == Scanning(q, None)
    requires var p := NextRunner(w, s, r).phase; p.Scanning? && p.candidate.Some?
    ensures s == ReadListing(r) && NextRunner(w, s, r).phase.page == q + 1
    ensures exists k: nat :: SeenAt(w, r, q, k, NextRunner(w, s, r).phase.candidate.value)
  {
    FirstMatch(w, r, q, ListingPhase(w, r));
    NextPage(w, r);
  }

  ghost predicate HoldsMatch(w: World, r: nat, c: nat) {
    r in w.runners && w.runners[r].phase.Scanning? && w.runners[r].phase.candidate == Some(c)
  }

  /** Until it has the match, a runner scans on; the step that gives it the match reads the page. */
  lemma FirstStepOn(w: World, steps: seq<Step>, r: nat, p: nat, c: nat)
    requires Core(w) && p >= 1 && r in w.runners && w.runners[r].phase == Scanning(p, None)
    requires HoldsMatch(Run(w, steps), r, c)
    ensures steps != [] && Core(Apply(w, steps[0])) && r in Apply(w, steps[0]).runners
    ensures var next, last := Apply(w, steps[0]).runners[r].phase, Run(w, steps).runners[r].phase;
            && next.Scanning? && 1 <= next.page <= last.page
            && (next.candidate.Some? ==>
                  p < last.page && steps[0] == ReadListing(r) && exists k: nat :: SeenAt(w, r, p, k, c))
  {
    StillThere(w, steps, r);
    ScanStep(w, steps[0], r, []);
    ScanKeeps(Apply(w, steps[0]), steps[1..], r);
    if NextRunner(w, steps[0], r).phase.candidate.Some? {
      StepMatches(w, steps[0], r, p);
    }
  }

  /** The match a runner holds was on a page it read when it held none. */
  lemma {:induction false} MatchWasSeen(w: World, steps: seq<Step>, r: nat, p: nat, c: nat)
      returns (n: nat, q: nat, k: nat)
    requires Core(w) && p >= 1 && r in w.runners && w.runners[r].phase == Scanning(p, None)
    requires HoldsMatch(Run(w, steps), r, c)
    ensures n < |steps| && steps[n] == ReadListing(r) && SeenAt(Run(w, steps[..n]), r, q, k, c)
    ensures q < Run(w, steps).runners[r].phase.page
    decreases |steps|
  {
    FirstStepOn(w, steps, r, p, c);
    var next := Apply(w, steps[0]).runners[r].phase;
    if next.candidate.Some? {
      n, q := 0, p;
      k :| SeenAt(w, r, p, k, c);
    } else {
      n, q, k := MatchWasSeen(Apply(w, steps[0]), steps[1..], r, next.page, c);
      n := n + 1;
      RunCons(w, steps, n);
    }
  }

  /** Whether the page that the runner reads next is ambiguous. */
  ghost predicate Ambiguous(w: World, r: nat)
    requires r in w.runners && w.runners[r].phase.Scanning? && w.runners[r].phase.page >= 1
  {
    var run, p := w.runners[r].run, w.runners[r].phase;
    Tracker.Merge(Tracker.Page(w.tracker, run.target, p.page), run.marker, p.candidate).Err?
  }

  lemma AmbiguousIfListed(w: World, steps: seq<Step>, r: nat, q: nat, k: nat, c: nat)
    requires Reachable(w) && SeenAt(w, r, q, k, c) && HoldsMatch(Run(w, steps), r, c)
    requires Run(w, steps).runners[r].phase.page >= 1 && Run(w, steps).runners[r].run == w.runners[r].run
    requires Unquoted(Run(w, steps), w.runners[r].run.marker)
    ensures Ambiguous(Run(w, steps), r)
            <==> Tracker.Carried(q, k, FiledIn(w, steps, w.runners[r].run.target), Run(w, steps).runners[r].phase.page)
  {
    var target := w.runners[r].run.target;
    ReachableOk(w);
    ReachableOn(w, steps);
    AmbiguousOnlyByShift(Run(w, steps), r);
    RunFiles(w, steps, target);
    Tracker.ListedIffCarried(w.tracker, Run(w, steps).tracker, target, FiledIn(w, steps, target), q, k,
                             Run(w, steps).runners[r].phase.page);
  }

  /** Reconciling an unquoted marker, a runner that holds a match calls the next page ambiguous exactly when the
      issues filed in the repository since it saw the match, at place k of page q, have carried it onto that page.
      Nothing filed, nothing ambiguous. */
  lemma AmbiguousIffCarried(w: World, steps: seq<Step>, r: nat, c: nat) returns (n: nat, q: nat, k: nat)
    requires Reachable(w) && r in w.runners && w.runners[r].phase == Scanning(1, None)
    requires HoldsMatch(Run(w, steps), r, c) && Unquoted(Run(w, steps), w.runners[r].run.marker)
    ensures n < |steps| && steps[n] == ReadListing(r) && SeenAt(Run(w, steps[..n]), r, q, k, c)
    ensures q < Run(w, steps).runners[r].phase.page
    ensures var filed := FiledIn(Run(w, steps[..n]), steps[n..], w.runners[r].run.target);
            && (Ambiguous(Run(w, steps), r) <==> Tracker.Carried(q, k, filed, Run(w, steps).runners[r].phase.page))
            && (filed == 0 ==> !Ambiguous(Run(w, steps), r))
  {
    ReachableCore(w);
    n, q, k := MatchWasSeen(w, steps, r, 1, c);
    AmbiguousSince(w, steps, r, n, q, k, c);
  }

  lemma AmbiguousSince(w: World, steps: seq<Step>, r: nat, n: nat, q: nat, k: nat, c: nat)
    requires Reachable(w) && Core(w) && r in w.runners && Searches(w.runners[r].phase) && n <= |steps|
    requires SeenAt(Run(w, steps[..n]), r, q, k, c) && HoldsMatch(Run(w, steps), r, c)
    requires q < Run(w, steps).runners[r].phase.page && Unquoted(Run(w, steps), w.runners[r].run.marker)
    ensures var filed := FiledIn(Run(w, steps[..n]), steps[n..], w.runners[r].run.target);
            && (Ambiguous(Run(w, steps), r) <==> Tracker.Carried(q, k, filed, Run(w, steps).runners[r].phase.page))
            && (filed == 0 ==> !Ambiguous(Run(w, steps), r))
  {
    SameRunAt(w, steps, r, n);
    ReachableOn(w, steps[..n]);
    AmbiguousIfListed(Run(w, steps[..n]), steps[n..], r, q, k, c);
  }

  lemma SameRunAt(w: World, steps: seq<Step>, r: nat, n: nat)
    requires Core(w) && r in w.runners && Searches(w.runners[r].phase) && n <= |steps|
    requires r in Run(w, steps[..n]).runners && r in Run(w, steps).runners
    ensures Run(w, steps) == Run(Run(w, steps[..n]), steps[n..])
    ensures Run(w, steps[..n]).runners[r].run == w.runners[r].run && Run(w, steps).runners[r].run == w.runners[r].run
  {
    RunSplit(w, steps, n);
    RunKept(w, steps[..n], r);
    RunKept(w, steps, r);
  }

  lemma RunKept(w: World, steps: seq<Step>, r: nat)
    requires Core(w) && r in w.runners && Searches(w.runners[r].phase) && r in Run(w, steps).runners
    ensures Run(w, steps).runners[r].run == w.runners[r].run
  {
    ScanTracks(w, steps, r);
  }

  lemma ReachableCore(w: World)
    requires Reachable(w)
    ensures Core(w)
  {
    ReachableOk(w);
  }

  lemma ReachableOn(w: World, steps: seq<Step>)
    requires Reachable(w)
    ensures Reachable(Run(w, steps))
  {
    var w0: World, before: seq<Step> :| Init(w0) && w == Run(w0, before);
    RunConcat(w0, before, steps);
  }
}
