/** Following the cursors of demo/log_store.py over an unchanged table: every row of the request exactly once,
    in a bounded number of pages, whatever limits the caller asks for; and exactly when a row comes twice. */
module Chains {
  import opened Wrappers
  import opened LogStore
  import opened Paging

  // ---- following the cursors ------------------------------------------------------------------

  /** What a caller holds after asking for page after page with the limits given. */
  datatype Trip = Trip(records: seq<Row>, pages: nat, done: bool)

  function Follow(table: seq<Row>, scope: Scope, spec: Spec, cursor: Cursor, limits: seq<int>): Trip
    decreases |limits|
  {
    if limits == [] then Trip([], 0, false)
    else
      match Answer(table, scope, spec, limits[0], Decoded(cursor), [])
      case Err(_) => Trip([], 1, false)
      case Ok(page) =>
        if page.next.None? then Trip(page.records, 1, true)
        else
          var rest := Follow(table, scope, spec, page.next.value, limits[1..]);
          Trip(page.records + rest.records, 1 + rest.pages, rest.done)
  }

  function ReadAll(table: seq<Row>, scope: Scope, spec: Spec, limit: int, rare: seq<Row>, limits: seq<int>): Trip
    requires SampleOk(Window(table, scope, spec.terms), spec, Clamped(limit), true, rare)
  {
    match Answer(table, scope, spec, limit, NoCursor, rare)
    case Err(_) => Trip([], 1, false)
    case Ok(page) =>
      if page.next.None? then Trip(page.records, 1, true)
      else
        var rest := Follow(table, scope, spec, page.next.value, limits);
        Trip(page.records + rest.records, 1 + rest.pages, rest.done)
  }

  lemma ReadAllSplits(table: seq<Row>, scope: Scope, spec: Spec, limit: int, rare: seq<Row>, limits: seq<int>,
                      page: Page, r: Row)
    requires SampleOk(Window(table, scope, spec.terms), spec, Clamped(limit), true, rare)
    requires Answer(table, scope, spec, limit, NoCursor, rare) == Ok(page)
    ensures var trip := ReadAll(table, scope, spec, limit, rare, limits);
            if page.next.None? then trip.done && trip.records == page.records
            else
              var rest := Follow(table, scope, spec, page.next.value, limits);
              && trip.done == rest.done
              && multiset(trip.records)[r] == multiset(page.records)[r] + multiset(rest.records)[r]
  {
  }

  /** A request the store accepts, over a well-formed table. */
  predicate Answerable(table: seq<Row>, spec: Spec) {
    TableOk(table) && SpecError(spec).None?
  }

  /** The row cannot be returned twice: its level is visited once, or it was featured. */
  predicate Regular(eligible: seq<string>, featured: seq<int>, base: seq<Row>, r: Row) {
    multiset(eligible)[r.level] <= 1 || r.id in featured || r !in base
  }

  lemma PageWalks(table: seq<Row>, scope: Scope, spec: Spec, limit: int, cursor: CursorText, rare: seq<Row>,
                  v: Visit, page: Page, r: Row)
    requires Answerable(table, spec)
    requires SampleOk(Window(table, scope, spec.terms), spec, Clamped(limit), cursor.NoCursor?, rare)
    requires Answer(table, scope, spec, limit, cursor, rare) == Ok(page)
    requires v == VisitOf(Window(table, scope, spec.terms), scope, spec, Clamped(limit), cursor, rare)
    requires Regular(Eligible(Window(table, scope, spec.terms), spec), v.featured, v.base, r)
    ensures TableOk(v.base)
    ensures page.next.Some? ==>
              && page.next.value.featured == v.featured
              && multiset(page.records)[r] + DueIn(v.base, v.start, page.next.value.positions, v.featured, r)
                 == multiset(rare)[r] + DueIn(v.base, v.start, v.from, v.featured, r)
    ensures page.next.None? ==>
              multiset(page.records)[r] == multiset(rare)[r] + DueIn(v.base, v.start, v.from, v.featured, r)
  {
    var window := Window(table, scope, spec.terms);
    var levels := Eligible(window, spec);
    WindowHas(table, scope, spec.terms, r);
    BaseHas(window, spec, r);
    if r.id in v.featured || r !in v.base {
      WalkSkips(v, levels, rare, r);
    } else {
      WalkRow(v, levels, rare, r);
      BaseVisited(window, spec, r);
    }
  }

  /** How often a row is still to come. */
  function DueIn(base: seq<Row>, start: int, positions: map<string, Pos>, featured: seq<int>, r: Row): nat {
    if r in base && Open(positions, start, r) && r.id !in featured then 1 else 0
  }

  lemma {:induction false} FollowDelivers(table: seq<Row>, scope: Scope, spec: Spec, cursor: Cursor, limits: seq<int>,
      r: Row)
    requires Answerable(table, spec)
    requires var window := Window(table, scope, spec.terms);
             Regular(Eligible(window, spec), cursor.featured, Base(window, spec), r)
    ensures var base := Base(Window(table, scope, spec.terms), spec);
            var due := DueIn(base, scope.start, cursor.positions, cursor.featured, r);
            var trip := Follow(table, scope, spec, cursor, limits);
            && multiset(trip.records)[r] <= due
            && (trip.done ==> multiset(trip.records)[r] == due)
    decreases |limits|
  {
    if limits != [] && Answer(table, scope, spec, limits[0], Decoded(cursor), []).Ok? {
      var page := Answer(table, scope, spec, limits[0], Decoded(cursor), []).value;
      var v := VisitOf(Window(table, scope, spec.terms), scope, spec, Clamped(limits[0]), Decoded(cursor), []);
      PageWalks(table, scope, spec, limits[0], Decoded(cursor), [], v, page, r);
      if page.next.Some? {
        FollowDelivers(table, scope, spec, page.next.value, limits[1..], r);
        var rest := Follow(table, scope, spec, page.next.value, limits[1..]);
        assert multiset(page.records + rest.records)[r] == multiset(page.records)[r] + multiset(rest.records)[r];
      }
    }
  }

  lemma StartsOpen(table: seq<Row>, scope: Scope, spec: Spec, r: Row)
    requires TableOk(table)
    ensures TableOk(Base(Window(table, scope, spec.terms), spec))
    ensures r in Base(Window(table, scope, spec.terms), spec) ==> Open(map[], scope.start, r)
  {
    WindowHas(table, scope, spec.terms, r);
    BaseHas(Window(table, scope, spec.terms), spec, r);
  }

  lemma {:induction false} DistinctOnce(s: seq<Row>, r: Row)
    requires Distinct(Ids(s))
    ensures multiset(s)[r] == if r in s then 1 else 0
  {
    if s != [] {
      var n := |s| - 1;
      assert s == s[..n] + [s[n]];
      forall i, j | 0 <= i < j < n ensures Ids(s[..n])[i] != Ids(s[..n])[j] {
        assert Ids(s)[i] != Ids(s)[j];
      }
      DistinctOnce(s[..n], r);
      forall i | 0 <= i < n ensures s[i] != s[n] {
        assert Ids(s)[i] != Ids(s)[n];
      }
    }
  }

  lemma IdsUnique(s: seq<Row>, a: Row, b: Row)
    requires TableOk(s) && a in s && b in s && a.id == b.id
    ensures a == b
  {
    var i :| 0 <= i < |s| && s[i] == a;
    var j :| 0 <= j < |s| && s[j] == b;
    assert i < j ==> Precedes(s[i], s[j]);
    assert j < i ==> Precedes(s[j], s[i]);
  }

  /** The sample is some rows of the request, none twice; it is featured on the first page only. */
  lemma SampleTimes(window: seq<Row>, spec: Spec, limit: nat, rare: seq<Row>, r: Row)
    requires TableOk(Base(window, spec)) && SampleOk(window, spec, limit, true, rare)
    ensures multiset(rare)[r] == if r in Base(window, spec) && r.id in Ids(rare) then 1 else 0
  {
    assert rare == [] ==> Distinct(Ids(rare));
    DistinctOnce(rare, r);
    if r in rare {
      var k :| 0 <= k < |rare| && rare[k] == r;
      assert Ids(rare)[k] == r.id;
    }
    if r in Base(window, spec) && r.id in Ids(rare) {
      var k :| 0 <= k < |rare| && Ids(rare)[k] == r.id;
      IdsUnique(Base(window, spec), rare[k], r);
    }
  }

  /** Before the first page a row is in the sample or due. */
  lemma AllDue(table: seq<Row>, scope: Scope, spec: Spec, limit: nat, rare: seq<Row>, r: Row)
    requires TableOk(table) && SampleOk(Window(table, scope, spec.terms), spec, limit, true, rare)
    ensures var base := Base(Window(table, scope, spec.terms), spec);
            && multiset(base)[r] == (if r in base then 1 else 0)
            && multiset(rare)[r] + DueIn(base, scope.start, map[], Ids(rare), r) == multiset(base)[r]
  {
    StartsOpen(table, scope, spec, r);
    Once(Base(Window(table, scope, spec.terms), spec), r);
    SampleTimes(Window(table, scope, spec.terms), spec, limit, rare, r);
  }

  /** Whatever is listed twice is featured. */
  predicate RepeatsFeatured(window: seq<Row>, spec: Spec, rare: seq<Row>) {
    forall r :: r in Base(window, spec) ==> Regular(Eligible(window, spec), Ids(rare), Base(window, spec), r)
  }

  /** Following the cursors over an unchanged table returns no row twice and, by the page without a cursor, every
      row of the request exactly once, whatever limits are asked for on the way - provided every row of a level
      that is listed twice is featured. */
  lemma EveryRowOnce(table: seq<Row>, scope: Scope, spec: Spec, limit: int, rare: seq<Row>, limits: seq<int>)
    requires Answerable(table, spec) && RepeatsFeatured(Window(table, scope, spec.terms), spec, rare)
    requires SampleOk(Window(table, scope, spec.terms), spec, Clamped(limit), true, rare)
    ensures var base := Base(Window(table, scope, spec.terms), spec);
            var trip := ReadAll(table, scope, spec, limit, rare, limits);
            && (forall r :: multiset(trip.records)[r] <= (if r in base then 1 else 0))
            && (trip.done ==> multiset(trip.records) == multiset(base) && |trip.records| == |base|)
  {
    var base := Base(Window(table, scope, spec.terms), spec);
    var trip := ReadAll(table, scope, spec, limit, rare, limits);
    forall r
      ensures multiset(trip.records)[r] <= (if r in base then 1 else 0)
      ensures trip.done ==> multiset(trip.records)[r] == multiset(base)[r]
    {
      RowOnce(table, scope, spec, limit, rare, limits, r);
    }
    if trip.done {
      assert multiset(trip.records) == multiset(base);
      assert |multiset(trip.records)| == |multiset(base)|;
    }
  }

  lemma RowOnce(table: seq<Row>, scope: Scope, spec: Spec, limit: int, rare: seq<Row>, limits: seq<int>, r: Row)
    requires Answerable(table, spec)
    requires SampleOk(Window(table, scope, spec.terms), spec, Clamped(limit), true, rare)
    requires var window := Window(table, scope, spec.terms);
             Regular(Eligible(window, spec), Ids(rare), Base(window, spec), r)
    ensures var base := Base(Window(table, scope, spec.terms), spec);
            var trip := ReadAll(table, scope, spec, limit, rare, limits);
            && multiset(trip.records)[r] <= (if r in base then 1 else 0)
            && (trip.done ==> multiset(trip.records)[r] == multiset(base)[r])
  {
    var window := Window(table, scope, spec.terms);
    AllDue(table, scope, spec, Clamped(limit), rare, r);
    var page := Answer(table, scope, spec, limit, NoCursor, rare).value;
    var v := VisitOf(window, scope, spec, Clamped(limit), NoCursor, rare);
    PageWalks(table, scope, spec, limit, NoCursor, rare, v, page, r);
    ReadAllSplits(table, scope, spec, limit, rare, limits, page, r);
    if page.next.Some? {
      FollowDelivers(table, scope, spec, page.next.value, limits, r);
    }
  }

  // ---- how many pages ---------------------------------------------------------------------------

  function OpenRows(base: seq<Row>, positions: map<string, Pos>, start: int): seq<Row> {
    Filter(base, (r: Row) => Open(positions, start, r))
  }

  lemma FewerOpen(base: seq<Row>, from: map<string, Pos>, next: map<string, Pos>, start: int, x: Row)
    requires forall r :: Open(next, start, r) ==> Open(from, start, r)
    requires x in base && Open(from, start, x) && !Open(next, start, x)
    ensures |OpenRows(base, next, start)| < |OpenRows(base, from, start)|
  {
    var p, q := (r: Row) => Open(next, start, r), (r: Row) => Open(from, start, r);
    FilterStrictlyFewer(base, p, q, x);
    assert OpenRows(base, next, start) == Filter(base, p) && OpenRows(base, from, start) == Filter(base, q);
  }

  /** A later page either is the last or leaves fewer rows to come. */
  lemma LaterPageAdvances(table: seq<Row>, scope: Scope, spec: Spec, limit: int, cursor: Cursor, page: Page)
    requires Answerable(table, spec)
    requires Answer(table, scope, spec, limit, Decoded(cursor), []) == Ok(page) && page.next.Some?
    ensures var base := Base(Window(table, scope, spec.terms), spec);
            && |OpenRows(base, page.next.value.positions, scope.start)| < |OpenRows(base, cursor.positions,
                scope.start)|
            && page.next.value.featured == cursor.featured
  {
    var window := Window(table, scope, spec.terms);
    var base, levels := Base(window, spec), Eligible(window, spec);
    var v := VisitOf(window, scope, spec, Clamped(limit), Decoded(cursor), []);
    var w := Walk(v, levels, []);
    BaseIsOk(table, scope, spec);
    if r :| r in base && Open(cursor.positions, scope.start, r) {
      BaseVisited(window, spec, r);
      var x := WalkAdvances(v, levels, r);
      forall y | Open(w.positions, scope.start, y) ensures Open(cursor.positions, scope.start, y) {
        WalkForward(v, levels, [], y);
      }
      FewerOpen(base, cursor.positions, w.positions, scope.start, x);
    } else {
      WalkIdle(v, levels);
    }
  }

  lemma BaseIsOk(table: seq<Row>, scope: Scope, spec: Spec)
    requires TableOk(table)
    ensures TableOk(Window(table, scope, spec.terms)) && TableOk(Base(Window(table, scope, spec.terms), spec))
  {
    var r: Row :| true;
    StartsOpen(table, scope, spec, r);
    WindowHas(table, scope, spec.terms, r);
  }

  lemma {:induction false} FollowEnds(table: seq<Row>, scope: Scope, spec: Spec, cursor: Cursor, limits: seq<int>)
    requires Answerable(table, spec) && |cursor.featured| <= FEATURED_LIMIT
    requires |limits| > |OpenRows(Base(Window(table, scope, spec.terms), spec), cursor.positions, scope.start)|
    ensures var trip := Follow(table, scope, spec, cursor, limits);
            trip.done && trip.pages <= |OpenRows(Base(Window(table, scope, spec.terms), spec), cursor.positions,
                scope.start)| + 1
    decreases |limits|
  {
    var page := Answer(table, scope, spec, limits[0], Decoded(cursor), []).value;
    if page.next.Some? {
      LaterPageAdvances(table, scope, spec, limits[0], cursor, page);
      FollowEnds(table, scope, spec, page.next.value, limits[1..]);
    }
  }

  /** For M rows and any limits the chain of cursors ends within M + 2 pages. */
  lemma ChainEnds(table: seq<Row>, scope: Scope, spec: Spec, limit: int, rare: seq<Row>, limits: seq<int>)
    requires Answerable(table, spec)
    requires SampleOk(Window(table, scope, spec.terms), spec, Clamped(limit), true, rare)
    requires |limits| > |Base(Window(table, scope, spec.terms), spec)|
    ensures var trip := ReadAll(table, scope, spec, limit, rare, limits);
            trip.done && trip.pages <= |Base(Window(table, scope, spec.terms), spec)| + 2
  {
    var page := Answer(table, scope, spec, limit, NoCursor, rare).value;
    if page.next.Some? {
      FollowEnds(table, scope, spec, page.next.value, limits);
    }
  }

  /** No page is longer than the limit asked for, once clamped to 1..100. */
  lemma PageWithinLimit(table: seq<Row>, scope: Scope, spec: Spec, limit: int, cursor: CursorText, rare: seq<Row>)
    requires SampleOk(Window(table, scope, spec.terms), spec, Clamped(limit), cursor.NoCursor?, rare)
    requires Answer(table, scope, spec, limit, cursor, rare).Ok?
    ensures |Answer(table, scope, spec, limit, cursor, rare).value.records| <= Clamped(limit)
  {
    var window := Window(table, scope, spec.terms);
    WalkWithinLimit(VisitOf(window, scope, spec, Clamped(limit), cursor, rare), Eligible(window, spec), rare);
  }

  // ---- the reported totals ---------------------------------------------------------------------------------

  lemma {:induction false} OfLevelsSplits(rows: seq<Row>, init: seq<string>, last: string)
    ensures |OfLevels(rows, init + [last])| ==
            |OfLevels(rows, init)| + (if last in init then 0 else |Partition(rows, last)|)
  {
    if rows != [] {
      OfLevelsSplits(rows[..|rows| - 1], init, last);
    }
  }

  lemma {:induction false} NoLevels(rows: seq<Row>)
    ensures OfLevels(rows, []) == []
  {
    if rows != [] {
      NoLevels(rows[..|rows| - 1]);
    }
  }

  lemma {:induction false} CountIsSize(window: seq<Row>, levels: seq<string>)
    requires ListedOnce(window, levels)
    ensures Count(window, levels) == |OfLevels(window, levels)|
  {
    if levels == [] {
      NoLevels(window);
    } else {
      var n := |levels| - 1;
      var init, last := levels[..n], levels[n];
      assert levels == init + [last];
      ListedAppend(window, init, last);
      CountIsSize(window, init);
      OfLevelsSplits(window, init, last);
    }
  }

  lemma {:induction false} DistinctTimes(s: seq<string>, x: string)
    requires Distinct(s)
    ensures multiset(s)[x] <= 1
  {
    if s != [] {
      var n := |s| - 1;
      assert s == s[..n] + [s[n]];
      DistinctAppend(s[..n], s[n]);
      DistinctTimes(s[..n], x);
    }
  }

  lemma ListedOnceIsRegular(window: seq<Row>, spec: Spec, rare: seq<Row>)
    requires ListedOnce(window, spec.levels)
    ensures RepeatsFeatured(window, spec, rare)
  {
    EligibleDistinct(window, spec);
    forall r | r in Base(window, spec) ensures Regular(Eligible(window, spec), Ids(rare), Base(window, spec), r) {
      DistinctTimes(Eligible(window, spec), r.level);
    }
  }

  /** The number of rows delivered is the number reported: matched, or total when background rows are returned. */
  lemma DeliveredIsReported(table: seq<Row>, scope: Scope, spec: Spec, limit: int, rare: seq<Row>, limits: seq<int>)
    requires Answerable(table, spec) && ListedOnce(Window(table, scope, spec.terms), spec.levels)
    requires SampleOk(Window(table, scope, spec.terms), spec, Clamped(limit), true, rare)
    requires ReadAll(table, scope, spec, limit, rare, limits).done
    ensures var page := Answer(table, scope, spec, limit, NoCursor, rare).value;
            |ReadAll(table, scope, spec, limit, rare, limits).records|
            == if FallsBack(Window(table, scope, spec.terms), spec) then page.total else page.matched
  {
    var window := Window(table, scope, spec.terms);
    ListedOnceIsRegular(window, spec, rare);
    EveryRowOnce(table, scope, spec, limit, rare, limits);
    ErrorLevelsDistinct();
    if Selected(spec) != [] && !FallsBack(window, spec) {
      CountIsSize(window, Selected(spec));
    }
  }

  // ---- fairness --------------------------------------------------------------------------------------------

  /** The next quota of one level. */
  function Share(v: Visit, level: string): seq<Row> {
    var rest := v.Fetched(level);
    Unfeatured(rest[..Min(v.quota, |rest|)], v.featured)
  }

  /** The shares of some levels, in order. */
  function Shares(v: Visit, levels: seq<string>): seq<Row> {
    if levels == [] then []
    else Shares(v, levels[..|levels| - 1]) + Share(v, levels[|levels| - 1])
  }

  lemma {:induction false} WalkShares(v: Visit, levels: seq<string>, rare: seq<Row>)
    requires v.quota >= 1 && |rare| + |levels| * v.quota <= v.limit
    ensures Walk(v, levels, rare).records == rare + Shares(v, levels)
    ensures |Walk(v, levels, rare).records| <= |rare| + |levels| * v.quota
    decreases |levels|
  {
    if levels != [] {
      var n := |levels| - 1;
      assert |levels| * v.quota == n * v.quota + v.quota;
      WalkShares(v, levels[..n], rare);
    }
  }

  lemma QuotaFits(limit: nat, rare: seq<Row>, eligible: seq<string>)
    requires |rare| <= limit && 1 <= |eligible| <= limit - |rare|
    ensures 1 <= Quota(limit, rare, eligible) && |eligible| * Quota(limit, rare, eligible) <= limit - |rare|
  {
    DivisionFits(limit - |rare|, |eligible|);
  }

  lemma DivisionFits(a: nat, n: nat)
    requires 1 <= n <= a
    ensures 1 <= a / n && n * (a / n) <= a
  {
  }

  lemma DivisionIsLargest(a: nat, n: nat)
    requires 1 <= n <= a
    ensures 1 <= a / n && n * (a / n) <= a < n * (a / n + 1)
  {
    assert a == n * (a / n) + a % n;
  }

  /** That quota is the largest for which every level fits beside the sample. */
  lemma QuotaIsLargest(window: seq<Row>, scope: Scope, spec: Spec, limit: nat, cursor: CursorText, rare: seq<Row>)
    requires !cursor.Undecodable? && 1 <= |Eligible(window, spec)| <= limit - |rare|
    ensures var n, quota := |Eligible(window, spec)|, VisitOf(window, scope, spec, limit, cursor, rare).quota;
            n * quota <= limit - |rare| < n * (quota + 1)
  {
    DivisionIsLargest(limit - |rare|, |Eligible(window, spec)|);
  }

  /** When the page has room for one row of every level, no level is starved: each one contributes its next
      rows, as many as the quota, and the sample is in front. */
  lemma EveryLevelServed(table: seq<Row>, scope: Scope, spec: Spec, limit: int, cursor: CursorText, rare: seq<Row>)
    requires SampleOk(Window(table, scope, spec.terms), spec, Clamped(limit), cursor.NoCursor?, rare)
    requires Answer(table, scope, spec, limit, cursor, rare).Ok?
    requires |rare| + |Eligible(Window(table, scope, spec.terms), spec)| <= Clamped(limit)
    ensures var window := Window(table, scope, spec.terms);
            var v := VisitOf(window, scope, spec, Clamped(limit), cursor, rare);
            && v.quota >= 1
            && Answer(table, scope, spec, limit, cursor, rare).value.records == rare + Shares(v, Eligible(window, spec))
  {
    var window := Window(table, scope, spec.terms);
    var levels := Eligible(window, spec);
    var v := VisitOf(window, scope, spec, Clamped(limit), cursor, rare);
    if levels != [] {
      QuotaFits(Clamped(limit), rare, levels);
      WalkShares(v, levels, rare);
    }
  }
}
