/** Which rows of demo/log_store.py a request returns and which numbers it reports: stated over the table and the
    request alone, apart from the functions that select rows and levels. */
module QueryRules {
  import opened Wrappers
  import opened LogStore
  import opened Paging
  import opened Chains

  // ---- what a request asks for ------------------------------------------------------------------

  /** Of the service, within the interval, and matching some search term when there are any. */
  predicate InReach(scope: Scope, spec: Spec, r: Row) {
    && r.service == scope.service && scope.start <= r.time && r.time <= scope.end
    && (|spec.terms| > 0 ==> exists t :: t in spec.terms && t in r.phrases)
  }

  predicate Alarming(r: Row) {
    r.level in {"ERROR", "FATAL", "SEVERE", "FAILURE", "WARN", "WARNING", "CRITICAL", "ALERT", "EMERG"}
  }

  /** Looking for anomalies without naming a term or a level. */
  predicate Browsing(spec: Spec) {
    spec.mode.Anomalies? && |spec.terms| == 0 && |spec.levels| == 0
  }

  /** There is something alarming within reach. */
  predicate Alarmed(table: seq<Row>, scope: Scope, spec: Spec) {
    exists x :: x in table && InReach(scope, spec, x) && Alarming(x)
  }

  /** Levels that are named restrict the rows; browsing shows the alarming ones as long as there are any; everything
      else is shown at every level. */
  predicate AtLevel(table: seq<Row>, scope: Scope, spec: Spec, r: Row) {
    if |spec.levels| > 0 then r.level in spec.levels
    else Browsing(spec) && Alarmed(table, scope, spec) ==> Alarming(r)
  }

  predicate Wanted(table: seq<Row>, scope: Scope, spec: Spec, r: Row) {
    r in table && InReach(scope, spec, r) && AtLevel(table, scope, spec, r)
  }

  // ---- the rows of a request are the wanted ones ----------------------------------------------------

  lemma ReachIs(table: seq<Row>, scope: Scope, spec: Spec, r: Row)
    requires TableOk(table)
    ensures r in Window(table, scope, spec.terms) <==> r in table && InReach(scope, spec, r)
  {
    WindowHas(table, scope, spec.terms, r);
  }

  lemma {:induction false} NoneCounted(window: seq<Row>, levels: seq<string>)
    ensures Count(window, levels) == 0 <==> forall x :: x in window ==> x.level !in levels
    decreases |levels|
  {
    if levels != [] {
      var n := |levels| - 1;
      var last := levels[n];
      assert levels == levels[..n] + [last];
      NoneCounted(window, levels[..n]);
      forall x | x in window ensures x.level == last ==> x in Partition(window, last) {
        PartitionHas(window, last, x);
      }
      var p := Partition(window, last);
      if p != [] {
        PartitionHas(window, last, p[0]);
        assert p[0] in window && p[0].level in levels;
      }
    }
  }

  lemma AlarmingIs(r: Row)
    ensures Alarming(r) <==> r.level in ERROR_LEVELS
  {
  }

  /** Browsing falls back to every level exactly when nothing alarming is within reach. */
  lemma FallsBackIff(table: seq<Row>, scope: Scope, spec: Spec)
    requires TableOk(table) && Browsing(spec)
    ensures FallsBack(Window(table, scope, spec.terms), spec) <==> !Alarmed(table, scope, spec)
  {
    var window := Window(table, scope, spec.terms);
    NoneCounted(window, ERROR_LEVELS);
    forall x: Row
      ensures x in window <==> x in table && InReach(scope, spec, x)
      ensures Alarming(x) <==> x.level in ERROR_LEVELS
    {
      ReachIs(table, scope, spec, x);
      AlarmingIs(x);
    }
  }

  lemma WantedIff(table: seq<Row>, scope: Scope, spec: Spec, r: Row)
    requires TableOk(table)
    ensures r in Base(Window(table, scope, spec.terms), spec) <==> Wanted(table, scope, spec, r)
  {
    var window := Window(table, scope, spec.terms);
    ReachIs(table, scope, spec, r);
    WindowHas(table, scope, spec.terms, r);
    BaseHas(window, spec, r);
    AlarmingIs(r);
    if Browsing(spec) {
      FallsBackIff(table, scope, spec);
    }
  }

  // ---- a chain of pages returns them ------------------------------------------------------------------

  /** What a page passed it returned or featured, however often the level of the row was visited. */
  predicate ReturnsPassed(v: Visit, w: Walked, r: Row) {
    Passed(v, w.positions, r) ==> r in w.records || r.id in v.featured
  }

  lemma TakeReturns(v: Visit, w: Walked, level: string, r: Row)
    requires TableOk(v.base) && ReturnsPassed(v, w, r)
    ensures ReturnsPassed(v, TakeLevel(v, w, level), r)
  {
    var w' := TakeLevel(v, w, level);
    var rest := v.Fetched(level);
    var n := Min(Min(v.quota, v.limit - |w.records|), |rest|);
    if n > 0 && r.level == level && r.id !in v.featured && Passed(v, w'.positions, r) {
      FetchedHas(v, level, r);
      TakenSplits(rest, n, r);
      KeptIn(rest[..n], v.featured, r);
    }
  }

  lemma KeptIn(rows: seq<Row>, featured: seq<int>, r: Row)
    requires r in rows && r.id !in featured
    ensures r in Unfeatured(rows, featured)
  {
    FilterHas(rows, (x: Row) => x.id !in featured, r);
    assert Unfeatured(rows, featured) == Filter(rows, (x: Row) => x.id !in featured);
  }

  lemma {:induction false} WalkReturns(v: Visit, levels: seq<string>, rare: seq<Row>, r: Row)
    requires TableOk(v.base)
    ensures ReturnsPassed(v, Walk(v, levels, rare), r)
    ensures forall x :: x in rare ==> x in Walk(v, levels, rare).records
    decreases |levels|
  {
    if levels != [] {
      var n := |levels| - 1;
      WalkReturns(v, levels[..n], rare, r);
      TakeReturns(v, Walk(v, levels[..n], rare), levels[n], r);
    }
  }

  /** One page and one wanted row that is still to come: it is returned, or stays to come on a next page. */
  lemma PageReturns(v: Visit, levels: seq<string>, rare: seq<Row>, r: Row)
    requires TableOk(v.base) && r in v.base && r.level in levels && Open(v.from, v.start, r) && r.id !in v.featured
    ensures var w := Walk(v, levels, rare);
            r in w.records || (w.more && Open(w.positions, v.start, r))
  {
    WalkReturns(v, levels, rare, r);
    WalkAnnounces(v, levels, rare, r);
  }

  lemma {:induction false} FollowReturns(table: seq<Row>, scope: Scope, spec: Spec, cursor: Cursor, limits: seq<int>,
      r: Row)
    requires Answerable(table, spec) && r in Base(Window(table, scope, spec.terms), spec)
    requires Open(cursor.positions, scope.start, r) && r.id !in cursor.featured
    ensures var trip := Follow(table, scope, spec, cursor, limits);
            trip.done ==> r in trip.records
    decreases |limits|
  {
    var window := Window(table, scope, spec.terms);
    if limits != [] && Answer(table, scope, spec, limits[0], Decoded(cursor), []).Ok? {
      var page := Answer(table, scope, spec, limits[0], Decoded(cursor), []).value;
      BaseIsOk(table, scope, spec);
      BaseVisited(window, spec, r);
      PageReturns(VisitOf(window, scope, spec, Clamped(limits[0]), Decoded(cursor), []), Eligible(window, spec), [], r);
      if page.next.Some? && r !in page.records {
        FollowReturns(table, scope, spec, page.next.value, limits[1..], r);
      }
    }
  }

  lemma {:induction false} FollowOnly(table: seq<Row>, scope: Scope, spec: Spec, cursor: Cursor, limits: seq<int>,
      r: Row)
    requires Answerable(table, spec) && r !in Base(Window(table, scope, spec.terms), spec)
    ensures r !in Follow(table, scope, spec, cursor, limits).records
    decreases |limits|
  {
    var window := Window(table, scope, spec.terms);
    if limits != [] && Answer(table, scope, spec, limits[0], Decoded(cursor), []).Ok? {
      var page := Answer(table, scope, spec, limits[0], Decoded(cursor), []).value;
      BaseIsOk(table, scope, spec);
      WalkSkips(VisitOf(window, scope, spec, Clamped(limits[0]), Decoded(cursor), []), Eligible(window, spec), [], r);
      assert r !in page.records;
      if page.next.Some? {
        FollowOnly(table, scope, spec, page.next.value, limits[1..], r);
      }
    }
  }

  /** The first page returns its sample and, like every page, nothing but rows of the request. */
  lemma FirstPageHas(table: seq<Row>, scope: Scope, spec: Spec, limit: int, rare: seq<Row>, page: Page, r: Row)
    requires Answerable(table, spec)
    requires SampleOk(Window(table, scope, spec.terms), spec, Clamped(limit), true, rare)
    requires Answer(table, scope, spec, limit, NoCursor, rare) == Ok(page)
    ensures var base := Base(Window(table, scope, spec.terms), spec);
            && (r in page.records ==> r in base)
            && (r in base ==>
                  || r in page.records
                  || (page.next.Some? && Open(page.next.value.positions, scope.start, r)
                      && r.id !in page.next.value.featured))
  {
    var window := Window(table, scope, spec.terms);
    var v := VisitOf(window, scope, spec, Clamped(limit), NoCursor, rare);
    BaseIsOk(table, scope, spec);
    StartsOpen(table, scope, spec, r);
    SampleTimes(window, spec, Clamped(limit), rare, r);
    if r in v.base {
      BaseVisited(window, spec, r);
      WalkReturns(v, Eligible(window, spec), rare, r);
      if r !in rare {
        PageReturns(v, Eligible(window, spec), rare, r);
      }
    } else {
      WalkSkips(v, Eligible(window, spec), rare, r);
    }
  }

  /** Reading page after page to the end returns exactly the wanted rows, whatever limits are asked for on the way and
      however often a level is named; and no page ever returns another row. */
  lemma WantedRowsCome(table: seq<Row>, scope: Scope, spec: Spec, limit: int, rare: seq<Row>, limits: seq<int>, r: Row)
    requires Answerable(table, spec)
    requires SampleOk(Window(table, scope, spec.terms), spec, Clamped(limit), true, rare)
    ensures var trip := ReadAll(table, scope, spec, limit, rare, limits);
            && (r in trip.records ==> Wanted(table, scope, spec, r))
            && (trip.done ==> (r in trip.records <==> Wanted(table, scope, spec, r)))
  {
    WantedIff(table, scope, spec, r);
    var page := Answer(table, scope, spec, limit, NoCursor, rare).value;
    FirstPageHas(table, scope, spec, limit, rare, page, r);
    if page.next.Some? {
      if r in Base(Window(table, scope, spec.terms), spec) {
        if r !in page.records {
          FollowReturns(table, scope, spec, page.next.value, limits, r);
        }
      } else {
        FollowOnly(table, scope, spec, page.next.value, limits, r);
      }
    }
  }

  // ---- what a page reports ---------------------------------------------------------------------------------

  lemma {:induction false} SizeIsCard(s: seq<Row>)
    requires TableOk(s)
    ensures |s| == |set x | x in s|
    decreases |s|
  {
    if s == [] {
      assert (set x | x in s) == {};
    } else {
      var n := |s| - 1;
      assert s == s[..n] + [s[n]];
      SliceOk(s, 0, n);
      assert s[0..n] == s[..n];
      SizeIsCard(s[..n]);
      forall i | 0 <= i < n ensures s[i] != s[n] {
        assert Precedes(s[i], s[n]);
      }
      assert (set x | x in s) == (set x | x in s[..n]) + {s[n]};
    }
  }

  function Reach(table: seq<Row>, scope: Scope, spec: Spec): set<Row> {
    set r | r in table && InReach(scope, spec, r)
  }

  /** The total is the number of rows within reach, at any level. */
  lemma TotalIs(table: seq<Row>, scope: Scope, spec: Spec, limit: int, cursor: CursorText, rare: seq<Row>)
    requires TableOk(table)
    requires SampleOk(Window(table, scope, spec.terms), spec, Clamped(limit), cursor.NoCursor?, rare)
    requires Answer(table, scope, spec, limit, cursor, rare).Ok?
    ensures Answer(table, scope, spec, limit, cursor, rare).value.total
            == |set r | r in table && InReach(scope, spec, r)|
  {
    WindowCard(table, scope, spec);
  }

  lemma WindowCard(table: seq<Row>, scope: Scope, spec: Spec)
    requires TableOk(table)
    ensures |Window(table, scope, spec.terms)| == |Reach(table, scope, spec)|
  {
    var window := Window(table, scope, spec.terms);
    BaseIsOk(table, scope, spec);
    SizeIsCard(window);
    forall x: Row ensures x in window <==> x in Reach(table, scope, spec) {
      ReachIs(table, scope, spec, x);
    }
    assert (set x | x in window) == Reach(table, scope, spec);
  }

  /** Each listing of a level, with each row within reach at that level. */
  function Listings(reach: set<Row>, levels: seq<string>): set<(int, Row)> {
    set k, r | 0 <= k < |levels| && r in reach && r.level == levels[k] :: (k, r)
  }

  lemma {:induction false} TagCard(n: int, s: set<Row>)
    ensures |(set r | r in s :: (n, r))| == |s|
    decreases s
  {
    if s == {} {
      assert (set r | r in s :: (n, r)) == {};
    } else {
      var x :| x in s;
      TagCard(n, s - {x});
      assert (set r | r in s :: (n, r)) == (set r | r in s - {x} :: (n, r)) + {(n, x)};
    }
  }

  lemma ListingsAppend(reach: set<Row>, init: seq<string>, last: string)
    ensures |Listings(reach, init + [last])| == |Listings(reach, init)| + |set r | r in reach && r.level == last|
  {
    var n := |init|;
    var here := set r | r in reach && r.level == last;
    var tagged := set r | r in here :: (n, r);
    TagCard(n, here);
    assert Listings(reach, init + [last]) == Listings(reach, init) + tagged;
    assert Listings(reach, init) !! tagged;
  }

  lemma {:induction false} CountIsListings(window: seq<Row>, levels: seq<string>)
    requires TableOk(window)
    ensures Count(window, levels) == |Listings((set x | x in window), levels)|
    decreases |levels|
  {
    var all := set x | x in window;
    if levels == [] {
      assert Listings(all, levels) == {};
    } else {
      var n := |levels| - 1;
      var init, last := levels[..n], levels[n];
      assert levels == init + [last];
      CountIsListings(window, init);
      ListingsAppend(all, init, last);
      FilterOk(window, (r: Row) => r.level == last);
      assert Partition(window, last) == Filter(window, (r: Row) => r.level == last);
      SizeIsCard(Partition(window, last));
      forall x: Row ensures x in Partition(window, last) <==> x in all && x.level == last {
        PartitionHas(window, last, x);
      }
      assert (set x | x in Partition(window, last)) == set r | r in all && r.level == last;
    }
  }

  lemma ReachListings(table: seq<Row>, scope: Scope, spec: Spec, levels: seq<string>)
    requires TableOk(table)
    ensures Count(Window(table, scope, spec.terms), levels) == |Listings(Reach(table, scope, spec), levels)|
  {
    var window := Window(table, scope, spec.terms);
    BaseIsOk(table, scope, spec);
    CountIsListings(window, levels);
    forall x: Row ensures x in window <==> x in Reach(table, scope, spec) {
      ReachIs(table, scope, spec, x);
    }
    assert (set x | x in window) == Reach(table, scope, spec);
  }

  /** With levels named, a page reports as matched one for each listing of a level and each row within reach at that
      level: a level named twice counts twice. */
  lemma MatchedAtLevels(table: seq<Row>, scope: Scope, spec: Spec, limit: int, cursor: CursorText, rare: seq<Row>)
    requires TableOk(table) && |spec.levels| > 0
    requires SampleOk(Window(table, scope, spec.terms), spec, Clamped(limit), cursor.NoCursor?, rare)
    requires Answer(table, scope, spec, limit, cursor, rare).Ok?
    ensures Answer(table, scope, spec, limit, cursor, rare).value.matched
            == |set k, r | 0 <= k < |spec.levels| && r in table && InReach(scope, spec, r) && r.level == spec.levels[k]
                  :: (k, r)|
  {
    ReachListings(table, scope, spec, spec.levels);
    assert Listings(Reach(table, scope, spec), spec.levels)
        == set k, r | 0 <= k < |spec.levels| && r in table && InReach(scope, spec, r) && r.level == spec.levels[k]
             :: (k, r);
  }

  lemma CountOnce(table: seq<Row>, scope: Scope, spec: Spec)
    requires TableOk(table)
    ensures Count(Window(table, scope, spec.terms), ERROR_LEVELS)
            == |set r | r in table && InReach(scope, spec, r) && Alarming(r)|
  {
    var window := Window(table, scope, spec.terms);
    BaseIsOk(table, scope, spec);
    ErrorLevelsDistinct();
    CountIsSize(window, ERROR_LEVELS);
    var rows := OfLevels(window, ERROR_LEVELS);
    FilterOk(window, (r: Row) => r.level in ERROR_LEVELS);
    assert rows == Filter(window, (r: Row) => r.level in ERROR_LEVELS);
    SizeIsCard(rows);
    forall x: Row ensures x in rows <==> x in table && InReach(scope, spec, x) && Alarming(x) {
      FilterHas(window, (r: Row) => r.level in ERROR_LEVELS, x);
      ReachIs(table, scope, spec, x);
      AlarmingIs(x);
    }
    assert (set x | x in rows) == set r | r in table && InReach(scope, spec, r) && Alarming(r);
  }

  /** Without levels, it reports the alarming rows within reach when browsing, also when there are none and background
      rows are shown, and otherwise all rows within reach. */
  lemma MatchedWithoutLevels(table: seq<Row>, scope: Scope, spec: Spec, limit: int, cursor: CursorText, rare: seq<Row>)
    requires TableOk(table) && |spec.levels| == 0
    requires SampleOk(Window(table, scope, spec.terms), spec, Clamped(limit), cursor.NoCursor?, rare)
    requires Answer(table, scope, spec, limit, cursor, rare).Ok?
    ensures var page := Answer(table, scope, spec, limit, cursor, rare).value;
            page.matched
            == if Browsing(spec) then |set r | r in table && InReach(scope, spec, r) && Alarming(r)| else page.total
  {
    if Browsing(spec) {
      CountOnce(table, scope, spec);
    }
  }

  lemma WantedCard(table: seq<Row>, scope: Scope, spec: Spec, base: seq<Row>)
    requires TableOk(table) && base == Base(Window(table, scope, spec.terms), spec)
    ensures |base| == |set r | r in table && Wanted(table, scope, spec, r)|
    ensures forall r :: multiset(base)[r] == if Wanted(table, scope, spec, r) then 1 else 0
  {
    BaseIsOk(table, scope, spec);
    SizeIsCard(base);
    forall x: Row
      ensures x in base <==> Wanted(table, scope, spec, x)
      ensures multiset(base)[x] == if x in base then 1 else 0
    {
      WantedIff(table, scope, spec, x);
      Once(base, x);
    }
    assert (set x | x in base) == set r | r in table && Wanted(table, scope, spec, r);
  }

  /** With no level named twice, reading to the end returns every wanted row once and nothing else. */
  lemma WantedRowsComeOnce(table: seq<Row>, scope: Scope, spec: Spec, limit: int, rare: seq<Row>, limits: seq<int>)
    requires Answerable(table, spec)
    requires forall i, j :: 0 <= i < j < |spec.levels| ==> spec.levels[i] != spec.levels[j]
    requires SampleOk(Window(table, scope, spec.terms), spec, Clamped(limit), true, rare)
    requires ReadAll(table, scope, spec, limit, rare, limits).done
    ensures var records := ReadAll(table, scope, spec, limit, rare, limits).records;
            && (forall r :: multiset(records)[r] == if Wanted(table, scope, spec, r) then 1 else 0)
            && |records| == |set r | r in table && Wanted(table, scope, spec, r)|
  {
    ListedOnceIsRegular(Window(table, scope, spec.terms), spec, rare);
    EveryRowOnce(table, scope, spec, limit, rare, limits);
    WantedCard(table, scope, spec, Base(Window(table, scope, spec.terms), spec));
  }

  // ---- which requests are answered -----------------------------------------------------------------------------

  predicate Nameable(l: string) {
    || l in {"ERROR", "FATAL", "SEVERE", "FAILURE", "WARN", "WARNING", "CRITICAL", "ALERT", "EMERG"}
    || l in {"INFO", "DEBUG", "TRACE", "UNKNOWN"}
  }

  predicate ReadableTerms(spec: Spec) {
    && !spec.mode.OtherMode? && |spec.terms| <= 6
    && forall t :: t in spec.terms ==> 1 <= |t| <= 100
  }

  predicate ReadableLevels(spec: Spec) {
    |spec.levels| <= 12 && forall l :: l in spec.levels ==> Nameable(l)
  }

  predicate ReadableCursor(cursor: CursorText) {
    cursor.NoCursor? || (cursor.Decoded? && |cursor.cursor.featured| <= 50)
  }

  /** A request is answered exactly when its mode, terms, levels and cursor can be read; the refusal names the first
      that cannot. Any number is good for a limit. */
  lemma AnsweredIff(table: seq<Row>, scope: Scope, spec: Spec, limit: int, cursor: CursorText, rare: seq<Row>)
    requires SampleOk(Window(table, scope, spec.terms), spec, Clamped(limit), cursor.NoCursor?, rare)
    ensures var reply := Answer(table, scope, spec, limit, cursor, rare);
            && (reply.Ok? <==> ReadableTerms(spec) && ReadableLevels(spec) && ReadableCursor(cursor))
            && (reply.Err? ==>
                  reply.error == if !ReadableTerms(spec) then InvalidLogQuery
                                 else if !ReadableLevels(spec) then InvalidLevels else InvalidCursor)
  {
    assert TermsOk(spec.terms) <==> forall t :: t in spec.terms ==> 1 <= |t| <= 100;
    forall l: string ensures KnownLevel(l) <==> Nameable(l) {
    }
    assert LevelsOk(spec.levels) <==> forall l :: l in spec.levels ==> Nameable(l);
  }
}
