/** demo/log_store.py when a level is listed twice: how often each row comes, and exactly when none comes twice. */
module Repeats {
  import opened Wrappers
  import opened LogStore
  import opened Paging
  import opened Chains

  // ---- chains of pages --------------------------------------------------------------------------------

  /** All a page depends on: the rows of the request, where it starts, and the levels that are visited. */
  datatype Request = Request(base: seq<Row>, start: int, levels: seq<string>)

  function RequestOf(table: seq<Row>, scope: Scope, spec: Spec): Request {
    var window := Window(table, scope, spec.terms);
    Request(Base(window, spec), scope.start, Eligible(window, spec))
  }

  function VisitFor(q: Request, from: map<string, Pos>, featured: seq<int>, limit: nat, rare: seq<Row>): Visit
    requires |rare| <= limit
  {
    Visit(q.base, q.start, from, featured, limit, Quota(limit, rare, q.levels))
  }

  function PageWalk(q: Request, from: map<string, Pos>, featured: seq<int>, limit: nat, rare: seq<Row>): Walked
    requires |rare| <= limit
  {
    Walk(VisitFor(q, from, featured, limit, rare), q.levels, rare)
  }

  datatype Chain = Chain(records: seq<Row>, done: bool)

  /** The pages after the first. */
  function Later(q: Request, from: map<string, Pos>, featured: seq<int>, limits: seq<int>): Chain
    decreases |limits|
  {
    if limits == [] then Chain([], false)
    else
      var w := PageWalk(q, from, featured, Clamped(limits[0]), []);
      if !w.more then Chain(w.records, true)
      else
        var rest := Later(q, w.positions, featured, limits[1..]);
        Chain(w.records + rest.records, rest.done)
  }

  /** The first page, with its quota. */
  function FirstVisit(q: Request, quota: nat, limit: nat, rare: seq<Row>): Visit {
    Visit(q.base, q.start, map[], Ids(rare), limit, quota)
  }

  function Whole(q: Request, w: Walked, featured: seq<int>, limits: seq<int>): Chain {
    if !w.more then Chain(w.records, true)
    else
      var rest := Later(q, w.positions, featured, limits);
      Chain(w.records + rest.records, rest.done)
  }

  /** The walk of the first page of a request. */
  function FirstWalk(q: Request, limit: nat, rare: seq<Row>): Walked
    requires |rare| <= limit
  {
    Walk(FirstVisit(q, Quota(limit, rare, q.levels), limit, rare), q.levels, rare)
  }

  lemma {:induction false} FollowIs(table: seq<Row>, scope: Scope, spec: Spec, cursor: Cursor, limits: seq<int>)
    requires SpecError(spec).None? && |cursor.featured| <= FEATURED_LIMIT
    ensures var trip := Follow(table, scope, spec, cursor, limits);
            Chain(trip.records, trip.done)
            == Later(RequestOf(table, scope, spec), cursor.positions, cursor.featured, limits)
    decreases |limits|
  {
    if limits != [] {
      var page := Answer(table, scope, spec, limits[0], Decoded(cursor), []).value;
      if page.next.Some? {
        FollowIs(table, scope, spec, page.next.value, limits[1..]);
      }
    }
  }

  /** A chain of cursors returns what its request makes it return. */
  lemma ReadAllIs(table: seq<Row>, scope: Scope, spec: Spec, limit: int, rare: seq<Row>, limits: seq<int>)
    requires SpecError(spec).None?
    requires SampleOk(Window(table, scope, spec.terms), spec, Clamped(limit), true, rare)
    ensures |rare| <= Clamped(limit)
    ensures var trip := ReadAll(table, scope, spec, limit, rare, limits);
            var q := RequestOf(table, scope, spec);
            Chain(trip.records, trip.done) == Whole(q, FirstWalk(q, Clamped(limit), rare), Ids(rare), limits)
  {
    var page := Answer(table, scope, spec, limit, NoCursor, rare).value;
    if page.next.Some? {
      FollowIs(table, scope, spec, page.next.value, limits);
    }
  }

  /** Rows in order, none passed at the start, each in a level that is visited. */
  predicate RequestOk(q: Request) {
    TableOk(q.base) && forall x :: x in q.base ==> Open(map[], q.start, x) && x.level in q.levels
  }

  lemma RequestIsOk(table: seq<Row>, scope: Scope, spec: Spec)
    requires TableOk(table)
    ensures RequestOk(RequestOf(table, scope, spec))
  {
    BaseIsOk(table, scope, spec);
    forall x | x in Base(Window(table, scope, spec.terms), spec)
      ensures Open(map[], scope.start, x) && x.level in Eligible(Window(table, scope, spec.terms), spec)
    {
      StartsOpen(table, scope, spec, x);
      BaseVisited(Window(table, scope, spec.terms), spec, x);
    }
  }

  // ---- pages with room for every level ---------------------------------------------------------------

  /** The rows a page with room takes of one level, however often it is visited. */
  function Taken(v: Visit, level: string): seq<Row> {
    var rest := v.Fetched(level);
    rest[..Min(v.quota, |rest|)]
  }

  lemma TakenHas(v: Visit, r: Row)
    requires TableOk(v.base)
    ensures multiset(Share(v, r.level))[r] == if r in Taken(v, r.level) && r.id !in v.featured then 1 else 0
  {
    var rest := v.Fetched(r.level);
    FetchedHas(v, r.level, r);
    SliceOk(rest, 0, |Taken(v, r.level)|);
    assert rest[0..|Taken(v, r.level)|] == Taken(v, r.level);
    UnfeaturedTimes(Taken(v, r.level), v.featured, r);
  }

  lemma ShareElsewhere(v: Visit, level: string, r: Row)
    requires TableOk(v.base) && level != r.level
    ensures multiset(Share(v, level))[r] == 0
  {
    FetchedLevel(v, level, r);
    assert r in Taken(v, level) ==> r in v.Fetched(level);
    UnfeaturedLacks(Taken(v, level), v.featured, r);
  }

  /** Every visit of a level contributes the same share. */
  lemma {:induction false} SharesTimes(v: Visit, levels: seq<string>, r: Row)
    requires TableOk(v.base)
    ensures multiset(Shares(v, levels))[r]
            == if r in Taken(v, r.level) && r.id !in v.featured then multiset(levels)[r.level] else 0
    decreases |levels|
  {
    if levels != [] {
      var n := |levels| - 1;
      assert levels == levels[..n] + [levels[n]];
      SharesTimes(v, levels[..n], r);
      assert multiset(Shares(v, levels))[r]
             == multiset(Shares(v, levels[..n]))[r] + multiset(Share(v, levels[n]))[r];
      if levels[n] == r.level {
        TakenHas(v, r);
      } else {
        ShareElsewhere(v, levels[n], r);
      }
    }
  }

  /** A row that is due comes as often as its level is listed. */
  function Often(listed: nat, due: nat): nat {
    if due > 0 then listed else 0
  }

  /** Room for the quota of every visit. */
  predicate HasRoom(v: Visit, levels: seq<string>, rare: seq<Row>) {
    v.quota >= 1 && |rare| + |levels| * v.quota <= v.limit
  }

  lemma RoomBefore(v: Visit, levels: seq<string>, rare: seq<Row>)
    requires HasRoom(v, levels, rare) && levels != []
    ensures HasRoom(v, levels[..|levels| - 1], rare)
    ensures v.limit - |Walk(v, levels[..|levels| - 1], rare).records| >= v.quota
  {
    assert |levels| * v.quota == (|levels| - 1) * v.quota + v.quota;
    WalkShares(v, levels[..|levels| - 1], rare);
  }

  /** Where a page with room leaves the position of a level, and whether it leaves anything behind. */
  lemma {:induction false} RoomyPositions(v: Visit, levels: seq<string>, rare: seq<Row>, l: string)
    requires TableOk(v.base) && HasRoom(v, levels, rare)
    ensures var w := Walk(v, levels, rare);
            var taken := Taken(v, l);
            && PosOf(w.positions, l, v.start)
               == (if l in levels && taken != [] then At(taken[|taken| - 1]) else PosOf(v.from, l, v.start))
            && (!w.more && l in levels ==> taken == v.Fetched(l))
    decreases |levels|
  {
    if levels != [] {
      var n := |levels| - 1;
      assert levels == levels[..n] + [levels[n]];
      RoomBefore(v, levels, rare);
      RoomyPositions(v, levels[..n], rare, l);
      RoomyTake(v, Walk(v, levels[..n], rare), levels[n], l);
    }
  }

  lemma RoomyTake(v: Visit, w: Walked, level: string, l: string)
    requires v.quota >= 1 && v.limit - |w.records| >= v.quota
    ensures var w' := TakeLevel(v, w, level);
            var taken := Taken(v, level);
            && PosOf(w'.positions, l, v.start)
               == (if l == level && taken != [] then At(taken[|taken| - 1]) else PosOf(w.positions, l, v.start))
            && (w'.more <==> w.more || taken != v.Fetched(level))
  {
  }

  /** A page with room passes exactly what it takes. */
  lemma RoomyPasses(v: Visit, levels: seq<string>, rare: seq<Row>, r: Row)
    requires TableOk(v.base) && HasRoom(v, levels, rare) && r in v.base && r.level in levels
    ensures var w := Walk(v, levels, rare);
            && (r in Taken(v, r.level) <==> Passed(v, w.positions, r))
            && (!w.more ==> !Open(w.positions, v.start, r))
  {
    RoomyPositions(v, levels, rare, r.level);
    var rest, taken := v.Fetched(r.level), Taken(v, r.level);
    FetchedHas(v, r.level, r);
    assert r in taken ==> r in rest;
    if taken != [] {
      FetchedLast(v, r.level, |taken| - 1, r);
      if r in rest {
        TakenSplits(rest, |taken|, r);
      }
    }
  }

  lemma RoomyShare(v: Visit, levels: seq<string>, rare: seq<Row>, r: Row)
    requires TableOk(v.base) && HasRoom(v, levels, rare) && r in v.base && r.level in levels
    ensures var w := Walk(v, levels, rare);
            var left := if w.more then DueIn(v.base, v.start, w.positions, v.featured, r) else 0;
            multiset(w.records)[r] + Often(multiset(levels)[r.level], left)
            == multiset(rare)[r] + Often(multiset(levels)[r.level], DueIn(v.base, v.start, v.from, v.featured, r))
  {
    WalkShares(v, levels, rare);
    SharesTimes(v, levels, r);
    RoomyPasses(v, levels, rare, r);
    WalkForward(v, levels, rare, r);
  }

  /** A page with room for one row of every visit. */
  lemma RoomyWalk(q: Request, from: map<string, Pos>, featured: seq<int>, limit: nat, rare: seq<Row>, r: Row)
    requires RequestOk(q) && |rare| + |q.levels| <= limit && r in q.base
    ensures var w := PageWalk(q, from, featured, limit, rare);
            var left := if w.more then DueIn(q.base, q.start, w.positions, featured, r) else 0;
            multiset(w.records)[r] + Often(multiset(q.levels)[r.level], left)
            == multiset(rare)[r] + Often(multiset(q.levels)[r.level], DueIn(q.base, q.start, from, featured, r))
  {
    QuotaFits(limit, rare, q.levels);
    RoomyShare(VisitFor(q, from, featured, limit, rare), q.levels, rare, r);
  }

  /** Every page has room for n rows. */
  predicate RoomFor(limits: seq<int>, n: nat) {
    forall i :: 0 <= i < |limits| ==> Clamped(limits[i]) >= n
  }

  lemma {:induction false} RoomyLater(q: Request, from: map<string, Pos>, featured: seq<int>, limits: seq<int>, r: Row)
    requires RequestOk(q) && RoomFor(limits, |q.levels|) && r in q.base && Later(q, from, featured, limits).done
    ensures multiset(Later(q, from, featured, limits).records)[r]
            == Often(multiset(q.levels)[r.level], DueIn(q.base, q.start, from, featured, r))
    decreases |limits|
  {
    var w := PageWalk(q, from, featured, Clamped(limits[0]), []);
    RoomyWalk(q, from, featured, Clamped(limits[0]), [], r);
    if w.more {
      RoomyLater(q, w.positions, featured, limits[1..], r);
      JoinTimes(w.records, Later(q, w.positions, featured, limits[1..]).records, r);
    }
  }

  lemma JoinTimes(a: seq<Row>, b: seq<Row>, r: Row)
    ensures multiset(a + b)[r] == multiset(a)[r] + multiset(b)[r]
  {
  }

  lemma RoomyWhole(q: Request, v: Visit, rare: seq<Row>, limits: seq<int>, r: Row)
    requires RequestOk(q) && v == FirstVisit(q, v.quota, v.limit, rare) && HasRoom(v, q.levels, rare) && r in q.base
    requires RoomFor(limits, |q.levels|) && Whole(q, Walk(v, q.levels, rare), Ids(rare), limits).done
    ensures multiset(Whole(q, Walk(v, q.levels, rare), Ids(rare), limits).records)[r]
            == multiset(rare)[r] + if r.id in Ids(rare) then 0 else multiset(q.levels)[r.level]
  {
    var w := Walk(v, q.levels, rare);
    RoomyShare(v, q.levels, rare, r);
    if w.more {
      RoomyLater(q, w.positions, Ids(rare), limits, r);
      JoinTimes(w.records, Later(q, w.positions, Ids(rare), limits).records, r);
    }
  }

  lemma FirstHasRoom(q: Request, limit: nat, rare: seq<Row>)
    requires |rare| + |q.levels| <= limit
    ensures HasRoom(FirstVisit(q, Quota(limit, rare, q.levels), limit, rare), q.levels, rare)
  {
    if q.levels != [] {
      QuotaFits(limit, rare, q.levels);
    }
  }

  /** Read in pages with room for one row of every listed level, a featured row comes once and every other row as
      often as its level is listed. */
  lemma AsOftenAsListed(table: seq<Row>, scope: Scope, spec: Spec, limit: int, rare: seq<Row>, limits: seq<int>, r: Row)
    requires Answerable(table, spec) && r in Base(Window(table, scope, spec.terms), spec)
    requires SampleOk(Window(table, scope, spec.terms), spec, Clamped(limit), true, rare)
    requires |rare| + |Eligible(Window(table, scope, spec.terms), spec)| <= Clamped(limit)
    requires RoomFor(limits, |Eligible(Window(table, scope, spec.terms), spec)|)
    requires ReadAll(table, scope, spec, limit, rare, limits).done
    ensures multiset(ReadAll(table, scope, spec, limit, rare, limits).records)[r]
            == if r.id in Ids(rare) then 1 else multiset(Eligible(Window(table, scope, spec.terms), spec))[r.level]
  {
    RequestIsOk(table, scope, spec);
    ReadAllIs(table, scope, spec, limit, rare, limits);
    var q := RequestOf(table, scope, spec);
    FirstHasRoom(q, Clamped(limit), rare);
    RoomyWhole(q, FirstVisit(q, Quota(Clamped(limit), rare, q.levels), Clamped(limit), rare), rare, limits, r);
    SampleTimes(Window(table, scope, spec.terms), spec, Clamped(limit), rare, r);
  }

  predicate NoRowTwice(records: seq<Row>) {
    forall r :: r in records ==> multiset(records)[r] <= 1
  }

  /** A level listed twice is one of the twelve a request may name. */
  lemma RepeatsFit(window: seq<Row>, spec: Spec, r: Row)
    requires SpecError(spec).None? && multiset(Eligible(window, spec))[r.level] >= 2
    ensures |Eligible(window, spec)| <= 12
  {
    if spec.levels == [] {
      EligibleDistinct(window, spec);
      DistinctTimes(Eligible(window, spec), r.level);
    }
  }

  // ---- pages without ------------------------------------------------------------------------------------

  /** No row of its level comes before it. */
  predicate Earliest(base: seq<Row>, r: Row) {
    r in base && forall x {:trigger Less(At(x), At(r))} :: x in base && x.level == r.level ==> !Less(At(x), At(r))
  }

  /** A visit of the level that takes one row adds it to the first page: the earliest one is not featured. */
  predicate Adds(base: seq<Row>, featured: seq<int>, level: string) {
    exists x :: x in base && Earliest(base, x) && x.level == level && x.id !in featured
  }

  function AddsOf(base: seq<Row>, featured: seq<int>, levels: seq<string>): nat {
    if levels == [] then 0
    else
      AddsOf(base, featured, levels[..|levels| - 1]) + if Adds(base, featured, levels[|levels| - 1]) then 1 else 0
  }

  /** How many visits of the level find room on a first page that takes one row a visit. */
  function Reached(base: seq<Row>, featured: seq<int>, levels: seq<string>, level: string, room: int): nat {
    if levels == [] then 0
    else
      var init, last := levels[..|levels| - 1], levels[|levels| - 1];
      Reached(base, featured, init, level, room)
      + if last == level && AddsOf(base, featured, init) < room then 1 else 0
  }

  lemma {:induction false} AddsAtMost(base: seq<Row>, featured: seq<int>, levels: seq<string>)
    ensures AddsOf(base, featured, levels) <= |levels|
  {
    if levels != [] {
      AddsAtMost(base, featured, levels[..|levels| - 1]);
    }
  }

  /** With room for all, every visit finds room. */
  lemma {:induction false} AllReached(base: seq<Row>, featured: seq<int>, levels: seq<string>, level: string, room: int)
    requires |levels| <= room
    ensures Reached(base, featured, levels, level, room) == multiset(levels)[level]
  {
    if levels != [] {
      var n := |levels| - 1;
      assert levels == levels[..n] + [levels[n]];
      AddsAtMost(base, featured, levels[..n]);
      AllReached(base, featured, levels[..n], level, room);
    }
  }

  /** The start of a chain: nothing is passed yet. */
  predicate Fresh(v: Visit) {
    TableOk(v.base) && v.quota == 1 && forall x :: x in v.base ==> Open(v.from, v.start, x)
  }

  /** The next row of the level is the earliest one. */
  lemma NextIsEarliest(v: Visit, r: Row)
    requires Fresh(v)
    ensures Earliest(v.base, r) <==> v.Fetched(r.level) != [] && v.Fetched(r.level)[0] == r
  {
    var rest := v.Fetched(r.level);
    FetchedHas(v, r.level, r);
    if rest != [] && rest[0] == r {
      forall x | x in v.base && x.level == r.level ensures !Less(At(x), At(r)) {
        FetchedHas(v, r.level, x);
        var k :| 0 <= k < |rest| && rest[k] == x;
        assert k > 0 ==> Precedes(rest[0], rest[k]);
      }
    }
    if Earliest(v.base, r) {
      var k :| 0 <= k < |rest| && rest[k] == r;
      FetchedHas(v, r.level, rest[0]);
      assert k > 0 ==> Precedes(rest[0], rest[k]);
    }
  }

  lemma AddsMeans(v: Visit, level: string)
    requires Fresh(v)
    ensures Adds(v.base, v.featured, level) <==> v.Fetched(level) != [] && v.Fetched(level)[0].id !in v.featured
  {
    var rest := v.Fetched(level);
    if rest != [] {
      FetchedHas(v, level, rest[0]);
      NextIsEarliest(v, rest[0]);
    }
    if Adds(v.base, v.featured, level) {
      var x :| x in v.base && Earliest(v.base, x) && x.level == level && x.id !in v.featured;
      NextIsEarliest(v, x);
    }
  }

  predicate NarrowCount(v: Visit, rare: seq<Row>, w: Walked, r: Row, reached: nat) {
    multiset(w.records)[r] == multiset(rare)[r] + (if Earliest(v.base, r) && r.id !in v.featured then reached else 0)
  }

  predicate NarrowPosition(v: Visit, w: Walked, level: string, reached: nat) {
    PosOf(w.positions, level, v.start)
    == if reached > 0 && v.Fetched(level) != [] then At(v.Fetched(level)[0]) else PosOf(v.from, level, v.start)
  }

  /** What a page that takes one row a visit has done with a row, after visits that wanted to add so many rows and
      reached the row's level so often. */
  predicate Narrow(v: Visit, rare: seq<Row>, w: Walked, r: Row, adds: nat, reached: nat)
    requires |rare| <= v.limit
  {
    && |w.records| == |rare| + Min(v.limit - |rare|, adds)
    && NarrowCount(v, rare, w, r, reached) && NarrowPosition(v, w, r.level, reached)
  }

  lemma TakeOne(v: Visit, w: Walked, level: string)
    requires v.quota == 1
    ensures var rest := v.Fetched(level);
            var w' := TakeLevel(v, w, level);
            if v.limit - |w.records| <= 0 then w'.records == w.records && w'.positions == w.positions
            else
              && w'.records == w.records + Unfeatured(rest[..Min(1, |rest|)], v.featured)
              && w'.positions == if rest == [] then w.positions else w.positions[level := At(rest[0])]
  {
  }

  /** The row a visit takes, and what it adds. */
  lemma OneTaken(v: Visit, level: string, r: Row)
    requires Fresh(v)
    ensures var taken := v.Fetched(level)[..Min(1, |v.Fetched(level)|)];
            && |Unfeatured(taken, v.featured)| == (if Adds(v.base, v.featured, level) then 1 else 0)
            && multiset(Unfeatured(taken, v.featured))[r]
               == if r.level == level && Earliest(v.base, r) && r.id !in v.featured then 1 else 0
  {
    var rest := v.Fetched(level);
    AddsMeans(v, level);
    NextIsEarliest(v, r);
    if rest != [] {
      FetchedHas(v, level, rest[0]);
      assert rest[..1] == [rest[0]] && [rest[0]][..0] == [];
    }
  }

  lemma CountTake(v: Visit, last: string, rare: seq<Row>, w: Walked, r: Row, reached: nat)
    requires Fresh(v) && NarrowCount(v, rare, w, r, reached)
    ensures NarrowCount(v, rare, TakeLevel(v, w, last), r,
                        reached + if last == r.level && v.limit - |w.records| > 0 then 1 else 0)
  {
    TakeOne(v, w, last);
    OneTaken(v, last, r);
  }

  lemma PositionTake(v: Visit, last: string, w: Walked, level: string, reached: nat)
    requires v.quota == 1 && NarrowPosition(v, w, level, reached)
    ensures NarrowPosition(v, TakeLevel(v, w, last), level,
                           reached + if last == level && v.limit - |w.records| > 0 then 1 else 0)
  {
    TakeOne(v, w, last);
  }

  lemma NarrowTake(v: Visit, last: string, rare: seq<Row>, w: Walked, r: Row, adds: nat, reached: nat)
    requires Fresh(v) && |rare| <= v.limit && Narrow(v, rare, w, r, adds, reached)
    ensures Narrow(v, rare, TakeLevel(v, w, last), r, adds + (if Adds(v.base, v.featured, last) then 1 else 0),
                   reached + if last == r.level && adds < v.limit - |rare| then 1 else 0)
  {
    TakeOne(v, w, last);
    OneTaken(v, last, r);
    CountTake(v, last, rare, w, r, reached);
    PositionTake(v, last, w, r.level, reached);
  }

  lemma {:induction false} NarrowWalk(v: Visit, levels: seq<string>, rare: seq<Row>, r: Row)
    requires Fresh(v) && |rare| <= v.limit
    ensures Narrow(v, rare, Walk(v, levels, rare), r, AddsOf(v.base, v.featured, levels),
                   Reached(v.base, v.featured, levels, r.level, v.limit - |rare|))
    decreases |levels|
  {
    if levels != [] {
      var init, last := levels[..|levels| - 1], levels[|levels| - 1];
      var adds := AddsOf(v.base, v.featured, init);
      var reached := Reached(v.base, v.featured, init, r.level, v.limit - |rare|);
      NarrowWalk(v, init, rare, r);
      NarrowTake(v, last, rare, Walk(v, init, rare), r, adds, reached);
      assert Walk(v, levels, rare) == TakeLevel(v, Walk(v, init, rare), last);
      assert AddsOf(v.base, v.featured, levels) == adds + if Adds(v.base, v.featured, last) then 1 else 0;
    }
  }

  // ---- when no row comes twice ------------------------------------------------------------------------------

  /** Although its level is listed several times, the first page takes the row once and has then no room left for
      the level. */
  predicate TakenOnce(base: seq<Row>, featured: seq<int>, levels: seq<string>, room: int, r: Row) {
    Earliest(base, r) && Reached(base, featured, levels, r.level, room) == 1
  }

  predicate ComesOnce(q: Request, limit: nat, rare: seq<Row>, r: Row) {
    Regular(q.levels, Ids(rare), q.base, r) || TakenOnce(q.base, Ids(rare), q.levels, limit - |rare|, r)
  }

  /** With room for every listed level, being featured is the only way out. */
  lemma OnlyFeaturedHelps(q: Request, limit: nat, rare: seq<Row>, r: Row)
    requires |rare| + |q.levels| <= limit
    ensures ComesOnce(q, limit, rare, r) <==> Regular(q.levels, Ids(rare), q.base, r)
  {
    AllReached(q.base, Ids(rare), q.levels, r.level, limit - |rare|);
  }

  /** Taken once on the first page, the row is passed; otherwise it is on the page twice, or left open behind it. */
  lemma NarrowCases(v: Visit, rare: seq<Row>, w: Walked, r: Row, reached: nat)
    requires Fresh(v) && r in v.base && r.id !in v.featured
    requires NarrowCount(v, rare, w, r, reached) && NarrowPosition(v, w, r.level, reached)
    ensures if Earliest(v.base, r) && reached == 1
            then multiset(w.records)[r] == multiset(rare)[r] + 1 && !Open(w.positions, v.start, r)
            else multiset(w.records)[r] >= 2 || Open(w.positions, v.start, r)
  {
    NextIsEarliest(v, r);
    FetchedHas(v, r.level, r);
    var rest := v.Fetched(r.level);
    var k :| 0 <= k < |rest| && rest[k] == r;
    assert k > 0 ==> Precedes(rest[0], rest[k]);
  }

  lemma NarrowOnce(v: Visit, levels: seq<string>, rare: seq<Row>, w: Walked, r: Row)
    requires Fresh(v) && |rare| <= v.limit && w == Walk(v, levels, rare) && r in v.base && r.id !in v.featured
    requires TakenOnce(v.base, v.featured, levels, v.limit - |rare|, r)
    ensures multiset(w.records)[r] == multiset(rare)[r] + 1 && !Open(w.positions, v.start, r)
  {
    NarrowWalk(v, levels, rare, r);
    NarrowCases(v, rare, w, r, Reached(v.base, v.featured, levels, r.level, v.limit - |rare|));
  }

  lemma NarrowElse(v: Visit, levels: seq<string>, rare: seq<Row>, w: Walked, r: Row)
    requires Fresh(v) && |rare| <= v.limit && w == Walk(v, levels, rare)
    requires r in v.base && r.level in levels && r.id !in v.featured
    requires !TakenOnce(v.base, v.featured, levels, v.limit - |rare|, r) && multiset(w.records)[r] < 2
    ensures w.more && Open(w.positions, v.start, r)
  {
    NarrowWalk(v, levels, rare, r);
    NarrowCases(v, rare, w, r, Reached(v.base, v.featured, levels, r.level, v.limit - |rare|));
    WalkAnnounces(v, levels, rare, r);
  }

  lemma QuotaIsOne(limit: nat, rare: seq<Row>, eligible: seq<string>)
    requires |rare| <= limit && |eligible| > limit - |rare|
    ensures Quota(limit, rare, eligible) == 1
  {
    assert (limit - |rare|) / |eligible| == 0;
  }

  /** Rows already passed do not come again. */
  lemma {:induction false} LaterSkips(q: Request, from: map<string, Pos>, featured: seq<int>, limits: seq<int>, r: Row)
    requires RequestOk(q) && !Open(from, q.start, r)
    ensures multiset(Later(q, from, featured, limits).records)[r] == 0
    decreases |limits|
  {
    if limits != [] {
      var v := VisitFor(q, from, featured, Clamped(limits[0]), []);
      var w := Walk(v, q.levels, []);
      WalkSkips(v, q.levels, [], r);
      WalkForward(v, q.levels, [], r);
      if w.more {
        LaterSkips(q, w.positions, featured, limits[1..], r);
        JoinTimes(w.records, Later(q, w.positions, featured, limits[1..]).records, r);
      }
    }
  }

  lemma TakenComesOnce(q: Request, v: Visit, rare: seq<Row>, limits: seq<int>, r: Row)
    requires RequestOk(q) && v == FirstVisit(q, 1, v.limit, rare) && |rare| <= v.limit
    requires r in q.base && r.id !in Ids(rare) && multiset(rare)[r] == 0
    requires TakenOnce(v.base, v.featured, q.levels, v.limit - |rare|, r)
    ensures multiset(Whole(q, Walk(v, q.levels, rare), Ids(rare), limits).records)[r] == 1
  {
    var w := Walk(v, q.levels, rare);
    NarrowOnce(v, q.levels, rare, w, r);
    if w.more {
      LaterSkips(q, w.positions, Ids(rare), limits, r);
      JoinTimes(w.records, Later(q, w.positions, Ids(rare), limits).records, r);
    }
  }

  lemma OtherComesTwice(q: Request, v: Visit, rare: seq<Row>, limits: seq<int>, r: Row)
    requires RequestOk(q) && v == FirstVisit(q, 1, v.limit, rare) && |rare| <= v.limit
    requires r in q.base && r.id !in Ids(rare) && multiset(rare)[r] == 0 && multiset(q.levels)[r.level] >= 2
    requires !TakenOnce(v.base, v.featured, q.levels, v.limit - |rare|, r)
    requires RoomFor(limits, |q.levels|) && Whole(q, Walk(v, q.levels, rare), Ids(rare), limits).done
    ensures multiset(Whole(q, Walk(v, q.levels, rare), Ids(rare), limits).records)[r] >= 2
  {
    var w := Walk(v, q.levels, rare);
    if multiset(w.records)[r] < 2 {
      NarrowElse(v, q.levels, rare, w, r);
      RoomyLater(q, w.positions, Ids(rare), limits, r);
    }
    if w.more {
      JoinTimes(w.records, Later(q, w.positions, Ids(rare), limits).records, r);
    }
  }

  /** Pages of 100, as many as are needed. */
  function Hundreds(n: nat): (limits: seq<int>)
    ensures |limits| == n && forall i :: 0 <= i < n ==> limits[i] == 100
  {
    seq(n, _ => 100)
  }

  lemma NarrowFirst(q: Request, limit: nat, rare: seq<Row>)
    requires |rare| <= limit < |rare| + |q.levels|
    ensures FirstWalk(q, limit, rare) == Walk(FirstVisit(q, 1, limit, rare), q.levels, rare)
  {
    QuotaIsOne(limit, rare, q.levels);
  }

  /** Taken once in spite of its level being listed several times: then the first page had not enough room. */
  lemma OnceIsNarrow(q: Request, limit: nat, rare: seq<Row>, r: Row)
    requires ComesOnce(q, limit, rare, r) && !Regular(q.levels, Ids(rare), q.base, r)
    ensures limit < |rare| + |q.levels|
  {
    if |rare| + |q.levels| <= limit {
      OnlyFeaturedHelps(q, limit, rare, r);
    }
  }

  lemma OnceInWhole(q: Request, limit: nat, rare: seq<Row>, w: Walked, limits: seq<int>, r: Row)
    requires RequestOk(q) && |rare| <= limit && w == FirstWalk(q, limit, rare)
    requires ComesOnce(q, limit, rare, r) && !Regular(q.levels, Ids(rare), q.base, r) && multiset(rare)[r] == 0
    ensures multiset(Whole(q, w, Ids(rare), limits).records)[r] == 1
  {
    OnceIsNarrow(q, limit, rare, r);
    NarrowFirst(q, limit, rare);
    TakenComesOnce(q, FirstVisit(q, 1, limit, rare), rare, limits, r);
  }

  lemma RoomyTwice(q: Request, limit: nat, rare: seq<Row>, limits: seq<int>, r: Row)
    requires RequestOk(q) && |rare| + |q.levels| <= limit && r in q.base && r.id !in Ids(rare)
    requires multiset(q.levels)[r.level] >= 2 && RoomFor(limits, |q.levels|)
    requires Whole(q, FirstWalk(q, limit, rare), Ids(rare), limits).done
    ensures multiset(Whole(q, FirstWalk(q, limit, rare), Ids(rare), limits).records)[r] >= 2
  {
    FirstHasRoom(q, limit, rare);
    RoomyWhole(q, FirstVisit(q, Quota(limit, rare, q.levels), limit, rare), rare, limits, r);
  }

  lemma NarrowTwice(q: Request, limit: nat, rare: seq<Row>, w: Walked, limits: seq<int>, r: Row)
    requires RequestOk(q) && |rare| <= limit < |rare| + |q.levels| && w == FirstWalk(q, limit, rare)
    requires !ComesOnce(q, limit, rare, r) && multiset(rare)[r] == 0
    requires RoomFor(limits, |q.levels|) && Whole(q, w, Ids(rare), limits).done
    ensures multiset(Whole(q, w, Ids(rare), limits).records)[r] >= 2
  {
    NarrowFirst(q, limit, rare);
    OtherComesTwice(q, FirstVisit(q, 1, limit, rare), rare, limits, r);
  }

  lemma TwiceInWhole(q: Request, limit: nat, rare: seq<Row>, w: Walked, limits: seq<int>, r: Row)
    requires RequestOk(q) && |rare| <= limit && w == FirstWalk(q, limit, rare)
    requires !ComesOnce(q, limit, rare, r) && multiset(rare)[r] == 0
    requires RoomFor(limits, |q.levels|) && Whole(q, w, Ids(rare), limits).done
    ensures multiset(Whole(q, w, Ids(rare), limits).records)[r] >= 2
  {
    if |rare| + |q.levels| <= limit {
      RoomyTwice(q, limit, rare, limits, r);
    } else {
      NarrowTwice(q, limit, rare, w, limits, r);
    }
  }

  lemma OnceIsOnce(table: seq<Row>, scope: Scope, spec: Spec, limit: int, rare: seq<Row>, limits: seq<int>, r: Row)
    requires Answerable(table, spec)
    requires SampleOk(Window(table, scope, spec.terms), spec, Clamped(limit), true, rare)
    requires ComesOnce(RequestOf(table, scope, spec), Clamped(limit), rare, r)
    ensures multiset(ReadAll(table, scope, spec, limit, rare, limits).records)[r] <= 1
  {
    var q := RequestOf(table, scope, spec);
    if Regular(q.levels, Ids(rare), q.base, r) {
      RowOnce(table, scope, spec, limit, rare, limits, r);
    } else {
      RequestIsOk(table, scope, spec);
      SampleTimes(Window(table, scope, spec.terms), spec, Clamped(limit), rare, r);
      ReadAllIs(table, scope, spec, limit, rare, limits);
      OnceInWhole(q, Clamped(limit), rare, FirstWalk(q, Clamped(limit), rare), limits, r);
    }
  }

  /** With pages of 100 the chain is followed to its end. */
  lemma HundredsEnd(table: seq<Row>, scope: Scope, spec: Spec, limit: int, rare: seq<Row>, limits: seq<int>)
    requires Answerable(table, spec) && |limits| > |RequestOf(table, scope, spec).base|
    requires SampleOk(Window(table, scope, spec.terms), spec, Clamped(limit), true, rare)
    ensures |rare| <= Clamped(limit) && RequestOk(RequestOf(table, scope, spec))
    ensures var q := RequestOf(table, scope, spec);
            var chain := Whole(q, FirstWalk(q, Clamped(limit), rare), Ids(rare), limits);
            chain.done && chain.records == ReadAll(table, scope, spec, limit, rare, limits).records
  {
    RequestIsOk(table, scope, spec);
    ChainEnds(table, scope, spec, limit, rare, limits);
    ReadAllIs(table, scope, spec, limit, rare, limits);
  }

  lemma ComesTwice(table: seq<Row>, scope: Scope, spec: Spec, limit: int, rare: seq<Row>, limits: seq<int>, r: Row)
    requires Answerable(table, spec) && r in RequestOf(table, scope, spec).base
    requires SampleOk(Window(table, scope, spec.terms), spec, Clamped(limit), true, rare)
    requires !ComesOnce(RequestOf(table, scope, spec), Clamped(limit), rare, r)
    requires limits == Hundreds(|RequestOf(table, scope, spec).base| + 1)
    ensures multiset(ReadAll(table, scope, spec, limit, rare, limits).records)[r] >= 2
  {
    var q := RequestOf(table, scope, spec);
    HundredsEnd(table, scope, spec, limit, rare, limits);
    SampleTimes(Window(table, scope, spec.terms), spec, Clamped(limit), rare, r);
    RepeatsFit(Window(table, scope, spec.terms), spec, r);
    TwiceInWhole(q, Clamped(limit), rare, FirstWalk(q, Clamped(limit), rare), limits, r);
  }

  /** Whatever the limit of the first page and its sample: no chain of cursors returns a row twice exactly when
      every row whose level is listed several times is featured, or is taken once by a first page that has then
      no room left for its level. */
  lemma NoRowTwiceIff(table: seq<Row>, scope: Scope, spec: Spec, limit: int, rare: seq<Row>)
    requires Answerable(table, spec)
    requires SampleOk(Window(table, scope, spec.terms), spec, Clamped(limit), true, rare)
    ensures (forall limits: seq<int> :: NoRowTwice(ReadAll(table, scope, spec, limit, rare, limits).records))
            <==> (forall r :: r in RequestOf(table, scope, spec).base
                              ==> ComesOnce(RequestOf(table, scope, spec), Clamped(limit), rare, r))
  {
    var q := RequestOf(table, scope, spec);
    if forall r :: r in q.base ==> ComesOnce(q, Clamped(limit), rare, r) {
      forall limits: seq<int>, r ensures multiset(ReadAll(table, scope, spec, limit, rare, limits).records)[r] <= 1 {
        OnceIsOnce(table, scope, spec, limit, rare, limits, r);
      }
    } else {
      var r :| r in q.base && !ComesOnce(q, Clamped(limit), rare, r);
      var limits := Hundreds(|q.base| + 1);
      ComesTwice(table, scope, spec, limit, rare, limits, r);
      assert !NoRowTwice(ReadAll(table, scope, spec, limit, rare, limits).records);
    }
  }

  /** Already a first page with room for every visit returns the next row of a level as often as it is listed. */
  lemma RepeatedLevelRepeatsRow(q: Request, v: Visit, rare: seq<Row>, r: Row)
    requires RequestOk(q) && v == FirstVisit(q, v.quota, v.limit, rare) && HasRoom(v, q.levels, rare)
    requires Earliest(q.base, r) && r.id !in Ids(rare)
    ensures multiset(Walk(v, q.levels, rare).records)[r] == multiset(rare)[r] + multiset(q.levels)[r.level]
  {
    WalkShares(v, q.levels, rare);
    SharesTimes(v, q.levels, r);
    NextIsEarliest(FirstVisit(q, 1, v.limit, rare), r);
    assert v.Fetched(r.level) == FirstVisit(q, 1, v.limit, rare).Fetched(r.level);
    assert Taken(v, r.level)[0] == r;
  }

  // ---- two small tables ----------------------------------------------------------------------------------------

  const FIRST := Row(1, "api", 5, "ERROR", {})
  const SECOND := Row(2, "api", 6, "ERROR", {})
  const HOURS := Scope("api", 0, 10)

  function Twice(mode: Mode): Spec {
    Spec([], ["ERROR", "ERROR"], mode)
  }

  // These tables are their own windows and partitions.

  predicate IsSmall(table: seq<Row>) {
    table == [FIRST] || table == [FIRST, SECOND]
  }

  lemma SmallWindow(table: seq<Row>)
    requires IsSmall(table)
    ensures Window(table, HOURS, []) == table
  {
    SmallFilter(table, (r: Row) => InScope(r, HOURS, []));
  }

  lemma SmallPartition(table: seq<Row>)
    requires IsSmall(table)
    ensures Partition(table, "ERROR") == table
  {
    SmallFilter(table, (r: Row) => r.level == "ERROR");
  }

  lemma SmallLevels(table: seq<Row>, levels: seq<string>)
    requires IsSmall(table) && "ERROR" in levels
    ensures OfLevels(table, levels) == table
  {
    SmallFilter(table, (r: Row) => r.level in levels);
  }

  lemma CountTwice(table: seq<Row>, l: string)
    requires Partition(table, l) == table && table != []
    ensures Count(table, [l, l]) == 2 * |table| && WithRows(table, [l, l]) == [l, l]
  {
    assert [l, l][..1] == [l] && [l][..0] == [];
    assert Count(table, [l]) == |table|;
    RowsTwice(table, l);
  }

  lemma RowsTwice(table: seq<Row>, l: string)
    requires Partition(table, l) != []
    ensures WithRows(table, [l, l]) == [l, l]
  {
    WithRowsAppend(table, [], l);
    WithRowsAppend(table, [l], l);
    assert [] + [l] == [l] && [l] + [l] == [l, l];
    assert WithRows(table, []) == [];
  }

  lemma TwiceIs(table: seq<Row>, mode: Mode)
    requires IsSmall(table)
    ensures Window(table, HOURS, []) == table
    ensures RequestOf(table, HOURS, Twice(mode)) == Request(table, 0, ["ERROR", "ERROR"])
    ensures Matched(table, Twice(mode)) == 2 * |table|
  {
    SmallWindow(table);
    SmallPartition(table);
    SmallLevels(table, ["ERROR", "ERROR"]);
    CountTwice(table, "ERROR");
  }

  lemma SmallFilter(s: seq<Row>, p: Row -> bool)
    requires (|s| == 1 || |s| == 2) && forall k :: 0 <= k < |s| ==> p(s[k])
    ensures Filter(s, p) == s
  {
    assert s[..1][..0] == [];
    assert Filter(s[..1], p) == [s[0]];
    assert |s| == 2 ==> s == s[..1] + [s[1]];
    assert |s| == 1 ==> s[..1] == s;
  }

  lemma TwiceTimes(table: seq<Row>, spec: Spec, l: string, rare: seq<Row>, limits: seq<int>, r: Row)
    requires Answerable(table, spec) && Window(table, HOURS, spec.terms) == table && |rare| <= 1
    requires SampleOk(table, spec, 100, true, rare) && RoomFor(limits, 2) && |limits| > |table|
    requires Base(table, spec) == table && Eligible(table, spec) == [l, l] && r in table && r.level == l
    ensures multiset(ReadAll(table, HOURS, spec, 100, rare, limits).records)[r] == if r.id in Ids(rare) then 1 else 2
  {
    ChainEnds(table, HOURS, spec, 100, rare, limits);
    AsOftenAsListed(table, HOURS, spec, 100, rare, limits, r);
  }

  /** One row, its level asked for twice: it comes twice. */
  lemma OneRowTwice()
    ensures Answerable([FIRST], Twice(All)) && Window([FIRST], HOURS, []) == [FIRST]
    ensures SampleOk([FIRST], Twice(All), 100, true, [])
    ensures multiset(ReadAll([FIRST], HOURS, Twice(All), 100, [], Hundreds(3)).records)[FIRST] == 2
  {
    TwiceIs([FIRST], All);
    TwiceTimes([FIRST], Twice(All), "ERROR", [], Hundreds(3), FIRST);
  }

  lemma SampleIsOk(table: seq<Row>, spec: Spec, x: Row)
    requires Base(table, spec) == table && x in table && Samples(table, spec)
    ensures SampleOk(table, spec, 100, true, [x])
  {
    assert Ids([x]) == [x.id];
  }

  lemma SampledTable()
    ensures Answerable([FIRST, SECOND], Twice(Anomalies)) && Window([FIRST, SECOND], HOURS, []) == [FIRST, SECOND]
    ensures SampleOk([FIRST, SECOND], Twice(Anomalies), 100, true, [FIRST])
  {
    TwiceIs([FIRST, SECOND], Anomalies);
    SampleIsOk([FIRST, SECOND], Twice(Anomalies), FIRST);
  }

  /** The default mode features the first of two rows with one template; the other one comes twice. */
  lemma OtherRowTwice()
    ensures var table, spec := [FIRST, SECOND], Twice(Anomalies);
            && Answerable(table, spec) && Window(table, HOURS, []) == table && SampleOk(table, spec, 100, true, [FIRST])
            && var records := ReadAll(table, HOURS, spec, 100, [FIRST], Hundreds(3)).records;
            multiset(records)[FIRST] == 1 && multiset(records)[SECOND] == 2
  {
    SampledTable();
    TwiceIs([FIRST, SECOND], Anomalies);
    TwiceTimes([FIRST, SECOND], Twice(Anomalies), "ERROR", [FIRST], Hundreds(3), FIRST);
    TwiceTimes([FIRST, SECOND], Twice(Anomalies), "ERROR", [FIRST], Hundreds(3), SECOND);
  }
}
