/** What one page of demo/log_store.py does with each row, and which rows and levels a request is about. */
module Paging {
  import opened Wrappers
  import opened LogStore

  // ---- tables ---------------------------------------------------------------------------------

  predicate Precedes(a: Row, b: Row) {
    Less(At(a), At(b)) && a.id != b.id
  }

  /** Listed by (event_time, id), with positive and unique ids. */
  predicate TableOk(s: seq<Row>) {
    && (forall i, j {:trigger Precedes(s[i], s[j])} :: 0 <= i < j < |s| ==> Precedes(s[i], s[j]))
    && (forall i :: 0 <= i < |s| ==> s[i].id >= 1)
  }

  lemma {:induction false} FilterOk(s: seq<Row>, p: Row -> bool)
    requires TableOk(s)
    ensures TableOk(Filter(s, p))
  {
    if s != [] {
      var n := |s| - 1;
      var init := s[..n];
      forall i, j | 0 <= i < j < n ensures Precedes(init[i], init[j]) {
        assert Precedes(s[i], s[j]);
      }
      FilterOk(init, p);
      var kept := Filter(init, p);
      forall i | 0 <= i < |kept| ensures Precedes(kept[i], s[n]) {
        FilterHas(init, p, kept[i]);
        var k :| 0 <= k < n && init[k] == kept[i];
        assert Precedes(s[k], s[n]);
      }
      var all := Filter(s, p);
      forall i, j | 0 <= i < j < |all| ensures Precedes(all[i], all[j]) {
        assert j < |kept| ==> Precedes(kept[i], kept[j]);
      }
    }
  }

  lemma {:induction false} Once(s: seq<Row>, r: Row)
    requires TableOk(s)
    ensures multiset(s)[r] == if r in s then 1 else 0
  {
    if s != [] {
      var n := |s| - 1;
      assert s == s[..n] + [s[n]];
      forall i, j | 0 <= i < j < n ensures Precedes(s[..n][i], s[..n][j]) {
        assert Precedes(s[i], s[j]);
      }
      Once(s[..n], r);
      forall i | 0 <= i < n ensures s[i] != s[n] {
        assert Precedes(s[i], s[n]);
      }
    }
  }

  lemma SliceOk(s: seq<Row>, a: nat, b: nat)
    requires TableOk(s) && a <= b <= |s|
    ensures TableOk(s[a..b])
  {
    forall i, j | 0 <= i < j < b - a ensures Precedes(s[a..b][i], s[a..b][j]) {
      assert Precedes(s[a + i], s[a + j]);
    }
  }

  lemma {:induction false} FilterFewer<T(!new)>(s: seq<T>, p: T -> bool, q: T -> bool)
    requires forall x :: p(x) ==> q(x)
    ensures |Filter(s, p)| <= |Filter(s, q)|
  {
    if s != [] {
      FilterFewer(s[..|s| - 1], p, q);
    }
  }

  lemma {:induction false} FilterStrictlyFewer<T(!new)>(s: seq<T>, p: T -> bool, q: T -> bool, x: T)
    requires forall y :: p(y) ==> q(y)
    requires x in s && q(x) && !p(x)
    ensures |Filter(s, p)| < |Filter(s, q)|
  {
    var n := |s| - 1;
    assert s == s[..n] + [s[n]];
    if x == s[n] {
      FilterFewer(s[..n], p, q);
    } else {
      FilterStrictlyFewer(s[..n], p, q, x);
    }
  }

  // ---- one level of one page --------------------------------------------------------------------

  predicate Open(positions: map<string, Pos>, start: int, r: Row) {
    Less(PosOf(positions, r.level, start), At(r))
  }

  /** The page moved past the row. */
  predicate Passed(v: Visit, next: map<string, Pos>, r: Row) {
    r in v.base && Open(v.from, v.start, r) && !Open(next, v.start, r)
  }

  lemma FetchedHas(v: Visit, level: string, r: Row)
    requires TableOk(v.base)
    ensures TableOk(v.Fetched(level))
    ensures r in v.Fetched(level) <==> r in v.base && r.level == level && Open(v.from, v.start, r)
  {
    var partition := Partition(v.base, level);
    FilterOk(v.base, (r: Row) => r.level == level);
    FilterHas(v.base, (r: Row) => r.level == level, r);
    var pos := PosOf(v.from, level, v.start);
    FilterOk(partition, (r: Row) => Less(pos, At(r)));
    FilterHas(partition, (r: Row) => Less(pos, At(r)), r);
    assert Partition(v.base, level) == Filter(v.base, (r: Row) => r.level == level);
    assert Rest(partition, pos) == Filter(partition, (r: Row) => Less(pos, At(r)));
  }

  /** The last row taken splits what was left of its level into passed and open. */
  lemma TakenSplits(rest: seq<Row>, n: nat, r: Row)
    requires TableOk(rest) && 0 < n <= |rest| && r in rest
    ensures r in rest[..n] <==> !Less(At(rest[n - 1]), At(r))
  {
    var k :| 0 <= k < |rest| && rest[k] == r;
    if k < n {
      assert rest[..n][k] == r;
      assert k < n - 1 ==> Precedes(rest[k], rest[n - 1]);
    } else {
      assert Precedes(rest[n - 1], rest[k]);
      forall i | 0 <= i < n ensures rest[..n][i] != r {
        assert Precedes(rest[i], rest[k]);
      }
    }
  }

  lemma UnfeaturedTimes(rows: seq<Row>, featured: seq<int>, r: Row)
    requires TableOk(rows)
    ensures multiset(Unfeatured(rows, featured))[r] == if r in rows && r.id !in featured then 1 else 0
  {
    FilterHas(rows, (x: Row) => x.id !in featured, r);
    FilterOk(rows, (x: Row) => x.id !in featured);
    assert Unfeatured(rows, featured) == Filter(rows, (x: Row) => x.id !in featured);
    Once(Unfeatured(rows, featured), r);
  }

  predicate Reaches(v: Visit, w: Walked, level: string) {
    PosOf(w.positions, level, v.start) == PosOf(v.from, level, v.start)
  }

  /** Visiting one level moves past exactly the rows it takes. */
  lemma LevelPasses(v: Visit, w: Walked, level: string, w': Walked, r: Row)
    requires TableOk(v.base) && Reaches(v, w, level) && w' == TakeLevel(v, w, level) && r.level == level
    requires Min(v.quota, v.limit - |w.records|) > 0
    ensures var rest := v.Fetched(level);
            var taken := rest[..Min(Min(v.quota, v.limit - |w.records|), |rest|)];
            && TableOk(taken)
            && (Passed(v, w'.positions, r) <==> r in taken)
            && (r in v.base && Open(w'.positions, v.start, r) ==> |rest| > |taken|)
  {
    var rest := v.Fetched(level);
    var n := Min(Min(v.quota, v.limit - |w.records|), |rest|);
    FetchedHas(v, level, r);
    SliceOk(rest, 0, n);
    assert rest[..n] == rest[0..n];
    if n > 0 && r in rest {
      TakenSplits(rest, n, r);
      assert n == |rest| ==> rest[..n] == rest;
    }
    if n > 0 && r in v.base {
      assert !Open(v.from, v.start, r) ==> r !in rest;
      FetchedLast(v, level, n - 1, r);
    }
    assert r in rest[..n] ==> r in rest;
  }

  /** A position never moves back. */
  lemma FetchedLast(v: Visit, level: string, k: nat, r: Row)
    requires TableOk(v.base) && k < |v.Fetched(level)|
    ensures Less(At(v.Fetched(level)[k]), At(r)) ==> Less(PosOf(v.from, level, v.start), At(r))
  {
    FetchedHas(v, level, v.Fetched(level)[k]);
  }

  // ---- a whole page ---------------------------------------------------------------------------------

  /** What the walk over some levels has done with one row: it is in the records exactly if the page moved past
      it (and did not feature it), and if nothing more is announced its level is exhausted. */
  predicate WalksRow(v: Visit, levels: seq<string>, rare: seq<Row>, w: Walked, r: Row) {
    && multiset(w.records)[r] == multiset(rare)[r] + (if Passed(v, w.positions, r) && r.id !in v.featured then 1 else 0)
    && (!w.more && r in v.base && r.level in levels ==> !Open(w.positions, v.start, r))
    && (Open(w.positions, v.start, r) ==> Open(v.from, v.start, r))
  }

  lemma TakeAdds(v: Visit, w: Walked, level: string, w': Walked, r: Row)
    requires w' == TakeLevel(v, w, level) && Min(v.quota, v.limit - |w.records|) > 0
    ensures var rest := v.Fetched(level);
            var taken := rest[..Min(Min(v.quota, v.limit - |w.records|), |rest|)];
            multiset(w'.records)[r] == multiset(w.records)[r] + multiset(Unfeatured(taken, v.featured))[r]
  {
  }

  lemma RecordsGrow(v: Visit, w: Walked, level: string, w': Walked, r: Row)
    requires TableOk(v.base) && Reaches(v, w, level) && w' == TakeLevel(v, w, level)
    requires Min(v.quota, v.limit - |w.records|) > 0 && r.level == level
    ensures multiset(w'.records)[r]
        == multiset(w.records)[r] + (if Passed(v, w'.positions, r) && r.id !in v.featured then 1 else 0)
    ensures !w'.more && r in v.base ==> !Open(w'.positions, v.start, r)
  {
    var rest := v.Fetched(level);
    var taken := rest[..Min(Min(v.quota, v.limit - |w.records|), |rest|)];
    LevelPasses(v, w, level, w', r);
    UnfeaturedTimes(taken, v.featured, r);
    TakeAdds(v, w, level, w', r);
  }

  lemma PositionsAdvance(v: Visit, w: Walked, level: string, w': Walked, r: Row)
    requires TableOk(v.base) && Reaches(v, w, level) && w' == TakeLevel(v, w, level) && r.level == level
    ensures Open(w'.positions, v.start, r) ==> Open(v.from, v.start, r)
  {
    var rest := v.Fetched(level);
    var n := Min(Min(v.quota, v.limit - |w.records|), |rest|);
    if n > 0 {
      FetchedLast(v, level, n - 1, r);
    }
  }

  lemma TakeRowSame(v: Visit, levels: seq<string>, rare: seq<Row>, w: Walked, level: string, w': Walked, r: Row)
    requires TableOk(v.base) && Reaches(v, w, level) && WalksRow(v, levels, rare, w, r) && w' == TakeLevel(v, w, level)
    requires Min(v.quota, v.limit - |w.records|) > 0 && r.level == level
    ensures WalksRow(v, levels + [level], rare, w', r)
  {
    RecordsGrow(v, w, level, w', r);
    PositionsAdvance(v, w, level, w', r);
    assert !Passed(v, w.positions, r);
  }

  lemma TakeRowOther(v: Visit, levels: seq<string>, rare: seq<Row>, w: Walked, level: string, w': Walked, r: Row)
    requires TableOk(v.base) && WalksRow(v, levels, rare, w, r) && w' == TakeLevel(v, w, level)
    requires Min(v.quota, v.limit - |w.records|) > 0 && r.level != level
    ensures WalksRow(v, levels + [level], rare, w', r)
  {
    var rest := v.Fetched(level);
    var taken := rest[..Min(Min(v.quota, v.limit - |w.records|), |rest|)];
    FetchedLevel(v, level, r);
    assert r in taken ==> r in rest;
    UnfeaturedLacks(taken, v.featured, r);
    TakeAdds(v, w, level, w', r);
    assert PosOf(w'.positions, r.level, v.start) == PosOf(w.positions, r.level, v.start);
  }

  lemma UnfeaturedLacks(rows: seq<Row>, featured: seq<int>, r: Row)
    requires r !in rows
    ensures multiset(Unfeatured(rows, featured))[r] == 0
  {
    FilterHas(rows, (x: Row) => x.id !in featured, r);
    assert Unfeatured(rows, featured) == Filter(rows, (x: Row) => x.id !in featured);
  }

  lemma FetchedLevel(v: Visit, level: string, r: Row)
    requires TableOk(v.base) && r.level != level
    ensures r !in v.Fetched(level)
  {
    FetchedHas(v, level, r);
  }

  /** A row whose level is visited at most once: what the whole page does with it. */
  lemma {:induction false} WalkRow(v: Visit, levels: seq<string>, rare: seq<Row>, r: Row)
    requires TableOk(v.base) && multiset(levels)[r.level] <= 1
    ensures WalksRow(v, levels, rare, Walk(v, levels, rare), r)
    ensures r.level !in levels ==> Reaches(v, Walk(v, levels, rare), r.level)
    decreases |levels|
  {
    if levels != [] {
      var n := |levels| - 1;
      var init, last := levels[..n], levels[n];
      assert levels == init + [last];
      var w := Walk(v, init, rare);
      WalkRow(v, init, rare, r);
      if Min(v.quota, v.limit - |w.records|) > 0 {
        if r.level == last {
          assert r.level !in init;
          TakeRowSame(v, init, rare, w, last, Walk(v, levels, rare), r);
        } else {
          TakeRowOther(v, init, rare, w, last, Walk(v, levels, rare), r);
        }
      }
    }
  }

  lemma TakeSkips(v: Visit, w: Walked, level: string, w': Walked, r: Row)
    requires TableOk(v.base) && (r.id in v.featured || r !in v.base || !Open(v.from, v.start, r))
    requires w' == TakeLevel(v, w, level)
    ensures multiset(w'.records)[r] == multiset(w.records)[r]
  {
    var count := Min(v.quota, v.limit - |w.records|);
    if count > 0 {
      var rest := v.Fetched(level);
      TakenLacks(v, level, rest[..Min(count, |rest|)], r);
      TakeAdds(v, w, level, w', r);
    }
  }

  /** Featured rows, rows the request is not about and rows already passed are never added. */
  lemma {:induction false} WalkSkips(v: Visit, levels: seq<string>, rare: seq<Row>, r: Row)
    requires TableOk(v.base) && (r.id in v.featured || r !in v.base || !Open(v.from, v.start, r))
    ensures multiset(Walk(v, levels, rare).records)[r] == multiset(rare)[r]
    decreases |levels|
  {
    if levels != [] {
      var n := |levels| - 1;
      WalkSkips(v, levels[..n], rare, r);
      TakeSkips(v, Walk(v, levels[..n], rare), levels[n], Walk(v, levels, rare), r);
    }
  }

  lemma TakenLacks(v: Visit, level: string, taken: seq<Row>, r: Row)
    requires TableOk(v.base) && (r.id in v.featured || r !in v.base || !Open(v.from, v.start, r))
    requires |taken| <= |v.Fetched(level)| && taken == v.Fetched(level)[..|taken|]
    ensures multiset(Unfeatured(taken, v.featured))[r] == 0
  {
    FetchedHas(v, level, r);
    assert r in taken ==> r in v.Fetched(level);
    FilterHas(taken, (x: Row) => x.id !in v.featured, r);
    assert Unfeatured(taken, v.featured) == Filter(taken, (x: Row) => x.id !in v.featured);
  }

  /** No position moves back behind the cursor. */
  lemma {:induction false} WalkForward(v: Visit, levels: seq<string>, rare: seq<Row>, r: Row)
    requires TableOk(v.base)
    ensures Open(Walk(v, levels, rare).positions, v.start, r) ==> Open(v.from, v.start, r)
    decreases |levels|
  {
    if levels != [] {
      var n := |levels| - 1;
      var w := Walk(v, levels[..n], rare);
      WalkForward(v, levels[..n], rare, r);
      var rest := v.Fetched(levels[n]);
      var taken := Min(Min(v.quota, v.limit - |w.records|), |rest|);
      if taken > 0 && r.level == levels[n] {
        FetchedLast(v, levels[n], taken - 1, r);
      }
    }
  }

  /** A row that is left open in a level the page visited is announced. */
  lemma {:induction false} WalkAnnounces(v: Visit, levels: seq<string>, rare: seq<Row>, r: Row)
    requires TableOk(v.base) && r in v.base && r.level in levels
    ensures Open(Walk(v, levels, rare).positions, v.start, r) ==> Walk(v, levels, rare).more
    decreases |levels|
  {
    var n := |levels| - 1;
    assert levels == levels[..n] + [levels[n]];
    if levels[n] == r.level {
      WalkForward(v, levels[..n], rare, r);
      TakeAnnounces(v, Walk(v, levels[..n], rare), r);
    } else {
      WalkAnnounces(v, levels[..n], rare, r);
    }
  }

  lemma TakeAnnounces(v: Visit, w: Walked, r: Row)
    requires TableOk(v.base) && r in v.base && (Open(w.positions, v.start, r) ==> Open(v.from, v.start, r))
    ensures var w' := TakeLevel(v, w, r.level); Open(w'.positions, v.start, r) ==> w'.more
  {
    var rest := v.Fetched(r.level);
    var n := Min(Min(v.quota, v.limit - |w.records|), |rest|);
    FetchedHas(v, r.level, r);
    if n > 0 && n == |rest| && r in rest {
      TakenSplits(rest, n, r);
      assert rest[..n] == rest;
    }
    if n > 0 {
      FetchedLast(v, r.level, n - 1, r);
    }
  }

  /** No page is longer than its limit. */
  lemma {:induction false} WalkWithinLimit(v: Visit, levels: seq<string>, rare: seq<Row>)
    requires |rare| <= v.limit
    ensures |Walk(v, levels, rare).records| <= v.limit
    decreases |levels|
  {
    if levels != [] {
      WalkWithinLimit(v, levels[..|levels| - 1], rare);
    }
  }

  /** The first open row of a level is passed whenever the level is visited with room. */
  lemma FirstPasses(v: Visit, w: Walked, level: string, x: Row)
    requires TableOk(v.base) && v.Fetched(level) != [] && x == v.Fetched(level)[0]
    requires Min(v.quota, v.limit - |w.records|) > 0 || Passed(v, w.positions, x)
    ensures Passed(v, TakeLevel(v, w, level).positions, x)
  {
    var rest := v.Fetched(level);
    var n := Min(Min(v.quota, v.limit - |w.records|), |rest|);
    FetchedHas(v, level, x);
    if n > 1 {
      assert Precedes(rest[0], rest[n - 1]);
    }
  }

  /** An empty page with room moves past a row whenever one is open. */
  lemma {:induction false} WalkAdvances(v: Visit, levels: seq<string>, r: Row) returns (x: Row)
    requires TableOk(v.base) && v.limit >= 1 && v.quota >= 1
    requires r in v.base && r.level in levels && Open(v.from, v.start, r)
    ensures v.Fetched(x.level) != [] && x == v.Fetched(x.level)[0] && Passed(v, Walk(v, levels, []).positions, x)
    decreases |levels|
  {
    var n := |levels| - 1;
    var init, last := levels[..n], levels[n];
    assert levels == init + [last];
    var w := Walk(v, init, []);
    if y :| y in v.base && y.level in init && Open(v.from, v.start, y) {
      x := WalkAdvances(v, init, y);
      if x.level == last {
        FirstPasses(v, w, last, x);
      }
    } else {
      WalkIdle(v, init);
      FetchedHas(v, last, r);
      x := v.Fetched(last)[0];
      FetchedHas(v, last, x);
      FirstPasses(v, w, last, x);
    }
  }

  /** With nothing open in its levels, the page is empty and the last. */
  lemma {:induction false} WalkIdle(v: Visit, levels: seq<string>)
    requires TableOk(v.base) && v.limit >= 1 && v.quota >= 1
    requires forall r :: r in v.base && r.level in levels ==> !Open(v.from, v.start, r)
    ensures Walk(v, levels, []) == Walked([], v.from, false)
    decreases |levels|
  {
    if levels != [] {
      var n := |levels| - 1;
      assert levels == levels[..n] + [levels[n]];
      WalkIdle(v, levels[..n]);
      var rest := v.Fetched(levels[n]);
      if rest != [] {
        FetchedHas(v, levels[n], rest[0]);
      }
      assert Unfeatured([], v.featured) == [];
    }
  }

  // ---- what a request is about -----------------------------------------------------------------------

  lemma WindowHas(table: seq<Row>, scope: Scope, terms: seq<string>, r: Row)
    requires TableOk(table)
    ensures TableOk(Window(table, scope, terms))
    ensures r in Window(table, scope, terms) <==> r in table && InScope(r, scope, terms)
  {
    FilterOk(table, (x: Row) => InScope(x, scope, terms));
    FilterHas(table, (x: Row) => InScope(x, scope, terms), r);
    assert Window(table, scope, terms) == Filter(table, (x: Row) => InScope(x, scope, terms));
  }

  lemma BaseHas(window: seq<Row>, spec: Spec, r: Row)
    requires TableOk(window)
    ensures TableOk(Base(window, spec))
    ensures r in Base(window, spec) <==>
            r in window && (Selected(spec) != [] && !FallsBack(window, spec) ==> r.level in Selected(spec))
  {
    var levels := Selected(spec);
    FilterOk(window, (x: Row) => x.level in levels);
    FilterHas(window, (x: Row) => x.level in levels, r);
    assert OfLevels(window, levels) == Filter(window, (x: Row) => x.level in levels);
  }

  lemma {:induction false} InsertedHas(levels: seq<string>, l: string, bySeverity: bool)
    requires Distinct(levels) && l !in levels
    ensures Distinct(Inserted(levels, l, bySeverity))
  {
    var r := Inserted(levels, l, bySeverity);
    if levels != [] && !LevelBefore(l, levels[0], bySeverity) {
      InsertedHas(levels[1..], l, bySeverity);
      assert r[1..] == Inserted(levels[1..], l, bySeverity);
      forall j | 0 < j < |r| ensures r[j] != r[0] {
        assert r[j] == r[1..][j - 1];
        assert r[j] in r[1..];
      }
      forall i, j | 0 <= i < j < |r| ensures r[i] != r[j] {
        assert i > 0 ==> r[i] == r[1..][i - 1] && r[j] == r[1..][j - 1];
      }
    }
  }

  lemma {:induction false} LevelsOfHas(window: seq<Row>, bySeverity: bool, r: Row)
    ensures Distinct(LevelsOf(window, bySeverity))
    ensures r in window ==> r.level in LevelsOf(window, bySeverity)
  {
    if window != [] {
      var n := |window| - 1;
      LevelsOfHas(window[..n], bySeverity, r);
      assert window == window[..n] + [window[n]];
      var before := LevelsOf(window[..n], bySeverity);
      if window[n].level !in before {
        InsertedHas(before, window[n].level, bySeverity);
      }
    }
  }

  lemma PartitionHas(rows: seq<Row>, level: string, r: Row)
    ensures r in Partition(rows, level) <==> r in rows && r.level == level
  {
    FilterHas(rows, (x: Row) => x.level == level, r);
    assert Partition(rows, level) == Filter(rows, (x: Row) => x.level == level);
  }

  lemma WithRowsHas(window: seq<Row>, levels: seq<string>, l: string)
    ensures l in WithRows(window, levels) <==> l in levels && Partition(window, l) != []
  {
    FilterHas(levels, (x: string) => Partition(window, x) != [], l);
    assert WithRows(window, levels) == Filter(levels, (x: string) => Partition(window, x) != []);
  }

  /** Every row of the request lies in a level that is visited. */
  lemma BaseVisited(window: seq<Row>, spec: Spec, r: Row)
    requires TableOk(window) && r in Base(window, spec)
    ensures r.level in Eligible(window, spec)
  {
    BaseHas(window, spec, r);
    LevelsOfHas(window, true, r);
    LevelsOfHas(window, false, r);
    PartitionHas(window, r.level, r);
    WithRowsHas(window, Partitions(window, spec), r.level);
  }

  /** No level with rows is listed twice. */
  predicate ListedOnce(window: seq<Row>, levels: seq<string>) {
    forall i, j :: 0 <= i < j < |levels| && levels[i] == levels[j] ==> Partition(window, levels[i]) == []
  }

  lemma WithRowsAppend(window: seq<Row>, init: seq<string>, last: string)
    ensures WithRows(window, init + [last]) ==
            if Partition(window, last) != [] then WithRows(window, init) + [last] else WithRows(window, init)
  {
    assert (init + [last])[..|init|] == init;
  }

  lemma {:induction false} WithRowsDistinct(window: seq<Row>, levels: seq<string>)
    ensures Distinct(WithRows(window, levels)) <==> ListedOnce(window, levels)
  {
    if levels != [] {
      var n := |levels| - 1;
      var init, last := levels[..n], levels[n];
      assert levels == init + [last];
      WithRowsDistinct(window, init);
      WithRowsHas(window, init, last);
      WithRowsAppend(window, init, last);
      DistinctAppend(WithRows(window, init), last);
      ListedAppend(window, init, last);
    }
  }

  lemma DistinctAppend(s: seq<string>, x: string)
    ensures Distinct(s + [x]) <==> Distinct(s) && x !in s
  {
    var t := s + [x];
    if Distinct(t) {
      forall i | 0 <= i < |s| ensures s[i] != x {
        assert t[i] != t[|s|];
      }
      forall i, j | 0 <= i < j < |s| ensures s[i] != s[j] {
        assert t[i] != t[j];
      }
    }
  }

  lemma ListedAppend(window: seq<Row>, init: seq<string>, last: string)
    ensures ListedOnce(window, init + [last])
            <==> ListedOnce(window, init) && (last in init ==> Partition(window, last) == [])
  {
    var levels := init + [last];
    if ListedOnce(window, levels) {
      forall i, j | 0 <= i < j < |init| && init[i] == init[j] ensures Partition(window, init[i]) == [] {
        assert levels[i] == levels[j];
      }
      if last in init {
        var k :| 0 <= k < |init| && init[k] == last;
        assert levels[k] == levels[|init|];
      }
    }
  }

  lemma ErrorLevelsDistinct()
    ensures Distinct(ERROR_LEVELS)
  {
  }

  /** The one thing a caller has to see to: list no level that has rows twice. */
  lemma EligibleDistinct(window: seq<Row>, spec: Spec)
    ensures Distinct(Eligible(window, spec)) <==> ListedOnce(window, spec.levels)
  {
    ErrorLevelsDistinct();
    WithRowsDistinct(window, Partitions(window, spec));
    if window != [] {
      LevelsOfHas(window, true, window[0]);
      LevelsOfHas(window, false, window[0]);
    }
  }

  // ---- the order in which levels are visited --------------------------------------------------------------------

  lemma {:induction false} StringsTotal(a: string, b: string)
    ensures a == b || StringLess(a, b) || StringLess(b, a)
  {
    if a != [] && b != [] && a[0] == b[0] {
      StringsTotal(a[1..], b[1..]);
      assert a == [a[0]] + a[1..] && b == [b[0]] + b[1..];
    }
  }

  lemma {:induction false} StringsTransitive(a: string, b: string, c: string)
    requires StringLess(a, b) && StringLess(b, c)
    ensures StringLess(a, c)
  {
    if a != [] && a[0] == b[0] && b[0] == c[0] {
      StringsTransitive(a[1..], b[1..], c[1..]);
    }
  }

  lemma LevelsTotal(a: string, b: string, bySeverity: bool)
    ensures a == b || LevelBefore(a, b, bySeverity) || LevelBefore(b, a, bySeverity)
  {
    StringsTotal(a, b);
  }

  lemma LevelsTransitive(a: string, b: string, c: string, bySeverity: bool)
    requires LevelBefore(a, b, bySeverity) && LevelBefore(b, c, bySeverity)
    ensures LevelBefore(a, c, bySeverity)
  {
    if StringLess(a, b) && StringLess(b, c) {
      StringsTransitive(a, b, c);
    }
  }

  predicate InOrder(levels: seq<string>, bySeverity: bool) {
    forall i, j {:trigger LevelBefore(levels[i], levels[j], bySeverity)} ::
      0 <= i < j < |levels| ==> LevelBefore(levels[i], levels[j], bySeverity)
  }

  lemma InOrderCons(l: string, levels: seq<string>, bySeverity: bool)
    requires InOrder(levels, bySeverity) && forall k :: 0 <= k < |levels| ==> LevelBefore(l, levels[k], bySeverity)
    ensures InOrder([l] + levels, bySeverity)
  {
    var r := [l] + levels;
    forall i, j | 0 <= i < j < |r| ensures LevelBefore(r[i], r[j], bySeverity) {
      assert i > 0 ==> LevelBefore(levels[i - 1], levels[j - 1], bySeverity);
    }
  }

  lemma {:induction false} InsertedInOrder(levels: seq<string>, l: string, bySeverity: bool)
    requires InOrder(levels, bySeverity) && l !in levels
    ensures InOrder(Inserted(levels, l, bySeverity), bySeverity)
  {
    if levels != [] {
      var head, tail := levels[0], levels[1..];
      if LevelBefore(l, head, bySeverity) {
        forall k | 0 <= k < |levels| ensures LevelBefore(l, levels[k], bySeverity) {
          if k > 0 {
            assert LevelBefore(levels[0], levels[k], bySeverity);
            LevelsTransitive(l, levels[0], levels[k], bySeverity);
          }
        }
        InOrderCons(l, levels, bySeverity);
      } else {
        forall i, j | 0 <= i < j < |tail| ensures LevelBefore(tail[i], tail[j], bySeverity) {
          assert LevelBefore(levels[i + 1], levels[j + 1], bySeverity);
        }
        InsertedInOrder(tail, l, bySeverity);
        LevelsTotal(l, head, bySeverity);
        var rest := Inserted(tail, l, bySeverity);
        forall k | 0 <= k < |rest| ensures LevelBefore(head, rest[k], bySeverity) {
          assert rest[k] in rest;
          if rest[k] != l {
            var m :| 0 <= m < |tail| && tail[m] == rest[k];
            assert LevelBefore(levels[0], levels[m + 1], bySeverity);
          }
        }
        InOrderCons(head, rest, bySeverity);
      }
    }
  }

  /** The levels of the histogram are visited in ascending order; by severity, error levels come first. */
  lemma {:induction false} LevelsInOrder(window: seq<Row>, bySeverity: bool)
    ensures InOrder(LevelsOf(window, bySeverity), bySeverity)
    ensures bySeverity ==>
          forall i, j :: 0 <= i < j < |LevelsOf(window, true)| && LevelsOf(window, true)[j] in ERROR_LEVELS ==>
              LevelsOf(window, true)[i] in ERROR_LEVELS
  {
    if window != [] {
      var n := |window| - 1;
      LevelsInOrder(window[..n], bySeverity);
      var before := LevelsOf(window[..n], bySeverity);
      if window[n].level !in before {
        InsertedInOrder(before, window[n].level, bySeverity);
      }
    }
    var r := LevelsOf(window, bySeverity);
    forall i, j | 0 <= i < j < |r| ensures LevelBefore(r[i], r[j], bySeverity) {
    }
  }
}
