/** demo/log_store.py, query: a first page with representative rows, then one key position per severity level. */
module LogStore {
  import opened Wrappers

  // ---- rows and requests ------------------------------------------------------------------

  /** phrases are the search terms the full-text index matches in the row's message. */
  datatype Row = Row(id: int, service: string, time: int, level: string, phrases: set<string>)

  type Pos = (int, int) // (event_time, id)

  datatype Scope = Scope(service: string, start: int, end: int)
  datatype Mode = Anomalies | Search | All | OtherMode(name: string)
  datatype Spec = Spec(terms: seq<string>, levels: seq<string>, mode: Mode)

  /** The decoded cursor. Stored levels are upper case, so none collides with the "_featured" entry. */
  datatype Cursor = Cursor(positions: map<string, Pos>, featured: seq<int>)

  /** Undecodable covers a text over 4096 characters, bad encoding, bad JSON and entries of the wrong type. */
  datatype CursorText = NoCursor | Undecodable | Decoded(cursor: Cursor)

  datatype Page = Page(records: seq<Row>, next: Option<Cursor>, total: nat, matched: nat)
  datatype LogError = InvalidLogQuery | InvalidLevels | InvalidCursor

  const ERROR_LEVELS: seq<string> :=
    ["ERROR", "FATAL", "SEVERE", "FAILURE", "WARN", "WARNING", "CRITICAL", "ALERT", "EMERG"]
  const OTHER_LEVELS: seq<string> := ["INFO", "DEBUG", "TRACE", "UNKNOWN"]
  const SAMPLE_LIMIT: nat := 10000
  const FEATURED_LIMIT: nat := 50

  function At(r: Row): Pos {
    (r.time, r.id)
  }

  predicate Less(a: Pos, b: Pos) {
    a.0 < b.0 || (a.0 == b.0 && a.1 < b.1)
  }

  // ---- selections ---------------------------------------------------------------------------

  function Filter<T(!new)>(s: seq<T>, p: T -> bool): (r: seq<T>)
    ensures |r| <= |s|
  {
    if s == [] then []
    else
      var last := s[|s| - 1];
      Filter(s[..|s| - 1], p) + (if p(last) then [last] else [])
  }

  lemma {:induction false} FilterHas<T(!new)>(s: seq<T>, p: T -> bool, x: T)
    ensures x in Filter(s, p) <==> x in s && p(x)
  {
    if s != [] {
      var n := |s| - 1;
      FilterHas(s[..n], p, x);
      assert s == s[..n] + [s[n]];
    }
  }

  predicate InScope(r: Row, scope: Scope, terms: seq<string>) {
    && r.service == scope.service && scope.start <= r.time <= scope.end
    && (terms != [] ==> exists t :: t in terms && t in r.phrases)
  }

  function Window(table: seq<Row>, scope: Scope, terms: seq<string>): seq<Row> {
    Filter(table, (r: Row) => InScope(r, scope, terms))
  }

  function Partition(rows: seq<Row>, level: string): seq<Row> {
    Filter(rows, (r: Row) => r.level == level)
  }

  function OfLevels(rows: seq<Row>, levels: seq<string>): seq<Row> {
    Filter(rows, (r: Row) => r.level in levels)
  }

  /** (event_time,id) > (?,?) */
  function Rest(rows: seq<Row>, pos: Pos): seq<Row> {
    Filter(rows, (r: Row) => Less(pos, At(r)))
  }

  function Unfeatured(rows: seq<Row>, featured: seq<int>): seq<Row> {
    Filter(rows, (r: Row) => r.id !in featured)
  }

  function Ids(rows: seq<Row>): (r: seq<int>)
    ensures |r| == |rows| && forall k :: 0 <= k < |r| ==> r[k] == rows[k].id
  {
    seq(|rows|, k requires 0 <= k < |rows| => rows[k].id)
  }

  function PosOf(positions: map<string, Pos>, level: string, start: int): Pos {
    if level in positions then positions[level] else (start, 0)
  }

  // ---- the levels of a request ---------------------------------------------------------------

  predicate StringLess(a: string, b: string) {
    b != [] && (a == [] || a[0] < b[0] || (a[0] == b[0] && StringLess(a[1..], b[1..])))
  }

  predicate LevelBefore(a: string, b: string, bySeverity: bool) {
    if bySeverity && (a in ERROR_LEVELS) != (b in ERROR_LEVELS) then a in ERROR_LEVELS else StringLess(a, b)
  }

  function Inserted(levels: seq<string>, l: string, bySeverity: bool): (r: seq<string>)
    ensures forall x :: x in r <==> x in levels || x == l
  {
    if levels == [] then [l]
    else if LevelBefore(l, levels[0], bySeverity) then [l] + levels
    else
      assert levels == [levels[0]] + levels[1..];
      [levels[0]] + Inserted(levels[1..], l, bySeverity)
  }

  /** The keys of the histogram, sorted. */
  function LevelsOf(window: seq<Row>, bySeverity: bool): seq<string> {
    if window == [] then []
    else
      var before, last := LevelsOf(window[..|window| - 1], bySeverity), window[|window| - 1];
      if last.level in before then before else Inserted(before, last.level, bySeverity)
  }

  predicate Distinct<T(==)>(s: seq<T>) {
    forall i, j {:trigger s[i], s[j]} :: 0 <= i < j < |s| ==> s[i] != s[j]
  }

  function Selected(spec: Spec): seq<string> {
    if spec.levels != [] then spec.levels
    else if spec.mode == Anomalies && spec.terms == [] then ERROR_LEVELS else []
  }

  function Count(window: seq<Row>, levels: seq<string>): nat {
    if levels == [] then 0
    else Count(window, levels[..|levels| - 1]) + |Partition(window, levels[|levels| - 1])|
  }

  function Matched(window: seq<Row>, spec: Spec): nat {
    if Selected(spec) != [] then Count(window, Selected(spec)) else |window|
  }

  /** Nothing at an error level: background rows are returned instead. */
  predicate FallsBack(window: seq<Row>, spec: Spec) {
    spec.mode == Anomalies && spec.levels == [] && Matched(window, spec) == 0
  }

  function Partitions(window: seq<Row>, spec: Spec): seq<string> {
    if FallsBack(window, spec) then LevelsOf(window, false)
    else if Selected(spec) != [] then Selected(spec) else LevelsOf(window, true)
  }

  function WithRows(window: seq<Row>, levels: seq<string>): seq<string> {
    Filter(levels, (l: string) => Partition(window, l) != [])
  }

  function Eligible(window: seq<Row>, spec: Spec): seq<string> {
    WithRows(window, Partitions(window, spec))
  }

  /** The rows a request is about. */
  function Base(window: seq<Row>, spec: Spec): seq<Row> {
    if Selected(spec) != [] && !FallsBack(window, spec) then OfLevels(window, Selected(spec)) else window
  }

  predicate Samples(window: seq<Row>, spec: Spec) {
    spec.mode == Anomalies && spec.terms == [] && 0 < Matched(window, spec) <= SAMPLE_LIMIT
  }

  predicate TermsOk(terms: seq<string>) {
    forall k :: 0 <= k < |terms| ==> 1 <= |terms[k]| <= 100
  }

  predicate KnownLevel(l: string) {
    l in ERROR_LEVELS || l in OTHER_LEVELS
  }

  predicate LevelsOk(levels: seq<string>) {
    forall k {:trigger KnownLevel(levels[k])} :: 0 <= k < |levels| ==> KnownLevel(levels[k])
  }

  function SpecError(spec: Spec): Option<LogError> {
    if spec.mode.OtherMode? || |spec.terms| > 6 || !TermsOk(spec.terms)
    then Some(InvalidLogQuery)
    else if |spec.levels| > 12 || !LevelsOk(spec.levels)
    then Some(InvalidLevels)
    else None
  }

  function Clamped(limit: int): (r: nat)
    ensures 1 <= r <= 100
  {
    Max(1, Min(100, limit))
  }

  /** What the rare-template sample of a first page may be: some of the request's rows, none twice. */
  predicate SampleOk(window: seq<Row>, spec: Spec, limit: nat, first: bool, rare: seq<Row>) {
    && (first && Samples(window, spec) ==>
          |rare| <= Max(1, limit / 2) && Distinct(Ids(rare))
              && forall k :: 0 <= k < |rare| ==> rare[k] in Base(window, spec))
    && (!(first && Samples(window, spec)) ==> rare == [])
  }

  // ---- one page --------------------------------------------------------------------------------

  datatype Walked = Walked(records: seq<Row>, positions: map<string, Pos>, more: bool)

  /** What does not change while the levels of one page are visited. */
  datatype Visit = Visit(base: seq<Row>, start: int, from: map<string, Pos>, featured: seq<int>, limit: nat, quota: nat)
  {
    function Fetched(level: string): seq<Row> {
      Rest(Partition(base, level), PosOf(from, level, start))
    }
  }

  function TakeLevel(v: Visit, w: Walked, level: string): Walked {
    var count := Min(v.quota, v.limit - |w.records|);
    if count <= 0 then w.(more := true)
    else
      var rest := v.Fetched(level);
      var taken := rest[..Min(count, |rest|)];
      Walked(w.records + Unfeatured(taken, v.featured),
             if taken == [] then w.positions else w.positions[level := At(taken[|taken| - 1])],
             w.more || |rest| > count)
  }

  function Walk(v: Visit, levels: seq<string>, rare: seq<Row>): Walked {
    if levels == [] then Walked(rare, v.from, false)
    else TakeLevel(v, Walk(v, levels[..|levels| - 1], rare), levels[|levels| - 1])
  }

  function Quota(limit: nat, rare: seq<Row>, eligible: seq<string>): nat
    requires |rare| <= limit
  {
    Max(1, (limit - |rare|) / Max(1, |eligible|))
  }

  function VisitOf(window: seq<Row>, scope: Scope, spec: Spec, limit: nat, cursor: CursorText, rare: seq<Row>): Visit
    requires !cursor.Undecodable? && |rare| <= limit
  {
    Visit(Base(window, spec), scope.start,
          if cursor.Decoded? then cursor.cursor.positions else map[],
          if cursor.Decoded? then cursor.cursor.featured else Ids(rare),
          limit, Quota(limit, rare, Eligible(window, spec)))
  }

  function PageOf(window: seq<Row>, scope: Scope, spec: Spec, limit: nat, cursor: CursorText, rare: seq<Row>): Page
    requires !cursor.Undecodable? && |rare| <= limit
  {
    var v := VisitOf(window, scope, spec, limit, cursor, rare);
    var w := Walk(v, Eligible(window, spec), rare);
    Page(w.records, if w.more then Some(Cursor(w.positions, v.featured)) else None, |window|, Matched(window, spec))
  }

  function CursorRefused(cursor: CursorText): bool {
    cursor.Undecodable? || (cursor.Decoded? && |cursor.cursor.featured| > FEATURED_LIMIT)
  }

  function Answer(table: seq<Row>, scope: Scope, spec: Spec, limit: int, cursor: CursorText,
      rare: seq<Row>): Result<Page, LogError>
    requires SampleOk(Window(table, scope, spec.terms), spec, Clamped(limit), cursor.NoCursor?, rare)
  {
    if SpecError(spec).Some? then Err(SpecError(spec).value)
    else if CursorRefused(cursor) then Err(InvalidCursor)
    else Ok(PageOf(Window(table, scope, spec.terms), scope, spec, Clamped(limit), cursor, rare))
  }

  // ---- the loops --------------------------------------------------------------------------------

  lemma {:induction false} WindowOfLevel(rows: seq<Row>, level: string, k: nat)
    requires k < |rows|
    ensures Partition(rows[..k + 1], level)
        == Partition(rows[..k], level) + (if rows[k].level == level then [rows[k]] else [])
  {
    assert rows[..k + 1][..k] == rows[..k];
  }

  /** select level, count(*) ... group by level */
  method Histogram(window: seq<Row>) returns (h: map<string, nat>)
    ensures forall l :: l in h <==> Partition(window, l) != []
    ensures forall l :: l in h ==> h[l] == |Partition(window, l)|
  {
    h := map[];
    for k := 0 to |window|
      invariant forall l :: l in h <==> Partition(window[..k], l) != []
      invariant forall l :: l in h ==> h[l] == |Partition(window[..k], l)|
    {
      forall l ensures Partition(window[..k + 1], l)
          == Partition(window[..k], l) + (if window[k].level == l then [window[k]] else []) {
        WindowOfLevel(window, l, k);
      }
      var level := window[k].level;
      h := h[level := (if level in h then h[level] else 0) + 1];
    }
    assert window[..|window|] == window;
  }

  /** The rows one level contributes: advance its position row by row, skip what the first page showed. */
  method AppendRows(rows: seq<Row>, level: string, featured: seq<int>, records: seq<Row>, positions: map<string, Pos>)
    returns (records': seq<Row>, positions': map<string, Pos>)
    ensures records' == records + Unfeatured(rows, featured)
    ensures positions' == if rows == [] then positions else positions[level := At(rows[|rows| - 1])]
  {
    records', positions' := records, positions;
    for k := 0 to |rows|
      invariant records' == records + Unfeatured(rows[..k], featured)
      invariant positions' == if k == 0 then positions else positions[level := At(rows[k - 1])]
    {
      assert rows[..k + 1][..k] == rows[..k];
      var row := rows[k];
      positions' := positions'[level := (row.time, row.id)];
      if row.id !in featured {
        records' := records' + [row];
      }
    }
    assert rows[..|rows|] == rows;
  }

  lemma OneRowMore(all: seq<Row>, count: int)
    requires 0 < count
    ensures var rows := all[..Min(count + 1, |all|)];
            rows[..Min(count, |rows|)] == all[..Min(count, |all|)] && (|rows| > count <==> |all| > count)
  {
  }

  method VisitLevel(v: Visit, w: Walked, level: string) returns (w': Walked)
    ensures w' == TakeLevel(v, w, level)
  {
    var count := Min(v.quota, v.limit - |w.records|);
    if count <= 0 {
      return w.(more := true);
    }
    // order by event_time, id limit count + 1: one row more than is shown
    var all := Rest(Partition(v.base, level), PosOf(v.from, level, v.start));
    var rows := all[..Min(count + 1, |all|)];
    OneRowMore(all, count);
    var records, positions := AppendRows(rows[..Min(count, |rows|)], level, v.featured, w.records, w.positions);
    w' := Walked(records, positions, w.more || |rows| > count);
  }

  method WalkLevels(v: Visit, eligible: seq<string>, rare: seq<Row>) returns (w: Walked)
    ensures w == Walk(v, eligible, rare)
  {
    w := Walked(rare, v.from, false);
    for k := 0 to |eligible|
      invariant w == Walk(v, eligible[..k], rare)
    {
      assert eligible[..k + 1][..k] == eligible[..k];
      w := VisitLevel(v, w, eligible[k]);
    }
    assert eligible[..|eligible|] == eligible;
  }

  /** sum(histogram.get(level, 0) for level in levels) */
  method CountLevels(window: seq<Row>, h: map<string, nat>, levels: seq<string>) returns (n: nat)
    requires forall l :: l in h <==> Partition(window, l) != []
    requires forall l :: l in h ==> h[l] == |Partition(window, l)|
    ensures n == Count(window, levels)
  {
    n := 0;
    for k := 0 to |levels|
      invariant n == Count(window, levels[..k])
    {
      assert levels[..k + 1][..k] == levels[..k];
      if levels[k] in h {
        n := n + h[levels[k]];
      } else {
        assert Partition(window, levels[k]) == [];
      }
    }
    assert levels[..|levels|] == levels;
  }

  method EligibleLevels(window: seq<Row>, h: map<string, nat>, partitions: seq<string>) returns (r: seq<string>)
    requires forall l :: l in h <==> Partition(window, l) != []
    ensures r == WithRows(window, partitions)
  {
    r := [];
    for k := 0 to |partitions|
      invariant r == WithRows(window, partitions[..k])
    {
      assert partitions[..k + 1][..k] == partitions[..k];
      if partitions[k] in h {
        r := r + [partitions[k]];
      }
    }
    assert partitions[..|partitions|] == partitions;
  }

  /** Which rows and which levels a request is about. */
  method Resolve(window: seq<Row>, spec: Spec) returns (base: seq<Row>, eligible: seq<string>, matched: nat)
    ensures base == Base(window, spec) && eligible == Eligible(window, spec) && matched == Matched(window, spec)
  {
    var histogram := Histogram(window);
    var selected := spec.levels;
    if spec.levels == [] && spec.mode == Anomalies && spec.terms == [] {
      selected := ERROR_LEVELS;
    }
    matched, base := |window|, window;
    if selected != [] {
      matched := CountLevels(window, histogram, selected);
      base := OfLevels(window, selected);
    }
    var partitions := if selected != [] then selected else LevelsOf(window, true);
    if spec.mode == Anomalies && spec.levels == [] && matched == 0 {
      partitions, base := LevelsOf(window, false), window;
    }
    eligible := EligibleLevels(window, histogram, partitions);
  }

  method ReadPage(window: seq<Row>, scope: Scope, spec: Spec, limit: nat, cursor: CursorText, rare: seq<Row>)
      returns (page: Page)
    requires !cursor.Undecodable? && |rare| <= limit
    ensures page == PageOf(window, scope, spec, limit, cursor, rare)
  {
    var base, eligible, matched := Resolve(window, spec);
    var positions, featured := map[], Ids(rare);
    if cursor.Decoded? {
      positions, featured := cursor.cursor.positions, cursor.cursor.featured;
    }
    var quota := Max(1, (limit - |rare|) / Max(1, |eligible|));
    var w := WalkLevels(Visit(base, scope.start, positions, featured, limit, quota), eligible, rare);
    page := Page(w.records, if w.more then Some(Cursor(w.positions, featured)) else None, |window|, matched);
  }

  method Query(table: seq<Row>, scope: Scope, spec: Spec, asked: int, cursor: CursorText, rare: seq<Row>)
    returns (reply: Result<Page, LogError>)
    requires SampleOk(Window(table, scope, spec.terms), spec, Clamped(asked), cursor.NoCursor?, rare)
    ensures reply == Answer(table, scope, spec, asked, cursor, rare)
  {
    var limit := Max(1, Min(100, asked));
    if spec.mode.OtherMode? || |spec.terms| > 6 || !TermsOk(spec.terms) {
      return Err(InvalidLogQuery);
    }
    if |spec.levels| > 12 || !LevelsOk(spec.levels) {
      return Err(InvalidLevels);
    }
    if cursor.Undecodable? || (cursor.Decoded? && |cursor.cursor.featured| > FEATURED_LIMIT) {
      return Err(InvalidCursor);
    }
    var page := ReadPage(Window(table, scope, spec.terms), scope, spec, limit, cursor, rare);
    reply := Ok(page);
  }
}
