/** The external issue tracker, and the requests of backend/internal/app/actions.go that read it.
    Issues are only ever added; the listing of a repository is newest first, 100 to a page. */
module Tracker {
  import opened Wrappers

  const PER_PAGE: nat := 100
  const MAX_PAGES: nat := 5

  /** An issue as created: free text, and the marker comment the control plane appends to its own. */
  datatype Issue = Issue(repo: string, title: string, text: string, stamp: Option<string>) {
    function Body(): string {
      if stamp.None? then text else StampedBody(text, stamp.value)
    }
  }

  function Tag(marker: string): string {
    "<!-- " + marker + " -->"
  }

  function StampedBody(text: string, marker: string): string {
    text + "\n\n" + Tag(marker)
  }

  predicate OccursAt(s: string, t: string, i: int) {
    0 <= i <= |s| - |t| && s[i..i + |t|] == t
  }

  /** strings.Contains, as a search from the given position. */
  predicate FoundFrom(s: string, t: string, i: nat)
    decreases |s| - i
  {
    i + |t| <= |s| && (s[i..i + |t|] == t || FoundFrom(s, t, i + 1))
  }

  predicate Contains(s: string, t: string) {
    FoundFrom(s, t, 0)
  }

  lemma {:induction false} FoundMeans(s: string, t: string, i: nat)
    ensures FoundFrom(s, t, i) <==> exists k :: i <= k && OccursAt(s, t, k)
    decreases |s| - i
  {
    if i + |t| <= |s| {
      FoundMeans(s, t, i + 1);
      if s[i..i + |t|] == t {
        assert OccursAt(s, t, i);
      } else {
        assert !OccursAt(s, t, i);
      }
    }
  }

  lemma ContainsMeans(s: string, t: string)
    ensures Contains(s, t) <==> exists k :: OccursAt(s, t, k)
  {
    FoundMeans(s, t, 0);
  }

  predicate Carries(issue: Issue, marker: string) {
    Contains(issue.Body(), Tag(marker))
  }

  ghost predicate OneLine(marker: string) {
    '\n' !in marker
  }

  lemma TagIsOneLine(marker: string)
    requires OneLine(marker)
    ensures '\n' !in Tag(marker)
  {
  }

  lemma TagInjective(a: string, b: string)
    requires Tag(a) == Tag(b)
    ensures a == b
  {
    assert Tag(a)[5..|Tag(a)| - 4] == a;
    assert Tag(b)[5..|Tag(b)| - 4] == b;
  }

  lemma StampIsFound(text: string, marker: string)
    ensures Contains(StampedBody(text, marker), Tag(marker))
    ensures Contains(StampedBody(text, marker), marker)
  {
    var s := StampedBody(text, marker);
    assert OccursAt(s, Tag(marker), |text| + 2);
    assert OccursAt(s, marker, |text| + 7);
    ContainsMeans(s, Tag(marker));
    ContainsMeans(s, marker);
  }

  lemma ContainsPrefixText(text: string, rest: string, t: string)
    requires Contains(text, t)
    ensures Contains(text + rest, t)
  {
    ContainsMeans(text, t);
    ContainsMeans(text + rest, t);
    var i :| OccursAt(text, t, i);
    assert (text + rest)[i..i + |t|] == text[i..i + |t|];
    assert OccursAt(text + rest, t, i);
  }

  lemma NoNewlineAcross(s: string, t: string, i: int, at: int)
    requires OccursAt(s, t, i) && i <= at < i + |t| && s[at] == '\n'
    ensures '\n' in t
  {
    assert t[at - i] == s[i..i + |t|][at - i] == s[at];
  }

  lemma NoStraddling(text: string, marker: string, other: string, i: int)
    requires OneLine(marker) && OneLine(other) && |marker| == |other|
    requires OccursAt(StampedBody(text, marker), Tag(other), i)
    ensures marker == other || OccursAt(text, Tag(other), i)
  {
    var s, t := StampedBody(text, marker), Tag(other);
    TagIsOneLine(other);
    if i + |t| <= |text| {
      assert text[i..i + |t|] == s[i..i + |t|];
    } else if i <= |text| {
      NoNewlineAcross(s, t, i, |text|);
    } else if i == |text| + 1 {
      NoNewlineAcross(s, t, i, i);
    } else {
      assert i == |text| + 2;
      assert s[i..i + |t|] == Tag(marker);
      TagInjective(marker, other);
    }
  }

  /** A stamped body carries another marker of the same length only if its own text quotes it:
      no occurrence can straddle the blank line between the two. */
  lemma StampedBodyCarries(text: string, marker: string, other: string)
    requires OneLine(marker) && OneLine(other) && |marker| == |other|
    ensures Contains(StampedBody(text, marker), Tag(other)) <==> marker == other || Contains(text, Tag(other))
  {
    var s, t := StampedBody(text, marker), Tag(other);
    StampIsFound(text, marker);
    ContainsMeans(s, t);
    ContainsMeans(text, t);
    if Contains(text, t) {
      assert s == text + ("\n\n" + Tag(marker));
      ContainsPrefixText(text, "\n\n" + Tag(marker), t);
    }
    if Contains(s, t) {
      var i :| OccursAt(s, t, i);
      NoStraddling(text, marker, other, i);
    }
  }

  // ---- the listing and the reconcile scan ---------------------------------------------

  datatype Item = Item(number: nat, issue: Issue)

  /** Issues of a repository among the first n created, newest first. */
  function ListingUpTo(issues: seq<Issue>, n: nat, repo: string): (l: seq<Item>)
    requires n <= |issues|
    ensures forall k :: 0 <= k < |l| ==> l[k].number < n && l[k].issue == issues[l[k].number] && l[k].issue.repo == repo
    ensures forall j :: 0 <= j < n && issues[j].repo == repo ==> Item(j, issues[j]) in l
    ensures forall k, m :: 0 <= k < m < |l| ==> l[k].number > l[m].number
  {
    if n == 0 then []
    else if issues[n - 1].repo == repo then [Item(n - 1, issues[n - 1])] + ListingUpTo(issues, n - 1, repo)
    else ListingUpTo(issues, n - 1, repo)
  }

  function Listing(issues: seq<Issue>, repo: string): seq<Item> {
    ListingUpTo(issues, |issues|, repo)
  }

  /** GET .../issues?state=all&per_page=100&page=N */
  function Page(issues: seq<Issue>, repo: string, page: nat): (l: seq<Item>)
    requires page >= 1
    ensures forall k :: 0 <= k < |l| ==>
      l[k].number < |issues| && l[k].issue == issues[l[k].number] && l[k].issue.repo == repo
  {
    var all := Listing(issues, repo);
    all[Min(PER_PAGE * (page - 1), |all|)..Min(PER_PAGE * page, |all|)]
  }

  function Selected(items: seq<Item>, hit: Issue -> bool): seq<nat> {
    if items == [] then []
    else (if hit(items[0].issue) then [items[0].number] else []) + Selected(items[1..], hit)
  }

  lemma {:induction false} SelectedConcat(a: seq<Item>, b: seq<Item>, hit: Issue -> bool)
    ensures Selected(a + b, hit) == Selected(a, hit) + Selected(b, hit)
    decreases a
  {
    if a == [] {
      assert a + b == b;
    } else {
      SelectedConcat(a[1..], b, hit);
      assert (a + b)[0] == a[0] && (a + b)[1..] == a[1..] + b;
      var head := if hit(a[0].issue) then [a[0].number] else [];
      assert Selected(a + b, hit) == head + Selected(a[1..] + b, hit);
      assert Selected(a, hit) == head + Selected(a[1..], hit);
    }
  }

  lemma SelectedSnoc(items: seq<Item>, k: nat, hit: Issue -> bool)
    requires k < |items|
    ensures Selected(items[..k + 1], hit) == Selected(items[..k], hit) + if hit(items[k].issue)
        then [items[k].number] else []
    ensures |Selected(items[..k + 1], hit)| <= |Selected(items, hit)|
  {
    assert items[..k + 1] == items[..k] + [items[k]];
    SelectedConcat(items[..k], [items[k]], hit);
    assert items == items[..k + 1] + items[k + 1..];
    SelectedConcat(items[..k + 1], items[k + 1..], hit);
  }

  function Carrier(marker: string): Issue -> bool {
    issue => Carries(issue, marker)
  }

  /** The numbers of the items that carry the marker, in order. */
  function Matching(items: seq<Item>, marker: string): seq<nat> {
    Selected(items, Carrier(marker))
  }

  ghost predicate IsMatch(items: seq<Item>, marker: string, k: int, i: nat) {
    0 <= k < |items| && items[k].number == i && Carries(items[k].issue, marker)
  }

  ghost predicate IsHit(items: seq<Item>, hit: Issue -> bool, k: int, i: nat) {
    0 <= k < |items| && items[k].number == i && hit(items[k].issue)
  }

  lemma {:induction false} SelectedMembers(items: seq<Item>, hit: Issue -> bool, i: nat)
    ensures i in Selected(items, hit) <==> exists k :: IsHit(items, hit, k, i)
    decreases items
  {
    if items != [] {
      var rest := items[1..];
      SelectedMembers(rest, hit, i);
      if exists k :: IsHit(rest, hit, k, i) {
        var k :| IsHit(rest, hit, k, i);
        assert IsHit(items, hit, k + 1, i);
      } else if exists k :: IsHit(items, hit, k, i) {
        var k :| IsHit(items, hit, k, i);
        assert k > 0 ==> IsHit(rest, hit, k - 1, i);
      }
      if hit(items[0].issue) && items[0].number == i {
        assert IsHit(items, hit, 0, i);
      }
    }
  }

  lemma MatchingMembers(items: seq<Item>, marker: string, i: nat)
    ensures i in Matching(items, marker) <==> exists k :: IsMatch(items, marker, k, i)
  {
    SelectedMembers(items, Carrier(marker), i);
    forall k ensures IsMatch(items, marker, k, i) <==> IsHit(items, Carrier(marker), k, i) {
    }
  }

  /** Where a scan stands after a page: still looking, or over. */
  datatype Scan = More(page: nat, candidate: Option<nat>) | Stop(found: Option<nat>)

  function AsSeq(m: Option<nat>): seq<nat> {
    if m.Some? then [m.value] else []
  }

  /** The match after further hits; a second match is ambiguous. */
  function MergeHits(hits: seq<nat>, m: Option<nat>): Result<Option<nat>, ()> {
    var all := AsSeq(m) + hits;
    if |all| > 1 then Err(()) else if all == [] then Ok(None) else Ok(Some(all[0]))
  }

  /** The match after one page. */
  function Merge(items: seq<Item>, marker: string, m: Option<nat>): Result<Option<nat>, ()> {
    MergeHits(Matching(items, marker), m)
  }

  /** One page of reconcile: a short or fifth page ends the scan. */
  function ScanPage(items: seq<Item>, marker: string, page: nat, m: Option<nat>): Scan {
    match Merge(items, marker, m)
    case Err(_) => Stop(None)
    case Ok(next) => if |items| < PER_PAGE || page >= MAX_PAGES then Stop(next) else More(page + 1, next)
  }

  /** Everything read once the given page and its successors are added; None when a request fails. */
  function ReadPages(replies: seq<Option<seq<Item>>>, page: nat, read: seq<Item>): (r: Option<seq<Item>>)
    requires |replies| == MAX_PAGES && 1 <= page
    ensures r.Some? ==> |read| <= |r.value| && r.value[..|read|] == read
    decreases MAX_PAGES + 1 - page
  {
    if page > MAX_PAGES then Some(read)
    else if replies[page - 1].None? then None
    else
      var items := replies[page - 1].value;
      if |items| < PER_PAGE then Some(read + items) else ReadPages(replies, page + 1, read + items)
  }

  /** The issue reconcile settles on: the single match in everything it read. */
  function Reconciled(replies: seq<Option<seq<Item>>>, marker: string): Option<nat>
    requires |replies| == MAX_PAGES
  {
    Single(ReadPages(replies, 1, []), marker)
  }

  /** The only match in what was read, if everything could be read. */
  function Single(read: Option<seq<Item>>, marker: string): Option<nat> {
    match read
    case None => None
    case Some(items) =>
      var all := Matching(items, marker);
      if |all| == 1 then Some(all[0]) else None
  }

  /** The scan as a runner makes it: one page after another, until one of them ends it or a request fails. */
  function ScanAll(replies: seq<Option<seq<Item>>>, marker: string, page: nat, m: Option<nat>): Option<nat>
    requires |replies| == MAX_PAGES && 1 <= page <= MAX_PAGES
    decreases MAX_PAGES - page
  {
    if replies[page - 1].None? then None
    else
      match ScanPage(replies[page - 1].value, marker, page, m)
      case More(next, candidate) => ScanAll(replies, marker, next, candidate)
      case Stop(found) => found
  }

  method ScanItems(items: seq<Item>, hit: Issue -> bool, m: Option<nat>) returns (r: Result<Option<nat>, ()>)
    ensures r == MergeHits(Selected(items, hit), m)
  {
    var candidate := m;
    for k := 0 to |items|
      invariant AsSeq(candidate) == AsSeq(m) + Selected(items[..k], hit)
    {
      SelectedSnoc(items, k, hit);
      if hit(items[k].issue) {
        if candidate.Some? {
          return Err(());
        }
        candidate := Some(items[k].number);
      }
    }
    assert items[..|items|] == items;
    r := Ok(candidate);
  }

  method Reconcile(replies: seq<Option<seq<Item>>>, marker: string) returns (found: Option<nat>)
    requires |replies| == MAX_PAGES
    ensures found == Reconciled(replies, marker)
  {
    var candidate: Option<nat> := None;
    ghost var read: seq<Item> := [];
    var page := 1;
    var short := false;
    while page <= MAX_PAGES && !short
      invariant 1 <= page <= MAX_PAGES + 1
      invariant AsSeq(candidate) == Matching(read, marker)
      invariant ReadPages(replies, 1, []) == if short then Some(read) else ReadPages(replies, page, read)
    {
      if replies[page - 1].None? {
        return None;
      }
      var items := replies[page - 1].value;
      var merged := ScanItems(items, Carrier(marker), candidate);
      MergedIsMatching(read, items, marker, candidate);
      if merged.Err? {
        AmbiguousForGood(replies, page, read, marker);
        return None;
      }
      ReadOn(replies, page, read);
      candidate := merged.value;
      read := read + items;
      short := |items| < PER_PAGE;
      page := page + 1;
    }
    found := candidate;
  }

  /** Merging a page into the match so far is matching everything read. */
  lemma MergedIsMatching(read: seq<Item>, items: seq<Item>, marker: string, m: Option<nat>)
    requires AsSeq(m) == Matching(read, marker)
    ensures var r := Merge(items, marker, m);
            if r.Err? then |Matching(read + items, marker)| > 1 else AsSeq(r.value) == Matching(read + items, marker)
  {
    SelectedConcat(read, items, Carrier(marker));
  }

  lemma ReadOn(replies: seq<Option<seq<Item>>>, page: nat, read: seq<Item>)
    requires |replies| == MAX_PAGES && 1 <= page <= MAX_PAGES && replies[page - 1].Some?
    ensures var more := read + replies[page - 1].value;
            ReadPages(replies, page, read)
            == if |replies[page - 1].value| < PER_PAGE then Some(more) else ReadPages(replies, page + 1, more)
  {
  }

  lemma AmbiguousForGood(replies: seq<Option<seq<Item>>>, page: nat, read: seq<Item>, marker: string)
    requires |replies| == MAX_PAGES && 1 <= page <= MAX_PAGES && replies[page - 1].Some?
    requires |Matching(read + replies[page - 1].value, marker)| > 1
    ensures ReadPages(replies, page, read).Some? ==> |Matching(ReadPages(replies, page, read).value, marker)| > 1
  {
    var more := read + replies[page - 1].value;
    var r := ReadPages(replies, page, read);
    if r.Some? {
      assert r.value[..|more|] == more;
      assert r.value == more + r.value[|more|..];
      SelectedConcat(more, r.value[|more|..], Carrier(marker));
    }
  }

  // ---- the scan page by page -------------------------------------------------------------

  /** Scanning on from a page is looking for the only match in everything read before and after it. */
  lemma {:induction false} ScanIsSingle(replies: seq<Option<seq<Item>>>, marker: string, page: nat, m: Option<nat>,
                                        read: seq<Item>)
    requires |replies| == MAX_PAGES && 1 <= page <= MAX_PAGES && AsSeq(m) == Matching(read, marker)
    ensures ScanAll(replies, marker, page, m) == Single(ReadPages(replies, page, read), marker)
    decreases MAX_PAGES - page
  {
    if replies[page - 1].Some? {
      var items := replies[page - 1].value;
      MergedIsMatching(read, items, marker, m);
      if Merge(items, marker, m).Err? {
        AmbiguousForGood(replies, page, read, marker);
      } else {
        ReadOn(replies, page, read);
        var next := Merge(items, marker, m).value;
        if |items| >= PER_PAGE && page < MAX_PAGES {
          ScanIsSingle(replies, marker, page + 1, next, read + items);
        } else {
          assert Single(Some(read + items), marker) == next;
        }
      }
    }
  }

  /** The runner's scan page by page settles on what reconcile does. */
  lemma ScanIsReconciled(replies: seq<Option<seq<Item>>>, marker: string)
    requires |replies| == MAX_PAGES
    ensures ScanAll(replies, marker, 1, None) == Reconciled(replies, marker)
  {
    ScanIsSingle(replies, marker, 1, None, []);
  }

  /** Where a scan stands once these pages were read. */
  function ScanOver(pages: seq<seq<Item>>, marker: string, page: nat, m: Option<nat>): Scan {
    if pages == [] then More(page, m)
    else
      match ScanPage(pages[0], marker, page, m)
      case More(next, candidate) => ScanOver(pages[1..], marker, next, candidate)
      case Stop(found) => Stop(found)
  }

  /** The replies of a scan that read these pages and no more. */
  function Replies(pages: seq<seq<Item>>): (r: seq<Option<seq<Item>>>)
    ensures |r| == MAX_PAGES
    ensures forall k :: 0 <= k < MAX_PAGES ==> r[k] == if k < |pages| then Some(pages[k]) else None
  {
    seq(MAX_PAGES, k requires 0 <= k < MAX_PAGES => if k < |pages| then Some(pages[k]) else None)
  }

  lemma {:induction false} ScanOverIsAll(pages: seq<seq<Item>>, n: nat, replies: seq<Option<seq<Item>>>,
                                         marker: string, m: Option<nat>)
    requires n <= |pages| && n < MAX_PAGES && |replies| == MAX_PAGES
    requires forall k :: n <= k < |pages| && k < MAX_PAGES ==> replies[k] == Some(pages[k])
    ensures match ScanOver(pages[n..], marker, n + 1, m)
            case More(page, _) =>
              && page == |pages| + 1 <= MAX_PAGES
              && (replies[|pages|].None? ==> ScanAll(replies, marker, n + 1, m).None?)
            case Stop(found) => ScanAll(replies, marker, n + 1, m) == found
    decreases MAX_PAGES - n
  {
    if n < |pages| {
      assert pages[n..][0] == pages[n] && pages[n..][1..] == pages[n + 1..];
      var next := ScanPage(pages[n], marker, n + 1, m);
      if next.More? {
        ScanOverIsAll(pages, n + 1, replies, marker, next.candidate);
      }
    }
  }

  /** A scan that stopped after these pages found what reconcile makes of them. */
  lemma StoppedIsReconciled(pages: seq<seq<Item>>, replies: seq<Option<seq<Item>>>, marker: string)
    requires |replies| == MAX_PAGES
    requires forall k :: 0 <= k < |pages| && k < MAX_PAGES ==> replies[k] == Some(pages[k])
    ensures match ScanOver(pages, marker, 1, None)
            case More(page, _) =>
              page == |pages| + 1 <= MAX_PAGES && (replies[|pages|].None? ==> Reconciled(replies, marker).None?)
            case Stop(found) => Reconciled(replies, marker) == found
  {
    assert pages[0..] == pages;
    ScanOverIsAll(pages, 0, replies, marker, None);
    ScanIsReconciled(replies, marker);
  }

  // ---- a growing listing -------------------------------------------------------------------

  lemma {:induction false} ListingPrefix(issues: seq<Issue>, more: seq<Issue>, n: nat, repo: string)
    requires n <= |issues|
    ensures ListingUpTo(issues + more, n, repo) == ListingUpTo(issues, n, repo)
  {
    if n > 0 {
      assert (issues + more)[n - 1] == issues[n - 1];
      ListingPrefix(issues, more, n - 1, repo);
    }
  }

  /** A new issue of the repository is listed first. */
  lemma ListingSnoc(issues: seq<Issue>, i: Issue, repo: string)
    ensures Listing(issues + [i], repo)
            == (if i.repo == repo then [Item(|issues|, i)] else []) + Listing(issues, repo)
  {
    ListingPrefix(issues, [i], |issues|, repo);
  }

  /** When all issues are of one repository, all are listed and the oldest comes last. */
  lemma OldestIsLast(issues: seq<Issue>, repo: string)
    requires issues != [] && forall j :: 0 <= j < |issues| ==> issues[j].repo == repo
    ensures |Listing(issues, repo)| == |issues|
    ensures Listing(issues, repo)[|issues| - 1] == Item(0, issues[0])
  {
    AllListed(issues, |issues|, repo);
    var all := Listing(issues, repo);
    assert Item(0, issues[0]) in all;
    var k :| 0 <= k < |all| && all[k] == Item(0, issues[0]);
    if k < |all| - 1 {
      assert false;
    }
  }

  lemma {:induction false} AllListed(issues: seq<Issue>, n: nat, repo: string)
    requires n <= |issues| && forall j :: 0 <= j < n ==> issues[j].repo == repo
    ensures |ListingUpTo(issues, n, repo)| == n
  {
    if n > 0 {
      AllListed(issues, n - 1, repo);
    }
  }

  /** An issue is on the page of its place in the listing, and on no other. */
  lemma ListedIffPlace(issues: seq<Issue>, repo: string, page: nat, j: nat)
    requires page >= 1 && j < |Listing(issues, repo)|
    ensures Listed(Page(issues, repo, page), Listing(issues, repo)[j].number)
            <==> PER_PAGE * (page - 1) <= j < PER_PAGE * page
  {
    var all, items := Listing(issues, repo), Page(issues, repo, page);
    if Listed(items, all[j].number) {
      var k :| 0 <= k < |items| && items[k].number == all[j].number;
      PagePlace(issues, repo, page, k);
      SameNumber(all, PER_PAGE * (page - 1) + k, j);
    }
    if PER_PAGE * (page - 1) <= j < PER_PAGE * page {
      assert items[j - PER_PAGE * (page - 1)] == all[j];
    }
  }

  /** How many newer issues carry an issue from place k of page q onto page p. */
  predicate Carried(q: nat, k: nat, filed: nat, p: nat) {
    PER_PAGE * (p - q) <= k + filed < PER_PAGE * (p - q + 1)
  }

  /** Once that many issues are filed in front of it, an issue seen at place k of page q is listed on page p. */
  lemma ListedIffCarried(older: seq<Issue>, newer: seq<Issue>, repo: string, filed: nat, q: nat, k: nat, p: nat)
    requires |Listing(newer, repo)| == |Listing(older, repo)| + filed
    requires Listing(newer, repo)[filed..] == Listing(older, repo)
    requires q >= 1 && p >= 1 && k < |Page(older, repo, q)|
    ensures k < PER_PAGE
    ensures Listed(Page(newer, repo, p), Page(older, repo, q)[k].number) <==> Carried(q, k, filed, p)
  {
    var j := PER_PAGE * (q - 1) + k;
    PagePlace(older, repo, q, k);
    assert Listing(newer, repo)[filed + j] == Listing(newer, repo)[filed..][j];
    ListedIffPlace(newer, repo, p, filed + j);
  }

  // ---- a scan of an unchanging tracker ------------------------------------------------

  lemma {:induction false} PagesOfFixedListing(issues: seq<Issue>, repo: string, replies: seq<Option<seq<Item>>>,
      page: nat)
    requires |replies| == MAX_PAGES && 1 <= page <= MAX_PAGES + 1
    requires forall p :: 1 <= p <= MAX_PAGES ==> replies[p - 1] == Some(Page(issues, repo, p))
    requires PER_PAGE * (page - 1) <= |Listing(issues, repo)|
    ensures ReadPages(replies, page, Listing(issues, repo)[..PER_PAGE * (page - 1)]) == Some(Newest(issues, repo))
    decreases MAX_PAGES + 1 - page
  {
    var all := Listing(issues, repo);
    if page <= MAX_PAGES {
      var items := Page(issues, repo, page);
      assert replies[page - 1] == Some(items);
      assert all[..PER_PAGE * (page - 1)] + items == all[..Min(PER_PAGE * page, |all|)];
      if |items| == PER_PAGE {
        PagesOfFixedListing(issues, repo, replies, page + 1);
      }
    }
  }

  /** The issues of the repository that the five pages cover. */
  function Newest(issues: seq<Issue>, repo: string): seq<Item> {
    Listing(issues, repo)[..Min(PER_PAGE * MAX_PAGES, |Listing(issues, repo)|)]
  }

  /** On an unchanging tracker, reconcile settles on an issue exactly when that issue is the only one
      carrying the marker among the newest 500 of the repository. */
  lemma ReconcileFindsTheOnlyCarrier(issues: seq<Issue>, repo: string, marker: string, replies: seq<Option<seq<Item>>>,
      i: nat)
    requires |replies| == MAX_PAGES
    requires forall p :: 1 <= p <= MAX_PAGES ==> replies[p - 1] == Some(Page(issues, repo, p))
    ensures Reconciled(replies, marker) == Some(i) <==> OnlyMatchIs(Newest(issues, repo), marker, i)
  {
    assert Listing(issues, repo)[..0] == [];
    PagesOfFixedListing(issues, repo, replies, 1);
    OnlyMatch(Newest(issues, repo), marker, i);
  }

  /** A scan that stops on an unchanging tracker, page by page, has found that issue or nothing. */
  lemma ScanOfFixedListing(issues: seq<Issue>, repo: string, marker: string, pages: seq<seq<Item>>, i: nat)
    requires forall k: nat :: k < |pages| ==> pages[k] == Page(issues, repo, 1 + k)
    ensures var scan := ScanOver(pages, marker, 1, None);
            scan.Stop? ==> (scan.found == Some(i) <==> OnlyMatchIs(Newest(issues, repo), marker, i))
  {
    var replies := seq(MAX_PAGES, k requires 0 <= k < MAX_PAGES => Some(Page(issues, repo, k + 1)));
    StoppedIsReconciled(pages, replies, marker);
    ReconcileFindsTheOnlyCarrier(issues, repo, marker, replies, i);
  }

  /** Some item with this number carries the marker, and no item with another. */
  ghost predicate OnlyMatchIs(items: seq<Item>, marker: string, i: nat) {
    (exists k :: IsMatch(items, marker, k, i)) && (forall k, j :: IsMatch(items, marker, k, j) ==> j == i)
  }

  lemma OnlyMatch(items: seq<Item>, marker: string, i: nat)
    requires forall k, m :: 0 <= k < m < |items| ==> items[k].number > items[m].number
    ensures Matching(items, marker) == [i] <==> OnlyMatchIs(items, marker, i)
  {
    var h := Matching(items, marker);
    MatchingIncreases(items, marker);
    MatchingMembers(items, marker, i);
    if h == [i] {
      forall k, j: nat | IsMatch(items, marker, k, j) ensures j == i {
        MatchingMembers(items, marker, j);
      }
    } else if OnlyMatchIs(items, marker, i) {
      forall m | 0 <= m < |h| ensures h[m] == i {
        MatchingMembers(items, marker, h[m]);
      }
      OnlyElement(h, i);
    }
  }

  lemma OnlyElement(h: seq<nat>, i: nat)
    requires i in h && forall m :: 0 <= m < |h| ==> h[m] == i
    requires forall k, m :: 0 <= k < m < |h| ==> h[k] > h[m]
    ensures h == [i]
  {
    var first, last := h[0], h[|h| - 1];
    assert first == last;
  }

  lemma {:induction false} SelectedIncreases(items: seq<Item>, hit: Issue -> bool)
    requires forall k, m :: 0 <= k < m < |items| ==> items[k].number > items[m].number
    ensures forall k, m :: 0 <= k < m < |Selected(items, hit)| ==> Selected(items, hit)[k] > Selected(items, hit)[m]
    decreases items
  {
    if items != [] {
      SelectedIncreases(items[1..], hit);
      var rest := Selected(items[1..], hit);
      forall m | 0 <= m < |rest| ensures items[0].number > rest[m] {
        assert rest[m] in rest;
        SelectedMembers(items[1..], hit, rest[m]);
        var k :| IsHit(items[1..], hit, k, rest[m]);
        assert items[1..][k] == items[k + 1];
      }
    }
  }

  lemma MatchingIncreases(items: seq<Item>, marker: string)
    requires forall k, m :: 0 <= k < m < |items| ==> items[k].number > items[m].number
    ensures forall k, m :: 0 <= k < m < |Matching(items, marker)| ==>
          Matching(items, marker)[k] > Matching(items, marker)[m]
  {
    SelectedIncreases(items, Carrier(marker));
  }

  predicate Listed(items: seq<Item>, i: nat) {
    exists k :: 0 <= k < |items| && items[k].number == i
  }

  /** One listing shows an issue on one page only: seeing it on two means the listing moved in between. */
  lemma ListedOnOnePage(issues: seq<Issue>, repo: string, p: nat, q: nat, i: nat)
    requires p >= 1 && q >= 1 && Listed(Page(issues, repo, p), i) && Listed(Page(issues, repo, q), i)
    ensures p == q
  {
    var k :| 0 <= k < |Page(issues, repo, p)| && Page(issues, repo, p)[k].number == i;
    var m :| 0 <= m < |Page(issues, repo, q)| && Page(issues, repo, q)[m].number == i;
    PagePlace(issues, repo, p, k);
    PagePlace(issues, repo, q, m);
    SameNumber(Listing(issues, repo), PER_PAGE * (p - 1) + k, PER_PAGE * (q - 1) + m);
    SamePage(p, q, k, m);
  }

  lemma PagePlace(issues: seq<Issue>, repo: string, p: nat, k: nat)
    requires p >= 1 && k < |Page(issues, repo, p)|
    ensures k < PER_PAGE && PER_PAGE * (p - 1) + k < |Listing(issues, repo)|
    ensures Listing(issues, repo)[PER_PAGE * (p - 1) + k] == Page(issues, repo, p)[k]
    ensures Decreasing(Listing(issues, repo))
  {
    SlicePlace(Listing(issues, repo), PER_PAGE * (p - 1), PER_PAGE * p, k);
  }

  lemma SlicePlace(all: seq<Item>, from: nat, to: nat, k: nat)
    requires from <= to && k < |all[Min(from, |all|)..Min(to, |all|)]|
    ensures k < to - from && from + k < |all| && all[from + k] == all[Min(from, |all|)..Min(to, |all|)][k]
  {
  }

  predicate Decreasing(items: seq<Item>) {
    forall k, m :: 0 <= k < m < |items| ==> items[k].number > items[m].number
  }

  lemma SameNumber(items: seq<Item>, x: nat, y: nat)
    requires Decreasing(items) && x < |items| && y < |items| && items[x].number == items[y].number
    ensures x == y
  {
  }

  lemma SamePage(p: nat, q: nat, k: nat, m: nat)
    requires p >= 1 && q >= 1 && k < PER_PAGE && m < PER_PAGE
    requires PER_PAGE * (p - 1) + k == PER_PAGE * (q - 1) + m
    ensures p == q
  {
  }
}
