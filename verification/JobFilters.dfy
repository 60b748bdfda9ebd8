/** The job table of the dashboard: filter, stable sort, clamped pages. */
module JobFilters {
  import opened Prelude

  // The columns the filters look at; dates are milliseconds.
  datatype JobView = JobView(kind: string, queue: string, status: string, priority: int, attempts: int, created: int)

  datatype Sort = PriorityDesc | AttemptsDesc | StatusAsc | CreatedDesc

  datatype Filters = Filters(query: string, status: string, queue: string, sort: Sort, pageSize: int, page: int)

  // ----------------------------------------------------------------- filter

  // What the browser decides: the lower-case form of a text, and the collation of
  // the statuses that localeCompare uses.
  datatype Locale = Locale(lower: string -> string, rank: string -> int)

  /** WhiteSpace and LineTerminator of ECMAScript. */
  predicate IsSpace(c: char) {
    || '\t' <= c <= '\r' || c == ' ' || c == '\U{00A0}' || c == '\U{1680}' || '\U{2000}' <= c <= '\U{200A}'
    || c == '\U{2028}' || c == '\U{2029}' || c == '\U{202F}' || c == '\U{205F}' || c == '\U{3000}' || c == '\U{FEFF}'
  }

  function TrimLeft(s: string): string { if s != [] && IsSpace(s[0]) then TrimLeft(s[1..]) else s }

  function TrimRight(s: string): string
    decreases |s|
  {
    if s != [] && IsSpace(s[|s| - 1]) then TrimRight(s[..|s| - 1]) else s
  }

  predicate OccursAt(s: string, part: string, i: int) { 0 <= i <= |s| - |part| && s[i..i + |part|] == part }

  predicate Includes(s: string, part: string) { exists i :: 0 <= i <= |s| && OccursAt(s, part, i) }

  function Searchable(locale: Locale, job: JobView): string {
    locale.lower(job.kind + " " + job.queue + " " + job.status)
  }

  function Trim(s: string): string { TrimLeft(TrimRight(s)) }

  predicate Matches(f: Filters, locale: Locale, job: JobView) {
    var query := locale.lower(Trim(f.query));
    && (f.status == "all" || job.status == f.status)
    && (f.queue == "all" || job.queue == f.queue)
    && (query == "" || Includes(Searchable(locale, job), query))
  }

  function Filter(f: Filters, locale: Locale, jobs: seq<JobView>): seq<JobView> {
    if jobs == [] then []
    else (if Matches(f, locale, jobs[0]) then [jobs[0]] else []) + Filter(f, locale, jobs[1..])
  }

  predicate Blank(s: string) { forall i :: 0 <= i < |s| ==> IsSpace(s[i]) }

  lemma {:induction false} TrimRightCuts(s: string) returns (right: string)
    ensures s == TrimRight(s) + right && Blank(right)
    ensures TrimRight(s) != [] ==> !IsSpace(TrimRight(s)[|TrimRight(s)| - 1])
    decreases |s|
  {
    right := "";
    if s != [] && IsSpace(s[|s| - 1]) {
      var more := TrimRightCuts(s[..|s| - 1]);
      right := more + [s[|s| - 1]];
      assert s == s[..|s| - 1] + [s[|s| - 1]];
    }
  }

  lemma {:induction false} TrimLeftCuts(s: string) returns (left: string)
    ensures s == left + TrimLeft(s) && Blank(left)
    ensures TrimLeft(s) != [] ==> !IsSpace(TrimLeft(s)[0])
  {
    left := "";
    if s != [] && IsSpace(s[0]) {
      var more := TrimLeftCuts(s[1..]);
      left := [s[0]] + more;
      assert s == [s[0]] + s[1..];
    }
  }

  /** White space by its code points. */
  lemma SpaceCodes(c: char)
    ensures IsSpace(c) <==> c as int in {0x9, 0xA, 0xB, 0xC, 0xD, 0x20, 0xA0, 0x1680, 0x2000, 0x2001, 0x2002, 0x2003,
      0x2004, 0x2005, 0x2006, 0x2007, 0x2008, 0x2009, 0x200A, 0x2028, 0x2029, 0x202F, 0x205F, 0x3000, 0xFEFF}
  {
  }

  /** Trimming takes white space off both ends, all of it, and nothing else. */
  lemma TrimCutsBlanks(s: string) returns (left: string, right: string)
    ensures s == left + Trim(s) + right && Blank(left) && Blank(right)
    ensures Trim(s) != [] ==> !IsSpace(Trim(s)[0]) && !IsSpace(Trim(s)[|Trim(s)| - 1])
  {
    right := TrimRightCuts(s);
    left := TrimLeftCuts(TrimRight(s));
    var middle, trimmed := TrimRight(s), Trim(s);
    if trimmed != [] { assert middle[|middle| - 1] == trimmed[|trimmed| - 1]; }
  }

  /** A job matches iff it has the chosen status and queue, and the trimmed query
      is a part of its texts, whatever the case of either; an empty query always is. */
  lemma MatchesIff(f: Filters, locale: Locale, job: JobView)
    ensures Matches(f, locale, job) <==>
      && (f.status == "all" || f.status == job.status) && (f.queue == "all" || f.queue == job.queue)
      && exists before, after :: before + locale.lower(Trim(f.query)) + after == locale.lower(job.kind + " " + job.queue + " " + job.status)
  {
    var text, query := Searchable(locale, job), locale.lower(Trim(f.query));
    if Includes(text, query) {
      var i :| 0 <= i <= |text| && OccursAt(text, query, i);
      assert text[..i] + query + text[i + |query|..] == text;
    }
    if before, after :| before + query + after == text {
      assert OccursAt(text, query, |before|);
    }
    if query == "" { assert "" + query + text == text; }
  }

  /** Filtering keeps the jobs that match, each where it stood. */
  lemma {:induction false} FilterIs(f: Filters, locale: Locale, jobs: seq<JobView>, job: JobView)
    ensures Filter(f, locale, []) == []
    ensures Filter(f, locale, jobs + [job]) == Filter(f, locale, jobs) + (if Matches(f, locale, job) then [job] else [])
    decreases |jobs|
  {
    hide Matches;
    if jobs == [] {
      assert [] + [job] == [job] && [job][1..] == [];
    } else {
      assert (jobs + [job])[1..] == jobs[1..] + [job];
      FilterIs(f, locale, jobs[1..], job);
    }
  }

  // ------------------------------------------------------------------- sort

  /** The number by which a sort orders ascending. */
  function Key(sort: Sort, locale: Locale, job: JobView): int {
    match sort
    case PriorityDesc => -job.priority
    case AttemptsDesc => -job.attempts
    case StatusAsc => locale.rank(job.status)
    case CreatedDesc => -job.created
  }

  function By(sort: Sort, locale: Locale): JobView -> int { (job: JobView) => Key(sort, locale, job) }

  function Insert<T>(x: T, xs: seq<T>, key: T -> int): seq<T> {
    if xs == [] || key(x) <= key(xs[0]) then [x] + xs else [xs[0]] + Insert(x, xs[1..], key)
  }

  /** Array.prototype.sort is stable: it keeps the order of equal keys. */
  function StableSort<T>(xs: seq<T>, key: T -> int): seq<T> {
    if xs == [] then [] else Insert(xs[0], StableSort(xs[1..], key), key)
  }

  ghost predicate Ordered<T>(xs: seq<T>, key: T -> int) {
    forall i, j :: 0 <= i < j < |xs| ==> key(xs[i]) <= key(xs[j])
  }

  /** The elements with a given key, in order. */
  function WithKey<T>(xs: seq<T>, key: T -> int, k: int): seq<T> {
    if xs == [] then [] else (if key(xs[0]) == k then [xs[0]] else []) + WithKey(xs[1..], key, k)
  }

  lemma {:induction false} InsertOrdered<T>(x: T, xs: seq<T>, key: T -> int)
    requires Ordered(xs, key)
    ensures Ordered(Insert(x, xs, key), key)
    ensures forall y :: y in Insert(x, xs, key) ==> y == x || y in xs
  {
    if xs != [] && key(x) > key(xs[0]) {
      assert Ordered(xs[1..], key);
      InsertOrdered(x, xs[1..], key);
      var r := Insert(x, xs[1..], key);
      forall i | 0 <= i < |r| ensures key(xs[0]) <= key(r[i]) {
        assert r[i] == x || r[i] in xs[1..];
      }
    } else {
      assert forall j :: 0 < j < |xs| ==> key(xs[0]) <= key(xs[j]);
    }
  }

  lemma {:induction false} InsertKeepsGroups<T>(x: T, xs: seq<T>, key: T -> int, k: int)
    ensures WithKey(Insert(x, xs, key), key, k) == (if key(x) == k then [x] else []) + WithKey(xs, key, k)
  {
    if xs != [] && key(x) > key(xs[0]) {
      var r := Insert(x, xs[1..], key);
      InsertKeepsGroups(x, xs[1..], key, k);
      assert ([xs[0]] + r)[1..] == r;
      assert [] + WithKey(xs[1..], key, k) == WithKey(xs[1..], key, k);
      assert [] + WithKey(r, key, k) == WithKey(r, key, k);
    } else {
      assert ([x] + xs)[1..] == xs;
    }
  }

  /** The sorted list is ordered, and for every key it has the same elements in
      the same order as before: a stable permutation. */
  lemma {:induction false} SortIsStable<T>(xs: seq<T>, key: T -> int)
    ensures Ordered(StableSort(xs, key), key)
    ensures forall k :: WithKey(StableSort(xs, key), key, k) == WithKey(xs, key, k)
  {
    if xs != [] {
      SortIsStable(xs[1..], key);
      InsertOrdered(xs[0], StableSort(xs[1..], key), key);
      forall k ensures WithKey(StableSort(xs, key), key, k) == WithKey(xs, key, k) {
        InsertKeepsGroups(xs[0], StableSort(xs[1..], key), key, k);
      }
    }
  }

  lemma {:induction false} MinimumHeadsItsGroup<T>(xs: seq<T>, ys: seq<T>, key: T -> int)
    requires Ordered(xs, key) && Ordered(ys, key) && (forall k :: WithKey(xs, key, k) == WithKey(ys, key, k))
    requires xs != []
    ensures ys != [] && ys[0] == xs[0]
  {
    var k := key(xs[0]);
    assert WithKey(xs, key, k)[0] == xs[0];
    GroupMember(ys, key, k);
    GroupMember(xs, key, key(ys[0]));
  }

  lemma {:induction false} GroupMember<T>(xs: seq<T>, key: T -> int, k: int)
    requires WithKey(xs, key, k) != []
    ensures exists i :: 0 <= i < |xs| && key(xs[i]) == k && xs[i] == WithKey(xs, key, k)[0] && forall j :: 0 <= j < i ==> key(xs[j]) != k
  {
    if key(xs[0]) != k {
      GroupMember(xs[1..], key, k);
      var i :| 0 <= i < |xs[1..]| && key(xs[1..][i]) == k && xs[1..][i] == WithKey(xs[1..], key, k)[0]
               && forall j :: 0 <= j < i ==> key(xs[1..][j]) != k;
      assert xs[i + 1] == xs[1..][i];
      forall j | 0 <= j < i + 1 ensures key(xs[j]) != k { if j > 0 { assert xs[j] == xs[1..][j - 1]; } }
    } else {
      assert key(xs[0]) == k && xs[0] == WithKey(xs, key, k)[0];
    }
  }

  /** Being ordered and stable determines the result: any sort with these two
      properties shows the same table. */
  lemma {:induction false} StableOrderIsUnique<T>(xs: seq<T>, ys: seq<T>, key: T -> int)
    requires Ordered(xs, key) && Ordered(ys, key) && (forall k :: WithKey(xs, key, k) == WithKey(ys, key, k))
    ensures xs == ys
    decreases |xs|
  {
    if xs == [] {
      if ys != [] { MinimumHeadsItsGroup(ys, xs, key); }
    } else {
      MinimumHeadsItsGroup(xs, ys, key);
      forall k ensures WithKey(xs[1..], key, k) == WithKey(ys[1..], key, k) {
        assert WithKey(xs, key, k) == WithKey(ys, key, k);
        if key(xs[0]) == k {
          assert WithKey(xs, key, k)[1..] == WithKey(xs[1..], key, k);
          assert WithKey(ys, key, k)[1..] == WithKey(ys[1..], key, k);
        } else {
          assert [] + WithKey(xs[1..], key, k) == WithKey(xs[1..], key, k);
          assert [] + WithKey(ys[1..], key, k) == WithKey(ys[1..], key, k);
        }
      }
      StableOrderIsUnique(xs[1..], ys[1..], key);
    }
  }

  // ------------------------------------------------------------------ pages

  /** Array.prototype.slice: negative positions count from the end. */
  function Slice<T>(xs: seq<T>, start: int, end: int): seq<T> {
    var from := if start < 0 then Max(0, |xs| + start) else Min(start, |xs|);
    var to := if end < 0 then Max(0, |xs| + end) else Min(end, |xs|);
    if from < to then xs[from..to] else []
  }

  function Sorted(f: Filters, locale: Locale, jobs: seq<JobView>): seq<JobView> {
    StableSort(Filter(f, locale, jobs), By(f.sort, locale))
  }

  function PageCount(n: nat, pageSize: int): int
    requires pageSize > 0
  {
    Max(1, (n + pageSize - 1) / pageSize)
  }

  function Page<T>(xs: seq<T>, pageSize: int, page: int): seq<T>
    requires pageSize > 0
  {
    var shown := Min(page, PageCount(|xs|, pageSize));
    var start := (shown - 1) * pageSize;
    Slice(xs, start, start + pageSize)
  }

  /** Pages 1..n in order. */
  function Pages<T>(xs: seq<T>, pageSize: int, n: nat): seq<T>
    requires pageSize > 0
  {
    if n == 0 then [] else Pages(xs, pageSize, n - 1) + Page(xs, pageSize, n)
  }

  lemma PageBounds(n: nat, pageSize: int)
    requires pageSize > 0
    ensures var count := PageCount(n, pageSize);
      n <= count * pageSize && (count - 1) * pageSize <= n && (n > 0 ==> (count - 1) * pageSize < n)
  {
    var q := (n + pageSize - 1) / pageSize;
    var r := (n + pageSize - 1) % pageSize;
    assert n + pageSize - 1 == q * pageSize + r;
    assert (q - 1) * pageSize == q * pageSize - pageSize;
    if n > 0 { OneAtLeast(n + pageSize - 1, pageSize); }
  }

  lemma OneAtLeast(x: int, d: int)
    requires 0 < d <= x
    ensures x / d >= 1
  {
  }

  lemma ScaleMonotone(a: int, b: int, d: int)
    requires a <= b && d > 0
    ensures a * d <= b * d
  {
  }

  lemma PageAt<T>(xs: seq<T>, pageSize: int, n: nat)
    requires pageSize > 0 && 1 <= n <= PageCount(|xs|, pageSize)
    ensures 0 <= (n - 1) * pageSize <= |xs| && n * pageSize == (n - 1) * pageSize + pageSize
    ensures Page(xs, pageSize, n) == xs[(n - 1) * pageSize..Min((n - 1) * pageSize + pageSize, |xs|)]
  {
    PageBounds(|xs|, pageSize);
    ScaleMonotone(n - 1, PageCount(|xs|, pageSize) - 1, pageSize);
    ScaleMonotone(0, n - 1, pageSize);
    assert n * pageSize == (n - 1) * pageSize + pageSize;
    hide PageCount;
  }

  lemma {:induction false} PagesArePrefix<T>(xs: seq<T>, pageSize: int, n: nat)
    requires pageSize > 0 && n <= PageCount(|xs|, pageSize)
    ensures 0 <= n * pageSize && Pages(xs, pageSize, n) == xs[..Min(n * pageSize, |xs|)]
  {
    hide PageCount, Page;
    if n > 0 {
      PagesArePrefix(xs, pageSize, n - 1);
      PageAt(xs, pageSize, n);
      var start := (n - 1) * pageSize;
      assert xs[..start] + xs[start..Min(start + pageSize, |xs|)] == xs[..Min(start + pageSize, |xs|)];
    }
  }

  /** Pages 1 to the page count, one after the other, are the whole list. */
  lemma PagesCoverList<T>(xs: seq<T>, pageSize: int)
    requires pageSize > 0
    ensures Pages(xs, pageSize, PageCount(|xs|, pageSize)) == xs
  {
    PagesArePrefix(xs, pageSize, PageCount(|xs|, pageSize));
    PageBounds(|xs|, pageSize);
  }

  /** A page from 1 on is never empty unless the list is, however far past the end
      the requested page lies. */
  lemma PageIsNotEmpty<T>(xs: seq<T>, pageSize: int, page: int)
    requires pageSize > 0 && page >= 1 && xs != []
    ensures Page(xs, pageSize, page) != []
  {
    PageBounds(|xs|, pageSize);
    var shown := Min(page, PageCount(|xs|, pageSize));
    ScaleMonotone(shown - 1, PageCount(|xs|, pageSize) - 1, pageSize);
    ScaleMonotone(0, shown - 1, pageSize);
  }

  /** The page shown, for a requested page from 1 on: that page, or the last one when
      there are not so many; `pageSize` jobs, fewer only on the last. */
  lemma PageIs<T>(xs: seq<T>, pageSize: int, page: int)
    requires pageSize > 0 && page >= 1
    ensures var count := PageCount(|xs|, pageSize);
      && count >= 1 && (count - 1) * pageSize <= |xs| <= count * pageSize && (xs != [] ==> (count - 1) * pageSize < |xs|)
    ensures var shown := if page <= PageCount(|xs|, pageSize) then page else PageCount(|xs|, pageSize);
      && 0 <= (shown - 1) * pageSize <= |xs|
      && Page(xs, pageSize, page) ==
           xs[(shown - 1) * pageSize..if (shown - 1) * pageSize + pageSize <= |xs| then (shown - 1) * pageSize + pageSize else |xs|]
  {
    var count := PageCount(|xs|, pageSize);
    PageBounds(|xs|, pageSize);
    var shown := if page <= count then page else count;
    PageAt(xs, pageSize, shown);
  }

  /** What each sort option means for two rows of the table, the upper one first. */
  ghost predicate RowsInOrder(sort: Sort, locale: Locale, upper: JobView, lower: JobView) {
    && (sort == PriorityDesc ==> upper.priority >= lower.priority)
    && (sort == AttemptsDesc ==> upper.attempts >= lower.attempts)
    && (sort == StatusAsc ==> locale.rank(upper.status) <= locale.rank(lower.status))
    && (sort == CreatedDesc ==> upper.created >= lower.created)
  }

  /** The rows stand in the order of the chosen column: highest priority, most
      attempts or newest first, or statuses in collation order; and rows that are
      equal in that column stand as they came. */
  lemma TableIsInOrder(f: Filters, locale: Locale, jobs: seq<JobView>, i: nat, j: nat)
    requires i < j < |Sorted(f, locale, jobs)|
    ensures RowsInOrder(f.sort, locale, Sorted(f, locale, jobs)[i], Sorted(f, locale, jobs)[j])
  {
    SortIsStable(Filter(f, locale, jobs), By(f.sort, locale));
    var table, key := Sorted(f, locale, jobs), By(f.sort, locale);
    assert key(table[i]) <= key(table[j]);
  }

  lemma {:induction false} FilterKeepsMatches(f: Filters, locale: Locale, jobs: seq<JobView>)
    ensures forall job :: job in Filter(f, locale, jobs) <==> job in jobs && Matches(f, locale, job)
  {
    if jobs != [] { FilterKeepsMatches(f, locale, jobs[1..]); }
  }

  lemma {:induction false} GroupsKeepMembers<T>(xs: seq<T>, key: T -> int, x: T)
    ensures x in xs <==> x in WithKey(xs, key, key(x))
  {
    if xs != [] { GroupsKeepMembers(xs[1..], key, x); }
  }

  /** Going through all the pages shows exactly the jobs that match the filters,
      ordered by the chosen column, equal ones in the order they came. */
  lemma TableIsComplete(f: Filters, locale: Locale, jobs: seq<JobView>)
    requires f.pageSize > 0
    ensures var table := Sorted(f, locale, jobs);
      && Pages(table, f.pageSize, PageCount(|table|, f.pageSize)) == table
      && Ordered(table, By(f.sort, locale))
      && (forall k :: WithKey(table, By(f.sort, locale), k) == WithKey(Filter(f, locale, jobs), By(f.sort, locale), k))
      && (forall job :: job in table <==> job in jobs && Matches(f, locale, job))
  {
    var key := By(f.sort, locale);
    var table := Sorted(f, locale, jobs);
    PagesCoverList(table, f.pageSize);
    SortIsStable(Filter(f, locale, jobs), key);
    FilterKeepsMatches(f, locale, jobs);
    forall job ensures job in table <==> job in Filter(f, locale, jobs) {
      GroupsKeepMembers(table, key, job);
      GroupsKeepMembers(Filter(f, locale, jobs), key, job);
    }
  }
}
