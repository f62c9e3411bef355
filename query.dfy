/**
 * `findAll`: the four optional AND-filters, each applied only when its value is truthy,
 * ordering by `createdAt` descending, the `skip`/`take` page and the page count, all over
 * the sequence of stored rows.
 */
module Query {
  import opened Wrappers
  import opened Text
  import opened Entity
  import opened FilterDto
  import opened Store

  datatype PaginatedResponse = PaginatedResponse(items: seq<JobOffer>, total: nat, page: int, totalPages: nat)

  /** A string filter takes part only when it is present and not "" (JavaScript truthiness). */
  predicate TextActive(o: Option<string>) { o.Some? && o.value != "" }

  /** A number filter takes part only when it is present and not 0. */
  predicate NumberActive(o: Option<int>) { o.Some? && o.value != 0 }

  /** `column ILIKE '%needle%'`, with ASCII case folding. */
  predicate ILikeContains(column: string, needle: string) {
    Contains(Lower(column), Lower(needle))
  }

  /** The WHERE clause; a NULL column fails every comparison made on it. */
  predicate Matches(row: JobOffer, f: FilterJobOffersDto) {
    && (TextActive(f.title) ==> ILikeContains(row.title, f.title.value))
    && (TextActive(f.location) ==> row.location.Some? && ILikeContains(row.location.value, f.location.value))
    && (NumberActive(f.minSalary) ==> row.minSalary.Some? && row.minSalary.value >= f.minSalary.value)
    && (NumberActive(f.maxSalary) ==> row.maxSalary.Some? && row.maxSalary.value <= f.maxSalary.value)
  }

  /** The matching rows, in store order, each as often as it is stored. */
  function Filter(rows: seq<JobOffer>, f: FilterJobOffersDto): (r: seq<JobOffer>)
    ensures |r| <= |rows|
  {
    if rows == [] then []
    else (if Matches(rows[0], f) then [rows[0]] else []) + Filter(rows[1..], f)
  }

  /** Each matching row is kept as often as it is stored, and no other row is kept. */
  lemma {:induction false} FilterCounts(rows: seq<JobOffer>, f: FilterJobOffersDto)
    ensures forall x :: multiset(Filter(rows, f))[x] == if Matches(x, f) then multiset(rows)[x] else 0
  {
    if rows != [] {
      FilterCounts(rows[1..], f);
      assert rows == [rows[0]] + rows[1..];
    }
  }

  predicate SortedNewestFirst(s: seq<JobOffer>) {
    forall i, j :: 0 <= i < j < |s| ==> s[i].createdAt >= s[j].createdAt
  }

  predicate CreatedIncreasing(s: seq<JobOffer>) {
    forall i, j :: 0 <= i < j < |s| ==> s[i].createdAt < s[j].createdAt
  }

  /** Place x before the first element that is not newer than it. */
  function InsertNewestFirst(x: JobOffer, s: seq<JobOffer>): (r: seq<JobOffer>)
    ensures |r| == |s| + 1
    ensures multiset(r) == multiset(s) + multiset{x}
  {
    if s == [] || s[0].createdAt <= x.createdAt then [x] + s
    else
      assert s == [s[0]] + s[1..];
      [s[0]] + InsertNewestFirst(x, s[1..])
  }

  lemma {:induction false} InsertKeepsSorted(x: JobOffer, s: seq<JobOffer>)
    requires SortedNewestFirst(s)
    ensures SortedNewestFirst(InsertNewestFirst(x, s))
  {
    if s == [] || s[0].createdAt <= x.createdAt {
    } else {
      var t := InsertNewestFirst(x, s[1..]);
      InsertKeepsSorted(x, s[1..]);
      HeadNotOlder(x, s, t);
      var r := [s[0]] + t;
      assert r == InsertNewestFirst(x, s);
      forall i, j | 0 <= i < j < |r| ensures r[i].createdAt >= r[j].createdAt {
        assert r[j] == t[j - 1];
        if i > 0 {
          assert r[i] == t[i - 1];
        }
      }
    }
  }

  /** The head of a sorted s is not older than anything inserted behind it. */
  lemma HeadNotOlder(x: JobOffer, s: seq<JobOffer>, t: seq<JobOffer>)
    requires SortedNewestFirst(s) && s != [] && s[0].createdAt > x.createdAt
    requires multiset(t) == multiset(s[1..]) + multiset{x}
    ensures forall k :: 0 <= k < |t| ==> s[0].createdAt >= t[k].createdAt
  {
    forall k | 0 <= k < |t| ensures s[0].createdAt >= t[k].createdAt {
      var y := t[k];
      assert y in multiset(t);
      if y != x {
        assert y in multiset(s[1..]);
        var m :| 0 <= m < |s| - 1 && s[1..][m] == y;
        assert s[m + 1] == y;
      }
    }
  }

  /** `ORDER BY createdAt DESC`, as an insertion sort. */
  function SortNewestFirst(s: seq<JobOffer>): (r: seq<JobOffer>)
    ensures |r| == |s|
    ensures multiset(r) == multiset(s)
    ensures SortedNewestFirst(r)
  {
    if s == [] then []
    else
      assert s == [s[0]] + s[1..];
      InsertKeepsSorted(s[0], SortNewestFirst(s[1..]));
      InsertNewestFirst(s[0], SortNewestFirst(s[1..]))
  }

  function Reverse(s: seq<JobOffer>): (r: seq<JobOffer>)
    ensures |r| == |s| && forall k :: 0 <= k < |s| ==> r[k] == s[|s| - 1 - k]
  {
    if s == [] then [] else Reverse(s[1..]) + [s[0]]
  }

  /** All matching rows in result order. */
  function Ordered(rows: seq<JobOffer>, f: FilterJobOffersDto): seq<JobOffer> {
    SortNewestFirst(Filter(rows, f))
  }

  function Min(a: int, b: int): int { if a <= b then a else b }

  /** `skip(skip).take(take)` over an ordered result. */
  function Window(s: seq<JobOffer>, skip: nat, take: nat): (r: seq<JobOffer>)
    ensures |r| <= take
    ensures skip <= |s| ==> |r| == Min(take, |s| - skip)
    ensures skip >= |s| ==> r == []
    ensures r != [] ==> skip + |r| <= |s|
    ensures forall k :: 0 <= k < |r| ==> r[k] == s[skip + k]
  {
    s[Min(skip, |s|)..Min(skip + take, |s|)]
  }

  /** q is the least count of limit-sized pages that holds total rows. */
  predicate IsPageCount(q: nat, total: nat, limit: int) {
    && q * limit >= total
    && (total > 0 ==> (q - 1) * limit < total)
    && (total == 0 <==> q == 0)
  }

  /** `Math.ceil(total / limit)` for a whole total and a positive limit. */
  function CeilDiv(total: nat, limit: int): (q: nat)
    requires limit >= 1
    ensures IsPageCount(q, total, limit)
  {
    var q := (total + limit - 1) / limit;
    var r := (total + limit - 1) % limit;
    assert total + limit - 1 == q * limit + r && 0 <= r < limit;
    assert (q - 1) * limit == q * limit - limit;
    q
  }

  /** The number of rows `findAll` skips: `(page - 1) * limit`. */
  function Skip(f: FilterJobOffersDto): nat
    requires IsValid(f)
  {
    assert PageOf(f) - 1 >= 0 && LimitOf(f) >= 1;
    (PageOf(f) - 1) * LimitOf(f)
  }

  /** `findAll` over the stored rows. */
  function FindAll(rows: seq<JobOffer>, f: FilterJobOffersDto): (r: PaginatedResponse)
    requires IsValid(f)
    ensures r.page == PageOf(f)
    ensures r.total == |Filter(rows, f)|
    ensures IsPageCount(r.totalPages, r.total, LimitOf(f))
    ensures |r.items| <= LimitOf(f)
  {
    var page, limit := PageOf(f), LimitOf(f);
    var ordered := Ordered(rows, f);
    var skip := Skip(f);
    var items := Window(ordered, skip, limit);
    PaginatedResponse(items, |ordered|, page, CeilDiv(|ordered|, limit))
  }

  /**
   * The page holds the rows of the ordered result from position `(page - 1) * limit` on:
   * a full page while enough rows remain, the rest on the last page, nothing past the end.
   */
  lemma FindAllSlice(rows: seq<JobOffer>, f: FilterJobOffersDto)
    requires IsValid(f)
    ensures var r, skip := FindAll(rows, f), Skip(f);
            && (skip <= r.total ==> |r.items| == Min(LimitOf(f), r.total - skip))
            && (skip >= r.total ==> r.items == [])
            && forall k :: 0 <= k < |r.items| ==>
                 skip + k < |Ordered(rows, f)| && r.items[k] == Ordered(rows, f)[skip + k]
  {
    FindAllIsWindow(rows, f);
  }

  /** Every row on a page is a stored row that matches the filter, and the page is newest first. */
  lemma FindAllItems(rows: seq<JobOffer>, f: FilterJobOffersDto)
    requires IsValid(f)
    ensures var items := FindAll(rows, f).items;
            && (forall x :: x in items ==> x in rows && Matches(x, f))
            && SortedNewestFirst(items)
  {
    WindowOfOrdered(rows, f, Skip(f), LimitOf(f));
  }

  /** A window of the ordered result holds matching stored rows, newest first. */
  lemma WindowOfOrdered(rows: seq<JobOffer>, f: FilterJobOffersDto, skip: nat, take: nat)
    ensures var w := Window(Ordered(rows, f), skip, take);
            && (forall x :: x in w ==> x in rows && Matches(x, f))
            && SortedNewestFirst(w)
  {
    var ordered := Ordered(rows, f);
    var w := Window(ordered, skip, take);
    FilterCounts(rows, f);
    forall x | x in w ensures x in rows && Matches(x, f) {
      var k :| 0 <= k < |w| && w[k] == x;
      assert ordered[skip + k] == x;
      assert x in multiset(ordered);
      assert x in multiset(rows);
    }
    forall i, j | 0 <= i < j < |w| ensures w[i].createdAt >= w[j].createdAt {
      assert w[i] == ordered[skip + i] && w[j] == ordered[skip + j];
    }
  }

  /** The filter reads neither `page` nor `limit`. */
  lemma {:induction false} FilterIgnoresPaging(rows: seq<JobOffer>, f: FilterJobOffersDto, page: Option<int>, limit: Option<int>)
    ensures Filter(rows, f.(page := page, limit := limit)) == Filter(rows, f)
  {
    if rows != [] {
      FilterIgnoresPaging(rows[1..], f, page, limit);
    }
  }

  /** `total` and `totalPages` do not depend on which page is asked for. */
  lemma TotalIgnoresPage(rows: seq<JobOffer>, f: FilterJobOffersDto, page: int)
    requires IsValid(f) && page >= 1
    ensures FindAll(rows, f.(page := Some(page))).total == FindAll(rows, f).total
    ensures FindAll(rows, f.(page := Some(page))).totalPages == FindAll(rows, f).totalPages
  {
    FilterIgnoresPaging(rows, f, Some(page), f.limit);
    var g := f.(page := Some(page));
    assert g == f.(page := Some(page), limit := f.limit);
    assert LimitOf(g) == LimitOf(f);
  }

  /** When no filter is truthy every stored row is counted. */
  lemma {:induction false} NoFilterKeepsAll(rows: seq<JobOffer>, f: FilterJobOffersDto)
    requires !TextActive(f.title) && !TextActive(f.location)
    requires !NumberActive(f.minSalary) && !NumberActive(f.maxSalary)
    ensures Filter(rows, f) == rows
  {
    if rows != [] {
      NoFilterKeepsAll(rows[1..], f);
      assert rows == [rows[0]] + rows[1..];
    }
  }

  /** The rows `findAll` returns for page n of the same request. */
  function PageItems(rows: seq<JobOffer>, f: FilterJobOffersDto, n: nat): seq<JobOffer>
    requires IsValid(f) && n >= 1
  {
    FindAll(rows, f.(page := Some(n))).items
  }

  /** Asking for page m + 1 keeps the request valid and its limit, and skips m pages. */
  lemma PageSkip(f: FilterJobOffersDto, m: nat)
    requires IsValid(f)
    ensures IsValid(f.(page := Some(m + 1)))
    ensures LimitOf(f.(page := Some(m + 1))) == LimitOf(f)
    ensures Skip(f.(page := Some(m + 1))) == m * LimitOf(f)
  {
  }

  /** The page is the window of the ordered result at `Skip`. */
  lemma FindAllIsWindow(rows: seq<JobOffer>, f: FilterJobOffersDto)
    requires IsValid(f)
    ensures FindAll(rows, f).items == Window(Ordered(rows, f), Skip(f), LimitOf(f))
  {
  }

  /** A row position below total lies on a page numbered at most the page count. */
  lemma PageWithinCount(i: nat, total: nat, limit: int, pages: nat)
    requires limit >= 1 && i < total && IsPageCount(pages, total, limit)
    ensures i / limit < pages
  {
    assert i < pages * limit;
  }

  /** Page m + 1 of a request is the window of the ordered result after m full pages. */
  lemma PageIsWindow(rows: seq<JobOffer>, f: FilterJobOffersDto, m: nat)
    requires IsValid(f)
    ensures PageItems(rows, f, m + 1) == Window(Ordered(rows, f), m * LimitOf(f), LimitOf(f))
  {
    var g := f.(page := Some(m + 1));
    PageSkip(f, m);
    FilterIgnoresPaging(rows, f, Some(m + 1), f.limit);
    assert g == f.(page := Some(m + 1), limit := f.limit);
    FindAllIsWindow(rows, g);
  }

  /** Pages 1 to n of the same request, one after the other. */
  function AllPages(rows: seq<JobOffer>, f: FilterJobOffersDto, n: nat): seq<JobOffer>
    requires IsValid(f)
  {
    if n == 0 then [] else AllPages(rows, f, n - 1) + PageItems(rows, f, n)
  }

  /** How many rows of a total the first n pages of a given size show. */
  function Shown(n: nat, limit: nat, total: nat): (k: nat)
    ensures k <= total
  {
    if n == 0 then 0 else Min(Shown(n - 1, limit, total) + limit, total)
  }

  /** The first n pages show n * limit rows, or all of them when there are fewer. */
  lemma {:induction false} ShownIsMin(n: nat, limit: nat, total: nat)
    ensures Shown(n, limit, total) == Min(n * limit, total)
  {
    if n > 0 {
      ShownIsMin(n - 1, limit, total);
      assert (n - 1) * limit + limit == n * limit;
    }
  }

  /** The window after m full pages runs from what m pages show to what m + 1 pages show. */
  lemma PageSlice(o: seq<JobOffer>, m: nat, limit: nat)
    ensures Window(o, m * limit, limit) == o[Shown(m, limit, |o|)..Shown(m + 1, limit, |o|)]
  {
    ShownIsMin(m, limit, |o|);
    ShownIsMin(m + 1, limit, |o|);
    assert m * limit + limit == (m + 1) * limit;
  }

  /** Page m + 1 is the slice of the ordered result between what m and m + 1 pages show. */
  lemma PageSpan(rows: seq<JobOffer>, f: FilterJobOffersDto, m: nat)
    requires IsValid(f)
    ensures var o := Ordered(rows, f);
            PageItems(rows, f, m + 1) == o[Shown(m, LimitOf(f), |o|)..Shown(m + 1, LimitOf(f), |o|)]
  {
    PageIsWindow(rows, f, m);
    PageSlice(Ordered(rows, f), m, LimitOf(f));
  }

  /** The first n pages together are the first rows of the ordered result, as many as they show. */
  lemma {:induction false} AllPagesPrefix(rows: seq<JobOffer>, f: FilterJobOffersDto, n: nat)
    requires IsValid(f)
    ensures AllPages(rows, f, n) == Ordered(rows, f)[..Shown(n, LimitOf(f), |Ordered(rows, f)|)]
  {
    if n > 0 {
      var m: nat := n - 1;
      var o := Ordered(rows, f);
      AllPagesPrefix(rows, f, m);
      PageSpan(rows, f, m);
      PrefixExtend(o, Shown(m, LimitOf(f), |o|), Shown(n, LimitOf(f), |o|));
    }
  }

  /** Item k of a slice that starts at lo is item lo + k of the whole. */
  lemma SliceIndex(o: seq<JobOffer>, lo: nat, hi: nat, k: nat, i: nat)
    requires i == lo + k && i < hi <= |o|
    ensures o[lo..hi][k] == o[i]
  {
  }

  /** A prefix followed by the next slice is the longer prefix. */
  lemma PrefixExtend(o: seq<JobOffer>, i: nat, j: nat)
    requires i <= j <= |o|
    ensures o[..i] + o[i..j] == o[..j]
  {
  }

  /**
   * Reading pages 1 to totalPages in turn returns every matching row exactly once, in
   * result order: the concatenation is the whole ordered result.
   */
  lemma PagesCoverResult(rows: seq<JobOffer>, f: FilterJobOffersDto)
    requires IsValid(f)
    ensures AllPages(rows, f, FindAll(rows, f).totalPages) == Ordered(rows, f)
    ensures multiset(AllPages(rows, f, FindAll(rows, f).totalPages)) == multiset(Filter(rows, f))
  {
    var o, pages := Ordered(rows, f), FindAll(rows, f).totalPages;
    AllPagesPrefix(rows, f, pages);
    ShownIsMin(pages, LimitOf(f), |o|);
    assert o[..|o|] == o;
  }

  /** The page that row i of the ordered result falls on. */
  function PageOfRow(f: FilterJobOffersDto, i: nat): (p: nat)
    requires IsValid(f)
    ensures p >= 1
  {
    i / LimitOf(f) + 1
  }

  /** Row i lies on the page after i / limit full pages, at position i % limit. */
  lemma RowInSpan(total: nat, limit: nat, i: nat, q: nat)
    requires limit >= 1 && i < total && q == i / limit
    ensures Shown(q, limit, total) + i % limit == i
    ensures i < Shown(q + 1, limit, total)
  {
    var k := i % limit;
    var lo, hi := q * limit, (q + 1) * limit;
    assert i == lo + k && k < limit;
    assert hi == lo + limit;
    ShownIsMin(q, limit, total);
    ShownIsMin(q + 1, limit, total);
    assert Min(lo, total) == lo;
  }

  /** The page of every row of the ordered result is within `totalPages`. */
  lemma RowPageWithinCount(rows: seq<JobOffer>, f: FilterJobOffersDto, i: nat)
    requires IsValid(f) && i < |Ordered(rows, f)|
    ensures PageOfRow(f, i) <= FindAll(rows, f).totalPages
  {
    PageWithinCount(i, |Ordered(rows, f)|, LimitOf(f), FindAll(rows, f).totalPages);
  }

  /**
   * Every matching row is returned exactly where pagination puts it: row i of the ordered
   * result is item i % limit of page i / limit + 1.
   */
  lemma RowOnItsPage(rows: seq<JobOffer>, f: FilterJobOffersDto, i: nat)
    requires IsValid(f) && i < |Ordered(rows, f)|
    ensures var items := PageItems(rows, f, PageOfRow(f, i));
            i % LimitOf(f) < |items| && items[i % LimitOf(f)] == Ordered(rows, f)[i]
  {
    var limit := LimitOf(f);
    var o := Ordered(rows, f);
    var m := PageOfRow(f, i) - 1;
    PageSpan(rows, f, m);
    RowInSpan(|o|, limit, i, m);
    var lo, k := Shown(m, limit, |o|), i % limit;
    SliceIndex(o, lo, Shown(m + 1, limit, |o|), k, i);
  }

  /** A filtered sequence keeps the order of creation times. */
  lemma {:induction false} FilterKeepsIncreasing(rows: seq<JobOffer>, f: FilterJobOffersDto)
    requires CreatedIncreasing(rows)
    ensures CreatedIncreasing(Filter(rows, f))
  {
    if rows != [] {
      var tail := rows[1..];
      var rest := Filter(tail, f);
      FilterKeepsIncreasing(tail, f);
      FilteredTailNewer(rows, f);
      if Matches(rows[0], f) {
        var r := Filter(rows, f);
        assert r == [rows[0]] + rest;
        forall i, j | 0 <= i < j < |r| ensures r[i].createdAt < r[j].createdAt {
          assert r[j] == rest[j - 1];
          if i > 0 {
            assert r[i] == rest[i - 1];
          }
        }
      }
    }
  }

  /** Every row kept from the tail is newer than the first row. */
  lemma FilteredTailNewer(rows: seq<JobOffer>, f: FilterJobOffersDto)
    requires CreatedIncreasing(rows) && rows != []
    ensures forall k :: 0 <= k < |Filter(rows[1..], f)| ==> rows[0].createdAt < Filter(rows[1..], f)[k].createdAt
  {
    var tail := rows[1..];
    var rest := Filter(tail, f);
    FilterCounts(tail, f);
    forall k | 0 <= k < |rest| ensures rows[0].createdAt < rest[k].createdAt {
      assert rest[k] in multiset(rest);
      assert rest[k] in tail;
      var j :| 0 <= j < |tail| && tail[j] == rest[k];
      assert rows[j + 1] == rest[k];
    }
  }

  /** Inserting a row older than all others puts it last. */
  lemma {:induction false} InsertOldest(x: JobOffer, s: seq<JobOffer>)
    requires forall k :: 0 <= k < |s| ==> x.createdAt < s[k].createdAt
    ensures InsertNewestFirst(x, s) == s + [x]
  {
    if s != [] {
      InsertOldest(x, s[1..]);
      assert s == [s[0]] + s[1..];
    }
  }

  /** Sorting rows created in increasing order reverses them. */
  lemma {:induction false} SortIncreasingIsReverse(s: seq<JobOffer>)
    requires CreatedIncreasing(s)
    ensures SortNewestFirst(s) == Reverse(s)
  {
    if s != [] {
      SortIncreasingIsReverse(s[1..]);
      InsertOldest(s[0], Reverse(s[1..]));
    }
  }

  /**
   * Rows are stored in creation order, so the result of `findAll` is the matching rows
   * in reverse store order.
   */
  lemma OrderedIsReverseOfStore(rows: seq<JobOffer>, f: FilterJobOffersDto)
    requires CreatedIncreasing(rows)
    ensures Ordered(rows, f) == Reverse(Filter(rows, f))
  {
    FilterKeepsIncreasing(rows, f);
    SortIncreasingIsReverse(Filter(rows, f));
  }

  /** A valid table stores its rows in creation order. */
  lemma ValidRowsIncreasing(t: Table)
    requires TableValid(t)
    ensures CreatedIncreasing(t.rows)
  {
  }

  /**
   * Over a valid table, `findAll`'s order has no ties: the matching rows come strictly newest
   * first, in reverse store order.
   */
  lemma StoredResultStrictlyNewestFirst(t: Table, f: FilterJobOffersDto)
    requires TableValid(t)
    ensures Ordered(t.rows, f) == Reverse(Filter(t.rows, f))
    ensures var o := Ordered(t.rows, f);
            forall i, j :: 0 <= i < j < |o| ==> o[i].createdAt > o[j].createdAt
  {
    ValidRowsIncreasing(t);
    OrderedIsReverseOfStore(t.rows, f);
    FilterKeepsIncreasing(t.rows, f);
  }
}
