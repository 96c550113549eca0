/**
 * Row selection, descending ordering and the page arithmetic shared by the list
 * queries of both routers.
 */
module Listing {
  import opened Results

  // ----- selecting rows -----

  /** The rows whose owning key is `id`. */
  function Select<T(!new)>(xs: seq<T>, owner: T -> string, id: string): (r: seq<T>)
    ensures forall x :: x in r <==> x in xs && owner(x) == id
  {
    if xs == [] then []
    else if owner(xs[0]) == id then [xs[0]] + Select(xs[1..], owner, id)
    else Select(xs[1..], owner, id)
  }

  /** The rows whose owning key is not `id` (a `deleteMany` on that key). */
  function Drop<T(!new)>(xs: seq<T>, owner: T -> string, id: string): (r: seq<T>)
    ensures forall x :: x in r <==> x in xs && owner(x) != id
  {
    if xs == [] then []
    else if owner(xs[0]) != id then [xs[0]] + Drop(xs[1..], owner, id)
    else Drop(xs[1..], owner, id)
  }

  /** Nothing is selected when no row has the owner. */
  lemma NoneSelected<T(!new)>(xs: seq<T>, owner: T -> string, id: string)
    requires forall x :: x in xs ==> owner(x) != id
    ensures Select(xs, owner, id) == []
  {
  }

  lemma {:induction false} SelectAppend<T(!new)>(xs: seq<T>, ys: seq<T>, owner: T -> string, id: string)
    ensures Select(xs + ys, owner, id) == Select(xs, owner, id) + Select(ys, owner, id)
  {
    if xs == [] {
      assert xs + ys == ys;
    } else {
      var zs := xs + ys;
      assert zs != [] && zs[0] == xs[0] && zs[1..] == xs[1..] + ys;
      var rest := Select(xs[1..] + ys, owner, id);
      SelectAppend(xs[1..], ys, owner, id);
      assert rest == Select(xs[1..], owner, id) + Select(ys, owner, id);
      if owner(xs[0]) == id {
        assert Select(zs, owner, id) == [xs[0]] + rest;
        assert Select(xs, owner, id) == [xs[0]] + Select(xs[1..], owner, id);
      } else {
        assert Select(zs, owner, id) == rest;
        assert Select(xs, owner, id) == Select(xs[1..], owner, id);
      }
    }
  }

  lemma {:induction false} SelectOfDrop<T(!new)>(xs: seq<T>, owner: T -> string, id: string, other: string)
    ensures Select(Drop(xs, owner, id), owner, other) == if other == id then [] else Select(xs, owner, other)
  {
    if xs != [] {
      SelectOfDrop(xs[1..], owner, id, other);
    }
  }

  lemma {:induction false} SelectAllOwned<T(!new)>(xs: seq<T>, owner: T -> string, id: string, other: string)
    requires forall k :: 0 <= k < |xs| ==> owner(xs[k]) == id
    ensures Select(xs, owner, other) == if other == id then xs else []
  {
    if xs != [] {
      SelectAllOwned(xs[1..], owner, id, other);
    }
  }

  /**
   * Replacing the rows of `id` by `inserted` (delete then insert): the rows of `id` become
   * exactly `inserted` and the rows of every other key are untouched.
   */
  lemma ReplaceRows<T(!new)>(xs: seq<T>, inserted: seq<T>, owner: T -> string, id: string, other: string)
    requires forall k :: 0 <= k < |inserted| ==> owner(inserted[k]) == id
    ensures Select(Drop(xs, owner, id) + inserted, owner, other)
            == if other == id then inserted else Select(xs, owner, other)
  {
    SelectAppend(Drop(xs, owner, id), inserted, owner, other);
    SelectOfDrop(xs, owner, id, other);
    SelectAllOwned(inserted, owner, id, other);
  }

  // ----- ordering -----

  /** `orderBy: { key: "desc" }`. */
  ghost predicate SortedDesc<T>(xs: seq<T>, key: T -> int) {
    forall i, j :: 0 <= i < j < |xs| ==> key(xs[i]) >= key(xs[j])
  }

  function Insert<T>(x: T, xs: seq<T>, key: T -> int): (r: seq<T>)
    requires SortedDesc(xs, key)
    ensures |r| == |xs| + 1
    ensures forall i :: 0 <= i < |r| ==> r[i] == x || r[i] in xs
    ensures SortedDesc(r, key)
    ensures multiset(r) == multiset(xs) + multiset{x}
  {
    if xs == [] then [x]
    else if key(x) >= key(xs[0]) then
      assert forall i :: 0 <= i < |xs| ==> key(x) >= key(xs[i]) by {
        forall i | 0 < i < |xs| ensures key(x) >= key(xs[i]) {
          assert key(xs[0]) >= key(xs[i]);
        }
      }
      ConsSorted(x, xs, key);
      [x] + xs
    else
      var rest := Insert(x, xs[1..], key);
      assert xs == [xs[0]] + xs[1..];
      HeadBoundsInsert(x, xs, rest, key);
      ConsSorted(xs[0], rest, key);
      [xs[0]] + rest
  }

  /** The head of a sorted list bounds every row of its tail with a smaller `x` inserted. */
  lemma HeadBoundsInsert<T>(x: T, xs: seq<T>, rest: seq<T>, key: T -> int)
    requires |xs| > 0 && SortedDesc(xs, key) && key(x) < key(xs[0])
    requires forall i :: 0 <= i < |rest| ==> rest[i] == x || rest[i] in xs[1..]
    ensures forall i :: 0 <= i < |rest| ==> key(xs[0]) >= key(rest[i])
  {
    forall i | 0 <= i < |rest| ensures key(xs[0]) >= key(rest[i]) {
      if rest[i] != x {
        var j :| 0 <= j < |xs[1..]| && xs[1..][j] == rest[i];
        assert xs[j + 1] == rest[i];
      }
    }
  }

  /** A row whose key is at least every key of a sorted list may go in front of it. */
  lemma ConsSorted<T>(y: T, ys: seq<T>, key: T -> int)
    requires SortedDesc(ys, key)
    requires forall i :: 0 <= i < |ys| ==> key(y) >= key(ys[i])
    ensures SortedDesc([y] + ys, key)
  {
    var zs := [y] + ys;
    forall i, j | 0 <= i < j < |zs| ensures key(zs[i]) >= key(zs[j]) {
      assert zs[j] == ys[j - 1];
      if i > 0 {
        assert zs[i] == ys[i - 1];
      }
    }
  }

  /** The rows ordered by descending key: sorted, and a permutation of the input. */
  function SortDesc<T>(xs: seq<T>, key: T -> int): (r: seq<T>)
    ensures SortedDesc(r, key)
    ensures multiset(r) == multiset(xs)
  {
    if xs == [] then []
    else
      assert xs == [xs[0]] + xs[1..];
      Insert(xs[0], SortDesc(xs[1..], key), key)
  }

  // ----- pages -----

  /** `Math.ceil(n / d)` on integers. */
  function CeilDiv(n: nat, d: nat): (r: nat)
    requires d >= 1
    ensures (r - 1) * d < n <= r * d
  {
    var q := (n + d - 1) / d;
    var rem := (n + d - 1) % d;
    assert n + d - 1 == q * d + rem && 0 <= rem < d;
    assert q * d == n + d - 1 - rem;
    q
  }

  /** The paginated answer of a list query. */
  datatype Page<T> = Page(
    items: seq<T>,
    page: int,
    pageSize: int,
    totalCount: nat,
    totalPages: nat,
    hasNextPage: bool,
    hasPreviousPage: bool)

  /** `skip: (page - 1) * pageSize`. */
  function Skip(page: int, pageSize: int): int {
    (page - 1) * pageSize
  }

  /** `skip` then `take` on ordered rows. */
  function Window<T>(xs: seq<T>, skip: nat, take: nat): (r: seq<T>)
    ensures |r| == if skip + take <= |xs| then take else if skip < |xs| then |xs| - skip else 0
    ensures forall i :: 0 <= i < |r| ==> skip + i < |xs| && r[i] == xs[skip + i]
  {
    if skip >= |xs| then []
    else if skip + take <= |xs| then xs[skip..skip + take]
    else xs[skip..]
  }

  /**
   * The list query's answer over the filtered, ordered rows. A page below 1 gives a
   * negative skip, which the database refuses.
   */
  function Paginate<T>(rows: seq<T>, page: int, pageSize: int): (r: Result<Page<T>>)
    requires pageSize >= 1
    ensures r.Err? <==> page < 1
    ensures r.Ok? ==> r.value == PageAt(rows, page, pageSize, Skip(page, pageSize))
  {
    var skip := Skip(page, pageSize);
    SkipSign(page, pageSize);
    if skip < 0 then
      Err(InvalidQuery("skip must not be negative"))
    else
      Ok(PageAt(rows, page, pageSize, skip))
  }

  /** `skip` is negative exactly for the pages below 1. */
  lemma SkipSign(page: int, pageSize: int)
    requires pageSize >= 1
    ensures Skip(page, pageSize) < 0 <==> page < 1
  {
    if page < 1 {
      assert (page - 1) * pageSize <= (page - 1) * 1;
    }
  }

  /** The page whose rows start at `skip`, with the counts over all rows. */
  function PageAt<T>(rows: seq<T>, page: int, pageSize: int, skip: nat): (p: Page<T>)
    requires pageSize >= 1
    ensures p.page == page && p.pageSize == pageSize && p.totalCount == |rows|
    ensures (p.totalPages - 1) * pageSize < |rows| <= p.totalPages * pageSize
    ensures p.items == Window(rows, skip, pageSize)
    ensures (p.hasNextPage <==> page < p.totalPages) && (p.hasPreviousPage <==> page > 1)
  {
    var totalPages := CeilDiv(|rows|, pageSize);
    Page(Window(rows, skip, pageSize), page, pageSize, |rows|, totalPages, page < totalPages, page > 1)
  }

  /** A window of ordered rows is itself ordered and holds only rows of the input. */
  lemma WindowOfSorted<T>(rows: seq<T>, skip: nat, take: nat, key: T -> int)
    requires SortedDesc(rows, key)
    ensures SortedDesc(Window(rows, skip, take), key)
    ensures forall x :: x in Window(rows, skip, take) ==> x in rows
  {
    var items := Window(rows, skip, take);
    forall i, j | 0 <= i < j < |items| ensures key(items[i]) >= key(items[j]) {
      assert items[i] == rows[skip + i] && items[j] == rows[skip + j];
    }
    forall x | x in items ensures x in rows {
      var i :| 0 <= i < |items| && items[i] == x;
      assert rows[skip + i] == x;
    }
  }

  /** `totalPages` is zero exactly when there are no rows. */
  lemma NoRowsNoPages(n: nat, d: nat)
    requires d >= 1
    ensures CeilDiv(n, d) == 0 <==> n == 0
  {
  }

  /** `hasNextPage` holds exactly when some row lies beyond the current page. */
  lemma HasNextPageIffMoreRows(n: nat, page: int, d: nat)
    requires d >= 1 && page >= 1
    ensures page < CeilDiv(n, d) <==> Skip(page, d) + d < n
  {
    var t := CeilDiv(n, d);
    assert Skip(page, d) + d == page * d;
    if page < t {
      assert page <= t - 1;
      MulMonotone(page, t - 1, d);
    } else {
      MulMonotone(t, page, d);
    }
  }

  lemma MulMonotone(a: int, b: int, d: nat)
    requires a <= b
    ensures a * d <= b * d
  {
    assert b * d - a * d == (b - a) * d;
  }

  /** Every row appears on exactly the page its index says, at the matching position. */
  lemma RowOnItsPage<T>(rows: seq<T>, pageSize: nat, j: nat)
    requires pageSize >= 1 && j < |rows|
    ensures var page := j / pageSize + 1;
            var p := Paginate(rows, page, pageSize);
            && p.Ok?
            && j % pageSize < |p.value.items|
            && p.value.items[j % pageSize] == rows[j]
  {
    var page := j / pageSize + 1;
    assert j == (j / pageSize) * pageSize + j % pageSize;
    assert Skip(page, pageSize) == (j / pageSize) * pageSize;
    var w := Window(rows, Skip(page, pageSize), pageSize);
    assert Skip(page, pageSize) <= j < |rows|;
    if Skip(page, pageSize) + pageSize <= |rows| {
      assert |w| == pageSize;
    } else {
      assert w == rows[Skip(page, pageSize)..];
    }
  }
}
