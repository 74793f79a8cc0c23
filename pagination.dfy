/** Paging of the listing routes: page and limit validation, the offset of a page, the count of
    matching rows and `totalPages`. */
module Pagination {
  import opened Js

  /** Neither number is NaN and both are at least 1. */
  predicate ValidPagination(page: JsNumber, limit: JsNumber) {
    page.Int? && limit.Int? && page.value >= 1 && limit.value >= 1
  }

  /** `(page - 1) * limit`, NaN when either is. */
  function Skip(page: JsNumber, limit: JsNumber): (s: JsNumber)
    ensures s.NaN? <==> page.NaN? || limit.NaN?
    ensures ValidPagination(page, limit) ==> s.Int? && 0 <= s.value
  {
    if page.NaN? || limit.NaN? then NaN
    else if page.value >= 1 && limit.value >= 1 then
      MultiplyMonotone(0, page.value - 1, limit.value);
      Int((page.value - 1) * limit.value)
    else Int((page.value - 1) * limit.value)
  }

  /** The `pagination`/`meta` object of a listing. */
  datatype PageMeta = PageMeta(total: nat, page: JsNumber, limit: JsNumber, totalPages: Option<int>)

  function Meta(total: nat, page: JsNumber, limit: JsNumber): (m: PageMeta)
    ensures m.total == total && m.page == page && m.limit == limit
    ensures m.totalPages.Some? <==> limit.Int? && limit.value != 0
    ensures ValidPagination(page, limit) ==>
      (m.totalPages.value - 1) * limit.value < total <= m.totalPages.value * limit.value
  {
    PageMeta(total, page, limit, CeilDiv(total, limit))
  }

  /** The rows a where-clause keeps, in their order. */
  function Filter<T(!new)>(rows: seq<T>, keep: T -> bool): (r: seq<T>)
    ensures |r| <= |rows|
    ensures forall x :: x in r <==> x in rows && keep(x)
  {
    if rows == [] then []
    else
      var rest := Filter(rows[..|rows| - 1], keep);
      assert rows == rows[..|rows| - 1] + [rows[|rows| - 1]];
      if keep(rows[|rows| - 1]) then rest + [rows[|rows| - 1]] else rest
  }

  /** Filtering keeps the order of the rows: it distributes over concatenation. */
  lemma {:induction false} FilterDistributes<T(!new)>(a: seq<T>, b: seq<T>, keep: T -> bool)
    ensures Filter(a + b, keep) == Filter(a, keep) + Filter(b, keep)
  {
    if b != [] {
      var init := b[..|b| - 1];
      FilterDistributes(a, init, keep);
      assert (a + b)[..|a + b| - 1] == a + init;
      assert (a + b)[|a + b| - 1] == b[|b| - 1];
    } else {
      assert a + b == a;
    }
  }

  /** `count()` under a where-clause. */
  function Count<T(!new)>(rows: seq<T>, keep: T -> bool): (n: nat)
    ensures n == |Filter(rows, keep)|
  {
    if rows == [] then 0
    else Count(rows[..|rows| - 1], keep) + (if keep(rows[|rows| - 1]) then 1 else 0)
  }

  /** A valid page has rows exactly when it is not past `totalPages`. */
  lemma PageHasRowsIffWithinTotalPages(total: nat, page: JsNumber, limit: JsNumber)
    requires ValidPagination(page, limit)
    ensures Skip(page, limit).value < total <==> page.value <= Meta(total, page, limit).totalPages.value
  {
    var p, l, tp := page.value, limit.value, Meta(total, page, limit).totalPages.value;
    var s := Skip(page, limit).value;
    assert s == (p - 1) * l;
    if p <= tp {
      assert (p - 1) * l <= (tp - 1) * l by {
        MultiplyMonotone(p - 1, tp - 1, l);
      }
    } else {
      assert tp * l <= (p - 1) * l by {
        MultiplyMonotone(tp, p - 1, l);
      }
    }
  }

  /** Consecutive pages are adjacent: each starts where the previous one's rows end. */
  lemma PagesTile(page: JsNumber, limit: JsNumber)
    requires ValidPagination(page, limit)
    ensures Skip(Int(page.value + 1), limit).value == Skip(page, limit).value + limit.value
  {
    assert page.value * limit.value == (page.value - 1) * limit.value + limit.value;
  }

  lemma MultiplyMonotone(a: int, b: int, c: int)
    requires a <= b && c >= 0
    ensures a * c <= b * c
  {
    assert b * c - a * c == (b - a) * c;
  }

  /** Counting under two where-clauses that agree on every row gives the same number. */
  lemma {:induction false} CountAgrees<T(!new)>(rows: seq<T>, f: T -> bool, g: T -> bool)
    requires forall x :: x in rows ==> f(x) == g(x)
    ensures Count(rows, f) == Count(rows, g)
  {
    if rows != [] {
      var init := rows[..|rows| - 1];
      assert forall x :: x in init ==> x in rows;
      CountAgrees(init, f, g);
    }
  }

  /** Appending a row counts it when it is kept. */
  lemma CountAppend<T(!new)>(rows: seq<T>, x: T, keep: T -> bool)
    ensures Count(rows + [x], keep) == Count(rows, keep) + (if keep(x) then 1 else 0)
  {
    assert (rows + [x])[..|rows + [x]| - 1] == rows;
  }

  function Min(a: int, b: int): int {
    if a <= b then a else b
  }

  /** The rows `skip`/`take` return from a table already in the listing's order. */
  function Window<T>(rows: seq<T>, offset: nat, count: nat): (w: seq<T>)
    ensures |w| == if offset >= |rows| then 0 else Min(count, |rows| - offset)
    ensures forall i :: 0 <= i < |w| ==> w[i] == rows[offset + i]
  {
    if offset >= |rows| then [] else rows[offset..Min(offset + count, |rows|)]
  }

  /** Two consecutive windows of a size make up the window of twice that size. */
  lemma WindowsTile<T>(rows: seq<T>, offset: nat, count: nat)
    ensures Window(rows, offset, count) + Window(rows, offset + count, count) == Window(rows, offset, 2 * count)
  {
    var a, b := Window(rows, offset, count), Window(rows, offset + count, count);
    var c := Window(rows, offset, 2 * count);
    assert |a + b| == |c|;
    forall i | 0 <= i < |c| ensures (a + b)[i] == c[i] {
      if i >= |a| {
        assert b[i - |a|] == rows[offset + count + (i - |a|)];
      }
    }
  }
}
