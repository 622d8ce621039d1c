/** Paging in GetFlats (lotrepository.go, lines 30, 82-96): the page count computed by the count
    query, and the LIMIT/OFFSET window of the page query. */
module Pagination {

  lemma MulDistributes(a: int, b: int, limit: int)
    ensures (a + b) * limit == a * limit + b * limit
  {
  }

  /** Multiplying by a positive factor keeps a strict order and back. */
  lemma MulStrict(a: int, b: int, limit: int)
    requires limit > 0
    ensures a < b <==> a * limit < b * limit
  {
    if a < b {
      MulDistributes(a, b - a, limit);
      assert (b - a) * limit > 0;
    } else {
      MulDistributes(b, a - b, limit);
      assert (a - b) * limit >= 0;
    }
  }

  lemma DivisionBounds(count: nat, limit: int)
    requires limit > 0
    ensures (count / limit) * limit <= count < (count / limit + 1) * limit
  {
    var q := count / limit;
    assert count == q * limit + count % limit;
    MulDistributes(q, 1, limit);
  }

  /** Line 82 as written: count/limit + 1, with the database's integer division (count is
      non-negative and limit positive here, so truncation and Euclidean division agree). */
  function NumPagesAsWritten(count: nat, limit: int): (pages: int)
    requires limit > 0
    ensures pages >= 1
    ensures (pages - 1) * limit <= count < pages * limit
  {
    DivisionBounds(count, limit);
    count / limit + 1
  }

  /** The number of pages the rows fill: the least n with n * limit >= count. */
  function NumPages(count: nat, limit: int): (pages: nat)
    requires limit > 0
    ensures count <= pages * limit
    ensures pages > 0 ==> (pages - 1) * limit < count
  {
    var q := (count + limit - 1) / limit;
    DivisionBounds(count + limit - 1, limit);
    MulDistributes(q, -1, limit);
    MulStrict(q, 0, limit);
    q
  }

  /** For exactly k full pages the formula as written reports k + 1 pages. */
  lemma AsWrittenOvercounts(k: nat, limit: int)
    requires limit > 0
    ensures NumPagesAsWritten(k * limit, limit) == k + 1
  {
    var p := NumPagesAsWritten(k * limit, limit);
    MulStrict(p - 1, k + 1, limit);
    MulDistributes(k, 1, limit);
    MulStrict(k, p, limit);
  }

  /** For exactly k full pages NumPages reports k pages. */
  lemma ExactPages(k: nat, limit: int)
    requires limit > 0
    ensures NumPages(k * limit, limit) == k
  {
    var p := NumPages(k * limit, limit);
    MulStrict(k, p, limit);
    if p > 0 {
      MulStrict(p - 1, k, limit);
    } else {
      MulStrict(0, k, limit);
    }
  }

  /** The count as written exceeds the least page count by exactly one when the rows fill their
      pages, and equals it otherwise. */
  lemma AsWrittenAndLeast(count: nat, limit: int)
    requires limit > 0
    ensures NumPagesAsWritten(count, limit) == NumPages(count, limit) + (if count % limit == 0 then 1 else 0)
  {
    var q := count / limit;
    assert count == q * limit + count % limit;
    if count % limit == 0 {
      assert count == q * limit;
      AsWrittenOvercounts(q, limit);
      ExactPages(q, limit);
    } else {
      var p := NumPages(count, limit);
      DivisionBounds(count, limit);
      MulStrict(q, p, limit);
      MulStrict(p - 1, q + 1, limit);
    }
  }

  /** The sign of the offset product, for either sign of the page size. */
  lemma OffsetSign(limit: int, page: int)
    ensures limit * (page - 1) == (page - 1) * limit
    ensures limit > 0 ==> (limit * (page - 1) < 0 <==> page < 1)
    ensures limit < 0 ==> (limit * (page - 1) < 0 <==> page > 1)
  {
    if limit > 0 {
      MulStrict(page - 1, 0, limit);
    } else if limit < 0 {
      MulStrict(0, page - 1, -limit);
    }
  }

  /** Line 96: OFFSET $1 * ($2 - 1).  PostgreSQL refuses a negative offset: with a positive page
      size that happens exactly below page 1, with a negative one exactly above it. */
  function SqlOffset(limit: int, page: int): (offset: int)
    ensures limit > 0 ==> (offset < 0 <==> page < 1)
    ensures limit < 0 ==> (offset < 0 <==> page > 1)
  {
    OffsetSign(limit, page);
    limit * (page - 1)
  }

  function Min(a: int, b: int): int { if a <= b then a else b }

  /** The rows LIMIT limit OFFSET SqlOffset(limit, page) selects from the matching rows. */
  function Page<T>(rows: seq<T>, limit: int, page: int): (r: seq<T>)
    requires limit > 0 && page >= 1
    ensures |r| <= limit
  {
    MulStrict(0, page - 1, limit);
    var offset := SqlOffset(limit, page);
    if offset >= |rows| then [] else rows[offset..Min(offset + limit, |rows|)]
  }

  /** Pages 1 .. n one after the other. */
  function PagesUpTo<T>(rows: seq<T>, limit: int, n: nat): seq<T>
    requires limit > 0
  {
    if n == 0 then [] else PagesUpTo(rows, limit, n - 1) + Page(rows, limit, n)
  }

  lemma {:induction false} PagesUpToIsPrefix<T>(rows: seq<T>, limit: int, n: nat)
    requires limit > 0
    ensures n * limit >= 0
    ensures PagesUpTo(rows, limit, n) == rows[..Min(n * limit, |rows|)]
  {
    MulStrict(-1, n, limit);
    if n > 0 {
      PagesUpToIsPrefix(rows, limit, n - 1);
      MulDistributes(n - 1, 1, limit);
      var before := Min((n - 1) * limit, |rows|);
      var offset := SqlOffset(limit, n);
      assert offset == (n - 1) * limit;
      if offset >= |rows| {
        assert before == |rows| == Min(n * limit, |rows|);
      } else {
        assert rows[..before] + rows[offset..Min(offset + limit, |rows|)] == rows[..Min(n * limit, |rows|)];
      }
    }
  }

  /** Pages 1 .. NumPages hold every matching row exactly once, in order. */
  lemma PagesCoverRows<T>(rows: seq<T>, limit: int)
    requires limit > 0
    ensures PagesUpTo(rows, limit, NumPages(|rows|, limit)) == rows
  {
    PagesUpToIsPrefix(rows, limit, NumPages(|rows|, limit));
  }

  /** Every page from 1 to NumPages holds rows, and every page after it is empty. */
  lemma PagesInRange<T>(rows: seq<T>, limit: int, page: int)
    requires limit > 0 && page >= 1
    ensures Page(rows, limit, page) != [] <==> page <= NumPages(|rows|, limit)
  {
    var n := NumPages(|rows|, limit);
    var offset := SqlOffset(limit, page);
    MulStrict(page - 1, n, limit);
    if page <= n {
      assert offset < |rows|;
    } else {
      MulStrict(n, page - 1, limit);
      assert offset >= |rows|;
    }
  }

  /** As written, a count that fills its pages exactly reports a last page that is empty. */
  lemma AsWrittenLastPageEmpty<T>(rows: seq<T>, limit: int, k: nat)
    requires limit > 0 && |rows| == k * limit
    ensures Page(rows, limit, NumPagesAsWritten(|rows|, limit)) == []
  {
    AsWrittenOvercounts(k, limit);
    ExactPages(k, limit);
    PagesInRange(rows, limit, k + 1);
  }

  /** The row at position i of the matching rows is shown on page i / limit + 1, at i % limit. */
  lemma RowPage<T>(rows: seq<T>, limit: int, i: nat)
    requires limit > 0 && i < |rows|
    ensures var p := i / limit + 1;
      && i % limit < |Page(rows, limit, p)| && Page(rows, limit, p)[i % limit] == rows[i]
  {
    var q, r := i / limit, i % limit;
    assert i == q * limit + r && 0 <= r < limit;
    var offset := SqlOffset(limit, q + 1);
    OffsetSign(limit, q + 1);
    assert offset == q * limit;
    assert offset <= i < Min(offset + limit, |rows|);
    var page := Page(rows, limit, q + 1);
    assert page == rows[offset..Min(offset + limit, |rows|)];
    assert page[r] == rows[offset + r];
  }
}
