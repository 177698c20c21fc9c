/** Offset pagination as the four listing handlers of index.py compute it:
    `total_pages = (N + per_page - 1) // per_page`,
    `offset = (page - 1) * per_page`, then `LIMIT per_page OFFSET offset`
    over the ordered rows. */
module Pagination {
  import opened SeqUtil

  /** Rows per page on the home listing. */
  const HomePerPage: nat := 5
  /** Rows per page on the events, organizers and attendees listings. */
  const ListPerPage: nat := 10

  /** OFFSET is a bigint: PostgreSQL refuses a negative one ("OFFSET must
      not be negative") and one past the bigint range ("bigint out of
      range"). */
  datatype PageError = NegativeOffset | OffsetOutOfRange

  /** The largest bigint, 2^63 - 1. `SELECT COUNT(*)` is a bigint too, so no
      table holds more rows than this. */
  const BigintMax: int := 0x7FFF_FFFF_FFFF_FFFF

  /** The OFFSET value can be read as a bigint, -2^63 .. 2^63 - 1. */
  predicate IsBigint(x: int) {
    -BigintMax - 1 <= x <= BigintMax
  }

  function Min(a: int, b: int): int { if a <= b then a else b }

  /** `(n + perPage - 1) // perPage`: Python's floor division, which on these
      non-negative operands is Dafny's. Its result is the ceiling of
      n / perPage: enough pages for every row and not one more. */
  function TotalPages(n: nat, perPage: nat): (r: nat)
    requires perPage > 0
    ensures n <= r * perPage
    ensures r == 0 || (r - 1) * perPage < n
    ensures r == 0 <==> n == 0
  {
    var q := (n + perPage - 1) / perPage;
    assert q * perPage + (n + perPage - 1) % perPage == n + perPage - 1;
    assert q * perPage - perPage == (q - 1) * perPage;
    q
  }

  function Offset(page: int, perPage: nat): int {
    (page - 1) * perPage
  }

  /** `LIMIT perPage OFFSET Offset(page, perPage)` over `rows`. A page number
      below 1 gives a negative offset, and a page number so large that the
      offset leaves the bigint range (in either direction) gives one the
      database cannot read: both queries fail. */
  function Page<T>(rows: seq<T>, page: int, perPage: nat): (r: Result<seq<T>, PageError>)
    requires perPage > 0
    ensures r == Failure(OffsetOutOfRange) <==> !IsBigint(Offset(page, perPage))
    ensures r == Failure(NegativeOffset) <==> page < 1 && IsBigint(Offset(page, perPage))
    ensures r.Failure? <==> page < 1 || Offset(page, perPage) > BigintMax
    ensures r.Success? ==> |r.value| <= perPage
    ensures r.Success? ==>
      forall i :: 0 <= i < |r.value| ==>
        0 <= Offset(page, perPage) + i < |rows| && r.value[i] == rows[Offset(page, perPage) + i]
    ensures r.Success? && Offset(page, perPage) + perPage <= |rows| ==> |r.value| == perPage
    ensures r.Success? && Offset(page, perPage) < |rows| < Offset(page, perPage) + perPage ==>
      |r.value| == |rows| - Offset(page, perPage)
    ensures r.Success? && |rows| <= Offset(page, perPage) ==> r.value == []
  {
    if !IsBigint(Offset(page, perPage)) then Failure(OffsetOutOfRange)
    else if page < 1 then Failure(NegativeOffset)
    else
      var offset := Offset(page, perPage);
      assert offset >= 0 by { assert page - 1 >= 0; }
      if offset >= |rows| then Success([])
      else Success(rows[offset..Min(offset + perPage, |rows|)])
  }

  /** The rows that pages 1..k of a listing handler show, one request per
      page, one page after the other. */
  function Served<T>(page: int -> Result<seq<T>, PageError>, k: nat): seq<T>
    requires forall p :: 1 <= p <= k ==> page(p).Success?
  {
    if k == 0 then [] else Served(page, k - 1) + page(k).value
  }

  /** A page after the last one is empty, and not an error as long as its
      offset is a bigint. */
  lemma PagePastLastIsEmpty<T>(rows: seq<T>, page: int, perPage: nat)
    requires perPage > 0
    requires page > TotalPages(|rows|, perPage)
    requires Offset(page, perPage) <= BigintMax
    ensures Page(rows, page, perPage) == Success([])
  {
    var total := TotalPages(|rows|, perPage);
    assert Offset(page, perPage) >= total * perPage by {
      assert page - 1 >= total;
      assert (page - 1) * perPage >= total * perPage;
    }
  }

  /** Every page from 1 to the last holds at least one row, and every page
      before the last is full. */
  lemma PageWithinIsNonEmpty<T>(rows: seq<T>, page: int, perPage: nat)
    requires perPage > 0
    requires |rows| <= BigintMax
    requires 1 <= page <= TotalPages(|rows|, perPage)
    ensures Page(rows, page, perPage).Success?
    ensures Page(rows, page, perPage).value != []
    ensures page < TotalPages(|rows|, perPage) ==> |Page(rows, page, perPage).value| == perPage
  {
    var total := TotalPages(|rows|, perPage);
    assert Offset(page, perPage) <= (total - 1) * perPage by {
      assert page - 1 <= total - 1;
      assert (page - 1) * perPage <= (total - 1) * perPage;
    }
    if page < total {
      assert Offset(page, perPage) + perPage <= (total - 1) * perPage by {
        assert page <= total - 1;
        assert page * perPage <= (total - 1) * perPage;
        assert Offset(page, perPage) + perPage == page * perPage;
      }
    }
  }

  /** Page k holds rows (k-1) * perPage up to k * perPage, cut off at the
      end of the listing. */
  lemma PageIsSlice<T>(rows: seq<T>, k: nat, perPage: nat)
    requires perPage > 0
    requires 1 <= k && Offset(k, perPage) <= BigintMax
    ensures Page(rows, k, perPage) == Success(rows[Min((k - 1) * perPage, |rows|)..Min(k * perPage, |rows|)])
  {
    var offset := Offset(k, perPage);
    assert (k - 1) * perPage == offset;
    assert k * perPage == offset + perPage;
    assert 0 <= offset && IsBigint(offset);
    if offset >= |rows| {
      assert Page(rows, k, perPage) == Success([]);
      assert rows[|rows|..|rows|] == [];
    } else {
      assert Page(rows, k, perPage) == Success(rows[offset..Min(offset + perPage, |rows|)]);
    }
  }

  /** A handler that answers every page p of 1..k with
      `Page(rows, p, perPage)` shows, over pages 1..k, the first k * perPage
      rows (or all of them). */
  lemma {:induction false} ServedIsPrefix<T>(page: int -> Result<seq<T>, PageError>, rows: seq<T>, perPage: nat, k: nat)
    requires perPage > 0
    requires Offset(k, perPage) <= BigintMax
    requires forall p :: 1 <= p <= k ==> page(p) == Page(rows, p, perPage)
    ensures forall p :: 1 <= p <= k ==> page(p).Success?
    ensures Served(page, k) == rows[..Min(k * perPage, |rows|)]
  {
    if k > 0 {
      assert Offset(k - 1, perPage) + perPage == Offset(k, perPage);
      ServedIsPrefix(page, rows, perPage, k - 1);
      var lo := Min((k - 1) * perPage, |rows|);
      var hi := Min(k * perPage, |rows|);
      var before := Served(page, k - 1);
      assert before == rows[..lo];
      PageIsSlice(rows, k, perPage);
      assert page(k) == Page(rows, k, perPage);
      var current := page(k).value;
      assert current == rows[lo..hi];
      assert Served(page, k) == before + current;
      assert before + current == rows[..hi];
    }
  }

  /** Pages 1..total_pages, concatenated, give back every row, in order,
      exactly once. */
  lemma PagesReassemble<T>(page: int -> Result<seq<T>, PageError>, rows: seq<T>, perPage: nat)
    requires perPage > 0
    requires |rows| <= BigintMax
    requires forall p :: 1 <= p <= TotalPages(|rows|, perPage) ==> page(p) == Page(rows, p, perPage)
    ensures forall p :: 1 <= p <= TotalPages(|rows|, perPage) ==> page(p).Success?
    ensures Served(page, TotalPages(|rows|, perPage)) == rows
  {
    var total := TotalPages(|rows|, perPage);
    ServedIsPrefix(page, rows, perPage, total);
    assert Min(total * perPage, |rows|) == |rows|;
  }
}
