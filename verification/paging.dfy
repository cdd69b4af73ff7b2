/** Page arithmetic shared by the `/search` and `/results` handlers of the
    server and by the browser's page navigator: the page-number default, the
    offset of a page, the window of IDs a page shows and the number of pages. */
module Paging {
  import opened Js
  import opened JsNumber

  /** Items per page of `/search`. */
  const SearchPageSize: nat := 20
  /** Items per page of `/results`. */
  const ResultsPageSize: nat := 10
  /** Items per page of the browser's navigator. */
  const ClientPageSize: nat := 20

  /** `parsed || 1`: `NaN` and 0 are falsy and give page 1; every other
      parsed integer, negative ones included, is the page. */
  function PageParam(parsed: Option<int>): (page: int)
    ensures page != 0
    ensures parsed.None? ==> page == 1
    ensures parsed == Some(0) ==> page == 1
    ensures parsed.Some? && parsed.value != 0 ==> page == parsed.value
  {
    if parsed.Some? && parsed.value != 0 then parsed.value else 1
  }

  /** `parseInt(req.query.page) || 1`. */
  function PageFromQuery(raw: Option<string>): (page: int)
    ensures page != 0
  {
    PageParam(ParseIntParam(raw))
  }

  /** A missing page parameter, text with no number in it, and "0" all give
      page 1; the decimal text of any other integer gives that integer. */
  lemma PageFromQueryDefaults(n: int, s: string)
    requires var u := Unsigned(TrimStart(s)); u == [] || !IsDigit(u[0], 10)
    ensures PageFromQuery(None) == 1
    ensures PageFromQuery(Some(s)) == 1
    ensures PageFromQuery(Some(DecimalString(n))) == if n == 0 then 1 else n
  {
    MissingParamIsNaN();
    ParseNaN(s);
    ParseDecimalRoundTrip(n);
  }

  /** `(page - 1) * limit`: the index of the first item of a page. */
  function Offset(page: int, limit: nat): (offset: int)
    ensures page >= 1 ==> offset >= 0
  {
    (page - 1) * limit
  }

  /** `ids.slice(offset, offset + limit)`: the IDs a page shows. */
  function Window<T>(ids: seq<T>, page: int, limit: nat): (w: seq<T>)
    ensures page >= 1 ==> |w| <= limit
  {
    var offset := Offset(page, limit);
    Slice(ids, offset, offset + limit)
  }

  /** From page 1 on, a page shows the IDs from its offset up to `limit` of
      them, cut at the end of the list: a contiguous run of the list. */
  lemma WindowRange<T>(ids: seq<T>, page: int, limit: nat)
    requires page >= 1
    ensures Offset(page, limit) >= 0
    ensures Window(ids, page, limit)
         == ids[Min(Offset(page, limit), |ids|)..Min(Offset(page, limit) + limit, |ids|)]
  {
  }

  /** `Math.ceil(count / limit)`. */
  function PageCount(count: nat, limit: nat): (pages: nat)
    requires limit > 0
    ensures pages == 0 <==> count == 0
  {
    CeilDiv(count, limit)
  }

  /** The pages cover every item, and the last page starts on an item. */
  lemma PageCountBounds(count: nat, limit: nat)
    requires limit > 0
    ensures PageCount(count, limit) * limit >= count
    ensures PageCount(count, limit) > 0 ==> Offset(PageCount(count, limit), limit) < count
  {
    CeilDivBounds(count, limit);
  }

  /** A page from 1 to the page count shows at least one ID, and any later
      page shows none: a page past the end is empty, not an error. */
  lemma WindowNonEmptyIff<T>(ids: seq<T>, page: int, limit: nat)
    requires limit > 0 && page >= 1
    ensures Window(ids, page, limit) != [] <==> page <= PageCount(|ids|, limit)
  {
    var n := PageCount(|ids|, limit);
    if page <= n {
      MulMonotone(page - 1, n - 1, limit);
    } else {
      MulMonotone(n, page - 1, limit);
    }
  }

  /** The windows of pages `from` to `to`, concatenated in page order. */
  function Pages<T>(ids: seq<T>, limit: nat, from: int, to: int): seq<T>
    decreases to - from
  {
    if from > to then [] else Window(ids, from, limit) + Pages(ids, limit, from + 1, to)
  }

  /** From any page on, the windows up to the last page concatenate to the
      rest of the list. */
  lemma {:induction false} PagesSuffix<T>(ids: seq<T>, limit: nat, from: int)
    requires limit > 0 && from >= 1
    requires Offset(from, limit) <= |ids|
    ensures Pages(ids, limit, from, PageCount(|ids|, limit)) == ids[Offset(from, limit)..]
    decreases |ids| - Offset(from, limit)
  {
    var n := PageCount(|ids|, limit);
    var lo := Offset(from, limit);
    if lo + limit <= |ids| {
      NextOffset(from, limit);
      PagesSuffix(ids, limit, from + 1);
      assert from <= n by {
        if from > n { MulMonotone(n, from - 1, limit); }
      }
      assert ids[lo..] == ids[lo..lo + limit] + ids[lo + limit..];
    } else {
      LastPage(ids, limit, from);
    }
  }

  /** Consecutive pages start `limit` items apart. */
  lemma NextOffset(page: int, limit: nat)
    ensures Offset(page + 1, limit) == Offset(page, limit) + limit
  {
    assert page * limit == (page - 1) * limit + limit;
  }

  /** The page whose window reaches past the end is the last one. */
  lemma LastPage<T>(ids: seq<T>, limit: nat, from: int)
    requires limit > 0 && from >= 1
    requires Offset(from, limit) <= |ids| < Offset(from, limit) + limit
    ensures Pages(ids, limit, from, PageCount(|ids|, limit)) == ids[Offset(from, limit)..]
  {
    var n := PageCount(|ids|, limit);
    LastPageNumber(|ids|, limit, from);
    if from > n {
      assert Pages(ids, limit, from, n) == [];
    } else {
      assert Pages(ids, limit, from + 1, n) == [];
      WindowRange(ids, from, limit);
    }
  }

  /** The arithmetic behind LastPage: a page whose window starts inside the
      list and ends past it is the last page, or the one after it when the
      count is a multiple of the page size. */
  lemma LastPageNumber(count: nat, limit: nat, page: int)
    requires limit > 0 && page >= 1
    requires Offset(page, limit) <= count < Offset(page, limit) + limit
    ensures page == PageCount(count, limit) ||
            (page == PageCount(count, limit) + 1 && Offset(page, limit) == count)
  {
    var n := PageCount(count, limit);
    var o := Offset(page, limit);
    assert o + limit == page * limit;
    if page < n {
      MulMonotone(page, n - 1, limit);
    }
    if page > n {
      MulMonotone(n, page - 1, limit);
      assert n * limit <= o;
      if page > n + 1 {
        MulMonotone(n + 1, page - 1, limit);
      }
    }
  }

  /** Pages 1 to the page count, shown one after the other, reproduce the
      whole ID list exactly: no ID is skipped and none is shown twice. */
  lemma PagesCoverAll<T>(ids: seq<T>, limit: nat)
    requires limit > 0
    ensures Pages(ids, limit, 1, PageCount(|ids|, limit)) == ids
  {
    PagesSuffix(ids, limit, 1);
  }

  /** The windows of two different pages from page 1 on occupy disjoint,
      ordered ranges of positions of the list. */
  lemma WindowsDisjoint<T>(ids: seq<T>, limit: nat, p: int, q: int)
    requires 1 <= p < q
    ensures Min(Offset(p, limit) + limit, |ids|) <= Min(Offset(q, limit), |ids|)
    ensures Window(ids, p, limit) == ids[Min(Offset(p, limit), |ids|)..Min(Offset(p, limit) + limit, |ids|)]
    ensures Window(ids, q, limit) == ids[Min(Offset(q, limit), |ids|)..Min(Offset(q, limit) + limit, |ids|)]
  {
    MulMonotone(p, q - 1, limit);
  }

  /** A negative page is not clamped: `slice` counts a negative start from the
      end, so page -k shows IDs taken from the end of the list. */
  lemma NegativePageCountsFromEnd<T>(ids: seq<T>, page: int, limit: nat)
    requires page < 0 && limit > 0
    requires |ids| >= (1 - page) * limit
    ensures Window(ids, page, limit) == ids[|ids| + Offset(page, limit)..|ids| + Offset(page, limit) + limit]
  {
    assert Offset(page, limit) + limit == -((0 - page) * limit);
  }
}
