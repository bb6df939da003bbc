/**
 * The paging shared by the payments, orders and users pages: 50 rows per
 * page, a request window `skip = page * 50`, a "previous" button that clamps
 * at page 0, a "next" button disabled once the next window would start at or
 * past the total, and controls shown only when there is more than one page.
 * Also the query string the pages build with `URLSearchParams.append`.
 */
module Pagination {
  import opened Wrappers
  import opened Text

  const PageSize: nat := 50

  /** The `skip` parameter of a page's request. */
  function Skip(page: nat): (skip: nat)
    ensures skip % PageSize == 0 && skip / PageSize == page
  {
    page * PageSize
  }

  /** `Math.max(0, page - 1)`. */
  function PreviousPage(page: nat): (p: nat)
    ensures page == 0 ==> p == 0
    ensures page > 0 ==> p + 1 == page
  {
    if page == 0 then 0 else page - 1
  }

  predicate PreviousDisabled(page: nat)
  {
    page == 0
  }

  predicate NextDisabled(page: nat, total: nat)
  {
    (page + 1) * PageSize >= total
  }

  /** The controls are rendered only when `total > 50`. */
  predicate ShowControls(total: nat)
  {
    total > PageSize
  }

  /** `Math.ceil(total / 50)`, the page count the pages display. */
  function PageCount(total: nat): (n: nat)
    ensures (n - 1) * PageSize < total <= n * PageSize || (total == 0 && n == 0)
  {
    (total + PageSize - 1) / PageSize
  }

  /** A page the user can be on: the first page, or one that holds rows. */
  predicate OnValidPage(page: nat, total: nat)
  {
    page == 0 || page < PageCount(total)
  }

  /** The page after a click on "next"; a disabled button does nothing. */
  function NextPage(page: nat, total: nat): (p: nat)
    ensures p == page || p == page + 1
  {
    if NextDisabled(page, total) then page else page + 1
  }

  /** "next" is disabled exactly on the last page (or on the only page). */
  lemma NextDisabledOnLastPage(page: nat, total: nat)
    requires total > 0 && page < PageCount(total)
    ensures NextDisabled(page, total) <==> page == PageCount(total) - 1
  {
    var n := PageCount(total);
    if page < n - 1 {
      assert (page + 1) * PageSize <= (n - 1) * PageSize;
    } else {
      assert (page + 1) * PageSize == n * PageSize;
    }
  }

  /** Neither button leaves the pages that exist: from a valid page both land on a valid page. */
  lemma ButtonsKeepValidPage(page: nat, total: nat)
    requires OnValidPage(page, total)
    ensures OnValidPage(PreviousPage(page), total)
    ensures OnValidPage(NextPage(page, total), total)
    ensures NextPage(page, total) <= (if total == 0 then 0 else PageCount(total) - 1)
  {
    if total > 0 {
      NextDisabledOnLastPage(page, total);
    }
  }

  /** The windows of the pages that exist cover every row exactly once. */
  lemma RowOnOnePage(row: nat, total: nat)
    requires row < total
    ensures row / PageSize < PageCount(total)
    ensures Skip(row / PageSize) <= row < Skip(row / PageSize) + PageSize
    ensures forall page: nat :: Skip(page) <= row < Skip(page) + PageSize ==> page == row / PageSize
  {
    forall page: nat | Skip(page) <= row < Skip(page) + PageSize
      ensures page == row / PageSize
    {
      assert page * PageSize <= row < (page + 1) * PageSize;
    }
  }

  /** When the controls are hidden there is a single page and both buttons would be disabled at page 0. */
  lemma SinglePageWithoutControls(total: nat)
    requires !ShowControls(total)
    ensures PageCount(total) <= 1
    ensures PreviousDisabled(0) && NextDisabled(0, total)
  {
  }

  // ---------------------------------------------------------------- query strings

  type Query = seq<(string, string)>

  /** `URLSearchParams.get(key)`: the first value appended under the key. */
  function Get(query: Query, key: string): (v: Option<string>)
    ensures v.Some? <==> exists i :: 0 <= i < |query| && query[i].0 == key
    ensures v.Some? ==> exists i :: 0 <= i < |query| && query[i] == (key, v.value)
  {
    if query == [] then None
    else if query[0].0 == key then Some(query[0].1)
    else Get(query[1..], key)
  }

  lemma {:induction false} GetOfAppended(a: Query, b: Query, key: string)
    ensures Get(a + b, key) == if Get(a, key).Some? then Get(a, key) else Get(b, key)
    decreases |a|
  {
    if a != [] {
      assert (a + b)[1..] == a[1..] + b;
      GetOfAppended(a[1..], b, key);
    } else {
      assert a + b == b;
    }
  }

  /** `if (value) params.append(key, value)`: a filter entry sent only when the filter is set. */
  function OptionalParam(key: string, value: string): (q: Query)
    ensures Get(q, key) == if value == "" then None else Some(value)
    ensures forall other :: other != key ==> Get(q, other).None?
  {
    if value == "" then [] else [(key, value)]
  }

  /** The two paging entries every list request ends with. */
  function PageParams(page: nat): (q: Query)
    ensures Get(q, "skip") == Some(IntToString(Skip(page))) && Get(q, "limit") == Some("50")
    ensures forall key :: key != "skip" && key != "limit" ==> Get(q, key).None?
  {
    assert Digits(50) == Digits(5) + [DigitChar(0)] == "50";
    var q := [("skip", IntToString(Skip(page))), ("limit", IntToString(PageSize))];
    assert Get(q, "limit") == Get(q[1..], "limit") == Some("50");
    q
  }

  /** A request built from filter entries and the paging entries: each filter as given, then the window. */
  lemma GetOfPaged(filters: Query, page: nat, key: string)
    requires Get(filters, "skip").None? && Get(filters, "limit").None?
    ensures key == "skip" ==> Get(filters + PageParams(page), key) == Some(IntToString(Skip(page)))
    ensures key == "limit" ==> Get(filters + PageParams(page), key) == Some("50")
    ensures key != "skip" && key != "limit" ==> Get(filters + PageParams(page), key) == Get(filters, key)
  {
    GetOfAppended(filters, PageParams(page), key);
  }

  /**
   * A list page keeps its page number when its filter changes. When the new filter
   * matches no more rows than the kept window skips, the window is empty; with at
   * most 50 rows there are no controls either, so no button leads back to the rows.
   */
  lemma KeptPageStranded(page: nat, total: nat)
    requires page > 0 && total <= Skip(page)
    ensures !OnValidPage(page, total)
    ensures total <= PageSize ==> !ShowControls(total)
  {
    if total > 0 {
      assert PageCount(total) * PageSize < total + PageSize;
    }
  }

  /** Page 3 of 200 rows is a valid page; after a filter change to 40 rows it holds none and has no controls. */
  lemma FilterChangeStrandsPage()
    ensures OnValidPage(3, 200)
    ensures !OnValidPage(3, 40) && !ShowControls(40)
  {
    KeptPageStranded(3, 40);
  }

  /** Restarting from the first page keeps the user on a valid page whatever the new total. */
  lemma FirstPageAlwaysValid(total: nat)
    ensures OnValidPage(0, total) && PreviousDisabled(0)
    ensures total > 0 ==> Skip(0) < total
  {
  }

  /** A `URLSearchParams` being filled by a page. */
  class SearchParams {
    var entries: Query

    constructor ()
      ensures entries == []
    {
      entries := [];
    }

    /** `params.append(key, value)`. */
    method Append(key: string, value: string)
      modifies this
      ensures entries == old(entries) + [(key, value)]
    {
      entries := entries + [(key, value)];
    }
  }

  /** The two paging parameters every list page appends last. */
  method AppendPage(params: SearchParams, page: nat)
    modifies params
    ensures params.entries == old(params.entries) + PageParams(page)
  {
    params.Append("skip", IntToString(page * PageSize));
    params.Append("limit", IntToString(PageSize));
  }
}
