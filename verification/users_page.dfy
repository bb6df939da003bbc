/**
 * The Telegram users page of the admin panel: the search box and the two
 * three-way filters (any / yes / no) with their select encoding, the list
 * request with its conditional entries and paging, and the wallet prompt.
 */
module UsersPage {
  import opened Wrappers
  import opened Pagination
  import JsValues

  /** A three-way filter: `None` is "any". */
  type TriState = Option<bool>

  /** The select's value: `v === null ? '' : v.toString()`. */
  function EncodeTri(v: TriState): (s: string)
    ensures s == "" <==> v.None?
  {
    match v
    case None => ""
    case Some(b) => if b then "true" else "false"
  }

  /** The select's `onChange`: `value === '' ? null : value === 'true'`. */
  function DecodeTri(s: string): (v: TriState)
    ensures v.None? <==> s == ""
  {
    if s == "" then None else Some(s == "true")
  }

  /** Every filter value survives the select: the option it shows reads back as the same value. */
  lemma DecodeOfEncode(v: TriState)
    ensures DecodeTri(EncodeTri(v)) == v
  {
  }

  /** The three options read back as the value that shows them; any other text reads as `false`. */
  lemma EncodeOfDecode(s: string)
    ensures s == "" || s == "true" || s == "false" ==> EncodeTri(DecodeTri(s)) == s
    ensures s != "" && s != "true" ==> DecodeTri(s) == Some(false)
  {
  }

  datatype UserFilter = UserFilter(isReseller: TriState, isBanned: TriState)

  /** `if (v !== null) params.append(key, v)`: a boolean is sent as "true" or "false". */
  function TriParam(key: string, v: TriState): (q: Query)
    ensures Get(q, key) == if v.None? then None else Some(EncodeTri(v))
    ensures forall other :: other != key ==> Get(q, other).None?
  {
    if v.None? then [] else [(key, EncodeTri(v))]
  }

  /** The filter entries of `fetchUsers`, in the order they are appended. */
  function FilterParams(search: string, filter: UserFilter): Query
  {
    OptionalParam("search", search) + TriParam("is_reseller", filter.isReseller) + TriParam("is_banned", filter.isBanned)
  }

  /** Each filter entry is present exactly when its filter is set, with the filter's text; no paging entry. */
  lemma GetOfFilterParams(search: string, filter: UserFilter, key: string)
    ensures key == "search" ==> Get(FilterParams(search, filter), key) == if search == "" then None else Some(search)
    ensures key == "is_reseller" ==>
              Get(FilterParams(search, filter), key) == if filter.isReseller.None? then None else Some(EncodeTri(filter.isReseller))
    ensures key == "is_banned" ==>
              Get(FilterParams(search, filter), key) == if filter.isBanned.None? then None else Some(EncodeTri(filter.isBanned))
    ensures key == "skip" || key == "limit" ==> Get(FilterParams(search, filter), key).None?
  {
    var a := OptionalParam("search", search);
    var b := TriParam("is_reseller", filter.isReseller);
    var c := TriParam("is_banned", filter.isBanned);
    GetOfAppended(a + b, c, key);
    GetOfAppended(a, b, key);
  }

  /** The whole request: the filter entries as set, then the window of the page. */
  lemma GetOfUsersQuery(search: string, filter: UserFilter, page: nat)
    ensures Get(FilterParams(search, filter) + PageParams(page), "search") == if search == "" then None else Some(search)
    ensures Get(FilterParams(search, filter) + PageParams(page), "is_reseller") ==
      if filter.isReseller.None? then None else Some(EncodeTri(filter.isReseller))
    ensures Get(FilterParams(search, filter) + PageParams(page), "is_banned") ==
      if filter.isBanned.None? then None else Some(EncodeTri(filter.isBanned))
    ensures Get(FilterParams(search, filter) + PageParams(page), "skip") == Some(Text.IntToString(Skip(page)))
    ensures Get(FilterParams(search, filter) + PageParams(page), "limit") == Some("50")
  {
    var f := FilterParams(search, filter);
    GetOfFilterParams(search, filter, "skip");
    GetOfFilterParams(search, filter, "limit");
    GetOfFilterParams(search, filter, "search");
    GetOfFilterParams(search, filter, "is_reseller");
    GetOfFilterParams(search, filter, "is_banned");
    GetOfPaged(f, page, "search");
    GetOfPaged(f, page, "is_reseller");
    GetOfPaged(f, page, "is_banned");
    GetOfPaged(f, page, "skip");
    GetOfPaged(f, page, "limit");
  }

  /** `PUT /api/users/{id}/wallet?amount=..`; a `None` amount is the `NaN` of an unreadable answer. */
  datatype WalletRequest = WalletRequest(telegramId: int, amount: Option<real>)

  /** `handleWalletUpdate`: a cancelled prompt (`null`) sends nothing, any answer is sent through `parseFloat`. */
  function WalletRequestOf(telegramId: int, answer: Option<string>): (r: Option<WalletRequest>)
    ensures r.None? <==> answer.None?
    ensures r.Some? ==> r.value.telegramId == telegramId && r.value.amount == JsValues.ParseFloat(answer.value)
  {
    if answer.None? then None else Some(WalletRequest(telegramId, JsValues.ParseFloat(answer.value)))
  }

  /** An answer typed as a whole number sets the wallet to exactly that number. */
  lemma WalletOfWholeAnswer(telegramId: int, amount: int)
    ensures WalletRequestOf(telegramId, Some(Text.IntToString(amount))) == Some(WalletRequest(telegramId, Some(amount as real)))
  {
    JsValues.ParseIntToString(amount);
  }

  class Page {
    var total: nat
    var page: nat
    var search: string
    var filter: UserFilter

    /** The page opens on the first page of all users. */
    constructor ()
      ensures total == 0 && page == 0 && search == "" && filter == UserFilter(None, None)
    {
      total := 0;
      page := 0;
      search := "";
      filter := UserFilter(None, None);
    }

    /** `fetchUsers`' query string: the set filters in order, then `skip = page*50` and `limit = 50`. */
    method FetchParams() returns (query: Query)
      ensures query == FilterParams(search, filter) + PageParams(page)
      ensures Get(query, "search") == if search == "" then None else Some(search)
      ensures Get(query, "is_reseller") == if filter.isReseller.None? then None else Some(EncodeTri(filter.isReseller))
      ensures Get(query, "is_banned") == if filter.isBanned.None? then None else Some(EncodeTri(filter.isBanned))
      ensures Get(query, "skip") == Some(Text.IntToString(Skip(page))) && Get(query, "limit") == Some("50")
    {
      var params := new SearchParams();
      if search != "" {
        params.Append("search", search);
      }
      assert params.entries == OptionalParam("search", search);
      if filter.isReseller.Some? {
        params.Append("is_reseller", EncodeTri(filter.isReseller));
      }
      assert params.entries == OptionalParam("search", search) + TriParam("is_reseller", filter.isReseller);
      if filter.isBanned.Some? {
        params.Append("is_banned", EncodeTri(filter.isBanned));
      }
      assert params.entries == FilterParams(search, filter);
      AppendPage(params, page);
      query := params.entries;
      GetOfUsersQuery(search, filter, page);
    }

    /** The total of a fetch. */
    method Loaded(count: nat)
      modifies this
      ensures total == count
      ensures page == old(page) && search == old(search) && filter == old(filter)
    {
      total := count;
    }

    /** The search box: the page number is kept. */
    method SetSearch(text: string)
      modifies this
      ensures search == text
      ensures total == old(total) && page == old(page) && filter == old(filter)
    {
      search := text;
    }

    /** The reseller select: only the reseller filter changes. */
    method SetResellerFilter(value: string)
      modifies this
      ensures filter.isReseller == DecodeTri(value) && filter.isBanned == old(filter.isBanned)
      ensures total == old(total) && page == old(page) && search == old(search)
    {
      filter := filter.(isReseller := DecodeTri(value));
    }

    /** The banned select: only the banned filter changes. */
    method SetBannedFilter(value: string)
      modifies this
      ensures filter.isBanned == DecodeTri(value) && filter.isReseller == old(filter.isReseller)
      ensures total == old(total) && page == old(page) && search == old(search)
    {
      filter := filter.(isBanned := DecodeTri(value));
    }

    /** "previous": `max(0, page - 1)`; from a valid page it stays on one. */
    method Previous()
      modifies this
      ensures page == PreviousPage(old(page))
      ensures old(OnValidPage(page, total)) ==> OnValidPage(page, total)
      ensures total == old(total) && search == old(search) && filter == old(filter)
    {
      if OnValidPage(page, total) {
        ButtonsKeepValidPage(page, total);
      }
      page := PreviousPage(page);
    }

    /** "next": one page on unless the button is disabled; from a valid page it stays on one. */
    method Next()
      modifies this
      ensures page == NextPage(old(page), total)
      ensures old(OnValidPage(page, total)) ==> OnValidPage(page, total)
      ensures total == old(total) && search == old(search) && filter == old(filter)
    {
      if OnValidPage(page, total) {
        ButtonsKeepValidPage(page, total);
      }
      page := NextPage(page, total);
    }
  }
}
