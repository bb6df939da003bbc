/**
 * The orders page of the admin panel: the list request with its status filter
 * and paging, the `statusLabels` table with its fallback for unknown statuses,
 * and the order details modal.
 */
module OrdersPage {
  import opened Wrappers
  import opened Pagination
  import Models

  /** An order as the list endpoint returns it; `None` is a missing or null field. */
  datatype Order = Order(
    id: string,
    status: string,
    originalPrice: Option<real>,
    discountAmount: Option<real>,
    finalPrice: Option<real>,
    discountCode: Option<string>)

  /** A `statusLabels` entry: the caption and the badge class. */
  datatype StatusEntry = StatusEntry(caption: string, badge: string)

  const StatusLabels: map<string, StatusEntry> := map[
    "pending" := StatusEntry("در انتظار پرداخت", "badge-warning"),
    "paid" := StatusEntry("پرداخت شده", "badge-info"),
    "confirmed" := StatusEntry("تأیید شده", "badge-success"),
    "cancelled" := StatusEntry("لغو شده", "badge-error"),
    "expired" := StatusEntry("منقضی شده", "badge-default")]

  /** `statusLabels[status]?.label || status`. */
  function StatusCaption(status: string): (s: string)
    ensures status in StatusLabels ==> s == StatusLabels[status].caption
    ensures status !in StatusLabels ==> s == status
  {
    if status in StatusLabels then StatusLabels[status].caption else status
  }

  /** `statusLabels[status]?.class || 'badge-default'`. */
  function StatusBadge(status: string): (b: string)
    ensures status in StatusLabels ==> b == StatusLabels[status].badge
    ensures status !in StatusLabels ==> b == "badge-default"
  {
    if status in StatusLabels then StatusLabels[status].badge else "badge-default"
  }

  /** Each order status of the data model gets its own caption. */
  lemma CaptionsDistinct(s: Models.OrderStatus, t: Models.OrderStatus)
    requires s != t
    ensures StatusCaption(s.Value()) != StatusCaption(t.Value())
  {
  }

  /** The table's keys are exactly the order statuses of the data model, so a stored status never falls back. */
  lemma LabelsCoverOrderStatuses()
    ensures forall s: Models.OrderStatus :: s.Value() in StatusLabels
    ensures forall k :: k in StatusLabels ==> exists s: Models.OrderStatus :: s.Value() == k
  {
    forall k | k in StatusLabels
      ensures exists s: Models.OrderStatus :: s.Value() == k
    {
      if k == "pending" {
        assert Models.OrderStatus.Pending.Value() == k;
      } else if k == "paid" {
        assert Models.OrderStatus.Paid.Value() == k;
      } else if k == "confirmed" {
        assert Models.OrderStatus.Confirmed.Value() == k;
      } else if k == "cancelled" {
        assert Models.OrderStatus.Cancelled.Value() == k;
      } else {
        assert Models.OrderStatus.Expired.Value() == k;
      }
    }
  }

  /** A status outside the table is shown by its own name with the neutral badge. */
  lemma UnknownStatusShownRaw(status: string)
    requires forall s: Models.OrderStatus :: s.Value() != status
    ensures StatusCaption(status) == status && StatusBadge(status) == "badge-default"
  {
    LabelsCoverOrderStatuses();
  }

  /** The money lines of the details modal. */
  datatype Details = Details(original: real, discount: Option<real>, final: real)

  /** `original_price || 0`, the discount line only when `discount_amount > 0`, `final_price || 0`. */
  function DetailsOf(o: Order): (d: Details)
    ensures d.discount.Some? <==> o.discountAmount.Some? && o.discountAmount.value > 0.0
    ensures d.discount.Some? ==> d.discount.value == o.discountAmount.value
    ensures o.originalPrice.None? ==> d.original == 0.0
    ensures o.finalPrice.None? ==> d.final == 0.0
    ensures o.originalPrice.Some? ==> d.original == o.originalPrice.value
    ensures o.finalPrice.Some? ==> d.final == o.finalPrice.value
  {
    Details(
      o.originalPrice.GetOr(0.0),
      if o.discountAmount.Some? && o.discountAmount.value > 0.0 then o.discountAmount else None,
      o.finalPrice.GetOr(0.0))
  }

  /** The discount column: the code as a badge when there is one, else '-'. */
  function DiscountColumn(o: Order): (s: string)
    ensures o.discountCode.Some? && o.discountCode.value != "" ==> s == o.discountCode.value
    ensures !(o.discountCode.Some? && o.discountCode.value != "") ==> s == "-"
  {
    if o.discountCode.Some? && o.discountCode.value != "" then o.discountCode.value else "-"
  }

  class Page {
    var orders: seq<Order>
    var total: nat
    var page: nat
    var statusFilter: string
    var selected: Option<Order>

    /** The page opens on the first page of all orders. */
    constructor ()
      ensures orders == [] && total == 0 && page == 0 && statusFilter == "" && selected.None?
    {
      orders := [];
      total := 0;
      page := 0;
      statusFilter := "";
      selected := None;
    }

    /** `fetchOrders`' query string: the status when one is chosen, then `skip = page*50` and `limit = 50`. */
    method FetchParams() returns (query: Query)
      ensures query == OptionalParam("status", statusFilter) + PageParams(page)
      ensures Get(query, "status") == if statusFilter == "" then None else Some(statusFilter)
      ensures Get(query, "skip") == Some(Text.IntToString(Skip(page))) && Get(query, "limit") == Some("50")
    {
      var params := new SearchParams();
      if statusFilter != "" {
        params.Append("status", statusFilter);
      }
      AppendPage(params, page);
      query := params.entries;
      assert query == OptionalParam("status", statusFilter) + PageParams(page);
      GetOfPaged(OptionalParam("status", statusFilter), page, "status");
      GetOfPaged(OptionalParam("status", statusFilter), page, "skip");
      GetOfPaged(OptionalParam("status", statusFilter), page, "limit");
    }

    method Loaded(list: seq<Order>, count: nat)
      modifies this
      ensures orders == list && total == count
      ensures page == old(page) && statusFilter == old(statusFilter) && selected == old(selected)
    {
      orders := list;
      total := count;
    }

    /** "previous": `max(0, page - 1)`; from a valid page it stays on one. */
    method Previous()
      modifies this
      ensures page == PreviousPage(old(page))
      ensures old(OnValidPage(page, total)) ==> OnValidPage(page, total)
      ensures orders == old(orders) && total == old(total) && statusFilter == old(statusFilter) && selected == old(selected)
    {
      if OnValidPage(page, total) {
        ButtonsKeepValidPage(page, total);
      }
      page := PreviousPage(page);
    }

    /** "next": one page on unless the button is disabled; from a valid page it stays on one. */
    method Next()
      modifies this
      ensures page == NextPage(old(page), total)
      ensures old(OnValidPage(page, total)) ==> OnValidPage(page, total)
      ensures orders == old(orders) && total == old(total) && statusFilter == old(statusFilter) && selected == old(selected)
    {
      if OnValidPage(page, total) {
        ButtonsKeepValidPage(page, total);
      }
      page := NextPage(page, total);
    }

    /** The status select: the page number is kept. */
    method SetStatusFilter(f: string)
      modifies this
      ensures statusFilter == f && page == old(page)
      ensures orders == old(orders) && total == old(total) && selected == old(selected)
    {
      statusFilter := f;
    }

    /** The eye button opens the details; the overlay closes them. */
    method Select(o: Option<Order>)
      modifies this
      ensures selected == o
      ensures orders == old(orders) && total == old(total) && page == old(page) && statusFilter == old(statusFilter)
    {
      selected := o;
    }
  }
}
