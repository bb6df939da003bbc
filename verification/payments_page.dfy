/**
 * The card-to-card payments page of the admin panel: the list request with its
 * status filter and paging, the status badge, the review modal whose approve
 * and reject buttons exist only for pending payments, and `handleReview`.
 */
module PaymentsPage {
  import opened Wrappers
  import opened Pagination
  import Models

  datatype Payment = Payment(id: string, amount: Option<int>, status: string, receiptFileId: Option<string>)

  /** The body of `PUT /api/payments/{id}/review`. */
  datatype ReviewRequest = ReviewRequest(paymentId: string, status: string, adminNote: string)

  datatype Badge = Warning | Success | Error

  /** The badge colour of a status: pending, approved, and anything else as rejected. */
  function BadgeOf(status: string): (b: Badge)
    ensures b == Warning <==> status == "pending"
    ensures b == Success <==> status == "approved"
    ensures b == Error <==> status != "pending" && status != "approved"
  {
    if status == "pending" then Warning else if status == "approved" then Success else Error
  }

  /** The badge caption; it follows the colour. */
  function StatusText(status: string): (s: string)
    ensures BadgeOf(status) == Warning ==> s == "در انتظار"
    ensures BadgeOf(status) == Success ==> s == "تأیید شده"
    ensures BadgeOf(status) == Error ==> s == "رد شده"
  {
    match BadgeOf(status)
    case Warning => "در انتظار"
    case Success => "تأیید شده"
    case Error => "رد شده"
  }

  /** The three payment statuses of the data model get three different badges, the one a status maps to by name. */
  lemma PaymentStatusBadges(s: Models.PaymentStatus)
    ensures BadgeOf(s.Value()) == match s
      case Pending => Warning
      case Approved => Success
      case Rejected => Error
    ensures forall t: Models.PaymentStatus :: BadgeOf(t.Value()) == BadgeOf(s.Value()) ==> t == s
  {
  }

  /** The approve and reject buttons (and the note) are offered only for a pending payment. */
  predicate ReviewControls(p: Payment)
  {
    p.status == "pending"
  }

  /** The reminder above the table: the pending filter with at least one payment listed. */
  predicate PendingAlert(statusFilter: string, listed: nat)
  {
    statusFilter == "pending" && listed > 0
  }

  class Page {
    var payments: seq<Payment>
    var total: nat
    var page: nat
    var statusFilter: string
    var selected: Option<Payment>
    var reviewNote: string
    var processing: bool

    /** The page opens on the first page of the pending payments. */
    constructor ()
      ensures payments == [] && total == 0 && page == 0 && statusFilter == "pending"
      ensures selected.None? && reviewNote == "" && !processing
    {
      payments := [];
      total := 0;
      page := 0;
      statusFilter := "pending";
      selected := None;
      reviewNote := "";
      processing := false;
    }

    /** `fetchPayments`' query string: the status when one is chosen, then `skip = page*50` and `limit = 50`. */
    method FetchParams() returns (query: Query)
      ensures query == OptionalParam("status", statusFilter) + PageParams(page)
      ensures Get(query, "status") == if statusFilter == "" then None else Some(statusFilter)
      ensures Get(query, "skip") == Some(Text.IntToString(Skip(page))) && Get(query, "limit") == Some("50")
    {
      var params := new SearchParams();
      if statusFilter != "" {
        params.Append("status", statusFilter);
      }
      AppendPage(params, page);
      query := params.entries;
      assert query == OptionalParam("status", statusFilter) + PageParams(page);
      GetOfPaged(OptionalParam("status", statusFilter), page, "status");
      GetOfPaged(OptionalParam("status", statusFilter), page, "skip");
      GetOfPaged(OptionalParam("status", statusFilter), page, "limit");
    }

    /** The response of a fetch. */
    method Loaded(list: seq<Payment>, count: nat)
      modifies this
      ensures payments == list && total == count
      ensures page == old(page) && statusFilter == old(statusFilter) && selected == old(selected)
      ensures reviewNote == old(reviewNote) && processing == old(processing)
    {
      payments := list;
      total := count;
    }

    /** "previous": `max(0, page - 1)`; from a valid page it stays on one. */
    method Previous()
      modifies this
      ensures page == PreviousPage(old(page))
      ensures old(OnValidPage(page, total)) ==> OnValidPage(page, total)
      ensures payments == old(payments) && total == old(total) && statusFilter == old(statusFilter)
      ensures selected == old(selected) && reviewNote == old(reviewNote) && processing == old(processing)
    {
      if OnValidPage(page, total) {
        ButtonsKeepValidPage(page, total);
      }
      page := PreviousPage(page);
    }

    /** "next": one page on unless the button is disabled; from a valid page it stays on one. */
    method Next()
      modifies this
      ensures page == NextPage(old(page), total)
      ensures old(OnValidPage(page, total)) ==> OnValidPage(page, total)
      ensures payments == old(payments) && total == old(total) && statusFilter == old(statusFilter)
      ensures selected == old(selected) && reviewNote == old(reviewNote) && processing == old(processing)
    {
      if OnValidPage(page, total) {
        ButtonsKeepValidPage(page, total);
      }
      page := NextPage(page, total);
    }

    /** The status select as written: the page number is kept. */
    method SetStatusFilter(f: string)
      modifies this
      ensures statusFilter == f && page == old(page)
      ensures payments == old(payments) && total == old(total)
      ensures selected == old(selected) && reviewNote == old(reviewNote) && processing == old(processing)
    {
      statusFilter := f;
    }

    /** The status select restarting from the first page, which is valid whatever the new filter's total. */
    method SelectStatus(f: string)
      modifies this
      ensures statusFilter == f && page == 0
      ensures forall count: nat :: OnValidPage(page, count)
      ensures payments == old(payments) && total == old(total)
      ensures selected == old(selected) && reviewNote == old(reviewNote) && processing == old(processing)
    {
      statusFilter := f;
      page := 0;
    }

    /** A row's button opens the review modal. */
    method Select(p: Payment)
      modifies this
      ensures selected == Some(p)
      ensures payments == old(payments) && total == old(total) && page == old(page)
      ensures statusFilter == old(statusFilter) && reviewNote == old(reviewNote) && processing == old(processing)
    {
      selected := Some(p);
    }

    method SetReviewNote(note: string)
      modifies this
      ensures reviewNote == note
      ensures payments == old(payments) && total == old(total) && page == old(page)
      ensures statusFilter == old(statusFilter) && selected == old(selected) && processing == old(processing)
    {
      reviewNote := note;
    }

    /**
     * `handleReview(status)`: without a selected payment nothing is sent and nothing
     * changes; otherwise the review of the selected payment with the note is sent, and
     * a success clears the selection and the note. `processing` is off again afterwards.
     */
    method HandleReview(status: string, succeeded: bool) returns (sent: Option<ReviewRequest>)
      modifies this
      ensures old(selected).None? ==> sent.None? && selected.None? && reviewNote == old(reviewNote)
      ensures old(selected).Some? ==> sent == Some(ReviewRequest(old(selected).value.id, status, old(reviewNote)))
      ensures old(selected).Some? && succeeded ==> selected.None? && reviewNote == ""
      ensures !succeeded ==> selected == old(selected) && reviewNote == old(reviewNote)
      ensures old(selected).None? ==> processing == old(processing)
      ensures old(selected).Some? ==> !processing
      ensures payments == old(payments) && total == old(total) && page == old(page) && statusFilter == old(statusFilter)
    {
      if selected.None? {
        sent := None;
        return;
      }
      processing := true;
      sent := Some(ReviewRequest(selected.value.id, status, reviewNote));
      if succeeded {
        selected := None;
        reviewNote := "";
      }
      processing := false;
    }
  }
}
