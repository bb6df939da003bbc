/**
 * The public subscription page a client opens from its link: the Persian
 * `formatBytes`, the remaining days until expiry, the status card with its
 * fallback, the usage bar, the time panel (waiting for the first connection
 * or the expiry), the auto-renew box, and the `data`/`loading`/`error` state
 * that each fetch overwrites.
 */
module SubscriptionPage {
  import opened Wrappers
  import Helpers
  import ClientsPage
  import AdminApi

  // ---------------------------------------------------------------- sizes

  /** The unit labels of the page: byte, kilobyte, megabyte, gigabyte, terabyte. */
  const PersianSizes: seq<string> := ["بایت", "کیلوبایت", "مگابایت", "گیگابایت", "ترابایت"]

  const PersianZero := "0 بایت"

  /** The page's own `formatBytes`: the shared unit selection with Persian labels. */
  function FormatBytes(bytes: Option<real>, decimals: int): (r: Helpers.SizeText)
    requires decimals <= 100
    ensures r.ZeroText? ==> r.text == PersianZero
    ensures r.Scaled? ==> (r.unit.Some? <==> 0 <= r.index <= 4)
  {
    Helpers.FormatBytesWith(PersianSizes, PersianZero, bytes, decimals)
  }

  /**
   * Both `formatBytes` pick the same case, magnitude and unit index for every
   * size; only the labels differ, index for index.
   */
  lemma SameScaleAsAdmin(bytes: Option<real>, decimals: int)
    requires decimals <= 100
    ensures var p, a := FormatBytes(bytes, decimals), Helpers.FormatBytes(bytes, decimals);
      && (p.ZeroText? <==> a.ZeroText?)
      && (p.NotANumber? <==> a.NotANumber?)
      && (p.Scaled? ==> a.Scaled? && p.value == a.value && p.index == a.index)
      && (p.Scaled? && p.unit.Some? ==> a.unit.Some? && p.unit.value == PersianSizes[p.index] && a.unit.value == Helpers.Sizes[p.index])
  {
    var p, a := FormatBytes(bytes, decimals), Helpers.FormatBytes(bytes, decimals);
    if p.Scaled? {
      Helpers.UnitIndexUnique(bytes.value, p.index, a.index);
    }
  }

  // ---------------------------------------------------------------- days

  /** Milliseconds in a day. */
  const DayMs: int := 1000 * 60 * 60 * 24

  /** `Math.ceil(a / d)` for a positive divisor. */
  function CeilDiv(a: int, d: int): (q: int)
    requires d > 0
    ensures (q - 1) * d < a <= q * d
  {
    -((-a) / d)
  }

  /**
   * `getRemainingDays`: `null` without an expiry date, else the whole days
   * until it, rounded up. Both instants are milliseconds since the epoch.
   */
  function RemainingDays(expiry: Option<int>, now: int): (r: Option<int>)
    ensures r.None? <==> expiry.None?
    ensures r.Some? ==> (r.value - 1) * DayMs < expiry.value - now <= r.value * DayMs
  {
    match expiry
    case None => None
    case Some(e) => Some(CeilDiv(e - now, DayMs))
  }

  /** A positive count of days remains exactly while the expiry lies ahead. */
  lemma RemainingWhileAhead(e: int, now: int)
    ensures RemainingDays(Some(e), now).value > 0 <==> e > now
    ensures e - now == DayMs ==> RemainingDays(Some(e), now).value == 1
  {
    var q := RemainingDays(Some(e), now).value;
    if q > 0 {
      assert e - now > (q - 1) * DayMs >= 0;
    } else {
      assert e - now <= q * DayMs <= 0;
    }
  }

  /** The remaining-days cell: `<n> days` when positive, otherwise "expired". */
  datatype RemainingText = DaysLeft(days: int) | ExpiredText

  function RemainingTextOf(days: int): (t: RemainingText)
    ensures t.DaysLeft? <==> days > 0
    ensures t.DaysLeft? ==> t.days == days
  {
    if days > 0 then DaysLeft(days) else ExpiredText
  }

  // ---------------------------------------------------------------- status card

  datatype StatusInfo = StatusInfo(caption: string, color: string, bg: string)

  const ActiveInfo := StatusInfo("فعال", "text-green-500", "bg-green-500/20")
  const DisabledInfo := StatusInfo("غیرفعال", "text-gray-500", "bg-gray-500/20")
  const ExpiredInfo := StatusInfo("منقضی شده", "text-red-500", "bg-red-500/20")
  const ReachedInfo := StatusInfo("حجم تمام شده", "text-orange-500", "bg-orange-500/20")

  /** `getStatusInfo`: the entry of a known status, the `active` entry for any other. */
  function GetStatusInfo(status: string): (info: StatusInfo)
    ensures status !in {"disabled", "expired", "data_limit_reached"} ==> info == ActiveInfo
    ensures status == "disabled" ==> info == DisabledInfo
    ensures status == "expired" ==> info == ExpiredInfo
    ensures status == "data_limit_reached" ==> info == ReachedInfo
  {
    if status == "disabled" then DisabledInfo
    else if status == "expired" then ExpiredInfo
    else if status == "data_limit_reached" then ReachedInfo
    else ActiveInfo
  }

  /** The four server statuses get four different cards, and an unknown status looks active. */
  lemma StatusCardsDistinct(s: AdminApi.ClientStatus, t: AdminApi.ClientStatus, unknown: string)
    requires unknown !in {"active", "disabled", "expired", "data_limit_reached"}
    ensures s != t ==> GetStatusInfo(s.Value()) != GetStatusInfo(t.Value())
    ensures GetStatusInfo(unknown) == GetStatusInfo(AdminApi.ClientStatus.Active.Value())
  {
  }

  // ---------------------------------------------------------------- data card

  /** `usagePercent`: 0 without a (truthy) limit, else the capped percentage used. */
  function UsagePercent(used: int, limit: Option<int>): (p: real)
    ensures !ClientsPage.Truthy(limit) ==> p == 0.0
    ensures p <= 100.0
    ensures used >= 0 && (limit.None? || limit.value >= 0) ==> p >= 0.0
  {
    if ClientsPage.Truthy(limit) then
      if limit.value > 0 then
        ClientsPage.RatioBounds(used, limit.value);
        ClientsPage.CappedPercent(used as real / limit.value as real)
      else
        ClientsPage.CappedPercent(used as real / limit.value as real)
    else 0.0
  }

  /** The bar colour: above 90 red, above 70 yellow, else green. */
  function BarColor(percent: real): (color: string)
    ensures color == "bg-red-500" <==> percent > 90.0
    ensures color == "bg-yellow-500" <==> 70.0 < percent <= 90.0
    ensures color == "bg-green-500" <==> percent <= 70.0
  {
    if percent > 90.0 then "bg-red-500" else if percent > 70.0 then "bg-yellow-500" else "bg-green-500"
  }

  /** The subscription bar and the admin page's bar agree on colour and width for every client. */
  lemma BarAgreesWithAdmin(c: ClientsPage.Client)
    requires ClientsPage.Truthy(c.dataLimit)
    ensures var bar := ClientsPage.UsageBarOf(c);
      bar.Bar? && bar.width == UsagePercent(c.dataUsed, c.dataLimit)
      && bar.color == BarColor(UsagePercent(c.dataUsed, c.dataLimit))
  {
  }

  /** A subscription as `GET /api/sub/{id}` returns it, by the fields the page reads. */
  datatype Subscription = Subscription(
    name: string,
    status: string,
    isOnline: bool,
    dataUsed: int,
    dataLimit: Option<int>,
    dataRemaining: int,
    expiryDate: Option<int>,
    startOnFirstConnect: bool,
    timerStarted: bool,
    expiryDays: int,
    firstConnectionAt: Option<string>,
    autoRenew: bool,
    renewCount: int)

  /** The data card: "unlimited", or usage, bar, remaining (or "finished") and total. */
  datatype DataCard =
    | Unlimited
    | Limited(used: Helpers.SizeText, percent: real, color: string,
              remaining: Option<Helpers.SizeText>, total: Helpers.SizeText)

  function DataCardOf(d: Subscription): (card: DataCard)
    ensures card.Unlimited? <==> !ClientsPage.Truthy(d.dataLimit)
    ensures card.Limited? ==> card.percent <= 100.0 && card.color == BarColor(card.percent)
    ensures card.Limited? ==> (card.remaining.Some? <==> d.dataRemaining > 0)
    ensures card.Limited? && card.remaining.Some? ==> card.remaining.value == FormatBytes(Some(d.dataRemaining as real), 2)
    ensures card.Limited? ==> card.total == FormatBytes(Some(d.dataLimit.value as real), 2)
  {
    if !ClientsPage.Truthy(d.dataLimit) then Unlimited
    else
      var percent := UsagePercent(d.dataUsed, d.dataLimit);
      Limited(FormatBytes(Some(d.dataUsed as real), 2), percent, BarColor(percent),
              if d.dataRemaining > 0 then Some(FormatBytes(Some(d.dataRemaining as real), 2)) else None,
              FormatBytes(Some(d.dataLimit.value as real), 2))
  }

  // ---------------------------------------------------------------- time panel and renewals

  datatype ExpiryLine = NoTimeLimit | ExpiresIn(remaining: RemainingText)

  /**
   * The time panel: waiting for the first connection (with the days that will
   * then start), or the expiry line and, when known, the first connection.
   */
  datatype TimePanel =
    | WaitingForFirstConnection(days: int)
    | TimeInfo(expiry: ExpiryLine, showsFirstConnection: bool)

  /** The expiry line: "no time limit" without a date, else the remaining-days cell. */
  function ExpiryLineOf(expiry: Option<int>, now: int): (line: ExpiryLine)
    ensures line.NoTimeLimit? <==> expiry.None?
    ensures line.ExpiresIn? ==> (line.remaining.DaysLeft? <==> expiry.value > now)
    ensures line.ExpiresIn? && line.remaining.DaysLeft? ==> line.remaining.days == RemainingDays(expiry, now).value
  {
    match expiry
    case None => NoTimeLimit
    case Some(e) =>
      RemainingWhileAhead(e, now);
      ExpiresIn(RemainingTextOf(RemainingDays(expiry, now).value))
  }

  function TimePanelOf(d: Subscription, now: int): (panel: TimePanel)
    ensures panel.WaitingForFirstConnection? <==> d.startOnFirstConnect && !d.timerStarted
    ensures panel.WaitingForFirstConnection? ==> panel.days == d.expiryDays
    ensures panel.TimeInfo? ==> (panel.expiry.NoTimeLimit? <==> d.expiryDate.None?)
    ensures panel.TimeInfo? && panel.expiry.ExpiresIn? ==>
      (panel.expiry.remaining.DaysLeft? <==> d.expiryDate.value > now)
    ensures panel.TimeInfo? ==> (panel.showsFirstConnection <==> d.firstConnectionAt.Some? && d.firstConnectionAt.value != "")
  {
    if d.startOnFirstConnect && !d.timerStarted then WaitingForFirstConnection(d.expiryDays)
    else
      var expiry := ExpiryLineOf(d.expiryDate, now);
      TimeInfo(expiry, d.firstConnectionAt.Some? && d.firstConnectionAt.value != "")
  }

  /** The auto-renew box: shown when auto renewal is on, with the count once it is positive. */
  datatype RenewBox = NoRenewBox | RenewInfo(count: Option<int>)

  function RenewBoxOf(d: Subscription): (box: RenewBox)
    ensures box.RenewInfo? <==> d.autoRenew
    ensures box.RenewInfo? ==> (box.count.Some? <==> d.renewCount > 0)
    ensures box.RenewInfo? && box.count.Some? ==> box.count.value == d.renewCount
  {
    if !d.autoRenew then NoRenewBox
    else RenewInfo(if d.renewCount > 0 then Some(d.renewCount) else None)
  }

  // ---------------------------------------------------------------- fetch state

  const DefaultError := "خطا در دریافت اطلاعات"

  /** What the page renders: the spinner, the error card, or the subscription. */
  datatype Screen = Spinner | ErrorCard(message: string) | Details(data: Subscription)

  class View {
    var data: Option<Subscription>
    var loading: bool
    var error: Option<string>

    /** Once loading is over, either an error or some data is there to show. */
    predicate Valid()
      reads this
    {
      !loading && error.None? ==> data.Some?
    }

    constructor ()
      ensures Valid() && loading && data.None? && error.None?
    {
      data := None;
      loading := true;
      error := None;
    }

    /** The screen, loading first, then the error, then the data. */
    function Screen(): (s: Screen)
      requires Valid()
      reads this
      ensures s.Spinner? <==> loading
      ensures s.ErrorCard? <==> !loading && error.Some?
      ensures s.Details? ==> Some(s.data) == data
    {
      if loading then Spinner
      else if error.Some? then ErrorCard(error.value)
      else Details(data.value)
    }

    /**
     * `fetchData` with the outcome of the request: a response replaces the
     * data and clears the error; a failure keeps the old data and shows the
     * server's `detail` (when truthy) or the fixed message.
     */
    method FetchData(response: Result<Subscription, Option<string>>)
      requires Valid()
      modifies this
      ensures Valid() && !loading
      ensures response.Ok? ==> data == Some(response.value) && error.None?
      ensures response.Err? ==> data == old(data)
      ensures response.Err? ==> error == Some(if response.error.Some? && response.error.value != "" then response.error.value else DefaultError)
    {
      match response {
        case Ok(d) =>
          data := Some(d);
          error := None;
        case Err(detail) =>
          error := Some(if detail.Some? && detail.value != "" then detail.value else DefaultError);
      }
      loading := false;
    }
  }
}
