/**
 * The clients page of the admin front end: the form that creates or edits a
 * WireGuard client and the payload it submits, the search over the loaded
 * clients, the usage bar, the status labels, and the page's state (form,
 * client being edited, open action menu, modal).
 */
module ClientsPage {
  import opened Wrappers
  import opened Text
  import JsValues
  import Helpers
  import AdminApi

  /** A client as `GET /api/clients` returns it, by the fields the page reads. */
  datatype Client = Client(
    id: string,
    name: string,
    email: Option<string>,
    address: Option<string>,
    dataLimit: Option<int>,
    dataUsed: int,
    expiryDate: Option<string>,
    note: Option<string>,
    status: string)

  /** The text fields of the client form. */
  datatype ClientForm = ClientForm(
    name: string,
    email: string,
    dataLimit: string,
    dataLimitUnit: string,
    expiryDate: string,
    note: string)

  /** The body sent by `handleSubmit`; `None` is JSON `null`. */
  datatype ClientPayload = ClientPayload(
    name: string,
    email: Option<string>,
    dataLimit: Option<real>,
    expiryDate: Option<string>,
    note: Option<string>)

  /** The request `handleSubmit` makes: a create, or an update of the client being edited. */
  datatype ClientRequest = Create(payload: ClientPayload) | Update(id: string, payload: ClientPayload)

  const EmptyForm := ClientForm("", "", "", "GB", "", "")

  /** 1024^3, the bytes in the `GB` the edit form uses. */
  const GiB: real := 1024.0 * 1024.0 * 1024.0

  // ---------------------------------------------------------------- units and payload

  /** `getUnitMultiplier`: KB to TB are powers of 1024; any other unit (there is no `Bytes` key) is 1. */
  function UnitMultiplier(unit: string): (m: real)
    ensures m >= 1.0
  {
    if unit == "KB" then 1024.0
    else if unit == "MB" then 1024.0 * 1024.0
    else if unit == "GB" then GiB
    else if unit == "TB" then 1024.0 * GiB
    else 1.0
  }

  /** The page's multiplier agrees with the shared `parseBytes` on every unit, `Bytes` and unknown ones included. */
  lemma UnitMultiplierIsParseBytes(v: real, unit: string)
    ensures v * UnitMultiplier(unit) == Helpers.ParseBytes(v, unit)
    ensures forall k :: 1 <= k < |Helpers.Sizes| && unit == Helpers.Sizes[k] ==> UnitMultiplier(unit) == Helpers.Pow1024(k)
  {
    assert Helpers.Pow1024(4) == 1024.0 * GiB;
    if unit !in Helpers.Sizes {
      assert Helpers.ParseBytes(v, unit) == v;
    } else {
      var k :| 0 <= k < |Helpers.Sizes| && unit == Helpers.Sizes[k];
      assert Helpers.ParseBytes(v, unit) == v * Helpers.Pow1024(k);
    }
  }

  /**
   * The submitted `data_limit`: `null` for an empty field, otherwise the
   * parsed number times the unit's multiplier (a `NaN` serialises as `null`).
   */
  function LimitOf(text: string, unit: string): Option<real>
  {
    if text == "" then None else Times(JsValues.ParseFloat(text), UnitMultiplier(unit))
  }

  /** `p * m` on a number that may be `NaN`. */
  function Times(p: Option<real>, m: real): (r: Option<real>)
    ensures r.Some? <==> p.Some?
  {
    if p.None? then None else Some(p.value * m)
  }

  /** A field whose text parses to `v` is sent as `v` times the unit's multiplier. */
  lemma LimitOfNumber(text: string, unit: string, v: real)
    requires text != "" && JsValues.ParseFloat(text) == Some(v)
    ensures LimitOf(text, unit) == Times(Some(v), UnitMultiplier(unit))
  {
  }

  /** An empty field, or one holding no number (`NaN`), is sent as `null`. */
  lemma LimitOfNoNumber(text: string, unit: string)
    requires text == "" || JsValues.ParseFloat(text).None?
    ensures LimitOf(text, unit).None?
  {
  }

  /** `handleSubmit`'s body: name as typed, empty email, expiry and note become `null`. */
  function Payload(form: ClientForm): (p: ClientPayload)
    ensures p.name == form.name
    ensures p.email.None? <==> form.email == ""
    ensures p.expiryDate.None? <==> form.expiryDate == ""
    ensures p.note.None? <==> form.note == ""
    ensures p.email.Some? ==> p.email.value == form.email
    ensures p.expiryDate.Some? ==> p.expiryDate.value == form.expiryDate
    ensures p.note.Some? ==> p.note.value == form.note
    ensures p.dataLimit == LimitOf(form.dataLimit, form.dataLimitUnit)
  {
    ClientPayload(form.name, JsValues.OrNull(form.email), LimitOf(form.dataLimit, form.dataLimitUnit),
                  JsValues.OrNull(form.expiryDate), JsValues.OrNull(form.note))
  }

  // ---------------------------------------------------------------- the edit form

  /** A data limit is shown (and the usage bar drawn) when it is truthy. */
  predicate Truthy(limit: Option<int>)
  {
    limit.Some? && limit.value != 0
  }

  /** The limit text `handleEdit` fills in: the limit in GiB with two decimals, '' when falsy. */
  function LimitText(c: Client): string
  {
    if Truthy(c.dataLimit) then JsValues.ToFixed2(c.dataLimit.value as real / GiB) else ""
  }

  /** `handleEdit`'s form: `|| ''` fallbacks, the limit in GB, the expiry as an input date. */
  function EditForm(c: Client, toIso: string -> string): (f: ClientForm)
    ensures f.name == c.name && f.dataLimitUnit == "GB"
    ensures f.email == c.email.GetOr("")
    ensures f.note == c.note.GetOr("")
    ensures f.dataLimit == "" <==> !Truthy(c.dataLimit)
    ensures f.expiryDate == Helpers.FormatDateForInput(c.expiryDate, toIso)
  {
    ClientForm(c.name, c.email.GetOr(""), LimitText(c), "GB", Helpers.FormatDateForInput(c.expiryDate, toIso), c.note.GetOr(""))
  }

  /**
   * Re-submitting an untouched edit form sends the stored limit rounded to
   * hundredths of a GiB, scaled back by the GiB multiplier, not the stored
   * limit itself.
   */
  lemma EditLimitRounded(c: Client, toIso: string -> string)
    requires Truthy(c.dataLimit)
    ensures Payload(EditForm(c, toIso)).dataLimit == Times(Some(JsValues.Round2(c.dataLimit.value as real / GiB)), GiB)
  {
    var x := c.dataLimit.value as real / GiB;
    var text := JsValues.ToFixed2(x);
    assert EditForm(c, toIso).dataLimit == text;
    JsValues.ParseFixed2(x);
    assert text != "";
    LimitOfNumber(text, "GB", JsValues.Round2(x));
  }

  /** The rounded limit sent back is within 0.005 GiB of the stored one. */
  lemma RoundedLimitClose(limit: int)
    ensures var sent := Times(Some(JsValues.Round2(limit as real / GiB)), GiB);
      sent.Some? && limit as real - 0.005 * GiB <= sent.value <= limit as real + 0.005 * GiB
  {
    var x := limit as real / GiB;
    var r := JsValues.Round2(x);
    assert x - 0.005 <= r <= x + 0.005;
    assert x * GiB == limit as real;
    assert (x - 0.005) * GiB <= r * GiB <= (x + 0.005) * GiB;
  }

  /** The other fields of an untouched edit form: no limit stays `null`, an empty email or note becomes `null`. */
  lemma EditRoundTrip(c: Client, toIso: string -> string)
    ensures !Truthy(c.dataLimit) ==> Payload(EditForm(c, toIso)).dataLimit.None?
    ensures Payload(EditForm(c, toIso)).name == c.name
    ensures Payload(EditForm(c, toIso)).email == (if c.email == Some("") then None else c.email)
    ensures Payload(EditForm(c, toIso)).note == (if c.note == Some("") then None else c.note)
  {
    if !Truthy(c.dataLimit) {
      LimitOfNoNumber("", "GB");
    }
  }

  /**
   * A stored limit under 0.005 GiB is shown as "0.00"; re-submitting the
   * untouched form sends 0, and a limit of 0 is no limit at all.
   */
  lemma SmallLimitBecomesUnlimited(c: Client, toIso: string -> string)
    requires c.dataLimit.Some? && 0 < c.dataLimit.value && c.dataLimit.value as real * 200.0 < GiB
    ensures Payload(EditForm(c, toIso)).dataLimit == Some(0.0)
    ensures AdminApi.HasLimit(c.dataLimit) && !AdminApi.HasLimit(Some(0))
  {
    RoundedSmallIsZero(c.dataLimit.value);
    EditLimitRounded(c, toIso);
    assert Times(Some(0.0), GiB) == Some(0.0);
  }

  lemma RoundedSmallIsZero(limit: int)
    requires 0 < limit && limit as real * 200.0 < GiB
    ensures JsValues.Round2(limit as real / GiB) == 0.0
  {
    var x := limit as real / GiB;
    assert x * 100.0 + 0.5 < 1.0;
    assert JsValues.Hundredths(x) == 0;
  }

  /**
   * The payload with the limit left out (`null`, which `update_client`
   * reads as "keep") when the limit text is still the one the edit form
   * was opened with.
   */
  function KeepingPayload(form: ClientForm, editing: Option<Client>): (p: ClientPayload)
    ensures editing.Some? && form.dataLimit == LimitText(editing.value) ==> p.dataLimit.None?
    ensures !(editing.Some? && form.dataLimit == LimitText(editing.value)) ==> p == Payload(form)
    ensures p.(dataLimit := Payload(form).dataLimit) == Payload(form)
  {
    if editing.Some? && form.dataLimit == LimitText(editing.value) then Payload(form).(dataLimit := None)
    else Payload(form)
  }

  /** With the keeping payload an untouched edit never changes the stored limit, whatever it was. */
  lemma KeepingEditKeepsLimit(c: Client, toIso: string -> string, doc: AdminApi.ClientDoc, u: AdminApi.ClientUpdate)
    requires u.dataLimit.None?
    ensures KeepingPayload(EditForm(c, toIso), Some(c)).dataLimit.None?
    ensures AdminApi.ApplyClientUpdate(doc, u).dataLimit == doc.dataLimit
  {
  }

  // ---------------------------------------------------------------- search

  /**
   * `filteredClients`' predicate: the query, ignoring case, in the name or
   * the email, or the query as typed in the address.
   */
  predicate Matches(c: Client, query: string)
  {
    Contains(Lower(c.name), Lower(query))
    || (c.email.Some? && Contains(Lower(c.email.value), Lower(query)))
    || (c.address.Some? && Contains(c.address.value, query))
  }

  /** `s` is `t` with some elements dropped, order kept. */
  predicate IsSublist(s: seq<Client>, t: seq<Client>)
    decreases |t|
  {
    s == [] || (t != [] && ((s[0] == t[0] && IsSublist(s[1..], t[1..])) || IsSublist(s, t[1..])))
  }

  /** `clients.filter(...)`: the matching clients, in their order. */
  function Filter(clients: seq<Client>, query: string): (r: seq<Client>)
    ensures IsSublist(r, clients)
    ensures forall c :: c in r <==> c in clients && Matches(c, query)
  {
    if clients == [] then []
    else if Matches(clients[0], query) then [clients[0]] + Filter(clients[1..], query)
    else Filter(clients[1..], query)
  }

  lemma {:induction false} ContainsEmpty(s: string)
    ensures Contains(s, "")
  {
    assert IsPrefix("", s);
  }

  /** The empty query keeps every client. */
  lemma {:induction false} FilterEmptyQuery(clients: seq<Client>)
    ensures Filter(clients, "") == clients
  {
    if clients != [] {
      ContainsEmpty(Lower(clients[0].name));
      assert Lower("") == "";
      FilterEmptyQuery(clients[1..]);
    }
  }

  lemma LowerOfUpper(s: string)
    ensures Lower(Upper(s)) == Lower(s)
  {
    forall i | 0 <= i < |s|
      ensures Lower(Upper(s))[i] == Lower(s)[i]
    {
      var c := s[i];
      assert Upper(s)[i] == UpperChar(c);
    }
  }

  /** Upper-casing the query changes nothing for clients without an address: name and email ignore case. */
  lemma NameAndEmailIgnoreCase(c: Client, query: string)
    requires c.address.None?
    ensures Matches(c, Upper(query)) <==> Matches(c, query)
  {
    LowerOfUpper(query);
  }

  /** The address is searched as typed: an upper-cased query can miss an address its lower-case form finds. */
  lemma AddressIsCaseSensitive()
    ensures var c := Client("1", "x", None, Some("ab"), None, 0, None, None, "active");
      Matches(c, "ab") && !Matches(c, Upper("ab"))
  {
    var c := Client("1", "x", None, Some("ab"), None, 0, None, None, "active");
    assert Upper("ab") == "AB";
    assert Lower("AB") == "ab";
    assert IsPrefix("ab", "ab");
    assert !Contains("x", "ab");
    assert !Contains("ab", "AB") by {
      assert !IsPrefix("AB", "ab");
      assert !Contains("b", "AB") by { assert !Contains("", "AB"); }
    }
  }

  // ---------------------------------------------------------------- usage bar and labels

  /**
   * What `{client.data_limit && (<bar>)}` renders: nothing for a missing
   * limit, React's text "0" for a limit of 0, otherwise the bar.
   */
  datatype UsageBar = NoBar | ZeroText | Bar(color: string, width: real)

  /** The colour tier of a usage ratio: strictly above 0.9 red, strictly above 0.7 yellow. */
  function TierColor(ratio: real): (color: string)
    ensures color == "bg-red-500" <==> ratio > 0.9
    ensures color == "bg-yellow-500" <==> 0.7 < ratio <= 0.9
    ensures color == "bg-green-500" <==> ratio <= 0.7
  {
    if ratio > 0.9 then "bg-red-500" else if ratio > 0.7 then "bg-yellow-500" else "bg-green-500"
  }

  /** `Math.min(ratio * 100, 100)`, the bar's width in percent. */
  function CappedPercent(ratio: real): (w: real)
    ensures w <= 100.0
    ensures ratio >= 0.0 ==> w >= 0.0
    ensures ratio >= 1.0 ==> w == 100.0
    ensures w > 90.0 <==> ratio > 0.9
    ensures w > 70.0 <==> ratio > 0.7
  {
    if ratio * 100.0 < 100.0 then ratio * 100.0 else 100.0
  }

  lemma RatioBounds(used: int, limit: int)
    requires limit > 0
    ensures used >= 0 ==> used as real / limit as real >= 0.0
    ensures used >= limit ==> used as real / limit as real >= 1.0
  {
  }

  function UsageBarOf(c: Client): (b: UsageBar)
    ensures b.NoBar? <==> c.dataLimit.None?
    ensures b.ZeroText? <==> c.dataLimit == Some(0)
    ensures b.Bar? ==> Truthy(c.dataLimit) && b.color == TierColor(c.dataUsed as real / c.dataLimit.value as real)
    ensures b.Bar? ==> b.width <= 100.0
    ensures b.Bar? && c.dataUsed >= 0 && c.dataLimit.value > 0 ==> 0.0 <= b.width
    ensures b.Bar? && c.dataUsed >= c.dataLimit.value > 0 ==> b.width == 100.0
  {
    match c.dataLimit
    case None => NoBar
    case Some(limit) =>
      if limit == 0 then ZeroText
      else
        var ratio := c.dataUsed as real / limit as real;
        if limit > 0 then RatioBounds(c.dataUsed, limit); Bar(TierColor(ratio), CappedPercent(ratio))
        else Bar(TierColor(ratio), CappedPercent(ratio))
  }

  /** `getStatusLabel`: the translation of a known status (if any), otherwise the status itself. */
  function GetStatusLabel(status: string, t: string -> string): (r: string)
    ensures status !in {"active", "disabled", "expired", "data_limit_reached"} ==> r == status
    ensures status == "active" ==> r == (if t("clients.active") != "" then t("clients.active") else status)
    ensures status == "disabled" ==> r == (if t("clients.disabled") != "" then t("clients.disabled") else status)
    ensures status == "expired" ==> r == (if t("clients.expired") != "" then t("clients.expired") else status)
    ensures status == "data_limit_reached" ==> r == (if t("clients.dataLimitReached") != "" then t("clients.dataLimitReached") else status)
    ensures r == "" ==> status == ""
  {
    var key :=
      if status == "active" then Some("clients.active")
      else if status == "disabled" then Some("clients.disabled")
      else if status == "expired" then Some("clients.expired")
      else if status == "data_limit_reached" then Some("clients.dataLimitReached")
      else None;
    if key.Some? && t(key.value) != "" then t(key.value) else status
  }

  // ---------------------------------------------------------------- page state

  class Page {
    var clients: seq<Client>
    var searchQuery: string
    var formData: ClientForm
    var selectedClient: Option<Client>
    var openMenu: Option<string>
    var showModal: bool

    constructor ()
      ensures clients == [] && searchQuery == "" && formData == EmptyForm
      ensures selectedClient.None? && openMenu.None? && !showModal
    {
      clients := [];
      searchQuery := "";
      formData := EmptyForm;
      selectedClient := None;
      openMenu := None;
      showModal := false;
    }

    /** The clients shown: the loaded ones matching the search. */
    function Shown(): (r: seq<Client>)
      reads this
      ensures IsSublist(r, clients)
    {
      Filter(clients, searchQuery)
    }

    /** A menu button: closes the menu of this client if it is the open one, otherwise opens this one. */
    method ToggleMenu(id: string)
      modifies this
      ensures openMenu == Some(id) <==> old(openMenu) != Some(id)
      ensures openMenu.Some? ==> openMenu.value == id
      ensures clients == old(clients) && searchQuery == old(searchQuery) && formData == old(formData)
      ensures selectedClient == old(selectedClient) && showModal == old(showModal)
    {
      openMenu := if openMenu == Some(id) then None else Some(id);
    }

    /** A menu item or the overlay: the menu closes. */
    method CloseMenu()
      modifies this
      ensures openMenu.None?
      ensures clients == old(clients) && searchQuery == old(searchQuery) && formData == old(formData)
      ensures selectedClient == old(selectedClient) && showModal == old(showModal)
    {
      openMenu := None;
    }

    /** `resetForm`: the empty form, unit `GB`, no client being edited. */
    method ResetForm()
      modifies this
      ensures formData == EmptyForm && selectedClient.None?
      ensures clients == old(clients) && searchQuery == old(searchQuery)
      ensures openMenu == old(openMenu) && showModal == old(showModal)
    {
      selectedClient := None;
      formData := EmptyForm;
    }

    /** The "add" button: a reset form in an open modal. */
    method OpenCreate()
      modifies this
      ensures formData == EmptyForm && selectedClient.None? && showModal
      ensures clients == old(clients) && searchQuery == old(searchQuery) && openMenu == old(openMenu)
    {
      ResetForm();
      showModal := true;
    }

    /** `handleEdit`: the client's form in an open modal. */
    method HandleEdit(c: Client, toIso: string -> string)
      modifies this
      ensures selectedClient == Some(c) && formData == EditForm(c, toIso) && showModal
      ensures clients == old(clients) && searchQuery == old(searchQuery) && openMenu == old(openMenu)
    {
      selectedClient := Some(c);
      formData := EditForm(c, toIso);
      showModal := true;
    }

    /** The request `handleSubmit` sends: an update of the edited client, otherwise a create. */
    method SubmitRequest() returns (req: ClientRequest)
      ensures req.Update? <==> selectedClient.Some?
      ensures req.Update? ==> req.id == selectedClient.value.id
      ensures req.payload == Payload(formData)
    {
      if selectedClient.Some? {
        req := Update(selectedClient.value.id, Payload(formData));
      } else {
        req := Create(Payload(formData));
      }
    }

    /** After a successful submit: the modal closes and the form is reset. */
    method SubmitSucceeded()
      modifies this
      ensures !showModal && formData == EmptyForm && selectedClient.None?
      ensures clients == old(clients) && searchQuery == old(searchQuery) && openMenu == old(openMenu)
    {
      showModal := false;
      ResetForm();
    }

    /** `fetchClients` with the list the server returned. */
    method Loaded(list: seq<Client>)
      modifies this
      ensures clients == list
      ensures searchQuery == old(searchQuery) && formData == old(formData) && selectedClient == old(selectedClient)
      ensures openMenu == old(openMenu) && showModal == old(showModal)
    {
      clients := list;
    }
  }
}
