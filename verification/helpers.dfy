/**
 * The display helpers the admin pages share: byte sizes with a unit chosen by
 * an integer logarithm to base 1024, the inverse unit conversion, the date
 * part of an ISO timestamp, and the colour and role-name lookups with their
 * fallbacks. Numbers are exact rationals.
 */
module Helpers {
  import opened Wrappers
  import opened Text
  import JsValues
  import AdminApi
  import Models

  // ---------------------------------------------------------------- powers of 1024

  /** `Math.pow(1024, i)` for any integer `i` (a fraction when `i` is negative). */
  function Pow1024(i: int): (p: real)
    ensures p > 0.0
    decreases if i < 0 then -i else i
  {
    if i == 0 then 1.0 else if i > 0 then 1024.0 * Pow1024(i - 1) else Pow1024(i + 1) / 1024.0
  }

  lemma Pow1024Step(i: int)
    ensures Pow1024(i + 1) == 1024.0 * Pow1024(i)
  {
  }

  lemma {:induction false} Pow1024Increasing(i: int, j: int)
    requires i < j
    ensures Pow1024(i) < Pow1024(j)
    decreases j - i
  {
    Pow1024Step(j - 1);
    if i < j - 1 {
      Pow1024Increasing(i, j - 1);
    }
  }

  /** The unit index of a size: the `i` with `1024^i <= b < 1024^(i+1)` is unique. */
  lemma UnitIndexUnique(b: real, i: int, j: int)
    requires Pow1024(i) <= b < Pow1024(i + 1)
    requires Pow1024(j) <= b < Pow1024(j + 1)
    ensures i == j
  {
    if i < j {
      Pow1024Increasing(i + 1, j + 1);
      if i + 1 < j { Pow1024Increasing(i + 1, j); }
    } else if j < i {
      if j + 1 < i { Pow1024Increasing(j + 1, i); }
    }
  }

  /** Dividing by a positive `p` keeps the bounds `lo * p <= b < hi * p`. */
  lemma DivideBounds(b: real, p: real, lo: real, hi: real)
    requires p > 0.0 && lo * p <= b < hi * p
    ensures lo <= b / p < hi && (b / p) * p == b
  {
  }

  /** Multiplying by a positive `p` keeps the bounds `lo <= v < hi`. */
  lemma MultiplyBounds(v: real, p: real, lo: real, hi: real)
    requires p > 0.0 && lo <= v < hi
    ensures lo * p <= v * p < hi * p && (v * p) / p == v
  {
  }

  /** `Math.floor(Math.log(b) / Math.log(1024))` for `b >= 1`, computed exactly. */
  function LogUp(b: real): (i: nat)
    requires b >= 1.0
    ensures Pow1024(i) <= b < Pow1024(i + 1)
    decreases b.Floor
  {
    if b < 1024.0 then 0
    else
      assert (b / 1024.0).Floor < b.Floor;
      var j := LogUp(b / 1024.0);
      Pow1024Step(j);
      1 + j
  }

  /** The same for `0 < b < 1`, where the index is negative. */
  function LogDown(b: real): (i: int)
    requires 0.0 < b < 1.0
    ensures i < 0 && Pow1024(i) <= b < Pow1024(i + 1)
    decreases (1.0 / b).Floor
  {
    if b * 1024.0 >= 1.0 then -1
    else
      assert 1.0 / (b * 1024.0) == (1.0 / b) / 1024.0;
      assert (1.0 / (b * 1024.0)).Floor < (1.0 / b).Floor;
      var j := LogDown(b * 1024.0);
      Pow1024Step(j - 1);
      j - 1
  }

  /** The integer logarithm to base 1024 of a positive size. */
  function UnitIndex(b: real): (i: int)
    requires b > 0.0
    ensures Pow1024(i) <= b < Pow1024(i + 1)
  {
    if b >= 1.0 then LogUp(b) else LogDown(b)
  }

  lemma UnitIndexOf(b: real, k: int)
    requires Pow1024(k) <= b < Pow1024(k + 1)
    ensures UnitIndex(b) == k
  {
    UnitIndexUnique(b, UnitIndex(b), k);
  }

  /** `bytes / Math.pow(1024, i)` at the unit index `i`: a magnitude in `[1, 1024)`. */
  function Magnitude(b: real, i: int): (m: real)
    requires Pow1024(i) <= b < Pow1024(i + 1)
    ensures 1.0 <= m < 1024.0
    ensures m * Pow1024(i) == b
  {
    var p := Pow1024(i);
    Pow1024Step(i);
    DivideBounds(b, p, 1.0, 1024.0);
    b / p
  }

  // ---------------------------------------------------------------- formatBytes

  /**
   * What `formatBytes` shows: the fixed zero text, a rounded magnitude with
   * the entry of the unit table at the chosen index (`None` past either end of
   * the table, which renders as `undefined`), or `NaN undefined` for a
   * negative size.
   */
  datatype SizeText =
    | ZeroText(text: string)
    | Scaled(value: real, index: int, unit: Option<string>)
    | NotANumber

  /**
   * `formatBytes(bytes, decimals)` with a unit table and a zero text: a falsy
   * size (`None` is null, undefined or NaN) gives the zero text; otherwise the
   * magnitude `bytes / 1024^i` is rounded to `max(decimals, 0)` places.
   * `toFixed` rejects more than 100 places.
   */
  function FormatBytesWith(sizes: seq<string>, zero: string, bytes: Option<real>, decimals: int): (r: SizeText)
    requires decimals <= 100
    ensures r.ZeroText? <==> bytes.None? || bytes.value == 0.0
    ensures r.ZeroText? ==> r.text == zero
    ensures r.NotANumber? <==> bytes.Some? && bytes.value < 0.0
    ensures r.Scaled? ==> bytes.Some? && Pow1024(r.index) <= bytes.value < Pow1024(r.index + 1)
    ensures r.Scaled? ==> r.value == JsValues.FixedValue(Magnitude(bytes.value, r.index), if decimals < 0 then 0 else decimals)
    ensures r.Scaled? ==> (r.unit.Some? <==> 0 <= r.index < |sizes|)
    ensures r.Scaled? && r.unit.Some? ==> r.unit.value == sizes[r.index]
  {
    if bytes.None? || bytes.value == 0.0 then ZeroText(zero)
    else if bytes.value < 0.0 then NotANumber
    else
      var i := UnitIndex(bytes.value);
      Scaled(JsValues.FixedValue(Magnitude(bytes.value, i), if decimals < 0 then 0 else decimals), i,
             if 0 <= i < |sizes| then Some(sizes[i]) else None)
  }

  const Sizes: seq<string> := ["Bytes", "KB", "MB", "GB", "TB"]

  /** `formatBytes` of the admin pages: units `Bytes` to `TB`, zero text `0 Bytes`. */
  function FormatBytes(bytes: Option<real>, decimals: int): (r: SizeText)
    requires decimals <= 100
    ensures r.ZeroText? ==> r.text == "0 Bytes"
    ensures r.Scaled? ==> (r.unit.Some? <==> 0 <= r.index <= 4)
    ensures r.Scaled? && r.index >= 5 ==> bytes.Some? && bytes.value >= Pow1024(5)
  {
    var r := FormatBytesWith(Sizes, "0 Bytes", bytes, decimals);
    if r.Scaled? && r.index > 5 then
      Pow1024Increasing(5, r.index);
      r
    else
      r
  }

  // ---------------------------------------------------------------- parseBytes

  /** `parseBytes(value, unit)`: `value * 1024^k` for the k-th unit, `value` for any other unit. */
  function ParseBytes(value: real, unit: string): (r: real)
    ensures forall k :: 0 <= k < |Sizes| && unit == Sizes[k] ==> r == value * Pow1024(k)
    ensures unit !in Sizes ==> r == value
  {
    var factor :=
      if unit == "KB" then 1024.0
      else if unit == "MB" then 1024.0 * 1024.0
      else if unit == "GB" then 1024.0 * 1024.0 * 1024.0
      else if unit == "TB" then 1024.0 * 1024.0 * 1024.0 * 1024.0
      else 1.0;
    assert Pow1024(4) == 1024.0 * 1024.0 * 1024.0 * 1024.0;
    value * factor
  }

  lemma ScaledBounds(v: real, k: int)
    requires 1.0 <= v < 1024.0
    ensures Pow1024(k) <= v * Pow1024(k) < Pow1024(k + 1)
    ensures (v * Pow1024(k)) / Pow1024(k) == v
  {
    Pow1024Step(k);
    MultiplyBounds(v, Pow1024(k), 1.0, 1024.0);
  }

  /** A magnitude in `[1, 1024)` entered with a unit is shown again with that unit and that magnitude. */
  lemma FormatOfParse(v: real, k: nat, decimals: int)
    requires 1.0 <= v < 1024.0 && k < |Sizes| && decimals <= 100
    ensures FormatBytes(Some(ParseBytes(v, Sizes[k])), decimals) ==
      Scaled(JsValues.FixedValue(v, if decimals < 0 then 0 else decimals), k, Some(Sizes[k]))
  {
    var b := ParseBytes(v, Sizes[k]);
    assert b == v * Pow1024(k);
    ScaledBounds(v, k);
    UnitIndexOf(b, k);
  }

  // ---------------------------------------------------------------- dates

  /**
   * `formatDateForInput`: '' for a falsy date, otherwise the text before the
   * first `T` of `new Date(s).toISOString()` (the full-date of section 5.6
   * of RFC 3339). The conversion to ISO text is the parameter `toIso`.
   */
  function FormatDateForInput(dateString: Option<string>, toIso: string -> string): (r: string)
    ensures dateString.None? || dateString.value == "" ==> r == ""
    ensures dateString.Some? && dateString.value != "" ==> IsPrefix(r, toIso(dateString.value))
    ensures 'T' !in r
  {
    if dateString.None? || dateString.value == "" then ""
    else
      BeforeIsPrefix(toIso(dateString.value), 'T');
      Before(toIso(dateString.value), 'T')
  }

  /** Of an ISO timestamp `<date>T<time>`, the input shows exactly `<date>`. */
  lemma DateOfTimestamp(s: string, toIso: string -> string, date: string, time: string)
    requires s != "" && toIso(s) == date + "T" + time
    requires 'T' !in date
    ensures FormatDateForInput(Some(s), toIso) == date
  {
    BeforeOfSuffixed(date, time, 'T');
  }

  // ---------------------------------------------------------------- lookups

  const Gray := "bg-gray-500"

  /** `getStatusColor`: a colour per client status, grey for any other status. */
  function GetStatusColor(status: string): (c: string)
    ensures status == "active" ==> c == "bg-green-500"
    ensures status == "expired" ==> c == "bg-red-500"
    ensures status == "data_limit_reached" ==> c == "bg-orange-500"
    ensures c == Gray <==> status !in {"active", "expired", "data_limit_reached"}
  {
    if status == "active" then "bg-green-500"
    else if status == "disabled" then Gray
    else if status == "expired" then "bg-red-500"
    else if status == "data_limit_reached" then "bg-orange-500"
    else Gray
  }

  /** Every client status but `disabled` has a colour of its own; `disabled` shares grey with unknown statuses. */
  lemma StatusColorsDistinct(s: AdminApi.ClientStatus, t: AdminApi.ClientStatus)
    ensures s != t && s != AdminApi.ClientStatus.Disabled && t != AdminApi.ClientStatus.Disabled ==>
      GetStatusColor(s.Value()) != GetStatusColor(t.Value())
    ensures GetStatusColor(AdminApi.ClientStatus.Disabled.Value()) == GetStatusColor("unknown")
  {
  }

  /**
   * `getRoleDisplayName(role, t)`: the translation of `users.superAdmin`,
   * `users.admin` or `users.viewer` for those three roles, and the role itself
   * for any other role or an empty translation.
   */
  function GetRoleDisplayName(role: string, t: string -> string): (r: string)
    ensures role !in {"super_admin", "admin", "viewer"} ==> r == role
    ensures role == "super_admin" ==> r == (if t("users.superAdmin") != "" then t("users.superAdmin") else role)
    ensures role == "admin" ==> r == (if t("users.admin") != "" then t("users.admin") else role)
    ensures role == "viewer" ==> r == (if t("users.viewer") != "" then t("users.viewer") else role)
    ensures r == "" ==> role == ""
  {
    var shown :=
      if role == "super_admin" then t("users.superAdmin")
      else if role == "admin" then t("users.admin")
      else if role == "viewer" then t("users.viewer")
      else "";
    if shown != "" then shown else role
  }

  /** The `support` role of the API has no entry and is shown as its raw value. */
  lemma SupportShownRaw(t: string -> string)
    ensures GetRoleDisplayName(Models.UserRole.Support.Value(), t) == "support"
  {
  }
}
