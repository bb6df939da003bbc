/**
 * The discount-codes page of the admin panel: the code form with its
 * percent/amount exclusion and upper-casing, the payload `handleSubmit` sends,
 * the form `openEditModal` fills, the random code `generateCode` draws, and the
 * discount and usage cells of the table.
 */
module DiscountCodesPage {
  import opened Wrappers
  import opened Text
  import JsValues
  import SalesBot

  /** A stored code as the list endpoint returns it; money and counts are whole numbers here. */
  datatype DiscountCode = DiscountCode(
    id: string,
    code: string,
    discountPercent: Option<int>,
    discountAmount: Option<int>,
    maxUses: Option<int>,
    usedCount: Option<int>,
    validUntil: Option<string>,
    minOrderAmount: Option<int>,
    isActive: bool)

  /** The controlled inputs of the modal. */
  datatype CodeForm = CodeForm(
    code: string,
    discountPercent: string,
    discountAmount: string,
    maxUses: string,
    validUntil: string,
    minOrderAmount: string,
    isActive: bool)

  /** The JSON body; `None` is `null`. */
  datatype CodePayload = CodePayload(
    code: string,
    discountPercent: Option<real>,
    discountAmount: Option<real>,
    maxUses: Option<int>,
    validUntil: Option<string>,
    minOrderAmount: Option<real>,
    isActive: bool)

  datatype CodeRequest = Create(payload: CodePayload) | Update(id: string, payload: CodePayload)

  const EmptyForm := CodeForm("", "", "", "", "", "", true)

  // ---------------------------------------------------------------- payload and edit form

  /** `text ? parseFloat(text) : null`. */
  function FloatOrNull(text: string): (r: Option<real>)
    ensures text == "" ==> r.None?
  {
    if text == "" then None else JsValues.ParseFloat(text)
  }

  /** `text ? parseInt(text) : null`. */
  function IntOrNull(text: string): (r: Option<int>)
    ensures text == "" ==> r.None?
  {
    if text == "" then None else JsValues.ParseInt(text)
  }

  /**
   * The body `handleSubmit` sends: empty number fields and an empty date as `null`;
   * a date goes through `new Date(..).toISOString()`, the `toIso` parameter.
   */
  function Payload(form: CodeForm, toIso: string -> string): (p: CodePayload)
    ensures p.code == form.code && p.isActive == form.isActive
    ensures form.discountPercent == "" ==> p.discountPercent.None?
    ensures form.discountAmount == "" ==> p.discountAmount.None?
    ensures form.maxUses == "" ==> p.maxUses.None?
    ensures form.minOrderAmount == "" ==> p.minOrderAmount.None?
    ensures p.validUntil.None? <==> form.validUntil == ""
  {
    CodePayload(
      form.code,
      FloatOrNull(form.discountPercent),
      FloatOrNull(form.discountAmount),
      IntOrNull(form.maxUses),
      if form.validUntil != "" then Some(toIso(form.validUntil)) else None,
      FloatOrNull(form.minOrderAmount),
      form.isActive)
  }

  /** `value?.toString() || ''`: a missing number is '', a 0 is "0". */
  function NumberText(value: Option<int>): (s: string)
    ensures s == "" <==> value.None?
  {
    if value.Some? then IntToString(value.value) else ""
  }

  /** `s.slice(0, n)`. */
  function Take(s: string, n: nat): (r: string)
    ensures |r| <= n && IsPrefix(r, s)
    ensures |s| >= n ==> |r| == n
  {
    if |s| <= n then s else s[..n]
  }

  /** The form `openEditModal` fills: the date cut to its first 10 characters, missing numbers as ''. */
  function EditForm(c: DiscountCode): (form: CodeForm)
    ensures form.code == c.code && form.isActive == c.isActive
    ensures form.discountPercent == "" <==> c.discountPercent.None?
    ensures form.discountAmount == "" <==> c.discountAmount.None?
    ensures form.maxUses == "" <==> c.maxUses.None?
    ensures form.minOrderAmount == "" <==> c.minOrderAmount.None?
    ensures |form.validUntil| <= 10
    ensures form.validUntil == "" <==> c.validUntil.None? || c.validUntil.value == ""
  {
    CodeForm(
      c.code,
      NumberText(c.discountPercent),
      NumberText(c.discountAmount),
      NumberText(c.maxUses),
      if c.validUntil.Some? && c.validUntil.value != "" then Take(c.validUntil.value, 10) else "",
      NumberText(c.minOrderAmount),
      c.isActive)
  }

  function AsReal(value: Option<int>): (r: Option<real>)
    ensures r.Some? <==> value.Some?
  {
    if value.Some? then Some(value.value as real) else None
  }

  lemma FloatOfNumberText(value: Option<int>)
    ensures FloatOrNull(NumberText(value)) == AsReal(value)
  {
    if value.Some? {
      JsValues.ParseIntToString(value.value);
    }
  }

  lemma IntOfNumberText(value: Option<int>)
    ensures IntOrNull(NumberText(value)) == value
  {
    if value.Some? {
      JsValues.ParseIntToString(value.value);
    }
  }

  /**
   * Saving an opened code without touching the form sends the code back: every number
   * as stored (a 0 stays 0), and the expiry as the day it falls on, re-read by `toIso`
   * (the time of day is lost).
   */
  lemma EditRoundTrip(c: DiscountCode, toIso: string -> string)
    ensures Payload(EditForm(c), toIso) == CodePayload(
      c.code,
      AsReal(c.discountPercent),
      AsReal(c.discountAmount),
      c.maxUses,
      if c.validUntil.Some? && c.validUntil.value != "" then Some(toIso(Take(c.validUntil.value, 10))) else None,
      AsReal(c.minOrderAmount),
      c.isActive)
  {
    FloatOfNumberText(c.discountPercent);
    FloatOfNumberText(c.discountAmount);
    IntOfNumberText(c.maxUses);
    FloatOfNumberText(c.minOrderAmount);
    if c.validUntil.Some? && c.validUntil.value != "" {
      assert |Take(c.validUntil.value, 10)| > 0;
    }
  }

  // ---------------------------------------------------------------- the percent/amount inputs

  /** The percent input: it also empties the amount. */
  function WithPercent(form: CodeForm, text: string): (r: CodeForm)
    ensures r.discountPercent == text && r.discountAmount == ""
    ensures r.(discountPercent := form.discountPercent, discountAmount := form.discountAmount) == form
  {
    form.(discountPercent := text, discountAmount := "")
  }

  /** The amount input: it also empties the percent. */
  function WithAmount(form: CodeForm, text: string): (r: CodeForm)
    ensures r.discountAmount == text && r.discountPercent == ""
    ensures r.(discountPercent := form.discountPercent, discountAmount := form.discountAmount) == form
  {
    form.(discountAmount := text, discountPercent := "")
  }

  predicate AtMostOneDiscount(form: CodeForm)
  {
    form.discountPercent == "" || form.discountAmount == ""
  }

  /** After typing in either input the form holds at most one kind, and the payload sends at most one. */
  lemma DiscountInputsExclusive(form: CodeForm, text: string, toIso: string -> string)
    ensures AtMostOneDiscount(WithPercent(form, text)) && AtMostOneDiscount(WithAmount(form, text))
    ensures Payload(WithPercent(form, text), toIso).discountAmount.None?
    ensures Payload(WithAmount(form, text), toIso).discountPercent.None?
    ensures Payload(WithPercent(form, text), toIso).discountPercent == FloatOrNull(text)
    ensures Payload(WithAmount(form, text), toIso).discountAmount == FloatOrNull(text)
  {
  }

  // ---------------------------------------------------------------- generated codes

  /** The `k`-th character of `"ABCDEFGHIJKLMNOPQRSTUVWXYZ0123456789"`: the letters, then the digits. */
  function Alphabet(k: nat): char
    requires k < 36
  {
    if k < 26 then ('A' as int + k) as char else ('0' as int + k - 26) as char
  }

  const CodeChars: string := "ABCDEFGHIJKLMNOPQRSTUVWXYZ0123456789"

  predicate IsCodeChar(c: char)
  {
    'A' <= c <= 'Z' || '0' <= c <= '9'
  }

  /** A value of `Math.random()`. */
  predicate IsDraw(d: real)
  {
    0.0 <= d < 1.0
  }

  /** `Math.floor(d * chars.length)`. */
  function CharIndex(d: real): (k: nat)
    requires IsDraw(d)
    ensures k < |CodeChars|
    ensures k as real <= d * 36.0 < k as real + 1.0
  {
    (d * 36.0).Floor
  }

  /** The position of a code character in `CodeChars`. */
  function Position(c: char): (k: nat)
    requires IsCodeChar(c)
    ensures k < 36
  {
    if 'A' <= c <= 'Z' then (c as int) - ('A' as int) else 26 + (c as int) - ('0' as int)
  }

  /** The literal spells out `Alphabet`. */
  lemma CodeCharsSpelled()
    ensures |CodeChars| == 36 && forall k :: 0 <= k < 36 ==> CodeChars[k] == Alphabet(k)
  {
  }

  lemma CodeCharsLayout()
    ensures |CodeChars| == 36
    ensures forall k :: 0 <= k < 36 ==> IsCodeChar(CodeChars[k]) && Position(CodeChars[k]) == k
  {
    CodeCharsSpelled();
  }

  lemma CodeCharAt(c: char)
    requires IsCodeChar(c)
    ensures CodeChars[Position(c)] == c
  {
    var k := Position(c);
    CodeCharsLayout();
    assert Position(CodeChars[k]) == k;
  }

  /** The character `chars.charAt(..)` picks for one draw. */
  function CharOf(d: real): (c: char)
    requires IsDraw(d)
    ensures IsCodeChar(c)
  {
    CodeCharsLayout();
    CodeChars[CharIndex(d)]
  }

  /** `generateCode`'s loop: one character per draw of `Math.random()`, eight draws. */
  method RandomCode(draws: seq<real>) returns (code: string)
    requires |draws| == 8 && forall i :: 0 <= i < 8 ==> IsDraw(draws[i])
    ensures |code| == 8
    ensures forall i :: 0 <= i < 8 ==> IsCodeChar(code[i]) && code[i] == CharOf(draws[i])
  {
    code := "";
    var i := 0;
    while i < 8
      invariant 0 <= i <= 8 && |code| == i
      invariant forall k :: 0 <= k < i ==> IsCodeChar(code[k]) && code[k] == CharOf(draws[k])
    {
      code := code + [CharOf(draws[i])];
      i := i + 1;
    }
  }

  /** The draw that picks a given character. */
  lemma DrawFor(c: char)
    requires IsCodeChar(c)
    ensures IsDraw(Position(c) as real / 36.0) && CharOf(Position(c) as real / 36.0) == c
  {
    var k := Position(c);
    var d := k as real / 36.0;
    assert d * 36.0 == k as real;
    assert CharIndex(d) == k;
    CodeCharAt(c);
  }

  /** Every eight-character code over `A-Z0-9` can come out of `generateCode`. */
  lemma EveryCodeReachable(s: string)
    requires |s| == 8 && forall i :: 0 <= i < 8 ==> IsCodeChar(s[i])
    ensures exists draws: seq<real> :: |draws| == 8 && (forall i :: 0 <= i < 8 ==> IsDraw(draws[i])) &&
                                      (forall i :: 0 <= i < 8 ==> s[i] == CharOf(draws[i]))
  {
    var draws := seq(8, i requires 0 <= i < 8 => Position(s[i]) as real / 36.0);
    forall i | 0 <= i < 8
      ensures IsDraw(draws[i]) && s[i] == CharOf(draws[i])
    {
      DrawFor(s[i]);
    }
    assert |draws| == 8 && (forall i :: 0 <= i < 8 ==> IsDraw(draws[i])) &&
           (forall i :: 0 <= i < 8 ==> s[i] == CharOf(draws[i]));
  }

  /** A generated code is already upper-case, so the code input leaves it as it is. */
  lemma GeneratedIsUpper(s: string)
    requires forall i :: 0 <= i < |s| ==> IsCodeChar(s[i])
    ensures Upper(s) == s
  {
  }

  // ---------------------------------------------------------------- table cells

  datatype DiscountShown = PercentOff(percent: int) | AmountOff(amount: int) | NoDiscount

  /** The discount column: a truthy percent, else a truthy amount, else '-'. */
  function DiscountCell(c: DiscountCode): (r: DiscountShown)
    ensures r.PercentOff? <==> c.discountPercent.Some? && c.discountPercent.value != 0
    ensures r.AmountOff? <==> !r.PercentOff? && c.discountAmount.Some? && c.discountAmount.value != 0
    ensures r.PercentOff? ==> r.percent == c.discountPercent.value
    ensures r.AmountOff? ==> r.amount == c.discountAmount.value
  {
    if c.discountPercent.Some? && c.discountPercent.value != 0 then PercentOff(c.discountPercent.value)
    else if c.discountAmount.Some? && c.discountAmount.value != 0 then AmountOff(c.discountAmount.value)
    else NoDiscount
  }

  /** The code as the sales bot reads it (its expiry already converted to a time). */
  function BotView(c: DiscountCode, validUntil: Option<int>): (d: SalesBot.Discount)
    ensures d.code == c.code && d.maxUses == c.maxUses && d.usedCount == c.usedCount
  {
    SalesBot.Discount(c.id, c.code, c.isActive, validUntil, c.maxUses, c.usedCount,
      AsReal(c.discountPercent), AsReal(c.discountAmount))
  }

  /** The discount the table shows is the one the bot takes off an order's price. */
  lemma DiscountCellAgreesWithBot(c: DiscountCode, validUntil: Option<int>, price: real)
    ensures DiscountCell(c).PercentOff? ==>
      SalesBot.CodeDiscount(price, Some(BotView(c, validUntil))) == price * DiscountCell(c).percent as real / 100.0
    ensures DiscountCell(c).AmountOff? ==>
      SalesBot.CodeDiscount(price, Some(BotView(c, validUntil))) == DiscountCell(c).amount as real
    ensures DiscountCell(c).NoDiscount? ==> SalesBot.CodeDiscount(price, Some(BotView(c, validUntil))) == 0.0
  {
  }

  /** A use limit the bot enforces: `max_uses` present and non-zero. */
  predicate Limited(c: DiscountCode)
  {
    c.maxUses.Some? && c.maxUses.value != 0
  }

  lemma UnlimitedForBot(c: DiscountCode, validUntil: Option<int>)
    requires !Limited(c)
    ensures !SalesBot.Exhausted(BotView(c, validUntil))
  {
  }

  lemma NoSlash(i: int)
    ensures '/' !in IntToString(i)
  {
    var s := IntToString(i);
    var digits := Digits(if i < 0 then -i else i);
    assert forall k :: 0 <= k < |digits| ==> digits[k] != '/';
    if i < 0 {
      assert s == "-" + digits;
      assert forall k :: 1 <= k < |s| ==> s[k] == digits[k - 1];
    }
  }

  /**
   * The usage column as written: `used_count || 0`, then `{max_uses && <span> / max</span>}`.
   * React renders the `0` that `0 && ..` yields, so an unlimited code stored with
   * `max_uses` 0 gets a stray "0" after its count.
   */
  function UsageCellAsWritten(c: DiscountCode): (r: string)
    ensures IsPrefix(IntToString(c.usedCount.GetOr(0)), r)
    ensures c.maxUses == Some(0) ==> r == IntToString(c.usedCount.GetOr(0)) + "0"
  {
    IntToString(c.usedCount.GetOr(0)) +
      if c.maxUses.None? then ""
      else if c.maxUses.value == 0 then "0"
      else " / " + IntToString(c.maxUses.value)
  }

  /** The usage column as intended: the count, then " / max" exactly for a code the bot limits. */
  function UsageCell(c: DiscountCode): (r: string)
    ensures IsPrefix(IntToString(c.usedCount.GetOr(0)), r)
    ensures '/' in r <==> Limited(c)
    ensures !Limited(c) ==> r == IntToString(c.usedCount.GetOr(0))
  {
    NoSlash(c.usedCount.GetOr(0));
    var used := IntToString(c.usedCount.GetOr(0));
    if Limited(c) then
      assert (used + " / " + IntToString(c.maxUses.value))[|used| + 1] == '/';
      used + " / " + IntToString(c.maxUses.value)
    else used
  }

  /** The two cells agree except on the stray zero. */
  lemma UsageCellsAgree(c: DiscountCode)
    requires c.maxUses != Some(0)
    ensures UsageCellAsWritten(c) == UsageCell(c)
  {
  }

  /**
   * An unlimited code used 3 times and stored with `max_uses` 0 reads "30" in the
   * table, which is what an unlimited code used 30 times shows.
   */
  lemma StrayZeroReadsAsCount(c: DiscountCode, validUntil: Option<int>)
    requires c.usedCount == Some(3) && c.maxUses == Some(0)
    ensures !SalesBot.Exhausted(BotView(c, validUntil))
    ensures UsageCellAsWritten(c) == "30"
    ensures UsageCell(c.(usedCount := Some(30), maxUses := None)) == "30"
    ensures UsageCell(c) == "3"
  {
    assert IntToString(3) == "3";
    assert Digits(30) == Digits(3) + [DigitChar(0)];
    assert IntToString(30) == "30";
  }

  // ---------------------------------------------------------------- page state

  class Page {
    var codes: seq<DiscountCode>
    var formData: CodeForm
    var editingCode: Option<DiscountCode>
    var showModal: bool

    constructor ()
      ensures codes == [] && formData == EmptyForm && editingCode.None? && !showModal
    {
      codes := [];
      formData := EmptyForm;
      editingCode := None;
      showModal := false;
    }

    /** `openEditModal`: the code's form in an open modal. */
    method OpenEditModal(c: DiscountCode)
      modifies this
      ensures editingCode == Some(c) && formData == EditForm(c) && showModal
      ensures codes == old(codes)
    {
      editingCode := Some(c);
      formData := EditForm(c);
      showModal := true;
    }

    /** `resetForm`: the empty form and no code being edited. */
    method ResetForm()
      modifies this
      ensures formData == EmptyForm && editingCode.None?
      ensures codes == old(codes) && showModal == old(showModal)
    {
      editingCode := None;
      formData := EmptyForm;
    }

    /** The code input: what is typed is stored upper-cased. */
    method SetCode(text: string)
      modifies this
      ensures formData == old(formData).(code := Upper(text))
      ensures Upper(formData.code) == formData.code
      ensures codes == old(codes) && editingCode == old(editingCode) && showModal == old(showModal)
    {
      UpperIdempotent(text);
      formData := formData.(code := Upper(text));
    }

    method SetPercent(text: string)
      modifies this
      ensures formData == WithPercent(old(formData), text) && AtMostOneDiscount(formData)
      ensures codes == old(codes) && editingCode == old(editingCode) && showModal == old(showModal)
    {
      formData := WithPercent(formData, text);
    }

    method SetAmount(text: string)
      modifies this
      ensures formData == WithAmount(old(formData), text) && AtMostOneDiscount(formData)
      ensures codes == old(codes) && editingCode == old(editingCode) && showModal == old(showModal)
    {
      formData := WithAmount(formData, text);
    }

    /** `generateCode`: a fresh eight-character code; every other field stays as it was. */
    method GenerateCode(draws: seq<real>)
      requires |draws| == 8 && forall i :: 0 <= i < 8 ==> IsDraw(draws[i])
      modifies this
      ensures |formData.code| == 8 && forall i :: 0 <= i < 8 ==> formData.code[i] == CharOf(draws[i])
      ensures forall i :: 0 <= i < 8 ==> IsCodeChar(formData.code[i])
      ensures formData == old(formData).(code := formData.code)
      ensures codes == old(codes) && editingCode == old(editingCode) && showModal == old(showModal)
    {
      var code := RandomCode(draws);
      formData := formData.(code := code);
    }

    /** The request `handleSubmit` sends: a PUT of the edited code, otherwise a POST. */
    method SubmitRequest(toIso: string -> string) returns (req: CodeRequest)
      ensures req.Update? <==> editingCode.Some?
      ensures req.Update? ==> req.id == editingCode.value.id
      ensures req.payload == Payload(formData, toIso)
    {
      if editingCode.Some? {
        req := Update(editingCode.value.id, Payload(formData, toIso));
      } else {
        req := Create(Payload(formData, toIso));
      }
    }

    /** After a successful save: the modal closes and the form is reset. */
    method SubmitSucceeded()
      modifies this
      ensures !showModal && formData == EmptyForm && editingCode.None?
      ensures codes == old(codes)
    {
      showModal := false;
      ResetForm();
    }

    /** `fetchCodes` with the codes the server returned. */
    method Loaded(list: seq<DiscountCode>)
      modifies this
      ensures codes == list
      ensures formData == old(formData) && editingCode == old(editingCode) && showModal == old(showModal)
    {
      codes := list;
    }
  }
}
