/**
 * The commerce rules of the V2Ray sales bot: the price pipeline of the order
 * summary, discount codes, the wallet and card payments of an order, the
 * receipt upload, the one-time referral binding, the main keyboard and the
 * state table of the buy conversation. Collections are maps keyed by id, the
 * conversation's `user_data` is a `Session` value, prices are exact reals, and
 * the clock and the generated ids are parameters.
 */
module SalesBot {
  import opened Wrappers
  import opened Text
  import Models

  // ---------------------------------------------------------------- documents

  /** A Telegram user of the bot; `referredBy` is `None` while unset. */
  datatype BotUser = BotUser(
    telegramId: int,
    walletBalance: real,
    isBanned: bool,
    isReseller: bool,
    resellerDiscount: real,
    referredBy: Option<int>)

  /** A discount code; a `None` field is missing or null. */
  datatype Discount = Discount(
    id: string,
    code: string,
    isActive: bool,
    validUntil: Option<int>,
    maxUses: Option<int>,
    usedCount: Option<int>,
    discountPercent: Option<real>,
    discountAmount: Option<real>)

  datatype Plan = Plan(id: string, price: real, durationDays: int, trafficGb: Option<real>, salesCount: int)

  datatype Order = Order(
    id: string,
    telegramUserId: int,
    planId: string,
    serverId: string,
    discountCode: Option<string>,
    originalPrice: real,
    discountAmount: real,
    finalPrice: real,
    status: Models.OrderStatus,
    paymentMethod: Option<string>,
    createdAt: int)

  datatype Subscription = Subscription(
    id: string,
    telegramUserId: int,
    orderId: string,
    planId: string,
    serverId: string,
    expiresAt: int,
    trafficLimit: Option<real>,
    trafficUsed: int,
    isActive: bool)

  datatype Payment = Payment(id: string, orderId: string, amount: real, receiptFileId: string, status: Models.PaymentStatus)

  /** The keys of the conversation's `user_data` the buy flow uses; `None` is an absent key. */
  datatype Session = Session(
    plan: Option<Plan>,
    serverId: Option<string>,
    discount: Option<Discount>,
    finalPrice: Option<real>,
    originalPrice: Option<real>,
    discountAmount: Option<real>,
    orderId: Option<string>)

  const EmptySession := Session(None, None, None, None, None, None, None)

  /** Seconds in a day. */
  const Day := 86400

  // ---------------------------------------------------------------- conversation states

  const SelectingPlan := 0
  const SelectingServer := 1
  const EnteringDiscount := 2
  const ConfirmingOrder := 3
  const UploadingReceipt := 10
  const SelectingDepartment := 20
  const EnteringTicketSubject := 21
  const EnteringTicketMessage := 22
  const ReplyingTicket := 23
  const EnteringWalletAmount := 30
  /** `ConversationHandler.END`. */
  const End := -1

  // ---------------------------------------------------------------- price pipeline

  /** Python truthiness of an optional number. */
  predicate Truthy(x: Option<real>)
  {
    x.Some? && x.value != 0.0
  }

  /** The plan price after the reseller discount, which applies to resellers with a non-zero discount. */
  function ResellerPrice(price: real, user: BotUser): (p: real)
    ensures !(user.isReseller && user.resellerDiscount != 0.0) ==> p == price
    ensures price >= 0.0 && 0.0 <= user.resellerDiscount <= 100.0 ==> 0.0 <= p <= price
  {
    if user.isReseller && user.resellerDiscount != 0.0 then
      ScaleBounds(price, user.resellerDiscount / 100.0);
      price * (1.0 - user.resellerDiscount / 100.0)
    else price
  }

  /** Taking a fraction between 0 and 1 off a non-negative amount stays within [0, amount]. */
  lemma ScaleBounds(a: real, f: real)
    ensures 0.0 <= a && 0.0 <= f <= 1.0 ==> 0.0 <= a * (1.0 - f) <= a
  {
    if 0.0 <= a && 0.0 <= f <= 1.0 {
      assert a * (1.0 - f) == a - a * f;
      assert 0.0 <= a * f <= a * 1.0;
    }
  }

  /**
   * The amount a code takes off `price`: a truthy percentage of the price, else
   * a truthy fixed amount, else nothing.
   */
  function CodeDiscount(price: real, discount: Option<Discount>): (amount: real)
    ensures discount.None? ==> amount == 0.0
    ensures discount.Some? && Truthy(discount.value.discountPercent) ==>
      amount == price * discount.value.discountPercent.value / 100.0
    ensures discount.Some? && !Truthy(discount.value.discountPercent) && Truthy(discount.value.discountAmount) ==>
      amount == discount.value.discountAmount.value
    ensures discount.Some? && !Truthy(discount.value.discountPercent) && !Truthy(discount.value.discountAmount) ==>
      amount == 0.0
  {
    if discount.None? then 0.0
    else if Truthy(discount.value.discountPercent) then price * discount.value.discountPercent.value / 100.0
    else if Truthy(discount.value.discountAmount) then discount.value.discountAmount.value
    else 0.0
  }

  /** What the order summary stores in the session. */
  datatype Quote = Quote(finalPrice: real, originalPrice: real, discountAmount: real)

  /** `show_order_summary`: reseller discount, then the code, then clamping at zero. */
  function QuoteOf(plan: Plan, user: BotUser, discount: Option<Discount>): (q: Quote)
    ensures q.finalPrice >= 0.0
    ensures q.originalPrice == plan.price
    ensures q.discountAmount == CodeDiscount(ResellerPrice(plan.price, user), discount)
    ensures q.finalPrice <= ResellerPrice(plan.price, user) || q.discountAmount < 0.0 ||
            ResellerPrice(plan.price, user) < 0.0
    ensures q.finalPrice + q.discountAmount >= ResellerPrice(plan.price, user)
    ensures q.finalPrice == 0.0 || q.finalPrice + q.discountAmount == ResellerPrice(plan.price, user)
    ensures q.finalPrice == 0.0 ==> q.discountAmount >= ResellerPrice(plan.price, user)
  {
    var price := ResellerPrice(plan.price, user);
    var amount := CodeDiscount(price, discount);
    Quote(if price - amount > 0.0 then price - amount else 0.0, plan.price, amount)
  }

  /** Without a reseller discount or a code the final price is the plan price (when not negative). */
  lemma QuoteWithoutDiscounts(plan: Plan, user: BotUser)
    requires !user.isReseller && plan.price >= 0.0
    ensures QuoteOf(plan, user, None) == Quote(plan.price, plan.price, 0.0)
  {
  }

  /**
   * A percentage code applies to the reseller-adjusted price: both discounts
   * compose multiplicatively, and a fixed amount given beside the percentage
   * is ignored.
   */
  lemma PercentOnResellerPrice(plan: Plan, user: BotUser, d: Discount)
    requires user.isReseller && user.resellerDiscount != 0.0
    requires Truthy(d.discountPercent) && d.discountPercent.value <= 100.0
    requires plan.price >= 0.0 && 0.0 <= user.resellerDiscount <= 100.0
    ensures QuoteOf(plan, user, Some(d)).finalPrice ==
      plan.price * (1.0 - user.resellerDiscount / 100.0) * (1.0 - d.discountPercent.value / 100.0)
    ensures QuoteOf(plan, user, Some(d)) == QuoteOf(plan, user, Some(d.(discountAmount := None)))
  {
    var price := ResellerPrice(plan.price, user);
    var pct := d.discountPercent.value;
    assert price - price * pct / 100.0 == price * (1.0 - pct / 100.0);
    assert price >= 0.0;
    ScaleBounds(price, pct / 100.0);
  }

  /** A fixed amount larger than the price makes the order free, never negative. */
  lemma AmountBeyondPrice(plan: Plan, user: BotUser, d: Discount)
    requires !Truthy(d.discountPercent) && Truthy(d.discountAmount)
    requires d.discountAmount.value >= ResellerPrice(plan.price, user)
    ensures QuoteOf(plan, user, Some(d)).finalPrice == 0.0
  {
  }

  // ---------------------------------------------------------------- discount codes

  /**
   * The code as entered, stripped and upper-cased: it neither starts nor ends
   * with white space and holds no lower-case ASCII letter.
   */
  function NormalizeCode(text: string): (code: string)
    ensures code == [] || (!IsSpace(code[0]) && !IsSpace(code[|code| - 1]))
    ensures forall i :: 0 <= i < |code| ==> !('a' <= code[i] <= 'z')
  {
    StripIsUnpadded(text);
    Upper(Strip(text))
  }

  /** Normalising an already normalised code changes nothing. */
  lemma NormalizeIdempotent(text: string)
    ensures NormalizeCode(NormalizeCode(text)) == NormalizeCode(text)
  {
    StripUpperIdempotent(text);
  }

  /** The lookup filter: same code, active, and no expiry or an expiry after `now`. */
  predicate Matches(d: Discount, code: string, now: int)
  {
    d.code == code && d.isActive && (d.validUntil.None? || d.validUntil.value > now)
  }

  /** A code is used up when `max_uses` is truthy and `used_count` (default 0) reached it. */
  predicate Exhausted(d: Discount)
  {
    d.maxUses.Some? && d.maxUses.value != 0 && d.usedCount.GetOr(0) >= d.maxUses.value
  }

  /** `$inc: {used_count: 1}`: a missing count starts at 0. */
  function Used(d: Discount): (r: Discount)
    ensures r.usedCount == Some(d.usedCount.GetOr(0) + 1)
    ensures r.(usedCount := d.usedCount) == d
  {
    d.(usedCount := Some(d.usedCount.GetOr(0) + 1))
  }

  /** Every use of a limited code brings it closer to exhaustion; once exhausted it stays so. */
  lemma ExhaustionSticks(d: Discount)
    ensures Exhausted(d) ==> Exhausted(Used(d))
    ensures d.maxUses.Some? && d.maxUses.value > 0 && d.usedCount.GetOr(0) == d.maxUses.value - 1 ==>
      !Exhausted(d) && Exhausted(Used(d))
  {
  }

  /** A code without a (truthy) use limit is never exhausted. */
  lemma UnlimitedNeverExhausted(d: Discount)
    requires d.maxUses.None? || d.maxUses.value == 0
    ensures !Exhausted(d) && !Exhausted(Used(d))
  {
  }

  // ---------------------------------------------------------------- referral

  /** The referrer of a `/start ref_<id>` argument, when the id is an integer. */
  function ReferrerOf(args: seq<string>): (r: Option<int>)
    ensures r.Some? ==> |args| > 0 && IsPrefix("ref_", args[0]) && ParseInt(args[0][4..]) == r
    ensures |args| > 0 && IsPrefix("ref_", args[0]) && ParseInt(args[0][4..]).Some? ==> r.Some?
  {
    if |args| > 0 && IsPrefix("ref_", args[0]) then ParseInt(args[0][4..]) else None
  }

  /** Python truthiness of `referred_by`: unset or 0 counts as not referred. */
  predicate IsReferred(user: BotUser)
  {
    user.referredBy.Some? && user.referredBy.value != 0
  }

  /** A new user of `get_or_create_user`. */
  function NewUser(telegramId: int): (u: BotUser)
    ensures u.telegramId == telegramId && u.walletBalance == 0.0 && !u.isBanned && !u.isReseller
    ensures !IsReferred(u)
  {
    BotUser(telegramId, 0.0, false, false, 0.0, None)
  }

  /** The user `get_or_create_user` answers with: the stored one, or a new one. */
  function StoredOrNew(users: map<int, BotUser>, telegramId: int): (u: BotUser)
    ensures telegramId in users ==> u == users[telegramId]
    ensures telegramId !in users ==> u == NewUser(telegramId)
  {
    if telegramId in users then users[telegramId] else NewUser(telegramId)
  }

  // ---------------------------------------------------------------- main keyboard

  const BuyButton := "🛒 خرید اشتراک"
  const ResellerButton := "🏪 پنل نمایندگی"

  /** The rows of the main menu every user sees. */
  const BaseKeyboard: seq<seq<string>> := [
    [BuyButton, "👤 حساب کاربری"],
    ["💰 کیف پول", "🎫 پشتیبانی"],
    ["📋 اشتراک‌های من", "📞 ارتباط با ما"]
  ]

  /** `get_main_keyboard`: resellers get their panel button as a third row. */
  function MainKeyboard(user: BotUser): (rows: seq<seq<string>>)
    ensures !user.isReseller ==> rows == BaseKeyboard
    ensures user.isReseller ==>
      |rows| == 4 && rows[2] == [ResellerButton] && rows[..2] + rows[3..] == BaseKeyboard
    ensures (exists i :: 0 <= i < |rows| && rows[i] == [ResellerButton]) <==> user.isReseller
  {
    if user.isReseller then
      var rows := BaseKeyboard[..2] + [[ResellerButton]] + BaseKeyboard[2..];
      assert rows[..2] + rows[3..] == BaseKeyboard;
      rows
    else
      BaseKeyboard
  }

  // ---------------------------------------------------------------- buy conversation table

  /** An update as the buy conversation sees it. */
  datatype Update =
    | Callback(data: string)
    | Message(text: Option<string>, hasPhoto: bool)

  /** The callbacks of the buy conversation. */
  datatype Handler =
    | BuySubscription | BuySubscriptionCallback | SelectPlan | SelectServer | HandleDiscount
    | ProcessDiscountCode | ConfirmOrder | ReceiveReceipt | Cancel

  /** `filters.COMMAND`: a text message that starts with a bot command. */
  predicate IsCommand(text: string)
  {
    |text| > 0 && text[0] == '/'
  }

  /** The entry points: the buy button, or the back-to-plans callback. */
  function EntryPoint(u: Update): Option<Handler>
  {
    match u
    case Message(Some(t), _) => if t == BuyButton then Some(BuySubscription) else None
    case Callback(data) => if data == "back_to_plans" then Some(BuySubscriptionCallback) else None
    case _ => None
  }

  /** The handlers registered for a state, first match wins. */
  function StateHandler(state: int, u: Update): Option<Handler>
  {
    if state == SelectingPlan then (if u.Callback? then Some(SelectPlan) else None)
    else if state == SelectingServer then (if u.Callback? then Some(SelectServer) else None)
    else if state == EnteringDiscount then
      (if u.Callback? then Some(HandleDiscount)
       else if u.text.Some? && !IsCommand(u.text.value) then Some(ProcessDiscountCode)
       else None)
    else if state == ConfirmingOrder then (if u.Callback? then Some(ConfirmOrder) else None)
    else if state == UploadingReceipt then (if u.Message? && u.hasPhoto then Some(ReceiveReceipt) else None)
    else None
  }

  /** The `/cancel` fallback. */
  function Fallback(u: Update): Option<Handler>
  {
    if u.Message? && u.text == Some("/cancel") then Some(Cancel) else None
  }

  /**
   * The handler the buy conversation runs for an update in `state` (`None`
   * outside the conversation): with re-entry allowed the entry points come
   * first, then the state's handlers, then the fallback.
   */
  function Dispatch(state: Option<int>, u: Update): (h: Option<Handler>)
    ensures EntryPoint(u).Some? ==> h == EntryPoint(u)
    ensures state.None? ==> h == EntryPoint(u)
    ensures h == Some(ReceiveReceipt) ==> state == Some(UploadingReceipt) && u.Message? && u.hasPhoto
  {
    if EntryPoint(u).Some? then EntryPoint(u)
    else if state.None? then None
    else if StateHandler(state.value, u).Some? then StateHandler(state.value, u)
    else Fallback(u)
  }

  /** Each state of the buy flow has its own handler; a plain text while waiting for a receipt reaches none. */
  lemma DispatchTable(text: string)
    requires text != BuyButton && text != "/cancel"
    ensures Dispatch(Some(SelectingPlan), Callback("plan_1")) == Some(SelectPlan)
    ensures Dispatch(Some(SelectingServer), Callback("server_1")) == Some(SelectServer)
    ensures Dispatch(Some(EnteringDiscount), Callback("no_discount")) == Some(HandleDiscount)
    ensures !IsCommand(text) ==> Dispatch(Some(EnteringDiscount), Message(Some(text), false)) == Some(ProcessDiscountCode)
    ensures Dispatch(Some(ConfirmingOrder), Callback("pay_wallet")) == Some(ConfirmOrder)
    ensures Dispatch(Some(UploadingReceipt), Message(Some(text), false)) == None
    ensures Dispatch(Some(UploadingReceipt), Message(None, true)) == Some(ReceiveReceipt)
  {
  }

  // ---------------------------------------------------------------- the bot's collections

  /** The order `confirm_order` inserts, before any payment. */
  function NewOrder(id: string, userId: int, plan: Plan, serverId: string, s: Session, now: int): (o: Order)
    ensures o.status == Models.OrderStatus.Pending && o.paymentMethod.None?
    ensures o.finalPrice == s.finalPrice.GetOr(0.0) && o.originalPrice == s.originalPrice.GetOr(plan.price)
    ensures o.discountAmount == s.discountAmount.GetOr(0.0)
    ensures o.discountCode == (if s.discount.Some? then Some(s.discount.value.code) else None)
  {
    Order(id, userId, plan.id, serverId, if s.discount.Some? then Some(s.discount.value.code) else None,
          s.originalPrice.GetOr(plan.price), s.discountAmount.GetOr(0.0), s.finalPrice.GetOr(0.0),
          Models.OrderStatus.Pending, None, now)
  }

  /** `$inc: {used_count: 1}` on the session's code, when there is one and it is still stored. */
  function CountUse(discounts: map<string, Discount>, discount: Option<Discount>): (r: map<string, Discount>)
    ensures r.Keys == discounts.Keys
    ensures discount.Some? && discount.value.id in discounts ==>
      r == discounts[discount.value.id := Used(discounts[discount.value.id])]
    ensures !(discount.Some? && discount.value.id in discounts) ==> r == discounts
  {
    if discount.Some? && discount.value.id in discounts
    then discounts[discount.value.id := Used(discounts[discount.value.id])]
    else discounts
  }

  /** `$inc: {sales_count: 1}` on the plan, when it is still stored. */
  function CountSale(plans: map<string, Plan>, planId: string): (r: map<string, Plan>)
    ensures r.Keys == plans.Keys
    ensures planId in plans ==> r[planId].salesCount == plans[planId].salesCount + 1 &&
                                r[planId].(salesCount := plans[planId].salesCount) == plans[planId]
    ensures forall id :: id in plans && id != planId ==> r[id] == plans[id]
  {
    if planId in plans then plans[planId := plans[planId].(salesCount := plans[planId].salesCount + 1)] else plans
  }

  /** The subscription a wallet payment opens: it expires `duration_days` after `now` and has used nothing. */
  function SubscriptionFor(id: string, order: Order, plan: Plan, now: int): (sub: Subscription)
    ensures sub.expiresAt == now + plan.durationDays * Day && sub.trafficUsed == 0 && sub.isActive
    ensures sub.orderId == order.id && sub.telegramUserId == order.telegramUserId && sub.trafficLimit == plan.trafficGb
  {
    Subscription(id, order.telegramUserId, order.id, plan.id, order.serverId, now + plan.durationDays * Day,
                 plan.trafficGb, 0, true)
  }

  class Bot {
    var users: map<int, BotUser>
    var plans: map<string, Plan>
    var discounts: map<string, Discount>
    var orders: map<string, Order>
    var payments: map<string, Payment>
    var subscriptions: map<string, Subscription>
    /** The conversation's `user_data` of the user being served. */
    var session: Session

    /** Every wallet balance is non-negative. */
    predicate WalletsNonNegative()
      reads this
    {
      forall id :: id in users ==> users[id].walletBalance >= 0.0
    }

    /** Users are found by `telegram_id`, so each is stored under its own id. */
    predicate Keyed()
      reads this
    {
      forall id :: id in users ==> users[id].telegramId == id
    }

    constructor ()
      ensures Keyed()
      ensures users == map[] && plans == map[] && discounts == map[] && orders == map[]
      ensures payments == map[] && subscriptions == map[] && session == EmptySession
    {
      users, plans, discounts, orders := map[], map[], map[], map[];
      payments, subscriptions := map[], map[];
      session := EmptySession;
    }

    /** `get_or_create_user`: the stored user, or a new one stored first. */
    method GetOrCreateUser(telegramId: int) returns (user: BotUser)
      requires Keyed()
      modifies this
      ensures Keyed()
      ensures telegramId in old(users) ==> users == old(users) && user == old(users)[telegramId]
      ensures telegramId !in old(users) ==>
        users == old(users)[telegramId := NewUser(telegramId)] && user == NewUser(telegramId)
      ensures telegramId in users && users[telegramId] == user && user.telegramId == telegramId
      ensures plans == old(plans) && discounts == old(discounts) && orders == old(orders)
      ensures payments == old(payments) && subscriptions == old(subscriptions) && session == old(session)
      ensures old(WalletsNonNegative()) ==> WalletsNonNegative()
    {
      if telegramId in users {
        user := users[telegramId];
      } else {
        user := NewUser(telegramId);
        users := users[telegramId := user];
      }
    }

    /**
     * The referral part of `start`: a banned user is answered and nothing
     * happens; otherwise a `ref_<id>` argument binds `referred_by` once, never
     * to the user themself.
     */
    method Start(telegramId: int, args: seq<string>) returns (keyboard: Option<seq<seq<string>>>)
      requires Keyed()
      modifies this
      ensures Keyed()
      ensures telegramId in users
      ensures plans == old(plans) && discounts == old(discounts) && orders == old(orders)
      ensures payments == old(payments) && subscriptions == old(subscriptions) && session == old(session)
      ensures users.Keys == old(users.Keys) + {telegramId}
      ensures forall id :: id in old(users) && id != telegramId ==> users[id] == old(users)[id]
      ensures telegramId in old(users) && old(users)[telegramId].isBanned ==>
        users == old(users) && keyboard.None?
      ensures telegramId in old(users) && IsReferred(old(users)[telegramId]) ==> users == old(users)
      ensures ReferrerOf(args).Some? && ReferrerOf(args).value != telegramId &&
              !(telegramId in old(users) && (old(users)[telegramId].isBanned || IsReferred(old(users)[telegramId]))) ==>
        users[telegramId].referredBy == ReferrerOf(args)
      ensures (ReferrerOf(args).None? || ReferrerOf(args).value == telegramId) && telegramId in old(users) ==>
        users == old(users)
      ensures users[telegramId].(referredBy := (if telegramId in old(users) then old(users)[telegramId]
                                                else NewUser(telegramId)).referredBy) ==
              (if telegramId in old(users) then old(users)[telegramId] else NewUser(telegramId))
      ensures users[telegramId].referredBy.Some? && users[telegramId].referredBy.value == telegramId ==>
        telegramId in old(users) && old(users)[telegramId].referredBy == Some(telegramId)
      ensures keyboard.Some? ==> keyboard.value == MainKeyboard(users[telegramId])
      ensures old(WalletsNonNegative()) ==> WalletsNonNegative()
    {
      var user := GetOrCreateUser(telegramId);
      if user.isBanned {
        return None;
      }
      var referrer := ReferrerOf(args);
      if referrer.Some? && referrer.value != user.telegramId && !IsReferred(user) {
        users := users[telegramId := user.(referredBy := referrer)];
      }
      keyboard := Some(MainKeyboard(user));
    }

    /**
     * `show_order_summary` and `show_order_summary_message`: the quote for the
     * selected plan and the session's code is stored in the session.
     */
    method ShowOrderSummary(telegramId: int) returns (state: int)
      requires session.plan.Some?
      requires Keyed()
      modifies this
      ensures Keyed()
      ensures state == ConfirmingOrder
      ensures telegramId in users && (telegramId in old(users) ==> users == old(users))
      ensures users == old(users)[telegramId := StoredOrNew(old(users), telegramId)]
      ensures plans == old(plans) && discounts == old(discounts) && orders == old(orders)
      ensures payments == old(payments) && subscriptions == old(subscriptions)
      ensures session == old(session).(finalPrice := Some(QuoteOf(old(session).plan.value, users[telegramId], old(session).discount).finalPrice),
                                        originalPrice := Some(old(session).plan.value.price),
                                        discountAmount := Some(QuoteOf(old(session).plan.value, users[telegramId], old(session).discount).discountAmount))
      ensures session.finalPrice.value >= 0.0
      ensures old(WalletsNonNegative()) ==> WalletsNonNegative()
    {
      var user := GetOrCreateUser(telegramId);
      var plan := session.plan.value;
      var price := plan.price;
      if user.isReseller && user.resellerDiscount != 0.0 {
        price := price * (1.0 - user.resellerDiscount / 100.0);
      }
      var discountAmount := 0.0;
      if session.discount.Some? {
        var d := session.discount.value;
        if d.discountPercent.Some? && d.discountPercent.value != 0.0 {
          discountAmount := price * d.discountPercent.value / 100.0;
        } else if d.discountAmount.Some? && d.discountAmount.value != 0.0 {
          discountAmount := d.discountAmount.value;
        }
      }
      assert price == ResellerPrice(plan.price, user);
      assert discountAmount == CodeDiscount(price, session.discount);
      var finalPrice := if price - discountAmount > 0.0 then price - discountAmount else 0.0;
      session := session.(finalPrice := Some(finalPrice), originalPrice := Some(plan.price),
                          discountAmount := Some(discountAmount));
      return ConfirmingOrder;
    }

    /**
     * `process_discount_code`: the stripped, upper-cased code is looked up; an
     * unknown, inactive or expired code and a used-up code keep the
     * conversation in the discount state, a good one is stored and quoted.
     */
    method ProcessDiscountCode(telegramId: int, text: string, now: int) returns (state: int)
      requires session.plan.Some?
      requires Keyed()
      modifies this
      ensures Keyed()
      ensures plans == old(plans) && discounts == old(discounts) && orders == old(orders)
      ensures payments == old(payments) && subscriptions == old(subscriptions)
      ensures state == EnteringDiscount || state == ConfirmingOrder
      ensures (forall id :: id in discounts ==> !Matches(discounts[id], NormalizeCode(text), now)) ==>
        state == EnteringDiscount
      ensures (forall id :: id in discounts && Matches(discounts[id], NormalizeCode(text), now) ==> Exhausted(discounts[id])) ==>
        state == EnteringDiscount
      ensures (exists id :: id in discounts && Matches(discounts[id], NormalizeCode(text), now)) &&
              (forall id :: id in discounts && Matches(discounts[id], NormalizeCode(text), now) ==> !Exhausted(discounts[id])) ==>
        state == ConfirmingOrder
      ensures state == EnteringDiscount ==> session == old(session) && users == old(users)
      ensures state == ConfirmingOrder ==>
        telegramId in users && session.discount.Some? && session.discount.value in discounts.Values &&
        Matches(session.discount.value, NormalizeCode(text), now) && !Exhausted(session.discount.value) &&
        session.finalPrice == Some(QuoteOf(old(session).plan.value, users[telegramId], session.discount).finalPrice) &&
        session.plan == old(session).plan
      ensures state == ConfirmingOrder ==>
        users == old(users)[telegramId := StoredOrNew(old(users), telegramId)] &&
        var q := QuoteOf(old(session).plan.value, StoredOrNew(old(users), telegramId), session.discount);
        session == old(session).(discount := session.discount, finalPrice := Some(q.finalPrice),
                                 originalPrice := Some(q.originalPrice), discountAmount := Some(q.discountAmount))
      ensures old(WalletsNonNegative()) ==> WalletsNonNegative()
    {
      var code := Upper(Strip(text));
      if id :| id in discounts && Matches(discounts[id], code, now) {
        var d := discounts[id];
        if d.maxUses.Some? && d.maxUses.value != 0 && d.usedCount.GetOr(0) >= d.maxUses.value {
          return EnteringDiscount;
        }
        session := session.(discount := Some(d));
        state := ShowOrderSummary(telegramId);
      } else {
        return EnteringDiscount;
      }
    }

    /**
     * `confirm_order`: a pending order is stored and a code in use counts one
     * more use; then `pay_wallet` tries the wallet and ends the conversation,
     * any other choice waits for a card receipt.
     */
    method ConfirmOrder(telegramId: int, data: string, orderId: string, subscriptionId: string, now: int)
      returns (state: int)
      requires session.plan.Some? && session.serverId.Some?
      requires orderId !in orders && subscriptionId !in subscriptions
      requires Keyed()
      modifies this
      ensures Keyed()
      ensures payments == old(payments)
      ensures data == "cancel" ==> state == End && unchanged(this)
      ensures data != "cancel" ==>
        telegramId in users && orderId in orders &&
        (forall id :: id in old(orders) ==> id in orders && orders[id] == old(orders)[id]) &&
        orders.Keys == old(orders.Keys) + {orderId} &&
        session == old(session).(orderId := Some(orderId)) &&
        discounts == CountUse(old(discounts), old(session).discount)
      ensures data != "cancel" && data != "pay_wallet" ==>
        state == UploadingReceipt &&
        orders[orderId] == NewOrder(orderId, telegramId, old(session).plan.value, old(session).serverId.value, old(session), now) &&
        subscriptions == old(subscriptions) && plans == old(plans) &&
        users == old(users)[telegramId := StoredOrNew(old(users), telegramId)]
      ensures data == "pay_wallet" ==> state == End
      ensures data == "pay_wallet" && orders[orderId].status == Models.OrderStatus.Confirmed ==>
        users == old(users)[telegramId := StoredOrNew(old(users), telegramId)
                              .(walletBalance := old(WalletOf(telegramId)) - old(session).finalPrice.GetOr(0.0))] &&
        users[telegramId].walletBalance >= 0.0 &&
        plans == CountSale(old(plans), old(session).plan.value.id) &&
        orders[orderId] == NewOrder(orderId, telegramId, old(session).plan.value, old(session).serverId.value, old(session), now)
                             .(status := Models.OrderStatus.Confirmed, paymentMethod := Some("wallet")) &&
        subscriptions == old(subscriptions)[subscriptionId := SubscriptionFor(subscriptionId, orders[orderId], old(session).plan.value, now)]
      ensures data == "pay_wallet" ==>
        (orders[orderId].status == Models.OrderStatus.Confirmed <==>
         old(WalletOf(telegramId)) >= old(session).finalPrice.GetOr(0.0))
      ensures data == "pay_wallet" && orders[orderId].status != Models.OrderStatus.Confirmed ==>
        orders[orderId] == NewOrder(orderId, telegramId, old(session).plan.value, old(session).serverId.value, old(session), now) &&
        subscriptions == old(subscriptions) && plans == old(plans) &&
        users == old(users)[telegramId := StoredOrNew(old(users), telegramId)]
      ensures old(WalletsNonNegative()) ==> WalletsNonNegative()
    {
      if data == "cancel" {
        return End;
      }
      var order := PlaceOrder(telegramId, orderId, now);
      if data == "pay_wallet" {
        PayWithWallet(order, subscriptionId, now);
        return End;
      }
      return UploadingReceipt;
    }

    /** The part of `confirm_order` before the payment choice. */
    method PlaceOrder(telegramId: int, orderId: string, now: int) returns (order: Order)
      requires session.plan.Some? && session.serverId.Some? && orderId !in orders
      requires Keyed()
      modifies this
      ensures Keyed()
      ensures order == NewOrder(orderId, telegramId, old(session).plan.value, old(session).serverId.value, old(session), now)
      ensures users == old(users)[telegramId := StoredOrNew(old(users), telegramId)]
      ensures WalletOf(telegramId) == old(WalletOf(telegramId))
      ensures orders == old(orders)[orderId := order]
      ensures discounts == CountUse(old(discounts), old(session).discount)
      ensures session == old(session).(orderId := Some(orderId))
      ensures plans == old(plans) && payments == old(payments) && subscriptions == old(subscriptions)
      ensures old(WalletsNonNegative()) ==> WalletsNonNegative()
    {
      var user := GetOrCreateUser(telegramId);
      order := NewOrder(orderId, user.telegramId, session.plan.value, session.serverId.value, session, now);
      orders := orders[orderId := order];
      discounts := CountUse(discounts, session.discount);
      session := session.(orderId := Some(orderId));
    }

    /**
     * The `pay_wallet` branch of `confirm_order`: a balance that covers the
     * final price is charged exactly that price, the order is confirmed, a
     * subscription starts and the plan counts a sale; otherwise nothing changes.
     */
    method PayWithWallet(order: Order, subscriptionId: string, now: int)
      requires order.id in orders && orders[order.id] == order && subscriptionId !in subscriptions
      requires order.telegramUserId in users && session.plan.Some?
      requires Keyed()
      modifies this
      ensures Keyed()
      ensures session == old(session) && discounts == old(discounts) && payments == old(payments)
      ensures order.telegramUserId in users && order.id in orders
      ensures old(WalletOf(order.telegramUserId)) >= order.finalPrice ==>
        users == old(users)[order.telegramUserId := old(users)[order.telegramUserId].(walletBalance := old(WalletOf(order.telegramUserId)) - order.finalPrice)] &&
        orders == old(orders)[order.id := order.(status := Models.OrderStatus.Confirmed, paymentMethod := Some("wallet"))] &&
        subscriptions == old(subscriptions)[subscriptionId := SubscriptionFor(subscriptionId, order, session.plan.value, now)] &&
        plans == CountSale(old(plans), session.plan.value.id)
      ensures old(WalletOf(order.telegramUserId)) < order.finalPrice ==> unchanged(this)
      ensures old(WalletsNonNegative()) ==> WalletsNonNegative()
    {
      var user := users[order.telegramUserId];
      if user.walletBalance >= order.finalPrice {
        PayFromWallet(order.telegramUserId, order.finalPrice);
        orders := orders[order.id := order.(status := Models.OrderStatus.Confirmed, paymentMethod := Some("wallet"))];
        subscriptions := subscriptions[subscriptionId := SubscriptionFor(subscriptionId, order, session.plan.value, now)];
        plans := CountSale(plans, session.plan.value.id);
      }
    }

    /** The stored wallet balance, 0 for a user not stored yet. */
    function WalletOf(telegramId: int): real
      reads this
    {
      if telegramId in users then users[telegramId].walletBalance else 0.0
    }

    /** `$inc: {wallet_balance: -amount}` for a balance that covers the amount. */
    method PayFromWallet(telegramId: int, amount: real)
      requires telegramId in users && users[telegramId].walletBalance >= amount
      requires Keyed()
      modifies this
      ensures Keyed()
      ensures users == old(users)[telegramId := old(users)[telegramId].(walletBalance := old(users)[telegramId].walletBalance - amount)]
      ensures users[telegramId].walletBalance >= 0.0
      ensures plans == old(plans) && discounts == old(discounts) && orders == old(orders)
      ensures payments == old(payments) && subscriptions == old(subscriptions) && session == old(session)
      ensures old(WalletsNonNegative()) ==> WalletsNonNegative()
    {
      users := users[telegramId := users[telegramId].(walletBalance := users[telegramId].walletBalance - amount)];
    }

    /**
     * `receive_receipt`: without an order in the session the conversation
     * ends; without a photo it keeps waiting; a photo records a pending
     * payment of the final price and marks the order paid.
     */
    method ReceiveReceipt(photoFileId: Option<string>, paymentId: string) returns (state: int)
      requires paymentId !in payments
      modifies this
      ensures users == old(users) && plans == old(plans) && discounts == old(discounts)
      ensures subscriptions == old(subscriptions) && session == old(session)
      ensures (session.orderId.None? || session.orderId.value == "") ==>
        state == End && orders == old(orders) && payments == old(payments)
      ensures session.orderId.Some? && session.orderId.value != "" && photoFileId.None? ==>
        state == UploadingReceipt && orders == old(orders) && payments == old(payments)
      ensures session.orderId.Some? && session.orderId.value != "" && photoFileId.Some? ==>
        state == End &&
        payments == old(payments)[paymentId := Payment(paymentId, session.orderId.value, session.finalPrice.GetOr(0.0),
                                                       photoFileId.value, Models.PaymentStatus.Pending)] &&
        (session.orderId.value in old(orders) ==>
          orders == old(orders)[session.orderId.value := old(orders)[session.orderId.value].(status := Models.OrderStatus.Paid)]) &&
        (session.orderId.value !in old(orders) ==> orders == old(orders))
    {
      if session.orderId.None? || session.orderId.value == "" {
        return End;
      }
      if photoFileId.None? {
        return UploadingReceipt;
      }
      var orderId := session.orderId.value;
      payments := payments[paymentId := Payment(paymentId, orderId, session.finalPrice.GetOr(0.0),
                                                photoFileId.value, Models.PaymentStatus.Pending)];
      if orderId in orders {
        orders := orders[orderId := orders[orderId].(status := Models.OrderStatus.Paid)];
      }
      return End;
    }
  }
}
