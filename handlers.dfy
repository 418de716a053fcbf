/**
 * The operation handlers: how each handler turns the model's argument object into the request
 * it sends to the payments API, and how results link to the dashboard. The API calls themselves
 * are an oracle `stripe` from a request to the response object.
 */
module Handlers {
  import opened Wrappers
  import opened Json
  import Text
  import Catalog

  /** Base of every dashboard link (test mode). */
  const DashboardBase := "https://dashboard.stripe.com/test"

  /** `${DASHBOARD_BASE}/<resource>/<id>`. */
  function DashboardUrl(resource: string, id: string): (url: string)
    ensures Text.StartsWith(url, DashboardBase + "/" + resource + "/")
    ensures url[|DashboardBase + "/" + resource + "/"|..] == id
  {
    DashboardBase + "/" + resource + "/" + id
  }

  /** The keys of the handler table, in declaration order. */
  const HandlerNames: seq<string> := [
    "createCustomer", "listCustomers", "getCustomer",
    "createProduct", "listProducts",
    "createPrice", "listPrices",
    "createSubscription", "listSubscriptions", "cancelSubscription",
    "createCoupon", "listCoupons", "deleteCoupon",
    "previewInvoice", "previewSubscription",
    "createTestClock", "getTestClock", "listTestClocks", "advanceTestClock", "deleteTestClock",
    "createPaymentMethod", "attachPaymentMethod", "listPaymentMethods", "detachPaymentMethod",
    "setDefaultPaymentMethod"
  ]

  /** `name` is an own key of the handler table. */
  predicate HasHandler(name: string) {
    name in HandlerNames
  }

  /** "toString", which every object inherits, is not one of the handler names. */
  lemma ToStringIsNoHandler()
    ensures !HasHandler("toString")
  {
  }

  /** No member every object inherits is one of the handler names. */
  lemma InheritedMembersAreNoHandlers()
    ensures forall n :: n in InheritedMembers ==> !HasHandler(n)
  {
    forall i | 0 <= i < |InheritedMembers|
      ensures !HasHandler(InheritedMembers[i])
    {
      var n := InheritedMembers[i];
      forall j | 0 <= j < |HandlerNames|
        ensures HandlerNames[j] != n
      {
        assert HandlerNames[j][0] != n[0] || HandlerNames[j][1] != n[1] || HandlerNames[j][2] != n[2];
      }
    }
  }

  /** Every declared tool has a handler and every handler is declared: the two name sets coincide. */
  lemma HandlersMatchCatalog()
    ensures |HandlerNames| == 25 && Catalog.Distinct(HandlerNames)
    ensures forall n :: HasHandler(n) <==> n in Catalog.NameSet(Catalog.StripeTools)
  {
    HandlerNamesAreDeclared();
    Catalog.StripeToolsWellFormed();
    Catalog.NameSetIsNames(Catalog.StripeTools);
  }

  /** The handler keys, in order, are the declared tool names. */
  lemma HandlerNamesAreDeclared()
    ensures Catalog.Names(Catalog.StripeTools.functionDeclarations) == HandlerNames
  {
  }

  // ---------------------------------------------------------------- argument mapping

  /** A request to the payments API: the operation, the id it addresses (if any) and its parameter object. */
  datatype SdkCall = SdkCall(operation: string, target: Option<Json>, params: Fields)

  /** `value || fallback`. */
  function OrDefault(v: Option<Json>, fallback: Json): (r: Json)
    ensures Truthy(v) ==> r == v.value
    ensures !Truthy(v) ==> r == fallback
  {
    if Truthy(v) then v.value else fallback
  }

  /** `(args.limit as number) || 10`, shared by every list handler. */
  function ListLimit(args: Json): Json {
    OrDefault(Prop(args, "limit"), JNum(10))
  }

  /** A missing, zero, empty, false or null limit becomes 10; any other limit is passed on as given. */
  lemma ListLimitDefaults(args: Json)
    ensures !Truthy(Prop(args, "limit")) ==> ListLimit(args) == JNum(10)
    ensures Prop(args, "limit") in {None, Some(JNull), Some(JNum(0)), Some(JBool(false)), Some(JStr(""))}
        ==> ListLimit(args) == JNum(10)
    ensures Truthy(Prop(args, "limit")) ==> Some(ListLimit(args)) == Prop(args, "limit")
  {
  }

  function ListCustomersParams(args: Json): Fields {
    Put(Put([], "email", Prop(args, "email")), "limit", Some(ListLimit(args)))
  }

  function ListProductsParams(args: Json): Fields {
    Put(Put([], "active", Prop(args, "active")), "limit", Some(ListLimit(args)))
  }

  function ListPricesParams(args: Json): Fields {
    var p := Put(Put([], "product", Prop(args, "productId")), "active", Prop(args, "active"));
    Put(Put(p, "limit", Some(ListLimit(args))), "expand", Some(JArr([JStr("data.product")])))
  }

  function ListCouponsParams(args: Json): Fields {
    Put([], "limit", Some(ListLimit(args)))
  }

  function ListTestClocksParams(args: Json): Fields {
    Put([], "limit", Some(ListLimit(args)))
  }

  /** `listPaymentMethods` lists cards unless another type is asked for. */
  function ListPaymentMethodsParams(args: Json): Fields {
    Put(Put([], "type", Some(OrDefault(Prop(args, "type"), JStr("card")))), "limit", Some(ListLimit(args)))
  }

  /** `listSubscriptions` starts from the limit and adds `customer` and `status` only when truthy. */
  method ListSubscriptionsParams(args: Json) returns (params: Fields)
    ensures Lookup(params, "limit") == Some(ListLimit(args))
    ensures Lookup(params, "customer") == if Truthy(Prop(args, "customerId")) then Prop(args, "customerId") else None
    ensures Lookup(params, "status") == if Truthy(Prop(args, "status")) then Prop(args, "status") else None
  {
    params := Put([], "limit", Some(ListLimit(args)));
    if Truthy(Prop(args, "customerId")) {
      params := Put(params, "customer", Prop(args, "customerId"));
    }
    if Truthy(Prop(args, "status")) {
      params := Put(params, "status", Prop(args, "status"));
    }
  }

  /**
   * Every list handler sends `limit = args.limit || 10` (`listSubscriptions` by its own contract),
   * and `listPaymentMethods` defaults its type to 'card'.
   */
  lemma ListHandlersShareLimit(args: Json)
    ensures Lookup(ListCustomersParams(args), "limit") == Some(ListLimit(args))
    ensures Lookup(ListProductsParams(args), "limit") == Some(ListLimit(args))
    ensures Lookup(ListPricesParams(args), "limit") == Some(ListLimit(args))
    ensures Lookup(ListCouponsParams(args), "limit") == Some(ListLimit(args))
    ensures Lookup(ListTestClocksParams(args), "limit") == Some(ListLimit(args))
    ensures Lookup(ListPaymentMethodsParams(args), "limit") == Some(ListLimit(args))
    ensures !Truthy(Prop(args, "type")) ==> Lookup(ListPaymentMethodsParams(args), "type") == Some(JStr("card"))
    ensures Lookup(ListPricesParams(args), "expand") == Some(JArr([JStr("data.product")]))
  {
  }

  /** `createProduct` sends `name` and `description` as given and `active: args.active !== false`. */
  function CreateProductParams(args: Json): (params: Fields)
    ensures Lookup(params, "active").Some? && Lookup(params, "active").value.JBool?
    ensures Lookup(params, "active") == Some(JBool(false)) <==> Prop(args, "active") == Some(JBool(false))
  {
    var p := Put(Put([], "name", Prop(args, "name")), "description", Prop(args, "description"));
    Put(p, "active", Some(JBool(Prop(args, "active") != Some(JBool(false)))))
  }

  /** The `recurring` object of `createPrice`: the interval and `interval_count = recurringIntervalCount || 1`. */
  function RecurringObject(args: Json): (r: Json)
    ensures Prop(r, "interval") == Prop(args, "recurringInterval")
    ensures Prop(r, "interval_count") == Some(OrDefault(Prop(args, "recurringIntervalCount"), JNum(1)))
    ensures Truthy(Prop(args, "recurringIntervalCount")) || Prop(r, "interval_count") == Some(JNum(1))
  {
    JObj(Put(Put([], "interval", Prop(args, "recurringInterval")),
      "interval_count", Some(OrDefault(Prop(args, "recurringIntervalCount"), JNum(1)))))
  }

  /** `createPrice`: the currency defaults to 'jpy', and `recurring` is sent exactly when `recurringInterval` is truthy. */
  function CreatePriceParams(args: Json): (params: Fields)
    ensures Lookup(params, "product") == Prop(args, "productId")
    ensures Lookup(params, "unit_amount") == Prop(args, "unitAmount")
    ensures Lookup(params, "currency") == Some(OrDefault(Prop(args, "currency"), JStr("jpy")))
    ensures Lookup(params, "recurring")
      == if Truthy(Prop(args, "recurringInterval")) then Some(RecurringObject(args)) else None
  {
    var p := Put(Put([], "product", Prop(args, "productId")), "unit_amount", Prop(args, "unitAmount"));
    var p := Put(p, "currency", Some(OrDefault(Prop(args, "currency"), JStr("jpy"))));
    var p := Put(p, "recurring", if Truthy(Prop(args, "recurringInterval")) then Some(RecurringObject(args)) else None);
    Put(p, "nickname", Prop(args, "nickname"))
  }

  /** `createCustomer` copies email, name, description and metadata, and sets `test_clock` only when truthy. */
  method CreateCustomerParams(args: Json) returns (params: Fields)
    ensures Lookup(params, "email") == Prop(args, "email")
    ensures Lookup(params, "metadata") == Prop(args, "metadata")
    ensures Lookup(params, "test_clock")
      == if Truthy(Prop(args, "testClockId")) then Prop(args, "testClockId") else None
  {
    params := Put(Put([], "email", Prop(args, "email")), "name", Prop(args, "name"));
    params := Put(Put(params, "description", Prop(args, "description")), "metadata", Prop(args, "metadata"));
    if Truthy(Prop(args, "testClockId")) {
      params := Put(params, "test_clock", Prop(args, "testClockId"));
    }
  }

  /** `[{ <key>: args.<from> }]`, the one-element list the source builds for items and discounts. */
  function OneItem(args: Json, from: string, key: string): Json {
    JArr([JObj(Put([], key, Prop(args, from)))])
  }

  /** `createSubscription` adds `trial_period_days` and `discounts` only when their arguments are truthy. */
  method CreateSubscriptionParams(args: Json) returns (params: Fields)
    ensures Lookup(params, "customer") == Prop(args, "customerId")
    ensures Lookup(params, "items") == Some(OneItem(args, "priceId", "price"))
    ensures Lookup(params, "trial_period_days")
      == if Truthy(Prop(args, "trialPeriodDays")) then Prop(args, "trialPeriodDays") else None
    ensures Lookup(params, "discounts")
      == if Truthy(Prop(args, "couponId")) then Some(OneItem(args, "couponId", "coupon")) else None
  {
    params := Put(Put([], "customer", Prop(args, "customerId")), "items", Some(OneItem(args, "priceId", "price")));
    if Truthy(Prop(args, "trialPeriodDays")) {
      params := Put(params, "trial_period_days", Prop(args, "trialPeriodDays"));
    }
    if Truthy(Prop(args, "couponId")) {
      params := Put(params, "discounts", Some(OneItem(args, "couponId", "coupon")));
    }
  }

  /** `previewInvoice` adds `subscription`, `subscription_details` and `discounts` only when truthy. */
  method PreviewInvoiceParams(args: Json) returns (params: Fields)
    ensures Lookup(params, "customer") == Prop(args, "customerId")
    ensures Lookup(params, "subscription")
      == if Truthy(Prop(args, "subscriptionId")) then Prop(args, "subscriptionId") else None
    ensures Lookup(params, "subscription_details")
      == if Truthy(Prop(args, "priceId")) then Some(JObj([("items", OneItem(args, "priceId", "price"))])) else None
    ensures Lookup(params, "discounts")
      == if Truthy(Prop(args, "couponId")) then Some(OneItem(args, "couponId", "coupon")) else None
  {
    params := Put([], "customer", Prop(args, "customerId"));
    if Truthy(Prop(args, "subscriptionId")) {
      params := Put(params, "subscription", Prop(args, "subscriptionId"));
    }
    if Truthy(Prop(args, "priceId")) {
      params := Put(params, "subscription_details", Some(JObj([("items", OneItem(args, "priceId", "price"))])));
    }
    if Truthy(Prop(args, "couponId")) {
      params := Put(params, "discounts", Some(OneItem(args, "couponId", "coupon")));
    }
  }

  /** `previewSubscription` always sends the price as a new subscription item; `discounts` only when truthy. */
  method PreviewSubscriptionParams(args: Json) returns (params: Fields)
    ensures Lookup(params, "customer") == Prop(args, "customerId")
    ensures Lookup(params, "subscription_details") == Some(JObj([("items", OneItem(args, "priceId", "price"))]))
    ensures Lookup(params, "subscription").None?
    ensures Lookup(params, "discounts")
      == if Truthy(Prop(args, "couponId")) then Some(OneItem(args, "couponId", "coupon")) else None
  {
    params := Put([], "customer", Prop(args, "customerId"));
    params := Put(params, "subscription_details", Some(JObj([("items", OneItem(args, "priceId", "price"))])));
    if Truthy(Prop(args, "couponId")) {
      params := Put(params, "discounts", Some(OneItem(args, "couponId", "coupon")));
    }
  }

  /** The discount of `createCoupon`: a truthy percentage wins over an amount, which brings its currency. */
  method CouponDiscount(args: Json, before: Fields) returns (params: Fields)
    ensures Lookup(params, "percent_off")
      == if Truthy(Prop(args, "percentOff")) then Prop(args, "percentOff") else Lookup(before, "percent_off")
    ensures Lookup(params, "amount_off")
      == if !Truthy(Prop(args, "percentOff")) && Truthy(Prop(args, "amountOff")) then Prop(args, "amountOff")
         else Lookup(before, "amount_off")
    ensures Lookup(params, "currency")
      == if !Truthy(Prop(args, "percentOff")) && Truthy(Prop(args, "amountOff"))
         then Some(OrDefault(Prop(args, "currency"), JStr("jpy"))) else Lookup(before, "currency")
    ensures forall k :: k != "percent_off" && k != "amount_off" && k != "currency" ==> Lookup(params, k) == Lookup(before, k)
  {
    params := before;
    if Truthy(Prop(args, "percentOff")) {
      params := Put(params, "percent_off", Prop(args, "percentOff"));
    } else if Truthy(Prop(args, "amountOff")) {
      params := Put(params, "amount_off", Prop(args, "amountOff"));
      params := Put(params, "currency", Some(OrDefault(Prop(args, "currency"), JStr("jpy"))));
    }
  }

  /**
   * `createCoupon`: a truthy `percentOff` wins; otherwise a truthy `amountOff` is sent with its currency
   * (default 'jpy'), so the two are never both sent. The optional fields are sent only when truthy.
   */
  method CreateCouponParams(args: Json) returns (params: Fields)
    ensures Lookup(params, "duration") == Prop(args, "duration")
    ensures Lookup(params, "percent_off")
      == if Truthy(Prop(args, "percentOff")) then Prop(args, "percentOff") else None
    ensures Lookup(params, "amount_off")
      == if !Truthy(Prop(args, "percentOff")) && Truthy(Prop(args, "amountOff")) then Prop(args, "amountOff") else None
    ensures Lookup(params, "currency")
      == if !Truthy(Prop(args, "percentOff")) && Truthy(Prop(args, "amountOff"))
         then Some(OrDefault(Prop(args, "currency"), JStr("jpy"))) else None
    ensures Lookup(params, "duration_in_months")
      == if Truthy(Prop(args, "durationInMonths")) then Prop(args, "durationInMonths") else None
    ensures Lookup(params, "name") == if Truthy(Prop(args, "name")) then Prop(args, "name") else None
    ensures Lookup(params, "max_redemptions")
      == if Truthy(Prop(args, "maxRedemptions")) then Prop(args, "maxRedemptions") else None
  {
    params := Put([], "duration", Prop(args, "duration"));
    params := CouponDiscount(args, params);
    params := CouponOptions(args, params);
  }

  /** The optional coupon fields, each sent only when truthy; every other entry is kept. */
  method CouponOptions(args: Json, before: Fields) returns (params: Fields)
    ensures Lookup(params, "duration_in_months")
      == if Truthy(Prop(args, "durationInMonths")) then Prop(args, "durationInMonths") else Lookup(before, "duration_in_months")
    ensures Lookup(params, "name") == if Truthy(Prop(args, "name")) then Prop(args, "name") else Lookup(before, "name")
    ensures Lookup(params, "max_redemptions")
      == if Truthy(Prop(args, "maxRedemptions")) then Prop(args, "maxRedemptions") else Lookup(before, "max_redemptions")
    ensures forall k :: k != "duration_in_months" && k != "name" && k != "max_redemptions" ==> Lookup(params, k) == Lookup(before, k)
  {
    params := PutIfTruthy(before, "duration_in_months", Prop(args, "durationInMonths"));
    params := PutIfTruthy(params, "name", Prop(args, "name"));
    params := PutIfTruthy(params, "max_redemptions", Prop(args, "maxRedemptions"));
  }

  /**
   * `cancelSubscription`: the update sends `cancel_at_period_end = (args.cancelAtPeriodEnd !== false)`;
   * only an explicit `false` adds the immediate cancel call, whose response then shapes the result.
   * An `Err` is the message of what the shaping throws.
   */
  method CancelSubscription(args: Json, stripe: SdkCall -> Json, iso: int -> string)
    returns (calls: seq<SdkCall>, result: Result<Json, string>)
    ensures var immediate := Prop(args, "cancelAtPeriodEnd") == Some(JBool(false));
      && |calls| == (if immediate then 2 else 1)
      && calls[0] == SdkCall("subscriptions.update", Prop(args, "subscriptionId"),
           [("cancel_at_period_end", JBool(!immediate))])
      && (immediate ==> calls[1] == SdkCall("subscriptions.cancel", Prop(args, "subscriptionId"), []))
      && result == (if immediate then CanceledShape(stripe(calls[1]), iso) else PendingCancelShape(stripe(calls[0]), iso))
  {
    var immediate := Prop(args, "cancelAtPeriodEnd") == Some(JBool(false));
    var update := SdkCall("subscriptions.update", Prop(args, "subscriptionId"),
      [("cancel_at_period_end", JBool(!immediate))]);
    var subscription := stripe(update);
    calls := [update];
    if immediate {
      var cancel := SdkCall("subscriptions.cancel", Prop(args, "subscriptionId"), []);
      var canceled := stripe(cancel);
      calls := calls + [cancel];
      result := CanceledShape(canceled, iso);
      return;
    }
    result := PendingCancelShape(subscription, iso);
  }

  /** The message of the `RangeError` that `toISOString` throws for an invalid date. */
  const InvalidTimeValue := "Invalid time value"

  /** The most seconds a date can lie from the epoch, either way (8.64e15 milliseconds). */
  const MaxDateSeconds: int := 8_640_000_000_000

  /**
   * The number JavaScript makes of a field before `* 1000`, or `None` for `NaN`: a missing field is `NaN`,
   * `null` and `false` are 0, `true` is 1, a blank string is 0 and a string of digits its value; any
   * other string, and any array or object, is `NaN`.
   */
  function SecondsOf(v: Option<Json>): Option<int> {
    match v
    case None => None
    case Some(JNull) => Some(0)
    case Some(JBool(b)) => Some(if b then 1 else 0)
    case Some(JNum(n)) => Some(n)
    case Some(JStr(s)) =>
      var t := Text.Trim(s);
      if t == "" then Some(0) else if Text.AllDigits(t) then Some(Text.DigitsValue(t)) else None
    case Some(_) => None
  }

  /** `new Date(x * 1000)` is a valid date. */
  predicate IsValidDate(v: Option<Json>) {
    SecondsOf(v).Some? && -MaxDateSeconds <= SecondsOf(v).value <= MaxDateSeconds
  }

  /**
   * `new Date(x * 1000).toISOString()` for a Unix timestamp in seconds: the ISO text of a number within
   * the date range; a missing field or a number outside the range throws `RangeError`.
   */
  function Timestamp(v: Option<Json>, iso: int -> string): (r: Result<Json, string>)
    ensures v.None? ==> r == Err(InvalidTimeValue)
    ensures v.Some? && v.value.JNum? ==>
      if -MaxDateSeconds <= v.value.n <= MaxDateSeconds then r == Ok(JStr(iso(v.value.n))) else r == Err(InvalidTimeValue)
    ensures r.Err? ==> r.error == InvalidTimeValue
    ensures r.Ok? ==> r.value.JStr?
  {
    if IsValidDate(v) then Ok(JStr(iso(SecondsOf(v).value))) else Err(InvalidTimeValue)
  }

  /** `x ? new Date(x * 1000).toISOString() : null` for a Unix timestamp in seconds. */
  function TimestampOrNull(v: Option<Json>, iso: int -> string): (r: Result<Json, string>)
    ensures !Truthy(v) ==> r == Ok(JNull)
    ensures r.Err? <==> Truthy(v) && !IsValidDate(v)
  {
    if Truthy(v) then Timestamp(v, iso) else Ok(JNull)
  }

  /** On a field the API fills with a number or `null`, only a number outside the date range throws. */
  lemma TimestampOrNullOfNumber(v: Option<Json>, iso: int -> string)
    requires v == Some(JNull) || (v.Some? && v.value.JNum?)
    ensures TimestampOrNull(v, iso).Err? <==> v.value.JNum? && !(-MaxDateSeconds <= v.value.n <= MaxDateSeconds)
    ensures v.Some? && v.value.JNum? && v.value.n != 0 && TimestampOrNull(v, iso).Ok? ==>
      TimestampOrNull(v, iso) == Ok(JStr(iso(v.value.n)))
  {
  }

  /** `${response.id}`, as used in dashboard links. */
  function IdText(response: Json): (r: string)
    ensures Prop(response, "id").Some? && Prop(response, "id").value.JStr? ==> r == Prop(response, "id").value.s
  {
    ToJsString(Prop(response, "id"))
  }

  /**
   * Result of an immediate cancellation. It throws exactly when `canceled_at` is truthy but no valid date;
   * otherwise it links to the subscription, carries its status and the cancellation time, and no error.
   */
  function CanceledShape(canceled: Json, iso: int -> string): (r: Result<Json, string>)
    ensures var at := Prop(canceled, "canceled_at");
      r.Err? <==> Truthy(at) && !IsValidDate(at)
    ensures r.Err? ==> r.error == InvalidTimeValue
    ensures r.Ok? ==>
      && Prop(r.value, "dashboardUrl") == Some(JStr(DashboardUrl("subscriptions", IdText(canceled))))
      && Prop(r.value, "status") == Prop(canceled, "status")
      && Prop(r.value, "canceledAt") == Some(TimestampOrNull(Prop(canceled, "canceled_at"), iso).value)
      && !HasKey(r.value, "error")
  {
    var canceledAt := TimestampOrNull(Prop(canceled, "canceled_at"), iso);
    if canceledAt.Err? then Err(canceledAt.error) else Ok(CanceledObject(canceled, canceledAt.value))
  }

  /** The object an immediate cancellation builds once the cancellation time is converted. */
  function CanceledObject(canceled: Json, canceledAt: Json): (r: Json)
    ensures !HasKey(r, "error")
    ensures Prop(r, "status") == Prop(canceled, "status") && Prop(r, "canceledAt") == Some(canceledAt)
    ensures Prop(r, "dashboardUrl") == Some(JStr(DashboardUrl("subscriptions", IdText(canceled))))
  {
    var o := Put(Put([], "id", Prop(canceled, "id")), "status", Prop(canceled, "status"));
    var o := Put(o, "canceledAt", Some(canceledAt));
    JObj(Put(o, "dashboardUrl", Some(JStr(DashboardUrl("subscriptions", IdText(canceled))))))
  }

  /**
   * Result of a cancellation at the end of the period. It throws exactly when `cancel_at` is truthy but no
   * valid date; otherwise it links to the subscription, reports its flag and the cancellation time, and no error.
   */
  function PendingCancelShape(subscription: Json, iso: int -> string): (r: Result<Json, string>)
    ensures var at := Prop(subscription, "cancel_at");
      r.Err? <==> Truthy(at) && !IsValidDate(at)
    ensures r.Err? ==> r.error == InvalidTimeValue
    ensures r.Ok? ==>
      && Prop(r.value, "dashboardUrl") == Some(JStr(DashboardUrl("subscriptions", IdText(subscription))))
      && Prop(r.value, "cancelAtPeriodEnd") == Prop(subscription, "cancel_at_period_end")
      && Prop(r.value, "cancelAt") == Some(TimestampOrNull(Prop(subscription, "cancel_at"), iso).value)
      && !HasKey(r.value, "error")
  {
    var cancelAt := TimestampOrNull(Prop(subscription, "cancel_at"), iso);
    if cancelAt.Err? then Err(cancelAt.error) else Ok(PendingCancelObject(subscription, cancelAt.value))
  }

  /** The object a cancellation at the end of the period builds once the cancellation time is converted. */
  function PendingCancelObject(subscription: Json, cancelAt: Json): (r: Json)
    ensures !HasKey(r, "error")
    ensures Prop(r, "cancelAtPeriodEnd") == Prop(subscription, "cancel_at_period_end") && Prop(r, "cancelAt") == Some(cancelAt)
    ensures Prop(r, "dashboardUrl") == Some(JStr(DashboardUrl("subscriptions", IdText(subscription))))
  {
    var o := Put(Put([], "id", Prop(subscription, "id")), "status", Prop(subscription, "status"));
    var o := Put(o, "cancelAtPeriodEnd", Prop(subscription, "cancel_at_period_end"));
    var o := Put(o, "cancelAt", Some(cancelAt));
    JObj(Put(o, "dashboardUrl", Some(JStr(DashboardUrl("subscriptions", IdText(subscription))))))
  }

  /** The message `getCustomer` returns for a deleted customer. */
  const DeletedCustomerMessage := "顧客は削除されています"

  /**
   * `getCustomer` returns, and does not throw, an error object when the customer is deleted. Any other
   * customer throws exactly when `created` is no valid date, and otherwise gives its id, creation time
   * and dashboard link and no error.
   */
  function GetCustomerResult(customer: Json, iso: int -> string): (r: Result<Json, string>)
    ensures Truthy(Prop(customer, "deleted")) ==> r == Ok(ErrorObject(DeletedCustomerMessage))
    ensures r.Err? <==> !Truthy(Prop(customer, "deleted")) && !IsValidDate(Prop(customer, "created"))
    ensures r.Err? ==> r.error == InvalidTimeValue
    ensures r.Ok? && !Truthy(Prop(customer, "deleted")) ==>
      && !HasKey(r.value, "error")
      && Prop(r.value, "id") == Prop(customer, "id")
      && Prop(r.value, "created") == Some(Timestamp(Prop(customer, "created"), iso).value)
      && Prop(r.value, "dashboardUrl") == Some(JStr(DashboardUrl("customers", IdText(customer))))
  {
    if Truthy(Prop(customer, "deleted")) then Ok(ErrorObject(DeletedCustomerMessage))
    else
      var created := Timestamp(Prop(customer, "created"), iso);
      if created.Err? then Err(created.error) else Ok(CustomerShape(customer, created.value))
  }

  /** The object `getCustomer` builds once the creation time is converted. */
  function CustomerShape(customer: Json, created: Json): (r: Json)
    ensures !HasKey(r, "error")
    ensures Prop(r, "id") == Prop(customer, "id") && Prop(r, "created") == Some(created)
    ensures Prop(r, "dashboardUrl") == Some(JStr(DashboardUrl("customers", IdText(customer))))
  {
    var o := Put(Put([], "id", Prop(customer, "id")), "email", Prop(customer, "email"));
    var o := Put(Put(o, "name", Prop(customer, "name")), "description", Prop(customer, "description"));
    var o := Put(o, "created", Some(created));
    var o := Put(o, "testClock", Some(OrDefault(Prop(customer, "test_clock"), JNull)));
    JObj(Put(o, "dashboardUrl", Some(JStr(DashboardUrl("customers", IdText(customer))))))
  }

  // ---------------------------------------------------------------- test clocks

  /**
   * The `frozenTime` argument as seconds: a string of digits is read as a base-10 integer; anything
   * else goes through date parsing (the oracle `dateSeconds`, standing for `Math.floor(new Date(x).getTime() / 1000)`).
   */
  method ParseFrozenTime(input: Option<Json>, dateSeconds: string -> int) returns (frozenTime: int)
    ensures Text.AllDigits(ToJsString(input)) ==> frozenTime == Text.DigitsValue(ToJsString(input))
    ensures !Text.AllDigits(ToJsString(input)) ==> frozenTime == dateSeconds(ToJsString(input))
  {
    var text := ToJsString(input);
    if Text.AllDigits(text) {
      frozenTime := Text.DigitsValue(text);
    } else {
      frozenTime := dateSeconds(text);
    }
  }

  /** `createTestClock` freezes the new clock at the parsed time and passes the optional name. */
  method CreateTestClockParams(args: Json, dateSeconds: string -> int) returns (params: Fields)
    ensures Text.AllDigits(ToJsString(Prop(args, "frozenTime"))) ==>
      Lookup(params, "frozen_time") == Some(JNum(Text.DigitsValue(ToJsString(Prop(args, "frozenTime")))))
    ensures !Text.AllDigits(ToJsString(Prop(args, "frozenTime"))) ==>
      Lookup(params, "frozen_time") == Some(JNum(dateSeconds(ToJsString(Prop(args, "frozenTime")))))
    ensures Lookup(params, "name") == Prop(args, "name")
  {
    var frozenTime := ParseFrozenTime(Prop(args, "frozenTime"), dateSeconds);
    params := Put(Put([], "frozen_time", Some(JNum(frozenTime))), "name", Prop(args, "name"));
  }

  /** `advanceTestClock` moves the addressed clock to the parsed time. */
  method AdvanceTestClockCall(args: Json, dateSeconds: string -> int) returns (call: SdkCall)
    ensures call.operation == "testHelpers.testClocks.advance" && call.target == Prop(args, "testClockId")
    ensures Text.AllDigits(ToJsString(Prop(args, "frozenTime"))) ==>
      call.params == [("frozen_time", JNum(Text.DigitsValue(ToJsString(Prop(args, "frozenTime")))))]
    ensures !Text.AllDigits(ToJsString(Prop(args, "frozenTime"))) ==>
      call.params == [("frozen_time", JNum(dateSeconds(ToJsString(Prop(args, "frozenTime")))))]
  {
    var frozenTime := ParseFrozenTime(Prop(args, "frozenTime"), dateSeconds);
    call := SdkCall("testHelpers.testClocks.advance", Prop(args, "testClockId"), [("frozen_time", JNum(frozenTime))]);
  }

  /** A Unix timestamp given as its decimal string, or as a number, reaches the API unchanged. */
  lemma UnixTimestampPassesThrough(n: nat)
    ensures Text.AllDigits(ToJsString(Some(JStr(Text.NatToString(n)))))
    ensures Text.DigitsValue(ToJsString(Some(JStr(Text.NatToString(n))))) == n
    ensures Text.AllDigits(ToJsString(Some(JNum(n)))) && Text.DigitsValue(ToJsString(Some(JNum(n)))) == n
  {
    Text.DigitsValueOfNatToString(n);
  }

  /** A missing time argument is read as the text "undefined", which takes the date-parsing branch. */
  lemma MissingFrozenTimeIsParsedAsDate()
    ensures !Text.AllDigits(ToJsString(None))
  {
    assert ToJsString(None)[0] == 'u';
  }

  // ---------------------------------------------------------------- dashboard links

  /** The two preview handlers link the customer through `customerDashboardUrl`, built from the argument. */
  function CustomerDashboardUrl(args: Json): (url: string)
    ensures Text.StartsWith(url, DashboardBase + "/customers/")
    ensures url[|DashboardBase + "/customers/"|..] == ToJsString(Prop(args, "customerId"))
  {
    DashboardUrl("customers", ToJsString(Prop(args, "customerId")))
  }

  /** A preview asked for without a customer id still links to `.../customers/undefined`. */
  lemma PreviewLinkWithoutCustomer()
    ensures CustomerDashboardUrl(JObj([])) == DashboardBase + "/customers/undefined"
  {
  }

  /** Dashboard links are injective in the id: different ids give different links under one resource. */
  lemma DashboardUrlInjective(resource: string, id1: string, id2: string)
    ensures DashboardUrl(resource, id1) == DashboardUrl(resource, id2) ==> id1 == id2
  {
  }
}
