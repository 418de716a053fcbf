/** The tool catalog handed to the language model: one declaration per callable operation. */
module Catalog {
  import opened Wrappers

  /** A parameter's schema entry; only its JSON-schema `type` is modelled. */
  datatype Property = Property(kind: string)

  /** A declaration's `parametersJsonSchema`; `required` is absent in several declarations. */
  datatype Schema = Schema(kind: string, properties: seq<(string, Property)>, required: Option<seq<string>>)

  datatype Declaration = Declaration(name: string, parameters: Schema)

  /** The `{ functionDeclarations: [...] }` object passed as the provider's tool list. */
  datatype Tool = Tool(functionDeclarations: seq<Declaration>)

  const Str := Property("string")
  const Int := Property("integer")
  const Num := Property("number")
  const Bool := Property("boolean")

  const CreateCustomer: Declaration :=
    Declaration("createCustomer", Schema("object",
      [("email", Str), ("name", Str), ("description", Str), ("testClockId", Str)], Some(["email"])))

  const ListCustomers: Declaration :=
    Declaration("listCustomers", Schema("object", [("email", Str), ("limit", Int)], None))

  const GetCustomer: Declaration :=
    Declaration("getCustomer", Schema("object", [("customerId", Str)], Some(["customerId"])))

  const CreateProduct: Declaration :=
    Declaration("createProduct", Schema("object",
      [("name", Str), ("description", Str), ("active", Bool)], Some(["name"])))

  const ListProducts: Declaration :=
    Declaration("listProducts", Schema("object", [("active", Bool), ("limit", Int)], None))

  const CreatePrice: Declaration :=
    Declaration("createPrice", Schema("object",
      [("productId", Str), ("unitAmount", Int), ("currency", Str), ("recurringInterval", Str),
      ("recurringIntervalCount", Int), ("nickname", Str)], Some(["productId", "unitAmount"])))

  const ListPrices: Declaration :=
    Declaration("listPrices", Schema("object",
      [("productId", Str), ("active", Bool), ("limit", Int)], None))

  const CreateSubscription: Declaration :=
    Declaration("createSubscription", Schema("object",
      [("customerId", Str), ("priceId", Str), ("trialPeriodDays", Int), ("couponId", Str)],
      Some(["customerId", "priceId"])))

  const ListSubscriptions: Declaration :=
    Declaration("listSubscriptions", Schema("object",
      [("customerId", Str), ("status", Str), ("limit", Int)], None))

  const CancelSubscription: Declaration :=
    Declaration("cancelSubscription", Schema("object",
      [("subscriptionId", Str), ("cancelAtPeriodEnd", Bool)], Some(["subscriptionId"])))

  const CreateCoupon: Declaration :=
    Declaration("createCoupon", Schema("object",
      [("percentOff", Num), ("amountOff", Int), ("currency", Str), ("duration", Str),
      ("durationInMonths", Int), ("name", Str), ("maxRedemptions", Int)], Some(["duration"])))

  const ListCoupons: Declaration :=
    Declaration("listCoupons", Schema("object", [("limit", Int)], None))

  const DeleteCoupon: Declaration :=
    Declaration("deleteCoupon", Schema("object", [("couponId", Str)], Some(["couponId"])))

  const PreviewInvoice: Declaration :=
    Declaration("previewInvoice", Schema("object",
      [("customerId", Str), ("subscriptionId", Str), ("priceId", Str), ("couponId", Str)],
      Some(["customerId"])))

  const PreviewSubscription: Declaration :=
    Declaration("previewSubscription", Schema("object",
      [("customerId", Str), ("priceId", Str), ("couponId", Str)], Some(["customerId", "priceId"])))

  const CreateTestClock: Declaration :=
    Declaration("createTestClock", Schema("object",
      [("frozenTime", Str), ("name", Str)], Some(["frozenTime"])))

  const GetTestClock: Declaration :=
    Declaration("getTestClock", Schema("object", [("testClockId", Str)], Some(["testClockId"])))

  const ListTestClocks: Declaration :=
    Declaration("listTestClocks", Schema("object", [("limit", Int)], None))

  const AdvanceTestClock: Declaration :=
    Declaration("advanceTestClock", Schema("object",
      [("testClockId", Str), ("frozenTime", Str)], Some(["testClockId", "frozenTime"])))

  const DeleteTestClock: Declaration :=
    Declaration("deleteTestClock", Schema("object", [("testClockId", Str)], Some(["testClockId"])))

  const CreatePaymentMethod: Declaration :=
    Declaration("createPaymentMethod", Schema("object",
      [("cardNumber", Str), ("expMonth", Int), ("expYear", Int), ("cvc", Str)],
      Some(["cardNumber", "expMonth", "expYear", "cvc"])))

  const AttachPaymentMethod: Declaration :=
    Declaration("attachPaymentMethod", Schema("object",
      [("paymentMethodId", Str), ("customerId", Str)], Some(["paymentMethodId", "customerId"])))

  const ListPaymentMethods: Declaration :=
    Declaration("listPaymentMethods", Schema("object",
      [("customerId", Str), ("type", Str), ("limit", Int)], Some(["customerId"])))

  const DetachPaymentMethod: Declaration :=
    Declaration("detachPaymentMethod", Schema("object",
      [("paymentMethodId", Str)], Some(["paymentMethodId"])))

  const SetDefaultPaymentMethod: Declaration :=
    Declaration("setDefaultPaymentMethod", Schema("object",
      [("customerId", Str), ("paymentMethodId", Str)], Some(["customerId", "paymentMethodId"])))

  /** The catalog constant: its declarations in source order. */
  const StripeTools: Tool := Tool([
    CreateCustomer, ListCustomers, GetCustomer, CreateProduct, ListProducts,
    CreatePrice, ListPrices, CreateSubscription, ListSubscriptions, CancelSubscription,
    CreateCoupon, ListCoupons, DeleteCoupon, PreviewInvoice, PreviewSubscription,
    CreateTestClock, GetTestClock, ListTestClocks, AdvanceTestClock, DeleteTestClock,
    CreatePaymentMethod, AttachPaymentMethod, ListPaymentMethods, DetachPaymentMethod, SetDefaultPaymentMethod
  ])

  /** The parameter types a declaration may use. */
  predicate IsParamType(kind: string) {
    kind == "string" || kind == "integer" || kind == "number" || kind == "boolean"
  }

  function PropertyNames(s: Schema): seq<string> {
    seq(|s.properties|, i requires 0 <= i < |s.properties| => s.properties[i].0)
  }

  function RequiredNames(s: Schema): seq<string> {
    s.required.GetOr([])
  }

  predicate Distinct(names: seq<string>) {
    forall i, j :: 0 <= i < j < |names| ==> names[i] != names[j]
  }

  /** A schema is an object schema over known types whose required names are all declared. */
  predicate WellFormedSchema(s: Schema) {
    && s.kind == "object"
    && Distinct(PropertyNames(s))
    && (forall i :: 0 <= i < |s.properties| ==> IsParamType(s.properties[i].1.kind))
    && (forall r :: r in RequiredNames(s) ==> r in PropertyNames(s))
  }

  function Names(decls: seq<Declaration>): (names: seq<string>)
    ensures |names| == |decls|
    ensures forall i :: 0 <= i < |decls| ==> names[i] == decls[i].name
  {
    seq(|decls|, i requires 0 <= i < |decls| => decls[i].name)
  }

  /** Names are pairwise distinct and every schema is well formed. */
  predicate WellFormed(t: Tool) {
    && Distinct(Names(t.functionDeclarations))
    && (forall i :: 0 <= i < |t.functionDeclarations| ==> WellFormedSchema(t.functionDeclarations[i].parameters))
  }

  lemma CreateCustomerWellFormed()
    ensures WellFormedSchema(CreateCustomer.parameters)
  {
    assert PropertyNames(CreateCustomer.parameters)[0] == "email";
  }

  lemma ListCustomersWellFormed()
    ensures WellFormedSchema(ListCustomers.parameters)
  {
  }

  lemma GetCustomerWellFormed()
    ensures WellFormedSchema(GetCustomer.parameters)
  {
    assert PropertyNames(GetCustomer.parameters)[0] == "customerId";
  }

  lemma CreateProductWellFormed()
    ensures WellFormedSchema(CreateProduct.parameters)
  {
    assert PropertyNames(CreateProduct.parameters)[0] == "name";
  }

  lemma ListProductsWellFormed()
    ensures WellFormedSchema(ListProducts.parameters)
  {
  }

  lemma CreatePriceWellFormed()
    ensures WellFormedSchema(CreatePrice.parameters)
  {
    assert PropertyNames(CreatePrice.parameters)[0] == "productId";
    assert PropertyNames(CreatePrice.parameters)[1] == "unitAmount";
  }

  lemma ListPricesWellFormed()
    ensures WellFormedSchema(ListPrices.parameters)
  {
  }

  lemma CreateSubscriptionWellFormed()
    ensures WellFormedSchema(CreateSubscription.parameters)
  {
    assert PropertyNames(CreateSubscription.parameters)[0] == "customerId";
    assert PropertyNames(CreateSubscription.parameters)[1] == "priceId";
  }

  lemma ListSubscriptionsWellFormed()
    ensures WellFormedSchema(ListSubscriptions.parameters)
  {
  }

  lemma CancelSubscriptionWellFormed()
    ensures WellFormedSchema(CancelSubscription.parameters)
  {
    assert PropertyNames(CancelSubscription.parameters)[0] == "subscriptionId";
  }

  lemma CreateCouponWellFormed()
    ensures WellFormedSchema(CreateCoupon.parameters)
  {
    assert PropertyNames(CreateCoupon.parameters)[3] == "duration";
  }

  lemma ListCouponsWellFormed()
    ensures WellFormedSchema(ListCoupons.parameters)
  {
  }

  lemma DeleteCouponWellFormed()
    ensures WellFormedSchema(DeleteCoupon.parameters)
  {
    assert PropertyNames(DeleteCoupon.parameters)[0] == "couponId";
  }

  lemma PreviewInvoiceWellFormed()
    ensures WellFormedSchema(PreviewInvoice.parameters)
  {
    assert PropertyNames(PreviewInvoice.parameters)[0] == "customerId";
  }

  lemma PreviewSubscriptionWellFormed()
    ensures WellFormedSchema(PreviewSubscription.parameters)
  {
    assert PropertyNames(PreviewSubscription.parameters)[0] == "customerId";
    assert PropertyNames(PreviewSubscription.parameters)[1] == "priceId";
  }

  lemma CreateTestClockWellFormed()
    ensures WellFormedSchema(CreateTestClock.parameters)
  {
    assert PropertyNames(CreateTestClock.parameters)[0] == "frozenTime";
  }

  lemma GetTestClockWellFormed()
    ensures WellFormedSchema(GetTestClock.parameters)
  {
    assert PropertyNames(GetTestClock.parameters)[0] == "testClockId";
  }

  lemma ListTestClocksWellFormed()
    ensures WellFormedSchema(ListTestClocks.parameters)
  {
  }

  lemma AdvanceTestClockWellFormed()
    ensures WellFormedSchema(AdvanceTestClock.parameters)
  {
    assert PropertyNames(AdvanceTestClock.parameters)[0] == "testClockId";
    assert PropertyNames(AdvanceTestClock.parameters)[1] == "frozenTime";
  }

  lemma DeleteTestClockWellFormed()
    ensures WellFormedSchema(DeleteTestClock.parameters)
  {
    assert PropertyNames(DeleteTestClock.parameters)[0] == "testClockId";
  }

  lemma CreatePaymentMethodWellFormed()
    ensures WellFormedSchema(CreatePaymentMethod.parameters)
  {
    assert PropertyNames(CreatePaymentMethod.parameters)[0] == "cardNumber";
    assert PropertyNames(CreatePaymentMethod.parameters)[1] == "expMonth";
    assert PropertyNames(CreatePaymentMethod.parameters)[2] == "expYear";
    assert PropertyNames(CreatePaymentMethod.parameters)[3] == "cvc";
  }

  lemma AttachPaymentMethodWellFormed()
    ensures WellFormedSchema(AttachPaymentMethod.parameters)
  {
    assert PropertyNames(AttachPaymentMethod.parameters)[0] == "paymentMethodId";
    assert PropertyNames(AttachPaymentMethod.parameters)[1] == "customerId";
  }

  lemma ListPaymentMethodsWellFormed()
    ensures WellFormedSchema(ListPaymentMethods.parameters)
  {
    assert PropertyNames(ListPaymentMethods.parameters)[0] == "customerId";
  }

  lemma DetachPaymentMethodWellFormed()
    ensures WellFormedSchema(DetachPaymentMethod.parameters)
  {
    assert PropertyNames(DetachPaymentMethod.parameters)[0] == "paymentMethodId";
  }

  lemma SetDefaultPaymentMethodWellFormed()
    ensures WellFormedSchema(SetDefaultPaymentMethod.parameters)
  {
    assert PropertyNames(SetDefaultPaymentMethod.parameters)[0] == "customerId";
    assert PropertyNames(SetDefaultPaymentMethod.parameters)[1] == "paymentMethodId";
  }

  /** The catalog holds 25 declarations and is well formed. */
  lemma StripeToolsWellFormed()
    ensures |StripeTools.functionDeclarations| == 25
    ensures WellFormed(StripeTools)
  {
    StripeToolsSchemasWellFormed();
    StripeToolsNamesDistinct();
  }

  lemma StripeToolsNamesDistinct()
    ensures Distinct(Names(StripeTools.functionDeclarations))
  {
  }

  lemma StripeToolsSchemasWellFormed()
    ensures forall i :: 0 <= i < |StripeTools.functionDeclarations| ==> WellFormedSchema(StripeTools.functionDeclarations[i].parameters)
  {
    CreateCustomerWellFormed();
    ListCustomersWellFormed();
    GetCustomerWellFormed();
    CreateProductWellFormed();
    ListProductsWellFormed();
    CreatePriceWellFormed();
    ListPricesWellFormed();
    CreateSubscriptionWellFormed();
    ListSubscriptionsWellFormed();
    CancelSubscriptionWellFormed();
    CreateCouponWellFormed();
    ListCouponsWellFormed();
    DeleteCouponWellFormed();
    PreviewInvoiceWellFormed();
    PreviewSubscriptionWellFormed();
    CreateTestClockWellFormed();
    GetTestClockWellFormed();
    ListTestClocksWellFormed();
    AdvanceTestClockWellFormed();
    DeleteTestClockWellFormed();
    CreatePaymentMethodWellFormed();
    AttachPaymentMethodWellFormed();
    ListPaymentMethodsWellFormed();
    DetachPaymentMethodWellFormed();
    SetDefaultPaymentMethodWellFormed();
  }

  /** The set of names the catalog declares. */
  function NameSet(t: Tool): set<string> {
    set d | d in t.functionDeclarations :: d.name
  }

  /** A name is in the declared set exactly when it is one of the declarations' names. */
  lemma NameSetIsNames(t: Tool)
    ensures forall n :: n in NameSet(t) <==> n in Names(t.functionDeclarations)
  {
    forall n | n in Names(t.functionDeclarations)
      ensures n in NameSet(t)
    {
      var i :| 0 <= i < |t.functionDeclarations| && Names(t.functionDeclarations)[i] == n;
      assert t.functionDeclarations[i] in t.functionDeclarations;
    }
  }
}
