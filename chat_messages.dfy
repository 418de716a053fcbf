/** The transforms the message list applies to tool results before showing them. */
module ChatMessages {
  import opened Wrappers
  import opened Json
  import Text
  import Catalog
  import Handlers

  // ---------------------------------------------------------------- tool labels

  /** The display label of every tool, in catalog order. */
  const Labels: seq<(string, string)> := [
    ("createCustomer", "顧客作成"),
    ("listCustomers", "顧客一覧"),
    ("getCustomer", "顧客詳細"),
    ("createProduct", "商品作成"),
    ("listProducts", "商品一覧"),
    ("createPrice", "価格作成"),
    ("listPrices", "価格一覧"),
    ("createSubscription", "サブスク作成"),
    ("listSubscriptions", "サブスク一覧"),
    ("cancelSubscription", "サブスクキャンセル"),
    ("createCoupon", "クーポン作成"),
    ("listCoupons", "クーポン一覧"),
    ("deleteCoupon", "クーポン削除"),
    ("previewInvoice", "請求書プレビュー"),
    ("previewSubscription", "サブスクプレビュー"),
    ("createTestClock", "テストクロック作成"),
    ("getTestClock", "テストクロック詳細"),
    ("listTestClocks", "テストクロック一覧"),
    ("advanceTestClock", "テストクロック進行"),
    ("deleteTestClock", "テストクロック削除"),
    ("createPaymentMethod", "支払い方法作成"),
    ("attachPaymentMethod", "支払い方法紐付け"),
    ("listPaymentMethods", "支払い方法一覧"),
    ("detachPaymentMethod", "支払い方法切り離し"),
    ("setDefaultPaymentMethod", "デフォルト支払い方法設定")
  ]

  /** The names the label table knows. */
  function LabelKeys(table: seq<(string, string)>): (keys: seq<string>)
    ensures |keys| == |table|
    ensures forall i :: 0 <= i < |table| ==> keys[i] == table[i].0
  {
    seq(|table|, i requires 0 <= i < |table| => table[i].0)
  }

  /** The label stored for `name`, by the first entry carrying it. */
  function LabelOf(table: seq<(string, string)>, name: string): (r: Option<string>)
    ensures r.None? <==> name !in LabelKeys(table)
    ensures r.Some? ==> exists i :: 0 <= i < |table| && table[i] == (name, r.value)
    decreases |table|
  {
    if |table| == 0 then None
    else if table[0].0 == name then Some(table[0].1)
    else
      var r := LabelOf(table[1..], name);
      assert LabelKeys(table) == [table[0].0] + LabelKeys(table[1..]);
      if r.Some? then
        var i :| 0 <= i < |table| - 1 && table[1..][i] == (name, r.value);
        assert table[i + 1] == (name, r.value);
        r
      else r
  }

  /** `names[name] || name` looking up own keys only: the label of a known tool, and the name itself for anything else. */
  function FormatFunctionName(name: string): (shown: string)
    ensures name !in LabelKeys(Labels) ==> shown == name
    ensures name in LabelKeys(Labels) && LabelOf(Labels, name).value != "" ==> shown == LabelOf(Labels, name).value
  {
    var l := LabelOf(Labels, name);
    if l.Some? && l.value != "" then l.value else name
  }

  /** What `names[name] || name` yields: a text, or an inherited `Object.prototype` member, which is no text. */
  datatype ShownName = Plain(text: string) | InheritedValue(member: string)

  /**
   * `names[name] || name` as the source evaluates it: `names` is a plain object, so the name of an inherited
   * member finds that member (a function, or the prototype object itself for "__proto__"), which is truthy
   * and is shown in place of a text. Every other name is shown as `FormatFunctionName` shows it.
   */
  function FormatFunctionNameAsWritten(name: string): (shown: ShownName)
    ensures name !in InheritedMembers ==> shown == Plain(FormatFunctionName(name))
    ensures name in InheritedMembers ==> shown == InheritedValue(name)
  {
    LabelsMatchCatalog();
    Handlers.InheritedMembersAreNoHandlers();
    var l := LabelOf(Labels, name);
    if l.Some? && l.value != "" then Plain(l.value)
    else if name in InheritedMembers then InheritedValue(name)
    else Plain(name)
  }

  /**
   * A stored call named "toString" or "__proto__" (the loop records such calls) is shown as the inherited
   * function or the prototype object instead of its name; the own-key lookup shows the name itself.
   */
  lemma InheritedNamesAreShownAsWritten()
    ensures FormatFunctionNameAsWritten("toString") == InheritedValue("toString")
    ensures FormatFunctionNameAsWritten("__proto__") == InheritedValue("__proto__")
    ensures FormatFunctionName("toString") == "toString" && FormatFunctionName("__proto__") == "__proto__"
  {
    assert InheritedMembers[5] == "toString" && InheritedMembers[11] == "__proto__";
    LabelsMatchCatalog();
    Handlers.InheritedMembersAreNoHandlers();
  }

  /** The label table knows exactly the tools of the catalog, in the same order. */
  lemma LabelsMatchCatalog()
    ensures LabelKeys(Labels) == Catalog.Names(Catalog.StripeTools.functionDeclarations)
    ensures forall n :: n in LabelKeys(Labels) <==> Handlers.HasHandler(n)
  {
    Handlers.HandlerNamesAreDeclared();
    assert LabelKeys(Labels) == Handlers.HandlerNames;
  }

  // ---------------------------------------------------------------- dashboard links

  datatype Link = Link(text: string, url: string)

  const OpenInDashboard := "ダッシュボードで開く"
  const OpenCustomerInDashboard := "顧客をダッシュボードで開く"

  /** `obj.dashboardUrl && typeof obj.dashboardUrl === 'string'`. */
  predicate HasLinkField(v: Json, key: string) {
    IsNonEmptyString(Prop(v, key))
  }

  /** The link a field holds, when it holds one. */
  function UrlOf(v: Json, key: string): string {
    if HasLinkField(v, key) then Prop(v, key).value.s else ""
  }

  /** The label of the `index`-th list item: its `id`, or `#` and its position counted from one. */
  function ItemLabel(item: Json, index: nat): string {
    if Truthy(Prop(item, "id")) then ToJsString(Prop(item, "id")) else "#" + Text.NatToString(index + 1)
  }

  /** The links of the list items from position `start` on, in order. */
  function ItemLinks(items: seq<Json>, start: nat): (links: seq<Link>)
    ensures |links| <= |items|
    decreases |items|
  {
    if |items| == 0 then []
    else
      var init := ItemLinks(items[..|items| - 1], start);
      var item := items[|items| - 1];
      if HasLinkField(item, "dashboardUrl")
      then init + [Link(ItemLabel(item, start + |items| - 1), UrlOf(item, "dashboardUrl"))]
      else init
  }

  /** The links a result offers: one per linked list item, or up to two for an object. */
  function DashboardLinks(result: Json): (links: seq<Link>)
    ensures result.JArr? ==> links == ItemLinks(result.items, 0)
    ensures !result.JArr? && !result.JObj? ==> links == []
  {
    match result
    case JArr(items) => ItemLinks(items, 0)
    case JObj(_) =>
      (if HasLinkField(result, "dashboardUrl") then [Link(OpenInDashboard, UrlOf(result, "dashboardUrl"))] else [])
      + (if HasLinkField(result, "customerDashboardUrl")
         then [Link(OpenCustomerInDashboard, UrlOf(result, "customerDashboardUrl"))] else [])
    case _ => []
  }

  /** `extractDashboardUrls`: the `forEach` over a list pushes one link per linked item. */
  method ExtractDashboardUrls(result: Json) returns (urls: seq<Link>)
    ensures urls == DashboardLinks(result)
  {
    urls := [];
    if result.JArr? {
      var items := result.items;
      for index := 0 to |items|
        invariant urls == ItemLinks(items[..index], 0)
      {
        assert items[..index + 1][..index] == items[..index];
        var item := items[index];
        if item.JObj? || item.JArr? {
          if HasLinkField(item, "dashboardUrl") {
            urls := urls + [Link(ItemLabel(item, index), UrlOf(item, "dashboardUrl"))];
          }
        }
      }
      assert items[..|items|] == items;
    } else if result.JObj? {
      if HasLinkField(result, "dashboardUrl") {
        urls := urls + [Link(OpenInDashboard, UrlOf(result, "dashboardUrl"))];
      }
      if HasLinkField(result, "customerDashboardUrl") {
        urls := urls + [Link(OpenCustomerInDashboard, UrlOf(result, "customerDashboardUrl"))];
      }
    }
  }

  /** Every link of a list points at one of its items' own `dashboardUrl`, by an item whose link field is set. */
  lemma {:induction false} ItemLinksComeFromItems(items: seq<Json>, start: nat)
    ensures forall l :: l in ItemLinks(items, start) ==>
      exists i :: 0 <= i < |items| && HasLinkField(items[i], "dashboardUrl") && l == Link(ItemLabel(items[i], start + i), UrlOf(items[i], "dashboardUrl"))
    decreases |items|
  {
    if |items| > 0 {
      var init := items[..|items| - 1];
      ItemLinksComeFromItems(init, start);
      forall l | l in ItemLinks(items, start)
        ensures exists i :: 0 <= i < |items| && HasLinkField(items[i], "dashboardUrl") && l == Link(ItemLabel(items[i], start + i), UrlOf(items[i], "dashboardUrl"))
      {
        if l in ItemLinks(init, start) {
          var i :| 0 <= i < |init| && HasLinkField(init[i], "dashboardUrl") && l == Link(ItemLabel(init[i], start + i), UrlOf(init[i], "dashboardUrl"));
          assert items[i] == init[i];
        } else {
          assert l == Link(ItemLabel(items[|items| - 1], start + |items| - 1), UrlOf(items[|items| - 1], "dashboardUrl"));
        }
      }
    }
  }

  /** A list whose every item has a link yields exactly one link per item, in order. */
  lemma {:induction false} EveryLinkedItemIsListed(items: seq<Json>, start: nat)
    requires forall i :: 0 <= i < |items| ==> HasLinkField(items[i], "dashboardUrl")
    ensures |ItemLinks(items, start)| == |items|
    ensures forall i :: 0 <= i < |items| ==>
      ItemLinks(items, start)[i] == Link(ItemLabel(items[i], start + i), UrlOf(items[i], "dashboardUrl"))
    decreases |items|
  {
    if |items| > 0 {
      var init := items[..|items| - 1];
      EveryLinkedItemIsListed(init, start);
    }
  }

  /** The links of a list split at any point are the links of the two parts, the second counted on from the first. */
  lemma {:induction false} ItemLinksAppend(a: seq<Json>, b: seq<Json>, start: nat)
    ensures ItemLinks(a + b, start) == ItemLinks(a, start) + ItemLinks(b, start + |a|)
    decreases |b|
  {
    if |b| == 0 {
      assert a + b == a;
    } else {
      assert (a + b)[..|a + b| - 1] == a + b[..|b| - 1];
      ItemLinksAppend(a, b[..|b| - 1], start);
    }
  }

  /**
   * An object yields at most two links, the dashboard one before the customer one, each pointing at the
   * text of its own field.
   */
  lemma ObjectLinks(result: Json)
    requires result.JObj?
    ensures |DashboardLinks(result)| <= 2
    ensures |DashboardLinks(result)| > 0 <==> HasLinkField(result, "dashboardUrl") || HasLinkField(result, "customerDashboardUrl")
    ensures HasLinkField(result, "dashboardUrl") ==>
      DashboardLinks(result)[0] == Link(OpenInDashboard, Prop(result, "dashboardUrl").value.s)
    ensures HasLinkField(result, "customerDashboardUrl") ==>
      DashboardLinks(result)[|DashboardLinks(result)| - 1]
        == Link(OpenCustomerInDashboard, Prop(result, "customerDashboardUrl").value.s)
  {
  }

  // ---------------------------------------------------------------- cleaning

  /** The two link fields, which are shown as links instead of data. */
  predicate IsLinkKey(key: string) {
    key == "dashboardUrl" || key == "customerDashboardUrl"
  }

  /** The entries that are not link fields, in order. */
  function Unlinked(fields: Fields): (r: Fields)
    ensures |r| <= |fields|
    ensures forall k :: Lookup(r, k) == if IsLinkKey(k) then None else Lookup(fields, k)
    ensures forall e :: e in r <==> e in fields && !IsLinkKey(e.0)
    decreases |fields|
  {
    if |fields| == 0 then []
    else if IsLinkKey(fields[0].0) then Unlinked(fields[1..])
    else [fields[0]] + Unlinked(fields[1..])
  }

  /** Dropping the link fields of two runs of entries one after the other keeps the order of both. */
  lemma {:induction false} UnlinkedAppend(a: Fields, b: Fields)
    ensures Unlinked(a + b) == Unlinked(a) + Unlinked(b)
    decreases |a|
  {
    if |a| == 0 {
      assert a + b == b;
    } else {
      assert (a + b)[0] == a[0] && (a + b)[1..] == a[1..] + b;
      UnlinkedAppend(a[1..], b);
    }
  }

  /** One more entry is kept at the end exactly when it is no link field. */
  lemma UnlinkedSnoc(a: Fields, e: (string, Json))
    ensures Unlinked(a + [e]) == Unlinked(a) + (if IsLinkKey(e.0) then [] else [e])
  {
    UnlinkedAppend(a, [e]);
    assert [e][1..] == [];
  }

  /** `cleanResultForDisplay`: lists are cleaned item by item, objects lose their link fields, anything else is kept. */
  function Cleaned(v: Json): (r: Json)
    decreases v
  {
    match v
    case JArr(items) => JArr(seq(|items|, i requires 0 <= i < |items| => Cleaned(items[i])))
    case JObj(fields) => JObj(Unlinked(fields))
    case _ => v
  }

  /** The loop over `Object.entries(obj)` copying every entry but the link fields. */
  method CleanFields(fields: Fields) returns (cleaned: Fields)
    ensures cleaned == Unlinked(fields)
  {
    cleaned := [];
    for i := 0 to |fields|
      invariant cleaned == Unlinked(fields[..i])
    {
      assert Unlinked(fields[..i + 1]) == Unlinked(fields[..i]) + (if IsLinkKey(fields[i].0) then [] else [fields[i]]) by {
        assert fields[..i + 1] == fields[..i] + [fields[i]];
        UnlinkedSnoc(fields[..i], fields[i]);
      }
      if !IsLinkKey(fields[i].0) {
        cleaned := cleaned + [fields[i]];
      }
    }
    assert fields[..|fields|] == fields;
  }

  method CleanResultForDisplay(result: Json) returns (r: Json)
    ensures r == Cleaned(result)
    decreases result
  {
    match result {
      case JArr(items) =>
        var mapped: seq<Json> := [];
        for i := 0 to |items|
          invariant |mapped| == i
          invariant forall j :: 0 <= j < i ==> mapped[j] == Cleaned(items[j])
        {
          var c := CleanResultForDisplay(items[i]);
          mapped := mapped + [c];
        }
        r := JArr(mapped);
      case JObj(fields) =>
        var cleaned := CleanFields(fields);
        r := JObj(cleaned);
      case _ =>
        r := result;
    }
  }

  /** Cleaning keeps every field but the link fields, removes those, keeps list lengths and leaves other values alone. */
  lemma CleanedShape(v: Json)
    ensures v.JObj? ==> Cleaned(v).JObj? && forall k :: Prop(Cleaned(v), k) == if IsLinkKey(k) then None else Prop(v, k)
    ensures v.JArr? ==> Cleaned(v).JArr? && |Cleaned(v).items| == |v.items|
    ensures !v.JObj? && !v.JArr? ==> Cleaned(v) == v
  {
  }

  /** Cleaning twice is cleaning once. */
  lemma {:induction false} CleanedIdempotent(v: Json)
    ensures Cleaned(Cleaned(v)) == Cleaned(v)
    decreases v
  {
    match v
    case JArr(items) =>
      var once := seq(|items|, i requires 0 <= i < |items| => Cleaned(items[i]));
      forall i | 0 <= i < |items|
        ensures Cleaned(once[i]) == once[i]
      {
        CleanedIdempotent(items[i]);
      }
    case JObj(fields) =>
      UnlinkedIdempotent(fields);
    case _ =>
  }

  lemma {:induction false} UnlinkedIdempotent(fields: Fields)
    ensures Unlinked(Unlinked(fields)) == Unlinked(fields)
    decreases |fields|
  {
    if |fields| > 0 {
      UnlinkedIdempotent(fields[1..]);
      if !IsLinkKey(fields[0].0) {
        assert ([fields[0]] + Unlinked(fields[1..]))[1..] == Unlinked(fields[1..]);
      }
    }
  }

  /** A cleaned result offers no links any more. */
  lemma CleanedHasNoObjectLinks(v: Json)
    requires v.JObj?
    ensures DashboardLinks(Cleaned(v)) == []
  {
    var fields := Unlinked(v.fields);
    assert Lookup(fields, "dashboardUrl").None?;
    assert Lookup(fields, "customerDashboardUrl").None?;
    assert !HasLinkField(JObj(fields), "dashboardUrl") && !HasLinkField(JObj(fields), "customerDashboardUrl");
  }
}
