/** The generated `UsagePrice` model: five nullable fields, fluent setters,
    the lazily created tier list and a field-wise `equals`. It does not
    extend `KillBillObject`, so there are no audit logs. */
module UsagePriceModel {
  import opened Wrappers
  import opened Java

  /** `org.killbill.billing.catalog.api.UsageType`. */
  datatype UsageType = CAPACITY | CONSUMABLE

  /** `org.killbill.billing.catalog.api.BillingMode`. */
  datatype BillingMode = IN_ADVANCE | IN_ARREAR

  /** `org.killbill.billing.catalog.api.TierBlockPolicy`. */
  datatype TierBlockPolicy = ALL_TIERS | TOP_TIER

  /** A generated `TierPrice`, known here only by its `toString()`; its own
      fields are not part of this model. */
  datatype TierPrice = TierPrice(text: string)

  /** The tier list is a nullable `List` whose elements may be null. */
  datatype UsagePrice = UsagePrice(
    usageName: Option<string>,
    usageType: Option<UsageType>,
    billingMode: Option<BillingMode>,
    tierBlockPolicy: Option<TierBlockPolicy>,
    tierPrices: Option<seq<Option<TierPrice>>>)

  datatype Field = UsageName | UsageTypeField | BillingModeField | TierBlockPolicyField | TierPrices

  /** `a` and `b` agree on every field but `f`. */
  predicate SameExcept(a: UsagePrice, b: UsagePrice, f: Field) {
    && (f == UsageName || a.usageName == b.usageName)
    && (f == UsageTypeField || a.usageType == b.usageType)
    && (f == BillingModeField || a.billingMode == b.billingMode)
    && (f == TierBlockPolicyField || a.tierBlockPolicy == b.tierBlockPolicy)
    && (f == TierPrices || a.tierPrices == b.tierPrices)
  }

  /** The no-argument constructor: every field null. */
  function EmptyUsagePrice(): (u: UsagePrice)
    ensures u.usageName.None? && u.usageType.None? && u.billingMode.None?
    ensures u.tierBlockPolicy.None? && u.tierPrices.None?
  {
    UsagePrice(None, None, None, None, None)
  }

  /** The full constructor stores its five arguments; the tier list is kept
      as given, not copied. */
  function NewUsagePrice(usageName: Option<string>, usageType: Option<UsageType>, billingMode: Option<BillingMode>,
                         tierBlockPolicy: Option<TierBlockPolicy>, tierPrices: Option<seq<Option<TierPrice>>>)
    : (u: UsagePrice)
    ensures u.usageName == usageName && u.usageType == usageType && u.billingMode == billingMode
    ensures u.tierBlockPolicy == tierBlockPolicy && u.tierPrices == tierPrices
  {
    UsagePrice(usageName, usageType, billingMode, tierBlockPolicy, tierPrices)
  }

  function SetUsageName(u: UsagePrice, v: Option<string>): (r: UsagePrice)
    ensures r.usageName == v && SameExcept(r, u, UsageName)
  {
    u.(usageName := v)
  }

  function SetUsageType(u: UsagePrice, v: Option<UsageType>): (r: UsagePrice)
    ensures r.usageType == v && SameExcept(r, u, UsageTypeField)
  {
    u.(usageType := v)
  }

  function SetBillingMode(u: UsagePrice, v: Option<BillingMode>): (r: UsagePrice)
    ensures r.billingMode == v && SameExcept(r, u, BillingModeField)
  {
    u.(billingMode := v)
  }

  function SetTierBlockPolicy(u: UsagePrice, v: Option<TierBlockPolicy>): (r: UsagePrice)
    ensures r.tierBlockPolicy == v && SameExcept(r, u, TierBlockPolicyField)
  {
    u.(tierBlockPolicy := v)
  }

  function SetTierPrices(u: UsagePrice, v: Option<seq<Option<TierPrice>>>): (r: UsagePrice)
    ensures r.tierPrices == v && SameExcept(r, u, TierPrices)
  {
    u.(tierPrices := v)
  }

  /** `addTierPricesItem(item)`: a null list is first replaced by an empty
      `ArrayList`, then the item (possibly null) is appended. */
  function AddTierPricesItem(u: UsagePrice, item: Option<TierPrice>): (r: UsagePrice)
    ensures r.tierPrices.Some? && SameExcept(r, u, TierPrices)
    ensures u.tierPrices.None? ==> r.tierPrices.value == [item]
    ensures u.tierPrices.Some? ==>
      && |r.tierPrices.value| == |u.tierPrices.value| + 1
      && r.tierPrices.value[|u.tierPrices.value|] == item
      && r.tierPrices.value[..|u.tierPrices.value|] == u.tierPrices.value
  {
    var tiers := if u.tierPrices.None? then [] else u.tierPrices.value;
    u.(tierPrices := Some(tiers + [item]))
  }

  /** Adding the items one by one to a fresh object gives the list of the
      items in the order they were added. */
  function AddAll(u: UsagePrice, items: seq<Option<TierPrice>>): UsagePrice
    decreases |items|
  {
    if |items| == 0 then u else AddAll(AddTierPricesItem(u, items[0]), items[1..])
  }

  lemma {:induction false} AddAllAppends(u: UsagePrice, items: seq<Option<TierPrice>>)
    requires u.tierPrices.Some?
    ensures AddAll(u, items) == u.(tierPrices := Some(u.tierPrices.value + items))
    decreases |items|
  {
    if |items| == 0 {
      assert u.tierPrices.value + items == u.tierPrices.value;
    } else {
      var next := AddTierPricesItem(u, items[0]);
      AddAllAppends(next, items[1..]);
      assert next.tierPrices.value == u.tierPrices.value + [items[0]];
      assert u.tierPrices.value + [items[0]] + items[1..] == u.tierPrices.value + items;
    }
  }

  /** Starting from a null list, `n > 0` additions leave exactly the added
      items, in order. */
  lemma AddToNullList(u: UsagePrice, items: seq<Option<TierPrice>>)
    requires u.tierPrices.None? && |items| > 0
    ensures AddAll(u, items).tierPrices == Some(items)
    ensures SameExcept(AddAll(u, items), u, TierPrices)
  {
    var first := AddTierPricesItem(u, items[0]);
    AddAllAppends(first, items[1..]);
    assert [items[0]] + items[1..] == items;
  }

  /** `equals(o)`: false for null and another class, otherwise the five
      fields compared with `Objects.equals`. */
  function Equals(a: UsagePrice, o: JObject<UsagePrice>): (r: bool)
    ensures o.Null? || o.OtherClass? ==> !r
    ensures r <==> o == Instance(a)
  {
    match o
    case Null => false
    case OtherClass(_) => false
    case Instance(b) =>
      && a.usageName == b.usageName
      && a.usageType == b.usageType
      && a.billingMode == b.billingMode
      && a.tierBlockPolicy == b.tierBlockPolicy
      && a.tierPrices == b.tierPrices
  }

  /** Two prices that differ only in their tier list are equal exactly when
      the lists are: a list that was never created differs from an empty
      one. */
  lemma NullTiersDifferFromEmpty(u: UsagePrice)
    ensures !Equals(SetTierPrices(u, None), Instance(SetTierPrices(u, Some([]))))
  {
  }
}
