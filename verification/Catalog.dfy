/**
 One tenant's catalog tables, and the recalculation of a product's prices from its
 variants' costs and its pricing rule.
 */
module Catalog {
  import opened Options
  import opened Pricing

  type RuleId = nat
  type ProductId = nat
  type VariantId = nat

  datatype Product = Product(
    slug: string, rule: Option<RuleId>, price: Option<real>, salePrice: Option<real>, deleted: bool)

  datatype Variant = Variant(
    product: ProductId, price: real, baseCost: Option<real>, calculatedPrice: Option<real>, deleted: bool)

  /** A supplier's product, and one of its variants, by the supplier's own ids. */
  datatype SupplierKey = SupplierKey(supplier: string, externalId: string)

  datatype LinkKey = LinkKey(product: SupplierKey, externalId: string)

  datatype Link = Link(variant: Option<VariantId>, costPrice: real, stock: int)

  /** Every row gets its id from `nextId`. */
  datatype Tables = Tables(
    rules: map<RuleId, Rule>,
    products: map<ProductId, Product>,
    variants: map<VariantId, Variant>,
    supplierProducts: map<SupplierKey, ProductId>,
    links: map<LinkKey, Link>,
    nextId: nat)

  // ----- Lowest prices ---------------------------------------------------------------------

  function MinOf(prices: seq<real>): (lowest: real)
    requires prices != []
    ensures lowest in prices && forall p | p in prices :: lowest <= p
  {
    if |prices| == 1 then prices[0]
    else
      var rest := MinOf(prices[1..]);
      assert prices == [prices[0]] + prices[1..];
      if prices[0] <= rest then prices[0] else rest
  }

  ghost predicate IsLowest(lowest: real, prices: set<real>) {
    lowest in prices && forall p | p in prices :: lowest <= p
  }

  lemma {:induction false} HasLowest(prices: set<real>)
    requires |prices| > 0
    ensures exists lowest :: IsLowest(lowest, prices)
  {
    assert (forall p: real :: p !in prices) ==> prices == {};
    var p: real :| p in prices;
    if |prices| == 1 {
      assert |prices - {p}| == 0;
      forall q | q in prices ensures p <= q { assert q != p ==> q in prices - {p}; }
      assert IsLowest(p, prices);
    } else {
      HasLowest(prices - {p});
      var rest :| IsLowest(rest, prices - {p});
      var lowest := if p <= rest then p else rest;
      forall q | q in prices ensures lowest <= q { assert q != p ==> q in prices - {p}; }
      assert IsLowest(lowest, prices);
    }
  }

  ghost function Lowest(prices: set<real>): (lowest: real)
    requires prices != {}
    ensures IsLowest(lowest, prices)
  {
    HasLowest(prices);
    var lowest :| IsLowest(lowest, prices);
    lowest
  }

  /** The cheapest variant is the one that costs least, under any rule that keeps order. */
  lemma LowestCostIsLowestPrice(costs: seq<real>, prices: seq<real>, rule: Option<Rule>)
    requires costs != [] && |prices| == |costs| && forall i | 0 <= i < |costs| :: 0.0 <= costs[i]
    requires forall i | 0 <= i < |costs| :: prices[i] == CalculateVariantPrice(costs[i], rule).calculatedPrice
    requires rule.Some? && rule.value.isActive ==> KeepsOrder(rule.value)
    ensures MinOf(prices) == CalculateVariantPrice(MinOf(costs), rule).calculatedPrice
  {
    forall i, j | 0 <= i < |costs| && 0 <= j < |costs| && costs[i] <= costs[j] ensures prices[i] <= prices[j] {}
    var j := SamePlace(costs, prices);
  }

  lemma SamePlace(costs: seq<real>, prices: seq<real>) returns (j: nat)
    requires costs != [] && |prices| == |costs|
    requires forall i, j | 0 <= i < |costs| && 0 <= j < |costs| && costs[i] <= costs[j] :: prices[i] <= prices[j]
    ensures j < |costs| && costs[j] == MinOf(costs) && prices[j] == MinOf(prices)
  {
    j :| 0 <= j < |costs| && costs[j] == MinOf(costs);
    var i :| 0 <= i < |prices| && prices[i] == MinOf(prices);
    assert costs[i] in costs && prices[j] in prices;
  }

  // ----- Recalculation ---------------------------------------------------------------------

  function RuleFor(t: Tables, product: ProductId): Option<Rule> {
    if product in t.products && t.products[product].rule.Some? && t.products[product].rule.value in t.rules
    then Some(t.rules[t.products[product].rule.value])
    else None
  }

  function LiveOn(t: Tables, product: ProductId): set<VariantId> {
    set v | v in t.variants && t.variants[v].product == product && !t.variants[v].deleted
  }

  /** A variant without a cost keeps the price an admin gave it. */
  function NewPrice(t: Tables, v: Variant): real {
    if v.baseCost.None? then v.price else CalculateVariantPrice(v.baseCost.value, RuleFor(t, v.product)).calculatedPrice
  }

  function RepricedVariant(t: Tables, v: Variant): Variant {
    if v.baseCost.None? then v else v.(price := NewPrice(t, v), calculatedPrice := Some(NewPrice(t, v)))
  }

  /** A rule's sale counts while its window is open, whether or not the rule marks prices up. */
  function SalePriceNow(rule: Option<Rule>, regularPrice: real, now: int): Option<real> {
    if rule.Some? && rule.value.sale.Some? && IsSaleActive(rule.value.sale.value, now)
    then Some(CalculateSalePrice(regularPrice, rule.value.sale.value))
    else None
  }

  /**
   A rule that is switched off still sells off: variants go at cost, and while its sale's window
   is open the product shows that cost less the sale. Here for an amount in whole cents.
   */
  lemma InactiveRuleSells(cost: real, rule: Rule, sale: Sale, now: int)
    requires !rule.isActive && rule.sale == Some(sale) && sale.startsAt <= now <= sale.endsAt
    requires sale.kind == FixedAmount && IsWholeCents(sale.value) && IsWholeCents(cost) && 0.0 < sale.value <= cost
    ensures SalePriceNow(Some(rule), CalculateVariantPrice(cost, Some(rule)).calculatedPrice, now) == Some(cost - sale.value)
  {
    CentsSubtract(cost, sale.value);
    RoundingFixesIff(cost - sale.value);
  }

  function Displaying(p: Product, rule: Option<Rule>, regularPrice: real, now: int): Product {
    p.(price := Some(regularPrice), salePrice := SalePriceNow(rule, regularPrice, now))
  }

  function Prices(t: Tables, product: ProductId): set<real> {
    set v | v in LiveOn(t, product) :: NewPrice(t, t.variants[v])
  }

  lemma PricesOfLive(t: Tables, product: ProductId)
    requires LiveOn(t, product) != {}
    ensures Prices(t, product) != {}
  {
    var v :| v in LiveOn(t, product);
    assert NewPrice(t, t.variants[v]) in Prices(t, product);
  }

  ghost function RepricedProduct(t: Tables, product: ProductId, now: int): Product
    requires product in t.products
  {
    if LiveOn(t, product) == {} then t.products[product]
    else
      PricesOfLive(t, product);
      Displaying(t.products[product], RuleFor(t, product), Lowest(Prices(t, product)), now)
  }

  /** The products in `ids` recalculated, in no order: each is independent of the others. */
  ghost function Repriced(t: Tables, ids: set<ProductId>, now: int): Tables {
    t.(variants := map v | v in t.variants ::
                     if t.variants[v].product in ids && t.variants[v].product in t.products && !t.variants[v].deleted
                     then RepricedVariant(t, t.variants[v]) else t.variants[v],
       products := map p | p in t.products :: if p in ids then RepricedProduct(t, p, now) else t.products[p])
  }

  /** Recalculating changes nothing another recalculation reads. */
  lemma RepricedReadsSame(t: Tables, ids: set<ProductId>, now: int, product: ProductId)
    ensures
      var u := Repriced(t, ids, now);
      && RuleFor(u, product) == RuleFor(t, product)
      && LiveOn(u, product) == LiveOn(t, product)
      && Prices(u, product) == Prices(t, product)
      && forall v | v in t.variants :: NewPrice(u, u.variants[v]) == NewPrice(t, t.variants[v])
  {
    var u := Repriced(t, ids, now);
    forall v | v in t.variants ensures NewPrice(u, u.variants[v]) == NewPrice(t, t.variants[v]) {
      assert RuleFor(u, t.variants[v].product) == RuleFor(t, t.variants[v].product);
    }
    assert LiveOn(u, product) == LiveOn(t, product);
  }

  /** One after the other is the same as all at once, in any order and however often. */
  lemma RepricedAgain(t: Tables, ids: set<ProductId>, more: set<ProductId>, now: int)
    ensures Repriced(Repriced(t, ids, now), more, now) == Repriced(t, ids + more, now)
  {
    var u := Repriced(t, ids, now);
    var w, both := Repriced(u, more, now), Repriced(t, ids + more, now);
    forall p | p in t.products ensures w.products[p] == both.products[p] {
      RepricedReadsSame(t, ids, now, p);
    }
    forall v | v in t.variants ensures w.variants[v] == both.variants[v] {
      RepricedReadsSame(t, ids, now, t.variants[v].product);
    }
    assert w.products == both.products;
    assert w.variants == both.variants;
  }

  // ----- The invariant ---------------------------------------------------------------------

  /** Foreign keys hold, and unused ids are unused. */
  ghost predicate Wired(t: Tables) {
    && (forall p | p in t.products :: p < t.nextId && (t.products[p].rule.Some? ==> t.products[p].rule.value in t.rules))
    && (forall v | v in t.variants :: v < t.nextId && t.variants[v].product in t.products)
    && (forall r | r in t.rules :: r < t.nextId)
    && (forall k | k in t.supplierProducts :: t.supplierProducts[k] in t.products)
    && (forall k | k in t.links && t.links[k].variant.Some? :: t.links[k].variant.value in t.variants)
  }

  /** A live variant with a cost, on a live product, is priced by that product's current rule. */
  ghost predicate Priced(t: Tables, v: VariantId)
    requires v in t.variants
  {
    var variant := t.variants[v];
    !variant.deleted && variant.baseCost.Some? && variant.product in t.products && !t.products[variant.product].deleted
    ==> variant == RepricedVariant(t, variant)
  }

  /** The variant, once it is there, has its rule's price. */
  ghost predicate InLine(t: Tables, v: VariantId) {
    v in t.variants ==> Priced(t, v)
  }

  ghost predicate AllPriced(t: Tables) {
    forall v | v in t.variants :: Priced(t, v)
  }

  /** No variant gets out of line from `t` to `u`. */
  ghost predicate KeepsPrices(t: Tables, u: Tables) {
    forall v | InLine(t, v) :: InLine(u, v)
  }

  ghost predicate OneDefault(t: Tables) {
    forall r, s | r in t.rules && s in t.rules && t.rules[r].isDefault && t.rules[s].isDefault :: r == s
  }

  /** `@@unique([tenantId, slug])` and `@@unique([tenantId, name])` */
  ghost predicate Unique(t: Tables) {
    && (forall p, q | p in t.products && q in t.products && t.products[p].slug == t.products[q].slug :: p == q)
    && (forall r, s | r in t.rules && s in t.rules && t.rules[r].name == t.rules[s].name :: r == s)
  }

  /** No two supplier variants stand for one catalog variant. */
  ghost predicate LinksInjective(t: Tables) {
    forall j, k | j in t.links && k in t.links && t.links[j].variant.Some? && t.links[j].variant == t.links[k].variant :: j == k
  }

  ghost predicate Inv(t: Tables) {
    Wired(t) && OneDefault(t) && Unique(t) && LinksInjective(t)
  }

  /** Recalculation brings every variant it touches in line with its rule, and leaves the others in line. */
  lemma RepricedPrices(t: Tables, ids: set<ProductId>, now: int, v: VariantId)
    requires Wired(t) && v in t.variants && (t.variants[v].product in ids || Priced(t, v))
    ensures Priced(Repriced(t, ids, now), v)
  {
    RepricedReadsSame(t, ids, now, t.variants[v].product);
    assert t.variants[v].product in t.products;
  }

  /** Tables that differ in prices only. */
  ghost predicate SameShape(t: Tables, u: Tables) {
    && u == t.(products := u.products, variants := u.variants)
    && u.products.Keys == t.products.Keys && u.variants.Keys == t.variants.Keys
    && (forall p | p in t.products :: u.products[p].slug == t.products[p].slug && u.products[p].rule == t.products[p].rule)
    && (forall v | v in t.variants :: u.variants[v].product == t.variants[v].product)
  }

  lemma SameShapeKeepsInv(t: Tables, u: Tables)
    requires Inv(t) && SameShape(t, u)
    ensures Inv(u)
  {}

  lemma RepricedKeepsInv(t: Tables, ids: set<ProductId>, now: int)
    requires Inv(t)
    ensures Inv(Repriced(t, ids, now)) && KeepsPrices(t, Repriced(t, ids, now))
    ensures forall v | v in t.variants && t.variants[v].product in ids :: InLine(Repriced(t, ids, now), v)
  {
    forall v | InLine(t, v) || (v in t.variants && t.variants[v].product in ids)
      ensures InLine(Repriced(t, ids, now), v)
    {
      if v in t.variants { RepricedPrices(t, ids, now, v); }
    }
  }

  /** What recalculation leaves in line, given what a change before it did. */
  lemma RepricedAfter(t: Tables, u: Tables, ids: set<ProductId>, now: int)
    requires Inv(u) && t.variants == u.variants
    requires forall v | v in u.variants && InLine(t, v) && u.variants[v].product !in ids :: InLine(u, v)
    ensures Inv(Repriced(u, ids, now)) && KeepsPrices(t, Repriced(u, ids, now))
  {
    RepricedKeepsInv(u, ids, now);
    forall v | InLine(t, v) ensures InLine(Repriced(u, ids, now), v) {
      if v in u.variants { RepricedPrices(u, ids, now, v); }
    }
  }

  /** Every live variant's price, and the price the product shows, once it was recalculated. */
  ghost predicate ShowsLowest(t: Tables, p: ProductId, now: int)
    requires p in t.products
  {
    LiveOn(t, p) != {} ==>
      exists lowest ::
        && IsLowest(lowest, set v | v in LiveOn(t, p) :: t.variants[v].price)
        && t.products[p].price == Some(lowest)
        && t.products[p].salePrice == SalePriceNow(RuleFor(t, p), lowest, now)
  }

  lemma RepricedShowsLowest(t: Tables, ids: set<ProductId>, now: int, p: ProductId)
    requires p in t.products && p in ids
    ensures ShowsLowest(Repriced(t, ids, now), p, now)
  {
    var u := Repriced(t, ids, now);
    RepricedReadsSame(t, ids, now, p);
    if LiveOn(t, p) != {} {
      var shown := set v | v in LiveOn(u, p) :: u.variants[v].price;
      assert shown == Prices(t, p) by {
        assert forall v | v in LiveOn(t, p) :: u.variants[v].price == NewPrice(t, t.variants[v]);
      }
      assert IsLowest(Lowest(Prices(t, p)), shown);
    }
  }

  // ----- What a recalculation leaves, told from the columns ------------------------------------

  /** The row of the rule the product is on, if it is on one. */
  predicate IsRuleOf(t: Tables, p: ProductId, rule: Option<Rule>)
    requires p in t.products
  {
    if t.products[p].rule.None? then rule.None?
    else t.products[p].rule.value in t.rules && rule == Some(t.rules[t.products[p].rule.value])
  }

  /** A variant with a cost gets its price from the rule, one without keeps its row. */
  predicate VariantPriced(rule: Option<Rule>, before: Variant, after: Variant) {
    if before.baseCost.None? then after == before
    else
      after == before.(price := after.price, calculatedPrice := Some(after.price)) &&
      AsPriced(before.baseCost.value, rule, after.price)
  }

  /** The product shows the lowest of `prices`, and the rule's sale on it while that is on. */
  ghost predicate Displays(rule: Option<Rule>, prices: set<real>, now: int, row: Product) {
    exists lowest :: IsLowest(lowest, prices) && row.price == Some(lowest) && AsSold(rule, lowest, now, row.salePrice)
  }

  /** From `t` to `u` exactly the products in `ids` and their live variants are repriced, by their rules. */
  ghost predicate IsRecalculated(t: Tables, u: Tables, ids: set<ProductId>, now: int) {
    && u == t.(products := u.products, variants := u.variants)
    && u.products.Keys == t.products.Keys && u.variants.Keys == t.variants.Keys
    && (forall v | v in t.variants && !(t.variants[v].product in ids && t.variants[v].product in t.products) ::
          u.variants[v] == t.variants[v])
    && (forall p | p in t.products && p !in ids :: u.products[p] == t.products[p])
    && (forall p | p in t.products && p in ids :: ProductRecalculated(t, u, p, now))
  }

  ghost predicate ProductRecalculated(t: Tables, u: Tables, p: ProductId, now: int)
    requires p in t.products && p in u.products && t.variants.Keys == u.variants.Keys
  {
    var live := set v | v in t.variants && t.variants[v].product == p && !t.variants[v].deleted;
    && (forall v | v in t.variants && t.variants[v].product == p && t.variants[v].deleted :: u.variants[v] == t.variants[v])
    && u.products[p] == t.products[p].(price := u.products[p].price, salePrice := u.products[p].salePrice)
    && (live == {} ==> u.products[p] == t.products[p])
    && (forall rule | IsRuleOf(t, p, rule) ::
          && (forall v | v in live :: VariantPriced(rule, t.variants[v], u.variants[v]))
          && (live != {} ==> Displays(rule, set v | v in live :: u.variants[v].price, now, u.products[p])))
  }

  lemma SaleNowMeaning(rule: Option<Rule>, price: real, now: int)
    ensures AsSold(rule, price, now, SalePriceNow(rule, price, now))
  {
    if rule.Some? && rule.value.sale.Some? { SaleMeaning(price, rule.value.sale.value); }
  }

  lemma RepricedMeans(t: Tables, ids: set<ProductId>, now: int, p: ProductId)
    requires p in t.products && p in ids
    ensures ProductRecalculated(t, Repriced(t, ids, now), p, now)
  {
    var u := Repriced(t, ids, now);
    var live := set v | v in t.variants && t.variants[v].product == p && !t.variants[v].deleted;
    assert live == LiveOn(t, p);
    forall rule | IsRuleOf(t, p, rule)
      ensures forall v | v in live :: VariantPriced(rule, t.variants[v], u.variants[v])
      ensures live != {} ==> Displays(rule, set v | v in live :: u.variants[v].price, now, u.products[p])
    {
      assert rule == RuleFor(t, p);
      forall v | v in live ensures VariantPriced(rule, t.variants[v], u.variants[v]) {
        if t.variants[v].baseCost.Some? { PriceMeaning(t.variants[v].baseCost.value, rule); }
      }
      if live != {} {
        RepricedShowsLowest(t, ids, now, p);
        RepricedReadsSame(t, ids, now, p);
        var lowest := u.products[p].price.value;
        SaleNowMeaning(rule, lowest, now);
        assert IsLowest(lowest, set v | v in live :: u.variants[v].price);
      }
    }
  }

  /** A recalculation reprices exactly the live variants with a cost, and the products shown, by their rules' columns. */
  lemma RepricedMeaning(t: Tables, ids: set<ProductId>, now: int)
    ensures IsRecalculated(t, Repriced(t, ids, now), ids, now)
  {
    forall p | p in t.products && p in ids ensures ProductRecalculated(t, Repriced(t, ids, now), p, now) {
      RepricedMeans(t, ids, now, p);
    }
  }

  // ----- The tables as the services change them ----------------------------------------------

  class CatalogDb {
    var rules: map<RuleId, Rule>
    var products: map<ProductId, Product>
    var variants: map<VariantId, Variant>
    var supplierProducts: map<SupplierKey, ProductId>
    var links: map<LinkKey, Link>
    var nextId: nat

    constructor ()
      ensures State() == Tables(map[], map[], map[], map[], map[], 0) && Inv(State())
    {
      rules, products, variants, supplierProducts, links, nextId := map[], map[], map[], map[], map[], 0;
    }

    function State(): Tables
      reads this
    {
      Tables(rules, products, variants, supplierProducts, links, nextId)
    }

    /** Writes each of `live`'s new prices and collects them, kept ones too. */
    method RepriceVariants(live: set<VariantId>, rule: Option<Rule>) returns (finalPrices: seq<real>)
      requires live <= variants.Keys
      requires forall v | v in live :: rule == RuleFor(State(), variants[v].product)
      modifies this`variants
      ensures variants == PartRepriced(old(State()), live)
      ensures forall x :: x in finalPrices <==> x in set v | v in live :: NewPrice(old(State()), old(variants)[v])
    {
      ghost var t := State();
      var todo := live;
      finalPrices := [];
      assert variants == PartRepriced(t, {});
      while todo != {}
        invariant todo <= live
        invariant variants == PartRepriced(t, live - todo)
        invariant forall x :: x in finalPrices <==> x in set v | v in live - todo :: NewPrice(t, t.variants[v])
        decreases todo
      {
        var v :| v in todo;
        var variant := variants[v];
        var price := if variant.baseCost.None? then variant.price
                     else CalculateVariantPrice(variant.baseCost.value, rule).calculatedPrice;
        assert price == NewPrice(t, t.variants[v]);
        if variant.baseCost.Some? {
          variants := variants[v := variant.(calculatedPrice := Some(price), price := price)];
        }
        finalPrices := finalPrices + [price];
        assert live - (todo - {v}) == (live - todo) + {v};
        todo := todo - {v};
      }
      assert live - {} == live;
    }

    /** Recomputes one product's variant prices and the price it shows. */
    method RecalculateProductPricing(product: ProductId, now: int)
      modifies this`products, this`variants
      ensures State() == Repriced(old(State()), {product}, now)
      ensures IsRecalculated(old(State()), State(), {product}, now)
    {
      ghost var t := State();
      RepricedMeaning(t, {product}, now);
      var live := LiveOn(State(), product);
      RepricedOne(t, product, now);
      if product !in products || live == {} {
        return;
      }
      var rule := RuleFor(State(), product);
      var finalPrices := RepriceVariants(live, rule);
      assert forall x :: x in finalPrices <==> x in Prices(t, product);
      PricesOfLive(t, product);
      assert Lowest(Prices(t, product)) in finalPrices;
      var regularPrice := MinOf(finalPrices);
      products := products[product := Displaying(products[product], rule, regularPrice, now)];
    }

    /** Recalculates several products, in whatever order their turn comes. */
    method RecalculateAll(ids: set<ProductId>, now: int)
      modifies this`products, this`variants
      ensures State() == Repriced(old(State()), ids, now)
      ensures IsRecalculated(old(State()), State(), ids, now)
    {
      ghost var t := State();
      RepricedMeaning(t, ids, now);
      var todo := ids;
      RepricedNone(t, now);
      while todo != {}
        invariant todo <= ids && State() == Repriced(t, ids - todo, now)
        decreases todo
      {
        var p :| p in todo;
        RecalculateProductPricing(p, now);
        RepricedAgain(t, ids - todo, {p}, now);
        assert ids - todo + {p} == ids - (todo - {p});
        todo := todo - {p};
      }
      assert ids - {} == ids;
    }
  }

  /** The tables' variants with those in `done` repriced. */
  ghost function PartRepriced(t: Tables, done: set<VariantId>): map<VariantId, Variant> {
    map v | v in t.variants :: if v in done then RepricedVariant(t, t.variants[v]) else t.variants[v]
  }

  lemma RepricedOne(t: Tables, product: ProductId, now: int)
    ensures
      Repriced(t, {product}, now) ==
        if product !in t.products || LiveOn(t, product) == {} then t
        else t.(variants := PartRepriced(t, LiveOn(t, product)),
                products := t.products[product := RepricedProduct(t, product, now)])
  {
    var u := Repriced(t, {product}, now);
    if product !in t.products || LiveOn(t, product) == {} {
      assert forall v | v in t.variants && t.variants[v].product == product && !t.variants[v].deleted ::
          v in LiveOn(t, product);
      assert u.variants == t.variants;
      assert u.products == t.products;
    } else {
      assert u.variants == PartRepriced(t, LiveOn(t, product));
      assert u.products == t.products[product := RepricedProduct(t, product, now)];
    }
  }

  lemma RepricedNone(t: Tables, now: int)
    ensures Repriced(t, {}, now) == t
  {
    assert Repriced(t, {}, now).variants == t.variants;
    assert Repriced(t, {}, now).products == t.products;
  }
}
