/**
 Importing a supplier's product, for the first time or again: one catalog variant per
 supplier variant, found again through its link, priced by the product's rule.
 */
module ProductImport {
  import opened Options
  import opened Pricing
  import opened Catalog
  import opened PricingRules

  const DEFAULT_IMPORT_STOCK: int := 999

  datatype PayloadVariant = PayloadVariant(externalId: string, price: Option<real>)

  /** A normalised supplier payload; `slug` is the one derived from its title. */
  datatype Payload = Payload(supplier: string, externalId: string, slug: string, variants: seq<PayloadVariant>)
  {
    function Key(): SupplierKey { SupplierKey(supplier, externalId) }
  }

  function PositivePrices(vs: seq<PayloadVariant>): seq<real> {
    if vs == [] then []
    else
      (if vs[0].price.Some? && vs[0].price.value > 0.0 then [vs[0].price.value] else []) + PositivePrices(vs[1..])
  }

  /** The cost of a variant that came without a price; a price of 0 is a price. */
  function LowestPrice(vs: seq<PayloadVariant>): real {
    if PositivePrices(vs) == [] then 10.0 else MinOf(PositivePrices(vs))
  }

  /** What stays the same while the variants of one payload are written. */
  datatype Context = Context(
    product: ProductId, rule: Option<Rule>, key: SupplierKey, lowest: real, stocks: map<string, int>)
  {
    function Cost(v: PayloadVariant): real { Or(v.price, lowest) }

    function Selling(v: PayloadVariant): real { CalculateVariantPrice(Cost(v), rule).calculatedPrice }

    function Stock(v: PayloadVariant): int {
      if v.externalId in stocks && stocks[v.externalId] >= 0 then stocks[v.externalId] else DEFAULT_IMPORT_STOCK
    }

    function LinkTo(v: PayloadVariant): LinkKey { LinkKey(key, v.externalId) }
  }

  function Linked(t: Tables, key: LinkKey): Option<VariantId> {
    if key in t.links then t.links[key].variant else None
  }

  /** One turn of the loop: the linked variant is overwritten where it stands, or a new one made. */
  function ImportOne(t: Tables, ctx: Context, v: PayloadVariant): Tables {
    var price, link := ctx.Selling(v), Linked(t, ctx.LinkTo(v));
    var id := if link.Some? then link.value else t.nextId;
    var deleted := id in t.variants && t.variants[id].deleted;
    t.(variants := t.variants[id := Variant(ctx.product, price, Some(ctx.Cost(v)), Some(price), deleted)],
       links := t.links[ctx.LinkTo(v) := Link(Some(id), ctx.Cost(v), ctx.Stock(v))],
       nextId := if link.Some? then t.nextId else t.nextId + 1)
  }

  function ImportAll(t: Tables, ctx: Context, vs: seq<PayloadVariant>): Tables
    decreases vs
  {
    if vs == [] then t else ImportAll(ImportOne(t, ctx, vs[0]), ctx, vs[1..])
  }

  function SellingPrices(ctx: Context, vs: seq<PayloadVariant>): (prices: seq<real>)
    ensures |prices| == |vs| && forall i | 0 <= i < |vs| :: prices[i] == ctx.Selling(vs[i])
  {
    if vs == [] then [] else [ctx.Selling(vs[0])] + SellingPrices(ctx, vs[1..])
  }

  ghost function BySlug(t: Tables, slug: string): (p: Option<ProductId>)
    ensures p.Some? ==> p.value in t.products && t.products[p.value].slug == slug
    ensures p.None? ==> forall q | q in t.products :: t.products[q].slug != slug
  {
    if exists q :: q in t.products && t.products[q].slug == slug then
      var q :| q in t.products && t.products[q].slug == slug;
      Some(q)
    else None
  }

  /** The product row after its upsert: only a new product takes the default rule. */
  ghost function UpsertedProduct(t: Tables, payload: Payload): (ProductId, Product) {
    var price := Some(LowestPrice(payload.variants));
    match BySlug(t, payload.slug)
    case Some(p) => (p, t.products[p].(price := price))
    case None => (t.nextId, Product(payload.slug, DefaultRule(t), price, None, false))
  }

  ghost function Upserted(t: Tables, payload: Payload): Tables {
    var (p, row) := UpsertedProduct(t, payload);
    t.(products := t.products[p := row],
       supplierProducts := t.supplierProducts[payload.Key() := p],
       nextId := if p in t.products then t.nextId else t.nextId + 1)
  }

  ghost function ContextOf(t: Tables, payload: Payload, stocks: map<string, int>): Context {
    var p := UpsertedProduct(t, payload).0;
    Context(p, RuleFor(Upserted(t, payload), p), payload.Key(), LowestPrice(payload.variants), stocks)
  }

  ghost function Imported(t: Tables, payload: Payload, stocks: map<string, int>, now: int): Tables {
    var ctx := ContextOf(t, payload, stocks);
    var u := ImportAll(Upserted(t, payload), ctx, payload.variants);
    ImportAllProducts(Upserted(t, payload), ctx, payload.variants);
    if payload.variants == [] then u
    else
      var regularPrice := MinOf(SellingPrices(ctx, payload.variants));
      u.(products := u.products[ctx.product := Displaying(u.products[ctx.product], ctx.rule, regularPrice, now)])
  }

  lemma {:induction false} ImportAllProducts(t: Tables, ctx: Context, vs: seq<PayloadVariant>)
    ensures
      var u := ImportAll(t, ctx, vs);
      u.products == t.products && u.rules == t.rules && u.supplierProducts == t.supplierProducts
    decreases vs
  {
    if vs != [] {
      ImportAllProducts(ImportOne(t, ctx, vs[0]), ctx, vs[1..]);
    }
  }

  lemma {:induction false} ImportAllKeepsLinks(t: Tables, ctx: Context, vs: seq<PayloadVariant>, k: LinkKey)
    requires k in t.links && t.links[k].variant.Some?
    ensures k in ImportAll(t, ctx, vs).links && ImportAll(t, ctx, vs).links[k].variant == t.links[k].variant
    decreases vs
  {
    if vs != [] {
      ImportAllKeepsLinks(ImportOne(t, ctx, vs[0]), ctx, vs[1..], k);
    }
  }

  // ----- Imports keep the catalog's invariant ------------------------------------------------

  /** The loop's context fits the tables it works on. */
  ghost predicate Fits(t: Tables, ctx: Context) {
    ctx.product in t.products && ctx.rule == RuleFor(t, ctx.product)
  }

  lemma UpsertKeepsInv(t: Tables, payload: Payload, stocks: map<string, int>)
    requires Inv(t)
    ensures Inv(Upserted(t, payload)) && Fits(Upserted(t, payload), ContextOf(t, payload, stocks))
    ensures KeepsPrices(t, Upserted(t, payload))
  {
    var u := Upserted(t, payload);
    forall v | InLine(t, v) ensures InLine(u, v) {
      if v in t.variants {
        assert t.variants[v].product in t.products;
        assert RuleFor(u, t.variants[v].product) == RuleFor(t, t.variants[v].product);
      }
    }
  }

  lemma ImportOneKeepsInv(t: Tables, ctx: Context, v: PayloadVariant)
    requires Inv(t) && Fits(t, ctx)
    ensures Inv(ImportOne(t, ctx, v)) && Fits(ImportOne(t, ctx, v), ctx) && KeepsPrices(t, ImportOne(t, ctx, v))
  {
    var u := ImportOne(t, ctx, v);
    forall w | InLine(t, w) ensures InLine(u, w) {
      assert w in t.variants ==> RuleFor(u, t.variants[w].product) == RuleFor(t, t.variants[w].product);
    }
  }

  lemma {:induction false} ImportAllKeepsInv(t: Tables, ctx: Context, vs: seq<PayloadVariant>)
    requires Inv(t) && Fits(t, ctx)
    ensures Inv(ImportAll(t, ctx, vs)) && Fits(ImportAll(t, ctx, vs), ctx) && KeepsPrices(t, ImportAll(t, ctx, vs))
    decreases vs
  {
    if vs != [] {
      ImportOneKeepsInv(t, ctx, vs[0]);
      ImportAllKeepsInv(ImportOne(t, ctx, vs[0]), ctx, vs[1..]);
    }
  }

  lemma ImportKeepsInv(t: Tables, payload: Payload, stocks: map<string, int>, now: int)
    requires Inv(t)
    ensures Inv(Imported(t, payload, stocks, now)) && KeepsPrices(t, Imported(t, payload, stocks, now))
    ensures HasDefault(t) ==> HasDefault(Imported(t, payload, stocks, now))
  {
    var ctx, mid := ContextOf(t, payload, stocks), Upserted(t, payload);
    UpsertKeepsInv(t, payload, stocks);
    ImportAllKeepsInv(mid, ctx, payload.variants);
    ImportAllProducts(mid, ctx, payload.variants);
    var done, u := ImportAll(mid, ctx, payload.variants), Imported(t, payload, stocks, now);
    DisplayingKeepsInv(done, ctx.product, u.products[ctx.product]);
    DefaultStays(t, u);
  }

  lemma DisplayingKeepsInv(t: Tables, p: ProductId, row: Product)
    requires Inv(t) && p in t.products && row == t.products[p].(price := row.price, salePrice := row.salePrice)
    ensures Inv(t.(products := t.products[p := row])) && KeepsPrices(t, t.(products := t.products[p := row]))
  {
    var u := t.(products := t.products[p := row]);
    forall v | InLine(t, v) ensures InLine(u, v) {
      assert v in t.variants ==> RuleFor(u, t.variants[v].product) == RuleFor(t, t.variants[v].product);
    }
  }

  // ----- Importing again ---------------------------------------------------------------------

  ghost predicate Distinct(vs: seq<PayloadVariant>) {
    forall i, j | 0 <= i < j < |vs| :: vs[i].externalId != vs[j].externalId
  }

  /** The supplier's variant stands for a variant of the imported product, with its stock. */
  ghost predicate Placed(t: Tables, ctx: Context, v: PayloadVariant) {
    var link := ctx.LinkTo(v);
    && link in t.links && t.links[link].variant.Some? && t.links[link].stock == ctx.Stock(v)
    && t.links[link].variant.value in t.variants
    && t.variants[t.links[link].variant.value].product == ctx.product
  }

  /** ... and carries that supplier variant's cost and price. */
  ghost predicate Settled(t: Tables, ctx: Context, v: PayloadVariant) {
    Placed(t, ctx, v) &&
    var id := t.links[ctx.LinkTo(v)].variant.value;
    && t.links[ctx.LinkTo(v)].costPrice == ctx.Cost(v)
    && t.variants[id] == Variant(ctx.product, ctx.Selling(v), Some(ctx.Cost(v)), Some(ctx.Selling(v)), t.variants[id].deleted)
  }

  lemma ImportOnePlaces(t: Tables, ctx: Context, v: PayloadVariant, other: PayloadVariant)
    requires Inv(t) && Fits(t, ctx)
    ensures Settled(ImportOne(t, ctx, v), ctx, v)
    ensures Placed(t, ctx, other) ==> Placed(ImportOne(t, ctx, v), ctx, other)
    ensures Settled(t, ctx, other) && other.externalId != v.externalId ==> Settled(ImportOne(t, ctx, v), ctx, other)
  {
    if Placed(t, ctx, other) && other.externalId != v.externalId && Linked(t, ctx.LinkTo(v)).Some? {
      assert t.links[ctx.LinkTo(v)].variant != t.links[ctx.LinkTo(other)].variant;
    }
  }

  lemma {:induction false} ImportAllKeepsPlaced(t: Tables, ctx: Context, vs: seq<PayloadVariant>, other: PayloadVariant)
    requires Inv(t) && Fits(t, ctx)
    ensures Placed(t, ctx, other) ==> Placed(ImportAll(t, ctx, vs), ctx, other)
    ensures Settled(t, ctx, other) && (forall v | v in vs :: v.externalId != other.externalId) ==>
              Settled(ImportAll(t, ctx, vs), ctx, other)
    decreases vs
  {
    if vs != [] {
      ImportOnePlaces(t, ctx, vs[0], other);
      ImportOneKeepsInv(t, ctx, vs[0]);
      ImportAllKeepsPlaced(ImportOne(t, ctx, vs[0]), ctx, vs[1..], other);
    }
  }

  /** No later payload variant has the same id. */
  predicate IsLast(vs: seq<PayloadVariant>, i: nat) {
    i < |vs| && forall j | i < j < |vs| :: vs[j].externalId != vs[i].externalId
  }

  lemma {:induction false} ImportAllPlaces(t: Tables, ctx: Context, vs: seq<PayloadVariant>)
    requires Inv(t) && Fits(t, ctx)
    ensures forall i | 0 <= i < |vs| :: Placed(ImportAll(t, ctx, vs), ctx, vs[i])
    ensures forall i | 0 <= i < |vs| && IsLast(vs, i) :: Settled(ImportAll(t, ctx, vs), ctx, vs[i])
    decreases vs
  {
    if vs != [] {
      var u, rest := ImportOne(t, ctx, vs[0]), vs[1..];
      ImportOneKeepsInv(t, ctx, vs[0]);
      ImportOnePlaces(t, ctx, vs[0], vs[0]);
      ImportAllKeepsPlaced(u, ctx, rest, vs[0]);
      ImportAllPlaces(u, ctx, rest);
      assert forall i | 1 <= i < |vs| :: vs[i] == rest[i - 1];
      forall i | 0 <= i < |vs| && IsLast(vs, i) ensures Settled(ImportAll(t, ctx, vs), ctx, vs[i]) {
        if i > 0 { assert IsLast(rest, i - 1); }
      }
    }
  }

  /** Every payload variant ends up on the imported product, with the reported stock or 999. */
  lemma ImportPlaces(t: Tables, payload: Payload, stocks: map<string, int>, now: int, i: nat)
    requires Inv(t) && i < |payload.variants|
    ensures
      var u, ctx := Imported(t, payload, stocks, now), ContextOf(t, payload, stocks);
      && Placed(u, ctx, payload.variants[i])
      && ctx.product in u.products && u.products[ctx.product].slug == payload.slug
      && payload.Key() in u.supplierProducts && u.supplierProducts[payload.Key()] == ctx.product
      && VariantImported(t, u, payload, stocks, ctx.product, payload.variants[i])
  {
    VariantIsImported(t, payload, stocks, now, payload.variants[i]);
    ImportSettles(t, payload, stocks, now, payload.variants[i]);
    ImportedFrame(t, payload, stocks, now);
  }

  lemma {:induction false} PlacedMakesNothingNew(t: Tables, ctx: Context, vs: seq<PayloadVariant>)
    requires Inv(t) && Fits(t, ctx) && forall i | 0 <= i < |vs| :: Placed(t, ctx, vs[i])
    ensures
      var u := ImportAll(t, ctx, vs);
      && u.variants.Keys == t.variants.Keys && u.nextId == t.nextId
      && (forall k | k in t.links :: k in u.links && u.links[k].variant == t.links[k].variant)
    decreases vs
  {
    if vs != [] {
      assert Placed(t, ctx, vs[0]);
      var u := ImportOne(t, ctx, vs[0]);
      ImportOneKeepsInv(t, ctx, vs[0]);
      forall i | 0 <= i < |vs[1..]| ensures Placed(u, ctx, vs[1..][i]) {
        assert Placed(t, ctx, vs[i + 1]);
        ImportOnePlaces(t, ctx, vs[0], vs[i + 1]);
      }
      PlacedMakesNothingNew(u, ctx, vs[1..]);
      assert u.variants.Keys == t.variants.Keys;
    }
  }

  lemma {:induction false} SettledStays(t: Tables, ctx: Context, vs: seq<PayloadVariant>)
    requires Fits(t, ctx) && forall i | 0 <= i < |vs| :: Settled(t, ctx, vs[i])
    ensures ImportAll(t, ctx, vs) == t
    decreases vs
  {
    if vs != [] {
      assert Settled(t, ctx, vs[0]);
      assert ImportOne(t, ctx, vs[0]).variants == t.variants;
      assert ImportOne(t, ctx, vs[0]).links == t.links;
      forall i | 0 <= i < |vs[1..]| ensures Settled(t, ctx, vs[1..][i]) {
        assert Settled(t, ctx, vs[i + 1]);
      }
      SettledStays(t, ctx, vs[1..]);
    }
  }

  /** What an import does outside the variants and links. */
  lemma ImportedFrame(t: Tables, payload: Payload, stocks: map<string, int>, now: int)
    requires Inv(t)
    ensures
      var u, ctx, mid := Imported(t, payload, stocks, now), ContextOf(t, payload, stocks), Upserted(t, payload);
      && u == ImportAll(mid, ctx, payload.variants).(products := u.products)
      && u.rules == t.rules && u.supplierProducts == mid.supplierProducts
      && ctx.product in mid.products && mid.products[ctx.product].slug == payload.slug
      && ctx.product in u.products && u.products == mid.products[ctx.product := u.products[ctx.product]]
      && u.products[ctx.product].rule == mid.products[ctx.product].rule
      && u.products[ctx.product].slug == payload.slug
  {
    ImportAllProducts(Upserted(t, payload), ContextOf(t, payload, stocks), payload.variants);
  }

  lemma SlugFound(t: Tables, p: ProductId, slug: string)
    requires Unique(t) && p in t.products && t.products[p].slug == slug
    ensures BySlug(t, slug) == Some(p)
  {}

  /** A second import of the same payload sees the same product and rule. */
  lemma SameContext(t: Tables, payload: Payload, stocks: map<string, int>, now: int)
    requires Inv(t)
    ensures
      var u, ctx := Imported(t, payload, stocks, now), ContextOf(t, payload, stocks);
      && ContextOf(u, payload, stocks) == ctx && ctx.product in u.products
      && Upserted(u, payload) ==
           u.(products := u.products[ctx.product := u.products[ctx.product].(price := Some(ctx.lowest))])
  {
    var u, ctx := Imported(t, payload, stocks, now), ContextOf(t, payload, stocks);
    ImportedFrame(t, payload, stocks, now);
    ImportKeepsInv(t, payload, stocks, now);
    SlugFound(u, ctx.product, payload.slug);
    assert u.supplierProducts[payload.Key() := ctx.product] == u.supplierProducts;
  }

  lemma SecondUpsert(t: Tables, payload: Payload, stocks: map<string, int>, now: int)
    requires Inv(t)
    ensures
      var u, ctx := Imported(t, payload, stocks, now), ContextOf(t, payload, stocks);
      var again := Upserted(u, payload);
      Inv(again) && Fits(again, ctx) && again == u.(products := again.products)
  {
    var u := Imported(t, payload, stocks, now);
    ImportKeepsInv(t, payload, stocks, now);
    SameContext(t, payload, stocks, now);
    UpsertKeepsInv(u, payload, stocks);
  }

  lemma SecondImport(t: Tables, payload: Payload, stocks: map<string, int>, now: int)
    requires Inv(t)
    ensures
      var u, ctx := Imported(t, payload, stocks, now), ContextOf(t, payload, stocks);
      var w := Imported(u, payload, stocks, now);
      w == ImportAll(Upserted(u, payload), ctx, payload.variants).(products := u.products)
  {
    var u, ctx := Imported(t, payload, stocks, now), ContextOf(t, payload, stocks);
    ImportKeepsInv(t, payload, stocks, now);
    SameContext(t, payload, stocks, now);
    ImportedFrame(u, payload, stocks, now);
    SameRow(t, payload, stocks, now);
  }

  lemma SameRow(t: Tables, payload: Payload, stocks: map<string, int>, now: int)
    requires Inv(t)
    ensures
      var u, ctx := Imported(t, payload, stocks, now), ContextOf(t, payload, stocks);
      var w := Imported(u, payload, stocks, now);
      ctx.product in u.products && ctx.product in w.products && w.products[ctx.product] == u.products[ctx.product]
  {
    var u, ctx := Imported(t, payload, stocks, now), ContextOf(t, payload, stocks);
    SameContext(t, payload, stocks, now);
    ImportAllProducts(Upserted(t, payload), ctx, payload.variants);
    ImportAllProducts(Upserted(u, payload), ctx, payload.variants);
  }

  /** After an import each payload variant is placed, and settled if the ids are distinct. */
  lemma ImportSettles(t: Tables, payload: Payload, stocks: map<string, int>, now: int, v: PayloadVariant)
    requires Inv(t) && v in payload.variants
    ensures
      var u, ctx := Imported(t, payload, stocks, now), ContextOf(t, payload, stocks);
      Placed(u, ctx, v) && (Distinct(payload.variants) ==> Settled(u, ctx, v))
  {
    var ctx, mid := ContextOf(t, payload, stocks), Upserted(t, payload);
    UpsertKeepsInv(t, payload, stocks);
    ImportAllPlaces(mid, ctx, payload.variants);
    ImportedFrame(t, payload, stocks, now);
    var i :| 0 <= i < |payload.variants| && payload.variants[i] == v;
    assert Placed(ImportAll(mid, ctx, payload.variants), ctx, payload.variants[i]);
    assert Distinct(payload.variants) ==> IsLast(payload.variants, i);
  }

  /** Importing a payload again creates nothing and moves no link, whatever it holds. */
  lemma ReimportCreatesNothing(t: Tables, payload: Payload, stocks: map<string, int>, now: int)
    requires Inv(t)
    ensures
      var u := Imported(t, payload, stocks, now);
      var w := Imported(u, payload, stocks, now);
      && w.variants.Keys == u.variants.Keys && w.products.Keys == u.products.Keys && w.nextId == u.nextId
      && forall k | k in u.links :: k in w.links && w.links[k].variant == u.links[k].variant
  {
    var u, ctx := Imported(t, payload, stocks, now), ContextOf(t, payload, stocks);
    SecondUpsert(t, payload, stocks, now);
    SecondImport(t, payload, stocks, now);
    forall i | 0 <= i < |payload.variants| ensures Placed(Upserted(u, payload), ctx, payload.variants[i]) {
      ImportSettles(t, payload, stocks, now, payload.variants[i]);
    }
    PlacedMakesNothingNew(Upserted(u, payload), ctx, payload.variants);
  }

  /** With distinct external ids it changes nothing at all. */
  lemma ReimportIsNoop(t: Tables, payload: Payload, stocks: map<string, int>, now: int)
    requires Inv(t) && Distinct(payload.variants)
    ensures
      var u := Imported(t, payload, stocks, now);
      Imported(u, payload, stocks, now) == u
  {
    var u, ctx := Imported(t, payload, stocks, now), ContextOf(t, payload, stocks);
    SecondUpsert(t, payload, stocks, now);
    SecondImport(t, payload, stocks, now);
    forall i | 0 <= i < |payload.variants| ensures Settled(Upserted(u, payload), ctx, payload.variants[i]) {
      ImportSettles(t, payload, stocks, now, payload.variants[i]);
    }
    SettledStays(Upserted(u, payload), ctx, payload.variants);
  }

  // ----- An import, told from the payload, the stock report and the columns ------------------------

  ghost predicate ImportedAs(
    t: Tables, u: Tables, payload: Payload, stocks: map<string, int>, now: int, p: ProductId)
  {
    exists fallback, prices :: IsImported(t, u, payload, stocks, now, p, fallback, prices)
  }

  /** What the import as a whole leaves. */
  ghost predicate IsImported(
    t: Tables, u: Tables, payload: Payload, stocks: map<string, int>, now: int, p: ProductId, fallback: real, prices: seq<real>)
  {
    var vs := payload.variants;
    && ProductImported(t, u, payload, p) && IsFallback(fallback, vs)
    && (forall v | v in vs :: VariantImported(t, u, payload, stocks, p, v))
    && (forall k | k in t.links && forall v | v in vs :: LinkOf(payload, v.externalId) != k ::
          k in u.links && u.links[k] == t.links[k])
    && (forall id | id in t.variants && (forall v | v in vs :: Linked(t, LinkOf(payload, v.externalId)) != Some(id)) ::
          id in u.variants && u.variants[id] == t.variants[id])
    && (forall rule | IsRuleOf(u, p, rule) :: IsPriced(t, u, payload, now, p, rule, fallback, prices))
  }

  /** What the variants and the product cost then; `prices` are those of the payload's variants in turn. */
  ghost predicate IsPriced(
    t: Tables, u: Tables, payload: Payload, now: int, p: ProductId, rule: Option<Rule>, fallback: real, prices: seq<real>)
    requires p in u.products
  {
    var vs := payload.variants;
    && |prices| == |vs| && (forall i | 0 <= i < |vs| :: SellsFor(vs[i], rule, fallback, prices[i]))
    && (forall i | 0 <= i < |vs| && IsLast(vs, i) :: VariantWritten(u, payload, rule, fallback, vs[i], prices[i]))
    && if vs != [] then Displays(rule, (set x | x in prices), now, u.products[p])
       else
         u.products[p].price == Some(10.0) &&
         u.products[p].salePrice == if p in t.products then t.products[p].salePrice else None
  }

  predicate SellsFor(v: PayloadVariant, rule: Option<Rule>, fallback: real, price: real) {
    AsPriced(match v.price case Some(cost) => cost case None => fallback, rule, price)
  }

  predicate IsPositivePrice(x: real, vs: seq<PayloadVariant>) {
    x > 0.0 && exists v :: v in vs && v.price == Some(x)
  }

  /** What variants without a price cost: the lowest price above zero, or ten when there is none. */
  ghost predicate IsFallback(cost: real, vs: seq<PayloadVariant>) {
    if exists x: real :: IsPositivePrice(x, vs)
    then IsPositivePrice(cost, vs) && forall x: real | IsPositivePrice(x, vs) :: cost <= x
    else cost == 10.0
  }

  /** The reported stock, unless none or a negative number was reported. */
  predicate IsStock(stock: int, stocks: map<string, int>, id: string) {
    if id in stocks && stocks[id] >= 0 then stock == stocks[id] else stock == 999
  }

  function LinkOf(payload: Payload, id: string): LinkKey {
    LinkKey(SupplierKey(payload.supplier, payload.externalId), id)
  }

  /** Where a payload variant ends up: its link, and the catalog variant it had or a new one. */
  ghost predicate VariantImported(
    t: Tables, u: Tables, payload: Payload, stocks: map<string, int>, p: ProductId, v: PayloadVariant)
  {
    var k := LinkOf(payload, v.externalId);
    && k in u.links && IsStock(u.links[k].stock, stocks, v.externalId)
    && u.links[k].variant.Some? && u.links[k].variant.value in u.variants
    && var id := u.links[k].variant.value;
       u.variants[id].product == p &&
       if k in t.links && t.links[k].variant.Some? then
         t.links[k].variant == Some(id) && id in t.variants && u.variants[id].deleted == t.variants[id].deleted
       else id !in t.variants && !u.variants[id].deleted
  }

  /** The last payload variant of an id decides what its catalog variant and link say. */
  predicate VariantWritten(
    u: Tables, payload: Payload, rule: Option<Rule>, fallback: real, v: PayloadVariant, price: real)
  {
    var k := LinkOf(payload, v.externalId);
    var cost := match v.price case Some(given) => given case None => fallback;
    && k in u.links && u.links[k].costPrice == cost && u.links[k].variant.Some? && u.links[k].variant.value in u.variants
    && var row := u.variants[u.links[k].variant.value];
       row.baseCost == Some(cost) && row.price == price && row.calculatedPrice == Some(price)
  }

  /** The imported product: the one with the payload's slug, or a new one on the default rule. */
  ghost predicate ProductImported(t: Tables, u: Tables, payload: Payload, p: ProductId) {
    && p in u.products && u.products[p].slug == payload.slug && u.products.Keys == t.products.Keys + {p}
    && (forall q | q in t.products && q != p :: u.products[q] == t.products[q])
    && u.supplierProducts == t.supplierProducts[SupplierKey(payload.supplier, payload.externalId) := p]
    && u.rules == t.rules
    && if p in t.products then
         t.products[p].slug == payload.slug &&
         u.products[p] == t.products[p].(price := u.products[p].price, salePrice := u.products[p].salePrice)
       else
         && (forall q | q in t.products :: t.products[q].slug != payload.slug) && !u.products[p].deleted
         && (u.products[p].rule.Some? ==> u.products[p].rule.value in t.rules && t.rules[u.products[p].rule.value].isDefault)
         && (u.products[p].rule.None? ==> forall r | r in t.rules :: !t.rules[r].isDefault)
  }

  lemma {:induction false} PositivePricesAre(vs: seq<PayloadVariant>, x: real)
    ensures x in PositivePrices(vs) <==> IsPositivePrice(x, vs)
  {
    if vs != [] {
      PositivePricesAre(vs[1..], x);
      assert forall v :: v in vs <==> v == vs[0] || v in vs[1..];
    }
  }

  lemma FallbackIsLowestPrice(vs: seq<PayloadVariant>)
    ensures IsFallback(LowestPrice(vs), vs)
  {
    forall x ensures x in PositivePrices(vs) <==> IsPositivePrice(x, vs) { PositivePricesAre(vs, x); }
    if PositivePrices(vs) != [] { assert PositivePrices(vs)[0] in PositivePrices(vs); }
  }

  // The loop, seen from one link and one variant.

  lemma {:induction false} ImportAllKeepsDeleted(t: Tables, ctx: Context, vs: seq<PayloadVariant>, id: VariantId)
    requires id in t.variants
    ensures id in ImportAll(t, ctx, vs).variants && ImportAll(t, ctx, vs).variants[id].deleted == t.variants[id].deleted
    decreases vs
  {
    if vs != [] { ImportAllKeepsDeleted(ImportOne(t, ctx, vs[0]), ctx, vs[1..], id); }
  }

  lemma {:induction false} NewLinkIsFresh(t: Tables, ctx: Context, vs: seq<PayloadVariant>, k: LinkKey)
    requires Inv(t) && Fits(t, ctx) && Linked(t, k).None?
    ensures
      var u, link := ImportAll(t, ctx, vs), Linked(ImportAll(t, ctx, vs), k);
      link.Some? ==> link.value !in t.variants && link.value in u.variants && !u.variants[link.value].deleted
    decreases vs
  {
    if vs != [] {
      var u := ImportOne(t, ctx, vs[0]);
      ImportOneKeepsInv(t, ctx, vs[0]);
      if ctx.LinkTo(vs[0]) == k {
        ImportAllKeepsLinks(u, ctx, vs[1..], k);
        ImportAllKeepsDeleted(u, ctx, vs[1..], t.nextId);
      } else {
        NewLinkIsFresh(u, ctx, vs[1..], k);
      }
    }
  }

  lemma {:induction false} ImportAllKeepsOtherLinks(t: Tables, ctx: Context, vs: seq<PayloadVariant>, k: LinkKey)
    requires forall v | v in vs :: ctx.LinkTo(v) != k
    ensures k in ImportAll(t, ctx, vs).links <==> k in t.links
    ensures k in t.links ==> ImportAll(t, ctx, vs).links[k] == t.links[k]
    decreases vs
  {
    if vs != [] { ImportAllKeepsOtherLinks(ImportOne(t, ctx, vs[0]), ctx, vs[1..], k); }
  }

  lemma {:induction false} ImportAllKeepsOthers(t: Tables, ctx: Context, vs: seq<PayloadVariant>, id: VariantId)
    requires Inv(t) && Fits(t, ctx) && id in t.variants && forall v | v in vs :: Linked(t, ctx.LinkTo(v)) != Some(id)
    ensures id in ImportAll(t, ctx, vs).variants && ImportAll(t, ctx, vs).variants[id] == t.variants[id]
    decreases vs
  {
    if vs != [] {
      assert vs[0] in vs;
      ImportOneKeepsInv(t, ctx, vs[0]);
      ImportAllKeepsOthers(ImportOne(t, ctx, vs[0]), ctx, vs[1..], id);
    }
  }

  lemma ProductIsImported(t: Tables, payload: Payload, stocks: map<string, int>, now: int)
    requires Inv(t)
    ensures ProductImported(t, Imported(t, payload, stocks, now), payload, ContextOf(t, payload, stocks).product)
  {
    ImportedFrame(t, payload, stocks, now);
    ImportAllProducts(Upserted(t, payload), ContextOf(t, payload, stocks), payload.variants);
    assert DefaultRule(t).None? <==> forall r | r in t.rules :: !t.rules[r].isDefault;
  }

  lemma VariantIsImported(t: Tables, payload: Payload, stocks: map<string, int>, now: int, v: PayloadVariant)
    requires Inv(t) && v in payload.variants
    ensures VariantImported(
      t, Imported(t, payload, stocks, now), payload, stocks, ContextOf(t, payload, stocks).product, v)
  {
    var ctx, mid := ContextOf(t, payload, stocks), Upserted(t, payload);
    var k := ctx.LinkTo(v);
    ImportSettles(t, payload, stocks, now, v);
    ImportedFrame(t, payload, stocks, now);
    UpsertKeepsInv(t, payload, stocks);
    if Linked(t, k).Some? {
      ImportAllKeepsLinks(mid, ctx, payload.variants, k);
      ImportAllKeepsDeleted(mid, ctx, payload.variants, Linked(t, k).value);
    } else {
      NewLinkIsFresh(mid, ctx, payload.variants, k);
    }
  }

  lemma RuleIsContexts(t: Tables, payload: Payload, stocks: map<string, int>, now: int, rule: Option<Rule>)
    requires Inv(t)
    requires
      var u, p := Imported(t, payload, stocks, now), ContextOf(t, payload, stocks).product;
      p in u.products && IsRuleOf(u, p, rule)
    ensures rule == ContextOf(t, payload, stocks).rule
  {
    ImportedFrame(t, payload, stocks, now);
  }

  lemma LastIsWritten(t: Tables, payload: Payload, stocks: map<string, int>, now: int, i: nat)
    requires Inv(t) && IsLast(payload.variants, i)
    ensures
      var u, ctx, v := Imported(t, payload, stocks, now), ContextOf(t, payload, stocks), payload.variants[i];
      VariantWritten(u, payload, ctx.rule, ctx.lowest, v, ctx.Selling(v))
  {
    var ctx, mid := ContextOf(t, payload, stocks), Upserted(t, payload);
    UpsertKeepsInv(t, payload, stocks);
    ImportAllPlaces(mid, ctx, payload.variants);
    ImportedFrame(t, payload, stocks, now);
    assert Settled(ImportAll(mid, ctx, payload.variants), ctx, payload.variants[i]);
  }

  lemma PricesAreShown(t: Tables, payload: Payload, stocks: map<string, int>, now: int)
    requires Inv(t)
    ensures
      var u, ctx, vs := Imported(t, payload, stocks, now), ContextOf(t, payload, stocks), payload.variants;
      ctx.product in u.products &&
      if vs != [] then Displays(ctx.rule, (set x | x in SellingPrices(ctx, vs)), now, u.products[ctx.product])
      else
        u.products[ctx.product].price == Some(10.0) &&
        u.products[ctx.product].salePrice
        == if ctx.product in t.products then t.products[ctx.product].salePrice else None
  {
    var u, ctx, vs := Imported(t, payload, stocks, now), ContextOf(t, payload, stocks), payload.variants;
    ImportedFrame(t, payload, stocks, now);
    ImportAllProducts(Upserted(t, payload), ctx, vs);
    if vs != [] {
      var lowest := MinOf(SellingPrices(ctx, vs));
      SaleNowMeaning(ctx.rule, lowest, now);
      assert IsLowest(lowest, set x | x in SellingPrices(ctx, vs));
    }
  }

  /** An import leaves what its payload and the stock report say, for any payload. */
  lemma ImportMeaning(t: Tables, payload: Payload, stocks: map<string, int>, now: int)
    requires Inv(t)
    ensures
      var ctx := ContextOf(t, payload, stocks);
      IsImported(
        t, Imported(t, payload, stocks, now), payload, stocks, now, ctx.product, LowestPrice(payload.variants),
        SellingPrices(ctx, payload.variants))
  {
    var u, ctx, vs := Imported(t, payload, stocks, now), ContextOf(t, payload, stocks), payload.variants;
    var mid, prices := Upserted(t, payload), SellingPrices(ctx, vs);
    ProductIsImported(t, payload, stocks, now);
    FallbackIsLowestPrice(vs);
    forall v | v in vs ensures VariantImported(t, u, payload, stocks, ctx.product, v) {
      VariantIsImported(t, payload, stocks, now, v);
    }
    RestIsKept(t, payload, stocks, now);
    forall rule | IsRuleOf(u, ctx.product, rule)
      ensures IsPriced(t, u, payload, now, ctx.product, rule, ctx.lowest, prices)
    {
      RuleIsContexts(t, payload, stocks, now, rule);
      PayloadIsPriced(t, payload, stocks, now);
    }
  }

  lemma ImportIsSound(t: Tables, payload: Payload, stocks: map<string, int>, now: int)
    requires Inv(t)
    ensures
      var u := Imported(t, payload, stocks, now);
      Inv(u) && ImportedAs(t, u, payload, stocks, now, UpsertedProduct(t, payload).0)
  {
    ImportKeepsInv(t, payload, stocks, now);
    ImportMeaning(t, payload, stocks, now);
  }

  lemma RestIsKept(t: Tables, payload: Payload, stocks: map<string, int>, now: int)
    requires Inv(t)
    ensures
      var u, vs := Imported(t, payload, stocks, now), payload.variants;
      && (forall k | k in t.links && forall v | v in vs :: LinkOf(payload, v.externalId) != k ::
            k in u.links && u.links[k] == t.links[k])
      && (forall id | id in t.variants && (forall v | v in vs :: Linked(t, LinkOf(payload, v.externalId)) != Some(id)) ::
            id in u.variants && u.variants[id] == t.variants[id])
  {
    var u, ctx, vs := Imported(t, payload, stocks, now), ContextOf(t, payload, stocks), payload.variants;
    var mid := Upserted(t, payload);
    UpsertKeepsInv(t, payload, stocks);
    ImportedFrame(t, payload, stocks, now);
    forall k | k in t.links && forall v | v in vs :: LinkOf(payload, v.externalId) != k
      ensures k in u.links && u.links[k] == t.links[k]
    {
      ImportAllKeepsOtherLinks(mid, ctx, vs, k);
    }
    forall id | id in t.variants && forall v | v in vs :: Linked(t, LinkOf(payload, v.externalId)) != Some(id)
      ensures id in u.variants && u.variants[id] == t.variants[id]
    {
      ImportAllKeepsOthers(mid, ctx, vs, id);
    }
  }

  lemma PayloadIsPriced(t: Tables, payload: Payload, stocks: map<string, int>, now: int)
    requires Inv(t)
    ensures
      var u, ctx, vs := Imported(t, payload, stocks, now), ContextOf(t, payload, stocks), payload.variants;
      ctx.product in u.products &&
      IsPriced(t, u, payload, now, ctx.product, ctx.rule, ctx.lowest, SellingPrices(ctx, vs))
  {
    var u, ctx, vs := Imported(t, payload, stocks, now), ContextOf(t, payload, stocks), payload.variants;
    var prices := SellingPrices(ctx, vs);
    PricesAreShown(t, payload, stocks, now);
    forall i | 0 <= i < |vs| ensures SellsFor(vs[i], ctx.rule, ctx.lowest, prices[i]) {
      PriceMeaning(ctx.Cost(vs[i]), ctx.rule);
    }
    forall i | 0 <= i < |vs| && IsLast(vs, i)
      ensures VariantWritten(u, payload, ctx.rule, ctx.lowest, vs[i], prices[i])
    {
      LastIsWritten(t, payload, stocks, now, i);
    }
  }

  // ----- The import ----------------------------------------------------------------------------

  datatype ImportOutcome = Done(product: ProductId) | SupplierNotFound | MissingExternalId

  /**
   Imports a payload. `inventory` is the adapter's stock report, or `None` when asking for
   it failed. The transaction is the whole of it or, in the error cases, nothing.
   */
  method ImportProduct(db: CatalogDb, suppliers: set<string>, payload: Payload, inventory: Option<map<string, int>>, now: int)
    returns (outcome: ImportOutcome)
    requires Inv(db.State())
    modifies db
    ensures Inv(db.State())
    ensures payload.supplier !in suppliers ==> outcome == SupplierNotFound
    ensures payload.supplier in suppliers && payload.externalId == "" ==> outcome == MissingExternalId
    ensures payload.supplier in suppliers && payload.externalId != "" ==>
              outcome == Done(UpsertedProduct(old(db.State()), payload).0) &&
              db.State() == Imported(old(db.State()), payload, Or(inventory, map[]), now)
    ensures outcome.Done? ==>
              var stocks := match inventory case Some(report) => report case None => map[];
              ImportedAs(old(db.State()), db.State(), payload, stocks, now, outcome.product)
    ensures !outcome.Done? ==> db.State() == old(db.State())
  {
    if payload.supplier !in suppliers {
      return SupplierNotFound;
    }
    var defaultRule := FindDefault(db);
    if payload.externalId == "" {
      return MissingExternalId;
    }
    var stocks := Or(inventory, map[]);
    ImportIsSound(db.State(), payload, stocks, now);
    var product := ImportInTransaction(db, payload, defaultRule, stocks, now);
    outcome := Done(product);
  }

  method ImportInTransaction(
    db: CatalogDb, payload: Payload, defaultRule: Option<RuleId>, stocks: map<string, int>, now: int)
    returns (product: ProductId)
    requires Inv(db.State()) && defaultRule == DefaultRule(db.State())
    modifies db
    ensures db.State() == Imported(old(db.State()), payload, stocks, now)
    ensures product == UpsertedProduct(old(db.State()), payload).0
  {
    ghost var t := db.State();
    UpsertKeepsInv(t, payload, stocks);
    product := UpsertProduct(db, payload, defaultRule);
    var ctx := Context(product, RuleFor(db.State(), product), payload.Key(), LowestPrice(payload.variants), stocks);
    var sellingPrices := ImportVariants(db, ctx, payload.variants);
    ImportAllProducts(Upserted(t, payload), ctx, payload.variants);
    if sellingPrices != [] {
      db.products := db.products[product := Displaying(db.products[product], ctx.rule, MinOf(sellingPrices), now)];
    }
  }

  method UpsertProduct(db: CatalogDb, payload: Payload, defaultRule: Option<RuleId>) returns (product: ProductId)
    requires Inv(db.State()) && defaultRule == DefaultRule(db.State())
    modifies db
    ensures db.State() == Upserted(old(db.State()), payload)
    ensures product == UpsertedProduct(old(db.State()), payload).0
  {
    var price := Some(LowestPrice(payload.variants));
    if p :| p in db.products && db.products[p].slug == payload.slug {
      SlugFound(db.State(), p, payload.slug);
      product := p;
      db.products := db.products[p := db.products[p].(price := price)];
    } else {
      product := db.nextId;
      db.products := db.products[product := Product(payload.slug, defaultRule, price, None, false)];
      db.nextId := db.nextId + 1;
    }
    db.supplierProducts := db.supplierProducts[payload.Key() := product];
  }

  /** The loop over the payload's variants. */
  method ImportVariants(db: CatalogDb, ctx: Context, vs: seq<PayloadVariant>) returns (sellingPrices: seq<real>)
    requires Inv(db.State()) && Fits(db.State(), ctx)
    modifies db
    ensures db.State() == ImportAll(old(db.State()), ctx, vs)
    ensures sellingPrices == SellingPrices(ctx, vs)
  {
    sellingPrices := [];
    ghost var t := db.State();
    var i := 0;
    while i < |vs|
      invariant 0 <= i <= |vs|
      invariant db.State() == t && Inv(t) && Fits(t, ctx)
      invariant ImportAll(old(db.State()), ctx, vs) == ImportAll(t, ctx, vs[i..])
      invariant SellingPrices(ctx, vs) == sellingPrices + SellingPrices(ctx, vs[i..])
    {
      ImportOneKeepsInv(t, ctx, vs[i]);
      ImportVariant(db, ctx, vs[i]);
      t := ImportOne(t, ctx, vs[i]);
      sellingPrices := sellingPrices + [ctx.Selling(vs[i])];
      assert vs[i..][1..] == vs[i + 1..];
      i := i + 1;
    }
  }

  method ImportVariant(db: CatalogDb, ctx: Context, v: PayloadVariant)
    requires Inv(db.State())
    modifies db
    ensures db.State() == ImportOne(old(db.State()), ctx, v)
  {
    var existing := Linked(db.State(), ctx.LinkTo(v));
    var cost, price := ctx.Cost(v), ctx.Selling(v);
    var id := db.nextId;
    if existing.Some? {
      id := existing.value;
      db.variants := db.variants[id :=
        db.variants[id].(product := ctx.product, price := price, baseCost := Some(cost), calculatedPrice := Some(price))];
    } else {
      db.variants := db.variants[id := Variant(ctx.product, price, Some(cost), Some(price), false)];
      db.nextId := db.nextId + 1;
    }
    db.links := db.links[ctx.LinkTo(v) := Link(Some(id), cost, ctx.Stock(v))];
  }
}
