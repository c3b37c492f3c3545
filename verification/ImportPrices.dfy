/**
 Two ways to the price a product shows: the import's own, and recalculation. When they agree is
 told from the tables and the payload as they are before the import.
 */
module ImportPrices {
  import opened Options
  import opened Catalog
  import opened ProductImport

  // ----- Before the import -----------------------------------------------------------------------

  /** The supplier's variant is linked to a catalog variant that was soft-deleted. */
  predicate IsDead(t: Tables, ctx: Context, v: PayloadVariant) {
    var link := Linked(t, ctx.LinkTo(v));
    link.Some? && link.value in t.variants && t.variants[link.value].deleted
  }

  predicate Claimed(t: Tables, ctx: Context, vs: seq<PayloadVariant>, id: VariantId) {
    exists i :: 0 <= i < |vs| && Linked(t, ctx.LinkTo(vs[i])) == Some(id)
  }

  /** The product's live variants that the payload does not list. */
  function Unlisted(t: Tables, ctx: Context, vs: seq<PayloadVariant>): set<VariantId> {
    set id | id in LiveOn(t, ctx.product) && !Claimed(t, ctx, vs, id)
  }

  /** Prices the payload leaves on live variants; of several with one id the last one counts. */
  function WrittenPrices(t: Tables, ctx: Context, vs: seq<PayloadVariant>): set<real> {
    set i | 0 <= i < |vs| && IsLast(vs, i) && !IsDead(t, ctx, vs[i]) :: ctx.Selling(vs[i])
  }

  /** Prices the rule gives to the unlisted variants. */
  function KeptPrices(t: Tables, ctx: Context, vs: seq<PayloadVariant>): set<real> {
    set id | id in Unlisted(t, ctx, vs) :: NewPrice(t, t.variants[id])
  }

  function LivePrices(t: Tables, ctx: Context, vs: seq<PayloadVariant>): set<real> {
    WrittenPrices(t, ctx, vs) + KeptPrices(t, ctx, vs)
  }

  /** The unlisted variants have their rule's prices. */
  predicate UpToDate(t: Tables, ctx: Context, vs: seq<PayloadVariant>) {
    forall id | id in Unlisted(t, ctx, vs) :: RepricedVariant(t, t.variants[id]) == t.variants[id]
  }

  // ----- What the loop does to the variants --------------------------------------------------------

  lemma {:induction false} DeadStays(t: Tables, ctx: Context, vs: seq<PayloadVariant>, v: PayloadVariant)
    requires Inv(t) && Fits(t, ctx)
    ensures IsDead(ImportAll(t, ctx, vs), ctx, v) <==> IsDead(t, ctx, v)
    decreases vs
  {
    if vs != [] {
      ImportOneKeepsInv(t, ctx, vs[0]);
      DeadStep(t, ctx, vs[0], v);
      DeadStays(ImportOne(t, ctx, vs[0]), ctx, vs[1..], v);
    }
  }

  lemma DeadStep(t: Tables, ctx: Context, v: PayloadVariant, other: PayloadVariant)
    requires Inv(t)
    ensures IsDead(ImportOne(t, ctx, v), ctx, other) <==> IsDead(t, ctx, other)
  {
    var link := Linked(t, ctx.LinkTo(other));
    assert link.Some? ==> link.value in t.variants;
  }

  /** Variants no payload id is linked to are left alone, and only those stay unclaimed. */
  lemma {:induction false} RestStays(t: Tables, ctx: Context, vs: seq<PayloadVariant>, id: VariantId)
    requires Inv(t) && Fits(t, ctx)
    ensures
      var u := ImportAll(t, ctx, vs);
      && (id in u.variants && !Claimed(u, ctx, vs, id) <==> id in t.variants && !Claimed(t, ctx, vs, id))
      && (id in t.variants && !Claimed(t, ctx, vs, id) ==> u.variants[id] == t.variants[id])
    decreases vs
  {
    if vs != [] {
      var one, rest := ImportOne(t, ctx, vs[0]), vs[1..];
      ImportOneKeepsInv(t, ctx, vs[0]);
      RestStays(one, ctx, rest, id);
      ClaimedFirst(ImportAll(one, ctx, rest), ctx, vs, id);
      ImportAllKeepsLinks(one, ctx, rest, ctx.LinkTo(vs[0]));
      ClaimedStep(t, ctx, vs, id);
    }
  }

  lemma ClaimedFirst(t: Tables, ctx: Context, vs: seq<PayloadVariant>, id: VariantId)
    requires vs != []
    ensures Claimed(t, ctx, vs, id) <==> Linked(t, ctx.LinkTo(vs[0])) == Some(id) || Claimed(t, ctx, vs[1..], id)
  {
    var rest := vs[1..];
    if i :| 0 <= i < |rest| && Linked(t, ctx.LinkTo(rest[i])) == Some(id) {
      assert vs[i + 1] == rest[i];
    }
    if i :| 0 <= i < |vs| && Linked(t, ctx.LinkTo(vs[i])) == Some(id) {
      assert i > 0 ==> rest[i - 1] == vs[i];
    }
  }

  lemma ClaimedStep(t: Tables, ctx: Context, vs: seq<PayloadVariant>, id: VariantId)
    requires Inv(t) && vs != []
    ensures
      var one := ImportOne(t, ctx, vs[0]);
      var written := one.links[ctx.LinkTo(vs[0])].variant;
      && (id in t.variants && !Claimed(t, ctx, vs, id) <==>
            written != Some(id) && id in one.variants && !Claimed(one, ctx, vs[1..], id))
      && (written != Some(id) && id in t.variants ==> one.variants[id] == t.variants[id])
  {
    var one, rest := ImportOne(t, ctx, vs[0]), vs[1..];
    var written := one.links[ctx.LinkTo(vs[0])].variant;
    ClaimedFirst(t, ctx, vs, id);
    if written != Some(id) {
      forall i | 0 <= i < |rest|
        ensures Linked(one, ctx.LinkTo(rest[i])) == Some(id) <==> Linked(t, ctx.LinkTo(rest[i])) == Some(id)
      {
        assert rest[i].externalId == vs[0].externalId ==> ctx.LinkTo(rest[i]) == ctx.LinkTo(vs[0]);
      }
      assert Claimed(one, ctx, rest, id) <==> Claimed(t, ctx, rest, id);
    }
  }

  lemma {:induction false} LastOf(vs: seq<PayloadVariant>, i: nat) returns (k: nat)
    requires i < |vs|
    ensures i <= k && IsLast(vs, k) && vs[k].externalId == vs[i].externalId
    decreases |vs| - i
  {
    if j :| i < j < |vs| && vs[j].externalId == vs[i].externalId {
      k := LastOf(vs, j);
    } else {
      k := i;
    }
  }

  // ----- The product's live variants after the loop ----------------------------------------------------

  /** Variant `id` carries what payload variant `i`, the last of its id, put there, and is live. */
  ghost predicate WrittenAs(t: Tables, u: Tables, ctx: Context, vs: seq<PayloadVariant>, i: nat, id: VariantId) {
    && IsLast(vs, i) && !IsDead(t, ctx, vs[i]) && Linked(u, ctx.LinkTo(vs[i])) == Some(id)
    && id in u.variants
    && u.variants[id] == Variant(ctx.product, ctx.Selling(vs[i]), Some(ctx.Cost(vs[i])), Some(ctx.Selling(vs[i])), false)
  }

  /** Each live variant of the product is one that was written, or an unlisted one untouched. */
  lemma LiveAfter(t: Tables, ctx: Context, vs: seq<PayloadVariant>, id: VariantId) returns (i: nat)
    requires Inv(t) && Fits(t, ctx) && id in LiveOn(ImportAll(t, ctx, vs), ctx.product)
    ensures
      var u := ImportAll(t, ctx, vs);
      WrittenAs(t, u, ctx, vs, i, id) || (id in Unlisted(t, ctx, vs) && u.variants[id] == t.variants[id])
  {
    var u := ImportAll(t, ctx, vs);
    RestStays(t, ctx, vs, id);
    i := 0;
    if Claimed(u, ctx, vs, id) {
      var j :| 0 <= j < |vs| && Linked(u, ctx.LinkTo(vs[j])) == Some(id);
      i := LastOf(vs, j);
      ImportAllPlaces(t, ctx, vs);
      DeadStays(t, ctx, vs, vs[i]);
      assert Settled(u, ctx, vs[i]);
    }
  }

  lemma UnlistedAfter(t: Tables, ctx: Context, vs: seq<PayloadVariant>, id: VariantId)
    requires Inv(t) && Fits(t, ctx) && id in Unlisted(t, ctx, vs)
    ensures id in LiveOn(ImportAll(t, ctx, vs), ctx.product) && ImportAll(t, ctx, vs).variants[id] == t.variants[id]
  {
    RestStays(t, ctx, vs, id);
  }

  lemma WrittenAfter(t: Tables, ctx: Context, vs: seq<PayloadVariant>, i: nat) returns (id: VariantId)
    requires Inv(t) && Fits(t, ctx) && IsLast(vs, i) && !IsDead(t, ctx, vs[i])
    ensures id in LiveOn(ImportAll(t, ctx, vs), ctx.product) && WrittenAs(t, ImportAll(t, ctx, vs), ctx, vs, i, id)
  {
    var u := ImportAll(t, ctx, vs);
    ImportAllPlaces(t, ctx, vs);
    DeadStays(t, ctx, vs, vs[i]);
    assert Settled(u, ctx, vs[i]);
    id := u.links[ctx.LinkTo(vs[i])].variant.value;
  }

  /** The prices recalculation finds after the loop are told from the tables before it. */
  lemma PricesAfter(t: Tables, ctx: Context, vs: seq<PayloadVariant>)
    requires Inv(t) && Fits(t, ctx)
    ensures Prices(ImportAll(t, ctx, vs), ctx.product) == LivePrices(t, ctx, vs)
  {
    var u := ImportAll(t, ctx, vs);
    ImportAllProducts(t, ctx, vs);
    assert RuleFor(u, ctx.product) == ctx.rule;
    forall x | x in Prices(u, ctx.product) ensures x in LivePrices(t, ctx, vs) {
      var id :| id in LiveOn(u, ctx.product) && NewPrice(u, u.variants[id]) == x;
      var i := LiveAfter(t, ctx, vs, id);
      if WrittenAs(t, u, ctx, vs, i, id) {
        assert x == ctx.Selling(vs[i]);
      } else {
        assert x == NewPrice(t, t.variants[id]);
      }
    }
    forall x | x in WrittenPrices(t, ctx, vs) ensures x in Prices(u, ctx.product) {
      var i :| 0 <= i < |vs| && IsLast(vs, i) && !IsDead(t, ctx, vs[i]) && ctx.Selling(vs[i]) == x;
      var id := WrittenAfter(t, ctx, vs, i);
      assert NewPrice(u, u.variants[id]) == x;
    }
    forall x | x in KeptPrices(t, ctx, vs) ensures x in Prices(u, ctx.product) {
      var id :| id in Unlisted(t, ctx, vs) && NewPrice(t, t.variants[id]) == x;
      UnlistedAfter(t, ctx, vs, id);
      assert NewPrice(u, u.variants[id]) == x;
    }
  }

  /** Recalculation rewrites a variant exactly if an unlisted one is out of date. */
  lemma VariantsAfter(t: Tables, ctx: Context, vs: seq<PayloadVariant>)
    requires Inv(t) && Fits(t, ctx)
    ensures
      var u := ImportAll(t, ctx, vs);
      PartRepriced(u, LiveOn(u, ctx.product)) == u.variants <==> UpToDate(t, ctx, vs)
  {
    var u := ImportAll(t, ctx, vs);
    ImportAllProducts(t, ctx, vs);
    assert RuleFor(u, ctx.product) == ctx.rule;
    var repriced := PartRepriced(u, LiveOn(u, ctx.product));
    forall id | id in LiveOn(u, ctx.product)
      ensures repriced[id] == u.variants[id] ||
              (id in Unlisted(t, ctx, vs) && RepricedVariant(t, t.variants[id]) != t.variants[id])
    {
      var i := LiveAfter(t, ctx, vs, id);
      RepricedSame(t, u, ctx, id);
    }
    forall id | id in Unlisted(t, ctx, vs)
      ensures id in u.variants && (repriced[id] == u.variants[id] <==> RepricedVariant(t, t.variants[id]) == t.variants[id])
    {
      UnlistedAfter(t, ctx, vs, id);
    }
    assert UpToDate(t, ctx, vs) ==> repriced == u.variants;
  }

  lemma RepricedSame(t: Tables, u: Tables, ctx: Context, id: VariantId)
    requires RuleFor(u, ctx.product) == ctx.rule == RuleFor(t, ctx.product)
    ensures id in u.variants && id in t.variants && u.variants[id] == t.variants[id] &&
            u.variants[id].product == ctx.product ==>
              RepricedVariant(u, u.variants[id]) == RepricedVariant(t, t.variants[id])
  {}

  // ----- The product upsert in front of the loop ---------------------------------------------------------

  /** The upsert changes nothing these conditions read. */
  lemma UpsertReadsSame(t: Tables, payload: Payload, stocks: map<string, int>)
    requires Inv(t)
    ensures
      var ctx, mid, vs := ContextOf(t, payload, stocks), Upserted(t, payload), payload.variants;
      && LivePrices(mid, ctx, vs) == LivePrices(t, ctx, vs) && KeptPrices(mid, ctx, vs) == KeptPrices(t, ctx, vs)
      && (UpToDate(mid, ctx, vs) <==> UpToDate(t, ctx, vs))
  {
    var ctx, mid, vs := ContextOf(t, payload, stocks), Upserted(t, payload), payload.variants;
    assert forall i | 0 <= i < |vs| :: IsDead(mid, ctx, vs[i]) == IsDead(t, ctx, vs[i]);
    assert WrittenPrices(mid, ctx, vs) == WrittenPrices(t, ctx, vs);
    assert forall id :: Claimed(mid, ctx, vs, id) == Claimed(t, ctx, vs, id);
    assert Unlisted(mid, ctx, vs) == Unlisted(t, ctx, vs);
    forall id | id in Unlisted(t, ctx, vs)
      ensures NewPrice(mid, mid.variants[id]) == NewPrice(t, t.variants[id])
      ensures RepricedVariant(mid, mid.variants[id]) == RepricedVariant(t, t.variants[id])
    {
      assert t.variants[id].product in t.products;
    }
    assert KeptPrices(mid, ctx, vs) == KeptPrices(t, ctx, vs);
  }

  /** What an import leaves for recalculation to read. */
  lemma ImportedReads(t: Tables, payload: Payload, stocks: map<string, int>, now: int)
    requires Inv(t)
    ensures
      var u, ctx, vs := Imported(t, payload, stocks, now), ContextOf(t, payload, stocks), payload.variants;
      && ctx.product in u.products && RuleFor(u, ctx.product) == ctx.rule
      && Prices(u, ctx.product) == LivePrices(t, ctx, vs)
      && (PartRepriced(u, LiveOn(u, ctx.product)) == u.variants <==> UpToDate(t, ctx, vs))
  {
    var u, ctx, vs := Imported(t, payload, stocks, now), ContextOf(t, payload, stocks), payload.variants;
    var mid := Upserted(t, payload);
    var done := ImportAll(mid, ctx, vs);
    UpsertKeepsInv(t, payload, stocks);
    UpsertReadsSame(t, payload, stocks);
    ImportedFrame(t, payload, stocks, now);
    ImportAllProducts(mid, ctx, vs);
    PricesAfter(mid, ctx, vs);
    VariantsAfter(mid, ctx, vs);
    DisplayReadsSame(done, u, ctx.product);
  }

  /** Prices on display are not read. */
  lemma DisplayReadsSame(t: Tables, u: Tables, p: ProductId)
    requires u == t.(products := u.products) && p in t.products && p in u.products
    requires u.products == t.products[p := u.products[p]] && u.products[p].rule == t.products[p].rule
    ensures LiveOn(u, p) == LiveOn(t, p) && RuleFor(u, p) == RuleFor(t, p) && Prices(u, p) == Prices(t, p)
    ensures PartRepriced(u, LiveOn(u, p)) == PartRepriced(t, LiveOn(t, p))
  {
    assert LiveOn(u, p) == LiveOn(t, p);
    assert forall id | id in LiveOn(t, p) :: NewPrice(u, u.variants[id]) == NewPrice(t, t.variants[id]);
  }

  // ----- When they agree ---------------------------------------------------------------------------------

  function ImportPrice(ctx: Context, vs: seq<PayloadVariant>): (price: real)
    requires vs != []
    ensures forall i | 0 <= i < |vs| :: price <= ctx.Selling(vs[i])
  {
    assert forall i | 0 <= i < |vs| :: SellingPrices(ctx, vs)[i] in SellingPrices(ctx, vs);
    MinOf(SellingPrices(ctx, vs))
  }

  /** What the import leaves as the product's row. */
  lemma ImportShows(t: Tables, payload: Payload, stocks: map<string, int>, now: int)
    requires Inv(t) && payload.variants != []
    ensures
      var u, ctx := Imported(t, payload, stocks, now), ContextOf(t, payload, stocks);
      var regularPrice := MinOf(SellingPrices(ctx, payload.variants));
      && ctx.product in u.products && RuleFor(u, ctx.product) == ctx.rule
      && u.products[ctx.product] == Displaying(u.products[ctx.product], ctx.rule, regularPrice, now)
  {
    ImportedFrame(t, payload, stocks, now);
    UpsertKeepsInv(t, payload, stocks);
  }

  /** The cheapest payload price is some live variant's, and no unlisted variant is cheaper. */
  predicate CheapestStands(t: Tables, ctx: Context, vs: seq<PayloadVariant>)
    requires vs != []
  {
    ImportPrice(ctx, vs) in LivePrices(t, ctx, vs) && forall x | x in KeptPrices(t, ctx, vs) :: ImportPrice(ctx, vs) <= x
  }

  lemma LowestIff(t: Tables, ctx: Context, vs: seq<PayloadVariant>)
    requires vs != []
    ensures IsLowest(ImportPrice(ctx, vs), LivePrices(t, ctx, vs)) <==> CheapestStands(t, ctx, vs)
  {
    forall x | x in WrittenPrices(t, ctx, vs) ensures ImportPrice(ctx, vs) <= x {}
  }

  /** Recalculation leaves a product with variants as it is exactly if variants and display both stand. */
  lemma RepricedStands(u: Tables, p: ProductId, shown: real, now: int)
    requires p in u.products && u.products[p] == Displaying(u.products[p], RuleFor(u, p), shown, now)
    ensures Repriced(u, {p}, now) == u <==>
      LiveOn(u, p) == {} || (PartRepriced(u, LiveOn(u, p)) == u.variants && IsLowest(shown, Prices(u, p)))
  {
    RepricedOne(u, p, now);
    if LiveOn(u, p) != {} {
      PricesOfLive(u, p);
      var row := RepricedProduct(u, p, now);
      assert row.price == Some(Lowest(Prices(u, p)));
      assert IsLowest(shown, Prices(u, p)) <==> shown == Lowest(Prices(u, p));
      assert u.products[p := row][p] == row;
      assert row == u.products[p] ==> u.products[p := row] == u.products;
    }
  }

  lemma NoneLive(u: Tables, p: ProductId)
    ensures LiveOn(u, p) == {} <==> Prices(u, p) == {}
  {
    if LiveOn(u, p) != {} { PricesOfLive(u, p); }
  }

  /**
   Recalculating right after an import changes nothing exactly when, of the tables before it, either
   all payload variants are dead and none is unlisted, or the unlisted ones have their rule's prices
   and the payload's cheapest price is the cheapest left live.
   */
  lemma RecalculationAgreesIff(t: Tables, payload: Payload, stocks: map<string, int>, now: int)
    requires Inv(t) && payload.variants != []
    ensures
      var u, ctx, vs := Imported(t, payload, stocks, now), ContextOf(t, payload, stocks), payload.variants;
      Repriced(u, {ctx.product}, now) == u <==>
        LivePrices(t, ctx, vs) == {} || (UpToDate(t, ctx, vs) && CheapestStands(t, ctx, vs))
  {
    var u, ctx, vs := Imported(t, payload, stocks, now), ContextOf(t, payload, stocks), payload.variants;
    ImportedReads(t, payload, stocks, now);
    ImportShows(t, payload, stocks, now);
    RepricedStands(u, ctx.product, ImportPrice(ctx, vs), now);
    NoneLive(u, ctx.product);
    LowestIff(t, ctx, vs);
  }

  /** No price is left live exactly when all payload variants are dead and none of the product's is unlisted. */
  lemma NothingLiveIff(t: Tables, ctx: Context, vs: seq<PayloadVariant>)
    ensures LivePrices(t, ctx, vs) == {} <==>
      Unlisted(t, ctx, vs) == {} && forall i | 0 <= i < |vs| :: IsDead(t, ctx, vs[i])
  {
    forall i | 0 <= i < |vs| ensures IsDead(t, ctx, vs[i]) || LivePrices(t, ctx, vs) != {} {
      var k := LastOf(vs, i);
      assert ctx.LinkTo(vs[k]) == ctx.LinkTo(vs[i]);
      assert !IsDead(t, ctx, vs[k]) ==> ctx.Selling(vs[k]) in WrittenPrices(t, ctx, vs);
    }
    forall id | id in Unlisted(t, ctx, vs) ensures LivePrices(t, ctx, vs) != {} {
      assert NewPrice(t, t.variants[id]) in KeptPrices(t, ctx, vs);
    }
  }

  /** On a live product, or a new one, the unlisted variants are up to date if they are in line. */
  lemma LiveProductIsUpToDate(t: Tables, payload: Payload, stocks: map<string, int>)
    requires Inv(t) && forall id | id in Unlisted(t, ContextOf(t, payload, stocks), payload.variants) :: Priced(t, id)
    ensures
      var ctx := ContextOf(t, payload, stocks);
      (ctx.product in t.products ==> !t.products[ctx.product].deleted) ==> UpToDate(t, ctx, payload.variants)
  {
    var ctx, vs := ContextOf(t, payload, stocks), payload.variants;
    forall id | id in Unlisted(t, ctx, vs) && (ctx.product in t.products ==> !t.products[ctx.product].deleted)
      ensures RepricedVariant(t, t.variants[id]) == t.variants[id]
    {
      assert t.variants[id].product in t.products;
    }
  }

  /**
   So import and recalculation agree on a live product when the payload's ids are distinct, list
   all its live variants, and none of theirs was soft-deleted.
   */
  lemma ImportAgreesWithRecalculation(t: Tables, payload: Payload, stocks: map<string, int>, now: int)
    requires Inv(t) && payload.variants != [] && Distinct(payload.variants)
    requires
      var ctx, vs := ContextOf(t, payload, stocks), payload.variants;
      && Unlisted(t, ctx, vs) == {} && (forall i | 0 <= i < |vs| :: !IsDead(t, ctx, vs[i]))
    ensures
      var u, ctx := Imported(t, payload, stocks, now), ContextOf(t, payload, stocks);
      Repriced(u, {ctx.product}, now) == u
  {
    var ctx, vs := ContextOf(t, payload, stocks), payload.variants;
    RecalculationAgreesIff(t, payload, stocks, now);
    var i :| 0 <= i < |vs| && SellingPrices(ctx, vs)[i] == ImportPrice(ctx, vs);
    assert IsLast(vs, i) && ctx.Selling(vs[i]) in WrittenPrices(t, ctx, vs);
  }

  /** What the product shows after the import, and after the recalculation that follows it. */
  lemma RecalculatedPrice(t: Tables, payload: Payload, stocks: map<string, int>, now: int)
    requires Inv(t) && payload.variants != []
    ensures
      var u, ctx, vs := Imported(t, payload, stocks, now), ContextOf(t, payload, stocks), payload.variants;
      var w, p := Repriced(u, {ctx.product}, now), ctx.product;
      && p in u.products && p in w.products && u.products[p].price == Some(ImportPrice(ctx, vs))
      && w.products[p].price.Some?
      && if LivePrices(t, ctx, vs) == {} then w.products[p] == u.products[p]
         else IsLowest(w.products[p].price.value, LivePrices(t, ctx, vs))
  {
    var u, ctx, vs := Imported(t, payload, stocks, now), ContextOf(t, payload, stocks), payload.variants;
    ImportedReads(t, payload, stocks, now);
    ImportShows(t, payload, stocks, now);
    NoneLive(u, ctx.product);
    RepricedOne(u, ctx.product, now);
  }

  /** Recalculation lowers the price exactly when an unlisted variant is cheaper than the whole payload. */
  lemma RecalculationLowersIff(t: Tables, payload: Payload, stocks: map<string, int>, now: int)
    requires Inv(t) && payload.variants != []
    ensures
      var u, ctx, vs := Imported(t, payload, stocks, now), ContextOf(t, payload, stocks), payload.variants;
      var p := ctx.product;
      var shown, after := u.products[p].price, Repriced(u, {p}, now).products[p].price;
      shown.Some? && after.Some? &&
      (after.value < shown.value <==> exists x :: x in KeptPrices(t, ctx, vs) && x < ImportPrice(ctx, vs))
  {
    RecalculatedPrice(t, payload, stocks, now);
    var ctx, vs := ContextOf(t, payload, stocks), payload.variants;
    forall x | x in WrittenPrices(t, ctx, vs) ensures ImportPrice(ctx, vs) <= x {}
  }

  /** It raises the price exactly when something is live and nothing live is as cheap as the payload's cheapest. */
  lemma RecalculationRaisesIff(t: Tables, payload: Payload, stocks: map<string, int>, now: int)
    requires Inv(t) && payload.variants != []
    ensures
      var u, ctx, vs := Imported(t, payload, stocks, now), ContextOf(t, payload, stocks), payload.variants;
      var p := ctx.product;
      var shown, after := u.products[p].price, Repriced(u, {p}, now).products[p].price;
      shown.Some? && after.Some? &&
      (shown.value < after.value <==>
         LivePrices(t, ctx, vs) != {} && forall x | x in LivePrices(t, ctx, vs) :: ImportPrice(ctx, vs) < x)
  {
    RecalculatedPrice(t, payload, stocks, now);
  }

  // ----- Prices an admin has set by hand ---------------------------------------------------------------------

  /** Whatever it was before, a variant the payload lists has its rule's price after the import. */
  lemma ImportRestores(t: Tables, payload: Payload, stocks: map<string, int>, now: int, id: VariantId)
    requires Inv(t) && id in t.variants && Claimed(t, ContextOf(t, payload, stocks), payload.variants, id)
    ensures
      var u := Imported(t, payload, stocks, now);
      id in u.variants && Priced(u, id)
  {
    var ctx, mid, vs := ContextOf(t, payload, stocks), Upserted(t, payload), payload.variants;
    var done, u := ImportAll(mid, ctx, vs), Imported(t, payload, stocks, now);
    UpsertKeepsInv(t, payload, stocks);
    ImportedFrame(t, payload, stocks, now);
    ImportAllProducts(mid, ctx, vs);
    var j :| 0 <= j < |vs| && Linked(t, ctx.LinkTo(vs[j])) == Some(id);
    var i := LastOf(vs, j);
    ImportAllPlaces(mid, ctx, vs);
    assert Settled(done, ctx, vs[i]);
    assert ctx.LinkTo(vs[i]) == ctx.LinkTo(vs[j]);
    ImportAllKeepsLinks(mid, ctx, vs, ctx.LinkTo(vs[j]));
    assert RuleFor(u, ctx.product) == ctx.rule;
  }

  // ----- Payloads without variants -------------------------------------------------------------------------

  /**
   An import without variants shows 10.00 and keeps the sale price it finds. Recalculation leaves that
   exactly when the product has no live variant, or when 10.00 happens to be right.
   */
  lemma EmptyImportAgreesIff(t: Tables, payload: Payload, stocks: map<string, int>, now: int)
    requires Inv(t) && payload.variants == []
    ensures
      var u, ctx := Imported(t, payload, stocks, now), ContextOf(t, payload, stocks);
      var before := UpsertedProduct(t, payload).1;
      Repriced(u, {ctx.product}, now) == u <==>
        LiveOn(t, ctx.product) == {} ||
        (UpToDate(t, ctx, []) && IsLowest(10.0, KeptPrices(t, ctx, [])) && before.salePrice == SalePriceNow(ctx.rule, 10.0, now))
  {
    var u, ctx := Imported(t, payload, stocks, now), ContextOf(t, payload, stocks);
    var p := ctx.product;
    ImportedReads(t, payload, stocks, now);
    UpsertReadsSame(t, payload, stocks);
    RepricedOne(u, p, now);
    assert u == Upserted(t, payload) && u.products[p].price == Some(10.0);
    assert WrittenPrices(t, ctx, []) == {} && LiveOn(u, p) == LiveOn(t, p);
    if LiveOn(u, p) != {} {
      RowStands(u, p, 10.0, now);
    }
  }

  lemma RowStands(u: Tables, p: ProductId, shown: real, now: int)
    requires p in u.products && u.products[p].price == Some(shown) && LiveOn(u, p) != {}
    ensures u.products[p := RepricedProduct(u, p, now)] == u.products <==>
      IsLowest(shown, Prices(u, p)) && u.products[p].salePrice == SalePriceNow(RuleFor(u, p), shown, now)
  {
    PricesOfLive(u, p);
    var row := RepricedProduct(u, p, now);
    assert row == Displaying(u.products[p], RuleFor(u, p), Lowest(Prices(u, p)), now);
    assert IsLowest(shown, Prices(u, p)) <==> Lowest(Prices(u, p)) == shown;
    assert u.products[p := row][p] == row;
    assert row == u.products[p] ==> u.products[p := row] == u.products;
  }

  // ----- Payloads on which they disagree ------------------------------------------------------------------

  function TwoVariants(first: string, second: string): Payload {
    Payload("cj-dropshipping", "p", "s", [PayloadVariant(first, Some(1.0)), PayloadVariant(second, Some(2.0))])
  }

  lemma CheapestOfTwo(first: string, second: string, ctx: Context)
    requires ctx.rule == None
    ensures ImportPrice(ctx, TwoVariants(first, second).variants) == 1.0
  {
    var vs := TwoVariants(first, second).variants;
    var prices := SellingPrices(ctx, vs);
    assert prices[0] == 1.0 && prices[1] == 2.0 && prices[0] in prices;
  }

  /** Two linked variants of a product without a rule, the one costing 1 soft-deleted. */
  function DeadTables(): Tables {
    var key := SupplierKey("cj-dropshipping", "p");
    Tables(
      map[], map[0 := Product("s", None, Some(1.0), None, false)],
      map[1 := Variant(0, 1.0, Some(1.0), Some(1.0), true), 2 := Variant(0, 2.0, Some(2.0), Some(2.0), false)],
      map[key := 0],
      map[LinkKey(key, "a") := Link(Some(1), 1.0, 999), LinkKey(key, "b") := Link(Some(2), 2.0, 999)], 3)
  }

  lemma DeadTablesPriced()
    ensures AllPriced(DeadTables())
  {
    var t := DeadTables();
    forall v | v in t.variants ensures Priced(t, v) {
      assert RuleFor(t, 0) == None;
    }
  }

  lemma DeadTablesWired()
    ensures Wired(DeadTables()) && OneDefault(DeadTables()) && Unique(DeadTables()) && LinksInjective(DeadTables())
  {
    assert "a" != "b";
  }

  /** The payload lists the one live variant, at 2, and the dead one, at 1. */
  lemma DeadConditions(ctx: Context)
    requires ctx.product == 0 && ctx.rule == None && ctx.key == SupplierKey("cj-dropshipping", "p")
    ensures
      var t, vs := DeadTables(), TwoVariants("a", "b").variants;
      Unlisted(t, ctx, vs) == {} && LivePrices(t, ctx, vs) != {} && 1.0 !in LivePrices(t, ctx, vs)
  {
    var t, vs := DeadTables(), TwoVariants("a", "b").variants;
    assert "a" != "b";
    assert Linked(t, ctx.LinkTo(vs[0])) == Some(1) && Linked(t, ctx.LinkTo(vs[1])) == Some(2);
    assert LiveOn(t, 0) == {2} && Claimed(t, ctx, vs, 2);
    assert IsLast(vs, 1) && !IsDead(t, ctx, vs[1]) && ctx.Selling(vs[1]) == 2.0;
    assert 2.0 in WrittenPrices(t, ctx, vs) && 1.0 !in WrittenPrices(t, ctx, vs);
  }

  lemma DeadContext()
    ensures Inv(DeadTables()) && AllPriced(DeadTables())
    ensures
      var ctx := ContextOf(DeadTables(), TwoVariants("a", "b"), map[]);
      ctx.product == 0 && ctx.rule == None && ctx.key == SupplierKey("cj-dropshipping", "p")
  {
    DeadTablesPriced();
    DeadTablesWired();
    SlugFound(DeadTables(), 0, "s");
  }

  /** The import's price is no live variant's, although there are some. */
  lemma Disagrees(t: Tables, payload: Payload)
    requires Inv(t) && payload.variants != []
    requires
      var ctx, vs := ContextOf(t, payload, map[]), payload.variants;
      LivePrices(t, ctx, vs) != {} && ImportPrice(ctx, vs) !in LivePrices(t, ctx, vs)
    ensures
      var u, ctx := Imported(t, payload, map[], 0), ContextOf(t, payload, map[]);
      Repriced(u, {ctx.product}, 0) != u
  {
    RecalculationAgreesIff(t, payload, map[], 0);
  }

  /** Distinct ids that list every live variant are not enough: the import counts a soft-deleted one. */
  lemma DeletedVariantDisagrees() returns (t: Tables, payload: Payload)
    ensures Inv(t) && AllPriced(t) && Distinct(payload.variants)
    ensures
      var u, ctx := Imported(t, payload, map[], 0), ContextOf(t, payload, map[]);
      Unlisted(t, ctx, payload.variants) == {} && Repriced(u, {ctx.product}, 0) != u
  {
    t, payload := DeadTables(), TwoVariants("a", "b");
    DeadContext();
    DeadConditions(ContextOf(t, payload, map[]));
    CheapestOfTwo("a", "b", ContextOf(t, payload, map[]));
    Disagrees(t, payload);
    assert "a" != "b";
  }

  /** Of two payload variants with one id the import shows the cheaper price and stores the later one. */
  lemma DuplicateIdsDisagree()
    ensures
      var t, payload := Tables(map[], map[], map[], map[], map[], 0), TwoVariants("a", "a");
      var u, ctx := Imported(t, payload, map[], 0), ContextOf(t, payload, map[]);
      Inv(t) && Unlisted(t, ctx, payload.variants) == {} && Repriced(u, {ctx.product}, 0) != u
  {
    var t, payload := Tables(map[], map[], map[], map[], map[], 0), TwoVariants("a", "a");
    var vs, ctx := payload.variants, ContextOf(t, payload, map[]);
    assert ctx.rule == None;
    CheapestOfTwo("a", "a", ctx);
    assert vs[0].externalId == vs[1].externalId && !IsLast(vs, 0);
    assert IsLast(vs, 1) && !IsDead(t, ctx, vs[1]) && ctx.Selling(vs[1]) == 2.0;
    assert 2.0 in WrittenPrices(t, ctx, vs) && 1.0 !in WrittenPrices(t, ctx, vs);
    RecalculationAgreesIff(t, payload, map[], 0);
  }
}
