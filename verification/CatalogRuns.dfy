/** Whole histories of one tenant's catalog: rule changes, assignments, imports and soft deletes in any order. */
module CatalogRuns {
  import opened Options
  import opened Pricing
  import opened Catalog
  import opened PricingRules
  import opened ProductImport
  import opened ImportPrices

  /** `AddProduct` without a rule takes the default one; a variant added by hand has no cost. */
  datatype Op =
    | Create(data: NewRule)
    | Update(id: RuleId, changes: Changes, now: int)
    | Delete(id: RuleId)
    | Apply(id: RuleId, now: int)
    | Assign(product: ProductId, rule: Option<RuleId>, now: int)
    | Import(payload: Payload, stocks: map<string, int>, now: int)
    | AddProduct(slug: string, chosen: Option<Option<RuleId>>, shown: Option<real>)
    | AddVariant(product: ProductId, price: real)
    | EditPrice(product: ProductId, variant: VariantId, price: real)
    | RemoveProduct(product: ProductId)
    | RemoveVariant(product: ProductId, variant: VariantId)

  const EMPTY := Tables(map[], map[], map[], map[], map[], 0)

  predicate HasLive(t: Tables, p: ProductId, v: VariantId) {
    p in t.products && v in t.variants && t.variants[v].product == p && !t.variants[v].deleted
  }

  ghost function Added(t: Tables, slug: string, chosen: Option<Option<RuleId>>, shown: Option<real>): Tables {
    var rule := Or(chosen, DefaultRule(t));
    if BySlug(t, slug).Some? || (rule.Some? && rule.value !in t.rules) then t
    else t.(products := t.products[t.nextId := Product(slug, rule, shown, None, false)], nextId := t.nextId + 1)
  }

  function Edited(t: Tables, p: ProductId, v: VariantId, price: real): Tables {
    if HasLive(t, p, v) then t.(variants := t.variants[v := t.variants[v].(price := price)]) else t
  }

  function AddedVariant(t: Tables, p: ProductId, price: real): Tables {
    if p in t.products
    then t.(variants := t.variants[t.nextId := Variant(p, price, None, None, false)], nextId := t.nextId + 1) else t
  }

  function Removed(t: Tables, p: ProductId): Tables {
    if p in t.products then t.(products := t.products[p := t.products[p].(deleted := true)]) else t
  }

  function RemovedVariant(t: Tables, p: ProductId, v: VariantId): Tables {
    if HasLive(t, p, v) then t.(variants := t.variants[v := t.variants[v].(deleted := true)]) else t
  }

  /** A call that is refused leaves the tables as they were. */
  ghost function Step(t: Tables, op: Op): Tables {
    match op
    case Create(data) => if CreateOutcome(t, data).Ok? then Created(t, data) else t
    case Update(id, changes, now) => if UpdateOutcome(t, id, changes).Ok? then Updated(t, id, changes, now) else t
    case Delete(id) => if DeleteOutcome(t, id).Ok? then Deleted(t, id) else t
    case Apply(id, now) => if id in t.rules then Applied(t, id, now) else t
    case Assign(p, rule, now) => if AssignOutcome(t, p, rule).Ok? then Assigned(t, p, rule, now) else t
    case Import(payload, stocks, now) => Imported(t, payload, stocks, now)
    case AddProduct(slug, chosen, shown) => Added(t, slug, chosen, shown)
    case AddVariant(p, price) => AddedVariant(t, p, price)
    case EditPrice(p, v, price) => Edited(t, p, v, price)
    case RemoveProduct(p) => Removed(t, p)
    case RemoveVariant(p, v) => RemovedVariant(t, p, v)
  }

  ghost function Run(t: Tables, ops: seq<Op>): Tables
    decreases |ops|
  {
    if ops == [] then t else Run(Step(t, ops[0]), ops[1..])
  }

  // ----- The invariant over every history ------------------------------------------------------------

  /** The same rules for the variants that were there. */
  lemma SameRulesInLine(t: Tables, u: Tables, v: VariantId)
    requires InLine(t, v) && (v in u.variants && v in t.variants ==> RuleFor(u, t.variants[v].product) == RuleFor(t, t.variants[v].product))
    requires v in u.variants && v in t.variants ==>
      && u.variants[v] == t.variants[v].(deleted := u.variants[v].deleted) && (t.variants[v].deleted ==> u.variants[v].deleted)
      && (t.variants[v].product in u.products && !u.products[t.variants[v].product].deleted ==>
            t.variants[v].product in t.products && !t.products[t.variants[v].product].deleted)
    requires v in u.variants && v !in t.variants ==> u.variants[v].baseCost == None
    ensures InLine(u, v)
  {}

  lemma AddedKeepsInv(t: Tables, slug: string, chosen: Option<Option<RuleId>>, shown: Option<real>)
    requires Inv(t)
    ensures Inv(Added(t, slug, chosen, shown))
  {}

  lemma AddedVariantKeepsInv(t: Tables, p: ProductId, price: real)
    requires Inv(t)
    ensures Inv(AddedVariant(t, p, price))
  {}

  lemma AddedVariantKeepsPrice(t: Tables, p: ProductId, price: real, v: VariantId)
    requires Inv(t) && InLine(t, v)
    ensures InLine(AddedVariant(t, p, price), v)
  {
    SameRulesInLine(t, AddedVariant(t, p, price), v);
  }

  lemma ShapesKept(t: Tables, p: ProductId, v: VariantId, price: real)
    ensures SameShape(t, Removed(t, p)) && SameShape(t, RemovedVariant(t, p, v)) && SameShape(t, Edited(t, p, v, price))
  {
    if v in t.variants { SameVariantShape(t, v, price); }
  }

  lemma SameVariantShape(t: Tables, v: VariantId, price: real)
    requires v in t.variants
    ensures SameShape(t, t.(variants := t.variants[v := t.variants[v].(price := price)]))
    ensures SameShape(t, t.(variants := t.variants[v := t.variants[v].(deleted := true)]))
  {}

  lemma RemovedKeepsPrice(t: Tables, p: ProductId, v: VariantId)
    requires InLine(t, v)
    ensures InLine(Removed(t, p), v)
  {
    SameRulesInLine(t, Removed(t, p), v);
  }

  lemma RemovedVariantKeepsPrice(t: Tables, p: ProductId, w: VariantId, v: VariantId)
    requires InLine(t, v)
    ensures InLine(RemovedVariant(t, p, w), v)
  {
    SameRulesInLine(t, RemovedVariant(t, p, w), v);
  }

  lemma EditedKeepsPrice(t: Tables, p: ProductId, w: VariantId, price: real, v: VariantId)
    requires InLine(t, v) && v != w
    ensures InLine(Edited(t, p, w, price), v)
  {
    SameRulesInLine(t, Edited(t, p, w, price), v);
  }

  lemma StepKeepsInv(t: Tables, op: Op)
    requires Inv(t)
    ensures Inv(Step(t, op)) && (HasDefault(t) ==> HasDefault(Step(t, op)))
  {
    match op
    case Create(data) => if CreateOutcome(t, data).Ok? { CreateKeepsInv(t, data); }
    case Update(id, changes, now) => if UpdateOutcome(t, id, changes).Ok? { UpdateKeepsInv(t, id, changes, now); }
    case Delete(id) => if DeleteOutcome(t, id).Ok? { DeleteKeepsInv(t, id); }
    case Apply(id, now) =>
      if id in t.rules {
        ApplyKeepsInv(t, id, now);
        ApplyMakesDefault(t, id, now);
      }
    case Assign(p, rule, now) => if AssignOutcome(t, p, rule).Ok? { AssignKeepsInv(t, p, rule, now); }
    case Import(payload, stocks, now) => ImportKeepsInv(t, payload, stocks, now);
    case AddProduct(slug, chosen, shown) => AddedKeepsInv(t, slug, chosen, shown);
    case AddVariant(p, price) => AddedVariantKeepsInv(t, p, price);
    case EditPrice(p, v, price) => ShapeKeepsInv(t, p, v, price);
    case RemoveProduct(p) => ShapeKeepsInv(t, p, 0, 0.0);
    case RemoveVariant(p, v) => ShapeKeepsInv(t, p, v, 0.0);
  }

  lemma ShapeKeepsInv(t: Tables, p: ProductId, v: VariantId, price: real)
    requires Inv(t)
    ensures Inv(Removed(t, p)) && Inv(RemovedVariant(t, p, v)) && Inv(Edited(t, p, v, price))
  {
    ShapesKept(t, p, v, price);
    SameShapeKeepsInv(t, Removed(t, p));
    SameShapeKeepsInv(t, RemovedVariant(t, p, v));
    SameShapeKeepsInv(t, Edited(t, p, v, price));
  }

  /** Nothing but an edit of its own puts a variant out of line. */
  lemma StepKeepsPrice(t: Tables, op: Op, v: VariantId)
    requires Inv(t) && InLine(t, v) && !(op.EditPrice? && op.variant == v)
    ensures InLine(Step(t, op), v)
  {
    match op
    case Create(data) => if CreateOutcome(t, data).Ok? { CreateKeepsInv(t, data); }
    case Update(id, changes, now) => if UpdateOutcome(t, id, changes).Ok? { UpdateKeepsInv(t, id, changes, now); }
    case Delete(id) => if DeleteOutcome(t, id).Ok? { DeleteKeepsInv(t, id); }
    case Apply(id, now) => if id in t.rules { ApplyKeepsInv(t, id, now); }
    case Assign(p, rule, now) => if AssignOutcome(t, p, rule).Ok? { AssignKeepsInv(t, p, rule, now); }
    case Import(payload, stocks, now) => ImportKeepsInv(t, payload, stocks, now);
    case AddProduct(slug, chosen, shown) =>
    case AddVariant(p, price) => AddedVariantKeepsPrice(t, p, price, v);
    case EditPrice(p, w, price) => EditedKeepsPrice(t, p, w, price, v);
    case RemoveProduct(p) => RemovedKeepsPrice(t, p, v);
    case RemoveVariant(p, w) => RemovedVariantKeepsPrice(t, p, w, v);
  }

  /** In every history references hold, names and slugs are unique, there is one default, and links are injective. */
  lemma {:induction false} RunKeepsInv(t: Tables, ops: seq<Op>)
    requires Inv(t)
    ensures Inv(Run(t, ops))
    decreases |ops|
  {
    if ops != [] {
      StepKeepsInv(t, ops[0]);
      RunKeepsInv(Step(t, ops[0]), ops[1..]);
    }
  }

  // ----- Prices over every history ----------------------------------------------------------------------

  /** The variant has its price from a rule: it is live, has a cost, and its product is live. */
  predicate IsRuled(t: Tables, v: VariantId) {
    v in t.variants && !t.variants[v].deleted && t.variants[v].baseCost.Some? &&
    t.variants[v].product in t.products && !t.products[t.variants[v].product].deleted
  }

  /** An accepted edit that gives such a variant another price. */
  predicate Strays(t: Tables, op: Op) {
    op.EditPrice? && HasLive(t, op.product, op.variant) && IsRuled(t, op.variant) && op.price != t.variants[op.variant].price
  }

  lemma StraysIff(t: Tables, op: Op)
    requires Inv(t) && AllPriced(t)
    ensures AllPriced(Step(t, op)) <==> !Strays(t, op)
  {
    var u := Step(t, op);
    forall v | v in u.variants && !(op.EditPrice? && op.variant == v) ensures Priced(u, v) {
      assert InLine(t, v);
      StepKeepsPrice(t, op, v);
    }
    if op.EditPrice? { EditedPrice(t, op.product, op.variant, op.price); }
  }

  lemma EditedPrice(t: Tables, p: ProductId, v: VariantId, price: real)
    requires Inv(t) && AllPriced(t)
    ensures InLine(Edited(t, p, v, price), v) <==> !Strays(t, EditPrice(p, v, price))
  {
    var u := Edited(t, p, v, price);
    assert v in t.variants ==> Priced(t, v) && RuleFor(u, t.variants[v].product) == RuleFor(t, t.variants[v].product);
  }

  /** No accepted edit of the history strays. */
  ghost predicate NoneStrays(t: Tables, ops: seq<Op>)
    decreases |ops|
  {
    ops == [] || (!Strays(t, ops[0]) && NoneStrays(Step(t, ops[0]), ops[1..]))
  }

  ghost predicate AlwaysPriced(t: Tables, ops: seq<Op>) {
    forall k | 0 <= k <= |ops| :: AllPriced(Run(t, ops[..k]))
  }

  lemma {:induction false} AlwaysCons(t: Tables, ops: seq<Op>)
    requires ops != []
    ensures AlwaysPriced(t, ops) <==> AllPriced(t) && AlwaysPriced(Step(t, ops[0]), ops[1..])
  {
    var u, rest := Step(t, ops[0]), ops[1..];
    forall k | 0 <= k < |ops| ensures Run(t, ops[..k + 1]) == Run(u, rest[..k]) {
      assert ops[..k + 1][1..] == rest[..k];
    }
    assert ops[..0] == [] && Run(t, ops[..0]) == t;
    if AllPriced(t) && AlwaysPriced(u, rest) {
      forall k | 0 <= k <= |ops| ensures AllPriced(Run(t, ops[..k])) {
        if k > 0 { assert Run(t, ops[..k - 1 + 1]) == Run(u, rest[..k - 1]); }
      }
    }
    if AlwaysPriced(t, ops) {
      forall k | 0 <= k <= |rest| ensures AllPriced(Run(u, rest[..k])) {
        assert Run(t, ops[..k + 1]) == Run(u, rest[..k]);
      }
    }
  }

  /**
   All along a history every live variant with a cost, on a live product, has its rule's price exactly
   when no accepted edit gives such a variant another one.
   */
  lemma {:induction false} AlwaysPricedIff(t: Tables, ops: seq<Op>)
    requires Inv(t) && AllPriced(t)
    ensures AlwaysPriced(t, ops) <==> NoneStrays(t, ops)
    decreases |ops|
  {
    if ops != [] {
      var u := Step(t, ops[0]);
      StepKeepsInv(t, ops[0]);
      StraysIff(t, ops[0]);
      AlwaysCons(t, ops);
      if AllPriced(u) {
        AlwaysPricedIff(u, ops[1..]);
      } else {
        assert Run(u, ops[1..][..0]) == u;
      }
    } else {
      assert forall k | 0 <= k <= |ops| :: Run(t, ops[..k]) == t;
    }
  }

  /** So from the first row on, what each such variant costs a customer is told by its cost and rule. */
  lemma PricedFromTheStart(ops: seq<Op>, v: VariantId)
    requires NoneStrays(EMPTY, ops)
    ensures
      var t := Run(EMPTY, ops);
      IsRuled(t, v) ==>
        && t.variants[v].price ==
             CalculateVariantPrice(t.variants[v].baseCost.value, RuleFor(t, t.variants[v].product)).calculatedPrice
        && t.variants[v].calculatedPrice == Some(t.variants[v].price)
        && forall rule | IsRuleOf(t, t.variants[v].product, rule) ::
             AsPriced(t.variants[v].baseCost.value, rule, t.variants[v].price)
  {
    AlwaysPricedIff(EMPTY, ops);
    assert ops[..|ops|] == ops;
    var t := Run(EMPTY, ops);
    if IsRuled(t, v) {
      assert Priced(t, v);
      PriceMeaning(t.variants[v].baseCost.value, RuleFor(t, t.variants[v].product));
    }
  }

  /** A price out of line stays a matter of its own variant: in every history all others keep theirs. */
  lemma {:induction false} InLineForGood(t: Tables, ops: seq<Op>, v: VariantId)
    requires Inv(t) && InLine(t, v) && forall i | 0 <= i < |ops| :: !(ops[i].EditPrice? && ops[i].variant == v)
    ensures InLine(Run(t, ops), v)
    decreases |ops|
  {
    if ops != [] {
      StepKeepsInv(t, ops[0]);
      StepKeepsPrice(t, ops[0], v);
      InLineForGood(Step(t, ops[0]), ops[1..], v);
    }
  }

  /** The next recalculation of a variant's product, by a rule change, an assignment or a sweep, or its next import. */
  ghost predicate Reaches(t: Tables, op: Op, v: VariantId)
    requires v in t.variants
  {
    var p := t.variants[v].product;
    match op
    case Update(id, changes, _) => UpdateOutcome(t, id, changes).Ok? && changes.MovesPrices() && p in UsingRule(t, id)
    case Apply(id, now) => id in t.rules && p in UsingRule(Applied(t, id, now), id)
    case Assign(q, rule, _) => q == p && AssignOutcome(t, p, rule).Ok? && rule != t.products[p].rule
    case Import(payload, stocks, _) => Claimed(t, ContextOf(t, payload, stocks), payload.variants, v)
    case _ => false
  }

  /** It brings the variant back in line, whatever price it was given. */
  lemma ReachedIsInLine(t: Tables, op: Op, v: VariantId)
    requires Inv(t) && v in t.variants && Reaches(t, op, v)
    ensures v in Step(t, op).variants && Priced(Step(t, op), v)
  {
    match op
    case Update(id, changes, now) =>
      var u := t.(rules := t.rules[id := Changed(t.rules[id], changes)]);
      ChangedKeepsInv(t, id, changes);
      assert UsingRule(u, id) == UsingRule(t, id);
      RepricedPrices(u, UsingRule(u, id), now, v);
    case Apply(id, now) =>
      var u := Defaulted(t, id, Eligible(t, PreviousDefault(DefaultRule(t), id)));
      DefaultedKeepsInv(t, id, Eligible(t, PreviousDefault(DefaultRule(t), id)));
      RepricedPrices(u, UsingRule(u, id), now, v);
    case Assign(p, rule, now) =>
      RepricedPrices(t.(products := t.products[p := t.products[p].(rule := rule)]), {p}, now, v);
    case Import(payload, stocks, now) => ImportRestores(t, payload, stocks, now, v);
    case _ => assert false;
  }

  /** A variant of a product without a rule, costing 2, set to 5 by hand. */
  lemma HandSetPrice()
    ensures
      var t, op := DeadTables(), EditPrice(0, 2, 5.0);
      Inv(t) && AllPriced(t) && Strays(t, op) && !Priced(Step(t, op), 2)
  {
    var t, op := DeadTables(), EditPrice(0, 2, 5.0);
    DeadContext();
    StraysIff(t, op);
    EditedPrice(t, 0, 2, 5.0);
  }

  /** Once a tenant has a default rule, it has exactly one ever after. */
  lemma {:induction false} DefaultForGood(t: Tables, ops: seq<Op>)
    requires Inv(t) && HasDefault(t)
    ensures HasDefault(Run(t, ops)) && OneDefault(Run(t, ops))
    decreases |ops|
  {
    if ops != [] {
      StepKeepsInv(t, ops[0]);
      DefaultForGood(Step(t, ops[0]), ops[1..]);
    }
  }

  lemma StepKeepsLinks(t: Tables, op: Op)
    requires !op.Import?
    ensures Step(t, op).links == t.links
  {}

  lemma ImportKeepsLink(t: Tables, payload: Payload, stocks: map<string, int>, now: int, k: LinkKey)
    requires Inv(t) && k in t.links && t.links[k].variant.Some?
    ensures k in Imported(t, payload, stocks, now).links
    ensures Imported(t, payload, stocks, now).links[k].variant == t.links[k].variant
  {
    ImportedFrame(t, payload, stocks, now);
    ImportAllKeepsLinks(Upserted(t, payload), ContextOf(t, payload, stocks), payload.variants, k);
  }

  /** A supplier variant keeps its catalog variant for good, and shares it with no other. */
  lemma {:induction false} LinksForGood(t: Tables, ops: seq<Op>, k: LinkKey)
    requires Inv(t) && k in t.links && t.links[k].variant.Some?
    ensures k in Run(t, ops).links && Run(t, ops).links[k].variant == t.links[k].variant
    ensures LinksInjective(Run(t, ops))
    decreases |ops|
  {
    if ops != [] {
      var op, u := ops[0], Step(t, ops[0]);
      StepKeepsInv(t, op);
      assert k in u.links && u.links[k].variant == t.links[k].variant by {
        if op.Import? {
          ImportKeepsLink(t, op.payload, op.stocks, op.now, k);
        } else {
          StepKeepsLinks(t, op);
        }
      }
      LinksForGood(u, ops[1..], k);
    }
  }

  // ----- What an admin does by hand, told from the rows ---------------------------------------------------

  /** A slug that is taken or a rule that is not there: the product is refused. */
  ghost predicate ProductRefused(t: Tables, slug: string, chosen: Option<Option<RuleId>>) {
    || (exists q :: q in t.products && t.products[q].slug == slug)
    || (chosen.Some? && chosen.value.Some? && chosen.value.value !in t.rules)
  }

  lemma RefusedProduct(t: Tables, slug: string, chosen: Option<Option<RuleId>>, shown: Option<real>)
    requires ProductRefused(t, slug, chosen)
    ensures Step(t, AddProduct(slug, chosen, shown)) == t
  {
    assert BySlug(t, slug).None? ==> forall q | q in t.products :: t.products[q].slug != slug;
  }

  /** A product added by hand is on the rule chosen for it, or on the default. */
  lemma AddProductMeaning(t: Tables, slug: string, chosen: Option<Option<RuleId>>, shown: Option<real>)
    requires Inv(t) && !ProductRefused(t, slug, chosen)
    ensures
      var u := Step(t, AddProduct(slug, chosen, shown));
      && t.nextId !in t.products && u == t.(products := u.products, nextId := u.nextId)
      && u.products.Keys == t.products.Keys + {t.nextId} && u.products == t.products[t.nextId := u.products[t.nextId]]
      && var row := u.products[t.nextId];
         && row.slug == slug && row.price == shown && row.salePrice == None && !row.deleted
         && (chosen.Some? ==> row.rule == chosen.value)
         && (chosen.None? && row.rule.Some? ==> row.rule.value in t.rules && t.rules[row.rule.value].isDefault)
         && (chosen.None? && row.rule.None? ==> forall r | r in t.rules :: !t.rules[r].isDefault)
  {
    assert DefaultRule(t).None? <==> forall r | r in t.rules :: !t.rules[r].isDefault;
  }

  /** A variant added by hand has the price given and no cost. */
  lemma AddVariantMeaning(t: Tables, p: ProductId, price: real)
    requires Inv(t)
    ensures
      var u := Step(t, AddVariant(p, price));
      if p !in t.products then u == t
      else
        && t.nextId !in t.variants && u == t.(variants := u.variants, nextId := u.nextId)
        && u.variants == t.variants[t.nextId := Variant(p, price, None, None, false)]
  {}

  /** Deleting a product or a variant marks its row and changes no other; editing a price changes that alone. */
  lemma HandEditMeaning(t: Tables, p: ProductId, v: VariantId, price: real)
    ensures
      var there := p in t.products && v in t.variants && t.variants[v].product == p && !t.variants[v].deleted;
      && Step(t, RemoveProduct(p)) ==
           (if p in t.products then t.(products := t.products[p := t.products[p].(deleted := true)]) else t)
      && Step(t, RemoveVariant(p, v)) ==
           (if there then t.(variants := t.variants[v := t.variants[v].(deleted := true)]) else t)
      && Step(t, EditPrice(p, v, price)) ==
           (if there then t.(variants := t.variants[v := t.variants[v].(price := price)]) else t)
  {}

  // ----- An admin's edit ---------------------------------------------------------------------------------

  /** The price part of updating a variant; answers whether the variant was found. */
  method UpdateVariant(db: CatalogDb, p: ProductId, v: VariantId, price: Option<real>) returns (found: bool)
    requires Inv(db.State())
    modifies db`variants
    ensures Inv(db.State()) && found == HasLive(old(db.State()), p, v)
    ensures db.State() == if price.Some? then Step(old(db.State()), EditPrice(p, v, price.value)) else old(db.State())
  {
    ShapeKeepsInv(db.State(), p, v, Or(price, 0.0));
    if p !in db.products { return false; }
    if v !in db.variants || db.variants[v].product != p || db.variants[v].deleted { return false; }
    if price.Some? { db.variants := db.variants[v := db.variants[v].(price := price.value)]; }
    return true;
  }
}
