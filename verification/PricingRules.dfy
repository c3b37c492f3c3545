/** The pricing-rule service: rules change, and the products on them are repriced at once. */
module PricingRules {
  import opened Options
  import opened Pricing
  import opened Catalog

  datatype Outcome<+T> =
    | Ok(value: T)
    | NotFound
    | NameTaken
    | BadSaleWindow
    | IsDefaultRule
    | RuleInUse(products: nat)
    | StillReferenced  // a soft-deleted product's foreign key stops the delete
    | NoSuchRule  // the product's foreign key stops the assignment

  datatype NewRule = NewRule(name: string, markupValue: real, minimumProfit: Option<real>, sale: Option<Sale>)

  /** `None` leaves a column alone. For the last two, `Some(None)` clears it. */
  datatype Changes = Changes(
    name: Option<string>, markupValue: Option<real>, minimumProfit: Option<Option<real>>, sale: Option<Option<Sale>>)
  {
    predicate MovesPrices() { markupValue.Some? || minimumProfit.Some? || sale.Some? }

    predicate SaleOk() { sale.Some? ==> WindowOk(sale.value) }
  }

  predicate WindowOk(sale: Option<Sale>) {
    sale.Some? ==> sale.value.startsAt < sale.value.endsAt
  }

  predicate IsTaken(t: Tables, name: string) {
    exists r | r in t.rules :: t.rules[r].name == name
  }

  function Or<T>(change: Option<T>, current: T): T {
    match change case Some(value) => value case None => current
  }

  function Changed(rule: Rule, changes: Changes): Rule {
    rule.(name := Or(changes.name, rule.name),
          markupValue := Or(changes.markupValue, rule.markupValue),
          minimumProfit := Or(changes.minimumProfit, rule.minimumProfit),
          sale := Or(changes.sale, rule.sale))
  }

  /** `findProductIdsUsingRule` */
  function UsingRule(t: Tables, id: RuleId): set<ProductId> {
    set p | p in t.products && t.products[p].rule == Some(id) && !t.products[p].deleted
  }

  ghost predicate HasDefault(t: Tables) {
    exists r :: r in t.rules && t.rules[r].isDefault
  }

  ghost function DefaultRule(t: Tables): (d: Option<RuleId>)
    ensures d.None? <==> !HasDefault(t)
    ensures d.Some? ==> d.value in t.rules && t.rules[d.value].isDefault
  {
    if HasDefault(t) then
      var r :| r in t.rules && t.rules[r].isDefault;
      Some(r)
    else None
  }

  /** `findProductIdsEligibleForDefault`: never given a rule, or riding the previous default. */
  function Eligible(t: Tables, previous: Option<RuleId>): set<ProductId> {
    set p | p in t.products && !t.products[p].deleted &&
            (t.products[p].rule == None || (previous.Some? && t.products[p].rule == previous))
  }

  function PreviousDefault(default: Option<RuleId>, id: RuleId): Option<RuleId> {
    if default == Some(id) then None else default
  }

  // ----- What each call makes of the tables ------------------------------------------------

  function Created(t: Tables, data: NewRule): Tables {
    var rule := Rule(data.name, Percentage, data.markupValue, data.minimumProfit, true, false, data.sale);
    t.(rules := t.rules[t.nextId := rule], nextId := t.nextId + 1)
  }

  function CreateOutcome(t: Tables, data: NewRule): Outcome<RuleId> {
    if IsTaken(t, data.name) then NameTaken else if !WindowOk(data.sale) then BadSaleWindow else Ok(t.nextId)
  }

  function UpdateOutcome(t: Tables, id: RuleId, changes: Changes): Outcome<()> {
    if id !in t.rules then NotFound
    else if changes.name.Some? && changes.name.value != t.rules[id].name && IsTaken(t, changes.name.value) then NameTaken
    else if !changes.SaleOk() then BadSaleWindow
    else Ok(())
  }

  ghost function Updated(t: Tables, id: RuleId, changes: Changes, now: int): Tables
    requires id in t.rules
  {
    var u := t.(rules := t.rules[id := Changed(t.rules[id], changes)]);
    if changes.MovesPrices() then Repriced(u, UsingRule(u, id), now) else u
  }

  function DeleteOutcome(t: Tables, id: RuleId): Outcome<()> {
    if id !in t.rules then NotFound
    else if t.rules[id].isDefault then IsDefaultRule
    else if UsingRule(t, id) != {} then RuleInUse(|UsingRule(t, id)|)
    else if exists p | p in t.products :: t.products[p].rule == Some(id) then StillReferenced
    else Ok(())
  }

  function Deleted(t: Tables, id: RuleId): Tables {
    t.(rules := t.rules - {id})
  }

  /** The transaction of `applyToAll`: the default moves and the eligible products follow. */
  function Defaulted(t: Tables, id: RuleId, eligible: set<ProductId>): Tables {
    t.(rules := map r | r in t.rules :: t.rules[r].(isDefault := r == id),
       products := map p | p in t.products ::
                     if p in eligible then t.products[p].(rule := Some(id)) else t.products[p])
  }

  ghost function Applied(t: Tables, id: RuleId, now: int): Tables {
    var u := Defaulted(t, id, Eligible(t, PreviousDefault(DefaultRule(t), id)));
    Repriced(u, UsingRule(u, id), now)
  }

  function AssignOutcome(t: Tables, p: ProductId, rule: Option<RuleId>): Outcome<()> {
    if p !in t.products then NotFound
    else if rule.Some? && rule.value !in t.rules then NoSuchRule
    else Ok(())
  }

  /** An admin puts a product on a rule, or on none. */
  ghost function Assigned(t: Tables, p: ProductId, rule: Option<RuleId>, now: int): Tables
    requires p in t.products
  {
    if rule == t.products[p].rule then t
    else Repriced(t.(products := t.products[p := t.products[p].(rule := rule)]), {p}, now)
  }

  // ----- Each call keeps the catalog's invariant ---------------------------------------------

  lemma DefaultStays(t: Tables, u: Tables)
    requires forall r | r in t.rules && t.rules[r].isDefault :: r in u.rules && u.rules[r].isDefault
    ensures HasDefault(t) ==> HasDefault(u)
  {}

  lemma CreateKeepsInv(t: Tables, data: NewRule)
    requires Inv(t) && CreateOutcome(t, data).Ok?
    ensures Inv(Created(t, data)) && KeepsPrices(t, Created(t, data))
    ensures HasDefault(t) ==> HasDefault(Created(t, data))
  {
    var u := Created(t, data);
    forall v | InLine(t, v) ensures InLine(u, v) {
      assert v in t.variants ==> RuleFor(u, t.variants[v].product) == RuleFor(t, t.variants[v].product);
    }
    DefaultStays(t, u);
  }

  lemma ChangedKeepsInv(t: Tables, id: RuleId, changes: Changes)
    requires Inv(t) && UpdateOutcome(t, id, changes).Ok?
    ensures Inv(t.(rules := t.rules[id := Changed(t.rules[id], changes)]))
  {
    var u := t.(rules := t.rules[id := Changed(t.rules[id], changes)]);
    forall r | r in t.rules && r != id ensures u.rules[r].name != u.rules[id].name {}
  }

  lemma UpdateKeepsInv(t: Tables, id: RuleId, changes: Changes, now: int)
    requires Inv(t) && UpdateOutcome(t, id, changes).Ok?
    ensures Inv(Updated(t, id, changes, now)) && KeepsPrices(t, Updated(t, id, changes, now))
    ensures HasDefault(t) ==> HasDefault(Updated(t, id, changes, now))
  {
    var u := t.(rules := t.rules[id := Changed(t.rules[id], changes)]);
    ChangedKeepsInv(t, id, changes);
    assert UsingRule(u, id) == UsingRule(t, id);
    forall v | v in u.variants && InLine(t, v) && !(changes.MovesPrices() && t.variants[v].product in UsingRule(u, id))
      ensures InLine(u, v)
    {
      UnmovedPrice(t, id, changes, v);
    }
    if changes.MovesPrices() {
      RepricedAfter(t, u, UsingRule(u, id), now);
    }
    DefaultStays(t, u);
  }

  lemma UnmovedPrice(t: Tables, id: RuleId, changes: Changes, v: VariantId)
    requires Wired(t) && id in t.rules && v in t.variants && Priced(t, v)
    requires !(changes.MovesPrices() && t.variants[v].product in UsingRule(t, id))
    ensures Priced(t.(rules := t.rules[id := Changed(t.rules[id], changes)]), v)
  {
    var u := t.(rules := t.rules[id := Changed(t.rules[id], changes)]);
    var before, after := RuleFor(t, t.variants[v].product), RuleFor(u, t.variants[v].product);
    if t.products[t.variants[v].product].rule != Some(id) {
      assert before == after;
    } else if !changes.MovesPrices() {
      assert after.Some? && before.Some? && after.value == before.value.(name := after.value.name);
    }
  }

  lemma DeleteKeepsInv(t: Tables, id: RuleId)
    requires Inv(t) && DeleteOutcome(t, id).Ok?
    ensures Inv(Deleted(t, id)) && KeepsPrices(t, Deleted(t, id))
    ensures HasDefault(t) ==> HasDefault(Deleted(t, id))
  {
    var u := Deleted(t, id);
    forall v | InLine(t, v) ensures InLine(u, v) {
      assert v in t.variants ==> RuleFor(u, t.variants[v].product) == RuleFor(t, t.variants[v].product);
    }
    DefaultStays(t, u);
  }

  lemma DefaultedKeepsInv(t: Tables, id: RuleId, eligible: set<ProductId>)
    requires Inv(t) && id in t.rules
    ensures Inv(Defaulted(t, id, eligible))
  {
    var u := Defaulted(t, id, eligible);
    assert forall r | r in t.rules :: u.rules[r].name == t.rules[r].name;
    assert forall p | p in t.products :: u.products[p].slug == t.products[p].slug;
  }

  lemma AssignKeepsInv(t: Tables, p: ProductId, rule: Option<RuleId>, now: int)
    requires Inv(t) && AssignOutcome(t, p, rule).Ok?
    ensures Inv(Assigned(t, p, rule, now)) && KeepsPrices(t, Assigned(t, p, rule, now))
    ensures HasDefault(t) ==> HasDefault(Assigned(t, p, rule, now))
  {
    if rule != t.products[p].rule {
      var u := t.(products := t.products[p := t.products[p].(rule := rule)]);
      forall v | v in u.variants && InLine(t, v) && u.variants[v].product !in {p} ensures InLine(u, v) {
        assert RuleFor(u, t.variants[v].product) == RuleFor(t, t.variants[v].product);
      }
      RepricedAfter(t, u, {p}, now);
      DefaultStays(t, Assigned(t, p, rule, now));
    }
  }

  /** A product put on another rule shows its lowest price under that rule right away; no other product moves. */
  lemma AssignShowsLowest(t: Tables, p: ProductId, rule: Option<RuleId>, now: int)
    requires p in t.products && rule != t.products[p].rule
    ensures
      var u := Assigned(t, p, rule, now);
      && u.products.Keys == t.products.Keys && u.products[p].rule == rule && ShowsLowest(u, p, now)
      && (forall q | q in t.products && q != p :: u.products[q] == t.products[q])
      && (forall v | v in t.variants && t.variants[v].product != p :: v in u.variants && u.variants[v] == t.variants[v])
  {
    RepricedShowsLowest(t.(products := t.products[p := t.products[p].(rule := rule)]), {p}, now, p);
  }

  lemma ApplyKeepsInv(t: Tables, id: RuleId, now: int)
    requires Inv(t) && id in t.rules
    ensures Inv(Applied(t, id, now)) && KeepsPrices(t, Applied(t, id, now))
  {
    var eligible := Eligible(t, PreviousDefault(DefaultRule(t), id));
    var u := Defaulted(t, id, eligible);
    DefaultedKeepsInv(t, id, eligible);
    forall v | v in u.variants && InLine(t, v) && u.variants[v].product !in UsingRule(u, id) ensures InLine(u, v) {}
    RepricedAfter(t, u, UsingRule(u, id), now);
  }

  // ----- What the calls are for ------------------------------------------------------------

  /** Every live product on the rule shows its lowest variant price, and its sale, right away. */
  lemma UpdateShowsLowest(t: Tables, id: RuleId, changes: Changes, now: int, p: ProductId)
    requires id in t.rules && changes.MovesPrices() && p in UsingRule(t, id)
    ensures ShowsLowest(Updated(t, id, changes, now), p, now)
  {
    var u := t.(rules := t.rules[id := Changed(t.rules[id], changes)]);
    RepricedShowsLowest(u, UsingRule(u, id), now, p);
  }

  /** Products not on the rule, and everything on them, stay exactly as they were. */
  lemma UpdateLeavesOthers(t: Tables, id: RuleId, changes: Changes, now: int)
    requires id in t.rules
    ensures
      var u := Updated(t, id, changes, now);
      && (forall p | p in t.products && p !in UsingRule(t, id) :: p in u.products && u.products[p] == t.products[p])
      && (forall v | v in t.variants && t.variants[v].product !in UsingRule(t, id) ::
            v in u.variants && u.variants[v] == t.variants[v])
  {
    var u := t.(rules := t.rules[id := Changed(t.rules[id], changes)]);
    assert UsingRule(u, id) == UsingRule(t, id);
  }

  /** The rule that ends up on product `p`. */
  function RuleAfterApply(t: Tables, default: Option<RuleId>, id: RuleId, p: ProductId): Option<RuleId>
    requires p in t.products
  {
    var rule := t.products[p].rule;
    if t.products[p].deleted then rule
    else if rule == None || rule == default then Some(id)
    else rule
  }

  lemma ApplyMakesDefault(t: Tables, id: RuleId, now: int)
    requires Inv(t) && id in t.rules
    ensures
      var u := Applied(t, id, now);
      DefaultRule(u) == Some(id) && forall r | r in u.rules :: u.rules[r].isDefault <==> r == id
  {
    var u := Applied(t, id, now);
    assert u.rules[id].isDefault && HasDefault(u);
  }

  /**
   `applyToAll` makes its rule the one default, moves exactly the unassigned products and
   those on the previous default, and called again finds nothing left to move.
   */
  lemma ApplyMeaning(t: Tables, id: RuleId, now: int)
    requires Inv(t) && id in t.rules
    ensures
      var u := Applied(t, id, now);
      && DefaultRule(u) == Some(id)
      && (forall r | r in u.rules :: u.rules[r].isDefault <==> r == id)
      && u.products.Keys == t.products.Keys
      && (forall p | p in t.products :: u.products[p].rule == RuleAfterApply(t, DefaultRule(t), id, p))
      && Eligible(u, PreviousDefault(DefaultRule(u), id)) == {}
  {
    var u := Applied(t, id, now);
    ApplyMakesDefault(t, id, now);
    assert u.products.Keys == t.products.Keys;
    forall p | p in t.products
      ensures u.products[p].rule == RuleAfterApply(t, DefaultRule(t), id, p)
      ensures u.products[p].deleted == t.products[p].deleted {}
    assert forall p | p in u.products && !u.products[p].deleted :: u.products[p].rule != None;
    assert Eligible(u, None) == {};
  }

  lemma ApplyShowsLowest(t: Tables, id: RuleId, now: int, p: ProductId)
    requires id in t.rules && p in UsingRule(Applied(t, id, now), id)
    ensures ShowsLowest(Applied(t, id, now), p, now)
  {
    var mid := Defaulted(t, id, Eligible(t, PreviousDefault(DefaultRule(t), id)));
    assert p in UsingRule(mid, id);
    RepricedShowsLowest(mid, UsingRule(mid, id), now, p);
  }

  // ----- Each call, told from its arguments and the columns --------------------------------------

  /** Some other rule has the name. */
  predicate NameOfOther(t: Tables, id: RuleId, name: string) {
    exists r :: r in t.rules && r != id && t.rules[r].name == name
  }

  predicate EndsTooSoon(sale: Option<Sale>) { sale.Some? && sale.value.startsAt >= sale.value.endsAt }

  /** Each column has the value given for it, or the one it had. */
  predicate RuleUpdated(before: Rule, changes: Changes, after: Rule) {
    && after.name == (match changes.name case Some(name) => name case None => before.name)
    && after.markupValue == (match changes.markupValue case Some(markup) => markup case None => before.markupValue)
    && after.minimumProfit == (match changes.minimumProfit case Some(least) => least case None => before.minimumProfit)
    && after.sale == (match changes.sale case Some(sale) => sale case None => before.sale)
    && after.markupType == before.markupType && after.isActive == before.isActive && after.isDefault == before.isDefault
  }

  /** What an accepted update leaves: the rule's row, and under a price-moving one the prices it means. */
  ghost predicate IsUpdated(t: Tables, u: Tables, id: RuleId, changes: Changes, now: int) {
    && id in t.rules && u.rules.Keys == t.rules.Keys && RuleUpdated(t.rules[id], changes, u.rules[id])
    && (forall r | r in t.rules && r != id :: u.rules[r] == t.rules[r])
    && (if changes.markupValue.Some? || changes.minimumProfit.Some? || changes.sale.Some?
        then IsRecalculated(
               t.(rules := u.rules), u, (set p | p in t.products && t.products[p].rule == Some(id) && !t.products[p].deleted), now)
        else u == t.(rules := u.rules))
  }

  lemma UpdateMeaning(t: Tables, id: RuleId, changes: Changes, now: int)
    requires id in t.rules
    ensures IsUpdated(t, Updated(t, id, changes, now), id, changes, now)
  {
    var u := t.(rules := t.rules[id := Changed(t.rules[id], changes)]);
    var ids := set p | p in t.products && t.products[p].rule == Some(id) && !t.products[p].deleted;
    assert UsingRule(u, id) == ids;
    RepricedMeaning(u, ids, now);
  }

  /** So each live variant with a cost, on a live product on the rule, has the price that the new row means. */
  lemma UpdatedVariantPrice(t: Tables, id: RuleId, changes: Changes, now: int, v: VariantId)
    requires id in t.rules && (changes.markupValue.Some? || changes.minimumProfit.Some? || changes.sale.Some?)
    requires v in t.variants && !t.variants[v].deleted && t.variants[v].baseCost.Some?
    requires t.variants[v].product in t.products && t.products[t.variants[v].product].rule == Some(id)
    requires !t.products[t.variants[v].product].deleted
    ensures
      var u := Updated(t, id, changes, now);
      && id in u.rules && RuleUpdated(t.rules[id], changes, u.rules[id])
      && v in u.variants && AsPriced(t.variants[v].baseCost.value, Some(u.rules[id]), u.variants[v].price)
  {
    var u := Updated(t, id, changes, now);
    UpdateMeaning(t, id, changes, now);
    var mid, p := t.(rules := u.rules), t.variants[v].product;
    assert ProductRecalculated(mid, u, p, now) && IsRuleOf(mid, p, Some(u.rules[id]));
    assert VariantPriced(Some(u.rules[id]), mid.variants[v], u.variants[v]);
  }

  /** Which updates are refused, and why. */
  lemma UpdateOutcomeIff(t: Tables, id: RuleId, changes: Changes)
    requires Unique(t)
    ensures
      var outcome := UpdateOutcome(t, id, changes);
      var taken := changes.name.Some? && NameOfOther(t, id, changes.name.value);
      && (outcome.NotFound? <==> id !in t.rules)
      && (outcome.NameTaken? <==> id in t.rules && taken)
      && (outcome.BadSaleWindow? <==> id in t.rules && !taken && changes.sale.Some? && EndsTooSoon(changes.sale.value))
      && (outcome.Ok? <==> id in t.rules && !taken && !(changes.sale.Some? && EndsTooSoon(changes.sale.value)))
  {
    if id in t.rules && changes.name.Some? {
      assert IsTaken(t, changes.name.value) <==>
        t.rules[id].name == changes.name.value || NameOfOther(t, id, changes.name.value);
    }
  }

  /** A new rule is an active percentage rule that is not the default; nothing else changes. */
  lemma CreateMeaning(t: Tables, data: NewRule)
    requires Inv(t)
    ensures
      var outcome, taken := CreateOutcome(t, data), exists r :: r in t.rules && t.rules[r].name == data.name;
      && (outcome.NameTaken? <==> taken) && (outcome.BadSaleWindow? <==> !taken && EndsTooSoon(data.sale))
      && (outcome.Ok? <==> !taken && !EndsTooSoon(data.sale))
      && (outcome.Ok? ==>
            var u, id := Created(t, data), outcome.value;
            && id !in t.rules && u.rules.Keys == t.rules.Keys + {id} && u == t.(rules := u.rules, nextId := u.nextId)
            && (forall r | r in t.rules :: u.rules[r] == t.rules[r])
            && u.rules[id].name == data.name && u.rules[id].markupType.Percentage?
            && u.rules[id].markupValue == data.markupValue && u.rules[id].minimumProfit == data.minimumProfit
            && u.rules[id].sale == data.sale && u.rules[id].isActive && !u.rules[id].isDefault)
  {
    assert IsTaken(t, data.name) <==> exists r :: r in t.rules && t.rules[r].name == data.name;
  }

  /** A rule goes only when it is not the default and no product points at it, soft-deleted ones included. */
  lemma DeleteMeaning(t: Tables, id: RuleId)
    ensures
      var outcome, u := DeleteOutcome(t, id), Deleted(t, id);
      var live := set p | p in t.products && !t.products[p].deleted && t.products[p].rule == Some(id);
      var free := id in t.rules && !t.rules[id].isDefault;
      && (outcome.NotFound? <==> id !in t.rules) && (outcome.IsDefaultRule? <==> id in t.rules && t.rules[id].isDefault)
      && (outcome.RuleInUse? <==> free && live != {}) && (outcome.RuleInUse? ==> outcome.products == |live|)
      && (outcome.StillReferenced? <==>
            free && live == {} && exists p :: p in t.products && t.products[p].deleted && t.products[p].rule == Some(id))
      && (outcome.Ok? <==> free && forall p | p in t.products :: t.products[p].rule != Some(id))
      && u == t.(rules := u.rules) && u.rules.Keys == t.rules.Keys - {id}
      && (forall r | r in u.rules :: u.rules[r] == t.rules[r])
  {
    assert UsingRule(t, id) == set p | p in t.products && !t.products[p].deleted && t.products[p].rule == Some(id);
    if p :| p in t.products && t.products[p].rule == Some(id) && !t.products[p].deleted {
      assert p in UsingRule(t, id);
    }
  }

  /** A product is put on an existing rule, or on none, and repriced by it; on the same rule nothing happens. */
  lemma AssignMeaning(t: Tables, p: ProductId, rule: Option<RuleId>, now: int)
    ensures
      var outcome := AssignOutcome(t, p, rule);
      && (outcome.NotFound? <==> p !in t.products)
      && (outcome.NoSuchRule? <==> p in t.products && rule.Some? && rule.value !in t.rules)
      && (outcome.Ok? <==> p in t.products && (rule.Some? ==> rule.value in t.rules))
    ensures p in t.products && rule == t.products[p].rule ==> Assigned(t, p, rule, now) == t
    ensures p in t.products && rule != t.products[p].rule ==>
      IsRecalculated(t.(products := t.products[p := t.products[p].(rule := rule)]), Assigned(t, p, rule, now), {p}, now)
  {
    if p in t.products && rule != t.products[p].rule {
      RepricedMeaning(t.(products := t.products[p := t.products[p].(rule := rule)]), {p}, now);
    }
  }

  /** What `applyToAll` writes before it reprices: the default flags, and the rules of products. */
  ghost function Moved(t: Tables, u: Tables): Tables
    requires t.products.Keys <= u.products.Keys
  {
    t.(rules := u.rules, products := map p | p in t.products :: t.products[p].(rule := u.products[p].rule))
  }

  lemma RepricedKeepsRules(t: Tables, ids: set<ProductId>, now: int)
    ensures
      var u := Repriced(t, ids, now);
      u.rules == t.rules && u.products.Keys == t.products.Keys &&
      forall p | p in t.products :: u.products[p].rule == t.products[p].rule
  {}

  lemma ApplyMoves(t: Tables, id: RuleId, eligible: set<ProductId>, now: int)
    ensures
      var mid := Defaulted(t, id, eligible);
      var u := Repriced(mid, UsingRule(mid, id), now);
      u.products.Keys == t.products.Keys && Moved(t, u) == mid
  {
    var mid := Defaulted(t, id, eligible);
    RepricedKeepsRules(mid, UsingRule(mid, id), now);
    assert mid.products == Moved(t, Repriced(mid, UsingRule(mid, id), now)).products;
  }

  /** `applyToAll` changes no rule but for the default flag, and reprices exactly the live products then on its rule. */
  lemma ApplyReprices(t: Tables, id: RuleId, now: int)
    requires Inv(t) && id in t.rules
    ensures
      var u := Applied(t, id, now);
      && u.rules.Keys == t.rules.Keys && u.products.Keys == t.products.Keys
      && (forall r | r in t.rules :: u.rules[r] == t.rules[r].(isDefault := r == id))
      && IsRecalculated(
           Moved(t, u), u, (set p | p in t.products && u.products[p].rule == Some(id) && !t.products[p].deleted), now)
  {
    var mid := Defaulted(t, id, Eligible(t, PreviousDefault(DefaultRule(t), id)));
    ApplyMoves(t, id, Eligible(t, PreviousDefault(DefaultRule(t), id)), now);
    MovedOnRule(t, Applied(t, id, now), id);
    RepricedMeaning(mid, UsingRule(mid, id), now);
  }

  /** It answers with the number of products it put on the rule. */
  lemma ApplyCounts(t: Tables, id: RuleId, now: int)
    requires Inv(t) && id in t.rules
    ensures
      var u := Applied(t, id, now);
      u.products.Keys == t.products.Keys &&
      Eligible(t, PreviousDefault(DefaultRule(t), id)) ==
        set p | p in t.products && t.products[p].rule != Some(id) && u.products[p].rule == Some(id)
  {
    ApplyMeaning(t, id, now);
    assert t.rules[id].isDefault ==> DefaultRule(t) == Some(id);
  }

  lemma MovedOnRule(t: Tables, u: Tables, id: RuleId)
    requires t.products.Keys <= u.products.Keys
    ensures UsingRule(Moved(t, u), id) == set p | p in t.products && u.products[p].rule == Some(id) && !t.products[p].deleted
  {}

  // ----- The service -------------------------------------------------------------------------

  method FindDefault(db: CatalogDb) returns (d: Option<RuleId>)
    requires OneDefault(db.State())
    ensures d == DefaultRule(db.State())
  {
    if r :| r in db.rules && db.rules[r].isDefault {
      assert HasDefault(db.State());
      d := Some(r);
    } else {
      d := None;
    }
  }

  method CreateRule(db: CatalogDb, data: NewRule) returns (outcome: Outcome<RuleId>)
    requires Inv(db.State())
    modifies db
    ensures Inv(db.State()) && outcome == CreateOutcome(old(db.State()), data)
    ensures db.State() == if outcome.Ok? then Created(old(db.State()), data) else old(db.State())
  {
    if IsTaken(db.State(), data.name) {
      return NameTaken;
    }
    if !WindowOk(data.sale) {
      return BadSaleWindow;
    }
    CreateKeepsInv(db.State(), data);
    outcome := Ok(db.nextId);
    db.rules := db.rules[db.nextId :=
      Rule(data.name, Percentage, data.markupValue, data.minimumProfit, true, false, data.sale)];
    db.nextId := db.nextId + 1;
  }

  method UpdateRule(db: CatalogDb, id: RuleId, changes: Changes, now: int) returns (outcome: Outcome<()>)
    requires Inv(db.State())
    modifies db
    ensures Inv(db.State()) && outcome == UpdateOutcome(old(db.State()), id, changes)
    ensures db.State() == if outcome.Ok? then Updated(old(db.State()), id, changes, now) else old(db.State())
    ensures outcome.Ok? ==> IsUpdated(old(db.State()), db.State(), id, changes, now)
  {
    if id !in db.rules {
      return NotFound;
    }
    if changes.name.Some? && changes.name.value != db.rules[id].name && IsTaken(db.State(), changes.name.value) {
      return NameTaken;
    }
    if !changes.SaleOk() {
      return BadSaleWindow;
    }
    UpdateKeepsInv(db.State(), id, changes, now);
    UpdateMeaning(db.State(), id, changes, now);
    db.rules := db.rules[id := Changed(db.rules[id], changes)];
    if changes.MovesPrices() {
      var ids := UsingRule(db.State(), id);
      db.RecalculateAll(ids, now);
    }
    outcome := Ok(());
  }

  /** The pricing-rule part of updating a product. */
  method AssignRule(db: CatalogDb, product: ProductId, rule: Option<RuleId>, now: int) returns (outcome: Outcome<()>)
    requires Inv(db.State())
    modifies db
    ensures Inv(db.State()) && outcome == AssignOutcome(old(db.State()), product, rule)
    ensures db.State() == if outcome.Ok? then Assigned(old(db.State()), product, rule, now) else old(db.State())
  {
    if product !in db.products { return NotFound; }
    if rule.Some? && rule.value !in db.rules { return NoSuchRule; }
    AssignKeepsInv(db.State(), product, rule, now);
    var previous := db.products[product].rule;
    db.products := db.products[product := db.products[product].(rule := rule)];
    if rule != previous {
      db.RecalculateProductPricing(product, now);
    } else {
      assert db.products == old(db.products);
    }
    return Ok(());
  }

  method DeleteRule(db: CatalogDb, id: RuleId) returns (outcome: Outcome<()>)
    requires Inv(db.State())
    modifies db
    ensures Inv(db.State()) && outcome == DeleteOutcome(old(db.State()), id)
    ensures db.State() == if outcome.Ok? then Deleted(old(db.State()), id) else old(db.State())
  {
    if id !in db.rules {
      return NotFound;
    }
    if db.rules[id].isDefault {
      return IsDefaultRule;
    }
    var productCount := |UsingRule(db.State(), id)|;
    if productCount > 0 {
      return RuleInUse(productCount);
    }
    if exists p | p in db.products :: db.products[p].rule == Some(id) {
      return StillReferenced;
    }
    DeleteKeepsInv(db.State(), id);
    db.rules := db.rules - {id};
    outcome := Ok(());
  }

  /** Answers with how many products it moved. */
  method ApplyToAll(db: CatalogDb, id: RuleId, now: int) returns (outcome: Outcome<nat>)
    requires Inv(db.State())
    modifies db
    ensures Inv(db.State())
    ensures id !in old(db.rules) ==> outcome == NotFound && db.State() == old(db.State())
    ensures id in old(db.rules) ==>
              outcome == Ok(|Eligible(old(db.State()), PreviousDefault(DefaultRule(old(db.State())), id))|) &&
              db.State() == Applied(old(db.State()), id, now)
  {
    if id !in db.rules {
      return NotFound;
    }
    ApplyKeepsInv(db.State(), id, now);
    var default := FindDefault(db);
    var eligible := Eligible(db.State(), PreviousDefault(default, id));
    MakeDefault(db, id, eligible);
    var affected := UsingRule(db.State(), id);
    db.RecalculateAll(affected, now);
    outcome := Ok(|eligible|);
  }

  /** The transaction: clear the old default, set the new one, move the eligible products. */
  method MakeDefault(db: CatalogDb, id: RuleId, eligible: set<ProductId>)
    requires id in db.rules
    modifies db`rules, db`products
    ensures db.State() == Defaulted(old(db.State()), id, eligible)
  {
    var rules, products := db.rules, db.products;
    db.rules := map r | r in rules :: if r != id && rules[r].isDefault then rules[r].(isDefault := false) else rules[r];
    db.rules := db.rules[id := db.rules[id].(isDefault := true)];
    db.products := map p | p in products :: if p in eligible then products[p].(rule := Some(id)) else products[p];
    assert db.rules == map r | r in rules :: rules[r].(isDefault := r == id);
  }
}
