/** Selling prices from supplier costs, and sale prices from selling prices. Amounts are reals. */
module Pricing {
  import opened Options

  /** `Number.EPSILON`, 2^-52. */
  const EPSILON: real := 1.0 / 4503599627370496.0

  datatype MarkupType = Percentage | FixedAmount

  datatype Sale = Sale(kind: MarkupType, value: real, startsAt: int, endsAt: int)

  datatype Rule = Rule(
    name: string,
    markupType: MarkupType,
    markupValue: real,
    minimumProfit: Option<real>,
    isActive: bool,
    isDefault: bool,
    sale: Option<Sale>)

  datatype Price = Price(baseCost: real, calculatedPrice: real, profitMargin: real, ruleApplied: bool)

  /** `Math.round`: to the nearest integer, halves up. */
  function Round(x: real): int {
    (x + 0.5).Floor
  }

  function RoundToCents(x: real): real {
    Round((x + EPSILON) * 100.0) as real / 100.0
  }

  predicate IsSaleActive(sale: Sale, now: int) {
    sale.startsAt <= now <= sale.endsAt
  }

  /** The price before rounding, never below zero. */
  function Discounted(regularPrice: real, sale: Sale): real {
    var discounted := if sale.kind == Percentage then regularPrice * (1.0 - sale.value / 100.0)
                      else regularPrice - sale.value;
    if discounted > 0.0 then discounted else 0.0
  }

  function CalculateSalePrice(regularPrice: real, sale: Sale): real {
    RoundToCents(Discounted(regularPrice, sale))
  }

  function Markup(baseCost: real, rule: Rule): real {
    if rule.markupType == Percentage then baseCost * (1.0 + rule.markupValue / 100.0) else baseCost + rule.markupValue
  }

  /** The price before rounding. */
  function MarkedUp(baseCost: real, rule: Rule): real {
    var price := Markup(baseCost, rule);
    match rule.minimumProfit
    case Some(least) => if price - baseCost < least then baseCost + least else price
    case None => price
  }

  function CalculateVariantPrice(baseCost: real, rule: Option<Rule>): Price {
    if rule.None? || !rule.value.isActive then Price(baseCost, baseCost, 0.0, false)
    else
      var rounded := RoundToCents(MarkedUp(baseCost, rule.value));
      Price(baseCost, rounded, RoundToCents(rounded - baseCost), true)
  }

  // ----- Rounding --------------------------------------------------------------------------

  predicate IsWholeCents(x: real) {
    (x * 100.0).Floor as real == x * 100.0
  }

  /** Rounding moves an amount by at most half a cent and EPSILON, and gives whole cents. */
  lemma RoundingBounds(x: real)
    ensures IsWholeCents(RoundToCents(x))
    ensures x - 0.005 < RoundToCents(x) <= x + 0.005 + EPSILON
  {
    var n := Round((x + EPSILON) * 100.0);
    assert RoundToCents(x) * 100.0 == n as real;
  }

  lemma RoundingIsMonotone(x: real, y: real)
    requires x <= y
    ensures RoundToCents(x) <= RoundToCents(y)
  {
    var a, b := (x + EPSILON) * 100.0 + 0.5, (y + EPSILON) * 100.0 + 0.5;
    assert a.Floor as real <= b;
    assert a.Floor <= b.Floor;
  }

  /** Rounding leaves an amount alone exactly when it is a whole number of cents. */
  lemma RoundingFixesIff(x: real)
    ensures RoundToCents(x) == x <==> IsWholeCents(x)
  {
    var n := (x * 100.0).Floor;
    if n as real == x * 100.0 {
      assert ((x + EPSILON) * 100.0 + 0.5).Floor == n;
    }
    RoundingBounds(x);
  }

  /** Whole cents, at most half a cent and EPSILON away. */
  predicate IsRounded(x: real, target: real) {
    IsWholeCents(x) && target - 0.005 < x <= target + 0.005 + EPSILON
  }

  // ----- What the columns of a rule mean -----------------------------------------------------

  /** The price of a cost, told from the rule's columns: the markup, at least the minimum profit, rounded. */
  predicate AsPriced(cost: real, rule: Option<Rule>, price: real) {
    if rule.None? || !rule.value.isActive then price == cost
    else
      var r := rule.value;
      var raised := if r.markupType.FixedAmount? then cost + r.markupValue else cost * (100.0 + r.markupValue) / 100.0;
      var profitable := r.minimumProfit.Some? && raised < cost + r.minimumProfit.value;
      IsRounded(price, if profitable then cost + r.minimumProfit.value else raised)
  }

  /** A price less a sale, told from the sale's columns; never less than nothing. */
  predicate AsDiscounted(price: real, sale: Sale, shown: real) {
    var off := if sale.kind.FixedAmount? then sale.value else price * sale.value / 100.0;
    IsRounded(shown, if price > off then price - off else 0.0)
  }

  /** The sale price shown at `now`: none before the sale starts or after it ends. */
  predicate AsSold(rule: Option<Rule>, price: real, now: int, shown: Option<real>) {
    && (shown.Some? <==> rule.Some? && rule.value.sale.Some? && rule.value.sale.value.startsAt <= now
                         && now <= rule.value.sale.value.endsAt)
    && (shown.Some? ==> AsDiscounted(price, rule.value.sale.value, shown.value))
  }

  /** The price calculated is the one the rule's columns mean, and its margin the difference to the cost, rounded. */
  lemma PriceMeaning(cost: real, rule: Option<Rule>)
    ensures
      var p := CalculateVariantPrice(cost, rule);
      && AsPriced(cost, rule, p.calculatedPrice) && p.baseCost == cost
      && (p.ruleApplied <==> rule.Some? && rule.value.isActive)
      && (if p.ruleApplied then IsRounded(p.profitMargin, p.calculatedPrice - cost) else p.profitMargin == 0.0)
  {
    if rule.Some? && rule.value.isActive {
      var r := rule.value;
      assert cost * (1.0 + r.markupValue / 100.0) == cost * (100.0 + r.markupValue) / 100.0;
      RoundingBounds(MarkedUp(cost, r));
      RoundingBounds(RoundToCents(MarkedUp(cost, r)) - cost);
    }
  }

  lemma SaleMeaning(price: real, sale: Sale)
    ensures AsDiscounted(price, sale, CalculateSalePrice(price, sale))
  {
    assert price * (1.0 - sale.value / 100.0) == price - price * sale.value / 100.0;
    RoundingBounds(Discounted(price, sale));
  }

  // ----- Variant prices --------------------------------------------------------------------

  lemma Scale(c: real, d: real, x: real, y: real, k: real)
    requires c <= d && k >= 0.0 && x == c * k && y == d * k
    ensures x <= y
  {
    assert (d - c) * k >= 0.0;
  }

  lemma MarkupIsMonotone(c: real, d: real, rule: Rule)
    requires c <= d && (rule.markupType == Percentage ==> rule.markupValue >= -100.0)
    ensures Markup(c, rule) <= Markup(d, rule)
    ensures MarkedUp(c, rule) <= MarkedUp(d, rule)
  {
    var x, y := Markup(c, rule), Markup(d, rule);
    if rule.markupType == Percentage {
      var k := 1.0 + rule.markupValue / 100.0;
      assert x == c * k && y == d * k;
      Scale(c, d, x, y, k);
    }
    assert x <= y;
    LeastIsMonotone(c, d, x, y, rule.minimumProfit);
  }

  lemma LeastIsMonotone(c: real, d: real, x: real, y: real, minimum: Option<real>)
    requires c <= d && x <= y
    ensures minimum.Some? ==>
      (if x - c < minimum.value then c + minimum.value else x) <= (if y - d < minimum.value then d + minimum.value else y)
  {}

  /** Costlier variants are never cheaper, as long as the markup does not turn costs negative. */
  lemma PriceIsMonotone(c: real, d: real, rule: Option<Rule>)
    requires c <= d
    requires rule.Some? && rule.value.markupType == Percentage ==> rule.value.markupValue >= -100.0
    ensures CalculateVariantPrice(c, rule).calculatedPrice <= CalculateVariantPrice(d, rule).calculatedPrice
  {
    if rule.Some? {
      MarkupIsMonotone(c, d, rule.value);
      RoundingIsMonotone(MarkedUp(c, rule.value), MarkedUp(d, rule.value));
    }
  }

  /** Costlier variants are never cheaper under the rule. */
  ghost predicate KeepsOrder(rule: Rule) {
    forall c: real, d: real | 0.0 <= c <= d ::
      CalculateVariantPrice(c, Some(rule)).calculatedPrice <= CalculateVariantPrice(d, Some(rule)).calculatedPrice
  }

  /** What a percentage multiplies a cost with. */
  function Factor(rule: Rule): real { 1.0 + rule.markupValue / 100.0 }

  /** The cost at which a falling price meets the rising one that a minimum profit sees to. */
  function Turn(rule: Rule): real
    requires rule.minimumProfit.Some? && Factor(rule) < 0.0
  {
    rule.minimumProfit.value / (Factor(rule) - 1.0)
  }

  /** The lowest price before rounding of such a rule. */
  function Trough(rule: Rule): real
    requires rule.minimumProfit.Some? && Factor(rule) < 0.0
  {
    Turn(rule) + rule.minimumProfit.value
  }

  lemma TurnTimesFactor(rule: Rule)
    requires rule.minimumProfit.Some? && Factor(rule) < 0.0
    ensures Turn(rule) * (Factor(rule) - 1.0) == rule.minimumProfit.value
    ensures Turn(rule) * Factor(rule) == Trough(rule)
    ensures rule.minimumProfit.value < 0.0 ==> Turn(rule) > 0.0 > Trough(rule)
  {
    var x, k, least := Turn(rule), Factor(rule), rule.minimumProfit.value;
    assert x * (k - 1.0) == least;
    assert x * (k - 1.0) == x * k - x;
    if least < 0.0 {
      if x <= 0.0 { Falls(x, 0.0, k - 1.0); }
      if x > 0.0 { StrictlyFalls(0.0, x, k); }
    }
  }

  /** Multiplying by a negative factor turns order round. */
  lemma Falls(c: real, d: real, k: real)
    requires c <= d && k < 0.0
    ensures d * k <= c * k
  {
    assert (d - c) * k <= 0.0;
  }

  /** Up to the turn the price falls from zero to the trough; from there it is cost and minimum profit. */
  lemma FallsThenRises(c: real, rule: Rule)
    requires rule.markupType == Percentage && rule.minimumProfit.Some? && Factor(rule) < 0.0
    requires c >= 0.0 && rule.minimumProfit.value < 0.0
    ensures c <= Turn(rule) ==> Trough(rule) <= MarkedUp(c, rule) <= 0.0
    ensures c > Turn(rule) ==> MarkedUp(c, rule) == c + rule.minimumProfit.value
    ensures MarkedUp(Turn(rule), rule) == Trough(rule) && MarkedUp(0.0, rule) == 0.0
  {
    var x, k, least := Turn(rule), Factor(rule), rule.minimumProfit.value;
    TurnTimesFactor(rule);
    assert Markup(c, rule) == c * k && Markup(x, rule) == x * k && Markup(0.0, rule) == 0.0 * k == 0.0;
    assert c * (k - 1.0) == c * k - c && x * (k - 1.0) == x * k - x;
    if c <= x {
      Falls(c, x, k - 1.0);
      Falls(c, x, k);
      Falls(0.0, c, k);
    } else {
      StrictlyFalls(x, c, k - 1.0);
    }
  }

  lemma StrictlyFalls(c: real, d: real, k: real)
    requires c < d && k < 0.0
    ensures d * k < c * k
  {
    assert (d - c) * k < 0.0;
  }

  /** A minimum profit that is not negative makes up for any markup below -100. */
  lemma ProfitRises(c: real, rule: Rule)
    requires rule.markupType == Percentage && rule.minimumProfit.Some? && Factor(rule) < 0.0
    requires c >= 0.0 && rule.minimumProfit.value >= 0.0
    ensures MarkedUp(c, rule) == c + rule.minimumProfit.value
  {
    var k := Factor(rule);
    assert Markup(c, rule) == c * k;
    Falls(0.0, c, k);
  }

  lemma SteepKeepsOrder(c: real, d: real, rule: Rule)
    requires rule.isActive && rule.markupType == Percentage && rule.minimumProfit.Some? && Factor(rule) < 0.0
    requires rule.minimumProfit.value >= 0.0 || RoundToCents(Trough(rule)) == 0.0
    requires 0.0 <= c <= d
    ensures RoundToCents(MarkedUp(c, rule)) <= RoundToCents(MarkedUp(d, rule))
  {
    if rule.minimumProfit.value >= 0.0 {
      ProfitRises(c, rule);
      ProfitRises(d, rule);
      RoundingIsMonotone(MarkedUp(c, rule), MarkedUp(d, rule));
    } else {
      FallsThenRises(c, rule);
      FallsThenRises(d, rule);
      RoundingFixesIff(0.0);
      if c <= Turn(rule) {
        RoundingIsMonotone(MarkedUp(c, rule), 0.0);
        RoundingIsMonotone(Trough(rule), MarkedUp(d, rule));
      } else {
        RoundingIsMonotone(MarkedUp(c, rule), MarkedUp(d, rule));
      }
    }
  }

  /** A markup below -100 without a minimum profit turns a cost of some cents into a price of -1. */
  lemma SteepBreaksOrder(rule: Rule)
    requires rule.isActive && rule.markupType == Percentage && rule.minimumProfit == None && Factor(rule) < 0.0
    ensures !KeepsOrder(rule)
  {
    var k := Factor(rule);
    var d := -1.0 / k;
    assert d * k == -1.0 && d >= 0.0;
    assert MarkedUp(0.0, rule) == 0.0 && MarkedUp(d, rule) == -1.0;
    RoundingFixesIff(0.0);
    RoundingFixesIff(-1.0);
    assert CalculateVariantPrice(0.0, Some(rule)).calculatedPrice == 0.0;
    assert CalculateVariantPrice(d, Some(rule)).calculatedPrice == -1.0;
  }

  lemma TroughBreaksOrder(rule: Rule)
    requires rule.isActive && rule.markupType == Percentage && rule.minimumProfit.Some? && Factor(rule) < 0.0
    requires rule.minimumProfit.value < 0.0 && RoundToCents(Trough(rule)) != 0.0
    ensures !KeepsOrder(rule)
  {
    var x := Turn(rule);
    TurnTimesFactor(rule);
    FallsThenRises(x, rule);
    RoundingFixesIff(0.0);
    RoundingIsMonotone(Trough(rule), 0.0);
    assert CalculateVariantPrice(0.0, Some(rule)).calculatedPrice == 0.0;
    assert CalculateVariantPrice(x, Some(rule)).calculatedPrice < 0.0;
  }

  /**
   An active rule keeps the order of costs exactly when it adds an amount, marks down by at most
   100 %, or has a minimum profit that is not negative, or too slightly so to be seen in cents.
   */
  lemma MonotoneIff(rule: Rule)
    requires rule.isActive
    ensures KeepsOrder(rule) <==>
      || rule.markupType == FixedAmount
      || rule.markupValue >= -100.0
      || (rule.minimumProfit.Some? && (rule.minimumProfit.value >= 0.0 || RoundToCents(Trough(rule)) == 0.0))
  {
    if rule.markupType == FixedAmount || rule.markupValue >= -100.0 {
      forall c: real, d: real | 0.0 <= c <= d
        ensures CalculateVariantPrice(c, Some(rule)).calculatedPrice <= CalculateVariantPrice(d, Some(rule)).calculatedPrice
      {
        PriceIsMonotone(c, d, Some(rule));
      }
    } else if rule.minimumProfit.None? {
      SteepBreaksOrder(rule);
    } else if rule.minimumProfit.value >= 0.0 || RoundToCents(Trough(rule)) == 0.0 {
      forall c: real, d: real | 0.0 <= c <= d
        ensures CalculateVariantPrice(c, Some(rule)).calculatedPrice <= CalculateVariantPrice(d, Some(rule)).calculatedPrice
      {
        SteepKeepsOrder(c, d, rule);
      }
    } else {
      TroughBreaksOrder(rule);
    }
  }

  /** So a rule the controller lets through, with no negative amount, always does. */
  lemma AcceptedRulesKeepOrder(rule: Rule)
    requires rule.markupValue >= 0.0 && (rule.minimumProfit.Some? ==> rule.minimumProfit.value >= 0.0)
    ensures KeepsOrder(rule)
  {
    if rule.isActive { MonotoneIff(rule); }
  }

  /** The margin a rule reports is price minus cost exactly when the cost is whole cents. */
  lemma MarginIff(cost: real, rule: Rule)
    requires rule.isActive
    ensures
      var p := CalculateVariantPrice(cost, Some(rule));
      p.profitMargin == p.calculatedPrice - cost <==> IsWholeCents(cost)
  {
    var price := CalculateVariantPrice(cost, Some(rule)).calculatedPrice;
    RoundingBounds(MarkedUp(cost, rule));
    RoundingFixesIff(price - cost);
    if IsWholeCents(cost) {
      CentsSubtract(price, cost);
    }
    if IsWholeCents(price - cost) {
      CentsSubtract(price, price - cost);
    }
  }

  lemma CentsSubtract(x: real, y: real)
    requires IsWholeCents(x) && IsWholeCents(y)
    ensures IsWholeCents(x - y)
  {
    var a, b := (x * 100.0).Floor, (y * 100.0).Floor;
    assert (x - y) * 100.0 == (a - b) as real;
  }

  /** A rule's minimum profit is met to the cent. */
  lemma MinimumProfitIsMet(cost: real, rule: Rule)
    requires rule.isActive && rule.minimumProfit.Some?
    requires IsWholeCents(cost) && IsWholeCents(rule.minimumProfit.value)
    ensures CalculateVariantPrice(cost, Some(rule)).profitMargin >= rule.minimumProfit.value
  {
    var least := rule.minimumProfit.value;
    CentsAdd(cost, least);
    RoundingFixesIff(cost + least);
    MinimumProfitIsAdded(cost, rule);
    RoundingIsMonotone(cost + least, MarkedUp(cost, rule));
    MarginIff(cost, rule);
  }

  lemma CentsAdd(x: real, y: real)
    requires IsWholeCents(x) && IsWholeCents(y)
    ensures IsWholeCents(x + y)
  {
    var a, b := (x * 100.0).Floor, (y * 100.0).Floor;
    assert (x + y) * 100.0 == (a + b) as real;
  }

  lemma MinimumProfitIsAdded(cost: real, rule: Rule)
    requires rule.minimumProfit.Some?
    ensures cost + rule.minimumProfit.value <= MarkedUp(cost, rule)
  {}

  // ----- Sale prices -----------------------------------------------------------------------

  lemma SaleNeverNegative(regularPrice: real, sale: Sale)
    ensures CalculateSalePrice(regularPrice, sale) >= 0.0
  {
    RoundingFixesIff(0.0);
    RoundingIsMonotone(0.0, Discounted(regularPrice, sale));
  }

  lemma Discounts(regularPrice: real, sale: Sale)
    requires regularPrice >= 0.0 && sale.value >= 0.0
    ensures Discounted(regularPrice, sale) <= regularPrice
  {
    Scale(0.0, sale.value / 100.0, 0.0, sale.value / 100.0 * regularPrice, regularPrice);
    assert regularPrice * (1.0 - sale.value / 100.0) == regularPrice - sale.value / 100.0 * regularPrice;
  }

  lemma SaleNeverRaises(regularPrice: real, sale: Sale)
    requires regularPrice >= 0.0 && RoundToCents(regularPrice) <= regularPrice && sale.value >= 0.0
    ensures CalculateSalePrice(regularPrice, sale) <= regularPrice
  {
    Discounts(regularPrice, sale);
    RoundingIsMonotone(Discounted(regularPrice, sale), regularPrice);
  }

  /**
   No sale with a discount of zero or more puts the price up, exactly when the price is not
   negative and would not itself be rounded up.
   */
  lemma SaleNeverRaisesIff(regularPrice: real)
    ensures (forall sale: Sale | sale.value >= 0.0 :: CalculateSalePrice(regularPrice, sale) <= regularPrice)
            <==> regularPrice >= 0.0 && RoundToCents(regularPrice) <= regularPrice
  {
    if regularPrice >= 0.0 && RoundToCents(regularPrice) <= regularPrice {
      forall sale: Sale | sale.value >= 0.0
        ensures CalculateSalePrice(regularPrice, sale) <= regularPrice
      {
        SaleNeverRaises(regularPrice, sale);
      }
    } else {
      var free := Sale(FixedAmount, 0.0, 0, 0);
      SaleNeverNegative(regularPrice, free);
      assert CalculateSalePrice(regularPrice, free) > regularPrice;
    }
  }

  /** In particular on every price that is a whole, non-negative number of cents. */
  lemma SaleOnWholeCents(regularPrice: real, sale: Sale)
    requires regularPrice >= 0.0 && IsWholeCents(regularPrice) && sale.value >= 0.0
    ensures 0.0 <= CalculateSalePrice(regularPrice, sale) <= regularPrice
  {
    RoundingFixesIff(regularPrice);
    SaleNeverRaisesIff(regularPrice);
    SaleNeverNegative(regularPrice, sale);
  }
}
