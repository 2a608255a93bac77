/**
 The fare formula in exact reals. Every amount is rounded to cents once, half
 away from zero, after a nudge of 1e-9 cents.
 */
module Fare {
  import opened Numbers

  datatype FareInputs = FareInputs(
    baseFare: real, pricePerKm: real, pricePerMinute: real, minimumFare: real,
    distanceKm: real, durationMin: real, operatingCost: real, demandMultiplier: real,
    tolls: real, otherCharges: real, taxRate: real, taxTolls: bool)

  datatype FareBreakdown = FareBreakdown(
    distanceAmount: real, durationAmount: real, operatingCost: real, variableBase: real,
    demandMultiplier: real, serviceBeforeDemand: real, serviceFare: real, demandAmount: real,
    minimumApplied: bool, tolls: real, otherCharges: real, subtotal: real, taxableBase: real,
    taxAmount: real, total: real)

  const NUDGE := 0.000000001

  function Abs(x: real): real { if x < 0.0 then -x else x }

  function Times(a: real, b: real): real { a * b }

  /** A non-negative amount, to cents. */
  function RoundUpFromZero(value: real): real {
    Round(value * 100.0 + NUDGE) as real / 100.0
  }

  function RoundCents(value: real): real {
    if value < 0.0 then -RoundUpFromZero(-value) else RoundUpFromZero(value)
  }

  /** What the formula computes with: the product, the rounding, and which
      amounts are whole cents. */
  datatype Money = Money(times: (real, real) -> real, round: real -> real, cents: real -> bool)

  const DECIMAL := Money(Times, RoundCents, IsCents)

  /** The formula, for a given way of rounding. */
  function FareWith(money: Money, input: FareInputs): FareBreakdown {
    var multiplier := MaxReal(1.0, input.demandMultiplier);
    var distanceAmount := money.round(money.times(input.distanceKm, input.pricePerKm));
    var durationAmount := money.round(money.times(input.durationMin, input.pricePerMinute));
    var operatingCost := money.round(input.operatingCost);
    var variableBase := money.round(input.baseFare + distanceAmount + durationAmount + operatingCost);
    var minimumFare := money.round(input.minimumFare);
    var serviceBeforeDemand := MaxReal(minimumFare, variableBase);
    var serviceFare := MaxReal(minimumFare, money.round(money.times(variableBase, multiplier)));
    var tolls := money.round(input.tolls);
    var otherCharges := money.round(input.otherCharges);
    var subtotal := money.round(serviceFare + tolls + otherCharges);
    var taxableBase := money.round(serviceFare + otherCharges + (if input.taxTolls then tolls else 0.0));
    var taxAmount := money.round(money.times(taxableBase, input.taxRate));
    FareBreakdown(
      distanceAmount, durationAmount, operatingCost, variableBase, multiplier, serviceBeforeDemand, serviceFare,
      money.round(serviceFare - serviceBeforeDemand),
      serviceFare == minimumFare && money.times(variableBase, multiplier) < minimumFare,
      tolls, otherCharges, subtotal, taxableBase, taxAmount, money.round(subtotal + taxAmount))
  }

  function ComputeFare(input: FareInputs): FareBreakdown {
    FareWith(DECIMAL, input)
  }

  // ----- rounding -----

  /** A whole number of cents. */
  predicate IsCents(x: real) { (x * 100.0).Floor as real == x * 100.0 }

  /** Half a cent, and the nudge. */
  const HALF := 0.005 + 0.00000000001

  predicate Within(x: real, y: real, error: real) { -error <= x - y <= error }

  lemma CentsOf(x: real, cents: int)
    requires x * 100.0 == cents as real
    ensures IsCents(x)
  {
  }

  lemma CentsAdd(x: real, y: real)
    requires IsCents(x) && IsCents(y)
    ensures IsCents(x + y) && IsCents(x - y)
  {
    var a, b := (x * 100.0).Floor, (y * 100.0).Floor;
    CentsOf(x + y, a + b);
    CentsOf(x - y, a - b);
  }

  lemma UpGivesCents(x: real)
    requires x >= 0.0
    ensures IsCents(RoundUpFromZero(x)) && RoundUpFromZero(x) >= 0.0
    ensures Within(RoundUpFromZero(x), x, HALF)
  {
    var k := Round(x * 100.0 + NUDGE);
    assert RoundUpFromZero(x) * 100.0 == k as real;
  }

  lemma CentsNegate(x: real)
    requires IsCents(x)
    ensures IsCents(-x)
  {
    assert (-x) * 100.0 == (-(x * 100.0).Floor) as real;
  }

  lemma UpLeavesCents(x: real)
    requires IsCents(x) && x >= 0.0
    ensures RoundUpFromZero(x) == x
  {
    var k := (x * 100.0).Floor;
    assert x * 100.0 == k as real;
    assert Round(k as real + NUDGE) == k;
  }

  lemma UpMonotone(x: real, y: real)
    requires 0.0 <= x <= y
    ensures RoundUpFromZero(x) <= RoundUpFromZero(y)
  {
    assert Round(x * 100.0 + NUDGE) <= Round(y * 100.0 + NUDGE);
  }

  /** Rounding gives whole cents and moves an amount by at most half a cent and
      the nudge. */
  lemma RoundGivesCents(x: real)
    ensures IsCents(RoundCents(x)) && Within(RoundCents(x), x, HALF)
    ensures x >= 0.0 ==> RoundCents(x) >= 0.0
  {
    UpGivesCents(Abs(x));
    CentsNegate(RoundUpFromZero(Abs(x)));
  }

  lemma RoundLeavesCents(x: real)
    requires IsCents(x)
    ensures RoundCents(x) == x
  {
    if x < 0.0 { CentsNegate(x); UpLeavesCents(-x); } else { UpLeavesCents(x); }
  }

  lemma RoundKeepsOrder(x: real, y: real)
    requires x <= y
    ensures RoundCents(x) <= RoundCents(y)
  {
    UpGivesCents(Abs(x));
    UpGivesCents(Abs(y));
    if x >= 0.0 { UpMonotone(x, y); } else if y < 0.0 { UpMonotone(-y, -x); }
  }

  /** All the formula relies on, of a way of rounding, the amounts it gives and
      the product. */
  ghost predicate Lawful(money: Money) {
    && (forall x :: money.cents(money.round(x)) && Within(money.round(x), x, HALF))
    && (forall x :: money.cents(x) ==> money.round(x) == x)
    && (forall x, y {:trigger RoundsInOrder(money, x, y)} :: x <= y ==> RoundsInOrder(money, x, y))
    && (forall x, y {:trigger Plus(x, y)} :: money.cents(x) && money.cents(y) ==> money.cents(Plus(x, y)))
    && (forall x, y {:trigger Minus(x, y)} :: money.cents(x) && money.cents(y) ==> money.cents(Minus(x, y)))
    && money.cents(0.0)
    && (forall a, b, x, y {:trigger TimesInOrder(money, a, b, x, y)} ::
          0.0 <= a <= b && 0.0 <= x <= y ==> TimesInOrder(money, a, b, x, y))
    && (forall a, m {:trigger TimesRaises(money, a, m)} :: a >= 0.0 && m >= 1.0 ==> TimesRaises(money, a, m))
    && (forall x, y, error, factor {:trigger ScalesWithin(money, x, y, error, factor)} ::
          Within(x, y, error) && factor >= 0.0 ==> ScalesWithin(money, x, y, error, factor))
  }

  ghost predicate RoundsInOrder(money: Money, x: real, y: real) { money.round(x) <= money.round(y) }

  ghost predicate TimesInOrder(money: Money, a: real, b: real, x: real, y: real) {
    0.0 <= money.times(a, x) <= money.times(b, y)
  }

  ghost predicate TimesRaises(money: Money, a: real, m: real) { a <= money.times(a, m) }

  ghost predicate ScalesWithin(money: Money, x: real, y: real, error: real, factor: real) {
    Within(money.times(x, factor), money.times(y, factor), money.times(error, factor))
  }

  function Plus(x: real, y: real): real { x + y }

  function Minus(x: real, y: real): real { x - y }

  lemma ProductMonotone(a: real, b: real, x: real, y: real)
    requires 0.0 <= a <= b && 0.0 <= x <= y
    ensures 0.0 <= Times(a, x) <= Times(b, y)
  {
    assert a * x <= b * x by { assert (b - a) * x >= 0.0; }
    assert b * x <= b * y by { assert b * (y - x) >= 0.0; }
  }

  lemma TimesRaise(a: real, m: real)
    requires a >= 0.0 && m >= 1.0
    ensures a <= Times(a, m)
  {
    assert a * (m - 1.0) >= 0.0;
  }

  lemma ScaledWithin(x: real, y: real, error: real, factor: real)
    requires Within(x, y, error) && factor >= 0.0
    ensures Within(Times(x, factor), Times(y, factor), Times(error, factor))
  {
    assert (x - y) * factor <= error * factor by { assert (error - (x - y)) * factor >= 0.0; }
    assert -(error * factor) <= (x - y) * factor by { assert (x - y + error) * factor >= 0.0; }
    assert (x - y) * factor == x * factor - y * factor;
  }

  lemma DecimalIsLawful()
    ensures Lawful(DECIMAL)
  {
    forall x ensures IsCents(RoundCents(x)) && Within(RoundCents(x), x, HALF) { RoundGivesCents(x); }
    forall x | IsCents(x) ensures RoundCents(x) == x { RoundLeavesCents(x); }
    forall x, y | x <= y ensures RoundsInOrder(DECIMAL, x, y) { RoundKeepsOrder(x, y); }
    forall x, y | IsCents(x) && IsCents(y) ensures IsCents(Plus(x, y)) && IsCents(Minus(x, y)) { CentsAdd(x, y); }
    forall a, b, x, y | 0.0 <= a <= b && 0.0 <= x <= y ensures TimesInOrder(DECIMAL, a, b, x, y) { ProductMonotone(a, b, x, y); }
    forall a, m | a >= 0.0 && m >= 1.0 ensures TimesRaises(DECIMAL, a, m) { TimesRaise(a, m); }
    forall x, y, error, factor | Within(x, y, error) && factor >= 0.0 ensures ScalesWithin(DECIMAL, x, y, error, factor) {
      ScaledWithin(x, y, error, factor);
    }
  }

  // ----- the stages of the formula, each over the products it is given -----

  function VariableBase(money: Money, base: real, distance: real, duration: real, operating: real): real {
    money.round(base + money.round(distance) + money.round(duration) + money.round(operating))
  }

  function Subtotal(money: Money, service: real, tolls: real, other: real): real {
    money.round(service + money.round(tolls) + money.round(other))
  }

  function Taxable(money: Money, service: real, tolls: real, other: real, taxTolls: bool): real {
    money.round(service + money.round(other) + (if taxTolls then money.round(tolls) else 0.0))
  }

  function BaseOf(money: Money, input: FareInputs): real {
    VariableBase(money, input.baseFare, money.times(input.distanceKm, input.pricePerKm), money.times(input.durationMin, input.pricePerMinute), input.operatingCost)
  }

  function MultiplierOf(input: FareInputs): real { MaxReal(1.0, input.demandMultiplier) }

  function ServiceOf(money: Money, input: FareInputs): real {
    MaxReal(money.round(input.minimumFare), money.round(money.times(BaseOf(money, input), MultiplierOf(input))))
  }

  function TotalOf(money: Money, input: FareInputs): real {
    money.round(Subtotal(money, ServiceOf(money, input), input.tolls, input.otherCharges)
               + money.round(money.times(Taxable(money, ServiceOf(money, input), input.tolls, input.otherCharges, input.taxTolls), input.taxRate)))
  }

  lemma FareStages(money: Money, input: FareInputs)
    ensures var fare := FareWith(money, input);
            && fare.variableBase == BaseOf(money, input) && fare.demandMultiplier == MultiplierOf(input)
            && fare.serviceFare == ServiceOf(money, input) && fare.total == TotalOf(money, input)
            && fare.serviceBeforeDemand == MaxReal(money.round(input.minimumFare), BaseOf(money, input))
            && fare.demandAmount == money.round(fare.serviceFare - fare.serviceBeforeDemand)
  {
  }

  // ----- order -----

  /** What the price list and the route hand to the formula. */
  predicate Priced(input: FareInputs) {
    && input.baseFare >= 0.0 && input.pricePerKm >= 0.0 && input.pricePerMinute >= 0.0 && input.minimumFare >= 0.0
    && input.distanceKm >= 0.0 && input.durationMin >= 0.0 && input.operatingCost >= 0.0
    && input.tolls >= 0.0 && input.otherCharges >= 0.0 && input.taxRate >= 0.0
  }

  lemma RoundSigns(money: Money, x: real)
    requires Lawful(money) && x >= 0.0
    ensures money.round(x) >= 0.0
  {
    assert RoundsInOrder(money, 0.0, x);
  }

  lemma VariableBaseMonotone(money: Money, base: real, x: real, y: real, u: real, v: real, operating: real)
    requires Lawful(money)
    requires 0.0 <= base && 0.0 <= x <= u && 0.0 <= y <= v && 0.0 <= operating
    ensures 0.0 <= VariableBase(money, base, x, y, operating) <= VariableBase(money, base, u, v, operating)
  {
    RoundSigns(money, x);
    RoundSigns(money, y);
    RoundSigns(money, operating);
    assert RoundsInOrder(money, x, u) && RoundsInOrder(money, y, v);
    var low := base + money.round(x) + money.round(y) + money.round(operating);
    RoundSigns(money, low);
    assert RoundsInOrder(money, low, base + money.round(u) + money.round(v) + money.round(operating));
  }

  lemma MaxRoundMonotone(money: Money, minimum: real, x: real, y: real)
    requires Lawful(money)
    requires 0.0 <= x <= y
    ensures 0.0 <= MaxReal(money.round(minimum), money.round(x)) <= MaxReal(money.round(minimum), money.round(y))
  {
    RoundSigns(money, x);
    assert RoundsInOrder(money, x, y);
  }

  lemma TaxableMonotone(money: Money, low: real, high: real, tolls: real, other: real, taxTolls: bool)
    requires Lawful(money)
    requires 0.0 <= low <= high && tolls >= 0.0 && other >= 0.0
    ensures 0.0 <= Taxable(money, low, tolls, other, taxTolls) <= Taxable(money, high, tolls, other, taxTolls)
    ensures Subtotal(money, low, tolls, other) <= Subtotal(money, high, tolls, other)
  {
    RoundSigns(money, tolls);
    RoundSigns(money, other);
    var taxed := if taxTolls then money.round(tolls) else 0.0;
    RoundSigns(money, low + money.round(other) + taxed);
    assert RoundsInOrder(money, low + money.round(other) + taxed, high + money.round(other) + taxed);
    assert RoundsInOrder(money, low + money.round(tolls) + money.round(other), high + money.round(tolls) + money.round(other));
  }

  lemma RoundedSumMonotone(money: Money, a: real, b: real, x: real, y: real)
    requires Lawful(money)
    requires a <= b && x <= y
    ensures money.round(a + money.round(x)) <= money.round(b + money.round(y))
  {
    assert RoundsInOrder(money, x, y);
    assert RoundsInOrder(money, a + money.round(x), b + money.round(y));
  }

  predicate LongerOrBusier(input: FareInputs, other: FareInputs) {
    && other == input.(distanceKm := other.distanceKm, durationMin := other.durationMin, demandMultiplier := other.demandMultiplier)
    && input.distanceKm <= other.distanceKm && input.durationMin <= other.durationMin
    && input.demandMultiplier <= other.demandMultiplier
  }

  lemma BaseMonotone(money: Money, input: FareInputs, other: FareInputs)
    requires Lawful(money)
    requires Priced(input) && LongerOrBusier(input, other)
    ensures 0.0 <= BaseOf(money, input) <= BaseOf(money, other)
  {
    assert TimesInOrder(money, input.distanceKm, other.distanceKm, input.pricePerKm, other.pricePerKm);
    assert TimesInOrder(money, input.durationMin, other.durationMin, input.pricePerMinute, other.pricePerMinute);
    VariableBaseMonotone(money, input.baseFare, money.times(input.distanceKm, input.pricePerKm), money.times(input.durationMin, input.pricePerMinute),
                         money.times(other.distanceKm, other.pricePerKm), money.times(other.durationMin, other.pricePerMinute), input.operatingCost);
  }

  lemma ServiceMonotone(money: Money, input: FareInputs, other: FareInputs)
    requires Lawful(money)
    requires Priced(input) && LongerOrBusier(input, other)
    ensures 0.0 <= ServiceOf(money, input) <= ServiceOf(money, other)
  {
    BaseMonotone(money, input, other);
    assert TimesInOrder(money, BaseOf(money, input), BaseOf(money, other), MultiplierOf(input), MultiplierOf(other));
    MaxRoundMonotone(money, input.minimumFare, money.times(BaseOf(money, input), MultiplierOf(input)), money.times(BaseOf(money, other), MultiplierOf(other)));
  }

  lemma TotalMonotone(money: Money, input: FareInputs, other: FareInputs)
    requires Lawful(money)
    requires Priced(input) && LongerOrBusier(input, other)
    ensures TotalOf(money, input) <= TotalOf(money, other)
  {
    ServiceMonotone(money, input, other);
    var a, b := ServiceOf(money, input), ServiceOf(money, other);
    TaxableMonotone(money, a, b, input.tolls, input.otherCharges, input.taxTolls);
    var x := Taxable(money, a, input.tolls, input.otherCharges, input.taxTolls);
    var y := Taxable(money, b, input.tolls, input.otherCharges, input.taxTolls);
    assert TimesInOrder(money, x, y, input.taxRate, input.taxRate);
    RoundedSumMonotone(money, Subtotal(money, a, input.tolls, input.otherCharges), Subtotal(money, b, input.tolls, input.otherCharges),
                       money.times(x, input.taxRate), money.times(y, input.taxRate));
  }

  lemma MonotoneWith(money: Money, input: FareInputs, other: FareInputs)
    requires Lawful(money)
    requires Priced(input) && LongerOrBusier(input, other)
    ensures FareWith(money, input).serviceFare <= FareWith(money, other).serviceFare
    ensures FareWith(money, input).total <= FareWith(money, other).total
  {
    FareStages(money, input);
    FareStages(money, other);
    ServiceMonotone(money, input, other);
    TotalMonotone(money, input, other);
  }

  /** Longer, slower and busier trips never cost less. */
  lemma FareMonotone(input: FareInputs, other: FareInputs)
    requires Priced(input) && LongerOrBusier(input, other)
    ensures ComputeFare(input).serviceFare <= ComputeFare(other).serviceFare
    ensures ComputeFare(input).total <= ComputeFare(other).total
  {
    DecimalIsLawful();
    MonotoneWith(DECIMAL, input, other);
  }

  lemma DemandStep(money: Money, minimum: real, base: real, raised: real)
    requires Lawful(money)
    requires money.cents(base) && base <= raised
    ensures var before, after := MaxReal(money.round(minimum), base), MaxReal(money.round(minimum), money.round(raised));
            money.round(after - before) >= 0.0 && after == before + money.round(after - before)
  {
    var before, after := MaxReal(money.round(minimum), base), MaxReal(money.round(minimum), money.round(raised));
    assert RoundsInOrder(money, base, raised);
    assert money.cents(Minus(after, before));
  }

  lemma BaseRaised(money: Money, input: FareInputs)
    requires Lawful(money)
    requires Priced(input)
    ensures money.cents(BaseOf(money, input)) && BaseOf(money, input) <= money.times(BaseOf(money, input), MultiplierOf(input))
  {
    BaseMonotone(money, input, input);
    assert TimesRaises(money, BaseOf(money, input), MultiplierOf(input));
  }

  lemma DemandOf(money: Money, input: FareInputs)
    requires Lawful(money)
    requires Priced(input)
    ensures var before := MaxReal(money.round(input.minimumFare), BaseOf(money, input));
            var demand := money.round(ServiceOf(money, input) - before);
            demand >= 0.0 && ServiceOf(money, input) == before + demand
  {
    BaseRaised(money, input);
    DemandStep(money, input.minimumFare, BaseOf(money, input), money.times(BaseOf(money, input), MultiplierOf(input)));
  }

  lemma DemandWith(money: Money, input: FareInputs)
    requires Lawful(money)
    requires Priced(input)
    ensures FareWith(money, input).demandAmount >= 0.0
    ensures FareWith(money, input).serviceFare == FareWith(money, input).serviceBeforeDemand + FareWith(money, input).demandAmount
  {
    FareStages(money, input);
    DemandOf(money, input);
  }

  /** Demand never lowers the fare, and what it added is exactly accounted for. */
  lemma DemandAddsUp(input: FareInputs)
    requires Priced(input)
    ensures ComputeFare(input).demandAmount >= 0.0
    ensures ComputeFare(input).serviceFare == ComputeFare(input).serviceBeforeDemand + ComputeFare(input).demandAmount
  {
    DecimalIsLawful();
    DemandWith(DECIMAL, input);
  }

  // ----- distance to the unrounded formula -----

  function ExactBase(money: Money, input: FareInputs): real {
    input.baseFare + money.times(input.distanceKm, input.pricePerKm) + money.times(input.durationMin, input.pricePerMinute) + input.operatingCost
  }

  function ExactService(money: Money, input: FareInputs): real {
    MaxReal(input.minimumFare, money.times(ExactBase(money, input), MultiplierOf(input)))
  }

  function ExactTaxable(money: Money, input: FareInputs): real {
    ExactService(money, input) + input.otherCharges + (if input.taxTolls then input.tolls else 0.0)
  }

  function ExactTotal(money: Money, input: FareInputs): real {
    ExactService(money, input) + input.tolls + input.otherCharges + money.times(ExactTaxable(money, input), input.taxRate)
  }

  ghost predicate PricedIn(money: Money, input: FareInputs) {
    money.cents(input.baseFare) && money.cents(input.minimumFare) && money.cents(input.operatingCost) && money.cents(input.tolls) && money.cents(input.otherCharges)
  }

  lemma VariableBaseClose(money: Money, base: real, distance: real, duration: real, operating: real)
    requires Lawful(money)
    requires money.cents(base) && money.cents(operating)
    ensures Within(VariableBase(money, base, distance, duration, operating), base + distance + duration + operating, 2.0 * HALF)
  {
    var x, y := money.round(distance), money.round(duration);
    assert money.cents(Plus(Plus(Plus(base, x), y), operating));
  }

  lemma MaxRoundClose(money: Money, minimum: real, x: real, exact: real, error: real)
    requires Lawful(money)
    requires money.cents(minimum) && Within(x, exact, error) && error >= 0.0
    ensures Within(MaxReal(money.round(minimum), money.round(x)), MaxReal(minimum, exact), error + HALF)
    ensures money.cents(MaxReal(money.round(minimum), money.round(x)))
  {
  }

  lemma ServiceClose(money: Money, input: FareInputs)
    requires Lawful(money)
    requires PricedIn(money, input)
    ensures money.cents(ServiceOf(money, input))
    ensures Within(ServiceOf(money, input), ExactService(money, input), money.times(2.0 * HALF, MultiplierOf(input)) + HALF)
  {
    var m := MultiplierOf(input);
    VariableBaseClose(money, input.baseFare, money.times(input.distanceKm, input.pricePerKm), money.times(input.durationMin, input.pricePerMinute), input.operatingCost);
    assert TimesRaises(money, 2.0 * HALF, m);
    assert ScalesWithin(money, BaseOf(money, input), ExactBase(money, input), 2.0 * HALF, m);
    MaxRoundClose(money, input.minimumFare, money.times(BaseOf(money, input), m), money.times(ExactBase(money, input), m), money.times(2.0 * HALF, m));
  }

  lemma SumsOfCents(money: Money, service: real, tolls: real, other: real, taxTolls: bool)
    requires Lawful(money)
    requires money.cents(service) && money.cents(tolls) && money.cents(other)
    ensures Subtotal(money, service, tolls, other) == service + tolls + other && money.cents(service + tolls + other)
    ensures Taxable(money, service, tolls, other, taxTolls) == service + other + (if taxTolls then tolls else 0.0)
  {
    assert money.cents(Plus(Plus(service, tolls), other));
    assert money.cents(Plus(Plus(service, other), tolls));
  }

  lemma LastSum(money: Money, subtotal: real, tax: real, exactSubtotal: real, exactTax: real, error: real, taxError: real)
    requires Lawful(money)
    requires money.cents(subtotal) && Within(subtotal, exactSubtotal, error) && Within(tax, exactTax, taxError)
    ensures Within(money.round(subtotal + money.round(tax)), exactSubtotal + exactTax, error + taxError + HALF)
  {
    assert money.cents(Plus(subtotal, money.round(tax)));
  }

  lemma TotalFrom(money: Money, service: real, exact: real, tolls: real, other: real, taxTolls: bool, rate: real, error: real)
    requires Lawful(money)
    requires money.cents(service) && money.cents(tolls) && money.cents(other) && Within(service, exact, error) && rate >= 0.0
    ensures Within(money.round(Subtotal(money, service, tolls, other) + money.round(money.times(Taxable(money, service, tolls, other, taxTolls), rate))),
                   exact + tolls + other + money.times(exact + other + (if taxTolls then tolls else 0.0), rate),
                   error + money.times(error, rate) + HALF)
  {
    SumsOfCents(money, service, tolls, other, taxTolls);
    var taxable, exactTaxable := Taxable(money, service, tolls, other, taxTolls), exact + other + (if taxTolls then tolls else 0.0);
    assert ScalesWithin(money, taxable, exactTaxable, error, rate);
    LastSum(money, service + tolls + other, money.times(taxable, rate), exact + tolls + other, money.times(exactTaxable, rate), error, money.times(error, rate));
  }

  lemma TotalOfClose(money: Money, input: FareInputs, error: real)
    requires Lawful(money)
    requires Priced(input) && PricedIn(money, input)
    requires money.cents(ServiceOf(money, input)) && Within(ServiceOf(money, input), ExactService(money, input), error)
    ensures Within(TotalOf(money, input), ExactTotal(money, input), error + money.times(error, input.taxRate) + HALF)
  {
    TotalFrom(money, ServiceOf(money, input), ExactService(money, input), input.tolls, input.otherCharges, input.taxTolls, input.taxRate, error);
  }

  /** (0.01 m + 0.005)(1 + t) + 0.005, and the nudge of each rounding. */
  function Tolerance(m: real, t: real): real { (2.0 * HALF * m + HALF) * (1.0 + t) + HALF }

  function ToleranceWith(money: Money, m: real, t: real): real {
    var error := money.times(2.0 * HALF, m) + HALF;
    error + money.times(error, t) + HALF
  }

  lemma DecimalTolerance(m: real, t: real)
    ensures ToleranceWith(DECIMAL, m, t) == Tolerance(m, t)
  {
    var error := 2.0 * HALF * m + HALF;
    assert error + error * t == error * (1.0 + t);
  }

  lemma CloseWith(money: Money, input: FareInputs)
    requires Lawful(money)
    requires Priced(input) && PricedIn(money, input)
    ensures Within(FareWith(money, input).total, ExactTotal(money, input),
                   ToleranceWith(money, FareWith(money, input).demandMultiplier, input.taxRate))
  {
    FareStages(money, input);
    ServiceClose(money, input);
    TotalOfClose(money, input, money.times(2.0 * HALF, MultiplierOf(input)) + HALF);
  }

  /** The rounded total stays within the tolerance of the unrounded formula. */
  lemma TotalClose(input: FareInputs)
    requires Priced(input) && PricedIn(DECIMAL, input)
    ensures Within(ComputeFare(input).total, ExactTotal(DECIMAL, input), Tolerance(ComputeFare(input).demandMultiplier, input.taxRate))
  {
    DecimalIsLawful();
    CloseWith(DECIMAL, input);
    DecimalTolerance(ComputeFare(input).demandMultiplier, input.taxRate);
  }
}
