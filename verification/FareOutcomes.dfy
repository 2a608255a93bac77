/** Every part of a fare, from the price list and the trip. */
module FareOutcomes {
  import opened Numbers
  import opened Fare

  /** To the nearest cent, and left alone when it is whole cents. */
  predicate NearestCent(rounded: real, exact: real) {
    IsCents(rounded) && Within(rounded, exact, HALF) && (IsCents(exact) ==> rounded == exact)
  }

  lemma RoundsToNearest(x: real)
    ensures NearestCent(RoundCents(x), x)
  {
    RoundGivesCents(x);
    if IsCents(x) { RoundLeavesCents(x); }
  }

  /** The distance and the time are priced apart, and the base adds them to the start
      and the running cost. */
  lemma TripIsPriced(input: FareInputs)
    ensures var fare := ComputeFare(input);
            && NearestCent(fare.distanceAmount, Times(input.distanceKm, input.pricePerKm))
            && NearestCent(fare.durationAmount, Times(input.durationMin, input.pricePerMinute))
            && NearestCent(fare.operatingCost, input.operatingCost)
            && NearestCent(fare.variableBase, input.baseFare + fare.distanceAmount + fare.durationAmount + fare.operatingCost)
  {
    RoundsToNearest(Times(input.distanceKm, input.pricePerKm));
    RoundsToNearest(Times(input.durationMin, input.pricePerMinute));
    RoundsToNearest(input.operatingCost);
    var fare := ComputeFare(input);
    RoundsToNearest(input.baseFare + fare.distanceAmount + fare.durationAmount + fare.operatingCost);
  }

  /** The larger of two amounts. */
  predicate Larger(result: real, a: real, b: real) { (result == a || result == b) && result >= a && result >= b }

  /** The minimum fare holds before and after demand, which never makes it cheaper.
      The fare says whether the minimum is what is charged. */
  lemma ServiceIsPriced(input: FareInputs)
    ensures var fare := ComputeFare(input);
            var minimum, raised := RoundCents(input.minimumFare), Times(fare.variableBase, fare.demandMultiplier);
            && Larger(fare.demandMultiplier, 1.0, input.demandMultiplier)
            && Larger(fare.serviceBeforeDemand, minimum, fare.variableBase)
            && Larger(fare.serviceFare, minimum, RoundCents(raised))
            && NearestCent(fare.demandAmount, fare.serviceFare - fare.serviceBeforeDemand)
            && (fare.minimumApplied <==> fare.serviceFare == minimum && raised < minimum)
  {
    var fare := ComputeFare(input);
    RoundsToNearest(fare.serviceFare - fare.serviceBeforeDemand);
  }

  /** The bill adds up: the service, the tolls and the charges, and the tax on what is
      taxed of them. */
  lemma BillAddsUp(input: FareInputs)
    ensures var fare := ComputeFare(input);
            && NearestCent(fare.tolls, input.tolls) && NearestCent(fare.otherCharges, input.otherCharges)
            && NearestCent(fare.subtotal, fare.serviceFare + fare.tolls + fare.otherCharges)
            && NearestCent(fare.taxableBase, fare.serviceFare + fare.otherCharges + (if input.taxTolls then fare.tolls else 0.0))
            && NearestCent(fare.taxAmount, Times(fare.taxableBase, input.taxRate))
            && NearestCent(fare.total, fare.subtotal + fare.taxAmount)
  {
    var fare := ComputeFare(input);
    RoundsToNearest(input.tolls);
    RoundsToNearest(input.otherCharges);
    RoundsToNearest(fare.serviceFare + fare.tolls + fare.otherCharges);
    RoundsToNearest(fare.serviceFare + fare.otherCharges + (if input.taxTolls then fare.tolls else 0.0));
    RoundsToNearest(Times(fare.taxableBase, input.taxRate));
    RoundsToNearest(fare.subtotal + fare.taxAmount);
  }

  /** Whole cents add up to whole cents, so subtotal, base and total are exact. */
  lemma SumsAreExact(input: FareInputs)
    ensures var fare := ComputeFare(input);
            && fare.subtotal == fare.serviceFare + fare.tolls + fare.otherCharges
            && fare.taxableBase == fare.serviceFare + fare.otherCharges + (if input.taxTolls then fare.tolls else 0.0)
            && fare.total == fare.subtotal + fare.taxAmount
  {
    BillAddsUp(input);
    ServiceIsCents(input);
    var fare := ComputeFare(input);
    CentsSum(fare.serviceFare, fare.tolls, fare.otherCharges, fare.subtotal);
    CentsSum(fare.serviceFare, fare.otherCharges, if input.taxTolls then fare.tolls else 0.0, fare.taxableBase);
    CentsSum(fare.subtotal, fare.taxAmount, 0.0, fare.total);
  }

  lemma CentsSum(x: real, y: real, z: real, rounded: real)
    requires IsCents(x) && IsCents(y) && (IsCents(z) || z == 0.0) && NearestCent(rounded, x + y + z)
    ensures rounded == x + y + z
  {
    CentsAdd(x, y);
    if z != 0.0 { CentsAdd(x + y, z); }
  }

  lemma ServiceIsCents(input: FareInputs)
    ensures IsCents(ComputeFare(input).serviceFare)
  {
    ServiceIsPriced(input);
    RoundsToNearest(input.minimumFare);
    RoundsToNearest(Times(ComputeFare(input).variableBase, ComputeFare(input).demandMultiplier));
  }

  /** Half a cent goes away from zero on either side. */
  lemma HalvesGoAway(cents: nat)
    ensures RoundCents((cents as real + 0.5) / 100.0) == (cents as real + 1.0) / 100.0
    ensures RoundCents(-((cents as real + 0.5) / 100.0)) == -((cents as real + 1.0) / 100.0)
  {
    var x := (cents as real + 0.5) / 100.0;
    assert x * 100.0 == cents as real + 0.5;
    assert Round(x * 100.0 + NUDGE) == cents + 1;
  }
}
