/** Facts about the pricing formula: table, factors, bounds, monotonicity, ties. */
module PricingProperties {
  import opened Pricing

  /** The chain of reassignments is exactly a lookup in the rate table with a 50 fallback. */
  lemma BaseRateIsTableLookup(service: string)
    ensures BaseRate(service) == (if service in RateTable then RateTable[service] else FallbackRate)
    ensures service == AiAutomation ==> BaseRate(service) == 180
    ensures service == SystemOverhaul ==> BaseRate(service) == 280
    ensures service == Coaching ==> BaseRate(service) == 120
    ensures service == TechSupport ==> BaseRate(service) == 50
  {
    assert RateTable.Keys == {TechSupport, AiAutomation, SystemOverhaul, Coaching};
  }

  /** The complexity multiplier is 1, 1.6, 2.2, 2.8 for the four levels. */
  lemma ComplexityMultipliers()
    ensures seq(4, j => ComplexityTenths(j + 1)) == [10, 16, 22, 28]
  {
  }

  /** The urgency factor is 7/4 exactly for "emergency" and 1 for every other string. */
  lemma UrgencyFactor(urgency: string)
    ensures UrgencyQuarters(urgency) == 7 <==> urgency == Emergency
    ensures UrgencyQuarters(urgency) == 4 <==> urgency != Emergency
  {
  }

  /** `Math.round` has exactly one answer: the rounding relation determines the result. */
  lemma RoundHalfUpUnique(r1: int, r2: int, num: int, den: int)
    requires den > 0
    requires IsRoundHalfUp(r1, num, den) && IsRoundHalfUp(r2, num, den)
    ensures r1 == r2
  {
    if r1 < r2 {
      MulMonotone(den, 2 * r1 + 1, 2 * r2 - 1);
    } else if r2 < r1 {
      MulMonotone(den, 2 * r2 + 1, 2 * r1 - 1);
    }
  }

  lemma MulMonotone(k: int, a: int, b: int)
    requires k > 0 && a <= b
    ensures k * a <= k * b
  {
    assert k * b - k * a == k * (b - a);
  }

  /** Rounding is monotone, and strictly so when the numerators differ by at least one unit. */
  lemma RoundHalfUpMonotone(n1: int, n2: int, den: int)
    requires den > 0 && n1 <= n2
    ensures RoundHalfUp(n1, den) <= RoundHalfUp(n2, den)
    ensures n2 - n1 >= den ==> RoundHalfUp(n1, den) < RoundHalfUp(n2, den)
  {
    var r1, r2 := RoundHalfUp(n1, den), RoundHalfUp(n2, den);
    if r2 < r1 {
      MulMonotone(den, 2 * r2 + 1, 2 * r1 - 1);
    }
    if n2 - n1 >= den && r2 <= r1 {
      MulMonotone(den, 2 * r2 + 1, 2 * r1 + 1);
    }
  }

  /** Normal urgency never needs rounding: the estimate is exactly the subtotal. */
  lemma NormalPriceIsExact(i: Inputs)
    requires i.urgency != Emergency
    ensures 10 * Price(i) == SubtotalTenths(i)
    ensures ScaledPrice(i) == Scale * Price(i)
  {
    var b := BaseRate(i.service);
    var m := (b / 10) * ComplexityTenths(i.complexity) + DeviceSurcharge(i.devices);
    assert b == 10 * (b / 10);
    assert SubtotalTenths(i) == 10 * m;
    assert ScaledPrice(i) == Scale * m;
    assert IsRoundHalfUp(m, ScaledPrice(i), Scale);
    RoundHalfUpUnique(m, Price(i), ScaledPrice(i), Scale);
  }

  /** The exact value sits on a half: `Math.round` has to break a tie. */
  predicate IsTie(i: Inputs) {
    ScaledPrice(i) % Scale == Scale / 2
  }

  /** Ties, the only place the floating-point computation might round the other way, need emergency urgency. */
  lemma TiesOnlyInEmergency(i: Inputs)
    ensures IsTie(i) ==> i.urgency == Emergency
  {
    if i.urgency != Emergency {
      NormalPriceIsExact(i);
    }
  }

  /** A tie that occurs in range: system-overhaul, c=4, d=15, emergency is exactly 2229.5 and shows 2230. */
  lemma TieExample()
    ensures var i := Inputs(SystemOverhaul, 4, 15, Emergency);
            Valid(i) && IsTie(i) && 2 * ScaledPrice(i) == Scale * (2 * 2229 + 1) && Price(i) == 2230
  {
  }

  /** The widget's defaults give 80, and five worked examples price as expected. */
  lemma Scenarios()
    ensures Price(Defaults) == 80
    ensures Price(Inputs(TechSupport, 1, 1, Normal)) == 50
    ensures Price(Inputs(AiAutomation, 2, 1, Normal)) == 288
    ensures Price(Inputs(SystemOverhaul, 4, 3, Normal)) == 854
    ensures Price(Inputs(Coaching, 3, 1, Emergency)) == 462
    ensures Price(Inputs(TechSupport, 1, 15, Normal)) == 540
  {
  }

  /** From complexity 1 and one device up the estimate never falls below the service's base rate, hence never below 50. */
  lemma PriceAtLeastBase(i: Inputs)
    requires i.complexity >= MinComplexity && i.devices >= MinDevices
    ensures Price(i) >= BaseRate(i.service) >= FallbackRate
  {
    var b := BaseRate(i.service);
    var floor := Inputs(i.service, 1, 1, Normal);
    NormalPriceIsExact(floor);
    assert SubtotalTenths(i) >= SubtotalTenths(floor) by {
      MulMonotone(b, ComplexityTenths(1), ComplexityTenths(i.complexity));
    }
    assert SubtotalTenths(i) >= 0;
    MulMonotone(SubtotalTenths(i) + 1, 4, UrgencyQuarters(i.urgency));
    assert ScaledPrice(floor) <= ScaledPrice(i) by {
      MulMonotone(4, SubtotalTenths(floor), SubtotalTenths(i));
    }
    RoundHalfUpMonotone(ScaledPrice(floor), ScaledPrice(i), Scale);
  }

  /** The smallest job (one device, minimal complexity, normal urgency) costs exactly the base rate. */
  lemma MinimalJobCostsBase(service: string)
    ensures Price(Inputs(service, MinComplexity, MinDevices, Normal)) == BaseRate(service)
  {
    NormalPriceIsExact(Inputs(service, MinComplexity, MinDevices, Normal));
  }

  /** Raising the complexity, all else fixed, strictly raises the estimate. */
  lemma PriceIncreasesWithComplexity(i: Inputs, higher: int)
    requires i.complexity < higher
    ensures Price(i) < Price(i.(complexity := higher))
  {
    var j := i.(complexity := higher);
    var b, k := BaseRate(i.service), UrgencyQuarters(i.urgency);
    var delta := higher - i.complexity;
    assert SubtotalTenths(j) - SubtotalTenths(i) == b * 6 * delta;
    assert ScaledPrice(j) - ScaledPrice(i) == (b * 6 * delta) * k;
    MulMonotone(b * 6, 1, delta);
    MulMonotone(k, 300, b * 6 * delta);
    RoundHalfUpMonotone(ScaledPrice(i), ScaledPrice(j), Scale);
  }

  /** Adding devices, all else fixed, strictly raises the estimate. */
  lemma PriceIncreasesWithDevices(i: Inputs, more: int)
    requires i.devices < more
    ensures Price(i) < Price(i.(devices := more))
  {
    var j := i.(devices := more);
    var k := UrgencyQuarters(i.urgency);
    var delta := more - i.devices;
    assert SubtotalTenths(j) - SubtotalTenths(i) == 350 * delta;
    assert ScaledPrice(j) - ScaledPrice(i) == (350 * delta) * k;
    MulMonotone(k, 350, 350 * delta);
    RoundHalfUpMonotone(ScaledPrice(i), ScaledPrice(j), Scale);
  }

  /** From complexity 1 and one device up an emergency job costs strictly more than the same job at normal urgency. */
  lemma EmergencyCostsMore(i: Inputs)
    requires i.complexity >= MinComplexity && i.devices >= MinDevices
    ensures Price(i.(urgency := Normal)) < Price(i.(urgency := Emergency))
  {
    var n, e := i.(urgency := Normal), i.(urgency := Emergency);
    var s := SubtotalTenths(i);
    assert SubtotalTenths(n) == s && SubtotalTenths(e) == s;
    MulMonotone(BaseRate(i.service), 10, ComplexityTenths(i.complexity));
    assert s >= 500;
    RoundHalfUpMonotone(ScaledPrice(n), ScaledPrice(e), Scale);
  }
}
