/**
  The pricing formula of the cost-estimator widget (components/CostEstimator.tsx).

  The widget computes in floating point with the decimal constants 0.6, 0.4 and
  1.75. This module computes the same quantity exactly over the integers:

    * the pre-urgency subtotal is kept in tenths of a dollar
      (`SubtotalTenths = base * (6c + 4) + 350 * (d - 1)`),
    * the urgency factor is kept in quarters (4 for normal, 7 for emergency),

  so forty times the exact estimate is `SubtotalTenths * UrgencyQuarters`, and the
  displayed whole-dollar figure is `Math.round` of that quantity divided by 40.
 */
module Pricing {

  /** The service ids the four category buttons set. */
  const TechSupport: string := "tech-support"
  const AiAutomation: string := "ai-automation"
  const SystemOverhaul: string := "system-overhaul"
  const Coaching: string := "coaching"
  const ServiceIds: seq<string> := [TechSupport, AiAutomation, SystemOverhaul, Coaching]

  /** The two urgency values the urgency buttons set. */
  const Normal: string := "normal"
  const Emergency: string := "emergency"

  /** Ranges enforced by the controls: four complexity buttons, a 1..15 range slider. */
  const MinComplexity: int := 1
  const MaxComplexity: int := 4
  const MinDevices: int := 1
  const MaxDevices: int := 15

  /** Base rate of any service id that is not matched explicitly. */
  const FallbackRate: nat := 50
  /** Surcharge per device beyond the first. */
  const DeviceRate: nat := 35
  /** Forty times the estimate is an integer: tenths (subtotal) times quarters (urgency). */
  const Scale: nat := 40

  /** The four inputs of one computation, one per piece of React state. */
  datatype Inputs = Inputs(service: string, complexity: int, devices: int, urgency: string)

  /** The initial state of the widget. */
  const Defaults: Inputs := Inputs(TechSupport, 2, 1, Normal)

  /** The numeric inputs lie in the ranges the controls allow. */
  predicate InRange(i: Inputs) {
    && MinComplexity <= i.complexity <= MaxComplexity
    && MinDevices <= i.devices <= MaxDevices
  }

  /** Every input is one the controls can produce. */
  predicate Valid(i: Inputs) {
    && InRange(i)
    && i.service in ServiceIds
    && (i.urgency == Normal || i.urgency == Emergency)
  }

  /** Explicit rate table of the four offered services. */
  const RateTable: map<string, nat> :=
    map[TechSupport := 50, AiAutomation := 180, SystemOverhaul := 280, Coaching := 120]

  /**
    The base rate, written as the widget writes it: start from the fallback and
    let each matching comparison overwrite it.
   */
  function BaseRate(service: string): (r: nat)
    ensures r >= FallbackRate
    ensures r % 10 == 0
    ensures r == FallbackRate <==> service != AiAutomation && service != SystemOverhaul && service != Coaching
  {
    var base0 := FallbackRate;
    var base1 := if service == AiAutomation then 180 else base0;
    var base2 := if service == SystemOverhaul then 280 else base1;
    var base3 := if service == Coaching then 120 else base2;
    base3
  }

  /** Ten times the complexity multiplier `complexity * 0.6 + 0.4`. */
  function ComplexityTenths(complexity: int): (r: int)
    ensures r as real == 10.0 * (complexity as real * 0.6 + 0.4)
  {
    6 * complexity + 4
  }

  /** The device addition `(devices - 1) * 35`. */
  function DeviceSurcharge(devices: int): (r: int)
    ensures r == 0 <==> devices == 1
    ensures devices >= MinDevices ==> r >= 0
    ensures devices > MinDevices ==> r >= DeviceRate
  {
    (devices - 1) * DeviceRate
  }

  /** Four times the urgency multiplier: 1.75 for emergency, 1 for anything else. */
  function UrgencyQuarters(urgency: string): (r: int)
    ensures r as real == 4.0 * (if urgency == Emergency then 1.75 else 1.0)
  {
    if urgency == Emergency then 7 else 4
  }

  /** Ten times the pre-urgency subtotal `base * complexityMultiplier + deviceAddition`. */
  function SubtotalTenths(i: Inputs): (r: int)
    ensures r as real == 10.0 * SourceSubtotal(i)
  {
    BaseRate(i.service) * ComplexityTenths(i.complexity) + 10 * DeviceSurcharge(i.devices)
  }

  /**
    The widget's own expressions evaluated in exact reals, with its decimal
    constants 0.6, 0.4, 35 and 1.75: the subtotal before urgency ...
   */
  function SourceSubtotal(i: Inputs): real {
    BaseRate(i.service) as real * (i.complexity as real * 0.6 + 0.4) + ((i.devices - 1) * 35) as real
  }

  /** ... and the value handed to `Math.round`. */
  function SourceValue(i: Inputs): real {
    SourceSubtotal(i) * (if i.urgency == Emergency then 1.75 else 1.0)
  }

  /** Forty times the exact (unrounded) estimate. */
  function ScaledPrice(i: Inputs): (r: int)
    ensures r as real == Scale as real * SourceValue(i)
  {
    SubtotalTenths(i) * UrgencyQuarters(i.urgency)
  }

  /**
    `r` is `num / den` rounded to the nearest integer with halves rounded up,
    which is what `Math.round` does for every sign: `r - 1/2 <= num/den < r + 1/2`.
   */
  predicate IsRoundHalfUp(r: int, num: int, den: int)
    requires den > 0
  {
    den * (2 * r - 1) <= 2 * num < den * (2 * r + 1)
  }

  /** `Math.round(num / den)` in integer arithmetic: `floor(num / den + 1/2)`. */
  function RoundHalfUp(num: int, den: int): (r: int)
    requires den > 0
    ensures IsRoundHalfUp(r, num, den)
  {
    var q := (2 * num + den) / (2 * den);
    assert 2 * den * q <= 2 * num + den < 2 * den * q + 2 * den;
    assert den * (2 * q - 1) == 2 * den * q - den;
    assert den * (2 * q + 1) == 2 * den * q + den;
    q
  }

  /** The estimate the widget stores after its timer fires. */
  function Price(i: Inputs): (r: int)
    ensures IsRoundHalfUp(r, ScaledPrice(i), Scale)
    ensures r as real - 0.5 <= SourceValue(i) < r as real + 0.5
  {
    RoundHalfUp(ScaledPrice(i), Scale)
  }
}
