/**
  The conversion engine of the EV charging calculator: current (A) to power (kW)
  and back, for single-phase and three-phase supply with power factor 1.

  √3 is irrational, so no real literal names it; every member that needs its
  value takes it as a parameter `s` and states what it needs of it (`s > 0`,
  or `IsSqrt3(s)` where the exact square matters).
 */
module Conversion {
  import opened Options

  /** Direction of the conversion. */
  datatype CalcMode = AmpToKw | KwToAmp

  /** Supply topology. */
  datatype Phase = Single | Three

  /** What the result display holds: a number, or what a division by a zero
      voltage yields (Infinity for a positive power, NaN for a zero one). */
  datatype Reading = Number(x: real) | Infinite | NotANumber

  /** `s` is the positive square root of 3. */
  ghost predicate IsSqrt3(s: real)
  {
    s > 0.0 && s * s == 3.0
  }

  /** Voltage loaded whenever the phase changes. */
  function DefaultVoltage(p: Phase): (v: real)
    ensures v == 220.0 <==> p.Single?
    ensures v == 380.0 <==> p.Three?
  {
    if p == Single then 220.0 else 380.0
  }

  /** How many times the single-phase figure a phase carries: 1 or √3. */
  function PhaseFactor(s: real, p: Phase): (k: real)
    ensures p == Single ==> k == 1.0
    ensures p == Three ==> k == s
    ensures s > 0.0 ==> k > 0.0
  {
    if p == Single then 1.0 else s
  }

  /** The input counts only when it parsed and is not negative. */
  predicate IsValidInput(input: Option<real>): (ok: bool)
    ensures ok <==> !(input.None? || input.value < 0.0)
  {
    input.Some? && input.value >= 0.0
  }

  /** The calculation effect: the settled result for the given mode, phase,
      voltage and parsed input. */
  function Compute(s: real, mode: CalcMode, phase: Phase, v: real, input: Option<real>): (r: Reading)
    ensures !IsValidInput(input) ==> r == Number(0.0)
    ensures IsValidInput(input) && mode == AmpToKw ==>
      r.Number? && r.x * 1000.0 == PhaseFactor(s, phase) * v * input.value
    ensures IsValidInput(input) && mode == KwToAmp && PhaseFactor(s, phase) * v != 0.0 ==>
      r.Number? && PhaseFactor(s, phase) * v * r.x == input.value * 1000.0
    ensures IsValidInput(input) && mode == KwToAmp && PhaseFactor(s, phase) * v == 0.0 ==>
      r == if input.value == 0.0 then NotANumber else Infinite
  {
    if input.None? || input.value < 0.0 then Number(0.0)
    else
      var x := input.value;
      match mode
      case AmpToKw =>
        if phase == Single then Number((v * x) / 1000.0)
        else Number((s * v * x) / 1000.0)
      case KwToAmp =>
        if phase == Single then Quotient(x * 1000.0, v)
        else Quotient(x * 1000.0, s * v)
  }

  /** Division of a non-negative number as the browser does it: dividing by
      zero gives NaN for 0 and Infinity otherwise. */
  function Quotient(n: real, d: real): (r: Reading)
    requires n >= 0.0
    ensures d != 0.0 ==> r.Number? && d * r.x == n
    ensures d == 0.0 ==> r == if n == 0.0 then NotANumber else Infinite
  {
    if d == 0.0 then (if n == 0.0 then NotANumber else Infinite)
    else Number(n / d)
  }

  // ---------------------------------------------------------------------------
  // Properties of the engine

  /** An unparsable or negative input gives 0 whatever the mode, phase and voltage. */
  lemma ZeroFallback(s: real, mode: CalcMode, phase: Phase, v: real, input: Option<real>)
    requires input.None? || input.value < 0.0
    ensures Compute(s, mode, phase, v, input) == Number(0.0)
  {
  }

  /** Three-phase power is exactly √3 times single-phase power for the same
      voltage and current. */
  lemma ThreePhasePowerIsScaledSingle(s: real, v: real, input: Option<real>)
    ensures Compute(s, AmpToKw, Three, v, input).Number?
    ensures Compute(s, AmpToKw, Single, v, input).Number?
    ensures Compute(s, AmpToKw, Three, v, input).x == s * Compute(s, AmpToKw, Single, v, input).x
  {
  }

  /** Three-phase current is the single-phase current divided by √3. */
  lemma ThreePhaseCurrentIsScaledSingle(s: real, v: real, input: Option<real>)
    requires s > 0.0 && v != 0.0
    ensures Compute(s, KwToAmp, Three, v, input).Number?
    ensures Compute(s, KwToAmp, Single, v, input).Number?
    ensures s * Compute(s, KwToAmp, Three, v, input).x == Compute(s, KwToAmp, Single, v, input).x
  {
  }

  /** A zero voltage makes the current undefined, as Infinity or NaN. */
  lemma ZeroVoltageCurrent(s: real, phase: Phase, input: Option<real>)
    requires IsValidInput(input)
    ensures Compute(s, KwToAmp, phase, 0.0, input) == if input.value == 0.0 then NotANumber else Infinite
  {
  }

  /** Current to power and back returns the current. */
  lemma {:induction false} RoundTripCurrent(s: real, phase: Phase, v: real, i: real)
    requires s > 0.0 && v > 0.0 && i >= 0.0
    ensures Compute(s, AmpToKw, phase, v, Some(i)).Number?
    ensures Compute(s, KwToAmp, phase, v, Some(Compute(s, AmpToKw, phase, v, Some(i)).x)) == Number(i)
  {
    var k := PhaseFactor(s, phase);
    var p := Compute(s, AmpToKw, phase, v, Some(i)).x;
    assert p == k * v * i / 1000.0;
    assert k * v > 0.0;
    assert p >= 0.0 by { NonNegProduct(k * v, i); }
    var back := Compute(s, KwToAmp, phase, v, Some(p));
    assert k * v * back.x == p * 1000.0;
    assert back.x == i by { CancelPositive(k * v, back.x, i); }
  }

  /** Power to current and back returns the power. */
  lemma {:induction false} RoundTripPower(s: real, phase: Phase, v: real, p: real)
    requires s > 0.0 && v > 0.0 && p >= 0.0
    ensures Compute(s, KwToAmp, phase, v, Some(p)).Number?
    ensures Compute(s, AmpToKw, phase, v, Some(Compute(s, KwToAmp, phase, v, Some(p)).x)) == Number(p)
  {
  }

  lemma NonNegProduct(a: real, b: real)
    requires a >= 0.0 && b >= 0.0
    ensures a * b >= 0.0
  {
  }

  lemma CancelPositive(d: real, a: real, b: real)
    requires d > 0.0 && d * a == d * b
    ensures a == b
  {
  }

  /** With a negative voltage the round trip breaks: the power comes out
      negative, and a negative input converts to 0. */
  lemma RoundTripNeedsPositiveVoltage(s: real)
    requires s > 0.0
    ensures Compute(s, KwToAmp, Single, -220.0, Some(Compute(s, AmpToKw, Single, -220.0, Some(32.0)).x)) == Number(0.0)
  {
  }

  /** For a non-negative voltage the power is never negative and never
      decreases as the current grows. */
  lemma {:induction false} PowerMonotone(s: real, phase: Phase, v: real, a: real, b: real)
    requires s > 0.0 && v >= 0.0 && a <= b
    ensures Compute(s, AmpToKw, phase, v, Some(a)).Number?
    ensures Compute(s, AmpToKw, phase, v, Some(b)).Number?
    ensures 0.0 <= Compute(s, AmpToKw, phase, v, Some(a)).x <= Compute(s, AmpToKw, phase, v, Some(b)).x
  {
    var k := PhaseFactor(s, phase);
    assert k * v >= 0.0;
    if a >= 0.0 {
      NonNegProduct(k * v, a);
      NonNegProduct(k * v, b - a);
      assert k * v * b == k * v * a + k * v * (b - a);
    } else if b >= 0.0 {
      NonNegProduct(k * v, b);
    }
  }

  // ---------------------------------------------------------------------------
  // Worked figures

  /** √3 lies between 1.7320 and 1.7321. */
  lemma Sqrt3Bounds(s: real)
    requires IsSqrt3(s)
    ensures 1.7320 < s < 1.7321
  {
  }

  /** 32 A on 220 V single phase is 7.04 kW. */
  lemma SinglePhasePowerFigure(s: real)
    ensures Compute(s, AmpToKw, Single, 220.0, Some(32.0)) == Number(7.04)
  {
  }

  /** 7.04 kW on 220 V single phase is 32 A. */
  lemma SinglePhaseCurrentFigure(s: real)
    ensures Compute(s, KwToAmp, Single, 220.0, Some(7.04)) == Number(32.0)
  {
  }

  /** 32 A on 380 V three phase is between 21.061 and 21.063 kW. */
  lemma ThreePhasePowerFigure(s: real)
    requires IsSqrt3(s)
    ensures Compute(s, AmpToKw, Three, 380.0, Some(32.0)).Number?
    ensures 21.061 < Compute(s, AmpToKw, Three, 380.0, Some(32.0)).x < 21.063
  {
    Sqrt3Bounds(s);
    assert Compute(s, AmpToKw, Three, 380.0, Some(32.0)).x == 12.16 * s;
  }

  /** 22 kW on 380 V three phase is between 33.42 and 33.43 A. */
  lemma ThreePhaseCurrentFigure(s: real)
    requires IsSqrt3(s)
    ensures Compute(s, KwToAmp, Three, 380.0, Some(22.0)).Number?
    ensures 33.42 < Compute(s, KwToAmp, Three, 380.0, Some(22.0)).x < 33.43
  {
  }
}
