/**
  The calculator session: the five pieces of component state, the user
  actions that change them, and the two effects that keep the derived
  voltage and result up to date. Every action leaves the state settled, that
  is, as it is once the effects have re-run and nothing is left to re-render.
 */
module Session {
  import opened Options
  import opened Conversion
  import opened ReferenceTable

  /** What the model needs of the browser's parseFloat: the empty text is not
      a number, and a string of decimal digits denotes its decimal value. */
  ghost predicate ParsesLikeParseFloat(parse: string -> Option<real>)
  {
    && parse("") == None
    && forall t :: t != [] && IsDigits(t) ==> parse(t) == Some(DigitsValue(t) as real)
  }

  class Calculator {
    /** The number parser applied to the input text. */
    const parse: string -> Option<real>
    /** The square root of 3 used by the three-phase formulas. */
    const sqrt3: real

    var calcMode: CalcMode
    var phaseMode: Phase
    var voltage: real
    var inputVal: string
    var result: Reading

    /** The result holds no state of its own: it is always the conversion of
        the other four fields. */
    ghost predicate Valid()
      reads this
    {
      && IsSqrt3(sqrt3)
      && ParsesLikeParseFloat(parse)
      && result == Compute(sqrt3, calcMode, phaseMode, voltage, parse(inputVal))
    }

    /** The state after the component mounts and its effects have run once. */
    constructor (parse: string -> Option<real>, sqrt3: real)
      requires IsSqrt3(sqrt3) && ParsesLikeParseFloat(parse)
      ensures Valid() && this.parse == parse && this.sqrt3 == sqrt3
      ensures calcMode == AmpToKw && phaseMode == Single && voltage == 220.0 && inputVal == ""
      ensures result == Number(0.0)
    {
      this.parse := parse;
      this.sqrt3 := sqrt3;
      calcMode := AmpToKw;
      phaseMode := Single;
      voltage := 220.0;
      inputVal := "";
      result := Number(0.0);
      new;
      ApplyPhaseDefault();
      Recompute();
    }

    /** The phase effect: load the phase's default voltage and clear the result. */
    method ApplyPhaseDefault()
      modifies this`voltage, this`result
      ensures voltage == DefaultVoltage(phaseMode)
      ensures result == Number(0.0)
    {
      if phaseMode == Single {
        voltage := 220.0;
      } else {
        voltage := 380.0;
      }
      result := Number(0.0);
    }

    /** The calculation effect, step by step. */
    method Recompute()
      modifies this`result
      ensures result == Compute(sqrt3, calcMode, phaseMode, voltage, parse(inputVal))
    {
      var val := parse(inputVal);
      if val.None? || val.value < 0.0 {
        result := Number(0.0);
        return;
      }
      var calculated := Number(0.0);
      var v := voltage;
      if calcMode == AmpToKw {
        if phaseMode == Single {
          calculated := Number((v * val.value) / 1000.0);
        } else {
          calculated := Number((sqrt3 * v * val.value) / 1000.0);
        }
      } else {
        if phaseMode == Single {
          calculated := Quotient(val.value * 1000.0, v);
        } else {
          calculated := Quotient(val.value * 1000.0, sqrt3 * v);
        }
      }
      result := calculated;
    }

    /** A click on one of the two mode tabs. */
    method SetCalcMode(m: CalcMode)
      requires Valid()
      modifies this
      ensures Valid()
      ensures calcMode == m
      ensures phaseMode == old(phaseMode) && voltage == old(voltage) && inputVal == old(inputVal)
    {
      calcMode := m;
      Recompute();
    }

    /** A click on one of the two phase buttons. Choosing the phase already
        selected changes nothing, because the phase effect only runs when
        the phase changes; choosing the other phase loads its default
        voltage, and the result is then recomputed for it. */
    method SetPhase(p: Phase)
      requires Valid()
      modifies this
      ensures Valid()
      ensures phaseMode == p
      ensures voltage == if p != old(phaseMode) then DefaultVoltage(p) else old(voltage)
      ensures calcMode == old(calcMode) && inputVal == old(inputVal)
      ensures result == Compute(sqrt3, calcMode, p, voltage, parse(inputVal))
    {
      if p != phaseMode {
        phaseMode := p;
        ApplyPhaseDefault();
        Recompute();
      }
    }

    /** An edit of the voltage field (its text already read as a number). */
    method SetVoltage(v: real)
      requires Valid()
      modifies this
      ensures Valid()
      ensures voltage == v
      ensures calcMode == old(calcMode) && phaseMode == old(phaseMode) && inputVal == old(inputVal)
    {
      voltage := v;
      Recompute();
    }

    /** An edit of the input field. */
    method SetInput(text: string)
      requires Valid()
      modifies this
      ensures Valid()
      ensures inputVal == text
      ensures calcMode == old(calcMode) && phaseMode == old(phaseMode) && voltage == old(voltage)
    {
      inputVal := text;
      Recompute();
    }

    /** A click on a reference row: its phase, current-to-power mode and its
        stripped current are set together; the voltage is reset only when
        the phase actually changes. */
    method SelectReference(row: Reference)
      requires Valid()
      modifies this
      ensures Valid()
      ensures phaseMode == PhaseOfLabel(row.phase)
      ensures calcMode == AmpToKw
      ensures inputVal == Strip(row.current)
      ensures voltage == if phaseMode != old(phaseMode) then DefaultVoltage(phaseMode) else old(voltage)
    {
      var p := PhaseOfLabel(row.phase);
      var changed := p != phaseMode;
      phaseMode := p;
      calcMode := AmpToKw;
      inputVal := Strip(row.current);
      if changed {
        ApplyPhaseDefault();
      }
      Recompute();
    }
  }

  // ---------------------------------------------------------------------------
  // Sessions

  /** parseFloat reads "32" as 32. */
  lemma ParseThirtyTwo(parse: string -> Option<real>)
    requires ParsesLikeParseFloat(parse)
    ensures parse("32") == Some(32.0)
  {
    assert IsDigits("32");
    assert "32"[..1] == "3" && "3"[..0] == "";
    assert DigitsValue("32") == 32;
  }

  /** Clicking 三相快速 (32A) on a fresh calculator selects three phase,
      current to power, 380 V and 32 A, and shows between 21.061 and 21.063 kW. */
  method SelectFastThreePhaseRow(parse: string -> Option<real>, s: real)
    returns (mode: CalcMode, phase: Phase, v: real, input: string, r: Reading)
    requires IsSqrt3(s) && ParsesLikeParseFloat(parse)
    ensures mode == AmpToKw && phase == Three && v == 380.0 && input == "32"
    ensures r.Number? && 21.061 < r.x < 21.063
  {
    var c := new Calculator(parse, s);
    TableCurrents();
    c.SelectReference(References()[4]);
    ParseThirtyTwo(parse);
    ThreePhasePowerFigure(s);
    mode, phase, v, input, r := c.calcMode, c.phaseMode, c.voltage, c.inputVal, c.result;
  }

  /** After the user edits the voltage, a row of the phase already selected
      keeps that voltage: 32 A at 230 V single phase is 7.36 kW. */
  method SelectSamePhaseRowKeepsVoltage(parse: string -> Option<real>, s: real)
    returns (v: real, r: Reading)
    requires IsSqrt3(s) && ParsesLikeParseFloat(parse)
    ensures v == 230.0 && r == Number(7.36)
  {
    var c := new Calculator(parse, s);
    c.SetVoltage(230.0);
    TableCurrents();
    c.SelectReference(References()[2]);
    ParseThirtyTwo(parse);
    v, r := c.voltage, c.result;
  }

  /** Switching phase with an input entered does not leave the result at 0:
      32 A shows 7.04 kW on single phase and, after switching to three
      phase, between 21.061 and 21.063 kW at the new default of 380 V. */
  method SwitchPhaseRecomputes(parse: string -> Option<real>, s: real)
    returns (before: Reading, after: Reading, v: real)
    requires IsSqrt3(s) && ParsesLikeParseFloat(parse)
    ensures before == Number(7.04)
    ensures v == 380.0 && after.Number? && 21.061 < after.x < 21.063
  {
    var c := new Calculator(parse, s);
    c.SetInput("32");
    ParseThirtyTwo(parse);
    SinglePhasePowerFigure(s);
    before := c.result;
    c.SetPhase(Three);
    ThreePhasePowerFigure(s);
    after, v := c.result, c.voltage;
  }
}
