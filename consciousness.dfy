/**
 * The consciousness dial (src/ConsciousnessController.js): a value in
 * [-1, 1] moved by ±0.1 per key press, rounded to tenths and saturated.
 * The value is held as a whole number of tenths, `tenths / 10`.
 */
module Consciousness {
  import opened Wrappers
  import opened JsMath

  /** The size of one key press. */
  const Step: real := 0.1

  /** The bounds of the dial, in tenths. */
  const Lowest: int := -10
  const Highest: int := 10

  /**
   * changeValue's rule on plain numbers: add the delta, round to the
   * nearest tenth (halves upwards), then saturate to [-1, 1].
   */
  function ChangedValue(value: real, delta: real): (r: real)
    ensures -1.0 <= r <= 1.0
  {
    ClampReal(Round((value + delta) * 10.0) as real / 10.0, -1.0, 1.0)
  }

  /** changeValue on a dial holding `tenths` tenths. */
  function Stepped(tenths: int, delta: real): (r: int)
    ensures Lowest <= r <= Highest
  {
    ClampInt(Round((tenths as real / 10.0 + delta) * 10.0), Lowest, Highest)
  }

  /** Counting in tenths is exact: the source's formula gives the same value. */
  lemma SteppedMatchesFormula(tenths: int, delta: real)
    ensures ChangedValue(tenths as real / 10.0, delta) == Stepped(tenths, delta) as real / 10.0
  {
    var r := Round((tenths as real / 10.0 + delta) * 10.0);
    if r > Highest {
      assert r as real / 10.0 > 1.0;
    } else if r < Lowest {
      assert r as real / 10.0 < -1.0;
    }
  }

  /** One press up adds a tenth, saturating at 1; one press down takes one away, saturating at -1. */
  lemma PressMovesOneTenth(tenths: int)
    requires Lowest <= tenths <= Highest
    ensures Stepped(tenths, Step) == if tenths < Highest then tenths + 1 else Highest
    ensures Stepped(tenths, -Step) == if tenths > Lowest then tenths - 1 else Lowest
  {
    assert (tenths as real / 10.0 + Step) * 10.0 == (tenths + 1) as real;
    assert (tenths as real / 10.0 - Step) * 10.0 == (tenths - 1) as real;
  }

  /** At the ends the dial does not move further out. */
  lemma Saturates()
    ensures Stepped(Highest, Step) == Highest
    ensures Stepped(Lowest, -Step) == Lowest
  {
    PressMovesOneTenth(Highest);
    PressMovesOneTenth(Lowest);
  }

  /** Away from the top, a press up then a press down restores the value; likewise down then up. */
  lemma UpDownRestores(tenths: int)
    requires Lowest <= tenths <= Highest
    ensures tenths < Highest ==> Stepped(Stepped(tenths, Step), -Step) == tenths
    ensures tenths > Lowest ==> Stepped(Stepped(tenths, -Step), Step) == tenths
  {
    PressMovesOneTenth(tenths);
    if tenths < Highest {
      PressMovesOneTenth(tenths + 1);
    }
    if tenths > Lowest {
      PressMovesOneTenth(tenths - 1);
    }
  }

  /** The change a key asks for: up arrow or w raise, down arrow or s lower. */
  function KeyDelta(key: string): (d: Option<real>)
    ensures key == "ArrowUp" || key == "w" ==> d == Some(Step)
    ensures key == "ArrowDown" || key == "s" ==> d == Some(-Step)
    ensures d.None? <==> key !in {"ArrowUp", "w", "ArrowDown", "s"}
  {
    if key == "ArrowUp" || key == "w" then Some(Step)
    else if key == "ArrowDown" || key == "s" then Some(-Step)
    else None
  }

  class ConsciousnessController {
    /** The value, in tenths. */
    var tenths: int

    ghost predicate Valid()
      reads this
    {
      Lowest <= tenths <= Highest
    }

    /** The dial starts at 0. */
    constructor ()
      ensures Valid() && GetValue() == 0.0
    {
      tenths := 0;
    }

    /** getValue: the value in [-1, 1]. */
    function GetValue(): (v: real)
      reads this
      requires Valid()
      ensures -1.0 <= v <= 1.0
      ensures v * 10.0 == tenths as real
    {
      tenths as real / 10.0
    }

    /** changeValue: add, round to tenths, saturate. */
    method ChangeValue(delta: real)
      modifies this
      ensures Valid()
      ensures tenths == Stepped(old(tenths), delta)
      ensures GetValue() == ChangedValue(old(tenths) as real / 10.0, delta)
    {
      var newValue := Round((tenths as real / 10.0 + delta) * 10.0);
      tenths := if newValue < Lowest then Lowest else if newValue > Highest then Highest else newValue;
      SteppedMatchesFormula(old(tenths), delta);
    }

    /** The key listener: each of the two tests applies its step. */
    method OnKeyDown(key: string)
      modifies this
      ensures KeyDelta(key).None? ==> tenths == old(tenths)
      ensures KeyDelta(key).Some? ==> tenths == Stepped(old(tenths), KeyDelta(key).value)
    {
      if key == "ArrowUp" || key == "w" {
        ChangeValue(Step);
      }
      if key == "ArrowDown" || key == "s" {
        ChangeValue(-Step);
      }
    }

    /** update: the dial moves only on key presses, so a frame leaves it alone. */
    method Update()
      ensures tenths == old(tenths)
    {
    }
  }
}
