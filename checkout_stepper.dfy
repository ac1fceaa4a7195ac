/**
 * The checkout progress bar: three step icons (shipping, payment, success)
 * with a run of five dots between neighbours. A step is lit once the current
 * step has reached it; a dot run is lit once the step after it is reached.
 */
module CheckoutStepper {

  datatype Tint = White | Grey

  datatype Segment = StepIcon(step: nat, active: bool) | DotRun(dots: seq<Tint>)

  /** `renderStepIcon`: step `step` is lit iff the current step is at least `step`. */
  function StepActive(currentStep: int, step: nat): (active: bool)
    ensures active <==> step <= currentStep
  {
    currentStep >= step
  }

  /** `renderDots`: five dots, all white when lit and all grey otherwise. */
  function Dots(active: bool): (dots: seq<Tint>)
    ensures |dots| == 5
    ensures forall i :: 0 <= i < 5 ==> dots[i] == (if active then White else Grey)
  {
    seq(5, _ => if active then White else Grey)
  }

  /** The bar left to right: icon 1, dots, icon 2, dots, icon 3. */
  function Bar(currentStep: int): (bar: seq<Segment>)
    ensures |bar| == 5
    ensures forall i :: 0 <= i < 5 && i % 2 == 0 ==> bar[i].StepIcon? && bar[i].step == i / 2 + 1
    ensures forall i :: 0 <= i < 5 && i % 2 == 1 ==> bar[i].DotRun?
    ensures forall i :: 0 <= i < 5 && i % 2 == 0 ==> bar[i].active == StepActive(currentStep, i / 2 + 1)
    ensures bar[1] == DotRun(Dots(currentStep >= 2)) && bar[3] == DotRun(Dots(currentStep >= 3))
  {
    [StepIcon(1, StepActive(currentStep, 1)),
     DotRun(Dots(currentStep >= 2)),
     StepIcon(2, StepActive(currentStep, 2)),
     DotRun(Dots(currentStep >= 3)),
     StepIcon(3, StepActive(currentStep, 3))]
  }

  /**
   * What is lit is always a prefix of the bar: a lit segment has every
   * segment to its left lit, and a dot run is lit exactly when the icon after
   * it is.
   */
  lemma LitIsAPrefix(currentStep: int)
    ensures forall i, j :: 0 <= i < j < 5 && Lit(Bar(currentStep)[j]) ==> Lit(Bar(currentStep)[i])
    ensures Lit(Bar(currentStep)[1]) <==> Bar(currentStep)[2].active
    ensures Lit(Bar(currentStep)[3]) <==> Bar(currentStep)[4].active
  {
    var bar := Bar(currentStep);
    assert Lit(bar[1]) <==> currentStep >= 2 by {
      assert bar[1].dots[0] == (if currentStep >= 2 then White else Grey);
    }
    assert Lit(bar[3]) <==> currentStep >= 3 by {
      assert bar[3].dots[0] == (if currentStep >= 3 then White else Grey);
    }
  }

  /** A segment is lit: an active icon, or a run of white dots. */
  predicate Lit(s: Segment) {
    match s
    case StepIcon(_, active) => active
    case DotRun(dots) => |dots| > 0 && dots[0] == White
  }

  /** How many of the three icons are lit: the current step, clamped to 0..3. */
  function LitSteps(currentStep: int): (n: nat)
    ensures n == if currentStep < 1 then 0 else if currentStep > 3 then 3 else currentStep
  {
    (if StepActive(currentStep, 1) then 1 else 0) +
    (if StepActive(currentStep, 2) then 1 else 0) +
    (if StepActive(currentStep, 3) then 1 else 0)
  }

  /** The shipping screen (step 1) lights one icon, payment (2) two, the success screen (3) all three. */
  lemma CheckoutScreens()
    ensures LitSteps(1) == 1 && !Lit(Bar(1)[1]) && !Lit(Bar(1)[3])
    ensures LitSteps(2) == 2 && Lit(Bar(2)[1]) && !Lit(Bar(2)[3])
    ensures LitSteps(3) == 3 && Lit(Bar(3)[1]) && Lit(Bar(3)[3])
    ensures Bar(1)[0].active && !Bar(1)[2].active && !Bar(1)[4].active
    ensures Bar(2)[0].active && Bar(2)[2].active && !Bar(2)[4].active
    ensures Bar(3)[0].active && Bar(3)[2].active && Bar(3)[4].active
  {
    assert Bar(1)[1].dots[0] == Grey && Bar(1)[3].dots[0] == Grey;
    assert Bar(2)[1].dots[0] == White && Bar(2)[3].dots[0] == Grey;
    assert Bar(3)[1].dots[0] == White && Bar(3)[3].dots[0] == White;
  }
}
