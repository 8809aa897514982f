/**
 * The wizard's progress header (components/booking/BookingStepIndicator.tsx):
 * each step is completed, current or upcoming according to its index, shows a
 * check mark or its number, and a progress line is drawn to a percentage.
 */
module StepIndicator {

  datatype Step = Step(number: int, title: string)

  /** `index < currentStep`. */
  predicate IsCompleted(index: int, currentStep: int) {
    index < currentStep
  }

  /** `index === currentStep`. */
  predicate IsCurrent(index: int, currentStep: int) {
    index == currentStep
  }

  /** What the circle shows: a check mark or the step's number. */
  datatype Badge = CheckMark | Number(n: int)

  /** The three looks a step circle can take, in the order the className ternary tests them. */
  datatype StepState = Completed | Current | Upcoming

  /** What one step displays; `titleHighlighted` is the `text-mocha-600` title of the current step (line 65). */
  datatype StepView = StepView(completed: bool, current: bool, badge: Badge, titleHighlighted: bool) {
    function State(): StepState {
      if completed then Completed else if current then Current else Upcoming
    }
  }

  /** `steps.map((step, index) => ...)` (lines 30-72), reduced to what each step displays. */
  function Render(steps: seq<Step>, currentStep: int): (views: seq<StepView>)
    ensures |views| == |steps|
    ensures forall i :: 0 <= i < |views| ==> !(views[i].completed && views[i].current)
    ensures forall i :: 0 <= i < |views| ==> (views[i].badge == CheckMark <==> views[i].completed)
    ensures forall i :: 0 <= i < |views| ==> (views[i].titleHighlighted <==> views[i].State() == Current)
  {
    seq(|steps|, i requires 0 <= i < |steps| =>
      StepView(IsCompleted(i, currentStep), IsCurrent(i, currentStep),
               if IsCompleted(i, currentStep) then CheckMark else Number(steps[i].number),
               IsCurrent(i, currentStep)))
  }

  /** How many steps are displayed in a given state. */
  function Count(views: seq<StepView>, state: StepState): (n: nat)
    ensures n <= |views|
  {
    if views == [] then 0
    else Count(views[..|views| - 1], state) + (if views[|views| - 1].State() == state then 1 else 0)
  }

  /** Steps before the current one are completed, the current one is current, later ones are upcoming. */
  lemma RenderStates(steps: seq<Step>, currentStep: int, i: int)
    requires 0 <= i < |steps|
    ensures var v := Render(steps, currentStep)[i];
      && (v.State() == Completed <==> i < currentStep)
      && (v.State() == Current <==> i == currentStep)
      && (v.State() == Upcoming <==> i > currentStep)
      && !(v.completed && v.current)
      && (v.badge == CheckMark <==> v.completed)
      && (!v.completed ==> v.badge == Number(steps[i].number))
      && (v.titleHighlighted <==> v.State() == Current)
  {
  }

  /** When exactly the indices lo..hi-1 are in a state, that state is counted hi - lo times. */
  lemma {:induction false} CountRange(views: seq<StepView>, state: StepState, lo: int, hi: int)
    requires 0 <= lo <= hi <= |views|
    requires forall i :: 0 <= i < |views| ==> (views[i].State() == state <==> lo <= i < hi)
    ensures Count(views, state) == hi - lo
  {
    if views != [] {
      var n := |views|;
      var front := views[..n - 1];
      assert forall i :: 0 <= i < |front| ==> front[i] == views[i];
      if hi == n {
        if lo == n {
          CountRange(front, state, n - 1, n - 1);
        } else {
          CountRange(front, state, lo, n - 1);
        }
      } else {
        CountRange(front, state, lo, hi);
      }
    }
  }

  /**
   * For a current step within range: exactly one step is current, the
   * completed ones are the currentStep steps before it, and the rest are upcoming.
   */
  lemma StateCounts(steps: seq<Step>, currentStep: int)
    requires 0 <= currentStep < |steps|
    ensures Count(Render(steps, currentStep), Current) == 1
    ensures Count(Render(steps, currentStep), Completed) == currentStep
    ensures Count(Render(steps, currentStep), Upcoming) == |steps| - currentStep - 1
  {
    var views := Render(steps, currentStep);
    forall i | 0 <= i < |views|
      ensures views[i].State() == Completed <==> 0 <= i < currentStep
      ensures views[i].State() == Current <==> currentStep <= i < currentStep + 1
      ensures views[i].State() == Upcoming <==> currentStep + 1 <= i < |views|
    {
      RenderStates(steps, currentStep, i);
    }
    CountRange(views, Completed, 0, currentStep);
    CountRange(views, Current, currentStep, currentStep + 1);
    CountRange(views, Upcoming, currentStep + 1, |views|);
  }

  /** The progress line's width: a finite percentage, or JavaScript's NaN/Infinity when dividing by zero. */
  datatype Width = Percent(value: real) | NonFinite

  /** `(currentStep / (steps.length - 1)) * 100` (line 26), on exact rationals. */
  function ProgressWidth(currentStep: int, stepCount: int): (width: Width)
    ensures width.NonFinite? <==> stepCount == 1
    ensures stepCount >= 2 && 0 <= currentStep < stepCount ==> 0.0 <= width.value <= 100.0
  {
    if stepCount - 1 == 0 then NonFinite
    else Percent((currentStep as real / (stepCount - 1) as real) * 100.0)
  }

  /** With at least two steps the line is empty on the first step, full on the last and grows in between. */
  lemma ProgressEnds(stepCount: int)
    requires stepCount >= 2
    ensures ProgressWidth(0, stepCount) == Percent(0.0)
    ensures ProgressWidth(stepCount - 1, stepCount) == Percent(100.0)
  {
    var d := (stepCount - 1) as real;
    assert d / d == 1.0;
  }

  lemma ProgressIncreases(a: int, b: int, stepCount: int)
    requires stepCount >= 2 && a < b
    ensures ProgressWidth(a, stepCount).value < ProgressWidth(b, stepCount).value
  {
    var d := (stepCount - 1) as real;
    assert a as real / d < b as real / d by {
      assert (b as real / d) - (a as real / d) == (b - a) as real / d;
    }
  }

  /** The four steps of the booking wizard (app/(public)/booking/new/page.tsx, lines 18-23). */
  const WizardSteps: seq<Step> := [Step(1, "Service"), Step(2, "Barbier"), Step(3, "Date & Heure"), Step(4, "Informations")]

  /** On the four-step wizard the line is drawn to 0, 100/3, 200/3 and 100 percent. */
  lemma WizardProgress()
    ensures |WizardSteps| == 4
    ensures ProgressWidth(0, |WizardSteps|) == Percent(0.0)
    ensures ProgressWidth(1, |WizardSteps|) == Percent(100.0 / 3.0)
    ensures ProgressWidth(2, |WizardSteps|) == Percent(200.0 / 3.0)
    ensures ProgressWidth(3, |WizardSteps|) == Percent(100.0)
  {
  }

  /** A single step divides by zero: the width is not a finite percentage. */
  lemma SingleStepProgress(currentStep: int)
    ensures ProgressWidth(currentStep, 1).NonFinite?
  {
  }
}
