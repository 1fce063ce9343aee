/** The progress panel above the wizard: the bar, the step markers and the
    current step's title. */
module FormProgress {
  import opened Results

  /** One entry of the wizard's step list. */
  datatype Step = Step(id: nat, title: string, description: string, icon: string)

  /** `((currentStep - 1) / (totalSteps - 1)) * 100`; with a single step the
      division is by zero and the width is not a number. */
  function ProgressPercentage(current: int, total: int): (r: Option<real>)
    ensures r.None? <==> total == 1
    ensures r.Some? ==> r.value * ((total - 1) as real) == ((current - 1) as real) * 100.0
  {
    if total == 1 then None
    else Some(((current - 1) as real) / ((total - 1) as real) * 100.0)
  }

  /** On a wizard of two or more steps the bar starts empty on the first
      step, is full on the last, stays within 0 to 100 in between and grows
      with every step forward. */
  lemma ProgressBounds(current: int, total: int)
    requires 2 <= total && 1 <= current <= total
    ensures ProgressPercentage(current, total).Some?
    ensures 0.0 <= ProgressPercentage(current, total).value <= 100.0
    ensures ProgressPercentage(current, total).value == 0.0 <==> current == 1
    ensures ProgressPercentage(current, total).value == 100.0 <==> current == total
  {
    var p := ProgressPercentage(current, total).value;
    var t := (total - 1) as real;
    assert p * t == ((current - 1) as real) * 100.0;
    if p == 100.0 {
      assert (current - 1) as real == t;
    }
  }

  /** Moving forward one step always lengthens the bar. */
  lemma ProgressIncreasing(current: int, total: int)
    requires 2 <= total && 1 <= current < total
    ensures ProgressPercentage(current, total).value < ProgressPercentage(current + 1, total).value
  {
    var p := ProgressPercentage(current, total).value;
    var q := ProgressPercentage(current + 1, total).value;
    var t := (total - 1) as real;
    assert q * t == p * t + 100.0;
    if q <= p {
      assert q * t <= p * t;
    }
  }

  /** How a marker and a label are drawn. */
  datatype StepStatus = Completed | Current | Upcoming

  /** `isCompleted` and `isCurrent` of step `stepNumber`. */
  function StatusOf(stepNumber: int, current: int): (s: StepStatus)
    ensures s == Completed <==> stepNumber < current
    ensures s == Current <==> stepNumber == current
  {
    if stepNumber < current then Completed
    else if stepNumber == current then Current
    else Upcoming
  }

  /** The statuses of steps `1..n`, in order. */
  function Statuses(n: nat, current: int): (r: seq<StepStatus>)
    ensures |r| == n
    ensures forall i :: 0 <= i < n ==> r[i] == StatusOf(i + 1, current)
  {
    if n == 0 then [] else Statuses(n - 1, current) + [StatusOf(n, current)]
  }

  /** How many entries of `s` are `x`. */
  function Occurrences(s: seq<StepStatus>, x: StepStatus): (k: nat)
    ensures k <= |s|
  {
    if s == [] then 0 else Occurrences(s[..|s| - 1], x) + (if s[|s| - 1] == x then 1 else 0)
  }

  /** With the current step among `1..n`, the steps before it are ticked,
      exactly one step is highlighted as current, and the rest are
      upcoming. */
  lemma {:induction false} StatusCounts(n: nat, current: int)
    requires 1 <= current <= n
    ensures Occurrences(Statuses(n, current), Completed) == current - 1
    ensures Occurrences(Statuses(n, current), Current) == 1
    ensures Occurrences(Statuses(n, current), Upcoming) == n - current
  {
    var s := Statuses(n, current);
    assert s[..n - 1] == Statuses(n - 1, current);
    if current == n {
      BeforeCurrent(n - 1, current);
    } else {
      StatusCounts(n - 1, current);
    }
  }

  /** Below the current step every marker is ticked. */
  lemma {:induction false} BeforeCurrent(n: nat, current: int)
    requires n < current
    ensures Occurrences(Statuses(n, current), Completed) == n
    ensures Occurrences(Statuses(n, current), Current) == 0
    ensures Occurrences(Statuses(n, current), Upcoming) == 0
  {
    if n > 0 {
      var s := Statuses(n, current);
      assert s[..n - 1] == Statuses(n - 1, current);
      BeforeCurrent(n - 1, current);
    }
  }

  /** The info panel: `steps?.[currentStep - 1]`, nothing when the step
      number is outside the list. */
  function CurrentStepInfo(steps: seq<Step>, current: int): (r: Option<Step>)
    ensures r.Some? <==> 1 <= current <= |steps|
    ensures r.Some? ==> r.value == steps[current - 1]
  {
    if 1 <= current <= |steps| then Some(steps[current - 1]) else None
  }
}
