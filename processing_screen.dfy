/** `ProcessingScreen`: the simulated analysis with its progress bar, its three
    steps and the completion callback. Timers become explicit events. */
module ProcessingScreen {
  import opened Js
  import opened ClipTypes

  const InitialSteps: seq<ProcessingStep> := [
    ProcessingStep("highlights", "Detecting highlights", Pending),
    ProcessingStep("moments", "Finding best moments", Pending),
    ProcessingStep("clips", "Generating clips", Pending)]

  const TotalDuration: real := 4000.0
  const ProgressInterval: real := 50.0
  /** What one progress tick adds: 100 / (4000 / 50) */
  const ProgressStep: real := 100.0 / (TotalDuration / ProgressInterval)

  /** A progress tick: one step more, capped at 100 */
  function Tick(progress: real): (r: real)
    ensures r == Min(progress + 1.25, 100.0)
    ensures progress <= r || progress > 100.0
    ensures 0.0 <= progress ==> 0.0 <= r <= 100.0
  {
    Min(progress + ProgressStep, 100.0)
  }

  /** The progress after `n` ticks from 0 */
  function ProgressAfter(n: nat): real
  {
    if n == 0 then 0.0 else Tick(ProgressAfter(n - 1))
  }

  /** After `n` ticks the bar shows 1.25·n percent, up to 100 */
  lemma {:induction false} ProgressClosedForm(n: nat)
    ensures ProgressAfter(n) == Min(1.25 * n as real, 100.0)
  {
    if n > 0 {
      ProgressClosedForm(n - 1);
    }
  }

  /** The bar is full after 80 ticks (4 s), well before completion fires at 4.5 s */
  lemma FullBeforeCompletion(n: nat)
    requires n >= 80
    ensures ProgressAfter(n) == 100.0
  {
    ProgressClosedForm(n);
  }

  /** Step `k` starts `k·4000/3` ms in and ends 100 ms before the next one starts */
  function StepStartAt(k: nat, count: nat): real
    requires 0 < count
  {
    k as real * (TotalDuration / count as real)
  }

  function StepEndAt(k: nat, count: nat): real
    requires 0 < count
  {
    (k + 1) as real * (TotalDuration / count as real) - 100.0
  }

  /** The step timers fire in the order start 0, end 0, start 1, end 1, …, and
      all before the completion timer */
  lemma ScheduleOrdered(k: nat)
    requires k < 3
    ensures StepStartAt(k, 3) < StepEndAt(k, 3)
    ensures k + 1 < 3 ==> StepEndAt(k, 3) < StepStartAt(k + 1, 3)
    ensures StepEndAt(k, 3) < TotalDuration + 500.0
  {
  }

  /** The statuses at the start of step `index` */
  function StartStatuses(steps: seq<ProcessingStep>, index: nat): (r: seq<ProcessingStep>)
    ensures |r| == |steps|
    ensures forall i :: 0 <= i < |r| ==> r[i].id == steps[i].id && r[i].labelText == steps[i].labelText
    ensures forall i :: 0 <= i < |r| ==> (r[i].status == Complete <==> i < index)
    ensures forall i :: 0 <= i < |r| ==> (r[i].status == Processing <==> i == index)
  {
    seq(|steps|, i requires 0 <= i < |steps| =>
      steps[i].(status := if i < index then Complete else if i == index then Processing else Pending))
  }

  /** The statuses at the end of step `index` */
  function EndStatuses(steps: seq<ProcessingStep>, index: nat): (r: seq<ProcessingStep>)
    ensures |r| == |steps|
    ensures forall i :: 0 <= i < |r| ==> r[i].id == steps[i].id && r[i].labelText == steps[i].labelText
    ensures forall i :: 0 <= i < |r| ==> (r[i].status == Complete <==> i <= index)
    ensures forall i :: 0 <= i < |r| ==> r[i].status != Processing
  {
    seq(|steps|, i requires 0 <= i < |steps| => steps[i].(status := if i <= index then Complete else Pending))
  }

  function CompleteCount(steps: seq<ProcessingStep>): nat
  {
    Count(steps, (s: ProcessingStep) => s.status == Complete)
  }

  function ProcessingCount(steps: seq<ProcessingStep>): nat
  {
    Count(steps, (s: ProcessingStep) => s.status == Processing)
  }

  /** Counting the leading steps marked complete and the processing ones */
  lemma {:induction false} CountPrefix(steps: seq<ProcessingStep>, k: nat, processing: bool)
    requires k <= |steps|
    requires forall i :: 0 <= i < |steps| ==> (steps[i].status == Complete <==> i < k)
    requires forall i :: 0 <= i < |steps| ==> (steps[i].status == Processing <==> processing && i == k)
    ensures CompleteCount(steps) == k
    ensures ProcessingCount(steps) == if processing && k < |steps| then 1 else 0
    decreases |steps|
  {
    if steps != [] {
      var rest := steps[1..];
      assert forall i :: 0 <= i < |rest| ==> rest[i] == steps[i + 1];
      if k > 0 {
        CountPrefix(rest, k - 1, processing);
      } else {
        CountPrefix(rest, 0, false);
        assert rest == [] || forall i :: 0 <= i < |rest| ==> rest[i].status != Processing;
        NoneProcessing(rest);
      }
    }
  }

  lemma {:induction false} NoneProcessing(steps: seq<ProcessingStep>)
    requires forall i :: 0 <= i < |steps| ==> steps[i].status != Processing
    ensures ProcessingCount(steps) == 0
    decreases |steps|
  {
    if steps != [] {
      assert forall i :: 0 <= i < |steps[1..]| ==> steps[1..][i] == steps[i + 1];
      NoneProcessing(steps[1..]);
    }
  }

  /** At the start of step `k` exactly `k` steps are complete and one is processing; at its end
      `k + 1` are complete and none is processing */
  lemma StepCounts(steps: seq<ProcessingStep>, k: nat)
    requires k < |steps|
    ensures CompleteCount(StartStatuses(steps, k)) == k && ProcessingCount(StartStatuses(steps, k)) == 1
    ensures CompleteCount(EndStatuses(steps, k)) == k + 1 && ProcessingCount(EndStatuses(steps, k)) == 0
  {
    CountPrefix(StartStatuses(steps, k), k, true);
    CountPrefix(EndStatuses(steps, k), k + 1, false);
  }

  class Screen {
    var steps: seq<ProcessingStep>
    var progress: real
    var currentStepIndex: nat
    /** How often `onComplete` has fired */
    var completions: nat
    /** False once the effect's cleanup has cleared the progress and completion timers */
    var timersLive: bool

    ghost predicate Valid()
      reads this
    {
      0.0 <= progress <= 100.0 && |steps| == 3
    }

    constructor ()
      ensures steps == InitialSteps && progress == 0.0 && currentStepIndex == 0
      ensures completions == 0 && timersLive
      ensures Valid()
    {
      steps := InitialSteps;
      progress := 0.0;
      currentStepIndex := 0;
      completions := 0;
      timersLive := true;
    }

    /** The 50 ms interval */
    method ProgressTimer()
      modifies this`progress
      ensures timersLive ==> progress == Tick(old(progress))
      ensures !timersLive ==> progress == old(progress)
      ensures old(Valid()) ==> Valid()
    {
      if timersLive {
        progress := Tick(progress);
      }
    }

    /** The timer at the start of step `index`; cleanup does not clear it */
    method StepStarts(index: nat)
      modifies this`steps, this`currentStepIndex
      ensures steps == StartStatuses(old(steps), index) && currentStepIndex == index
      ensures old(Valid()) ==> Valid()
    {
      steps := StartStatuses(steps, index);
      currentStepIndex := index;
    }

    /** The timer 100 ms before the end of step `index` */
    method StepEnds(index: nat)
      modifies this`steps
      ensures steps == EndStatuses(old(steps), index)
      ensures old(Valid()) ==> Valid()
    {
      steps := EndStatuses(steps, index);
    }

    /** The completion timer at 4.5 s */
    method CompleteTimer()
      modifies this`completions
      ensures completions == old(completions) + (if timersLive then 1 else 0)
    {
      if timersLive {
        completions := completions + 1;
      }
    }

    /** Unmounting clears the progress interval and the completion timer */
    method Cleanup()
      modifies this`timersLive
      ensures !timersLive
    {
      timersLive := false;
    }
  }

  /** Running every step timer in schedule order marks all three steps complete and
      leaves their ids and labels alone */
  method RunAllSteps(s: Screen)
    requires s.Valid() && s.steps == InitialSteps
    modifies s
    ensures s.Valid() && CompleteCount(s.steps) == 3 && ProcessingCount(s.steps) == 0
    ensures forall i :: 0 <= i < 3 ==> s.steps[i].id == InitialSteps[i].id && s.steps[i].status == Complete
  {
    var k := 0;
    while k < 3
      invariant 0 <= k <= 3 && s.Valid()
      invariant forall i :: 0 <= i < 3 ==> s.steps[i].id == InitialSteps[i].id && s.steps[i].labelText == InitialSteps[i].labelText
      invariant forall i :: 0 <= i < 3 ==> (s.steps[i].status == Complete <==> i < k)
      invariant forall i :: 0 <= i < 3 ==> s.steps[i].status != Processing
    {
      s.StepStarts(k);
      s.StepEnds(k);
      k := k + 1;
    }
    StepCounts(s.steps, 2);
    assert EndStatuses(s.steps, 2) == s.steps;
  }
}
