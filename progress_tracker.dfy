/**
 * `ProgressTracker`: a start/complete machine over named processing steps.
 * The clock is not read: every operation that calls `time.time()` takes the
 * current time as a parameter `now`, in seconds.
 */
module Progress {
  import opened Wrappers

  /** `StepInfo` */
  datatype StepInfo = StepInfo(
    name: string,
    description: string,
    startedAt: real,
    completedAt: Option<real>,
    items: int,
    details: Option<string>,
    success: bool)

  /** One entry of `get_summary()["steps"]`. */
  datatype StepSummary = StepSummary(name: string, items: int, durationMs: int, success: bool)

  datatype ProgressSummary = ProgressSummary(steps: seq<StepSummary>, totalDurationMs: int)

  /** Python's `int(x)` on a float: truncation toward zero. */
  function Truncate(x: real): (r: int)
    ensures x >= 0.0 ==> r as real <= x < r as real + 1.0
    ensures x < 0.0 ==> r as real - 1.0 < x <= r as real
  {
    if x >= 0.0 then x.Floor else -((-x).Floor)
  }

  /** `s.completed_at or now`: a missing completion time, or one of 0.0 (which is falsy), reads the clock. */
  function EndTime(s: StepInfo, now: real): real {
    if s.completedAt.Some? && s.completedAt.value != 0.0 then s.completedAt.value else now
  }

  /** `int((s.completed_at or now) - s.started_at) * 1000`: whole seconds, then milliseconds. */
  function DurationMs(s: StepInfo, now: real): (ms: int)
    ensures ms % 1000 == 0
    ensures var d := EndTime(s, now) - s.startedAt;
      d >= 0.0 ==> d * 1000.0 - 1000.0 < ms as real <= d * 1000.0
  {
    Truncate(EndTime(s, now) - s.startedAt) * 1000
  }

  function Summarize(s: StepInfo, now: real): StepSummary {
    StepSummary(s.name, s.items, DurationMs(s, now), s.success)
  }

  class ProgressTracker {
    var steps: seq<StepInfo>
    var currentStep: Option<StepInfo>
    var startTime: real

    /** Every recorded step is completed, and the step in progress is not. */
    predicate Valid()
      reads this
    {
      (forall i :: 0 <= i < |steps| ==> steps[i].completedAt.Some?)
      && (currentStep.Some? ==> currentStep.value.completedAt.None?)
    }

    constructor (now: real)
      ensures steps == [] && currentStep == None && startTime == now
      ensures Valid()
    {
      steps := [];
      currentStep := None;
      startTime := now;
    }

    /** `start_step`: a fresh current step replaces any step in progress, which is not recorded. */
    method StartStep(name: string, description: string, now: real)
      requires Valid()
      modifies this
      ensures currentStep == Some(StepInfo(name, description, now, None, 0, None, true))
      ensures steps == old(steps) && startTime == old(startTime)
      ensures Valid()
    {
      currentStep := Some(StepInfo(name, description, now, None, 0, None, true));
    }

    /**
     * `complete_step`: when the step in progress has this name it is stamped
     * with `now`, the given items, details and success, recorded at the end
     * of `steps`, and cleared; otherwise nothing changes.
     */
    method CompleteStep(name: string, now: real, items: int := 0, details: Option<string> := None, success: bool := true)
      requires Valid()
      modifies this
      ensures old(currentStep).Some? && old(currentStep).value.name == name ==>
        steps == old(steps) + [old(currentStep).value.(completedAt := Some(now), items := items, details := details, success := success)]
        && currentStep == None
      ensures !(old(currentStep).Some? && old(currentStep).value.name == name) ==>
        steps == old(steps) && currentStep == old(currentStep)
      ensures startTime == old(startTime)
      ensures Valid()
    {
      if currentStep.Some? && currentStep.value.name == name {
        var step := currentStep.value.(completedAt := Some(now), items := items, details := details, success := success);
        steps := steps + [step];
        currentStep := None;
      }
    }

    /** `get_summary()`: every recorded step in order, with whole-second durations in milliseconds. */
    function GetSummary(now: real): (r: ProgressSummary)
      reads this
      ensures |r.steps| == |steps|
      ensures forall i :: 0 <= i < |steps| ==> r.steps[i] == Summarize(steps[i], now)
      ensures forall i :: 0 <= i < |steps| ==> r.steps[i].durationMs % 1000 == 0
      ensures now >= startTime ==> 0 <= r.totalDurationMs
    {
      ProgressSummary(
        seq(|steps|, i requires 0 <= i < |steps| reads this => Summarize(steps[i], now)),
        Truncate((now - startTime) * 1000.0))
    }
  }

  /** The step duration drops the fraction of a second before scaling: 1.5 s is reported as 1000 ms. */
  lemma WholeSecondDurations()
    ensures DurationMs(StepInfo("s", "", 0.0, Some(1.5), 0, None, true), 2.0) == 1000
  {
    assert Truncate(1.5) == 1;
  }
}
