/**
 * The simulated progress of `useSimulatedProgress`: a percentage and a
 * current step, advanced by a timer tick while the hook is active, reset
 * when it is deactivated and forced to the end by `complete`. The timer is
 * an explicit `ticking` flag; one call of `Tick` is one timer firing.
 */
module SimulatedProgress {
  import opened Types

  /** `PROGRESS_ORDER` */
  const ProgressOrder: seq<ProgressStep> := [Mask, Pillars, Questions, Models, Evaluate]

  /** What the hook reports: `percentage` and `currentStep`. */
  datatype Progress = Progress(percentage: nat, currentStep: ProgressStep)

  /** The reset state, `(0, "mask")`. */
  const Initial := Progress(0, Mask)

  function Min(a: int, b: int): int {
    if a < b then a else b
  }

  /** The step shown at a percentage: each step covers a fifth of the bar, the last one the rest. */
  function StepFor(p: nat): (step: ProgressStep)
    ensures forall i :: 0 <= i < |ProgressOrder| ==>
      (ProgressOrder[i] == step <==> 20 * i <= p && (i == |ProgressOrder| - 1 || p < 20 * (i + 1)))
  {
    if p < 20 then Mask
    else if p < 40 then Pillars
    else if p < 60 then Questions
    else if p < 80 then Models
    else Evaluate
  }

  /**
   * `min(floor(next / (100 / 5)), 4)`: the index into `ProgressOrder`.
   * `100 / 5` is exactly 20, so the floor is integer division.
   */
  function StepIndex(next: nat): (i: nat)
    ensures i < |ProgressOrder|
    ensures ProgressOrder[i] == StepFor(next)
  {
    Min(next / (100 / |ProgressOrder|), |ProgressOrder| - 1)
  }

  /** One timer firing: twenty points more, never beyond 95, and the step that percentage falls in. */
  function TickProgress(s: Progress): (r: Progress)
    ensures r.percentage <= 95
    ensures r.percentage == 95 || r.percentage == s.percentage + 20
    ensures s.percentage + 20 <= 95 ==> r.percentage == s.percentage + 20
    ensures s.percentage + 20 > 95 ==> r.percentage == 95
    ensures s.percentage <= 95 ==> s.percentage <= r.percentage
    ensures r.percentage >= 20 && r.currentStep != Mask
    ensures r.currentStep == StepFor(r.percentage)
  {
    var next := Min(s.percentage + 20, 95);
    Progress(next, ProgressOrder[StepIndex(next)])
  }

  /** `n` timer firings. */
  function TickN(s: Progress, n: nat): Progress {
    if n == 0 then s else TickProgress(TickN(s, n - 1))
  }

  /** From the reset state the bar climbs in steps of twenty up to 95. */
  lemma {:induction false} TicksFromInitial(n: nat)
    ensures TickN(Initial, n).percentage == Min(20 * n, 95)
    ensures TickN(Initial, n).currentStep == StepFor(Min(20 * n, 95))
  {
    if n > 0 {
      TicksFromInitial(n - 1);
    }
  }

  /** The steps seen from the reset state: pillars, questions, models, evaluate, then evaluate at 95 for good. */
  lemma StepSequence(n: nat)
    ensures TickN(Initial, 1) == Progress(20, Pillars)
    ensures TickN(Initial, 2) == Progress(40, Questions)
    ensures TickN(Initial, 3) == Progress(60, Models)
    ensures TickN(Initial, 4) == Progress(80, Evaluate)
    ensures n >= 5 ==> TickN(Initial, n) == Progress(95, Evaluate)
  {
    TicksFromInitial(1);
    TicksFromInitial(2);
    TicksFromInitial(3);
    TicksFromInitial(4);
    TicksFromInitial(n);
  }

  /** 95 is the fixed point of a tick. */
  lemma FixedPoint()
    ensures TickProgress(Progress(95, Evaluate)) == Progress(95, Evaluate)
  {
  }

  /** The hook: what it reports, whether it is active, and whether its timer runs. */
  datatype Hook = Hook(progress: Progress, active: bool, ticking: bool)

  /** A report the hook can show: the step matches the percentage, and the timer runs only while active. */
  predicate Valid(h: Hook) {
    && h.progress.percentage <= 100
    && h.progress.currentStep == StepFor(h.progress.percentage)
    && (h.ticking ==> h.active)
  }

  /** The first render: reset state, timer started when active. */
  function Mount(active: bool): (h: Hook)
    ensures Valid(h) && h.progress == Initial && h.active == active && h.ticking == active
  {
    Hook(Initial, active, active)
  }

  /**
   * The effect on a change of `isActive`: deactivation stops the timer and
   * resets to `(0, "mask")`; activation starts the timer from the current
   * report. An unchanged flag does not re-run the effect.
   */
  function SetActive(h: Hook, active: bool): (r: Hook)
    ensures r.active == active
    ensures active == h.active ==> r == h
    ensures active != h.active && !active ==> r == Hook(Initial, false, false)
    ensures active != h.active && active ==> r.progress == h.progress && r.ticking
  {
    if active == h.active then h
    else if !active then Hook(Initial, false, false)
    else Hook(h.progress, true, true)
  }

  /** A timer firing; nothing happens while no timer runs. */
  function Tick(h: Hook): (r: Hook)
    ensures !h.ticking ==> r == h
    ensures h.ticking ==> r == h.(progress := TickProgress(h.progress))
  {
    if h.ticking then h.(progress := TickProgress(h.progress)) else h
  }

  /** `complete`: stops the timer and reports `(100, "evaluate")`, from any state. */
  function Complete(h: Hook): (r: Hook)
    ensures r.progress == Progress(100, Evaluate) && !r.ticking && r.active == h.active
  {
    Hook(Progress(100, Evaluate), h.active, false)
  }

  /** Every operation keeps a valid hook valid. */
  lemma ValidPreserved(h: Hook, active: bool)
    requires Valid(h)
    ensures Valid(SetActive(h, active)) && Valid(Tick(h)) && Valid(Complete(h))
  {
  }

  /** After `complete` the timer is stopped: further firings change nothing. */
  lemma CompleteStopsTicks(h: Hook)
    ensures Tick(Complete(h)) == Complete(h)
  {
  }
}
