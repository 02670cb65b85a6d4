/** The debug-stage ladder: which intermediate stage of the pipeline is
    shown, as a function of the time elapsed since the last reset. */
module Stages {

  /** The seven stages, in display order (the source spells the first
      one ORIGNAL). */
  datatype Stage = Original | Blur | Filter | Canny | Rect | Eye | Eyes

  /** Seconds per step of the ladder. */
  const Step: int := 3

  /** Position of a stage in the ladder. */
  function Index(s: Stage): (k: nat)
    ensures k < 7
  {
    match s
    case Original => 0
    case Blur => 1
    case Filter => 2
    case Canny => 3
    case Rect => 4
    case Eye => 5
    case Eyes => 6
  }

  /** The ladder as the source writes it: `duration` is elapsed seconds,
      compared against multiples of `Step`; `None` means the cycle is over
      and the timer resets instead of choosing a stage. */
  function StageFor(duration: real): Option<Stage> {
    if duration < Step as real * 0.5 then Some(Original)
    else if duration < (Step * 1) as real then Some(Blur)
    else if duration < (Step * 2) as real then Some(Filter)
    else if duration < (Step * 3) as real then Some(Canny)
    else if duration < (Step * 4) as real then Some(Rect)
    else if duration < (Step * 5) as real then Some(Eye)
    else if duration < (Step * 80) as real then Some(Eyes)
    else None
  }

  datatype Option<T> = None | Some(value: T)

  /** Start of a stage's window, in milliseconds since the reset. */
  function WindowStart(s: Stage): int {
    match s
    case Original => 0
    case Blur => 1500
    case Filter => 3000
    case Canny => 6000
    case Rect => 9000
    case Eye => 12000
    case Eyes => 15000
  }

  /** End (exclusive) of a stage's window, in milliseconds since the reset. */
  function WindowEnd(s: Stage): int {
    match s
    case Original => 1500
    case Blur => 3000
    case Filter => 6000
    case Canny => 9000
    case Rect => 12000
    case Eye => 15000
    case Eyes => 240000
  }

  /** Length of a whole cycle, in milliseconds. */
  const CycleMs: int := 240000

  /** The ladder on an integer millisecond clock: elapsed milliseconds are
      turned into seconds by dividing by 1000 and fed to `StageFor`.
      Each stage holds on the half-open window [WindowStart, WindowEnd),
      a negative elapsed time (clock set back) shows `Original`, and from
      `CycleMs` on the timer resets. */
  function StageAtMs(ms: int): (r: Option<Stage>)
    ensures r == None <==> ms >= CycleMs
    ensures r.Some? ==> ms < WindowEnd(r.value)
    ensures r.Some? && r.value != Original ==> WindowStart(r.value) <= ms
    ensures ms < 0 ==> r == Some(Original)
  {
    StageFor(ms as real / 1000.0)
  }

  /** Each stage is shown exactly on its window (for a non-negative clock
      difference). */
  lemma StageWindow(ms: int, s: Stage)
    requires 0 <= ms
    ensures StageAtMs(ms) == Some(s) <==> WindowStart(s) <= ms < WindowEnd(s)
  {
  }

  /** Within one cycle the stage index never decreases as time grows. */
  lemma StageMonotone(ms1: int, ms2: int)
    requires ms1 <= ms2 < CycleMs
    ensures StageAtMs(ms1).Some? && StageAtMs(ms2).Some?
    ensures Index(StageAtMs(ms1).value) <= Index(StageAtMs(ms2).value)
  {
  }
}
