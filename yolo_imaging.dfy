/**
 * The drone-tracking helper: a PID controller whose state is its integral
 * and previous error, the choice of the most confident person detection,
 * the emergency override of the forward-back command, and the dead-band
 * labelling of a command.
 */
module YoloControl {
  import opened Common

  // ---------------------------------------------------------------------
  // PID controller
  // ---------------------------------------------------------------------

  /** The derivative term: the change of error over the step, or 0 for a step that is not positive. */
  function Derivative(error: real, prevErr: real, dt: real): (d: real)
    ensures dt <= 0.0 ==> d == 0.0
    ensures dt > 0.0 ==> d * dt == error - prevErr
  {
    if dt > 0.0 then (error - prevErr) / dt else 0.0
  }

  /** The controller's memory between calls. */
  datatype PidState = PidState(prevErr: real, integral: real)

  /** The gains. */
  datatype Gains = Gains(kp: real, ki: real, kd: real)

  /** One call of `compute`, as a function: the new memory and the output. */
  function PidStep(g: Gains, s: PidState, error: real, dt: real): (r: (PidState, real))
    ensures r.0 == PidState(error, s.integral + error * dt)
  {
    var integral := s.integral + error * dt;
    (PidState(error, integral), g.kp * error + g.ki * integral + g.kd * Derivative(error, s.prevErr, dt))
  }

  /** The memory of a fresh controller. */
  const FRESH: PidState := PidState(0.0, 0.0)

  /** The memory after a sequence of `(error, dt)` samples. */
  function Run(g: Gains, s: PidState, samples: seq<(real, real)>): PidState
    decreases |samples|
  {
    if |samples| == 0 then s
    else Run(g, PidStep(g, s, samples[0].0, samples[0].1).0, samples[1..])
  }

  /** The accumulated `error * dt`. */
  function WeightedSum(samples: seq<(real, real)>): real
  {
    if |samples| == 0 then 0.0 else samples[0].0 * samples[0].1 + WeightedSum(samples[1..])
  }

  /**
   * After any run the integral is the starting integral plus the sum of
   * `error * dt`, and the previous error is the last error seen.
   */
  lemma {:induction false} RunAccumulates(g: Gains, s: PidState, samples: seq<(real, real)>)
    ensures Run(g, s, samples).integral == s.integral + WeightedSum(samples)
    ensures |samples| > 0 ==> Run(g, s, samples).prevErr == samples[|samples| - 1].0
    ensures |samples| == 0 ==> Run(g, s, samples) == s
    decreases |samples|
  {
    if |samples| > 0 {
      var s1 := PidStep(g, s, samples[0].0, samples[0].1).0;
      RunAccumulates(g, s1, samples[1..]);
      if |samples| > 1 {
        assert samples[1..][|samples[1..]| - 1] == samples[|samples| - 1];
      }
    }
  }

  /** With only a proportional gain the output is `kp * error`, whatever the memory. */
  lemma ProportionalOnly(kp: real, s: PidState, error: real, dt: real)
    ensures PidStep(Gains(kp, 0.0, 0.0), s, error, dt).1 == kp * error
  {
  }

  /** `PID`: the gains, fixed at construction, and the memory that `compute` updates. */
  class Pid {
    const kp: real
    const ki: real
    const kd: real
    var prevErr: real
    var integral: real

    function Gain(): Gains
      reads this
    {
      Gains(kp, ki, kd)
    }

    function State(): PidState
      reads this
    {
      PidState(prevErr, integral)
    }

    /** `__init__`, with the defaults of the source. */
    constructor (kp: real := 0.02, ki: real := 0.0, kd: real := 0.003)
      ensures this.kp == kp && this.ki == ki && this.kd == kd
      ensures State() == FRESH
    {
      this.kp := kp;
      this.ki := ki;
      this.kd := kd;
      prevErr := 0.0;
      integral := 0.0;
    }

    /** `compute`: the integral is updated before it is used in the output. */
    method Compute(error: real, dt: real) returns (output: real)
      modifies this
      ensures State() == PidStep(Gain(), old(State()), error, dt).0
      ensures output == PidStep(Gain(), old(State()), error, dt).1
      ensures output == kp * error + ki * integral + kd * Derivative(error, old(prevErr), dt)
    {
      integral := integral + error * dt;
      var derivative := if dt > 0.0 then (error - prevErr) / dt else 0.0;
      output := kp * error + ki * integral + kd * derivative;
      prevErr := error;
    }
  }

  // ---------------------------------------------------------------------
  // Choosing the person to track
  // ---------------------------------------------------------------------

  datatype Option<T> = None | Some(value: T)

  /** The class id of a person. */
  const PERSON: int := 0

  /** A detection the loop may pick: a person seen with positive confidence. */
  predicate Candidate(cls: seq<int>, confs: seq<real>, i: int)
    requires |cls| == |confs|
  {
    0 <= i < |cls| && cls[i] == PERSON && confs[i] > 0.0
  }

  /**
   * The selection loop of `main`: the person detection of highest
   * confidence, the first of equal ones, or none when no person has a
   * confidence above the starting best of 0.
   */
  method SelectBest(cls: seq<int>, confs: seq<real>) returns (best: Option<nat>)
    requires |cls| == |confs|
    ensures best.None? <==> forall i :: 0 <= i < |cls| ==> !Candidate(cls, confs, i)
    ensures best.Some? ==> Candidate(cls, confs, best.value)
    ensures best.Some? ==> forall i :: 0 <= i < |cls| && cls[i] == PERSON ==> confs[i] <= confs[best.value]
    ensures best.Some? ==> forall i :: 0 <= i < best.value && cls[i] == PERSON ==> confs[i] < confs[best.value]
  {
    best := None;
    var bestConf: real := 0.0;
    for i := 0 to |cls|
      invariant best.None? ==> bestConf == 0.0 && forall j :: 0 <= j < i ==> !Candidate(cls, confs, j)
      invariant best.Some? ==> best.value < i && Candidate(cls, confs, best.value) && bestConf == confs[best.value]
      invariant forall j :: 0 <= j < i && cls[j] == PERSON ==> confs[j] <= bestConf
      invariant best.Some? ==> forall j :: 0 <= j < best.value && cls[j] == PERSON ==> confs[j] < bestConf
    {
      if cls[i] == PERSON && confs[i] > bestConf {
        best := Some(i);
        bestConf := confs[i];
      }
    }
  }

  // ---------------------------------------------------------------------
  // Forward-back command and its safety override
  // ---------------------------------------------------------------------

  const TARGET_RATIO: real := 0.8
  const EMERGENCY_RATIO: real := 0.95
  const BACKWARD_COMMAND: real := -0.5

  /** The forward-back command: the controller's output unless the person fills the frame. */
  function VzCommand(pidOutput: real, sizeRatio: real): (vz: real)
    ensures vz == BACKWARD_COMMAND || vz == pidOutput
    ensures sizeRatio < EMERGENCY_RATIO ==> vz == pidOutput
  {
    if sizeRatio >= EMERGENCY_RATIO then BACKWARD_COMMAND else pidOutput
  }

  /** Past the emergency ratio the command is the backward one whatever the controller says. */
  lemma OverrideIgnoresController(out1: real, out2: real, sizeRatio: real)
    requires sizeRatio >= EMERGENCY_RATIO
    ensures VzCommand(out1, sizeRatio) == VzCommand(out2, sizeRatio) == BACKWARD_COMMAND
  {
  }

  /** Below the emergency ratio the controller's output passes unchanged. */
  lemma BelowEmergencyPassesThrough(out: real, sizeRatio: real)
    requires sizeRatio < EMERGENCY_RATIO
    ensures VzCommand(out, sizeRatio) == out
  {
  }

  /**
   * The forward-back step of `main` for the chosen box: the controller
   * is driven with the size error, then the override applies. The
   * controller's memory advances even when its output is discarded.
   */
  method ForwardBack(pidZ: Pid, boxHeight: real, frameHeight: real, dt: real) returns (vz: real)
    requires frameHeight > 0.0
    modifies pidZ
    ensures pidZ.State() == PidStep(pidZ.Gain(), old(pidZ.State()), TARGET_RATIO - boxHeight / frameHeight, dt).0
    ensures vz == VzCommand(PidStep(pidZ.Gain(), old(pidZ.State()), TARGET_RATIO - boxHeight / frameHeight, dt).1,
                            boxHeight / frameHeight)
  {
    var sizeRatio := boxHeight / frameHeight;
    var errorZ := TARGET_RATIO - sizeRatio;
    vz := pidZ.Compute(errorZ, dt);
    if sizeRatio >= EMERGENCY_RATIO {
      vz := BACKWARD_COMMAND;
    }
  }

  // ---------------------------------------------------------------------
  // Dead-band labels
  // ---------------------------------------------------------------------

  const DEAD_BAND: real := 0.02
  const HOLD: string := "HOLD"

  /** The nested `direction` helper. */
  function Direction(v: real, posLabel: string, negLabel: string): (d: string)
    ensures d == HOLD || d == posLabel || d == negLabel
    ensures Abs(v) < DEAD_BAND ==> d == HOLD
  {
    if Abs(v) < DEAD_BAND then HOLD else if v > 0.0 then posLabel else negLabel
  }

  /**
   * The three outcomes: hold inside the dead band, the positive label at
   * or above its upper edge, the negative label at or below its lower edge.
   */
  lemma DirectionCases(v: real, posLabel: string, negLabel: string)
    ensures -DEAD_BAND < v < DEAD_BAND ==> Direction(v, posLabel, negLabel) == HOLD
    ensures posLabel != HOLD && negLabel != HOLD ==>
      (Direction(v, posLabel, negLabel) == HOLD <==> -DEAD_BAND < v < DEAD_BAND)
    ensures v >= DEAD_BAND ==> Direction(v, posLabel, negLabel) == posLabel
    ensures v <= -DEAD_BAND ==> Direction(v, posLabel, negLabel) == negLabel
  {
  }

  /** Negating the command swaps the two labels. */
  lemma DirectionSymmetric(v: real, posLabel: string, negLabel: string)
    ensures Direction(-v, posLabel, negLabel) == Direction(v, negLabel, posLabel)
  {
  }
}
