/** `find_movement_after_applying_pid_controller` of
    `src/scripts/motion_simulation.py`: a discrete PID loop driving a plant
    from the initial value 50 for 1500 samples. The plant (a sine of the
    control signal, rounded to ten decimals) is a parameter. */
module Simulation {

  /** The plant: the next sample for a control signal. */
  type Plant = real -> real

  const InitialValue: real := 50.0
  const Samples: nat := 1500

  /** The error at step `i` (from 1): the set point minus the previous
      sample. */
  function StepError(output: seq<real>, setPoint: real, i: nat): real
    requires 1 <= i <= |output|
  {
    setPoint - output[i - 1]
  }

  /** The integral term after step `i`: the errors of steps 1 to `i`. */
  function ErrorSum(output: seq<real>, setPoint: real, i: nat): real
    requires i <= |output|
  {
    if i == 0 then 0.0 else ErrorSum(output, setPoint, i - 1) + StepError(output, setPoint, i)
  }

  /** The derivative term at step `i`: the change of the error since the
      previous step, where the error before step 1 counts as 0. */
  function ErrorChange(output: seq<real>, setPoint: real, i: nat): real
    requires 1 <= i <= |output|
  {
    StepError(output, setPoint, i) - (if i == 1 then 0.0 else StepError(output, setPoint, i - 1))
  }

  /** `kp * error + ki * integral + kd * derivative`. */
  function Pid(kp: real, ki: real, kd: real, error: real, integral: real, derivative: real): real
  {
    kp * error + ki * integral + kd * derivative
  }

  /** The control signal at step `i`. */
  function Control(kp: real, ki: real, kd: real, output: seq<real>, setPoint: real, i: nat): real
    requires 1 <= i <= |output|
  {
    Pid(kp, ki, kd, StepError(output, setPoint, i), ErrorSum(output, setPoint, i), ErrorChange(output, setPoint, i))
  }

  /** A run of the loop: it starts at 50 and every later sample is the plant's
      answer to the control signal computed from the samples before it. */
  ghost predicate FollowsPid(output: seq<real>, kp: real, ki: real, kd: real, setPoint: real, plant: Plant)
  {
    |output| >= 1 && output[0] == InitialValue &&
    forall i {:trigger Control(kp, ki, kd, output, setPoint, i)} ::
      1 <= i < |output| ==> output[i] == plant(Control(kp, ki, kd, output, setPoint, i))
  }

  /** The terms of step `i` only read the samples before it. */
  lemma {:induction false} ErrorSumPrefix(output: seq<real>, longer: seq<real>, setPoint: real, i: nat)
    requires |output| <= |longer| && output == longer[..|output|]
    requires i <= |output|
    ensures ErrorSum(longer, setPoint, i) == ErrorSum(output, setPoint, i)
  {
    if i > 0 {
      ErrorSumPrefix(output, longer, setPoint, i - 1);
      assert longer[i - 1] == output[i - 1];
    }
  }

  lemma ControlPrefix(kp: real, ki: real, kd: real, output: seq<real>, longer: seq<real>, setPoint: real, i: nat)
    requires |output| <= |longer| && output == longer[..|output|]
    requires 1 <= i <= |output|
    ensures Control(kp, ki, kd, longer, setPoint, i) == Control(kp, ki, kd, output, setPoint, i)
  {
    ErrorSumPrefix(output, longer, setPoint, i);
    assert longer[i - 1] == output[i - 1];
    assert i > 1 ==> longer[i - 2] == output[i - 2];
  }

  /** At step 1 the integral and the derivative both equal the error, since
      the integral and the previous error start at 0: the first control
      signal is `(kp + ki + kd) * (set_point - 50)`. */
  lemma FirstStep(output: seq<real>, kp: real, ki: real, kd: real, setPoint: real, plant: Plant)
    requires FollowsPid(output, kp, ki, kd, setPoint, plant) && |output| >= 2
    ensures ErrorSum(output, setPoint, 1) == ErrorChange(output, setPoint, 1) == setPoint - InitialValue
    ensures var e := setPoint - InitialValue;
            output[1] == plant(Pid(kp, ki, kd, e, e, e)) &&
            Pid(kp, ki, kd, e, e, e) == (kp + ki + kd) * e
  {
    var e := setPoint - InitialValue;
    assert StepError(output, setPoint, 1) == e;
    assert ErrorSum(output, setPoint, 1) == e;
    assert output[1] == plant(Control(kp, ki, kd, output, setPoint, 1));
  }

  /** A prefix of a run is a run. */
  lemma FollowsPidPrefix(output: seq<real>, n: nat, kp: real, ki: real, kd: real, setPoint: real, plant: Plant)
    requires FollowsPid(output, kp, ki, kd, setPoint, plant) && 1 <= n <= |output|
    ensures FollowsPid(output[..n], kp, ki, kd, setPoint, plant)
  {
    var prefix := output[..n];
    forall i | 1 <= i < n
      ensures prefix[i] == plant(Control(kp, ki, kd, prefix, setPoint, i))
    {
      ControlPrefix(kp, ki, kd, prefix, output, setPoint, i);
    }
  }

  /** The last sample of a run is the plant's answer to the control
      computed from the samples before it. */
  lemma NextSample(output: seq<real>, kp: real, ki: real, kd: real, setPoint: real, plant: Plant)
    requires FollowsPid(output, kp, ki, kd, setPoint, plant) && |output| >= 2
    ensures var n := |output| - 1;
            output[n] == plant(Control(kp, ki, kd, output[..n], setPoint, n))
  {
    var n := |output| - 1;
    ControlPrefix(kp, ki, kd, output[..n], output, setPoint, n);
  }

  /** The run is determined by the gains, the set point, the plant and its
      length: two runs of the same length are equal. */
  lemma {:induction false} FollowsPidUnique(a: seq<real>, b: seq<real>, kp: real, ki: real, kd: real,
                                            setPoint: real, plant: Plant)
    requires FollowsPid(a, kp, ki, kd, setPoint, plant) && FollowsPid(b, kp, ki, kd, setPoint, plant)
    requires |a| == |b|
    ensures a == b
    decreases |a|
  {
    if |a| > 1 {
      var n := |a| - 1;
      var a', b' := a[..n], b[..n];
      FollowsPidPrefix(a, n, kp, ki, kd, setPoint, plant);
      FollowsPidPrefix(b, n, kp, ki, kd, setPoint, plant);
      FollowsPidUnique(a', b', kp, ki, kd, setPoint, plant);
      NextSample(a, kp, ki, kd, setPoint, plant);
      NextSample(b, kp, ki, kd, setPoint, plant);
      assert a == a' + [a[n]] && b == b' + [b[n]];
    } else {
      assert a == [InitialValue] == b;
    }
  }

  /** `find_movement_after_applying_pid_controller(kp, ki, kd, set_point)`:
      1500 samples of the loop. */
  method FindMovement(kp: real, ki: real, kd: real, setPoint: real, plant: Plant) returns (output: seq<real>)
    ensures |output| == Samples
    ensures FollowsPid(output, kp, ki, kd, setPoint, plant)
  {
    output := [InitialValue];
    var integral := 0.0;
    var derivative := 0.0;
    var previousError := 0.0;
    for i := 1 to Samples
      invariant |output| == i
      invariant FollowsPid(output, kp, ki, kd, setPoint, plant)
      invariant integral == ErrorSum(output, setPoint, i - 1)
      invariant previousError == if i == 1 then 0.0 else StepError(output, setPoint, i - 1)
    {
      var error := setPoint - output[i - 1];
      integral := integral + error;
      derivative := error - previousError;
      assert error == StepError(output, setPoint, i);
      assert integral == ErrorSum(output, setPoint, i);
      assert derivative == ErrorChange(output, setPoint, i);
      var u := Pid(kp, ki, kd, error, integral, derivative);
      ghost var before := output;
      output := output + [plant(u)];
      assert before == output[..i];
      forall j | 1 <= j <= i
        ensures Control(kp, ki, kd, output, setPoint, j) == Control(kp, ki, kd, before, setPoint, j)
      {
        ControlPrefix(kp, ki, kd, before, output, setPoint, j);
      }
      ErrorSumPrefix(before, output, setPoint, i);
      previousError := error;
    }
  }
}
