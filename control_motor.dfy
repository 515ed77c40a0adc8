/** The motor controller's per-channel command logic: the direction / PID-reset
    state machine of `control()`, the H-bridge enable pattern it drives, and the
    clamp arithmetic of the motor step (target ramp, anti-windup integral,
    PWM limit). The filtered speed, the loop period and the PID output are
    inputs of each step. */
module ControlMotor {
  import opened Text

  /** The local ramp rate of the motor step, in RPM per second (it shadows the
      global 30). */
  const RampRate: real := 40.0
  /** A target jump above this resets the PID memory. */
  const ResetJump := 50
  /** The integral accumulates only while |e| is below this. */
  const WindupBand: real := 100.0
  /** The integral is clamped to [-IntegralLimit, IntegralLimit]. */
  const IntegralLimit: real := 100.0
  const MaxPwm := 254

  datatype Level = Low | High

  /** What one motor step takes from outside: the loop period in seconds, the
      newly filtered measured speed, and the PID output. */
  datatype StepInputs = StepInputs(deltaT: real, vFilt: real, u: real)

  /** One channel's state: `prev_dir`, `prev_target`, `eintegral`, `e_prev`,
      `smoothTarget`, and the outputs (PWM duty and the two enable pins). */
  datatype Channel = Channel(prevDir: int, prevTarget: int, eIntegral: real, ePrev: real,
                             smoothTarget: real, pwm: int, en1: Level, en2: Level)

  const Initial := Channel(0, 0, 0.0, 0.0, 0.0, 0, Low, Low)

  function Min(a: real, b: real): (m: real) { if a <= b then a else b }

  /** The soft-start ramp: move `smooth` toward `target` by at most `maxChange`. */
  function Ramp(smooth: real, target: real, maxChange: real): (r: real)
    ensures maxChange >= 0.0 ==> (smooth <= r <= target || target <= r <= smooth)
    ensures maxChange >= 0.0 ==> -maxChange <= r - smooth <= maxChange
    ensures maxChange >= 0.0 && -maxChange <= target - smooth <= maxChange ==> r == target
  {
    if target > smooth then smooth + Min(maxChange, target - smooth)
    else if target < smooth then smooth - Min(maxChange, smooth - target)
    else smooth
  }

  /** `n` successive ramp steps of the same size. */
  function RampSteps(smooth: real, target: real, maxChange: real, n: nat): (r: real)
    decreases n
  {
    if n == 0 then smooth else RampSteps(Ramp(smooth, target, maxChange), target, maxChange, n - 1)
  }

  /** A steady target is reached, and then held, once the steps add up to the gap. */
  lemma {:induction false} RampReachesTarget(smooth: real, target: real, maxChange: real, n: nat)
    requires maxChange >= 0.0
    requires -(n as real) * maxChange <= target - smooth <= (n as real) * maxChange
    ensures RampSteps(smooth, target, maxChange, n) == target
    decreases n
  {
    if n > 0 {
      var next := Ramp(smooth, target, maxChange);
      var m := (n - 1) as real;
      assert (n as real) * maxChange == m * maxChange + maxChange;
      if -maxChange <= target - smooth <= maxChange {
        assert next == target;
        assert m * maxChange >= 0.0;
      } else {
        assert -m * maxChange <= target - next <= m * maxChange;
      }
      RampReachesTarget(next, target, maxChange, n - 1);
    }
  }

  function RealAbs(x: real): (r: real) { if x < 0.0 then -x else x }

  /** Arduino `constrain` on the integral. */
  function ClampIntegral(x: real): (r: real)
    ensures -IntegralLimit <= r <= IntegralLimit
    ensures -IntegralLimit <= x <= IntegralLimit ==> r == x
    ensures x < -IntegralLimit ==> r == -IntegralLimit
    ensures x > IntegralLimit ==> r == IntegralLimit
  {
    if x < -IntegralLimit then -IntegralLimit else if x > IntegralLimit then IntegralLimit else x
  }

  /** Anti-windup: accumulate `e * deltaT` only while |e| < 100, then clamp. */
  function IntegralStep(eIntegral: real, e: real, deltaT: real): (r: real)
    ensures -IntegralLimit <= r <= IntegralLimit
    ensures RealAbs(e) >= WindupBand ==> r == ClampIntegral(eIntegral)
    ensures RealAbs(e) < WindupBand && -IntegralLimit <= eIntegral + e * deltaT <= IntegralLimit ==>
              r == eIntegral + e * deltaT
    ensures RealAbs(e) < WindupBand ==> r == ClampIntegral(eIntegral + e * deltaT)
  {
    ClampIntegral(if RealAbs(e) < WindupBand then eIntegral + e * deltaT else eIntegral)
  }

  /** `(int)fabs(u)` limited to 254. */
  function PwmClamp(u: real): (p: int)
    ensures 0 <= p <= MaxPwm
    ensures RealAbs(u) < MaxPwm as real ==> p as real <= RealAbs(u) < p as real + 1.0
    ensures RealAbs(u) >= MaxPwm as real ==> p == MaxPwm
  {
    var magnitude := RealAbs(u).Floor;
    if magnitude > MaxPwm then MaxPwm else magnitude
  }

  /** The clamp arithmetic of `M1` / `M2` for the integer target of this call. */
  function MotorStep(s: Channel, target: int, inp: StepInputs): (r: Channel)
    ensures -IntegralLimit <= r.eIntegral <= IntegralLimit && 0 <= r.pwm <= MaxPwm
    ensures r.ePrev == r.smoothTarget - inp.vFilt
    ensures inp.deltaT >= 0.0 ==> RealAbs(r.smoothTarget - s.smoothTarget) <= RampRate * inp.deltaT
    ensures r.prevDir == s.prevDir && r.prevTarget == s.prevTarget && r.en1 == s.en1 && r.en2 == s.en2
  {
    var smooth := Ramp(s.smoothTarget, target as real, RampRate * inp.deltaT);
    var e := smooth - inp.vFilt;
    s.(smoothTarget := smooth, eIntegral := IntegralStep(s.eIntegral, e, inp.deltaT), ePrev := e,
       pwm := PwmClamp(inp.u))
  }

  /** The condition on which `control()` clears the PID memory before a step. */
  predicate PidReset(s: Channel, dir: int, target: int): (reset: bool)
    ensures dir == s.prevDir && -ResetJump <= target - s.prevTarget <= ResetJump ==> !reset
    ensures dir != s.prevDir ==> reset
    ensures target - s.prevTarget > ResetJump || s.prevTarget - target > ResetJump ==> reset
  {
    s.prevDir != dir || Abs(target - s.prevTarget) > ResetJump
  }

  /** One channel of `control()`. */
  function ControlSpec(s: Channel, dir: int, target: int, inp: StepInputs): (r: Channel)
    ensures r.prevDir == (if dir == 1 || dir == 2 then dir else 0)
    ensures r.prevTarget == (if dir == 1 || dir == 2 then target else 0)
    ensures dir != 1 && dir != 2 ==> r.pwm == 0
  {
    if dir == 1 || dir == 2 then
      var cleared := if PidReset(s, dir, target) then s.(eIntegral := 0.0, ePrev := 0.0) else s;
      var driven := cleared.(en1 := if dir == 1 then Low else High, en2 := if dir == 1 then High else Low);
      MotorStep(driven, target, inp).(prevTarget := target, prevDir := dir)
    else
      s.(en1 := Low, en2 := Low, pwm := 0, eIntegral := 0.0, ePrev := 0.0, prevTarget := 0, prevDir := 0)
  }

  /** The state every call keeps: the integral within its clamp, the PWM within
      [0, 254] and the two enable pins never both high. */
  predicate ChannelSafe(s: Channel) {
    -IntegralLimit <= s.eIntegral <= IntegralLimit && 0 <= s.pwm <= MaxPwm && !(s.en1 == High && s.en2 == High)
  }

  lemma ControlKeepsSafe(s: Channel, dir: int, target: int, inp: StepInputs)
    ensures ChannelSafe(ControlSpec(s, dir, target, inp))
  {
  }

  /** The H-bridge pattern follows the direction alone: forward drives EN2,
      backward drives EN1, anything else drives neither. */
  lemma EnablePattern(s: Channel, dir: int, target: int, inp: StepInputs)
    ensures var r := ControlSpec(s, dir, target, inp);
      (dir == 1 <==> r.en1 == Low && r.en2 == High)
      && (dir == 2 <==> r.en1 == High && r.en2 == Low)
      && (dir != 1 && dir != 2 <==> r.en1 == Low && r.en2 == Low)
  {
  }

  /** A direction other than 1 or 2 stops the channel and forgets its history,
      all but the ramp's smoothed target, which keeps its value. */
  lemma StopResets(s: Channel, dir: int, target: int, inp: StepInputs)
    requires dir != 1 && dir != 2
    ensures var r := ControlSpec(s, dir, target, inp);
      r.pwm == 0 && r.en1 == Low && r.en2 == Low && r.eIntegral == 0.0 && r.ePrev == 0.0
      && r.prevTarget == 0 && r.prevDir == 0 && r.smoothTarget == s.smoothTarget
  {
  }

  /** With direction 1 or 2, the integral the step accumulates onto is zero
      exactly when the direction changed or the target jumped by more than 50,
      and the old integral otherwise; afterwards the channel remembers this
      call's direction and target. */
  lemma DriveStep(s: Channel, dir: int, target: int, inp: StepInputs)
    requires dir == 1 || dir == 2
    ensures var r := ControlSpec(s, dir, target, inp);
      var e := r.smoothTarget - inp.vFilt;
      r.prevDir == dir && r.prevTarget == target && r.ePrev == e
      && r.eIntegral == IntegralStep(if PidReset(s, dir, target) then 0.0 else s.eIntegral, e, inp.deltaT)
      && r.smoothTarget == Ramp(s.smoothTarget, target as real, RampRate * inp.deltaT)
      && r.pwm == PwmClamp(inp.u)
  {
  }

  /** Repeating the same command never resets the PID memory. */
  lemma RepeatedCommandKeepsMemory(s: Channel, dir: int, target: int, inp: StepInputs)
    requires dir == 1 || dir == 2
    ensures !PidReset(ControlSpec(s, dir, target, inp), dir, target)
  {
  }

  /** With a non-negative period the smoothed target moves toward the command
      by at most 40 RPM per second of period and never past it. */
  lemma RampBound(s: Channel, dir: int, target: int, inp: StepInputs)
    requires dir == 1 || dir == 2
    requires inp.deltaT >= 0.0
    ensures var r := ControlSpec(s, dir, target, inp);
      RealAbs(r.smoothTarget - s.smoothTarget) <= RampRate * inp.deltaT
      && (s.smoothTarget <= r.smoothTarget <= target as real || target as real <= r.smoothTarget <= s.smoothTarget)
  {
  }

  // ---------------------------------------------------------------------------
  // The channel objects
  // ---------------------------------------------------------------------------

  /** One motor's `control()` statics and globals and its outputs. */
  class MotorChannel {
    var prevDir: int
    var prevTarget: int
    var eIntegral: real
    var ePrev: real
    var smoothTarget: real
    var pwm: int
    var en1: Level
    var en2: Level

    function State(): Channel
      reads this
    {
      Channel(prevDir, prevTarget, eIntegral, ePrev, smoothTarget, pwm, en1, en2)
    }

    constructor ()
      ensures State() == Initial && ChannelSafe(State())
    {
      prevDir, prevTarget := 0, 0;
      eIntegral, ePrev, smoothTarget := 0.0, 0.0, 0.0;
      pwm := 0;
      en1, en2 := Low, Low;
    }

    /** The `M1` / `M2` step after the pins are set. */
    method Step(target: int, inp: StepInputs)
      modifies this
      ensures State() == MotorStep(old(State()), target, inp)
    {
      var maxChange := RampRate * inp.deltaT;
      var t := target as real;
      var smooth := smoothTarget;
      if t > smooth {
        smooth := smooth + Min(maxChange, t - smooth);
      } else if t < smooth {
        smooth := smooth - Min(maxChange, smooth - t);
      }
      assert smooth == Ramp(smoothTarget, t, maxChange);
      var e := smooth - inp.vFilt;
      var integral := eIntegral;
      if RealAbs(e) < WindupBand {
        integral := integral + e * inp.deltaT;
      }
      integral := ClampIntegral(integral);
      assert integral == IntegralStep(eIntegral, e, inp.deltaT);
      var pwr := RealAbs(inp.u).Floor;
      if pwr > MaxPwm {
        pwr := MaxPwm;
      }
      assert pwr == PwmClamp(inp.u);
      smoothTarget, eIntegral, ePrev, pwm := smooth, integral, e, pwr;
    }

    /** One channel of `control()`. */
    method Control(dir: int, target: int, inp: StepInputs)
      modifies this
      ensures State() == ControlSpec(old(State()), dir, target, inp)
      ensures ChannelSafe(State())
    {
      ControlKeepsSafe(State(), dir, target, inp);
      if dir == 1 || dir == 2 {
        if prevDir != dir || Abs(target - prevTarget) > ResetJump {
          eIntegral := 0.0;
          ePrev := 0.0;
        }
        if dir == 1 {
          en1, en2 := Low, High;
        } else {
          en1, en2 := High, Low;
        }
        Step(target, inp);
        prevTarget := target;
        prevDir := dir;
      } else {
        en1, en2 := Low, Low;
        pwm := 0;
        eIntegral := 0.0;
        ePrev := 0.0;
        prevTarget := 0;
        prevDir := 0;
      }
    }
  }

  /** The two channels `control()` drives. */
  class DualMotor {
    const left: MotorChannel
    const right: MotorChannel

    ghost predicate Valid()
      reads this, left, right
    {
      left != right && ChannelSafe(left.State()) && ChannelSafe(right.State())
    }

    constructor ()
      ensures Valid() && fresh(left) && fresh(right)
      ensures left.State() == Initial && right.State() == Initial
    {
      left := new MotorChannel();
      right := new MotorChannel();
    }

    /** `control(dir_L, target_L, dir_R, target_R)`: each channel's new state
        depends on its own command and inputs only. */
    method Control(dirL: int, targetL: int, dirR: int, targetR: int, inL: StepInputs, inR: StepInputs)
      requires Valid()
      modifies left, right
      ensures Valid()
      ensures left.State() == ControlSpec(old(left.State()), dirL, targetL, inL)
      ensures right.State() == ControlSpec(old(right.State()), dirR, targetR, inR)
    {
      left.Control(dirL, targetL, inL);
      right.Control(dirR, targetR, inR);
    }
  }
}
