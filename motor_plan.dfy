/**
 * The motor and servo layer as plans of channel calls: which setPwm calls
 * MotorRun, stopMotor and Servo make, in order, and what they leave in the
 * channel table. Both driver variants share this arithmetic; they differ
 * only in which motor indices they name and in how they stop all motors.
 */
module MotorPlan {
  import opened PwmMath
  import opened Pca9685

  /** MotorRun returns early unless `0 < index <= 4`. */
  predicate IsMotorIndex(index: int)
  {
    0 < index <= 4
  }

  /**
   * The channel calls of MotorRun(index, speed): none for an index outside
   * 1..4; otherwise the H-bridge pair 2(index-1), 2(index-1)+1 with `on` 0,
   * where the first channel carries a forward speed and the second a
   * reverse one, and the other channel of the pair is idle.
   */
  function MotorCalls(index: int, speed: int): (calls: seq<PwmCall>)
    ensures !IsMotorIndex(index) ==> calls == []
    ensures IsMotorIndex(index) ==>
      |calls| == 2 &&
      calls[0].channel == 2 * (index - 1) && calls[1].channel == 2 * (index - 1) + 1 &&
      calls[0].on == 0 && calls[1].on == 0
    ensures IsMotorIndex(index) ==>
      0 <= calls[0].off <= 4095 && 0 <= calls[1].off <= 4095 &&
      (calls[0].off == 0 || calls[1].off == 0) &&
      calls[0].off + calls[1].off == Abs(SpeedTicks(speed)) &&
      (calls[0].off > 0 <==> speed > 0) && (calls[1].off > 0 <==> speed < 0)
  {
    if !IsMotorIndex(index) then []
    else
      var t := SpeedTicks(speed);
      var pp := (index - 1) * 2;
      var pn := (index - 1) * 2 + 1;
      if t >= 0 then [PwmCall(pp, 0, t), PwmCall(pn, 0, 0)]
      else [PwmCall(pp, 0, 0), PwmCall(pn, 0, -t)]
  }

  /** The channel calls of stopMotor(index): both channels of the pair to (0, 0). */
  function StopCalls(index: int): (calls: seq<PwmCall>)
    ensures |calls| == 2 && calls[0].channel + 1 == calls[1].channel
  {
    [PwmCall((index - 1) * 2, 0, 0), PwmCall((index - 1) * 2 + 1, 0, 0)]
  }

  /**
   * The channel call of Servo(index, degree): channel index + 7, on 0, and
   * over the servo's 0..180 degree range an off tick in 122..491.
   */
  function ServoCall(index: int, degree: int): (c: PwmCall)
    ensures c.channel == index + 7 && c.on == 0
    ensures 0 <= degree <= 180 ==> 122 <= c.off <= 491
  {
    var ticks := ServoTicks(degree);
    assert 0 <= degree <= 180 ==> 122 <= ticks <= 491 by {
      if 0 <= degree <= 180 {
        ServoTicksRange(degree);
      }
    }
    PwmCall(index + 7, 0, ticks)
  }

  /**
   * MotorRun on a valid index sets its pair to (0, t), (0, 0) for a speed
   * with tick value t >= 0 and to (0, 0), (0, -t) otherwise; every other
   * channel keeps its value. On an invalid index the table is unchanged.
   */
  lemma MotorRunTable(t: Table, index: int, speed: int)
    ensures !IsMotorIndex(index) ==> Apply(t, MotorCalls(index, speed)) == t
    ensures IsMotorIndex(index) ==>
      Apply(t, MotorCalls(index, speed)) ==
        t[2 * (index - 1) := (0, Max(SpeedTicks(speed), 0))]
         [2 * (index - 1) + 1 := (0, Max(-SpeedTicks(speed), 0))]
  {
    if IsMotorIndex(index) {
      MotorCallsPair(index, speed);
      PairTable(t, 2 * (index - 1), Max(SpeedTicks(speed), 0), 2 * (index - 1) + 1, Max(-SpeedTicks(speed), 0));
    }
  }

  /** Both directions in one formula: the pair gets (0, max(t, 0)) and (0, max(-t, 0)). */
  lemma MotorCallsPair(index: int, speed: int)
    requires IsMotorIndex(index)
    ensures MotorCalls(index, speed) ==
      [PwmCall(2 * (index - 1), 0, Max(SpeedTicks(speed), 0)),
       PwmCall(2 * (index - 1) + 1, 0, Max(-SpeedTicks(speed), 0))]
  {
  }

  /** On a valid index, MotorRun at speed 0 makes exactly the calls of stopMotor. */
  lemma StopIsRunAtZero(index: int)
    requires IsMotorIndex(index)
    ensures MotorCalls(index, 0) == StopCalls(index)
  {
  }

  /** stopMotor leaves both channels of a valid pair at (0, 0) and every other channel as it was. */
  lemma StopMotorTable(t: Table, index: int)
    requires IsMotorIndex(index)
    ensures Apply(t, StopCalls(index)) == t[2 * (index - 1) := (0, 0)][2 * (index - 1) + 1 := (0, 0)]
  {
    var calls := StopCalls(index);
    var a, b := calls[0], calls[1];
    TwoCalls(t, a, b);
    assert calls == [a, b];
    var t1 := ApplyOne(t, a);
    assert t1 == t[a.channel := (0, 0)];
    assert Apply(t, calls) == ApplyOne(t1, b);
  }

  /**
   * Servo writes channel index + 7 when that is a channel and nothing
   * otherwise; over 0..180 degrees the channel holds 122..491 ticks.
   */
  lemma ServoTable(t: Table, index: int, degree: int)
    ensures IsChannel(index + 7) ==>
      Apply(t, [ServoCall(index, degree)]) == t[index + 7 := (0, ServoTicks(degree) % 65536)]
    ensures !IsChannel(index + 7) ==>
      Apply(t, [ServoCall(index, degree)]) == t && Emit([ServoCall(index, degree)]) == []
    ensures IsChannel(index + 7) && 0 <= degree <= 180 ==>
      Apply(t, [ServoCall(index, degree)])[index + 7] == (0, ServoTicks(degree))
  {
    assert [ServoCall(index, degree)][..0] == [];
    if 0 <= degree <= 180 {
      ServoTicksRange(degree);
    }
  }

  /** The worked examples: speed +-128 on motor 1 is 2048 ticks; servo 1 at 90 degrees is 307 ticks on channel 8. */
  lemma Examples()
    ensures MotorCalls(1, 128) == [PwmCall(0, 0, 2048), PwmCall(1, 0, 0)]
    ensures MotorCalls(1, -128) == [PwmCall(0, 0, 0), PwmCall(1, 0, 2048)]
    ensures ServoCall(1, 90) == PwmCall(8, 0, 307)
  {
    ServoTicksRange(90);
  }

  /**
   * The part of MotorRun past its index guard, shared by both driver
   * variants: the clamped speed goes to the first channel of the pair when
   * it is not negative and its magnitude to the second channel otherwise;
   * the idle channel of the pair gets 0.
   */
  method DriveMotor(chip: Chip, index: int, speed: int)
    requires chip.Valid() && IsMotorIndex(index)
    modifies chip`trace, chip.channels
    ensures chip.Valid()
    ensures chip.trace == old(chip.trace) + Emit(MotorCalls(index, speed))
    ensures chip.channels[..] == Apply(old(chip.channels[..]), MotorCalls(index, speed))
  {
    var s := SpeedTicks(speed);
    var pp := (index - 1) * 2;
    var pn := (index - 1) * 2 + 1;
    if s >= 0 {
      chip.SetPwm(pp, 0, s);
      chip.SetPwm(pn, 0, 0);
    } else {
      chip.SetPwm(pp, 0, 0);
      chip.SetPwm(pn, 0, -s);
    }
    MotorCallsPair(index, speed);
    TwoCalls(old(chip.channels[..]), PwmCall(pp, 0, Max(s, 0)), PwmCall(pn, 0, Max(-s, 0)));
  }
}
