/**
 * The motors.ts variant of the robotAtom driver: two motors, `right` on
 * the channel pair 0/1 and `left` on 6/7, servos S1..S8 on channels 8..15,
 * a bias per motor, and a stop-all that stops only those two motors.
 * Every entry point that may initialise the chip takes `mode`, the byte
 * the chip's MODE1 register reads back during initialisation.
 */
module AtomMotors {
  import opened PwmMath
  import opened Pca9685
  import opened MotorPlan

  /** The `Motors` enum of this variant. */
  const Right := 1
  const Left := 4

  /** The calls of MotorStopAll: stopMotor(left), then stopMotor(right). */
  function StopAllCalls(): (calls: seq<PwmCall>)
    ensures calls == [PwmCall(6, 0, 0), PwmCall(7, 0, 0), PwmCall(0, 0, 0), PwmCall(1, 0, 0)]
  {
    StopCalls(Left) + StopCalls(Right)
  }

  /**
   * MotorStopAll zeroes channels 6, 7, 0 and 1 and nothing else: the
   * motor pairs 2/3 and 4/5, which MotorRun still accepts as indices 2 and
   * 3, and the servo channels keep whatever they held.
   */
  lemma StopAllTable(t: Table)
    ensures forall k :: k in {0, 1, 6, 7} ==> Apply(t, StopAllCalls())[k] == (0, 0)
    ensures forall k :: 0 <= k < 16 && k !in {0, 1, 6, 7} ==> Apply(t, StopAllCalls())[k] == t[k]
  {
    var t1 := Apply(t, StopCalls(Left));
    StopMotorTable(t, Left);
    StopMotorTable(t1, Right);
    ApplyAppend(t, StopCalls(Left), StopCalls(Right));
  }

  /** A motor run on index 2 is not undone by MotorStopAll. */
  lemma StopAllMissesIndexTwo(t: Table, speed: int)
    requires speed > 0
    ensures Apply(Apply(t, MotorCalls(2, speed)), StopAllCalls())[2] == (0, SpeedTicks(speed))
  {
    var t1 := Apply(t, MotorCalls(2, speed));
    MotorRunTable(t, 2, speed);
    StopAllTable(t1);
  }

  /** The two named motors drive channels 0/1 (right) and 6/7 (left). */
  lemma NamedMotorChannels(speed: int)
    ensures MotorCalls(Right, speed)[0].channel == 0 && MotorCalls(Right, speed)[1].channel == 1
    ensures MotorCalls(Left, speed)[0].channel == 6 && MotorCalls(Left, speed)[1].channel == 7
  {
  }

  class Robot {
    const chip: Chip
    var biasRight: int
    var biasLeft: int

    ghost predicate Valid()
      reads this, chip, chip.channels
    {
      chip.Valid()
    }

    /** The module state at start-up: not initialised, no traffic, both biases 0. */
    constructor ()
      ensures Valid() && fresh(chip) && fresh(chip.channels)
      ensures !chip.initialized && chip.trace == []
      ensures biasRight == 0 && biasLeft == 0
    {
      chip := new Chip();
      biasRight, biasLeft := 0, 0;
    }

    /** stopMotor(index): both channels of the pair to (0, 0), without initialising. */
    method StopMotor(index: int)
      requires Valid()
      modifies chip`trace, chip.channels
      ensures Valid()
      ensures chip.trace == old(chip.trace) + Emit(StopCalls(index))
      ensures chip.channels[..] == Apply(old(chip.channels[..]), StopCalls(index))
    {
      chip.SetPwm((index - 1) * 2, 0, 0);
      chip.SetPwm((index - 1) * 2 + 1, 0, 0);
      var calls := StopCalls(index);
      TwoCalls(old(chip.channels[..]), calls[0], calls[1]);
      assert calls == [calls[0], calls[1]];
    }

    /**
     * motorBalance(motor, balance): the selected motor's bias becomes
     * round(1.75 * balance); the other bias and the chip are untouched, and
     * a motor other than right or left changes nothing.
     */
    method MotorBalance(motor: int, balance: int)
      modifies this`biasRight, this`biasLeft
      ensures biasRight == if motor == Right then RoundBias(balance) else old(biasRight)
      ensures biasLeft == if motor == Left then RoundBias(balance) else old(biasLeft)
      ensures chip.trace == old(chip.trace) && chip.initialized == old(chip.initialized)
    {
      if motor == Right {
        biasRight := RoundBias(balance);
      } else if motor == Left {
        biasLeft := RoundBias(balance);
      }
    }

    /**
     * MotorRun(index, speed): initialise once if needed, then program the
     * motor's channel pair from the clamped speed. The guard accepts every
     * index in 1..4, not only the two named motors; the biases are not
     * consulted.
     */
    method MotorRun(index: int, speed: int, mode: Byte)
      requires Valid()
      modifies chip`trace, chip`initialized, chip.channels
      ensures Valid() && chip.initialized
      ensures chip.trace == old(chip.trace) + Startup(old(chip.initialized), mode) + Emit(MotorCalls(index, speed))
      ensures chip.channels[..] == Apply(Restarted(old(chip.initialized), old(chip.channels[..])), MotorCalls(index, speed))
    {
      if !chip.initialized {
        chip.Init(mode);
      }
      if index > 4 || index <= 0 {
        return;
      }
      DriveMotor(chip, index, speed);
    }

    /** MotorStop(index) is MotorRun(index, 0). */
    method MotorStop(index: int, mode: Byte)
      requires Valid()
      modifies chip`trace, chip`initialized, chip.channels
      ensures Valid() && chip.initialized
      ensures chip.trace == old(chip.trace) + Startup(old(chip.initialized), mode) + Emit(MotorCalls(index, 0))
      ensures chip.channels[..] == Apply(Restarted(old(chip.initialized), old(chip.channels[..])), MotorCalls(index, 0))
    {
      MotorRun(index, 0, mode);
    }

    /** MotorStopAll: initialise once if needed, then stopMotor(left), stopMotor(right). */
    method MotorStopAll(mode: Byte)
      requires Valid()
      modifies chip`trace, chip`initialized, chip.channels
      ensures Valid() && chip.initialized
      ensures chip.trace == old(chip.trace) + Startup(old(chip.initialized), mode) + Emit(StopAllCalls())
      ensures chip.channels[..] == Apply(Restarted(old(chip.initialized), old(chip.channels[..])), StopAllCalls())
    {
      if !chip.initialized {
        chip.Init(mode);
      }
      ghost var t0 := chip.trace;
      ghost var table0: Table := chip.channels[..];
      StopMotor(Left);
      StopMotor(Right);
      CallsAppend(t0, table0, StopCalls(Left), StopCalls(Right));
    }

    /** MotorRunBoth(speedLeft, speedRight): MotorRun(left, speedLeft), then MotorRun(right, speedRight). */
    method MotorRunBoth(speedLeft: int, speedRight: int, mode: Byte)
      requires Valid()
      modifies chip`trace, chip`initialized, chip.channels
      ensures Valid() && chip.initialized
      ensures chip.trace == old(chip.trace) + Startup(old(chip.initialized), mode)
                            + Emit(MotorCalls(Left, speedLeft) + MotorCalls(Right, speedRight))
      ensures chip.channels[..] == Apply(Restarted(old(chip.initialized), old(chip.channels[..])),
                                         MotorCalls(Left, speedLeft) + MotorCalls(Right, speedRight))
    {
      MotorRun(Left, speedLeft, mode);
      MotorRun(Right, speedRight, mode);
      SessionAppend(old(chip.trace) + Startup(old(chip.initialized), mode),
                    Restarted(old(chip.initialized), old(chip.channels[..])),
                    mode, MotorCalls(Left, speedLeft), MotorCalls(Right, speedRight));
    }

    /**
     * Servo(index, degree): initialise once if needed, then program channel
     * index + 7 with the servo ticks of the angle (nothing past channel 15).
     */
    method Servo(index: int, degree: int, mode: Byte)
      requires Valid()
      modifies chip`trace, chip`initialized, chip.channels
      ensures Valid() && chip.initialized
      ensures chip.trace == old(chip.trace) + Startup(old(chip.initialized), mode) + Emit([ServoCall(index, degree)])
      ensures chip.channels[..] == Apply(Restarted(old(chip.initialized), old(chip.channels[..])), [ServoCall(index, degree)])
    {
      if !chip.initialized {
        chip.Init(mode);
      }
      var vUs := ServoPulse(degree);
      var value := TruncDiv(vUs * 4096, 20000);
      chip.SetPwm(index + 7, 0, value);
      assert [ServoCall(index, degree)][..0] == [];
    }
  }
}
