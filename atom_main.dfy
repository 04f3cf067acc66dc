/**
 * The main.ts variant of the robotAtom driver: four motors M1A, M1B, M2A,
 * M2B on the channel pairs 0/1, 2/3, 4/5, 6/7, servos S1..S8 on channels
 * 8..15, a bias per motor, and a stop-all that zeroes every motor pair.
 * Every entry point that may initialise the chip takes `mode`, the byte
 * the chip's MODE1 register reads back during initialisation.
 */
module AtomMain {
  import opened PwmMath
  import opened Pca9685
  import opened MotorPlan

  /** The `Motors` enum. */
  const M1A := 1
  const M1B := 2
  const M2A := 3
  const M2B := 4

  /** The `Servos` enum runs from S1 = 1 to S8 = 8. */
  const S1 := 1
  const S8 := 8

  /** The servos S1..S8 drive channels 8..15, each a channel of its own. */
  lemma ServoChannels(index: int, degree: int)
    requires S1 <= index <= S8
    ensures 8 <= ServoCall(index, degree).channel <= 15
    ensures forall other :: S1 <= other <= S8 && other != index ==>
      ServoCall(other, degree).channel != ServoCall(index, degree).channel
  {
  }

  /** stopMotor for indices 1..4, in that order, zeroes channels 0..7 in order. */
  lemma StopAllCalls(idx: int)
    requires 1 <= idx <= 4
    ensures ZeroCalls(2 * (idx - 1)) + StopCalls(idx) == ZeroCalls(2 * idx)
  {
  }

  /** One more stopMotor extends the traffic and the table of the ones before it. */
  lemma StopAllStep(t0: seq<BusEvent>, table0: Table, idx: int)
    requires 1 <= idx <= 4
    ensures t0 + Emit(ZeroCalls(2 * (idx - 1))) + Emit(StopCalls(idx)) == t0 + Emit(ZeroCalls(2 * idx))
    ensures Apply(Apply(table0, ZeroCalls(2 * (idx - 1))), StopCalls(idx)) == Apply(table0, ZeroCalls(2 * idx))
  {
    StopAllCalls(idx);
    EmitAppend(ZeroCalls(2 * (idx - 1)), StopCalls(idx));
    ApplyAppend(table0, ZeroCalls(2 * (idx - 1)), StopCalls(idx));
  }

  /**
   * After MotorStopAll every motor channel 0..7 is (0, 0), whatever it held
   * before, and the servo channels 8..15 are as they were.
   */
  lemma StopAllTable(t: Table)
    ensures forall k :: 0 <= k < 8 ==> Apply(t, ZeroCalls(8))[k] == (0, 0)
    ensures forall k :: 8 <= k < 16 ==> Apply(t, ZeroCalls(8))[k] == t[k]
  {
    ApplyZeroCalls(t, 8);
  }

  /** MotorRunAtomStyle drives M1A on channels 0/1, then M2B on channels 6/7. */
  lemma AtomStyleChannels(speed1: int, speed2: int)
    ensures MotorCalls(M1A, speed1)[0].channel == 0 && MotorCalls(M1A, speed1)[1].channel == 1
    ensures MotorCalls(M2B, speed2)[0].channel == 6 && MotorCalls(M2B, speed2)[1].channel == 7
  {
  }

  class Robot {
    const chip: Chip
    var biasM1A: int
    var biasM1B: int
    var biasM2A: int
    var biasM2B: int

    ghost predicate Valid()
      reads this, chip, chip.channels
    {
      chip.Valid()
    }

    /** The module state at start-up: not initialised, no traffic, all biases 0. */
    constructor ()
      ensures Valid() && fresh(chip) && fresh(chip.channels)
      ensures !chip.initialized && chip.trace == []
      ensures biasM1A == 0 && biasM1B == 0 && biasM2A == 0 && biasM2B == 0
    {
      chip := new Chip();
      biasM1A, biasM1B, biasM2A, biasM2B := 0, 0, 0, 0;
    }

    /** stopMotor(index): both channels of the pair to (0, 0), without initialising. */
    method StopMotor(index: int)
      requires Valid()
      modifies chip`trace, chip.channels
      ensures Valid()
      ensures chip.trace == old(chip.trace) + Emit(StopCalls(index))
      ensures chip.channels[..] == Apply(old(chip.channels[..]), StopCalls(index))
    {
      chip.SetPwm((index - 1) * 2, 0, 0);
      chip.SetPwm((index - 1) * 2 + 1, 0, 0);
      var calls := StopCalls(index);
      TwoCalls(old(chip.channels[..]), calls[0], calls[1]);
      assert calls == [calls[0], calls[1]];
    }

    /**
     * motorBalance(motor, balance): the selected motor's bias becomes
     * round(1.75 * balance); the other biases, the chip and the bus are
     * untouched, and a motor outside the enum changes nothing.
     */
    method MotorBalance(motor: int, balance: int)
      modifies this`biasM1A, this`biasM1B, this`biasM2A, this`biasM2B
      ensures biasM1A == if motor == M1A then RoundBias(balance) else old(biasM1A)
      ensures biasM1B == if motor == M1B then RoundBias(balance) else old(biasM1B)
      ensures biasM2A == if motor == M2A then RoundBias(balance) else old(biasM2A)
      ensures biasM2B == if motor == M2B then RoundBias(balance) else old(biasM2B)
      ensures chip.trace == old(chip.trace) && chip.initialized == old(chip.initialized)
    {
      if motor == M1A {
        biasM1A := RoundBias(balance);
      } else if motor == M1B {
        biasM1B := RoundBias(balance);
      } else if motor == M2A {
        biasM2A := RoundBias(balance);
      } else if motor == M2B {
        biasM2B := RoundBias(balance);
      }
    }

    /**
     * MotorRun(index, speed): initialise once if needed, then program the
     * motor's channel pair from the clamped speed; an index outside 1..4
     * programs nothing. The biases are not consulted.
     */
    method MotorRun(index: int, speed: int, mode: Byte)
      requires Valid()
      modifies chip`trace, chip`initialized, chip.channels
      ensures Valid() && chip.initialized
      ensures chip.trace == old(chip.trace) + Startup(old(chip.initialized), mode) + Emit(MotorCalls(index, speed))
      ensures chip.channels[..] == Apply(Restarted(old(chip.initialized), old(chip.channels[..])), MotorCalls(index, speed))
    {
      if !chip.initialized {
        chip.Init(mode);
      }
      if index > 4 || index <= 0 {
        return;
      }
      DriveMotor(chip, index, speed);
    }

    /** MotorStop(index) is MotorRun(index, 0). */
    method MotorStop(index: int, mode: Byte)
      requires Valid()
      modifies chip`trace, chip`initialized, chip.channels
      ensures Valid() && chip.initialized
      ensures chip.trace == old(chip.trace) + Startup(old(chip.initialized), mode) + Emit(MotorCalls(index, 0))
      ensures chip.channels[..] == Apply(Restarted(old(chip.initialized), old(chip.channels[..])), MotorCalls(index, 0))
    {
      MotorRun(index, 0, mode);
    }

    /**
     * MotorStopAll: initialise once if needed, then stopMotor(1) .. stopMotor(4),
     * which zeroes channels 0..7 in order.
     */
    method MotorStopAll(mode: Byte)
      requires Valid()
      modifies chip`trace, chip`initialized, chip.channels
      ensures Valid() && chip.initialized
      ensures chip.trace == old(chip.trace) + Startup(old(chip.initialized), mode) + Emit(ZeroCalls(8))
      ensures chip.channels[..] == Apply(Restarted(old(chip.initialized), old(chip.channels[..])), ZeroCalls(8))
    {
      if !chip.initialized {
        chip.Init(mode);
      }
      ghost var t0 := chip.trace;
      ghost var table0: Table := chip.channels[..];
      var idx := 1;
      ghost var done := 0;
      assert ZeroCalls(0) == [];
      while idx <= 4
        invariant 1 <= idx <= 5 && done == 2 * (idx - 1) && Valid() && chip.initialized
        invariant chip.trace == t0 + Emit(ZeroCalls(done))
        invariant chip.channels[..] == Apply(table0, ZeroCalls(done))
      {
        StopMotor(idx);
        StopAllStep(t0, table0, idx);
        idx := idx + 1;
        done := done + 2;
      }
    }

    /** MotorRunDual: MotorRun(motor1, speed1), then MotorRun(motor2, speed2). */
    method MotorRunDual(motor1: int, speed1: int, motor2: int, speed2: int, mode: Byte)
      requires Valid()
      modifies chip`trace, chip`initialized, chip.channels
      ensures Valid() && chip.initialized
      ensures chip.trace == old(chip.trace) + Startup(old(chip.initialized), mode)
                            + Emit(MotorCalls(motor1, speed1) + MotorCalls(motor2, speed2))
      ensures chip.channels[..] == Apply(Restarted(old(chip.initialized), old(chip.channels[..])),
                                         MotorCalls(motor1, speed1) + MotorCalls(motor2, speed2))
    {
      MotorRun(motor1, speed1, mode);
      MotorRun(motor2, speed2, mode);
      SessionAppend(old(chip.trace) + Startup(old(chip.initialized), mode),
                    Restarted(old(chip.initialized), old(chip.channels[..])),
                    mode, MotorCalls(motor1, speed1), MotorCalls(motor2, speed2));
    }

    /** MotorRunAtomStyle: MotorRun(M1A, speed1), then MotorRun(M2B, speed2). */
    method MotorRunAtomStyle(speed1: int, speed2: int, mode: Byte)
      requires Valid()
      modifies chip`trace, chip`initialized, chip.channels
      ensures Valid() && chip.initialized
      ensures chip.trace == old(chip.trace) + Startup(old(chip.initialized), mode)
                            + Emit(MotorCalls(M1A, speed1) + MotorCalls(M2B, speed2))
      ensures chip.channels[..] == Apply(Restarted(old(chip.initialized), old(chip.channels[..])),
                                         MotorCalls(M1A, speed1) + MotorCalls(M2B, speed2))
    {
      MotorRun(M1A, speed1, mode);
      MotorRun(M2B, speed2, mode);
      SessionAppend(old(chip.trace) + Startup(old(chip.initialized), mode),
                    Restarted(old(chip.initialized), old(chip.channels[..])),
                    mode, MotorCalls(M1A, speed1), MotorCalls(M2B, speed2));
    }

    /**
     * Servo(index, degree): initialise once if needed, then program channel
     * index + 7 with the servo ticks of the angle (nothing past channel 15).
     */
    method Servo(index: int, degree: int, mode: Byte)
      requires Valid()
      modifies chip`trace, chip`initialized, chip.channels
      ensures Valid() && chip.initialized
      ensures chip.trace == old(chip.trace) + Startup(old(chip.initialized), mode) + Emit([ServoCall(index, degree)])
      ensures chip.channels[..] == Apply(Restarted(old(chip.initialized), old(chip.channels[..])), [ServoCall(index, degree)])
    {
      if !chip.initialized {
        chip.Init(mode);
      }
      var vUs := ServoPulse(degree);
      var value := TruncDiv(vUs * 4096, 20000);
      chip.SetPwm(index + 7, 0, value);
      assert [ServoCall(index, degree)][..0] == [];
    }
  }
}
