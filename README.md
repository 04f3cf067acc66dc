# robotAtom PCA9685 driver, modelled in Dafny

The robotAtom MakeCode extension drives a small robot through a PCA9685
16-channel PWM chip on the I2C bus. DC motors sit on H-bridge channel pairs
(0/1, 2/3, 4/5, 6/7) and RC servos on channels 8..15. The extension ships
two variants of the driver:

- `main.ts` has four motors, M1A..M2B. Its stop-all stops every motor pair.
- `motors.ts` has two motors, `right` = 1 on channels 0/1 and `left` = 4 on
  channels 6/7. Its stop-all stops only those two.

The chip layer is the same text in both files apart from indentation
(`main.ts:41-96` indents mostly with tabs, `motors.ts:33-88` with spaces):

- `setPwm` is the channel programmer.
- `setFreq` is the frequency routine: prescale arithmetic and a MODE1
  sleep / prescale / restore / restart sequence.
- `initPCA9685` is the one-time initialiser.

Because the code is identical, this layer is modelled once.

The model's files:

- `pwm_math.dfy` (module `PwmMath`) holds the arithmetic:
  - the byte split of tick values and its inverse;
  - the prescale and the two MODE1 bytes;
  - the speed clamp;
  - the servo pulse and ticks;
  - the bias rounding.
- `pca9685.dfy` (module `Pca9685`) models the bus traffic as a trace of
  events:
  - `Write` of a byte buffer, `Read` of a register, and `Wait` for the
    busy-wait;
  - `PwmCall` records one `setPwm(channel, on, off)` call;
  - `Emit` gives the traffic of a sequence of calls, `Apply` the channel
    table the calls leave, and `Replay` decodes the traffic back into a
    table;
  - the sleep-before-prescale protocol;
  - the class `Chip`, with the `initialized` flag, the trace and a 16-entry
    channel array, and the methods `SetPwm`, `SetFreq` and `Init`.
- `motor_plan.dfy` (module `MotorPlan`) holds the channel calls that
  `MotorRun`, `stopMotor` and `Servo` make, and what those calls leave in
  the table. Both variants share this part.
- `atom_main.dfy` (module `AtomMain`) is the `main.ts` variant, as class
  `Robot`.
- `atom_motors.dfy` (module `AtomMotors`) is the `motors.ts` variant, as
  class `Robot`.

Every entry point that may initialise the chip takes `mode`, the byte that
MODE1 reads back during `setFreq`. Each entry point's postcondition states:

- its whole new trace: the startup traffic (the initialiser, only when the
  driver was not yet initialised), then the traffic of its channel calls;
- its whole new channel table.

`Pca9685.Restarted` and `Pca9685.ReplaySession` prove that this table is
exactly what the traffic programs when read back from the wire.

Two behaviours of the code that are easy to misread:

- The prescale is `Math.floor(x + 0.5)` (`main.ts:76`). That is
  round-half-up, and the model says so explicitly.
- In `motors.ts`, `MotorRun` guards on `0 < index <= 4` (`motors.ts:134`),
  so indices 2 and 3 drive channels 2..5. But `MotorStopAll` stops only
  `left` and `right`. `AtomMotors.StopAllMissesIndexTwo` states the
  consequence.

The biases that `motorBalance` stores are never read by the drive
computation, in either variant.

## Model

| member | source | states |
|---|---|---|
| PwmMath.LowByte | main.ts:91 | the low byte is the one byte that differs from the value by a multiple of 256 |
| PwmMath.HighByte | main.ts:92 | the high byte is bits 8..15: the upper byte of the value's low 16 bits |
| PwmMath.Join | main.ts:91-94 | a byte pair read back as a 16-bit value has the low byte as remainder and the high byte as quotient by 256 |
| PwmMath.SplitJoin | main.ts:91-94 | the low and high bytes of a tick value join back to the value modulo 65536 |
| PwmMath.JoinSplit | main.ts:91-94 | splitting a 16-bit value made of two bytes gives back the same two bytes |
| PwmMath.Prescale | main.ts:70-76 | the prescale is within one half of 25000000/4096/(0.9 freq) - 1, halves rounded up |
| PwmMath.Prescale50 | main.ts:62 | at the driver's 50 Hz the prescale is 135 |
| PwmMath.PrescaleAntitone | main.ts:70-76 | a higher frequency never gives a larger prescale |
| PwmMath.SleepMode | main.ts:79 | the sleep byte has bit 4 set and bit 7 clear, and bits 0-3, 5 and 6 of the read-back byte unchanged |
| PwmMath.RestartMode | main.ts:84 | the restart byte has bits 0, 5 and 7 set, and bits 1-4 and 6 of the read-back byte unchanged |
| PwmMath.ModeBytes | main.ts:79-84 | the sleep and restart bytes for the MODE1 values 0x00, 0xA1 and 0x11 |
| PwmMath.SpeedTicks | main.ts:153-159 | the tick value is 16 speed clamped to [-4095, 4095], and has the speed's sign |
| PwmMath.SpeedTicksMonotone | main.ts:153-159 | a faster speed never gives a smaller tick value |
| PwmMath.ServoPulse | main.ts:245 | the pulse is 10 degree + 600 microseconds |
| PwmMath.TruncDiv | main.ts:246 | the quotient rounds toward zero: floor for a non-negative dividend, ceiling for a negative one |
| PwmMath.TruncDivMonotone | main.ts:246 | truncating division by a positive divisor is monotone |
| PwmMath.ServoTicks | main.ts:245-246 | the ticks are pulse * 4096 / 20000 truncated toward zero: its floor for a non-negative pulse, its ceiling for a negative one |
| PwmMath.ServoTicksMonotone | main.ts:245-246 | a larger angle never gives fewer ticks |
| PwmMath.ServoTicksRange | main.ts:244-247 | over 0..180 degrees the pulse is 600..2400 us and the ticks 122..491, with 122, 307 and 491 at 0, 90 and 180 |
| PwmMath.RoundBias | main.ts:130 | the bias is the integer nearest 1.75 balance, halves rounded up |
| PwmMath.RoundBiasRange | main.ts:127-142 | a balance of 0..10 gives a bias of 0..18, non-decreasing |
| Pca9685.Burst | main.ts:89-94 | a channel write is five bytes and starts with the channel's register 0x06 + 4 channel |
| Pca9685.BurstRoundTrip | main.ts:89-95 | decoding a channel's burst gives back the channel and its on and off values modulo 65536 |
| Pca9685.DecodeBurstExact | main.ts:89-95 | every five-byte buffer that decodes as a channel write is that call's burst, so the encoding is one-to-one |
| Pca9685.EmitOne | main.ts:88 | a call on a channel outside 0..15 puts nothing on the bus, a valid one exactly one write |
| Pca9685.Emit | main.ts:87-96 | a sequence of calls never puts more writes on the bus than it has calls |
| Pca9685.PairTable | main.ts:162-170 | two in-range calls set exactly their two table entries, the later one last |
| Pca9685.EmitInRange | main.ts:87-96 | calls on channels 0..15 put exactly one burst each on the bus, in the order of the calls |
| Pca9685.ApplyZeroCalls | main.ts:63-65 | zeroing channels 0..n-1 sets those to (0, 0) and leaves the others unchanged |
| Pca9685.ReplayEmit | main.ts:87-96 | the traffic of any sequence of calls, decoded from the wire, programs exactly the table the calls describe |
| Pca9685.FreqSequence | main.ts:69-85 | the frequency routine is six bus events |
| Pca9685.InitSequence | main.ts:60-67 | the initialiser is 23 events: MODE1 = 0, the six events of the 50 Hz frequency routine, then the (0, 0) burst of channel 0, 1, ..., 15 |
| Pca9685.Startup | main.ts:150-152 | an entry point sends startup traffic exactly when the driver was not yet initialised, and that traffic keeps the sleep-before-prescale protocol |
| Pca9685.Restarted | main.ts:150-152 | the table an entry point works from is what its startup traffic programs over the chip's previous table, whatever MODE1 reads back |
| Pca9685.FreqSequence50 | main.ts:81 | at 50 Hz the PRESCALE write carries 135 |
| Pca9685.FreqSequenceAsleep | main.ts:78-84 | the frequency routine writes PRESCALE only after a MODE1 write that sets SLEEP, with no MODE1 write between |
| Pca9685.EmitQuiet | main.ts:87-96 | channel traffic writes neither PRESCALE nor MODE1 |
| Pca9685.InitSequenceAsleep | main.ts:60-67 | the whole initialiser keeps the sleep-before-prescale protocol |
| Pca9685.PrescaleWhileAsleepAppend | main.ts:60-67 | traffic that keeps the protocol still keeps it when more such traffic follows |
| Pca9685.ReplayInit | main.ts:60-67 | whatever the chip held, the initialiser's traffic leaves every channel at (0, 0) |
| Pca9685.ReplaySession | main.ts:149-152 | the traffic of an entry point, lazy initialisation included, programs exactly the table its postcondition gives |
| Pca9685.SessionAppend | main.ts:206-209 | after a first entry point has initialised the chip, a second one sends no startup traffic, so the two together are one session with the calls of both |
| Pca9685.Chip.constructor | main.ts:35 | the driver starts uninitialised, with no traffic and every channel at (0, 0) |
| Pca9685.Chip.SetPwm | main.ts:87-96 | appends the channel's burst and sets its table entry, or does nothing off 0..15; keeps the protocol |
| Pca9685.Chip.SetFreq | main.ts:69-85 | appends the read, sleep, prescale, restore, wait and restart events; keeps the protocol |
| Pca9685.Chip.Init | main.ts:60-67 | appends MODE1 = 0, the 50 Hz sequence and the zeroing of channels 0..15; every channel ends at (0, 0) and the driver is initialised |
| MotorPlan.MotorCalls | main.ts:160-170 | no call for an index outside 1..4; otherwise the pair 2(i-1), 2(i-1)+1 with on 0, at most one non-zero off of at most 4095, forward on the first and reverse on the second |
| MotorPlan.StopCalls | main.ts:112-115 | stopMotor makes two calls, on consecutive channels |
| MotorPlan.ServoCall | main.ts:245-247 | Servo writes channel index + 7 with on 0, and over 0..180 degrees an off tick in 122..491 |
| MotorPlan.MotorRunTable | main.ts:160-170 | the pair becomes (0, max(t, 0)), (0, max(-t, 0)) for the clamped t, the rest of the table is unchanged, and an invalid index changes nothing |
| MotorPlan.MotorCallsPair | main.ts:162-170 | both directions in one formula: the calls carry max(t, 0) and max(-t, 0) |
| MotorPlan.StopIsRunAtZero | main.ts:176-178 | on a valid index, MotorRun at speed 0 makes exactly stopMotor's calls |
| MotorPlan.StopMotorTable | main.ts:112-115 | stopMotor sets both channels of the pair to (0, 0) and leaves the rest unchanged |
| MotorPlan.ServoTable | main.ts:245-247 | Servo sets channel index + 7 to (0, ticks), or does nothing past channel 15; over 0..180 degrees the ticks are stored unwrapped |
| MotorPlan.Examples | main.ts:153-170 | speed 128 on motor 1 gives (0, 2048), (0, 0) and speed -128 the reverse; servo 1 at 90 degrees gives 307 ticks on channel 8 |
| MotorPlan.DriveMotor | main.ts:162-170 | programs the pair with the clamped speed, exactly the calls of MotorCalls, and keeps the protocol |
| AtomMain.ServoChannels | main.ts:13-22 | the servos S1..S8 drive channels 8..15, each its own channel |
| AtomMain.StopAllTable | main.ts:183-190 | after stop-all, channels 0..7 are (0, 0) whatever they held, and the servo channels are unchanged |
| AtomMain.AtomStyleChannels | main.ts:225-228 | M1A drives channels 0/1 and M2B drives channels 6/7 |
| AtomMain.Robot.constructor | main.ts:30-35 | all four biases 0, driver uninitialised, no traffic |
| AtomMain.Robot.StopMotor | main.ts:112-115 | appends the two zeroing writes of the pair, without initialising |
| AtomMain.Robot.MotorBalance | main.ts:127-142 | only the selected motor's bias becomes round(1.75 balance); no traffic, and the initialised flag is unchanged |
| AtomMain.Robot.MotorRun | main.ts:149-171 | initialises once if needed, then appends exactly MotorCalls' traffic and applies it to the table |
| AtomMain.Robot.MotorStop | main.ts:176-178 | is MotorRun at speed 0 |
| AtomMain.Robot.MotorStopAll | main.ts:183-190 | initialises once if needed, then zeroes channels 0..7 in order |
| AtomMain.Robot.MotorRunDual | main.ts:206-209 | is MotorRun(motor1, speed1) followed by MotorRun(motor2, speed2), with at most one initialisation |
| AtomMain.Robot.MotorRunAtomStyle | main.ts:225-228 | is MotorRun(M1A, speed1) followed by MotorRun(M2B, speed2) |
| AtomMain.Robot.Servo | main.ts:240-248 | initialises once if needed, then makes the one servo call on channel index + 7 |
| AtomMotors.StopAllCalls | motors.ts:158-164 | stop-all makes the calls for channels 6, 7, 0 and 1, in that order, all (0, 0) |
| AtomMotors.StopAllTable | motors.ts:158-164 | stop-all zeroes channels 0, 1, 6 and 7, and every other channel keeps its value |
| AtomMotors.StopAllMissesIndexTwo | motors.ts:134-135 | a forward run on index 2, which the guard accepts, survives stop-all |
| AtomMotors.NamedMotorChannels | motors.ts:24-27 | right drives channels 0/1, left drives channels 6/7 |
| AtomMotors.Robot.constructor | motors.ts:28-31 | both biases 0, driver uninitialised, no traffic |
| AtomMotors.Robot.StopMotor | motors.ts:92-95 | appends the two zeroing writes of the pair, without initialising |
| AtomMotors.Robot.MotorBalance | motors.ts:107-116 | only right's or left's bias becomes round(1.75 balance); no traffic |
| AtomMotors.Robot.MotorRun | motors.ts:123-145 | initialises once if needed, then appends exactly MotorCalls' traffic and applies it to the table |
| AtomMotors.Robot.MotorStop | motors.ts:150-152 | is MotorRun at speed 0 |
| AtomMotors.Robot.MotorStopAll | motors.ts:158-164 | initialises once if needed, then stopMotor(left), stopMotor(right) |
| AtomMotors.Robot.MotorRunBoth | motors.ts:185-188 | is MotorRun(left, speedLeft) followed by MotorRun(right, speedRight) |
| AtomMotors.Robot.Servo | motors.ts:200-208 | initialises once if needed, then makes the one servo call on channel index + 7 |

## Left out

- **I2C transport.** `pins.i2cWriteBuffer`, `i2cWriteNumber` and `i2cReadNumber` are not modelled. A write appends a `Write` event to the trace, and a register read appends a `Read` event. The byte that MODE1 returns is the parameter `mode`. The bus address 0x40 is implicit in the trace.
- **`i2ccmd`** (`main.ts:48-52`, `motors.ts:40-44`) is never called, so it is not modelled.
- **The 5000 us wait** is only a `Wait` marker in the trace. Timing is not modelled.
- **Floating point.** Speeds, angles and balances are integers.
  - The prescale is computed with exact reals, with `Math.floor(x + 0.5)` taken as `Floor`.
  - `Math.round` is `floor(x + 1/2)`.
  - The fractional servo value that `setPwm` truncates through `&` and `>>` is truncating integer division.
- **Pca9685.Chip.SetPwm:** does not model the 32-bit wrap (ToInt32) of on and off values at or above 2^31. The bytes are taken from the unbounded integer: the low byte is `x % 256` and the high byte `(x / 256) % 256`. Both agree with `&` and `>>` on every int32 value.
- **Bitwise operators.** `&`, `|` and `>>` on bytes are written arithmetically. `SleepMode` and `RestartMode` state the effect bit by bit.
- **Pca9685.Chip.SetFreq:** requires `freq > 0`. The driver only ever calls it with 50. A frequency of 0 or below would give an infinite or negative prescale in floating point.
- **Channel table before the first write.** `Chip` starts every channel at (0, 0), but the real chip's power-up contents are not modelled. Every path that programs channels initialises first, except `stopMotor`, and that one is only called after initialisation.
- **Pca9685.Chip.Valid:** holds only the channel count and the sleep-before-prescale protocol. That the table equals the decoded traffic is proved separately, by `ReplayEmit`, `ReplayInit` and `ReplaySession`, not kept as a class invariant.
- **What the chip does with the bytes** (oscillator, restart, output timing) is not modelled. The model covers only the bytes written.
- **Hardware glue is not modelled:** `rgb()`, the encoder and ultrasonic pin constants, the unused `rightMotorBias` and `leftMotorBias`, and the block-editor `//%` annotations. `atom-robor.ts` holds only comments. `test.ts` is a button and neopixel demo whose helpers are not part of this model.
