/**
 * The PCA9685 16-channel PWM chip as the robotAtom driver programs it: the
 * I2C traffic it sends (a trace of bus events), the channel programmer, the
 * frequency routine and the one-time initialiser. Both driver variants
 * (main.ts and motors.ts) carry the same text for this layer, so it is
 * modelled once. Every event of the trace goes to the chip's bus address
 * 0x40, which the trace leaves implicit.
 */
module Pca9685 {
  import opened PwmMath

  /** Register addresses: MODE1, PRESCALE, and LED0_ON_L, the first channel register. */
  const Mode1: Byte := 0x00
  const PrescaleReg: Byte := 0xFE
  const Led0OnL := 0x06
  /** The frequency the initialiser sets: 50 Hz, a 20000 us period. */
  const DriverFrequency := 50
  /** The busy-wait of the frequency routine, in microseconds. */
  const OscillatorWait := 5000

  datatype Option<T> = None | Some(value: T)

  /** One transaction on the bus, in the order the driver issues them. */
  datatype BusEvent =
    | Write(data: seq<Byte>)   // one i2cWriteBuffer
    | Read(reg: Byte)          // i2cread: register select, then one byte back
    | Wait(micros: nat)        // control.waitMicros

  /** One call of the channel programmer: setPwm(channel, on, off). */
  datatype PwmCall = PwmCall(channel: int, on: int, off: int)

  /** The (on, off) pair held for each of the 16 channels. */
  type Table = t: seq<(int, int)> | |t| == 16 witness seq(16, _ => (0, 0))

  /** The table before any channel has been programmed. */
  function Blank(): (t: Table)
    ensures forall k :: 0 <= k < 16 ==> t[k] == (0, 0)
  {
    seq(16, _ => (0, 0))
  }

  predicate IsChannel(c: int) { 0 <= c <= 15 }

  /** `i2cwrite(addr, reg, value)`: a two-byte buffer, register then value. */
  function RegisterWrite(reg: Byte, value: Byte): BusEvent
  {
    Write([reg, value])
  }

  // ---------------------------------------------------------------------
  // The channel burst and its decoding
  // ---------------------------------------------------------------------

  /**
   * The five bytes setPwm writes for a channel: the channel's ON_L register,
   * then on and off, each low byte first.
   */
  function Burst(c: PwmCall): (b: seq<Byte>)
    requires IsChannel(c.channel)
    ensures |b| == 5 && b[0] == Led0OnL + 4 * c.channel
  {
    [Led0OnL + 4 * c.channel, LowByte(c.on), HighByte(c.on), LowByte(c.off), HighByte(c.off)]
  }

  /** Reads a five-byte channel write back as the call it programs, if it is one. */
  function DecodeBurst(b: seq<Byte>): Option<PwmCall>
  {
    if |b| == 5 && b[0] >= Led0OnL && (b[0] - Led0OnL) % 4 == 0 && IsChannel((b[0] - Led0OnL) / 4)
    then Some(PwmCall((b[0] - Led0OnL) / 4, Join(b[1], b[2]), Join(b[3], b[4])))
    else None
  }

  /** Decoding a burst gives back its channel and the 16-bit on and off values. */
  lemma BurstRoundTrip(c: PwmCall)
    requires IsChannel(c.channel)
    ensures DecodeBurst(Burst(c)) == Some(PwmCall(c.channel, c.on % 65536, c.off % 65536))
  {
    var b := Burst(c);
    SplitJoin(c.on);
    SplitJoin(c.off);
    assert (b[0] - Led0OnL) / 4 == c.channel;
  }

  /** Every buffer that decodes as a channel write is the burst of what it decodes to. */
  lemma DecodeBurstExact(b: seq<Byte>)
    requires DecodeBurst(b).Some?
    ensures Burst(DecodeBurst(b).value) == b
  {
    var c := DecodeBurst(b).value;
    JoinSplit(b[1], b[2]);
    JoinSplit(b[3], b[4]);
    assert Burst(c)[1..] == b[1..];
  }

  // ---------------------------------------------------------------------
  // Sequences of channel calls: the bus traffic and the table they give
  // ---------------------------------------------------------------------

  /** The bus traffic of one channel call: a burst, or nothing off the 0..15 range. */
  function EmitOne(c: PwmCall): (ev: seq<BusEvent>)
    ensures |ev| == if IsChannel(c.channel) then 1 else 0
  {
    if IsChannel(c.channel) then [Write(Burst(c))] else []
  }

  /** The bus traffic of a sequence of channel calls, in order. */
  function Emit(calls: seq<PwmCall>): (ev: seq<BusEvent>)
    ensures |ev| <= |calls|
    decreases |calls|
  {
    if calls == [] then []
    else Emit(calls[..|calls| - 1]) + EmitOne(calls[|calls| - 1])
  }

  /** The table after one channel call: it holds the 16-bit values the burst carries. */
  function ApplyOne(t: Table, c: PwmCall): Table
  {
    if IsChannel(c.channel) then t[c.channel := (c.on % 65536, c.off % 65536)] else t
  }

  /** The table after a sequence of channel calls, in order. */
  function Apply(t: Table, calls: seq<PwmCall>): Table
    decreases |calls|
  {
    if calls == [] then t
    else ApplyOne(Apply(t, calls[..|calls| - 1]), calls[|calls| - 1])
  }

  /** The traffic of two runs of calls is the traffic of the first, then of the second. */
  lemma {:induction false} EmitAppend(a: seq<PwmCall>, b: seq<PwmCall>)
    ensures Emit(a + b) == Emit(a) + Emit(b)
    decreases |b|
  {
    if b == [] {
      assert a + b == a;
    } else {
      var n := |b| - 1;
      assert (a + b)[..|a + b| - 1] == a + b[..n];
      EmitAppend(a, b[..n]);
    }
  }

  /** Applying two runs of calls is applying the first, then the second. */
  lemma {:induction false} ApplyAppend(t: Table, a: seq<PwmCall>, b: seq<PwmCall>)
    ensures Apply(t, a + b) == Apply(Apply(t, a), b)
    decreases |b|
  {
    if b == [] {
      assert a + b == a;
    } else {
      var n := |b| - 1;
      assert (a + b)[..|a + b| - 1] == a + b[..n];
      ApplyAppend(t, a, b[..n]);
    }
  }

  /** Two calls in a row: their traffic is the first's then the second's. */
  lemma TwoCalls(t: Table, a: PwmCall, b: PwmCall)
    ensures Emit([a, b]) == EmitOne(a) + EmitOne(b)
    ensures Apply(t, [a, b]) == ApplyOne(ApplyOne(t, a), b)
  {
    assert [a, b][..1] == [a];
    assert [a][..0] == [];
    assert Emit([a]) == EmitOne(a);
    assert Apply(t, [a]) == ApplyOne(t, a);
  }

  /** Two in-range calls with 16-bit values set exactly those two entries, in order. */
  lemma PairTable(t: Table, c1: int, v1: int, c2: int, v2: int)
    requires IsChannel(c1) && IsChannel(c2) && 0 <= v1 < 65536 && 0 <= v2 < 65536
    ensures Apply(t, [PwmCall(c1, 0, v1), PwmCall(c2, 0, v2)]) == t[c1 := (0, v1)][c2 := (0, v2)]
  {
    var a, b := PwmCall(c1, 0, v1), PwmCall(c2, 0, v2);
    TwoCalls(t, a, b);
    assert ApplyOne(t, a) == t[c1 := (0, v1)];
  }

  /** The calls `setPwm(c, 0, 0)` for c = 0, 1, ..., n - 1, in that order. */
  function ZeroCalls(n: nat): seq<PwmCall>
  {
    seq(n, i => PwmCall(i, 0, 0))
  }

  /** Calls on channels 0..15 put exactly one burst each on the bus, in order. */
  lemma {:induction false} EmitInRange(calls: seq<PwmCall>)
    requires forall k :: 0 <= k < |calls| ==> IsChannel(calls[k].channel)
    ensures |Emit(calls)| == |calls|
    ensures forall k :: 0 <= k < |calls| ==> Emit(calls)[k] == Write(Burst(calls[k]))
    decreases |calls|
  {
    if calls != [] {
      EmitInRange(calls[..|calls| - 1]);
    }
  }

  /** Zeroing channel n after channels 0..n-1 extends the traffic and the table by one call. */
  lemma ZeroCallsStep(t0: seq<BusEvent>, table0: Table, n: nat)
    ensures t0 + Emit(ZeroCalls(n)) + EmitOne(PwmCall(n, 0, 0)) == t0 + Emit(ZeroCalls(n + 1))
    ensures ApplyOne(Apply(table0, ZeroCalls(n)), PwmCall(n, 0, 0)) == Apply(table0, ZeroCalls(n + 1))
  {
    assert ZeroCalls(n + 1)[..n] == ZeroCalls(n);
  }

  /** Zeroing channels 0..n-1 zeroes exactly those and leaves the others as they were. */
  lemma {:induction false} ApplyZeroCalls(t: Table, n: nat)
    requires n <= 16
    ensures forall k :: 0 <= k < n ==> Apply(t, ZeroCalls(n))[k] == (0, 0)
    ensures forall k :: n <= k < 16 ==> Apply(t, ZeroCalls(n))[k] == t[k]
  {
    if n > 0 {
      assert ZeroCalls(n)[..n - 1] == ZeroCalls(n - 1);
      ApplyZeroCalls(t, n - 1);
    }
  }

  // ---------------------------------------------------------------------
  // Replaying a trace: the table the bus traffic programs
  // ---------------------------------------------------------------------

  /** The table after one bus event: only a decodable channel write changes it. */
  function ReplayOne(t: Table, e: BusEvent): Table
  {
    if e.Write? && DecodeBurst(e.data).Some? then
      var c := DecodeBurst(e.data).value;
      t[c.channel := (c.on, c.off)]
    else t
  }

  /** The table after a sequence of bus events, in order. */
  function Replay(t: Table, ev: seq<BusEvent>): Table
    decreases |ev|
  {
    if ev == [] then t
    else ReplayOne(Replay(t, ev[..|ev| - 1]), ev[|ev| - 1])
  }

  /** Replaying two pieces of traffic is replaying the first, then the second. */
  lemma {:induction false} ReplayAppend(t: Table, a: seq<BusEvent>, b: seq<BusEvent>)
    ensures Replay(t, a + b) == Replay(Replay(t, a), b)
    decreases |b|
  {
    if b == [] {
      assert a + b == a;
    } else {
      var n := |b| - 1;
      assert (a + b)[..|a + b| - 1] == a + b[..n];
      ReplayAppend(t, a, b[..n]);
    }
  }

  /** Traffic without five-byte writes leaves the table as it was. */
  lemma {:induction false} ReplayNoBursts(t: Table, ev: seq<BusEvent>)
    requires forall k :: 0 <= k < |ev| ==> !(ev[k].Write? && |ev[k].data| == 5)
    ensures Replay(t, ev) == t
    decreases |ev|
  {
    if ev != [] {
      ReplayNoBursts(t, ev[..|ev| - 1]);
    }
  }

  /**
   * The bus traffic of any sequence of channel calls, read back from the
   * wire, programs exactly the table the calls describe.
   */
  lemma {:induction false} ReplayEmit(t: Table, calls: seq<PwmCall>)
    ensures Replay(t, Emit(calls)) == Apply(t, calls)
    decreases |calls|
  {
    if calls != [] {
      var n := |calls| - 1;
      var c := calls[n];
      ReplayEmit(t, calls[..n]);
      ReplayAppend(t, Emit(calls[..n]), EmitOne(c));
      if IsChannel(c.channel) {
        BurstRoundTrip(c);
        assert EmitOne(c)[..0] == [];
      }
    }
  }

  // ---------------------------------------------------------------------
  // The frequency routine and the initialiser as bus traffic
  // ---------------------------------------------------------------------

  /**
   * The traffic of setFreq(freq) when MODE1 reads back as `mode`: read MODE1,
   * put the oscillator to sleep, write the prescale byte, restore MODE1,
   * wait 5000 us, then restart with auto-increment.
   */
  function FreqSequence(freq: int, mode: Byte): (ev: seq<BusEvent>)
    requires freq > 0
    ensures |ev| == 6
  {
    [ Read(Mode1),
      RegisterWrite(Mode1, SleepMode(mode)),
      RegisterWrite(PrescaleReg, LowByte(Prescale(freq))),
      RegisterWrite(Mode1, mode),
      Wait(OscillatorWait),
      RegisterWrite(Mode1, RestartMode(mode)) ]
  }

  /**
   * The traffic of initPCA9685: MODE1 cleared, the 50 Hz frequency
   * sequence, then one (0, 0) burst for each channel 0..15, in order.
   */
  function InitSequence(mode: Byte): (ev: seq<BusEvent>)
    ensures |ev| == 23 && ev[0] == RegisterWrite(Mode1, 0)
    ensures ev[1..7] == FreqSequence(DriverFrequency, mode)
    ensures forall k :: 7 <= k < 23 ==> ev[k] == Write(Burst(PwmCall(k - 7, 0, 0)))
  {
    EmitInRange(ZeroCalls(16));
    [RegisterWrite(Mode1, 0)] + FreqSequence(DriverFrequency, mode) + Emit(ZeroCalls(16))
  }

  /**
   * The traffic an entry point sends before its own work: the initialiser
   * exactly when the driver was not yet initialised, and it keeps the
   * sleep-before-prescale protocol.
   */
  function Startup(wasInitialized: bool, mode: Byte): (ev: seq<BusEvent>)
    ensures ev == [] <==> wasInitialized
    ensures PrescaleWhileAsleep(ev)
  {
    InitSequenceAsleep(mode);
    if wasInitialized then [] else InitSequence(mode)
  }

  /**
   * The table an entry point starts its own work from: whatever MODE1
   * reads back, it is what the startup traffic programs over the table the
   * chip held.
   */
  function Restarted(wasInitialized: bool, t: Table): (r: Table)
    ensures forall mode: Byte :: Replay(t, Startup(wasInitialized, mode)) == r
  {
    var r := if wasInitialized then t else Blank();
    assert forall mode: Byte :: Replay(t, Startup(wasInitialized, mode)) == r by {
      forall mode: Byte
        ensures Replay(t, Startup(wasInitialized, mode)) == r
      {
        if !wasInitialized {
          ReplayInit(t, mode);
        }
      }
    }
    r
  }

  /** At 50 Hz the prescale write carries 135. */
  lemma FreqSequence50(mode: Byte)
    ensures FreqSequence(DriverFrequency, mode)[2] == RegisterWrite(PrescaleReg, 135)
  {
    Prescale50();
  }

  // ---------------------------------------------------------------------
  // Protocol invariant: the prescale is only written while asleep
  // ---------------------------------------------------------------------

  predicate IsModeWrite(e: BusEvent)
  {
    e.Write? && |e.data| == 2 && e.data[0] == Mode1
  }

  predicate IsPrescaleWrite(e: BusEvent)
  {
    e.Write? && |e.data| == 2 && e.data[0] == PrescaleReg
  }

  /** A MODE1 write with the SLEEP bit (bit 4) set. */
  predicate IsSleepWrite(e: BusEvent)
  {
    IsModeWrite(e) && (e.data[1] / 16) % 2 == 1
  }

  /** Event i puts the chip to sleep and no MODE1 write comes between it and event j. */
  predicate AsleepBetween(ev: seq<BusEvent>, i: int, j: int)
    requires 0 <= j < |ev|
  {
    0 <= i < j && IsSleepWrite(ev[i]) && forall k :: i < k < j ==> !IsModeWrite(ev[k])
  }

  /**
   * The PRESCALE register can only be changed while the oscillator sleeps:
   * every PRESCALE write follows a MODE1 write that set the SLEEP bit, with
   * no MODE1 write in between.
   */
  ghost predicate PrescaleWhileAsleep(ev: seq<BusEvent>)
  {
    forall j :: 0 <= j < |ev| && IsPrescaleWrite(ev[j]) ==> exists i :: AsleepBetween(ev, i, j)
  }

  /** Two pieces of traffic that each keep the protocol keep it together. */
  lemma PrescaleWhileAsleepAppend(a: seq<BusEvent>, b: seq<BusEvent>)
    requires PrescaleWhileAsleep(a) && PrescaleWhileAsleep(b)
    ensures PrescaleWhileAsleep(a + b)
  {
    var ab := a + b;
    forall j | 0 <= j < |ab| && IsPrescaleWrite(ab[j])
      ensures exists i :: AsleepBetween(ab, i, j)
    {
      if j < |a| {
        assert IsPrescaleWrite(a[j]);
        var i :| AsleepBetween(a, i, j);
        assert AsleepBetween(ab, i, j);
      } else {
        var jb := j - |a|;
        assert ab[j] == b[jb];
        var i :| AsleepBetween(b, i, jb);
        assert forall k :: i + |a| < k < j ==> ab[k] == b[k - |a|];
        assert AsleepBetween(ab, i + |a|, j);
      }
    }
  }

  /** The frequency routine writes the prescale right after putting the chip to sleep. */
  lemma FreqSequenceAsleep(freq: int, mode: Byte)
    requires freq > 0
    ensures PrescaleWhileAsleep(FreqSequence(freq, mode))
  {
    var ev := FreqSequence(freq, mode);
    assert IsSleepWrite(ev[1]);
    assert AsleepBetween(ev, 1, 2);
  }

  /** Channel traffic never touches PRESCALE. */
  lemma EmitQuiet(calls: seq<PwmCall>)
    ensures PrescaleWhileAsleep(Emit(calls))
    ensures forall k :: 0 <= k < |Emit(calls)| ==> !IsModeWrite(Emit(calls)[k])
    decreases |calls|
  {
    if calls != [] {
      EmitQuiet(calls[..|calls| - 1]);
    }
  }

  /** The whole initialiser keeps the sleep-before-prescale protocol. */
  lemma InitSequenceAsleep(mode: Byte)
    ensures PrescaleWhileAsleep(InitSequence(mode))
  {
    FreqSequenceAsleep(DriverFrequency, mode);
    EmitQuiet(ZeroCalls(16));
    PrescaleWhileAsleepAppend([RegisterWrite(Mode1, 0)], FreqSequence(DriverFrequency, mode));
    PrescaleWhileAsleepAppend([RegisterWrite(Mode1, 0)] + FreqSequence(DriverFrequency, mode), Emit(ZeroCalls(16)));
  }

  /** Whatever the chip held, the initialiser's traffic leaves every channel at (0, 0). */
  lemma ReplayInit(t: Table, mode: Byte)
    ensures Replay(t, InitSequence(mode)) == Blank()
  {
    var prefix := [RegisterWrite(Mode1, 0)] + FreqSequence(DriverFrequency, mode);
    assert forall k :: 0 <= k < |prefix| ==> !(prefix[k].Write? && |prefix[k].data| == 5);
    ReplayNoBursts(t, prefix);
    ReplayAppend(t, prefix, Emit(ZeroCalls(16)));
    ReplayEmit(t, ZeroCalls(16));
    ApplyZeroCalls(t, 16);
  }

  /**
   * The table an entry point leaves is what its traffic programs: replaying
   * the startup traffic and then the channel calls from the chip's previous
   * table gives the calls applied to the restarted table.
   */
  lemma ReplaySession(t: Table, wasInitialized: bool, mode: Byte, calls: seq<PwmCall>)
    ensures Replay(t, Startup(wasInitialized, mode) + Emit(calls)) == Apply(Restarted(wasInitialized, t), calls)
  {
    ReplayAppend(t, Startup(wasInitialized, mode), Emit(calls));
    if !wasInitialized {
      ReplayInit(t, mode);
    }
    ReplayEmit(Restarted(wasInitialized, t), calls);
  }

  /** Two runs of channel calls, one after the other, are one run of their concatenation. */
  lemma CallsAppend(t0: seq<BusEvent>, table0: Table, a: seq<PwmCall>, b: seq<PwmCall>)
    ensures t0 + Emit(a) + Emit(b) == t0 + Emit(a + b)
    ensures Apply(Apply(table0, a), b) == Apply(table0, a + b)
  {
    EmitAppend(a, b);
    assert t0 + Emit(a) + Emit(b) == t0 + (Emit(a) + Emit(b));
    ApplyAppend(table0, a, b);
  }

  /**
   * A second entry point after the first has initialised the chip sends no
   * startup traffic, so the two sessions together are one session with the
   * calls of both.
   */
  lemma SessionAppend(t0: seq<BusEvent>, table0: Table, mode: Byte, a: seq<PwmCall>, b: seq<PwmCall>)
    ensures t0 + Emit(a) + Startup(true, mode) + Emit(b) == t0 + Emit(a + b)
    ensures Apply(Restarted(true, Apply(table0, a)), b) == Apply(table0, a + b)
  {
    assert Startup(true, mode) == [];
    assert t0 + Emit(a) + [] == t0 + Emit(a);
    CallsAppend(t0, table0, a, b);
  }

  // ---------------------------------------------------------------------
  // The chip driver
  // ---------------------------------------------------------------------

  /**
   * The driver's view of the chip: the module-level `initialized` flag, the
   * bus traffic sent so far, and the (on, off) values last programmed into
   * each channel.
   */
  class Chip {
    var initialized: bool
    var trace: seq<BusEvent>
    const channels: array<(int, int)>

    /**
     * Sixteen channels, and the traffic so far has kept the
     * sleep-before-prescale protocol. That the table is what the traffic
     * programs follows from each method's postcondition by ReplaySession.
     */
    ghost predicate Valid()
      reads this, channels
    {
      channels.Length == 16 && PrescaleWhileAsleep(trace)
    }

    constructor ()
      ensures Valid() && fresh(channels)
      ensures !initialized && trace == [] && channels[..] == Blank()
    {
      initialized := false;
      trace := [];
      channels := new (int, int)[16](_ => (0, 0));
      new;
      assert channels[..] == Blank();
    }

    /**
     * setPwm(channel, on, off): a channel outside 0..15 is ignored; otherwise
     * one five-byte burst goes on the bus and the channel takes its values.
     */
    method SetPwm(channel: int, on: int, off: int)
      requires Valid()
      modifies this`trace, channels
      ensures Valid()
      ensures trace == old(trace) + EmitOne(PwmCall(channel, on, off))
      ensures channels[..] == ApplyOne(old(channels[..]), PwmCall(channel, on, off))
    {
      if channel < 0 || channel > 15 {
        return;
      }
      var buf := new Byte[5];
      buf[0] := Led0OnL + 4 * channel;
      buf[1] := LowByte(on);
      buf[2] := HighByte(on);
      buf[3] := LowByte(off);
      buf[4] := HighByte(off);
      ghost var c := PwmCall(channel, on, off);
      assert buf[..] == Burst(c);
      BurstRoundTrip(c);
      PrescaleWhileAsleepAppend(trace, [Write(buf[..])]);
      trace := trace + [Write(buf[..])];
      channels[channel] := (on % 65536, off % 65536);
    }

    /**
     * setFreq(freq), where `mode` is the MODE1 byte the chip reads back:
     * the six-event sleep / prescale / restore / wait / restart sequence.
     */
    method SetFreq(freq: int, mode: Byte)
      requires Valid() && freq > 0
      modifies this`trace
      ensures Valid()
      ensures trace == old(trace) + FreqSequence(freq, mode)
    {
      var prescale := Prescale(freq);
      var newmode := SleepMode(mode);
      trace := trace + [Read(Mode1)];
      trace := trace + [RegisterWrite(Mode1, newmode)];
      trace := trace + [RegisterWrite(PrescaleReg, LowByte(prescale))];
      trace := trace + [RegisterWrite(Mode1, mode)];
      trace := trace + [Wait(OscillatorWait)];
      trace := trace + [RegisterWrite(Mode1, RestartMode(mode))];
      assert trace == old(trace) + FreqSequence(freq, mode);
      FreqSequenceAsleep(freq, mode);
      PrescaleWhileAsleepAppend(old(trace), FreqSequence(freq, mode));
    }

    /**
     * initPCA9685: clear MODE1, set 50 Hz, zero channels 0..15 in order,
     * then mark the driver initialised.
     */
    method Init(mode: Byte)
      requires Valid()
      modifies this`trace, this`initialized, channels
      ensures Valid() && initialized
      ensures trace == old(trace) + InitSequence(mode)
      ensures channels[..] == Blank()
    {
      PrescaleWhileAsleepAppend(trace, [RegisterWrite(Mode1, 0)]);
      trace := trace + [RegisterWrite(Mode1, 0)];
      SetFreq(DriverFrequency, mode);
      ghost var t0 := trace;
      ghost var table0: Table := channels[..];
      var idx := 0;
      while idx < 16
        invariant 0 <= idx <= 16 && Valid()
        invariant trace == t0 + Emit(ZeroCalls(idx))
        invariant channels[..] == Apply(table0, ZeroCalls(idx))
      {
        SetPwm(idx, 0, 0);
        ZeroCallsStep(t0, table0, idx);
        idx := idx + 1;
      }
      initialized := true;
      ApplyZeroCalls(table0, 16);
      assert channels[..] == Blank();
    }
  }
}
