/**
 * The integer and byte arithmetic of the PCA9685 driver layer: the byte
 * split of 16-bit tick values, the prescale divisor and the MODE1 bytes of
 * a frequency change, the speed clamp, the servo pulse and the bias
 * rounding. Numbers that the driver keeps as JavaScript doubles are
 * integers here; each function says how the source's rounding is modelled.
 */
module PwmMath {

  /** One byte on the I2C bus. */
  type Byte = b: int | 0 <= b < 256

  // ---------------------------------------------------------------------
  // Byte split of a tick value (`x & 0xff`, `(x >> 8) & 0xff`)
  // ---------------------------------------------------------------------

  /** Dividing by d has one quotient and one remainder in 0..d-1. */
  lemma DivModUnique(x: int, d: int, q: int, r: int)
    requires d > 0 && 0 <= r < d && x == d * q + r
    ensures x / d == q && x % d == r
  {
    var k := q - x / d;
    assert k * d == x % d - r by {
      assert k * d == q * d - (x / d) * d;
    }
    MulCancel(k, 1, d);
    MulCancel(-1, k, d);
  }

  /**
   * `x & 0xff` for an integer x: the two's-complement low byte, the one
   * byte that differs from x by a multiple of 256.
   */
  function LowByte(x: int): (b: Byte)
    ensures (x - b) % 256 == 0
  {
    DivModUnique(x - x % 256, 256, x / 256, 0);
    x % 256
  }

  /**
   * `(x >> 8) & 0xff`: the arithmetic shift floors, then the low byte is
   * kept. The result is bits 8..15 of x, the upper byte of its low 16 bits.
   */
  function HighByte(x: int): (b: Byte)
    ensures b == (x % 65536) / 256
  {
    var q := x / 256;
    var m := 256 * (q % 256) + x % 256;
    assert x == 65536 * (q / 256) + m;
    DivModUnique(x, 65536, q / 256, m);
    DivModUnique(m, 256, q % 256, x % 256);
    LowByte(q)
  }

  /**
   * The 16-bit little-endian value that a (low, high) byte pair carries:
   * its remainder by 256 is the low byte and its quotient the high byte.
   */
  function Join(lo: Byte, hi: Byte): (x: int)
    ensures 0 <= x < 65536
    ensures x % 256 == lo && x / 256 == hi
  {
    DivModUnique(lo + 256 * hi, 256, hi, lo);
    lo + 256 * hi
  }

  /** Splitting a value into two bytes and joining them gives back its low 16 bits. */
  lemma SplitJoin(x: int)
    ensures Join(LowByte(x), HighByte(x)) == x % 65536
  {
    var q, r := x / 256, x % 256;
    var q1, q0 := q / 256, q % 256;
    assert x == 65536 * q1 + (256 * q0 + r);
  }

  /** Joining two bytes and splitting the result gives back the same two bytes. */
  lemma JoinSplit(lo: Byte, hi: Byte)
    ensures LowByte(Join(lo, hi)) == lo && HighByte(Join(lo, hi)) == hi
  {
  }

  // ---------------------------------------------------------------------
  // Frequency: prescale divisor and MODE1 bytes
  // ---------------------------------------------------------------------

  /**
   * The value `25000000 / 4096 / (freq * 0.9) - 1` that the frequency
   * routine rounds, computed exactly.
   */
  function PrescaleExact(freq: int): real
    requires freq > 0
  {
    25000000.0 / 4096.0 / (freq as real * 0.9) - 1.0
  }

  /**
   * `Math.floor(prescaleval + 0.5)`: the integer nearest to the exact
   * divisor, halves rounded up.
   */
  function Prescale(freq: int): (p: int)
    requires freq > 0
    ensures p as real - 0.5 <= PrescaleExact(freq) < p as real + 0.5
  {
    (PrescaleExact(freq) + 0.5).Floor
  }

  /** At the driver's fixed 50 Hz the prescale byte is 135. */
  lemma Prescale50()
    ensures Prescale(50) == 135
  {
    var e := PrescaleExact(50);
    assert e == 25000000.0 / 4096.0 / 45.0 - 1.0;
    assert 134.6 < e < 134.7;
  }

  /** A higher frequency never needs a larger divisor. */
  lemma PrescaleAntitone(f1: int, f2: int)
    requires 0 < f1 <= f2
    ensures Prescale(f2) <= Prescale(f1)
  {
    var k := 25000000.0 / 4096.0;
    var a, b := f1 as real * 0.9, f2 as real * 0.9;
    var u, v := k / b, k / a;
    assert u * b == k && v * a == k;
    assert u * a <= u * b;
    assert (u - v) * a <= 0.0;
    assert PrescaleExact(f2) <= PrescaleExact(f1);
  }

  // MODE1 bits, low to high: ALLCALL (0x01), SUB3..SUB1 (0x02..0x08),
  // SLEEP (0x10), AI auto-increment (0x20), EXTCLK (0x40), RESTART (0x80).
  // A byte's bits are read arithmetically: `x % 16` holds bits 0..3,
  // `(x / 16) % 2` is bit 4, and so on.

  /**
   * `(oldmode & 0x7F) | 0x10`: the MODE1 byte that puts the oscillator to
   * sleep (bit 4 set) with RESTART (bit 7) cleared and every other bit kept.
   */
  function SleepMode(mode: Byte): (m: Byte)
    ensures (m / 16) % 2 == 1 && m < 128
    ensures m % 16 == mode % 16 && (m / 32) % 4 == (mode / 32) % 4
  {
    mode % 16 + 0x10 + 32 * ((mode / 32) % 4)
  }

  /**
   * `oldmode | 0xa1`: the MODE1 byte that sets RESTART (bit 7), AI (bit 5)
   * and ALLCALL (bit 0), every other bit kept.
   */
  function RestartMode(mode: Byte): (m: Byte)
    ensures m % 2 == 1 && (m / 32) % 2 == 1 && m >= 128
    ensures (m / 2) % 16 == (mode / 2) % 16 && (m / 64) % 2 == (mode / 64) % 2
  {
    0x01 + 2 * ((mode / 2) % 16) + 0x20 + 64 * ((mode / 64) % 2) + 0x80
  }

  /** The two MODE1 bytes on the values the chip reads back after power-up and after a restart. */
  lemma ModeBytes()
    ensures SleepMode(0x00) == 0x10 && RestartMode(0x00) == 0xA1
    ensures SleepMode(0xA1) == 0x31 && RestartMode(0x11) == 0xB1
  {
  }

  // ---------------------------------------------------------------------
  // Motor speed
  // ---------------------------------------------------------------------

  function Min(a: int, b: int): int { if a <= b then a else b }
  function Max(a: int, b: int): int { if a <= b then b else a }
  function Abs(a: int): nat { if a < 0 then -a else a }

  /**
   * The signed tick value of a motor speed: `speed * 16`, then saturated
   * by the two guards `>= 4096` and `<= -4096`. It is the speed scaled and
   * clamped to [-4095, 4095], with the sign of the speed.
   */
  function SpeedTicks(speed: int): (t: int)
    ensures t == Max(-4095, Min(4095, 16 * speed))
    ensures (t > 0 <==> speed > 0) && (t < 0 <==> speed < 0)
  {
    var s := speed * 16;
    if s >= 4096 then 4095
    else if s <= -4096 then -4095
    else s
  }

  /** A faster speed never gives a smaller tick value. */
  lemma SpeedTicksMonotone(s1: int, s2: int)
    requires s1 <= s2
    ensures SpeedTicks(s1) <= SpeedTicks(s2)
  {
  }

  // ---------------------------------------------------------------------
  // Servo pulse
  // ---------------------------------------------------------------------

  /** `degree * 1800 / 180 + 600`: the pulse width in microseconds. */
  function ServoPulse(degree: int): (us: int)
    ensures us == 10 * degree + 600
  {
    degree * 1800 / 180 + 600
  }

  /** Euclidean division of a natural number brackets it between two multiples of the divisor. */
  lemma DivBounds(n: int, d: int)
    requires n >= 0 && d > 0
    ensures 0 <= n / d && (n / d) * d <= n < (n / d + 1) * d
  {
    var q, r := n / d, n % d;
    assert n == d * q + r;
    assert q * d == d * q;
    assert (q + 1) * d == q * d + d;
  }

  /** For a positive multiplier, comparing products compares the factors. */
  lemma MulCancel(a: int, b: int, d: int)
    requires d > 0 && a * d < b * d
    ensures a < b
  {
    assert (b - a) * d == b * d - a * d;
  }

  /** Division rounding toward zero, as the int32 conversion inside `&` and `>>` does. */
  function TruncDiv(n: int, d: int): (q: int)
    requires d > 0
    ensures n >= 0 ==> 0 <= q && q * d <= n < (q + 1) * d
    ensures n < 0 ==> q <= 0 && (q - 1) * d < n <= q * d
  {
    if n >= 0 then
      DivBounds(n, d);
      n / d
    else
      DivBounds(-n, d);
      var p := (-n) / d;
      assert (-p) * d == -(p * d) && (-p - 1) * d == -((p + 1) * d);
      -p
  }

  /**
   * `v_us * 4096 / 20000` as the channel setter sees it: the pulse in
   * 12-bit ticks of the 20000 us period, truncated toward zero, which is
   * the floor for a pulse that is not negative.
   */
  function ServoTicks(degree: int): (t: int)
    ensures 10 * degree + 600 >= 0 ==>
      0 <= t && t * 20000 <= (10 * degree + 600) * 4096 < (t + 1) * 20000
    ensures 10 * degree + 600 < 0 ==>
      t <= 0 && (t - 1) * 20000 < (10 * degree + 600) * 4096 <= t * 20000
  {
    TruncDiv(ServoPulse(degree) * 4096, 20000)
  }

  /** Truncating division by a positive divisor is monotone. */
  lemma TruncDivMonotone(n1: int, n2: int, d: int)
    requires d > 0 && n1 <= n2
    ensures TruncDiv(n1, d) <= TruncDiv(n2, d)
  {
    var q1, q2 := TruncDiv(n1, d), TruncDiv(n2, d);
    if n1 >= 0 {
      MulCancel(q1, q2 + 1, d);
    } else if n2 < 0 {
      MulCancel(q1 - 1, q2, d);
    }
  }

  /** A larger angle never gives fewer ticks. */
  lemma ServoTicksMonotone(d1: int, d2: int)
    requires d1 <= d2
    ensures ServoTicks(d1) <= ServoTicks(d2)
  {
    TruncDivMonotone(ServoPulse(d1) * 4096, ServoPulse(d2) * 4096, 20000);
  }

  /**
   * Over the servo's 0..180 degree range the pulse is 600..2400 us and the
   * ticks run from 122 to 491; 90 degrees gives 1500 us, 307 ticks.
   */
  lemma ServoTicksRange(degree: int)
    requires 0 <= degree <= 180
    ensures 600 <= ServoPulse(degree) <= 2400
    ensures 122 <= ServoTicks(degree) <= 491
    ensures ServoTicks(0) == 122 && ServoTicks(90) == 307 && ServoTicks(180) == 491
  {
    ServoTicksMonotone(0, degree);
    ServoTicksMonotone(degree, 180);
  }

  // ---------------------------------------------------------------------
  // Motor bias
  // ---------------------------------------------------------------------

  /**
   * `Math.round(balance * 1.75)`: the integer nearest to 1.75 * balance,
   * halves rounded up.
   */
  function RoundBias(balance: int): (b: int)
    ensures 4 * b - 2 <= 7 * balance < 4 * b + 2
  {
    (balance as real * 1.75 + 0.5).Floor
  }

  /** A balance of 0..10 gives a bias of 0..18, growing with the balance. */
  lemma RoundBiasRange(balance: int)
    requires 0 <= balance <= 10
    ensures 0 <= RoundBias(balance) <= 18
    ensures balance < 10 ==> RoundBias(balance) <= RoundBias(balance + 1)
  {
  }
}
