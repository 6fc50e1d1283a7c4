/** The register encodings of the RD6006: fixed-point scaling, the truncating conversion
    the setters apply, 32-bit counters split over two registers, signed temperatures as
    a [sign, magnitude] pair, the memory presets and the status block. Arithmetic is
    exact: the model does not reproduce the rounding of binary floating point. */
module Codec {
  import opened Modbus

  datatype Option<T> = None | Some(value: T)

  // ---------------------------------------------------------------- scaling

  /** Python's `int(x)` on a number: truncation toward zero. */
  function Trunc(x: real): (r: int)
    ensures 0.0 <= x ==> 0 <= r && r as real <= x < r as real + 1.0
    ensures x < 0.0 ==> r <= 0 && r as real - 1.0 < x <= r as real
  {
    if x >= 0.0 then x.Floor else -((-x).Floor)
  }

  /** A raw register in physical units, `raw / divisor`: writing it back with the same
      factor stores the very same raw value. */
  function Scaled(raw: int, divisor: nat): (x: real)
    requires divisor > 0
    ensures Trunc(x * divisor as real) == raw
  {
    raw as real / divisor as real
  }

  /** The raw value a scaled setter stores, `int(value * scale)`: the largest multiple
      of 1/scale not beyond the value, on the side of zero, so fractions finer than
      1/scale are dropped and never rounded up. */
  function Encode(value: real, scale: nat): (raw: int)
    requires scale > 0
    ensures 0.0 <= value ==> 0 <= raw && Scaled(raw, scale) <= value < Scaled(raw + 1, scale)
    ensures value < 0.0 ==> raw <= 0 && Scaled(raw - 1, scale) < value <= Scaled(raw, scale)
  {
    var k := scale as real;
    var r := Trunc(value * k);
    BelowScaled(r, k, value);
    BelowScaled(r + 1, k, value);
    BelowScaled(r - 1, k, value);
    r
  }

  /** A register shown in physical units and handed back to a setter with the same
      factor is stored unchanged. */
  lemma EncodeScaled(raw: int, scale: nat)
    requires scale > 0
    ensures Encode(Scaled(raw, scale), scale) == raw
  {
  }

  /** Comparing n with x * k is comparing n / k with x. */
  lemma BelowScaled(n: int, k: real, x: real)
    requires k > 0.0
    ensures n as real <= x * k <==> n as real / k <= x
    ensures n as real < x * k <==> n as real / k < x
  {
    var q := n as real / k;
    assert q * k == n as real;
    if q <= x {
      assert q * k <= x * k;
    }
    if q < x {
      assert q * k < x * k;
    }
    if n as real <= x * k {
      assert q * k <= x * k;
    }
  }

  // ---------------------------------------------------------------- 32-bit counters

  function Pow2(k: nat): (p: nat)
    ensures p >= 1
  {
    if k == 0 then 1 else 2 * Pow2(k - 1)
  }

  lemma Pow2Sixteen()
    ensures Pow2(16) == 0x1_0000
  {
    assert Pow2(4) == 16 && Pow2(8) == 256 && Pow2(12) == 4096;
  }

  /** Python's `a << k` on a natural number, one doubling per bit: it multiplies a
      by 2^k. */
  function ShiftLeft(a: nat, k: nat): (r: nat)
    ensures r == a * Pow2(k)
  {
    if k == 0 then a else 2 * ShiftLeft(a, k - 1)
  }

  /** Python's `a | b` on natural numbers, bit by bit from the least significant. A bit
      set in either operand is set in the result, so the result is at least each operand
      and at most their sum. */
  function BitOr(a: nat, b: nat): (r: nat)
    ensures a <= r && b <= r && r <= a + b
    decreases a + b
  {
    if a == 0 then b
    else if b == 0 then a
    else 2 * BitOr(a / 2, b / 2) + (if a % 2 == 1 || b % 2 == 1 then 1 else 0)
  }

  /** Or-ing a number below 2^k into a number shifted left by k adds the two. */
  lemma {:induction false} OrIntoLowBits(a: nat, b: nat, k: nat)
    requires b < Pow2(k)
    ensures BitOr(ShiftLeft(a, k), b) == ShiftLeft(a, k) + b
  {
    if k == 0 || a == 0 || b == 0 {
    } else {
      assert ShiftLeft(a, k) / 2 == ShiftLeft(a, k - 1) && ShiftLeft(a, k) % 2 == 0;
      OrIntoLowBits(a, b / 2, k - 1);
    }
  }

  /** A counter held in a high and a low register, `hi << 16 | lo`: the two registers
      as the digits of a base-65536 number, so every 32-bit value has exactly one
      representation. */
  function Wide(hi: U16, lo: U16): (w: nat)
    ensures w == hi * 0x1_0000 + lo
    ensures w < 0x1_0000_0000
  {
    Pow2Sixteen();
    OrIntoLowBits(hi, lo, 16);
    BitOr(ShiftLeft(hi, 16), lo)
  }

  /** The high and low registers of a 32-bit counter. */
  function Split(w: nat): (regs: (U16, U16))
    requires w < 0x1_0000_0000
    ensures Wide(regs.0, regs.1) == w
  {
    (w / 0x1_0000, w % 0x1_0000)
  }

  lemma WideSplit(hi: U16, lo: U16)
    ensures Split(Wide(hi, lo)) == (hi, lo)
  {
    var w := hi * 0x1_0000 + lo;
    assert Wide(hi, lo) == w;
    assert w / 0x1_0000 == hi && w % 0x1_0000 == lo;
  }

  // ---------------------------------------------------------------- temperatures

  /** How the device holds a temperature: a sign register (1 for below zero) followed
      by the magnitude. */
  function SignMagnitude(t: int): (regs: seq<U16>)
    requires -0x1_0000 < t < 0x1_0000
    ensures |regs| == 2 && regs[0] <= 1
  {
    if t < 0 then [1, -t] else [0, t]
  }

  /** The driver's decoding of a [sign, magnitude] pair. A sign other than 0 or 1
      gives no value and no error: the driver builds an exception for it and drops it
      unraised. */
  function Unsigned2Signed(regs: seq<U16>): (t: Option<int>)
    requires |regs| >= 2
    ensures t.Some? <==> regs[0] <= 1
    ensures t.Some? ==> -0x1_0000 < t.value < 0x1_0000 && SignMagnitude(t.value) == (if regs[1] == 0 then [0, 0] else regs[..2])
  {
    var sign, value := regs[0], regs[1];
    if sign == 0 then Some(value)
    else if sign == 1 then Some(-(value as int))
    else None
  }

  lemma SignedRoundTrip(t: int)
    requires -0x1_0000 < t < 0x1_0000
    ensures Unsigned2Signed(SignMagnitude(t)) == Some(t)
  {
  }

  /** The status dump's reading of a [sign, magnitude] pair: any nonzero sign counts
      as negative. It agrees with Unsigned2Signed where that gives a value and reports
      the negated magnitude where Unsigned2Signed gives none. */
  function StatusTemp(sign: U16, magnitude: U16): (t: int)
    ensures sign <= 1 ==> Unsigned2Signed([sign, magnitude]) == Some(t)
    ensures sign >= 2 ==> Unsigned2Signed([sign, magnitude]) == None && t == -(magnitude as int)
  {
    var s := if sign != 0 then -1 else 1;
    s * magnitude
  }

  // ---------------------------------------------------------------- memory presets

  /** One memory preset: voltage, current, over-voltage and over-current protection. */
  datatype Preset = Preset(voltage: real, current: real, ovp: real, ocp: real)

  const MemorySlots := 10

  /** The first of the four registers of memory slot m: the slot lies inside the
      memory block, registers 80 to 119, exactly for the ten slots. */
  function MemBase(m: int): (b: int)
    ensures 0 <= m < MemorySlots <==> 80 <= b && b + 4 <= 120
  {
    m * 4 + 80
  }

  /** Slots are laid out back to back: registers 80 to 119 are each in exactly one of
      the slots 0 to 9, namely slot (i - 80) / 4. */
  lemma MemSlotsTile(i: int, m: int)
    requires 0 <= m < MemorySlots
    ensures MemBase(m) <= i < MemBase(m) + 4 <==> 80 <= i < 120 && m == (i - 80) / 4
  {
  }

  /** The preset held in four consecutive registers: volts in hundredths, amperes in
      thousandths. */
  function DecodePreset(regs: seq<U16>): (p: Preset)
    requires |regs| >= 4
    ensures Encode(p.voltage, 100) == regs[0] && Encode(p.current, 1000) == regs[1]
    ensures Encode(p.ovp, 100) == regs[2] && Encode(p.ocp, 1000) == regs[3]
  {
    Preset(Scaled(regs[0], 100), Scaled(regs[1], 1000), Scaled(regs[2], 100), Scaled(regs[3], 1000))
  }

  /** The ten presets of a 40-register block starting at register 80. Each preset,
      stored back with the setters' factors, gives its four registers again, so the
      presets determine the block. */
  function Memories(regs: seq<U16>): (ps: seq<Preset>)
    requires |regs| >= 4 * MemorySlots
    ensures |ps| == MemorySlots
    ensures forall m :: 0 <= m < MemorySlots ==>
      Encode(ps[m].voltage, 100) == regs[4 * m] && Encode(ps[m].current, 1000) == regs[4 * m + 1] &&
      Encode(ps[m].ovp, 100) == regs[4 * m + 2] && Encode(ps[m].ocp, 1000) == regs[4 * m + 3]
  {
    seq(MemorySlots, m requires 0 <= m < MemorySlots => DecodePreset(regs[4 * m..4 * m + 4]))
  }

  /** Decodes the presets of a 40-register block one slot at a time. */
  method DecodeMemories(regs: seq<U16>) returns (slots: seq<Preset>)
    requires |regs| >= 4 * MemorySlots
    ensures |slots| == MemorySlots
    ensures forall m :: 0 <= m < MemorySlots ==> slots[m] == DecodePreset(regs[4 * m..4 * m + 4])
  {
    slots := [];
    for m := 0 to MemorySlots
      invariant |slots| == m
      invariant forall j :: 0 <= j < m ==> slots[j] == DecodePreset(regs[4 * j..4 * j + 4])
    {
      slots := slots + [DecodePreset(regs[4 * m..4 * m + 4])];
    }
  }

  // ---------------------------------------------------------------- status block

  /** Everything the status dump reports. */
  datatype Report = Report(
    model: real,              // register 0 in tenths
    serial: nat,              // registers 1 and 2
    firmware: real,           // register 3 in hundredths
    input: real,              // register 14, volts
    temp: int,                // registers 4 and 5, degrees Celsius
    probeTemp: int,           // registers 34 and 35, degrees Celsius
    outVoltage: real,         // register 10, volts
    outCurrent: real,         // register 11, amperes
    outCharge: real,          // register 12, reported as ampere-hours
    outPower: real,           // register 13, watts
    setVoltage: real,         // register 8, volts
    setCurrent: real,         // register 9, amperes
    ovp: real,                // register 82, volts
    ocp: real,                // register 83, amperes
    battery: Option<real>,    // register 33 in volts, only while register 32 is nonzero
    capacity: real,           // registers 38 and 39, ampere-hours
    energy: real,             // registers 40 and 41, watt-hours
    memories: seq<Preset>)    // the ten memory presets

  /** The status report decoded from the 84-register block at register 0, with the
      memory presets read separately. The setpoints and limits it shows, handed back to
      their setters, store the registers they came from; the serial number splits back
      into registers 1 and 2; the battery voltage is shown only while battery mode is on. */
  function DecodeStatus(regs: seq<U16>, memories: seq<Preset>): (s: Report)
    requires |regs| >= 84
    ensures Encode(s.setVoltage, 100) == regs[8] && Encode(s.setCurrent, 1000) == regs[9]
    ensures Encode(s.ovp, 100) == regs[82] && Encode(s.ocp, 1000) == regs[83]
    ensures s.serial < 0x1_0000_0000 && Split(s.serial) == (regs[1], regs[2])
    ensures s.battery.Some? <==> regs[32] != 0
    ensures s.memories == memories
  {
    WideSplit(regs[1], regs[2]);
    EncodeScaled(regs[8], 100);
    EncodeScaled(regs[9], 1000);
    EncodeScaled(regs[82], 100);
    EncodeScaled(regs[83], 1000);
    Report(
      Scaled(regs[0], 10), Wide(regs[1], regs[2]), Scaled(regs[3], 100), Scaled(regs[14], 100),
      StatusTemp(regs[4], regs[5]), StatusTemp(regs[34], regs[35]),
      Scaled(regs[10], 100), Scaled(regs[11], 1000), Scaled(regs[12], 1000), Scaled(regs[13], 100),
      Scaled(regs[8], 100), Scaled(regs[9], 1000), Scaled(regs[82], 100), Scaled(regs[83], 1000),
      if regs[32] != 0 then Some(Scaled(regs[33], 100)) else None,
      Scaled(Wide(regs[38], regs[39]), 1000), Scaled(Wide(regs[40], regs[41]), 1000),
      memories)
  }
}
