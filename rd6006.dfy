/** The RD6006 driver: a power supply seen as named quantities over its Modbus holding
    registers. Every getter is a fresh read through a retry wrapper, every setter a
    write that changes exactly the registers of its quantity. */
module Rd6006 {
  import opened Modbus
  import opened Codec
  import opened Retry

  /** A driver result and a wrapper reply succeed together, and fail with the same error. */
  predicate Settled<T>(r: Result<T>, reply: Result<seq<U16>>) {
    r.Ok? == reply.Ok? && (r.Err? ==> r.error == reply.error)
  }

  /** A moment of the host's clock, as the clock-synchronising connection writes it. */
  datatype DateTime = DateTime(year: int, month: int, day: int, hour: int, minute: int, second: int)

  /** Writing a block of registers and reading the same block back: once the write has
      succeeded, the read returns exactly the values written, unless the link fails it. */
  lemma ReadBack(s1: seq<Exchange>, s2: seq<Exchange>, bank: seq<U16>, start: int, values: seq<int>)
    requires Reply(MultiRegister, s1, bank, WriteMany(start, values)).Ok?
    ensures var back := Reply(MultiRegister, s2, Apply(bank, WriteMany(start, values)), ReadMany(start, |values|));
      (back.Ok? <==> Final(MultiRegister, s2) == Answered) && (back.Ok? ==> back.value == values)
  {
    var after := Apply(bank, WriteMany(start, values));
    assert after[start..start + |values|] == values;
  }

  /** Slot m of the bulk memory read is the slot a single-slot read of m decodes. */
  lemma BulkSlotIsSlot(bank: seq<U16>, m: int)
    requires |bank| >= 120 && 0 <= m < MemorySlots
    ensures Memories(bank[80..120])[m] == DecodePreset(bank[MemBase(m)..MemBase(m) + 4])
  {
    var b, block := MemBase(m), bank[80..120];
    assert b == 80 + 4 * m;
    var slot := [bank[b], bank[b + 1], bank[b + 2], bank[b + 3]];
    assert bank[b..b + 4] == slot;
    assert block[4 * m..4 * m + 4] == slot;
  }

  /** Every field of the status report is the value the matching accessor or the
      identity read decodes from the same registers. */
  lemma StatusMatchesAccessors(regs: seq<U16>, memories: seq<Preset>)
    requires |regs| >= 84
    ensures var s := DecodeStatus(regs, memories);
      s.serial == Wide(regs[1], regs[2]) && s.firmware == Scaled(regs[3], 100) &&
      s.input == Scaled(regs[14], 100) && s.outVoltage == Scaled(regs[10], 100) &&
      s.outCurrent == Scaled(regs[11], 1000) && s.outPower == Scaled(regs[13], 100) &&
      s.capacity == Scaled(Wide(regs[38], regs[39]), 1000) &&
      s.energy == Scaled(Wide(regs[40], regs[41]), 1000) &&
      (regs[4] <= 1 ==> Unsigned2Signed(regs[4..6]) == Some(s.temp)) &&
      (regs[34] <= 1 ==> Unsigned2Signed(regs[34..36]) == Some(s.probeTemp)) &&
      s.setVoltage == Scaled(regs[8], 100) && s.setCurrent == Scaled(regs[9], 1000) &&
      s.ovp == Scaled(regs[82], 100) && s.ocp == Scaled(regs[83], 1000) &&
      s.memories == memories
  {
    assert regs[4..6] == [regs[4], regs[5]] && regs[34..36] == [regs[34], regs[35]];
  }

  /** The device clock holds the moment now in registers 48 to 53, and no other
      register changed. */
  twostate predicate ClockSet(instrument: Instrument, now: DateTime)
    reads instrument, instrument.bank
  {
    54 <= instrument.bank.Length &&
    instrument.bank[..] ==
      old(instrument.bank[..48]) + [now.year, now.month, now.day, now.hour, now.minute, now.second] + old(instrument.bank[54..])
  }

  /** The clock synchronisation as it went on the wire, started with the given link
      script, request log and bank: the date block written through the multi-register
      wrapper and, only if that succeeded, the time block after it. A failed date write
      changed nothing; a failed time write left the date in place. */
  predicate ClockWrites(instrument: Instrument, script: seq<Exchange>, log: seq<Request>, bank: seq<U16>,
                        r: Result<()>, now: DateTime)
    reads instrument, instrument.bank
  {
    var date, time := [now.year, now.month, now.day], [now.hour, now.minute, now.second];
    var first := Reply(MultiRegister, script, bank, WriteMany(48, date));
    var mid := Remaining(MultiRegister, script, WriteMany(48, date));
    var sent := log + Repeat(WriteMany(48, date), Attempts(MultiRegister, script, WriteMany(48, date)));
    if first.Err? then
      r == Err(first.error) && instrument.script == mid && instrument.sent == sent &&
      instrument.bank[..] == bank
    else
      51 <= |bank| &&
      Settled(r, Reply(MultiRegister, mid, bank, WriteMany(51, time))) &&
      instrument.script == Remaining(MultiRegister, mid, WriteMany(51, time)) &&
      instrument.sent == sent + Repeat(WriteMany(51, time), Attempts(MultiRegister, mid, WriteMany(51, time))) &&
      (r.Err? ==> instrument.bank[..] == bank[..48] + date + bank[51..])
  }

  /** Writing registers 48 to 50 and then 51 to 53 leaves both blocks in place. */
  lemma ClockSplice(b0: seq<U16>, b1: seq<U16>, b2: seq<U16>, date: seq<int>, time: seq<int>)
    requires |b0| >= 54 && |date| == 3 && |time| == 3
    requires b1 == b0[..48] + date + b0[51..]
    requires b2 == b1[..51] + time + b1[54..]
    ensures b2 == b0[..48] + date + time + b0[54..]
  {
    assert b1[..51] == b0[..48] + date;
    assert b1[54..] == b0[54..];
  }

  class RD6006 {
    const port: string
    const address: int
    const instrument: Instrument
    /** Identity read once on connection. */
    var model: U16
    var sn: nat
    var fw: real

    constructor (port: string, address: int, instrument: Instrument)
      ensures this.port == port && this.address == address && this.instrument == instrument
      ensures model == 0 && sn == 0 && fw == 0.0
    {
      this.port := port;
      this.address := address;
      this.instrument := instrument;
      model, sn, fw := 0, 0, 0.0;
    }

    /** Connects to the supply: reads its identity from registers 0 to 3 and, when
        asked to, sets its clock to the host's. */
    static method Open(port: string, instrument: Instrument, now: DateTime, address: int := 1, synctime: bool := false)
      returns (r: Result<RD6006>)
      modifies instrument, instrument.bank
      ensures r.Ok? ==> fresh(r.value) && r.value.port == port && r.value.address == address && r.value.instrument == instrument
      ensures r.Ok? ==> (4 <= instrument.bank.Length && r.value.model == old(instrument.bank[0]) &&
                         r.value.sn == Wide(old(instrument.bank[1]), old(instrument.bank[2])) &&
                         r.value.fw == Scaled(old(instrument.bank[3]), 100))
      ensures var identity := Reply(MultiRegister, old(instrument.script), old(instrument.bank[..]), ReadMany(0, 4));
        (identity.Err? ==> r == Err(identity.error) && instrument.bank[..] == old(instrument.bank[..])) &&
        (!synctime ==> Settled(r, identity) && instrument.bank[..] == old(instrument.bank[..]))
      ensures var id, script := ReadMany(0, 4), old(instrument.script);
        var identity := Reply(MultiRegister, script, old(instrument.bank[..]), id);
        var rest := Remaining(MultiRegister, script, id);
        var log := old(instrument.sent) + Repeat(id, Attempts(MultiRegister, script, id));
        (identity.Err? || !synctime ==> instrument.script == rest && instrument.sent == log) &&
        (identity.Ok? && synctime ==>
           ClockWrites(instrument, rest, log, old(instrument.bank[..]), if r.Ok? then Ok(()) else Err(r.error), now))
      ensures r.Ok? && synctime ==> ClockSet(instrument, now)
    {
      var dev := new RD6006(port, address, instrument);
      var regs := dev.ReadRegisters(0, 4);
      if regs.Err? {
        return Err(regs.error);
      }
      dev.model := regs.value[0];
      dev.sn := Wide(regs.value[1], regs.value[2]);
      dev.fw := Scaled(regs.value[3], 100);
      if synctime {
        var s := dev.SyncClock(now);
        if s.Err? {
          return Err(s.error);
        }
      }
      r := Ok(dev);
    }

    /** The clock synchronisation on connection: the date setter, then the time setter. */
    method SyncClock(now: DateTime) returns (r: Result<()>)
      modifies instrument, instrument.bank
      ensures ClockWrites(instrument, old(instrument.script), old(instrument.sent), old(instrument.bank[..]), r, now)
      ensures r.Ok? ==> ClockSet(instrument, now)
    {
      ghost var b0 := instrument.bank[..];
      var d := SetDate([now.year, now.month, now.day]);
      if d.Err? {
        return Err(d.error);
      }
      ghost var b1 := instrument.bank[..];
      WriteReplySize(MultiRegister, instrument.script, b1, b0, WriteMany(51, [now.hour, now.minute, now.second]));
      var t := SetTime([now.hour, now.minute, now.second]);
      if t.Err? {
        return Err(t.error);
      }
      ClockSplice(b0, b1, instrument.bank[..], [now.year, now.month, now.day], [now.hour, now.minute, now.second]);
      assert b0[..48] == old(instrument.bank[..48]) && b0[54..] == old(instrument.bank[54..]);
      r := Ok(());
    }

    // ------------------------------------------------------------ retry wrappers

    /** The reply a wrapper with policy p would give for req in the current state. */
    function Pending(p: Policy, req: Request): Result<seq<U16>>
      reads instrument, instrument.bank
    {
      Reply(p, instrument.script, instrument.bank[..], req)
    }

    /** The link went through one wrapper call for req: the calls it made are on the
        wire and the exchanges they used are gone from the script. */
    twostate predicate Exchanged(p: Policy, req: Request)
      reads instrument
    {
      var script := old(instrument.script);
      instrument.script == Remaining(p, script, req) &&
      instrument.sent == old(instrument.sent) + Repeat(req, Attempts(p, script, req))
    }

    /** A retry wrapper: calls the transport with req and, when the call fails with an
        error p retries after, starts over. */
    method Transact(p: Policy, req: Request) returns (r: Result<seq<U16>>)
      modifies instrument, instrument.bank
      ensures Exchanged(p, req)
      ensures r == old(Pending(p, req))
      ensures instrument.bank[..] == if r.Ok? then Apply(old(instrument.bank[..]), req) else old(instrument.bank[..])
      decreases |instrument.script|
    {
      ghost var script, bank := instrument.script, instrument.bank[..];
      r := instrument.Call(req);
      if !Encodable(req) {
        assert script[0..] == script;
      } else if r.Err? && Retries(p, r.error) {
        RetryStep(p, script, bank, req);
        r := Transact(p, req);
        RepeatStep(req, Attempts(p, Rest(script), req));
      } else {
        StopStep(p, script, bank, req);
      }
    }

    /** _read_register: one register, retried after no response only. */
    method ReadRegister(register: int) returns (r: Result<U16>)
      modifies instrument, instrument.bank
      ensures RegisterRead(r, register)
    {
      var raw := Transact(SingleRegister, ReadOne(register));
      if raw.Err? {
        return Err(raw.error);
      }
      r := Ok(raw.value[0]);
    }

    /** _read_registers: a block of registers, retried after no response or an invalid one. */
    method ReadRegisters(start: int, length: int) returns (r: Result<seq<U16>>)
      modifies instrument, instrument.bank
      ensures BlockRead(r, start, length)
    {
      r := Transact(MultiRegister, ReadMany(start, length));
    }

    /** _write_register: one register, retried after no response only. */
    method WriteRegister(register: int, value: int) returns (r: Result<()>)
      modifies instrument, instrument.bank
      ensures RegisterWritten(r, register, value)
    {
      var raw := Transact(SingleRegister, WriteOne(register, value));
      if raw.Err? {
        return Err(raw.error);
      }
      r := Ok(());
    }

    /** _write_registers: a block of registers, retried after no response or an invalid one. */
    method WriteRegisters(start: int, values: seq<int>) returns (r: Result<()>)
      modifies instrument, instrument.bank
      ensures BlockWritten(r, start, values)
    {
      var raw := Transact(MultiRegister, WriteMany(start, values));
      if raw.Err? {
        return Err(raw.error);
      }
      r := Ok(());
    }

    // ------------------------------------------------------------ what an access did

    /** A single-register read: the bank is unchanged and a success carries the register. */
    twostate predicate RegisterRead(new r: Result<U16>, register: int)
      reads instrument, instrument.bank
    {
      Exchanged(SingleRegister, ReadOne(register)) &&
      Settled(r, old(Pending(SingleRegister, ReadOne(register)))) &&
      instrument.bank[..] == old(instrument.bank[..]) &&
      (r.Ok? ==> 0 <= register < instrument.bank.Length && r.value == instrument.bank[register])
    }

    /** A single-register read in physical units: a success carries register / divisor. */
    twostate predicate ScaledRead(new r: Result<real>, register: int, divisor: nat)
      requires divisor > 0
      reads instrument, instrument.bank
    {
      Exchanged(SingleRegister, ReadOne(register)) &&
      Settled(r, old(Pending(SingleRegister, ReadOne(register)))) &&
      instrument.bank[..] == old(instrument.bank[..]) &&
      (r.Ok? ==> 0 <= register < instrument.bank.Length && r.value == Scaled(instrument.bank[register], divisor))
    }

    /** A block read: the bank is unchanged and a success carries the block. */
    twostate predicate BlockRead(new r: Result<seq<U16>>, start: int, length: int)
      reads instrument, instrument.bank
    {
      Exchanged(MultiRegister, ReadMany(start, length)) &&
      r == old(Pending(MultiRegister, ReadMany(start, length))) &&
      instrument.bank[..] == old(instrument.bank[..]) &&
      (r.Ok? ==> (0 <= start && 1 <= length && start + length <= instrument.bank.Length &&
                  r.value == instrument.bank[start..start + length]))
    }

    /** A single-register write: on success the register holds the value and no other
        register changed; on failure nothing changed. */
    twostate predicate RegisterWritten(new r: Result<()>, register: int, value: int)
      reads instrument, instrument.bank
    {
      Exchanged(SingleRegister, WriteOne(register, value)) &&
      Settled(r, old(Pending(SingleRegister, WriteOne(register, value)))) &&
      (r.Ok? ==> (0 <= register < instrument.bank.Length &&
                  instrument.bank[..] == old(instrument.bank[..])[register := value])) &&
      (r.Err? ==> instrument.bank[..] == old(instrument.bank[..]))
    }

    /** A block write: on success the block holds the values and no register outside it
        changed; on failure nothing changed. */
    twostate predicate BlockWritten(new r: Result<()>, start: int, values: seq<int>)
      reads instrument, instrument.bank
    {
      Exchanged(MultiRegister, WriteMany(start, values)) &&
      Settled(r, old(Pending(MultiRegister, WriteMany(start, values)))) &&
      (r.Ok? ==> (0 <= start && 1 <= |values| && start + |values| <= instrument.bank.Length &&
                  instrument.bank[..] == old(instrument.bank[..start]) + values + old(instrument.bank[start + |values|..]))) &&
      (r.Err? ==> instrument.bank[..] == old(instrument.bank[..]))
    }

    // ------------------------------------------------------------ shared accessor shapes

    /** Two reads one after the other, each through its wrapper: the second is made only
        if the first succeeded, and r fails with the first failure. No register changes. */
    twostate predicate ReadInTurn<T>(new r: Result<T>, p1: Policy, req1: Request, p2: Policy, req2: Request)
      requires !req1.IsWrite() && !req2.IsWrite()
      reads instrument, instrument.bank
    {
      var script, bank := old(instrument.script), old(instrument.bank[..]);
      var first := Reply(p1, script, bank, req1);
      var mid := Remaining(p1, script, req1);
      var sent := old(instrument.sent) + Repeat(req1, Attempts(p1, script, req1));
      instrument.bank[..] == bank &&
      if first.Err? then
        r == Err(first.error) && instrument.script == mid && instrument.sent == sent
      else
        Settled(r, Reply(p2, mid, bank, req2)) &&
        instrument.script == Remaining(p2, mid, req2) &&
        instrument.sent == sent + Repeat(req2, Attempts(p2, mid, req2))
    }

    method ReadScaled(register: int, divisor: nat) returns (r: Result<real>)
      requires divisor > 0
      modifies instrument, instrument.bank
      ensures ScaledRead(r, register, divisor)
    {
      var raw := ReadRegister(register);
      if raw.Err? {
        return Err(raw.error);
      }
      r := Ok(Scaled(raw.value, divisor));
    }

    /** A temperature held as a [sign, magnitude] pair at start. */
    method ReadTemperature(start: int) returns (r: Result<Option<int>>)
      modifies instrument, instrument.bank
      ensures Exchanged(MultiRegister, ReadMany(start, 2))
      ensures Settled(r, old(Pending(MultiRegister, ReadMany(start, 2))))
      ensures instrument.bank[..] == old(instrument.bank[..])
      ensures r.Ok? ==> (0 <= start && start + 2 <= instrument.bank.Length &&
                         r.value == Unsigned2Signed(instrument.bank[start..start + 2]))
    {
      var regs := ReadRegisters(start, 2);
      if regs.Err? {
        return Err(regs.error);
      }
      r := Ok(Unsigned2Signed(regs.value));
    }

    /** A counter held in register hi (high half) and register lo (low half), read one
        register at a time, high half first. */
    method ReadWide(hi: int, lo: int) returns (r: Result<nat>)
      modifies instrument, instrument.bank
      ensures ReadInTurn(r, SingleRegister, ReadOne(hi), SingleRegister, ReadOne(lo))
      ensures r.Ok? ==> (0 <= hi < instrument.bank.Length && 0 <= lo < instrument.bank.Length &&
                         r.value == Wide(instrument.bank[hi], instrument.bank[lo]))
    {
      var high := ReadRegister(hi);
      if high.Err? {
        return Err(high.error);
      }
      var low := ReadRegister(lo);
      if low.Err? {
        return Err(low.error);
      }
      r := Ok(Wide(high.value, low.value));
    }

    /** Three consecutive registers from start, as a triple. */
    method ReadTriple(start: int) returns (r: Result<(U16, U16, U16)>)
      modifies instrument, instrument.bank
      ensures Exchanged(MultiRegister, ReadMany(start, 3))
      ensures Settled(r, old(Pending(MultiRegister, ReadMany(start, 3))))
      ensures instrument.bank[..] == old(instrument.bank[..])
      ensures r.Ok? ==> (0 <= start && start + 3 <= instrument.bank.Length &&
                         [r.value.0, r.value.1, r.value.2] == instrument.bank[start..start + 3])
    {
      var regs := ReadRegisters(start, 3);
      if regs.Err? {
        return Err(regs.error);
      }
      r := Ok((regs.value[0], regs.value[1], regs.value[2]));
    }

    /** A setter of three consecutive registers: a value that is not exactly three
        numbers is refused before anything is sent. */
    method WriteTriple(start: int, value: seq<int>) returns (r: Result<()>)
      modifies instrument, instrument.bank
      ensures |value| != 3 ==> (r == Err(WrongLength) && instrument.bank[..] == old(instrument.bank[..]) &&
                                instrument.script == old(instrument.script) && instrument.sent == old(instrument.sent))
      ensures |value| == 3 ==> BlockWritten(r, start, value)
    {
      if |value| == 3 {
        r := WriteRegisters(start, value);
      } else {
        r := Err(WrongLength);
      }
    }

    // ------------------------------------------------------------ properties

    /** input_voltage: register 14, volts. */
    method InputVoltage() returns (r: Result<real>)
      modifies instrument, instrument.bank
      ensures ScaledRead(r, 14, 100)
    {
      r := ReadScaled(14, 100);
    }

    /** voltage: the output voltage setpoint, register 8, volts. */
    method Voltage() returns (r: Result<real>)
      modifies instrument, instrument.bank
      ensures ScaledRead(r, 8, 100)
    {
      r := ReadScaled(8, 100);
    }

    /** voltage setter: stores int(value * 100) in register 8. */
    method SetVoltage(value: real) returns (r: Result<()>)
      modifies instrument, instrument.bank
      ensures RegisterWritten(r, 8, Encode(value, 100))
    {
      r := WriteRegister(8, Encode(value, 100));
    }

    /** meastemp: the internal temperature, registers 4 and 5. */
    method MeasTemp() returns (r: Result<Option<int>>)
      modifies instrument, instrument.bank
      ensures Settled(r, old(Pending(MultiRegister, ReadMany(4, 2))))
      ensures Exchanged(MultiRegister, ReadMany(4, 2)) && instrument.bank[..] == old(instrument.bank[..])
      ensures r.Ok? ==> 6 <= instrument.bank.Length && r.value == Unsigned2Signed(instrument.bank[4..6])
    {
      r := ReadTemperature(4);
    }

    /** meastempprobe: the external probe's temperature, registers 34 and 35. */
    method MeasTempProbe() returns (r: Result<Option<int>>)
      modifies instrument, instrument.bank
      ensures Settled(r, old(Pending(MultiRegister, ReadMany(34, 2))))
      ensures Exchanged(MultiRegister, ReadMany(34, 2)) && instrument.bank[..] == old(instrument.bank[..])
      ensures r.Ok? ==> 36 <= instrument.bank.Length && r.value == Unsigned2Signed(instrument.bank[34..36])
    {
      r := ReadTemperature(34);
    }

    /** meastempf: the internal temperature in Fahrenheit, registers 36 and 37. */
    method MeasTempF() returns (r: Result<Option<int>>)
      modifies instrument, instrument.bank
      ensures Settled(r, old(Pending(MultiRegister, ReadMany(36, 2))))
      ensures Exchanged(MultiRegister, ReadMany(36, 2)) && instrument.bank[..] == old(instrument.bank[..])
      ensures r.Ok? ==> 38 <= instrument.bank.Length && r.value == Unsigned2Signed(instrument.bank[36..38])
    {
      r := ReadTemperature(36);
    }

    /** measvoltage: the output voltage, register 10, volts. */
    method MeasVoltage() returns (r: Result<real>)
      modifies instrument, instrument.bank
      ensures ScaledRead(r, 10, 100)
    {
      r := ReadScaled(10, 100);
    }

    /** meascurrent: the output current, register 11, amperes. */
    method MeasCurrent() returns (r: Result<real>)
      modifies instrument, instrument.bank
      ensures ScaledRead(r, 11, 1000)
    {
      r := ReadScaled(11, 1000);
    }

    /** measpower: the output power, register 13, watts. */
    method MeasPower() returns (r: Result<real>)
      modifies instrument, instrument.bank
      ensures ScaledRead(r, 13, 100)
    {
      r := ReadScaled(13, 100);
    }

    /** charge: the accumulated charge, registers 38 (high) and 39 (low), ampere-hours. */
    method Charge() returns (r: Result<real>)
      modifies instrument, instrument.bank
      ensures ReadInTurn(r, SingleRegister, ReadOne(38), SingleRegister, ReadOne(39))
      ensures r.Ok? ==> 40 <= instrument.bank.Length && r.value == Scaled(Wide(instrument.bank[38], instrument.bank[39]), 1000)
    {
      var w := ReadWide(38, 39);
      if w.Err? {
        return Err(w.error);
      }
      r := Ok(Scaled(w.value, 1000));
    }

    /** energy: the accumulated energy, registers 40 (high) and 41 (low), watt-hours. */
    method Energy() returns (r: Result<real>)
      modifies instrument, instrument.bank
      ensures ReadInTurn(r, SingleRegister, ReadOne(40), SingleRegister, ReadOne(41))
      ensures r.Ok? ==> 42 <= instrument.bank.Length && r.value == Scaled(Wide(instrument.bank[40], instrument.bank[41]), 1000)
    {
      var w := ReadWide(40, 41);
      if w.Err? {
        return Err(w.error);
      }
      r := Ok(Scaled(w.value, 1000));
    }

    /** battmode: register 32, raw. */
    method BattMode() returns (r: Result<U16>)
      modifies instrument, instrument.bank
      ensures RegisterRead(r, 32)
    {
      r := ReadRegister(32);
    }

    /** battvoltage: register 33, raw (not scaled). */
    method BattVoltage() returns (r: Result<U16>)
      modifies instrument, instrument.bank
      ensures RegisterRead(r, 33)
    {
      r := ReadRegister(33);
    }

    /** current: the output current setpoint, register 9, amperes. */
    method Current() returns (r: Result<real>)
      modifies instrument, instrument.bank
      ensures ScaledRead(r, 9, 1000)
    {
      r := ReadScaled(9, 1000);
    }

    /** current setter: stores int(value * 1000) in register 9. */
    method SetCurrent(value: real) returns (r: Result<()>)
      modifies instrument, instrument.bank
      ensures RegisterWritten(r, 9, Encode(value, 1000))
    {
      r := WriteRegister(9, Encode(value, 1000));
    }

    /** voltage_protection: the over-voltage threshold, register 82, volts. */
    method VoltageProtection() returns (r: Result<real>)
      modifies instrument, instrument.bank
      ensures ScaledRead(r, 82, 100)
    {
      r := ReadScaled(82, 100);
    }

    /** voltage_protection setter: stores int(value * 100) in register 82. */
    method SetVoltageProtection(value: real) returns (r: Result<()>)
      modifies instrument, instrument.bank
      ensures RegisterWritten(r, 82, Encode(value, 100))
    {
      r := WriteRegister(82, Encode(value, 100));
    }

    /** current_protection: the over-current threshold, register 83, amperes. */
    method CurrentProtection() returns (r: Result<real>)
      modifies instrument, instrument.bank
      ensures ScaledRead(r, 83, 1000)
    {
      r := ReadScaled(83, 1000);
    }

    /** current_protection setter: stores int(value * 1000) in register 83. */
    method SetCurrentProtection(value: real) returns (r: Result<()>)
      modifies instrument, instrument.bank
      ensures RegisterWritten(r, 83, Encode(value, 1000))
    {
      r := WriteRegister(83, Encode(value, 1000));
    }

    /** enable: whether the output is on, register 18, raw. */
    method Enable() returns (r: Result<U16>)
      modifies instrument, instrument.bank
      ensures RegisterRead(r, 18)
    {
      r := ReadRegister(18);
    }

    /** enable setter: stores int(value) in register 18 (a boolean is 1 or 0). */
    method SetEnable(value: real) returns (r: Result<()>)
      modifies instrument, instrument.bank
      ensures RegisterWritten(r, 18, Trunc(value))
    {
      r := WriteRegister(18, Trunc(value));
    }

    /** ocpovp: register 16, raw. */
    method OcpOvp() returns (r: Result<U16>)
      modifies instrument, instrument.bank
      ensures RegisterRead(r, 16)
    {
      r := ReadRegister(16);
    }

    /** CVCC: register 17, raw. */
    method Cvcc() returns (r: Result<U16>)
      modifies instrument, instrument.bank
      ensures RegisterRead(r, 17)
    {
      r := ReadRegister(17);
    }

    /** backlight: register 72, raw. */
    method Backlight() returns (r: Result<U16>)
      modifies instrument, instrument.bank
      ensures RegisterRead(r, 72)
    {
      r := ReadRegister(72);
    }

    /** backlight setter: stores the value itself in register 72. */
    method SetBacklight(value: int) returns (r: Result<()>)
      modifies instrument, instrument.bank
      ensures RegisterWritten(r, 72, value)
    {
      r := WriteRegister(72, value);
    }

    /** date: (year, month, day) from registers 48 to 50. */
    method Date() returns (r: Result<(U16, U16, U16)>)
      modifies instrument, instrument.bank
      ensures Exchanged(MultiRegister, ReadMany(48, 3))
      ensures Settled(r, old(Pending(MultiRegister, ReadMany(48, 3))))
      ensures instrument.bank[..] == old(instrument.bank[..])
      ensures r.Ok? ==> 51 <= instrument.bank.Length && [r.value.0, r.value.1, r.value.2] == instrument.bank[48..51]
    {
      r := ReadTriple(48);
    }

    /** date setter: [year, month, day] into registers 48 to 50. */
    method SetDate(value: seq<int>) returns (r: Result<()>)
      modifies instrument, instrument.bank
      ensures |value| != 3 ==> (r == Err(WrongLength) && instrument.bank[..] == old(instrument.bank[..]) &&
                                instrument.script == old(instrument.script) && instrument.sent == old(instrument.sent))
      ensures |value| == 3 ==> BlockWritten(r, 48, value)
    {
      r := WriteTriple(48, value);
    }

    /** time: (hour, minute, second) from registers 51 to 53. */
    method Time() returns (r: Result<(U16, U16, U16)>)
      modifies instrument, instrument.bank
      ensures Exchanged(MultiRegister, ReadMany(51, 3))
      ensures Settled(r, old(Pending(MultiRegister, ReadMany(51, 3))))
      ensures instrument.bank[..] == old(instrument.bank[..])
      ensures r.Ok? ==> 54 <= instrument.bank.Length && [r.value.0, r.value.1, r.value.2] == instrument.bank[51..54]
    {
      r := ReadTriple(51);
    }

    /** time setter: [hour, minute, second] into registers 51 to 53. */
    method SetTime(value: seq<int>) returns (r: Result<()>)
      modifies instrument, instrument.bank
      ensures |value| != 3 ==> (r == Err(WrongLength) && instrument.bank[..] == old(instrument.bank[..]) &&
                                instrument.script == old(instrument.script) && instrument.sent == old(instrument.sent))
      ensures |value| == 3 ==> BlockWritten(r, 51, value)
    {
      r := WriteTriple(51, value);
    }

    // ------------------------------------------------------------ memories and status

    /** _mem: memory slot m from its four registers at m * 4 + 80. */
    method Mem(m: int := 0) returns (r: Result<Preset>)
      modifies instrument, instrument.bank
      ensures Exchanged(MultiRegister, ReadMany(MemBase(m), 4))
      ensures Settled(r, old(Pending(MultiRegister, ReadMany(MemBase(m), 4))))
      ensures instrument.bank[..] == old(instrument.bank[..])
      ensures r.Ok? ==> (0 <= MemBase(m) && MemBase(m) + 4 <= instrument.bank.Length &&
                         r.value == DecodePreset(instrument.bank[MemBase(m)..MemBase(m) + 4]))
    {
      var regs := ReadRegisters(m * 4 + 80, 4);
      if regs.Err? {
        return Err(regs.error);
      }
      r := Ok(DecodePreset(regs.value));
    }

    /** _memall: all ten slots from one 40-register read at register 80. */
    method MemAll() returns (r: Result<seq<Preset>>)
      modifies instrument, instrument.bank
      ensures Exchanged(MultiRegister, ReadMany(80, 40))
      ensures Settled(r, old(Pending(MultiRegister, ReadMany(80, 40))))
      ensures instrument.bank[..] == old(instrument.bank[..])
      ensures r.Ok? ==> 120 <= instrument.bank.Length && r.value == Memories(instrument.bank[80..120])
    {
      var regs := ReadRegisters(80, 40);
      if regs.Err? {
        return Err(regs.error);
      }
      var slots := DecodeMemories(regs.value);
      assert slots == Memories(regs.value);
      r := Ok(slots);
    }

    /** status: every status field from one 84-register read at register 0, then the
        memories from _memall's own read. */
    method Status() returns (r: Result<Report>)
      modifies instrument, instrument.bank
      ensures ReadInTurn(r, MultiRegister, ReadMany(0, 84), MultiRegister, ReadMany(80, 40))
      ensures r.Ok? ==> (120 <= instrument.bank.Length &&
                         r.value == DecodeStatus(instrument.bank[..84], Memories(instrument.bank[80..120])))
    {
      var regs := ReadRegisters(0, 84);
      if regs.Err? {
        return Err(regs.error);
      }
      var memories := MemAll();
      if memories.Err? {
        return Err(memories.error);
      }
      r := Ok(DecodeStatus(regs.value, memories.value));
    }
  }
}
