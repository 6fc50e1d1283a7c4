# RD6006 register-access layer in Dafny

This project models the Python driver `RD6006` for the RD6006 programmable DC power
supply. The driver shows the supply's Modbus holding registers as named quantities:
setpoints, measurements, protection limits, the clock, memory presets and a status dump.
The model covers:

- **The register map.** Voltage and current setpoints are registers 8 and 9. The measured
  voltage, current and power are 10, 11 and 13. The input voltage is 14, and the output
  enable is 18. The temperatures are the pairs 4–5, 34–35 and 36–37. Charge and energy
  are 38–39 and 40–41. The date is 48–50 and the time is 51–53. The backlight is 72, and
  the protection limits are 82 and 83. Memory slot M is at 80 + 4·M.
- **The encodings** (module `Codec`, `codec.dfy`):
  - reads divide by 100 or 1000;
  - setters store `int(value * scale)`, truncated toward zero;
  - 32-bit counters are `hi << 16 | lo`, with Python's shift and bitwise or written out on
    natural numbers;
  - temperatures are `[sign, magnitude]` pairs;
  - a memory slot holds four registers;
  - the status block is decoded in one place.
- **The transport** (module `Modbus`, `modbus.dfy`). The minimalmodbus `Instrument` is
  replaced by a class with three fields:
  - an `array` of 16-bit registers;
  - a script of link outcomes for the coming exchanges (answered, or failed with one of
    the link errors: no response, an invalid response, or another link fault). Once the
    script is used up, every request is answered;
  - the log of requests put on the wire.

  A request that cannot be encoded (negative address, a value outside 16 bits) fails with
  `ValueError` before anything is sent. A range outside the bank gets the device's
  `IllegalAddress` exception.
- **The retry wrappers** (module `Retry` for their specification, `retry.dfy`). `_read_register` and `_write_register` call again after
  `NoResponseError` only. `_read_registers` and `_write_registers` also call again after
  `InvalidResponseError`. Every other error reaches the caller after one call. Each
  wrapper retries by calling itself again, and so does the model's `RD6006.Transact`.
- **The driver class** (module `Rd6006`, `rd6006.dfy`). Every property getter and setter
  is a method. The identity read of `__init__` is `Open`. `status`, `_mem` and `_memall`
  are methods too. The defaults of the source carry over: `Open` takes the slave address 1
  and no clock synchronisation unless told otherwise, and `Mem` reads slot 0 by default.
  - Each getter states which registers it read, how it decoded them, that no register
    changed, and which requests went on the wire.
  - Each setter states the new bank exactly: the old bank with only its own registers
    replaced.

Behaviours of the code that are easy to misread, kept as written:

- `_unsigned2signed` builds an exception for a sign other than 0 or 1 but does not raise
  it. The model's `Unsigned2Signed` gives no value (`None`) for such a sign.
- `status` reads registers 0–83 in one call. It then calls `_memall`, which reads registers
  80–119 in a second call, so a status report takes two bulk reads.
- `_write_registers` retries after `InvalidResponseError` as well as after
  `NoResponseError`, while `_write_register` retries after `NoResponseError` only.
- The date and time setters raise a plain exception for a list whose length is not 3. The
  model calls this error `WrongLength`.
- `status` reports the model number as register 0 divided by 10, while `__init__` keeps
  register 0 as it is. `status` reports register 33 as volts (÷100), while `battvoltage`
  returns it raw. The model keeps each as written.
- `status` treats any nonzero sign register as negative. `StatusTemp` states where this
  agrees with `_unsigned2signed` and where it does not.

## Model

| member | source | states |
|---|---|---|
| `Modbus.Instrument.Call` | rd6006/rd6006.py:29-56 | One transport call. It consumes one outcome of the link script and logs the request. A failed exchange changes no register. An answered write stores its payload; an answered read returns the addressed registers. An unencodable request fails with ValueError before anything is sent. |
| `Modbus.Outcome` | rd6006/rd6006.py:29-56 | A call succeeds only for an encodable request inside the bank. A successful read returns exactly the addressed registers. A NoResponse or InvalidResponse error comes only from a failed exchange. |
| `Modbus.ApplyFrame` | rd6006/rd6006.py:43-56 | An answered write replaces exactly the registers it addresses with its payload. Every other register keeps its value, and the bank keeps its size. |
| `Modbus.Instrument.Store` | rd6006/rd6006.py:45 | The device carrying out an answered write leaves the bank as `Apply` describes. |
| `Codec.Trunc` | rd6006/rd6006.py:141 | Python's `int()` truncates toward zero. For x ≥ 0 the result is the largest integer not above x. For x < 0 it is the smallest integer not below x. |
| `Codec.Scaled` | rd6006/rd6006.py:121 | Dividing a raw register by its factor and then storing it back with the same factor returns the same raw value. |
| `Codec.Encode` | rd6006/rd6006.py:139-141 | `int(value * scale)`, divided by scale, lies between zero and the value, strictly less than 1/scale away from the value. The remainder is dropped, never rounded up (5.009 V at scale 100 stores 500). |
| `Codec.EncodeScaled` | rd6006/rd6006.py:121-141 | A register read with a factor and stored back with the same factor keeps its raw value. |
| `Codec.Pow2Sixteen` | rd6006/rd6006.py:19 | The shift by 16 in the serial number multiplies by 65536. |
| `Codec.ShiftLeft` | rd6006/rd6006.py:19 | Python's `a << k` on a natural number is a·2^k. |
| `Codec.BitOr` | rd6006/rd6006.py:19 | Python's `a \| b` on natural numbers is at least each operand and at most their sum. |
| `Codec.OrIntoLowBits` | rd6006/rd6006.py:19 | Or-ing a number below 2^k into a number shifted left by k gives their sum. |
| `Codec.Wide` | rd6006/rd6006.py:19 | `hi << 16 \| lo` of two 16-bit registers equals hi·65536 + lo and is below 2^32. |
| `Codec.Split` | rd6006/rd6006.py:157 | Every 32-bit counter has a high and a low register that compose back to it. |
| `Codec.WideSplit` | rd6006/rd6006.py:161 | Splitting a composed counter gives back the same two registers, so the composition is one-to-one. |
| `Codec.SignMagnitude` | rd6006/rd6006.py:58-60 | The device's `[sign, magnitude]` form of a temperature has sign 0 or 1. |
| `Codec.Unsigned2Signed` | rd6006/rd6006.py:58-68 | A value is returned exactly when the sign is 0 or 1. Then its magnitude is the magnitude register and its sign is the sign register, with −0 read as 0. For any other sign there is no value and no error. |
| `Codec.SignedRoundTrip` | rd6006/rd6006.py:58-66 | Decoding the device's pair for t gives back t. |
| `Codec.StatusTemp` | rd6006/rd6006.py:89-98 | The status dump's truthiness test agrees with `_unsigned2signed` for signs 0 and 1. For signs 2 and above it reports −magnitude where `_unsigned2signed` gives nothing. |
| `Codec.MemBase` | rd6006/rd6006.py:72 | Slot M's first register is M·4 + 80. The four registers from there lie inside the memory block 80–119 exactly when M is 0 to 9. |
| `Codec.MemSlotsTile` | rd6006/rd6006.py:72 | Slot m occupies registers 80+4m to 83+4m. The slots 0 to 9 tile registers 80 to 119 without overlap. |
| `Codec.DecodePreset` | rd6006/rd6006.py:73 | A preset is (V÷100, A÷1000, OVP÷100, OCP÷1000). Storing each field back with its factor gives the raw registers. |
| `Codec.Memories` | rd6006/rd6006.py:78-80 | The ten presets of the 40-register block. Preset m, stored back with the factors 100, 1000, 100 and 1000, gives registers 4m to 4m+3 of the block, so the presets determine the block. |
| `Codec.DecodeStatus` | rd6006/rd6006.py:82-117 | The status report decoded from registers 0–83. The voltage and current setpoints and both protection limits, stored back with their factors, give registers 8, 9, 82 and 83. The serial number is a 32-bit value that splits back into registers 1 and 2. A battery section is present exactly when register 32 is nonzero. The memories are those read by `_memall`. |
| `Codec.DecodeMemories` | rd6006/rd6006.py:75-80 | The loop over `range(10)` yields ten presets. Preset m decodes registers 4m to 4m+3 of the bulk block. |
| `Retry.Retries` | rd6006/rd6006.py:29-56 | Which errors a wrapper calls again after: NoResponse always; InvalidResponse only in the multi-register wrappers; no other error. |
| `Retry.Retried` | rd6006/rd6006.py:29-56 | The number of leading exchanges a wrapper retries past. Each of them is a failure that its policy retries, and the next exchange (if any) is not. |
| `Retry.RetriedUnique` | rd6006/rd6006.py:29-56 | Any index with those two properties is `Retried`, so the wrapper's stopping point is determined by the script. |
| `Retry.RetryStep` | rd6006/rd6006.py:29-56 | When the first call fails with an error the policy retries, the wrapper's reply, its remaining script and its call count (less one) are those of a fresh call on the rest of the script. |
| `Retry.StopStep` | rd6006/rd6006.py:29-56 | When the first call does not fail with a retried error, the wrapper makes that one call and replies with its outcome. |
| `Retry.Reply` | rd6006/rd6006.py:29-56 | A wrapper never returns an error that its policy retries. A successful reply is for an encodable request inside the bank, and a successful read returns exactly the addressed registers. |
| `Retry.WriteReplySize` | rd6006/rd6006.py:43-56 | The reply to a write depends on the bank only through its size, not on the values it holds. |
| `Retry.AnswerAfterTransients` | rd6006/rd6006.py:29-56 | After n retried failures and then an answer, the wrapper makes n+1 calls and returns the device's answer, for every n. |
| `Retry.FatalAtOnce` | rd6006/rd6006.py:29-56 | An error the policy does not retry ends the wrapper after one call with that error. |
| `Retry.InvalidResponsePolicies` | rd6006/rd6006.py:29-41 | On an invalid response, `_read_register` fails after one call. `_read_registers` calls again and continues as if the failed exchange had not happened. |
| `Retry.MultiRetriesLonger` | rd6006/rd6006.py:29-56 | A multi-register wrapper never stops earlier than a single-register one on the same script. |
| `Rd6006.ReadBack` | rd6006/rd6006.py:214-238 | After a successful date (or time) write, reading the same registers returns exactly the values written. A link failure is the only way that read can fail. |
| `Rd6006.BulkSlotIsSlot` | rd6006/rd6006.py:70-80 | Slot m of `_memall`'s 40-register read is what `_mem(m)` decodes from its own 4-register read. |
| `Rd6006.StatusMatchesAccessors` | rd6006/rd6006.py:82-117 | The status fields equal the values decoded by the accessors and `__init__`: serial, firmware, input voltage, output voltage, current and power, charge and energy (38/39, 40/41 composed, ÷1000), setpoints, protection limits and temperatures for signs 0 and 1. |
| `Rd6006.RD6006.constructor` | rd6006/rd6006.py:13-15 | The session keeps its port, address and instrument. |
| `Rd6006.RD6006.Open` | rd6006/rd6006.py:7-24 | Identity comes from one multi-register read of registers 0–3: model = reg 0, sn = reg1<<16 \| reg2, fw = reg 3 ÷ 100. The request log and the consumed link outcomes are stated on every path. A failed identity read returns its error, and only that read (with its retries) was sent, with no register changed. Without clock sync, nothing else is sent. With clock sync after a good identity read, the date and time writes follow exactly as `SyncClock` states them from that point, with the same error on failure. On success, registers 48–53 hold the date and time, and nothing else changes. |
| `Rd6006.ClockSplice` | rd6006/rd6006.py:23-24 | Writing registers 48–50 and then 51–53 leaves both blocks in place over the original bank. |
| `Rd6006.RD6006.SyncClock` | rd6006/rd6006.py:21-24 | The date write to 48–50 goes on the wire first (with its retries), then the time write to 51–53, and the request log and the consumed link outcomes say so. If the date write fails, its error is returned, the time is never sent, and no register changes. Otherwise the time write's reply is returned; if only it fails, registers 48–50 hold the date and the rest of the bank is as before. On success, registers 48–53 hold the six values and no other register changed. |
| `Rd6006.RD6006.Transact` | rd6006/rd6006.py:29-56 | The self-calling retry returns the wrapper's reply. It sends the request `Attempts` times, consumes exactly those exchanges, and the bank changes only if the final call succeeded. |
| `Rd6006.RD6006.ReadRegister` | rd6006/rd6006.py:29-33 | Retries on NoResponse only. On success it returns the register, and no register changes. |
| `Rd6006.RD6006.ReadRegisters` | rd6006/rd6006.py:35-41 | Retries on NoResponse and InvalidResponse. On success it returns exactly registers start..start+length−1, and no register changes. |
| `Rd6006.RD6006.WriteRegister` | rd6006/rd6006.py:43-47 | Retries on NoResponse only. On success the new bank is the old one with only that register replaced. On failure nothing changes. |
| `Rd6006.RD6006.WriteRegisters` | rd6006/rd6006.py:49-56 | Retries on NoResponse and InvalidResponse. On success the new bank is the old one with only the block replaced. On failure nothing changes. |
| `Rd6006.RD6006.InputVoltage` | rd6006/rd6006.py:119-121 | Register 14 ÷ 100, read through the single-register wrapper. |
| `Rd6006.RD6006.Voltage` | rd6006/rd6006.py:123-125 | Register 8 ÷ 100. |
| `Rd6006.RD6006.SetVoltage` | rd6006/rd6006.py:139-141 | Stores int(value·100) in register 8 and changes no other register. |
| `Rd6006.RD6006.MeasTemp` | rd6006/rd6006.py:127-129 | `_unsigned2signed` of registers 4–5 from one multi-register read. |
| `Rd6006.RD6006.MeasTempProbe` | rd6006/rd6006.py:131-133 | `_unsigned2signed` of registers 34–35. |
| `Rd6006.RD6006.MeasTempF` | rd6006/rd6006.py:135-137 | `_unsigned2signed` of registers 36–37. |
| `Rd6006.RD6006.MeasVoltage` | rd6006/rd6006.py:143-145 | Register 10 ÷ 100. |
| `Rd6006.RD6006.MeasCurrent` | rd6006/rd6006.py:147-149 | Register 11 ÷ 1000. |
| `Rd6006.RD6006.MeasPower` | rd6006/rd6006.py:151-153 | Register 13 ÷ 100. |
| `Rd6006.RD6006.Charge` | rd6006/rd6006.py:155-157 | Reads register 38, then 39, one at a time. The result is (38<<16 \| 39) ÷ 1000, and the first failing read's error is returned. |
| `Rd6006.RD6006.Energy` | rd6006/rd6006.py:159-161 | Reads register 40, then 41. The result is (40<<16 \| 41) ÷ 1000. |
| `Rd6006.RD6006.BattMode` | rd6006/rd6006.py:163-165 | Register 32, raw. |
| `Rd6006.RD6006.BattVoltage` | rd6006/rd6006.py:167-169 | Register 33, raw. |
| `Rd6006.RD6006.Current` | rd6006/rd6006.py:171-173 | Register 9 ÷ 1000. |
| `Rd6006.RD6006.SetCurrent` | rd6006/rd6006.py:174-176 | Stores int(value·1000) in register 9 and changes no other register. |
| `Rd6006.RD6006.VoltageProtection` | rd6006/rd6006.py:178-180 | Register 82 ÷ 100. |
| `Rd6006.RD6006.SetVoltageProtection` | rd6006/rd6006.py:181-183 | Stores int(value·100) in register 82 and changes no other register. |
| `Rd6006.RD6006.CurrentProtection` | rd6006/rd6006.py:185-187 | Register 83 ÷ 1000. |
| `Rd6006.RD6006.SetCurrentProtection` | rd6006/rd6006.py:188-190 | Stores int(value·1000) in register 83 and changes no other register. |
| `Rd6006.RD6006.Enable` | rd6006/rd6006.py:192-194 | Register 18, raw. |
| `Rd6006.RD6006.SetEnable` | rd6006/rd6006.py:195-197 | Stores int(value) in register 18 and changes no other register. |
| `Rd6006.RD6006.OcpOvp` | rd6006/rd6006.py:199-201 | Register 16, raw. |
| `Rd6006.RD6006.Cvcc` | rd6006/rd6006.py:203-205 | Register 17, raw. |
| `Rd6006.RD6006.Backlight` | rd6006/rd6006.py:207-209 | Register 72, raw. |
| `Rd6006.RD6006.SetBacklight` | rd6006/rd6006.py:210-212 | Stores the value itself in register 72 and changes no other register. |
| `Rd6006.RD6006.Date` | rd6006/rd6006.py:214-218 | (year, month, day) = registers 48, 49, 50 from one multi-register read. |
| `Rd6006.RD6006.SetDate` | rd6006/rd6006.py:219-225 | With 3 values, registers 48–50 become the values in order and nothing else changes. With any other length it fails with WrongLength, and nothing is sent or changed. |
| `Rd6006.RD6006.Time` | rd6006/rd6006.py:227-231 | (hour, minute, second) = registers 51, 52, 53. |
| `Rd6006.RD6006.SetTime` | rd6006/rd6006.py:232-238 | With 3 values, registers 51–53 become the values in order and nothing else changes. With any other length it fails with WrongLength, and nothing is sent or changed. |
| `Rd6006.RD6006.Mem` | rd6006/rd6006.py:70-73 | Slot M is decoded from one 4-register read at M·4 + 80. |
| `Rd6006.RD6006.MemAll` | rd6006/rd6006.py:75-80 | All ten slots come from one 40-register read at 80. |
| `Rd6006.RD6006.Status` | rd6006/rd6006.py:82-117 | One 84-register read at 0, then (only if it succeeded) `_memall`'s 40-register read at 80, and no other request. The report is decoded from those two blocks, and no register changes. |

## Left out

- The minimalmodbus transport itself is left out: serial framing, CRC, the baud rate
  setting and its default of 115200 (rd6006/rd6006.py:7, 16) and the module-wide `TIMEOUT` (rd6006/rd6006.py:3). It is
  foreign code. The model keeps only what the driver observes of it: a register bank, link
  outcomes and a request log.
- The wrappers retry by recursion, so Python would raise `RecursionError` after about a
  thousand retried failures in a row. The model sets no depth limit.
- The script of link outcomes is finite, so in the model every retry loop ends. A link
  that fails forever is not modelled: the driver would retry without end.
- A failed exchange never changes a register. A write that the device carried out but
  whose response was lost is not modelled.
- The transport's limits on registers per request (beyond "at least one") and its checks
  on the slave address are not modelled.
- Scaling uses exact rationals. Binary floating-point effects such as `int(0.29*100) == 28`
  are not reproduced.
- `datetime.now()` is not called: the moment to synchronise to is a parameter of `Open`.
- Output is left out: the `print` formatting in `status`, `_mem` and `_memall`, `__repr__`,
  and the serial-port discovery under `__main__`. The model returns the values that would
  be printed.
- Python's dynamic typing is not modelled. Setters take numbers, and the date and time
  setters take a sequence of integers. `enable`'s boolean is passed as 1.0 or 0.0.
- `__init__` raises when the identity read fails. `Open` returns that error instead of an
  object.
