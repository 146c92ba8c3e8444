# python-olimex-modio in Dafny

A model of `modio.py`, the Python driver for the Olimex MOD-IO board: a
four-relay, four-digital-input, four-analog-input board that sits on an
SMBus (I2C) bus at address 0x58 by default.

The driver keeps the relay state as a 4-bit mask (bit `i` is relay `i + 1`,
1 means closed). It caches the last mask it wrote. `SetRelays` writes a
whole mask to register 0x10. `IsRelayClosed` only reads the cache.
`CloseContactRelay` and `OpenContactRelay` read the cache, change one bit and
write the whole mask back through `SetRelays`. Analog inputs are read by
writing 1 to register 0x30..0x33 and reading two bytes back. Digital inputs are the low four bits of the first byte read
from register 0x20.

Modules:

- `Errors`: the exceptions the driver raises or lets through, plus
  `Option`, `Result` and `Outcome` (success or an error, no value).
- `Bits`: Python's `|`, `&`, `~`, `& 0xF` and `1 << n` on integers, written
  arithmetically, and their bit-level laws.
- `Transport`: the communicator, `SmbBus` or `FakeBus`, as one `Bus` class
  with a `kind`. The hardware is not modelled. Whether the board answers and
  which bytes it returns are nondeterministic. Two ghost logs record every
  completed write and every completed block read, in order.
- `Modio`: the `Device` class, its register constants, the relay-mask
  functions (`WithRelayClosed`, `WithRelayOpen`), and the analog and
  digital-input decoding. Its invariant `Device.Valid` says that the cached
  `relayStatus` is a mask and equals the last value written to register 0x10.
- `Handles`: the `Relay` and `DigitalIn` convenience wrappers.
- `Scenarios`: the relay walk and the relay-number validation from
  `modio_test.py`, performed on a device on the fake bus.

Python constructors that can raise are modelled as static factory methods
that return a `Result`: `Bus.Open`, `Device.Open` and `Relay.Create`.
`Device.Open` keeps the Python defaults: address 0x58, bus 1 and the real
SMBus.

Where the code and its docstrings disagree, the model follows the code:

- `GetDigitalIn` documents inputs 0..3 (modio.py:336), but Python list
  indexing also lets -4..-1 through, as inputs 0..3.
- `FakeBus` is documented as a stand-in for `SmbBus` (modio.py:196), but it
  has no `ReadBlock`, so every read on the fake bus raises AttributeError.
- `ChangeAddress` is documented to change the address (modio.py:248), but it
  never does (see Findings).

The model also keeps these choices of the code, which differ from the rest of
the driver's conventions:

- Digital inputs are numbered 0..3, while relays and analog inputs are
  numbered 1..4.
- `GetDigitalIn` reads the bus before it checks the index, so an invalid
  index raises ValueError only after the read. Relay and analog numbers are
  checked before any bus access.
- `DigitalIn` accepts any number when it is created, while `Relay` checks its
  number at creation.

## Model

| member | source | states |
|---|---|---|
| Transport.Bus.Open | modio.py:154-168 | the real bus may fail to open with BusNotConfigured; the fake bus always opens; a new bus targets the given address and has empty logs |
| Transport.Bus.Write | modio.py:170-180 | a write either completes and is appended to the write log, or fails with DeviceNotFound and leaves the log as it was; the fake bus never fails |
| Transport.Bus.ReadBlock | modio.py:182-192 | a completed read returns exactly `length` bytes and is appended to the read log; a failed one leaves the log unchanged; DeviceNotFound on the real bus; AttributeError always on the fake bus |
| Transport.LastWrite | modio.py:357-363 | the last value written to a register is in the log, and there is none exactly when the register was never written |
| Transport.LastWriteAppend | modio.py:361 | a new write to a register becomes its last write and leaves every other register's last write as it was |
| Bits.Or | modio.py:421 | `a \| b` is at least each operand and at most their sum |
| Bits.And | modio.py:433 | `a & b` is at most each operand |
| Bits.Invert | modio.py:433 | `~x` is negative iff `x` is not, and its low four bits are those of `x` flipped |
| Bits.Pow2 | modio.py:391 | `1 << n` is at least 1 |
| Bits.Pow2Bit | modio.py:391 | `1 << n` has bit `n` set and no other bit |
| Bits.OrBit | modio.py:421 | bit `i` of `a \| b` is set iff it is set in `a` or in `b` |
| Bits.AndBit | modio.py:433 | bit `i` of `a & b` is set iff it is set in both |
| Bits.AndPow2 | modio.py:407 | `m & (1 << i)` is non-zero iff bit `i` of `m` is set |
| Bits.BitsDetermine | modio.py:368-371 | two numbers below `2^k` with the same low `k` bits are equal |
| Bits.OrBound | modio.py:421 | `\|` of two numbers below `2^k` stays below `2^k` |
| Bits.LowNibble | modio.py:433 | `v & 0xF` is below 16, for negative `v` too |
| Bits.AndLowNibble | modio.py:303 | on naturals, `v & 0xF` computed bit by bit is `v` modulo 16 |
| Modio.RelayBitValue | modio.py:389-391 | the bit of relay 1..4 is 1, 2, 4 or 8, and it closes that relay and no other |
| Modio.ClearMaskBits | modio.py:433 | `(~(1 << i)) & 0xF` has every bit below 4 set except bit `i` |
| Modio.WithRelayClosed | modio.py:421 | the mask CloseContactRelay writes closes that relay, leaves the other three as they were, and is a mask whenever the cache is |
| Modio.WithRelayOpen | modio.py:433 | the mask OpenContactRelay writes opens that relay, leaves the other three as they were, and is always a mask |
| Modio.MaskDeterminedByRelays | modio.py:368-371 | two masks with the same four relay states are the same mask |
| Modio.CloseThenOpen | modio.py:411-433 | closing then opening a relay that was open restores the mask |
| Modio.OpenThenClose | modio.py:411-433 | opening then closing a relay that was closed restores the mask |
| Modio.CloseAll | modio_test.py:51-61 | after closing a sequence of relays, a relay is closed iff it was closed before or is in the sequence, and the result is a mask |
| Modio.CloseEveryRelay | modio_test.py:63-64 | closing relays 1 to 4 from all-open gives 0xF |
| Modio.AinAsWritten | modio.py:298 | the expression as written always has a zero low byte, so the first byte read never shows up in its own place |
| Modio.AinValue | modio.py:291-298 | the little-endian reading is a 16-bit value whose low byte is the first byte read and whose high byte is the second; a high byte below 4 keeps it within 10 bits |
| Modio.AinValueOfBytes | modio.py:291-298 | every 16-bit value is the reading of its own two bytes |
| Modio.AinAsWrittenAgreesOnlyOnZeroLow | modio.py:298 | the expression as written equals the little-endian reading iff the first byte is 0 |
| Modio.AinAsWrittenExample | modio.py:298 | the bytes 0x34, 0x01 are the reading 0x134, but the expression as written gives 0x3500 |
| Modio.ListIndex | modio.py:347-350 | Python indexing of a list of length `len` succeeds iff `-len <= index < len`; a negative index counts from the end |
| Modio.PadBlock | modio.py:326-329 | the buffer is copied into a zero-filled two-byte list; a buffer longer than two bytes raises IndexError |
| Modio.DigitalInOutcome | modio.py:345-351 | GetDigitalIn's outcome: success only for indices -4..3; ValueError exactly when the read completed and the index is outside -4..3 |
| Modio.DigitalInIndexing | modio.py:336-350 | indices 0..3 are inputs 0..3, -4..-1 wrap to inputs 0..3, and every other index is rejected |
| Modio.Device.Valid | modio.py:357-363 | the cached relay state is a mask and is the last value written to register 0x10, so it has reached the bus |
| Modio.Device.Open | modio.py:236-245 | with the Python defaults (0x58, bus 1, real SMBus), construction opens the communicator and writes mask 0 to register 0x10 as its only bus traffic; the device starts valid with all relays open; the fake bus never fails; failures are BusNotConfigured or DeviceNotFound |
| Modio.Device.ChangeAddress | modio.py:247-260 | as written: ValueError iff the address is outside 0..0xFF, NameError for every valid address, and nothing is written |
| Modio.Device.ChangeAddressCorrected | modio.py:247-260 | ValueError iff the address is outside 0..0xFF; otherwise 0xF0 is written with the new address and, only once the write has gone through, the bus is retargeted; the relay cache is untouched |
| Modio.Device.GetReadAinCommand | modio.py:262-279 | ValueError iff the input is outside 1..4; inputs 1..4 map one to one onto registers 0x30..0x33 |
| Modio.Device.ReadAin | modio.py:281-298 | as written: an invalid input raises ValueError with no bus traffic; otherwise 1 is written to the input's register, two bytes are read from it, and the result is the expression as written applied to them; a failed call has either written nothing or exactly that one write; on the fake bus the write goes through and the read raises AttributeError; on the real bus every failure of a valid call is DeviceNotFound |
| Modio.Device.ReadAinCorrected | modio.py:281-298 | the same bus traffic, errors and failure paths as ReadAin, and the result is the 16-bit little-endian value of the two bytes read |
| Modio.Device.ReadRelays | modio.py:300-303 | as written: never returns a value; TypeError iff the block read from 0x40 completed, otherwise the read's own error: AttributeError on the fake bus, DeviceNotFound on the real bus |
| Modio.Device.ReadRelaysCorrected | modio.py:300-303 | a completed read from 0x40 gives a mask whose relay states are the low four bits of the first byte; a failed read changes nothing; AttributeError on the fake bus, DeviceNotFound on the real bus |
| Modio.Device.ReadRelay | modio.py:305-322 | as written: ValueError without bus access for a relay outside 1..4; for a valid relay, the error of ReadRelays: TypeError iff the read completed, otherwise, with nothing read, AttributeError on the fake bus and DeviceNotFound on the real bus |
| Modio.Device.ReadRelayCorrected | modio.py:305-322 | ValueError without bus access for an invalid relay; otherwise the board's reported state of that relay, or the read's error with nothing read: AttributeError on the fake bus, DeviceNotFound on the real bus |
| Modio.Device.GetDigitalIns | modio.py:324-330 | after one completed read of 0x20, the four stored input values are `first & 1`, `& 2`, `& 4`, `& 8` of the first byte read, so they are non-zero exactly where bits 0..3 are set; a failed read changes nothing; AttributeError on the fake bus, DeviceNotFound on the real bus |
| Modio.Device.GetDigitalIn | modio.py:332-351 | the bus is read first and a failed read is the result; after a read, an index Python accepts gives that input's bit, and any other index raises ValueError; after a read, the stored input values are those GetDigitalIns stores; a failed read is AttributeError on the fake bus and DeviceNotFound on the real bus |
| Modio.Device.GetRelays | modio.py:353-355 | the cached mask is a mask and is the value last written to register 0x10 |
| Modio.Device.SetRelays | modio.py:357-363 | ValueError iff the value is outside 0..0xF; otherwise the value is written to 0x10 and only after the write has gone through becomes the cache and the result; a failed write changes nothing; the invariant is kept |
| Modio.Device.GetRelayBit | modio.py:365-391 | ValueError iff the relay is outside 1..4; otherwise the mask with that relay closed and the other three open |
| Modio.Device.IsRelayClosed | modio.py:393-409 | ValueError iff the relay is outside 1..4; otherwise that relay's state in the cached mask, without bus access |
| Modio.Device.CloseContactRelay | modio.py:411-421 | ValueError iff the relay is invalid, with nothing changed; otherwise exactly that relay becomes closed, the others keep their state, and the new mask is written to 0x10; a failed write changes nothing |
| Modio.Device.OpenContactRelay | modio.py:423-433 | ValueError iff the relay is invalid, with nothing changed; otherwise exactly that relay becomes open, the others keep their state, and the new mask is written to 0x10; a failed write changes nothing |
| Handles.Relay.Create | modio.py:449-463 | ValueError iff the number is outside 1..4, before any bus access; otherwise a new handle on that device and relay |
| Handles.Relay.IsClosed | modio.py:465-467 | the relay's state in the device's cached mask; no error is possible |
| Handles.Relay.Get | modio.py:469-471 | the same as IsClosed |
| Handles.Relay.OpenContact | modio.py:473-475 | opens this relay through the device, with the device's guarantees |
| Handles.Relay.CloseContact | modio.py:477-479 | closes this relay through the device, with the device's guarantees |
| Handles.DigitalIn.constructor | modio.py:438-440 | any device and number are accepted, unchecked |
| Handles.DigitalIn.Get | modio.py:442-444 | the outcome and the stored input values of the device's GetDigitalIn for this number: a failed read is AttributeError on the fake bus and DeviceNotFound on the real bus |
| Scenarios.ClosingMasks | modio_test.py:51-61 | closing relays 1..4 from 0 passes through 1, 3, 7, 15 |
| Scenarios.OpeningMasks | modio_test.py:65-75 | opening relays 1..4 from 0xF passes through 14, 12, 8, 0 |
| Scenarios.CloseAndRead | modio_test.py:59-61 | on the fake bus, closing a relay always succeeds and that relay then reads as closed |
| Scenarios.OpenAndRead | modio_test.py:73-75 | on the fake bus, opening a relay always succeeds and that relay then reads as open |
| Scenarios.FakeBoardRelayWalk | modio_test.py:47-75 | a device on the fake bus walks through exactly the masks 1, 3, 7, 15, 14, 12, 8, 0 |
| Scenarios.RelayHandleRejects | modio_test.py:77-81 | creating relay handles 0, -1 and 5 raises ValueError each time |

## Left out

- The smbus extension and the hardware are not modelled. A write's success and the bytes a read returns are nondeterministic.
- The guarded `import smbus` (modio.py:132-137) is left out. It raises ImportError when the module loads; the model assumes that loading succeeded.
- Logging calls are left out; they have no effect on the driver's state.
- The command-line front end (`PrintHelp`, `HandleRelay`, `HandleReadAin`, `main`, modio.py:482-536) is left out: argument parsing and printing.
- `int(ain)` in GetReadAinCommand (modio.py:275) and Python's dynamic typing are left out. Every argument is an integer in the model.
- Concurrent use of one device or bus is left out.
- `modio_test.py`'s `testDeviceSMBBus` needs a missing bus. It is covered by the BusNotConfigured failure of `Transport.Bus.Open`, not by a scenario.
- `Transport.Bus.Write` does not model smbus rejecting a value outside 0..255. The driver only writes masks, addresses in 0..0xFF and the constant 1.
- `Modio.PadBlock`: the IndexError path cannot be reached through `Bus.ReadBlock`. The real bus returns exactly the requested length.
- `Modio.Device.Open`: before `SetRelays(0)` completes, the Python object has no `relay_status` at all. The model starts the cache at 0, and on failure no device is returned.
- `Bits.Or` and `Bits.And` are defined only for non-negative operands. Every operand the driver passes is non-negative, and `~` is always followed by `& 0xF`.

## Findings

| source | as written | input that shows it | evidently intended | confidence | as-written member | corrected member |
|---|---|---|---|---|---|---|
| modio.py:298 | `data[0] + data[1] << 8` parses as `(data[0] + data[1]) << 8` | bytes 0x34, 0x01 give 0x3500 instead of 0x134 | `data[0] + (data[1] << 8)`, the little-endian reading | high; not executed | Modio.AinAsWrittenExample | Modio.Device.ReadAinCorrected |
| modio.py:259 | `CHANGE_ADDRESS_COMMAND` without `self.` is an unbound name, so NameError | `ChangeAddress(0x20)` raises NameError and the address is not changed | write 0xF0 with the new address, then retarget the bus | high; not executed | Modio.Device.ChangeAddress | Modio.Device.ChangeAddressCorrected |
| modio.py:303 | `data & 0xf` applies `&` to the list the read returns, so TypeError | any completed `ReadRelays()` raises TypeError, and `ReadRelay(1)` with it | `data[0] & 0xf`, the relay mask the board reports | high; not executed | Modio.Device.ReadRelays | Modio.Device.ReadRelaysCorrected |
