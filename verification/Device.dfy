/** The mod-io board controller: the `Device` class of modio.py, its register
    map, and the relay-bitmask arithmetic it performs. */
module Modio {
  import opened Errors
  import opened Bits
  import opened Transport

  const DEFAULT_ADDRESS := 0x58
  const DEFAULT_BUS := 1

  const RELAY_WRITE_COMMAND := 0x10
  const DIGITAL_IN_COMMAND := 0x20
  const RELAY_READ_COMMAND := 0x40
  const CHANGE_ADDRESS_COMMAND := 0xF0
  const AIN_READ_COMMAND := 0x30

  // ---------------------------------------------------------------------
  // Relay bitmasks: bit i stands for relay i + 1, and 1 means "closed".
  // ---------------------------------------------------------------------

  /** A value SetRelays accepts. */
  predicate IsMask(m: int)
  {
    0 <= m <= 0xF
  }

  /** Relay `relay` (1..4) is closed in `mask`. */
  predicate RelayClosed(mask: nat, relay: int)
    requires 1 <= relay <= 4
  {
    BitSet(mask, relay - 1)
  }

  /** The bit of relay 1..4 is 1, 2, 4 or 8 and closes that relay alone. */
  lemma RelayBitValue(relay: int, bit: nat)
    requires 1 <= relay <= 4 && bit == Pow2(relay - 1)
    ensures bit in {1, 2, 4, 8} && bit < Pow2(4)
    ensures forall q | 1 <= q <= 4 :: RelayClosed(bit, q) <==> q == relay
  {
    assert Pow2(1) == 2 && Pow2(2) == 4 && Pow2(3) == 8 && Pow2(4) == 16;
    forall q | 1 <= q <= 4
      ensures RelayClosed(bit, q) <==> q == relay
    {
      Pow2Bit(relay - 1, q - 1);
    }
  }

  /** `(~(1 << i)) & 0xf` has every one of the four low bits set except bit `i`. */
  lemma ClearMaskBits(i: nat, j: nat)
    requires i < 4 && j < 4
    ensures BitSet(LowNibble(Invert(Pow2(i))), j) <==> j != i
  {
    assert Pow2(1) == 2 && Pow2(2) == 4 && Pow2(3) == 8;
    var c := LowNibble(Invert(Pow2(i)));
    assert c == 15 - Pow2(i);
    assert BitSet(14, 1) && BitSet(14, 2) && BitSet(14, 3) && !BitSet(14, 0);
    assert BitSet(13, 0) && BitSet(13, 2) && BitSet(13, 3) && !BitSet(13, 1);
    assert BitSet(11, 0) && BitSet(11, 1) && BitSet(11, 3) && !BitSet(11, 2);
    assert BitSet(7, 0) && BitSet(7, 1) && BitSet(7, 2) && !BitSet(7, 3);
  }

  /** `mask | GetRelayBit(relay)`, the value CloseContactRelay writes: it
      closes `relay`, keeps every other relay as it was, and is a mask
      whenever `mask` is. */
  function WithRelayClosed(mask: nat, relay: int): (m: nat)
    requires 1 <= relay <= 4
    ensures IsMask(mask) ==> IsMask(m)
    ensures forall q | 1 <= q <= 4 :: RelayClosed(m, q) <==> q == relay || RelayClosed(mask, q)
  {
    var bit := Pow2(relay - 1);
    RelayBitValue(relay, bit);
    assert IsMask(mask) ==> IsMask(Or(mask, bit)) by {
      if IsMask(mask) {
        OrBound(mask, bit, 4);
      }
    }
    assert forall q | 1 <= q <= 4 :: RelayClosed(Or(mask, bit), q) <==> q == relay || RelayClosed(mask, q) by {
      forall q | 1 <= q <= 4
        ensures RelayClosed(Or(mask, bit), q) <==> q == relay || RelayClosed(mask, q)
      {
        OrBit(mask, bit, q - 1);
        Pow2Bit(relay - 1, q - 1);
      }
    }
    Or(mask, bit)
  }

  /** `mask & ((~GetRelayBit(relay)) & 0xf)`, the value OpenContactRelay
      writes: it opens `relay`, keeps every other relay as it was, and is
      always a mask. */
  function WithRelayOpen(mask: nat, relay: int): (m: nat)
    requires 1 <= relay <= 4
    ensures IsMask(m)
    ensures forall q | 1 <= q <= 4 :: RelayClosed(m, q) <==> q != relay && RelayClosed(mask, q)
  {
    var clear := LowNibble(Invert(Pow2(relay - 1)));
    assert forall q | 1 <= q <= 4 :: RelayClosed(And(mask, clear), q) <==> q != relay && RelayClosed(mask, q) by {
      forall q | 1 <= q <= 4
        ensures RelayClosed(And(mask, clear), q) <==> q != relay && RelayClosed(mask, q)
      {
        AndBit(mask, clear, q - 1);
        ClearMaskBits(relay - 1, q - 1);
      }
    }
    And(mask, clear)
  }

  /** The mask after closing `relays` one after the other: the closed relays
      are exactly those named in `relays` and those closed before. */
  function CloseAll(mask: nat, relays: seq<int>): (m: nat)
    requires forall i | 0 <= i < |relays| :: 1 <= relays[i] <= 4
    ensures IsMask(mask) ==> IsMask(m)
    ensures forall q | 1 <= q <= 4 :: RelayClosed(m, q) <==> q in relays || RelayClosed(mask, q)
    decreases |relays|
  {
    if relays == [] then mask
    else
      assert forall q :: q in relays <==> q == relays[0] || q in relays[1..];
      CloseAll(WithRelayClosed(mask, relays[0]), relays[1..])
  }

  /** A mask is determined by the states of the four relays. */
  lemma MaskDeterminedByRelays(a: nat, b: nat)
    requires IsMask(a) && IsMask(b)
    requires forall q | 1 <= q <= 4 :: RelayClosed(a, q) == RelayClosed(b, q)
    ensures a == b
  {
    assert Pow2(4) == 16;
    forall j | 0 <= j < 4
      ensures BitSet(a, j) == BitSet(b, j)
    {
      assert RelayClosed(a, j + 1) == RelayClosed(b, j + 1);
    }
    BitsDetermine(a, b, 4);
  }

  /** Closing an open relay and opening it again restores the mask. */
  lemma CloseThenOpen(mask: nat, relay: int)
    requires IsMask(mask) && 1 <= relay <= 4 && !RelayClosed(mask, relay)
    ensures WithRelayOpen(WithRelayClosed(mask, relay), relay) == mask
  {
    MaskDeterminedByRelays(WithRelayOpen(WithRelayClosed(mask, relay), relay), mask);
  }

  /** Opening a closed relay and closing it again restores the mask. */
  lemma OpenThenClose(mask: nat, relay: int)
    requires IsMask(mask) && 1 <= relay <= 4 && RelayClosed(mask, relay)
    ensures WithRelayClosed(WithRelayOpen(mask, relay), relay) == mask
  {
    MaskDeterminedByRelays(WithRelayClosed(WithRelayOpen(mask, relay), relay), mask);
  }

  /** Closing relays 1 to 4 from the all-open state closes every relay. */
  lemma CloseEveryRelay()
    ensures CloseAll(0, [1, 2, 3, 4]) == 0xF
  {
    forall q | 1 <= q <= 4
      ensures RelayClosed(CloseAll(0, [1, 2, 3, 4]), q) == RelayClosed(0xF, q)
    {
      assert q in [1, 2, 3, 4];
      assert BitSet(15, 0) && BitSet(15, 1) && BitSet(15, 2) && BitSet(15, 3);
    }
    MaskDeterminedByRelays(CloseAll(0, [1, 2, 3, 4]), 0xF);
  }

  // ---------------------------------------------------------------------
  // Analog readings.
  // ---------------------------------------------------------------------

  /** What ReadAin returns as written: `data[0] + data[1] << 8` binds as
      `(data[0] + data[1]) << 8`, and `<< 8` on a non-negative int is `* 256`. */
  function AinAsWritten(low: Byte, high: Byte): (v: nat)
    ensures v % 256 == 0
  {
    (low + high) * 256
  }

  /** The little-endian reading the board sends: `data[0] + (data[1] << 8)`. */
  function AinValue(low: Byte, high: Byte): (v: nat)
    ensures v < 0x10000
    ensures v % 256 == low && v / 256 == high
    ensures high < 4 ==> v < 1024
  {
    low + high * 256
  }

  /** Every 16-bit value is the reading of its own two bytes. */
  lemma AinValueOfBytes(v: nat)
    requires v < 0x10000
    ensures AinValue(v % 256, v / 256) == v
  {
  }

  /** The expression as written agrees with the little-endian reading only
      when the low byte is zero. */
  lemma AinAsWrittenAgreesOnlyOnZeroLow(low: Byte, high: Byte)
    ensures AinAsWritten(low, high) == AinValue(low, high) <==> low == 0
  {
  }

  /** The bytes 0x34, 0x01 are the reading 0x134 (308); the expression as
      written turns them into 0x3500. */
  lemma AinAsWrittenExample()
    ensures AinValue(0x34, 0x01) == 0x134
    ensures AinAsWritten(0x34, 0x01) == 0x3500
  {
  }

  // ---------------------------------------------------------------------
  // Digital inputs.
  // ---------------------------------------------------------------------

  /** Python's `xs[index]` on a list of length `len`: the position read, or
      None where IndexError is raised. Negative indices count from the end. */
  function ListIndex(index: int, len: nat): (k: Option<nat>)
    ensures k.Some? <==> -(len as int) <= index < len
    ensures k.Some? ==> k.value < len && (k.value == index || k.value == index + len)
  {
    if 0 <= index < len then Some(index)
    else if -(len as int) <= index < 0 then Some(index + len)
    else None
  }

  /** The block read of the digital inputs, copied into a zero-filled list of
      two bytes (modio.py lines 327-329). A block longer than two bytes makes
      the copy raise IndexError. */
  method PadBlock(buffer: seq<Byte>) returns (r: Result<seq<Byte>>)
    ensures r.Success? <==> |buffer| <= 2
    ensures r.Failure? ==> r.error == IndexError
    ensures r.Success? ==> |r.value| == 2
    ensures r.Success? ==> forall i | 0 <= i < 2 :: r.value[i] == if i < |buffer| then buffer[i] else 0
  {
    var data := new Byte[2](_ => 0);
    for i := 0 to |buffer|
      invariant i <= 2
      invariant forall j | 0 <= j < 2 :: data[j] == if j < i then buffer[j] else 0
    {
      if i >= 2 {
        return Failure(IndexError);
      }
      data[i] := buffer[i];
    }
    r := Success(data[..]);
  }

  /** What `GetDigitalIn(index)` does to the read log and returns: the block at
      0x20 is read first, and a failed read is the result whatever the index;
      after a read, Python's indexing of the four input values decides between
      the state of an input and ValueError. ValueError comes only after a
      read, and exactly for the indices outside -4..3. */
  ghost predicate DigitalInOutcome(before: seq<(int, seq<Byte>)>, after: seq<(int, seq<Byte>)>,
                                   index: int, r: Result<bool>)
    ensures DigitalInOutcome(before, after, index, r) && r.Success? ==> -4 <= index < 4
    ensures DigitalInOutcome(before, after, index, r) ==>
      (r == Failure(ValueError) <==> after != before && (index < -4 || index >= 4))
  {
    if after == before then
      r.Failure? && (r.error == DeviceNotFound || r.error == AttributeError)
    else
      OneMoreRead(before, after, DIGITAL_IN_COMMAND, 2) &&
      var first := after[|before|].1[0];
      match ListIndex(index, 4)
      case None => r == Failure(ValueError)
      case Some(k) => r == Success(BitSet(first, k))
  }

  /** Inputs 0 to 3 are bits 0 to 3 of the first byte; -4 to -1 wrap round to
      inputs 0 to 3; any other index raises ValueError after the read. */
  lemma DigitalInIndexing(index: int)
    ensures 0 <= index < 4 ==> ListIndex(index, 4) == Some(index)
    ensures -4 <= index < 0 ==> ListIndex(index, 4) == Some(4 + index)
    ensures index >= 4 || index < -4 ==> ListIndex(index, 4) == None
  {
  }

  // ---------------------------------------------------------------------
  // The board controller.
  // ---------------------------------------------------------------------

  class Device {
    /** The bus the board is reached through. */
    const communicator: Bus
    /** `relay_status`: the cached relay bitmask. */
    var relayStatus: nat
    /** `digital_ins`: the four input values of the last GetDigitalIns
        (empty before the first). */
    var digitalIns: seq<nat>

    /** The cache is a relay bitmask and equals the value last written to the
        relay register. */
    ghost predicate Valid()
      reads this, communicator
      ensures Valid() ==> (RELAY_WRITE_COMMAND, relayStatus) in communicator.log
    {
      IsMask(relayStatus) && LastWrite(communicator.log, RELAY_WRITE_COMMAND) == Some(relayStatus)
    }

    /** Binds the communicator; Open completes construction with SetRelays(0). */
    constructor Attach(communicator: Bus)
      ensures this.communicator == communicator && relayStatus == 0 && digitalIns == []
    {
      this.communicator := communicator;
      relayStatus := 0;
      digitalIns := [];
    }

    /** `Device(address, bus, communicator)`: opens the communicator, then
        forces every relay open with SetRelays(0), the only bus write. */
    static method Open(address: int := DEFAULT_ADDRESS, bus: int := DEFAULT_BUS, kind: BusKind := Smb)
      returns (r: Result<Device>)
      ensures kind == Fake ==> r.Success?
      ensures r.Failure? ==> r.error == BusNotConfigured || r.error == DeviceNotFound
      ensures r.Success? ==> fresh(r.value) && fresh(r.value.communicator) && r.value.Valid()
      ensures r.Success? ==> r.value.relayStatus == 0 && r.value.digitalIns == []
      ensures r.Success? ==> r.value.communicator.log == [(RELAY_WRITE_COMMAND, 0)]
      ensures r.Success? ==> r.value.communicator.readLog == []
      ensures r.Success? ==> r.value.communicator.kind == kind && r.value.communicator.bus == bus
      ensures r.Success? ==> r.value.communicator.address == address
    {
      var connected := Bus.Open(kind, bus, address);
      if connected.Failure? {
        return Failure(connected.error);
      }
      var device := new Device.Attach(connected.value);
      var init := device.SetRelays(0);
      if init.Failure? {
        return Failure(init.error);
      }
      r := Success(device);
    }

    /** `ChangeAddress` as written: after the range check, line 259 names
        CHANGE_ADDRESS_COMMAND without `self.`, which raises NameError before
        anything is written, so the address never changes. */
    method ChangeAddress(newAddress: int) returns (r: Outcome)
      ensures r.Fail?
      ensures r.error == ValueError <==> newAddress < 0 || newAddress > 0xFF
      ensures r.error != ValueError ==> r.error == NameError
    {
      if newAddress < 0 || newAddress > 0xFF {
        return Fail(ValueError);
      }
      r := Fail(NameError);
    }

    /** `ChangeAddress` as intended: validate, write the new address to
        register 0xF0, and only then retarget the communicator. */
    method ChangeAddressCorrected(newAddress: int) returns (r: Outcome)
      requires Valid()
      modifies communicator`address, communicator`log
      ensures Valid() && relayStatus == old(relayStatus)
      ensures r == Fail(ValueError) <==> newAddress < 0 || newAddress > 0xFF
      ensures r.Fail? ==> communicator.address == old(communicator.address)
      ensures r.Fail? ==> communicator.log == old(communicator.log)
      ensures r.Fail? && 0 <= newAddress <= 0xFF ==> r.error == DeviceNotFound
      ensures 0 <= newAddress <= 0xFF && communicator.kind == Fake ==> r.Pass?
      ensures r.Pass? ==> communicator.address == newAddress
      ensures r.Pass? ==> communicator.log == old(communicator.log) + [(CHANGE_ADDRESS_COMMAND, newAddress)]
    {
      if newAddress < 0 || newAddress > 0xFF {
        return Fail(ValueError);
      }
      var w := communicator.Write(CHANGE_ADDRESS_COMMAND, newAddress);
      if w.Fail? {
        return w;
      }
      LastWriteAppend(old(communicator.log), CHANGE_ADDRESS_COMMAND, newAddress, RELAY_WRITE_COMMAND);
      communicator.address := newAddress;
      r := Pass;
    }

    /** The register that reads analog input `ain`: inputs 1..4 map one to one
        onto 0x30..0x33; anything else raises ValueError. */
    static function GetReadAinCommand(ain: int): (r: Result<int>)
      ensures r.Failure? <==> ain < 1 || ain > 4
      ensures r.Failure? ==> r.error == ValueError
      ensures r.Success? ==> AIN_READ_COMMAND <= r.value <= AIN_READ_COMMAND + 3
      ensures r.Success? ==> r.value - AIN_READ_COMMAND + 1 == ain
    {
      if ain < 1 || ain > 4 then Failure(ValueError) else Success(AIN_READ_COMMAND + ain - 1)
    }

    /** `ReadAin` as written: validate, arm the input by writing 1 to its
        register, read two bytes from the same register, and combine them
        with the expression of line 298. */
    method ReadAin(ain: int) returns (r: Result<int>)
      requires Valid()
      modifies communicator`log, communicator`readLog
      ensures Valid() && relayStatus == old(relayStatus)
      ensures ain < 1 || ain > 4 ==> r == Failure(ValueError)
      ensures ain < 1 || ain > 4 ==> communicator.log == old(communicator.log)
      ensures r.Failure? ==> communicator.readLog == old(communicator.readLog)
      ensures r.Failure? && 1 <= ain <= 4 ==> r.error == DeviceNotFound || r.error == AttributeError
      ensures r.Failure? && 1 <= ain <= 4 ==> (communicator.log == old(communicator.log)
        || communicator.log == old(communicator.log) + [(GetReadAinCommand(ain).value, 1)])
      ensures 1 <= ain <= 4 && communicator.kind == Fake ==> (r == Failure(AttributeError)
        && communicator.log == old(communicator.log) + [(GetReadAinCommand(ain).value, 1)])
      ensures 1 <= ain <= 4 && communicator.kind == Smb && r.Failure? ==> r.error == DeviceNotFound
      ensures r.Success? ==> (1 <= ain <= 4
        && communicator.log == old(communicator.log) + [(GetReadAinCommand(ain).value, 1)])
      ensures r.Success? ==> (1 <= ain <= 4
        && OneMoreRead(old(communicator.readLog), communicator.readLog, GetReadAinCommand(ain).value, 2))
      ensures r.Success? ==> (|communicator.readLog| > |old(communicator.readLog)|
        && var data := communicator.readLog[|old(communicator.readLog)|].1;
           |data| == 2 && r.value == AinAsWritten(data[0], data[1]))
    {
      var command := GetReadAinCommand(ain);
      if command.Failure? {
        return Failure(command.error);
      }
      var w := communicator.Write(command.value, 0x1);
      if w.Fail? {
        return Failure(w.error);
      }
      LastWriteAppend(old(communicator.log), command.value, 0x1, RELAY_WRITE_COMMAND);
      var data := communicator.ReadBlock(command.value, 2);
      if data.Failure? {
        return Failure(data.error);
      }
      r := Success(AinAsWritten(data.value[0], data.value[1]));
    }

    /** `ReadAin` as intended: the same bus traffic, but the two bytes are
        combined little-endian into a 16-bit reading (10 bits on mod-io). */
    method ReadAinCorrected(ain: int) returns (r: Result<nat>)
      requires Valid()
      modifies communicator`log, communicator`readLog
      ensures Valid() && relayStatus == old(relayStatus)
      ensures ain < 1 || ain > 4 ==> r == Failure(ValueError)
      ensures ain < 1 || ain > 4 ==> communicator.log == old(communicator.log)
      ensures r.Failure? ==> communicator.readLog == old(communicator.readLog)
      ensures r.Failure? && 1 <= ain <= 4 ==> r.error == DeviceNotFound || r.error == AttributeError
      ensures r.Failure? && 1 <= ain <= 4 ==> (communicator.log == old(communicator.log)
        || communicator.log == old(communicator.log) + [(GetReadAinCommand(ain).value, 1)])
      ensures 1 <= ain <= 4 && communicator.kind == Fake ==> (r == Failure(AttributeError)
        && communicator.log == old(communicator.log) + [(GetReadAinCommand(ain).value, 1)])
      ensures 1 <= ain <= 4 && communicator.kind == Smb && r.Failure? ==> r.error == DeviceNotFound
      ensures r.Success? ==> (1 <= ain <= 4
        && communicator.log == old(communicator.log) + [(GetReadAinCommand(ain).value, 1)])
      ensures r.Success? ==> (1 <= ain <= 4
        && OneMoreRead(old(communicator.readLog), communicator.readLog, GetReadAinCommand(ain).value, 2))
      ensures r.Success? ==> (|communicator.readLog| > |old(communicator.readLog)|
        && var data := communicator.readLog[|old(communicator.readLog)|].1;
           |data| == 2 && r.value < 0x10000 && r.value % 256 == data[0] && r.value / 256 == data[1])
    {
      var command := GetReadAinCommand(ain);
      if command.Failure? {
        return Failure(command.error);
      }
      var w := communicator.Write(command.value, 0x1);
      if w.Fail? {
        return Failure(w.error);
      }
      LastWriteAppend(old(communicator.log), command.value, 0x1, RELAY_WRITE_COMMAND);
      var data := communicator.ReadBlock(command.value, 2);
      if data.Failure? {
        return Failure(data.error);
      }
      r := Success(AinValue(data.value[0], data.value[1]));
    }

    /** `ReadRelays` as written: after the block read, `data & 0xf` applies
        `&` to a list, which raises TypeError; no value is ever returned. */
    method ReadRelays() returns (r: Result<nat>)
      modifies communicator`readLog
      ensures r.Failure?
      ensures r.error == TypeError <==> OneMoreRead(old(communicator.readLog), communicator.readLog, RELAY_READ_COMMAND, 2)
      ensures r.error != TypeError ==> communicator.readLog == old(communicator.readLog)
      ensures r.error != TypeError ==> r.error == DeviceNotFound || r.error == AttributeError
      ensures communicator.kind == Fake ==> r == Failure(AttributeError)
      ensures communicator.kind == Smb && r.error != TypeError ==> r.error == DeviceNotFound
    {
      var data := communicator.ReadBlock(RELAY_READ_COMMAND, 2);
      if data.Failure? {
        return Failure(data.error);
      }
      r := Failure(TypeError);
    }

    /** `ReadRelays` as intended: the low nibble of the first byte read from
        register 0x40, the board's own record of the relays. */
    method ReadRelaysCorrected() returns (r: Result<nat>)
      modifies communicator`readLog
      ensures r.Success? ==> OneMoreRead(old(communicator.readLog), communicator.readLog, RELAY_READ_COMMAND, 2)
      ensures r.Success? ==> IsMask(r.value) && forall q | 1 <= q <= 4 ::
        RelayClosed(r.value, q) <==> BitSet(communicator.readLog[|old(communicator.readLog)|].1[0], q - 1)
      ensures r.Failure? ==> communicator.readLog == old(communicator.readLog)
      ensures r.Failure? ==> r.error == DeviceNotFound || r.error == AttributeError
      ensures communicator.kind == Fake ==> r == Failure(AttributeError)
      ensures communicator.kind == Smb && r.Failure? ==> r.error == DeviceNotFound
    {
      var data := communicator.ReadBlock(RELAY_READ_COMMAND, 2);
      if data.Failure? {
        return Failure(data.error);
      }
      var status := LowNibble(data.value[0]);
      AndLowNibble(data.value[0]);
      assert BitSet(15, 0) && BitSet(15, 1) && BitSet(15, 2) && BitSet(15, 3);
      forall q | 1 <= q <= 4
        ensures RelayClosed(status, q) <==> BitSet(data.value[0], q - 1)
      {
        AndBit(data.value[0], 0xF, q - 1);
      }
      r := Success(status);
    }

    /** `ReadRelay` as written: the relay number is validated first; then
        ReadRelays always raises, and its error is the result. */
    method ReadRelay(relayOut: int) returns (r: Result<bool>)
      modifies communicator`readLog
      ensures r.Failure?
      ensures relayOut < 1 || relayOut > 4 ==> r.error == ValueError && communicator.readLog == old(communicator.readLog)
      ensures 1 <= relayOut <= 4 ==> r.error != ValueError
      ensures 1 <= relayOut <= 4 ==>
        (r.error == TypeError <==> OneMoreRead(old(communicator.readLog), communicator.readLog, RELAY_READ_COMMAND, 2))
      ensures 1 <= relayOut <= 4 && r.error != TypeError ==>
        communicator.readLog == old(communicator.readLog) && (r.error == DeviceNotFound || r.error == AttributeError)
      ensures 1 <= relayOut <= 4 && communicator.kind == Fake ==> r == Failure(AttributeError)
      ensures 1 <= relayOut <= 4 && communicator.kind == Smb && r.error != TypeError ==> r.error == DeviceNotFound
    {
      var bit := GetRelayBit(relayOut);
      if bit.Failure? {
        return Failure(bit.error);
      }
      var status := ReadRelays();
      r := Failure(status.error);
    }

    /** `ReadRelay` as intended: the state of one relay as the board reports it. */
    method ReadRelayCorrected(relayOut: int) returns (r: Result<bool>)
      modifies communicator`readLog
      ensures relayOut < 1 || relayOut > 4 ==> r == Failure(ValueError) && communicator.readLog == old(communicator.readLog)
      ensures r.Success? ==> (1 <= relayOut <= 4
        && OneMoreRead(old(communicator.readLog), communicator.readLog, RELAY_READ_COMMAND, 2)
        && r.value == BitSet(communicator.readLog[|old(communicator.readLog)|].1[0], relayOut - 1))
      ensures r.Failure? ==> communicator.readLog == old(communicator.readLog)
      ensures r.Failure? && 1 <= relayOut <= 4 ==> r.error == DeviceNotFound || r.error == AttributeError
      ensures 1 <= relayOut <= 4 && communicator.kind == Fake ==> r == Failure(AttributeError)
      ensures 1 <= relayOut <= 4 && communicator.kind == Smb && r.Failure? ==> r.error == DeviceNotFound
    {
      var bit := GetRelayBit(relayOut);
      if bit.Failure? {
        return Failure(bit.error);
      }
      var status := ReadRelaysCorrected();
      if status.Failure? {
        return Failure(status.error);
      }
      AndPow2(status.value, relayOut - 1);
      assert RelayClosed(status.value, relayOut) == BitSet(status.value, relayOut - 1);
      r := Success(And(status.value, bit.value) != 0);
    }

    /** `GetDigitalIns`: reads two bytes from register 0x20, pads them, and
        stores the four input values `data[0] & 1`, `& 2`, `& 4`, `& 8`. */
    method GetDigitalIns() returns (r: Outcome)
      modifies this`digitalIns, communicator`readLog
      ensures r.Pass? ==> OneMoreRead(old(communicator.readLog), communicator.readLog, DIGITAL_IN_COMMAND, 2)
      ensures r.Pass? ==> |digitalIns| == 4 && forall i | 0 <= i < 4 ::
        digitalIns[i] == And(communicator.readLog[|old(communicator.readLog)|].1[0], Pow2(i))
      ensures r.Pass? ==> |digitalIns| == 4 && forall i | 0 <= i < 4 ::
        (digitalIns[i] != 0 <==> BitSet(communicator.readLog[|old(communicator.readLog)|].1[0], i))
      ensures r.Fail? ==> digitalIns == old(digitalIns) && communicator.readLog == old(communicator.readLog)
      ensures r.Fail? ==> r.error == DeviceNotFound || r.error == AttributeError
      ensures communicator.kind == Fake ==> r == Fail(AttributeError)
      ensures communicator.kind == Smb && r.Fail? ==> r.error == DeviceNotFound
    {
      var buffer := communicator.ReadBlock(DIGITAL_IN_COMMAND, 2);
      if buffer.Failure? {
        return Fail(buffer.error);
      }
      var data := PadBlock(buffer.value);
      var first := data.value[0];
      assert Pow2(1) == 2 && Pow2(2) == 4 && Pow2(3) == 8;
      AndPow2(first, 0);
      AndPow2(first, 1);
      AndPow2(first, 2);
      AndPow2(first, 3);
      digitalIns := [And(first, 1), And(first, 2), And(first, 4), And(first, 8)];
      r := Pass;
    }

    /** `GetDigitalIn(index)`: inputs are numbered from 0, the bus is read
        before the index is checked, and Python's indexing lets -4..-1 through. */
    method GetDigitalIn(index: int) returns (r: Result<bool>)
      modifies this`digitalIns, communicator`readLog
      ensures DigitalInOutcome(old(communicator.readLog), communicator.readLog, index, r)
      ensures communicator.readLog == old(communicator.readLog) ==> digitalIns == old(digitalIns)
      ensures communicator.readLog != old(communicator.readLog) ==> (|digitalIns| == 4
        && forall i | 0 <= i < 4 ::
             digitalIns[i] == And(communicator.readLog[|old(communicator.readLog)|].1[0], Pow2(i)))
      ensures communicator.readLog != old(communicator.readLog) ==> (|digitalIns| == 4
        && forall i | 0 <= i < 4 ::
             (digitalIns[i] != 0 <==> BitSet(communicator.readLog[|old(communicator.readLog)|].1[0], i)))
      ensures communicator.kind == Fake ==> r == Failure(AttributeError)
      ensures communicator.kind == Smb && r.Failure? && r.error != ValueError ==> r.error == DeviceNotFound
    {
      var read := GetDigitalIns();
      if read.Fail? {
        return Failure(read.error);
      }
      var k := ListIndex(index, 4);
      if k.None? {
        return Failure(ValueError);
      }
      r := Success(digitalIns[k.value] != 0);
    }

    /** `GetRelays`: the cached bitmask, without touching the bus; it is the
        value last written to the relay register. */
    method GetRelays() returns (mask: nat)
      requires Valid()
      ensures IsMask(mask) && LastWrite(communicator.log, RELAY_WRITE_COMMAND) == Some(mask)
      ensures mask == relayStatus
    {
      mask := relayStatus;
    }

    /** `SetRelays(value)`: validate, write the mask to register 0x10, and only
        after the write has gone through update the cache. */
    method SetRelays(value: int) returns (r: Result<nat>)
      modifies this`relayStatus, communicator`log
      ensures !IsMask(value) ==> r == Failure(ValueError)
      ensures IsMask(value) && r.Failure? ==> r.error == DeviceNotFound
      ensures IsMask(value) && communicator.kind == Fake ==> r.Success?
      ensures r.Success? ==> r.value == value && relayStatus == value
      ensures r.Success? ==> communicator.log == old(communicator.log) + [(RELAY_WRITE_COMMAND, value)]
      ensures r.Failure? ==> relayStatus == old(relayStatus) && communicator.log == old(communicator.log)
      ensures r.Success? || old(Valid()) ==> Valid()
    {
      if value < 0 || value > 0xF {
        return Failure(ValueError);
      }
      var w := communicator.Write(RELAY_WRITE_COMMAND, value);
      if w.Fail? {
        return Failure(w.error);
      }
      LastWriteAppend(old(communicator.log), RELAY_WRITE_COMMAND, value, RELAY_WRITE_COMMAND);
      relayStatus := value;
      r := Success(relayStatus);
    }

    /** `GetRelayBit(relay)`: the mask with only relay `relay` closed; numbers
        outside 1..4 raise ValueError, which makes it the relay-number check. */
    static function GetRelayBit(relay: int): (r: Result<nat>)
      ensures r.Failure? <==> relay < 1 || relay > 4
      ensures r.Failure? ==> r.error == ValueError
      ensures r.Success? ==> r.value in {1, 2, 4, 8}
      ensures r.Success? ==> forall q | 1 <= q <= 4 :: RelayClosed(r.value, q) <==> q == relay
    {
      if relay < 1 || relay > 4 then Failure(ValueError)
      else
        RelayBitValue(relay, Pow2(relay - 1));
        Success(Pow2(relay - 1))
    }

    /** `IsRelayClosed(relay)`: the cached state of one relay, with no bus access. */
    method IsRelayClosed(relay: int) returns (r: Result<bool>)
      requires Valid()
      ensures r.Failure? <==> relay < 1 || relay > 4
      ensures r.Failure? ==> r.error == ValueError
      ensures r.Success? ==> r.value == RelayClosed(relayStatus, relay)
    {
      var bit := GetRelayBit(relay);
      if bit.Failure? {
        return Failure(bit.error);
      }
      var mask := GetRelays();
      AndPow2(mask, relay - 1);
      r := Success(And(mask, bit.value) != 0);
    }

    /** `CloseContactRelay(relay)`: set the relay's bit in the cached mask and
        write the result through SetRelays. */
    method CloseContactRelay(relay: int) returns (r: Outcome)
      requires Valid()
      modifies this`relayStatus, communicator`log
      ensures Valid()
      ensures r == Fail(ValueError) <==> relay < 1 || relay > 4
      ensures r.Fail? ==> relayStatus == old(relayStatus) && communicator.log == old(communicator.log)
      ensures r.Fail? && 1 <= relay <= 4 ==> r.error == DeviceNotFound
      ensures 1 <= relay <= 4 && communicator.kind == Fake ==> r.Pass?
      ensures r.Pass? ==> 1 <= relay <= 4 && relayStatus == WithRelayClosed(old(relayStatus), relay)
      ensures r.Pass? ==> 1 <= relay <= 4 && forall q | 1 <= q <= 4 ::
        RelayClosed(relayStatus, q) <==> q == relay || RelayClosed(old(relayStatus), q)
      ensures r.Pass? ==> communicator.log == old(communicator.log) + [(RELAY_WRITE_COMMAND, relayStatus)]
    {
      var mask := GetRelays();
      var bit := GetRelayBit(relay);
      if bit.Failure? {
        return Fail(bit.error);
      }
      assert Or(mask, bit.value) == WithRelayClosed(mask, relay);
      var s := SetRelays(Or(mask, bit.value));
      if s.Failure? {
        return Fail(s.error);
      }
      r := Pass;
    }

    /** `OpenContactRelay(relay)`: clear the relay's bit in the cached mask and
        write the result through SetRelays. */
    method OpenContactRelay(relay: int) returns (r: Outcome)
      requires Valid()
      modifies this`relayStatus, communicator`log
      ensures Valid()
      ensures r == Fail(ValueError) <==> relay < 1 || relay > 4
      ensures r.Fail? ==> relayStatus == old(relayStatus) && communicator.log == old(communicator.log)
      ensures r.Fail? && 1 <= relay <= 4 ==> r.error == DeviceNotFound
      ensures 1 <= relay <= 4 && communicator.kind == Fake ==> r.Pass?
      ensures r.Pass? ==> 1 <= relay <= 4 && relayStatus == WithRelayOpen(old(relayStatus), relay)
      ensures r.Pass? ==> 1 <= relay <= 4 && forall q | 1 <= q <= 4 ::
        RelayClosed(relayStatus, q) <==> q != relay && RelayClosed(old(relayStatus), q)
      ensures r.Pass? ==> communicator.log == old(communicator.log) + [(RELAY_WRITE_COMMAND, relayStatus)]
    {
      var mask := GetRelays();
      var bit := GetRelayBit(relay);
      if bit.Failure? {
        return Fail(bit.error);
      }
      assert And(mask, LowNibble(Invert(bit.value))) == WithRelayOpen(mask, relay);
      var s := SetRelays(And(mask, LowNibble(Invert(bit.value))));
      if s.Failure? {
        return Fail(s.error);
      }
      r := Pass;
    }
  }
}
