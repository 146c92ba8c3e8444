/** The communicator a `Device` talks through: `SmbBus` (the real SMBus
    transport) and `FakeBus` (the stand-in used by the tests), as one class
    whose `kind` says which of the two it is.

    The I/O itself is not modelled: whether the board answers a request, and
    which bytes it sends back, are chosen nondeterministically. What is kept
    is the contract the driver relies on: a write either completes or fails
    with DeviceNotFound, a block read returns exactly the requested number
    of bytes or fails, and opening the real bus may fail with
    BusNotConfigured. Two ghost logs record every completed write and every
    completed read, in order, so that the driver's properties can be stated
    as properties of what reached the bus. */
module Transport {
  import opened Errors

  type Byte = x: int | 0 <= x < 256

  datatype BusKind = Smb | Fake

  /** The last value written to register `key`, if any. */
  function LastWrite(log: seq<(int, int)>, key: int): (r: Option<int>)
    ensures r.Some? ==> (key, r.value) in log
    ensures r.None? <==> forall e | e in log :: e.0 != key
  {
    if log == [] then None
    else if log[|log| - 1].0 == key then Some(log[|log| - 1].1)
    else
      assert forall e | e in log :: e in log[..|log| - 1] || e == log[|log| - 1];
      LastWrite(log[..|log| - 1], key)
  }

  /** A new write to register `k` becomes the last write to `k` and leaves
      the last write to every other register as it was. */
  lemma LastWriteAppend(log: seq<(int, int)>, k: int, v: int, key: int)
    ensures LastWrite(log + [(k, v)], key) == if k == key then Some(v) else LastWrite(log, key)
  {
    assert (log + [(k, v)])[..|log|] == log;
  }

  /** `after` is `before` plus exactly one more read, of `length` bytes
      from register `key`. */
  ghost predicate OneMoreRead(before: seq<(int, seq<Byte>)>, after: seq<(int, seq<Byte>)>, key: int, length: nat)
  {
    |after| == |before| + 1 && after[..|before|] == before
    && after[|before|].0 == key && |after[|before|].1| == length
  }

  class Bus {
    const kind: BusKind
    const bus: int
    var address: int
    /** Every completed `Write`, as (register, value), oldest first. */
    ghost var log: seq<(int, int)>
    /** Every completed `ReadBlock`, as (register, bytes returned), oldest first. */
    ghost var readLog: seq<(int, seq<Byte>)>

    constructor Connect(kind: BusKind, bus: int, address: int)
      ensures this.kind == kind && this.bus == bus && this.address == address
      ensures log == [] && readLog == []
    {
      this.kind := kind;
      this.bus := bus;
      this.address := address;
      log := [];
      readLog := [];
    }

    /** `SmbBus(bus, address)` or `FakeBus(bus, address)`. Opening the real
        bus fails with BusNotConfigured when the host's SMBus subsystem cannot
        be opened; the fake one always opens. */
    static method Open(kind: BusKind, bus: int, address: int) returns (r: Result<Bus>)
      ensures kind == Fake ==> r.Success?
      ensures r.Failure? ==> r.error == BusNotConfigured
      ensures r.Success? ==> fresh(r.value) && r.value.kind == kind && r.value.bus == bus
      ensures r.Success? ==> r.value.address == address && r.value.log == [] && r.value.readLog == []
    {
      var available: bool;
      if kind == Fake {
        available := true;
      } else {
        available :| true;
      }
      if available {
        var b := new Bus.Connect(kind, bus, address);
        r := Success(b);
      } else {
        r := Failure(BusNotConfigured);
      }
    }

    /** Writes `value` to register `key` of the board at `address`. The fake
        bus only logs the request, so it never fails. */
    method Write(key: int, value: int) returns (r: Outcome)
      modifies this`log
      ensures kind == Fake ==> r.Pass?
      ensures r.Pass? ==> log == old(log) + [(key, value)]
      ensures r.Fail? ==> r.error == DeviceNotFound && log == old(log)
    {
      var answered: bool;
      if kind == Fake {
        answered := true;
      } else {
        answered :| true;
      }
      if answered {
        log := log + [(key, value)];
        r := Pass;
      } else {
        r := Fail(DeviceNotFound);
      }
    }

    /** Reads `length` bytes starting at register `key`. The fake bus has no
        such method, so calling it there raises AttributeError. */
    method ReadBlock(key: int, length: nat) returns (r: Result<seq<Byte>>)
      modifies this`readLog
      ensures kind == Fake ==> r == Failure(AttributeError)
      ensures r.Success? ==> |r.value| == length && readLog == old(readLog) + [(key, r.value)]
      ensures r.Failure? ==> readLog == old(readLog)
      ensures r.Failure? && kind == Smb ==> r.error == DeviceNotFound
    {
      if kind == Fake {
        return Failure(AttributeError);
      }
      var answered: bool :| true;
      if answered {
        assert |seq(length, _ => 0 as Byte)| == length;
        var data: seq<Byte> :| |data| == length;
        readLog := readLog + [(key, data)];
        r := Success(data);
      } else {
        r := Failure(DeviceNotFound);
      }
    }
  }
}
