/** The convenience wrappers of modio.py: `Relay`, which checks its relay
    number once when it is created, and `DigitalIn`, which checks nothing
    and forwards to `Device.GetDigitalIn`. */
module Handles {
  import opened Errors
  import opened Bits
  import opened Transport
  import opened Modio

  class Relay {
    const device: Device
    const number: int

    ghost predicate Valid()
      reads this, device, device.communicator
    {
      1 <= number <= 4 && device.Valid()
    }

    /** Binds an already validated relay number; `Create` is the checked way in. */
    constructor Bind(device: Device, number: int)
      requires 1 <= number <= 4
      ensures this.device == device && this.number == number
    {
      this.device := device;
      this.number := number;
    }

    /** `Relay(device, number)`: the number goes through GetRelayBit first, so
        an invalid one raises ValueError before any object exists or any bus
        access happens. */
    static method Create(device: Device, number: int) returns (r: Result<Relay>)
      ensures r.Failure? <==> number < 1 || number > 4
      ensures r.Failure? ==> r.error == ValueError
      ensures r.Success? ==> fresh(r.value) && r.value.device == device && r.value.number == number
      ensures r.Success? ==> (r.value.Valid() <==> device.Valid())
    {
      var bit := Device.GetRelayBit(number);
      if bit.Failure? {
        return Failure(bit.error);
      }
      var relay := new Relay.Bind(device, number);
      r := Success(relay);
    }

    /** `IsClosed`: the relay's state in the device's cached mask; the number
        was checked at creation, so no error is possible. */
    method IsClosed() returns (closed: bool)
      requires Valid()
      ensures closed == RelayClosed(device.relayStatus, number)
    {
      var r := device.IsRelayClosed(number);
      closed := r.value;
    }

    /** `Get`: the deprecated name of IsClosed. */
    method Get() returns (closed: bool)
      requires Valid()
      ensures closed == RelayClosed(device.relayStatus, number)
    {
      closed := IsClosed();
    }

    /** `OpenContact`: opens this relay through the device. */
    method OpenContact() returns (r: Outcome)
      requires Valid()
      modifies device`relayStatus, device.communicator`log
      ensures Valid()
      ensures r.Fail? ==> r.error == DeviceNotFound
      ensures r.Fail? ==> device.relayStatus == old(device.relayStatus)
      ensures r.Fail? ==> device.communicator.log == old(device.communicator.log)
      ensures device.communicator.kind == Fake ==> r.Pass?
      ensures r.Pass? ==> device.relayStatus == WithRelayOpen(old(device.relayStatus), number)
      ensures r.Pass? ==> device.communicator.log == old(device.communicator.log) + [(RELAY_WRITE_COMMAND, device.relayStatus)]
    {
      r := device.OpenContactRelay(number);
    }

    /** `CloseContact`: closes this relay through the device. */
    method CloseContact() returns (r: Outcome)
      requires Valid()
      modifies device`relayStatus, device.communicator`log
      ensures Valid()
      ensures r.Fail? ==> r.error == DeviceNotFound
      ensures r.Fail? ==> device.relayStatus == old(device.relayStatus)
      ensures r.Fail? ==> device.communicator.log == old(device.communicator.log)
      ensures device.communicator.kind == Fake ==> r.Pass?
      ensures r.Pass? ==> device.relayStatus == WithRelayClosed(old(device.relayStatus), number)
      ensures r.Pass? ==> device.communicator.log == old(device.communicator.log) + [(RELAY_WRITE_COMMAND, device.relayStatus)]
    {
      r := device.CloseContactRelay(number);
    }
  }

  class DigitalIn {
    const device: Device
    const number: int

    /** `DigitalIn(device, number)`: no check at all; an invalid number only
        shows up when `Get` is called. */
    constructor (device: Device, number: int)
      ensures this.device == device && this.number == number
    {
      this.device := device;
      this.number := number;
    }

    /** `Get`: exactly `device.GetDigitalIn(number)`. */
    method Get() returns (r: Result<bool>)
      modifies device`digitalIns, device.communicator`readLog
      ensures DigitalInOutcome(old(device.communicator.readLog), device.communicator.readLog, number, r)
      ensures device.communicator.readLog == old(device.communicator.readLog) ==> device.digitalIns == old(device.digitalIns)
      ensures device.communicator.readLog != old(device.communicator.readLog) ==> (|device.digitalIns| == 4
        && forall i | 0 <= i < 4 ::
             device.digitalIns[i] == And(device.communicator.readLog[|old(device.communicator.readLog)|].1[0], Pow2(i)))
      ensures device.communicator.readLog != old(device.communicator.readLog) ==> (|device.digitalIns| == 4
        && forall i | 0 <= i < 4 ::
             (device.digitalIns[i] != 0 <==> BitSet(device.communicator.readLog[|old(device.communicator.readLog)|].1[0], i)))
      ensures device.communicator.kind == Fake ==> r == Failure(AttributeError)
      ensures device.communicator.kind == Smb && r.Failure? && r.error != ValueError ==> r.error == DeviceNotFound
    {
      r := device.GetDigitalIn(number);
    }
  }
}
