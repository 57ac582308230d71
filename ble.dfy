/**
  The BLE device library as the web API uses it: a scan by address that may or
  may not find the configured device, and a device object whose calls (key
  binding, connect, login, the actions, the status getters, disconnect) may each
  raise. The radio, key exchange and vendor protocol are not modelled: every call
  is recorded in one log, and a fault map says which calls raise and with what
  text.
 */
module Ble {
  import opened Wrappers

  /** `CHProductModel`: the two lock models, the Bot, and any other model the library knows. */
  datatype ProductModel = SS2 | SS4 | SesameBot1 | Other(name: string)

  /** `CHDeviceKey` after `setSecretKey` and `setSesame2PublicKey` */
  datatype DeviceKey = DeviceKey(secretKey: string, publicKey: string)

  /**
    The mechanical status object. `position` is None for a status class that
    has no `getPosition` (the Bot's); the battery voltage is a float in the
    library and only passed through here.
   */
  datatype MechStatus = MechStatus(
    batteryPercentage: int,
    batteryVoltage: real,
    inLockRange: bool,
    inUnlockRange: bool,
    position: Option<int>)

  /**
    The device in radio range: the address a scan matches on, the UUID it reports,
    its model, what `getMechStatus` returns (None when the library has no status
    yet) and the text of `str(getDeviceStatus())`.
   */
  datatype Peripheral = Peripheral(
    address: string,
    uuid: string,
    model: ProductModel,
    mechStatus: Option<MechStatus>,
    deviceStatus: string)

  /** One call into the library, with the arguments the web API passes. */
  datatype Call =
    | Scan(address: string, duration: int)
    | SetKey(key: DeviceKey)
    | Connect
    | WaitForLogin
    | Toggle(toggleTag: string)
    | Lock(lockTag: string)
    | Unlock(unlockTag: string)
    | Click(clickTag: string)
    | GetMechStatus
    | GetDeviceStatus
    | Disconnect

  /** The four device actions. */
  predicate IsAction(c: Call) {
    c.Toggle? || c.Lock? || c.Unlock? || c.Click?
  }

  /**
    What the library will do during a request: the device in range, if any,
    and the calls that raise, each with the text of its exception.
   */
  datatype World = World(inRange: Option<Peripheral>, faults: map<Call, string>)

  /** The device a scan for `address` finds. */
  function Discover(inRange: Option<Peripheral>, address: string): Option<Peripheral> {
    if inRange.Some? && inRange.value.address == address then inRange else None
  }

  /** How a call that returns nothing ends: it raises when the fault map names it. */
  function OutcomeOf(faults: map<Call, string>, c: Call): Outcome<string> {
    if c in faults then Fail(faults[c]) else Pass
  }

  /** The BLE environment of the server: the world it acts in and the log of every call made. */
  class Radio {
    const world: World
    var log: seq<Call>

    constructor (world: World)
      ensures this.world == world && log == []
    {
      this.world := world;
      log := [];
    }

    /** Makes call `c`: records it and raises when the fault map names it. */
    method Perform(c: Call) returns (o: Outcome<string>)
      modifies this
      ensures log == old(log) + [c]
      ensures o == OutcomeOf(world.faults, c)
    {
      log := log + [c];
      o := OutcomeOf(world.faults, c);
    }

    /** `CHBleManager().scan_by_address(ble_device_identifier, scan_duration)` */
    method ScanByAddress(address: string, duration: int) returns (r: Result<Option<Device>, string>)
      modifies this
      ensures log == old(log) + [Scan(address, duration)]
      ensures Scan(address, duration) in world.faults ==> r == Failure(world.faults[Scan(address, duration)])
      ensures Scan(address, duration) !in world.faults ==>
        r.Success? && (r.value.Some? <==> Discover(world.inRange, address).Some?)
      ensures r.Success? && r.value.Some? ==>
        fresh(r.value.value) && r.value.value.radio == this &&
        Some(r.value.value.peripheral) == Discover(world.inRange, address) && r.value.value.key.None?
    {
      var o := Perform(Scan(address, duration));
      if o.Fail? {
        return Failure(o.error);
      }
      var found := Discover(world.inRange, address);
      if found.None? {
        return Success(None);
      }
      var device := new Device(this, found.value);
      return Success(Some(device));
    }
  }

  /** A scanned `CHSesame2` or `CHSesameBot`; each of its calls goes to the radio's log. */
  class Device {
    const radio: Radio
    const peripheral: Peripheral
    var key: Option<DeviceKey>

    constructor (radio: Radio, peripheral: Peripheral)
      ensures this.radio == radio && this.peripheral == peripheral && key.None?
    {
      this.radio := radio;
      this.peripheral := peripheral;
      key := None;
    }

    /** `device.setKey(device_key)`: binds the key unless the library raises. */
    method SetKey(k: DeviceKey) returns (o: Outcome<string>)
      modifies this, radio
      ensures radio.log == old(radio.log) + [Call.SetKey(k)]
      ensures o == OutcomeOf(radio.world.faults, Call.SetKey(k))
      ensures key == if o.Pass? then Some(k) else old(key)
    {
      o := radio.Perform(Call.SetKey(k));
      if o.Pass? {
        key := Some(k);
      }
    }

    method Connect() returns (o: Outcome<string>)
      modifies radio
      ensures radio.log == old(radio.log) + [Call.Connect]
      ensures o == OutcomeOf(radio.world.faults, Call.Connect)
    {
      o := radio.Perform(Call.Connect);
    }

    method WaitForLogin() returns (o: Outcome<string>)
      modifies radio
      ensures radio.log == old(radio.log) + [Call.WaitForLogin]
      ensures o == OutcomeOf(radio.world.faults, Call.WaitForLogin)
    {
      o := radio.Perform(Call.WaitForLogin);
    }

    method Toggle(historyTag: string) returns (o: Outcome<string>)
      modifies radio
      ensures radio.log == old(radio.log) + [Call.Toggle(historyTag)]
      ensures o == OutcomeOf(radio.world.faults, Call.Toggle(historyTag))
    {
      o := radio.Perform(Call.Toggle(historyTag));
    }

    method Lock(historyTag: string) returns (o: Outcome<string>)
      modifies radio
      ensures radio.log == old(radio.log) + [Call.Lock(historyTag)]
      ensures o == OutcomeOf(radio.world.faults, Call.Lock(historyTag))
    {
      o := radio.Perform(Call.Lock(historyTag));
    }

    method Unlock(historyTag: string) returns (o: Outcome<string>)
      modifies radio
      ensures radio.log == old(radio.log) + [Call.Unlock(historyTag)]
      ensures o == OutcomeOf(radio.world.faults, Call.Unlock(historyTag))
    {
      o := radio.Perform(Call.Unlock(historyTag));
    }

    method Click(historyTag: string) returns (o: Outcome<string>)
      modifies radio
      ensures radio.log == old(radio.log) + [Call.Click(historyTag)]
      ensures o == OutcomeOf(radio.world.faults, Call.Click(historyTag))
    {
      o := radio.Perform(Call.Click(historyTag));
    }

    method GetMechStatus() returns (r: Result<Option<MechStatus>, string>)
      modifies radio
      ensures radio.log == old(radio.log) + [Call.GetMechStatus]
      ensures Call.GetMechStatus in radio.world.faults ==> r == Failure(radio.world.faults[Call.GetMechStatus])
      ensures Call.GetMechStatus !in radio.world.faults ==> r == Success(peripheral.mechStatus)
    {
      var o := radio.Perform(Call.GetMechStatus);
      r := if o.Fail? then Failure(o.error) else Success(peripheral.mechStatus);
    }

    method GetDeviceStatus() returns (r: Result<string, string>)
      modifies radio
      ensures radio.log == old(radio.log) + [Call.GetDeviceStatus]
      ensures Call.GetDeviceStatus in radio.world.faults ==> r == Failure(radio.world.faults[Call.GetDeviceStatus])
      ensures Call.GetDeviceStatus !in radio.world.faults ==> r == Success(peripheral.deviceStatus)
    {
      var o := radio.Perform(Call.GetDeviceStatus);
      r := if o.Fail? then Failure(o.error) else Success(peripheral.deviceStatus);
    }

    method Disconnect() returns (o: Outcome<string>)
      modifies radio
      ensures radio.log == old(radio.log) + [Call.Disconnect]
      ensures o == OutcomeOf(radio.world.faults, Call.Disconnect)
    {
      o := radio.Perform(Call.Disconnect);
    }
  }
}
