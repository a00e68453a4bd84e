/**
 * Vocabulary shared by the two lamp-link classes: the platform's BLE handles and
 * callbacks reduced to values, the fixed UUIDs, the timers posted to the main
 * looper, and the log of radio calls that took effect.
 */
module Gatt {
  import opened Wrappers

  type Uuid = string

  /** The lamp's GATT service and its LED characteristic. */
  const ServiceUuid: Uuid := "19b10000-e8f2-537e-4f6c-d104768a1214"
  const LedUuid: Uuid := "19b10002-e8f2-537e-4f6c-d104768a1214"

  /** BluetoothProfile.STATE_DISCONNECTED / STATE_CONNECTED and BluetoothGatt.GATT_SUCCESS. */
  const StateDisconnected := 0
  const StateConnected := 2
  const GattSuccess := 0

  const ScanTimeoutMs := 10000
  const ReconnectDelayMs := 5000

  /** A BluetoothGatt connection handle, by identity. */
  datatype GattHandle = GattHandle(id: nat)

  /** The device of a scan result; its advertised name may be null. */
  datatype Device = Device(address: string, name: Option<string>)

  /** A BluetoothGattCharacteristic with its locally staged value. */
  datatype Characteristic = Characteristic(service: Uuid, uuid: Uuid, value: seq<bv8>)

  /** The services a connected peripheral reported, each with its characteristics. */
  type Database = map<Uuid, set<Uuid>>

  /** The transport argument of connectGatt: the default (auto) or TRANSPORT_LE. */
  datatype Transport = TransportAuto | TransportLe

  /** What a posted runnable does when it fires. */
  datatype Action = StopScanAction | ReconnectAction

  /** A `handler.postDelayed(action, delayMs)` that has not fired yet. */
  datatype Timer = Timer(delayMs: nat, action: Action)

  const ScanTimeout := Timer(ScanTimeoutMs, StopScanAction)
  const Reconnect := Timer(ReconnectDelayMs, ReconnectAction)

  /** A radio call the platform accepted (a call that threw is not logged). */
  datatype Call =
    | StartScan
    | StopScan
    | ConnectGatt(address: string, transport: Transport)
    | DiscoverServices(gatt: GattHandle)
    | Disconnect(gatt: GattHandle)
    | Close(gatt: GattHandle)
    | WriteCharacteristic(gatt: GattHandle, characteristic: Uuid, payload: seq<bv8>)

  /** The single byte written to the LED characteristic. */
  function LampPayload(isOn: bool): (payload: seq<bv8>)
    ensures |payload| == 1
    ensures payload[0] == 0x01 <==> isOn
    ensures payload[0] == 0x00 <==> !isOn
  {
    if isOn then [0x01] else [0x00]
  }

  /** How the lamp reads a write: 0x01 is on, 0x00 is off, anything else is not a command. */
  function LampState(payload: seq<bv8>): Option<bool> {
    if payload == [0x01] then Some(true)
    else if payload == [0x00] then Some(false)
    else None
  }

  /** Every payload the app sends is a command the lamp understands, and the one requested. */
  lemma LampPayloadRoundTrip(isOn: bool)
    ensures LampState(LampPayload(isOn)) == Some(isOn)
  {
  }

  /** `gatt.getService(serviceUUID)?.getCharacteristic(ledUUID)`. */
  function LookupLed(db: Database): (led: Option<Characteristic>)
    ensures led.Some? <==> ServiceUuid in db && LedUuid in db[ServiceUuid]
    ensures led.Some? ==> led.value.service == ServiceUuid && led.value.uuid == LedUuid
  {
    if ServiceUuid in db && LedUuid in db[ServiceUuid] then
      Some(Characteristic(ServiceUuid, LedUuid, []))
    else
      None
  }

  /** Every write in a call log goes to the LED characteristic and carries a lamp command. */
  ghost predicate LampWritesOnly(trace: seq<Call>) {
    forall c :: c in trace && c.WriteCharacteristic? ==>
      c.characteristic == LedUuid && LampState(c.payload).Some?
  }

  /** Whether connectBle gets past its guard and its startScan: only then is isScanning set. */
  function ScanStarts(hasScanner: bool, wasScanning: bool, adapterEnabled: bool, scanGranted: bool, startThrows: bool): bool {
    !wasScanning && adapterEnabled && scanGranted && !(hasScanner && startThrows)
  }

  /** The radio calls of stopBleScan: stopScan when scanning, permitted, and it did not throw. */
  function StopScanCalls(hasScanner: bool, wasScanning: bool, scanGranted: bool, stopThrows: bool): seq<Call> {
    if wasScanning && scanGranted && hasScanner && !stopThrows then [StopScan] else []
  }

  /** `bluetoothGatt?.close()`. */
  function CloseCalls(gatt: Option<GattHandle>): seq<Call> {
    if gatt.Some? then [Close(gatt.value)] else []
  }

  /** `bluetoothGatt?.disconnect(); bluetoothGatt?.close()`. */
  function TeardownCalls(gatt: Option<GattHandle>): seq<Call> {
    if gatt.Some? then [Disconnect(gatt.value), Close(gatt.value)] else []
  }

  /** The timers left after the one at index i has fired. */
  function RemoveAt(timers: seq<Timer>, i: nat): (rest: seq<Timer>)
    requires i < |timers|
    ensures |rest| == |timers| - 1
    ensures multiset(rest) + multiset{timers[i]} == multiset(timers)
    ensures forall t :: t in rest ==> t in timers
  {
    assert timers == timers[..i] + [timers[i]] + timers[i + 1..];
    timers[..i] + timers[i + 1..]
  }
}
