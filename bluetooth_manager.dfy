/**
 * BluetoothManager: the configurable lamp link. It scans for the device whose
 * advertised name is the configured BLUETOOTH_NAME (read on every scan result),
 * stores the handle connectGatt returns, and re-arms a scan 5 seconds after every
 * disconnection event.
 *
 * Platform facts are parameters: `scanGranted`/`connectGranted` are the
 * BLUETOOTH_SCAN/BLUETOOTH_CONNECT permission checks at the moment of the call,
 * `adapterEnabled` is `bluetoothAdapter?.isEnabled == true`, and a `...Throws` flag
 * says that the platform call raised a SecurityException.
 */
module BleManager {
  import opened Wrappers
  import opened Gatt
  import Config

  class BluetoothManager {
    /** Whether `bluetoothAdapter?.bluetoothLeScanner` was non-null at construction. */
    const hasScanner: bool

    var isScanning: bool
    var bluetoothGatt: Option<GattHandle>
    var ledCharacteristic: Option<Characteristic>
    /** Runnables posted to the main-looper handler that have not fired yet. */
    var pending: seq<Timer>
    /** Radio calls made so far. */
    ghost var trace: seq<Call>

    /** Only the scan timeout and the reconnect are ever posted; only the LED characteristic is cached; only lamp commands are written. */
    ghost predicate Valid()
      reads this
    {
      && (forall t :: t in pending ==> t == ScanTimeout || t == Reconnect)
      && (ledCharacteristic.Some? ==> ledCharacteristic.value.uuid == LedUuid)
      && LampWritesOnly(trace)
    }

    constructor (hasScanner: bool)
      ensures Valid() && this.hasScanner == hasScanner
      ensures !isScanning && bluetoothGatt == None && ledCharacteristic == None
      ensures pending == [] && trace == []
    {
      this.hasScanner := hasScanner;
      isScanning := false;
      bluetoothGatt := None;
      ledCharacteristic := None;
      pending := [];
      trace := [];
    }

    /** connectBle: start a scan unless one is running or the adapter is off, and arm the 10 s timeout. */
    method ConnectBle(adapterEnabled: bool, scanGranted: bool, startThrows: bool)
      requires Valid()
      modifies this
      ensures Valid()
      ensures old(isScanning) || !adapterEnabled || !scanGranted ==> unchanged(this)
      ensures var started := ScanStarts(hasScanner, old(isScanning), adapterEnabled, scanGranted, startThrows);
        && isScanning == (old(isScanning) || started)
        && pending == old(pending) + (if started then [ScanTimeout] else [])
        && trace == old(trace) + (if started && hasScanner then [StartScan] else [])
      ensures bluetoothGatt == old(bluetoothGatt) && ledCharacteristic == old(ledCharacteristic)
    {
      if !isScanning && adapterEnabled {
        if !scanGranted {
          return;
        }
        if hasScanner {
          if startThrows {
            return;
          }
          trace := trace + [StartScan];
        }
        isScanning := true;
        pending := pending + [ScanTimeout];
      }
    }

    /** stopBleScan: a no-op unless scanning; with permission it clears isScanning even if stopScan throws. */
    method StopBleScan(scanGranted: bool, stopThrows: bool)
      requires Valid()
      modifies this
      ensures Valid()
      ensures !old(isScanning) ==> unchanged(this)
      ensures isScanning == (old(isScanning) && !scanGranted)
      ensures trace == old(trace) + StopScanCalls(hasScanner, old(isScanning), scanGranted, stopThrows)
      ensures bluetoothGatt == old(bluetoothGatt) && ledCharacteristic == old(ledCharacteristic)
      ensures pending == old(pending)
    {
      if isScanning {
        if !scanGranted {
          return;
        }
        if hasScanner && !stopThrows {
          trace := trace + [StopScan];
        }
        isScanning := false;
      }
    }

    /**
     * scanCallback.onScanResult: a device whose name equals the configured name
     * stops the scan and then, with connect permission, connects over LE and
     * keeps the handle connectGatt returns (possibly null).
     */
    method OnScanResult(device: Option<Device>, config: Config.Prefs,
                        scanGranted: bool, stopThrows: bool,
                        connectGranted: bool, connectThrows: bool, returned: Option<GattHandle>)
      requires Valid()
      modifies this
      ensures Valid()
      ensures !(device.Some? && device.value.name == Some(Config.BluetoothName(config))) ==> unchanged(this)
      ensures device.Some? && device.value.name == Some(Config.BluetoothName(config)) ==>
        && isScanning == (old(isScanning) && !scanGranted)
        && trace == old(trace) + StopScanCalls(hasScanner, old(isScanning), scanGranted, stopThrows)
                               + (if connectGranted && !connectThrows then [ConnectGatt(device.value.address, TransportLe)] else [])
        && bluetoothGatt == (if connectGranted && !connectThrows then returned else old(bluetoothGatt))
      ensures ledCharacteristic == old(ledCharacteristic) && pending == old(pending)
    {
      var targetDeviceName := Config.BluetoothName(config);
      if device.Some? && device.value.name == Some(targetDeviceName) {
        StopBleScan(scanGranted, stopThrows);
        if !connectGranted {
          return;
        }
        if !connectThrows {
          trace := trace + [ConnectGatt(device.value.address, TransportLe)];
          bluetoothGatt := returned;
        }
      }
    }

    /**
     * gattCallback.onConnectionStateChange: with connect permission, "connected"
     * stores the handle and starts service discovery; "disconnected" closes and
     * forgets the handle and the characteristic and posts a reconnect in 5 s.
     */
    method OnConnectionStateChange(gatt: GattHandle, newState: int, connectGranted: bool)
      requires Valid()
      modifies this
      ensures Valid()
      ensures !connectGranted || (newState != StateConnected && newState != StateDisconnected) ==> unchanged(this)
      ensures connectGranted && newState == StateConnected ==>
        && bluetoothGatt == Some(gatt)
        && trace == old(trace) + [DiscoverServices(gatt)]
        && ledCharacteristic == old(ledCharacteristic) && pending == old(pending)
      ensures connectGranted && newState == StateDisconnected ==>
        && bluetoothGatt == None && ledCharacteristic == None
        && trace == old(trace) + CloseCalls(old(bluetoothGatt))
        && pending == old(pending) + [Reconnect]
      ensures isScanning == old(isScanning)
    {
      if !connectGranted {
        return;
      }
      if newState == StateConnected {
        bluetoothGatt := Some(gatt);
        trace := trace + [DiscoverServices(gatt)];
      } else if newState == StateDisconnected {
        trace := trace + CloseCalls(bluetoothGatt);
        bluetoothGatt := None;
        ledCharacteristic := None;
        pending := pending + [Reconnect];
      }
    }

    /** gattCallback.onServicesDiscovered: on success, cache the LED characteristic or null; otherwise keep it. */
    method OnServicesDiscovered(status: int, database: Database)
      requires Valid()
      modifies this
      ensures Valid()
      ensures ledCharacteristic == if status == GattSuccess then LookupLed(database) else old(ledCharacteristic)
      ensures isScanning == old(isScanning) && bluetoothGatt == old(bluetoothGatt)
      ensures pending == old(pending) && trace == old(trace)
    {
      if status == GattSuccess {
        ledCharacteristic := LookupLed(database);
      }
    }

    /** disconnectBle: with connect permission, disconnect and close the handle and forget both handles. */
    method DisconnectBle(connectGranted: bool)
      requires Valid()
      modifies this
      ensures Valid()
      ensures !connectGranted ==> unchanged(this)
      ensures connectGranted ==>
        && bluetoothGatt == None && ledCharacteristic == None
        && trace == old(trace) + TeardownCalls(old(bluetoothGatt))
      ensures isScanning == old(isScanning) && pending == old(pending)
    {
      if !connectGranted {
        return;
      }
      trace := trace + TeardownCalls(bluetoothGatt);
      bluetoothGatt := None;
      ledCharacteristic := None;
    }

    /**
     * sendLampCommand: with connect permission and a cached characteristic, stage
     * the one-byte command on it, and write it when a handle is held.
     */
    method SendLampCommand(isOn: bool, connectGranted: bool)
      requires Valid()
      modifies this
      ensures Valid()
      ensures !connectGranted ==> unchanged(this)
      ensures trace == old(trace) +
        if connectGranted && old(ledCharacteristic).Some? && old(bluetoothGatt).Some?
        then [WriteCharacteristic(old(bluetoothGatt).value, LedUuid, LampPayload(isOn))]
        else []
      ensures ledCharacteristic ==
        if connectGranted && old(ledCharacteristic).Some?
        then Some(old(ledCharacteristic).value.(value := LampPayload(isOn)))
        else old(ledCharacteristic)
      ensures isScanning == old(isScanning) && bluetoothGatt == old(bluetoothGatt) && pending == old(pending)
    {
      if !connectGranted {
        return;
      }
      var value := LampPayload(isOn);
      if ledCharacteristic.Some? {
        var characteristic := ledCharacteristic.value.(value := value);
        ledCharacteristic := Some(characteristic);
        if bluetoothGatt.Some? {
          LampPayloadRoundTrip(isOn);
          trace := trace + [WriteCharacteristic(bluetoothGatt.value, characteristic.uuid, value)];
        }
      }
    }

    /**
     * The main looper runs the posted runnable at index i: the scan timeout runs
     * stopBleScan, the reconnect runs connectBle.
     */
    method RunTimer(i: nat, adapterEnabled: bool, scanGranted: bool, startThrows: bool, stopThrows: bool)
      requires Valid() && i < |pending|
      modifies this
      ensures Valid()
      ensures old(pending[i]) == ScanTimeout ==>
        && isScanning == (old(isScanning) && !scanGranted)
        && pending == RemoveAt(old(pending), i)
        && trace == old(trace) + StopScanCalls(hasScanner, old(isScanning), scanGranted, stopThrows)
      ensures old(pending[i]) == Reconnect ==>
        var started := ScanStarts(hasScanner, old(isScanning), adapterEnabled, scanGranted, startThrows);
        && isScanning == (old(isScanning) || started)
        && pending == RemoveAt(old(pending), i) + (if started then [ScanTimeout] else [])
        && trace == old(trace) + (if started && hasScanner then [StartScan] else [])
      ensures bluetoothGatt == old(bluetoothGatt) && ledCharacteristic == old(ledCharacteristic)
    {
      var timer := pending[i];
      pending := RemoveAt(pending, i);
      match timer.action
      case StopScanAction =>
        StopBleScan(scanGranted, stopThrows);
      case ReconnectAction =>
        ConnectBle(adapterEnabled, scanGranted, startThrows);
    }
  }

  /**
   * A disconnection event followed by a lamp command: the characteristic is gone,
   * so no write reaches the radio, and a reconnect is waiting.
   */
  method SendAfterDrop(m: BluetoothManager, gatt: GattHandle, isOn: bool)
    requires m.Valid()
    modifies m
    ensures m.Valid()
    ensures m.ledCharacteristic == None && m.bluetoothGatt == None
    ensures m.trace == old(m.trace) + CloseCalls(old(m.bluetoothGatt))
    ensures m.pending == old(m.pending) + [Reconnect]
  {
    m.OnConnectionStateChange(gatt, StateDisconnected, true);
    m.SendLampCommand(isOn, true);
  }

  /**
   * A disconnection event followed by its reconnect timer firing: when no scan
   * is running and the adapter, permission and startScan allow it, scanning
   * starts again with a fresh timeout.
   */
  method ReconnectAfterDrop(m: BluetoothManager, gatt: GattHandle, adapterEnabled: bool, scanGranted: bool, startThrows: bool)
    requires m.Valid()
    modifies m
    ensures m.Valid()
    ensures var started := ScanStarts(m.hasScanner, old(m.isScanning), adapterEnabled, scanGranted, startThrows);
      && m.isScanning == (old(m.isScanning) || started)
      && m.pending == old(m.pending) + (if started then [ScanTimeout] else [])
      && m.trace == old(m.trace) + CloseCalls(old(m.bluetoothGatt)) + (if started && m.hasScanner then [StartScan] else [])
  {
    m.OnConnectionStateChange(gatt, StateDisconnected, true);
    m.RunTimer(|m.pending| - 1, adapterEnabled, scanGranted, startThrows, false);
  }
}
