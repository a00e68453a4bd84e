/**
 * BluetoothHelper: the lamp link the camera screen uses. It looks only for a
 * device advertising the fixed name "ESP32", ignores the handle connectGatt
 * returns (the handle is stored on the "connected" event), keeps the cached
 * characteristic across a disconnection event, and never reconnects by itself.
 *
 * Platform facts are parameters, as for BluetoothManager.
 */
module BleHelper {
  import opened Wrappers
  import opened Gatt

  /** The only device name this class connects to. */
  const LampName := "ESP32"

  class BluetoothHelper {
    /** Whether `bluetoothAdapter?.bluetoothLeScanner` was non-null at construction. */
    const hasScanner: bool

    var isScanning: bool
    var bluetoothGatt: Option<GattHandle>
    var ledCharacteristic: Option<Characteristic>
    /** Runnables posted to the main-looper handler that have not fired yet. */
    var pending: seq<Timer>
    /** Radio calls made so far. */
    ghost var trace: seq<Call>

    /** Only the scan timeout is ever posted (no reconnect); only the LED characteristic is cached; only lamp commands are written. */
    ghost predicate Valid()
      reads this
    {
      && (forall t :: t in pending ==> t == ScanTimeout)
      && (ledCharacteristic.Some? ==> ledCharacteristic.value.uuid == LedUuid)
      && LampWritesOnly(trace)
    }

    constructor (hasScanner: bool)
      ensures Valid() && this.hasScanner == hasScanner
      ensures !isScanning && bluetoothGatt == None && ledCharacteristic == None
      ensures pending == [] && trace == []
    {
      this.hasScanner := hasScanner;
      isScanning := false;
      bluetoothGatt := None;
      ledCharacteristic := None;
      pending := [];
      trace := [];
    }

    /** connectBle: start a scan unless one is running or the adapter is off, and arm the 10 s timeout. */
    method ConnectBle(adapterEnabled: bool, scanGranted: bool, startThrows: bool)
      requires Valid()
      modifies this
      ensures Valid()
      ensures old(isScanning) || !adapterEnabled || !scanGranted ==> unchanged(this)
      ensures var started := ScanStarts(hasScanner, old(isScanning), adapterEnabled, scanGranted, startThrows);
        && isScanning == (old(isScanning) || started)
        && pending == old(pending) + (if started then [ScanTimeout] else [])
        && trace == old(trace) + (if started && hasScanner then [StartScan] else [])
      ensures bluetoothGatt == old(bluetoothGatt) && ledCharacteristic == old(ledCharacteristic)
    {
      if !isScanning && adapterEnabled {
        if !scanGranted {
          return;
        }
        if hasScanner {
          if startThrows {
            return;
          }
          trace := trace + [StartScan];
        }
        isScanning := true;
        pending := pending + [ScanTimeout];
      }
    }

    /** stopBleScan: a no-op unless scanning; with permission it clears isScanning even if stopScan throws. */
    method StopBleScan(scanGranted: bool, stopThrows: bool)
      requires Valid()
      modifies this
      ensures Valid()
      ensures !old(isScanning) ==> unchanged(this)
      ensures isScanning == (old(isScanning) && !scanGranted)
      ensures trace == old(trace) + StopScanCalls(hasScanner, old(isScanning), scanGranted, stopThrows)
      ensures bluetoothGatt == old(bluetoothGatt) && ledCharacteristic == old(ledCharacteristic)
      ensures pending == old(pending)
    {
      if isScanning {
        if !scanGranted {
          return;
        }
        if hasScanner && !stopThrows {
          trace := trace + [StopScan];
        }
        isScanning := false;
      }
    }

    /**
     * scanCallback.onScanResult: a device named exactly "ESP32" stops the scan and
     * then, with connect permission, starts a connection whose handle is dropped.
     */
    method OnScanResult(device: Option<Device>, scanGranted: bool, stopThrows: bool,
                        connectGranted: bool, connectThrows: bool)
      requires Valid()
      modifies this
      ensures Valid()
      ensures !(device.Some? && device.value.name == Some("ESP32")) ==> unchanged(this)
      ensures device.Some? && device.value.name == Some("ESP32") ==>
        && isScanning == (old(isScanning) && !scanGranted)
        && trace == old(trace) + StopScanCalls(hasScanner, old(isScanning), scanGranted, stopThrows)
                               + (if connectGranted && !connectThrows then [ConnectGatt(device.value.address, TransportAuto)] else [])
      ensures bluetoothGatt == old(bluetoothGatt)
      ensures ledCharacteristic == old(ledCharacteristic) && pending == old(pending)
    {
      if device.Some? && device.value.name == Some(LampName) {
        StopBleScan(scanGranted, stopThrows);
        if !connectGranted {
          return;
        }
        if !connectThrows {
          trace := trace + [ConnectGatt(device.value.address, TransportAuto)];
        }
      }
    }

    /**
     * gattCallback.onConnectionStateChange: with connect permission, "connected"
     * stores the handle and starts service discovery; "disconnected" closes and
     * forgets the handle only.
     */
    method OnConnectionStateChange(gatt: GattHandle, newState: int, connectGranted: bool)
      requires Valid()
      modifies this
      ensures Valid()
      ensures !connectGranted || (newState != StateConnected && newState != StateDisconnected) ==> unchanged(this)
      ensures connectGranted && newState == StateConnected ==>
        && bluetoothGatt == Some(gatt)
        && trace == old(trace) + [DiscoverServices(gatt)]
      ensures connectGranted && newState == StateDisconnected ==>
        && bluetoothGatt == None
        && trace == old(trace) + CloseCalls(old(bluetoothGatt))
      ensures isScanning == old(isScanning) && ledCharacteristic == old(ledCharacteristic) && pending == old(pending)
    {
      if !connectGranted {
        return;
      }
      if newState == StateConnected {
        bluetoothGatt := Some(gatt);
        trace := trace + [DiscoverServices(gatt)];
      } else if newState == StateDisconnected {
        trace := trace + CloseCalls(bluetoothGatt);
        bluetoothGatt := None;
      }
    }

    /** gattCallback.onServicesDiscovered: on success, cache the LED characteristic or null; otherwise keep it. */
    method OnServicesDiscovered(status: int, database: Database)
      requires Valid()
      modifies this
      ensures Valid()
      ensures ledCharacteristic == if status == GattSuccess then LookupLed(database) else old(ledCharacteristic)
      ensures isScanning == old(isScanning) && bluetoothGatt == old(bluetoothGatt)
      ensures pending == old(pending) && trace == old(trace)
    {
      if status == GattSuccess {
        ledCharacteristic := LookupLed(database);
      }
    }

    /** disconnectBle: with connect permission, disconnect and close the handle and forget both handles. */
    method DisconnectBle(connectGranted: bool)
      requires Valid()
      modifies this
      ensures Valid()
      ensures !connectGranted ==> unchanged(this)
      ensures connectGranted ==>
        && bluetoothGatt == None && ledCharacteristic == None
        && trace == old(trace) + TeardownCalls(old(bluetoothGatt))
      ensures isScanning == old(isScanning) && pending == old(pending)
    {
      if !connectGranted {
        return;
      }
      trace := trace + TeardownCalls(bluetoothGatt);
      bluetoothGatt := None;
      ledCharacteristic := None;
    }

    /**
     * sendLampCommand: with connect permission and a cached characteristic, stage
     * the one-byte command on it, and write it when a handle is held.
     */
    method SendLampCommand(isOn: bool, connectGranted: bool)
      requires Valid()
      modifies this
      ensures Valid()
      ensures !connectGranted ==> unchanged(this)
      ensures trace == old(trace) +
        if connectGranted && old(ledCharacteristic).Some? && old(bluetoothGatt).Some?
        then [WriteCharacteristic(old(bluetoothGatt).value, LedUuid, LampPayload(isOn))]
        else []
      ensures ledCharacteristic ==
        if connectGranted && old(ledCharacteristic).Some?
        then Some(old(ledCharacteristic).value.(value := LampPayload(isOn)))
        else old(ledCharacteristic)
      ensures isScanning == old(isScanning) && bluetoothGatt == old(bluetoothGatt) && pending == old(pending)
    {
      if !connectGranted {
        return;
      }
      var value := LampPayload(isOn);
      if ledCharacteristic.Some? {
        var characteristic := ledCharacteristic.value.(value := value);
        ledCharacteristic := Some(characteristic);
        if bluetoothGatt.Some? {
          LampPayloadRoundTrip(isOn);
          trace := trace + [WriteCharacteristic(bluetoothGatt.value, characteristic.uuid, value)];
        }
      }
    }

    /** The main looper runs the posted runnable at index i, always the scan timeout: stopBleScan. */
    method RunTimer(i: nat, scanGranted: bool, stopThrows: bool)
      requires Valid() && i < |pending|
      modifies this
      ensures Valid()
      ensures isScanning == (old(isScanning) && !scanGranted)
      ensures pending == RemoveAt(old(pending), i)
      ensures trace == old(trace) + StopScanCalls(hasScanner, old(isScanning), scanGranted, stopThrows)
      ensures bluetoothGatt == old(bluetoothGatt) && ledCharacteristic == old(ledCharacteristic)
    {
      pending := RemoveAt(pending, i);
      StopBleScan(scanGranted, stopThrows);
    }
  }

  /**
   * A disconnection event followed by a lamp command: the characteristic stays
   * cached (and takes the staged value), but with no handle no write reaches the
   * radio, and nothing is scheduled to reconnect.
   */
  method SendAfterDrop(h: BluetoothHelper, gatt: GattHandle, isOn: bool)
    requires h.Valid()
    modifies h
    ensures h.Valid()
    ensures h.bluetoothGatt == None
    ensures h.ledCharacteristic.Some? == old(h.ledCharacteristic).Some?
    ensures h.trace == old(h.trace) + CloseCalls(old(h.bluetoothGatt))
    ensures h.pending == old(h.pending)
  {
    h.OnConnectionStateChange(gatt, StateDisconnected, true);
    h.SendLampCommand(isOn, true);
  }

  /**
   * Why the kept characteristic matters: after a drop and a new "connected"
   * event, a lamp command is written through the new handle with the
   * characteristic found on the old connection, before the new connection's
   * service discovery has reported anything.
   */
  method WriteBeforeRediscovery(h: BluetoothHelper, first: GattHandle, second: GattHandle, database: Database)
    requires h.Valid() && LookupLed(database).Some?
    modifies h
    ensures h.Valid()
    ensures h.bluetoothGatt == Some(second)
    ensures h.trace == old(h.trace) + [DiscoverServices(first)] + [Close(first)] + [DiscoverServices(second)]
                       + [WriteCharacteristic(second, LedUuid, [0x01])]
  {
    h.OnConnectionStateChange(first, StateConnected, true);
    h.OnServicesDiscovered(GattSuccess, database);
    h.OnConnectionStateChange(first, StateDisconnected, true);
    h.OnConnectionStateChange(second, StateConnected, true);
    h.SendLampCommand(true, true);
  }

  /** stopBleScan twice in a row: the second call finds nothing to stop and changes nothing. */
  method StopTwice(h: BluetoothHelper, scanGranted: bool, stopThrows: bool)
    requires h.Valid()
    modifies h
    ensures h.Valid()
    ensures h.isScanning == (old(h.isScanning) && !scanGranted)
    ensures h.trace == old(h.trace) + StopScanCalls(h.hasScanner, old(h.isScanning), scanGranted, stopThrows)
    ensures h.bluetoothGatt == old(h.bluetoothGatt) && h.ledCharacteristic == old(h.ledCharacteristic)
    ensures h.pending == old(h.pending)
  {
    h.StopBleScan(scanGranted, stopThrows);
    h.StopBleScan(scanGranted, stopThrows);
  }
}
