# EpiCam-2 lamp link and settings, modelled in Dafny

EpiCam-2 is a selfie-camera Android app. During a photo countdown it switches an
ESP32 lamp on over Bluetooth Low Energy, and afterwards it switches the lamp off.
This project models the app's lamp link and its small settings store.

The lamp link exists in two near-duplicate classes, and both are modelled:

- `BleManager.BluetoothManager` looks for the device named by the configured
  `BLUETOOTH_NAME`. It keeps the handle that `connectGatt` returns. After every
  disconnection event it posts a reconnect that runs 5 seconds later.
- `BleHelper.BluetoothHelper` is the class the camera screen actually uses. It
  looks only for `"ESP32"` and drops the handle that `connectGatt` returns. A
  disconnection event closes the handle but keeps the cached LED characteristic,
  and nothing reconnects by itself.

Each class is a Dafny `class` with the source's three mutable fields: `isScanning`,
`bluetoothGatt` and `ledCharacteristic`. Two more fields stand in for the platform:

- `pending` holds the runnables posted with `handler.postDelayed`;
- the ghost field `trace` logs every radio call that took effect (start/stop scan,
  connect, discover, disconnect, close, write).

The platform's facts at the moment of a call are method parameters: the
BLUETOOTH_SCAN and BLUETOOTH_CONNECT permission checks, whether the adapter is
enabled, and whether a platform call threw `SecurityException`. Whether the LE
scanner existed when the object was built is the constant `hasScanner`. When it is
false, `bleScanner?.startScan` does nothing, yet `isScanning` is still set. Radio
callbacks are methods that the platform calls. `RunTimer(i)` stands for the main
looper running the pending runnable at index `i`.

Each class's `Valid()` invariant says three things, and every method preserves it:

- only the 10 s scan timeout and (Manager only) the 5 s reconnect are ever posted;
- only the LED characteristic is ever cached;
- every write carries a one-byte lamp command.

The settings side (`Config`) works on a `map<string,string>` store:

- `getBluetoothName` and `getEpicamId` read with defaults;
- `toIntOrNull` is modelled digit by digit with its overflow cut-off, and is proved
  equal to a reference reading of decimal literals in the 32-bit Int range;
- the PIN dialog accepts exactly the stored PIN;
- the settings dialog shows the stored values (or the defaults), and saving writes
  exactly the three keys.

## Model

| member | source | states |
|---|---|---|
| BleManager.BluetoothManager.constructor | app/src/main/java/com/example/epicam2/BluetoothManager.kt:16-25 | A new manager is not scanning and has no handle, no characteristic, no pending runnable and no radio call. |
| BleManager.BluetoothManager.ConnectBle | app/src/main/java/com/example/epicam2/BluetoothManager.kt:94-116 | Nothing changes while scanning, with the adapter off, or without scan permission. `isScanning` becomes true only when startScan does not throw, and only then is one 10000 ms stop timer posted. Handles are untouched. |
| BleManager.BluetoothManager.StopBleScan | app/src/main/java/com/example/epicam2/BluetoothManager.kt:119-134 | No-op when not scanning. With scan permission, `isScanning` is cleared even when stopScan throws. Without it, `isScanning` stays true. Nothing else changes. |
| BleManager.BluetoothManager.OnScanResult | app/src/main/java/com/example/epicam2/BluetoothManager.kt:29-51 | Only a device whose name equals the configured name read at that moment matches. A non-match changes nothing. A match runs stopBleScan first, then (with connect permission, if connectGatt does not throw) logs one LE connectGatt after the stop and stores the handle it returned. |
| BleManager.BluetoothManager.OnConnectionStateChange | app/src/main/java/com/example/epicam2/BluetoothManager.kt:56-74 | Without connect permission, or for a state other than connected/disconnected, nothing changes. Connected stores the handle and requests discovery. Disconnected closes the old handle, clears handle and characteristic, and posts a 5000 ms reconnect. |
| BleManager.BluetoothManager.OnServicesDiscovered | app/src/main/java/com/example/epicam2/BluetoothManager.kt:76-82 | On GATT_SUCCESS the characteristic becomes the LED characteristic of the lamp service, or null when either is absent. Any other status leaves it unchanged. |
| BleManager.BluetoothManager.DisconnectBle | app/src/main/java/com/example/epicam2/BluetoothManager.kt:137-148 | With connect permission: disconnect and close a held handle, then clear both handles. `isScanning` and pending runnables stay as they were. Without permission nothing changes. |
| BleManager.BluetoothManager.SendLampCommand | app/src/main/java/com/example/epicam2/BluetoothManager.kt:151-163 | At most one write. It happens exactly when permission is granted and both characteristic and handle are held. Its payload is [0x01] for on and [0x00] for off, and it goes to the LED characteristic through the held handle. Without permission nothing changes. |
| BleManager.BluetoothManager.RunTimer | app/src/main/java/com/example/epicam2/BluetoothManager.kt:110 | The fired runnable leaves the pending list. The scan timeout behaves as stopBleScan, and the reconnect posted at line 72 behaves as connectBle. |
| BleManager.SendAfterDrop | app/src/main/java/com/example/epicam2/BluetoothManager.kt:66-72 | A disconnection event followed by a lamp command: no write reaches the radio, characteristic and handle are null, and one reconnect is pending. |
| BleManager.ReconnectAfterDrop | app/src/main/java/com/example/epicam2/BluetoothManager.kt:72 | A disconnection event followed by its reconnect firing starts a new scan with a fresh timeout exactly when connectBle's guards allow. |
| BleHelper.BluetoothHelper.constructor | app/src/main/java/com/example/epicam2/BluetoothHelper.kt:16-25 | A new helper is not scanning and has no handle, no characteristic, no pending runnable and no radio call. |
| BleHelper.BluetoothHelper.ConnectBle | app/src/main/java/com/example/epicam2/BluetoothHelper.kt:87-107 | Same guard as the manager: a no-op while scanning, with the adapter off, or without permission. `isScanning` is set, and the stop timer posted, only after startScan does not throw. |
| BleHelper.BluetoothHelper.StopBleScan | app/src/main/java/com/example/epicam2/BluetoothHelper.kt:110-125 | A no-op when not scanning. It clears `isScanning` exactly when scan permission is present; idempotence is stated by `StopTwice`. |
| BleHelper.BluetoothHelper.OnScanResult | app/src/main/java/com/example/epicam2/BluetoothHelper.kt:29-47 | Only a device named exactly "ESP32" matches. A match stops the scan before connecting. The connectGatt result is discarded, so `bluetoothGatt` never changes here. |
| BleHelper.BluetoothHelper.OnConnectionStateChange | app/src/main/java/com/example/epicam2/BluetoothHelper.kt:52-67 | Connected stores the handle and requests discovery. Disconnected closes and clears the handle but keeps the characteristic and posts nothing. Without connect permission nothing changes. |
| BleHelper.BluetoothHelper.OnServicesDiscovered | app/src/main/java/com/example/epicam2/BluetoothHelper.kt:69-75 | On GATT_SUCCESS the characteristic becomes the LED characteristic or null. Any other status leaves it unchanged. |
| BleHelper.BluetoothHelper.DisconnectBle | app/src/main/java/com/example/epicam2/BluetoothHelper.kt:128-139 | With connect permission, both handles are cleared after disconnect and close. Without it nothing changes. |
| BleHelper.BluetoothHelper.SendLampCommand | app/src/main/java/com/example/epicam2/BluetoothHelper.kt:142-154 | Payload [0x01] for on and [0x00] for off. There is no write without connect permission, and a write happens only when characteristic and handle are both held. |
| BleHelper.BluetoothHelper.RunTimer | app/src/main/java/com/example/epicam2/BluetoothHelper.kt:101 | The only runnable ever pending is the scan timeout. Firing it behaves as stopBleScan. |
| BleHelper.SendAfterDrop | app/src/main/java/com/example/epicam2/BluetoothHelper.kt:62-66 | After a disconnection event a lamp command writes nothing, because the handle is null, although the characteristic is still cached. No reconnect is scheduled. |
| BleHelper.StopTwice | app/src/main/java/com/example/epicam2/BluetoothHelper.kt:110-125 | stopBleScan is idempotent: a second call with the same permission changes nothing and makes no radio call. |
| BleHelper.WriteBeforeRediscovery | app/src/main/java/com/example/epicam2/BluetoothHelper.kt:58-66 | Because the characteristic survives a drop, a command after the next connected event is written through the new handle before that connection's discovery has reported. |
| Gatt.LampPayload | app/src/main/java/com/example/epicam2/BluetoothManager.kt:157 | The command is exactly one byte: 0x01 if and only if on, 0x00 if and only if off. |
| Gatt.LampPayloadRoundTrip | app/src/main/java/com/example/epicam2/BluetoothManager.kt:157 | The lamp reads every payload the app sends as the requested on/off state. |
| Gatt.LookupLed | app/src/main/java/com/example/epicam2/BluetoothManager.kt:78-79 | A characteristic is found if and only if the lamp service is present and holds the LED characteristic, and what is found has the two fixed UUIDs. |
| Config.BluetoothName | app/src/main/java/com/example/epicam2/MenuSettingManager.kt:112-115 | The stored BLUETOOTH_NAME, or "ESP32" when the key is absent. |
| Config.Magnitude | app/src/main/java/com/example/epicam2/MenuSettingManager.kt:119 | The digit loop of toIntOrNull never yields a magnitude past its limit. |
| Config.ToIntOrNull | app/src/main/java/com/example/epicam2/MenuSettingManager.kt:119 | Any parsed value lies in the 32-bit Int range. |
| Config.MagnitudeMeaning | app/src/main/java/com/example/epicam2/MenuSettingManager.kt:119 | The stepwise overflow cut-off gives the value of the remaining digits exactly when they are all digits and their value fits the limit, and null otherwise. |
| Config.PrefixValueBound | app/src/main/java/com/example/epicam2/MenuSettingManager.kt:119 | A prefix of a digit string never denotes more than the whole, so an early cut-off never rejects a value that fits. |
| Config.ToIntOrNullMeaning | app/src/main/java/com/example/epicam2/MenuSettingManager.kt:119 | toIntOrNull returns the value of an optionally signed decimal literal when that value fits in an Int, and null for anything else. |
| Config.EpicamId | app/src/main/java/com/example/epicam2/MenuSettingManager.kt:117-120 | The id is always an Int-range value, and it is 1 whenever the stored text does not parse. |
| Config.EpicamIdParsed | app/src/main/java/com/example/epicam2/MenuSettingManager.kt:117-120 | A stored literal whose value fits in an Int is the id. |
| Config.EpicamIdFallback | app/src/main/java/com/example/epicam2/MenuSettingManager.kt:119 | A missing key, a non-literal, or a literal outside the Int range gives 1. |
| Config.EpicamIdOverflowExamples | app/src/main/java/com/example/epicam2/MenuSettingManager.kt:119 | "2147483648" overflows and gives 1, while "-2147483648" is read as Int.MIN_VALUE. |
| Config.EpicamIdMalformedExamples | app/src/main/java/com/example/epicam2/MenuSettingManager.kt:119 | "", "abc", "-" and a missing key give 1. |
| Config.EpicamIdPlusExample | app/src/main/java/com/example/epicam2/MenuSettingManager.kt:119 | A leading '+' is accepted: "+42" gives 42. |
| Config.EpicamIdRoundTrip | app/src/main/java/com/example/epicam2/MenuSettingManager.kt:117-120 | Storing the decimal text of any Int as EPICAM_ID makes getEpicamId return that Int. |
| Config.PinAccepted | app/src/main/java/com/example/epicam2/MenuSettingManager.kt:21-29 | onSuccess runs exactly when the entered text equals the stored PIN_CODE, or "1234" when none is stored. |
| Config.SettingsForm | app/src/main/java/com/example/epicam2/MenuSettingManager.kt:54-81 | The dialog shows the stored values, falling back to "ESP32", "1" and "1234". |
| Config.SavedSettingsReadBack | app/src/main/java/com/example/epicam2/MenuSettingManager.kt:96-100 | After saving, the store holds exactly the old keys plus the three. The name reader, the dialog and the PIN check see the entered texts, and every other key is unchanged. |
| Config.SaveUneditedForm | app/src/main/java/com/example/epicam2/MenuSettingManager.kt:54-100 | Saving the dialog unedited changes nothing that any reader observes (name, id, PIN, dialog). |
| Config.Preferences.PutString | app/src/main/java/com/example/epicam2/MenuSettingManager.kt:97 | One key takes the given string. |
| Config.Preferences.SaveSettings | app/src/main/java/com/example/epicam2/MenuSettingManager.kt:96-100 | The store becomes the old store with BLUETOOTH_NAME, EPICAM_ID and PIN_CODE set to the entered texts, and all other keys are unchanged. |

## Behaviour of the code worth knowing

- `disconnectBle` cancels no pending runnable, so a reconnect or scan timeout
  posted earlier still fires after a manual disconnect (`DisconnectBle` keeps
  `pending`).
- `onScanResult` does not check `isScanning`. Whether a second matching result
  arrives after the stop is up to the platform, so the model makes no claim about it.
- A discovery with a status other than GATT_SUCCESS keeps the cached
  characteristic.
- BluetoothHelper keeps its characteristic after a disconnection event.
  `WriteBeforeRediscovery` shows that a later command can then write through a new
  handle before that connection's discovery has reported.

## Left out

- Threads: every method and callback runs to completion before the next starts. The platform delivers the GATT callbacks (`onConnectionStateChange`, `onServicesDiscovered`) on a background thread, while `sendLampCommand`, `connectBle` and the posted runnables run on the main thread, and the fields are not synchronised. Interleavings inside a method are therefore not modelled, for example a write through a handle that a concurrent disconnection event has just closed.
- Time: timers carry their delay (10000 ms and 5000 ms), but no clock is modelled. `RunTimer` may fire any pending runnable, so it over-approximates the looper's ordering by due time.
- Logging calls and `onCharacteristicWrite`, which only logs.
- The boolean that `writeCharacteristic` returns. It is only logged, so the trace records that the write was issued, not whether the stack accepted it.
- The characteristic is a value. Staging its `value` is visible in `ledCharacteristic`, but the platform's own aliases of that object are not modelled.
- `discoverServices()`, `disconnect()`, `close()`, `writeCharacteristic` and the `device.name` getter are outside any try block in the source, so a SecurityException from them would crash the app. The model treats these calls as never throwing.
- Config.ToIntOrNull: accepts only the ASCII digits 0-9. The JVM digit lookup behind Kotlin's `toIntOrNull` also accepts other Unicode decimal digits.
- SharedPreferences persistence and the asynchronous commit of `apply()`: the store is an in-memory map updated at once. Stored values of other types, which would make `getString` throw, cannot occur in a `map<string,string>`.
- The dialogs' UI: layout, hints, Toast messages, the cancel buttons and the `dialog.dismiss()` call.
- MainActivity.kt is not part of this model: camera binding, capture, animations, the countdown runnable, permission requests and the unused classic-Bluetooth socket fields.
