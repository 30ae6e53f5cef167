# MQTT sensor app: device lists, add-device form and telemetry status

A Dafny model of the decision and list-update logic of the MQTT sensor
Android app. The app shows live sensor readings received over MQTT and
keeps two lists of monitoring devices: a local list persisted in shared
preferences, and a remote list held by `DeviceViewModel` and loaded from a
REST backend.

Modules, one per component of the app:

- `Devices` (devices.dfy): the `MonitoringDevice` record and the two list
  edits, `add` (append) and `remove(element)` (drop the first equal record).
- `Preferences` (preferences.dfy): the `devices_prefs` file as a map from key
  to device list; save and load of the `devices_list` entry.
- `DeviceForm` (device_form.dfy): the add-device validation, Kotlin's
  `isBlank`, and the form's fields and error message as a class.
- `Telemetry` (telemetry.dfy): status strings, display units, and the
  projection of one MQTT payload onto the four readings.
- `Activity` (main_activity.dfy): `MainActivity`'s state as a class: the
  local list and its stored copy, the add-form flag, the connection status,
  the subscription, and the four displays. It also holds the callbacks that
  change this state.
- `ViewModel` (device_view_model.dfy): `DeviceViewModel` as a class whose
  load and add steps are driven by a given response outcome.
- `Wrappers` (wrappers.dfy): `Option`, used for Kotlin's nullable values.

Outside inputs are parameters:

- whether Kotlin's `toFloat` accepts a string (`parsesAsFloat`);
- the outcome of each MQTT connect and subscribe (`Outcome`);
- the parsed payload (`Option<JsonObject>`);
- the HTTP response (`Response`).

Both Kotlin `MonitoringDevice` classes are modelled by one datatype. One is
nested in `MainActivity`, the other is in the network package. Both have the
same two string fields and the same structural equality.

The validation checks run in this order in the code: blank id, then blank
name, then a non-numeric id. The model keeps that order. So for id `"abc"` and a blank name, the form shows
"Device Name is required.".

## Model

| member | source | states |
|---|---|---|
| `Devices.RemoveFirst` | Mobile/app/src/main/java/com/example/mqttsensorapp/MainActivity.kt:63-64 | deleting a device leaves the list unchanged when no record is equal to it, and makes it exactly one shorter when one is |
| `Devices.RemoveFirstContents` | Mobile/app/src/main/java/com/example/mqttsensorapp/MainActivity.kt:64 | deletion takes exactly one copy of the device out of the list's contents (multiset minus one) and nothing else |
| `Devices.RemoveFirstAt` | Mobile/app/src/main/java/com/example/mqttsensorapp/MainActivity.kt:64 | when position k holds the first equal record, deletion removes position k and keeps everything before and after it in order |
| `Devices.FirstIndex` | Mobile/app/src/main/java/com/example/mqttsensorapp/MainActivity.kt:27-30 | locates the first record equal in both id and name: it matches, and no earlier record does |
| `Devices.RemoveFirstSplices` | Mobile/app/src/main/java/com/example/mqttsensorapp/MainActivity.kt:64 | deletion cuts out only the first equal record; the records before and after it keep their order |
| `Devices.RemoveFirstDropsOneCopy` | Mobile/app/src/main/java/com/example/mqttsensorapp/MainActivity.kt:64 | other duplicates survive a delete: the count of that device drops by exactly one |
| `Devices.AddThenDeleteRestores` | Mobile/app/src/main/java/com/example/mqttsensorapp/MainActivity.kt:111-116 | adding a device not yet listed and then deleting it gives back the original list |
| `Devices.AddThenDeleteSameContents` | Mobile/app/src/main/java/com/example/mqttsensorapp/MainActivity.kt:111-116 | add then delete of the same device always restores the list's contents as a multiset, duplicates included |
| `Devices.AddThenDeleteMovesCopy` | Mobile/app/src/main/java/com/example/mqttsensorapp/MainActivity.kt:111-116 | with a copy already listed, add then delete removes the earlier copy and keeps the new one at the end |
| `Preferences.LoadDevices` | Mobile/app/src/main/java/com/example/mqttsensorapp/MainActivity.kt:339-348 | loading with no stored entry yields the empty list; otherwise it yields the stored list |
| `Preferences.SaveDevices` | Mobile/app/src/main/java/com/example/mqttsensorapp/MainActivity.kt:331-337 | a save is read back exactly by a load; it only adds or overwrites the `devices_list` entry |
| `Preferences.SaveOverwrites` | Mobile/app/src/main/java/com/example/mqttsensorapp/MainActivity.kt:335 | a later save fully replaces an earlier one |
| `Preferences.SaveLoadedIsIdempotent` | Mobile/app/src/main/java/com/example/mqttsensorapp/MainActivity.kt:331-348 | saving the loaded list and loading again yields the same ordered list, and leaves an existing store unchanged |
| `DeviceForm.Validate` | Mobile/app/src/main/java/com/example/mqttsensorapp/MainActivity.kt:252-266 | accepts exactly when id and name are non-blank and the id parses as a float, and then passes the untrimmed strings; each error message holds exactly under its own priority condition |
| `DeviceForm.NameCheckedBeforeNumber` | Mobile/app/src/main/java/com/example/mqttsensorapp/MainActivity.kt:254-262 | for id "abc", a blank name is reported before the non-numeric id; with a name, the id error is reported |
| `DeviceForm.ExampleInputs` | Mobile/app/src/main/java/com/example/mqttsensorapp/MainActivity.kt:252-265 | an empty or whitespace-only id is refused whatever the name; "3.5" with "Living Room" is accepted; a numeric id with a leading space is passed on untrimmed |
| `DeviceForm.AddDeviceForm.constructor` | Mobile/app/src/main/java/com/example/mqttsensorapp/MainActivity.kt:202-204 | the form starts with empty fields and no error |
| `DeviceForm.AddDeviceForm.OnIdChange` | Mobile/app/src/main/java/com/example/mqttsensorapp/MainActivity.kt:213-218 | editing the id replaces it, keeps the name and clears the error message |
| `DeviceForm.AddDeviceForm.OnNameChange` | Mobile/app/src/main/java/com/example/mqttsensorapp/MainActivity.kt:225-230 | editing the name replaces it, keeps the id and clears the error message |
| `DeviceForm.AddDeviceForm.OnAddClick` | Mobile/app/src/main/java/com/example/mqttsensorapp/MainActivity.kt:252-266 | `onAddDevice` is called exactly once, with the device from the fields, when they are accepted, and not at all otherwise; a rejection shows its message; a shown error always matches the current fields |
| `Telemetry.Project` | Mobile/app/src/main/java/com/example/mqttsensorapp/MainActivity.kt:184-189 | a payload yields a reading exactly when it is an object with all four fields numeric; the reading carries those four values unchanged |
| `Telemetry.ExtraMembersIgnored` | Mobile/app/src/main/java/com/example/mqttsensorapp/MainActivity.kt:185-189 | payload members other than the four fields never affect the projection |
| `Activity.MainActivity.constructor` | Mobile/app/src/main/java/com/example/mqttsensorapp/MainActivity.kt:41-52 | the status starts as "Disconnected", the displays as "--" with their units, and the list as the stored one (empty when nothing is stored) |
| `Activity.MainActivity.OnAddDevice` | Mobile/app/src/main/java/com/example/mqttsensorapp/MainActivity.kt:111-116 | appends exactly one record at the end, earlier records unchanged; one write stores the whole new list; the form closes |
| `Activity.MainActivity.OnDeleteDevice` | Mobile/app/src/main/java/com/example/mqttsensorapp/MainActivity.kt:63-66 | the list loses its first equal record (or stays as it is); one write stores the whole new list |
| `Activity.MainActivity.SaveToPreferences` | Mobile/app/src/main/java/com/example/mqttsensorapp/MainActivity.kt:331-337 | one write that makes the stored list equal the list on screen |
| `Activity.MainActivity.ClickAdd` | Mobile/app/src/main/java/com/example/mqttsensorapp/MainActivity.kt:110-116 | pressing "Add" grows the list by the form's device, with one write, exactly when the form accepts it, the store then holding the new list with every other entry kept; otherwise list, store and form flag are untouched and the error is shown |
| `Activity.MainActivity.ConnectToMqtt` | Mobile/app/src/main/java/com/example/mqttsensorapp/MainActivity.kt:141-154 | the status becomes "Connected" or "Connection Failed" from the outcome; a subscription is requested only after a successful connect |
| `Activity.MainActivity.SubscribeToTopic` | Mobile/app/src/main/java/com/example/mqttsensorapp/MainActivity.kt:163-174 | the payload handler is registered only when the subscription succeeds |
| `Activity.MainActivity.ParsePayload` | Mobile/app/src/main/java/com/example/mqttsensorapp/MainActivity.kt:177-198 | all-or-nothing: either all four displays show the new values with their units, or none changes |
| `ViewModel.ErrorReport` | Mobile/app/src/main/java/com/example/mqttsensorapp/ViewModel/DeviceViewModel.kt:25-32 | a message is reported exactly on failure; it is non-empty, starts with the prefix for its kind of failure, and carries the failure's detail after it |
| `ViewModel.LoadErrorsArePrefixed` | Mobile/app/src/main/java/com/example/mqttsensorapp/ViewModel/DeviceViewModel.kt:26-31 | every load error starts with "Failed to load devices: ", "HTTP Error: " or "Unexpected Error: " |
| `ViewModel.AddErrorsArePrefixed` | Mobile/app/src/main/java/com/example/mqttsensorapp/ViewModel/DeviceViewModel.kt:45-50 | every add error starts with "Failed to add device: ", "HTTP Error: " or "Unexpected Error: " |
| `ViewModel.DeviceViewModel.constructor` | Mobile/app/src/main/java/com/example/mqttsensorapp/ViewModel/DeviceViewModel.kt:15 | the remote list starts empty |
| `ViewModel.DeviceViewModel.LoadDevices` | Mobile/app/src/main/java/com/example/mqttsensorapp/ViewModel/DeviceViewModel.kt:18-34 | success replaces the list with the body, or with the empty list for a null body; failure leaves the list unchanged and reports through `onError` |
| `ViewModel.DeviceViewModel.AddDevice` | Mobile/app/src/main/java/com/example/mqttsensorapp/ViewModel/DeviceViewModel.kt:37-53 | success appends exactly the given device, with no deduplication, then calls `onSuccess`; failure leaves the list unchanged and calls only `onError` |

## Left out

- MQTT client construction, TLS, host, port, credentials and the QoS level are not modelled. These are calls into the HiveMQ client. Connect and subscribe completions are given outcomes.
- Delivery of publishes to the handler is not modelled. `listening` records that a handler is registered, and `ParsePayload` is the step each delivery runs. The UTF-8 decoding of the payload bytes is left out as well.
- A second connect replaces the client without closing the first one. The model keeps no client objects, so this leak is not represented.
- Gson parsing and `asDouble` are not modelled. A payload is abstracted as "not an object" or a map of members, each of which `asDouble` either accepts or rejects. The printing of doubles into display text is also abstracted: a numeric member carries its printed text.
- Kotlin `toFloat`'s grammar is not modelled. It is Java's float parser and enters as the `parsesAsFloat` function.
- `isBlank` uses the JVM whitespace table as a fixed set of characters. U+180E is not in it, as in current Unicode. Characters are Unicode scalar values, not UTF-16 code units; every whitespace character is in the basic plane, so this makes no difference.
- SharedPreferences I/O and the asynchronous `apply()` are not modelled. The store is a map that changes at once.
- Gson (de)serialisation of the stored list is not modelled. An entry holds the list itself.
- The uncaught failure when a stored entry cannot be deserialised is not modelled. The code does not say what should happen then.
- Compose layout and rendering are not modelled. This includes the navigation flags set by "View Devices", "Back", "Add Monitoring Device" and "Cancel". Only the form's closing after an add is kept.
- ViewModel.DeviceViewModel.AddDevice: assumes `onSuccess` and `onError` return normally. In the code the callbacks run inside the same `try` as the request: if `onSuccess` throws, the device stays appended and `onError` is called as well; if `onError` throws, `onError` is called a second time. These extra calls are not modelled.
- ViewModel.DeviceViewModel.LoadDevices: assumes `onError` returns normally. If it throws, the code's outer `catch` calls `onError` a second time; that extra call is not modelled.
- Coroutine launching on `Dispatchers.IO` is not modelled. Each view-model call is one sequential step with a given response.
- Thread confinement of UI state is not modelled.
- `RetrofitClient` (base URL, basic-auth interceptor) and `ApiService` (endpoint declarations) are not modelled. They hold configuration only.
- The Gradle build files are not modelled.
