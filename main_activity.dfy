/**
 * The state `MainActivity` keeps for its screens and the callbacks that
 * change it: the local device list and its persisted copy, the add-form
 * flag, the MQTT connection status, and the four telemetry displays.
 * Each asynchronous completion is one sequential step whose outcome is given.
 */
module Activity {
  import opened Wrappers
  import opened Devices
  import opened Preferences
  import opened DeviceForm
  import opened Telemetry

  class MainActivity {
    /** The `mutableStateListOf` shown by the device list screen. */
    var devices: seq<MonitoringDevice>
    /** The `devices_prefs` preferences file. */
    var store: Store
    /** Number of writes made to the `devices_list` entry. */
    var writes: nat
    var showAddDeviceForm: bool

    var connectionStatus: string
    var temperature: string
    var humidity: string
    var pressure: string
    var luminosity: string
    /** Number of subscriptions to the sensor topic requested. */
    var subscribeRequests: nat
    /** Whether a publish handler that feeds `ParsePayload` is registered. */
    var listening: bool

    /** The stored list is always the list on screen. */
    ghost predicate Valid()
      reads this
    {
      LoadDevices(store) == devices
    }

    /** `onCreate`: the list is loaded from the preferences; nothing is connected or read yet. */
    constructor (stored: Store)
      ensures Valid()
      ensures store == stored && devices == LoadDevices(stored) && writes == 0
      ensures DevicesKey !in stored ==> devices == []
      ensures !showAddDeviceForm
      ensures connectionStatus == Disconnected
      ensures temperature == NoValue + TemperatureUnit && humidity == NoValue + HumidityUnit
      ensures pressure == NoValue + PressureUnit && luminosity == NoValue + LuminosityUnit
      ensures subscribeRequests == 0 && !listening
    {
      store := stored;
      devices := [];
      devices := devices + LoadDevices(stored);
      writes := 0;
      showAddDeviceForm := false;
      connectionStatus := Disconnected;
      temperature := NoValue + TemperatureUnit;
      humidity := NoValue + HumidityUnit;
      pressure := NoValue + PressureUnit;
      luminosity := NoValue + LuminosityUnit;
      subscribeRequests := 0;
      listening := false;
    }

    /** The `onAddDevice` callback: append the device, save the whole list once, close the form. */
    method OnAddDevice(id: string, name: string)
      requires Valid()
      modifies this`devices, this`store, this`writes, this`showAddDeviceForm
      ensures Valid()
      ensures devices == old(devices) + [MonitoringDevice(id, name)]
      ensures store == SaveDevices(old(store), devices)
      ensures writes == old(writes) + 1
      ensures !showAddDeviceForm
    {
      var newDevice := MonitoringDevice(id, name);
      devices := devices + [newDevice];
      SaveToPreferences();
      showAddDeviceForm := false;
    }

    /** The `onDeleteDevice` callback: remove the first equal device (if any), then save the whole list once. */
    method OnDeleteDevice(device: MonitoringDevice)
      requires Valid()
      modifies this`devices, this`store, this`writes
      ensures Valid()
      ensures devices == RemoveFirst(old(devices), device)
      ensures store == SaveDevices(old(store), devices)
      ensures writes == old(writes) + 1
    {
      devices := RemoveFirst(devices, device);
      SaveToPreferences();
    }

    /** `saveDevicesToPreferences(this, devices)`: one full overwrite of the stored list. */
    method SaveToPreferences()
      modifies this`store, this`writes
      ensures Valid()
      ensures store == SaveDevices(old(store), devices)
      ensures writes == old(writes) + 1
    {
      store := SaveDevices(store, devices);
      writes := writes + 1;
    }

    /**
     * The "Add" button of the form wired to `onAddDevice`: the list grows by
     * the form's device exactly when the form accepts its fields.
     */
    method ClickAdd(form: AddDeviceForm)
      requires Valid() && form.Valid()
      modifies this`devices, this`store, this`writes, this`showAddDeviceForm, form`errorMessage
      ensures Valid() && form.Valid()
      ensures match Validate(form.deviceId, form.deviceName, form.parsesAsFloat)
              case Accepted(d) =>
                devices == old(devices) + [d] && store == SaveDevices(old(store), devices)
                && writes == old(writes) + 1 && !showAddDeviceForm && form.errorMessage == ""
              case Rejected(m) =>
                devices == old(devices) && store == old(store) && writes == old(writes)
                && showAddDeviceForm == old(showAddDeviceForm) && form.errorMessage == m
    {
      var added := form.OnAddClick();
      if added.Some? {
        OnAddDevice(added.value.id, added.value.name);
      }
    }

    /**
     * `connectToMqtt` followed by its completion: the status records the
     * outcome, and a subscription is requested only after a successful connect.
     */
    method ConnectToMqtt(connect: Outcome, subscribe: Outcome)
      modifies this`connectionStatus, this`subscribeRequests, this`listening
      ensures connectionStatus == (if connect == Success then Connected else ConnectionFailed)
      ensures subscribeRequests == old(subscribeRequests) + (if connect == Success then 1 else 0)
      ensures listening == (old(listening) || (connect == Success && subscribe == Success))
    {
      if connect == Success {
        connectionStatus := Connected;
        SubscribeToTopic(subscribe);
      } else {
        connectionStatus := ConnectionFailed;
      }
    }

    /** `subscribeToTopic` and its completion: the payload handler is registered only on success. */
    method SubscribeToTopic(subscribe: Outcome)
      modifies this`subscribeRequests, this`listening
      ensures subscribeRequests == old(subscribeRequests) + 1
      ensures listening == (old(listening) || subscribe == Success)
    {
      subscribeRequests := subscribeRequests + 1;
      if subscribe == Success {
        listening := true;
      }
    }

    /**
     * `parsePayload`: all four members are read before any display is
     * written, so either all four displays change or none does.
     */
    method ParsePayload(payload: Option<JsonObject>)
      modifies this`temperature, this`humidity, this`pressure, this`luminosity
      ensures match Project(payload)
              case Some(r) =>
                temperature == r.temperature + TemperatureUnit && humidity == r.humidity + HumidityUnit
                && pressure == r.pressure + PressureUnit && luminosity == r.luminosity + LuminosityUnit
              case None =>
                temperature == old(temperature) && humidity == old(humidity)
                && pressure == old(pressure) && luminosity == old(luminosity)
    {
      if payload.None? {
        return;
      }
      var obj := payload.value;
      var temperatureValue := ReadDouble(obj, "temperature");
      if temperatureValue.None? { return; }
      var humidityValue := ReadDouble(obj, "humidity");
      if humidityValue.None? { return; }
      var pressureValue := ReadDouble(obj, "pressure");
      if pressureValue.None? { return; }
      var luminosityValue := ReadDouble(obj, "luminosity");
      if luminosityValue.None? { return; }

      temperature := temperatureValue.value + TemperatureUnit;
      humidity := humidityValue.value + HumidityUnit;
      pressure := pressureValue.value + PressureUnit;
      luminosity := luminosityValue.value + LuminosityUnit;
    }
  }
}
