/**
 * The app's local device store: the `devices_prefs` shared-preferences file,
 * in which the whole device list is kept under the single key `devices_list`.
 * The JSON encoding of the list is abstracted away: an entry holds the list itself.
 */
module Preferences {
  import opened Devices

  /** The one key under which the device list is stored. */
  const DevicesKey: string := "devices_list"

  /** The key/value entries of the `devices_prefs` file. */
  type Store = map<string, seq<MonitoringDevice>>

  /** `loadDevicesFromPreferences`: the stored list, or an empty list when nothing was ever stored. */
  function LoadDevices(store: Store): (devices: seq<MonitoringDevice>)
    ensures DevicesKey !in store ==> devices == []
    ensures DevicesKey in store ==> devices == store[DevicesKey]
  {
    if DevicesKey in store then store[DevicesKey] else []
  }

  /** `saveDevicesToPreferences`: overwrite the `devices_list` entry with the whole list; other entries are kept. */
  function SaveDevices(store: Store, devices: seq<MonitoringDevice>): (store': Store)
    ensures LoadDevices(store') == devices
    ensures store'.Keys == store.Keys + {DevicesKey}
    ensures forall k :: k in store && k != DevicesKey ==> store'[k] == store[k]
  {
    store[DevicesKey := devices]
  }

  /** A save fully overwrites the previous one: only the last list written survives. */
  lemma SaveOverwrites(store: Store, first: seq<MonitoringDevice>, second: seq<MonitoringDevice>)
    ensures SaveDevices(SaveDevices(store, first), second) == SaveDevices(store, second)
  {
  }

  /** Saving what was loaded and loading again gives back the same ordered list. */
  lemma SaveLoadedIsIdempotent(store: Store)
    ensures LoadDevices(SaveDevices(store, LoadDevices(store))) == LoadDevices(store)
    ensures DevicesKey in store ==> SaveDevices(store, LoadDevices(store)) == store
  {
  }
}
