/** The rows the dashboard reads from its two tables, the map markers it derives from them, and the
    shape of a store response. */
module Records {
  import opened Js

  /** A device's primary id, in the textual form it takes in a URL. Routing and the single-device
      lookup use it. */
  datatype DeviceId = DeviceId(text: string)

  /** A device's correlation key. Telemetry rows refer to a device by this key and never by its id. */
  datatype DeviceKey = DeviceKey(text: string)

  /** A row of the `devices` table, as the screens see it. A raw row has no `isOnline` column, so
      the field is `Undefined` there; enrichment adds it or overwrites it. */
  datatype Device = Device(
    id: DeviceId,
    key: DeviceKey,
    name: string,
    latitude: real,
    longitude: real,
    isOnline: Value)

  /** The sensor readings of a telemetry row, which is all the detail screen shows of it. */
  datatype Readings = Readings(humidity: real, temperature: real, smokeLevel: real, smokeStatus: Value)

  /** A row of the `device_statistics` table. `createdAt` is in milliseconds since the epoch. */
  datatype Stat = Stat(deviceKey: DeviceKey, createdAt: int, readings: Readings)

  /** What the map component receives for one pin. */
  datatype Marker = Marker(position: (real, real), title: string, link: string, linkText: string)

  /** The `{ data, error }` pair a store query resolves to: data on success, the error's message otherwise. */
  datatype Response<+T> = Data(value: T) | Error(message: string)

  /** The store queries the screens issue, recorded in the order they are issued. */
  datatype Query =
    | AllDevices                  // devices, select *
    | AllStatistics               // device_statistics, select *
    | DeviceById(id: DeviceId)    // devices where id = …, single
    | NewestStatFor(key: DeviceKey) // device_statistics where device_key = …, newest first, limit 1, single
    | InsertDevice(name: string, latitude: string, longitude: string)
}
