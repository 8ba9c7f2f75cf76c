# Fleet dashboard core: a Dafny model

This project models the sequential logic of a React dashboard for networked sensor devices. The
dashboard reads two tables: `devices`, and the telemetry table `device_statistics`. From them it
derives which devices are online and where to draw them on a map. The model covers:

- **The liveness join** (`Liveness`), written once because Dashboard and Devices repeat it line for
  line. Each device row is joined with the telemetry rows whose `device_key` equals the device's
  `key`. The newest row is chosen by a stable newest-first sort followed by `[0]`. `isOnline` is
  `undefined` when there is no row; otherwise it is the boolean "at most 5 minutes old", checked
  against one `now` per build.
- **Marker projection** (`Markers`): one marker per enriched device. The link template is
  `/devices/${id}` on Dashboard and `/dashboard/devices/${id}` on Devices and on the detail page.
  The model also records that the map centres on `markers[0]`.
- **The fleet screens' fetch cycle** (`FleetScreen`): the outcome of one `fetchData` for every
  combination of device-read and statistics-read success or error. Also modelled: the Dashboard's
  counts, the Devices page's cards, and the state reached by any interleaving of started and
  settled cycles.
- **The detail screen** (`DetailScreen`): a dependent two-step lookup (device by id, then the newest
  telemetry row by that device's key), its render-state selection, and its single marker.
- **The device table's pagination** (`DevicesTable`): JavaScript `slice` semantics including
  negative starts, `Math.ceil(n / 5)` pages, and clamped prev/next buttons.
- **The create-device form** (`CreateDevice`): the required-field validator, and the ordered
  effects of the submit handler.
- **The sidebar** (`Sidebar`): `startsWith` highlighting and exact-match bolding.

Store responses are inputs (`Response<T>`: data or an error message). Every screen records the
queries it issues, in order. Timestamps are integer milliseconds. JavaScript truthiness is explicit
(`Js.Truthy`).

Observations the model makes precise, all proved about the code as written:

- The Dashboard's marker links (`/devices/…`) and the sidebar's Devices link (`/devices`) lie
  outside `/dashboard`, where the router mounts the Devices page.
- On `/dashboard/devices` the sidebar highlights Dashboard and not Devices.
- A Dashboard with no published device (a successful load of zero devices, or a first load that
  failed) hands the map an empty marker list. The map reads `markers[0].position` from it, which
  throws, so the overview never renders.
- On the detail page a cycle publishes the device before it awaits the telemetry query. If the
  route moves to another device meanwhile, the panel can show that device with the previous
  device's readings.

The code treats a device lookup that finds no row like any other failed lookup: both are caught,
and the device stays as it was. On a first visit that means "No data available".

## Model

| member | source | states |
|---|---|---|
| `Js.Conditional` | src/pages/DetailDevice/DetailDevice.jsx:180 | the `?:` the screens use for their labels: the first text iff the value is truthy (`undefined`, `null`, `false`, `0` and `""` are not), the second otherwise |
| `Js.Slice` | src/components/dashboard/DevicesTable/DevicesTable.jsx:15-17 | `slice` with non-negative arguments is the window clamped to the array; any slice ending at 0 is empty; the result is never longer than the array |
| `Js.StartsWith` | src/components/dashboard/Sidebar/Sidebar.jsx:58 | character-by-character `startsWith` holds exactly when the argument is a prefix of the string |
| `Liveness.Matching` | src/pages/Dashboard/Dashboard.jsx:37-38 | the filter keeps exactly the telemetry rows whose `device_key` equals the key, and nothing else |
| `Liveness.SortNewestFirst` | src/pages/Dashboard/Dashboard.jsx:39-43 | the sort returns a permutation of its input ordered newest first |
| `Liveness.InsertKeepsOrder` | src/pages/Dashboard/Dashboard.jsx:39-43 | one insertion step of the stable sort keeps a newest-first list newest first |
| `Liveness.NewestIndex` | src/pages/Dashboard/Dashboard.jsx:39-43 | reference choice of the latest row: no row is newer, and every earlier row is strictly older (ties go to the first row fetched) |
| `Liveness.Newest` | src/pages/Dashboard/Dashboard.jsx:37-43 | there is a latest row exactly when some row matches; it is one of the rows and no row is newer |
| `Liveness.SortedHeadIsNewest` | src/pages/Dashboard/Dashboard.jsx:37-43 | element 0 of the stably sorted rows is exactly the reference latest row |
| `Liveness.ClassifyBoundary` | src/pages/Dashboard/Dashboard.jsx:45-50 | no row gives `undefined`; exactly 300000 ms old is online; 300001 ms is offline; a future-dated row is online |
| `Liveness.EnrichDevice` | src/pages/Dashboard/Dashboard.jsx:52-55 | the enriched row equals the device row with only `isOnline` added or overwritten |
| `Liveness.Enrich` | src/pages/Dashboard/Dashboard.jsx:36-56 | one output per device row, in input order, each equal to its row except for `isOnline` |
| `Liveness.DeviceOnlineIff` | src/pages/Dashboard/Dashboard.jsx:37-50 | a device is online iff some row with its key is at most 5 minutes older than `now`; `isOnline` is `undefined` iff no row carries its key |
| `Liveness.EnrichOnlineIff` | src/pages/Devices/Devices.jsx:39-59 | for every row of the shared enrichment: online iff some telemetry row for its key is within the window |
| `Liveness.NoTelemetryIsOffline` | src/pages/Dashboard/Dashboard.jsx:37-50 | a device with no telemetry row for its key gets `isOnline` undefined, which is falsy |
| `Liveness.OtherKeysIgnored` | src/pages/Dashboard/Dashboard.jsx:38 | inserting rows for other keys anywhere in the telemetry list leaves a device's enrichment unchanged |
| `Liveness.MatchingSkipsOthers` | src/pages/Dashboard/Dashboard.jsx:38 | the per-device filter drops a block of rows for other keys wherever it sits, keeping the order of the rest |
| `Liveness.StatusIgnoresOrder` | src/pages/Dashboard/Dashboard.jsx:39-50 | two telemetry lists with the same multiset of rows for a key give the same status, so tie-breaking cannot change it |
| `Markers.ToMarkers` | src/pages/Dashboard/Dashboard.jsx:61-66 | one marker per enriched device, in order: position `[latitude, longitude]`, title `name`, text "Learn more", and a link that reads back as that device's id |
| `Markers.LinkRoundTrip` | src/pages/Devices/Devices.jsx:67 | the id read back from a link built from a template and an id is that id |
| `Markers.LinksIdentifyDevices` | src/pages/Devices/Devices.jsx:64-69 | under one template, equal marker links imply equal device ids |
| `Markers.ScreensDifferOnlyInLink` | src/pages/Devices/Devices.jsx:64-69 | Dashboard's and Devices' markers for the same devices differ only in the link; Dashboard's link is not under `/dashboard/` |
| `Markers.MapCenter` | src/components/dashboard/LeafletMap/LeafletMap.jsx:8 | the map has a centre exactly when it has a marker, and the centre is the first marker's position |
| `FleetScreen.Settle` | src/pages/Dashboard/Dashboard.jsx:16-72 | loading ends false; a devices error issues no statistics query; any error leaves devices and markers unchanged; success publishes one row and one marker per fetched device, each row unchanged except `isOnline` |
| `FleetScreen.SettledStatus` | src/pages/Devices/Devices.jsx:38-61 | after a successful cycle, each published device is online iff one of its telemetry rows is within the window of that cycle's `now` |
| `FleetScreen.ReplayConsistent` | src/pages/Devices/Devices.jsx:61-70 | under any interleaving of started and settled cycles, the markers are exactly the projection of the devices |
| `FleetScreen.SettledLast` | src/pages/Dashboard/Dashboard.jsx:70-72 | whatever happened before, a settled cycle leaves loading false |
| `FleetScreen.OnlineCount` | src/pages/Dashboard/Dashboard.jsx:111 | the online count never exceeds the number of devices |
| `FleetScreen.DashboardCounts` | src/pages/Dashboard/Dashboard.jsx:110-112 | total is the number of devices, online plus offline equals total, and offline is non-negative |
| `FleetScreen.OfflineCountsFalsy` | src/pages/Dashboard/Dashboard.jsx:110-112 | offline, computed as total minus online, equals the number of devices whose status is falsy |
| `FleetScreen.NoTelemetryAllOffline` | src/pages/Dashboard/Dashboard.jsx:36-112 | with no telemetry rows at all, online is 0 and every device is offline |
| `FleetScreen.OnlineCountsRecent` | src/pages/Dashboard/Dashboard.jsx:36-111 | after a build, the online figure is the number of devices with a telemetry row at most 5 minutes older than the build's `now` |
| `FleetScreen.RenderDashboard` | src/pages/Dashboard/Dashboard.jsx:128-196 | "Loading..." exactly while loading; otherwise the render throws exactly when the marker list is empty (the map reads `markers[0].position`); an overview shows the total, online and offline figures of the published devices |
| `FleetScreen.OverviewMatchesPublished` | src/pages/Dashboard/Dashboard.jsx:110-196 | in every reachable state, the map throws iff not loading and no device is published; an overview's figures are those of the published devices, its total is the number of markers, its table is the published device list, and the map centres on the first device's coordinates |
| `FleetScreen.EmptyFleetMapThrows` | src/components/dashboard/LeafletMap/LeafletMap.jsx:8 | a successful load of zero devices leaves the map without a first marker, so the Dashboard render throws |
| `FleetScreen.FailedFirstLoadMapThrows` | src/pages/Dashboard/Dashboard.jsx:68-72 | a first load whose devices or statistics read fails keeps the empty marker list, so the Dashboard render throws |
| `FleetScreen.Cards` | src/pages/Devices/Devices.jsx:122-153 | one card per published device, titled with its name, described by its key, reading "Online" if its status is truthy and "Offline" otherwise, and viewing its id |
| `FleetScreen.NoTelemetryCardOffline` | src/pages/Devices/Devices.jsx:39-59 | after a successful cycle, a device with no telemetry row for its key shows "Offline" on its card |
| `FleetScreen.RenderDevices` | src/pages/Devices/Devices.jsx:112-153 | "Loading..." exactly while loading; otherwise the grid of cards, one per published device |
| `FleetScreen.CardsPairMarkers` | src/pages/Devices/Devices.jsx:122-141 | in every reachable state, card `i` carries the marker built from device `i`, and shows "Online" if that device is online and "Offline" otherwise |
| `DetailScreen.Settle` | src/pages/DetailDevice/DetailDevice.jsx:21-51 | the device lookup comes first; its error issues no statistics query and changes nothing but loading; otherwise the device is published and the statistics query filters on its key; a statistics error keeps the previous readings, a successful one replaces them with that row's; loading ends false |
| `DetailScreen.CycleIsSettle` | src/pages/DetailDevice/DetailDevice.jsx:24-50 | the cycle's separate writes (the device before the telemetry await, then the readings and the `finally`), replayed back to back, give the state of one uninterrupted cycle |
| `DetailScreen.ReadingsAlwaysPresent` | src/pages/DetailDevice/DetailDevice.jsx:12-17 | starting from the all-zero readings, no interleaving of the writes of overlapping cycles leaves the readings missing |
| `DetailScreen.DeviceNeverCleared` | src/pages/DetailDevice/DetailDevice.jsx:24-50 | once a lookup has succeeded, no later write, failed lookup included, clears the device |
| `DetailScreen.StaleReadingsShown` | src/pages/DetailDevice/DetailDevice.jsx:33-45 | a cycle's telemetry write is not tied to the device shown: an overlapping cycle for another device can leave a panel with that device's key and the first device's readings |
| `DetailScreen.DetailMarker` | src/pages/DetailDevice/DetailDevice.jsx:194-202 | the single marker sits at the device's coordinates, with its name and the text "Learn more", and links back to its id under `/dashboard/devices/` |
| `DetailScreen.Render` | src/pages/DetailDevice/DetailDevice.jsx:78-202 | loading first, then "No data available" when device or readings are missing, else the panel: the device's name and key, "Online" if the stored `isOnline` is truthy and "Offline" otherwise, "Smoke Detected" iff `smoke_status` is truthy (else "Not detected"), the stored humidity, temperature and smoke level, and exactly one marker, at the device's coordinates, titled with its name, reading "Learn more" and linking back to its id |
| `DetailScreen.NoDataIffNoDevice` | src/pages/DetailDevice/DetailDevice.jsx:82-84 | under any interleaving of overlapping cycles' writes, "No data available" shows exactly when not loading and no lookup has succeeded |
| `DetailScreen.RawRowShowsOffline` | src/pages/DetailDevice/DetailDevice.jsx:118 | a stored row without `isOnline` always shows "Offline"; the status is never computed here |
| `DetailScreen.FirstLookupFailure` | src/pages/DetailDevice/DetailDevice.jsx:26-32 | a failed first lookup ends on "No data available", with only the device query issued |
| `DevicesTable.PageCount` | src/components/dashboard/DevicesTable/DevicesTable.jsx:48 | the page count is the least number of 5-row pages that hold all rows (`ceil(n/5)`) |
| `DevicesTable.PageWindow` | src/components/dashboard/DevicesTable/DevicesTable.jsx:13-17 | at most 5 rows; page `p >= 1` is rows `(p-1)*5` up to `(p-1)*5+5`, clamped, with no filtering or reordering; page 0 is empty; a page past the last is empty |
| `DevicesTable.Prev` | src/components/dashboard/DevicesTable/DevicesTable.jsx:54 | prev steps back one page from above page 1, and lands exactly on page 1 from page 1 or below |
| `DevicesTable.Next` | src/components/dashboard/DevicesTable/DevicesTable.jsx:58-62 | next steps forward one page below the last page, and lands exactly on the last page (`ceil(n/5)`, 0 for an empty list) from the last page or beyond, e.g. after the list shrank |
| `DevicesTable.PageNeverNegative` | src/components/dashboard/DevicesTable/DevicesTable.jsx:12-62 | starting from a non-negative page, no sequence of clicks (with the list length changing freely) reaches a negative page |
| `DevicesTable.PagesCoverSuffix` | src/components/dashboard/DevicesTable/DevicesTable.jsx:15-48 | the pages from `p` to the last, concatenated, are the list from row `(p-1)*5` on |
| `DevicesTable.PagesPartition` | src/components/dashboard/DevicesTable/DevicesTable.jsx:15-48 | concatenating pages `1..ceil(n/5)` gives back the list exactly |
| `DevicesTable.Rows` | src/components/dashboard/DevicesTable/DevicesTable.jsx:33-43 | one row per device in the window, in order, with its name, latitude and longitude, and a "Yes" cell if it is online, "No" otherwise |
| `CreateDevice.ValidateInputs` | src/pages/CreateDevice/CreateDevice.jsx:23-48 | valid iff all three fields are non-empty, iff no error text is set; an empty field gets "<field> is required.", a filled one gets "" |
| `CreateDevice.ErrorsArePerField` | src/pages/CreateDevice/CreateDevice.jsx:26-45 | each field's error text depends on that field alone (no short-circuit) |
| `CreateDevice.AnyNonEmptyTextPasses` | src/pages/CreateDevice/CreateDevice.jsx:33-45 | non-numeric coordinates such as "abc" pass validation |
| `CreateDevice.HandleCreate` | src/pages/CreateDevice/CreateDevice.jsx:50-89 | an invalid form only sets error texts; a valid one turns loading on and clears the alert before issuing the insert of the typed fields, then turns loading off; the insert is the only store call, and the handler navigates iff the form is valid and the insert succeeded |
| `CreateDevice.SubmitOutcome` | src/pages/CreateDevice/CreateDevice.jsx:50-89 | an invalid submit changes only the error texts; a valid one ends with loading off, and then either a clear alert and `/dashboard`, or the error's message in the alert |
| `Sidebar.Entries` | src/components/dashboard/Sidebar/Sidebar.jsx:10-68 | always Dashboard then Devices; a link is highlighted iff its path is a prefix of the pathname, and bold iff it equals the pathname |
| `Sidebar.BoldImpliesHighlighted` | src/components/dashboard/Sidebar/Sidebar.jsx:58-62 | a bold link is always highlighted |
| `Sidebar.NotSegmentAware` | src/components/dashboard/Sidebar/Sidebar.jsx:10-62 | `/devicesX` highlights Devices; `/dashboard/devices` highlights Dashboard, not Devices, and bolds neither |
| `Sidebar.AtMostOneHighlighted` | src/components/dashboard/Sidebar/Sidebar.jsx:10-58 | no pathname highlights both links |

## Left out

- Store queries, inserts and realtime channels (`supabase.from`, `.channel`, `.subscribe`, `removeChannel`) are network I/O through an external library. Their answers are inputs (`Response`), and the queries issued are recorded as values.
- A response with neither data nor an error (which would make `devicesData.map` throw) is not modelled. Neither is an insert whose promise rejects instead of resolving with an error; it reaches the same final form state.
- Overlapping `fetchData` runs triggered by change notifications (and, on the detail page, by the `device?.key` dependency) are asynchronous concurrency with no stale-result guard. Only their effect on the published state is modelled, as the writes each run makes between awaits, interleaved in any order. On Dashboard and Devices every write after `setLoading(true)` follows the last await, so a run is one `Started` event and one `Settled` event; on the detail page the device and the readings are separate events.
- The detail subscription's filter, built from a `device?.key` that starts out undefined, is subscription-transport behaviour and is not modelled.
- `Liveness.ClassifyBoundary`: timestamps are integer milliseconds. Parsing `created_at` with `new Date` (and NaN for unparsable dates) is not modelled. The floating-point `(now - t) / 1000 / 60 <= 5` is stated as `now - t <= 300000`, which is what it computes on integer milliseconds.
- Parsing coordinates with `parseFloat`, formatting readings with `toFixed(1)`, and number formatting are not modelled. Coordinates pass through unchanged as reals; numbers tested for truthiness are integers.
- UI and layout: React rendering, Chakra styling, `DashboardLayout.jsx`, `Navbar.jsx`, `App.jsx`, router wiring, toasts and console logging.
- `LeafletMap.jsx` rendering is a third-party map library. Only its read of `markers[0]` is recorded (`Markers.MapCenter`).
- `handleAction` in `DevicesTable.jsx` only logs.
- `FleetScreen.Cards`: the card's relative link `${device.id}` is kept as the id text. How the router resolves relative links is not modelled.
