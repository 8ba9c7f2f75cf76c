/** The single-device screen. Its `fetchData` looks the device up by the route's id and only then
    asks for that device's newest telemetry row, by the device's key. It shows the row's `isOnline`
    as stored, the latest readings, and a one-marker map. */
module DetailScreen {
  import opened Js
  import opened Records
  import opened Markers
  import opened Liveness

  /** The readings shown before any telemetry has arrived: `{ humidity: 0, …, smoke_status: 0 }`. */
  const ZeroReadings: Readings := Readings(0.0, 0.0, 0.0, Num(0))

  /** The React state: the device (`null` until a lookup succeeds), the latest readings, loading. */
  datatype DetailState = DetailState(device: Option<Device>, latestStats: Option<Readings>, loading: bool)

  const Initial: DetailState := DetailState(None, Some(ZeroReadings), true)

  /** The store as the detail screen queries it: a device by id, and the newest telemetry row for a
      key. Either answer may be an error, a missing row included. */
  datatype DetailStore = DetailStore(deviceById: DeviceId -> Response<Device>, newestStatFor: DeviceKey -> Response<Stat>)

  datatype Cycle = Cycle(state: DetailState, queries: seq<Query>)

  /** The body of `fetchData` after `setLoading(true)`. */
  function Settle(s: DetailState, id: DeviceId, store: DetailStore): (r: Cycle)
    ensures !r.state.loading
    ensures 1 <= |r.queries| <= 2 && r.queries[0] == DeviceById(id)
    // a failed lookup throws before the telemetry query, and changes nothing else
    ensures store.deviceById(id).Error? ==> r.queries == [DeviceById(id)] && r.state == s.(loading := false)
    // otherwise the device is published, and the telemetry query filters on its key
    ensures store.deviceById(id).Data? ==>
              && r.state.device == Some(store.deviceById(id).value)
              && r.queries == [DeviceById(id), NewestStatFor(store.deviceById(id).value.key)]
    // a failed telemetry query keeps the readings shown before
    ensures store.deviceById(id).Data? && store.newestStatFor(store.deviceById(id).value.key).Error? ==>
              r.state.latestStats == s.latestStats
    // a successful telemetry read replaces the readings with that row's
    ensures store.deviceById(id).Data? && store.newestStatFor(store.deviceById(id).value.key).Data? ==>
              r.state.latestStats == Some(store.newestStatFor(store.deviceById(id).value.key).value.readings)
  {
    match store.deviceById(id)
    case Error(_) => Cycle(s.(loading := false), [DeviceById(id)])
    case Data(d) =>
      var queries := [DeviceById(id), NewestStatFor(d.key)];
      match store.newestStatFor(d.key)
      case Error(_) => Cycle(DetailState(Some(d), s.latestStats, false), queries)
      case Data(stat) => Cycle(DetailState(Some(d), Some(stat.readings), false), queries)
  }

  /** The state changes a cycle makes, one per resumption after an `await`. A cycle publishes the
      device before it awaits the telemetry query, so another cycle's changes can land between its
      two writes; events of overlapping cycles interleave freely. */
  datatype Event =
    | Started                               // `setLoading(true)`
    | LookupFailed                          // the lookup threw: the `finally` clears loading
    | DeviceFetched(device: Device)         // `setDevice`, before the telemetry query
    | StatsSettled(stats: Response<Stat>)   // `setLatestStats` on data, then the `finally`

  function Step(s: DetailState, e: Event): DetailState
  {
    match e
    case Started => s.(loading := true)
    case LookupFailed => s.(loading := false)
    case DeviceFetched(d) => s.(device := Some(d))
    case StatsSettled(Data(stat)) => s.(latestStats := Some(stat.readings), loading := false)
    case StatsSettled(Error(_)) => s.(loading := false)
  }

  function Replay(s: DetailState, events: seq<Event>): DetailState
    decreases |events|
  {
    if |events| == 0 then s else Replay(Step(s, events[0]), events[1..])
  }

  /** The events of one cycle that runs without interruption. */
  function CycleEvents(id: DeviceId, store: DetailStore): seq<Event>
  {
    match store.deviceById(id)
    case Error(_) => [LookupFailed]
    case Data(d) => [DeviceFetched(d), StatsSettled(store.newestStatFor(d.key))]
  }

  /** A cycle's events, replayed back to back, reach the state `Settle` computes in one go. */
  lemma CycleIsSettle(s: DetailState, id: DeviceId, store: DetailStore)
    ensures Replay(s, CycleEvents(id, store)) == Settle(s, id, store).state
  {
    var events := CycleEvents(id, store);
    if store.deviceById(id).Data? {
      var s1 := Step(s, events[0]);
      assert events[1..] == [events[1]];
      assert Replay(s1, events[1..]) == Step(s1, events[1]);
    } else {
      assert events[1..] == [];
    }
  }

  /** The readings are never cleared: they start as zeros and are only ever replaced by a row. */
  lemma {:induction false} ReadingsAlwaysPresent(s: DetailState, events: seq<Event>)
    requires s.latestStats.Some?
    ensures Replay(s, events).latestStats.Some?
    decreases |events|
  {
    if |events| > 0 {
      ReadingsAlwaysPresent(Step(s, events[0]), events[1..]);
    }
  }

  /** Once a lookup has succeeded the device is never cleared, whatever fails afterwards. */
  lemma {:induction false} DeviceNeverCleared(s: DetailState, events: seq<Event>)
    requires s.device.Some?
    ensures Replay(s, events).device.Some?
    decreases |events|
  {
    if |events| > 0 {
      DeviceNeverCleared(Step(s, events[0]), events[1..]);
    }
  }

  /** The one marker of the detail map. */
  function DetailMarker(d: Device): (r: Marker)
    ensures r.position == (d.latitude, d.longitude) && r.title == d.name && r.linkText == LinkText
    ensures LinkTarget(DetailLinkPrefix, r.link) == Some(d.id)
  {
    LinkRoundTrip(DetailLinkPrefix, d.id);
    MarkerFor(d, DetailLinkPrefix)
  }

  /** The detail panel. */
  datatype Panel = Panel(name: string, status: string, key: string, readings: Readings, smoke: string, markers: seq<Marker>)

  datatype DetailView = Loading | NoData | Detail(panel: Panel)

  /** `if (loading) …; if (!device || !latestStats) …;` then the panel. */
  function Render(s: DetailState): (r: DetailView)
    ensures r.Loading? <==> s.loading
    ensures r.NoData? <==> !s.loading && (s.device.None? || s.latestStats.None?)
    ensures r.Detail? ==>
              && r.panel.name == s.device.value.name
              && r.panel.key == s.device.value.key.text
              && r.panel.status == (if Truthy(s.device.value.isOnline) then "Online" else "Offline")
              && r.panel.smoke == (if Truthy(s.latestStats.value.smokeStatus) then "Smoke Detected" else "Not detected")
              // humidity, temperature and smoke level come from the stored readings
              && r.panel.readings == s.latestStats.value
              && |r.panel.markers| == 1
              && r.panel.markers[0].position == (s.device.value.latitude, s.device.value.longitude)
              && r.panel.markers[0].title == s.device.value.name
              && r.panel.markers[0].linkText == LinkText
              && LinkTarget(DetailLinkPrefix, r.panel.markers[0].link) == Some(s.device.value.id)
  {
    if s.loading then Loading
    else if s.device.None? || s.latestStats.None? then NoData
    else
      var d := s.device.value;
      var readings := s.latestStats.value;
      var smoke := Conditional(readings.smokeStatus, "Smoke Detected", "Not detected");
      // the status is the stored row's `isOnline`, not recomputed here
      Detail(Panel(d.name, StatusText(d.isOnline), d.key.text, readings, smoke, [DetailMarker(d)]))
  }

  /** In every state the screen can reach, "No data available" is shown exactly when no lookup
      has succeeded yet: the readings are never missing. */
  lemma NoDataIffNoDevice(events: seq<Event>)
    ensures var s := Replay(Initial, events);
            Render(s).NoData? <==> !s.loading && s.device.None?
  {
    ReadingsAlwaysPresent(Initial, events);
  }

  /** The status is read from the stored row, never computed: a row without an `isOnline`
      column shows "Offline" whatever its telemetry says. */
  lemma RawRowShowsOffline(s: DetailState)
    requires !s.loading && s.device.Some? && s.latestStats.Some?
    requires s.device.value.isOnline == Undefined
    ensures Render(s).Detail? && Render(s).panel.status == "Offline"
  {
  }

  /** Nothing ties a cycle's telemetry to the device shown when it lands: if the route moves to
      another device while the first cycle awaits its telemetry, the panel shows the second device
      with the first device's readings, and no longer reports loading though the second cycle is
      still in flight. */
  lemma StaleReadingsShown(d1: Device, d2: Device, stat: Stat)
    requires stat.deviceKey == d1.key && d2.key != d1.key
    ensures var s := Replay(Initial, [DeviceFetched(d1), Started, DeviceFetched(d2), StatsSettled(Data(stat))]);
            && Render(s).Detail?
            && Render(s).panel.key == d2.key.text
            && Render(s).panel.readings == stat.readings
  {
    var e := [DeviceFetched(d1), Started, DeviceFetched(d2), StatsSettled(Data(stat))];
    var s1 := Step(Initial, e[0]);
    assert e[1..] == [Started, DeviceFetched(d2), StatsSettled(Data(stat))];
    var s2 := Step(s1, e[1]);
    assert e[1..][1..] == [DeviceFetched(d2), StatsSettled(Data(stat))];
    var s3 := Step(s2, e[2]);
    assert e[1..][1..][1..] == [StatsSettled(Data(stat))];
    var s4 := Step(s3, e[3]);
    assert e[1..][1..][1..][1..] == [];
    assert Replay(s4, []) == s4;
    assert Replay(s3, [StatsSettled(Data(stat))]) == s4;
    assert Replay(s2, [DeviceFetched(d2), StatsSettled(Data(stat))]) == s4;
    assert Replay(s1, e[1..]) == s4;
    assert s4 == DetailState(Some(d2), Some(stat.readings), false);
  }

  /** A lookup that fails on the first visit leaves the screen on "No data available", and no
      telemetry is asked for. */
  lemma FirstLookupFailure(id: DeviceId, store: DetailStore)
    requires store.deviceById(id).Error?
    ensures Render(Settle(Initial.(loading := true), id, store).state) == NoData
    ensures Settle(Initial.(loading := true), id, store).queries == [DeviceById(id)]
  {
  }
}
