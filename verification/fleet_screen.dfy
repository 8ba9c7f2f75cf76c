/** The `fetchData` cycle of the two fleet-wide screens, Dashboard and Devices. Both read every
    device, then every telemetry row, enrich, and publish the devices together with their markers.
    They differ only in the marker link template. Dashboard also derives counts. Devices also renders
    one card per device, each carrying the marker at the same index. */
module FleetScreen {
  import opened Js
  import opened Records
  import opened Liveness
  import opened Markers

  datatype Screen = DashboardScreen | DevicesScreen

  /** The marker link template each screen uses. */
  function LinkPrefix(screen: Screen): string
  {
    match screen
    case DashboardScreen => DashboardLinkPrefix
    case DevicesScreen => DetailLinkPrefix
  }

  /** The React state of one screen: the published devices and markers, and the loading flag. */
  datatype FleetState = FleetState(devices: seq<Device>, markers: seq<Marker>, loading: bool)

  /** `useState([])`, `useState([])`, `useState(true)`. */
  const Initial: FleetState := FleetState([], [], true)

  /** What the store answered to one cycle's reads, and the `now` the cycle captured. The statistics
      answer is only looked at when the devices read succeeded. */
  datatype Outcome = Outcome(devices: Response<seq<Device>>, statistics: Response<seq<Stat>>, now: int)

  /** The state a cycle leaves behind and the queries it issued, in order. */
  datatype Cycle = Cycle(state: FleetState, queries: seq<Query>)

  /** The body of `fetchData` after `setLoading(true)`: the try block, its catch, and the
      `finally` that clears the loading flag. */
  function Settle(screen: Screen, s: FleetState, o: Outcome): (r: Cycle)
    ensures !r.state.loading
    // a failed devices read throws before the statistics read is issued
    ensures o.devices.Error? ==> r.queries == [AllDevices]
    ensures o.devices.Data? ==> r.queries == [AllDevices, AllStatistics]
    // any failure leaves the published devices and markers as they were
    ensures (o.devices.Error? || o.statistics.Error?) ==> r.state == s.(loading := false)
    // a success publishes one row per fetched device and a marker per row
    ensures o.devices.Data? && o.statistics.Data? ==>
              && |r.state.devices| == |r.state.markers| == |o.devices.value|
              && forall i :: 0 <= i < |r.state.devices| ==>
                   r.state.devices[i] == o.devices.value[i].(isOnline := r.state.devices[i].isOnline)
  {
    match o.devices
    case Error(_) => Cycle(s.(loading := false), [AllDevices])
    case Data(rows) =>
      match o.statistics
      case Error(_) => Cycle(s.(loading := false), [AllDevices, AllStatistics])
      case Data(stats) =>
        var enriched := Enrich(rows, stats, o.now);
        Cycle(FleetState(enriched, ToMarkers(enriched, LinkPrefix(screen)), false), [AllDevices, AllStatistics])
  }

  /** After a successful cycle, a published device is online exactly when one of its telemetry
      rows lies within the window of that cycle's `now`. */
  lemma SettledStatus(screen: Screen, s: FleetState, o: Outcome)
    requires o.devices.Data? && o.statistics.Data?
    ensures forall i :: 0 <= i < |Settle(screen, s, o).state.devices| ==>
              (Truthy(Settle(screen, s, o).state.devices[i].isOnline)
               <==> RecentlySeen(o.statistics.value, o.devices.value[i].key, o.now))
  {
    EnrichOnlineIff(o.devices.value, o.statistics.value, o.now);
  }

  /** What can happen to a screen's state: a cycle starts (`setLoading(true)`) or one settles.
      Cycles started by change notifications may overlap, so starts and settlements interleave
      freely. */
  datatype Event = Started | Settled(outcome: Outcome)

  function Step(screen: Screen, s: FleetState, e: Event): FleetState
  {
    match e
    case Started => s.(loading := true)
    case Settled(o) => Settle(screen, s, o).state
  }

  function Replay(screen: Screen, s: FleetState, events: seq<Event>): FleetState
    decreases |events|
  {
    if |events| == 0 then s else Replay(screen, Step(screen, s, events[0]), events[1..])
  }

  /** The published markers are exactly the projection of the published devices. */
  ghost predicate Consistent(screen: Screen, s: FleetState)
  {
    && |s.markers| == |s.devices|
    && forall i :: 0 <= i < |s.devices| ==> s.markers[i] == MarkerFor(s.devices[i], LinkPrefix(screen))
  }

  /** Devices and markers are set in the same synchronous block, so however cycles interleave,
      the markers always match the devices. */
  lemma {:induction false} ReplayConsistent(screen: Screen, s: FleetState, events: seq<Event>)
    requires Consistent(screen, s)
    ensures Consistent(screen, Replay(screen, s, events))
    decreases |events|
  {
    if |events| > 0 {
      ReplayConsistent(screen, Step(screen, s, events[0]), events[1..]);
    }
  }

  /** The last event to happen decides the loading flag: a settlement always clears it. */
  lemma {:induction false} SettledLast(screen: Screen, s: FleetState, events: seq<Event>, o: Outcome)
    ensures !Replay(screen, s, events + [Settled(o)]).loading
    decreases |events|
  {
    if |events| == 0 {
      assert events + [Settled(o)] == [Settled(o)];
    } else {
      assert (events + [Settled(o)])[1..] == events[1..] + [Settled(o)];
      SettledLast(screen, Step(screen, s, events[0]), events[1..], o);
    }
  }

  /** The Dashboard's three statistics. */
  datatype Counts = Counts(total: nat, online: nat, offline: int)

  /** `devices.filter((device) => device.isOnline).length`. */
  function OnlineCount(devices: seq<Device>): (r: nat)
    ensures r <= |devices|
  {
    if |devices| == 0 then 0
    else (if Truthy(devices[0].isOnline) then 1 else 0) + OnlineCount(devices[1..])
  }

  /** The number of devices whose status is falsy, counted directly. */
  function FalsyCount(devices: seq<Device>): nat
  {
    if |devices| == 0 then 0
    else (if Truthy(devices[0].isOnline) then 0 else 1) + FalsyCount(devices[1..])
  }

  /** Total, online, and `total - online` offline. */
  function DashboardCounts(devices: seq<Device>): (r: Counts)
    ensures r.total == |devices|
    ensures r.online + r.offline == r.total
    ensures 0 <= r.offline
  {
    var online := OnlineCount(devices);
    Counts(|devices|, online, |devices| - online)
  }

  /** The offline figure, computed by subtraction, is exactly the number of devices not online. */
  lemma {:induction false} OfflineCountsFalsy(devices: seq<Device>)
    ensures DashboardCounts(devices).offline == FalsyCount(devices)
  {
    if |devices| > 0 {
      OfflineCountsFalsy(devices[1..]);
    }
  }

  /** Without any telemetry, a successful cycle publishes every device as offline. */
  lemma {:induction false} NoTelemetryAllOffline(devices: seq<Device>, now: int)
    ensures DashboardCounts(Enrich(devices, [], now)).online == 0
    ensures DashboardCounts(Enrich(devices, [], now)).offline == |devices|
  {
    var e := Enrich(devices, [], now);
    forall i | 0 <= i < |e| ensures !Truthy(e[i].isOnline) {
      NoTelemetryIsOffline(devices[i], [], now);
    }
    NoneOnline(e);
  }

  lemma {:induction false} NoneOnline(devices: seq<Device>)
    requires forall i :: 0 <= i < |devices| ==> !Truthy(devices[i].isOnline)
    ensures OnlineCount(devices) == 0
  {
    if |devices| > 0 {
      NoneOnline(devices[1..]);
    }
  }

  /** What the Dashboard renders. `MapThrows` is a render that never completes: the map reads
      `markers[0].position`, which throws on an empty marker list. */
  datatype DashboardView =
    | DashboardLoading
    | MapThrows
    | Overview(counts: Counts, mapCenter: (real, real), table: seq<Device>)

  /** `if (loading) return "Loading..."`; otherwise the counts, the map centred on the first
      marker, and the table. */
  function RenderDashboard(s: FleetState): (r: DashboardView)
    ensures r.DashboardLoading? <==> s.loading
    ensures r.MapThrows? <==> !s.loading && |s.markers| == 0
    // the three figures are those of the published devices
    ensures r.Overview? ==> r.counts == DashboardCounts(s.devices)
  {
    if s.loading then DashboardLoading
    else match MapCenter(s.markers)
      case None => MapThrows
      case Some(center) => Overview(DashboardCounts(s.devices), center, s.devices)
  }

  /** In every state the Dashboard can reach, the overview describes the published devices: its
      total is the number of markers on the map, its table is the device list, and the map centres
      on the first device's coordinates. The map throws exactly when no device is published. */
  lemma OverviewMatchesPublished(events: seq<Event>)
    ensures var s := Replay(DashboardScreen, Initial, events);
            && (RenderDashboard(s).MapThrows? <==> !s.loading && |s.devices| == 0)
            && (RenderDashboard(s).Overview? ==>
                  && RenderDashboard(s).counts == DashboardCounts(s.devices)
                  && RenderDashboard(s).counts.total == |s.markers|
                  && RenderDashboard(s).table == s.devices
                  && RenderDashboard(s).mapCenter == (s.devices[0].latitude, s.devices[0].longitude))
  {
    ReplayConsistent(DashboardScreen, Initial, events);
  }

  /** A successful load of zero devices publishes an empty marker list, and the map throws. */
  lemma EmptyFleetMapThrows(s: FleetState, o: Outcome)
    requires o.devices == Data([]) && o.statistics.Data?
    ensures RenderDashboard(Settle(DashboardScreen, s, o).state) == MapThrows
  {
  }

  /** A first load that fails keeps the initial empty marker list, and the map throws too. */
  lemma FailedFirstLoadMapThrows(o: Outcome)
    requires o.devices.Error? || o.statistics.Error?
    ensures RenderDashboard(Settle(DashboardScreen, Initial.(loading := true), o).state) == MapThrows
  {
  }

  /** How many devices have a telemetry row within the window, counted from the rows themselves. */
  ghost function RecentCount(devices: seq<Device>, stats: seq<Stat>, now: int): nat
  {
    if |devices| == 0 then 0
    else (if RecentlySeen(stats, devices[0].key, now) then 1 else 0) + RecentCount(devices[1..], stats, now)
  }

  /** After a build, the Dashboard's online figure is the number of devices that have a telemetry
      row at most 5 minutes older than the build's `now`. */
  lemma {:induction false} OnlineCountsRecent(devices: seq<Device>, stats: seq<Stat>, now: int)
    ensures DashboardCounts(Enrich(devices, stats, now)).online == RecentCount(devices, stats, now)
  {
    if |devices| > 0 {
      var e := Enrich(devices, stats, now);
      assert e[1..] == Enrich(devices[1..], stats, now);
      DeviceOnlineIff(devices[0], stats, now);
      OnlineCountsRecent(devices[1..], stats, now);
    }
  }

  /** One card of the Devices page. `pin` is `markers[index]`, `undefined` past the end. */
  datatype Card = Card(pin: Option<Marker>, title: string, description: string, status: string, viewLink: string)

  function CardAt(s: FleetState, i: nat): Card
    requires i < |s.devices|
  {
    var d := s.devices[i];
    Card(if i < |s.markers| then Some(s.markers[i]) else None, d.name, d.key.text, StatusText(d.isOnline), d.id.text)
  }

  /** `devices.map((device, index) => <Card …>)`. */
  function Cards(s: FleetState): (r: seq<Card>)
    ensures |r| == |s.devices|
    // title, description, status label and view link of card `i` all come from device `i`
    ensures forall i :: 0 <= i < |r| ==>
              && r[i].title == s.devices[i].name
              && r[i].description == s.devices[i].key.text
              && r[i].status == (if Truthy(s.devices[i].isOnline) then "Online" else "Offline")
              && r[i].viewLink == s.devices[i].id.text
  {
    seq(|s.devices|, i requires 0 <= i < |s.devices| => CardAt(s, i))
  }

  /** What the Devices page renders: "Loading..." while a cycle is in flight, else the cards. */
  datatype DevicesView = DevicesLoading | CardGrid(cards: seq<Card>)

  /** `if (loading) return "Loading..."`; otherwise one card per published device. */
  function RenderDevices(s: FleetState): (r: DevicesView)
    ensures r.DevicesLoading? <==> s.loading
    // the grid is the card list whose contents `CardsPairMarkers` states
    ensures r.CardGrid? ==> r.cards == Cards(s) && |r.cards| == |s.devices|
  {
    if s.loading then DevicesLoading else CardGrid(Cards(s))
  }

  /** After a successful cycle, the card of a device without any telemetry row for its key reads
      "Offline". */
  lemma NoTelemetryCardOffline(s: FleetState, o: Outcome, i: nat)
    requires o.devices.Data? && o.statistics.Data? && i < |o.devices.value|
    requires forall st :: st in o.statistics.value ==> st.deviceKey != o.devices.value[i].key
    ensures Cards(Settle(DevicesScreen, s, o).state)[i].status == "Offline"
  {
    NoTelemetryIsOffline(o.devices.value[i], o.statistics.value, o.now);
  }

  /** In every state the Devices page can reach, card `i` carries the marker built from device `i`,
      and its status reads "Online" when that device is online and "Offline" otherwise. */
  lemma CardsPairMarkers(events: seq<Event>)
    ensures var s := Replay(DevicesScreen, Initial, events);
            forall i :: 0 <= i < |Cards(s)| ==>
              && Cards(s)[i].pin == Some(MarkerFor(s.devices[i], DetailLinkPrefix))
              && Cards(s)[i].status == (if Truthy(s.devices[i].isOnline) then "Online" else "Offline")
  {
    ReplayConsistent(DevicesScreen, Initial, events);
  }
}
