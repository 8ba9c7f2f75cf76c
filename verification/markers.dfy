/** The projection of enriched devices to map markers, and the one thing the map component itself
    requires of its input: a first marker to centre on. */
module Markers {
  import opened Js
  import opened Records

  /** The popup text of every marker. */
  const LinkText: string := "Learn more"

  /** The Dashboard's marker links are `/devices/${id}`. */
  const DashboardLinkPrefix: string := "/devices/"

  /** The Devices page and the detail page link to `/dashboard/devices/${id}`. */
  const DetailLinkPrefix: string := "/dashboard/devices/"

  /** The marker one device produces under a screen's link template. */
  function MarkerFor(d: Device, prefix: string): Marker
  {
    Marker((d.latitude, d.longitude), d.name, prefix + d.id.text, LinkText)
  }

  /** The device id a link addresses under `prefix`, read back the way a route parameter is:
      whatever follows the prefix. */
  function LinkTarget(prefix: string, link: string): Option<DeviceId>
  {
    if prefix <= link then Some(DeviceId(link[|prefix|..])) else None
  }

  /** `enrichedDevices.map((device) => ({ position, title, link, linkText }))`. */
  function ToMarkers(devices: seq<Device>, prefix: string): (r: seq<Marker>)
    ensures |r| == |devices|
    ensures forall i :: 0 <= i < |r| ==>
              && r[i].position == (devices[i].latitude, devices[i].longitude)
              && r[i].title == devices[i].name
              && r[i].linkText == LinkText
              // the link leads back to exactly the device it was built from
              && LinkTarget(prefix, r[i].link) == Some(devices[i].id)
  {
    var r := seq(|devices|, i requires 0 <= i < |devices| => MarkerFor(devices[i], prefix));
    assert forall i :: 0 <= i < |r| ==> LinkTarget(prefix, r[i].link) == Some(devices[i].id) by {
      forall i | 0 <= i < |r| ensures LinkTarget(prefix, r[i].link) == Some(devices[i].id) {
        LinkRoundTrip(prefix, devices[i].id);
      }
    }
    r
  }

  /** Reading the id back from a link built for it gives that id. */
  lemma LinkRoundTrip(prefix: string, id: DeviceId)
    ensures LinkTarget(prefix, prefix + id.text) == Some(id)
  {
    assert (prefix + id.text)[|prefix|..] == id.text;
  }

  /** Two devices get the same marker link under one template only if they share an id. */
  lemma LinksIdentifyDevices(d1: Device, d2: Device, prefix: string)
    requires MarkerFor(d1, prefix).link == MarkerFor(d2, prefix).link
    ensures d1.id == d2.id
  {
    LinkRoundTrip(prefix, d1.id);
    LinkRoundTrip(prefix, d2.id);
  }

  /** The Dashboard's and the Devices page's markers for the same devices differ in the link only,
      and the Dashboard's link does not lie under `/dashboard`. */
  lemma ScreensDifferOnlyInLink(devices: seq<Device>)
    ensures forall i :: 0 <= i < |devices| ==>
              ToMarkers(devices, DashboardLinkPrefix)[i]
              == ToMarkers(devices, DetailLinkPrefix)[i].(link := ToMarkers(devices, DashboardLinkPrefix)[i].link)
    ensures forall i :: 0 <= i < |devices| ==>
              !("/dashboard/" <= ToMarkers(devices, DashboardLinkPrefix)[i].link)
  {
    forall i | 0 <= i < |devices|
      ensures !("/dashboard/" <= ToMarkers(devices, DashboardLinkPrefix)[i].link)
    {
      var link := ToMarkers(devices, DashboardLinkPrefix)[i].link;
      assert link[1] == DashboardLinkPrefix[1] == 'd';
      assert link[2] == 'e' != "/dashboard/"[2];
    }
  }

  /** `center={markers[0].position}`: the map centres on its first marker; on an empty list there
      is none and the component fails. */
  function MapCenter(markers: seq<Marker>): (r: Option<(real, real)>)
    ensures r.Some? <==> |markers| > 0
    ensures r.Some? ==> r.value == markers[0].position
  {
    if |markers| == 0 then None else Some(markers[0].position)
  }
}
