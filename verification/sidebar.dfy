/** The sidebar's two navigation links and how the current pathname styles them: a link is
    highlighted when the pathname starts with its path, and bold when the pathname is its path. */
module Sidebar {
  import opened Js

  datatype NavLink = NavLink(path: string, caption: string)

  /** The fixed `links` list, in rendering order. */
  const Links: seq<NavLink> := [NavLink("/dashboard", "Dashboard"), NavLink("/devices", "Devices")]

  /** How one link is drawn for the current pathname. */
  datatype Entry = Entry(caption: string, path: string, highlighted: bool, bold: bool)

  function EntryFor(pathname: string, link: NavLink): Entry
  {
    Entry(link.caption, link.path, StartsWith(pathname, link.path), pathname == link.path)
  }

  /** `links.map((link) => <ChakraLink …>)`. */
  function Entries(pathname: string): (r: seq<Entry>)
    ensures |r| == |Links| == 2
    // always Dashboard first, then Devices
    ensures r[0].caption == "Dashboard" && r[1].caption == "Devices"
    ensures forall i :: 0 <= i < |r| ==>
              && r[i].path == Links[i].path
              // highlighted: the pathname has the link's path as a plain string prefix
              && (r[i].highlighted <==> Links[i].path <= pathname)
              // bold: exact equality
              && (r[i].bold <==> pathname == Links[i].path)
  {
    seq(|Links|, i requires 0 <= i < |Links| => EntryFor(pathname, Links[i]))
  }

  /** A bold link is always highlighted too. */
  lemma BoldImpliesHighlighted(pathname: string)
    ensures forall i :: 0 <= i < |Entries(pathname)| ==> Entries(pathname)[i].bold ==> Entries(pathname)[i].highlighted
  {
  }

  /** Matching ignores path segments: `/devicesX` highlights Devices, and the Devices page's own
      route `/dashboard/devices` highlights Dashboard but not Devices, and bolds neither. */
  lemma NotSegmentAware()
    ensures Entries("/devicesX")[1].highlighted && !Entries("/devicesX")[1].bold
    ensures Entries("/dashboard/devices")[0].highlighted
    ensures !Entries("/dashboard/devices")[1].highlighted
    ensures !Entries("/dashboard/devices")[0].bold && !Entries("/dashboard/devices")[1].bold
  {
    assert "/dashboard/devices"[..10] == "/dashboard";
    assert "/dashboard" <= "/dashboard/devices";
    assert "/devices"[2] != "/dashboard/devices"[2];
    assert "/devicesX"[..8] == "/devices";
    assert "/devices" <= "/devicesX";
  }

  /** On any path the two links are never both highlighted. */
  lemma AtMostOneHighlighted(pathname: string)
    ensures !(Entries(pathname)[0].highlighted && Entries(pathname)[1].highlighted)
  {
    if "/dashboard" <= pathname {
      assert pathname[2] == 'a' != "/devices"[2];
    }
  }
}
