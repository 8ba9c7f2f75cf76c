/** The paginated device table: a five-row window chosen with `Array.prototype.slice`, a page count
    of `Math.ceil(n / 5)`, and prev/next buttons that clamp the current page. */
module DevicesTable {
  import opened Js
  import opened Records

  const PageSize: nat := 5

  /** `Math.ceil(n / pageSize)`: the least page count whose pages hold `n` rows. */
  function PageCount(n: nat): (r: nat)
    ensures r * PageSize >= n
    ensures r == 0 || (r - 1) * PageSize < n
  {
    (n + PageSize - 1) / PageSize
  }

  /** `devices.slice(startIndex, startIndex + pageSize)` with `startIndex = (page - 1) * pageSize`. */
  function PageWindow(devices: seq<Device>, page: int): (r: seq<Device>)
    ensures |r| <= PageSize
    // pages from 1 on are the plain window, clamped to the list: no filtering, no reordering
    ensures page >= 1 ==>
              var start := (page - 1) * PageSize;
              r == devices[Min(start, |devices|)..Min(start + PageSize, |devices|)]
    // page 0 is `slice(-5, 0)`, always empty
    ensures page == 0 ==> r == []
    // a page past the last one is empty
    ensures page > PageCount(|devices|) ==> r == []
  {
    var start := (page - 1) * PageSize;
    Slice(devices, start, start + PageSize)
  }

  function Min(a: int, b: int): int
  {
    if a <= b then a else b
  }

  /** `Math.max(prev - 1, 1)`. */
  function Prev(page: int): (r: int)
    ensures r >= 1
    ensures page > 1 ==> r == page - 1
    // from the first page (or below it) prev lands exactly on page 1
    ensures page <= 1 ==> r == 1
  {
    if page - 1 >= 1 then page - 1 else 1
  }

  /** `Math.min(prev + 1, Math.ceil(devices.length / pageSize))`. */
  function Next(page: int, n: nat): (r: int)
    ensures r <= PageCount(n)
    ensures page < PageCount(n) ==> r == page + 1
    // on or past the last page (the list may have shrunk) next lands exactly on the last page
    ensures page >= PageCount(n) ==> r == PageCount(n)
    // on an empty list, any reachable page is sent to 0
    ensures n == 0 && page >= 0 ==> r == 0
  {
    if page + 1 <= PageCount(n) then page + 1 else PageCount(n)
  }

  /** A click on one of the buttons, with the length the list had at the time. */
  datatype Click = PrevClick | NextClick(n: nat)

  function Clicks(page: int, clicks: seq<Click>): int
    decreases |clicks|
  {
    if |clicks| == 0 then page
    else
      var p := match clicks[0] case PrevClick => Prev(page) case NextClick(n) => Next(page, n);
      Clicks(p, clicks[1..])
  }

  /** From the initial page 1, no sequence of clicks reaches a negative page: the window is always
      the clamped plain window or, on page 0, empty. */
  lemma {:induction false} PageNeverNegative(page: int, clicks: seq<Click>)
    requires page >= 0
    ensures Clicks(page, clicks) >= 0
    decreases |clicks|
  {
    if |clicks| > 0 {
      var p := match clicks[0] case PrevClick => Prev(page) case NextClick(n) => Next(page, n);
      PageNeverNegative(p, clicks[1..]);
    }
  }

  /** Pages `first .. first + count - 1`, concatenated. */
  function PagesFrom(devices: seq<Device>, first: int, count: nat): seq<Device>
    decreases count
  {
    if count == 0 then [] else PageWindow(devices, first) + PagesFrom(devices, first + 1, count - 1)
  }

  /** The pages partition the list: page `p` onwards, up to the last page, is exactly the tail
      starting at row `(p - 1) * 5`. */
  lemma {:induction false} PagesCoverSuffix(devices: seq<Device>, p: nat)
    requires 1 <= p <= PageCount(|devices|) + 1
    ensures PagesFrom(devices, p, PageCount(|devices|) + 1 - p) == devices[Min((p - 1) * PageSize, |devices|)..]
    decreases PageCount(|devices|) + 1 - p
  {
    var n := |devices|;
    if p == PageCount(n) + 1 {
      assert (p - 1) * PageSize >= n;
    } else {
      PagesCoverSuffix(devices, p + 1);
      var a := (p - 1) * PageSize;
      assert a < n;
      var b := Min(a + PageSize, n);
      assert devices[a..] == devices[a..b] + devices[b..];
    }
  }

  /** Concatenating pages `1 .. ceil(n / 5)` gives back the whole list. */
  lemma {:induction false} PagesPartition(devices: seq<Device>)
    ensures PagesFrom(devices, 1, PageCount(|devices|)) == devices
  {
    PagesCoverSuffix(devices, 1);
  }

  /** One table row. */
  datatype Row = Row(name: string, latitude: real, longitude: real, isOnline: string)

  /** The rows the table shows on `page`. */
  function Rows(devices: seq<Device>, page: int): (r: seq<Row>)
    ensures |r| == |PageWindow(devices, page)| <= PageSize
    ensures forall i :: 0 <= i < |r| ==>
              var d := PageWindow(devices, page)[i];
              && r[i].name == d.name
              && r[i].latitude == d.latitude && r[i].longitude == d.longitude
              && r[i].isOnline == (if Truthy(d.isOnline) then "Yes" else "No")
  {
    var w := PageWindow(devices, page);
    seq(|w|, i requires 0 <= i < |w| => Row(w[i].name, w[i].latitude, w[i].longitude, Conditional(w[i].isOnline, "Yes", "No")))
  }
}
