/** The liveness join shared, line for line, by the Dashboard and Devices screens: every device row
    is joined with the telemetry rows carrying its key, the newest of them is picked by sorting, and
    the device is online when that row is at most five minutes older than the one `now` taken for
    the whole build. */
module Liveness {
  import opened Js
  import opened Records

  /** The liveness window: five minutes, in milliseconds. The comparison against it is inclusive. */
  const WindowMs: int := 5 * 60 * 1000

  /** `statisticsData.filter((stat) => stat.device_key === key)`: the rows for one key, in fetch order. */
  function Matching(stats: seq<Stat>, key: DeviceKey): (r: seq<Stat>)
    ensures |r| <= |stats|
    ensures forall s :: s in r <==> s in stats && s.deviceKey == key
  {
    if |stats| == 0 then []
    else (if stats[0].deviceKey == key then [stats[0]] else []) + Matching(stats[1..], key)
  }

  /** Rows ordered newest first. */
  ghost predicate NewestFirst(s: seq<Stat>)
  {
    forall i, j :: 0 <= i < j < |s| ==> s[j].createdAt <= s[i].createdAt
  }

  /** Puts `x` in front of the first row of `t` that is not newer than it. `x` precedes every row
      of `t` in the input, so among equal timestamps it stays in front: the sort is stable. */
  function InsertNewestFirst(x: Stat, t: seq<Stat>): (r: seq<Stat>)
    ensures multiset(r) == multiset(t) + multiset{x}
  {
    if |t| == 0 || t[0].createdAt <= x.createdAt then [x] + t
    else
      assert t == [t[0]] + t[1..];
      [t[0]] + InsertNewestFirst(x, t[1..])
  }

  /** Inserting into a newest-first list keeps it newest first. */
  lemma {:induction false} InsertKeepsOrder(x: Stat, t: seq<Stat>)
    requires NewestFirst(t)
    ensures NewestFirst(InsertNewestFirst(x, t))
  {
    if |t| > 0 && x.createdAt < t[0].createdAt {
      var rest := InsertNewestFirst(x, t[1..]);
      InsertKeepsOrder(x, t[1..]);
      forall y | y in rest ensures y.createdAt <= t[0].createdAt {
        assert y in multiset(rest);
        if y != x {
          assert y in t[1..];
          var k :| 0 <= k < |t[1..]| && t[1..][k] == y;
          assert t[k + 1] == y;
        }
      }
      var r := [t[0]] + rest;
      forall i, j | 0 <= i < j < |r| ensures r[j].createdAt <= r[i].createdAt {
        assert r[j] == rest[j - 1];
        if i == 0 {
          assert r[j] in rest;
        } else {
          assert r[i] == rest[i - 1];
        }
      }
    }
  }

  /** `rows.sort((a, b) => b.created_at - a.created_at)`: a stable sort, newest first. */
  function SortNewestFirst(s: seq<Stat>): (r: seq<Stat>)
    ensures multiset(r) == multiset(s)
    ensures NewestFirst(r)
  {
    if |s| == 0 then []
    else
      assert s == [s[0]] + s[1..];
      var sorted := SortNewestFirst(s[1..]);
      InsertKeepsOrder(s[0], sorted);
      InsertNewestFirst(s[0], sorted)
  }

  /** `rows[0]`, which is `undefined` on an empty array. */
  function First(s: seq<Stat>): Option<Stat>
  {
    if |s| == 0 then None else Some(s[0])
  }

  /** The position of the reference choice of a device's latest row: the first row, in fetch
      order, whose timestamp no other row exceeds. */
  function NewestIndex(s: seq<Stat>): (k: nat)
    requires |s| > 0
    ensures k < |s|
    ensures forall j :: 0 <= j < |s| ==> s[j].createdAt <= s[k].createdAt
    // ties go to the earliest row
    ensures forall j :: 0 <= j < k ==> s[j].createdAt < s[k].createdAt
  {
    if |s| == 1 then 0
    else
      var k := NewestIndex(s[1..]);
      assert forall j :: 1 <= j < |s| ==> s[j] == s[1..][j - 1];
      if s[k + 1].createdAt <= s[0].createdAt then 0 else k + 1
  }

  /** The reference choice of a device's latest row, or none without rows. */
  function Newest(s: seq<Stat>): (r: Option<Stat>)
    ensures r.None? <==> |s| == 0
    ensures r.Some? ==> r.value in s && forall t :: t in s ==> t.createdAt <= r.value.createdAt
  {
    if |s| == 0 then None else Some(s[NewestIndex(s)])
  }

  /** The latest telemetry row of a device, as the screens compute it:
      filter by key, sort newest first, take element 0. */
  function LatestStat(stats: seq<Stat>, key: DeviceKey): Option<Stat>
  {
    First(SortNewestFirst(Matching(stats, key)))
  }

  /** `latestStat && (now - latestStat.created_at) / 1000 / 60 <= 5`: `undefined` without a row,
      a boolean otherwise. */
  function Classify(latest: Option<Stat>, now: int): Value
  {
    match latest
    case None => Undefined
    case Some(s) => Bool(now - s.createdAt <= WindowMs)
  }

  /** `{ ...device, isOnline }`. */
  function EnrichDevice(d: Device, stats: seq<Stat>, now: int): (r: Device)
    ensures r == d.(isOnline := r.isOnline)
  {
    d.(isOnline := Classify(LatestStat(stats, d.key), now))
  }

  /** `devicesData.map(...)`: one enriched row per device row, in order, every one of them classified
      against the same `now`. */
  function Enrich(devices: seq<Device>, stats: seq<Stat>, now: int): (r: seq<Device>)
    ensures |r| == |devices|
    ensures forall i :: 0 <= i < |r| ==> r[i] == devices[i].(isOnline := r[i].isOnline)
  {
    seq(|devices|, i requires 0 <= i < |devices| => EnrichDevice(devices[i], stats, now))
  }

  /** Some telemetry row for `key` is at most five minutes older than `now`. */
  ghost predicate RecentlySeen(stats: seq<Stat>, key: DeviceKey, now: int)
  {
    exists s :: s in stats && s.deviceKey == key && now - s.createdAt <= WindowMs
  }

  /** Sorting and taking the head picks exactly the reference row: the first of the newest. */
  lemma {:induction false} SortedHeadIsNewest(s: seq<Stat>)
    ensures First(SortNewestFirst(s)) == Newest(s)
  {
    if |s| > 0 {
      SortedHeadIsNewest(s[1..]);
    }
  }

  /** The classifier's boundary: exactly five minutes old is online, one millisecond more is
      offline, a row from the future is online, and no row gives `undefined`. */
  lemma ClassifyBoundary(s: Stat, now: int)
    ensures Classify(None, now) == Undefined && !Truthy(Classify(None, now))
    ensures Truthy(Classify(Some(s), s.createdAt + 300000))
    ensures !Truthy(Classify(Some(s), s.createdAt + 300001))
    ensures now <= s.createdAt ==> Truthy(Classify(Some(s), now))
  {
  }

  /** A device is online exactly when some telemetry row with its key is within the window: the
      newest row decides, and it is within the window whenever any row is. */
  lemma {:induction false} DeviceOnlineIff(d: Device, stats: seq<Stat>, now: int)
    ensures Truthy(EnrichDevice(d, stats, now).isOnline) <==> RecentlySeen(stats, d.key, now)
    ensures EnrichDevice(d, stats, now).isOnline == Undefined <==> Matching(stats, d.key) == []
  {
    var m := Matching(stats, d.key);
    SortedHeadIsNewest(m);
    if Newest(m).Some? {
      if RecentlySeen(stats, d.key, now) {
        var s :| s in stats && s.deviceKey == d.key && now - s.createdAt <= WindowMs;
        assert s in m;
      }
    }
  }

  /** The same, for every row of an enrichment. */
  lemma EnrichOnlineIff(devices: seq<Device>, stats: seq<Stat>, now: int)
    ensures forall i :: 0 <= i < |devices| ==>
              (Truthy(Enrich(devices, stats, now)[i].isOnline) <==> RecentlySeen(stats, devices[i].key, now))
  {
    forall i | 0 <= i < |devices|
      ensures Truthy(Enrich(devices, stats, now)[i].isOnline) <==> RecentlySeen(stats, devices[i].key, now)
    {
      DeviceOnlineIff(devices[i], stats, now);
    }
  }

  /** A device without any telemetry row for its key is offline (its `isOnline` is `undefined`). */
  lemma NoTelemetryIsOffline(d: Device, stats: seq<Stat>, now: int)
    requires forall s :: s in stats ==> s.deviceKey != d.key
    ensures EnrichDevice(d, stats, now).isOnline == Undefined
    ensures !Truthy(EnrichDevice(d, stats, now).isOnline)
  {
    DeviceOnlineIff(d, stats, now);
    MatchingNone(stats, d.key);
  }

  /** No row carries the key, so the filter keeps nothing. */
  lemma {:induction false} MatchingNone(stats: seq<Stat>, key: DeviceKey)
    requires forall s :: s in stats ==> s.deviceKey != key
    ensures Matching(stats, key) == []
  {
    if |stats| > 0 {
      MatchingNone(stats[1..], key);
    }
  }

  /** Filtering distributes over concatenation. */
  lemma {:induction false} MatchingAppend(a: seq<Stat>, b: seq<Stat>, key: DeviceKey)
    ensures Matching(a + b, key) == Matching(a, key) + Matching(b, key)
  {
    if |a| > 0 {
      assert (a + b)[0] == a[0];
      assert (a + b)[1..] == a[1..] + b;
      MatchingAppend(a[1..], b, key);
    } else {
      assert a + b == b;
    }
  }

  /** Correlation is by key: telemetry rows for other keys, wherever they sit in the fetched list,
      never change a device's enrichment. */
  lemma {:induction false} OtherKeysIgnored(d: Device, a: seq<Stat>, others: seq<Stat>, b: seq<Stat>, now: int)
    requires forall o :: o in others ==> o.deviceKey != d.key
    ensures EnrichDevice(d, a + others + b, now) == EnrichDevice(d, a + b, now)
  {
    MatchingSkipsOthers(a, others, b, d.key);
  }

  /** The filter drops a block of rows for other keys wherever it sits in the list. */
  lemma {:induction false} MatchingSkipsOthers(a: seq<Stat>, others: seq<Stat>, b: seq<Stat>, key: DeviceKey)
    requires forall o :: o in others ==> o.deviceKey != key
    ensures Matching(a + others + b, key) == Matching(a + b, key)
  {
    MatchingAppend(a + others, b, key);
    MatchingAppend(a, others, key);
    MatchingAppend(a, b, key);
    MatchingNone(others, key);
  }

  /** The status depends only on which rows carry the key, not on their order: the stable sort's
      tie-break among equal timestamps cannot change it. */
  lemma {:induction false} StatusIgnoresOrder(d: Device, s1: seq<Stat>, s2: seq<Stat>, now: int)
    requires multiset(Matching(s1, d.key)) == multiset(Matching(s2, d.key))
    ensures EnrichDevice(d, s1, now).isOnline == EnrichDevice(d, s2, now).isOnline
  {
    var m1, m2 := Matching(s1, d.key), Matching(s2, d.key);
    assert forall s :: s in m1 <==> s in m2 by {
      forall s ensures s in m1 <==> s in m2 {
        assert s in m1 <==> s in multiset(m1);
        assert s in m2 <==> s in multiset(m2);
      }
    }
    DeviceOnlineIff(d, s1, now);
    DeviceOnlineIff(d, s2, now);
    if RecentlySeen(s1, d.key, now) {
      var s :| s in s1 && s.deviceKey == d.key && now - s.createdAt <= WindowMs;
      assert s in m1;
    }
    if RecentlySeen(s2, d.key, now) {
      var s :| s in s2 && s.deviceKey == d.key && now - s.createdAt <= WindowMs;
      assert s in m2;
    }
    if m1 != [] { assert m1[0] in m2; }
    if m2 != [] { assert m2[0] in m1; }
  }

  /** `isOnline ? "Online" : "Offline"`, the status label every screen shows. */
  function StatusText(v: Value): string
  {
    Conditional(v, "Online", "Offline")
  }

  /** All rows of one build share one `now`: two devices with the same key get the same status. */
  lemma SameKeySameStatus(devices: seq<Device>, stats: seq<Stat>, now: int, i: nat, j: nat)
    requires i < |devices| && j < |devices|
    requires devices[i].key == devices[j].key
    ensures Enrich(devices, stats, now)[i].isOnline == Enrich(devices, stats, now)[j].isOnline
  {
  }
}
