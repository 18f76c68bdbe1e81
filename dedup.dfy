/**
 * Deduplication against persisted configuration entries: the set of MAC
 * addresses already configured, and the filter that drops discovered
 * devices carrying one of them.
 */
module Dedup {
  import opened Wrappers
  import opened FlowTypes

  /** The truthy `mac_addr` values stored in one entry. */
  function EntryMacs(devs: PersistedEntry): set<string> {
    if devs == [] then {}
    else EntryMacs(devs[..|devs| - 1]) + (if Truthy(devs[|devs| - 1]) then {devs[|devs| - 1].value} else {})
  }

  /** The truthy `mac_addr` values stored in all entries. */
  function KnownMacs(entries: seq<PersistedEntry>): set<string> {
    if entries == [] then {}
    else KnownMacs(entries[..|entries| - 1]) + EntryMacs(entries[|entries| - 1])
  }

  lemma {:induction false} EntryMacsMembership(devs: PersistedEntry, m: string)
    ensures m in EntryMacs(devs) <==> m != "" && exists j :: 0 <= j < |devs| && devs[j] == Some(m)
  {
    if devs != [] {
      var init := devs[..|devs| - 1];
      EntryMacsMembership(init, m);
      if m != "" && exists j :: 0 <= j < |devs| && devs[j] == Some(m) {
        var j :| 0 <= j < |devs| && devs[j] == Some(m);
        if j < |devs| - 1 {
          assert init[j] == Some(m);
        }
      }
    }
  }

  /**
   * A MAC is known exactly when it is non-empty and stored as the
   * `mac_addr` of some device of some entry.
   */
  lemma {:induction false} KnownMacsMembership(entries: seq<PersistedEntry>, m: string)
    ensures m in KnownMacs(entries) <==>
      m != "" && exists i, j :: 0 <= i < |entries| && 0 <= j < |entries[i]| && entries[i][j] == Some(m)
  {
    if entries != [] {
      var init := entries[..|entries| - 1];
      var last := entries[|entries| - 1];
      KnownMacsMembership(init, m);
      EntryMacsMembership(last, m);
      if m != "" && exists i, j :: 0 <= i < |entries| && 0 <= j < |entries[i]| && entries[i][j] == Some(m) {
        var i, j :| 0 <= i < |entries| && 0 <= j < |entries[i]| && entries[i][j] == Some(m);
        if i < |entries| - 1 {
          assert init[i] == entries[i];
        }
      }
      if m in KnownMacs(init) {
        var i, j :| 0 <= i < |init| && 0 <= j < |init[i]| && init[i][j] == Some(m);
        assert entries[i] == init[i];
      }
    }
  }

  /** Collects the MACs of the persisted entries with the source's two nested loops. */
  method ExistingMacs(entries: seq<PersistedEntry>) returns (macs: set<string>)
    ensures macs == KnownMacs(entries)
  {
    macs := {};
    var i := 0;
    while i < |entries|
      invariant 0 <= i <= |entries|
      invariant macs == KnownMacs(entries[..i])
    {
      var devs := entries[i];
      var j := 0;
      while j < |devs|
        invariant 0 <= j <= |devs|
        invariant macs == KnownMacs(entries[..i]) + EntryMacs(devs[..j])
      {
        var mac := devs[j];
        if Truthy(mac) {
          macs := macs + {mac.value};
        }
        assert devs[..j + 1][..j] == devs[..j];
        j := j + 1;
      }
      assert devs[..j] == devs;
      assert entries[..i + 1][..i] == entries[..i];
      i := i + 1;
    }
    assert entries[..i] == entries;
  }

  /** `[dev for dev in devices if dev.mac_addr not in known]` */
  function WithoutKnown(devices: seq<DeviceRecord>, known: set<string>): (r: seq<DeviceRecord>)
    ensures |r| <= |devices|
    ensures forall d :: d in r <==> d in devices && d.macAddr !in known
  {
    if devices == [] then []
    else if devices[0].macAddr in known then WithoutKnown(devices[1..], known)
    else [devices[0]] + WithoutKnown(devices[1..], known)
  }

  /** The filter works device by device: the kept devices stay in their relative order. */
  lemma {:induction false} WithoutKnownAppend(a: seq<DeviceRecord>, b: seq<DeviceRecord>, known: set<string>)
    ensures WithoutKnown(a + b, known) == WithoutKnown(a, known) + WithoutKnown(b, known)
  {
    if a != [] {
      assert (a + b)[0] == a[0];
      assert (a + b)[1..] == a[1..] + b;
      WithoutKnownAppend(a[1..], b, known);
    } else {
      assert a + b == b;
    }
  }

  /** A device with an unknown MAC is kept, a device with a known one dropped. */
  lemma WithoutKnownSingle(d: DeviceRecord, known: set<string>)
    ensures WithoutKnown([d], known) == if d.macAddr in known then [] else [d]
  {
  }

  /** Nothing is dropped when no device's MAC is known. */
  lemma {:induction false} WithoutKnownKeepsAll(devices: seq<DeviceRecord>, known: set<string>)
    requires forall d :: d in devices ==> d.macAddr !in known
    ensures WithoutKnown(devices, known) == devices
  {
    if devices != [] {
      assert devices[0] in devices;
      forall d | d in devices[1..] ensures d.macAddr !in known {
        assert d in devices;
      }
      WithoutKnownKeepsAll(devices[1..], known);
      assert [devices[0]] + devices[1..] == devices;
    }
  }

  /** Filtering twice with the same MACs changes nothing more. */
  lemma WithoutKnownIdempotent(devices: seq<DeviceRecord>, known: set<string>)
    ensures WithoutKnown(WithoutKnown(devices, known), known) == WithoutKnown(devices, known)
  {
  }

  /**
   * Once devices are stored in an entry, the filter against that entry drops
   * every device that has the MAC of a stored device (a non-empty one) and
   * keeps every other.
   */
  lemma StoredDevicesFiltered(stored: seq<DeviceRecord>, areaId: Option<string>, found: seq<DeviceRecord>, d: DeviceRecord)
    requires d in found
    ensures d in WithoutKnown(found, KnownMacs([StoredMacs(Serialize(stored, areaId))])) <==>
      d.macAddr == "" || forall e :: e in stored ==> e.macAddr != d.macAddr
  {
    var entries := [StoredMacs(Serialize(stored, areaId))];
    KnownMacsMembership(entries, d.macAddr);
    if d.macAddr != "" && exists e :: e in stored && e.macAddr == d.macAddr {
      var e :| e in stored && e.macAddr == d.macAddr;
      var j :| 0 <= j < |stored| && stored[j] == e;
      assert entries[0][j] == Some(d.macAddr);
    }
  }
}
