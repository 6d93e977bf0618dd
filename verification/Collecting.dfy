/** The collectors in a row, as the agent composes them. */
module Collecting {
  import opened Prelude
  import opened Text
  import Sorting
  import opened Peers
  import opened Filesystem
  import opened Operations
  import opened Manager
  import opened Views
  import opened Snapshots
  import opened Merging

  /** The AmneziaWG adapter's reading of the managed interface; None if it fails. */
  datatype Adapter = Adapter(view: Option<DeviceView>, transport: string, typeName: string)

  lemma ValidKeys(lib: Library, net: Network, peers: seq<Peer>)
    requires ValidState(lib, net, peers)
    ensures DistinctKeys(peers)
  {
    hide ValidPeer;
  }

  /** `to` is `from` with the adapter's interface put in, in some order. */
  ghost predicate Inserted(from: seq<DeviceSnapshot>, adapter: Adapter, to: seq<DeviceSnapshot>)
  {
    exists s: DeviceSnapshot ::
      && multiset(to) == multiset(WithInterface(from, s))
      && adapter.view.Some? && s.typeName == adapter.typeName
      && MapsDevice(adapter.view.value, adapter.transport, s.(typeName := adapter.view.value.typeName))
  }

  lemma MappedType(adapter: Adapter, s: DeviceSnapshot)
    requires adapter.view.Some? && MapsDevice(adapter.view.value, adapter.transport, s)
    ensures s.(typeName := adapter.typeName).(typeName := adapter.view.value.typeName) == s
  {
    hide MapsPeers, KeyLeq;
  }

  lemma AdapterProper(adapter: Adapter, s: DeviceSnapshot)
    requires adapter.view.Some? && s.typeName == adapter.typeName
    requires MapsDevice(adapter.view.value, adapter.transport, s.(typeName := adapter.view.value.typeName))
    ensures s.name == adapter.view.value.name
    ensures Sorting.SortedBy(s.peers, KeyLeq) && s.peerCount == |s.peers|
  {
    hide KeyLeq, MapsPeers;
    MappedIsCounted(adapter.view.value, adapter.transport, s.(typeName := adapter.view.value.typeName));
  }

  lemma InterfaceListed(devices: seq<DeviceSnapshot>, s: DeviceSnapshot, r: seq<DeviceSnapshot>)
    requires multiset(r) == multiset(WithInterface(devices, s))
    ensures exists i :: 0 <= i < |r| && r[i].name == s.name
  {
    var w := WithInterface(devices, s);
    match FirstNamed(devices, s.name) {
      case None => assert w[|devices|] == s;
      case Some(i) => assert w[i] == s;
    }
    Sorting.SameMembers(r, w);
    assert s in w;
    var j :| 0 <= j < |r| && r[j] == s;
  }

  /** One of the interfaces cannot be read. */
  predicate SourceFails(reported: Option<seq<Option<DeviceView>>>, adapter: Option<Adapter>)
  {
    reported.None? || (adapter.Some? && adapter.value.view.None?)
  }

  predicate HasDevice(devices: seq<DeviceSnapshot>, name: string)
  {
    exists i :: 0 <= i < |devices| && devices[i].name == name
  }

  /**
   * One snapshot. It fails just if a source does, or else the list cannot be read, or else no device has the managed
   * interface's name. The devices are sorted by name and their peers by key, all counts are right, the managed
   * interface is there and is joined with exactly the list that was read, and an adapter's interface is in it once.
   */
  method CollectAll(reported: Option<seq<Option<DeviceView>>>, now: int, adapter: Option<Adapter>, manager: Manager,
    name: string, loadFails: bool)
    returns (r: Result<Snapshot, CollectFailure>, ghost source: seq<DeviceSnapshot>, ghost base: seq<DeviceSnapshot>)
    requires manager.Valid()
    requires adapter.Some? && adapter.value.view.Some? ==> adapter.value.view.value.name == name
    ensures var loaded := LoadState(manager.lib, manager.cfg.net, Current(manager.machine.fs), loadFails);
      && (r == Err(SourceFailed) <==> SourceFails(reported, adapter))
      && (r == Err(StateFailed) <==> !SourceFails(reported, adapter) && loaded.Err?)
      && (r == Err(InterfaceMissing) <==> !SourceFails(reported, adapter) && loaded.Ok? && !HasDevice(base, name))
      && (r.Ok? ==>
            && loaded.Ok? && |r.value.devices| == |base|
            && (forall i :: 0 <= i < |base| ==> MergedDevice(base[i], loaded.value, name, r.value.devices[i]))
            && (forall i :: 0 <= i < |base| && base[i].name == name ==>
                  ShowsManaged(base[i].peers, loaded.value, r.value.devices[i].peers)))
    ensures !SourceFails(reported, adapter) ==>
      && MapsDevices(Present(reported.value), "wireguard", source)
      && (if adapter.None? then base == source else Inserted(source, adapter.value, base) && HasDevice(base, name))
    ensures r.Ok? ==> Proper(r.value.devices) && HasDevice(r.value.devices, name)
    ensures r.Ok? ==> forall i, j :: 0 <= i < j < |r.value.devices| ==>
      StringLeq(r.value.devices[i].name, r.value.devices[j].name)
    ensures r.Ok? ==> r.value.schemaVersion == 1 && r.value.collectedAt == now
    ensures r.Ok? && adapter.Some? && |Named(source, name)| <= 1 ==> |Named(r.value.devices, name)| == 1
  {
    hide ValidState, ShowsManaged, MapsDevices, MapsDevice, Proper, DistinctKeys, MergedDevice, Current;
    source, base := [], [];
    if reported.None? {
      return Err(SourceFailed), source, base;
    }
    var snapshot := Collect(reported.value, now);
    source, base := snapshot.devices, snapshot.devices;
    if adapter.Some? {
      if adapter.value.view.None? {
        return Err(SourceFailed), source, base;
      }
      var mapped := MapDevice(adapter.value.view.value, adapter.value.transport);
      var s := mapped.(typeName := adapter.value.typeName);
      MappedType(adapter.value, mapped);
      AdapterProper(adapter.value, s);
      var devices := AddInterface(snapshot.devices, s);
      snapshot := snapshot.(devices := devices);
      base := devices;
      assert Inserted(source, adapter.value, base);
      if |Named(source, name)| <= 1 {
        InterfaceOnce(source, s, devices);
      }
      InterfaceListed(source, s, devices);
    }
    var managed := manager.ListPeers(loadFails);
    if managed.Err? {
      return Err(StateFailed), source, base;
    }
    ValidKeys(manager.lib, manager.cfg.net, managed.value);
    var merged := Merge(snapshot.devices, managed.value, name);
    if merged.None? {
      return Err(InterfaceMissing), source, base;
    }
    MergeKeepsProper(snapshot.devices, managed.value, name, merged.value);
    SameNames(snapshot.devices, merged.value, name);
    ProperOrder(merged.value);
    return Ok(snapshot.(devices := merged.value)), source, base;
  }
}
