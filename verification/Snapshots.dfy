/** Snapshots of the interfaces: mapping a device, adding the AmneziaWG interface, and joining the managed list. */
module Snapshots {
  import opened Prelude
  import opened Text
  import opened Ipv4
  import opened Keys
  import opened Sorting
  import opened Views

  datatype PeerSnapshot = PeerSnapshot(
    publicKey: string,
    endpoint: Option<string>,
    allowedIPs: seq<string>,
    lastHandshake: Option<nat>,
    received: string,
    transmitted: string,
    keepaliveSeconds: int,
    managedBy: string,
    managedName: string,
    configuredAllowedIPs: seq<string>,
    enabled: Option<bool>)

  datatype DeviceSnapshot = DeviceSnapshot(
    name: string,
    transport: string,
    typeName: string,
    publicKey: string,
    port: int,
    mark: int,
    peerCount: nat,
    peers: seq<PeerSnapshot>)

  datatype Snapshot = Snapshot(schemaVersion: nat, collectedAt: int, devices: seq<DeviceSnapshot>)

  const MANAGED_BY := "peerblade_native"
  const SCHEMA_VERSION := 1

  predicate KeyLeq(a: PeerSnapshot, b: PeerSnapshot)
  {
    StringLeq(a.publicKey, b.publicKey)
  }

  predicate NameLeq(a: DeviceSnapshot, b: DeviceSnapshot)
  {
    StringLeq(a.name, b.name)
  }

  lemma StringOrder()
    ensures TotalPreorder(StringLeq) && TotalPreorder(KeyLeq) && TotalPreorder(NameLeq)
    ensures forall a, b :: StringLeq(a, b) && StringLeq(b, a) ==> a == b
  {
    hide StringLeq;
    forall a, b ensures (StringLeq(a, b) || StringLeq(b, a)) && (StringLeq(a, b) && StringLeq(b, a) ==> a == b) {
      StringLeqTotal(a, b);
    }
    forall a, b, c | StringLeq(a, b) && StringLeq(b, c) ensures StringLeq(a, c) {
      StringLeqTransitive(a, b, c);
    }
  }

  // ---- one device ----

  ghost predicate SortedStrings(xs: seq<string>, ys: seq<string>)
  {
    SortedBy(ys, StringLeq) && multiset(ys) == multiset(xs)
  }

  /** mapPeer, but for the order of the networks, which is sorted. */
  ghost predicate MapsPeer(p: DevicePeer, s: PeerSnapshot)
  {
    && SortedStrings(MapSeq(PrintPrefix, p.allowed), s.allowedIPs)
    && s == PeerSnapshot(PrintKey(p.key), p.endpoint, s.allowedIPs, p.lastHandshake, FormatInt(p.received),
         FormatInt(p.transmitted), Seconds(p.keepalive), "", "", [], None)
  }

  /** The mapping is a function: strings have one sorted order. */
  lemma MapsPeerUnique(p: DevicePeer, s: PeerSnapshot, t: PeerSnapshot)
    requires MapsPeer(p, s) && MapsPeer(p, t)
    ensures s == t
  {
    StringOrder();
    hide StringLeq, PrintPrefix, PrintKey, FormatInt;
    SortedUnique(s.allowedIPs, t.allowedIPs, StringLeq);
  }

  lemma WholeSeconds(duration: int)
    ensures duration >= 0 ==> Seconds(duration) * 1_000_000_000 <= duration < (Seconds(duration) + 1) * 1_000_000_000
    ensures duration < 0 ==> (Seconds(duration) - 1) * 1_000_000_000 < duration <= Seconds(duration) * 1_000_000_000
  {
  }

  /** What was measured can be read off an entry: the peer's key, both counters, and the keepalive in whole seconds. */
  lemma MappedReadsBack(p: DevicePeer, s: PeerSnapshot)
    requires MapsPeer(p, s)
    requires -INT64_LIMIT <= p.received < INT64_LIMIT && -INT64_LIMIT <= p.transmitted < INT64_LIMIT
    ensures ParseKey(s.publicKey) == Some(p.key)
    ensures ParseInt64(s.received) == Some(p.received) && ParseInt64(s.transmitted) == Some(p.transmitted)
    ensures s.endpoint == p.endpoint && s.lastHandshake == p.lastHandshake
    ensures p.keepalive >= 0 ==>
      s.keepaliveSeconds * 1_000_000_000 <= p.keepalive < (s.keepaliveSeconds + 1) * 1_000_000_000
    ensures forall i, j :: 0 <= i < j < |s.allowedIPs| ==> StringLeq(s.allowedIPs[i], s.allowedIPs[j])
    ensures |s.allowedIPs| == |p.allowed|
    ensures forall i :: 0 <= i < |p.allowed| ==> PrintPrefix(p.allowed[i]) in s.allowedIPs
    ensures s.managedBy == "" && s.managedName == "" && s.configuredAllowedIPs == [] && s.enabled == None
  {
    hide PrintPrefix, PrintKey, FormatInt, StringLeq, ParseKey, ParseInt64;
    ParsePrintedKey(p.key);
    ParseFormatInt(p.received);
    ParseFormatInt(p.transmitted);
    WholeSeconds(p.keepalive);
    var printed := MapSeq(PrintPrefix, p.allowed);
    SameMembers(printed, s.allowedIPs);
    assert |multiset(printed)| == |multiset(s.allowedIPs)|;
    forall i | 0 <= i < |p.allowed| ensures PrintPrefix(p.allowed[i]) in s.allowedIPs {
      assert printed[i] in printed;
    }
  }

  method MapPeer(p: DevicePeer) returns (s: PeerSnapshot)
    ensures MapsPeer(p, s)
  {
    hide PrintPrefix, PrintKey, FormatInt, StringLeq;
    var allowed: seq<string> := [];
    for i := 0 to |p.allowed|
      invariant allowed == MapSeq(PrintPrefix, p.allowed[..i])
    {
      allowed := allowed + [PrintPrefix(p.allowed[i])];
    }
    assert p.allowed[..|p.allowed|] == p.allowed;
    StringOrder();
    allowed := Sort(allowed, StringLeq);
    s := PeerSnapshot(PrintKey(p.key), p.endpoint, allowed, p.lastHandshake, FormatInt(p.received),
      FormatInt(p.transmitted), Seconds(p.keepalive), "", "", [], None);
  }

  /** The entries of a mapped device are its peers, each mapped, in some order. */
  ghost predicate MapsPeers(peers: seq<DevicePeer>, entries: seq<PeerSnapshot>)
  {
    exists mapped: seq<PeerSnapshot> ::
      && |mapped| == |peers|
      && (forall i :: 0 <= i < |peers| ==> MapsPeer(peers[i], mapped[i]))
      && multiset(mapped) == multiset(entries)
  }

  ghost predicate MapsDevice(d: DeviceView, transport: string, s: DeviceSnapshot)
  {
    && MapsPeers(d.peers, s.peers)
    && SortedBy(s.peers, KeyLeq)
    && s == DeviceSnapshot(d.name, transport, d.typeName, PrintKey(d.key), d.port, d.mark, |d.peers|, s.peers)
  }

  method MapDevice(d: DeviceView, transport: string) returns (s: DeviceSnapshot)
    ensures MapsDevice(d, transport, s)
  {
    hide MapsPeer, PrintKey, StringLeq;
    var peers: seq<PeerSnapshot> := [];
    for i := 0 to |d.peers|
      invariant |peers| == i && forall j :: 0 <= j < i ==> MapsPeer(d.peers[j], peers[j])
    {
      var p := MapPeer(d.peers[i]);
      peers := peers + [p];
    }
    StringOrder();
    ghost var mapped := peers;
    peers := Sort(peers, KeyLeq);
    SameMembers(peers, mapped);
    s := DeviceSnapshot(d.name, transport, d.typeName, PrintKey(d.key), d.port, d.mark, |peers|, peers);
  }

  /** A mapped device has the device's name, key, port and mark, and an entry for each of its peers. */
  lemma DeviceReadsBack(d: DeviceView, transport: string, s: DeviceSnapshot)
    requires MapsDevice(d, transport, s)
    ensures s.name == d.name && s.transport == transport && s.typeName == d.typeName
    ensures ParseKey(s.publicKey) == Some(d.key) && s.port == d.port && s.mark == d.mark
    ensures s.peerCount == |s.peers| == |d.peers|
    ensures forall p :: p in d.peers ==> exists e :: e in s.peers && MapsPeer(p, e)
  {
    hide MapsPeer, KeyLeq, PrintKey, ParseKey;
    ParsePrintedKey(d.key);
    var mapped :| |mapped| == |d.peers| && multiset(mapped) == multiset(s.peers)
      && (forall i :: 0 <= i < |d.peers| ==> MapsPeer(d.peers[i], mapped[i]));
    SameMembers(mapped, s.peers);
    forall p | p in d.peers ensures exists e :: e in s.peers && MapsPeer(p, e) {
      var i :| 0 <= i < |d.peers| && d.peers[i] == p;
      assert mapped[i] in mapped;
    }
  }

  // ---- all devices ----

  /** What every snapshot satisfies: devices sorted by name, peers by key, and the counts right. */
  predicate Proper(devices: seq<DeviceSnapshot>)
  {
    && SortedBy(devices, NameLeq)
    && forall i :: 0 <= i < |devices| ==>
         SortedBy(devices[i].peers, KeyLeq) && devices[i].peerCount == |devices[i].peers|
  }

  /** Names and keys rise in the order of strings. */
  lemma ProperOrder(devices: seq<DeviceSnapshot>)
    requires Proper(devices)
    ensures forall i, j :: 0 <= i < j < |devices| ==> StringLeq(devices[i].name, devices[j].name)
    ensures forall d, i, j :: d in devices && 0 <= i < j < |d.peers| ==>
      StringLeq(d.peers[i].publicKey, d.peers[j].publicKey)
    ensures forall d :: d in devices ==> d.peerCount == |d.peers|
  {
    hide StringLeq;
    forall i, j | 0 <= i < j < |devices| ensures StringLeq(devices[i].name, devices[j].name) {
      assert NameLeq(devices[i], devices[j]);
    }
    forall d, i, j | d in devices && 0 <= i < j < |d.peers|
      ensures StringLeq(d.peers[i].publicKey, d.peers[j].publicKey)
    {
      assert KeyLeq(d.peers[i], d.peers[j]);
    }
  }

  lemma ProperPermutation(xs: seq<DeviceSnapshot>, ys: seq<DeviceSnapshot>)
    requires multiset(xs) == multiset(ys) && SortedBy(ys, NameLeq)
    requires forall i :: 0 <= i < |xs| ==> SortedBy(xs[i].peers, KeyLeq) && xs[i].peerCount == |xs[i].peers|
    ensures Proper(ys)
  {
    hide KeyLeq, NameLeq;
    SameMembers(xs, ys);
    forall i | 0 <= i < |ys| ensures SortedBy(ys[i].peers, KeyLeq) && ys[i].peerCount == |ys[i].peers| {
      assert ys[i] in xs;
    }
  }

  function Present(devices: seq<Option<DeviceView>>): seq<DeviceView>
  {
    if devices == [] then []
    else (if devices[0].Some? then [devices[0].value] else []) + Present(devices[1..])
  }

  lemma {:induction false} PresentStep(devices: seq<Option<DeviceView>>, i: nat)
    requires i < |devices|
    ensures Present(devices[..i + 1]) == Present(devices[..i]) + (if devices[i].Some? then [devices[i].value] else [])
    decreases i
  {
    if i == 0 {
      assert devices[..1] == [devices[0]] && devices[..0] == [] && devices[..1][1..] == [];
    } else {
      PresentStep(devices[1..], i - 1);
      assert devices[..i + 1][1..] == devices[1..][..i] && devices[..i][1..] == devices[1..][..i - 1];
    }
  }

  /** The devices are the ones the client reported, nil ones left out, each mapped, in some order. */
  ghost predicate MapsDevices(devices: seq<DeviceView>, transport: string, entries: seq<DeviceSnapshot>)
  {
    exists mapped: seq<DeviceSnapshot> ::
      && |mapped| == |devices|
      && (forall i :: 0 <= i < |devices| ==> MapsDevice(devices[i], transport, mapped[i]))
      && multiset(mapped) == multiset(entries)
  }

  lemma {:induction false} PresentAll(devices: seq<Option<DeviceView>>, d: DeviceView)
    ensures d in Present(devices) <==> Some(d) in devices
    decreases |devices|
  {
    if devices != [] {
      PresentAll(devices[1..], d);
      assert devices == [devices[0]] + devices[1..];
    }
  }

  /** Every device that is reported is in the snapshot, and nothing else is. */
  lemma AllReported(devices: seq<Option<DeviceView>>, transport: string, entries: seq<DeviceSnapshot>)
    requires MapsDevices(Present(devices), transport, entries)
    ensures forall d :: Some(d) in devices ==> exists s :: s in entries && MapsDevice(d, transport, s)
    ensures forall s :: s in entries ==> exists d :: Some(d) in devices && MapsDevice(d, transport, s)
  {
    hide MapsDevice, Present;
    var present := Present(devices);
    var mapped :| |mapped| == |present| && multiset(mapped) == multiset(entries)
      && (forall i :: 0 <= i < |present| ==> MapsDevice(present[i], transport, mapped[i]));
    SameMembers(mapped, entries);
    forall d | Some(d) in devices ensures exists s :: s in entries && MapsDevice(d, transport, s) {
      PresentAll(devices, d);
      var i :| 0 <= i < |present| && present[i] == d;
      assert mapped[i] in mapped;
    }
    forall s | s in entries ensures exists d :: Some(d) in devices && MapsDevice(d, transport, s) {
      var i :| 0 <= i < |mapped| && mapped[i] == s;
      PresentAll(devices, present[i]);
      assert present[i] in present;
    }
  }

  lemma MappedIsCounted(d: DeviceView, transport: string, s: DeviceSnapshot)
    requires MapsDevice(d, transport, s)
    ensures SortedBy(s.peers, KeyLeq) && s.peerCount == |s.peers|
  {
    hide MapsPeer, KeyLeq, PrintKey;
    var mapped :| |mapped| == |d.peers| && multiset(mapped) == multiset(s.peers)
      && (forall i :: 0 <= i < |d.peers| ==> MapsPeer(d.peers[i], mapped[i]));
    SameMembers(mapped, s.peers);
  }

  /** wireguard.Collector.Collect, after the devices were read; `now` is the time. */
  method Collect(devices: seq<Option<DeviceView>>, now: int) returns (snapshot: Snapshot)
    ensures MapsDevices(Present(devices), "wireguard", snapshot.devices) && Proper(snapshot.devices)
    ensures snapshot.schemaVersion == 1 && snapshot.collectedAt == now
  {
    hide MapsDevice, StringLeq;
    var r := [];
    for i := 0 to |devices|
      invariant |r| == |Present(devices[..i])|
      invariant forall j :: 0 <= j < |r| ==> MapsDevice(Present(devices[..i])[j], "wireguard", r[j])
    {
      PresentStep(devices, i);
      if devices[i].Some? {
        var s := MapDevice(devices[i].value, "wireguard");
        r := r + [s];
      }
    }
    assert devices[..|devices|] == devices;
    StringOrder();
    ghost var mapped := r;
    r := Sort(r, NameLeq);
    forall i | 0 <= i < |mapped| ensures SortedBy(mapped[i].peers, KeyLeq) && mapped[i].peerCount == |mapped[i].peers| {
      MappedIsCounted(Present(devices)[i], "wireguard", mapped[i]);
    }
    ProperPermutation(mapped, r);
    snapshot := Snapshot(SCHEMA_VERSION, now, r);
  }

  // ---- the AmneziaWG interface ----

  function Named(devices: seq<DeviceSnapshot>, name: string): seq<DeviceSnapshot>
  {
    if devices == [] then []
    else (if devices[0].name == name then [devices[0]] else []) + Named(devices[1..], name)
  }

  /** The first device of that name. */
  function FirstNamed(devices: seq<DeviceSnapshot>, name: string): (r: Option<nat>)
    ensures r.Some? ==> r.value < |devices| && devices[r.value].name == name
    ensures r.Some? ==> forall i :: 0 <= i < r.value ==> devices[i].name != name
    ensures r.None? ==> forall i :: 0 <= i < |devices| ==> devices[i].name != name
  {
    if devices == [] then None
    else if devices[0].name == name then Some(0)
    else
      match FirstNamed(devices[1..], name)
      case None =>
        assert forall i :: 0 < i < |devices| ==> devices[i] == devices[1..][i - 1];
        None
      case Some(i) =>
        assert forall j :: 0 < j < |devices| ==> devices[j] == devices[1..][j - 1];
        Some(i + 1)
  }

  function WithInterface(devices: seq<DeviceSnapshot>, s: DeviceSnapshot): seq<DeviceSnapshot>
  {
    match FirstNamed(devices, s.name)
    case None => devices + [s]
    case Some(i) => devices[i := s]
  }

  /** amneziawg.Collector.Collect: the interface replaces the first device of its name, or is added. */
  method AddInterface(devices: seq<DeviceSnapshot>, s: DeviceSnapshot) returns (r: seq<DeviceSnapshot>)
    requires Proper(devices) && SortedBy(s.peers, KeyLeq) && s.peerCount == |s.peers|
    ensures multiset(r) == multiset(WithInterface(devices, s)) && Proper(r)
  {
    hide StringLeq, NameLeq, KeyLeq;
    r := devices;
    var replaced := false;
    for i := 0 to |devices|
      invariant r == devices && !replaced
      invariant forall j :: 0 <= j < i ==> devices[j].name != s.name
    {
      if r[i].name == s.name {
        r := r[i := s];
        replaced := true;
        assert FirstNamed(devices, s.name) == Some(i);
        break;
      }
    }
    if !replaced {
      r := r + [s];
    }
    StringOrder();
    ghost var unsorted := r;
    r := Sort(r, NameLeq);
    ProperPermutation(unsorted, r);
  }

  lemma {:induction false} NamedCounts(xs: seq<DeviceSnapshot>, name: string, d: DeviceSnapshot)
    ensures multiset(Named(xs, name))[d] == if d.name == name then multiset(xs)[d] else 0
    decreases |xs|
  {
    if xs != [] {
      NamedCounts(xs[1..], name, d);
      TailMultiset(xs);
    }
  }

  /** The devices of a name, as a multiset, are those of the list, so their order does not matter. */
  lemma NamedOf(xs: seq<DeviceSnapshot>, ys: seq<DeviceSnapshot>, name: string)
    requires forall d: DeviceSnapshot :: d.name == name ==> multiset(xs)[d] == multiset(ys)[d]
    ensures multiset(Named(xs, name)) == multiset(Named(ys, name))
  {
    forall d: DeviceSnapshot ensures multiset(Named(xs, name))[d] == multiset(Named(ys, name))[d] {
      NamedCounts(xs, name, d);
      NamedCounts(ys, name, d);
    }
  }

  lemma WithInterfaceCounts(devices: seq<DeviceSnapshot>, s: DeviceSnapshot, d: DeviceSnapshot)
    ensures multiset(WithInterface(devices, s))[d] ==
      multiset(devices)[d] + (if d == s then 1 else 0)
      - (match FirstNamed(devices, s.name) case Some(i) => (if d == devices[i] then 1 else 0) case None => 0)
  {
  }

  /** The other devices are as before. */
  lemma OthersKept(devices: seq<DeviceSnapshot>, s: DeviceSnapshot, r: seq<DeviceSnapshot>, name: string)
    requires multiset(r) == multiset(WithInterface(devices, s)) && name != s.name
    ensures multiset(Named(r, name)) == multiset(Named(devices, name))
  {
    forall d: DeviceSnapshot | d.name == name ensures multiset(r)[d] == multiset(devices)[d] {
      WithInterfaceCounts(devices, s, d);
    }
    NamedOf(r, devices, name);
  }

  lemma OneElement(m: multiset<DeviceSnapshot>, d: DeviceSnapshot)
    requires d in m && |m| <= 1
    ensures m == multiset{d}
  {
    assert |m - multiset{d}| == 0;
    assert m == m - multiset{d} + multiset{d};
  }

  lemma InterfaceCounts(devices: seq<DeviceSnapshot>, s: DeviceSnapshot, d: DeviceSnapshot)
    requires |Named(devices, s.name)| <= 1 && d.name == s.name
    ensures multiset(devices)[d] ==
      match FirstNamed(devices, s.name) case Some(i) => (if d == devices[i] then 1 else 0) case None => 0
  {
    NamedCounts(devices, s.name, d);
    match FirstNamed(devices, s.name)
    case None =>
    case Some(i) =>
      NamedCounts(devices, s.name, devices[i]);
      assert devices[i] in multiset(devices);
      assert |multiset(Named(devices, s.name))| <= 1;
      OneElement(multiset(Named(devices, s.name)), devices[i]);
  }

  lemma InterfaceCount(devices: seq<DeviceSnapshot>, s: DeviceSnapshot, r: seq<DeviceSnapshot>, d: DeviceSnapshot)
    requires multiset(r) == multiset(WithInterface(devices, s)) && |Named(devices, s.name)| <= 1
    ensures multiset(Named(r, s.name))[d] == if d == s then 1 else 0
  {
    hide Named, WithInterface, FirstNamed;
    NamedCounts(r, s.name, d);
    if d.name == s.name {
      WithInterfaceCounts(devices, s, d);
      InterfaceCounts(devices, s, d);
    }
  }

  /** The interface is in the result exactly once if the source listed it at most once. */
  lemma InterfaceOnce(devices: seq<DeviceSnapshot>, s: DeviceSnapshot, r: seq<DeviceSnapshot>)
    requires multiset(r) == multiset(WithInterface(devices, s)) && |Named(devices, s.name)| <= 1
    ensures Named(r, s.name) == [s]
  {
    hide Named, WithInterface;
    var found := Named(r, s.name);
    forall d: DeviceSnapshot ensures multiset(found)[d] == multiset{s}[d] {
      InterfaceCount(devices, s, r, d);
    }
    assert multiset(found) == multiset{s} == multiset([s]);
    SameMembers(found, [s]);
    assert found[0] in found;
  }
}
