/** The managed peer list: its records, its validation, the address allocator, and what it asks of the device. */
module Peers {
  import opened Prelude
  import opened Text
  import opened Ipv4
  import opened Keys
  import opened Device

  datatype Peer = Peer(
    name: string,
    address: string,
    privateKey: string,
    publicKey: string,
    presharedKey: string,
    allowedIPs: seq<string>,
    enabled: bool)

  /** What the model leaves open: Curve25519 and the reading of IPv6 spellings. */
  datatype Library = Library(pub: Key -> Key, v6: Ipv6Reader)

  /** The managed /24; its first host is the server. */
  datatype Network = Network(a: Byte, b: Byte, c: Byte)

  const FIRST_HOST := 2

  const LAST_HOST := 254

  const POOL_SIZE := 253

  const MAX_NAME := 100

  function HostQuad(net: Network, host: Byte): Quad
  {
    Quad(net.a, net.b, net.c, host)
  }

  predicate Contains(net: Network, q: Quad)
  {
    q == HostQuad(net, q.d)
  }

  // ---- validation ----

  predicate ValidPeer(lib: Library, net: Network, p: Peer)
  {
    && TrimSpace(p.name) != "" && |p.name| <= MAX_NAME
    && ParseKey(p.privateKey).Some?
    && ParseKey(p.publicKey) == Some(lib.pub(ParseKey(p.privateKey).value))
    && ParseKey(p.presharedKey).Some?
    && (match ParseIP4(lib.v6, p.address)
        case None => false
        case Some(q) => Contains(net, q) && FIRST_HOST <= q.d <= LAST_HOST)
    && p.allowedIPs == [p.address + "/32"]
  }

  predicate DistinctStrings(peers: seq<Peer>)
  {
    forall i, j :: 0 <= i < j < |peers| ==>
      peers[i].address != peers[j].address && peers[i].publicKey != peers[j].publicKey
  }

  predicate ValidState(lib: Library, net: Network, peers: seq<Peer>)
  {
    (forall i :: 0 <= i < |peers| ==> ValidPeer(lib, net, peers[i])) && DistinctStrings(peers)
  }

  lemma NothingInvalid(lib: Library, net: Network)
    ensures ValidState(lib, net, [])
  {
  }

  lemma Inherited(lib: Library, net: Network, peers: seq<Peer>, n: nat)
    requires n <= |peers|
    ensures ValidState(lib, net, peers) ==> ValidState(lib, net, peers[..n])
  {
    hide ValidPeer;
  }

  lemma OneMoreValid(lib: Library, net: Network, peers: seq<Peer>, i: nat)
    requires i < |peers| && ValidState(lib, net, peers[..i]) && ValidPeer(lib, net, peers[i])
    requires forall j :: 0 <= j < i ==> peers[j].address != peers[i].address && peers[j].publicKey != peers[i].publicKey
    ensures ValidState(lib, net, peers[..i + 1])
  {
    hide ValidPeer;
    var part := peers[..i + 1];
    assert part == peers[..i] + [peers[i]];
  }

  lemma DuplicateFound(lib: Library, net: Network, peers: seq<Peer>, j: nat, i: nat)
    requires j < i < |peers| && (peers[j].address == peers[i].address || peers[j].publicKey == peers[i].publicKey)
    ensures !ValidState(lib, net, peers[..i + 1])
  {
    hide ValidPeer;
    var part := peers[..i + 1];
    assert part[j] == peers[j] && part[i] == peers[i];
  }

  lemma OffenderFound(lib: Library, net: Network, peers: seq<Peer>, i: nat)
    requires i < |peers| && !ValidPeer(lib, net, peers[i])
    ensures !ValidState(lib, net, peers[..i + 1])
  {
    hide ValidPeer;
    assert peers[..i + 1][i] == peers[i];
  }

  /** validateState: the first offending item is reported. */
  method ValidateState(lib: Library, net: Network, peers: seq<Peer>) returns (r: Result<(), nat>)
    ensures r.Ok? <==> ValidState(lib, net, peers)
    ensures r.Err? ==>
      && r.error < |peers|
      && ValidState(lib, net, peers[..r.error]) && !ValidState(lib, net, peers[..r.error + 1])
  {
    hide ValidState, ValidPeer;
    assert ValidState(lib, net, peers[..0]) by {
      NothingInvalid(lib, net);
    }
    var addresses: set<string>, publicKeys: set<string> := {}, {};
    for i := 0 to |peers|
      invariant ValidState(lib, net, peers[..i])
      invariant forall a :: a in addresses <==> exists j :: 0 <= j < i && peers[j].address == a
      invariant forall k :: k in publicKeys <==> exists j :: 0 <= j < i && peers[j].publicKey == k
    {
      var p := peers[i];
      if !ValidPeer(lib, net, p) {
        OffenderFound(lib, net, peers, i);
        Inherited(lib, net, peers, i + 1);
        return Err(i);
      }
      if p.address in addresses {
        var j :| 0 <= j < i && peers[j].address == p.address;
        DuplicateFound(lib, net, peers, j, i);
        Inherited(lib, net, peers, i + 1);
        return Err(i);
      }
      if p.publicKey in publicKeys {
        var j :| 0 <= j < i && peers[j].publicKey == p.publicKey;
        DuplicateFound(lib, net, peers, j, i);
        Inherited(lib, net, peers, i + 1);
        return Err(i);
      }
      OneMoreValid(lib, net, peers, i);
      addresses := addresses + {p.address};
      publicKeys := publicKeys + {p.publicKey};
    }
    assert peers[..|peers|] == peers;
    return Ok(());
  }

  // ---- canonical spelling ----

  predicate CanonicalPeer(p: Peer)
  {
    && ParseDotted(p.address).Some? && FamilyOf(p.address) == Dotted
    && CanonicalKey(p.publicKey) && OneLineKey(p.privateKey) && OneLineKey(p.presharedKey)
  }

  predicate Canonical(peers: seq<Peer>)
  {
    forall i :: 0 <= i < |peers| ==> CanonicalPeer(peers[i])
  }

  /** What every list the agent writes is to satisfy. */
  predicate Good(lib: Library, net: Network, peers: seq<Peer>)
  {
    ValidState(lib, net, peers) && Canonical(peers)
  }

  function KeyOf(p: Peer): Key
  {
    match ParseKey(p.publicKey) case Some(k) => k case None => ZeroKey()
  }

  function PskOf(p: Peer): Key
  {
    match ParseKey(p.presharedKey) case Some(k) => k case None => ZeroKey()
  }

  function QuadOf(p: Peer): Quad
  {
    match ParseDotted(p.address) case Some(q) => q case None => Quad(0, 0, 0, 0)
  }

  /** The one network a managed peer is for. */
  function Home(p: Peer): Prefix
  {
    Host32(QuadOf(p))
  }

  /** What the peer is to hold on the device. */
  function Slot(p: Peer): set<Prefix>
  {
    if p.enabled then {Home(p)} else {}
  }

  /** On canonical lists, distinct strings are distinct keys and addresses, each in the pool. */
  lemma GoodPair(lib: Library, net: Network, peers: seq<Peer>, i: nat, j: nat)
    requires Good(lib, net, peers) && i < |peers| && j < |peers|
    ensures PrintQuad(QuadOf(peers[i])) == peers[i].address
    ensures QuadOf(peers[i]) == HostQuad(net, QuadOf(peers[i]).d) && FIRST_HOST <= QuadOf(peers[i]).d <= LAST_HOST
    ensures i != j ==> KeyOf(peers[i]) != KeyOf(peers[j]) && QuadOf(peers[i]) != QuadOf(peers[j])
  {
    assert ValidPeer(lib, net, peers[i]) && ValidPeer(lib, net, peers[j]);
    assert CanonicalPeer(peers[i]) && CanonicalPeer(peers[j]);
    DottedRoundTrip(peers[i].address, QuadOf(peers[i]));
    DottedRoundTrip(peers[j].address, QuadOf(peers[j]));
    if i < j {
      assert peers[i].address != peers[j].address && peers[i].publicKey != peers[j].publicKey;
    } else if j < i {
      assert peers[j].address != peers[i].address && peers[j].publicKey != peers[i].publicKey;
    }
  }

  // ---- the pool ----

  function HostsOf(peers: seq<Peer>): set<nat>
  {
    set p | p in peers :: QuadOf(p).d as nat
  }

  function Range(lo: nat, hi: nat): (s: set<nat>)
    requires lo <= hi
    ensures |s| == hi - lo
    ensures forall x :: x in s <==> lo <= x < hi
    decreases hi - lo
  {
    if lo == hi then {} else {lo} + Range(lo + 1, hi)
  }

  lemma SubsetSize<T>(a: set<T>, b: set<T>)
    requires a <= b
    ensures |a| <= |b|
    ensures |a| == |b| ==> a == b
  {
    assert b == a + (b - a) && |b| == |a| + |b - a|;
  }

  lemma {:induction false} GoodHosts(lib: Library, net: Network, peers: seq<Peer>)
    requires Good(lib, net, peers)
    ensures |HostsOf(peers)| == |peers|
    ensures HostsOf(peers) <= Range(FIRST_HOST, LAST_HOST + 1)
    decreases |peers|
  {
    hide ValidPeer, CanonicalPeer, QuadOf;
    forall i | 0 <= i < |peers| ensures FIRST_HOST <= QuadOf(peers[i]).d <= LAST_HOST {
      GoodPair(lib, net, peers, i, i);
    }
    if peers != [] {
      var n := |peers| - 1;
      var init := peers[..n];
      GoodHosts(lib, net, init);
      var h := QuadOf(peers[n]).d as nat;
      assert HostsOf(peers) == HostsOf(init) + {h} by {
        assert peers == init + [peers[n]];
      }
      forall i | 0 <= i < n ensures QuadOf(init[i]).d != h {
        GoodPair(lib, net, peers, i, n);
        GoodPair(lib, net, peers, n, i);
      }
      assert h !in HostsOf(init);
    }
  }

  /** Pigeonhole: no list the agent writes is longer than the pool. */
  lemma GoodLength(lib: Library, net: Network, peers: seq<Peer>)
    requires Good(lib, net, peers)
    ensures |peers| <= POOL_SIZE
    ensures |peers| == POOL_SIZE <==> HostsOf(peers) == Range(FIRST_HOST, LAST_HOST + 1)
  {
    GoodHosts(lib, net, peers);
    SubsetSize(HostsOf(peers), Range(FIRST_HOST, LAST_HOST + 1));
  }

  predicate Used(peers: seq<Peer>, address: string)
  {
    exists i :: 0 <= i < |peers| && peers[i].address == address
  }

  /** The first host from `host` on whose printed address is not in use. */
  function FreeHost(net: Network, peers: seq<Peer>, host: nat): (r: Option<nat>)
    requires host <= 255
    ensures r.Some? ==> host <= r.value <= LAST_HOST && !Used(peers, PrintQuad(HostQuad(net, r.value)))
    ensures forall h :: host <= h < (if r.Some? then r.value else 255) ==> Used(peers, PrintQuad(HostQuad(net, h)))
    decreases 255 - host
  {
    if host == 255 then None
    else if Used(peers, PrintQuad(HostQuad(net, host))) then FreeHost(net, peers, host + 1)
    else Some(host)
  }

  function NextAddress(net: Network, peers: seq<Peer>): Option<string>
  {
    match FreeHost(net, peers, FIRST_HOST)
    case None => None
    case Some(h) => Some(PrintQuad(HostQuad(net, h)))
  }

  /** nextAddress: the used addresses are collected as strings, then the hosts are tried in order. */
  method FindAddress(lib: Library, net: Network, peers: seq<Peer>) returns (r: Option<string>)
    ensures r == NextAddress(net, peers)
  {
    var used: set<string> := {};
    for i := 0 to |peers|
      invariant forall a :: a in used <==> exists j :: 0 <= j < i && peers[j].address == a
    {
      used := used + {peers[i].address};
    }
    for host := FIRST_HOST to 255
      invariant FreeHost(net, peers, FIRST_HOST) == FreeHost(net, peers, host)
    {
      var candidate := PrintQuad(HostQuad(net, host));
      ParsePrintedQuad(lib.v6, HostQuad(net, host));
      var parsed := ParseIP4(lib.v6, candidate);
      if parsed.Some? && Contains(net, parsed.value) && candidate !in used {
        return Some(candidate);
      }
    }
    return None;
  }

  lemma UsedIsHost(lib: Library, net: Network, peers: seq<Peer>, host: Byte)
    requires Good(lib, net, peers)
    ensures Used(peers, PrintQuad(HostQuad(net, host))) <==> host in HostsOf(peers)
  {
    forall i | 0 <= i < |peers|
      ensures peers[i].address == PrintQuad(HostQuad(net, host)) <==> QuadOf(peers[i]).d == host
    {
      GoodPair(lib, net, peers, i, i);
      DottedRoundTrip(peers[i].address, HostQuad(net, host));
    }
    if host in HostsOf(peers) {
      var p :| p in peers && QuadOf(p).d == host;
      var i :| 0 <= i < |peers| && peers[i] == p;
    }
  }

  lemma UsedHosts(lib: Library, net: Network, peers: seq<Peer>)
    requires Good(lib, net, peers)
    ensures forall h: nat :: FIRST_HOST <= h <= LAST_HOST ==>
      (Used(peers, PrintQuad(HostQuad(net, h))) <==> h in HostsOf(peers))
  {
    hide Good, HostsOf, Used, PrintQuad;
    forall h: nat | FIRST_HOST <= h <= LAST_HOST
      ensures Used(peers, PrintQuad(HostQuad(net, h))) <==> h in HostsOf(peers)
    {
      UsedIsHost(lib, net, peers, h);
    }
  }

  /** The string search finds the least number that `hosts` lacks. */
  lemma LeastUnused(net: Network, peers: seq<Peer>, hosts: set<nat>)
    requires hosts <= Range(FIRST_HOST, LAST_HOST + 1)
    requires forall h: nat :: FIRST_HOST <= h <= LAST_HOST ==>
      (Used(peers, PrintQuad(HostQuad(net, h))) <==> h in hosts)
    ensures FreeHost(net, peers, FIRST_HOST).None? <==> hosts == Range(FIRST_HOST, LAST_HOST + 1)
    ensures FreeHost(net, peers, FIRST_HOST).Some? ==>
      var h := FreeHost(net, peers, FIRST_HOST).value;
      h !in hosts && forall g: nat :: FIRST_HOST <= g < h ==> g in hosts
  {
    hide Used, PrintQuad;
    var free := FreeHost(net, peers, FIRST_HOST);
    if free.None? {
      assert Range(FIRST_HOST, LAST_HOST + 1) <= hosts;
    } else {
      assert free.value in Range(FIRST_HOST, LAST_HOST + 1);
    }
  }

  /**
   * The allocator is exact: the address it prints is that of the lowest host that no record has, between
   * 2 and 254, and it fails just when all 253 are taken.
   */
  lemma AllocatorExact(lib: Library, net: Network, peers: seq<Peer>)
    requires Good(lib, net, peers)
    ensures NextAddress(net, peers).None? <==> |peers| == POOL_SIZE
    ensures NextAddress(net, peers).Some? ==>
      var h := FreeHost(net, peers, FIRST_HOST).value;
      && FIRST_HOST <= h <= LAST_HOST && NextAddress(net, peers) == Some(PrintQuad(HostQuad(net, h)))
      && h !in HostsOf(peers) && (forall g: nat :: FIRST_HOST <= g < h ==> g in HostsOf(peers))
  {
    hide Good, HostsOf, Used, PrintQuad;
    GoodLength(lib, net, peers);
    GoodHosts(lib, net, peers);
    UsedHosts(lib, net, peers);
    LeastUnused(net, peers, HostsOf(peers));
  }

  // ---- the list ----

  /** findPeer: the first record with that public key string. */
  function FindPeer(peers: seq<Peer>, publicKey: string): (r: Option<nat>)
    ensures r.Some? ==> r.value < |peers| && peers[r.value].publicKey == publicKey
    ensures r.Some? ==> forall i :: 0 <= i < r.value ==> peers[i].publicKey != publicKey
    ensures r.None? ==> forall i :: 0 <= i < |peers| ==> peers[i].publicKey != publicKey
  {
    if peers == [] then None
    else if peers[0].publicKey == publicKey then Some(0)
    else
      match FindPeer(peers[1..], publicKey)
      case None =>
        assert forall i :: 0 < i < |peers| ==> peers[i] == peers[1..][i - 1];
        None
      case Some(i) =>
        assert forall j :: 0 < j < |peers| ==> peers[j] == peers[1..][j - 1];
        Some(i + 1)
  }

  method FindIndex(peers: seq<Peer>, publicKey: string) returns (r: Option<nat>)
    ensures r == FindPeer(peers, publicKey)
  {
    for i := 0 to |peers|
      invariant forall j :: 0 <= j < i ==> peers[j].publicKey != publicKey
    {
      if peers[i].publicKey == publicKey {
        return Some(i);
      }
    }
    return None;
  }

  /** Validity is about the set of records, not their order, and is inherited by any part of a list. */
  lemma GoodPart(lib: Library, net: Network, peers: seq<Peer>, part: seq<Peer>, index: seq<nat>)
    requires Good(lib, net, peers) && |index| == |part|
    requires forall i :: 0 <= i < |index| ==> index[i] < |peers| && part[i] == peers[index[i]]
    requires Distinct(index)
    ensures Good(lib, net, part)
  {
    hide ValidPeer, CanonicalPeer;
    forall i | 0 <= i < |part| ensures ValidPeer(lib, net, part[i]) && CanonicalPeer(part[i]) {
      assert ValidPeer(lib, net, peers[index[i]]) && CanonicalPeer(peers[index[i]]);
    }
    forall i, j | 0 <= i < j < |part|
      ensures part[i].address != part[j].address && part[i].publicKey != part[j].publicKey
    {
      var m, n := index[i], index[j];
      assert m != n;
      if m < n {
        assert peers[m].address != peers[n].address && peers[m].publicKey != peers[n].publicKey;
      } else {
        assert peers[n].address != peers[m].address && peers[n].publicKey != peers[m].publicKey;
      }
    }
  }

  lemma GoodWithout(lib: Library, net: Network, peers: seq<Peer>, i: nat)
    requires Good(lib, net, peers) && i < |peers|
    ensures Good(lib, net, Without(peers, i))
  {
    hide ValidPeer, CanonicalPeer;
    var index := seq(|peers| - 1, j requires 0 <= j < |peers| - 1 => if j < i then j else j + 1);
    GoodPart(lib, net, peers, Without(peers, i), index);
  }

  lemma GoodToggle(lib: Library, net: Network, peers: seq<Peer>, i: nat, enabled: bool)
    requires Good(lib, net, peers) && i < |peers|
    ensures Good(lib, net, peers[i := peers[i].(enabled := enabled)])
  {
    var p, q := peers[i], peers[i].(enabled := enabled);
    assert ValidPeer(lib, net, p) && CanonicalPeer(p);
    assert ValidPeer(lib, net, q) && CanonicalPeer(q);
  }

  lemma GoodAppend(lib: Library, net: Network, peers: seq<Peer>, p: Peer)
    requires Good(lib, net, peers) && ValidPeer(lib, net, p) && CanonicalPeer(p)
    requires forall i :: 0 <= i < |peers| ==> peers[i].address != p.address && peers[i].publicKey != p.publicKey
    ensures Good(lib, net, peers + [p])
  {
    hide ValidPeer, CanonicalPeer;
  }

  // ---- what the list asks of the device ----

  function ParseNetworks(v6: Ipv6Reader, values: seq<string>): (r: Option<seq<Prefix>>)
    ensures r.Some? ==> |r.value| == |values|
  {
    if values == [] then Some([])
    else
      match (ParseCIDR(v6, values[0]), ParseNetworks(v6, values[1..]))
      case (Some(p), Some(rest)) => Some([p] + rest)
      case _ => None
  }

  /** parseNetworks. */
  method ReadNetworks(v6: Ipv6Reader, values: seq<string>) returns (r: Option<seq<Prefix>>)
    ensures r == ParseNetworks(v6, values)
  {
    var result: seq<Prefix> := [];
    assert values[0..] == values;
    if ParseNetworks(v6, values).Some? {
      assert [] + ParseNetworks(v6, values).value == ParseNetworks(v6, values).value;
    }
    for i := 0 to |values|
      invariant ParseNetworks(v6, values) ==
        match ParseNetworks(v6, values[i..]) case None => None case Some(rest) => Some(result + rest)
    {
      assert values[i..][1..] == values[i + 1..];
      var p := ParseCIDR(v6, values[i]);
      if p.None? {
        return None;
      }
      if ParseNetworks(v6, values[i + 1..]).Some? {
        assert result + ([p.value] + ParseNetworks(v6, values[i + 1..]).value)
            == result + [p.value] + ParseNetworks(v6, values[i + 1..]).value;
      }
      result := result + [p.value];
    }
    assert values[|values|..] == [] && result + [] == result;
    return Some(result);
  }

  /** applyPeer's configuration, if the record can be read. */
  function ApplyConfig(lib: Library, p: Peer): Option<PeerConfig>
  {
    match (ParseKey(p.publicKey), ParseKey(p.presharedKey))
    case (Some(key), Some(psk)) =>
      (match (if p.enabled then ParseNetworks(lib.v6, p.allowedIPs) else Some([]))
       case None => None
       case Some(allowed) => Some(PeerConfig(key, false, Some(psk), true, allowed)))
    case _ => None
  }

  /** removePeer's configuration. */
  function RemoveConfig(publicKey: string): Option<PeerConfig>
  {
    match ParseKey(publicKey)
    case None => None
    case Some(key) => Some(PeerConfig(key, true, None, false, []))
  }

  /** The device holds for this peer what the list says. */
  predicate AgreesAt(p: Peer, t: Table)
  {
    KeyOf(p) in t && t[KeyOf(p)].psk == PskOf(p) && t[KeyOf(p)].allowed == Slot(p)
  }

  predicate Agrees(peers: seq<Peer>, t: Table)
  {
    forall i :: 0 <= i < |peers| ==> AgreesAt(peers[i], t)
  }

  lemma ParseOneNetwork(v6: Ipv6Reader, s: string)
    ensures ParseNetworks(v6, [s]) == match ParseCIDR(v6, s) case None => None case Some(p) => Some([p])
  {
    hide ParseCIDR;
    assert [s][1..] == [];
    if ParseCIDR(v6, s).Some? {
      assert [ParseCIDR(v6, s).value] + [] == [ParseCIDR(v6, s).value];
    }
  }

  /** What a peer is to hold, as the list of networks that is sent. */
  function SlotList(p: Peer): (r: seq<Prefix>)
    ensures Networks(r) == Slot(p)
  {
    if p.enabled then [Home(p)] else []
  }

  lemma HomeNetwork(lib: Library, net: Network, p: Peer)
    requires ValidPeer(lib, net, p) && CanonicalPeer(p)
    ensures ParseNetworks(lib.v6, p.allowedIPs) == Some([Home(p)])
  {
    DottedRoundTrip(p.address, QuadOf(p));
    ParseHost32(lib.v6, QuadOf(p));
    ParseOneNetwork(lib.v6, p.address + "/32");
  }

  /** A valid canonical record is configured with its own key, its preshared key and its own address. */
  lemma ApplyConfigOf(lib: Library, net: Network, p: Peer)
    requires ValidPeer(lib, net, p) && CanonicalPeer(p)
    ensures ApplyConfig(lib, p) == Some(PeerConfig(KeyOf(p), false, Some(PskOf(p)), true, SlotList(p)))
  {
    HomeNetwork(lib, net, p);
    hide ParseNetworks, ParseKey;
  }
}
