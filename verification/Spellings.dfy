/**
 * Lists that validation accepts although the device cannot hold them: it compares strings, the device compares
 * keys and networks. Exactly when Reconcile does what an accepted list says.
 */
module Spellings {
  import opened Prelude
  import opened Text
  import opened Ipv4
  import opened Keys
  import opened Device
  import opened Peers
  import opened Protocol
  import opened Reconciling
  import opened StateFile
  import opened Truncation
  import opened Runs

  predicate Readable(lib: Library, peers: seq<Peer>)
  {
    forall i :: 0 <= i < |peers| ==> ApplyConfig(lib, peers[i]).Some?
  }

  function ConfigAt(lib: Library, peers: seq<Peer>, i: nat): PeerConfig
    requires Readable(lib, peers) && i < |peers|
  {
    ApplyConfig(lib, peers[i]).value
  }

  /** The device holds exactly what the configuration sets. */
  predicate Holds(t: Table, c: PeerConfig)
  {
    c.key in t && Some(t[c.key].psk) == c.psk && t[c.key].allowed == Networks(c.allowed)
  }

  /** Two configurations for one key that differ, or for two keys that share a network. */
  predicate Clash(c: PeerConfig, d: PeerConfig)
  {
    if c.key == d.key then c.psk != d.psk || Networks(c.allowed) != Networks(d.allowed)
    else exists x :: x in Networks(c.allowed) && x in Networks(d.allowed)
  }

  predicate Clashing(lib: Library, peers: seq<Peer>)
    requires Readable(lib, peers)
  {
    exists i, j :: 0 <= i < j < |peers| && Clash(ConfigAt(lib, peers, i), ConfigAt(lib, peers, j))
  }

  lemma ApplyConfigSets(lib: Library, p: Peer)
    requires ApplyConfig(lib, p).Some?
    ensures var c := ApplyConfig(lib, p).value; !c.remove && c.psk.Some? && c.replace
  {
    hide ParseKey, ParseNetworks;
  }

  lemma ConfiguredHolds(t: Table, c: PeerConfig, d: PeerConfig)
    requires !d.remove && d.psk.Some? && d.replace
    ensures Holds(Configure(t, d, Done), d)
    ensures Holds(t, c) && !Clash(c, d) ==> Holds(Configure(t, d, Done), c)
  {
    hide Configure, Networks;
    ConfigureIsSetPeer(t, d);
    if Holds(t, c) && !Clash(c, d) && c.key != d.key {
      assert t[c.key].allowed - Networks(d.allowed) == t[c.key].allowed;
    }
  }

  lemma {:induction false} PushReads(lib: Library, t: Table, peers: seq<Peer>, i: nat, calls: seq<Call>)
    requires i <= |peers| && Push(lib, t, peers, i, calls).1
    ensures forall j :: i <= j < |peers| ==> ApplyConfig(lib, peers[j]).Some?
    decreases |peers| - i
  {
    hide ApplyConfig, Configure, CallAt;
    if i < |peers| {
      PushReads(lib, Configure(t, ApplyConfig(lib, peers[i]).value, CallAt(calls, i)), peers, i + 1, calls);
    }
  }

  lemma {:induction false} PushHolds(lib: Library, t: Table, peers: seq<Peer>, i: nat, calls: seq<Call>)
    requires i <= |peers| && Push(lib, t, peers, i, calls).1 && Readable(lib, peers) && !Clashing(lib, peers)
    requires forall j :: 0 <= j < i ==> Holds(t, ConfigAt(lib, peers, j))
    ensures forall j :: 0 <= j < |peers| ==> Holds(Push(lib, t, peers, i, calls).0, ConfigAt(lib, peers, j))
    decreases |peers| - i
  {
    hide ApplyConfig, Configure, CallAt, Holds, Clash;
    if i < |peers| {
      var d := ConfigAt(lib, peers, i);
      ApplyConfigSets(lib, peers[i]);
      var u := Configure(t, d, Done);
      forall j | 0 <= j < i + 1 ensures Holds(u, ConfigAt(lib, peers, j)) {
        ConfiguredHolds(t, ConfigAt(lib, peers, j), d);
      }
      PushHolds(lib, u, peers, i + 1, calls);
    }
  }

  /**
   * A completed Reconcile leaves on the device what every record says if and only if no two records clash. This
   * is about every list, however it is spelled, and every device that routes.
   */
  lemma ReconcileHoldsUnlessClashing(lib: Library, t: Table, peers: seq<Peer>, calls: seq<Call>)
    requires Routed(t) && Push(lib, t, peers, 0, calls).1
    ensures Readable(lib, peers)
    ensures (forall j :: 0 <= j < |peers| ==> Holds(Push(lib, t, peers, 0, calls).0, ConfigAt(lib, peers, j)))
      <==> !Clashing(lib, peers)
  {
    hide ApplyConfig, Push;
    PushReads(lib, t, peers, 0, calls);
    PushKeepsRouted(lib, t, peers, 0, calls);
    if !Clashing(lib, peers) {
      hide Clash, Holds, Routed;
      PushHolds(lib, t, peers, 0, calls);
    } else {
      var i, j :| 0 <= i < j < |peers| && Clash(ConfigAt(lib, peers, i), ConfigAt(lib, peers, j));
      hide Networks;
    }
  }

  lemma SlotIsHome(p: Peer)
    ensures Networks(SlotList(p)) <= {Home(p)}
  {
  }

  /** Lists that the agent writes do not clash. */
  lemma GoodNeverClashes(lib: Library, net: Network, peers: seq<Peer>)
    requires Good(lib, net, peers)
    ensures Readable(lib, peers) && !Clashing(lib, peers)
  {
    hide ValidPeer, CanonicalPeer, ApplyConfig, KeyOf, QuadOf, PskOf, SlotList, Slot;
    forall i | 0 <= i < |peers| ensures ApplyConfig(lib, peers[i]) == Some(ConfigFor(peers[i])) {
      MemberValid(lib, net, peers, i);
      ApplyConfigOf(lib, net, peers[i]);
    }
    if Clashing(lib, peers) {
      var i, j :| 0 <= i < j < |peers| && Clash(ConfigAt(lib, peers, i), ConfigAt(lib, peers, j));
      GoodPair(lib, net, peers, i, j);
      SlotIsHome(peers[i]);
      SlotIsHome(peers[j]);
    }
  }

  // ---- accepted lists that clash ----

  function Record(address: string, privateKey: Key, publicKey: string, psk: Key): Peer
  {
    Peer("peer", address, PrintKey(privateKey), publicKey, PrintKey(psk), [address + "/32"], true)
  }

  lemma PlainName()
    ensures TrimSpace("peer") != ""
  {
    assert TrimLeft("peer") == "peer";
  }

  lemma RecordValid(lib: Library, net: Network, address: string, host: Byte, privateKey: Key, publicKey: string,
      psk: Key)
    requires ParseIP4(lib.v6, address) == Some(HostQuad(net, host)) && FIRST_HOST <= host <= LAST_HOST
    requires ParseKey(publicKey) == Some(lib.pub(privateKey))
    ensures ValidPeer(lib, net, Record(address, privateKey, publicKey, psk))
  {
    hide ParseKey, PrintKey, ParseIP4, TrimSpace;
    ParsePrintedKey(privateKey);
    ParsePrintedKey(psk);
    PlainName();
  }

  lemma RecordConfig(lib: Library, address: string, prefix: Prefix, privateKey: Key, publicKey: string, psk: Key)
    requires ParseCIDR(lib.v6, address + "/32") == Some(prefix)
    requires ParseKey(publicKey) == Some(lib.pub(privateKey))
    ensures ApplyConfig(lib, Record(address, privateKey, publicKey, psk))
      == Some(PeerConfig(lib.pub(privateKey), false, Some(psk), true, [prefix]))
  {
    ParsePrintedKey(psk);
    hide ParseKey, PrintKey, ParseCIDR, ParseNetworks;
    ParseOneNetwork(lib.v6, address + "/32");
  }

  lemma PairValid(lib: Library, net: Network, p: Peer, q: Peer)
    requires ValidPeer(lib, net, p) && ValidPeer(lib, net, q) && p.address != q.address && p.publicKey != q.publicKey
    ensures ValidState(lib, net, [p, q])
  {
    hide ValidPeer;
  }

  lemma PairClashes(lib: Library, p: Peer, q: Peer, c: PeerConfig, d: PeerConfig)
    requires ApplyConfig(lib, p) == Some(c) && ApplyConfig(lib, q) == Some(d) && Clash(c, d)
    ensures Readable(lib, [p, q]) && Clashing(lib, [p, q])
  {
    hide ApplyConfig, Clash;
    var peers := [p, q];
    assert Clash(ConfigAt(lib, peers, 0), ConfigAt(lib, peers, 1));
  }

  /** Records of two hosts under two key strings are accepted; they clash if their configurations do. */
  lemma PairOfRecords(lib: Library, net: Network, a: string, g: Byte, pa: Prefix, x: Key, s: string,
    b: string, h: Byte, pb: Prefix, y: Key, t: string, psk: Key)
    requires FIRST_HOST <= g < h <= LAST_HOST && s != t
    requires ParseIP4(lib.v6, a) == Some(HostQuad(net, g)) && ParseIP4(lib.v6, b) == Some(HostQuad(net, h))
    requires ParseCIDR(lib.v6, a + "/32") == Some(pa) && ParseCIDR(lib.v6, b + "/32") == Some(pb)
    requires ParseKey(s) == Some(lib.pub(x)) && ParseKey(t) == Some(lib.pub(y))
    requires Clash(PeerConfig(lib.pub(x), false, Some(psk), true, [pa]),
      PeerConfig(lib.pub(y), false, Some(psk), true, [pb]))
    ensures var peers := [Record(a, x, s, psk), Record(b, y, t, psk)];
      ValidState(lib, net, peers) && Readable(lib, peers) && Clashing(lib, peers)
  {
    hide ParseKey, PrintKey, ParseCIDR, ParseIP4, ValidPeer, ApplyConfig, Clash;
    assert a != b;
    RecordValid(lib, net, a, g, x, s, psk);
    RecordValid(lib, net, b, h, y, t, psk);
    RecordConfig(lib, a, pa, x, s, psk);
    RecordConfig(lib, b, pb, y, t, psk);
    var p, q := Record(a, x, s, psk), Record(b, y, t, psk);
    PairValid(lib, net, p, q);
    hide Record;
    PairClashes(lib, p, q, ApplyConfig(lib, p).value, ApplyConfig(lib, q).value);
  }

  /** One key under two spellings, with two addresses: accepted, and no Reconcile can satisfy it. */
  lemma SpelledTwice(lib: Library, net: Network, privateKey: Key, psk: Key) returns (peers: seq<Peer>)
    ensures ValidState(lib, net, peers) && Readable(lib, peers) && Clashing(lib, peers)
  {
    hide ParseKey, PrintKey, ParseIP4, PrintQuad, ParseCIDR, ValidState, Readable, Clashing;
    var p, q := HostQuad(net, 2), HostQuad(net, 3);
    var k := lib.pub(privateKey);
    var other := EveryKeyHasTwoSpellings(k);
    ParsePrintedKey(k);
    ParsePrintedQuad(lib.v6, p);
    ParsePrintedQuad(lib.v6, q);
    ParseHost32(lib.v6, p);
    ParseHost32(lib.v6, q);
    assert Networks([Host32(p)]) != Networks([Host32(q)]) by {
      assert Host32(p) in Networks([Host32(p)]) && Host32(p) !in Networks([Host32(q)]);
    }
    hide Networks, Host32;
    var a, b := PrintQuad(p), PrintQuad(q);
    PairOfRecords(lib, net, a, 2, Host32(p), privateKey, PrintKey(k), b, 3, Host32(q), privateKey, other, psk);
    peers := [Record(a, privateKey, PrintKey(k), psk), Record(b, privateKey, other, psk)];
  }

  lemma MappedNetwork(v6: Ipv6Reader, a: string)
    requires FamilyOf(a) == Colons && '/' !in a
    ensures ParseCIDR(v6, a + "/32") == v6.cidr(a + "/32")
  {
    IndexOfFirst(a, '/', "32");
    assert a + "/32" == a + ['/'] + "32" && (a + "/32")[..|a|] == a;
  }

  /**
   * Two addresses spelled as IPv4-mapped IPv6 (section 2.5.5.2 of RFC 4291): they name different hosts of the /24,
   * but as /32 networks they are one IPv6 network. Accepted, and again not satisfiable.
   */
  lemma MappedAddresses(lib: Library, net: Network, a: string, b: string, prefix: Prefix, x: Key, y: Key,
      psk: Key) returns (peers: seq<Peer>)
    requires FamilyOf(a) == Colons && lib.v6.host(a) == Some(HostQuad(net, 2)) && lib.v6.cidr(a + "/32") == Some(prefix)
    requires FamilyOf(b) == Colons && lib.v6.host(b) == Some(HostQuad(net, 3)) && lib.v6.cidr(b + "/32") == Some(prefix)
    requires '/' !in a && '/' !in b && lib.pub(x) != lib.pub(y)
    ensures ValidState(lib, net, peers) && Readable(lib, peers) && Clashing(lib, peers)
  {
    assert ParseIP4(lib.v6, a) == Some(HostQuad(net, 2)) && ParseIP4(lib.v6, b) == Some(HostQuad(net, 3));
    hide ParseKey, PrintKey, ParseIP4, ParseCIDR, ValidState, Readable, Clashing;
    var s, t := PrintKey(lib.pub(x)), PrintKey(lib.pub(y));
    ParsePrintedKey(lib.pub(x));
    ParsePrintedKey(lib.pub(y));
    MappedNetwork(lib.v6, a);
    MappedNetwork(lib.v6, b);
    assert prefix in Networks([prefix]);
    hide Networks;
    PairOfRecords(lib, net, a, 2, prefix, x, s, b, 3, prefix, y, t, psk);
    peers := [Record(a, x, s, psk), Record(b, y, t, psk)];
  }

  function Breaks(n: nat): string
  {
    seq(n, _ => '\n')
  }

  lemma {:induction false} BreaksDropped(n: nat, s: string)
    ensures DropLineBreaks(Breaks(n) + s) == DropLineBreaks(s)
    decreases n
  {
    if n == 0 {
      assert Breaks(0) + s == s;
    } else {
      BreaksDropped(n - 1, s);
      assert (Breaks(n) + s)[1..] == Breaks(n - 1) + s;
    }
  }

  lemma BrokenKey(k: Key, n: nat)
    ensures ParseKey([PrintKey(k)[0]] + (Breaks(n) + PrintKey(k)[1..])) == Some(k)
  {
    var s := PrintKey(k);
    var t := [s[0]] + (Breaks(n) + s[1..]);
    ParsePrintedKey(k);
    BreaksDropped(n, s[1..]);
    assert t[1..] == Breaks(n) + s[1..];
    SextetRoundTrip(k[0]);
  }

  lemma BrokenKeyEnds(k: Key, n: nat)
    ensures var s := [PrintKey(k)[0]] + (Breaks(n) + PrintKey(k)[1..]);
      Trimmed(s) && |s| >= n
  {
    PrintedKeyChars(k);
  }

  /** A key may be spelled over many lines; an accepted list can be too long to be loaded again. */
  lemma TooLongToLoad(lib: Library, net: Network, privateKey: Key, psk: Key) returns (peers: seq<Peer>)
    ensures ValidState(lib, net, peers) && |peers| == 1 && Trimmed(peers[0].publicKey)
    ensures DecodeState(EncodeState(peers)) == None
  {
    hide DecodeState, EncodeState, ParseKey, ParseIP4, PrintQuad, ValidPeer;
    var k := lib.pub(privateKey);
    var long := [PrintKey(k)[0]] + (Breaks(READ_LIMIT + 2) + PrintKey(k)[1..]);
    BrokenKey(k, READ_LIMIT + 2);
    ParsePrintedQuad(lib.v6, HostQuad(net, 2));
    RecordValid(lib, net, PrintQuad(HostQuad(net, 2)), 2, privateKey, long, psk);
    peers := [Record(PrintQuad(HostQuad(net, 2)), privateKey, long, psk)];
    BrokenKeyEnds(k, READ_LIMIT + 2);
    FileLength(peers);
    ReadBackIsExact(peers);
  }
}
