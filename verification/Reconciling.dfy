/** Reconcile: from whatever the device holds, the list is pushed peer by peer. */
module Reconciling {
  import opened Prelude
  import opened Ipv4
  import opened Keys
  import opened Device
  import opened Sorting
  import opened Peers
  import opened Protocol

  function CallAt(calls: seq<Call>, i: nat): Call
  {
    if i < |calls| then calls[i] else Done
  }

  /** The table after pushing the records from `i` on, stopping at the first call that fails; and whether none did. */
  function Push(lib: Library, t: Table, peers: seq<Peer>, i: nat, calls: seq<Call>): (Table, bool)
    requires i <= |peers|
    decreases |peers| - i
  {
    if i == |peers| then (t, true)
    else
      match ApplyConfig(lib, peers[i])
      case None => (t, false)
      case Some(c) =>
        var call := CallAt(calls, i);
        var u := Configure(t, c, call);
        if call.Failed? then (u, false) else Push(lib, u, peers, i + 1, calls)
  }

  function KeysOf(peers: seq<Peer>): set<Key>
  {
    set p | p in peers :: KeyOf(p)
  }

  /** Everything that enabled listed peers are to hold. */
  function SlotsOf(peers: seq<Peer>): set<Prefix>
  {
    set p, x | p in peers && x in Slot(p) :: x
  }

  ghost function PeerWith(peers: seq<Peer>, k: Key): (p: Peer)
    requires k in KeysOf(peers)
    ensures p in peers && KeyOf(p) == k
  {
    var p :| p in peers && KeyOf(p) == k;
    p
  }

  function SessionIn(t: Table, k: Key): nat
  {
    if k in t then t[k].session else 0
  }

  ghost function ClosedAt(t: Table, peers: seq<Peer>, j: Key): Entry
    requires j in t || j in KeysOf(peers)
  {
    if j in KeysOf(peers) then Entry(PskOf(PeerWith(peers, j)), Slot(PeerWith(peers, j)), SessionIn(t, j))
    else Lose(t[j], SlotsOf(peers))
  }

  /**
   * The device a list calls for, given what it holds: each listed peer has its preshared key and its address
   * if enabled, else nothing; every other peer stays and keeps what no enabled listed peer is to hold.
   */
  ghost function Closed(t: Table, peers: seq<Peer>): Table
  {
    map j | j in t.Keys + KeysOf(peers) :: ClosedAt(t, peers, j)
  }

  lemma PeerWithIs(lib: Library, net: Network, peers: seq<Peer>, p: Peer)
    requires Good(lib, net, peers) && p in peers
    ensures KeyOf(p) in KeysOf(peers) && PeerWith(peers, KeyOf(p)) == p
  {
    hide Good, KeyOf;
    assert KeyOf(p) in KeysOf(peers);
    GoodAlone(lib, net, peers, p);
  }

  lemma GoodPrefix(lib: Library, net: Network, peers: seq<Peer>, n: nat)
    requires Good(lib, net, peers) && n <= |peers|
    ensures Good(lib, net, peers[..n])
  {
    hide ValidPeer, CanonicalPeer;
  }

  lemma PrefixParts(peers: seq<Peer>, i: nat)
    requires i < |peers|
    ensures KeysOf(peers[..i + 1]) == KeysOf(peers[..i]) + {KeyOf(peers[i])}
    ensures SlotsOf(peers[..i + 1]) == SlotsOf(peers[..i]) + Slot(peers[i])
  {
    hide KeyOf, Slot;
    assert peers[..i + 1] == peers[..i] + [peers[i]];
  }

  lemma NewInPrefix(lib: Library, net: Network, peers: seq<Peer>, i: nat)
    requires Good(lib, net, peers) && i < |peers|
    ensures KeyOf(peers[i]) !in KeysOf(peers[..i])
    ensures forall q :: q in peers[..i] ==> Slot(q) - Slot(peers[i]) == Slot(q)
  {
    hide ValidPeer, CanonicalPeer, KeyOf, QuadOf;
    forall q | q in peers[..i] ensures KeyOf(q) != KeyOf(peers[i]) && Slot(q) - Slot(peers[i]) == Slot(q) {
      var j :| 0 <= j < i && peers[..i][j] == q;
      GoodPair(lib, net, peers, j, i);
    }
  }

  lemma ClosedStepAt(lib: Library, net: Network, t: Table, peers: seq<Peer>, i: nat, j: Key)
    requires Good(lib, net, peers) && i < |peers| && (j in t || j in KeysOf(peers[..i + 1]))
    ensures j != KeyOf(peers[i]) ==> j in t || j in KeysOf(peers[..i])
    ensures ClosedAt(t, peers[..i + 1], j) ==
      if j == KeyOf(peers[i]) then Entry(PskOf(peers[i]), Slot(peers[i]), SessionIn(t, j))
      else Lose(ClosedAt(t, peers[..i], j), Slot(peers[i]))
  {
    var p, before, after := peers[i], peers[..i], peers[..i + 1];
    PrefixParts(peers, i);
    NewInPrefix(lib, net, peers, i);
    GoodPrefix(lib, net, peers, i + 1);
    assert after[..i] == before && after[i] == p;
    hide Good, KeyOf, PskOf, Slot, KeysOf, SlotsOf;
    if j == KeyOf(p) {
      PeerWithIs(lib, net, after, p);
    } else if j in KeysOf(before) {
      var q := PeerWith(before, j);
      assert q in after;
      PeerWithIs(lib, net, after, q);
    } else {
      TakenTwice(t[j].allowed, SlotsOf(before), Slot(p));
    }
  }

  lemma ClosedSession(t: Table, peers: seq<Peer>, k: Key)
    requires k !in KeysOf(peers)
    ensures SessionIn(Closed(t, peers), k) == SessionIn(t, k)
  {
    hide KeysOf, SlotsOf;
  }

  lemma SetPeerAt(u: Table, k: Key, psk: Key, slot: set<Prefix>, j: Key)
    requires j in u || j == k
    ensures j in SetPeer(u, k, psk, slot)
    ensures SetPeer(u, k, psk, slot)[j] == if j == k then Entry(psk, slot, SessionIn(u, k)) else Lose(u[j], slot)
  {
  }

  lemma ClosedKeys(t: Table, peers: seq<Peer>, i: nat, psk: Key, slot: set<Prefix>)
    requires i < |peers|
    ensures SetPeer(Closed(t, peers[..i]), KeyOf(peers[i]), psk, slot).Keys == Closed(t, peers[..i + 1]).Keys
  {
    hide KeyOf, KeysOf, ClosedAt, Lose, SessionIn;
    PrefixParts(peers, i);
  }

  /** Pushing one more record takes the closed form of a list to that of the longer list. */
  lemma ClosedStep(lib: Library, net: Network, t: Table, peers: seq<Peer>, i: nat)
    requires Good(lib, net, peers) && i < |peers|
    ensures SetPeer(Closed(t, peers[..i]), KeyOf(peers[i]), PskOf(peers[i]), Slot(peers[i]))
      == Closed(t, peers[..i + 1])
  {
    hide Good, KeyOf, PskOf, Slot, KeysOf, SlotsOf, ClosedAt, Lose, SetPeer, SessionIn;
    var p, before, after := peers[i], peers[..i], peers[..i + 1];
    var u := SetPeer(Closed(t, before), KeyOf(p), PskOf(p), Slot(p));
    NewInPrefix(lib, net, peers, i);
    ClosedSession(t, before, KeyOf(p));
    ClosedKeys(t, peers, i, PskOf(p), Slot(p));
    forall j | j in u ensures u[j] == Closed(t, after)[j] {
      ClosedStepAt(lib, net, t, peers, i, j);
      SetPeerAt(Closed(t, before), KeyOf(p), PskOf(p), Slot(p), j);
    }
  }

  lemma PushedRecord(lib: Library, net: Network, t: Table, p: Peer)
    requires ValidPeer(lib, net, p) && CanonicalPeer(p)
    ensures ApplyConfig(lib, p) == Some(ConfigFor(p))
    ensures Configure(t, ConfigFor(p), Done) == SetPeer(t, KeyOf(p), PskOf(p), Slot(p))
  {
    hide ValidPeer, CanonicalPeer, KeyOf, PskOf, SlotList, Configure, SetPeer, Networks, Slot;
    ApplyConfigOf(lib, net, p);
    ConfigureIsSetPeer(t, ConfigFor(p));
  }

  lemma {:induction false} PushIsClosed(lib: Library, net: Network, t: Table, peers: seq<Peer>, i: nat,
      calls: seq<Call>)
    requires Good(lib, net, peers) && i <= |peers|
    requires Push(lib, Closed(t, peers[..i]), peers, i, calls).1
    ensures Push(lib, Closed(t, peers[..i]), peers, i, calls).0 == Closed(t, peers)
    decreases |peers| - i
  {
    if i == |peers| {
      assert peers[..i] == peers;
    } else {
      MemberValid(lib, net, peers, i);
      PushedRecord(lib, net, Closed(t, peers[..i]), peers[i]);
      ClosedStep(lib, net, t, peers, i);
      hide Good, ValidPeer, CanonicalPeer, ConfigFor, Closed, SetPeer, Configure;
      PushIsClosed(lib, net, t, peers, i + 1, calls);
    }
  }

  /** `u` differs from `t` only in what pushing the list settles. */
  predicate Between(t: Table, u: Table, peers: seq<Peer>)
  {
    && t.Keys <= u.Keys <= t.Keys + KeysOf(peers)
    && (forall j :: j in u && j !in KeysOf(peers) ==>
          && j in t && u[j].psk == t[j].psk && u[j].session == t[j].session
          && t[j].allowed - SlotsOf(peers) <= u[j].allowed <= t[j].allowed)
    && (forall j :: j in u && j in KeysOf(peers) ==> u[j].session == SessionIn(t, j))
  }

  lemma BetweenSameClosed(t: Table, u: Table, peers: seq<Peer>)
    requires Between(t, u, peers)
    ensures Closed(u, peers) == Closed(t, peers)
  {
    hide KeysOf, SlotsOf, PskOf, Slot;
    assert t.Keys + KeysOf(peers) == u.Keys + KeysOf(peers);
    forall j | j in t.Keys + KeysOf(peers) ensures Closed(u, peers)[j] == Closed(t, peers)[j] {
      if j !in KeysOf(peers) {
        assert u[j].allowed - SlotsOf(peers) == t[j].allowed - SlotsOf(peers);
      }
    }
  }

  lemma NoDrop(c: PeerConfig, i: nat)
    requires !c.remove && i < |Actions(c)|
    ensures !Actions(c)[i].Drop?
  {
  }

  predicate KeepsSession(t: Table, u: Table, k: Key)
  {
    t.Keys <= u.Keys && (k in u ==> u[k].session == SessionIn(t, k))
  }

  lemma ActKeepsSession(t: Table, u: Table, k: Key, a: Action)
    requires KeepsSession(t, u, k) && !a.Drop?
    ensures KeepsSession(t, Act(u, k, a), k)
  {
  }

  lemma {:induction false} ConfigureKeepsSession(t: Table, c: PeerConfig, n: nat)
    requires !c.remove && n <= |Actions(c)|
    ensures KeepsSession(t, Perform(t, c.key, Actions(c)[..n]), c.key)
    decreases n
  {
    if n > 0 {
      NoDrop(c, n - 1);
      hide Actions, Act, KeepsSession;
      ConfigureKeepsSession(t, c, n - 1);
      PerformStep(t, c.key, Actions(c), n - 1);
      ActKeepsSession(t, Perform(t, c.key, Actions(c)[..n - 1]), c.key, Actions(c)[n - 1]);
    }
  }

  lemma TouchedBetween(t: Table, u: Table, w: Table, peers: seq<Peer>, k: Key, taken: set<Prefix>)
    requires Between(t, u, peers) && TouchesOnly(u, w, k, taken) && k in KeysOf(peers) && taken <= SlotsOf(peers)
    requires u.Keys <= w.Keys && (k in w ==> w[k].session == SessionIn(u, k))
    ensures Between(t, w, peers)
  {
    hide KeysOf, SlotsOf;
    forall j | j in w && j != k ensures j in u {
      assert j in w.Keys - {k};
    }
  }

  lemma ConfigureBetween(lib: Library, net: Network, t: Table, u: Table, peers: seq<Peer>, i: nat, call: Call)
    requires Good(lib, net, peers) && i < |peers| && Between(t, u, peers)
    ensures Between(t, Configure(u, ConfigFor(peers[i]), call), peers)
  {
    var p, c := peers[i], ConfigFor(peers[i]);
    var w := Configure(u, c, call);
    ConfigureKeepsSession(u, c, StepsDone(call, |Actions(c)|));
    ConfigureTouchesOnly(u, c, StepsDone(call, |Actions(c)|));
    assert Networks(c.allowed) <= SlotsOf(peers) by {
      assert p in peers;
    }
    assert KeyOf(p) in KeysOf(peers);
    hide Good, KeyOf, PskOf, Slot, KeysOf, SlotsOf, Actions, Perform, Networks, Configure;
    TouchedBetween(t, u, w, peers, KeyOf(p), Networks(c.allowed));
  }

  lemma {:induction false} PushBetween(lib: Library, net: Network, t: Table, u: Table, peers: seq<Peer>, i: nat,
      calls: seq<Call>)
    requires Good(lib, net, peers) && i <= |peers| && Between(t, u, peers)
    ensures Between(t, Push(lib, u, peers, i, calls).0, peers)
    decreases |peers| - i
  {
    if i < |peers| {
      MemberValid(lib, net, peers, i);
      PushedRecord(lib, net, u, peers[i]);
      ConfigureBetween(lib, net, t, u, peers, i, CallAt(calls, i));
      hide Good, ValidPeer, CanonicalPeer, ConfigFor, Configure, Between;
      if CallAt(calls, i).Done? {
        PushBetween(lib, net, t, Configure(u, ConfigFor(peers[i]), CallAt(calls, i)), peers, i + 1, calls);
      }
    }
  }

  lemma ClosedOfNothing(t: Table)
    ensures Closed(t, []) == t && Between(t, t, [])
  {
    assert KeysOf([]) == {} && SlotsOf([]) == {};
    RobbedOfNothing(t, ZeroKey());
    forall j | j in t ensures Lose(t[j], {}) == t[j] {
      assert t[j].allowed - {} == t[j].allowed;
    }
  }

  lemma BetweenSelf(t: Table, peers: seq<Peer>)
    ensures Between(t, t, peers)
  {
  }

  /**
   * Reconcile equals its closed form when it succeeds. When it fails, whatever it got done, the closed form
   * is still the same, so a later attempt reaches the same device.
   */
  lemma ReconcileClosed(lib: Library, net: Network, t: Table, peers: seq<Peer>, calls: seq<Call>)
    requires Good(lib, net, peers)
    ensures var (u, ok) := Push(lib, t, peers, 0, calls);
      (ok ==> u == Closed(t, peers)) && Closed(u, peers) == Closed(t, peers)
  {
    hide Good, Closed, Between, Push;
    ClosedOfNothing(t);
    assert peers[..0] == [];
    if Push(lib, t, peers, 0, calls).1 {
      PushIsClosed(lib, net, t, peers, 0, calls);
    }
    BetweenSelf(t, peers);
    PushBetween(lib, net, t, t, peers, 0, calls);
    BetweenSameClosed(t, Push(lib, t, peers, 0, calls).0, peers);
  }

  lemma PushNothing(lib: Library, t: Table, peers: seq<Peer>, calls: seq<Call>)
    ensures Push(lib, t, peers, |peers|, calls) == (t, true)
  {
  }

  lemma PushStep(lib: Library, net: Network, t: Table, peers: seq<Peer>, i: nat, calls: seq<Call>)
    requires Good(lib, net, peers) && i < |peers|
    ensures var u := Configure(t, ConfigFor(peers[i]), CallAt(calls, i));
      Push(lib, t, peers, i, calls) ==
        if CallAt(calls, i).Failed? then (u, false) else Push(lib, u, peers, i + 1, calls)
  {
    MemberValid(lib, net, peers, i);
    PushedRecord(lib, net, t, peers[i]);
    hide Good, ConfigFor, Configure, CallAt, ApplyConfig;
  }

  /** Reconcile succeeds if and only if every call it makes does. */
  lemma {:induction false} ReconcileSucceeds(lib: Library, net: Network, t: Table, peers: seq<Peer>, i: nat,
      calls: seq<Call>)
    requires Good(lib, net, peers) && i <= |peers|
    ensures Push(lib, t, peers, i, calls).1 <==> forall j :: i <= j < |peers| ==> CallAt(calls, j).Done?
    decreases |peers| - i
  {
    hide Good, ConfigFor, Configure, CallAt, Push;
    if i == |peers| {
      PushNothing(lib, t, peers, calls);
    } else {
      PushStep(lib, net, t, peers, i, calls);
      if CallAt(calls, i).Done? {
        ReconcileSucceeds(lib, net, Configure(t, ConfigFor(peers[i]), CallAt(calls, i)), peers, i + 1, calls);
      }
    }
  }

  lemma ClosedAgreesAt(lib: Library, net: Network, t: Table, peers: seq<Peer>, p: Peer)
    requires Good(lib, net, peers) && p in peers
    ensures AgreesAt(p, Closed(t, peers)) && Closed(t, peers)[KeyOf(p)].allowed <= {Home(p)}
  {
    assert Slot(p) <= {Home(p)};
    hide Good, KeyOf, PskOf, Slot, Home, KeysOf, SlotsOf;
    PeerWithIs(lib, net, peers, p);
  }

  lemma ClosedBetween(t: Table, peers: seq<Peer>)
    ensures Between(t, Closed(t, peers), peers)
  {
    hide KeysOf, SlotsOf, PskOf, Slot;
  }

  /** The closed form agrees with the list, leaves nobody a foreign network, and is reached only once. */
  lemma ClosedAgrees(lib: Library, net: Network, t: Table, peers: seq<Peer>)
    requires Good(lib, net, peers)
    ensures Agrees(peers, Closed(t, peers)) && HoldsHome(peers, Closed(t, peers))
    ensures Closed(Closed(t, peers), peers) == Closed(t, peers)
  {
    hide Good, KeyOf, Home, Closed, AgreesAt, Between;
    forall i | 0 <= i < |peers|
      ensures AgreesAt(peers[i], Closed(t, peers))
      ensures KeyOf(peers[i]) in Closed(t, peers) ==> Closed(t, peers)[KeyOf(peers[i])].allowed <= {Home(peers[i])}
    {
      ClosedAgreesAt(lib, net, t, peers, peers[i]);
    }
    ClosedBetween(t, peers);
    BetweenSameClosed(t, Closed(t, peers), peers);
  }

  lemma SameParts(peers: seq<Peer>, other: seq<Peer>)
    requires forall p :: p in peers <==> p in other
    ensures KeysOf(peers) == KeysOf(other) && SlotsOf(peers) == SlotsOf(other)
  {
    hide KeyOf, Slot;
  }

  lemma ClosedAtOrder(lib: Library, net: Network, t: Table, peers: seq<Peer>, other: seq<Peer>, j: Key)
    requires Good(lib, net, peers) && (forall p :: p in peers <==> p in other)
    requires (j in t || j in KeysOf(peers)) && (j in t || j in KeysOf(other))
    ensures ClosedAt(t, peers, j) == ClosedAt(t, other, j)
  {
    SameParts(peers, other);
    hide Good, KeyOf, PskOf, Slot, KeysOf, SlotsOf;
    if j in KeysOf(peers) {
      PeerWithIs(lib, net, peers, PeerWith(other, j));
    }
  }

  /** The order of the list does not matter. */
  lemma ClosedOrder(lib: Library, net: Network, t: Table, peers: seq<Peer>, other: seq<Peer>)
    requires Good(lib, net, peers) && multiset(peers) == multiset(other)
    ensures Closed(t, peers) == Closed(t, other)
  {
    hide Good, KeysOf, SlotsOf, ClosedAt;
    SameMembers(peers, other);
    SameParts(peers, other);
    forall j | j in t || j in KeysOf(peers) ensures ClosedAt(t, peers, j) == ClosedAt(t, other, j) {
      ClosedAtOrder(lib, net, t, peers, other, j);
    }
  }

  /**
   * What Reconcile does to a peer it does not know: it never removes it or touches its key or session. It takes just
   * the addresses of enabled listed peers if it is completed, and some of them if it fails.
   */
  lemma OrphansSurvive(lib: Library, net: Network, t: Table, peers: seq<Peer>, calls: seq<Call>, k: Key)
    requires Good(lib, net, peers) && k in t && k !in KeysOf(peers)
    ensures var (u, ok) := Push(lib, t, peers, 0, calls);
      && k in u && u[k].psk == t[k].psk && u[k].session == t[k].session
      && t[k].allowed - SlotsOf(peers) <= u[k].allowed <= t[k].allowed
      && (ok ==> u[k] == Lose(t[k], SlotsOf(peers)))
  {
    hide Good, KeysOf, SlotsOf, Push;
    BetweenSelf(t, peers);
    PushBetween(lib, net, t, t, peers, 0, calls);
    ReconcileClosed(lib, net, t, peers, calls);
  }

  // ---- the moments of a push ----

  /** The calls as given up to `i`, and then `last`. */
  function FirstCalls(calls: seq<Call>, i: nat, last: Call): (r: seq<Call>)
    ensures |r| == i + 1 && r[i] == last
    ensures forall j :: 0 <= j < i ==> r[j] == CallAt(calls, j)
  {
    seq(i, j requires 0 <= j < i => CallAt(calls, j)) + [last]
  }

  /** `u` is the table at a moment of pushing the list: the calls up to some record went through, its own got so far. */
  ghost predicate PushMoment(lib: Library, t: Table, peers: seq<Peer>, calls: seq<Call>, u: Table)
  {
    exists i: nat, n: nat :: i < |peers| && Push(lib, t, peers, 0, FirstCalls(calls, i, Failed(n))) == (u, false)
  }

  /** `u` is the table when the records before `i` have been pushed, whatever comes after. */
  ghost predicate PushedSoFar(lib: Library, t: Table, peers: seq<Peer>, calls: seq<Call>, u: Table, i: nat)
  {
    i <= |peers| && forall other: seq<Call> :: (forall j :: 0 <= j < i ==> CallAt(other, j) == CallAt(calls, j)) ==>
      Push(lib, t, peers, 0, other) == Push(lib, u, peers, i, other)
  }

  lemma NothingPushed(lib: Library, t: Table, peers: seq<Peer>, calls: seq<Call>)
    ensures PushedSoFar(lib, t, peers, calls, t, 0)
  {
  }

  lemma PushSoFarGoesOn(lib: Library, t: Table, peers: seq<Peer>, calls: seq<Call>, u: Table, i: nat)
    requires PushedSoFar(lib, t, peers, calls, u, i)
    ensures Push(lib, t, peers, 0, calls) == Push(lib, u, peers, i, calls)
  {
    hide Push, CallAt;
  }

  /** A record that cannot be read ends the push. */
  lemma PushHere(lib: Library, u: Table, peers: seq<Peer>, i: nat, calls: seq<Call>)
    requires i < |peers|
    ensures Push(lib, u, peers, i, calls) ==
      match ApplyConfig(lib, peers[i])
      case None => (u, false)
      case Some(c) =>
        var w := Configure(u, c, CallAt(calls, i));
        if CallAt(calls, i).Failed? then (w, false) else Push(lib, w, peers, i + 1, calls)
  {
    hide ApplyConfig, Configure, CallAt;
  }

  lemma PushedNext(lib: Library, t: Table, peers: seq<Peer>, calls: seq<Call>, u: Table, i: nat)
    requires PushedSoFar(lib, t, peers, calls, u, i) && i < |peers|
    requires ApplyConfig(lib, peers[i]).Some? && CallAt(calls, i).Done?
    ensures PushedSoFar(lib, t, peers, calls, Configure(u, ApplyConfig(lib, peers[i]).value, Done), i + 1)
  {
    hide ApplyConfig, Configure, CallAt, Push;
    var w := Configure(u, ApplyConfig(lib, peers[i]).value, Done);
    forall other: seq<Call> | forall j :: 0 <= j < i + 1 ==> CallAt(other, j) == CallAt(calls, j)
      ensures Push(lib, t, peers, 0, other) == Push(lib, w, peers, i + 1, other)
    {
      assert CallAt(other, i) == CallAt(calls, i);
      PushHere(lib, u, peers, i, other);
    }
  }

  lemma PartWayIsMoment(lib: Library, t: Table, peers: seq<Peer>, calls: seq<Call>, u: Table, i: nat, w: Table)
    requires PushedSoFar(lib, t, peers, calls, u, i) && i < |peers|
    requires ApplyConfig(lib, peers[i]).Some? && PartWay(u, ApplyConfig(lib, peers[i]).value, w)
    ensures PushMoment(lib, t, peers, calls, w)
  {
    hide ApplyConfig, Configure, Push;
    var n: nat :| w == Configure(u, ApplyConfig(lib, peers[i]).value, Failed(n));
    var other := FirstCalls(calls, i, Failed(n));
    forall j | 0 <= j < i ensures CallAt(other, j) == CallAt(calls, j) {
      assert other[j] == CallAt(calls, j);
    }
    assert CallAt(other, i) == Failed(n);
    PushHere(lib, u, peers, i, other);
  }

  /** Wherever Reconcile dies, it has settled only what it settles in the end, and the next one ends where it would. */
  lemma MomentBetween(lib: Library, net: Network, t: Table, peers: seq<Peer>, calls: seq<Call>, u: Table)
    requires Good(lib, net, peers) && PushMoment(lib, t, peers, calls, u)
    ensures Between(t, u, peers) && Closed(u, peers) == Closed(t, peers)
  {
    hide Good, Between, Closed, Push;
    var i: nat, n: nat :| i < |peers| && Push(lib, t, peers, 0, FirstCalls(calls, i, Failed(n))) == (u, false);
    BetweenSelf(t, peers);
    PushBetween(lib, net, t, t, peers, 0, FirstCalls(calls, i, Failed(n)));
    BetweenSameClosed(t, u, peers);
  }

  lemma MemberOfGood(lib: Library, net: Network, t: Table, peers: seq<Peer>, k: nat)
    requires Good(lib, net, peers) && k < |peers|
    ensures Configure(Closed(t, peers[..k]), ConfigFor(peers[k]), Done)
      == SetPeer(Closed(t, peers[..k]), KeyOf(peers[k]), PskOf(peers[k]), Slot(peers[k]))
  {
    MemberValid(lib, net, peers, k);
    PushedRecord(lib, net, Closed(t, peers[..k]), peers[k]);
  }

  lemma {:induction false} PushUpTo(lib: Library, net: Network, t: Table, peers: seq<Peer>, k: nat, i: nat,
      calls: seq<Call>)
    requires Good(lib, net, peers) && k <= i < |peers| && CallAt(calls, i).Failed?
    requires forall j :: k <= j < i ==> CallAt(calls, j).Done?
    ensures Push(lib, Closed(t, peers[..k]), peers, k, calls)
      == (Configure(Closed(t, peers[..i]), ConfigFor(peers[i]), CallAt(calls, i)), false)
    decreases i - k
  {
    hide Good, ConfigFor, Configure, Push, CallAt, Closed;
    PushStep(lib, net, Closed(t, peers[..k]), peers, k, calls);
    if k < i {
      MemberOfGood(lib, net, t, peers, k);
      ClosedStep(lib, net, t, peers, k);
      PushUpTo(lib, net, t, peers, k + 1, i, calls);
    }
  }

  /**
   * Where a failing Reconcile stops: the records before the one whose call fails are on the device as the list says,
   * its own peer is as far as the call got, and those behind it have not been touched.
   */
  lemma ReconcileStops(lib: Library, net: Network, t: Table, peers: seq<Peer>, i: nat, calls: seq<Call>)
    requires Good(lib, net, peers) && i < |peers| && CallAt(calls, i).Failed?
    requires forall j :: 0 <= j < i ==> CallAt(calls, j).Done?
    ensures Push(lib, t, peers, 0, calls)
      == (Configure(Closed(t, peers[..i]), ConfigFor(peers[i]), CallAt(calls, i)), false)
  {
    ClosedOfNothing(t);
    hide Good, ConfigFor, Configure, Push, CallAt, Closed;
    assert peers[..0] == [];
    PushUpTo(lib, net, t, peers, 0, i, calls);
  }
}
