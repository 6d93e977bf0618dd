/** What the push-save-undo protocol keeps, whichever of its steps fail. */
module Protocol {
  import opened Prelude
  import opened Text
  import opened Ipv4
  import opened Keys
  import opened Device
  import opened Peers
  import opened StateFile
  import opened Store
  import opened Operations

  // ---- the three operations make such plans ----

  /** In a good list, `p` is the one record with its key and its network. */
  ghost predicate Alone(peers: seq<Peer>, p: Peer)
  {
    forall q :: q in peers && q != p ==> KeyOf(q) != KeyOf(p) && Home(q) != Home(p)
  }

  lemma GoodAlone(lib: Library, net: Network, peers: seq<Peer>, p: Peer)
    requires Good(lib, net, peers) && p in peers
    ensures Alone(peers, p)
  {
    hide Good, KeyOf, Home;
    forall q | q in peers && q != p ensures KeyOf(q) != KeyOf(p) && Home(q) != Home(p) {
      MemberPair(lib, net, peers, p, q);
    }
  }

  lemma MemberValid(lib: Library, net: Network, peers: seq<Peer>, i: nat)
    requires Good(lib, net, peers) && i < |peers|
    ensures ValidPeer(lib, net, peers[i]) && CanonicalPeer(peers[i])
  {
  }

  lemma RemoveConfigOf(lib: Library, net: Network, p: Peer)
    requires ValidPeer(lib, net, p)
    ensures RemoveConfig(p.publicKey) == Some(PeerConfig(KeyOf(p), true, None, false, []))
  {
  }

  lemma SlotWithinHome(p: Peer)
    ensures Networks(SlotList(p)) <= {Home(p)} && Networks([]) == {}
  {
  }

  function ConfigFor(p: Peer): PeerConfig
  {
    PeerConfig(KeyOf(p), false, Some(PskOf(p)), true, SlotList(p))
  }

  function RemovalFor(p: Peer): PeerConfig
  {
    PeerConfig(KeyOf(p), true, None, false, [])
  }

  lemma AppendPlanFor(lib: Library, net: Network, peers: seq<Peer>, p: Peer)
    requires Good(lib, net, peers) && ValidPeer(lib, net, p) && CanonicalPeer(p)
    requires forall i :: 0 <= i < |peers| ==>
      && peers[i].address != p.address && Home(peers[i]) != Home(p)
      && KeyOf(peers[i]) != KeyOf(p) && peers[i].publicKey != p.publicKey
    ensures PlanFor(lib, net, peers, Plan(peers + [p], ConfigFor(p), Some(RemovalFor(p))), KeyOf(p), Home(p))
  {
    hide ValidPeer, CanonicalPeer, KeyOf, Home, PskOf, SlotList, Networks, Good;
    GoodAppend(lib, net, peers, p);
    SlotWithinHome(p);
  }

  lemma NewPeerText(lib: Library, name: string, address: string, draw: Draw)
    ensures NewPeer(lib, name, address, draw).address == address
  {
  }

  /** The allocated address and the fresh key are no listed record's. */
  lemma NewAddressUnused(lib: Library, net: Network, peers: seq<Peer>, p: Peer, host: Byte, i: nat)
    requires Good(lib, net, peers) && i < |peers| && KeyOf(peers[i]) != KeyOf(p)
    requires p.address == PrintQuad(HostQuad(net, host)) && QuadOf(p) == HostQuad(net, host)
    requires !Used(peers, p.address)
    ensures peers[i].address != p.address && Home(peers[i]) != Home(p) && peers[i].publicKey != p.publicKey
  {
    GoodPair(lib, net, peers, i, i);
  }

  lemma CreatePlanFor(lib: Library, cfg: Config, peers: seq<Peer>, name: string, inputs: Inputs)
    requires Good(lib, cfg.net, peers) && PlanCreate(lib, cfg, Some(peers), name, inputs).Ok?
    requires FreshKey(lib, peers, inputs.draw.value)
    ensures var plan := PlanCreate(lib, cfg, Some(peers), name, inputs).value;
      var p := NewPeer(lib, TrimSpace(name), NextAddress(cfg.net, peers).value, inputs.draw.value);
      && plan == Plan(peers + [p], ConfigFor(p), Some(RemovalFor(p)))
      && KeyOf(p) == lib.pub(inputs.draw.value.privateKey)
      && PlanFor(lib, cfg.net, peers, plan, KeyOf(p), Home(p))
  {
    hide ValidPeer, CanonicalPeer, KeyOf, QuadOf, PskOf, TrimSpace, ApplyConfig, RemoveConfig, SlotList, Networks,
      NewPeer, Used, PrintQuad, PlanFor, ValidState;
    var host := FreeHost(cfg.net, peers, FIRST_HOST).value;
    var p := NewPeer(lib, TrimSpace(name), PrintQuad(HostQuad(cfg.net, host)), inputs.draw.value);
    TrimSpaceIdempotent(name);
    NewPeerIsValid(lib, cfg.net, TrimSpace(name), host, inputs.draw.value);
    NewPeerText(lib, TrimSpace(name), PrintQuad(HostQuad(cfg.net, host)), inputs.draw.value);
    ApplyConfigOf(lib, cfg.net, p);
    RemoveConfigOf(lib, cfg.net, p);
    forall i | 0 <= i < |peers|
      ensures peers[i].address != p.address && Home(peers[i]) != Home(p)
      ensures KeyOf(peers[i]) != KeyOf(p) && peers[i].publicKey != p.publicKey
    {
      NewAddressUnused(lib, cfg.net, peers, p, host, i);
    }
    AppendPlanFor(lib, cfg.net, peers, p);
  }

  lemma ReplacedMembers(peers: seq<Peer>, i: nat, q: Peer)
    requires i < |peers| && Alone(peers, peers[i]) && KeyOf(q) == KeyOf(peers[i])
    ensures forall p :: p in peers && KeyOf(p) != KeyOf(q) ==> p in peers[i := q]
    ensures forall p :: p in peers[i := q] && KeyOf(p) != KeyOf(q) ==> p in peers
  {
    hide KeyOf, Home;
    forall p | p in peers && KeyOf(p) != KeyOf(q) ensures p in peers[i := q] {
      var j :| 0 <= j < |peers| && peers[j] == p;
      assert peers[i := q][j] == p;
    }
  }

  lemma TogglePlanFor(lib: Library, net: Network, peers: seq<Peer>, i: nat, enabled: bool)
    requires Good(lib, net, peers) && i < |peers|
    ensures var p, q := peers[i], peers[i].(enabled := enabled);
      PlanFor(lib, net, peers, Plan(peers[i := q], ConfigFor(q), Some(ConfigFor(p))), KeyOf(p), Home(p))
  {
    var p, q := peers[i], peers[i].(enabled := enabled);
    assert KeyOf(q) == KeyOf(p) && Home(q) == Home(p) && PskOf(q) == PskOf(p);
    hide ValidPeer, CanonicalPeer, KeyOf, Home, PskOf, SlotList, Networks, Good;
    GoodToggle(lib, net, peers, i, enabled);
    assert p in peers && peers[i := q][i] == q;
    GoodAlone(lib, net, peers, p);
    GoodAlone(lib, net, peers[i := q], q);
    SlotWithinHome(p);
    SlotWithinHome(q);
    ReplacedMembers(peers, i, q);
  }

  lemma SetEnabledPlanFor(lib: Library, cfg: Config, peers: seq<Peer>, publicKey: string, enabled: bool, inputs: Inputs)
    requires Good(lib, cfg.net, peers) && !inputs.loadFails && FindPeer(peers, publicKey).Some?
    ensures var i := FindPeer(peers, publicKey).value;
      var p, q := peers[i], peers[i].(enabled := enabled);
      PlanSetEnabled(lib, cfg, Some(peers), publicKey, enabled, inputs)
        == Ok(Plan(peers[i := q], ConfigFor(q), Some(ConfigFor(p))))
  {
    hide ValidPeer, CanonicalPeer, KeyOf, PskOf, SlotList, ApplyConfig, ValidState;
    var i := FindPeer(peers, publicKey).value;
    GoodToggle(lib, cfg.net, peers, i, enabled);
    MemberValid(lib, cfg.net, peers, i);
    MemberValid(lib, cfg.net, peers[i := peers[i].(enabled := enabled)], i);
    ApplyConfigOf(lib, cfg.net, peers[i]);
    ApplyConfigOf(lib, cfg.net, peers[i].(enabled := enabled));
  }

  lemma NotWithout(lib: Library, net: Network, peers: seq<Peer>, i: nat)
    requires Good(lib, net, peers) && i < |peers|
    ensures peers[i] !in Without(peers, i)
  {
    hide ValidPeer, CanonicalPeer, KeyOf, QuadOf;
    if peers[i] in Without(peers, i) {
      var j :| 0 <= j < |peers| - 1 && Without(peers, i)[j] == peers[i];
      GoodPair(lib, net, peers, i, if j < i then j else j + 1);
    }
  }

  lemma RemovalPlanFor(lib: Library, net: Network, peers: seq<Peer>, i: nat)
    requires Good(lib, net, peers) && i < |peers|
    ensures var p := peers[i];
      PlanFor(lib, net, peers, Plan(Without(peers, i), RemovalFor(p), Some(ConfigFor(p))), KeyOf(p), Home(p))
  {
    hide ValidPeer, CanonicalPeer, KeyOf, Home, PskOf, SlotList, Networks, Good;
    var p := peers[i];
    assert p in peers;
    GoodWithout(lib, net, peers, i);
    WithoutMembers(peers, i);
    GoodAlone(lib, net, peers, p);
    NotWithout(lib, net, peers, i);
    SlotWithinHome(p);
  }

  lemma DeletePlanFor(lib: Library, cfg: Config, peers: seq<Peer>, publicKey: string, inputs: Inputs)
    requires Good(lib, cfg.net, peers) && !inputs.loadFails && FindPeer(peers, publicKey).Some?
    ensures var i := FindPeer(peers, publicKey).value;
      PlanDelete(lib, cfg, Some(peers), publicKey, inputs)
        == Ok(Plan(Without(peers, i), RemovalFor(peers[i]), Some(ConfigFor(peers[i]))))
  {
    hide ValidPeer, CanonicalPeer, KeyOf, PskOf, SlotList, ApplyConfig, RemoveConfig, ValidState;
    var i := FindPeer(peers, publicKey).value;
    MemberValid(lib, cfg.net, peers, i);
    ApplyConfigOf(lib, cfg.net, peers[i]);
    RemoveConfigOf(lib, cfg.net, peers[i]);
  }

  // ---- what carrying out a plan keeps ----

  /** Every list that Load may return, now or after a crash, is one that the manager accepts. */
  ghost predicate GoodLists(lib: Library, net: Network, v: View)
  {
    v.current in v.survivors && forall s :: s in v.survivors ==> s.Some? && Good(lib, net, s.value)
  }

  /** No listed peer holds a network other than its own. */
  predicate HoldsHome(peers: seq<Peer>, t: Table)
  {
    forall i :: 0 <= i < |peers| ==> KeyOf(peers[i]) in t ==> t[KeyOf(peers[i])].allowed <= {Home(peers[i])}
  }

  lemma RereadGood(lib: Library, net: Network, peers: seq<Peer>)
    requires Good(lib, net, peers)
    ensures Reread(peers) == Some(peers)
  {
    GoodListFits(lib, net, peers);
  }

  lemma TouchesTransitive(t: Table, u: Table, w: Table, k: Key, taken: set<Prefix>)
    requires TouchesOnly(t, u, k, taken) && TouchesOnly(u, w, k, taken)
    ensures TouchesOnly(t, w, k, taken)
  {
  }

  lemma TouchesMore(t: Table, u: Table, k: Key, taken: set<Prefix>, more: set<Prefix>)
    requires TouchesOnly(t, u, k, taken) && taken <= more
    ensures TouchesOnly(t, u, k, more)
  {
  }

  lemma CallTouches(t: Table, c: PeerConfig, call: Call, home: Prefix)
    requires Networks(c.allowed) <= {home}
    ensures TouchesOnly(t, Configure(t, c, call), c.key, {home})
  {
    hide Actions, Perform, TouchesOnly;
    ConfigureTouchesOnly(t, c, StepsDone(call, |Actions(c)|));
    TouchesMore(t, Configure(t, c, call), c.key, Networks(c.allowed), {home});
  }

  /** However it ends, an operation touches its own peer and network only, and brings in no list but its own. */
  lemma CarryOutWithin(lib: Library, net: Network, v: View, plan: Plan, k: Key, home: Prefix, inputs: Inputs,
      save: SaveEnd)
    requires v.current.Some? && v.current in v.survivors && PlanFor(lib, net, v.current.value, plan, k, home)
    ensures Within(v, plan, k, home, CarryOut(v, plan, inputs, save).0)
  {
    hide Good, Configure, TouchesOnly, Reread, Networks, KeyOf, Home;
    var t1 := Configure(v.table, plan.forward, inputs.apply);
    CallTouches(v.table, plan.forward, inputs.apply, home);
    CallTouches(t1, plan.backward.value, inputs.undo, home);
    TouchesTransitive(v.table, t1, Configure(t1, plan.backward.value, inputs.undo), k, {home});
  }

  lemma WithinKeepsGood(lib: Library, net: Network, v: View, plan: Plan, k: Key, home: Prefix, w: View)
    requires GoodLists(lib, net, v) && PlanFor(lib, net, v.current.value, plan, k, home)
    requires Within(v, plan, k, home, w)
    ensures GoodLists(lib, net, w) && (w.current == v.current || w.current == Some(plan.list))
  {
    hide Good, Reread, KeyOf, Home, Networks, TouchesOnly;
    RereadGood(lib, net, plan.list);
  }

  lemma OthersAgree(t: Table, u: Table, k: Key, home: Prefix, p: Peer)
    requires TouchesOnly(t, u, k, {home}) && KeyOf(p) != k && Home(p) != home
    requires KeyOf(p) in t ==> t[KeyOf(p)].allowed <= {Home(p)}
    ensures AgreesAt(p, t) <==> AgreesAt(p, u)
  {
    hide KeyOf, QuadOf, PskOf;
    var j := KeyOf(p);
    assert j in t <==> j in u by {
      assert j in t.Keys - {k} <==> j in u.Keys - {k};
    }
    if j in t {
      assert t[j].allowed - {home} == t[j].allowed;
    }
  }

  /**
   * Frame, at every moment of an operation and whatever fails: a listed peer other than the operation's own
   * is in the list before if and only if it is after, and agrees with the device before if and only if it
   * does after.
   */
  lemma WithinKeepsOthers(lib: Library, net: Network, v: View, plan: Plan, k: Key, home: Prefix, w: View, p: Peer)
    requires GoodLists(lib, net, v) && PlanFor(lib, net, v.current.value, plan, k, home)
    requires Within(v, plan, k, home, w) && HoldsHome(v.current.value, v.table) && KeyOf(p) != k
    ensures w.current.Some? && (p in v.current.value <==> p in w.current.value)
    ensures p in v.current.value ==> (AgreesAt(p, v.table) <==> AgreesAt(p, w.table))
  {
    WithinKeepsGood(lib, net, v, plan, k, home, w);
    hide Good, Reread, KeyOf, QuadOf, Networks, TouchesOnly, AgreesAt;
    if p in v.current.value {
      assert Home(p) != home;
      var i :| 0 <= i < |v.current.value| && v.current.value[i] == p;
      OthersAgree(v.table, w.table, k, home, p);
    }
  }

  /** The device after a completed forward call. */
  function Pushed(t: Table, c: PeerConfig): Table
  {
    if c.remove then t - {c.key}
    else SetPeer(t, c.key, if c.psk.Some? then c.psk.value else ZeroKey(), Networks(c.allowed))
  }

  lemma PushedIsConfigure(t: Table, c: PeerConfig)
    requires c.remove || (c.psk.Some? && c.replace)
    ensures Configure(t, c, Done) == Pushed(t, c)
  {
    hide Configure, SetPeer;
    if c.remove {
      ConfigureRemoves(t, c);
    } else {
      ConfigureIsSetPeer(t, c);
    }
  }

  /** When an operation succeeds, its list is the only one left and its own peer agrees with the device. */
  lemma SuccessAgrees(lib: Library, net: Network, v: View, plan: Plan, k: Key, home: Prefix, inputs: Inputs, p: Peer)
    requires v.current.Some? && PlanFor(lib, net, v.current.value, plan, k, home) && inputs.apply.Done?
    ensures var w := CarryOut(v, plan, inputs, Saved).0;
      && w.current == Some(plan.list) && w.survivors == {Some(plan.list)}
      && (p in plan.list && KeyOf(p) == k ==> AgreesAt(p, w.table))
      && (plan.forward.remove ==> k !in w.table)
  {
    RereadGood(lib, net, plan.list);
    hide Good, Reread, KeyOf, QuadOf, PskOf, Configure;
    if plan.forward.remove {
      ConfigureRemoves(v.table, plan.forward);
    } else if p in plan.list && KeyOf(p) == k {
      ConfigureIsSetPeer(v.table, plan.forward);
    }
  }

  lemma KeptHome(t: Table, u: Table, k: Key, home: Prefix, p: Peer)
    requires TouchesOnly(t, u, k, {home}) && KeyOf(p) in u
    requires KeyOf(p) in t ==> t[KeyOf(p)].allowed <= {Home(p)}
    requires Home(p) == home <==> KeyOf(p) == k
    ensures u[KeyOf(p)].allowed <= {Home(p)}
  {
    hide KeyOf, QuadOf;
    var j := KeyOf(p);
    assert j != k ==> j in t by {
      assert j != k ==> j in u.Keys - {k};
    }
  }

  /** A record that only the new list has was pushed in full before the list was saved. */
  lemma NewHome(lib: Library, net: Network, v: View, plan: Plan, k: Key, home: Prefix, inputs: Inputs, save: SaveEnd,
      p: Peer)
    requires v.current.Some? && PlanFor(lib, net, v.current.value, plan, k, home)
    requires var w := CarryOut(v, plan, inputs, save).0;
      && w.current.Some? && p in w.current.value && p !in v.current.value && KeyOf(p) in w.table
      && (w.current == v.current || w.current == Some(plan.list))
    ensures CarryOut(v, plan, inputs, save).0.table[KeyOf(p)].allowed <= {Home(p)}
  {
    hide Good, Reread, KeyOf, QuadOf, PskOf, Configure;
    var t1 := Configure(v.table, plan.forward, inputs.apply);
    assert KeyOf(p) == k && Home(p) == home;
    ConfigureIsSetPeer(v.table, plan.forward);
    assert k in t1 && t1[k].allowed <= {home};
    CallTouches(t1, plan.backward.value, inputs.undo, home);
  }

  /** No failure makes a listed peer hold a network that is not its own. */
  lemma CarryOutHoldsHome(lib: Library, net: Network, v: View, plan: Plan, k: Key, home: Prefix, inputs: Inputs,
      save: SaveEnd)
    requires GoodLists(lib, net, v) && PlanFor(lib, net, v.current.value, plan, k, home)
    requires HoldsHome(v.current.value, v.table)
    ensures var w := CarryOut(v, plan, inputs, save).0;
      w.current.Some? && HoldsHome(w.current.value, w.table)
  {
    var w := CarryOut(v, plan, inputs, save).0;
    CarryOutWithin(lib, net, v, plan, k, home, inputs, save);
    WithinKeepsGood(lib, net, v, plan, k, home, w);
    forall i | 0 <= i < |w.current.value| && KeyOf(w.current.value[i]) in w.table
      ensures w.table[KeyOf(w.current.value[i])].allowed <= {Home(w.current.value[i])}
    {
      var p := w.current.value[i];
      if p in v.current.value {
        var j :| 0 <= j < |v.current.value| && v.current.value[j] == p;
        KeptHome(v.table, w.table, k, home, p);
      } else {
        NewHome(lib, net, v, plan, k, home, inputs, save, p);
      }
    }
  }

  // ---- rollback ----

  /** The table with the networks in `taken` gone from every peer but `k`. */
  function Robbed(t: Table, k: Key, taken: set<Prefix>): Table
  {
    map j | j in t :: if j == k then t[j] else Lose(t[j], taken)
  }

  function Evicted(t: Table, k: Key, home: Prefix): Table
  {
    Robbed(t, k, {home})
  }

  lemma RobbedOfNothing(t: Table, k: Key)
    ensures Robbed(t, k, {}) == t
  {
    forall j | j in t ensures Lose(t[j], {}) == t[j] {
      assert t[j].allowed - {} == t[j].allowed;
    }
  }

  /** No peer but `k` holds the network. */
  predicate Unshared(t: Table, k: Key, home: Prefix)
  {
    forall j :: j in t && j != k ==> home !in t[j].allowed
  }

  /** Two tables in which every peer has the same preshared key and networks; sessions may differ. */
  predicate SameHoldings(t: Table, u: Table)
  {
    t.Keys == u.Keys && forall j :: j in t ==> u[j].psk == t[j].psk && u[j].allowed == t[j].allowed
  }

  lemma EvictedUnshared(t: Table, k: Key, home: Prefix)
    ensures Unshared(t, k, home) <==> Evicted(t, k, home) == t
    ensures Unshared(t, k, home) <==> SameHoldings(t, Evicted(t, k, home))
  {
    forall j | j in t ensures Evicted(t, k, home)[j] == t[j] <==> j == k || home !in t[j].allowed {
      assert home !in t[j].allowed ==> t[j].allowed - {home} == t[j].allowed;
    }
  }

  /** The inputs of an operation whose save fails before the rename and whose undo call goes through. */
  predicate RollsBack(inputs: Inputs, save: SaveEnd)
  {
    inputs.apply.Done? && inputs.undo.Done? && save.NotReplaced?
  }

  lemma RolledBackTable(v: View, plan: Plan, inputs: Inputs, save: SaveEnd)
    requires RollsBack(inputs, save) && plan.backward.Some?
    requires plan.forward.remove || (plan.forward.psk.Some? && plan.forward.replace)
    requires plan.backward.value.remove || (plan.backward.value.psk.Some? && plan.backward.value.replace)
    ensures var w := CarryOut(v, plan, inputs, save).0;
      && w.current == v.current && w.survivors == v.survivors
      && w.table == Pushed(Pushed(v.table, plan.forward), plan.backward.value)
  {
    PushedIsConfigure(v.table, plan.forward);
    PushedIsConfigure(Pushed(v.table, plan.forward), plan.backward.value);
  }

  /** Create, rolled back: the device is as before, except that nobody holds the allocated address. */
  lemma CreateRollback(t: Table, p: Peer)
    requires KeyOf(p) !in t && p.enabled
    ensures Pushed(Pushed(t, ConfigFor(p)), RemovalFor(p)) == Evicted(t, KeyOf(p), Home(p))
    ensures SameHoldings(t, Pushed(Pushed(t, ConfigFor(p)), RemovalFor(p))) <==> Unshared(t, KeyOf(p), Home(p))
  {
    hide KeyOf, QuadOf, PskOf, SameHoldings, Unshared;
    EvictedUnshared(t, KeyOf(p), Home(p));
  }

  lemma TakenTwice(a: set<Prefix>, b: set<Prefix>, c: set<Prefix>)
    ensures a - b - c == a - (b + c)
  {
  }

  lemma SetTwice(t: Table, k: Key, first: set<Prefix>, second: set<Prefix>)
    requires k in t && t[k].allowed == second
    ensures SetPeer(SetPeer(t, k, t[k].psk, first), k, t[k].psk, second) == Robbed(t, k, first + second)
  {
    forall j | j in t ensures Lose(Lose(t[j], first), second) == Lose(t[j], first + second) {
      TakenTwice(t[j].allowed, first, second);
    }
  }

  /** Enable or disable, rolled back: likewise, and the peer itself is as before, its session included. */
  lemma SetEnabledRollback(t: Table, p: Peer, enabled: bool)
    requires AgreesAt(p, t)
    ensures var q := p.(enabled := enabled);
      var u := Pushed(Pushed(t, ConfigFor(q)), ConfigFor(p));
      && u == (if p.enabled || enabled then Evicted(t, KeyOf(p), Home(p)) else t)
      && (SameHoldings(t, u) <==> Unshared(t, KeyOf(p), Home(p)) || !(p.enabled || enabled))
  {
    var q := p.(enabled := enabled);
    assert KeyOf(q) == KeyOf(p) && Home(q) == Home(p) && PskOf(q) == PskOf(p);
    assert Slot(q) + Slot(p) == if p.enabled || enabled then {Home(p)} else {};
    hide KeyOf, QuadOf, PskOf, Home, Robbed, SetPeer, Slot;
    SetTwice(t, KeyOf(p), Slot(q), Slot(p));
    RobbedOfNothing(t, KeyOf(p));
    EvictedUnshared(t, KeyOf(p), Home(p));
    hide Unshared;
  }

  lemma RemovedThenSet(t: Table, p: Peer)
    requires AgreesAt(p, t)
    ensures var k, u := KeyOf(p), Pushed(Pushed(t, RemovalFor(p)), ConfigFor(p));
      && u.Keys == t.Keys && u[k] == t[k].(session := 0)
      && (forall j :: j in t && j != k ==> u[j] == Lose(t[j], Slot(p)))
  {
    hide KeyOf, QuadOf, PskOf, Home;
  }

  lemma SameButSession(t: Table, u: Table, v: Table, k: Key)
    requires t.Keys == u.Keys == v.Keys && k in t
    requires u[k].psk == v[k].psk && u[k].allowed == v[k].allowed && forall j :: j in t && j != k ==> u[j] == v[j]
    ensures SameHoldings(t, u) <==> SameHoldings(t, v)
  {
  }

  /** Delete, rolled back: likewise, but the peer starts a new session; its endpoint and counters are lost. */
  lemma DeleteRollback(t: Table, p: Peer)
    requires AgreesAt(p, t)
    ensures var u := Pushed(Pushed(t, RemovalFor(p)), ConfigFor(p));
      && KeyOf(p) in u && u[KeyOf(p)] == t[KeyOf(p)].(session := 0)
      && u == (if p.enabled then Evicted(t, KeyOf(p), Home(p)) else t)[KeyOf(p) := u[KeyOf(p)]]
      && (SameHoldings(t, u) <==> Unshared(t, KeyOf(p), Home(p)) || !p.enabled)
  {
    RemovedThenSet(t, p);
    var k, u := KeyOf(p), Pushed(Pushed(t, RemovalFor(p)), ConfigFor(p));
    var v := Robbed(t, k, Slot(p));
    RobbedOfNothing(t, k);
    assert v == if p.enabled then Evicted(t, k, Home(p)) else t;
    assert u == v[k := u[k]] by {
      hide KeyOf, Home, Slot, Pushed;
    }
    hide KeyOf, QuadOf, PskOf, Home, Pushed, Slot, AgreesAt;
    SameButSession(t, u, v, k);
    EvictedUnshared(t, k, Home(p));
    hide Unshared;
  }
}
