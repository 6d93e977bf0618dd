/**
 * What the answer of an operation tells its caller, in terms of the list and the peer table alone: when the operation
 * succeeds, and what is then so.
 */
module Answers {
  import opened Prelude
  import opened Text
  import opened Ipv4
  import opened Keys
  import opened Device
  import opened Peers
  import opened Filesystem
  import opened Store
  import opened Operations
  import opened Protocol
  import opened Runs
  import opened Configurations

  // ---- reading the list ----

  /** Every record is valid, and no two share an address or a public key as strings. */
  predicate Accepted(lib: Library, net: Network, peers: seq<Peer>)
  {
    && (forall i :: 0 <= i < |peers| ==> ValidPeer(lib, net, peers[i]))
    && (forall i, j :: 0 <= i < j < |peers| ==>
          peers[i].address != peers[j].address && peers[i].publicKey != peers[j].publicKey)
  }

  predicate Readable(lib: Library, net: Network, current: Option<seq<Peer>>, fails: bool)
  {
    !fails && current.Some? && Accepted(lib, net, current.value)
  }

  /** A list is read as it is if it can be read and is accepted; else nothing is. */
  lemma LoadIsExact(lib: Library, net: Network, current: Option<seq<Peer>>, fails: bool)
    ensures LoadState(lib, net, current, fails).Ok? <==> Readable(lib, net, current, fails)
    ensures Readable(lib, net, current, fails) ==> !fails && current.Some? && Accepted(lib, net, current.value)
    ensures Readable(lib, net, current, fails) ==> LoadState(lib, net, current, fails) == Ok(current.value)
  {
    hide ValidPeer;
  }

  /**
   * A record is accepted just if its name is not blank and has at most 100 characters, its public key is that of its
   * private key, its preshared key is one, its host lies in the managed /24 between 2 and 254, and its only network is
   * its address: for any address, and any other texts.
   */
  lemma RecordIsExact(lib: Library, net: Network, name: string, q: Quad, privateKey: string, publicKey: string,
    psk: string, routes: seq<string>, enabled: bool)
    ensures ValidPeer(lib, net, Peer(name, PrintQuad(q), privateKey, publicKey, psk, routes, enabled)) <==>
      && TrimSpace(name) != "" && |name| <= 100
      && ParseKey(privateKey).Some? && ParseKey(publicKey) == Some(lib.pub(ParseKey(privateKey).value))
      && ParseKey(psk).Some?
      && q.a == net.a && q.b == net.b && q.c == net.c && 2 <= q.d <= 254
      && routes == [PrintQuad(q) + "/32"]
  {
    ParsePrintedQuad(lib.v6, q);
    hide ParseKey, PrintQuad, ParseIP4, TrimSpace;
  }

  // ---- when an operation succeeds ----

  predicate NameFits(name: string)
  {
    1 <= |TrimSpace(name)| <= 100
  }

  /** The address of a host that no record has. */
  predicate Free(net: Network, peers: seq<Peer>, host: nat)
  {
    2 <= host <= 254 && forall i :: 0 <= i < |peers| ==> peers[i].address != PrintQuad(HostQuad(net, host))
  }

  predicate HasKey(peers: seq<Peer>, publicKey: string)
  {
    exists i :: 0 <= i < |peers| && peers[i].publicKey == publicKey
  }

  predicate CreatePlannable(lib: Library, cfg: Config, current: Option<seq<Peer>>, name: string, inputs: Inputs)
  {
    && NameFits(name) && inputs.deviceKey.Some? && Readable(lib, cfg.net, current, inputs.loadFails)
    && (exists host :: 2 <= host <= 254 && Free(cfg.net, current.value, host)) && inputs.draw.Some?
  }

  /** To be enabled, a record's address has to be readable as a network; every dotted one is. */
  predicate SwitchPlannable(lib: Library, cfg: Config, current: Option<seq<Peer>>, publicKey: string, enabled: bool,
    inputs: Inputs)
  {
    && Readable(lib, cfg.net, current, inputs.loadFails)
    && exists i :: 0 <= i < |current.value| && current.value[i].publicKey == publicKey
         && (enabled ==> ParseCIDR(lib.v6, current.value[i].address + "/32").Some?)
  }

  predicate DeletePlannable(lib: Library, cfg: Config, current: Option<seq<Peer>>, publicKey: string, inputs: Inputs)
  {
    Readable(lib, cfg.net, current, inputs.loadFails) && HasKey(current.value, publicKey)
  }

  lemma FreeIsFound(net: Network, peers: seq<Peer>)
    ensures NextAddress(net, peers).Some? <==> exists host :: 2 <= host <= 254 && Free(net, peers, host)
    ensures NextAddress(net, peers).Some? ==>
      exists host: nat :: 2 <= host <= 254 && Free(net, peers, host)
        && NextAddress(net, peers) == Some(PrintQuad(HostQuad(net, host)))
        && forall h: nat :: h < host ==> !Free(net, peers, h)
  {
    hide PrintQuad;
    var found := FreeHost(net, peers, FIRST_HOST);
    if found.Some? {
      assert Free(net, peers, found.value);
    }
    forall h: nat | 2 <= h < (if found.Some? then found.value else 255) ensures !Free(net, peers, h) {
      assert Used(peers, PrintQuad(HostQuad(net, h)));
    }
  }

  lemma NewPeerIsSent(lib: Library, net: Network, name: string, host: Byte, draw: Draw)
    requires NameFits(name) && 2 <= host <= 254
    ensures var p := NewPeer(lib, TrimSpace(name), PrintQuad(HostQuad(net, host)), draw);
      && ApplyConfig(lib, p) == Some(PeerConfig(lib.pub(draw.privateKey), false, Some(draw.psk), true,
           [Host32(HostQuad(net, host))]))
      && RemoveConfig(p.publicKey) == Some(PeerConfig(lib.pub(draw.privateKey), true, None, false, []))
  {
    var q := HostQuad(net, host);
    ParsePrintedKey(lib.pub(draw.privateKey));
    ParsePrintedKey(draw.psk);
    ParseHost32(lib.v6, q);
    ParseOneNetwork(lib.v6, PrintQuad(q) + "/32");
    hide ParseKey, PrintKey, PrintQuad, ParseCIDR, ParseNetworks, TrimSpace;
  }

  lemma CreateIsExact(lib: Library, cfg: Config, current: Option<seq<Peer>>, name: string, inputs: Inputs)
    ensures PlanCreate(lib, cfg, current, name, inputs).Ok? <==> CreatePlannable(lib, cfg, current, name, inputs)
  {
    hide TrimSpace, LoadState, Readable, ApplyConfig, RemoveConfig, NewPeer, Free, NextAddress, PrintQuad;
    LoadIsExact(lib, cfg.net, current, inputs.loadFails);
    if Readable(lib, cfg.net, current, inputs.loadFails) {
      FreeIsFound(cfg.net, current.value);
      if NameFits(name) && inputs.draw.Some? && NextAddress(cfg.net, current.value).Some? {
        var host: nat :| 2 <= host <= 254 && Free(cfg.net, current.value, host)
          && NextAddress(cfg.net, current.value) == Some(PrintQuad(HostQuad(cfg.net, host)));
        NewPeerIsSent(lib, cfg.net, name, host, inputs.draw.value);
      }
    }
  }

  lemma SwitchIsSent(lib: Library, net: Network, p: Peer, enabled: bool)
    requires ValidPeer(lib, net, p)
    ensures ApplyConfig(lib, p.(enabled := enabled)).Some? <==>
      (enabled ==> ParseCIDR(lib.v6, p.address + "/32").Some?)
    ensures RemoveConfig(p.publicKey).Some?
  {
    ParseOneNetwork(lib.v6, p.address + "/32");
    hide ParseKey, ParseCIDR, ParseNetworks, ParseIP4, TrimSpace;
  }

  lemma OneOfKey(lib: Library, net: Network, peers: seq<Peer>, i: nat, publicKey: string)
    requires Accepted(lib, net, peers) && i < |peers| && peers[i].publicKey == publicKey
    ensures FindPeer(peers, publicKey) == Some(i) && ValidPeer(lib, net, peers[i])
  {
    hide ValidPeer, FindPeer;
    var j := FindPeer(peers, publicKey);
    assert j.Some?;
  }

  lemma SwitchIsExact(lib: Library, cfg: Config, current: Option<seq<Peer>>, publicKey: string, enabled: bool,
    inputs: Inputs)
    ensures PlanSetEnabled(lib, cfg, current, publicKey, enabled, inputs).Ok?
      <==> SwitchPlannable(lib, cfg, current, publicKey, enabled, inputs)
  {
    hide LoadState, ApplyConfig, ParseCIDR, ValidPeer, Accepted;
    LoadIsExact(lib, cfg.net, current, inputs.loadFails);
    if Readable(lib, cfg.net, current, inputs.loadFails) {
      var peers := current.value;
      forall i | 0 <= i < |peers| && peers[i].publicKey == publicKey
        ensures FindPeer(peers, publicKey) == Some(i)
        ensures ApplyConfig(lib, peers[i].(enabled := enabled)).Some? <==>
          (enabled ==> ParseCIDR(lib.v6, peers[i].address + "/32").Some?)
      {
        OneOfKey(lib, cfg.net, peers, i, publicKey);
        SwitchIsSent(lib, cfg.net, peers[i], enabled);
      }
    }
  }

  lemma DeleteIsExact(lib: Library, cfg: Config, current: Option<seq<Peer>>, publicKey: string, inputs: Inputs)
    ensures PlanDelete(lib, cfg, current, publicKey, inputs).Ok?
      <==> DeletePlannable(lib, cfg, current, publicKey, inputs)
  {
    hide LoadState, ApplyConfig, RemoveConfig, ValidPeer, Accepted;
    LoadIsExact(lib, cfg.net, current, inputs.loadFails);
    if Readable(lib, cfg.net, current, inputs.loadFails) && HasKey(current.value, publicKey) {
      var peers := current.value;
      var i :| 0 <= i < |peers| && peers[i].publicKey == publicKey;
      OneOfKey(lib, cfg.net, peers, i, publicKey);
      SwitchIsSent(lib, cfg.net, peers[i], false);
    }
  }

  // ---- what a success leaves behind ----

  /** `u` is `t` with the peer `k` set up: it has just these networks, and no other peer has any of them. */
  predicate SetUp(t: Table, k: Key, psk: Key, allowed: set<Prefix>, u: Table)
  {
    && u.Keys == t.Keys + {k}
    && u[k].psk == psk && u[k].allowed == allowed && u[k].session == (if k in t then t[k].session else 0)
    && forall j :: j in t && j != k ==>
         u[j].psk == t[j].psk && u[j].session == t[j].session && u[j].allowed == t[j].allowed - allowed
  }

  lemma SetUpByCall(t: Table, c: PeerConfig)
    requires !c.remove && c.psk.Some? && c.replace
    ensures SetUp(t, c.key, c.psk.value, Networks(c.allowed), Configure(t, c, Done))
  {
    ConfigureIsSetPeer(t, c);
    hide Configure;
  }

  /** The record made of these keys, at the lowest free address. */
  predicate Drawn(lib: Library, net: Network, peers: seq<Peer>, draw: Draw, host: nat, p: Peer)
  {
    && Free(net, peers, host) && (forall h: nat :: 2 <= h < host ==> !Free(net, peers, h))
    && p.address == PrintQuad(HostQuad(net, host)) && p.allowedIPs == [p.address + "/32"]
    && ParseKey(p.privateKey) == Some(draw.privateKey)
    && ParseKey(p.publicKey) == Some(lib.pub(draw.privateKey))
    && ParseKey(p.presharedKey) == Some(draw.psk)
  }

  /** The one list is the old one and a last record, which the answer describes and the device has. */
  predicate CreatedAt(lib: Library, cfg: Config, v: View, name: string, draw: Draw, deviceKey: Key, host: nat, p: Peer,
    answer: CreatedPeer, w: View)
    requires v.current.Some?
  {
    && Drawn(lib, cfg.net, v.current.value, draw, host, p) && p.enabled && p.name == TrimSpace(name)
    && w.current == Some(v.current.value + [p]) && w.survivors == {w.current}
    && SetUp(v.table, lib.pub(draw.privateKey), draw.psk, {Net4(HostQuad(cfg.net, host), 32)}, w.table)
    && answer.name == p.name && answer.publicKey == p.publicKey
    && (PlainConfig(cfg) ==>
          Configures(cfg, p, deviceKey, answer.configuration) && HasSections(cfg, p, deviceKey, answer.configuration))
  }

  /** The record has the flag, nothing else of the list changed, and the device has the peer as the flag says. */
  predicate SwitchedAt(v: View, i: nat, publicKey: string, enabled: bool, w: View)
    requires v.current.Some? && i < |v.current.value|
  {
    var p := v.current.value[i];
    && p.publicKey == publicKey
    && w.current == Some(v.current.value[i := p.(enabled := enabled)]) && w.survivors == {w.current}
    && ParseKey(publicKey).Some? && ParseKey(p.presharedKey).Some? && ParseDotted(p.address).Some?
    && SetUp(v.table, ParseKey(publicKey).value, ParseKey(p.presharedKey).value,
         if enabled then {Net4(ParseDotted(p.address).value, 32)} else {}, w.table)
  }

  /** The record is out of the list, and its key off the device; nothing else changed. */
  predicate DeletedAt(v: View, i: nat, publicKey: string, w: View)
    requires v.current.Some? && i < |v.current.value|
  {
    var peers := v.current.value;
    && peers[i].publicKey == publicKey && ParseKey(publicKey).Some?
    && w.current == Some(peers[..i] + peers[i + 1..]) && w.survivors == {w.current}
    && !HasKey(w.current.value, publicKey)
    && w.table == v.table - {ParseKey(publicKey).value}
  }

  /** The outcome is success if and only if the call and the save go through. */
  lemma CarriedOut(v: View, plan: Plan, inputs: Inputs, save: SaveEnd)
    ensures CarryOut(v, plan, inputs, save).1.Ok? <==> inputs.apply.Done? && save.Saved?
  {
    hide Configure, Reread;
  }

  lemma SavedPlan(lib: Library, net: Network, v: View, plan: Plan, inputs: Inputs)
    requires Good(lib, net, plan.list) && inputs.apply.Done?
    ensures var w := CarryOut(v, plan, inputs, Saved).0;
      w.current == Some(plan.list) && w.survivors == {w.current} && w.table == Configure(v.table, plan.forward, Done)
  {
    hide Good, Configure, Reread;
    RereadGood(lib, net, plan.list);
  }

  lemma PlanIsGood(lib: Library, net: Network, peers: seq<Peer>, plan: Plan, k: Key, home: Prefix)
    requires PlanFor(lib, net, peers, plan, k, home)
    ensures Good(lib, net, plan.list)
  {
    hide Good, KeyOf, Home, Networks;
  }

  lemma SlotNetworks(p: Peer)
    ensures Networks(SlotList(p)) == if p.enabled then {Host32(QuadOf(p))} else {}
  {
    hide QuadOf;
  }

  lemma NewIsDrawn(lib: Library, net: Network, peers: seq<Peer>, name: string, draw: Draw, host: nat)
    requires NameFits(name) && Free(net, peers, host) && forall h: nat :: h < host ==> !Free(net, peers, h)
    ensures var p := NewPeer(lib, TrimSpace(name), PrintQuad(HostQuad(net, host)), draw);
      Drawn(lib, net, peers, draw, host, p) && p.enabled && p.name == TrimSpace(name)
  {
    ParsePrintedKey(draw.privateKey);
    ParsePrintedKey(lib.pub(draw.privateKey));
    ParsePrintedKey(draw.psk);
    hide ParseKey, PrintKey, PrintQuad, TrimSpace;
  }

  lemma NewConfig(lib: Library, net: Network, name: string, host: nat, draw: Draw)
    requires NameFits(name) && 2 <= host <= 254
    ensures var p := NewPeer(lib, TrimSpace(name), PrintQuad(HostQuad(net, host)), draw);
      && ConfigFor(p) == PeerConfig(lib.pub(draw.privateKey), false, Some(draw.psk), true,
           [Net4(HostQuad(net, host), 32)])
      && CanonicalPeer(p)
  {
    TrimSpaceIdempotent(name);
    NewPeerIsValid(lib, net, TrimSpace(name), host, draw);
    ParsePrintedKey(draw.psk);
    hide ParseKey, PrintKey, PrintQuad, TrimSpace, ValidPeer, CanonicalPeer, QuadOf;
  }

  lemma NewIsSetUp(lib: Library, net: Network, v: View, plan: Plan, inputs: Inputs, k: Key, psk: Key, home: Prefix)
    requires Good(lib, net, plan.list) && inputs.apply.Done?
    requires plan.forward == PeerConfig(k, false, Some(psk), true, [home])
    ensures var w := CarryOut(v, plan, inputs, Saved).0;
      w.current == Some(plan.list) && w.survivors == {w.current} && SetUp(v.table, k, psk, {home}, w.table)
  {
    hide Good, Configure, CarryOut, SetUp;
    SavedPlan(lib, net, v, plan, inputs);
    SetUpByCall(v.table, plan.forward);
    assert Networks([home]) == {home};
  }

  lemma LastCreated(cfg: Config, peers: seq<Peer>, p: Peer, deviceKey: Key)
    ensures CreatedBy(cfg, peers + [p], Some(deviceKey)) == CreatedPeer(p.name, p.publicKey, Render(cfg, p, deviceKey))
  {
    hide Render;
  }

  lemma CreateSucceeds(lib: Library, cfg: Config, v: View, name: string, inputs: Inputs) returns (host: nat, p: Peer)
    requires v.current.Some? && Good(lib, cfg.net, v.current.value) && inputs.apply.Done?
    requires PlanCreate(lib, cfg, v.current, name, inputs).Ok?
    requires inputs.draw.Some? ==> FreshKey(lib, v.current.value, inputs.draw.value)
    ensures inputs.draw.Some? && inputs.deviceKey.Some?
    ensures var plan := PlanCreate(lib, cfg, v.current, name, inputs).value;
      CreatedAt(lib, cfg, v, name, inputs.draw.value, inputs.deviceKey.value, host, p,
        CreatedBy(cfg, plan.list, inputs.deviceKey), CarryOut(v, plan, inputs, Saved).0)
  {
    hide PlanCreate, Good, FreshKey, PlanFor, Drawn, SetUp, CarryOut, TrimSpace, NewPeer, PrintQuad, CreatedBy,
      Configures, HasSections, PlainConfig, KeyOf, PskOf, QuadOf, Free, Readable, CanonicalPeer;
    var peers := v.current.value;
    CreateIsExact(lib, cfg, v.current, name, inputs);
    CreatePlanFor(lib, cfg, peers, name, inputs);
    FreeIsFound(cfg.net, peers);
    host :| 2 <= host <= 254 && Free(cfg.net, peers, host)
      && NextAddress(cfg.net, peers) == Some(PrintQuad(HostQuad(cfg.net, host)))
      && forall h: nat :: h < host ==> !Free(cfg.net, peers, h);
    var draw := inputs.draw.value;
    p := NewPeer(lib, TrimSpace(name), PrintQuad(HostQuad(cfg.net, host)), draw);
    var plan := PlanCreate(lib, cfg, v.current, name, inputs).value;
    NewIsDrawn(lib, cfg.net, peers, name, draw, host);
    NewConfig(lib, cfg.net, name, host, draw);
    assert Good(lib, cfg.net, plan.list) by {
      PlanIsGood(lib, cfg.net, peers, plan, KeyOf(p), Home(p));
    }
    NewIsSetUp(lib, cfg.net, v, plan, inputs, lib.pub(draw.privateKey), draw.psk, Net4(HostQuad(cfg.net, host), 32));
    LastCreated(cfg, peers, p, inputs.deviceKey.value);
    if PlainConfig(cfg) {
      Configured(cfg, p, inputs.deviceKey.value);
    }
  }

  lemma SwitchedConfig(lib: Library, net: Network, p: Peer, enabled: bool)
    requires ValidPeer(lib, net, p) && CanonicalPeer(p)
    ensures ParseKey(p.publicKey).Some? && ParseKey(p.presharedKey).Some? && ParseDotted(p.address).Some?
    ensures var c := ConfigFor(p.(enabled := enabled));
      && !c.remove && c.replace && c.key == ParseKey(p.publicKey).value && c.psk == ParseKey(p.presharedKey)
      && Networks(c.allowed) == if enabled then {Net4(ParseDotted(p.address).value, 32)} else {}
  {
    SlotNetworks(p.(enabled := enabled));
    hide ParseKey, ParseDotted, ParseIP4, TrimSpace;
  }

  lemma SwitchSucceeds(lib: Library, cfg: Config, v: View, publicKey: string, enabled: bool, inputs: Inputs)
    returns (i: nat)
    requires v.current.Some? && Good(lib, cfg.net, v.current.value) && inputs.apply.Done?
    requires PlanSetEnabled(lib, cfg, v.current, publicKey, enabled, inputs).Ok?
    ensures i < |v.current.value|
    ensures var plan := PlanSetEnabled(lib, cfg, v.current, publicKey, enabled, inputs).value;
      SwitchedAt(v, i, publicKey, enabled, CarryOut(v, plan, inputs, Saved).0)
  {
    hide PlanSetEnabled, Good, PlanFor, SetUp, CarryOut, Configure, ConfigFor, KeyOf, Home, FindPeer, Accepted,
      ParseKey, ParseDotted, ParseCIDR, ValidPeer, CanonicalPeer;
    var peers := v.current.value;
    SwitchIsExact(lib, cfg, v.current, publicKey, enabled, inputs);
    i :| 0 <= i < |peers| && peers[i].publicKey == publicKey;
    OneOfKey(lib, cfg.net, peers, i, publicKey);
    SetEnabledPlanFor(lib, cfg, peers, publicKey, enabled, inputs);
    TogglePlanFor(lib, cfg.net, peers, i, enabled);
    var plan := PlanSetEnabled(lib, cfg, v.current, publicKey, enabled, inputs).value;
    PlanIsGood(lib, cfg.net, peers, plan, KeyOf(peers[i]), Home(peers[i]));
    SavedPlan(lib, cfg.net, v, plan, inputs);
    MemberValid(lib, cfg.net, peers, i);
    SwitchedConfig(lib, cfg.net, peers[i], enabled);
    SetUpByCall(v.table, plan.forward);
  }

  lemma KeyRead(p: Peer)
    requires ParseKey(p.publicKey).Some?
    ensures RemovalFor(p).remove && RemovalFor(p).key == ParseKey(p.publicKey).value
  {
    hide ParseKey;
  }

  lemma NoneOfKey(lib: Library, net: Network, peers: seq<Peer>, i: nat)
    requires Accepted(lib, net, peers) && i < |peers|
    ensures !HasKey(peers[..i] + peers[i + 1..], peers[i].publicKey)
  {
    hide ValidPeer;
  }

  lemma DeleteSucceeds(lib: Library, cfg: Config, v: View, publicKey: string, inputs: Inputs) returns (i: nat)
    requires v.current.Some? && Good(lib, cfg.net, v.current.value) && inputs.apply.Done?
    requires PlanDelete(lib, cfg, v.current, publicKey, inputs).Ok?
    ensures i < |v.current.value|
    ensures var plan := PlanDelete(lib, cfg, v.current, publicKey, inputs).value;
      DeletedAt(v, i, publicKey, CarryOut(v, plan, inputs, Saved).0)
  {
    hide PlanDelete, Good, PlanFor, CarryOut, Configure, KeyOf, Home, FindPeer, Accepted, ConfigFor,
      ParseKey, ParseDotted, ValidPeer, CanonicalPeer;
    var peers := v.current.value;
    DeleteIsExact(lib, cfg, v.current, publicKey, inputs);
    i :| 0 <= i < |peers| && peers[i].publicKey == publicKey;
    OneOfKey(lib, cfg.net, peers, i, publicKey);
    DeletePlanFor(lib, cfg, peers, publicKey, inputs);
    RemovalPlanFor(lib, cfg.net, peers, i);
    var plan := PlanDelete(lib, cfg, v.current, publicKey, inputs).value;
    PlanIsGood(lib, cfg.net, peers, plan, KeyOf(peers[i]), Home(peers[i]));
    SavedPlan(lib, cfg.net, v, plan, inputs);
    MemberValid(lib, cfg.net, peers, i);
    SwitchedConfig(lib, cfg.net, peers[i], false);
    KeyRead(peers[i]);
    ConfigureRemoves(v.table, plan.forward);
    NoneOfKey(lib, cfg.net, peers, i);
  }

  // ---- in a run ----

  predicate Plannable(lib: Library, cfg: Config, current: Option<seq<Peer>>, request: Request, inputs: Inputs)
  {
    match request
    case CreatePeer(name) => CreatePlannable(lib, cfg, current, name, inputs)
    case SetEnabled(publicKey, enabled) => SwitchPlannable(lib, cfg, current, publicKey, enabled, inputs)
    case DeletePeer(publicKey) => DeletePlannable(lib, cfg, current, publicKey, inputs)
  }

  lemma PlanIsExact(lib: Library, cfg: Config, current: Option<seq<Peer>>, request: Request, inputs: Inputs)
    ensures PlanOf(lib, cfg, current, request, inputs).Ok? <==> Plannable(lib, cfg, current, request, inputs)
  {
    hide PlanCreate, PlanSetEnabled, PlanDelete, CreatePlannable, SwitchPlannable, DeletePlannable;
    match request
    case CreatePeer(name) => CreateIsExact(lib, cfg, current, name, inputs);
    case SetEnabled(publicKey, enabled) => SwitchIsExact(lib, cfg, current, publicKey, enabled, inputs);
    case DeletePeer(publicKey) => DeleteIsExact(lib, cfg, current, publicKey, inputs);
  }

  /** What is so after a request that was answered with success. */
  ghost predicate Fulfilled(lib: Library, cfg: Config, v: View, request: Request, inputs: Inputs, w: View)
    requires v.current.Some?
  {
    match request
    case CreatePeer(name) =>
      && inputs.draw.Some? && inputs.deviceKey.Some? && w.current.Some?
      && exists host, p :: CreatedAt(lib, cfg, v, name, inputs.draw.value, inputs.deviceKey.value, host, p,
           CreatedBy(cfg, w.current.value, inputs.deviceKey), w)
    case SetEnabled(publicKey, enabled) =>
      exists i: nat :: i < |v.current.value| && SwitchedAt(v, i, publicKey, enabled, w)
    case DeletePeer(publicKey) =>
      exists i: nat :: i < |v.current.value| && DeletedAt(v, i, publicKey, w)
  }

  lemma SavedList(lib: Library, net: Network, v: View, peers: seq<Peer>, plan: Plan, k: Key, home: Prefix,
    inputs: Inputs)
    requires PlanFor(lib, net, peers, plan, k, home) && inputs.apply.Done?
    ensures CarryOut(v, plan, inputs, Saved).0.current == Some(plan.list)
  {
    hide PlanFor, Good, CarryOut;
    PlanIsGood(lib, net, peers, plan, k, home);
    SavedPlan(lib, net, v, plan, inputs);
  }

  lemma PlannedFulfils(lib: Library, cfg: Config, v: View, request: Request, inputs: Inputs)
    requires v.current.Some? && Good(lib, cfg.net, v.current.value) && inputs.apply.Done?
    requires PlanOf(lib, cfg, v.current, request, inputs).Ok?
    requires v.current in v.survivors && Fresh(lib, v, request, inputs)
    ensures Fulfilled(lib, cfg, v, request, inputs,
      CarryOut(v, PlanOf(lib, cfg, v.current, request, inputs).value, inputs, Saved).0)
  {
    hide PlanCreate, PlanSetEnabled, PlanDelete, Good, FreshKey, CarryOut, CreatedAt, SwitchedAt, DeletedAt, PlanFor,
      Subject, CreatedBy, KeyOf, Home;
    match request
    case CreatePeer(name) =>
      var host, p := CreateSucceeds(lib, cfg, v, name, inputs);
      var q := RequestPlan(lib, cfg, v.current.value, request, inputs);
      SavedList(lib, cfg.net, v, v.current.value, PlanOf(lib, cfg, v.current, request, inputs).value, KeyOf(q), Home(q),
        inputs);
    case SetEnabled(publicKey, enabled) =>
      var i := SwitchSucceeds(lib, cfg, v, publicKey, enabled, inputs);
    case DeletePeer(publicKey) =>
      var i := DeleteSucceeds(lib, cfg, v, publicKey, inputs);
  }

  /**
   * The answer of an operation in any state of any run: success if and only if it can be planned, its call to the
   * device goes through and its list is saved; and then one list remains, which has what was asked for, and so has the
   * device.
   */
  lemma OperationAnswers(lib: Library, cfg: Config, s: Sys, request: Request, inputs: Inputs, save: SaveEnd)
    requires Inv(lib, cfg, s) && Possible(lib, cfg, s, Finished(request, inputs, save))
    ensures var (w, outcome) := Execute(s.view, PlanOf(lib, cfg, s.view.current, request, inputs), inputs, save);
      && w == After(lib, cfg, s, Finished(request, inputs, save)).view
      && (outcome.Ok? <==>
            Plannable(lib, cfg, s.view.current, request, inputs) && inputs.apply.Done? && save.Saved?)
      && (outcome.Ok? ==> Fulfilled(lib, cfg, s.view, request, inputs, w))
  {
    hide PlanOf, Plannable, Good, Routed, Tracks, Fresh, Fulfilled, CarryOut, Settles;
    PlanIsExact(lib, cfg, s.view.current, request, inputs);
    var planned := PlanOf(lib, cfg, s.view.current, request, inputs);
    if planned.Ok? {
      CarriedOut(s.view, planned.value, inputs, save);
      if inputs.apply.Done? && save.Saved? {
        PlannedFulfils(lib, cfg, s.view, request, inputs);
      }
    }
  }

  /**
   * An operation unsettles or settles the key it is about and no other: it is settled if the call went through and the
   * list was either saved or left alone with the call undone.
   */
  lemma OwnKeySettled(lib: Library, cfg: Config, s: Sys, request: Request, inputs: Inputs, save: SaveEnd, k: Key)
    requires PlanOf(lib, cfg, s.view.current, request, inputs).Ok?
    ensures k in After(lib, cfg, s, Finished(request, inputs, save)).dirty <==>
      if k != PlanOf(lib, cfg, s.view.current, request, inputs).value.forward.key then k in s.dirty
      else inputs.apply.Failed? || save.Replaced? || (save.NotReplaced? && inputs.undo.Failed?)
  {
    hide PlanOf, CarryOut;
  }

  // ---- configurations ----

  /** A configuration is given for a listed key only, and it is that record's. */
  lemma ConfigurationIsExact(lib: Library, cfg: Config, current: Option<seq<Peer>>, publicKey: string, inputs: Inputs)
    ensures var r := ConfigurationOf(lib, cfg, current, publicKey, inputs);
      && (r.Ok? <==>
            && Readable(lib, cfg.net, current, inputs.loadFails)
            && HasKey(current.value, publicKey) && inputs.deviceKey.Some?)
      && (r.Ok? && Good(lib, cfg.net, current.value) && PlainConfig(cfg) ==>
            exists p :: p in current.value && p.publicKey == publicKey
              && Configures(cfg, p, inputs.deviceKey.value, r.value)
              && HasSections(cfg, p, inputs.deviceKey.value, r.value))
  {
    hide LoadState, Good, Readable, PlainConfig, Configures, HasSections, Render, ValidPeer, CanonicalPeer;
    LoadIsExact(lib, cfg.net, current, inputs.loadFails);
    if ConfigurationOf(lib, cfg, current, publicKey, inputs).Ok? && Good(lib, cfg.net, current.value) {
      var i := FindPeer(current.value, publicKey).value;
      if PlainConfig(cfg) {
        MemberValid(lib, cfg.net, current.value, i);
        Configured(cfg, current.value[i], inputs.deviceKey.value);
        assert current.value[i] in current.value;
      }
    }
  }

  // ---- what a failure leaves behind ----

  predicate SaveGoesWell(fs: Fs, save: SaveInput)
  {
    save.fault.NoFault? && HasName(fs, save)
  }

  /** A device call that fails leaves the list alone and the device part of the way, and nothing is taken back. */
  lemma FailedCalls(v: View, plan: Plan, inputs: Inputs, save: SaveEnd)
    requires plan.backward.Some?
    ensures var w := CarryOut(v, plan, inputs, save).0;
      && (inputs.apply.Failed? ==>
            w.current == v.current && w.survivors == v.survivors && PartWay(v.table, plan.forward, w.table))
      && (inputs.apply.Done? && inputs.undo.Failed? && !save.Saved? ==>
            PartWay(Configure(v.table, plan.forward, Done), plan.backward.value, w.table))
      && (save.NotReplaced? ==> w.current == v.current && w.survivors == v.survivors)
  {
    hide Configure, Reread;
    if inputs.apply.Failed? {
      assert CarryOut(v, plan, inputs, save).0.table == Configure(v.table, plan.forward, Failed(inputs.apply.steps));
    } else if inputs.undo.Failed? && !save.Saved? {
      assert CarryOut(v, plan, inputs, save).0.table
        == Configure(Configure(v.table, plan.forward, Done), plan.backward.value, Failed(inputs.undo.steps));
    }
  }
}
