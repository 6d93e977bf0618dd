/** Concrete runs from a first start: one that goes well, and those in which the agent does less than it seems to. */
module Witnesses {
  import opened Prelude
  import opened Text
  import opened Ipv4
  import opened Keys
  import opened Device
  import opened Peers
  import opened Store
  import opened Operations
  import opened Protocol
  import opened Runs
  import opened Theorems
  import opened Recovery

  lemma EmptyIsGood(lib: Library, net: Network)
    ensures Good(lib, net, []) && FreeHost(net, [], FIRST_HOST) == Some(FIRST_HOST)
  {
    hide PrintQuad;
  }

  lemma ConfigsFor(lib: Library, net: Network, p: Peer)
    requires ValidPeer(lib, net, p) && CanonicalPeer(p)
    ensures ApplyConfig(lib, p) == Some(ConfigFor(p)) && RemoveConfig(p.publicKey) == Some(RemovalFor(p))
  {
    hide ValidPeer, CanonicalPeer, ApplyConfig, RemoveConfig, KeyOf, PskOf, SlotList;
    ApplyConfigOf(lib, net, p);
    RemoveConfigOf(lib, net, p);
  }

  lemma FirstPlan(lib: Library, cfg: Config, draw: Draw, inputs: Inputs) returns (p: Peer)
    requires inputs.deviceKey.Some? && !inputs.loadFails && inputs.draw == Some(draw)
    ensures PlanCreate(lib, cfg, Some([]), "peer", inputs) == Ok(Plan([p], ConfigFor(p), Some(RemovalFor(p))))
    ensures p.address == PrintQuad(HostQuad(cfg.net, 2)) && p.enabled && KeyOf(p) == lib.pub(draw.privateKey)
    ensures Good(lib, cfg.net, [p])
  {
    hide TrimSpace, PrintQuad, ApplyConfig, RemoveConfig, ValidPeer, CanonicalPeer, KeyOf, ConfigFor, RemovalFor,
      Good, LoadState, FreeHost;
    TrimLine("peer");
    EmptyIsGood(lib, cfg.net);
    LoadsGood(lib, cfg.net, []);
    p := NewPeer(lib, "peer", PrintQuad(HostQuad(cfg.net, 2)), draw);
    assert p.enabled && p.address == PrintQuad(HostQuad(cfg.net, 2));
    NewPeerIsValid(lib, cfg.net, "peer", 2, draw);
    hide NewPeer;
    ConfigsFor(lib, cfg.net, p);
    GoodAppend(lib, cfg.net, [], p);
    assert [] + [p] == [p];
  }

  function NewSys(t: Table, up: bool): Sys
  {
    Sys(View(Some([]), {Some([])}, t), up, {})
  }

  lemma FirstStart(lib: Library, cfg: Config, t: Table)
    requires Routed(t)
    ensures Inv(lib, cfg, NewSys(t, false)) && Possible(lib, cfg, NewSys(t, false), Restarted(false, []))
    ensures After(lib, cfg, NewSys(t, false), Restarted(false, [])) == NewSys(t, true)
    ensures Inv(lib, cfg, NewSys(t, true))
  {
    EmptyIsGood(lib, cfg.net);
    LoadsGood(lib, cfg.net, []);
    hide Good, Routed, LoadState, AgreesAt;
  }

  lemma FirstCreate(lib: Library, cfg: Config, t: Table, inputs: Inputs, save: SaveEnd)
    ensures Possible(lib, cfg, NewSys(t, true), Finished(CreatePeer("peer"), inputs, save))
  {
    hide KeyOf;
  }

  /** An operation's inputs when the agent can read all it needs. */
  function Answers(draw: Draw, deviceKey: Key, apply: Call, undo: Call): Inputs
  {
    Inputs(Some(deviceKey), false, Some(draw), apply, undo)
  }

  /** The agent starts with no list, and creates a peer. */
  function FirstRun(inputs: Inputs, save: SaveEnd): seq<Event>
  {
    [Restarted(false, []), Finished(CreatePeer("peer"), inputs, save)]
  }

  lemma CreateOnNothing(lib: Library, cfg: Config, s: Sys, p: Peer, inputs: Inputs, save: SaveEnd)
    requires s.up && s.view.current == Some([])
    requires PlanCreate(lib, cfg, Some([]), "peer", inputs) == Ok(Plan([p], ConfigFor(p), Some(RemovalFor(p))))
    ensures var w := After(lib, cfg, s, Finished(CreatePeer("peer"), inputs, save));
      w.up && w.view == CarryOut(s.view, Plan([p], ConfigFor(p), Some(RemovalFor(p))), inputs, save).0
    ensures After(lib, cfg, s, Finished(CreatePeer("peer"), inputs, save)).dirty ==
      if Settles(inputs, save) then s.dirty - {KeyOf(p)} else s.dirty + {KeyOf(p)}
  {
    hide PlanCreate, KeyOf, PskOf, Home, CarryOut;
  }

  /** The first peer's record, and the state after the run, however the create ends. */
  lemma FirstRunIs(lib: Library, cfg: Config, t: Table, inputs: Inputs, save: SaveEnd) returns (p: Peer)
    requires Routed(t) && inputs.deviceKey.Some? && !inputs.loadFails && inputs.draw.Some?
    ensures p.address == PrintQuad(HostQuad(cfg.net, 2)) && p.enabled
    ensures KeyOf(p) == lib.pub(inputs.draw.value.privateKey)
    ensures Good(lib, cfg.net, [p]) && Reread([p]) == Some([p])
    ensures Inv(lib, cfg, NewSys(t, false)) && PossibleRun(lib, cfg, NewSys(t, false), FirstRun(inputs, save))
    ensures Inv(lib, cfg, StateAfter(lib, cfg, NewSys(t, false), FirstRun(inputs, save)))
    ensures var plan := Plan([p], ConfigFor(p), Some(RemovalFor(p)));
      var w := StateAfter(lib, cfg, NewSys(t, false), FirstRun(inputs, save));
      && PlanCreate(lib, cfg, Some([]), "peer", inputs) == Ok(plan)
      && w.up && w.view == CarryOut(NewSys(t, true).view, plan, inputs, save).0
      && (Settles(inputs, save) ==> w.dirty == {})
  {
    hide Inv, Possible, After, Good, Routed, PrintQuad, StateAfter, PossibleRun, PlanCreate, ConfigFor, RemovalFor,
      CarryOut, KeyOf, Reread;
    var create := Finished(CreatePeer("peer"), inputs, save);
    p := FirstPlan(lib, cfg, inputs.draw.value, inputs);
    FirstStart(lib, cfg, t);
    FirstCreate(lib, cfg, t, inputs, save);
    CreateOnNothing(lib, cfg, NewSys(t, true), p, inputs, save);
    TwoEvents(lib, cfg, NewSys(t, false), Restarted(false, []), create);
    EventKeepsInv(lib, cfg, NewSys(t, true), create);
    RereadGood(lib, cfg.net, [p]);
  }

  /** A first start on any device: the agent comes up, and a peer that is created is listed and on the device. */
  lemma FirstPeer(lib: Library, cfg: Config, t: Table, draw: Draw, deviceKey: Key) returns (p: Peer)
    requires Routed(t)
    ensures p.address == PrintQuad(HostQuad(cfg.net, 2)) && p.enabled
    ensures var run := FirstRun(Answers(draw, deviceKey, Done, Done), Saved);
      && Inv(lib, cfg, NewSys(t, false)) && PossibleRun(lib, cfg, NewSys(t, false), run)
      && var end := StateAfter(lib, cfg, NewSys(t, false), run);
         && end.up && end.dirty == {} && AgreesAt(p, end.view.table)
         && end.view.current == Some([p]) && end.view.survivors == {Some([p])}
  {
    hide Inv, Good, Routed, PrintQuad, StateAfter, PossibleRun, PlanCreate, KeyOf, Home, PskOf, Configure, Reread,
      AgreesAt;
    p := FirstRunIs(lib, cfg, t, Answers(draw, deviceKey, Done, Done), Saved);
    ConfiguredAgrees(t, p);
    hide ConfigFor, RemovalFor;
  }

  // ---- runs that do not go well ----

  /**
   * A create that fails behind the rename, although the undo goes through: the peer is listed, but the device does not
   * have it, and a loss of power may take it from the list again.
   */
  lemma ListedButAbsent(lib: Library, cfg: Config, t: Table, draw: Draw, deviceKey: Key) returns (p: Peer)
    requires Routed(t)
    ensures var run := FirstRun(Answers(draw, deviceKey, Done, Done), Replaced);
      && Inv(lib, cfg, NewSys(t, false)) && PossibleRun(lib, cfg, NewSys(t, false), run)
      && var end := StateAfter(lib, cfg, NewSys(t, false), run);
         && end.up && end.view.current == Some([p]) && end.view.survivors == {Some([]), Some([p])}
         && KeyOf(p) !in end.view.table
  {
    hide Inv, Good, Routed, PrintQuad, StateAfter, PossibleRun, PlanCreate, KeyOf, Home, PskOf, Configure, Reread,
      AgreesAt;
    p := FirstRunIs(lib, cfg, t, Answers(draw, deviceKey, Done, Done), Replaced);
    ConfigureRemoves(Configure(t, ConfigFor(p), Done), RemovalFor(p));
    hide ConfigFor;
  }

  lemma SecondPlan(lib: Library, cfg: Config, p: Peer, inputs: Inputs)
    requires Good(lib, cfg.net, [p]) && inputs.deviceKey.Some? && !inputs.loadFails && inputs.draw.Some?
    ensures PlanCreate(lib, cfg, Some([p]), "peer", inputs).Ok?
    ensures PlanCreate(lib, cfg, Some([p]), "peer", inputs).value.list != []
  {
    hide TrimSpace, PrintQuad, ApplyConfig, RemoveConfig, ValidPeer, CanonicalPeer, KeyOf, ConfigFor, RemovalFor,
      Good, LoadState, FreeHost, NewPeer;
    TrimLine("peer");
    LoadsGood(lib, cfg.net, [p]);
    AllocatorExact(lib, cfg.net, [p]);
    var host := FreeHost(cfg.net, [p], FIRST_HOST).value;
    var q := NewPeer(lib, "peer", PrintQuad(HostQuad(cfg.net, host)), inputs.draw.value);
    NewPeerIsValid(lib, cfg.net, "peer", host, inputs.draw.value);
    ConfigsFor(lib, cfg.net, q);
  }

  /**
   * After such a create the next operation is cut off and power is lost: the list that is found is neither the one
   * before that operation nor the one it planned.
   */
  lemma OlderListReturns(lib: Library, cfg: Config, t: Table, draw: Draw, next: Draw,
    deviceKey: Key) returns (p: Peer, w: Sys)
    requires Routed(t) && lib.pub(draw.privateKey) != lib.pub(next.privateKey)
    ensures var run := FirstRun(Answers(draw, deviceKey, Done, Done), Replaced);
      var s := StateAfter(lib, cfg, NewSys(t, false), run);
      var inputs := Answers(next, deviceKey, Done, Done);
      && Inv(lib, cfg, NewSys(t, false)) && PossibleRun(lib, cfg, NewSys(t, false), run)
      && s.view.current == Some([p])
      && PlanOf(lib, cfg, s.view.current, CreatePeer("peer"), inputs).Ok?
      && RecoversTo(lib, cfg, s, CreatePeer("peer"), inputs, w)
      && w.view.current == Some([]) && ListAfter(lib, cfg, s, CreatePeer("peer"), inputs) != Some([])
  {
    hide Inv, Good, Routed, PrintQuad, StateAfter, PossibleRun, PlanCreate, KeyOf, Home, PskOf, Configure, Reread,
      AgreesAt, RecoversTo, ConfigFor, RemovalFor;
    var inputs := Answers(next, deviceKey, Done, Done);
    p := FirstRunIs(lib, cfg, t, Answers(draw, deviceKey, Done, Done), Replaced);
    var s := StateAfter(lib, cfg, NewSys(t, false), FirstRun(Answers(draw, deviceKey, Done, Done), Replaced));
    SecondPlan(lib, cfg, p, inputs);
    assert Fresh(lib, s.view, CreatePeer("peer"), inputs);
    w := SurvivorComesBack(lib, cfg, s, CreatePeer("peer"), inputs, Some([]));
  }

  lemma NothingUndone(t: Table, c: PeerConfig)
    ensures Configure(t, c, Failed(0)) == t
  {
    assert Actions(c)[..0] == [];
  }

  lemma SameHome(p: Peer, q: Peer)
    requires p.address == q.address
    ensures Home(p) == Home(q)
  {
    hide ParseDotted;
  }

  lemma TakenBack(t: Table, p: Peer, q: Peer, plan: Plan, v: View, inputs: Inputs)
    requires v.table == t && KeyOf(p) in t && KeyOf(p) != KeyOf(q) && KeyOf(q) !in t && q.enabled
    requires plan == Plan([q], ConfigFor(q), Some(RemovalFor(q))) && RollsBack(inputs, NotReplaced)
    ensures KeyOf(p) in CarryOut(v, plan, inputs, NotReplaced).0.table
    ensures CarryOut(v, plan, inputs, NotReplaced).0.table[KeyOf(p)].allowed == t[KeyOf(p)].allowed - {Home(q)}
  {
    RolledBackTable(v, plan, inputs, NotReplaced);
    CreateRollback(t, q);
    hide KeyOf, Home, PskOf, Configure, Pushed, CarryOut;
  }

  /**
   * A create that cannot be saved and whose undo fails leaves an orphan with the address. The next create gets the same
   * address; it is rolled back without any failure but its save's, and the device is still not what it was before.
   */
  lemma OrphanIsRobbed(lib: Library, cfg: Config, t: Table, draw: Draw, next: Draw, deviceKey: Key) returns (p: Peer)
    requires Routed(t) && lib.pub(next.privateKey) !in t && lib.pub(draw.privateKey) != lib.pub(next.privateKey)
    ensures var run := FirstRun(Answers(draw, deviceKey, Done, Failed(0)), NotReplaced);
      var s := StateAfter(lib, cfg, NewSys(t, false), run);
      var again := Finished(CreatePeer("peer"), Answers(next, deviceKey, Done, Done), NotReplaced);
      var w := After(lib, cfg, s, again);
      && Inv(lib, cfg, NewSys(t, false)) && PossibleRun(lib, cfg, NewSys(t, false), run) && Possible(lib, cfg, s, again)
      && RollsBack(again.inputs, again.save)
      && w.view.current == s.view.current == Some([])
      && KeyOf(p) in s.view.table && s.view.table[KeyOf(p)].allowed == {Home(p)}
      && KeyOf(p) in w.view.table && w.view.table[KeyOf(p)].allowed == {}
  {
    hide Inv, Good, Routed, PrintQuad, StateAfter, PossibleRun, PlanCreate, KeyOf, QuadOf, PskOf, Configure, Reread;
    var first, second := Answers(draw, deviceKey, Done, Failed(0)), Answers(next, deviceKey, Done, Done);
    p := FirstRunIs(lib, cfg, t, first, NotReplaced);
    var s := StateAfter(lib, cfg, NewSys(t, false), FirstRun(first, NotReplaced));
    NothingUndone(Configure(t, ConfigFor(p), Done), RemovalFor(p));
    ConfigureIsSetPeer(t, ConfigFor(p));
    var q := FirstPlan(lib, cfg, next, second);
    CreateOnNothing(lib, cfg, s, q, second, NotReplaced);
    SameHome(p, q);
    assert Possible(lib, cfg, s, Finished(CreatePeer("peer"), second, NotReplaced));
    TakenBack(s.view.table, p, q, Plan([q], ConfigFor(q), Some(RemovalFor(q))), s.view, second);
  }
}
