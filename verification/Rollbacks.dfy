/** How an operation ends when its list cannot be saved, and what doing it again does. */
module Rollbacks {
  import opened Prelude
  import opened Ipv4
  import opened Keys
  import opened Device
  import opened Peers
  import opened Store
  import opened Operations
  import opened Protocol
  import opened Runs

  /** The push or its undoing gives the subject its address, and so takes it from anyone else. */
  predicate TakesAddress(request: Request, p: Peer)
  {
    match request
    case CreatePeer(_) => true
    case SetEnabled(_, enabled) => p.enabled || enabled
    case DeletePeer(_) => p.enabled
  }

  /** The device agreed on the subject before; a new peer's key was not on it. */
  predicate AgreedBefore(request: Request, p: Peer, t: Table)
  {
    if request.CreatePeer? then KeyOf(p) !in t && p.enabled else AgreesAt(p, t)
  }

  lemma SentConfigs(request: Request, peers: seq<Peer>, plan: Plan, p: Peer)
    requires Subject(peers, request, plan, p)
    ensures plan.backward.Some?
    ensures plan.forward == match request
      case CreatePeer(_) => ConfigFor(p)
      case SetEnabled(_, enabled) => ConfigFor(p.(enabled := enabled))
      case DeletePeer(_) => RemovalFor(p)
    ensures plan.backward.value == if request.CreatePeer? then RemovalFor(p) else ConfigFor(p)
  {
    hide ConfigFor, RemovalFor;
  }

  lemma SameHoldingsSelf(t: Table, p: Peer)
    ensures SameHoldings(t, t)
    ensures SameHoldings(Evicted(t, KeyOf(p), Home(p)), Evicted(t, KeyOf(p), Home(p)))
  {
    hide KeyOf, Home;
  }

  lemma EvictedHas(t: Table, k: Key, home: Prefix)
    requires k in t
    ensures k in Evicted(t, k, home) && Evicted(t, k, home)[k] == t[k]
  {
  }

  lemma DeletedHoldings(t: Table, p: Peer)
    requires AgreesAt(p, t)
    ensures SameHoldings(Pushed(Pushed(t, RemovalFor(p)), ConfigFor(p)),
      if p.enabled then Evicted(t, KeyOf(p), Home(p)) else t)
  {
    hide KeyOf, Home, PskOf, Slot, Pushed, Evicted;
    DeleteRollback(t, p);
    EvictedHas(t, KeyOf(p), Home(p));
    hide Unshared;
  }

  /**
   * Exact rollback: a save that fails before the rename and an undo call that goes through leave the list, what a
   * crash may leave of it, and every peer's preshared key and networks as they were, if and only if nobody else
   * held the subject's address (or the operation never gives it); else just that address is gone from the others.
   */
  lemma RollbackIsExact(v: View, request: Request, plan: Plan, p: Peer, inputs: Inputs, save: SaveEnd)
    requires v.current.Some? && Subject(v.current.value, request, plan, p)
    requires RollsBack(inputs, save) && AgreedBefore(request, p, v.table)
    ensures var w := CarryOut(v, plan, inputs, save).0;
      && w.current == v.current && w.survivors == v.survivors
      && (SameHoldings(v.table, w.table) <==> Unshared(v.table, KeyOf(p), Home(p)) || !TakesAddress(request, p))
      && SameHoldings(w.table, if TakesAddress(request, p) then Evicted(v.table, KeyOf(p), Home(p)) else v.table)
  {
    hide KeyOf, Home, PskOf, Slot, Pushed, SameHoldings, Unshared, AgreesAt, Evicted;
    SentConfigs(request, v.current.value, plan, p);
    hide Subject;
    RolledBackTable(v, plan, inputs, save);
    SameHoldingsSelf(v.table, p);
    match request
    case CreatePeer(_) => CreateRollback(v.table, p);
    case SetEnabled(_, enabled) => SetEnabledRollback(v.table, p, enabled);
    case DeletePeer(_) =>
      DeleteRollback(v.table, p);
      DeletedHoldings(v.table, p);
  }

  /** The record that the operation leaves in its list, if it leaves one. */
  function RecordAfter(request: Request, p: Peer): Option<Peer>
  {
    match request
    case CreatePeer(_) => Some(p)
    case SetEnabled(_, enabled) => Some(p.(enabled := enabled))
    case DeletePeer(_) => None
  }

  /** A peer that is listed is on the device as listed; one that is not, is not there. */
  predicate Consistent(record: Option<Peer>, k: Key, t: Table)
  {
    match record case None => k !in t case Some(p) => AgreesAt(p, t)
  }

  lemma SwitchedAgrees(p: Peer, enabled: bool, u: Table)
    requires AgreesAt(p, u)
    ensures AgreesAt(p.(enabled := enabled), u) <==> enabled == p.enabled
  {
    var q := p.(enabled := enabled);
    assert KeyOf(q) == KeyOf(p) && PskOf(q) == PskOf(p) && Home(q) == Home(p);
    hide KeyOf, PskOf, Home;
    assert Home(p) !in (if p.enabled then {} else {Home(p)}) <==> Home(p) in Slot(p);
  }

  /** After the undo call the device has the subject as it was before the operation. */
  lemma UndoneTable(request: Request, t: Table, p: Peer)
    ensures var u := Configure(t, if request.CreatePeer? then RemovalFor(p) else ConfigFor(p), Done);
      (Consistent(RecordAfter(request, p), KeyOf(p), u) <==> (request.SetEnabled? && request.enabled == p.enabled))
  {
    hide KeyOf, QuadOf, PskOf, Configure;
    match request
    case CreatePeer(_) => ConfigureRemoves(t, RemovalFor(p));
    case SetEnabled(_, enabled) =>
      ConfiguredAgrees(t, p);
      hide AgreesAt;
      SwitchedAgrees(p, enabled, Configure(t, ConfigFor(p), Done));
    case DeletePeer(_) => ConfiguredAgrees(t, p);
  }

  /**
   * A save that fails after the rename: the new list is in place, but the device is rolled back all the same. Even
   * if the undo goes through, the two then disagree about the subject, but for a peer that was switched to what it was.
   */
  lemma LateFailureDiverges(lib: Library, net: Network, v: View, request: Request, plan: Plan, p: Peer, inputs: Inputs)
    requires GoodLists(lib, net, v) && PlanFor(lib, net, v.current.value, plan, KeyOf(p), Home(p))
    requires Subject(v.current.value, request, plan, p) && AgreedBefore(request, p, v.table)
    requires inputs.apply.Done? && inputs.undo.Done?
    ensures var (w, outcome) := CarryOut(v, plan, inputs, Replaced);
      && outcome == Err(NotSaved) && w.current == Some(plan.list)
      && (Consistent(RecordAfter(request, p), KeyOf(p), w.table) <==> request == SetEnabled(p.publicKey, p.enabled))
  {
    SentConfigs(request, v.current.value, plan, p);
    hide Good, KeyOf, Home, Networks, Reread, Configure, AgreedBefore, ConfigFor, RemovalFor, Consistent;
    RereadGood(lib, net, plan.list);
    UndoneTable(request, Configure(v.table, plan.forward, Done), p);
  }

  // ---- the same operation once more ----

  lemma SetPeerTwice(t: Table, k: Key, psk: Key, slot: set<Prefix>)
    ensures SetPeer(SetPeer(t, k, psk, slot), k, psk, slot) == SetPeer(t, k, psk, slot)
  {
    forall j | j in t && j != k ensures Lose(Lose(t[j], slot), slot) == Lose(t[j], slot) {
      assert t[j].allowed - slot - slot == t[j].allowed - slot;
    }
  }

  lemma ConfigureTwice(t: Table, p: Peer)
    ensures var c := ConfigFor(p); Configure(Configure(t, c, Done), c, Done) == Configure(t, c, Done)
  {
    hide KeyOf, PskOf, Slot, SlotList, Configure, SetPeer, Networks;
    var c := ConfigFor(p);
    ConfigureIsSetPeer(t, c);
    ConfigureIsSetPeer(Configure(t, c, Done), c);
    SetPeerTwice(t, c.key, c.psk.value, Networks(c.allowed));
  }

  lemma SwitchedSubject(lib: Library, net: Network, peers: seq<Peer>, publicKey: string, enabled: bool, plan: Plan,
      p: Peer)
    requires Subject(peers, SetEnabled(publicKey, enabled), plan, p) && Good(lib, net, plan.list)
    ensures var q := p.(enabled := enabled);
      && FindPeer(plan.list, publicKey).Some?
      && plan.list[FindPeer(plan.list, publicKey).value] == q && plan.forward == ConfigFor(q)
  {
    hide Good, ConfigFor;
    var q := p.(enabled := enabled);
    var i :| 0 <= i < |peers| && peers[i] == p && plan.list == peers[i := q];
    assert plan.list[i] == q;
    var j := FindPeer(plan.list, publicKey).value;
    assert plan.list[j] in plan.list;
    MemberPair(lib, net, plan.list, plan.list[j], q);
  }

  /** What a second SetEnabled with the same arguments plans: the list it finds, and the configuration sent before. */
  lemma RepeatedSwitch(lib: Library, cfg: Config, list: seq<Peer>, publicKey: string, enabled: bool, inputs: Inputs,
      q: Peer)
    requires Good(lib, cfg.net, list) && !inputs.loadFails && FindPeer(list, publicKey).Some?
    requires list[FindPeer(list, publicKey).value] == q && q.enabled == enabled
    ensures PlanSetEnabled(lib, cfg, Some(list), publicKey, enabled, inputs)
      == Ok(Plan(list, ConfigFor(q), Some(ConfigFor(q))))
  {
    hide Good, ConfigFor, PlanSetEnabled;
    SetEnabledPlanFor(lib, cfg, list, publicKey, enabled, inputs);
    var i := FindPeer(list, publicKey).value;
    assert list[i := q] == list && q.(enabled := enabled) == q;
  }

  lemma LoadFailsPlans(lib: Library, cfg: Config, list: seq<Peer>, request: Request, inputs: Inputs)
    requires !request.CreatePeer? && inputs.loadFails
    ensures PlanOf(lib, cfg, Some(list), request, inputs).Err?
  {
  }

  /**
   * A SetEnabled that succeeded, done again: the list stays what it is however the second one ends, and the
   * device too unless one of its calls fails.
   */
  lemma SwitchingAgain(lib: Library, cfg: Config, s: Sys, publicKey: string, enabled: bool, inputs: Inputs,
      again: Inputs, save: SaveEnd)
    requires var first := Finished(SetEnabled(publicKey, enabled), inputs, Saved);
      && Inv(lib, cfg, s) && Possible(lib, cfg, s, first) && inputs.apply.Done?
      && PlanOf(lib, cfg, s.view.current, first.request, inputs).Ok?
    ensures var s1 := After(lib, cfg, s, Finished(SetEnabled(publicKey, enabled), inputs, Saved));
      var s2 := After(lib, cfg, s1, Finished(SetEnabled(publicKey, enabled), again, save));
      && s2.view.current == s1.view.current && s2.view.survivors == s1.view.survivors
      && (again.apply.Done? && (save.Saved? || again.undo.Done?) ==> s2.view == s1.view)
  {
    var request := SetEnabled(publicKey, enabled);
    hide Good, KeyOf, Home, Networks, Reread, Configure, ConfigFor, RemovalFor, PlanSetEnabled, Settles, Routed, Tracks;
    var plan := PlanOf(lib, cfg, s.view.current, request, inputs).value;
    var p := RequestPlan(lib, cfg, s.view.current.value, request, inputs);
    RereadGood(lib, cfg.net, plan.list);
    SwitchedSubject(lib, cfg.net, s.view.current.value, publicKey, enabled, plan, p);
    hide Subject, PlanFor;
    if !again.loadFails {
      RepeatedSwitch(lib, cfg, plan.list, publicKey, enabled, again, p.(enabled := enabled));
      ConfigureTwice(s.view.table, p.(enabled := enabled));
    } else {
      LoadFailsPlans(lib, cfg, plan.list, request, again);
    }
  }

  lemma DeletedIsGone(lib: Library, net: Network, peers: seq<Peer>, publicKey: string, plan: Plan, p: Peer)
    requires Good(lib, net, peers) && Subject(peers, DeletePeer(publicKey), plan, p)
    ensures FindPeer(plan.list, publicKey).None?
  {
    hide Good, ConfigFor, RemovalFor;
    var i :| 0 <= i < |peers| && peers[i] == p && plan.list == Without(peers, i);
    if FindPeer(plan.list, publicKey).Some? {
      var q := plan.list[FindPeer(plan.list, publicKey).value];
      WithoutMembers(peers, i);
      MemberPair(lib, net, peers, p, q);
      NotWithout(lib, net, peers, i);
    }
  }

  lemma NothingToDelete(lib: Library, cfg: Config, list: seq<Peer>, publicKey: string, inputs: Inputs)
    requires FindPeer(list, publicKey).None?
    ensures PlanDelete(lib, cfg, Some(list), publicKey, inputs).Err?
  {
    hide ValidState;
  }

  /** A DeletePeer that succeeded, done again, changes nothing at all. */
  lemma DeletingAgain(lib: Library, cfg: Config, s: Sys, publicKey: string, inputs: Inputs, again: Inputs,
      save: SaveEnd)
    requires var first := Finished(DeletePeer(publicKey), inputs, Saved);
      && Inv(lib, cfg, s) && Possible(lib, cfg, s, first) && inputs.apply.Done?
      && PlanOf(lib, cfg, s.view.current, first.request, inputs).Ok?
    ensures var s1 := After(lib, cfg, s, Finished(DeletePeer(publicKey), inputs, Saved));
      After(lib, cfg, s1, Finished(DeletePeer(publicKey), again, save)) == s1
  {
    var request := DeletePeer(publicKey);
    hide Good, KeyOf, Home, Networks, Reread, Configure, ConfigFor, RemovalFor, Settles, Routed, Tracks, Subject;
    var peers := s.view.current.value;
    var plan := PlanOf(lib, cfg, s.view.current, request, inputs).value;
    var p := RequestPlan(lib, cfg, peers, request, inputs);
    RereadGood(lib, cfg.net, plan.list);
    hide PlanFor, PlanDelete;
    DeletedIsGone(lib, cfg.net, peers, publicKey, plan, p);
    NothingToDelete(lib, cfg, plan.list, publicKey, again);
  }
}
