/** What follows from the invariant of all runs: frames, recovery, stable configurations, repeated operations. */
module Theorems {
  import opened Prelude
  import opened Text
  import opened Keys
  import opened Device
  import opened Peers
  import opened Store
  import opened Operations
  import opened Protocol
  import opened Reconciling
  import opened Runs

  // ---- frame ----

  /** The event is about this key: it was planned for it. */
  ghost predicate Concerns(lib: Library, cfg: Config, s: Sys, e: Event, k: Key)
  {
    && (e.Finished? || e.CutOff?)
    && PlanOf(lib, cfg, s.view.current, e.request, e.inputs).Ok?
    && PlanOf(lib, cfg, s.view.current, e.request, e.inputs).value.forward.key == k
  }

  lemma ConcernedFrame(lib: Library, cfg: Config, s: Sys, e: Event, p: Peer)
    requires Inv(lib, cfg, s) && Possible(lib, cfg, s, e) && s.up && (e.Finished? || e.CutOff?)
    requires PlanOf(lib, cfg, s.view.current, e.request, e.inputs).Ok? && !Concerns(lib, cfg, s, e, KeyOf(p))
    ensures var w := After(lib, cfg, s, e).view;
      && w.current.Some? && (p in s.view.current.value <==> p in w.current.value)
      && (p in s.view.current.value ==> (AgreesAt(p, s.view.table) <==> AgreesAt(p, w.table)))
  {
    hide Good, PlanOf, FreshKey, Routed, CarryOut, AgreesAt, HoldsHome, Moment, Within, Settles, KeyOf, Home;
    var plan := PlanOf(lib, cfg, s.view.current, e.request, e.inputs).value;
    var q := RequestPlan(lib, cfg, s.view.current.value, e.request, e.inputs);
    OwnKey(lib, cfg.net, s.view.current.value, plan, KeyOf(q), Home(q));
    hide PlanFor, Subject;
    var w := After(lib, cfg, s, e).view;
    if e.Finished? {
      CarryOutWithin(lib, cfg.net, s.view, plan, KeyOf(q), Home(q), e.inputs, e.save);
    } else {
      MomentWithin(lib, cfg.net, s.view, plan, KeyOf(q), Home(q), w);
    }
    WithinKeepsOthers(lib, cfg.net, s.view, plan, KeyOf(q), Home(q), w, p);
  }

  /**
   * Frame: an operation, finished or cut off, with any failures, changes neither the record nor the agreement
   * of any key but its own; and it has one own key at most.
   */
  lemma OperationFrame(lib: Library, cfg: Config, s: Sys, e: Event, p: Peer)
    requires Inv(lib, cfg, s) && Possible(lib, cfg, s, e) && s.up && (e.Finished? || e.CutOff?)
    requires !Concerns(lib, cfg, s, e, KeyOf(p))
    ensures var w := After(lib, cfg, s, e).view;
      && w.current.Some? && (p in s.view.current.value <==> p in w.current.value)
      && (p in s.view.current.value ==> (AgreesAt(p, s.view.table) <==> AgreesAt(p, w.table)))
  {
    if PlanOf(lib, cfg, s.view.current, e.request, e.inputs).Ok? {
      ConcernedFrame(lib, cfg, s, e, p);
    } else {
      hide Good, PlanOf, FreshKey, Routed, AgreesAt, Tracks, KeyOf;
    }
  }

  /** While the agent is up, an enabled listed peer that is settled is the only one on the device with its address. */
  lemma AddressIsExclusive(lib: Library, cfg: Config, s: Sys, p: Peer, k: Key)
    requires Inv(lib, cfg, s) && s.up && p in s.view.current.value && p.enabled && KeyOf(p) !in s.dirty
    requires k in s.view.table && Home(p) in s.view.table[k].allowed
    ensures k == KeyOf(p)
  {
    hide Good, KeyOf, Home, HoldsHome;
  }

  lemma LoadsGood(lib: Library, net: Network, peers: seq<Peer>)
    requires Good(lib, net, peers)
    ensures LoadState(lib, net, Some(peers), false) == Ok(peers)
  {
    hide ValidState;
  }

  lemma CutOffLists(lib: Library, cfg: Config, s: Sys, e: Event)
    requires Inv(lib, cfg, s) && Possible(lib, cfg, s, e) && e.CutOff?
    ensures var plan := PlanOf(lib, cfg, s.view.current, e.request, e.inputs).value;
      var w := After(lib, cfg, s, e).view;
      && (w.current == s.view.current || w.current == Some(plan.list))
      && w.survivors <= s.view.survivors + {Some(plan.list)}
  {
    hide Good, PlanOf, FreshKey, Routed, Tracks, TouchesOnly;
    var plan := PlanOf(lib, cfg, s.view.current, e.request, e.inputs).value;
    var p := RequestPlan(lib, cfg, s.view.current.value, e.request, e.inputs);
    assert Good(lib, cfg.net, plan.list) by {
      hide KeyOf, Home, Networks, Subject;
    }
    hide KeyOf, Home, PlanFor, Subject, Reread;
    RereadGood(lib, cfg.net, plan.list);
  }

  // ---- configurations ----

  /** The same record, but for `enabled`. */
  predicate SameRecord(p: Peer, q: Peer)
  {
    q == p.(enabled := q.enabled)
  }

  predicate Lists(peers: seq<Peer>, p: Peer)
  {
    exists i :: 0 <= i < |peers| && SameRecord(p, peers[i])
  }

  /** Every list that may be read has the record. */
  ghost predicate Kept(v: View, p: Peer)
  {
    forall s :: s in v.survivors ==> s.Some? && Lists(s.value, p)
  }

  /** The event deletes the key: the deletion stored its list, or was cut off. */
  predicate Deletes(e: Event, publicKey: string)
  {
    match e
    case Finished(request, inputs, save) => request == DeletePeer(publicKey) && inputs.apply.Done? && !save.NotReplaced?
    case CutOff(request, _, _) => request == DeletePeer(publicKey)
    case _ => false
  }

  lemma SameSwitched(p: Peer, q: Peer, enabled: bool)
    requires SameRecord(p, q)
    ensures SameRecord(p, q.(enabled := enabled))
  {
  }

  lemma SameKey(p: Peer, q: Peer)
    requires SameRecord(p, q)
    ensures p.publicKey == q.publicKey
  {
  }

  lemma PlanKeepsRecord(lib: Library, cfg: Config, peers: seq<Peer>, request: Request, inputs: Inputs, p: Peer)
    requires Good(lib, cfg.net, peers) && PlanOf(lib, cfg, Some(peers), request, inputs).Ok?
    requires request.CreatePeer? && inputs.draw.Some? ==> FreshKey(lib, peers, inputs.draw.value)
    requires Lists(peers, p) && request != DeletePeer(p.publicKey)
    ensures Lists(PlanOf(lib, cfg, Some(peers), request, inputs).value.list, p)
  {
    hide Good, PlanOf, FreshKey, KeyOf, Home, PlanFor, ConfigFor, RemovalFor, SameRecord;
    var list := PlanOf(lib, cfg, Some(peers), request, inputs).value.list;
    var s := RequestPlan(lib, cfg, peers, request, inputs);
    var j :| 0 <= j < |peers| && SameRecord(p, peers[j]);
    match request
    case CreatePeer(_) =>
      assert list[j] == peers[j];
    case SetEnabled(_, enabled) =>
      assert list[j] == peers[j] || list[j] == peers[j].(enabled := enabled);
      assert SameRecord(p, peers[j].(enabled := enabled)) by {
        SameSwitched(p, peers[j], enabled);
      }
    case DeletePeer(_) =>
      var i :| 0 <= i < |peers| && peers[i] == s && list == Without(peers, i);
      assert i != j by {
        SameKey(p, peers[j]);
      }
      assert list[if j < i then j else j - 1] == peers[j];
  }

  lemma FinishedLists(lib: Library, cfg: Config, s: Sys, e: Event)
    requires Inv(lib, cfg, s) && Possible(lib, cfg, s, e) && e.Finished?
    ensures var planned, w := PlanOf(lib, cfg, s.view.current, e.request, e.inputs), After(lib, cfg, s, e).view;
      if planned.Err? || e.inputs.apply.Failed? || e.save.NotReplaced? then w.survivors == s.view.survivors
      else w.survivors <= s.view.survivors + {Some(planned.value.list)}
  {
    hide Good, PlanOf, FreshKey, Routed, Tracks, Configure, Settles;
    var planned := PlanOf(lib, cfg, s.view.current, e.request, e.inputs);
    if planned.Ok? {
      var p := RequestPlan(lib, cfg, s.view.current.value, e.request, e.inputs);
      assert Good(lib, cfg.net, planned.value.list) by {
        hide KeyOf, Home, Networks, Subject;
      }
      hide KeyOf, Home, PlanFor, Subject, Reread;
      RereadGood(lib, cfg.net, planned.value.list);
    }
  }

  lemma EventKeepsRecord(lib: Library, cfg: Config, s: Sys, e: Event, p: Peer)
    requires Inv(lib, cfg, s) && Possible(lib, cfg, s, e) && Kept(s.view, p) && !Deletes(e, p.publicKey)
    ensures Kept(After(lib, cfg, s, e).view, p)
  {
    hide Good, PlanOf, FreshKey, Routed, Tracks, Lists, CarryOut, Settles, Moment, Push, LoadState;
    match e
    case Finished(request, inputs, save) =>
      FinishedLists(lib, cfg, s, e);
      var planned := PlanOf(lib, cfg, s.view.current, request, inputs);
      if planned.Ok? && request != DeletePeer(p.publicKey) {
        PlanKeepsRecord(lib, cfg, s.view.current.value, request, inputs, p);
      }
    case CutOff(request, inputs, moment) =>
      CutOffLists(lib, cfg, s, e);
      PlanKeepsRecord(lib, cfg, s.view.current.value, request, inputs, p);
    case _ =>
  }

  /** No run that does not delete the key loses its record, from any list that may be read. */
  lemma {:induction false} RunKeepsRecord(lib: Library, cfg: Config, s: Sys, run: seq<Event>, p: Peer)
    requires Inv(lib, cfg, s) && PossibleRun(lib, cfg, s, run) && Kept(s.view, p)
    requires forall e :: e in run ==> !Deletes(e, p.publicKey)
    ensures Kept(StateAfter(lib, cfg, s, run).view, p)
    decreases |run|
  {
    if run != [] {
      RunParts(lib, cfg, s, run);
      hide Inv, Possible, PossibleRun, After, Kept, Deletes;
      var n := |run| - 1;
      RunsKeepInv(lib, cfg, s, run[..n]);
      RunKeepsRecord(lib, cfg, s, run[..n], p);
      EventKeepsRecord(lib, cfg, StateAfter(lib, cfg, s, run[..n]), run[n], p);
    }
  }

  lemma RenderSame(cfg: Config, p: Peer, q: Peer, serverKey: Key)
    requires SameRecord(p, q)
    ensures Render(cfg, p, serverKey) == Render(cfg, q, serverKey)
  {
    hide Join, Dec, PrintKey;
  }

  lemma RenderFound(lib: Library, cfg: Config, peers: seq<Peer>, p: Peer, inputs: Inputs, deviceKey: Key)
    requires Good(lib, cfg.net, peers) && Lists(peers, p)
    requires !inputs.loadFails && inputs.deviceKey == Some(deviceKey)
    ensures ConfigurationOf(lib, cfg, Some(peers), p.publicKey, inputs) == Ok(Render(cfg, p, deviceKey))
  {
    hide Good, LoadState, Render, SameRecord;
    LoadsGood(lib, cfg.net, peers);
    var j :| 0 <= j < |peers| && SameRecord(p, peers[j]);
    SameKey(p, peers[j]);
    var i := FindPeer(peers, p.publicKey).value;
    assert peers[i] in peers && peers[j] in peers;
    MemberPair(lib, cfg.net, peers, peers[i], peers[j]);
    RenderSame(cfg, p, peers[j], deviceKey);
  }

  /**
   * Configuration stability: whatever happens after a record was stored, short of deleting it, a Configuration
   * call for its key that can read the list and the device key returns the same text.
   */
  lemma ConfigurationIsStable(lib: Library, cfg: Config, s: Sys, run: seq<Event>, p: Peer, inputs: Inputs,
      deviceKey: Key)
    requires Inv(lib, cfg, s) && PossibleRun(lib, cfg, s, run) && Kept(s.view, p)
    requires forall e :: e in run ==> !Deletes(e, p.publicKey)
    requires !inputs.loadFails && inputs.deviceKey == Some(deviceKey)
    ensures ConfigurationOf(lib, cfg, StateAfter(lib, cfg, s, run).view.current, p.publicKey, inputs)
         == Ok(Render(cfg, p, deviceKey))
  {
    RunsKeepInv(lib, cfg, s, run);
    RunKeepsRecord(lib, cfg, s, run, p);
    hide Good, Routed, Tracks, Lists, StateAfter, PossibleRun, Deletes, Render, ConfigurationOf;
    RenderFound(lib, cfg, StateAfter(lib, cfg, s, run).view.current.value, p, inputs, deviceKey);
  }

  lemma CreateReadsDevice(lib: Library, cfg: Config, current: Option<seq<Peer>>, name: string, inputs: Inputs)
    requires PlanCreate(lib, cfg, current, name, inputs).Ok?
    ensures inputs.deviceKey.Some?
  {
    hide ValidState, ApplyConfig, RemoveConfig;
  }

  lemma CreatedPlan(lib: Library, cfg: Config, peers: seq<Peer>, name: string, inputs: Inputs) returns (p: Peer)
    requires Good(lib, cfg.net, peers) && PlanCreate(lib, cfg, Some(peers), name, inputs).Ok?
    requires inputs.draw.Some? ==> FreshKey(lib, peers, inputs.draw.value)
    ensures inputs.deviceKey.Some?
    ensures var list := PlanCreate(lib, cfg, Some(peers), name, inputs).value.list;
      list == peers + [p] && Reread(list) == Some(list)
  {
    hide Good, PlanCreate, FreshKey, KeyOf, Home, ConfigFor, RemovalFor, Networks;
    p := CreateSubject(lib, cfg, peers, name, inputs);
    CreateReadsDevice(lib, cfg, Some(peers), name, inputs);
    hide Reread;
    RereadGood(lib, cfg.net, PlanCreate(lib, cfg, Some(peers), name, inputs).value.list);
  }

  /** The text CreatePeer returns is that of a record which is then in every list that may be read. */
  lemma CreatedIsKept(lib: Library, cfg: Config, s: Sys, name: string, inputs: Inputs)
    requires Inv(lib, cfg, s) && Possible(lib, cfg, s, Finished(CreatePeer(name), inputs, Saved))
    requires PlanCreate(lib, cfg, s.view.current, name, inputs).Ok? && inputs.apply.Done?
    ensures var list := PlanCreate(lib, cfg, s.view.current, name, inputs).value.list;
      && list != [] && inputs.deviceKey.Some?
      && var p := list[|list| - 1];
         && Kept(After(lib, cfg, s, Finished(CreatePeer(name), inputs, Saved)).view, p)
         && CreatedBy(cfg, list, inputs.deviceKey)
              == CreatedPeer(p.name, p.publicKey, Render(cfg, p, inputs.deviceKey.value))
  {
    hide Good, PlanCreate, FreshKey, Routed, Tracks, Configure, Settles, Render, Reread;
    var peers := s.view.current.value;
    var p := CreatedPlan(lib, cfg, peers, name, inputs);
    var list := peers + [p];
    assert list[|list| - 1] == p && SameRecord(p, p);
    assert Lists(list, p);
    hide Lists, SameRecord;
  }
}
