/**
 * Runs of the agent: operations that may fail at any step, the process or the power dying at any moment, and
 * restarts that reconcile the device. What holds in every state of every run.
 */
module Runs {
  import opened Prelude
  import opened Text
  import opened Ipv4
  import opened Keys
  import opened Device
  import opened Peers
  import opened Store
  import opened Operations
  import opened Protocol
  import opened Reconciling

  datatype Request =
    | CreatePeer(name: string)
    | SetEnabled(publicKey: string, enabled: bool)
    | DeletePeer(publicKey: string)

  function PlanOf(lib: Library, cfg: Config, current: Option<seq<Peer>>, request: Request,
      inputs: Inputs): Result<Plan, Failure>
  {
    match request
    case CreatePeer(name) => PlanCreate(lib, cfg, current, name, inputs)
    case SetEnabled(publicKey, enabled) => PlanSetEnabled(lib, cfg, current, publicKey, enabled, inputs)
    case DeletePeer(publicKey) => PlanDelete(lib, cfg, current, publicKey, inputs)
  }

  /**
   * `CutOff`: the process dies at `moment` of an operation. `PowerLost`: the machine comes back with a list
   * that survived and any device. `Restarted`: the agent starts and reconciles; a failing call ends it.
   */
  datatype Event =
    | Finished(request: Request, inputs: Inputs, save: SaveEnd)
    | CutOff(request: Request, inputs: Inputs, moment: View)
    | Stopped
    | PowerLost(list: Option<seq<Peer>>, table: Table)
    | Restarted(loadFails: bool, calls: seq<Call>)

  /** `up`: the agent runs. `dirty`: the keys whose last operation since the start left them unsettled. */
  datatype Sys = Sys(view: View, up: bool, dirty: set<Key>)

  /** Drawn keys are assumed to be new: no list that may be read has them. */
  ghost predicate Fresh(lib: Library, v: View, request: Request, inputs: Inputs)
  {
    request.CreatePeer? && inputs.draw.Some? ==>
      forall s :: s in v.survivors && s.Some? ==> FreshKey(lib, s.value, inputs.draw.value)
  }

  ghost predicate Possible(lib: Library, cfg: Config, s: Sys, e: Event)
  {
    match e
    case Finished(request, inputs, _) => s.up && Fresh(lib, s.view, request, inputs)
    case CutOff(request, inputs, moment) =>
      var plan := PlanOf(lib, cfg, s.view.current, request, inputs);
      s.up && Fresh(lib, s.view, request, inputs) && plan.Ok? && Moment(s.view, plan.value, moment)
    case Stopped => s.up
    case PowerLost(list, table) => list in s.view.survivors && Routed(table)
    case Restarted(_, _) => !s.up
  }

  /** The operation left its own key settled: it succeeded, or it was rolled back. */
  predicate Settles(inputs: Inputs, save: SaveEnd)
  {
    inputs.apply.Done? && (save.Saved? || (save.NotReplaced? && inputs.undo.Done?))
  }

  function After(lib: Library, cfg: Config, s: Sys, e: Event): Sys
  {
    match e
    case Finished(request, inputs, save) =>
      (match PlanOf(lib, cfg, s.view.current, request, inputs)
       case Err(_) => s
       case Ok(plan) =>
         Sys(CarryOut(s.view, plan, inputs, save).0, true,
           if Settles(inputs, save) then s.dirty - {plan.forward.key} else s.dirty + {plan.forward.key}))
    case CutOff(_, _, moment) => Sys(moment, false, {})
    case Stopped => Sys(s.view, false, {})
    case PowerLost(list, table) => Sys(View(list, {list}, table), false, {})
    case Restarted(loadFails, calls) =>
      match LoadState(lib, cfg.net, s.view.current, loadFails)
      case Err(_) => s
      case Ok(peers) =>
        var (table, ok) := Push(lib, s.view.table, peers, 0, calls);
        Sys(s.view.(table := table), ok, {})
  }

  function StateAfter(lib: Library, cfg: Config, s: Sys, run: seq<Event>): Sys
    decreases |run|
  {
    if run == [] then s
    else After(lib, cfg, StateAfter(lib, cfg, s, run[..|run| - 1]), run[|run| - 1])
  }

  ghost predicate PossibleRun(lib: Library, cfg: Config, s: Sys, run: seq<Event>)
  {
    forall i :: 0 <= i < |run| ==> Possible(lib, cfg, StateAfter(lib, cfg, s, run[..i]), run[i])
  }

  // ---- the invariant ----

  /** Every listed peer that is not unsettled has on the device what the list says, and none has a foreign network. */
  predicate Tracks(peers: seq<Peer>, t: Table, dirty: set<Key>)
  {
    HoldsHome(peers, t) && forall p :: p in peers && KeyOf(p) !in dirty ==> AgreesAt(p, t)
  }

  ghost predicate Inv(lib: Library, cfg: Config, s: Sys)
  {
    && GoodLists(lib, cfg.net, s.view)
    && Routed(s.view.table)
    && (s.up ==> Tracks(s.view.current.value, s.view.table, s.dirty))
  }

  /** What a request that can be planned is about: the record it makes, switches or deletes. */
  ghost predicate Subject(peers: seq<Peer>, request: Request, plan: Plan, p: Peer)
  {
    match request
    case CreatePeer(_) => plan == Plan(peers + [p], ConfigFor(p), Some(RemovalFor(p))) && p !in peers
    case SetEnabled(publicKey, enabled) =>
      && p.publicKey == publicKey
      && exists i :: 0 <= i < |peers| && peers[i] == p
           && plan == Plan(peers[i := p.(enabled := enabled)], ConfigFor(p.(enabled := enabled)), Some(ConfigFor(p)))
    case DeletePeer(publicKey) =>
      && p.publicKey == publicKey
      && exists i :: 0 <= i < |peers| && peers[i] == p
           && plan == Plan(Without(peers, i), RemovalFor(p), Some(ConfigFor(p)))
  }

  lemma FailedLoadPlansNothing(lib: Library, cfg: Config, peers: seq<Peer>, request: Request, inputs: Inputs)
    requires PlanOf(lib, cfg, Some(peers), request, inputs).Ok?
    ensures !inputs.loadFails
    ensures request.SetEnabled? ==> FindPeer(peers, request.publicKey).Some?
    ensures request.DeletePeer? ==> FindPeer(peers, request.publicKey).Some?
    ensures request.CreatePeer? ==> inputs.draw.Some?
  {
    hide ValidState, ApplyConfig, RemoveConfig;
  }

  lemma CreateSubject(lib: Library, cfg: Config, peers: seq<Peer>, name: string, inputs: Inputs) returns (p: Peer)
    requires Good(lib, cfg.net, peers) && PlanCreate(lib, cfg, Some(peers), name, inputs).Ok?
    requires inputs.draw.Some? ==> FreshKey(lib, peers, inputs.draw.value)
    ensures var plan := PlanCreate(lib, cfg, Some(peers), name, inputs).value;
      Subject(peers, CreatePeer(name), plan, p) && PlanFor(lib, cfg.net, peers, plan, KeyOf(p), Home(p))
  {
    hide Good, PlanFor, KeyOf, Home, ConfigFor, RemovalFor;
    FailedLoadPlansNothing(lib, cfg, peers, CreatePeer(name), inputs);
    CreatePlanFor(lib, cfg, peers, name, inputs);
    hide PlanCreate;
    p := NewPeer(lib, TrimSpace(name), NextAddress(cfg.net, peers).value, inputs.draw.value);
  }

  /** Every plan that is made on a good list is about one record, and leads to a good list. */
  lemma RequestPlan(lib: Library, cfg: Config, peers: seq<Peer>, request: Request, inputs: Inputs) returns (p: Peer)
    requires Good(lib, cfg.net, peers) && PlanOf(lib, cfg, Some(peers), request, inputs).Ok?
    requires request.CreatePeer? && inputs.draw.Some? ==> FreshKey(lib, peers, inputs.draw.value)
    ensures var plan := PlanOf(lib, cfg, Some(peers), request, inputs).value;
      Subject(peers, request, plan, p) && PlanFor(lib, cfg.net, peers, plan, KeyOf(p), Home(p))
  {
    hide Good, PlanFor, KeyOf, Home, ConfigFor, RemovalFor, PlanCreate, PlanSetEnabled, PlanDelete, FreshKey, FindPeer;
    FailedLoadPlansNothing(lib, cfg, peers, request, inputs);
    match request
    case CreatePeer(name) =>
      p := CreateSubject(lib, cfg, peers, name, inputs);
    case SetEnabled(publicKey, enabled) =>
      var i := FindPeer(peers, publicKey).value;
      p := peers[i];
      SetEnabledPlanFor(lib, cfg, peers, publicKey, enabled, inputs);
      TogglePlanFor(lib, cfg.net, peers, i, enabled);
    case DeletePeer(publicKey) =>
      var i := FindPeer(peers, publicKey).value;
      p := peers[i];
      DeletePlanFor(lib, cfg, peers, publicKey, inputs);
      RemovalPlanFor(lib, cfg.net, peers, i);
  }

  // ---- every event keeps it ----

  lemma ReachesHome(lib: Library, net: Network, peers: seq<Peer>, plan: Plan, k: Key, home: Prefix)
    requires PlanFor(lib, net, peers, plan, k, home)
    ensures Reach(plan) <= {home} && plan.forward.key == k
  {
    hide Good, Networks, KeyOf, Home;
  }

  lemma MomentWithin(lib: Library, net: Network, v: View, plan: Plan, k: Key, home: Prefix, w: View)
    requires v.current.Some? && PlanFor(lib, net, v.current.value, plan, k, home) && Moment(v, plan, w)
    ensures Within(v, plan, k, home, w)
  {
    hide PlanFor, ListWithin, TouchesOnly, Reach, Routed;
    ReachesHome(lib, net, v.current.value, plan, k, home);
    TouchesMore(v.table, w.table, k, Reach(plan), {home});
  }

  lemma ConfigureKeepsRouted(t: Table, c: PeerConfig, call: Call)
    requires Routed(t)
    ensures Routed(Configure(t, c, call))
  {
    hide Routed, Perform, Actions;
    PerformKeepsRouted(t, c.key, Actions(c)[..StepsDone(call, |Actions(c)|)]);
  }

  lemma CarryOutKeepsRouted(v: View, plan: Plan, inputs: Inputs, save: SaveEnd)
    requires Routed(v.table)
    ensures Routed(CarryOut(v, plan, inputs, save).0.table)
  {
    hide Routed, Configure, Reread;
    var t1 := Configure(v.table, plan.forward, inputs.apply);
    ConfigureKeepsRouted(v.table, plan.forward, inputs.apply);
    if plan.backward.Some? {
      ConfigureKeepsRouted(t1, plan.backward.value, inputs.undo);
    }
  }

  lemma {:induction false} PushKeepsRouted(lib: Library, t: Table, peers: seq<Peer>, i: nat, calls: seq<Call>)
    requires Routed(t) && i <= |peers|
    ensures Routed(Push(lib, t, peers, i, calls).0)
    decreases |peers| - i
  {
    hide Routed, Configure, ApplyConfig, CallAt;
    if i < |peers| && ApplyConfig(lib, peers[i]).Some? {
      var c := ApplyConfig(lib, peers[i]).value;
      ConfigureKeepsRouted(t, c, CallAt(calls, i));
      PushKeepsRouted(lib, Configure(t, c, CallAt(calls, i)), peers, i + 1, calls);
    }
  }

  lemma ConfiguredAgrees(t: Table, p: Peer)
    ensures AgreesAt(p, Configure(t, ConfigFor(p), Done))
  {
    hide KeyOf, PskOf, Slot, Configure;
    ConfigureIsSetPeer(t, ConfigFor(p));
  }

  lemma SubjectRecord(lib: Library, net: Network, peers: seq<Peer>, request: Request, plan: Plan, p: Peer, q: Peer)
    requires Good(lib, net, peers)
    requires PlanFor(lib, net, peers, plan, KeyOf(p), Home(p)) && Subject(peers, request, plan, p)
    requires q in peers && KeyOf(q) == KeyOf(p)
    ensures q == p && !request.CreatePeer? && plan.backward == Some(ConfigFor(p))
  {
    hide Good, KeyOf, Home, ConfigFor, RemovalFor;
    if request.CreatePeer? {
      assert plan.list[|peers|] == p;
      MemberPair(lib, net, plan.list, p, q);
    } else {
      MemberPair(lib, net, peers, p, q);
    }
  }

  /** An operation that succeeds or is rolled back leaves its own peer in agreement, whatever was there before. */
  lemma SettledAgrees(lib: Library, net: Network, v: View, request: Request, plan: Plan, p: Peer, inputs: Inputs,
      save: SaveEnd, q: Peer)
    requires GoodLists(lib, net, v) && PlanFor(lib, net, v.current.value, plan, KeyOf(p), Home(p))
    requires Subject(v.current.value, request, plan, p) && Settles(inputs, save)
    requires var w := CarryOut(v, plan, inputs, save).0; w.current.Some? && q in w.current.value && KeyOf(q) == KeyOf(p)
    ensures AgreesAt(q, CarryOut(v, plan, inputs, save).0.table)
  {
    hide Good, KeyOf, Home, ConfigFor, RemovalFor, Configure, Reread, AgreesAt, Subject, PlanFor;
    if save.Saved? {
      SuccessAgrees(lib, net, v, plan, KeyOf(p), Home(p), inputs, q);
    } else {
      SubjectRecord(lib, net, v.current.value, request, plan, p, q);
      ConfiguredAgrees(Configure(v.table, plan.forward, Done), p);
    }
  }

  lemma OwnKey(lib: Library, net: Network, peers: seq<Peer>, plan: Plan, k: Key, home: Prefix)
    requires PlanFor(lib, net, peers, plan, k, home)
    ensures plan.forward.key == k
  {
    hide Good, KeyOf, Home, Networks;
  }

  lemma FinishedTracks(lib: Library, net: Network, v: View, request: Request, plan: Plan, p: Peer, inputs: Inputs,
    save: SaveEnd, dirty: set<Key>, after: set<Key>)
    requires GoodLists(lib, net, v) && PlanFor(lib, net, v.current.value, plan, KeyOf(p), Home(p))
    requires Subject(v.current.value, request, plan, p) && Tracks(v.current.value, v.table, dirty)
    requires after == if Settles(inputs, save) then dirty - {KeyOf(p)} else dirty + {KeyOf(p)}
    ensures var w := CarryOut(v, plan, inputs, save).0;
      GoodLists(lib, net, w) && Tracks(w.current.value, w.table, after)
  {
    hide Good, PlanFor, Subject, KeyOf, Home, CarryOut, HoldsHome, AgreesAt, Settles, Within;
    var w := CarryOut(v, plan, inputs, save).0;
    CarryOutWithin(lib, net, v, plan, KeyOf(p), Home(p), inputs, save);
    WithinKeepsGood(lib, net, v, plan, KeyOf(p), Home(p), w);
    CarryOutHoldsHome(lib, net, v, plan, KeyOf(p), Home(p), inputs, save);
    forall q | q in w.current.value && KeyOf(q) !in after ensures AgreesAt(q, w.table) {
      if KeyOf(q) == KeyOf(p) {
        SettledAgrees(lib, net, v, request, plan, p, inputs, save, q);
      } else {
        WithinKeepsOthers(lib, net, v, plan, KeyOf(p), Home(p), w, q);
      }
    }
  }

  lemma FinishedKeepsInv(lib: Library, cfg: Config, s: Sys, e: Event)
    requires Inv(lib, cfg, s) && Possible(lib, cfg, s, e) && e.Finished?
    ensures Inv(lib, cfg, After(lib, cfg, s, e))
  {
    hide Good, PlanOf, FreshKey, Routed, Tracks, CarryOut, Settles;
    var planned := PlanOf(lib, cfg, s.view.current, e.request, e.inputs);
    if planned.Ok? {
      var p := RequestPlan(lib, cfg, s.view.current.value, e.request, e.inputs);
      OwnKey(lib, cfg.net, s.view.current.value, planned.value, KeyOf(p), Home(p));
      hide KeyOf, Home, PlanFor, Subject;
      FinishedTracks(lib, cfg.net, s.view, e.request, planned.value, p, e.inputs, e.save, s.dirty,
        After(lib, cfg, s, e).dirty);
      CarryOutKeepsRouted(s.view, planned.value, e.inputs, e.save);
    }
  }

  lemma CutOffKeepsInv(lib: Library, cfg: Config, s: Sys, e: Event)
    requires Inv(lib, cfg, s) && Possible(lib, cfg, s, e) && e.CutOff?
    ensures Inv(lib, cfg, After(lib, cfg, s, e))
  {
    hide Good, PlanOf, FreshKey, Routed, Tracks, ListWithin, TouchesOnly;
    var plan := PlanOf(lib, cfg, s.view.current, e.request, e.inputs).value;
    var p := RequestPlan(lib, cfg, s.view.current.value, e.request, e.inputs);
    hide KeyOf, Home, PlanFor, Subject;
    MomentWithin(lib, cfg.net, s.view, plan, KeyOf(p), Home(p), e.moment);
    WithinKeepsGood(lib, cfg.net, s.view, plan, KeyOf(p), Home(p), e.moment);
  }

  lemma ReconciledTracks(lib: Library, net: Network, t: Table, peers: seq<Peer>, calls: seq<Call>)
    requires Good(lib, net, peers) && Push(lib, t, peers, 0, calls).1
    ensures Tracks(peers, Push(lib, t, peers, 0, calls).0, {})
    ensures Push(lib, t, peers, 0, calls).0 == Closed(t, peers)
  {
    hide Good, Closed, AgreesAt, HoldsHome, Push;
    ReconcileClosed(lib, net, t, peers, calls);
    ClosedAgrees(lib, net, t, peers);
    forall p | p in peers ensures AgreesAt(p, Closed(t, peers)) {
      var i :| 0 <= i < |peers| && peers[i] == p;
    }
  }

  lemma RestartKeepsInv(lib: Library, cfg: Config, s: Sys, e: Event)
    requires Inv(lib, cfg, s) && Possible(lib, cfg, s, e) && e.Restarted?
    ensures Inv(lib, cfg, After(lib, cfg, s, e))
  {
    hide Routed, Tracks, Push, Good, ValidState;
    if LoadState(lib, cfg.net, s.view.current, e.loadFails).Ok? {
      var peers := s.view.current.value;
      PushKeepsRouted(lib, s.view.table, peers, 0, e.calls);
      if Push(lib, s.view.table, peers, 0, e.calls).1 {
        ReconciledTracks(lib, cfg.net, s.view.table, peers, e.calls);
      }
    }
  }

  lemma EventKeepsInv(lib: Library, cfg: Config, s: Sys, e: Event)
    requires Inv(lib, cfg, s) && Possible(lib, cfg, s, e)
    ensures Inv(lib, cfg, After(lib, cfg, s, e))
  {
    match e
    case Finished(_, _, _) => FinishedKeepsInv(lib, cfg, s, e);
    case CutOff(_, _, _) => CutOffKeepsInv(lib, cfg, s, e);
    case Restarted(_, _) => RestartKeepsInv(lib, cfg, s, e);
    case Stopped => hide Good, Routed, Tracks;
    case PowerLost(_, _) => hide Good, Routed, Tracks;
  }

  lemma RunParts(lib: Library, cfg: Config, s: Sys, run: seq<Event>)
    requires run != [] && PossibleRun(lib, cfg, s, run)
    ensures var n := |run| - 1;
      PossibleRun(lib, cfg, s, run[..n]) && Possible(lib, cfg, StateAfter(lib, cfg, s, run[..n]), run[n])
  {
    hide Possible, StateAfter;
    var n := |run| - 1;
    forall i | 0 <= i < n ensures run[..n][..i] == run[..i] {
    }
  }

  /**
   * In every state of every run, whatever fails or dies: every list a reader may find is one that the manager
   * accepts, no network belongs to two peers, and while the agent is up each listed peer whose own last
   * operation did not end halfway holds exactly what the list says.
   */
  lemma {:induction false} RunsKeepInv(lib: Library, cfg: Config, s: Sys, run: seq<Event>)
    requires Inv(lib, cfg, s) && PossibleRun(lib, cfg, s, run)
    ensures Inv(lib, cfg, StateAfter(lib, cfg, s, run))
    decreases |run|
  {
    if run != [] {
      RunParts(lib, cfg, s, run);
      hide Inv, Possible, PossibleRun, After;
      RunsKeepInv(lib, cfg, s, run[..|run| - 1]);
      EventKeepsInv(lib, cfg, StateAfter(lib, cfg, s, run[..|run| - 1]), run[|run| - 1]);
    }
  }
}
