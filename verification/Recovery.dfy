/** Coming back after an operation was cut off: which lists can be found then, and what the device holds. */
module Recovery {
  import opened Prelude
  import opened Device
  import opened Peers
  import opened Store
  import opened Operations
  import opened Protocol
  import opened Reconciling
  import opened Runs
  import opened Theorems

  /** After a restart that succeeds, the device agrees with the whole list, and is what the list calls for. */
  lemma RestartAgrees(lib: Library, cfg: Config, s: Sys, calls: seq<Call>)
    requires Inv(lib, cfg, s) && !s.up && After(lib, cfg, s, Restarted(false, calls)).up
    ensures var w := After(lib, cfg, s, Restarted(false, calls));
      && w.view.current == s.view.current && w.view.survivors == s.view.survivors
      && w.view.table == Closed(s.view.table, s.view.current.value)
      && Agrees(s.view.current.value, w.view.table)
  {
    hide Good, Push, Closed, AgreesAt, Tracks, LoadState, Routed;
    var peers := s.view.current.value;
    LoadsGood(lib, cfg.net, peers);
    ReconcileClosed(lib, cfg.net, s.view.table, peers, calls);
    ClosedAgrees(lib, cfg.net, s.view.table, peers);
  }

  /** No operation is begun: the agent stops, or starts and reconciles, perhaps in vain, or power is lost. */
  predicate Outage(e: Event)
  {
    e.Stopped? || e.PowerLost? || e.Restarted?
  }

  lemma OutageKeepsLists(lib: Library, cfg: Config, s: Sys, e: Event)
    requires Possible(lib, cfg, s, e) && Outage(e) && s.view.current in s.view.survivors && s.dirty == {}
    ensures var w := After(lib, cfg, s, e);
      && w.view.survivors <= s.view.survivors && w.view.current in w.view.survivors && w.dirty == {}
      && (!e.PowerLost? ==> w.view.current == s.view.current)
  {
    hide Push, LoadState, Routed;
  }

  lemma {:induction false} OutagesKeepLists(lib: Library, cfg: Config, s: Sys, run: seq<Event>)
    requires PossibleRun(lib, cfg, s, run) && forall e :: e in run ==> Outage(e)
    requires s.view.current in s.view.survivors && s.dirty == {}
    ensures var w := StateAfter(lib, cfg, s, run);
      && w.view.survivors <= s.view.survivors && w.view.current in w.view.survivors && w.dirty == {}
      && ((forall e :: e in run ==> !e.PowerLost?) ==> w.view.current == s.view.current)
    decreases |run|
  {
    if run != [] {
      RunParts(lib, cfg, s, run);
      hide Possible, PossibleRun, After;
      var n := |run| - 1;
      OutagesKeepLists(lib, cfg, s, run[..n]);
      OutageKeepsLists(lib, cfg, StateAfter(lib, cfg, s, run[..n]), run[n]);
    }
  }

  /** The operation is cut off at `moment`, then come the outages, and in the end the agent is up. */
  ghost predicate RecoversBy(lib: Library, cfg: Config, s: Sys, request: Request, inputs: Inputs, moment: View,
    outages: seq<Event>, w: Sys)
  {
    var cut := CutOff(request, inputs, moment);
    var down := After(lib, cfg, s, cut);
    && Possible(lib, cfg, s, cut)
    && (forall e :: e in outages ==> Outage(e)) && PossibleRun(lib, cfg, down, outages)
    && w == StateAfter(lib, cfg, down, outages) && w.up
  }

  ghost predicate RecoversTo(lib: Library, cfg: Config, s: Sys, request: Request, inputs: Inputs, w: Sys)
  {
    exists moment: View, outages: seq<Event> :: RecoversBy(lib, cfg, s, request, inputs, moment, outages, w)
  }

  function ListAfter(lib: Library, cfg: Config, s: Sys, request: Request, inputs: Inputs): Option<seq<Peer>>
  {
    match PlanOf(lib, cfg, s.view.current, request, inputs)
    case Err(_) => s.view.current
    case Ok(plan) => Some(plan.list)
  }

  lemma TracksAll(peers: seq<Peer>, t: Table)
    requires Tracks(peers, t, {})
    ensures Agrees(peers, t) && HoldsHome(peers, t)
  {
    hide AgreesAt, HoldsHome, KeyOf;
  }

  lemma RecoveredBy(lib: Library, cfg: Config, s: Sys, request: Request, inputs: Inputs, moment: View,
    outages: seq<Event>, w: Sys)
    requires Inv(lib, cfg, s) && RecoversBy(lib, cfg, s, request, inputs, moment, outages, w)
    ensures Inv(lib, cfg, w) && w.view.current.Some? && Agrees(w.view.current.value, w.view.table)
    ensures w.view.current in s.view.survivors + {ListAfter(lib, cfg, s, request, inputs)}
    ensures (forall e :: e in outages ==> !e.PowerLost?) ==>
      w.view.current == s.view.current || w.view.current == ListAfter(lib, cfg, s, request, inputs)
  {
    hide PlanOf, StateAfter, PossibleRun, Good, Routed, Tracks, Agrees, Moment, Fresh;
    var cut := CutOff(request, inputs, moment);
    CutOffLists(lib, cfg, s, cut);
    EventKeepsInv(lib, cfg, s, cut);
    OutagesKeepLists(lib, cfg, After(lib, cfg, s, cut), outages);
    RunsKeepInv(lib, cfg, After(lib, cfg, s, cut), outages);
    TracksAll(w.view.current.value, w.view.table);
  }

  /**
   * Crash-restart convergence: an operation is cut off at any moment, then come any outages, in any number, and in the
   * end a restart succeeds. The device agrees with the whole list, and the list is one that could have been read before
   * the operation, or the planned one.
   */
  lemma CrashConverges(lib: Library, cfg: Config, s: Sys, request: Request, inputs: Inputs, w: Sys)
    requires Inv(lib, cfg, s) && RecoversTo(lib, cfg, s, request, inputs, w)
    ensures Inv(lib, cfg, w) && w.view.current.Some? && Agrees(w.view.current.value, w.view.table)
    ensures w.view.current in s.view.survivors + {ListAfter(lib, cfg, s, request, inputs)}
  {
    hide Inv, RecoversBy, Agrees, ListAfter;
    var moment: View, outages: seq<Event> :| RecoversBy(lib, cfg, s, request, inputs, moment, outages, w);
    RecoveredBy(lib, cfg, s, request, inputs, moment, outages, w);
  }

  /** Without a loss of power it is the list before the operation or the planned one. */
  lemma KillConverges(lib: Library, cfg: Config, s: Sys, request: Request, inputs: Inputs, moment: View,
    outages: seq<Event>, w: Sys)
    requires Inv(lib, cfg, s) && RecoversBy(lib, cfg, s, request, inputs, moment, outages, w)
    requires forall e :: e in outages ==> !e.PowerLost?
    ensures w.view.current == s.view.current || w.view.current == ListAfter(lib, cfg, s, request, inputs)
  {
    hide Inv, RecoversBy, ListAfter;
    RecoveredBy(lib, cfg, s, request, inputs, moment, outages, w);
  }

  // ---- exactly which lists can come back ----

  lemma SelfMoment(v: View, plan: Plan)
    requires v.current in v.survivors
    ensures Moment(v, plan, v)
  {
    hide Reread, Routed, Reach;
  }

  lemma SavedMoment(v: View, plan: Plan)
    ensures Moment(v, plan, AfterSave(v, plan.list, Saved))
  {
    hide Reread, Routed, Reach;
  }

  lemma RestartSucceeds(lib: Library, cfg: Config, s: Sys)
    requires !s.up && s.view.current.Some? && Good(lib, cfg.net, s.view.current.value)
    ensures var e := Restarted(false, []);
      Possible(lib, cfg, s, e) && After(lib, cfg, s, e).up && After(lib, cfg, s, e).view.current == s.view.current
  {
    hide Good, LoadState, Push;
    LoadsGood(lib, cfg.net, s.view.current.value);
    ReconcileSucceeds(lib, cfg.net, s.view.table, s.view.current.value, 0, []);
  }

  lemma OneEvent(lib: Library, cfg: Config, s: Sys, e: Event)
    requires Possible(lib, cfg, s, e)
    ensures PossibleRun(lib, cfg, s, [e]) && StateAfter(lib, cfg, s, [e]) == After(lib, cfg, s, e)
  {
    hide Possible, After;
    assert [e][..0] == [];
  }

  lemma TwoEvents(lib: Library, cfg: Config, s: Sys, a: Event, b: Event)
    requires Possible(lib, cfg, s, a) && Possible(lib, cfg, After(lib, cfg, s, a), b)
    ensures PossibleRun(lib, cfg, s, [a, b])
    ensures StateAfter(lib, cfg, s, [a, b]) == After(lib, cfg, After(lib, cfg, s, a), b)
  {
    hide Possible, After;
    assert [a, b][..1] == [a] && [a][..0] == [] && [a, b][..0] == [];
  }

  /** Whatever could be read before the operation can come back: power is lost before it has done anything. */
  lemma SurvivorComesBack(lib: Library, cfg: Config, s: Sys, request: Request, inputs: Inputs, list: Option<seq<Peer>>)
    returns (w: Sys)
    requires Inv(lib, cfg, s) && s.up && Fresh(lib, s.view, request, inputs)
    requires PlanOf(lib, cfg, s.view.current, request, inputs).Ok? && list in s.view.survivors
    ensures RecoversTo(lib, cfg, s, request, inputs, w) && w.view.current == list
  {
    hide PlanOf, Good, Tracks, Fresh, Routed, Moment;
    var cut, lost, again := CutOff(request, inputs, s.view), PowerLost(list, s.view.table), Restarted(false, []);
    SelfMoment(s.view, PlanOf(lib, cfg, s.view.current, request, inputs).value);
    var down := After(lib, cfg, s, cut);
    assert Possible(lib, cfg, s, cut) && Possible(lib, cfg, down, lost);
    var off := After(lib, cfg, down, lost);
    RestartSucceeds(lib, cfg, off);
    w := After(lib, cfg, off, again);
    hide Inv, Possible, After;
    TwoEvents(lib, cfg, down, lost, again);
    assert RecoversBy(lib, cfg, s, request, inputs, s.view, [lost, again], w);
  }

  /** So can the planned list: the operation is cut off when it has been saved. */
  lemma PlannedComesBack(lib: Library, cfg: Config, s: Sys, request: Request, inputs: Inputs) returns (w: Sys)
    requires Inv(lib, cfg, s) && s.up && Fresh(lib, s.view, request, inputs)
    requires PlanOf(lib, cfg, s.view.current, request, inputs).Ok?
    ensures RecoversTo(lib, cfg, s, request, inputs, w)
    ensures w.view.current == ListAfter(lib, cfg, s, request, inputs)
  {
    hide PlanOf, Good, Tracks, FreshKey, Routed, Moment, Reread;
    var plan := PlanOf(lib, cfg, s.view.current, request, inputs).value;
    var p := RequestPlan(lib, cfg, s.view.current.value, request, inputs);
    assert Good(lib, cfg.net, plan.list) by {
      hide KeyOf, Home, Networks, Subject;
    }
    hide PlanFor, Subject;
    RereadGood(lib, cfg.net, plan.list);
    var moment := AfterSave(s.view, plan.list, Saved);
    SavedMoment(s.view, plan);
    var cut, again := CutOff(request, inputs, moment), Restarted(false, []);
    var down := After(lib, cfg, s, cut);
    assert Possible(lib, cfg, s, cut);
    RestartSucceeds(lib, cfg, down);
    w := After(lib, cfg, down, again);
    hide Inv, Possible, After;
    OneEvent(lib, cfg, down, again);
    assert RecoversBy(lib, cfg, s, request, inputs, moment, [again], w);
  }

  /** The lists that a recovery may find are exactly those that could be read before, and the planned one. */
  lemma RecoverableLists(lib: Library, cfg: Config, s: Sys, request: Request, inputs: Inputs, list: Option<seq<Peer>>)
    requires Inv(lib, cfg, s) && s.up && Fresh(lib, s.view, request, inputs)
    requires PlanOf(lib, cfg, s.view.current, request, inputs).Ok?
    ensures (exists w :: RecoversTo(lib, cfg, s, request, inputs, w) && w.view.current == list)
      <==> list in s.view.survivors + {ListAfter(lib, cfg, s, request, inputs)}
  {
    hide Inv, RecoversTo, ListAfter, PlanOf, Fresh, Agrees;
    if list in s.view.survivors {
      var w := SurvivorComesBack(lib, cfg, s, request, inputs, list);
    } else if list == ListAfter(lib, cfg, s, request, inputs) {
      var w := PlannedComesBack(lib, cfg, s, request, inputs);
    }
    if w :| RecoversTo(lib, cfg, s, request, inputs, w) && w.view.current == list {
      CrashConverges(lib, cfg, s, request, inputs, w);
    }
  }

  /**
   * Every recovery finds the list before the operation or the planned one if and only if no other list could be read
   * when the operation began, which is so when the directory was synced since the last rename.
   */
  lemma PreOrPost(lib: Library, cfg: Config, s: Sys, request: Request, inputs: Inputs)
    requires Inv(lib, cfg, s) && s.up && Fresh(lib, s.view, request, inputs)
    requires PlanOf(lib, cfg, s.view.current, request, inputs).Ok?
    ensures (forall w :: RecoversTo(lib, cfg, s, request, inputs, w) ==>
               w.view.current == s.view.current || w.view.current == ListAfter(lib, cfg, s, request, inputs))
      <==> (forall list :: list in s.view.survivors ==>
              list == s.view.current || list == ListAfter(lib, cfg, s, request, inputs))
  {
    hide Inv, RecoversTo, ListAfter, PlanOf, Fresh, Agrees;
    forall list | list in s.view.survivors
      ensures exists w :: RecoversTo(lib, cfg, s, request, inputs, w) && w.view.current == list
    {
      var w := SurvivorComesBack(lib, cfg, s, request, inputs, list);
    }
    forall w | RecoversTo(lib, cfg, s, request, inputs, w)
      ensures w.view.current in s.view.survivors + {ListAfter(lib, cfg, s, request, inputs)}
    {
      CrashConverges(lib, cfg, s, request, inputs, w);
    }
  }
}
