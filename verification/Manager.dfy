/** The manager's methods on the machine, each proved to do what its operation is specified to do. */
module Manager {
  import opened Prelude
  import opened Text
  import opened Ipv4
  import opened Keys
  import opened Device
  import opened Peers
  import opened Filesystem
  import opened Store
  import opened Operations
  import opened Protocol
  import opened Reconciling
  import opened Configurations
  import opened Answers

  // ---- moments of an operation, phase by phase ----

  ghost predicate Moments(v: View, plan: Plan, images: seq<Image>)
  {
    forall m :: m in images ==> Sound(m.fs) && Moment(v, plan, ViewOf(m))
  }

  /** The plan is about one key only, and its calls replace what they set. */
  predicate OneKey(plan: Plan)
  {
    plan.backward.Some? ==> plan.backward.value.key == plan.forward.key
  }

  lemma OneKeyCreate(lib: Library, p: Peer, plan: Plan)
    requires ApplyConfig(lib, p) == Some(plan.forward) && plan.backward == RemoveConfig(p.publicKey)
    ensures OneKey(plan)
  {
    hide ParseKey, ParseNetworks;
  }

  lemma OneKeyToggle(lib: Library, p: Peer, enabled: bool, plan: Plan)
    requires ApplyConfig(lib, p.(enabled := enabled)) == Some(plan.forward) && plan.backward == ApplyConfig(lib, p)
    ensures OneKey(plan)
  {
    hide ParseKey, ParseNetworks;
  }

  lemma OneKeyDelete(lib: Library, p: Peer, plan: Plan)
    requires RemoveConfig(p.publicKey) == Some(plan.forward) && plan.backward == ApplyConfig(lib, p)
    ensures OneKey(plan)
  {
    hide ParseKey, ParseNetworks;
  }

  lemma CreatedLast(cfg: Config, peers: seq<Peer>, p: Peer, deviceKey: Option<Key>)
    requires deviceKey.Some?
    ensures CreatedBy(cfg, peers + [p], deviceKey) == CreatedPeer(p.name, p.publicKey, Render(cfg, p, deviceKey.value))
  {
  }

  lemma AddedTwice(a: seq<Image>, b: seq<Image>, c: seq<Image>)
    requires Extends(a, b) && Extends(b, c)
    ensures Extends(a, c) && Added(a, c) == Added(a, b) + Added(b, c)
  {
  }

  lemma PartWayTouches(t: Table, c: PeerConfig, u: Table, taken: set<Prefix>)
    requires PartWay(t, c, u) && Networks(c.allowed) <= taken
    ensures TouchesOnly(t, u, c.key, taken) && (Routed(t) ==> Routed(u))
  {
    hide TouchesOnly, Actions, Perform, Routed, Networks;
    var steps: nat :| u == Configure(t, c, Failed(steps));
    var call := Failed(steps);
    ConfigureTouchesOnly(t, c, StepsDone(call, |Actions(c)|));
    TouchesMore(t, u, c.key, Networks(c.allowed), taken);
    if Routed(t) {
      PerformKeepsRouted(t, c.key, Actions(c)[..StepsDone(call, |Actions(c)|)]);
    }
  }

  lemma ForwardMoment(m: Image, plan: Plan, w: Image)
    requires Sound(m.fs) && w.fs == m.fs && PartWay(m.table, plan.forward, w.table)
    ensures Moment(ViewOf(m), plan, ViewOf(w))
  {
    hide Current, Survivors, Sound, TouchesOnly, Routed, PartWay, Networks, Reread;
    CurrentSurvives(m.fs);
    PartWayTouches(m.table, plan.forward, w.table, Reach(plan));
  }

  lemma SavingMoment(v: View, plan: Plan, u: View, w: View)
    requires u.current == v.current && u.survivors == v.survivors
    requires Moment(v, plan, u) && ListWithin(u, plan.list, w) && w.table == u.table
    ensures Moment(v, plan, w)
  {
    hide TouchesOnly, Routed, Reread;
  }

  lemma BackwardMoment(v: View, plan: Plan, u: View, w: View)
    requires Moment(v, plan, u) && w.current == u.current && w.survivors == u.survivors
    requires plan.backward.Some? && OneKey(plan) && PartWay(u.table, plan.backward.value, w.table)
    ensures Moment(v, plan, w)
  {
    hide TouchesOnly, Routed, Reread, PartWay, Networks;
    PartWayTouches(u.table, plan.backward.value, w.table, Reach(plan));
    TouchesTransitive(v.table, u.table, w.table, plan.forward.key, Reach(plan));
  }

  lemma PushPhase(m: Image, plan: Plan, w: Image, images: seq<Image>)
    requires Sound(m.fs) && w.fs == m.fs && PartWay(m.table, plan.forward, w.table)
    requires forall x :: x in images ==> x.fs == m.fs && PartWay(m.table, plan.forward, x.table)
    ensures Moment(ViewOf(m), plan, ViewOf(w)) && Moments(ViewOf(m), plan, images)
  {
    hide Sound, Moment, PartWay;
    ForwardMoment(m, plan, w);
    forall x | x in images ensures Moment(ViewOf(m), plan, ViewOf(x)) {
      ForwardMoment(m, plan, x);
    }
  }

  lemma SavePhase(v: View, plan: Plan, m: Image, end: SaveEnd, w: Image, images: seq<Image>)
    requires Moment(v, plan, ViewOf(m)) && Current(m.fs) == v.current && Survivors(m.fs) == v.survivors
    requires ViewOf(w) == AfterSave(ViewOf(m), plan.list, end)
    requires forall x :: x in images ==>
      x.table == m.table && Sound(x.fs) && ListWithin(ViewOf(m), plan.list, ViewOf(x))
    ensures Moment(v, plan, ViewOf(w)) && Moments(v, plan, images)
  {
    assert ListWithin(ViewOf(m), plan.list, ViewOf(w));
    hide Sound, Moment, ListWithin, Current, Survivors, Reread;
    SavingMoment(v, plan, ViewOf(m), ViewOf(w));
    forall x | x in images ensures Moment(v, plan, ViewOf(x)) {
      SavingMoment(v, plan, ViewOf(m), ViewOf(x));
    }
  }

  lemma UndoPhase(v: View, plan: Plan, m: Image, images: seq<Image>)
    requires Sound(m.fs) && Moment(v, plan, ViewOf(m)) && OneKey(plan)
    requires forall x :: x in images ==>
      x.fs == m.fs && plan.backward.Some? && PartWay(m.table, plan.backward.value, x.table)
    ensures Moments(v, plan, images)
  {
    hide Sound, Moment, PartWay, OneKey, Current, Survivors;
    forall x | x in images ensures Moment(v, plan, ViewOf(x)) {
      BackwardMoment(v, plan, ViewOf(m), ViewOf(x));
    }
  }

  lemma MomentsAdded(v: View, plan: Plan, a: seq<Image>, b: seq<Image>, c: seq<Image>)
    requires Extends(a, b) && Extends(b, c)
    requires Moments(v, plan, Added(a, b)) && Moments(v, plan, Added(b, c))
    ensures Extends(a, c) && Moments(v, plan, Added(a, c))
  {
    AddedTwice(a, b, c);
    hide Moment, Sound, Added;
  }

  lemma PartWayOf(t: Table, c: PeerConfig, call: Call)
    ensures PartWay(t, c, Configure(t, c, call))
  {
    if call.Done? {
      assert Configure(t, c, call) == Configure(t, c, Failed(|Actions(c)|));
    }
  }

  /** Between two points of time a plan was carried out, and every moment in between is one of carrying it out. */
  ghost predicate Course(m: Image, earlier: seq<Image>, w: Image, later: seq<Image>, plan: Plan, inputs: Inputs,
      end: SaveEnd)
  {
    && Sound(w.fs)
    && ViewOf(w) == CarryOut(ViewOf(m), plan, inputs, end).0
    && Extends(earlier, later)
    && Moments(ViewOf(m), plan, Added(earlier, later))
  }

  /** An operation was performed: nothing happened if it could not be planned, else its plan was carried out. */
  ghost predicate Performed(m: Image, earlier: seq<Image>, w: Image, later: seq<Image>, planned: Result<Plan, Failure>,
    inputs: Inputs, end: SaveEnd, failure: Option<Failure>)
  {
    match planned
    case Err(e) => w == m && later == earlier && failure == Some(e)
    case Ok(plan) =>
      && Course(m, earlier, w, later, plan, inputs, end)
      && failure == match CarryOut(ViewOf(m), plan, inputs, end).1 case Err(e) => Some(e) case Ok(_) => None
  }

  function FailureOf<T>(r: Result<T, Failure>): Option<Failure>
  {
    match r case Err(e) => Some(e) case Ok(_) => None
  }

  /** A phase that sends one configuration. */
  ghost predicate Sent(m: Image, earlier: seq<Image>, w: Image, later: seq<Image>, c: PeerConfig, call: Call)
  {
    && w.fs == m.fs && w.table == Configure(m.table, c, call)
    && Extends(earlier, later)
    && (forall x :: x in Added(earlier, later) ==> x.fs == m.fs && PartWay(m.table, c, x.table))
  }

  lemma AfterPush(m: Image, t0: seq<Image>, w: Image, t1: seq<Image>, plan: Plan, inputs: Inputs)
    requires Sound(m.fs) && Sent(m, t0, w, t1, plan.forward, inputs.apply)
    ensures Moment(ViewOf(m), plan, ViewOf(w)) && Moments(ViewOf(m), plan, Added(t0, t1)) && Extends(t0, t1)
    ensures ViewOf(w) == ViewOf(m).(table := Configure(m.table, plan.forward, inputs.apply))
    ensures forall end :: inputs.apply.Failed? ==> Course(m, t0, w, t1, plan, inputs, end)
  {
    hide Sound, Moments, Moment, Current, Survivors, PartWay, Configure;
    PartWayOf(m.table, plan.forward, inputs.apply);
    PushPhase(m, plan, w, Added(t0, t1));
  }

  lemma AfterSuccess(m: Image, t0: seq<Image>, u: Image, t1: seq<Image>, plan: Plan, inputs: Inputs)
    requires inputs.apply.Done? && Sound(u.fs)
    requires ViewOf(u) == AfterSave(ViewOf(m).(table := Configure(m.table, plan.forward, Done)), plan.list, Saved)
    requires Extends(t0, t1) && Moments(ViewOf(m), plan, Added(t0, t1))
    ensures Course(m, t0, u, t1, plan, inputs, Saved)
  {
  }

  lemma AfterUndo(m: Image, t0: seq<Image>, u: Image, t1: seq<Image>, w: Image, t2: seq<Image>, plan: Plan,
      inputs: Inputs, end: SaveEnd)
    requires inputs.apply.Done? && !end.Saved? && OneKey(plan) && Sound(u.fs)
    requires ViewOf(u) == AfterSave(ViewOf(m).(table := Configure(m.table, plan.forward, Done)), plan.list, end)
    requires Moment(ViewOf(m), plan, ViewOf(u)) && Extends(t0, t1) && Moments(ViewOf(m), plan, Added(t0, t1))
    requires if plan.backward.Some? then Sent(u, t1, w, t2, plan.backward.value, inputs.undo) else w == u && t2 == t1
    ensures Course(m, t0, w, t2, plan, inputs, end)
  {
    hide Sound, Moments, Moment, Current, Survivors, PartWay, Configure, Reread, OneKey;
    if plan.backward.Some? {
      assert PartWay(u.table, plan.backward.value, w.table) by {
        PartWayOf(u.table, plan.backward.value, inputs.undo);
      }
      UndoPhase(ViewOf(m), plan, u, Added(t1, t2));
      MomentsAdded(ViewOf(m), plan, t0, t1, t2);
    }
  }

  // ---- the manager ----

  class Manager {
    const machine: Machine
    const store: Store
    const lib: Library
    const cfg: Config

    constructor (machine: Machine, lib: Library, cfg: Config)
      ensures this.machine == machine && this.lib == lib && this.cfg == cfg && store.machine == machine
    {
      this.machine := machine;
      this.lib := lib;
      this.cfg := cfg;
      this.store := new Store(machine);
    }

    ghost predicate Valid()
      reads this, machine
    {
      store.machine == machine && Sound(machine.fs)
    }

    ghost function Sees(): View
      reads machine
    {
      ViewOf(machine.Now())
    }

    method ReadState(fails: bool) returns (r: Result<seq<Peer>, Failure>)
      requires Valid()
      ensures r == LoadState(lib, cfg.net, Current(machine.fs), fails)
      ensures r.Ok? <==> Readable(lib, cfg.net, Current(machine.fs), fails)
      ensures r.Ok? ==> r.value == Current(machine.fs).value
    {
      LoadIsExact(lib, cfg.net, Current(machine.fs), fails);
      hide ValidPeer;
      var loaded := store.Load(fails);
      if loaded.None? {
        return Err(StateUnreadable);
      }
      var valid := ValidateState(lib, cfg.net, loaded.value);
      if valid.Err? {
        return Err(StateInvalid);
      }
      return Ok(loaded.value);
    }

    method ApplyPeer(p: Peer, call: Call) returns (r: Result<(), Failure>)
      requires Valid()
      modifies machine
      ensures Valid() && machine.fs == old(machine.fs)
      ensures r == match ApplyConfig(lib, p)
        case None => Err(BadRecord)
        case Some(_) => if call.Failed? then Err(DeviceRefused) else Ok(())
      ensures match ApplyConfig(lib, p)
        case None => machine.Now() == old(machine.Now()) && machine.trace == old(machine.trace)
        case Some(c) => Sent(old(machine.Now()), old(machine.trace), machine.Now(), machine.trace, c, call)
    {
      hide Configure, ParseKey, ParseNetworks, Sound, PartWay;
      var publicKey := ParseKey(p.publicKey);
      if publicKey.None? {
        return Err(BadRecord);
      }
      var presharedKey := ParseKey(p.presharedKey);
      if presharedKey.None? {
        return Err(BadRecord);
      }
      var allowed := Some([]);
      if p.enabled {
        allowed := ReadNetworks(lib.v6, p.allowedIPs);
        if allowed.None? {
          return Err(BadRecord);
        }
      }
      var ok := machine.ConfigureDevice(
        PeerConfig(publicKey.value, false, Some(presharedKey.value), true, allowed.value), call);
      if !ok {
        return Err(DeviceRefused);
      }
      return Ok(());
    }

    method RemovePeer(publicKey: string, call: Call) returns (r: Result<(), Failure>)
      requires Valid()
      modifies machine
      ensures Valid() && machine.fs == old(machine.fs)
      ensures r == match RemoveConfig(publicKey)
        case None => Err(BadRecord)
        case Some(_) => if call.Failed? then Err(DeviceRefused) else Ok(())
      ensures match RemoveConfig(publicKey)
        case None => machine.Now() == old(machine.Now()) && machine.trace == old(machine.trace)
        case Some(c) => Sent(old(machine.Now()), old(machine.trace), machine.Now(), machine.trace, c, call)
    {
      hide Configure, ParseKey, Sound, PartWay;
      var key := ParseKey(publicKey);
      if key.None? {
        return Err(BadRecord);
      }
      var ok := machine.ConfigureDevice(PeerConfig(key.value, true, None, false, []), call);
      if !ok {
        return Err(DeviceRefused);
      }
      return Ok(());
    }

    /** The list is saved on the way of carrying out `plan` from `v`. */
    method SaveList(peers: seq<Peer>, ghost plan: Plan, ghost v: View, save: SaveInput) returns (end: SaveEnd)
      requires Valid() && plan.list == peers
      requires Moment(v, plan, Sees()) && Sees().current == v.current && Sees().survivors == v.survivors
      modifies machine
      ensures Valid() && MayEnd(old(machine.fs), save, end)
      ensures machine.table == old(machine.table) && Sees() == AfterSave(old(Sees()), peers, end)
      ensures Moment(v, plan, Sees())
      ensures Extends(old(machine.trace), machine.trace)
      ensures Moments(v, plan, Added(old(machine.trace), machine.trace))
    {
      hide Sound, Moments, Moment, Current, Survivors, ListWithin, Reread, AfterSave;
      ghost var before := machine.Now();
      ghost var earlier := machine.trace;
      end := store.Save(peers, save);
      SavePhase(v, plan, before, end, machine.Now(), Added(earlier, machine.trace));
    }

    method CreatePeer(name: string, inputs: Inputs, save: SaveInput) returns (r: Result<CreatedPeer, Failure>,
        ghost end: SaveEnd)
      requires Valid()
      modifies machine
      ensures Valid() && (FailureOf(r) in {None, Some(NotSaved)} ==> MayEnd(old(machine.fs), save, end))
      ensures var planned := PlanCreate(lib, cfg, old(Current(machine.fs)), name, inputs);
        && Performed(old(machine.Now()), old(machine.trace), machine.Now(), machine.trace,
             planned, inputs, end, FailureOf(r))
        && (r.Ok? ==> planned.Ok? && r.value == CreatedBy(cfg, planned.value.list, inputs.deviceKey))
      ensures r.Ok? <==>
        && CreatePlannable(lib, cfg, old(Sees()).current, name, inputs)
        && inputs.apply.Done? && SaveGoesWell(old(machine.fs), save)
      ensures !CreatePlannable(lib, cfg, old(Sees()).current, name, inputs) ==>
        machine.Now() == old(machine.Now()) && machine.trace == old(machine.trace)
      ensures r.Ok? && Good(lib, cfg.net, old(Sees()).current.value) ==>
        inputs.draw.Some? && inputs.deviceKey.Some? &&
        (FreshKey(lib, old(Sees()).current.value, inputs.draw.value) ==>
           exists host, p :: CreatedAt(lib, cfg, old(Sees()), name, inputs.draw.value, inputs.deviceKey.value, host, p,
             r.value, Sees()))
    {
      hide ValidState, TrimSpace, ApplyConfig, RemoveConfig, NewPeer, Sound, Moments, Moment, Current, Survivors,
        AfterSave, Configure, Render, Sent, Course, OneKey, Readable, Free, CreatePlannable, CreatedAt, Good, FreshKey;
      CreateIsExact(lib, cfg, Current(machine.fs), name, inputs);
      end := NotReplaced;
      var trimmed := TrimSpace(name);
      if trimmed == "" || |trimmed| > MAX_NAME {
        return Err(BadName), end;
      }
      if inputs.deviceKey.None? {
        return Err(DeviceUnreadable), end;
      }
      var state := ReadState(inputs.loadFails);
      if state.Err? {
        return Err(state.error), end;
      }
      var address := FindAddress(lib, cfg.net, state.value);
      if address.None? {
        return Err(PoolExhausted), end;
      }
      if inputs.draw.None? {
        return Err(NoRandomness), end;
      }
      var p := NewPeer(lib, trimmed, address.value, inputs.draw.value);
      ghost var before, t0 := machine.Now(), machine.trace;
      var applied := ApplyPeer(p, inputs.apply);
      ghost var pushed, t1 := machine.Now(), machine.trace;
      ghost var planned := PlanCreate(lib, cfg, old(Current(machine.fs)), name, inputs);
      if planned.Ok? {
        AfterPush(before, t0, pushed, t1, planned.value, inputs);
        OneKeyCreate(lib, p, planned.value);
      }
      if applied.Err? {
        return Err(applied.error), end;
      }
      var peers := state.value + [p];
      var saving := SaveList(peers, planned.value, ViewOf(before), save);
      end := saving;
      ghost var saved, t2 := machine.Now(), machine.trace;
      MomentsAdded(ViewOf(before), planned.value, t0, t1, t2);
      if saving != Saved {
        var _ := RemovePeer(p.publicKey, inputs.undo);
        AfterUndo(before, t0, saved, t2, machine.Now(), machine.trace, planned.value, inputs, end);
        return Err(NotSaved), end;
      }
      AfterSuccess(before, t0, saved, t2, planned.value, inputs);
      CreatedLast(cfg, state.value, p, inputs.deviceKey);
      if Good(lib, cfg.net, state.value) && FreshKey(lib, state.value, inputs.draw.value) {
        ghost var _, _ := CreateSucceeds(lib, cfg, ViewOf(before), name, inputs);
      }
      return Ok(CreatedPeer(p.name, p.publicKey, Render(cfg, p, inputs.deviceKey.value))), end;
    }

    method SetEnabled(publicKey: string, enabled: bool, inputs: Inputs, save: SaveInput) returns (r: Result<(),
        Failure>, ghost end: SaveEnd)
      requires Valid()
      modifies machine
      ensures Valid() && (FailureOf(r) in {None, Some(NotSaved)} ==> MayEnd(old(machine.fs), save, end))
      ensures Performed(old(machine.Now()), old(machine.trace), machine.Now(), machine.trace,
        PlanSetEnabled(lib, cfg, old(Current(machine.fs)), publicKey, enabled, inputs), inputs, end, FailureOf(r))
      ensures r.Ok? <==>
        && SwitchPlannable(lib, cfg, old(Sees()).current, publicKey, enabled, inputs)
        && inputs.apply.Done? && SaveGoesWell(old(machine.fs), save)
      ensures !SwitchPlannable(lib, cfg, old(Sees()).current, publicKey, enabled, inputs) ==>
        machine.Now() == old(machine.Now()) && machine.trace == old(machine.trace)
      ensures r.Ok? && Good(lib, cfg.net, old(Sees()).current.value) ==>
        exists i: nat :: i < |old(Sees()).current.value| && SwitchedAt(old(Sees()), i, publicKey, enabled, Sees())
    {
      hide ValidState, ApplyConfig, Sound, Moments, Moment, Current, Survivors, AfterSave, Configure, Sent, Course,
        OneKey, Readable, SwitchPlannable, SwitchedAt, Good;
      SwitchIsExact(lib, cfg, Current(machine.fs), publicKey, enabled, inputs);
      end := NotReplaced;
      var state := ReadState(inputs.loadFails);
      if state.Err? {
        return Err(state.error), end;
      }
      var index := FindIndex(state.value, publicKey);
      if index.None? {
        return Err(NotManaged), end;
      }
      var previous := state.value[index.value];
      var peers := state.value[index.value := previous.(enabled := enabled)];
      ghost var before, t0 := machine.Now(), machine.trace;
      var applied := ApplyPeer(peers[index.value], inputs.apply);
      ghost var pushed, t1 := machine.Now(), machine.trace;
      ghost var planned := PlanSetEnabled(lib, cfg, old(Current(machine.fs)), publicKey, enabled, inputs);
      if planned.Ok? {
        AfterPush(before, t0, pushed, t1, planned.value, inputs);
        OneKeyToggle(lib, previous, enabled, planned.value);
      }
      if applied.Err? {
        return Err(applied.error), end;
      }
      var saving := SaveList(peers, planned.value, ViewOf(before), save);
      end := saving;
      ghost var saved, t2 := machine.Now(), machine.trace;
      MomentsAdded(ViewOf(before), planned.value, t0, t1, t2);
      if saving != Saved {
        var _ := ApplyPeer(previous, inputs.undo);
        AfterUndo(before, t0, saved, t2, machine.Now(), machine.trace, planned.value, inputs, end);
        return Err(NotSaved), end;
      }
      AfterSuccess(before, t0, saved, t2, planned.value, inputs);
      if Good(lib, cfg.net, state.value) {
        ghost var _ := SwitchSucceeds(lib, cfg, ViewOf(before), publicKey, enabled, inputs);
      }
      return Ok(()), end;
    }

    method DeletePeer(publicKey: string, inputs: Inputs, save: SaveInput) returns (r: Result<(), Failure>,
        ghost end: SaveEnd)
      requires Valid()
      modifies machine
      ensures Valid() && (FailureOf(r) in {None, Some(NotSaved)} ==> MayEnd(old(machine.fs), save, end))
      ensures Performed(old(machine.Now()), old(machine.trace), machine.Now(), machine.trace,
        PlanDelete(lib, cfg, old(Current(machine.fs)), publicKey, inputs), inputs, end, FailureOf(r))
      ensures r.Ok? <==>
        && DeletePlannable(lib, cfg, old(Sees()).current, publicKey, inputs)
        && inputs.apply.Done? && SaveGoesWell(old(machine.fs), save)
      ensures !DeletePlannable(lib, cfg, old(Sees()).current, publicKey, inputs) ==>
        machine.Now() == old(machine.Now()) && machine.trace == old(machine.trace)
      ensures r.Ok? && Good(lib, cfg.net, old(Sees()).current.value) ==>
        exists i: nat :: i < |old(Sees()).current.value| && DeletedAt(old(Sees()), i, publicKey, Sees())
    {
      hide ValidState, ApplyConfig, RemoveConfig, Sound, Moments, Moment, Current, Survivors, AfterSave, Configure,
        Sent, Course, OneKey, Readable, DeletePlannable, DeletedAt, Good;
      DeleteIsExact(lib, cfg, Current(machine.fs), publicKey, inputs);
      end := NotReplaced;
      var state := ReadState(inputs.loadFails);
      if state.Err? {
        return Err(state.error), end;
      }
      var index := FindIndex(state.value, publicKey);
      if index.None? {
        return Err(NotManaged), end;
      }
      var deleted := state.value[index.value];
      ghost var before, t0 := machine.Now(), machine.trace;
      var removed := RemovePeer(publicKey, inputs.apply);
      ghost var pushed, t1 := machine.Now(), machine.trace;
      ghost var planned := PlanDelete(lib, cfg, old(Current(machine.fs)), publicKey, inputs);
      if planned.Ok? {
        AfterPush(before, t0, pushed, t1, planned.value, inputs);
        OneKeyDelete(lib, deleted, planned.value);
      }
      if removed.Err? {
        return Err(removed.error), end;
      }
      var peers := Without(state.value, index.value);
      var saving := SaveList(peers, planned.value, ViewOf(before), save);
      end := saving;
      ghost var saved, t2 := machine.Now(), machine.trace;
      MomentsAdded(ViewOf(before), planned.value, t0, t1, t2);
      if saving != Saved {
        var _ := ApplyPeer(deleted, inputs.undo);
        AfterUndo(before, t0, saved, t2, machine.Now(), machine.trace, planned.value, inputs, end);
        return Err(NotSaved), end;
      }
      AfterSuccess(before, t0, saved, t2, planned.value, inputs);
      if Good(lib, cfg.net, state.value) {
        ghost var _ := DeleteSucceeds(lib, cfg, ViewOf(before), publicKey, inputs);
      }
      return Ok(()), end;
    }

    method Configuration(publicKey: string, inputs: Inputs) returns (r: Result<string, Failure>)
      requires Valid()
      ensures r == ConfigurationOf(lib, cfg, Current(machine.fs), publicKey, inputs)
      ensures r.Ok? <==>
        && Readable(lib, cfg.net, Sees().current, inputs.loadFails)
        && HasKey(Sees().current.value, publicKey) && inputs.deviceKey.Some?
      ensures r.Ok? && Good(lib, cfg.net, Sees().current.value) && PlainConfig(cfg) ==>
        exists p :: p in Sees().current.value && p.publicKey == publicKey
          && Configures(cfg, p, inputs.deviceKey.value, r.value) && HasSections(cfg, p, inputs.deviceKey.value, r.value)
    {
      hide ValidState, Current, Sound, Render, Readable, Good, PlainConfig, Configures, HasSections;
      var state := ReadState(inputs.loadFails);
      if state.Err? {
        return Err(state.error);
      }
      var index := FindIndex(state.value, publicKey);
      if index.None? {
        return Err(NotManaged);
      }
      if inputs.deviceKey.None? {
        return Err(DeviceUnreadable);
      }
      r := Ok(Render(cfg, state.value[index.value], inputs.deviceKey.value));
      if Good(lib, cfg.net, state.value) && PlainConfig(cfg) {
        MemberValid(lib, cfg.net, state.value, index.value);
        hide CanonicalPeer, ValidPeer;
        Configured(cfg, state.value[index.value], inputs.deviceKey.value);
        assert state.value[index.value] in state.value;
      }
    }

    method ListPeers(loadFails: bool) returns (r: Result<seq<Peer>, Failure>)
      requires Valid()
      ensures r == LoadState(lib, cfg.net, Current(machine.fs), loadFails)
      ensures r.Ok? <==> Readable(lib, cfg.net, Sees().current, loadFails)
      ensures r.Ok? ==> r.value == Sees().current.value
    {
      hide Readable;
      r := ReadState(loadFails);
    }

    /** Reconcile pushes the list, and at every moment in between it has pushed an initial part of it. */
    method Reconcile(loadFails: bool, calls: seq<Call>) returns (r: Result<(), Failure>)
      requires Valid()
      modifies machine
      ensures Valid() && machine.fs == old(machine.fs) && Extends(old(machine.trace), machine.trace)
      ensures match LoadState(lib, cfg.net, Current(machine.fs), loadFails)
        case Err(e) => r == Err(e) && machine.table == old(machine.table) && machine.trace == old(machine.trace)
        case Ok(peers) =>
          && (machine.table, r.Ok?) == Push(lib, old(machine.table), peers, 0, calls)
          && forall m :: m in Added(old(machine.trace), machine.trace) ==>
               m.fs == old(machine.fs) && PushMoment(lib, old(machine.table), peers, calls, m.table)
      ensures !Readable(lib, cfg.net, old(Sees()).current, loadFails) ==>
        r.Err? && machine.table == old(machine.table) && machine.trace == old(machine.trace)
    {
      hide Readable, ValidState, Current, Sound, Configure, ApplyConfig, PartWay, Push, PushMoment, PushedSoFar, CallAt;
      var state := ReadState(loadFails);
      if state.Err? {
        return Err(state.error);
      }
      var peers := state.value;
      NothingPushed(lib, machine.table, peers, calls);
      for i := 0 to |peers|
        invariant Valid() && machine.fs == old(machine.fs) && Extends(old(machine.trace), machine.trace)
        invariant PushedSoFar(lib, old(machine.table), peers, calls, machine.table, i)
        invariant forall m :: m in Added(old(machine.trace), machine.trace) ==>
          m.fs == old(machine.fs) && PushMoment(lib, old(machine.table), peers, calls, m.table)
      {
        ghost var table, earlier := machine.table, machine.trace;
        PushSoFarGoesOn(lib, old(machine.table), peers, calls, table, i);
        var applied := ApplyPeer(peers[i], CallAt(calls, i));
        forall m | m in Added(earlier, machine.trace)
          ensures PushMoment(lib, old(machine.table), peers, calls, m.table)
        {
          PartWayIsMoment(lib, old(machine.table), peers, calls, table, i, m.table);
        }
        AddedTwice(old(machine.trace), earlier, machine.trace);
        PushHere(lib, table, peers, i, calls);
        if applied.Err? {
          return Err(applied.error);
        }
        PushedNext(lib, old(machine.table), peers, calls, table, i);
      }
      PushSoFarGoesOn(lib, old(machine.table), peers, calls, machine.table, |peers|);
      PushNothing(lib, machine.table, peers, calls);
      return Ok(());
    }
  }
}
