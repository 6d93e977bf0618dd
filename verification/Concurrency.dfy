/**
 * The workers side by side: any number of collecting ones, which take the collector's lock and then the manager's,
 * and any number that carry out operations under the manager's lock alone.
 */
module Concurrency {
  import opened Prelude
  import opened Peers
  import opened Device
  import opened Store
  import opened Operations
  import opened Runs

  type Id = nat

  datatype Op = Op(request: Request, inputs: Inputs, save: SaveEnd)

  /** What a collection found: the device, and then the list. */
  datatype Report = Report(device: Table, list: Result<seq<Peer>, Failure>)

  datatype Phase =
    | Idle
    | WantCollector
    | ReadingDevice
    | WantManager(device: Table)
    | ReadingList(device: Table)
    | Joining(report: Report)
    | WantOp(op: Op)
    | InOp(op: Op, start: View)

  /** `finished` lists the operations in the order in which they released the lock. */
  datatype World = World(
    view: View,
    collector: Option<Id>,
    manager: Option<Id>,
    phases: map<Id, Phase>,
    finished: seq<Op>,
    reports: seq<Report>)

  predicate HoldsCollector(p: Phase)
  {
    p.ReadingDevice? || p.WantManager? || p.ReadingList? || p.Joining?
  }

  predicate HoldsManager(p: Phase)
  {
    p.ReadingList? || p.InOp?
  }

  function PlannedOf(lib: Library, cfg: Config, v: View, op: Op): Result<Plan, Failure>
  {
    PlanOf(lib, cfg, v.current, op.request, op.inputs)
  }

  /** One operation run by itself. */
  function Alone(lib: Library, cfg: Config, v: View, op: Op): View
  {
    Execute(v, PlannedOf(lib, cfg, v, op), op.inputs, op.save).0
  }

  /** Operations run one after the other. */
  function Serial(lib: Library, cfg: Config, v: View, ops: seq<Op>): View
  {
    if ops == [] then v else Alone(lib, cfg, Serial(lib, cfg, v, ops[..|ops| - 1]), ops[|ops| - 1])
  }

  function At(w: World, id: Id, p: Phase): World
  {
    w.(phases := w.phases[id := p])
  }

  /** What the list reads as: it may not be readable. */
  ghost predicate ReadsAs(lib: Library, cfg: Config, v: View, list: Result<seq<Peer>, Failure>)
  {
    exists fails :: list == LoadState(lib, cfg.net, v.current, fails)
  }

  /** What may be seen while the operation is under way. */
  ghost predicate During(lib: Library, cfg: Config, start: View, op: Op, v: View)
  {
    PlannedOf(lib, cfg, start, op).Ok? && Moment(start, PlannedOf(lib, cfg, start, op).value, v)
  }

  /** One step of one worker; between start and end an operation may show any of its moments. */
  ghost predicate Step(lib: Library, cfg: Config, w: World, id: Id, v: World)
  {
    id in w.phases &&
    match w.phases[id]
    case Idle => v == At(w, id, WantCollector) || exists op :: v == At(w, id, WantOp(op))
    case WantCollector => w.collector.None? && v == At(w, id, ReadingDevice).(collector := Some(id))
    case ReadingDevice => v == At(w, id, WantManager(w.view.table)) || v == At(w, id, Idle).(collector := None)
    case WantManager(device) => w.manager.None? && v == At(w, id, ReadingList(device)).(manager := Some(id))
    case ReadingList(device) =>
      exists list :: ReadsAs(lib, cfg, w.view, list) && v == At(w, id, Joining(Report(device, list))).(manager := None)
    case Joining(report) => v == At(w, id, Idle).(collector := None, reports := w.reports + [report])
    case WantOp(op) => w.manager.None? && v == At(w, id, InOp(op, w.view)).(manager := Some(id))
    case InOp(op, start) =>
      || (exists moment :: During(lib, cfg, start, op, moment) && v == w.(view := moment))
      || v == At(w, id, Idle).(manager := None, view := Alone(lib, cfg, start, op), finished := w.finished + [op])
  }

  // ---- the invariant ----

  ghost predicate Locked(w: World)
  {
    && (forall id :: id in w.phases ==> (HoldsCollector(w.phases[id]) <==> w.collector == Some(id)))
    && (forall id :: id in w.phases ==> (HoldsManager(w.phases[id]) <==> w.manager == Some(id)))
    && (w.collector.Some? ==> w.collector.value in w.phases)
    && (w.manager.Some? ==> w.manager.value in w.phases)
  }

  predicate Operating(w: World)
  {
    w.manager.Some? && w.manager.value in w.phases && w.phases[w.manager.value].InOp?
  }

  /** The state is that of the finished operations run in a row, or of one more under way from there. */
  ghost predicate Serialised(lib: Library, cfg: Config, v: View, w: World)
  {
    var now := Serial(lib, cfg, v, w.finished);
    if Operating(w) then
      var p := w.phases[w.manager.value];
      p.start == now && (w.view == now || During(lib, cfg, now, p.op, w.view))
    else w.view == now
  }

  ghost predicate Inv(lib: Library, cfg: Config, v: View, w: World)
  {
    Locked(w) && Serialised(lib, cfg, v, w)
  }

  lemma SerialNext(lib: Library, cfg: Config, v: View, finished: seq<Op>, op: Op)
    ensures Serial(lib, cfg, v, finished + [op]) == Alone(lib, cfg, Serial(lib, cfg, v, finished), op)
  {
    hide Alone;
    var all := finished + [op];
    assert all[..|all| - 1] == finished;
  }

  lemma StepLeavesOthers(lib: Library, cfg: Config, w: World, id: Id, v: World, other: Id)
    requires Step(lib, cfg, w, id, v) && other != id
    ensures other in w.phases <==> other in v.phases
    ensures other in w.phases ==> v.phases[other] == w.phases[other]
  {
    hide ReadsAs, During, Alone, PlannedOf;
  }

  lemma StepKeepsWorker(lib: Library, cfg: Config, w: World, id: Id, v: World)
    requires Step(lib, cfg, w, id, v)
    ensures id in w.phases && id in v.phases
  {
    hide ReadsAs, During, Alone, PlannedOf;
  }

  /** A step takes or gives back just the locks by which its worker's phase differs. */
  lemma StepLocks(lib: Library, cfg: Config, w: World, id: Id, v: World)
    requires Locked(w) && Step(lib, cfg, w, id, v) && id in v.phases
    ensures v.collector ==
      if HoldsCollector(v.phases[id]) then Some(id) else if HoldsCollector(w.phases[id]) then None else w.collector
    ensures v.manager ==
      if HoldsManager(v.phases[id]) then Some(id) else if HoldsManager(w.phases[id]) then None else w.manager
    ensures HoldsCollector(v.phases[id]) && !HoldsCollector(w.phases[id]) ==> w.collector.None?
    ensures HoldsManager(v.phases[id]) && !HoldsManager(w.phases[id]) ==> w.manager.None?
  {
    hide PlannedOf, Alone, ReadsAs, During;
  }

  lemma StepKeepsLocked(lib: Library, cfg: Config, w: World, id: Id, v: World)
    requires Locked(w) && Step(lib, cfg, w, id, v)
    ensures Locked(v)
  {
    hide Step, HoldsCollector, HoldsManager;
    StepKeepsWorker(lib, cfg, w, id, v);
    StepLocks(lib, cfg, w, id, v);
    forall other | other != id
      ensures other in w.phases <==> other in v.phases
      ensures other in w.phases ==> v.phases[other] == w.phases[other]
    {
      StepLeavesOthers(lib, cfg, w, id, v, other);
    }
  }

  /** No list is read while an operation is under way: the reader's view is that of a serial run. */
  lemma ReadsBetweenOperations(lib: Library, cfg: Config, start: View, w: World, id: Id)
    requires Inv(lib, cfg, start, w) && id in w.phases && w.phases[id].ReadingList?
    ensures !Operating(w) && w.view == Serial(lib, cfg, start, w.finished)
  {
    hide Serial, During;
  }

  lemma StepKeepsSerialised(lib: Library, cfg: Config, start: View, w: World, id: Id, v: World)
    requires Locked(w) && Serialised(lib, cfg, start, w) && Step(lib, cfg, w, id, v)
    ensures Serialised(lib, cfg, start, v)
  {
    hide PlannedOf, Alone, ReadsAs, During, Serial;
    if w.phases[id].InOp? && v.finished != w.finished {
      SerialNext(lib, cfg, start, w.finished, w.phases[id].op);
    }
  }

  lemma StepKeepsInv(lib: Library, cfg: Config, start: View, w: World, id: Id, v: World)
    requires Inv(lib, cfg, start, w) && Step(lib, cfg, w, id, v)
    ensures Inv(lib, cfg, start, v) && w.finished <= v.finished
  {
    StepKeepsLocked(lib, cfg, w, id, v);
    StepKeepsSerialised(lib, cfg, start, w, id, v);
    hide Locked, Serialised, PlannedOf, Alone, ReadsAs, During;
  }

  /** The world at the start: everybody idle. */
  predicate AllIdle(v: View, w: World)
  {
    && w.view == v && w.collector.None? && w.manager.None? && w.finished == [] && w.reports == []
    && forall id :: id in w.phases ==> w.phases[id].Idle?
  }

  ghost predicate SomeStep(lib: Library, cfg: Config, w: World, v: World)
  {
    exists id :: Step(lib, cfg, w, id, v)
  }

  ghost predicate Interleaving(lib: Library, cfg: Config, worlds: seq<World>)
  {
    worlds != [] && forall i :: 0 < i < |worlds| ==> SomeStep(lib, cfg, worlds[i - 1], worlds[i])
  }

  /**
   * In every state of every interleaving each lock has one holder, and list and device are those of the finished
   * operations run one after the other, or show a moment of the one operation that is under way from there.
   */
  lemma {:induction false} InterleavingsKeepInv(lib: Library, cfg: Config, start: View, worlds: seq<World>, n: nat)
    requires Interleaving(lib, cfg, worlds) && AllIdle(start, worlds[0]) && n < |worlds|
    ensures Inv(lib, cfg, start, worlds[n])
    decreases n
  {
    if n == 0 {
      assert Serial(lib, cfg, start, []) == start;
    } else {
      hide Inv, Step, AllIdle;
      InterleavingsKeepInv(lib, cfg, start, worlds, n - 1);
      assert SomeStep(lib, cfg, worlds[n - 1], worlds[n]);
      var id :| Step(lib, cfg, worlds[n - 1], id, worlds[n]);
      StepKeepsInv(lib, cfg, start, worlds[n - 1], id, worlds[n]);
    }
  }

  lemma {:induction false} FinishedGrows(lib: Library, cfg: Config, start: View, worlds: seq<World>, m: nat, n: nat)
    requires Interleaving(lib, cfg, worlds) && AllIdle(start, worlds[0]) && m <= n < |worlds|
    ensures worlds[m].finished <= worlds[n].finished
    decreases n - m
  {
    hide Inv, Step, AllIdle;
    if m < n {
      FinishedGrows(lib, cfg, start, worlds, m, n - 1);
      InterleavingsKeepInv(lib, cfg, start, worlds, n - 1);
      assert SomeStep(lib, cfg, worlds[n - 1], worlds[n]);
      var id :| Step(lib, cfg, worlds[n - 1], id, worlds[n]);
      StepKeepsInv(lib, cfg, start, worlds[n - 1], id, worlds[n]);
    }
  }

  // ---- what a report is about ----

  /** The worker is idle at `a` for the last time before it is as at `n`: its work then begins. */
  predicate Begun(worlds: seq<World>, id: Id, a: nat, n: nat)
  {
    && a < n < |worlds|
    && id in worlds[a].phases && worlds[a].phases[id].Idle?
    && forall m :: a < m <= n ==> id in worlds[m].phases && !worlds[m].phases[id].Idle?
  }

  /** At `b` the worker reads the device. */
  predicate DeviceRead(worlds: seq<World>, id: Id, b: nat, device: Table)
  {
    && b < |worlds| && id in worlds[b].phases && worlds[b].phases[id].ReadingDevice?
    && worlds[b].view.table == device
  }

  /** At `c` the worker reads the list. */
  ghost predicate ListRead(lib: Library, cfg: Config, worlds: seq<World>, id: Id, c: nat,
    list: Result<seq<Peer>, Failure>)
  {
    && c < |worlds| && id in worlds[c].phases && worlds[c].phases[id].ReadingList?
    && ReadsAs(lib, cfg, worlds[c].view, list)
  }

  /** The reads by which the worker came to be where it is, all of them since its work began at `a`. */
  ghost predicate Traced(lib: Library, cfg: Config, worlds: seq<World>, id: Id, n: nat, a: nat, b: nat, c: nat)
  {
    n < |worlds| && id in worlds[n].phases &&
    match worlds[n].phases[id]
    case WantCollector => Begun(worlds, id, a, n)
    case ReadingDevice => Begun(worlds, id, a, n)
    case WantManager(device) => Begun(worlds, id, a, n) && a < b < n && DeviceRead(worlds, id, b, device)
    case ReadingList(device) => Begun(worlds, id, a, n) && a < b < n && DeviceRead(worlds, id, b, device)
    case Joining(report) =>
      && Begun(worlds, id, a, n) && a < b < c < n
      && DeviceRead(worlds, id, b, report.device) && ListRead(lib, cfg, worlds, id, c, report.list)
    case _ => true
  }

  lemma BegunNow(worlds: seq<World>, id: Id, n: nat)
    requires 0 < n < |worlds| && id in worlds[n - 1].phases && worlds[n - 1].phases[id].Idle?
    requires id in worlds[n].phases && !worlds[n].phases[id].Idle?
    ensures Begun(worlds, id, n - 1, n)
  {
  }

  lemma BegunOn(worlds: seq<World>, id: Id, a: nat, n: nat)
    requires 0 < n < |worlds| && Begun(worlds, id, a, n - 1) && id in worlds[n].phases && !worlds[n].phases[id].Idle?
    ensures Begun(worlds, id, a, n)
  {
  }

  /** A worker that another's step leaves where it is has the same reads behind it. */
  lemma TracedOn(lib: Library, cfg: Config, worlds: seq<World>, id: Id, n: nat, a: nat, b: nat, c: nat)
    requires 0 < n < |worlds| && Traced(lib, cfg, worlds, id, n - 1, a, b, c)
    requires id in worlds[n].phases && worlds[n].phases[id] == worlds[n - 1].phases[id]
    ensures Traced(lib, cfg, worlds, id, n, a, b, c)
  {
    hide ReadsAs;
    var p := worlds[n].phases[id];
    if p.WantCollector? || HoldsCollector(p) {
      BegunOn(worlds, id, a, n);
    }
    hide Begun;
  }

  lemma TracedStep(lib: Library, cfg: Config, worlds: seq<World>, id: Id, n: nat, a: nat, b: nat, c: nat)
    returns (a': nat, b': nat, c': nat)
    requires 0 < n < |worlds| && Traced(lib, cfg, worlds, id, n - 1, a, b, c)
    requires Step(lib, cfg, worlds[n - 1], id, worlds[n])
    ensures Traced(lib, cfg, worlds, id, n, a', b', c')
  {
    hide ReadsAs, During, Alone, PlannedOf;
    a', b', c' := a, b, c;
    var p, q := worlds[n - 1].phases[id], worlds[n].phases[id];
    if p.Idle? && !q.Idle? {
      a' := n - 1;
      BegunNow(worlds, id, n);
    } else if !q.Idle? && (p.WantCollector? || HoldsCollector(p)) {
      BegunOn(worlds, id, a, n);
      if p.ReadingDevice? {
        b' := n - 1;
      } else if p.ReadingList? {
        c' := n - 1;
      }
    }
    hide Begun;
  }

  lemma IdleTraced(lib: Library, cfg: Config, start: View, worlds: seq<World>, id: Id)
    requires worlds != [] && AllIdle(start, worlds[0]) && id in worlds[0].phases
    ensures Traced(lib, cfg, worlds, id, 0, 0, 0, 0)
  {
  }

  lemma {:induction false} EveryoneTraced(lib: Library, cfg: Config, start: View, worlds: seq<World>, id: Id, n: nat)
    returns (a: nat, b: nat, c: nat)
    requires Interleaving(lib, cfg, worlds) && AllIdle(start, worlds[0]) && n < |worlds| && id in worlds[n].phases
    ensures Traced(lib, cfg, worlds, id, n, a, b, c)
    decreases n
  {
    hide Step, AllIdle, Traced;
    a, b, c := 0, 0, 0;
    if n == 0 {
      IdleTraced(lib, cfg, start, worlds, id);
    } else {
      assert SomeStep(lib, cfg, worlds[n - 1], worlds[n]);
      var actor :| Step(lib, cfg, worlds[n - 1], actor, worlds[n]);
      if actor == id {
        StepKeepsWorker(lib, cfg, worlds[n - 1], id, worlds[n]);
        a, b, c := EveryoneTraced(lib, cfg, start, worlds, id, n - 1);
        a, b, c := TracedStep(lib, cfg, worlds, id, n, a, b, c);
      } else {
        StepLeavesOthers(lib, cfg, worlds[n - 1], actor, worlds[n], id);
        a, b, c := EveryoneTraced(lib, cfg, start, worlds, id, n - 1);
        TracedOn(lib, cfg, worlds, id, n, a, b, c);
      }
    }
  }

  /**
   * `report` was completed in the step after `d`, and read in the steps after `b` and `c` of the same piece of work.
   */
  ghost predicate Collected(lib: Library, cfg: Config, worlds: seq<World>, id: Id, a: nat, b: nat, c: nat, d: nat,
    report: Report)
  {
    && a < b < c < d && d + 1 < |worlds| && Begun(worlds, id, a, d)
    && DeviceRead(worlds, id, b, report.device) && ListRead(lib, cfg, worlds, id, c, report.list)
    && worlds[d].phases[id] == Joining(report) && worlds[d + 1].reports == worlds[d].reports + [report]
  }

  lemma StepReports(lib: Library, cfg: Config, w: World, id: Id, v: World)
    requires Step(lib, cfg, w, id, v)
    ensures v.reports == w.reports || (w.phases[id].Joining? && v.reports == w.reports + [w.phases[id].report])
  {
    hide ReadsAs, During, Alone, PlannedOf;
  }

  lemma {:induction false} ReportsCollected(lib: Library, cfg: Config, start: View, worlds: seq<World>, n: nat, i: nat)
    returns (id: Id, a: nat, b: nat, c: nat, d: nat)
    requires Interleaving(lib, cfg, worlds) && AllIdle(start, worlds[0]) && n < |worlds| && i < |worlds[n].reports|
    ensures Collected(lib, cfg, worlds, id, a, b, c, d, worlds[n].reports[i]) && d < n
    decreases n
  {
    hide Step, DeviceRead, ListRead, Begun;
    assert n > 0;
    assert SomeStep(lib, cfg, worlds[n - 1], worlds[n]);
    var actor :| Step(lib, cfg, worlds[n - 1], actor, worlds[n]);
    StepReports(lib, cfg, worlds[n - 1], actor, worlds[n]);
    StepKeepsWorker(lib, cfg, worlds[n - 1], actor, worlds[n]);
    if i < |worlds[n - 1].reports| {
      id, a, b, c, d := ReportsCollected(lib, cfg, start, worlds, n - 1, i);
    } else {
      id, d := actor, n - 1;
      a, b, c := EveryoneTraced(lib, cfg, start, worlds, id, n - 1);
    }
  }

  /** The device as a reader without the manager's lock may find it. */
  ghost predicate SeenAt(lib: Library, cfg: Config, start: View, w: World)
  {
    var now := Serial(lib, cfg, start, w.finished);
    w.view == now || (Operating(w) && During(lib, cfg, now, w.phases[w.manager.value].op, w.view))
  }

  /**
   * Every completed report reads the device and then the list while its worker was collecting, between the same two
   * idle moments. The list is the one that the operations finished by the second read leave, whichever of them ran
   * after the first; the device is as the operations finished by the first read leave it, or as the one then under way
   * shows it.
   */
  lemma ReportsAreCurrent(lib: Library, cfg: Config, start: View, worlds: seq<World>, n: nat, i: nat)
    returns (id: Id, a: nat, b: nat, c: nat, d: nat)
    requires Interleaving(lib, cfg, worlds) && AllIdle(start, worlds[0]) && n < |worlds| && i < |worlds[n].reports|
    ensures Collected(lib, cfg, worlds, id, a, b, c, d, worlds[n].reports[i]) && d < n
    ensures worlds[a].finished <= worlds[b].finished <= worlds[c].finished <= worlds[d].finished <= worlds[n].finished
    ensures SeenAt(lib, cfg, start, worlds[b]) && worlds[b].view.table == worlds[n].reports[i].device
    ensures ReadsAs(lib, cfg, Serial(lib, cfg, start, worlds[c].finished), worlds[n].reports[i].list)
  {
    hide ReadsAs, Serial, AllIdle, Interleaving, Begun, During;
    id, a, b, c, d := ReportsCollected(lib, cfg, start, worlds, n, i);
    FinishedGrows(lib, cfg, start, worlds, a, b);
    FinishedGrows(lib, cfg, start, worlds, b, c);
    FinishedGrows(lib, cfg, start, worlds, c, d);
    FinishedGrows(lib, cfg, start, worlds, d, n);
    InterleavingsKeepInv(lib, cfg, start, worlds, b);
    InterleavingsKeepInv(lib, cfg, start, worlds, c);
    ReadsBetweenOperations(lib, cfg, start, worlds[c], id);
    hide Locked;
  }

  // ---- interleavings are runs ----

  function EventOf(op: Op): Event
  {
    Finished(op.request, op.inputs, op.save)
  }

  /** Every operation draws keys that are new where it begins. */
  ghost predicate FreshOps(lib: Library, cfg: Config, v: View, ops: seq<Op>)
  {
    forall i :: 0 <= i < |ops| ==> Fresh(lib, Serial(lib, cfg, v, ops[..i]), ops[i].request, ops[i].inputs)
  }

  lemma AloneIsEvent(lib: Library, cfg: Config, s: Sys, op: Op)
    requires s.up
    ensures After(lib, cfg, s, EventOf(op)).view == Alone(lib, cfg, s.view, op) && After(lib, cfg, s, EventOf(op)).up
  {
    hide PlanOf, CarryOut, Settles;
  }

  lemma NothingRun(lib: Library, cfg: Config, s: Sys)
    ensures Serial(lib, cfg, s.view, []) == s.view
    ensures StateAfter(lib, cfg, s, []) == s && PossibleRun(lib, cfg, s, [])
  {
  }

  lemma LastOfEach(lib: Library, cfg: Config, s: Sys, ops: seq<Op>, run: seq<Event>)
    requires ops != [] && |run| == |ops|
    ensures var n := |ops| - 1;
      && Serial(lib, cfg, s.view, ops) == Alone(lib, cfg, Serial(lib, cfg, s.view, ops[..n]), ops[n])
      && StateAfter(lib, cfg, s, run) == After(lib, cfg, StateAfter(lib, cfg, s, run[..n]), run[n])
  {
    hide Alone, After;
  }

  lemma FreshIsPossible(lib: Library, cfg: Config, s: Sys, op: Op)
    requires s.up && Fresh(lib, s.view, op.request, op.inputs)
    ensures Possible(lib, cfg, s, EventOf(op))
  {
    hide Fresh;
  }

  lemma FreshPrefix(lib: Library, cfg: Config, v: View, ops: seq<Op>)
    requires ops != [] && FreshOps(lib, cfg, v, ops)
    ensures FreshOps(lib, cfg, v, ops[..|ops| - 1])
    ensures Fresh(lib, Serial(lib, cfg, v, ops[..|ops| - 1]), ops[|ops| - 1].request, ops[|ops| - 1].inputs)
  {
    hide Fresh, Serial;
    var n := |ops| - 1;
    forall i | 0 <= i < n
      ensures Fresh(lib, Serial(lib, cfg, v, ops[..n][..i]), ops[..n][i].request, ops[..n][i].inputs)
    {
      assert ops[..n][..i] == ops[..i];
    }
  }

  lemma PossibleNext(lib: Library, cfg: Config, s: Sys, run: seq<Event>)
    requires run != [] && PossibleRun(lib, cfg, s, run[..|run| - 1])
    requires Possible(lib, cfg, StateAfter(lib, cfg, s, run[..|run| - 1]), run[|run| - 1])
    ensures PossibleRun(lib, cfg, s, run)
  {
    hide Possible, StateAfter;
    var n := |run| - 1;
    forall i | 0 <= i < |run| ensures Possible(lib, cfg, StateAfter(lib, cfg, s, run[..i]), run[i]) {
      if i < n {
        assert run[..n][..i] == run[..i];
      }
    }
  }

  lemma {:induction false} SerialIsRun(lib: Library, cfg: Config, s: Sys, ops: seq<Op>)
    requires s.up
    ensures var run := MapSeq(EventOf, ops);
      && StateAfter(lib, cfg, s, run).view == Serial(lib, cfg, s.view, ops) && StateAfter(lib, cfg, s, run).up
      && (FreshOps(lib, cfg, s.view, ops) ==> PossibleRun(lib, cfg, s, run))
    decreases |ops|
  {
    hide After, Alone, Fresh, FreshOps, StateAfter, Serial, PossibleRun, Possible, EventOf;
    if ops == [] {
      NothingRun(lib, cfg, s);
    } else {
      var n, run := |ops| - 1, MapSeq(EventOf, ops);
      assert run[..n] == MapSeq(EventOf, ops[..n]);
      SerialIsRun(lib, cfg, s, ops[..n]);
      AloneIsEvent(lib, cfg, StateAfter(lib, cfg, s, run[..n]), ops[n]);
      LastOfEach(lib, cfg, s, ops, run);
      if FreshOps(lib, cfg, s.view, ops) {
        FreshPrefix(lib, cfg, s.view, ops);
        FreshIsPossible(lib, cfg, StateAfter(lib, cfg, s, run[..n]), ops[n]);
        PossibleNext(lib, cfg, s, run);
      }
    }
  }

  /**
   * Every state of every interleaving is one of a run: that of the finished operations, or of one more cut off where it
   * is. So it satisfies the invariant of all runs, whatever failed in whichever order.
   */
  lemma InterleavingIsRun(lib: Library, cfg: Config, s: Sys, worlds: seq<World>, n: nat) returns (now: Sys)
    requires Interleaving(lib, cfg, worlds) && AllIdle(s.view, worlds[0]) && n < |worlds|
    requires Runs.Inv(lib, cfg, s) && s.up && FreshOps(lib, cfg, s.view, worlds[n].finished)
    requires Operating(worlds[n]) ==>
      var op := worlds[n].phases[worlds[n].manager.value].op;
      Fresh(lib, Serial(lib, cfg, s.view, worlds[n].finished), op.request, op.inputs)
    ensures now == StateAfter(lib, cfg, s, MapSeq(EventOf, worlds[n].finished)) && Runs.Inv(lib, cfg, now) && now.up
    ensures now.view == worlds[n].view ||
      (Operating(worlds[n]) &&
       var op := worlds[n].phases[worlds[n].manager.value].op;
       var cut := CutOff(op.request, op.inputs, worlds[n].view);
       && Possible(lib, cfg, now, cut) && After(lib, cfg, now, cut).view == worlds[n].view
       && Runs.Inv(lib, cfg, After(lib, cfg, now, cut)))
  {
    hide AllIdle, Interleaving, Runs.Inv, PossibleRun, StateAfter, Serial, Moment, Fresh, FreshOps, PlanOf;
    now := StateAfter(lib, cfg, s, MapSeq(EventOf, worlds[n].finished));
    InterleavingsKeepInv(lib, cfg, s.view, worlds, n);
    SerialIsRun(lib, cfg, s, worlds[n].finished);
    RunsKeepInv(lib, cfg, s, MapSeq(EventOf, worlds[n].finished));
    if now.view != worlds[n].view {
      var op := worlds[n].phases[worlds[n].manager.value].op;
      var cut := CutOff(op.request, op.inputs, worlds[n].view);
      assert During(lib, cfg, now.view, op, worlds[n].view);
      assert Possible(lib, cfg, now, cut);
      EventKeepsInv(lib, cfg, now, cut);
    }
  }

  // ---- no deadlock ----

  ghost predicate CanStep(lib: Library, cfg: Config, w: World, id: Id)
  {
    exists v :: Step(lib, cfg, w, id, v)
  }

  /** Whoever holds the lock that the worker waits for. */
  function WaitsFor(w: World, id: Id): Option<Id>
  {
    if id !in w.phases then None
    else
      match w.phases[id]
      case WantCollector => w.collector
      case WantManager(_) => w.manager
      case WantOp(_) => w.manager
      case _ => None
  }

  lemma NextWorld(lib: Library, cfg: Config, w: World, id: Id) returns (v: World)
    requires id in w.phases && !w.phases[id].Idle? && WaitsFor(w, id).None?
    ensures Step(lib, cfg, w, id, v)
  {
    hide Alone, LoadState, During, PlannedOf;
    match w.phases[id]
    case WantCollector => v := At(w, id, ReadingDevice).(collector := Some(id));
    case ReadingDevice => v := At(w, id, WantManager(w.view.table));
    case WantManager(device) => v := At(w, id, ReadingList(device)).(manager := Some(id));
    case ReadingList(device) =>
      var list := LoadState(lib, cfg.net, w.view.current, false);
      assert ReadsAs(lib, cfg, w.view, list);
      v := At(w, id, Joining(Report(device, list))).(manager := None);
    case Joining(report) => v := At(w, id, Idle).(collector := None, reports := w.reports + [report]);
    case WantOp(op) => v := At(w, id, InOp(op, w.view)).(manager := Some(id));
    case InOp(op, start) =>
      v := At(w, id, Idle).(manager := None, view := Alone(lib, cfg, start, op), finished := w.finished + [op]);
  }

  /** A busy worker can step if and only if it waits for nobody. */
  lemma StepsUnlessWaiting(lib: Library, cfg: Config, w: World, id: Id)
    requires id in w.phases && !w.phases[id].Idle?
    ensures CanStep(lib, cfg, w, id) <==> WaitsFor(w, id).None?
  {
    hide Alone, LoadState, During, PlannedOf;
    if WaitsFor(w, id).None? {
      var v := NextWorld(lib, cfg, w, id);
    }
  }

  /**
   * No workers wait for each other: whoever holds a lock that a worker waits for can step, or waits in turn for
   * somebody who can.
   */
  lemma NoDeadlock(lib: Library, cfg: Config, w: World, id: Id)
    requires Locked(w) && WaitsFor(w, id).Some?
    ensures var holder := WaitsFor(w, id).value;
      && holder in w.phases && !w.phases[holder].Idle? && holder != id
      && (CanStep(lib, cfg, w, holder) ||
          (var next := WaitsFor(w, holder);
           next.Some? && next.value != id && CanStep(lib, cfg, w, next.value)))
  {
    hide CanStep;
    var holder := WaitsFor(w, id).value;
    StepsUnlessWaiting(lib, cfg, w, holder);
    if WaitsFor(w, holder).Some? {
      StepsUnlessWaiting(lib, cfg, w, WaitsFor(w, holder).value);
    }
  }
}
