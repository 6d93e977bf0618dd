/** The command worker: claim a command, execute it on the manager, report the outcome, and start over. */
module Commands {
  import opened Prelude
  import opened Json
  import Device
  import opened Peers
  import opened Filesystem
  import opened Store
  import opened Operations
  import opened Manager
  import opened Runs
  import opened Linking
  import opened Configurations
  import opened Answers

  datatype Command = Command(id: string, kind: string, name: string, publicKey: string)

  /** An execution fails with the manager's failure, or because the command is of no known kind. */
  datatype Fault = ByManager(failure: Failure) | Unsupported

  datatype CommandResult = Succeeded(payload: string) | Failed(fault: Fault)

  /** One execution: what it was given, the machine before, in between and after, and how it ended. */
  datatype Execution = Execution(
    command: Command,
    inputs: Inputs,
    save: SaveInput,
    end: SaveEnd,
    before: Image,
    moments: seq<Image>,
    after: Image,
    outcome: Result<string, Fault>)

  /** What the worker does, as the control plane and the machine see it. */
  datatype Event =
    | ClaimFailed
    | Claimed(claim: Option<Command>)
    | Executed(run: Execution)
    | Completed(id: string, result: CommandResult, delivered: bool)

  /** The outside world during one poll: the answer to the claim, the execution's inputs, and the completion's fate. */
  datatype Round = Round(claim: Option<Option<Command>>, inputs: Inputs, save: SaveInput, delivered: bool)

  function RequestOf(c: Command): Option<Request>
  {
    match c.kind
    case "create_peer" => Some(CreatePeer(c.name))
    case "delete_peer" => Some(DeletePeer(c.publicKey))
    case "disable_peer" => Some(SetEnabled(c.publicKey, false))
    case "enable_peer" => Some(SetEnabled(c.publicKey, true))
    case _ => None
  }

  function ResultOf(outcome: Result<string, Fault>): CommandResult
  {
    match outcome case Ok(payload) => Succeeded(payload) case Err(fault) => Failed(fault)
  }

  // ---- payloads ----

  /** json.Marshal of a created peer. */
  function CreatedText(c: CreatedPeer): string
  {
    ['{'] + Quote("name", [':'] + Quote(c.name, [','] + Quote("publicKey", [':'] + Quote(c.publicKey,
      [','] + Quote("configuration", [':'] + Quote(c.configuration, ['}']))))))
  }

  lemma TextField(name: string, value: string, rest: string)
    ensures ParseField(Quote(name, [':'] + Quote(value, rest))) == Some((Field(name, Str(value)), rest))
  {
    var colon := [':'] + Quote(value, rest);
    ParseQuoted(name, colon);
    assert Quote(name, colon)[1..] == Escape(name, ['"'] + colon);
    assert colon[1..] == Quote(value, rest);
    hide Escape, ParseString;
    assert SkipBlank(Quote(name, colon)) == Quote(name, colon) && SkipBlank(colon) == colon;
    assert SkipBlank(Quote(value, rest)) == Quote(value, rest);
    ParseQuotedToken(value, rest);
    hide ParseToken;
  }

  lemma LastTextField(f: string, v: string, rest: string)
    ensures ParseFields(Quote(f, [':'] + Quote(v, ['}'] + rest))) == Some(([Field(f, Str(v))], rest))
  {
    TextField(f, v, ['}'] + rest);
    hide ParseField;
    assert (['}'] + rest)[1..] == rest;
  }

  lemma NextTextField(f: string, v: string, more: string, fields: seq<Field>, rest: string)
    requires ParseFields(more) == Some((fields, rest))
    ensures ParseFields(Quote(f, [':'] + Quote(v, [','] + more))) == Some(([Field(f, Str(v))] + fields, rest))
  {
    TextField(f, v, [','] + more);
    hide ParseField;
    assert ([','] + more)[1..] == more;
  }

  lemma ObjectOfFields(text: string, fields: seq<Field>)
    requires text != "" && text[0] == '"' && ParseFields(text) == Some((fields, ""))
    ensures ParseDocument(['{'] + text) == Some(Obj(fields))
  {
    var s := ['{'] + text;
    assert s[1..] == text && SkipBlank(text) == text && SkipBlank(s) == s;
    hide ParseFields, ParseString, ParseItems;
    assert ParseToken(s) == Some((Obj(fields), ""));
    hide ParseToken;
    assert ParseValue(s) == Some((Obj(fields), ""));
  }

  lemma QuoteStarts(s: string, rest: string)
    ensures Quote(s, rest) != "" && Quote(s, rest)[0] == '"'
  {
  }

  /** The payload of a created peer is a JSON document with its name, key and configuration. */
  lemma CreatedReadsBack(c: CreatedPeer)
    ensures ParseDocument(CreatedText(c)) == Some(Obj([
      Field("name", Str(c.name)), Field("publicKey", Str(c.publicKey)), Field("configuration", Str(c.configuration))]))
  {
    hide Quote, ParseField, ParseFields;
    var configuration := Quote("configuration", [':'] + Quote(c.configuration, ['}']));
    var publicKey := Quote("publicKey", [':'] + Quote(c.publicKey, [','] + configuration));
    var name := Quote("name", [':'] + Quote(c.name, [','] + publicKey));
    assert ['}'] + "" == ['}'];
    LastTextField("configuration", c.configuration, "");
    NextTextField("publicKey", c.publicKey, configuration, [Field("configuration", Str(c.configuration))], "");
    NextTextField("name", c.name, publicKey,
      [Field("publicKey", Str(c.publicKey))] + [Field("configuration", Str(c.configuration))], "");
    QuoteStarts("name", [':'] + Quote(c.name, [','] + publicKey));
    var fields := [
      Field("name", Str(c.name)), Field("publicKey", Str(c.publicKey)), Field("configuration", Str(c.configuration))];
    assert fields == [Field("name", Str(c.name))]
      + ([Field("publicKey", Str(c.publicKey))] + [Field("configuration", Str(c.configuration))]);
    ObjectOfFields(name, fields);
  }

  // ---- one execution ----

  /** The outcome of a command that is no operation. */
  function Answer(lib: Library, cfg: Config, current: Option<seq<Peer>>, c: Command, inputs: Inputs)
    : Result<string, Fault>
  {
    if c.kind != "get_peer_configuration" then Err(Unsupported)
    else
      match ConfigurationOf(lib, cfg, current, c.publicKey, inputs)
      case Ok(text) => Ok(text)
      case Err(f) => Err(ByManager(f))
  }

  function PayloadOf(cfg: Config, request: Request, plan: Plan, inputs: Inputs): string
  {
    if request.CreatePeer? then CreatedText(CreatedBy(cfg, plan.list, inputs.deviceKey)) else ""
  }

  /** The outcome of an operation that was planned and ended with `failure`, if any. */
  function OutcomeOf(cfg: Config, request: Request, planned: Result<Plan, Failure>, inputs: Inputs,
    failure: Option<Failure>)
    : Result<string, Fault>
  {
    match failure
    case Some(f) => Err(ByManager(f))
    case None => Ok(if planned.Ok? then PayloadOf(cfg, request, planned.value, inputs) else "")
  }

  function PlannedFor(lib: Library, cfg: Config, x: Execution, request: Request): Result<Plan, Failure>
  {
    PlanOf(lib, cfg, Current(x.before.fs), request, x.inputs)
  }

  /** The manager performed the command's operation, or answered it without touching the machine. */
  ghost predicate Genuine(lib: Library, cfg: Config, x: Execution)
  {
    match RequestOf(x.command)
    case None =>
      && x.after == x.before && x.moments == []
      && x.outcome == Answer(lib, cfg, Current(x.before.fs), x.command, x.inputs)
    case Some(request) =>
      var planned := PlannedFor(lib, cfg, x, request);
      && (exists failure :: Performed(x.before, [], x.after, x.moments, planned, x.inputs, x.end, failure)
            && x.outcome == OutcomeOf(cfg, request, planned, x.inputs, failure))
      && (x.outcome.Ok? || x.outcome.error == ByManager(NotSaved) ==> MayEnd(x.before.fs, x.save, x.end))
  }

  /** What the command does to the list, what may survive of it, and the device. */
  function EffectOf(lib: Library, cfg: Config, v: View, x: Execution): View
  {
    match RequestOf(x.command)
    case None => v
    case Some(request) => Operations.Execute(v, PlanOf(lib, cfg, v.current, request, x.inputs), x.inputs, x.end).0
  }

  lemma GenuineEffect(lib: Library, cfg: Config, x: Execution)
    requires Genuine(lib, cfg, x)
    ensures ViewOf(x.after) == EffectOf(lib, cfg, ViewOf(x.before), x)
  {
    hide Current, Survivors, PlanOf, CarryOut, Moments, Sound, MayEnd;
  }

  /** An execution of an operation is an event of a run, and dying in the middle of it is one too. */
  lemma GenuineIsEvent(lib: Library, cfg: Config, s: Sys, x: Execution, request: Request)
    requires Genuine(lib, cfg, x) && RequestOf(x.command) == Some(request)
    requires Describes(s, x.before) && s.up && Fresh(lib, s.view, request, x.inputs)
    ensures var e := Finished(request, x.inputs, x.end);
      Possible(lib, cfg, s, e) && Describes(After(lib, cfg, s, e), x.after)
    ensures forall m :: m in x.moments ==>
      var e := CutOff(request, x.inputs, ViewOf(m));
      Possible(lib, cfg, s, e) && Describes(After(lib, cfg, s, e), m)
  {
    hide RequestOf, Performed, Describes, Possible, After, Fresh, OutcomeOf, MayEnd, PlanOf, Current;
    var planned := PlannedFor(lib, cfg, x, request);
    var failure :| Performed(x.before, [], x.after, x.moments, planned, x.inputs, x.end, failure);
    assert Added([], x.moments) == x.moments;
    PerformedIsEvent(lib, cfg, s, request, x.before, [], x.after, x.moments, x.inputs, x.end, failure);
  }

  // ---- what each kind of command does ----

  lemma GenuineAnswer(lib: Library, cfg: Config, x: Execution, request: Request)
    requires Genuine(lib, cfg, x) && RequestOf(x.command) == Some(request)
    ensures var planned := PlannedFor(lib, cfg, x, request);
      && (x.outcome.Ok? <==> planned.Ok? && x.inputs.apply.Done? && SaveGoesWell(x.before.fs, x.save))
      && (x.outcome.Ok? ==>
            && ViewOf(x.after) == CarryOut(ViewOf(x.before), planned.value, x.inputs, Saved).0
            && x.outcome.value == PayloadOf(cfg, request, planned.value, x.inputs))
  {
    hide RequestOf, PlanOf, Current, Survivors, Moments, Sound, PayloadOf, Reread, Device.Configure;
  }

  /** The payload of an execution that created a peer has this name, key and configuration. */
  predicate Tells(x: Execution, answer: CreatedPeer)
  {
    x.outcome.Ok? && ParseDocument(x.outcome.value) == Some(Obj([
      Field("name", Str(answer.name)), Field("publicKey", Str(answer.publicKey)),
      Field("configuration", Str(answer.configuration))]))
  }

  /** On a good list, `create_peer` makes the named peer, and tells of it. */
  lemma CreateCommand(lib: Library, cfg: Config, x: Execution) returns (host: nat, p: Peer, answer: CreatedPeer)
    requires Genuine(lib, cfg, x) && x.command.kind == "create_peer"
    requires Current(x.before.fs).Some? && Good(lib, cfg.net, Current(x.before.fs).value)
    requires x.inputs.draw.Some? ==> FreshKey(lib, Current(x.before.fs).value, x.inputs.draw.value)
    ensures x.outcome.Ok? <==>
      && CreatePlannable(lib, cfg, Current(x.before.fs), x.command.name, x.inputs)
      && x.inputs.apply.Done? && SaveGoesWell(x.before.fs, x.save)
    ensures x.outcome.Ok? ==>
      && x.inputs.draw.Some? && x.inputs.deviceKey.Some?
      && CreatedAt(lib, cfg, ViewOf(x.before), x.command.name, x.inputs.draw.value, x.inputs.deviceKey.value, host, p,
           answer, ViewOf(x.after))
      && Tells(x, answer)
  {
    hide Genuine, PlanCreate, Current, Survivors, Good, FreshKey, CreatedAt, CreatePlannable, SaveGoesWell, CarryOut,
      ParseDocument, CreatedText, CreatedBy;
    var request := CreatePeer(x.command.name);
    GenuineAnswer(lib, cfg, x, request);
    CreateIsExact(lib, cfg, Current(x.before.fs), x.command.name, x.inputs);
    host, p, answer := 0, Peer("", "", "", "", "", [], false), CreatedPeer("", "", "");
    if x.outcome.Ok? {
      host, p := CreateSucceeds(lib, cfg, ViewOf(x.before), x.command.name, x.inputs);
      answer := CreatedBy(cfg, PlannedFor(lib, cfg, x, request).value.list, x.inputs.deviceKey);
      CreatedReadsBack(answer);
    }
  }

  /** On a good list, `enable_peer` and `disable_peer` switch the peer with that key on and off. */
  lemma SwitchCommand(lib: Library, cfg: Config, x: Execution) returns (i: nat)
    requires Genuine(lib, cfg, x) && x.command.kind in ["enable_peer", "disable_peer"]
    requires Current(x.before.fs).Some? && Good(lib, cfg.net, Current(x.before.fs).value)
    ensures x.outcome.Ok? <==>
      && SwitchPlannable(lib, cfg, Current(x.before.fs), x.command.publicKey, x.command.kind == "enable_peer", x.inputs)
      && x.inputs.apply.Done? && SaveGoesWell(x.before.fs, x.save)
    ensures x.outcome.Ok? ==>
      && i < |Current(x.before.fs).value|
      && SwitchedAt(ViewOf(x.before), i, x.command.publicKey, x.command.kind == "enable_peer", ViewOf(x.after))
      && x.outcome.value == ""
  {
    hide Genuine, PlanSetEnabled, Current, Survivors, Good, SwitchedAt, SwitchPlannable, SaveGoesWell, CarryOut;
    var enabled := x.command.kind == "enable_peer";
    GenuineAnswer(lib, cfg, x, SetEnabled(x.command.publicKey, enabled));
    SwitchIsExact(lib, cfg, Current(x.before.fs), x.command.publicKey, enabled, x.inputs);
    i := 0;
    if x.outcome.Ok? {
      i := SwitchSucceeds(lib, cfg, ViewOf(x.before), x.command.publicKey, enabled, x.inputs);
    }
  }

  /** On a good list, `delete_peer` takes the peer with that key off the list and the device. */
  lemma DeleteCommand(lib: Library, cfg: Config, x: Execution) returns (i: nat)
    requires Genuine(lib, cfg, x) && x.command.kind == "delete_peer"
    requires Current(x.before.fs).Some? && Good(lib, cfg.net, Current(x.before.fs).value)
    ensures x.outcome.Ok? <==>
      && DeletePlannable(lib, cfg, Current(x.before.fs), x.command.publicKey, x.inputs)
      && x.inputs.apply.Done? && SaveGoesWell(x.before.fs, x.save)
    ensures x.outcome.Ok? ==>
      && i < |Current(x.before.fs).value|
      && DeletedAt(ViewOf(x.before), i, x.command.publicKey, ViewOf(x.after)) && x.outcome.value == ""
  {
    hide Genuine, PlanDelete, Current, Survivors, Good, DeletedAt, DeletePlannable, SaveGoesWell, CarryOut;
    GenuineAnswer(lib, cfg, x, DeletePeer(x.command.publicKey));
    DeleteIsExact(lib, cfg, Current(x.before.fs), x.command.publicKey, x.inputs);
    i := 0;
    if x.outcome.Ok? {
      i := DeleteSucceeds(lib, cfg, ViewOf(x.before), x.command.publicKey, x.inputs);
    }
  }

  /** All other kinds leave the machine alone; one of them tells the configuration of the peer with that key. */
  lemma OtherCommand(lib: Library, cfg: Config, x: Execution)
    requires Genuine(lib, cfg, x)
    requires x.command.kind !in ["create_peer", "delete_peer", "enable_peer", "disable_peer"]
    ensures x.after == x.before && x.moments == []
    ensures x.outcome.Ok? <==>
      && x.command.kind == "get_peer_configuration"
      && Readable(lib, cfg.net, Current(x.before.fs), x.inputs.loadFails)
      && HasKey(Current(x.before.fs).value, x.command.publicKey) && x.inputs.deviceKey.Some?
    ensures x.outcome.Ok? && Good(lib, cfg.net, Current(x.before.fs).value) && PlainConfig(cfg) ==>
      exists p :: p in Current(x.before.fs).value && p.publicKey == x.command.publicKey
        && Configures(cfg, p, x.inputs.deviceKey.value, x.outcome.value)
        && HasSections(cfg, p, x.inputs.deviceKey.value, x.outcome.value)
  {
    hide ConfigurationOf, Current, Good, Readable, PlainConfig, Configures, HasSections;
    ConfigurationIsExact(lib, cfg, Current(x.before.fs), x.command.publicKey, x.inputs);
  }

  // ---- executions in a row ----

  ghost predicate AllGenuine(lib: Library, cfg: Config, xs: seq<Execution>)
  {
    forall x :: x in xs ==> Genuine(lib, cfg, x)
  }

  function LastImage(start: Image, xs: seq<Execution>): Image
  {
    if xs == [] then start else xs[|xs| - 1].after
  }

  /** Each execution finds the machine as the one before left it. */
  predicate Chained(start: Image, xs: seq<Execution>)
  {
    forall i :: 0 <= i < |xs| ==> xs[i].before == LastImage(start, xs[..i])
  }

  function ExecuteAll(lib: Library, cfg: Config, v: View, xs: seq<Execution>): View
  {
    if xs == [] then v
    else EffectOf(lib, cfg, ExecuteAll(lib, cfg, v, xs[..|xs| - 1]), xs[|xs| - 1])
  }

  lemma {:induction false} ChainedEffect(lib: Library, cfg: Config, start: Image, xs: seq<Execution>)
    requires AllGenuine(lib, cfg, xs) && Chained(start, xs)
    ensures ViewOf(LastImage(start, xs)) == ExecuteAll(lib, cfg, ViewOf(start), xs)
    decreases |xs|
  {
    hide Genuine, EffectOf, ViewOf;
    if xs != [] {
      var n := |xs| - 1;
      forall i | 0 <= i < n ensures xs[..n][i].before == LastImage(start, xs[..n][..i]) {
        assert xs[..n][..i] == xs[..i];
      }
      ChainedEffect(lib, cfg, start, xs[..n]);
      GenuineEffect(lib, cfg, xs[n]);
    }
  }

  lemma OneMoreExecution(lib: Library, cfg: Config, start: Image, xs: seq<Execution>, x: Execution)
    requires AllGenuine(lib, cfg, xs) && Chained(start, xs) && Genuine(lib, cfg, x) && x.before == LastImage(start, xs)
    ensures AllGenuine(lib, cfg, xs + [x]) && Chained(start, xs + [x]) && LastImage(start, xs + [x]) == x.after
  {
    hide Genuine;
    var ys := xs + [x];
    forall i | 0 <= i < |ys| ensures ys[i].before == LastImage(start, ys[..i]) {
      assert ys[..i] == xs[..i];
    }
  }

  // ---- the protocol ----

  /** The events of one poll. */
  predicate Shows(round: Round, events: seq<Event>)
  {
    match round.claim
    case None => events == [ClaimFailed]
    case Some(None) => events == [Claimed(None)]
    case Some(Some(c)) =>
      && |events| == 3
      && events[0] == Claimed(Some(c))
      && events[1].Executed?
      && events[1].run.command == c && events[1].run.inputs == round.inputs && events[1].run.save == round.save
      && events[2] == Completed(c.id, ResultOf(events[1].run.outcome), round.delivered)
  }

  /** The trace is that of these polls, one after the other. */
  ghost predicate Replays(rounds: seq<Round>, trace: seq<Event>)
    decreases |rounds|
  {
    if rounds == [] then trace == []
    else
      var m := |rounds| - 1;
      exists n :: 0 <= n <= |trace| && Replays(rounds[..m], trace[..n]) && Shows(rounds[m], trace[n..])
  }

  lemma ReplaysNext(rounds: seq<Round>, trace: seq<Event>, round: Round, events: seq<Event>)
    requires Replays(rounds, trace) && Shows(round, events)
    ensures Replays(rounds + [round], trace + events)
  {
    hide Shows;
    var rs, all := rounds + [round], trace + events;
    assert rs[..|rs| - 1] == rounds && all[..|trace|] == trace && all[|trace|..] == events;
  }

  /** What precedes and follows the event at `i`. */
  ghost predicate InOrder(trace: seq<Event>, i: nat)
    requires i < |trace|
  {
    match trace[i]
    case ClaimFailed => true
    case Claimed(None) => true
    case Claimed(Some(c)) =>
      && (i + 1 < |trace| ==> trace[i + 1].Executed? && trace[i + 1].run.command == c)
      && (i + 2 < |trace| ==> trace[i + 2].Completed?)
    case Executed(run) =>
      && i >= 1 && trace[i - 1] == Claimed(Some(run.command))
      && (i + 1 < |trace| ==> trace[i + 1].Completed?)
    case Completed(id, result, _) =>
      && i >= 2 && trace[i - 1].Executed?
      && trace[i - 1].run.command.id == id
      && (match trace[i - 1].run.outcome
          case Ok(payload) => result == Succeeded(payload)
          case Err(fault) => result == CommandResult.Failed(fault))
      && trace[i - 2] == Claimed(Some(trace[i - 1].run.command))
      && (i + 1 < |trace| ==> trace[i + 1].ClaimFailed? || trace[i + 1].Claimed?)
  }

  lemma LastRoundInOrder(round: Round, trace: seq<Event>, n: nat, i: nat)
    requires n <= i < |trace| && Shows(round, trace[n..])
    ensures InOrder(trace, i)
  {
    var events := trace[n..];
    assert events[0] == trace[n];
    if |events| == 3 {
      assert events[1] == trace[n + 1] && events[2] == trace[n + 2];
    }
  }

  lemma EarlierInOrder(round: Round, trace: seq<Event>, n: nat, i: nat)
    requires i < n <= |trace| && Shows(round, trace[n..]) && InOrder(trace[..n], i)
    requires i + 2 < n || !(trace[i].Claimed? && trace[i].claim.Some?)
    requires i + 1 < n || !trace[i].Executed?
    ensures InOrder(trace, i)
  {
    assert trace[n..][0] == trace[n];
  }

  /** In a trace of whole polls no claimed command is still open at the end. */
  lemma {:induction false} NothingOpen(rounds: seq<Round>, trace: seq<Event>, i: nat)
    requires Replays(rounds, trace) && i < |trace|
    ensures trace[i].Claimed? && trace[i].claim.Some? ==> i + 2 < |trace|
    ensures trace[i].Executed? ==> i + 1 < |trace|
    decreases |rounds|
  {
    var m := |rounds| - 1;
    var n :| 0 <= n <= |trace| && Replays(rounds[..m], trace[..n]) && Shows(rounds[m], trace[n..]);
    if i < n {
      NothingOpen(rounds[..m], trace[..n], i);
    } else {
      assert trace[i] == trace[n..][i - n];
    }
  }

  lemma {:induction false} ReplaysInOrder(rounds: seq<Round>, trace: seq<Event>, i: nat)
    requires Replays(rounds, trace) && i < |trace|
    ensures InOrder(trace, i)
    decreases |rounds|
  {
    var m := |rounds| - 1;
    var n :| 0 <= n <= |trace| && Replays(rounds[..m], trace[..n]) && Shows(rounds[m], trace[n..]);
    if i < n {
      ReplaysInOrder(rounds[..m], trace[..n], i);
      NothingOpen(rounds[..m], trace[..n], i);
      hide Shows, Replays, InOrder;
      EarlierInOrder(rounds[m], trace, n, i);
    } else {
      LastRoundInOrder(rounds[m], trace, n, i);
    }
  }

  lemma InOrderPrefix(all: seq<Event>, trace: seq<Event>, i: nat)
    requires trace <= all && i < |trace| && InOrder(all, i)
    ensures InOrder(trace, i)
  {
  }

  // ---- executions and claims ----

  function Executions(trace: seq<Event>): seq<Execution>
  {
    if trace == [] then []
    else
      var n := |trace| - 1;
      Executions(trace[..n]) + (if trace[n].Executed? then [trace[n].run] else [])
  }

  /** A claimed command and what it is executed with. */
  datatype Order = Order(command: Command, inputs: Inputs, save: SaveInput)

  function OrderOf(x: Execution): Order
  {
    Order(x.command, x.inputs, x.save)
  }

  /** The commands that were claimed, in order. */
  function Orders(rounds: seq<Round>): seq<Order>
  {
    if rounds == [] then []
    else
      var r := rounds[|rounds| - 1];
      Orders(rounds[..|rounds| - 1])
      + (if r.claim.Some? && r.claim.value.Some? then [Order(r.claim.value.value, r.inputs, r.save)] else [])
  }

  lemma {:induction false} ExecutionsAppend(trace: seq<Event>, events: seq<Event>)
    ensures Executions(trace + events) == Executions(trace) + Executions(events)
    decreases |events|
  {
    if events == [] {
      assert trace + events == trace;
    } else {
      var n := |events| - 1;
      ExecutionsAppend(trace, events[..n]);
      assert (trace + events)[..|trace| + n] == trace + events[..n];
    }
  }

  lemma ExecutionsShown(round: Round, events: seq<Event>)
    requires Shows(round, events)
    ensures Executions(events) == if round.claim.Some? && round.claim.value.Some? then [events[1].run] else []
  {
    if |events| == 3 {
      assert events[..2][..1] == events[..1] && events[..1][..0] == [];
      assert Executions(events[..1]) == [] && Executions(events[..2]) == [events[1].run];
    } else {
      assert events[..0] == [];
    }
  }

  lemma MappedAppend(xs: seq<Execution>, ys: seq<Execution>)
    ensures MapSeq(OrderOf, xs + ys) == MapSeq(OrderOf, xs) + MapSeq(OrderOf, ys)
  {
  }

  lemma ClaimedOnce(rounds: seq<Round>, trace: seq<Event>, n: nat)
    requires rounds != [] && n <= |trace| && Shows(rounds[|rounds| - 1], trace[n..])
    requires MapSeq(OrderOf, Executions(trace[..n])) == Orders(rounds[..|rounds| - 1])
    ensures MapSeq(OrderOf, Executions(trace)) == Orders(rounds)
  {
    hide Executions;
    ExecutionsAppend(trace[..n], trace[n..]);
    assert trace == trace[..n] + trace[n..];
    ExecutionsShown(rounds[|rounds| - 1], trace[n..]);
    MappedAppend(Executions(trace[..n]), Executions(trace[n..]));
  }

  /** The executions are those of the claimed commands, each once, in order. */
  lemma {:induction false} ExecutedAsClaimed(rounds: seq<Round>, trace: seq<Event>)
    requires Replays(rounds, trace)
    ensures MapSeq(OrderOf, Executions(trace)) == Orders(rounds)
    decreases |rounds|
  {
    if rounds != [] {
      var m := |rounds| - 1;
      var n :| 0 <= n <= |trace| && Replays(rounds[..m], trace[..n]) && Shows(rounds[m], trace[n..]);
      hide Replays, Executions;
      ExecutedAsClaimed(rounds[..m], trace[..n]);
      ClaimedOnce(rounds, trace, n);
    }
  }

  // ---- the worker ----

  /** The poll fails: the claim or the completion does. */
  predicate Fails(round: Round)
  {
    round.claim.None? || (round.claim.value.Some? && !round.delivered)
  }

  /** How many polls there are up to the first that fails, that one included. */
  function UpToFailure(rounds: seq<Round>): (n: nat)
    ensures n <= |rounds| && (rounds != [] ==> n > 0)
    ensures forall i :: 0 <= i < n - 1 ==> !Fails(rounds[i])
    ensures n < |rounds| ==> n > 0 && Fails(rounds[n - 1])
  {
    if rounds == [] then 0 else if Fails(rounds[0]) then 1 else 1 + UpToFailure(rounds[1..])
  }

  lemma PerformedAdded(m: Image, earlier: seq<Image>, w: Image, later: seq<Image>, planned: Result<Plan, Failure>,
    inputs: Inputs, end: SaveEnd, failure: Option<Failure>)
    requires Performed(m, earlier, w, later, planned, inputs, end, failure)
    ensures Extends(earlier, later) && Performed(m, [], w, Added(earlier, later), planned, inputs, end, failure)
  {
    hide Sound, CarryOut, Moments, ViewOf;
    assert Added([], Added(earlier, later)) == Added(earlier, later);
    if planned.Err? {
      assert Added(earlier, later) == [];
    }
  }

  lemma IsGenuine(lib: Library, cfg: Config, c: Command, request: Request, inputs: Inputs, save: SaveInput,
    end: SaveEnd, m: Image, earlier: seq<Image>, w: Image, later: seq<Image>, failure: Option<Failure>,
    r: Result<string, Fault>)
    requires RequestOf(c) == Some(request)
    requires var planned := PlanOf(lib, cfg, Current(m.fs), request, inputs);
      && Performed(m, earlier, w, later, planned, inputs, end, failure)
      && r == OutcomeOf(cfg, request, planned, inputs, failure)
    requires r.Ok? || r.error == ByManager(NotSaved) ==> MayEnd(m.fs, save, end)
    ensures Extends(earlier, later)
    ensures Genuine(lib, cfg, Execution(c, inputs, save, end, m, Added(earlier, later), w, r))
  {
    hide RequestOf, Performed, OutcomeOf, PlanOf, Current, MayEnd;
    var planned := PlanOf(lib, cfg, Current(m.fs), request, inputs);
    PerformedAdded(m, earlier, w, later, planned, inputs, end, failure);
    var x := Execution(c, inputs, save, end, m, Added(earlier, later), w, r);
    assert PlannedFor(lib, cfg, x, request) == planned;
    assert Performed(x.before, [], x.after, x.moments, PlannedFor(lib, cfg, x, request), x.inputs, x.end, failure);
  }

  lemma QuietPoll(rounds: seq<Round>, trace: seq<Event>, round: Round, e: Event)
    requires Replays(rounds, trace) && Shows(round, [e]) && !e.Executed?
    ensures Replays(rounds + [round], trace + [e]) && Executions(trace + [e]) == Executions(trace)
  {
    ReplaysNext(rounds, trace, round, [e]);
    hide Replays;
    assert (trace + [e])[..|trace|] == trace;
  }

  lemma BusyPoll(rounds: seq<Round>, trace: seq<Event>, round: Round, run: Execution, after: seq<Event>)
    requires Replays(rounds, trace) && round.claim == Some(Some(run.command))
    requires run.inputs == round.inputs && run.save == round.save
    requires after == trace + [Claimed(Some(run.command))] + [Executed(run)]
      + [Completed(run.command.id, ResultOf(run.outcome), round.delivered)]
    ensures Replays(rounds + [round], after) && Executions(after) == Executions(trace) + [run]
  {
    var events := [Claimed(Some(run.command)), Executed(run),
      Completed(run.command.id, ResultOf(run.outcome), round.delivered)];
    assert after == trace + events;
    assert Shows(round, events);
    ReplaysNext(rounds, trace, round, events);
    hide Replays;
    ExecutionsAppend(trace, events);
    ExecutionsShown(round, events);
  }

  lemma {:induction false} FirstFailure(rounds: seq<Round>, i: nat)
    requires i < |rounds| && Fails(rounds[i]) && forall j :: 0 <= j < i ==> !Fails(rounds[j])
    ensures UpToFailure(rounds) == i + 1
    decreases i
  {
    hide Fails;
    if i > 0 {
      FirstFailure(rounds[1..], i - 1);
    }
  }

  lemma NoFailure(rounds: seq<Round>)
    requires forall j :: 0 <= j < |rounds| ==> !Fails(rounds[j])
    ensures UpToFailure(rounds) == |rounds|
  {
    hide Fails;
  }

  class Worker {
    const manager: Manager
    ghost const start: Image
    ghost var trace: seq<Event>
    ghost var polled: seq<Round>

    constructor (manager: Manager)
      requires manager.Valid()
      ensures this.manager == manager && start == manager.machine.Now() && trace == [] && polled == [] && Valid()
    {
      this.manager := manager;
      start := manager.machine.Now();
      trace := [];
      polled := [];
    }

    /** The trace is that of the polls so far; its executions are genuine, chained, and led to the machine as it is. */
    ghost predicate Valid()
      reads this, manager, manager.machine
    {
      && manager.Valid()
      && Replays(polled, trace)
      && AllGenuine(manager.lib, manager.cfg, Executions(trace))
      && Chained(start, Executions(trace))
      && LastImage(start, Executions(trace)) == manager.machine.Now()
    }

    /** nativeCommandExecutor.Execute: each kind is the operation of that name; unknown ones leave the machine alone. */
    method Execute(c: Command, inputs: Inputs, save: SaveInput) returns (r: Result<string, Fault>, ghost end: SaveEnd)
      requires manager.Valid()
      modifies manager.machine
      ensures manager.Valid() && Extends(old(manager.machine.trace), manager.machine.trace)
      ensures Genuine(manager.lib, manager.cfg, Execution(c, inputs, save, end, old(manager.machine.Now()),
        Added(old(manager.machine.trace), manager.machine.trace), manager.machine.Now(), r))
    {
      hide Course, CarryOut, PlanCreate, PlanSetEnabled, PlanDelete, ConfigurationOf, CreatedBy, CreatedText, Current,
        Sound, MayEnd, Performed, Readable, CreatePlannable, SwitchPlannable, DeletePlannable, SaveGoesWell, HasKey,
        CreatedAt, SwitchedAt, DeletedAt, Good, FreshKey, PlainConfig, Configures, HasSections;
      end := NotReplaced;
      ghost var m, earlier := manager.machine.Now(), manager.machine.trace;
      match c.kind {
        case "create_peer" =>
          var created;
          created, end := manager.CreatePeer(c.name, inputs, save);
          r := match created case Ok(peer) => Ok(CreatedText(peer)) case Err(f) => Err(ByManager(f));
          IsGenuine(manager.lib, manager.cfg, c, CreatePeer(c.name), inputs, save, end, m, earlier,
            manager.machine.Now(), manager.machine.trace, FailureOf(created), r);
        case "delete_peer" =>
          var deleted;
          deleted, end := manager.DeletePeer(c.publicKey, inputs, save);
          r := match deleted case Ok(_) => Ok("") case Err(f) => Err(ByManager(f));
          IsGenuine(manager.lib, manager.cfg, c, DeletePeer(c.publicKey), inputs, save, end, m, earlier,
            manager.machine.Now(), manager.machine.trace, FailureOf(deleted), r);
        case "get_peer_configuration" =>
          var text := manager.Configuration(c.publicKey, inputs);
          r := match text case Ok(t) => Ok(t) case Err(f) => Err(ByManager(f));
        case "disable_peer" =>
          var disabled;
          disabled, end := manager.SetEnabled(c.publicKey, false, inputs, save);
          r := match disabled case Ok(_) => Ok("") case Err(f) => Err(ByManager(f));
          IsGenuine(manager.lib, manager.cfg, c, SetEnabled(c.publicKey, false), inputs, save, end, m, earlier,
            manager.machine.Now(), manager.machine.trace, FailureOf(disabled), r);
        case "enable_peer" =>
          var enabled;
          enabled, end := manager.SetEnabled(c.publicKey, true, inputs, save);
          r := match enabled case Ok(_) => Ok("") case Err(f) => Err(ByManager(f));
          IsGenuine(manager.lib, manager.cfg, c, SetEnabled(c.publicKey, true), inputs, save, end, m, earlier,
            manager.machine.Now(), manager.machine.trace, FailureOf(enabled), r);
        case _ =>
          r := Err(Unsupported);
      }
    }

    /** One poll, event by event. It fails if the claim or the completion does; the next one starts with a new claim. */
    method Poll(round: Round) returns (ok: bool)
      requires Valid()
      modifies this, manager.machine
      ensures Valid() && old(trace) <= trace && polled == old(polled) + [round]
      ensures ok <==> round.claim.Some? && (round.claim.value.Some? ==> round.delivered)
    {
      hide Replays, Genuine, Chained, Executions, LastImage, AllGenuine, Sound;
      ghost var earlier, rounds := trace, polled;
      polled := polled + [round];
      if round.claim.None? {
        trace := trace + [ClaimFailed];
        QuietPoll(rounds, earlier, round, ClaimFailed);
        return false;
      }
      var claim := round.claim.value;
      trace := trace + [Claimed(claim)];
      if claim.None? {
        QuietPoll(rounds, earlier, round, Claimed(claim));
        return true;
      }
      ghost var before, moments := manager.machine.Now(), manager.machine.trace;
      var outcome, end := Execute(claim.value, round.inputs, round.save);
      ghost var run := Execution(claim.value, round.inputs, round.save, end, before,
        Added(moments, manager.machine.trace), manager.machine.Now(), outcome);
      trace := trace + [Executed(run)];
      trace := trace + [Completed(claim.value.id, ResultOf(outcome), round.delivered)];
      BusyPoll(rounds, earlier, round, run, trace);
      OneMoreExecution(manager.lib, manager.cfg, start, Executions(earlier), run);
      ok := round.delivered;
    }

    /** RunCommands: polls until the first one fails. */
    method RunCommands(rounds: seq<Round>) returns (ok: bool, used: nat)
      requires Valid()
      modifies this, manager.machine
      ensures used == UpToFailure(rounds)
      ensures Valid() && old(trace) <= trace && polled == old(polled) + rounds[..used]
      ensures ok <==> forall i :: 0 <= i < |rounds| ==> !Fails(rounds[i])
    {
      hide Replays, Genuine, Chained, Executions, LastImage, AllGenuine, Sound;
      assert rounds[..0] == [];
      for i := 0 to |rounds|
        invariant Valid() && old(trace) <= trace && polled == old(polled) + rounds[..i]
        invariant forall j :: 0 <= j < i ==> !Fails(rounds[j])
      {
        ok := Poll(rounds[i]);
        assert rounds[..i + 1] == rounds[..i] + [rounds[i]];
        if !ok {
          FirstFailure(rounds, i);
          return false, i + 1;
        }
      }
      NoFailure(rounds);
      assert rounds[..|rounds|] == rounds;
      return true, |rounds|;
    }

    /** runWithRetry: RunCommands is started again after every error, so that every poll takes place. */
    method RunWithRetry(rounds: seq<Round>)
      requires Valid()
      modifies this, manager.machine
      ensures Valid() && old(trace) <= trace && polled == old(polled) + rounds
    {
      hide Replays, Genuine, Chained, Executions, LastImage, AllGenuine, Sound, Fails;
      var from := 0;
      assert rounds[..0] == [];
      while from < |rounds|
        invariant Valid() && old(trace) <= trace && from <= |rounds| && polled == old(polled) + rounds[..from]
      {
        var _, used := RunCommands(rounds[from..]);
        assert rounds[..from + used] == rounds[..from] + rounds[from..][..used];
        from := from + used;
      }
      assert rounds[..|rounds|] == rounds;
    }
  }

  // ---- what a valid worker has done ----

  /**
   * Wherever the worker is stopped: a claimed command is followed by its own execution and then by one completion with
   * that execution's outcome; nothing is executed that was not just claimed, nothing completed that was not just
   * executed, and no claim comes before the completion of the one before.
   */
  lemma WorkerTrace(w: Worker, trace: seq<Event>)
    requires w.Valid() && trace <= w.trace
    ensures forall i :: 0 <= i < |trace| ==> InOrder(trace, i)
  {
    hide Replays, InOrder, Genuine, Chained;
    forall i | 0 <= i < |trace| ensures InOrder(trace, i) {
      ReplaysInOrder(w.polled, w.trace, i);
      InOrderPrefix(w.trace, trace, i);
    }
  }

  /**
   * What the worker has done to the machine is what the claimed commands do, each executed once, in the order of the
   * claims, whether or not their completions were delivered.
   */
  lemma WorkerMachine(w: Worker)
    requires w.Valid()
    ensures MapSeq(OrderOf, Executions(w.trace)) == Orders(w.polled)
    ensures AllGenuine(w.manager.lib, w.manager.cfg, Executions(w.trace)) && Chained(w.start, Executions(w.trace))
    ensures ViewOf(w.manager.machine.Now())
      == ExecuteAll(w.manager.lib, w.manager.cfg, ViewOf(w.start), Executions(w.trace))
  {
    hide Replays, Genuine, Chained, Executions, ExecuteAll, LastImage, AllGenuine;
    ExecutedAsClaimed(w.polled, w.trace);
    ChainedEffect(w.manager.lib, w.manager.cfg, w.start, Executions(w.trace));
  }
}
