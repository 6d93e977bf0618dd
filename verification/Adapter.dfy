/** The AmneziaWG adapter: device configurations as `awg set` commands, one per peer. */
module Adapter {
  import opened Prelude
  import opened Text
  import opened Ipv4
  import opened Keys
  import opened Device
  import opened Peers
  import opened Views
  import opened Protocol
  import opened Dump

  /** A peer of a wgctrl configuration; the keepalive is in nanoseconds. */
  datatype Setting = Setting(config: PeerConfig, keepalive: Option<int>)

  /** What a command tells the interface; its keepalive is in seconds. */
  datatype Told = Told(config: PeerConfig, seconds: Option<nat>)

  const MAX_KEEPALIVE := 65535

  // ---- what a command line means ----

  function ReadAllowed(r: Reader, s: string): Option<seq<Prefix>>
  {
    if s == "" then Some([]) else ParseNetworks(r.v6, Split(s, ','))
  }

  function ReadSeconds(s: string): Option<nat>
  {
    if s == "off" then Some(0)
    else
      match ParseInt64(s)
      case None => None
      case Some(n) => if 0 <= n <= MAX_KEEPALIVE then Some(n) else None
  }

  /** The options behind `set <interface> peer <key>`, from left to right. */
  function Options(r: Reader, files: map<string, string>, options: seq<string>, t: Told): Option<Told>
    decreases |options|
  {
    if options == [] then Some(t)
    else if options[0] == "remove" then Options(r, files, options[1..], Told(t.config.(remove := true), t.seconds))
    else if |options| < 2 then None
    else if options[0] == "preshared-key" then
      if options[1] !in files then None
      else
        match ParseKey(TrimSpace(files[options[1]]))
        case None => None
        case Some(psk) => Options(r, files, options[2..], Told(t.config.(psk := Some(psk)), t.seconds))
    else if options[0] == "allowed-ips" then
      match ReadAllowed(r, options[1])
      case None => None
      case Some(allowed) =>
        Options(r, files, options[2..], Told(t.config.(replace := true, allowed := allowed), t.seconds))
    else if options[0] == "persistent-keepalive" then
      match ReadSeconds(options[1])
      case None => None
      case Some(n) => Options(r, files, options[2..], Told(t.config, Some(n)))
    else None
  }

  function Interpret(r: Reader, files: map<string, string>, args: seq<string>): Option<Told>
  {
    if |args| < 4 || args[0] != "set" || args[2] != "peer" then None
    else
      match ParseKey(args[3])
      case None => None
      case Some(key) => Options(r, files, args[4..], Told(PeerConfig(key, false, None, false, []), None))
  }

  // ---- what the adapter sends ----

  function AllowedArg(allowed: seq<Prefix>): string
  {
    Join(MapSeq(PrintPrefix, allowed), ",")
  }

  function KeyFile(psk: Key): string
  {
    PrintKey(psk) + "\n"
  }

  /** The options of a peer that is not removed; `file` holds its preshared key. */
  function KeyArgs(c: PeerConfig, file: string): seq<string>
  {
    if c.psk.Some? then ["preshared-key", file] else []
  }

  function NetworkArgs(c: PeerConfig): seq<string>
  {
    if c.replace then ["allowed-ips", AllowedArg(c.allowed)] else []
  }

  function KeepaliveArgs(keepalive: Option<int>): seq<string>
  {
    if keepalive.Some? then ["persistent-keepalive", FormatInt(Seconds(keepalive.value))] else []
  }

  /** The arguments for one peer. */
  function Args(name: string, s: Setting, file: string): seq<string>
  {
    ["set", name, "peer", PrintKey(s.config.key)]
    + if s.config.remove then ["remove"]
      else KeyArgs(s.config, file) + (NetworkArgs(s.config) + KeepaliveArgs(s.keepalive))
  }

  /** The tool takes 0 to 65535 seconds. */
  predicate InRange(keepalive: Option<int>)
  {
    keepalive.Some? ==> 0 <= Seconds(keepalive.value) <= MAX_KEEPALIVE
  }

  /**
   * What the tool makes of it, if it accepts it. The adapter has no option that adds networks, so it sends none unless
   * they replace the old ones.
   */
  function Sent(s: Setting): Option<Told>
  {
    var c := s.config;
    if c.remove then Some(Told(PeerConfig(c.key, true, None, false, []), None))
    else if !InRange(s.keepalive) then None
    else Some(Told(c.(allowed := if c.replace then c.allowed else []),
      if s.keepalive.Some? then Some(Seconds(s.keepalive.value)) else None))
  }

  lemma AllowedArgRead(r: Reader, allowed: seq<Prefix>)
    requires forall i :: 0 <= i < |allowed| ==> PrintablePrefix(r, allowed[i])
    ensures ReadAllowed(r, AllowedArg(allowed)) == Some(allowed)
  {
    hide PrintablePrefix, PrintPrefix, Split, ParseNetworks;
    if allowed == [] {
      assert Join(MapSeq(PrintPrefix, allowed), ",") == "";
    } else {
      JoinedPrefixes(r, allowed);
      PrefixesRead(r, allowed);
      NotOneNetwork(r);
    }
  }

  lemma KeyTrimmed(k: Key)
    ensures Trimmed(PrintKey(k))
  {
    KeyField(k);
    assert PrintKey(k)[43] == '=';
  }

  lemma KeyFileRead(psk: Key)
    ensures ParseKey(TrimSpace(KeyFile(psk))) == Some(psk)
  {
    KeyField(psk);
    KeyTrimmed(psk);
    hide ParseKey, PrintKey, IsSpace, TrimSpace;
    TrimLine(PrintKey(psk));
  }

  lemma KeepaliveOption(r: Reader, files: map<string, string>, t: Told, keepalive: Option<int>)
    requires keepalive.Some? ==> Int64(keepalive.value)
    ensures Options(r, files, KeepaliveArgs(keepalive), t) ==
      if !InRange(keepalive) then None
      else Some(Told(t.config, if keepalive.Some? then Some(Seconds(keepalive.value)) else t.seconds))
  {
    if keepalive.Some? {
      var n := Seconds(keepalive.value);
      assert Int64(n);
      NumberField(n);
      NotWord(n);
      hide ParseInt64, FormatInt, ReadAllowed, ParseKey, TrimSpace;
      assert ["persistent-keepalive", FormatInt(n)][2..] == [];
    }
  }

  lemma NetworkOption(r: Reader, files: map<string, string>, t: Told, c: PeerConfig, rest: seq<string>)
    requires forall i :: 0 <= i < |c.allowed| ==> PrintablePrefix(r, c.allowed[i])
    ensures Options(r, files, NetworkArgs(c) + rest, t) == Options(r, files, rest,
      if c.replace then Told(t.config.(replace := true, allowed := c.allowed), t.seconds) else t)
  {
    if c.replace {
      AllowedArgRead(r, c.allowed);
      hide ReadAllowed, AllowedArg, ReadSeconds, ParseKey, TrimSpace;
      assert (NetworkArgs(c) + rest)[2..] == rest;
    } else {
      assert [] + rest == rest;
    }
  }

  lemma KeyOption(r: Reader, files: map<string, string>, t: Told, c: PeerConfig, file: string, rest: seq<string>)
    requires c.psk.Some? ==> file in files && files[file] == KeyFile(c.psk.value)
    ensures Options(r, files, KeyArgs(c, file) + rest, t) == Options(r, files, rest,
      if c.psk.Some? then Told(t.config.(psk := c.psk), t.seconds) else t)
  {
    if c.psk.Some? {
      KeyFileRead(c.psk.value);
      hide ParseKey, TrimSpace, KeyFile, ReadAllowed, ReadSeconds;
      assert (["preshared-key", file] + rest)[2..] == rest;
    } else {
      assert [] + rest == rest;
    }
  }

  lemma RemoveOption(r: Reader, files: map<string, string>, t: Told)
    ensures Options(r, files, ["remove"], t) == Some(Told(t.config.(remove := true), t.seconds))
  {
    assert ["remove"][1..] == [];
  }

  /** The networks can be printed, and the keepalive is a duration. */
  predicate Sendable(r: Reader, s: Setting)
  {
    && (forall i :: 0 <= i < |s.config.allowed| ==> PrintablePrefix(r, s.config.allowed[i]))
    && (s.keepalive.Some? ==> Int64(s.keepalive.value))
  }

  lemma SetOptions(r: Reader, files: map<string, string>, s: Setting, file: string)
    requires !s.config.remove && Sendable(r, s)
    requires s.config.psk.Some? ==> file in files && files[file] == KeyFile(s.config.psk.value)
    ensures Options(r, files, KeyArgs(s.config, file) + (NetworkArgs(s.config) + KeepaliveArgs(s.keepalive)),
      Told(PeerConfig(s.config.key, false, None, false, []), None)) == Sent(s)
  {
    hide KeyArgs, NetworkArgs, KeepaliveArgs, KeyFile, Options, InRange, PrintablePrefix;
    var c, base := s.config, Told(PeerConfig(s.config.key, false, None, false, []), None);
    var rest := KeepaliveArgs(s.keepalive);
    var keyed := if c.psk.Some? then Told(base.config.(psk := c.psk), None) else base;
    var routed := if c.replace then Told(keyed.config.(replace := true, allowed := c.allowed), None) else keyed;
    KeyOption(r, files, base, c, file, NetworkArgs(c) + rest);
    NetworkOption(r, files, keyed, c, rest);
    KeepaliveOption(r, files, routed, s.keepalive);
  }

  predicate NeedsFile(s: Setting)
  {
    !s.config.remove && s.config.psk.Some?
  }

  /** The command line for a peer means what the adapter is to send for it, or is refused for its keepalive. */
  lemma ArgsMean(r: Reader, files: map<string, string>, name: string, s: Setting, file: string)
    requires Sendable(r, s)
    requires NeedsFile(s) ==> file in files && files[file] == KeyFile(s.config.psk.value)
    ensures Interpret(r, files, Args(name, s, file)) == Sent(s)
  {
    hide ParseKey, PrintKey, KeyArgs, NetworkArgs, KeepaliveArgs, KeyFile, Options, PrintablePrefix;
    KeyField(s.config.key);
    var args := Args(name, s, file);
    if s.config.remove {
      assert args[4..] == ["remove"];
      RemoveOption(r, files, Told(PeerConfig(s.config.key, false, None, false, []), None));
    } else {
      assert args[4..] == KeyArgs(s.config, file) + (NetworkArgs(s.config) + KeepaliveArgs(s.keepalive));
      SetOptions(r, files, s, file);
    }
  }

  /** The commands as they are typed, for a removal and for a peer with all options. */
  lemma TypedCommands(name: string, key: Key, psk: Key, allowed: seq<Prefix>, keepalive: int, file: string)
    ensures Args(name, Setting(PeerConfig(key, true, None, false, []), None), file)
      == ["set", name, "peer", PrintKey(key), "remove"]
    ensures Args(name, Setting(PeerConfig(key, false, Some(psk), true, allowed), Some(keepalive)), file)
      == ["set", name, "peer", PrintKey(key), "preshared-key", file,
          "allowed-ips", Join(MapSeq(PrintPrefix, allowed), ","),
          "persistent-keepalive", FormatInt(Seconds(keepalive))]
  {
    hide PrintKey, FormatInt, Join, PrintPrefix;
  }

  /**
   * The command does what the configuration asks of keys and networks if and only if that does not add networks to
   * those there are, and the keepalive, if one is set, is in the tool's range.
   */
  lemma SentIsAsked(s: Setting)
    requires s.config.remove ==> s.config.psk.None? && !s.config.replace && s.config.allowed == []
    ensures (Sent(s).Some? && Sent(s).value.config == s.config) <==>
      s.config.remove || ((s.config.replace || s.config.allowed == []) && InRange(s.keepalive))
    ensures Sent(s).Some? && !s.config.remove ==>
      Sent(s).value.seconds == if s.keepalive.Some? then Some(Seconds(s.keepalive.value)) else None
  {
  }

  /** Every configuration of the manager is sent as it is. */
  lemma ManagerConfigsAreSent(p: Peer)
    ensures Sent(Setting(ConfigFor(p), None)) == Some(Told(ConfigFor(p), None))
    ensures Sent(Setting(RemovalFor(p), None)) == Some(Told(RemovalFor(p), None))
    ensures forall r: Reader :: Sendable(r, Setting(ConfigFor(p), None)) && Sendable(r, Setting(RemovalFor(p), None))
  {
    hide KeyOf, PskOf, QuadOf;
  }

  // ---- the interface ----

  datatype Interface = Interface(table: Table, keepalives: map<Key, nat>)

  /** The keepalive is set last, and goes when the peer does. */
  function Obey(i: Interface, t: Told, call: Call): Interface
  {
    var table := Configure(i.table, t.config, call);
    var kept := map k | k in i.keepalives && k in table :: i.keepalives[k];
    Interface(table, if call.Done? && t.seconds.Some? then kept[t.config.key := t.seconds.value] else kept)
  }

  /** The interface after the first `n` peers were configured as the adapter sends them. */
  function ObeyFirst(i: Interface, settings: seq<Setting>, n: nat): Interface
    requires n <= |settings|
  {
    if n == 0 then i
    else
      var before := ObeyFirst(i, settings, n - 1);
      match Sent(settings[n - 1]) case None => before case Some(t) => Obey(before, t, Done)
  }

  /** The device after the first `n` peers of a wgctrl configuration. */
  function ConfigureFirst(t: Table, settings: seq<Setting>, n: nat): Table
    requires n <= |settings|
  {
    if n == 0 then t else Configure(ConfigureFirst(t, settings, n - 1), settings[n - 1].config, Done)
  }

  /** On configurations that are sent as they are, the adapter does peer by peer what wgctrl does. */
  lemma {:induction false} AdapterRefines(i: Interface, settings: seq<Setting>, n: nat)
    requires n <= |settings|
    requires forall j :: 0 <= j < n ==> Sent(settings[j]).Some? && Sent(settings[j]).value.config == settings[j].config
    ensures ObeyFirst(i, settings, n).table == ConfigureFirst(i.table, settings, n)
    decreases n
  {
    hide Sent, Configure;
    if n > 0 {
      AdapterRefines(i, settings, n - 1);
    }
  }

  // ---- the adapter at work ----

  /** The tool with its interface, and the temporary directory; `commands` are the argument lists that were run. */
  class Tool {
    const reader: Reader
    var interface: Interface
    var files: map<string, string>
    ghost var commands: seq<seq<string>>

    constructor (reader: Reader, interface: Interface)
      ensures this.reader == reader && this.interface == interface && files == map[] && commands == []
    {
      this.reader, this.interface, this.files, this.commands := reader, interface, map[], [];
    }

    method Run(args: seq<string>, call: Call) returns (ok: bool)
      modifies this
      ensures files == old(files) && commands == old(commands) + [args]
      ensures match Interpret(reader, files, args)
        case None => !ok && interface == old(interface)
        case Some(t) => ok == call.Done? && interface == Obey(old(interface), t, call)
    {
      hide Interpret, Obey;
      var t := Interpret(reader, files, args);
      commands := commands + [args];
      if t.None? {
        return false;
      }
      interface := Obey(interface, t.value, call);
      ok := call.Done?;
    }

    method WriteFile(name: string, text: string)
      modifies this`files
      ensures files == old(files)[name := text]
    {
      files := files[name := text];
    }

    method RemoveFile(name: string, fails: bool)
      modifies this`files
      ensures files == if fails then old(files) else old(files) - {name}
    {
      if !fails {
        files := files - {name};
      }
    }
  }

  /**
   * What happens around one command: the new file's name, what fails while it is written, whether it can be removed,
   * and how the command ends.
   */
  datatype Step = Step(
    file: Option<string>,
    protectFails: bool,
    written: Option<string>,
    closeFails: bool,
    removeFails: bool,
    call: Call)

  /** The key file of the step can be made. */
  predicate Writes(step: Step)
  {
    step.file.Some? && !step.protectFails && step.written.None? && !step.closeFails
  }

  /** How one peer ends: its file cannot be made, the tool refuses the command or does not finish it, or all is done. */
  datatype End = NoFile | Refused | Unfinished | Configured

  function EndOf(s: Setting, step: Step): End
  {
    if NeedsFile(s) && !Writes(step) then NoFile
    else if Sent(s).None? then Refused
    else if step.call.Failed? then Unfinished
    else Configured
  }

  /** The command for this peer is accepted and finished, and the key it refers to was written out. */
  predicate SentWhole(s: Setting, step: Step)
  {
    && Sent(s).Some? && step.call.Done?
    && (!s.config.remove && s.config.psk.Some? ==>
          step.file.Some? && !step.protectFails && step.written.None? && !step.closeFails)
  }

  lemma EndIsExact(s: Setting, step: Step)
    ensures EndOf(s, step).Configured? <==> SentWhole(s, step)
  {
    hide Sent;
  }

  /** What has become of the interface by then. */
  function After(i: Interface, s: Setting, step: Step): Interface
  {
    if EndOf(s, step).NoFile? || Sent(s).None? then i else Obey(i, Sent(s).value, step.call)
  }

  function FileName(step: Step): string
  {
    if step.file.Some? then step.file.value else ""
  }

  /** The argument lists, one for each peer. */
  function Commands(name: string, settings: seq<Setting>, steps: seq<Step>): (r: seq<seq<string>>)
    requires |steps| == |settings|
    ensures |r| == |settings|
  {
    seq(|settings|, i requires 0 <= i < |settings| => Args(name, settings[i], FileName(steps[i])))
  }

  /**
   * Nothing is new in the directory but files of the first `n` steps that are still `pending` or could not be
   * removed.
   */
  predicate OnlyLeft(before: map<string, string>, after: map<string, string>, steps: seq<Step>, n: nat,
    pending: seq<Step>)
  {
    && n <= |steps|
    && (forall f :: f in before ==> f in after && after[f] == before[f])
    && (forall f :: f in after && f !in before ==>
          exists j :: 0 <= j < n && steps[j].file == Some(f) && (steps[j].removeFails || steps[j] in pending))
  }

  lemma LeftBehind(before: map<string, string>, after: map<string, string>, steps: seq<Step>, n: nat)
    requires OnlyLeft(before, after, steps, n, [])
    ensures forall f :: f in before ==> f in after && after[f] == before[f]
    ensures forall f :: f in after && f !in before ==>
      exists j :: 0 <= j < |steps| && steps[j].file == Some(f) && steps[j].removeFails
  {
  }

  /** The files of the steps are new, each its own. */
  predicate NewFiles(files: map<string, string>, steps: seq<Step>)
  {
    && (forall i :: 0 <= i < |steps| && steps[i].file.Some? ==> steps[i].file.value !in files)
    && (forall i, j :: 0 <= i < j < |steps| && steps[i].file.Some? ==> steps[j].file != steps[i].file)
  }

  lemma StillNew(before: map<string, string>, after: map<string, string>, steps: seq<Step>, n: nat, pending: seq<Step>)
    requires NewFiles(before, steps) && OnlyLeft(before, after, steps, n, pending) && n < |steps| && steps[n].file.Some?
    ensures steps[n].file.value !in after
  {
  }

  lemma FileAdded(before: map<string, string>, after: map<string, string>, steps: seq<Step>, n: nat, pending: seq<Step>,
    now: map<string, string>)
    requires NewFiles(before, steps) && OnlyLeft(before, after, steps, n, pending) && n < |steps| && steps[n].file.Some?
    requires forall f :: f != steps[n].file.value ==> (f in now <==> f in after) && (f in after ==> now[f] == after[f])
    ensures OnlyLeft(before, now, steps, n + 1, pending + [steps[n]])
    ensures steps[n].removeFails || steps[n].file.value !in now ==> OnlyLeft(before, now, steps, n + 1, pending)
  {
    forall f | f in now && f !in before
      ensures exists j :: 0 <= j < n + 1 && steps[j].file == Some(f)
                && (steps[j].removeFails || steps[j] in pending + [steps[n]])
      ensures steps[n].removeFails || steps[n].file.value !in now ==>
        exists j :: 0 <= j < n + 1 && steps[j].file == Some(f) && (steps[j].removeFails || steps[j] in pending)
    {
      if f == steps[n].file.value {
        assert steps[n].file == Some(f);
      } else {
        var j :| 0 <= j < n && steps[j].file == Some(f) && (steps[j].removeFails || steps[j] in pending);
      }
    }
  }

  lemma NoFileAdded(before: map<string, string>, after: map<string, string>, steps: seq<Step>, n: nat,
    pending: seq<Step>)
    requires OnlyLeft(before, after, steps, n, pending) && n < |steps|
    ensures OnlyLeft(before, after, steps, n + 1, pending)
  {
  }

  lemma FileRemoved(before: map<string, string>, after: map<string, string>, steps: seq<Step>, n: nat,
    pending: seq<Step>, now: map<string, string>)
    requires NewFiles(before, steps) && OnlyLeft(before, after, steps, n, pending) && pending != []
    requires pending[0] in steps && pending[0].file.Some?
    requires now == if pending[0].removeFails then after else after - {pending[0].file.value}
    ensures OnlyLeft(before, now, steps, n, pending[1..])
  {
    forall f | f in now && f !in before
      ensures exists j :: 0 <= j < n && steps[j].file == Some(f) && (steps[j].removeFails || steps[j] in pending[1..])
    {
      var j :| 0 <= j < n && steps[j].file == Some(f) && (steps[j].removeFails || steps[j] in pending);
      if steps[j] == pending[0] {
        assert steps[j].removeFails;
      }
    }
  }

  lemma NothingLeft(files: map<string, string>, steps: seq<Step>)
    ensures OnlyLeft(files, files, steps, 0, [])
  {
  }

  /** What a turn of the loop leaves in the directory. */
  lemma FilesAfter(before: map<string, string>, after: map<string, string>, steps: seq<Step>, n: nat,
    pending: seq<Step>, now: map<string, string>)
    requires NewFiles(before, steps) && OnlyLeft(before, after, steps, n, pending) && n < |steps|
    requires steps[n].file.None? ==> now == after
    requires steps[n].file.Some? ==> now - {steps[n].file.value} == after
    ensures OnlyLeft(before, now, steps, n + 1, pending + [steps[n]]) || steps[n].file.None?
    ensures steps[n].file.None? || steps[n].removeFails || steps[n].file.value !in now ==>
      OnlyLeft(before, now, steps, n + 1, pending)
  {
    if steps[n].file.Some? {
      hide NewFiles, OnlyLeft;
      FileAdded(before, after, steps, n, pending, now);
    } else {
      NoFileAdded(before, after, steps, n, pending);
    }
  }

  /** A peer that is configured takes the interface one step on. */
  lemma AllSent(i: Interface, settings: seq<Setting>, steps: seq<Step>, n: nat)
    requires |steps| == |settings| && n < |settings| && EndOf(settings[n], steps[n]).Configured?
    ensures After(ObeyFirst(i, settings, n), settings[n], steps[n]) == ObeyFirst(i, settings, n + 1)
  {
    hide Sent, Obey;
  }

  datatype Outcome = Finished | NameMissing | Stopped(peer: nat)

  class Client {
    const tool: Tool

    constructor (tool: Tool)
      ensures this.tool == tool
    {
      this.tool := tool;
    }

    /**
     * The temporary file with a preshared key; None if it cannot be made, and then it is removed again if it can be.
     */
    method KeyToFile(psk: Key, step: Step) returns (file: Option<string>)
      requires step.file.Some? ==> step.file.value !in tool.files
      modifies tool`files
      ensures file.Some? <==> Writes(step)
      ensures file.Some? ==> file == step.file && tool.files == old(tool.files)[file.value := KeyFile(psk)]
      ensures file.None? && (step.file.None? || !step.removeFails) ==> tool.files == old(tool.files)
      ensures step.file.Some? ==> tool.files - {step.file.value} == old(tool.files)
    {
      hide KeyFile;
      if step.file.None? {
        return None;
      }
      tool.WriteFile(step.file.value, "");
      if !step.protectFails {
        tool.WriteFile(step.file.value, if step.written.Some? then step.written.value else KeyFile(psk));
      }
      if step.protectFails || step.written.Some? || step.closeFails {
        tool.RemoveFile(step.file.value, step.removeFails);
        return None;
      }
      return step.file;
    }

    /** The deferred removals. */
    method RemoveFiles(ghost before: map<string, string>, ghost steps: seq<Step>, ghost n: nat, made: seq<Step>)
      requires NewFiles(before, steps) && OnlyLeft(before, tool.files, steps, n, made)
      requires forall m :: m in made ==> m in steps && m.file.Some?
      modifies tool`files
      ensures OnlyLeft(before, tool.files, steps, n, [])
    {
      hide NewFiles, OnlyLeft;
      assert made[0..] == made;
      for i := 0 to |made|
        invariant OnlyLeft(before, tool.files, steps, n, made[i..])
      {
        ghost var files := tool.files;
        assert made[i..][0] == made[i] && made[i..][1..] == made[i + 1..];
        tool.RemoveFile(made[i].file.value, made[i].removeFails);
        FileRemoved(before, files, steps, n, made[i..], tool.files);
      }
      assert made[|made|..] == [];
    }

    /** One turn of the loop: the command for one peer. If `made`, its key file is to be removed at the end. */
    method ConfigureOne(name: string, s: Setting, step: Step) returns (ok: bool, made: bool)
      requires Sendable(tool.reader, s) && (step.file.Some? ==> step.file.value !in tool.files)
      modifies tool
      ensures ok <==> EndOf(s, step).Configured?
      ensures tool.interface == After(old(tool.interface), s, step)
      ensures tool.commands == old(tool.commands)
        + if EndOf(s, step).NoFile? then [] else [Args(name, s, FileName(step))]
      ensures step.file.Some? ==> tool.files - {step.file.value} == old(tool.files)
      ensures step.file.None? ==> tool.files == old(tool.files)
      ensures made ==> step.file.Some?
      ensures !made && step.file.Some? ==> step.removeFails || step.file.value !in tool.files
    {
      hide Args, Interpret, Sent, Obey, Sendable, KeyFile;
      made := false;
      if !s.config.remove && s.config.psk.Some? {
        var file := KeyToFile(s.config.psk.value, step);
        if file.None? {
          return false, false;
        }
        made := true;
      }
      ArgsMean(tool.reader, tool.files, name, s, FileName(step));
      ok := tool.Run(Args(name, s, FileName(step)), step.call);
    }

    /**
     * ConfigureDevice: the peers before the first that does not end well are configured in full, it itself as far as it
     * got, those behind it not at all. No file with a key is left behind unless its removal fails, however the call
     * ends.
     */
    method ConfigureDevice(name: string, settings: seq<Setting>, steps: seq<Step>) returns (outcome: Outcome)
      requires |steps| == |settings| && NewFiles(tool.files, steps)
      requires forall i :: 0 <= i < |settings| ==> Sendable(tool.reader, settings[i])
      modifies tool
      ensures outcome.NameMissing? <==> TrimSpace(name) == ""
      ensures match outcome
        case NameMissing =>
          tool.interface == old(tool.interface) && tool.commands == old(tool.commands) && tool.files == old(tool.files)
        case Finished =>
          && (forall i :: 0 <= i < |steps| ==> EndOf(settings[i], steps[i]).Configured?)
          && tool.interface == ObeyFirst(old(tool.interface), settings, |settings|)
          && tool.commands == old(tool.commands) + Commands(name, settings, steps)
        case Stopped(n) =>
          && n < |steps| && !EndOf(settings[n], steps[n]).Configured?
          && (forall i :: 0 <= i < n ==> EndOf(settings[i], steps[i]).Configured?)
          && tool.interface == After(ObeyFirst(old(tool.interface), settings, n), settings[n], steps[n])
          && tool.commands == old(tool.commands)
               + Commands(name, settings, steps)[..if EndOf(settings[n], steps[n]).NoFile? then n else n + 1]
      ensures outcome.Finished? <==>
        TrimSpace(name) != "" && forall i :: 0 <= i < |settings| ==> SentWhole(settings[i], steps[i])
      ensures exists n :: OnlyLeft(old(tool.files), tool.files, steps, n, [])
      ensures forall f :: f in old(tool.files) ==> f in tool.files && tool.files[f] == old(tool.files)[f]
      ensures forall f :: f in tool.files && f !in old(tool.files) ==>
        exists j :: 0 <= j < |steps| && steps[j].file == Some(f) && steps[j].removeFails
    {
      hide Args, Sent, Obey, Sendable, EndOf, NewFiles, OnlyLeft, TrimSpace, After, SentWhole;
      ghost var files := tool.files;
      forall i | 0 <= i < |settings|
        ensures EndOf(settings[i], steps[i]).Configured? <==> SentWhole(settings[i], steps[i])
      {
        EndIsExact(settings[i], steps[i]);
      }
      NothingLeft(files, steps);
      if TrimSpace(name) == "" {
        return NameMissing;
      }
      var made: seq<Step> := [];
      for i := 0 to |settings|
        invariant forall j :: 0 <= j < i ==> EndOf(settings[j], steps[j]).Configured?
        invariant tool.interface == ObeyFirst(old(tool.interface), settings, i)
        invariant tool.commands == old(tool.commands) + Commands(name, settings, steps)[..i]
        invariant OnlyLeft(files, tool.files, steps, i, made)
        invariant forall m :: m in made ==> m in steps && m.file.Some?
      {
        ghost var before := tool.files;
        if steps[i].file.Some? {
          StillNew(files, before, steps, i, made);
        }
        var ok, isMade := ConfigureOne(name, settings[i], steps[i]);
        FilesAfter(files, before, steps, i, made, tool.files);
        if isMade {
          made := made + [steps[i]];
        }
        if !ok {
          RemoveFiles(files, steps, i + 1, made);
          LeftBehind(files, tool.files, steps, i + 1);
          return Stopped(i);
        }
        AllSent(old(tool.interface), settings, steps, i);
      }
      RemoveFiles(files, steps, |settings|, made);
      LeftBehind(files, tool.files, steps, |settings|);
      return Finished;
    }
  }
}
