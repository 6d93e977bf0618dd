/** The machine the agent runs on, and the store that keeps the peer list on it. */
module Store {
  import opened Prelude
  import opened Device
  import opened Peers
  import opened StateFile
  import opened Filesystem

  /** The machine at one moment. */
  datatype Image = Image(fs: Fs, table: Table)

  /** What the agent can tell of it: the list, the lists a crash may leave, and the device. */
  datatype View = View(current: Option<seq<Peer>>, survivors: set<Option<seq<Peer>>>, table: Table)

  function ViewOf(m: Image): View
  {
    View(Current(m.fs), Survivors(m.fs), m.table)
  }

  /** What Load will make of a list that Save has written. */
  function Reread(peers: seq<Peer>): Option<seq<Peer>>
  {
    DecodeState(EncodeState(peers))
  }

  /** `w` is reached on the way from `v` to storing `peers`, as far as the list is concerned. */
  predicate ListWithin(v: View, peers: seq<Peer>, w: View)
  {
    && (w.current == v.current || w.current == Reread(peers))
    && w.survivors <= v.survivors + {Reread(peers)}
    && w.current in w.survivors
  }

  predicate Extends(earlier: seq<Image>, later: seq<Image>)
  {
    earlier <= later
  }

  /** The moments that were added to a trace. */
  function Added(earlier: seq<Image>, later: seq<Image>): seq<Image>
  {
    if earlier <= later then later[|earlier|..] else later
  }

  /** The state directory and the managed interface; `trace` records every state a crash could cut off at. */
  class Machine {
    var fs: Fs
    var table: Table
    ghost var trace: seq<Image>

    constructor ()
      ensures Sound(fs) && Current(fs) == Some([]) && Survivors(fs) == {Some([])} && table == map[]
    {
      fs := Fs(map[], 0, map[], []);
      table := map[];
      trace := [];
    }

    ghost function Now(): Image
      reads this
    {
      Image(fs, table)
    }

    method CreateTemp(suffixes: seq<string>, fails: bool) returns (r: Option<string>, file: nat)
      modifies this
      ensures table == old(table)
      ensures r.None? ==> fs == old(fs) && trace == old(trace)
      ensures r.Some? ==> (exists s :: s in suffixes && r.value == TempName(s)) && r.value !in old(fs).dir
      ensures r.Some? ==> file == old(fs).next && fs == CreateFile(old(fs), r.value) && trace == old(trace) + [Now()]
      ensures fails ==> r.None?
      ensures r.None? ==> fails || forall s :: s in suffixes ==> TempName(s) in fs.dir
    {
      file := fs.next;
      if fails {
        return None, file;
      }
      for i := 0 to |suffixes|
        invariant fs == old(fs) && table == old(table) && trace == old(trace)
        invariant forall j :: 0 <= j < i ==> TempName(suffixes[j]) in fs.dir
      {
        var name := TempName(suffixes[i]);
        if name !in fs.dir {
          fs := CreateFile(fs, name);
          trace := trace + [Now()];
          return Some(name), file;
        }
      }
      return None, file;
    }

    method Write(file: nat, text: string)
      modifies this
      ensures fs == WriteFile(old(fs), file, text) && table == old(table) && trace == old(trace) + [Now()]
    {
      fs := WriteFile(fs, file, text);
      trace := trace + [Now()];
    }

    method Sync(file: nat)
      requires file in fs.files
      modifies this
      ensures fs == SyncFile(old(fs), file) && table == old(table) && trace == old(trace) + [Now()]
    {
      fs := SyncFile(fs, file);
      trace := trace + [Now()];
    }

    method Replace(from: string, to: string)
      requires from in fs.dir
      modifies this
      ensures fs == Rename(old(fs), from, to) && table == old(table) && trace == old(trace) + [Now()]
    {
      fs := Rename(fs, from, to);
      trace := trace + [Now()];
    }

    method SyncDir()
      modifies this
      ensures fs == SyncDirectory(old(fs)) && table == old(table) && trace == old(trace) + [Now()]
    {
      fs := SyncDirectory(fs);
      trace := trace + [Now()];
    }

    method Remove(name: string)
      modifies this
      ensures fs == RemoveFile(old(fs), name) && table == old(table) && trace == old(trace) + [Now()]
    {
      fs := RemoveFile(fs, name);
      trace := trace + [Now()];
    }

    /** ConfigureDevice with one peer, action by action. */
    method ConfigureDevice(c: PeerConfig, call: Call) returns (ok: bool)
      modifies this
      ensures ok == call.Done?
      ensures fs == old(fs) && table == Configure(old(table), c, call)
      ensures Extends(old(trace), trace)
      ensures forall m :: m in Added(old(trace), trace) ==> m.fs == old(fs) && PartWay(old(table), c, m.table)
    {
      var actions := Actions(c);
      var n := StepsDone(call, |actions|);
      assert Perform(table, c.key, actions[..0]) == table;
      hide Perform, Act, Actions;
      for i := 0 to n
        invariant fs == old(fs) && table == Perform(old(table), c.key, actions[..i])
        invariant Extends(old(trace), trace)
        invariant forall m :: m in Added(old(trace), trace) ==> m.fs == old(fs) && PartWay(old(table), c, m.table)
      {
        table := Act(table, c.key, actions[i]);
        trace := trace + [Now()];
        PerformStep(old(table), c.key, actions, i);
        assert table == Configure(old(table), c, Failed(i + 1));
      }
      ok := call.Done?;
    }
  }

  /** The step of Save that fails, if one does; a failing write may leave any text behind. */
  datatype SaveFault =
    | NoFault
    | CreateFails
    | ChmodFails
    | WriteFails(written: string)
    | SyncFails
    | CloseFails
    | RenameFails
    | OpenDirFails
    | SyncDirFails

  /** How Save ends: nil, an error with the old list in place, or an error with the new one. */
  datatype SaveEnd = Saved | NotReplaced | Replaced

  function AfterSave(v: View, peers: seq<Peer>, end: SaveEnd): View
  {
    match end
    case Saved => View(Reread(peers), {Reread(peers)}, v.table)
    case NotReplaced => v
    case Replaced => View(Reread(peers), v.survivors + {Reread(peers)}, v.table)
  }

  /** All of the agent's dealings with the file system in one Save. */
  datatype SaveInput = SaveInput(suffixes: seq<string>, fault: SaveFault, removeFails: bool)

  /** A name for the temporary file is found. */
  predicate HasName(fs: Fs, input: SaveInput)
  {
    exists s :: s in input.suffixes && TempName(s) !in fs.dir
  }

  /** How Save ends: well if nothing fails, with the new list in place if only the directory was not synced. */
  predicate MayEnd(fs: Fs, input: SaveInput, end: SaveEnd)
  {
    && (end.Saved? <==> HasName(fs, input) && input.fault.NoFault?)
    && (end.Replaced? <==> HasName(fs, input) && (input.fault.OpenDirFails? || input.fault.SyncDirFails?))
  }

  class Store {
    const machine: Machine

    constructor (machine: Machine)
      ensures this.machine == machine
    {
      this.machine := machine;
    }

    method Load(fails: bool) returns (r: Option<seq<Peer>>)
      ensures r == if fails then None else Current(machine.fs)
      ensures !fails && STATE_NAME !in machine.fs.dir ==> r == Some([])
      ensures !fails && STATE_NAME in machine.fs.dir && machine.fs.dir[STATE_NAME] in machine.fs.files ==>
        r == DecodeState(machine.fs.files[machine.fs.dir[STATE_NAME]].text)
    {
      if fails {
        return None;
      }
      if STATE_NAME !in machine.fs.dir {
        return Some([]);
      }
      var file := machine.fs.dir[STATE_NAME];
      if file !in machine.fs.files {
        return None;
      }
      r := DecodeState(machine.fs.files[file].text);
    }

    /** The part of Save up to Close: the new text goes to a file that is not the state file. */
    method FillTemporary(file: nat, text: string, fault: SaveFault) returns (ok: bool)
      requires Sound(machine.fs) && file in machine.fs.files && NotState(machine.fs, file)
      modifies machine
      ensures machine.table == old(machine.table) && machine.fs.dir == old(machine.fs).dir
      ensures SameState(old(machine.fs), machine.fs) && file in machine.fs.files
      ensures ok ==> machine.fs.files[file] == File(text, true)
      ensures forall f :: f in old(machine.fs).files && f != file ==>
        f in machine.fs.files && machine.fs.files[f] == old(machine.fs).files[f]
      ensures ok <==> !(fault.ChmodFails? || fault.WriteFails? || fault.SyncFails? || fault.CloseFails?)
      ensures Extends(old(machine.trace), machine.trace)
      ensures forall m :: m in Added(old(machine.trace), machine.trace) ==>
        m.table == old(machine.table) && SameState(old(machine.fs), m.fs)
    {
      hide Sound, Survivors, Current;
      if fault.ChmodFails? {
        return false;
      }
      var written := if fault.WriteFails? then fault.written else text;
      WriteKeepsState(machine.fs, file, File(written, false));
      machine.Write(file, written);
      if fault.WriteFails? || fault.SyncFails? {
        return false;
      }
      WriteKeepsState(machine.fs, file, File(text, true));
      machine.Sync(file);
      ok := !fault.CloseFails?;
    }

    /** The part of Save from Rename on. */
    method Install(name: string, peers: seq<Peer>, fault: SaveFault) returns (end: SaveEnd)
      requires Sound(machine.fs) && name in machine.fs.dir && name != STATE_NAME
      requires machine.fs.files[machine.fs.dir[name]] == File(EncodeState(peers), true)
      modifies machine
      ensures machine.table == old(machine.table)
      ensures Sound(machine.fs) && ViewOf(machine.Now()) == AfterSave(old(ViewOf(machine.Now())), peers, end)
      ensures end == if fault.RenameFails? then NotReplaced
                     else if fault.OpenDirFails? || fault.SyncDirFails? then Replaced else Saved
      ensures forall other :: other in old(machine.fs).dir && other != name && other != STATE_NAME ==>
        other in machine.fs.dir && machine.fs.dir[other] == old(machine.fs).dir[other]
      ensures forall other :: other in machine.fs.dir ==> other in old(machine.fs).dir || other == STATE_NAME
      ensures !end.NotReplaced? ==> name !in machine.fs.dir && STATE_NAME in machine.fs.dir
      ensures !end.NotReplaced? ==> machine.fs.dir[STATE_NAME] == old(machine.fs).dir[name]
      ensures machine.fs.files == old(machine.fs).files
      ensures Extends(old(machine.trace), machine.trace)
      ensures forall m :: m in Added(old(machine.trace), machine.trace) ==>
        m.table == old(machine.table) && Sound(m.fs) && ListWithin(old(ViewOf(machine.Now())), peers, ViewOf(m))
    {
      hide DecodeState, EncodeState;
      if fault.RenameFails? {
        return NotReplaced;
      }
      RenameReplacesState(machine.fs, name);
      machine.Replace(name, STATE_NAME);
      if fault.OpenDirFails? || fault.SyncDirFails? {
        return Replaced;
      }
      SyncSettlesState(machine.fs);
      machine.SyncDir();
      end := Saved;
    }

    /** The part of Save behind CreateTemp, the removal of the temporary file included. */
    method Complete(name: string, file: nat, peers: seq<Peer>, input: SaveInput) returns (end: SaveEnd)
      requires Sound(machine.fs) && name in machine.fs.dir && machine.fs.dir[name] == file && name != STATE_NAME
      requires file in machine.fs.files && NotState(machine.fs, file) && !input.fault.CreateFails?
      modifies machine
      ensures Sound(machine.fs) && machine.table == old(machine.table)
      ensures ViewOf(machine.Now()) == AfterSave(old(ViewOf(machine.Now())), peers, end)
      ensures end == match input.fault
        case OpenDirFails => Replaced
        case SyncDirFails => Replaced
        case NoFault => Saved
        case _ => NotReplaced
      ensures Extends(old(machine.trace), machine.trace)
      ensures forall m :: m in Added(old(machine.trace), machine.trace) ==>
        m.table == old(machine.table) && Sound(m.fs) && ListWithin(old(ViewOf(machine.Now())), peers, ViewOf(m))
      ensures !end.NotReplaced? ==>
        && STATE_NAME in machine.fs.dir && machine.fs.dir[STATE_NAME] in machine.fs.files
        && machine.fs.files[machine.fs.dir[STATE_NAME]] == File(EncodeState(peers), true)
      ensures forall other :: other in old(machine.fs).dir && other != name && other != STATE_NAME ==>
        other in machine.fs.dir && machine.fs.dir[other] == old(machine.fs).dir[other]
      ensures forall f :: f in old(machine.fs).files && f != file ==>
        f in machine.fs.files && machine.fs.files[f] == old(machine.fs).files[f]
      ensures forall other :: other in machine.fs.dir ==>
        || other == STATE_NAME
        || (other in old(machine.fs).dir && (other != name || (end.NotReplaced? && input.removeFails)))
    {
      hide Sound, Survivors, Current, DecodeState, EncodeState;
      CurrentSurvives(machine.fs);
      end := NotReplaced;
      var ok := FillTemporary(file, EncodeState(peers), input.fault);
      if ok {
        end := Install(name, peers, input.fault);
      }
      if !input.removeFails {
        RemoveKeepsState(machine.fs, name);
        machine.Remove(name);
      }
    }

    /**
     * Save never mixes lists: at every step a crash leaves a list that could have been read before or the new
     * one. Success leaves only the new one; an error leaves the old one in place unless the rename was done. However it
     * ends, it leaves no other file behind, unless it fails and its temporary file cannot be removed.
     */
    method Save(peers: seq<Peer>, input: SaveInput) returns (end: SaveEnd)
      requires Sound(machine.fs)
      modifies machine
      ensures Sound(machine.fs) && machine.table == old(machine.table)
      ensures ViewOf(machine.Now()) == AfterSave(old(ViewOf(machine.Now())), peers, end)
      ensures MayEnd(old(machine.fs), input, end)
      ensures Extends(old(machine.trace), machine.trace)
      ensures forall m :: m in Added(old(machine.trace), machine.trace) ==>
        m.table == old(machine.table) && Sound(m.fs) && ListWithin(old(ViewOf(machine.Now())), peers, ViewOf(m))
      ensures !end.NotReplaced? ==>
        && STATE_NAME in machine.fs.dir && machine.fs.dir[STATE_NAME] in machine.fs.files
        && machine.fs.files[machine.fs.dir[STATE_NAME]] == File(EncodeState(peers), true)
      ensures forall name :: name in old(machine.fs).dir && name != STATE_NAME ==>
        name in machine.fs.dir && machine.fs.dir[name] == old(machine.fs).dir[name]
      ensures forall f :: f in old(machine.fs).files ==>
        f in machine.fs.files && machine.fs.files[f] == old(machine.fs).files[f]
      ensures forall name :: name in machine.fs.dir ==>
        || name in old(machine.fs).dir || name == STATE_NAME
        || (end.NotReplaced? && input.removeFails && exists s :: s in input.suffixes && name == TempName(s))
    {
      hide Sound, Survivors, Current, DecodeState, EncodeState, TempName;
      ghost var before := machine.Now();
      CurrentSurvives(before.fs);
      var temporary, file := machine.CreateTemp(input.suffixes, input.fault.CreateFails?);
      if temporary.None? {
        return NotReplaced;
      }
      var name := temporary.value;
      assert name != STATE_NAME by {
        var s :| s in input.suffixes && name == TempName(s);
        TempIsNotState(s);
      }
      NextIsNew(before.fs);
      CreateKeepsState(before.fs, name);
      end := Complete(name, file, peers, input);
    }
  }
}
