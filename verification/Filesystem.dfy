/**
 * The state directory under crashes. Contents that were not synced may be lost or torn, and an entry that
 * changed since the directory was last synced may come back as any of the values it had since then, each
 * entry for itself (POSIX.1-2017, rename and fsync).
 */
module Filesystem {
  import opened Prelude
  import opened Peers
  import opened StateFile

  const STATE_NAME := "peers.json"

  type Directory = map<string, nat>

  datatype File = File(text: string, synced: bool)

  /** `pending` holds the directories since the last directory sync, without the current one. */
  datatype Fs = Fs(files: map<nat, File>, next: nat, dir: Directory, pending: seq<Directory>)

  /** os.CreateTemp(dir, ".peers-*.tmp") */
  function TempName(suffix: string): string
  {
    ".peers-" + suffix + ".tmp"
  }

  lemma TempIsNotState(suffix: string)
    ensures TempName(suffix) != STATE_NAME
  {
    assert TempName(suffix)[0] != STATE_NAME[0];
  }

  // ---- single steps ----

  function CreateFile(fs: Fs, name: string): Fs
  {
    Fs(fs.files[fs.next := File("", false)], fs.next + 1, fs.dir[name := fs.next], fs.pending + [fs.dir])
  }

  function WriteFile(fs: Fs, file: nat, text: string): Fs
  {
    fs.(files := fs.files[file := File(text, false)])
  }

  function SyncFile(fs: Fs, file: nat): Fs
    requires file in fs.files
  {
    fs.(files := fs.files[file := File(fs.files[file].text, true)])
  }

  function Rename(fs: Fs, from: string, to: string): Fs
    requires from in fs.dir
  {
    fs.(dir := (fs.dir - {from})[to := fs.dir[from]], pending := fs.pending + [fs.dir])
  }

  function RemoveFile(fs: Fs, name: string): Fs
  {
    if name in fs.dir then fs.(dir := fs.dir - {name}, pending := fs.pending + [fs.dir]) else fs
  }

  function SyncDirectory(fs: Fs): Fs
  {
    fs.(pending := [])
  }

  // ---- what a reader finds ----

  function Images(fs: Fs): (r: seq<Directory>)
    ensures fs.dir in r
  {
    fs.pending + [fs.dir]
  }

  /** What Load returns if `d` is the directory; no file is an empty list, None is an error. */
  function Reading(files: map<nat, File>, d: Directory): Option<seq<Peer>>
  {
    if STATE_NAME !in d then Some([])
    else if d[STATE_NAME] !in files then None
    else DecodeState(files[d[STATE_NAME]].text)
  }

  function Current(fs: Fs): Option<seq<Peer>>
  {
    Reading(fs.files, fs.dir)
  }

  /** What Load may return after a crash. */
  function Survivors(fs: Fs): set<Option<seq<Peer>>>
  {
    set d | d in Images(fs) :: Reading(fs.files, d)
  }

  lemma CurrentSurvives(fs: Fs)
    ensures Current(fs) in Survivors(fs)
  {
    hide DecodeState;
    assert Reading(fs.files, fs.dir) in Survivors(fs);
  }

  /** No directory that may come back names a state file that was not synced. */
  ghost predicate Sound(fs: Fs)
  {
    && (forall f :: f in fs.files ==> f < fs.next)
    && (forall d, name :: d in Images(fs) && name in d ==> d[name] in fs.files)
    && (forall d :: d in Images(fs) && STATE_NAME in d ==> fs.files[d[STATE_NAME]].synced)
  }

  /** Power is lost and the directory is mounted again. */
  ghost predicate CrashesTo(fs: Fs, after: Fs)
  {
    && after.pending == [] && after.next == fs.next && after.files.Keys == fs.files.Keys
    && (forall name :: name in after.dir ==> exists d :: d in Images(fs) && name in d && d[name] == after.dir[name])
    && (forall name :: name !in after.dir ==> exists d :: d in Images(fs) && name !in d)
    && (forall f :: f in fs.files && fs.files[f].synced ==> after.files[f].text == fs.files[f].text)
    && (forall f :: f in after.files ==> after.files[f].synced)
  }

  /** After a crash, Load sees one whole list, and one it could have seen since the last directory sync. */
  lemma CrashReadsSurvivor(fs: Fs, after: Fs)
    requires Sound(fs) && CrashesTo(fs, after)
    ensures Sound(after) && Current(after) in Survivors(fs) && Survivors(after) == {Current(after)}
  {
    hide DecodeState;
    if STATE_NAME in after.dir {
      var d :| d in Images(fs) && STATE_NAME in d && d[STATE_NAME] == after.dir[STATE_NAME];
      assert Current(after) == Reading(fs.files, d);
    } else {
      var d :| d in Images(fs) && STATE_NAME !in d;
      assert Current(after) == Reading(fs.files, d);
    }
    assert Images(after) == [after.dir];
    forall d, name | d in Images(after) && name in d ensures d[name] in after.files {
      var e :| e in Images(fs) && name in e && e[name] == after.dir[name];
    }
  }

  /** A crash after which every entry is as in `d`. */
  function CrashTo(fs: Fs, d: Directory): Fs
  {
    Fs(map f | f in fs.files :: File(fs.files[f].text, true), fs.next, d, [])
  }

  /** Conversely, every image may be what a crash leaves: the survivors are exactly what Load may find after one. */
  lemma ImageSurvives(fs: Fs, d: Directory)
    requires d in Images(fs)
    ensures CrashesTo(fs, CrashTo(fs, d)) && Current(CrashTo(fs, d)) == Reading(fs.files, d)
  {
    hide DecodeState;
  }

  /** The lists that Load may find after a crash are exactly the survivors. */
  lemma SurvivorsAreCrashOutcomes(fs: Fs, list: Option<seq<Peer>>)
    requires Sound(fs)
    ensures list in Survivors(fs) <==> exists after :: CrashesTo(fs, after) && Current(after) == list
  {
    hide DecodeState, Sound, CrashesTo, Current;
    if list in Survivors(fs) {
      var d :| d in Images(fs) && Reading(fs.files, d) == list;
      ImageSurvives(fs, d);
    }
    if exists after :: CrashesTo(fs, after) && Current(after) == list {
      var after :| CrashesTo(fs, after) && Current(after) == list;
      CrashReadsSurvivor(fs, after);
    }
  }

  // ---- what each step does to that ----

  /** The state file is not the file `f`, in any directory that may come back. */
  ghost predicate NotState(fs: Fs, f: nat)
  {
    forall d :: d in Images(fs) && STATE_NAME in d ==> d[STATE_NAME] != f
  }

  /** `b` reads as `a` does, now and after a crash. */
  ghost predicate SameState(a: Fs, b: Fs)
  {
    Sound(b) && Current(b) == Current(a) && Survivors(b) == Survivors(a)
  }

  lemma NextIsNew(fs: Fs)
    requires Sound(fs)
    ensures fs.next !in fs.files
  {
    hide DecodeState;
  }

  lemma AddedImage(fs: Fs, to: Fs)
    requires to.pending == fs.pending + [fs.dir]
    ensures forall d :: d in Images(to) <==> d in Images(fs) || d == to.dir
  {
  }

  lemma CreateKeepsState(fs: Fs, name: string)
    requires Sound(fs) && name != STATE_NAME
    ensures SameState(fs, CreateFile(fs, name)) && NotState(CreateFile(fs, name), fs.next)
  {
    hide DecodeState;
    var to := CreateFile(fs, name);
    AddedImage(fs, to);
    forall d | d in Images(fs) ensures Reading(to.files, d) == Reading(fs.files, d) {
    }
    assert Reading(to.files, to.dir) == Reading(fs.files, fs.dir);
  }

  lemma WriteKeepsState(fs: Fs, f: nat, file: File)
    requires Sound(fs) && f in fs.files && NotState(fs, f)
    ensures var to := fs.(files := fs.files[f := file]); SameState(fs, to) && NotState(to, f)
  {
    hide DecodeState;
    var to := fs.(files := fs.files[f := file]);
    assert Images(to) == Images(fs);
    forall d | d in Images(fs) ensures Reading(to.files, d) == Reading(fs.files, d) {
    }
  }

  lemma RemoveKeepsState(fs: Fs, name: string)
    requires Sound(fs) && name != STATE_NAME
    ensures SameState(fs, RemoveFile(fs, name))
  {
    hide DecodeState;
    if name in fs.dir {
      var to := RemoveFile(fs, name);
      AddedImage(fs, to);
      assert Reading(to.files, to.dir) == Reading(fs.files, fs.dir);
    }
  }

  /** Renaming a synced file over the state file adds its contents to what may be read. */
  lemma RenameReplacesState(fs: Fs, name: string)
    requires Sound(fs) && name in fs.dir && name != STATE_NAME && fs.files[fs.dir[name]].synced
    ensures var to, text := Rename(fs, name, STATE_NAME), fs.files[fs.dir[name]].text;
      && Sound(to) && Current(to) == DecodeState(text)
      && Survivors(to) == Survivors(fs) + {DecodeState(text)}
  {
    hide DecodeState;
    AddedImage(fs, Rename(fs, name, STATE_NAME));
  }

  lemma SyncSettlesState(fs: Fs)
    requires Sound(fs)
    ensures var to := SyncDirectory(fs);
      Sound(to) && Current(to) == Current(fs) && Survivors(to) == {Current(fs)}
  {
    hide DecodeState;
    assert Images(SyncDirectory(fs)) == [fs.dir];
  }
}
