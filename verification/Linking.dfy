/** The events of a run are what the manager's methods, the file system and the device do. */
module Linking {
  import opened Prelude
  import opened Text
  import opened Ipv4
  import opened Keys
  import opened Device
  import opened Peers
  import opened StateFile
  import Truncation
  import opened Filesystem
  import opened Store
  import opened Operations
  import opened Protocol
  import opened Reconciling
  import opened Manager
  import opened Runs

  /** `s` describes the machine `m`. */
  ghost predicate Describes(s: Sys, m: Image)
  {
    Sound(m.fs) && s.view == ViewOf(m)
  }

  /** An operation of the manager is a Finished event, and every moment at which it may die a CutOff event. */
  lemma PerformedIsEvent(lib: Library, cfg: Config, s: Sys, request: Request, m: Image, earlier: seq<Image>, w: Image,
    later: seq<Image>, inputs: Inputs, end: SaveEnd, failure: Option<Failure>)
    requires Describes(s, m) && s.up && Fresh(lib, s.view, request, inputs)
    requires Performed(m, earlier, w, later, PlanOf(lib, cfg, Current(m.fs), request, inputs), inputs, end, failure)
    ensures var e := Finished(request, inputs, end);
      Possible(lib, cfg, s, e) && Describes(After(lib, cfg, s, e), w)
    ensures forall x :: x in Added(earlier, later) ==>
      var e := CutOff(request, inputs, ViewOf(x));
      Possible(lib, cfg, s, e) && Describes(After(lib, cfg, s, e), x)
  {
    hide Sound, Current, Survivors, PlanOf, Fresh, CarryOut, Moment, Settles;
    if PlanOf(lib, cfg, Current(m.fs), request, inputs).Err? {
      assert Added(earlier, later) == [];
    }
  }

  /** A loss of power is a PowerLost event. */
  lemma CrashIsEvent(lib: Library, cfg: Config, s: Sys, m: Image, w: Image)
    requires Describes(s, m) && CrashesTo(m.fs, w.fs) && Routed(w.table)
    ensures var e := PowerLost(Current(w.fs), w.table);
      Possible(lib, cfg, s, e) && Describes(After(lib, cfg, s, e), w)
  {
    hide Sound, Current, Survivors, Routed;
    CrashReadsSurvivor(m.fs, w.fs);
  }

  /** Reconcile, as the manager's method does it, is a Restarted event. */
  lemma ReconcileIsEvent(lib: Library, cfg: Config, s: Sys, m: Image, w: Image, loadFails: bool, calls: seq<Call>,
      ok: bool)
    requires Describes(s, m) && !s.up && w.fs == m.fs
    requires var loaded := LoadState(lib, cfg.net, Current(m.fs), loadFails);
      && (loaded.Err? ==> w.table == m.table && !ok)
      && (loaded.Ok? ==> (w.table, ok) == Push(lib, m.table, loaded.value, 0, calls))
    ensures var e := Restarted(loadFails, calls);
      Possible(lib, cfg, s, e) && Describes(After(lib, cfg, s, e), w) && After(lib, cfg, s, e).up == ok
  {
    hide Sound, Current, Survivors, Push, LoadState;
  }

  /** Dying at any moment of Reconcile is one too: a Restarted event in which some call fails. */
  lemma ReconcileMomentIsEvent(lib: Library, cfg: Config, s: Sys, m: Image, x: Image, loadFails: bool, calls: seq<Call>)
    returns (e: Event)
    requires Describes(s, m) && !s.up && x.fs == m.fs
    requires var loaded := LoadState(lib, cfg.net, Current(m.fs), loadFails);
      loaded.Ok? && PushMoment(lib, m.table, loaded.value, calls, x.table)
    ensures e.Restarted? && Possible(lib, cfg, s, e) && Describes(After(lib, cfg, s, e), x) && !After(lib, cfg, s, e).up
  {
    hide Sound, Current, Survivors, Push, LoadState;
    var peers := LoadState(lib, cfg.net, Current(m.fs), loadFails).value;
    var i: nat, n: nat :|
      i < |peers| && Push(lib, m.table, peers, 0, FirstCalls(calls, i, Failed(n))) == (x.table, false);
    e := Restarted(loadFails, FirstCalls(calls, i, Failed(n)));
  }

  /**
   * And every list that may survive a loss of power does after some crash, so PowerLost events are just the crashes.
   */
  lemma SurvivorIsCrash(lib: Library, cfg: Config, s: Sys, m: Image, e: Event) returns (w: Image)
    requires Describes(s, m) && e.PowerLost? && Possible(lib, cfg, s, e)
    ensures CrashesTo(m.fs, w.fs) && w.table == e.table && Describes(After(lib, cfg, s, e), w)
  {
    hide DecodeState, Routed, Sound;
    assert exists d :: d in Images(m.fs) && Reading(m.fs.files, d) == e.list;
    var d :| d in Images(m.fs) && Reading(m.fs.files, d) == e.list;
    w := Image(CrashTo(m.fs, d), e.table);
    ImageSurvives(m.fs, d);
    CrashReadsSurvivor(m.fs, w.fs);
  }

  /** The agent starts out with no list, or an imported one, and any device that routes. */
  lemma StartsInInv(lib: Library, cfg: Config, peers: seq<Peer>, t: Table)
    requires Good(lib, cfg.net, peers) && Routed(t)
    ensures Good(lib, cfg.net, [])
    ensures Inv(lib, cfg, Sys(View(Some(peers), {Some(peers)}, t), false, {}))
    ensures forall v: View :: v.current == Some([]) && Inv(lib, cfg, Sys(v, false, {})) ==>
      Inv(lib, cfg, Sys(AfterSave(v, peers, Saved), false, {}))
  {
    RereadGood(lib, cfg.net, peers);
    hide ValidPeer, CanonicalPeer, Routed, Reread;
  }

  // ---- lists that are merely valid ----

  lemma ValidToggle(lib: Library, net: Network, peers: seq<Peer>, i: nat, enabled: bool)
    requires ValidState(lib, net, peers) && i < |peers|
    ensures ValidState(lib, net, peers[i := peers[i].(enabled := enabled)])
  {
    var p, q := peers[i], peers[i].(enabled := enabled);
    assert ValidPeer(lib, net, p);
    assert ValidPeer(lib, net, q);
    hide ValidPeer;
  }

  lemma ValidWithout(lib: Library, net: Network, peers: seq<Peer>, i: nat)
    requires ValidState(lib, net, peers) && i < |peers|
    ensures ValidState(lib, net, Without(peers, i))
  {
    hide ValidPeer;
  }

  lemma SameString(p: Peer, q: Peer)
    ensures p.publicKey == q.publicKey ==> KeyOf(p) == KeyOf(q)
  {
    hide ParseKey;
  }

  lemma ValidAppend(lib: Library, net: Network, peers: seq<Peer>, p: Peer)
    requires ValidState(lib, net, peers) && ValidPeer(lib, net, p) && !Used(peers, p.address)
    requires forall i :: 0 <= i < |peers| ==> KeyOf(peers[i]) != KeyOf(p)
    ensures ValidState(lib, net, peers + [p])
  {
    hide ValidPeer, KeyOf;
    forall i | 0 <= i < |peers| ensures peers[i].publicKey != p.publicKey && peers[i].address != p.address {
      SameString(peers[i], p);
    }
  }

  lemma ValidCreate(lib: Library, cfg: Config, peers: seq<Peer>, name: string, inputs: Inputs)
    requires ValidState(lib, cfg.net, peers) && PlanCreate(lib, cfg, Some(peers), name, inputs).Ok?
    requires FreshKey(lib, peers, inputs.draw.value)
    ensures ValidState(lib, cfg.net, PlanCreate(lib, cfg, Some(peers), name, inputs).value.list)
  {
    hide ValidPeer, CanonicalPeer, KeyOf, QuadOf, TrimSpace, ApplyConfig, RemoveConfig, NewPeer, Used, PrintQuad,
      ValidState;
    var host := FreeHost(cfg.net, peers, FIRST_HOST).value;
    var address := PrintQuad(HostQuad(cfg.net, host));
    var p := NewPeer(lib, TrimSpace(name), address, inputs.draw.value);
    TrimSpaceIdempotent(name);
    NewPeerIsValid(lib, cfg.net, TrimSpace(name), host, inputs.draw.value);
    NewPeerText(lib, TrimSpace(name), address, inputs.draw.value);
    ValidAppend(lib, cfg.net, peers, p);
  }

  /**
   * No operation plans a list that validation refuses, even if the list it starts from is spelled in any way that
   * validation accepts; and what it saves can be loaded again just if it is within the read limit.
   */
  lemma PlansKeepValid(lib: Library, cfg: Config, peers: seq<Peer>, request: Request, inputs: Inputs)
    requires ValidState(lib, cfg.net, peers) && PlanOf(lib, cfg, Some(peers), request, inputs).Ok?
    requires request.CreatePeer? && inputs.draw.Some? ==> FreshKey(lib, peers, inputs.draw.value)
    ensures var list := PlanOf(lib, cfg, Some(peers), request, inputs).value.list;
      && ValidState(lib, cfg.net, list)
      && Reread(list) == if Size(EncodeState(list)) <= READ_LIMIT + 1 then Some(list) else None
  {
    hide ValidState, FreshKey, ApplyConfig, RemoveConfig, Size, EncodeState, DecodeState;
    FailedLoadPlansNothing(lib, cfg, peers, request, inputs);
    var list := PlanOf(lib, cfg, Some(peers), request, inputs).value.list;
    Truncation.ReadBackIsExact(list);
    match request
    case CreatePeer(name) => ValidCreate(lib, cfg, peers, name, inputs);
    case SetEnabled(publicKey, enabled) => ValidToggle(lib, cfg.net, peers, FindPeer(peers, publicKey).value, enabled);
    case DeletePeer(publicKey) => ValidWithout(lib, cfg.net, peers, FindPeer(peers, publicKey).value);
  }
}
