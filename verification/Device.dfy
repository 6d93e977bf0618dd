/**
 * The peer table of a WireGuard interface and the rule that routes by it: a network belongs to at most
 * one peer, and giving it to one takes it from any other (section 2 of the WireGuard paper, NDSS 2017).
 */
module Device {
  import opened Prelude
  import opened Ipv4
  import opened Keys

  /** `session` stands for what the agent never writes: endpoint, handshake and counters; 0 in a new peer. */
  datatype Entry = Entry(psk: Key, allowed: set<Prefix>, session: nat)

  type Table = map<Key, Entry>

  /** The fields of wgtypes.PeerConfig that the agent sets. */
  datatype PeerConfig = PeerConfig(key: Key, remove: bool, psk: Option<Key>, replace: bool, allowed: seq<Prefix>)

  /** One device update, in the order in which the interface carries them out. */
  datatype Action =
    | Drop
    | Create
    | SetPsk(psk: Key)
    | ClearAllowed
    | Give(prefix: Prefix)

  function Gain(e: Entry, given: set<Prefix>): Entry
  {
    Entry(e.psk, e.allowed + given, e.session)
  }

  function Lose(e: Entry, taken: set<Prefix>): Entry
  {
    Entry(e.psk, e.allowed - taken, e.session)
  }

  /** The table with all of `given` moved to the peer `k`. */
  function GiveAll(t: Table, k: Key, given: set<Prefix>): Table
  {
    map j | j in t :: if j == k then Gain(t[j], given) else Lose(t[j], given)
  }

  /** One update of the peer `k`. */
  function Act(t: Table, k: Key, a: Action): Table
  {
    match a
    case Drop => t - {k}
    case Create => if k in t then t else t[k := Entry(ZeroKey(), {}, 0)]
    case SetPsk(psk) => if k in t then t[k := t[k].(psk := psk)] else t
    case ClearAllowed => if k in t then t[k := t[k].(allowed := {})] else t
    case Give(p) =>
      if k !in t then t else GiveAll(t, k, {p})
  }

  function Perform(t: Table, k: Key, actions: seq<Action>): Table
  {
    if actions == [] then t
    else Act(Perform(t, k, actions[..|actions| - 1]), k, actions[|actions| - 1])
  }

  function Gives(prefixes: seq<Prefix>): (actions: seq<Action>)
    ensures |actions| == |prefixes|
    ensures forall i :: 0 <= i < |prefixes| ==> actions[i] == Give(prefixes[i])
  {
    seq(|prefixes|, i requires 0 <= i < |prefixes| => Give(prefixes[i]))
  }

  /** What one peer of a configuration asks for, step by step. */
  function Actions(c: PeerConfig): seq<Action>
  {
    if c.remove then [Drop]
    else
      [Create]
      + (if c.psk.Some? then [SetPsk(c.psk.value)] else [])
      + (if c.replace then [ClearAllowed] else [])
      + Gives(c.allowed)
  }

  /** How a device call ends. A failed call has carried out some of its steps, possibly none or all. */
  datatype Call = Done | Failed(steps: nat)

  /** How many of `n` steps a call carries out. */
  function StepsDone(call: Call, n: nat): (m: nat)
    ensures m <= n
  {
    if call.Failed? && call.steps < n then call.steps else n
  }

  /** The table after a call that configures one peer. */
  function Configure(t: Table, c: PeerConfig, call: Call): Table
  {
    Perform(t, c.key, Actions(c)[..StepsDone(call, |Actions(c)|)])
  }

  /** The table with `k` configured afresh: what it is to hold is taken from everyone else. */
  function SetPeer(t: Table, k: Key, psk: Key, allowed: set<Prefix>): Table
  {
    map j | j in t.Keys + {k} ::
      if j == k then Entry(psk, allowed, if k in t then t[k].session else 0)
      else Lose(t[j], allowed)
  }

  /** `u` is reached on the way of configuring a peer of `t`. */
  ghost predicate PartWay(t: Table, c: PeerConfig, u: Table)
  {
    exists steps: nat :: u == Configure(t, c, Failed(steps))
  }

  // ---- how far a configuration reaches ----

  function Networks(prefixes: seq<Prefix>): set<Prefix>
  {
    set p | p in prefixes
  }

  /** Nothing but peer `k` changed, except that networks in `taken` may have left other peers. */
  predicate TouchesOnly(t: Table, u: Table, k: Key, taken: set<Prefix>)
  {
    && t.Keys - {k} == u.Keys - {k}
    && (forall j :: j in t && j != k ==>
          && j in u && u[j].psk == t[j].psk && u[j].session == t[j].session
          && t[j].allowed - taken <= u[j].allowed <= t[j].allowed)
    && (k in u ==> u[k].allowed <= taken + (if k in t then t[k].allowed else {}))
  }

  /** No network belongs to two peers. */
  ghost predicate Routed(t: Table)
  {
    forall j, k, p :: j in t && k in t && p in t[j].allowed && p in t[k].allowed ==> j == k
  }

  lemma PerformStep(t: Table, k: Key, actions: seq<Action>, n: nat)
    requires n < |actions|
    ensures Perform(t, k, actions[..n + 1]) == Act(Perform(t, k, actions[..n]), k, actions[n])
  {
    var s := actions[..n + 1];
    assert s[..n] == actions[..n] && s[n] == actions[n];
  }

  lemma ActTouchesOnly(t: Table, u: Table, k: Key, a: Action, taken: set<Prefix>)
    requires TouchesOnly(t, u, k, taken) && (a.Give? ==> a.prefix in taken)
    ensures TouchesOnly(t, Act(u, k, a), k, taken)
  {
    var v := Act(u, k, a);
    assert v.Keys - {k} == u.Keys - {k};
  }

  /** The steps before the networks are given. */
  function Preparing(c: PeerConfig): (actions: seq<Action>)
    ensures forall i :: 0 <= i < |actions| ==> !actions[i].Give?
  {
    if c.remove then [Drop]
    else [Create] + (if c.psk.Some? then [SetPsk(c.psk.value)] else []) + (if c.replace then [ClearAllowed] else [])
  }

  lemma ActionsPrepareThenGive(c: PeerConfig)
    ensures Actions(c) == Preparing(c) + (if c.remove then [] else Gives(c.allowed))
  {
  }

  lemma GivesListed(c: PeerConfig, i: nat)
    requires i < |Actions(c)| && Actions(c)[i].Give?
    ensures Actions(c)[i].prefix in Networks(c.allowed)
  {
    ActionsPrepareThenGive(c);
    hide Actions, Preparing;
    var first := |Preparing(c)|;
    assert c.allowed[i - first] in c.allowed;
  }

  /** At every point of a configuration, only its own peer and the networks it is to hold are touched. */
  lemma {:induction false} ConfigureTouchesOnly(t: Table, c: PeerConfig, n: nat)
    requires n <= |Actions(c)|
    ensures TouchesOnly(t, Perform(t, c.key, Actions(c)[..n]), c.key, Networks(c.allowed))
    decreases n
  {
    if n > 0 {
      ConfigureTouchesOnly(t, c, n - 1);
      PerformStep(t, c.key, Actions(c), n - 1);
      if Actions(c)[n - 1].Give? {
        GivesListed(c, n - 1);
      }
      ActTouchesOnly(t, Perform(t, c.key, Actions(c)[..n - 1]), c.key, Actions(c)[n - 1], Networks(c.allowed));
    }
  }

  lemma GiveAllStep(t: Table, k: Key, given: set<Prefix>, p: Prefix)
    requires k in t
    ensures Act(GiveAll(t, k, given), k, Give(p)) == GiveAll(t, k, given + {p})
  {
    forall j | j in t ensures Act(GiveAll(t, k, given), k, Give(p))[j] == GiveAll(t, k, given + {p})[j] {
      assert t[j].allowed - given - {p} == t[j].allowed - (given + {p});
      assert t[j].allowed + given + {p} == t[j].allowed + (given + {p});
    }
  }

  lemma LastGive(before: seq<Action>, prefixes: seq<Prefix>)
    requires prefixes != []
    ensures var all, n := before + Gives(prefixes), |prefixes| - 1;
      && all[..|all| - 1] == before + Gives(prefixes[..n])
      && all[|all| - 1] == Give(prefixes[n])
      && Networks(prefixes) == Networks(prefixes[..n]) + {prefixes[n]}
  {
  }

  lemma {:induction false} PerformGives(t: Table, k: Key, before: seq<Action>, prefixes: seq<Prefix>)
    requires k in Perform(t, k, before)
    ensures Perform(t, k, before + Gives(prefixes)) == GiveAll(Perform(t, k, before), k, Networks(prefixes))
    decreases |prefixes|
  {
    var u := Perform(t, k, before);
    if prefixes == [] {
      assert before + Gives(prefixes) == before;
      assert Networks(prefixes) == {};
      forall j | j in u ensures GiveAll(u, k, {})[j] == u[j] {
        assert u[j].allowed + {} == u[j].allowed && u[j].allowed - {} == u[j].allowed;
      }
      assert GiveAll(u, k, {}) == u;
    } else {
      var n := |prefixes| - 1;
      PerformGives(t, k, before, prefixes[..n]);
      GiveAllStep(u, k, Networks(prefixes[..n]), prefixes[n]);
      LastGive(before, prefixes);
    }
  }

  /** The table just before the networks are given: the peer exists, has its key and holds nothing. */
  function Reset(t: Table, k: Key, psk: Key): Table
  {
    t[k := Entry(psk, {}, if k in t then t[k].session else 0)]
  }

  lemma PerformReset(t: Table, k: Key, psk: Key)
    ensures Perform(t, k, [Create, SetPsk(psk), ClearAllowed]) == Reset(t, k, psk)
  {
    var a := [Create, SetPsk(psk), ClearAllowed];
    PerformStep(t, k, a, 0);
    PerformStep(t, k, a, 1);
    PerformStep(t, k, a, 2);
    assert a[..0] == [] && a[..3] == a;
  }

  lemma ResetThenGive(t: Table, k: Key, psk: Key, given: set<Prefix>)
    ensures GiveAll(Reset(t, k, psk), k, given) == SetPeer(t, k, psk, given)
  {
    assert {} + given == given;
  }

  /** A completed full configuration of a peer is SetPeer. */
  lemma ConfigureIsSetPeer(t: Table, c: PeerConfig)
    requires !c.remove && c.psk.Some? && c.replace
    ensures Configure(t, c, Done) == SetPeer(t, c.key, c.psk.value, Networks(c.allowed))
  {
    var before := [Create, SetPsk(c.psk.value), ClearAllowed];
    assert Actions(c)[..|Actions(c)|] == Actions(c) == before + Gives(c.allowed);
    PerformReset(t, c.key, c.psk.value);
    PerformGives(t, c.key, before, c.allowed);
    ResetThenGive(t, c.key, c.psk.value, Networks(c.allowed));
  }

  lemma ConfigureRemoves(t: Table, c: PeerConfig)
    requires c.remove
    ensures Configure(t, c, Done) == t - {c.key}
  {
    PerformStep(t, c.key, [Drop], 0);
    assert [Drop][..1] == [Drop] && [Drop][..0] == [];
  }

  lemma ActKeepsRouted(t: Table, k: Key, a: Action)
    requires Routed(t)
    ensures Routed(Act(t, k, a))
  {
  }

  /** Cryptokey routing is kept by every configuration, finished or not. */
  lemma {:induction false} PerformKeepsRouted(t: Table, k: Key, actions: seq<Action>)
    requires Routed(t)
    ensures Routed(Perform(t, k, actions))
    decreases |actions|
  {
    if actions != [] {
      PerformKeepsRouted(t, k, actions[..|actions| - 1]);
      ActKeepsRouted(Perform(t, k, actions[..|actions| - 1]), k, actions[|actions| - 1]);
    }
  }
}
