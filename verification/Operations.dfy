/**
 * What each operation of the manager does to the list and the device, with every step that can fail as an
 * input. All three changes follow one protocol: push one peer to the device, save the list, and if that
 * fails try to undo the push.
 */
module Operations {
  import opened Prelude
  import opened Text
  import opened Ipv4
  import opened Keys
  import opened Device
  import opened Peers
  import opened Store

  /** The fixed part of the manager; `interfaceLines` are the transport's own lines of a configuration. */
  datatype Config = Config(
    net: Network,
    interfaceLines: seq<string>,
    dns: seq<string>,
    clientAllowedIPs: seq<string>,
    endpoint: string,
    keepalive: nat)

  datatype Failure =
    | BadName
    | DeviceUnreadable
    | StateUnreadable
    | StateInvalid
    | PoolExhausted
    | NoRandomness
    | NotManaged
    | BadRecord
    | DeviceRefused
    | NotSaved

  /** The keys CreatePeer draws: the new peer's private key and its preshared key. */
  datatype Draw = Draw(privateKey: Key, psk: Key)

  /** What the outside world answers during one operation. None means that the step fails. */
  datatype Inputs = Inputs(deviceKey: Option<Key>, loadFails: bool, draw: Option<Draw>, apply: Call, undo: Call)

  /** The list to save, what is sent to the device first, and what is sent if saving fails. */
  datatype Plan = Plan(list: seq<Peer>, forward: PeerConfig, backward: Option<PeerConfig>)

  function LoadState(lib: Library, net: Network, current: Option<seq<Peer>>, fails: bool): Result<seq<Peer>, Failure>
  {
    if fails || current.None? then Err(StateUnreadable)
    else if !ValidState(lib, net, current.value) then Err(StateInvalid)
    else Ok(current.value)
  }

  // ---- what each operation plans ----

  function NewPeer(lib: Library, name: string, address: string, draw: Draw): Peer
  {
    Peer(name, address, PrintKey(draw.privateKey), PrintKey(lib.pub(draw.privateKey)), PrintKey(draw.psk),
      [address + "/32"], true)
  }

  function PlanCreate(lib: Library, cfg: Config, current: Option<seq<Peer>>, name: string, inputs: Inputs)
    : Result<Plan, Failure>
  {
    var trimmed := TrimSpace(name);
    if trimmed == "" || |trimmed| > MAX_NAME then Err(BadName)
    else if inputs.deviceKey.None? then Err(DeviceUnreadable)
    else
      match LoadState(lib, cfg.net, current, inputs.loadFails)
      case Err(e) => Err(e)
      case Ok(peers) =>
        match NextAddress(cfg.net, peers)
        case None => Err(PoolExhausted)
        case Some(address) =>
          if inputs.draw.None? then Err(NoRandomness)
          else
            var p := NewPeer(lib, trimmed, address, inputs.draw.value);
            match ApplyConfig(lib, p)
            case None => Err(BadRecord)
            case Some(c) => Ok(Plan(peers + [p], c, RemoveConfig(p.publicKey)))
  }

  function PlanSetEnabled(lib: Library, cfg: Config, current: Option<seq<Peer>>, publicKey: string, enabled: bool,
    inputs: Inputs): Result<Plan, Failure>
  {
    match LoadState(lib, cfg.net, current, inputs.loadFails)
    case Err(e) => Err(e)
    case Ok(peers) =>
      match FindPeer(peers, publicKey)
      case None => Err(NotManaged)
      case Some(i) =>
        var p := peers[i].(enabled := enabled);
        match ApplyConfig(lib, p)
        case None => Err(BadRecord)
        case Some(c) => Ok(Plan(peers[i := p], c, ApplyConfig(lib, peers[i])))
  }

  function PlanDelete(lib: Library, cfg: Config, current: Option<seq<Peer>>, publicKey: string, inputs: Inputs)
    : Result<Plan, Failure>
  {
    match LoadState(lib, cfg.net, current, inputs.loadFails)
    case Err(e) => Err(e)
    case Ok(peers) =>
      match FindPeer(peers, publicKey)
      case None => Err(NotManaged)
      case Some(i) =>
        match RemoveConfig(publicKey)
        case None => Err(BadRecord)
        case Some(c) => Ok(Plan(Without(peers, i), c, ApplyConfig(lib, peers[i])))
  }

  // ---- carrying a plan out ----

  /** One call of applyPeer or removePeer; a record that cannot be read is not sent. */
  function Send(t: Table, c: Option<PeerConfig>, call: Call): Table
  {
    if c.Some? then Configure(t, c.value, call) else t
  }

  /** The machine after a plan was carried out as far as the inputs let it; `save` is how Save ended. */
  function CarryOut(v: View, plan: Plan, inputs: Inputs, save: SaveEnd): (View, Result<(), Failure>)
  {
    var pushed := v.(table := Configure(v.table, plan.forward, inputs.apply));
    if inputs.apply.Failed? then (pushed, Err(DeviceRefused))
    else
      var saved := AfterSave(pushed, plan.list, save);
      if save.Saved? then (saved, Ok(()))
      else (saved.(table := Send(pushed.table, plan.backward, inputs.undo)), Err(NotSaved))
  }

  function Execute(v: View, plan: Result<Plan, Failure>, inputs: Inputs, save: SaveEnd): (View, Result<(), Failure>)
  {
    match plan
    case Err(e) => (v, Err(e))
    case Ok(p) => CarryOut(v, p, inputs, save)
  }

  /** Every network that carrying out a plan may move. */
  function Reach(plan: Plan): set<Prefix>
  {
    Networks(plan.forward.allowed) + (if plan.backward.Some? then Networks(plan.backward.value.allowed) else {})
  }

  /**
   * `w` is a moment of carrying `plan` out from `v`: no list but the planned one is new, and no peer but the
   * plan's own was changed, except for losing networks the plan moves.
   */
  ghost predicate Moment(v: View, plan: Plan, w: View)
  {
    && ListWithin(v, plan.list, w)
    && TouchesOnly(v.table, w.table, plan.forward.key, Reach(plan))
    && (Routed(v.table) ==> Routed(w.table))
  }

  /** The same, for a plan that is about the key `k` and the network `home`. */
  predicate Within(v: View, plan: Plan, k: Key, home: Prefix, w: View)
  {
    ListWithin(v, plan.list, w) && TouchesOnly(v.table, w.table, k, {home})
  }

  // ---- configurations ----

  function InterfaceLines(cfg: Config, p: Peer): seq<string>
  {
    ["[Interface]", "PrivateKey = " + p.privateKey, "Address = " + p.address + "/32"]
    + cfg.interfaceLines
    + (if cfg.dns == [] then [] else ["DNS = " + Join(cfg.dns, ", ")])
  }

  function PeerLines(cfg: Config, p: Peer, serverKey: Key): seq<string>
  {
    ["[Peer]",
     "PublicKey = " + PrintKey(serverKey),
     "PresharedKey = " + p.presharedKey,
     "AllowedIPs = " + Join(cfg.clientAllowedIPs, ", "),
     "Endpoint = " + cfg.endpoint,
     "PersistentKeepalive = " + Dec(cfg.keepalive)]
  }

  /** renderConfiguration. */
  function Render(cfg: Config, p: Peer, serverKey: Key): string
  {
    Join(InterfaceLines(cfg, p) + [""] + PeerLines(cfg, p, serverKey), "\n") + "\n"
  }

  datatype CreatedPeer = CreatedPeer(name: string, publicKey: string, configuration: string)

  /** What CreatePeer returns: the last record of the saved list, with its configuration. */
  function CreatedBy(cfg: Config, list: seq<Peer>, deviceKey: Option<Key>): CreatedPeer
  {
    if list == [] || deviceKey.None? then CreatedPeer("", "", "")
    else
      var p := list[|list| - 1];
      CreatedPeer(p.name, p.publicKey, Render(cfg, p, deviceKey.value))
  }

  function ConfigurationOf(lib: Library, cfg: Config, current: Option<seq<Peer>>, publicKey: string, inputs: Inputs)
    : Result<string, Failure>
  {
    match LoadState(lib, cfg.net, current, inputs.loadFails)
    case Err(e) => Err(e)
    case Ok(peers) =>
      match FindPeer(peers, publicKey)
      case None => Err(NotManaged)
      case Some(i) =>
        if inputs.deviceKey.None? then Err(DeviceUnreadable)
        else Ok(Render(cfg, peers[i], inputs.deviceKey.value))
  }

  // ---- plans on good lists ----

  /**
   * A plan made on the good list `peers`: it is about the one key `k` and the one network `home`, which no
   * other listed peer has, it keeps every other record, and it leads to a good list.
   */
  ghost predicate PlanFor(lib: Library, net: Network, peers: seq<Peer>, plan: Plan, k: Key, home: Prefix)
  {
    && Good(lib, net, plan.list)
    && plan.forward.key == k && Networks(plan.forward.allowed) <= {home}
    && plan.backward.Some? && plan.backward.value.key == k && Networks(plan.backward.value.allowed) <= {home}
    && (forall p :: p in peers && KeyOf(p) != k ==> p in plan.list)
    && (forall p :: p in plan.list && KeyOf(p) != k ==> p in peers)
    && (forall p :: p in peers || p in plan.list ==> (Home(p) == home <==> KeyOf(p) == k))
    && (if plan.forward.remove
        then forall p :: p in plan.list ==> KeyOf(p) != k
        else forall p :: p in plan.list && KeyOf(p) == k ==>
               plan.forward == PeerConfig(k, false, Some(PskOf(p)), true, SlotList(p)))
  }

  predicate FreshKey(lib: Library, peers: seq<Peer>, draw: Draw)
  {
    forall i :: 0 <= i < |peers| ==> KeyOf(peers[i]) != lib.pub(draw.privateKey)
  }

  lemma NewPeerIsValid(lib: Library, net: Network, name: string, host: Byte, draw: Draw)
    requires TrimSpace(name) == name != "" && |name| <= MAX_NAME && FIRST_HOST <= host <= LAST_HOST
    ensures var p := NewPeer(lib, name, PrintQuad(HostQuad(net, host)), draw);
      && ValidPeer(lib, net, p) && CanonicalPeer(p)
      && KeyOf(p) == lib.pub(draw.privateKey) && QuadOf(p) == HostQuad(net, host)
  {
    var q := HostQuad(net, host);
    ParsePrintedKey(draw.privateKey);
    ParsePrintedKey(lib.pub(draw.privateKey));
    ParsePrintedKey(draw.psk);
    ParsePrintedQuad(lib.v6, q);
    DottedRoundTrip(PrintQuad(q), q);
    PrintedIsDotted(q);
    hide ParseKey, PrintKey, ParseDotted, PrintQuad;
  }

  lemma MemberPair(lib: Library, net: Network, peers: seq<Peer>, p: Peer, q: Peer)
    requires Good(lib, net, peers) && p in peers && q in peers
    ensures KeyOf(p) == KeyOf(q) <==> p == q
    ensures Home(p) == Home(q) <==> p == q
    ensures p.publicKey == q.publicKey <==> p == q
  {
    hide ValidPeer, CanonicalPeer, KeyOf, QuadOf;
    var i :| 0 <= i < |peers| && peers[i] == p;
    var j :| 0 <= j < |peers| && peers[j] == q;
    GoodPair(lib, net, peers, i, j);
    if i != j {
      assert p.publicKey != q.publicKey;
    }
  }
}
