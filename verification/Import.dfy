/** Reading the peers of a wg-easy installation, from its decoded document on. */
module Import {
  import opened Prelude
  import opened Text
  import opened Ipv4
  import opened Keys
  import opened Sorting
  import opened Peers

  datatype Client = Client(
    name: string,
    address: string,
    privateKey: string,
    publicKey: string,
    presharedKey: string,
    enabled: bool)

  datatype Document = Document(
    serverAddress: string,
    serverPrivateKey: string,
    serverPublicKey: string,
    clients: map<string, Client>)

  datatype Summary = Summary(
    serverAddress: string,
    serverPublicKey: string,
    peerCount: nat,
    enabledPeers: nat,
    disabledPeers: nat)

  datatype ImportFailure = BadServerKeys | BadServerAddress | BadClientAddress | InvalidPeers

  datatype Imported = Imported(peers: seq<Peer>, summary: Summary)

  // ---- what the import is to do ----

  predicate ServerKeysMatch(lib: Library, doc: Document)
  {
    match (ParseKey(TrimSpace(doc.serverPrivateKey)), ParseKey(TrimSpace(doc.serverPublicKey)))
    case (Some(x), Some(k)) => lib.pub(x) == k
    case _ => false
  }

  function ServerQuad(lib: Library, doc: Document): (r: Option<Quad>)
    ensures r.Some? ==> r.value.d == 1
  {
    match ParseIP4(lib.v6, TrimSpace(doc.serverAddress))
    case None => None
    case Some(q) => if q.d == 1 then Some(q) else None
  }

  function NetworkOf(q: Quad): Network
  {
    Network(q.a, q.b, q.c)
  }

  function ClientQuad(lib: Library, c: Client): Option<Quad>
  {
    ParseIP4(lib.v6, TrimSpace(c.address))
  }

  /** The record made of a client whose address was read as `q`: the address is printed anew, all else is trimmed. */
  function RecordAt(c: Client, q: Quad): Peer
  {
    Peer(TrimSpace(c.name), PrintQuad(q), TrimSpace(c.privateKey), TrimSpace(c.publicKey), TrimSpace(c.presharedKey),
      [PrintQuad(q) + "/32"], c.enabled)
  }

  function RecordOf(lib: Library, c: Client): Peer
  {
    RecordAt(c, match ClientQuad(lib, c) case Some(q) => q case None => Quad(0, 0, 0, 0))
  }

  ghost function Pick(clients: map<string, Client>): (id: string)
    requires clients.Keys != {}
    ensures id in clients
  {
    var id :| id in clients.Keys;
    id
  }

  /** All records, in no order. */
  ghost function Records(lib: Library, clients: map<string, Client>): multiset<Peer>
    decreases |clients|
  {
    if clients.Keys == {} then multiset{}
    else
      var id := Pick(clients);
      multiset{RecordOf(lib, clients[id])} + Records(lib, clients - {id})
  }

  function Enabled(clients: map<string, Client>, ids: set<string>): set<string>
  {
    set id | id in ids && id in clients && clients[id].enabled
  }

  function SummaryOf(doc: Document, server: Quad): Summary
  {
    var enabled := |Enabled(doc.clients, doc.clients.Keys)|;
    var key := match ParseKey(TrimSpace(doc.serverPublicKey)) case Some(k) => k case None => ZeroKey();
    Summary(PrintQuad(server) + "/24", PrintKey(key), |doc.clients|, enabled,
      if enabled <= |doc.clients| then |doc.clients| - enabled else 0)
  }

  function Number(q: Quad): nat
  {
    ((q.a * 256 + q.b) * 256 + q.c) * 256 + q.d
  }

  /** bytes.Compare on the four octets is comparison of the numbers they spell. */
  predicate AddressLeq(p: Peer, q: Peer)
  {
    Number(QuadOf(p)) <= Number(QuadOf(q))
  }

  predicate AllReadable(lib: Library, clients: map<string, Client>)
  {
    forall id :: id in clients ==> ClientQuad(lib, clients[id]).Some?
  }

  /** `r` is what importing the document is to give. */
  ghost predicate ImportIs(lib: Library, doc: Document, r: Result<Imported, ImportFailure>)
  {
    if !ServerKeysMatch(lib, doc) then r == Err(BadServerKeys)
    else if ServerQuad(lib, doc).None? then r == Err(BadServerAddress)
    else if !AllReadable(lib, doc.clients) then r == Err(BadClientAddress)
    else
      var net := NetworkOf(ServerQuad(lib, doc).value);
      match r
      case Ok(im) =>
        && multiset(im.peers) == Records(lib, doc.clients)
        && SortedBy(im.peers, AddressLeq)
        && ValidState(lib, net, im.peers)
        && im.summary == SummaryOf(doc, ServerQuad(lib, doc).value)
      case Err(e) =>
        e == InvalidPeers && forall list :: multiset(list) == Records(lib, doc.clients) ==> !ValidState(lib, net, list)
  }

  // ---- no order of the clients matters ----

  lemma RecordsFirst(lib: Library, clients: map<string, Client>)
    requires clients.Keys != {}
    ensures var id := Pick(clients);
      Records(lib, clients) == multiset{RecordOf(lib, clients[id])} + Records(lib, clients - {id})
  {
  }

  /** Any client may be taken first. */
  lemma {:induction false} RecordsWithout(lib: Library, clients: map<string, Client>, id: string)
    requires id in clients
    ensures Records(lib, clients) == multiset{RecordOf(lib, clients[id])} + Records(lib, clients - {id})
    decreases |clients|
  {
    hide RecordOf, Records;
    RecordsFirst(lib, clients);
    var first := Pick(clients);
    if first != id {
      var rest, other := clients - {first}, clients - {id};
      RecordsWithout(lib, rest, id);
      RecordsWithout(lib, other, first);
      assert rest - {id} == other - {first};
    }
  }

  lemma {:induction false} DistinctCounts<T>(xs: seq<T>, x: T)
    requires Distinct(xs)
    ensures multiset(xs)[x] <= 1
    decreases |xs|
  {
    if xs != [] {
      var n := |xs| - 1;
      assert xs == xs[..n] + [xs[n]];
      DistinctCounts(xs[..n], x);
      if x == xs[n] {
        assert x !in xs[..n];
      }
    }
  }

  lemma TwiceCounts<T>(xs: seq<T>, i: nat, j: nat)
    requires i < j < |xs| && xs[i] == xs[j]
    ensures multiset(xs)[xs[i]] >= 2
  {
    assert xs == xs[..j] + [xs[j]] + xs[j + 1..];
    assert xs[..j][i] == xs[i] && xs[i] in multiset(xs[..j]);
  }

  lemma DistinctPermutation<T>(xs: seq<T>, ys: seq<T>)
    requires Distinct(xs) && multiset(xs) == multiset(ys)
    ensures Distinct(ys)
  {
    forall i, j | 0 <= i < j < |ys| ensures ys[i] != ys[j] {
      if ys[i] == ys[j] {
        TwiceCounts(ys, i, j);
        DistinctCounts(xs, ys[i]);
      }
    }
  }

  /** In a valid list, an address or a public key determines the record. */
  lemma ValidMembers(lib: Library, net: Network, peers: seq<Peer>, p: Peer, q: Peer)
    requires ValidState(lib, net, peers) && p in peers && q in peers
    ensures p.address == q.address || p.publicKey == q.publicKey ==> p == q
  {
    hide ValidPeer;
    var i :| 0 <= i < |peers| && peers[i] == p;
    var j :| 0 <= j < |peers| && peers[j] == q;
    if i < j {
      assert peers[i].address != peers[j].address && peers[i].publicKey != peers[j].publicKey;
    } else if j < i {
      assert peers[j].address != peers[i].address && peers[j].publicKey != peers[i].publicKey;
    }
  }

  /** Validation accepts a list if and only if it accepts any permutation of it. */
  lemma ValidPermutation(lib: Library, net: Network, xs: seq<Peer>, ys: seq<Peer>)
    requires ValidState(lib, net, xs) && multiset(xs) == multiset(ys)
    ensures ValidState(lib, net, ys)
  {
    hide ValidPeer;
    SameMembers(xs, ys);
    forall i, j | 0 <= i < j < |xs| ensures xs[i] != xs[j] {
      assert xs[i].address != xs[j].address;
    }
    DistinctPermutation(xs, ys);
    forall i | 0 <= i < |ys| ensures ValidPeer(lib, net, ys[i]) {
      assert ys[i] in xs;
    }
    forall i, j | 0 <= i < j < |ys|
      ensures ys[i].address != ys[j].address && ys[i].publicKey != ys[j].publicKey
    {
      assert ys[i] != ys[j] && ys[i] in xs && ys[j] in xs;
      ValidMembers(lib, net, xs, ys[i], ys[j]);
    }
  }

  lemma AddressOrder()
    ensures TotalPreorder(AddressLeq)
  {
    hide QuadOf, Number;
  }

  lemma {:induction false} RecordsMember(lib: Library, clients: map<string, Client>, p: Peer)
    requires p in Records(lib, clients)
    ensures exists id :: id in clients && p == RecordOf(lib, clients[id])
    decreases |clients|
  {
    hide RecordOf;
    if clients.Keys != {} {
      var id := Pick(clients);
      if p != RecordOf(lib, clients[id]) {
        RecordsMember(lib, clients - {id}, p);
      }
    }
  }

  lemma LastOctet(x: nat, y: nat, c: Byte, d: Byte)
    requires x * 256 + c == y * 256 + d
    ensures x == y && c == d
  {
  }

  lemma NumberInjective(p: Quad, q: Quad)
    requires Number(p) == Number(q)
    ensures p == q
  {
    LastOctet((p.a * 256 + p.b) * 256 + p.c, (q.a * 256 + q.b) * 256 + q.c, p.d, q.d);
    LastOctet(p.a * 256 + p.b, q.a * 256 + q.b, p.c, q.c);
    LastOctet(p.a, q.a, p.b, q.b);
  }

  /** The order is that of the octets, the first one that differs deciding. */
  lemma NumberOrder(p: Quad, q: Quad)
    ensures Number(p) <= Number(q) <==>
      || p.a < q.a || (p.a == q.a && (p.b < q.b || (p.b == q.b && (p.c < q.c || (p.c == q.c && p.d <= q.d)))))
  {
  }

  lemma PrintedAddress(lib: Library, c: Client)
    ensures PrintQuad(QuadOf(RecordOf(lib, c))) == RecordOf(lib, c).address
  {
    hide PrintQuad, ParseDotted, ClientQuad;
    var q := match ClientQuad(lib, c) case Some(q) => q case None => Quad(0, 0, 0, 0);
    DottedRoundTrip(PrintQuad(q), q);
  }

  /** A valid list of imported records has just one sorted permutation. */
  lemma SortedImportUnique(lib: Library, net: Network, clients: map<string, Client>, xs: seq<Peer>, ys: seq<Peer>)
    requires multiset(xs) == multiset(ys) == Records(lib, clients)
    requires SortedBy(xs, AddressLeq) && SortedBy(ys, AddressLeq) && ValidState(lib, net, xs)
    ensures xs == ys
  {
    hide RecordOf, ValidState, Records, QuadOf, Number, PrintQuad;
    AddressOrder();
    forall p, q | p in xs && q in xs && AddressLeq(p, q) && AddressLeq(q, p) ensures p == q {
      assert p in multiset(xs) && q in multiset(xs);
      RecordsMember(lib, clients, p);
      RecordsMember(lib, clients, q);
      var i :| i in clients && p == RecordOf(lib, clients[i]);
      var j :| j in clients && q == RecordOf(lib, clients[j]);
      PrintedAddress(lib, clients[i]);
      PrintedAddress(lib, clients[j]);
      NumberInjective(QuadOf(p), QuadOf(q));
      ValidMembers(lib, net, xs, p, q);
    }
    SortedUnique(xs, ys, AddressLeq);
  }

  /** The import is a function of its input: whatever the order of the clients, the outcome is the same. */
  lemma ImportIsUnique(lib: Library, doc: Document, r: Result<Imported, ImportFailure>,
      s: Result<Imported, ImportFailure>)
    requires ImportIs(lib, doc, r) && ImportIs(lib, doc, s)
    ensures r == s
  {
    hide ServerKeysMatch, ServerQuad, AllReadable, ValidState, Records, SummaryOf;
    if r.Ok? && s.Ok? {
      SortedImportUnique(lib, NetworkOf(ServerQuad(lib, doc).value), doc.clients, r.value.peers, s.value.peers);
    }
  }

  // ---- the import itself ----

  lemma TakeOne(lib: Library, clients: map<string, Client>, done: set<string>, id: string, peers: seq<Peer>)
    requires id in clients && id !in done
    requires multiset(peers) + Records(lib, clients - done) == Records(lib, clients)
    ensures multiset(peers + [RecordOf(lib, clients[id])]) + Records(lib, clients - (done + {id}))
      == Records(lib, clients)
  {
    hide RecordOf, Records;
    RecordsWithout(lib, clients - done, id);
    assert clients - done - {id} == clients - (done + {id});
  }

  lemma EnabledGrows(clients: map<string, Client>, done: set<string>, id: string)
    requires id in clients && id !in done
    ensures |Enabled(clients, done + {id})| == |Enabled(clients, done)| + if clients[id].enabled then 1 else 0
  {
    if clients[id].enabled {
      assert Enabled(clients, done + {id}) == Enabled(clients, done) + {id};
    } else {
      assert Enabled(clients, done + {id}) == Enabled(clients, done);
    }
  }

  lemma ReadRecord(lib: Library, c: Client, q: Quad)
    requires ClientQuad(lib, c) == Some(q)
    ensures RecordOf(lib, c) == RecordAt(c, q)
  {
  }

  lemma NoRecords(lib: Library, clients: map<string, Client>, done: set<string>)
    requires done == clients.Keys
    ensures Records(lib, clients - done) == multiset{}
  {
  }

  lemma NotReadable(lib: Library, clients: map<string, Client>, id: string)
    requires id in clients && ClientQuad(lib, clients[id]).None?
    ensures !AllReadable(lib, clients)
  {
  }

  /** The clients in `done` have been turned into `peers` and counted. */
  ghost predicate Built(lib: Library, clients: map<string, Client>, done: set<string>, peers: seq<Peer>,
      enabled: nat, disabled: nat)
  {
    && (forall id :: id in done && id in clients ==> ClientQuad(lib, clients[id]).Some?)
    && multiset(peers) + Records(lib, clients - done) == Records(lib, clients)
    && enabled == |Enabled(clients, done)| && enabled + disabled == |done|
  }

  lemma BuiltStart(lib: Library, clients: map<string, Client>)
    ensures Built(lib, clients, {}, [], 0, 0)
  {
    assert clients - {} == clients;
    assert Enabled(clients, {}) == {};
  }

  lemma BuiltStep(lib: Library, clients: map<string, Client>, done: set<string>, peers: seq<Peer>, enabled: nat,
      disabled: nat, id: string, q: Quad)
    requires Built(lib, clients, done, peers, enabled, disabled)
    requires id in clients && id !in done && ClientQuad(lib, clients[id]) == Some(q)
    ensures Built(lib, clients, done + {id}, peers + [RecordAt(clients[id], q)],
      if clients[id].enabled then enabled + 1 else enabled, if clients[id].enabled then disabled else disabled + 1)
  {
    hide RecordOf, RecordAt, Records, ClientQuad, Enabled;
    TakeOne(lib, clients, done, id, peers);
    ReadRecord(lib, clients[id], q);
    EnabledGrows(clients, done, id);
  }

  lemma BuiltAll(lib: Library, clients: map<string, Client>, done: set<string>, peers: seq<Peer>, enabled: nat,
      disabled: nat)
    requires Built(lib, clients, done, peers, enabled, disabled) && done == clients.Keys
    ensures AllReadable(lib, clients) && multiset(peers) == Records(lib, clients)
    ensures enabled == |Enabled(clients, clients.Keys)| && enabled + disabled == |clients|
  {
    hide RecordOf, RecordAt, Records, ClientQuad, Enabled;
    NoRecords(lib, clients, done);
  }

  /** The loop of the import, over the clients in whatever order the map gives them. */
  method BuildRecords(lib: Library, clients: map<string, Client>) returns (r: Option<seq<Peer>>, enabled: nat,
      disabled: nat)
    ensures r.Some? <==> AllReadable(lib, clients)
    ensures r.Some? ==> multiset(r.value) == Records(lib, clients)
    ensures r.Some? ==> enabled == |Enabled(clients, clients.Keys)| && enabled + disabled == |clients|
  {
    hide RecordAt, Records, ClientQuad, Enabled, Built, AllReadable;
    var peers: seq<Peer> := [];
    enabled, disabled := 0, 0;
    var todo := clients.Keys;
    ghost var done: set<string> := {};
    BuiltStart(lib, clients);
    while todo != {}
      invariant done + todo == clients.Keys && done !! todo
      invariant Built(lib, clients, done, peers, enabled, disabled)
      decreases |todo|
    {
      var id :| id in todo;
      var client := clients[id];
      var address := ClientQuad(lib, client);
      if address.None? {
        NotReadable(lib, clients, id);
        return None, enabled, disabled;
      }
      BuiltStep(lib, clients, done, peers, enabled, disabled, id, address.value);
      peers := peers + [RecordAt(client, address.value)];
      if client.enabled {
        enabled := enabled + 1;
      } else {
        disabled := disabled + 1;
      }
      done := done + {id};
      todo := todo - {id};
    }
    BuiltAll(lib, clients, done, peers, enabled, disabled);
    return Some(peers), enabled, disabled;
  }

  method LoadWGEasyState(lib: Library, doc: Document) returns (r: Result<Imported, ImportFailure>)
    ensures ImportIs(lib, doc, r)
  {
    hide ParseKey, TrimSpace, ClientQuad, Records, ValidState;
    var privateKey := ParseKey(TrimSpace(doc.serverPrivateKey));
    if privateKey.None? {
      return Err(BadServerKeys);
    }
    var publicKey := ParseKey(TrimSpace(doc.serverPublicKey));
    if publicKey.None? || lib.pub(privateKey.value) != publicKey.value {
      return Err(BadServerKeys);
    }
    var server := ServerQuad(lib, doc);
    if server.None? {
      return Err(BadServerAddress);
    }
    var built, enabled, disabled := BuildRecords(lib, doc.clients);
    if built.None? {
      return Err(BadClientAddress);
    }
    AddressOrder();
    var peers := Sort(built.value, AddressLeq);
    var net := NetworkOf(server.value);
    var valid := ValidateState(lib, net, peers);
    if valid.Err? {
      forall list | multiset(list) == Records(lib, doc.clients) ensures !ValidState(lib, net, list) {
        if ValidState(lib, net, list) {
          ValidPermutation(lib, net, list, peers);
        }
      }
      return Err(InvalidPeers);
    }
    var summary := Summary(
      PrintQuad(server.value) + "/24", PrintKey(publicKey.value), |doc.clients|, enabled, disabled);
    return Ok(Imported(peers, summary));
  }

  // ---- the imported list in the manager ----

  predicate CanonicalClient(c: Client)
  {
    && CanonicalKey(TrimSpace(c.publicKey))
    && OneLineKey(TrimSpace(c.privateKey)) && OneLineKey(TrimSpace(c.presharedKey))
  }

  lemma ImportedRecord(lib: Library, c: Client)
    ensures ParseDotted(RecordOf(lib, c).address).Some? && FamilyOf(RecordOf(lib, c).address) == Dotted
    ensures CanonicalPeer(RecordOf(lib, c)) <==> CanonicalClient(c)
  {
    hide PrintQuad, ParseDotted, ClientQuad, TrimSpace, CanonicalKey;
    var q := match ClientQuad(lib, c) case Some(q) => q case None => Quad(0, 0, 0, 0);
    DottedRoundTrip(PrintQuad(q), q);
    PrintedIsDotted(q);
  }

  /**
   * An import whose server lies in the manager's /24 gives a list that the manager accepts, with addresses spelled
   * in its own way. It is one that the manager's guarantees cover if and only if each client's public key is spelled
   * canonically and its other keys stay on one line, for all of them are only trimmed.
   */
  lemma ImportedIsGood(lib: Library, doc: Document, im: Imported, net: Network)
    requires ImportIs(lib, doc, Ok(im)) && NetworkOf(ServerQuad(lib, doc).value) == net
    ensures ValidState(lib, net, im.peers)
    ensures forall p :: p in im.peers ==> ParseDotted(p.address).Some? && FamilyOf(p.address) == Dotted
    ensures Good(lib, net, im.peers) <==> forall id :: id in doc.clients ==> CanonicalClient(doc.clients[id])
  {
    hide ServerKeysMatch, AllReadable, ValidState, Records, SummaryOf, RecordOf, CanonicalClient, CanonicalPeer,
      QuadOf, ParseDotted;
    forall p | p in im.peers
      ensures ParseDotted(p.address).Some? && FamilyOf(p.address) == Dotted
      ensures (forall id :: id in doc.clients ==> CanonicalClient(doc.clients[id])) ==> CanonicalPeer(p)
    {
      assert p in multiset(im.peers);
      RecordsMember(lib, doc.clients, p);
      var id :| id in doc.clients && p == RecordOf(lib, doc.clients[id]);
      ImportedRecord(lib, doc.clients[id]);
    }
    if Canonical(im.peers) {
      forall id | id in doc.clients ensures CanonicalClient(doc.clients[id]) {
        RecordsWithout(lib, doc.clients, id);
        assert RecordOf(lib, doc.clients[id]) in multiset(im.peers);
        ImportedRecord(lib, doc.clients[id]);
      }
    }
  }

  // ---- clients and records ----

  /** The record says of the client what the document says, with the address printed anew. */
  predicate MadeFrom(lib: Library, c: Client, p: Peer)
  {
    && p.name == TrimSpace(c.name) && p.enabled == c.enabled
    && p.privateKey == TrimSpace(c.privateKey) && p.publicKey == TrimSpace(c.publicKey)
    && p.presharedKey == TrimSpace(c.presharedKey)
    && ParseDotted(p.address).Some? && ParseIP4(lib.v6, TrimSpace(c.address)) == ParseDotted(p.address)
    && p.allowedIPs == [p.address + "/32"]
  }

  lemma RecordIsMade(lib: Library, c: Client)
    requires ClientQuad(lib, c).Some?
    ensures MadeFrom(lib, c, RecordOf(lib, c))
  {
    var q := ClientQuad(lib, c).value;
    DottedRoundTrip(PrintQuad(q), q);
    hide ParseDotted, PrintQuad, ParseIP4, TrimSpace;
  }

  function EnabledRecords(records: multiset<Peer>): set<Peer>
  {
    set p | p in records && p.enabled
  }

  lemma SameFlag(lib: Library, c: Client)
    ensures RecordOf(lib, c).enabled == c.enabled
  {
  }

  lemma EnabledPicked(lib: Library, clients: map<string, Client>, id: string)
    requires id in clients
    ensures |Enabled(clients, clients.Keys)|
      == |Enabled(clients - {id}, (clients - {id}).Keys)| + if clients[id].enabled then 1 else 0
  {
    var ids := Enabled(clients - {id}, (clients - {id}).Keys);
    assert Enabled(clients, clients.Keys) == if clients[id].enabled then ids + {id} else ids;
  }

  lemma EnabledRecord(p: Peer, records: multiset<Peer>)
    requires records[p] == 0
    ensures |EnabledRecords(multiset{p} + records)| == |EnabledRecords(records)| + if p.enabled then 1 else 0
  {
    assert EnabledRecords(multiset{p} + records) == EnabledRecords(records) + if p.enabled then {p} else {};
  }

  lemma OneLess(p: Peer, records: multiset<Peer>)
    requires forall q :: (multiset{p} + records)[q] <= 1
    ensures records[p] == 0 && forall q :: records[q] <= 1
  {
    assert (multiset{p} + records)[p] == 1 + records[p];
    forall q ensures records[q] <= 1 {
      assert (multiset{p} + records)[q] <= 1;
    }
  }

  lemma {:induction false} RecordsCounted(lib: Library, clients: map<string, Client>)
    ensures |Records(lib, clients)| == |clients|
    ensures (forall p :: Records(lib, clients)[p] <= 1) ==>
      |EnabledRecords(Records(lib, clients))| == |Enabled(clients, clients.Keys)|
    decreases |clients|
  {
    if clients.Keys == {} {
      assert Enabled(clients, clients.Keys) == {} && EnabledRecords(Records(lib, clients)) == {};
    } else {
      hide RecordOf, EnabledRecords, Enabled, Records;
      RecordsFirst(lib, clients);
      var id := Pick(clients);
      var rest, p := clients - {id}, RecordOf(lib, clients[id]);
      RecordsCounted(lib, rest);
      SameFlag(lib, clients[id]);
      EnabledPicked(lib, clients, id);
      assert clients.Keys == rest.Keys + {id} && |clients| == |rest| + 1;
      if forall q :: Records(lib, clients)[q] <= 1 {
        OneLess(p, Records(lib, rest));
        EnabledRecord(p, Records(lib, rest));
      }
    }
  }

  lemma ImportedOnce(lib: Library, net: Network, peers: seq<Peer>, p: Peer)
    requires ValidState(lib, net, peers)
    ensures multiset(peers)[p] <= 1
  {
    hide ValidPeer;
    forall i, j | 0 <= i < j < |peers| ensures peers[i] != peers[j] {
      assert peers[i].address != peers[j].address;
    }
    DistinctCounts(peers, p);
  }

  lemma SummaryCounts(lib: Library, doc: Document, server: Quad)
    requires ServerKeysMatch(lib, doc)
    ensures var summary := SummaryOf(doc, server);
      && summary.peerCount == |doc.clients| && summary.enabledPeers == |Enabled(doc.clients, doc.clients.Keys)|
      && summary.enabledPeers + summary.disabledPeers == summary.peerCount
      && ParseKey(summary.serverPublicKey) == ParseKey(TrimSpace(doc.serverPublicKey))
      && summary.serverAddress == PrintQuad(server) + "/24"
  {
    var key := ParseKey(TrimSpace(doc.serverPublicKey)).value;
    ParsePrintedKey(key);
    SubsetSize(Enabled(doc.clients, doc.clients.Keys), doc.clients.Keys);
    hide ParseKey, TrimSpace, PrintKey, PrintQuad;
  }

  /** What is made of the clients, whichever order they come in. */
  lemma RecordsAreMade(lib: Library, clients: map<string, Client>, peers: seq<Peer>)
    requires AllReadable(lib, clients) && multiset(peers) == Records(lib, clients)
    ensures forall id :: id in clients ==> exists p :: p in peers && MadeFrom(lib, clients[id], p)
    ensures forall p :: p in peers ==> exists id :: id in clients && MadeFrom(lib, clients[id], p)
  {
    hide RecordOf, MadeFrom, Records, ClientQuad;
    forall id | id in clients ensures exists p :: p in peers && MadeFrom(lib, clients[id], p) {
      RecordsWithout(lib, clients, id);
      assert RecordOf(lib, clients[id]) in multiset(peers);
      RecordIsMade(lib, clients[id]);
    }
    forall p | p in peers ensures exists id :: id in clients && MadeFrom(lib, clients[id], p) {
      assert p in multiset(peers);
      RecordsMember(lib, clients, p);
      var id :| id in clients && p == RecordOf(lib, clients[id]);
      RecordIsMade(lib, clients[id]);
    }
  }

  lemma RecordsAreCounted(lib: Library, net: Network, clients: map<string, Client>, peers: seq<Peer>)
    requires multiset(peers) == Records(lib, clients) && ValidState(lib, net, peers)
    ensures |peers| == |clients|
    ensures |set p | p in peers && p.enabled| == |Enabled(clients, clients.Keys)|
  {
    hide ValidState, Records, Enabled;
    forall p ensures Records(lib, clients)[p] <= 1 {
      ImportedOnce(lib, net, peers, p);
    }
    RecordsCounted(lib, clients);
    assert |multiset(peers)| == |peers|;
    assert EnabledRecords(multiset(peers)) == set p | p in peers && p.enabled;
  }

  lemma ManagedQuad(lib: Library, net: Network, p: Peer)
    requires ValidPeer(lib, net, p) && FamilyOf(p.address) == Dotted
    ensures ParseDotted(p.address) == Some(QuadOf(p)) && QuadOf(p) == HostQuad(net, QuadOf(p).d)
    ensures p.address == PrintQuad(QuadOf(p))
  {
    DottedRoundTrip(p.address, QuadOf(p));
    hide ParseKey, ParseDotted, PrintQuad, TrimSpace, FamilyOf;
  }

  lemma HostsRise(net: Network, a: Byte, b: Byte)
    ensures Number(HostQuad(net, a)) <= Number(HostQuad(net, b)) <==> a <= b
  {
  }

  /** The list rises by host. */
  lemma ImportedInOrder(lib: Library, doc: Document, im: Imported, i: nat, j: nat)
    requires ImportIs(lib, doc, Ok(im)) && i < j < |im.peers|
    ensures ParseDotted(im.peers[i].address).Some? && ParseDotted(im.peers[j].address).Some?
    ensures ParseDotted(im.peers[i].address).value.d < ParseDotted(im.peers[j].address).value.d
  {
    hide ServerKeysMatch, ServerQuad, AllReadable, ValidPeer, Records, SummaryOf, RecordOf, ParseDotted, FamilyOf,
      CanonicalPeer, CanonicalClient, QuadOf, Number, PrintQuad;
    var net := NetworkOf(ServerQuad(lib, doc).value);
    ImportedIsGood(lib, doc, im, net);
    assert AddressLeq(im.peers[i], im.peers[j]);
    assert im.peers[i] in im.peers && im.peers[j] in im.peers;
    var p, q := im.peers[i], im.peers[j];
    ManagedQuad(lib, net, p);
    ManagedQuad(lib, net, q);
    HostsRise(net, QuadOf(p).d, QuadOf(q).d);
    assert Number(QuadOf(p)) <= Number(QuadOf(q)) && p.address != q.address;
  }

  /**
   * Every client becomes one record and every record comes from a client, flags included; the summary counts them, and
   * names the server whose keys and address were read.
   */
  lemma ClientsImported(lib: Library, doc: Document, im: Imported)
    requires ImportIs(lib, doc, Ok(im))
    ensures forall id :: id in doc.clients ==> exists p :: p in im.peers && MadeFrom(lib, doc.clients[id], p)
    ensures forall p :: p in im.peers ==> exists id :: id in doc.clients && MadeFrom(lib, doc.clients[id], p)
    ensures im.summary.peerCount == |im.peers| == |doc.clients|
    ensures im.summary.enabledPeers == |set p | p in im.peers && p.enabled|
    ensures im.summary.enabledPeers + im.summary.disabledPeers == im.summary.peerCount
    ensures ParseKey(im.summary.serverPublicKey) == ParseKey(TrimSpace(doc.serverPublicKey))
    ensures ServerQuad(lib, doc).Some? && im.summary.serverAddress == PrintQuad(ServerQuad(lib, doc).value) + "/24"
  {
    hide ServerKeysMatch, ServerQuad, ValidState, AllReadable, MadeFrom, Records, ParseKey, TrimSpace, SummaryOf,
      Enabled, PrintQuad;
    RecordsAreMade(lib, doc.clients, im.peers);
    RecordsAreCounted(lib, NetworkOf(ServerQuad(lib, doc).value), doc.clients, im.peers);
    SummaryCounts(lib, doc, ServerQuad(lib, doc).value);
  }

  // ---- when an import succeeds ----

  predicate ServerFits(lib: Library, doc: Document)
  {
    && ParseKey(TrimSpace(doc.serverPrivateKey)).Some?
    && ParseKey(TrimSpace(doc.serverPublicKey)) == Some(lib.pub(ParseKey(TrimSpace(doc.serverPrivateKey)).value))
    && ParseIP4(lib.v6, TrimSpace(doc.serverAddress)).Some?
    && ParseIP4(lib.v6, TrimSpace(doc.serverAddress)).value.d == 1
  }

  /** The client has its place in the /24 of the server, a name and keys. */
  predicate ClientFits(lib: Library, server: Quad, c: Client)
  {
    && 1 <= |TrimSpace(c.name)| <= 100
    && ParseKey(TrimSpace(c.privateKey)).Some?
    && ParseKey(TrimSpace(c.publicKey)) == Some(lib.pub(ParseKey(TrimSpace(c.privateKey)).value))
    && ParseKey(TrimSpace(c.presharedKey)).Some?
    && (match ParseIP4(lib.v6, TrimSpace(c.address))
        case None => false
        case Some(q) => q.a == server.a && q.b == server.b && q.c == server.c && 2 <= q.d <= 254)
  }

  predicate Apart(lib: Library, c: Client, d: Client)
  {
    && ParseIP4(lib.v6, TrimSpace(c.address)) != ParseIP4(lib.v6, TrimSpace(d.address))
    && TrimSpace(c.publicKey) != TrimSpace(d.publicKey)
  }

  lemma FittingRecord(lib: Library, server: Quad, c: Client)
    requires ClientQuad(lib, c).Some?
    ensures ValidPeer(lib, NetworkOf(server), RecordOf(lib, c)) <==> ClientFits(lib, server, c)
  {
    var q := ClientQuad(lib, c).value;
    TrimSpaceIdempotent(c.name);
    ParsePrintedQuad(lib.v6, q);
    hide ParseKey, ParseIP4, PrintQuad, TrimSpace;
  }

  lemma ApartRecords(lib: Library, c: Client, d: Client)
    requires ClientQuad(lib, c).Some? && ClientQuad(lib, d).Some?
    ensures Apart(lib, c, d) <==>
      RecordOf(lib, c).address != RecordOf(lib, d).address && RecordOf(lib, c).publicKey != RecordOf(lib, d).publicKey
  {
    ParsePrintedQuad(lib.v6, ClientQuad(lib, c).value);
    ParsePrintedQuad(lib.v6, ClientQuad(lib, d).value);
    hide ParseKey, ParseIP4, PrintQuad, TrimSpace;
  }

  /** The records one after the other, with the clients they were made from. */
  lemma {:induction false} RecordsInOrder(lib: Library, clients: map<string, Client>)
    returns (peers: seq<Peer>, ids: seq<string>)
    ensures multiset(peers) == Records(lib, clients) && |ids| == |peers| && Distinct(ids)
    ensures forall i :: 0 <= i < |ids| ==> ids[i] in clients && peers[i] == RecordOf(lib, clients[ids[i]])
    decreases |clients|
  {
    hide RecordOf;
    peers, ids := [], [];
    if clients.Keys != {} {
      var id := Pick(clients);
      RecordsFirst(lib, clients);
      peers, ids := RecordsInOrder(lib, clients - {id});
      peers, ids := peers + [RecordOf(lib, clients[id])], ids + [id];
    }
  }

  lemma FittingClients(lib: Library, doc: Document, server: Quad, peers: seq<Peer>, ids: seq<string>)
    requires AllReadable(lib, doc.clients) && |ids| == |peers| && Distinct(ids)
    requires forall i :: 0 <= i < |ids| ==> ids[i] in doc.clients && peers[i] == RecordOf(lib, doc.clients[ids[i]])
    requires forall id :: id in doc.clients ==> ClientFits(lib, server, doc.clients[id])
    requires forall i, j :: i in doc.clients && j in doc.clients && i != j ==>
      Apart(lib, doc.clients[i], doc.clients[j])
    ensures ValidState(lib, NetworkOf(server), peers)
  {
    hide RecordOf, ValidPeer, ClientFits, Apart, ClientQuad;
    forall i | 0 <= i < |peers| ensures ValidPeer(lib, NetworkOf(server), peers[i]) {
      FittingRecord(lib, server, doc.clients[ids[i]]);
    }
    forall i, j | 0 <= i < j < |peers|
      ensures peers[i].address != peers[j].address && peers[i].publicKey != peers[j].publicKey
    {
      assert ids[i] != ids[j];
      ApartRecords(lib, doc.clients[ids[i]], doc.clients[ids[j]]);
    }
  }

  lemma TwoRecords(lib: Library, clients: map<string, Client>, i: string, j: string)
    requires i in clients && j in clients && i != j
    ensures multiset{RecordOf(lib, clients[i]), RecordOf(lib, clients[j])} <= Records(lib, clients)
  {
    hide RecordOf, Records;
    RecordsWithout(lib, clients, i);
    RecordsWithout(lib, clients - {i}, j);
  }

  lemma ValidClients(lib: Library, doc: Document, server: Quad, peers: seq<Peer>)
    requires AllReadable(lib, doc.clients)
    requires multiset(peers) == Records(lib, doc.clients) && ValidState(lib, NetworkOf(server), peers)
    ensures forall id :: id in doc.clients ==> ClientFits(lib, server, doc.clients[id])
    ensures forall i, j :: i in doc.clients && j in doc.clients && i != j ==> Apart(lib, doc.clients[i], doc.clients[j])
  {
    hide RecordOf, ValidPeer, ClientFits, Apart, ClientQuad, Records;
    forall id | id in doc.clients ensures ClientFits(lib, server, doc.clients[id]) {
      RecordsWithout(lib, doc.clients, id);
      assert RecordOf(lib, doc.clients[id]) in multiset(peers);
      FittingRecord(lib, server, doc.clients[id]);
    }
    forall i, j | i in doc.clients && j in doc.clients && i != j ensures Apart(lib, doc.clients[i], doc.clients[j]) {
      var p, q := RecordOf(lib, doc.clients[i]), RecordOf(lib, doc.clients[j]);
      TwoRecords(lib, doc.clients, i, j);
      ImportedOnce(lib, NetworkOf(server), peers, p);
      assert multiset{p, q} <= multiset(peers) && p in multiset{p, q} && q in multiset{p, q};
      assert p != q;
      ValidMembers(lib, NetworkOf(server), peers, p, q);
      ApartRecords(lib, doc.clients[i], doc.clients[j]);
    }
  }

  lemma ServerRead(lib: Library, doc: Document)
    ensures ServerFits(lib, doc) <==> ServerKeysMatch(lib, doc) && ServerQuad(lib, doc).Some?
  {
    hide ParseKey, TrimSpace, ParseIP4;
  }

  lemma FitIsReadable(lib: Library, server: Quad, clients: map<string, Client>)
    requires forall id :: id in clients ==> ClientFits(lib, server, clients[id])
    ensures AllReadable(lib, clients)
  {
    hide ParseKey, TrimSpace, ParseIP4;
  }

  /**
   * An import succeeds if and only if the server's keys belong together and its address ends in 1, every client fits
   * into its /24, and no two clients share an address or a public key.
   */
  lemma ImportIsExact(lib: Library, doc: Document, r: Result<Imported, ImportFailure>)
    requires ImportIs(lib, doc, r)
    ensures r.Ok? <==>
      && ServerFits(lib, doc)
      && (forall id :: id in doc.clients ==>
            ClientFits(lib, ParseIP4(lib.v6, TrimSpace(doc.serverAddress)).value, doc.clients[id]))
      && (forall i, j :: i in doc.clients && j in doc.clients && i != j ==>
            Apart(lib, doc.clients[i], doc.clients[j]))
  {
    ServerRead(lib, doc);
    if ServerFits(lib, doc) {
      var server := ServerQuad(lib, doc).value;
      assert server == ParseIP4(lib.v6, TrimSpace(doc.serverAddress)).value;
      hide ServerKeysMatch, ServerQuad, ServerFits, ValidState, AllReadable, Records, ClientFits, Apart, ParseIP4,
        TrimSpace, SummaryOf;
      if r.Ok? {
        ValidClients(lib, doc, server, r.value.peers);
      } else if forall id :: id in doc.clients ==> ClientFits(lib, server, doc.clients[id]) {
        FitIsReadable(lib, server, doc.clients);
        var peers, ids := RecordsInOrder(lib, doc.clients);
        if forall i, j :: i in doc.clients && j in doc.clients && i != j ==>
          Apart(lib, doc.clients[i], doc.clients[j])
        {
          FittingClients(lib, doc, server, peers, ids);
        }
      }
    }
  }
}
