/** The client's side: what a WireGuard client reads from a rendered configuration, and that the device expects it. */
module Configurations {
  import opened Prelude
  import opened Text
  import opened Ipv4
  import opened Keys
  import opened Peers
  import opened Operations
  import opened Protocol
  import opened Runs
  import opened Theorems

  /** The value of `name` in `section`, of the first such line; None if there is none. */
  function Lookup(lines: seq<string>, current: string, section: string, name: string): Option<string>
    decreases |lines|
  {
    if lines == [] then None
    else if lines[0] != "" && lines[0][0] == '[' then Lookup(lines[1..], lines[0], section, name)
    else if current == section && name + " = " <= lines[0] then Some(lines[0][|name + " = "|..])
    else Lookup(lines[1..], current, section, name)
  }

  function ReadValue(text: string, section: string, name: string): Option<string>
  {
    Lookup(Split(text, '\n'), "", section, name)
  }

  /** A line that is neither a section nor a value of one of these names. */
  predicate Other(line: string, names: seq<string>)
  {
    (line == "" || line[0] != '[') && forall n :: n in names ==> !(n + " = " <= line)
  }

  /** The configured texts fit on their lines, and the transport's lines are about other things. */
  predicate PlainConfig(cfg: Config)
  {
    && (forall l :: l in cfg.interfaceLines ==> '\n' !in l && Other(l, ["PrivateKey", "Address"]))
    && (forall s :: s in cfg.dns ==> '\n' !in s) && (forall s :: s in cfg.clientAllowedIPs ==> '\n' !in s)
    && '\n' !in cfg.endpoint
  }

  lemma KeyOnOneLine(s: string)
    requires OneLineKey(s)
    ensures '\n' !in s
  {
    OneLineKeyChars(s);
    hide ParseKey;
  }

  lemma AddressOnOneLine(p: Peer)
    requires ParseDotted(p.address).Some?
    ensures '\n' !in p.address
  {
    DottedRoundTrip(p.address, QuadOf(p));
    PrintedQuadLacks(QuadOf(p), '\n');
  }

  function Lines(cfg: Config, p: Peer, serverKey: Key): seq<string>
  {
    InterfaceLines(cfg, p) + [""] + PeerLines(cfg, p, serverKey)
  }

  predicate OneLine(s: string)
  {
    '\n' !in s
  }

  lemma OneLineValue(name: string, value: string)
    requires OneLine(name) && OneLine(value)
    ensures OneLine(name + value)
  {
  }

  lemma FixedTexts()
    ensures OneLine("[Interface]") && OneLine("PrivateKey = ") && OneLine("Address = ") && OneLine("/32")
    ensures OneLine("DNS = ")
    ensures OneLine("[Peer]") && OneLine("PublicKey = ") && OneLine("PresharedKey = ") && OneLine("AllowedIPs = ")
    ensures OneLine("Endpoint = ") && OneLine("PersistentKeepalive = ") && OneLine("")
  {
  }

  lemma SixLines(a: string, b: string, c: string, d: string, e: string, f: string)
    requires OneLine(a) && OneLine(b) && OneLine(c) && OneLine(d) && OneLine(e) && OneLine(f)
    ensures forall l :: l in [a, b, c, d, e, f] ==> OneLine(l)
  {
  }

  lemma ThreeParts(a: seq<string>, b: seq<string>, c: seq<string>)
    requires forall l :: l in a || l in b || l in c ==> OneLine(l)
    ensures forall l :: l in a + b + c ==> OneLine(l)
  {
    hide OneLine;
  }

  lemma HeadOnLines(p: Peer)
    requires OneLine(p.privateKey) && OneLine(p.address)
    ensures forall l ::
      l in ["[Interface]", "PrivateKey = " + p.privateKey, "Address = " + p.address + "/32"] ==> OneLine(l)
  {
    hide OneLine;
    FixedTexts();
    OneLineValue("PrivateKey = ", p.privateKey);
    OneLineValue("Address = ", p.address);
    OneLineValue("Address = " + p.address, "/32");
  }

  lemma InterfaceOnLines(cfg: Config, p: Peer)
    requires PlainConfig(cfg) && CanonicalPeer(p)
    ensures forall l :: l in InterfaceLines(cfg, p) ==> OneLine(l)
  {
    KeyOnOneLine(p.privateKey);
    AddressOnOneLine(p);
    JoinLacks(cfg.dns, ", ", '\n');
    var head := ["[Interface]", "PrivateKey = " + p.privateKey, "Address = " + p.address + "/32"];
    var dns := if cfg.dns == [] then [] else ["DNS = " + Join(cfg.dns, ", ")];
    assert forall l :: l in cfg.interfaceLines ==> OneLine(l);
    HeadOnLines(p);
    assert forall l :: l in dns ==> OneLine(l);
    hide OneLine, CanonicalPeer, Join, PlainConfig;
    ThreeParts(head, cfg.interfaceLines, dns);
  }

  lemma PeerOnLines(cfg: Config, p: Peer, serverKey: Key)
    requires PlainConfig(cfg) && CanonicalPeer(p)
    ensures forall l :: l in PeerLines(cfg, p, serverKey) ==> OneLine(l)
  {
    KeyOnOneLine(p.presharedKey);
    ParsePrintedKey(serverKey);
    KeyOnOneLine(PrintKey(serverKey));
    JoinLacks(cfg.clientAllowedIPs, ", ", '\n');
    DecChars(cfg.keepalive);
    assert OneLine(p.presharedKey) && OneLine(PrintKey(serverKey)) && OneLine(Join(cfg.clientAllowedIPs, ", "))
      && OneLine(cfg.endpoint) && OneLine(Dec(cfg.keepalive));
    hide OneLine, CanonicalKey, OneLineKey, CanonicalPeer, PrintKey, Join, Dec, PlainConfig;
    FixedTexts();
    OneLineValue("PublicKey = ", PrintKey(serverKey));
    OneLineValue("PresharedKey = ", p.presharedKey);
    OneLineValue("AllowedIPs = ", Join(cfg.clientAllowedIPs, ", "));
    OneLineValue("Endpoint = ", cfg.endpoint);
    OneLineValue("PersistentKeepalive = ", Dec(cfg.keepalive));
    SixLines("[Peer]", "PublicKey = " + PrintKey(serverKey), "PresharedKey = " + p.presharedKey,
      "AllowedIPs = " + Join(cfg.clientAllowedIPs, ", "), "Endpoint = " + cfg.endpoint,
      "PersistentKeepalive = " + Dec(cfg.keepalive));
  }

  lemma {:induction false} JoinWithEmpty(lines: seq<string>)
    requires lines != []
    ensures Join(lines + [""], "\n") == Join(lines, "\n") + "\n"
    decreases |lines|
  {
    if |lines| == 1 {
      assert (lines + [""])[1..] == [""];
    } else {
      JoinWithEmpty(lines[1..]);
      assert (lines + [""])[1..] == lines[1..] + [""];
    }
  }

  /** The text splits into the lines it was put together from. */
  lemma RenderedLines(cfg: Config, p: Peer, serverKey: Key)
    requires PlainConfig(cfg) && CanonicalPeer(p)
    ensures Split(Render(cfg, p, serverKey), '\n') == Lines(cfg, p, serverKey) + [""]
  {
    InterfaceOnLines(cfg, p);
    PeerOnLines(cfg, p, serverKey);
    var lines := Lines(cfg, p, serverKey);
    hide InterfaceLines, PeerLines, Join, Split, PlainConfig, CanonicalPeer;
    JoinWithEmpty(lines);
    SplitJoin(lines + [""], '\n');
    assert ['\n'] == "\n";
  }

  // ---- looking values up ----

  lemma Skip(lines: seq<string>, current: string, section: string, name: string)
    requires lines != [] && Other(lines[0], [name])
    ensures Lookup(lines, current, section, name) == Lookup(lines[1..], current, section, name)
  {
    assert name in [name];
  }

  lemma {:induction false} SkipAll(skipped: seq<string>, rest: seq<string>, current: string, section: string,
      name: string)
    requires forall l :: l in skipped ==> current != section || Other(l, [name])
    requires forall l :: l in skipped ==> l == "" || l[0] != '['
    ensures Lookup(skipped + rest, current, section, name) == Lookup(rest, current, section, name)
    decreases |skipped|
  {
    if skipped == [] {
      assert skipped + rest == rest;
    } else {
      SkipAll(skipped[1..], rest, current, section, name);
      assert (skipped + rest)[1..] == skipped[1..] + rest && (skipped + rest)[0] == skipped[0];
      assert skipped[0] in skipped && name in [name];
    }
  }

  lemma Enter(section: string, rest: seq<string>, current: string, wanted: string, name: string)
    requires section != "" && section[0] == '['
    ensures Lookup([section] + rest, current, wanted, name) == Lookup(rest, section, wanted, name)
  {
    assert ([section] + rest)[1..] == rest;
  }

  lemma Find(name: string, value: string, rest: seq<string>, section: string)
    requires name != "" && name[0] != '['
    ensures Lookup([name + " = " + value] + rest, section, section, name) == Some(value)
  {
    var line := name + " = " + value;
    assert line[..|name + " = "|] == name + " = " && line[|name + " = "|..] == value;
  }

  /** The lines behind the head of the interface section, up to the peer section. */
  function Middle(cfg: Config): seq<string>
  {
    cfg.interfaceLines + (if cfg.dns == [] then [] else ["DNS = " + Join(cfg.dns, ", ")]) + [""]
  }

  function Entry(name: string, value: string): seq<string>
  {
    [name + " = " + value]
  }

  /** The lines as a chain: one step of a reader at a time. */
  function PeerChain(cfg: Config, p: Peer, serverKey: Key): seq<string>
  {
    Entry("PublicKey", PrintKey(serverKey)) + (Entry("PresharedKey", p.presharedKey) + (
      Entry("AllowedIPs", Join(cfg.clientAllowedIPs, ", ")) + (Entry("Endpoint", cfg.endpoint) + (
        Entry("PersistentKeepalive", Dec(cfg.keepalive)) + [""]))))
  }

  function Chain(cfg: Config, p: Peer, serverKey: Key): seq<string>
  {
    ["[Interface]"] + (Entry("PrivateKey", p.privateKey) + (Entry("Address", p.address + "/32") + (
      Middle(cfg) + (["[Peer]"] + PeerChain(cfg, p, serverKey)))))
  }

  lemma LinesAreChain(cfg: Config, p: Peer, serverKey: Key)
    ensures Lines(cfg, p, serverKey) + [""] == Chain(cfg, p, serverKey)
  {
    assert "PrivateKey" + " = " == "PrivateKey = " && "Address" + " = " == "Address = ";
    assert "Address = " + p.address + "/32" == "Address = " + (p.address + "/32");
    assert "PublicKey" + " = " == "PublicKey = " && "PresharedKey" + " = " == "PresharedKey = ";
    assert "AllowedIPs" + " = " == "AllowedIPs = " && "Endpoint" + " = " == "Endpoint = ";
    assert "PersistentKeepalive" + " = " == "PersistentKeepalive = ";
    hide Join, Dec, PrintKey;
  }

  lemma MiddleIsOther(cfg: Config)
    requires PlainConfig(cfg)
    ensures forall l :: l in Middle(cfg) ==> l == "" || l[0] != '['
  {
    hide Join;
  }

  /** A line for `name` is none for `wanted` if the two names differ somewhere, at `i`. */
  lemma Otherwise(name: string, value: string, wanted: string, i: nat)
    requires i < |name| && i < |wanted| && name[i] != wanted[i] && name[0] != '['
    ensures Other(name + " = " + value, [wanted])
  {
    var line := name + " = " + value;
    assert line[i] == name[i] && (wanted + " = ")[i] == wanted[i];
  }

  lemma ReadInterface(cfg: Config, p: Peer, serverKey: Key)
    ensures Lookup(Chain(cfg, p, serverKey), "", "[Interface]", "PrivateKey") == Some(p.privateKey)
    ensures Lookup(Chain(cfg, p, serverKey), "", "[Interface]", "Address") == Some(p.address + "/32")
  {
    hide Middle, PeerChain, Lookup, Other;
    var rest := Middle(cfg) + (["[Peer]"] + PeerChain(cfg, p, serverKey));
    var address := Entry("Address", p.address + "/32") + rest;
    var key := Entry("PrivateKey", p.privateKey) + address;
    Enter("[Interface]", key, "", "[Interface]", "PrivateKey");
    Enter("[Interface]", key, "", "[Interface]", "Address");
    Find("PrivateKey", p.privateKey, address, "[Interface]");
    Otherwise("PrivateKey", p.privateKey, "Address", 0);
    Skip(key, "[Interface]", "[Interface]", "Address");
    assert key[1..] == address;
    Find("Address", p.address + "/32", rest, "[Interface]");
  }

  lemma ReachPeer(cfg: Config, p: Peer, serverKey: Key, name: string)
    requires PlainConfig(cfg)
    ensures Lookup(Chain(cfg, p, serverKey), "", "[Peer]", name)
      == Lookup(PeerChain(cfg, p, serverKey), "[Peer]", "[Peer]", name)
  {
    MiddleIsOther(cfg);
    hide Middle, PeerChain, Lookup, PlainConfig;
    var peer := PeerChain(cfg, p, serverKey);
    var head := Entry("PrivateKey", p.privateKey) + Entry("Address", p.address + "/32") + Middle(cfg);
    assert Chain(cfg, p, serverKey) == ["[Interface]"] + (head + (["[Peer]"] + peer));
    Enter("[Interface]", head + (["[Peer]"] + peer), "", "[Peer]", name);
    SkipAll(head, ["[Peer]"] + peer, "[Interface]", "[Peer]", name);
    Enter("[Peer]", peer, "[Interface]", "[Peer]", name);
  }

  lemma SkipEntry(name: string, value: string, rest: seq<string>, wanted: string, i: nat)
    requires i < |name| && i < |wanted| && name[i] != wanted[i] && name[0] != '['
    ensures Lookup(Entry(name, value) + rest, "[Peer]", "[Peer]", wanted) == Lookup(rest, "[Peer]", "[Peer]", wanted)
  {
    hide Lookup, Other;
    Otherwise(name, value, wanted, i);
    Skip(Entry(name, value) + rest, "[Peer]", "[Peer]", wanted);
    assert (Entry(name, value) + rest)[1..] == rest;
  }

  lemma FindEntry(name: string, value: string, rest: seq<string>)
    requires name != "" && name[0] != '['
    ensures Lookup(Entry(name, value) + rest, "[Peer]", "[Peer]", name) == Some(value)
  {
    hide Lookup;
    Find(name, value, rest, "[Peer]");
  }

  lemma ReadKeys(cfg: Config, p: Peer, serverKey: Key)
    ensures Lookup(PeerChain(cfg, p, serverKey), "[Peer]", "[Peer]", "PublicKey") == Some(PrintKey(serverKey))
    ensures Lookup(PeerChain(cfg, p, serverKey), "[Peer]", "[Peer]", "PresharedKey") == Some(p.presharedKey)
  {
    hide Lookup, PrintKey, Join, Dec, Entry;
    var rest := Entry("AllowedIPs", Join(cfg.clientAllowedIPs, ", ")) + (Entry("Endpoint", cfg.endpoint) + (
      Entry("PersistentKeepalive", Dec(cfg.keepalive)) + [""]));
    var psk := Entry("PresharedKey", p.presharedKey) + rest;
    FindEntry("PublicKey", PrintKey(serverKey), psk);
    SkipEntry("PublicKey", PrintKey(serverKey), psk, "PresharedKey", 1);
    FindEntry("PresharedKey", p.presharedKey, rest);
  }

  lemma SkipKeys(cfg: Config, p: Peer, serverKey: Key, rest: seq<string>, wanted: string)
    requires |wanted| > 1 && wanted[1] != 'u' && (wanted[0] != 'P' || (|wanted| > 2 && wanted[2] != 'e'))
    ensures var keys := Entry("PublicKey", PrintKey(serverKey)) + (Entry("PresharedKey", p.presharedKey) + rest);
      Lookup(keys, "[Peer]", "[Peer]", wanted) == Lookup(rest, "[Peer]", "[Peer]", wanted)
  {
    hide Lookup, PrintKey, Entry;
    SkipEntry("PublicKey", PrintKey(serverKey), Entry("PresharedKey", p.presharedKey) + rest, wanted, 1);
    SkipEntry("PresharedKey", p.presharedKey, rest, wanted, if wanted[0] != 'P' then 0 else 2);
  }

  lemma ReadRoute(cfg: Config, p: Peer, serverKey: Key)
    ensures Lookup(PeerChain(cfg, p, serverKey), "[Peer]", "[Peer]", "AllowedIPs")
      == Some(Join(cfg.clientAllowedIPs, ", "))
    ensures Lookup(PeerChain(cfg, p, serverKey), "[Peer]", "[Peer]", "Endpoint") == Some(cfg.endpoint)
    ensures Lookup(PeerChain(cfg, p, serverKey), "[Peer]", "[Peer]", "PersistentKeepalive") == Some(Dec(cfg.keepalive))
  {
    hide Lookup, PrintKey, Join, Dec, Entry;
    var allowed := Join(cfg.clientAllowedIPs, ", ");
    var keepalive := Entry("PersistentKeepalive", Dec(cfg.keepalive)) + [""];
    var endpoint := Entry("Endpoint", cfg.endpoint) + keepalive;
    var rest := Entry("AllowedIPs", allowed) + endpoint;
    SkipKeys(cfg, p, serverKey, rest, "AllowedIPs");
    SkipKeys(cfg, p, serverKey, rest, "Endpoint");
    SkipKeys(cfg, p, serverKey, rest, "PersistentKeepalive");
    FindEntry("AllowedIPs", allowed, endpoint);
    SkipEntry("AllowedIPs", allowed, endpoint, "Endpoint", 0);
    SkipEntry("AllowedIPs", allowed, endpoint, "PersistentKeepalive", 0);
    FindEntry("Endpoint", cfg.endpoint, keepalive);
    SkipEntry("Endpoint", cfg.endpoint, keepalive, "PersistentKeepalive", 0);
    FindEntry("PersistentKeepalive", Dec(cfg.keepalive), [""]);
  }

  /** A client that reads a rendered configuration finds every value in its section, whatever the transport adds. */
  lemma ConfigurationReadsBack(cfg: Config, p: Peer, serverKey: Key)
    requires PlainConfig(cfg) && CanonicalPeer(p)
    ensures var text := Render(cfg, p, serverKey);
      && ReadValue(text, "[Interface]", "PrivateKey") == Some(p.privateKey)
      && ReadValue(text, "[Interface]", "Address") == Some(p.address + "/32")
      && ReadValue(text, "[Peer]", "PublicKey") == Some(PrintKey(serverKey))
      && ReadValue(text, "[Peer]", "PresharedKey") == Some(p.presharedKey)
      && ReadValue(text, "[Peer]", "AllowedIPs") == Some(Join(cfg.clientAllowedIPs, ", "))
      && ReadValue(text, "[Peer]", "Endpoint") == Some(cfg.endpoint)
      && ReadValue(text, "[Peer]", "PersistentKeepalive") == Some(Dec(cfg.keepalive))
  {
    hide Render, Lookup, Split, Join, Dec, PrintKey, Lines, Chain, PeerChain, PlainConfig, CanonicalPeer;
    RenderedLines(cfg, p, serverKey);
    LinesAreChain(cfg, p, serverKey);
    ReadInterface(cfg, p, serverKey);
    ReadKeys(cfg, p, serverKey);
    ReadRoute(cfg, p, serverKey);
    ReachPeer(cfg, p, serverKey, "PublicKey");
    ReachPeer(cfg, p, serverKey, "PresharedKey");
    ReachPeer(cfg, p, serverKey, "AllowedIPs");
    ReachPeer(cfg, p, serverKey, "Endpoint");
    ReachPeer(cfg, p, serverKey, "PersistentKeepalive");
  }

  // ---- whole sections ----

  /** The lines of `section`, blank ones included. */
  function SectionOf(lines: seq<string>, current: string, section: string): seq<string>
    decreases |lines|
  {
    if lines == [] then []
    else if lines[0] != "" && lines[0][0] == '[' then SectionOf(lines[1..], lines[0], section)
    else (if current == section then [lines[0]] else []) + SectionOf(lines[1..], current, section)
  }

  function ReadSection(text: string, section: string): seq<string>
  {
    SectionOf(Split(text, '\n'), "", section)
  }

  lemma {:induction false} SectionGoesOn(lines: seq<string>, rest: seq<string>, current: string, section: string)
    requires forall l :: l in lines ==> l == "" || l[0] != '['
    ensures SectionOf(lines + rest, current, section)
      == (if current == section then lines else []) + SectionOf(rest, current, section)
    decreases |lines|
  {
    if lines == [] {
      assert lines + rest == rest;
    } else {
      SectionGoesOn(lines[1..], rest, current, section);
      assert (lines + rest)[1..] == lines[1..] + rest && (lines + rest)[0] == lines[0];
      assert lines == [lines[0]] + lines[1..] && lines[0] in lines;
    }
  }

  lemma SectionStarts(header: string, rest: seq<string>, current: string, section: string)
    requires header != "" && header[0] == '['
    ensures SectionOf([header] + rest, current, section) == SectionOf(rest, header, section)
  {
    assert ([header] + rest)[1..] == rest;
  }

  lemma SectionEnds(tail: seq<string>, section: string)
    requires forall l :: l in tail ==> l == "" || l[0] != '['
    ensures SectionOf(["[Peer]"] + tail, "[Interface]", section) == if section == "[Peer]" then tail else []
  {
    SectionStarts("[Peer]", tail, "[Interface]", section);
    SectionGoesOn(tail, [], "[Peer]", section);
    assert tail + [] == tail;
  }

  lemma TwoSections(head: seq<string>, tail: seq<string>)
    requires forall l :: l in head || l in tail ==> l == "" || l[0] != '['
    ensures var lines := ["[Interface]"] + (head + (["[Peer]"] + tail));
      SectionOf(lines, "", "[Interface]") == head && SectionOf(lines, "", "[Peer]") == tail
  {
    hide SectionOf;
    var peer := ["[Peer]"] + tail;
    SectionStarts("[Interface]", head + peer, "", "[Interface]");
    SectionStarts("[Interface]", head + peer, "", "[Peer]");
    SectionGoesOn(head, peer, "[Interface]", "[Interface]");
    SectionGoesOn(head, peer, "[Interface]", "[Peer]");
    SectionEnds(tail, "[Interface]");
    SectionEnds(tail, "[Peer]");
  }

  function InterfaceSection(cfg: Config, p: Peer): seq<string>
  {
    ["PrivateKey = " + p.privateKey, "Address = " + p.address + "/32"] + cfg.interfaceLines
    + (if |cfg.dns| > 0 then ["DNS = " + Join(cfg.dns, ", ")] else []) + [""]
  }

  function PeerSection(cfg: Config, p: Peer, serverKey: Key): seq<string>
  {
    ["PublicKey = " + PrintKey(serverKey), "PresharedKey = " + p.presharedKey,
     "AllowedIPs = " + Join(cfg.clientAllowedIPs, ", "), "Endpoint = " + cfg.endpoint,
     "PersistentKeepalive = " + Dec(cfg.keepalive), ""]
  }

  /** Nothing but these lines is in the two sections, and all of them are. */
  predicate HasSections(cfg: Config, p: Peer, serverKey: Key, text: string)
  {
    && ReadSection(text, "[Interface]") == InterfaceSection(cfg, p)
    && ReadSection(text, "[Peer]") == PeerSection(cfg, p, serverKey)
  }

  /** What a client is to find in its configuration. */
  predicate Configures(cfg: Config, p: Peer, serverKey: Key, text: string)
  {
    && ReadValue(text, "[Interface]", "PrivateKey") == Some(p.privateKey)
    && ReadValue(text, "[Interface]", "Address") == Some(p.address + "/32")
    && ReadValue(text, "[Peer]", "PublicKey") == Some(PrintKey(serverKey))
    && ReadValue(text, "[Peer]", "PresharedKey") == Some(p.presharedKey)
    && ReadValue(text, "[Peer]", "AllowedIPs") == Some(Join(cfg.clientAllowedIPs, ", "))
    && ReadValue(text, "[Peer]", "Endpoint") == Some(cfg.endpoint)
    && ReadValue(text, "[Peer]", "PersistentKeepalive") == Some(Dec(cfg.keepalive))
  }

  lemma NoHeaders(cfg: Config, p: Peer, serverKey: Key)
    requires PlainConfig(cfg)
    ensures forall l :: l in InterfaceSection(cfg, p) || l in PeerSection(cfg, p, serverKey) ==> l == "" || l[0] != '['
  {
    hide Join, Dec, PrintKey;
    assert forall l :: l in cfg.interfaceLines ==> l == "" || l[0] != '[';
  }

  lemma LinesBySection(cfg: Config, p: Peer, serverKey: Key)
    ensures Lines(cfg, p, serverKey) + [""]
      == ["[Interface]"] + (InterfaceSection(cfg, p) + (["[Peer]"] + PeerSection(cfg, p, serverKey)))
  {
    hide Join, Dec, PrintKey;
  }

  /** The whole text, section by section: the transport's lines and the DNS servers stand where they belong. */
  lemma SectionsReadBack(cfg: Config, p: Peer, serverKey: Key)
    requires PlainConfig(cfg) && CanonicalPeer(p)
    ensures HasSections(cfg, p, serverKey, Render(cfg, p, serverKey))
  {
    hide Render, Split, Lines, PlainConfig, CanonicalPeer, SectionOf, InterfaceSection, PeerSection;
    RenderedLines(cfg, p, serverKey);
    NoHeaders(cfg, p, serverKey);
    TwoSections(InterfaceSection(cfg, p), PeerSection(cfg, p, serverKey));
    LinesBySection(cfg, p, serverKey);
  }

  lemma Configured(cfg: Config, p: Peer, serverKey: Key)
    requires PlainConfig(cfg) && CanonicalPeer(p)
    ensures Configures(cfg, p, serverKey, Render(cfg, p, serverKey))
    ensures HasSections(cfg, p, serverKey, Render(cfg, p, serverKey))
  {
    hide Render, ReadValue, ReadSection, PlainConfig, CanonicalPeer;
    ConfigurationReadsBack(cfg, p, serverKey);
    SectionsReadBack(cfg, p, serverKey);
  }

  // ---- the device's side ----

  lemma ListedPeer(lib: Library, cfg: Config, s: Sys, p: Peer)
    requires Inv(lib, cfg, s) && s.up && p in s.view.current.value && p.enabled && KeyOf(p) !in s.dirty
    ensures ValidPeer(lib, cfg.net, p) && CanonicalPeer(p) && AgreesAt(p, s.view.table) && Slot(p) == {Home(p)}
    ensures forall j :: j in s.view.table && Home(p) in s.view.table[j].allowed ==> j == KeyOf(p)
  {
    hide ValidPeer, CanonicalPeer, KeyOf, Home, PskOf, HoldsHome;
    var i :| 0 <= i < |s.view.current.value| && s.view.current.value[i] == p;
    MemberValid(lib, cfg.net, s.view.current.value, i);
    forall j | j in s.view.table && Home(p) in s.view.table[j].allowed ensures j == KeyOf(p) {
      AddressIsExclusive(lib, cfg, s, p, j);
    }
  }

  lemma RecordKeys(lib: Library, net: Network, p: Peer)
    requires ValidPeer(lib, net, p) && CanonicalPeer(p)
    ensures ParseKey(p.privateKey).Some? && KeyOf(p) == lib.pub(ParseKey(p.privateKey).value)
    ensures ParseKey(p.presharedKey) == Some(PskOf(p)) && ParseCIDR(lib.v6, p.address + "/32") == Some(Home(p))
  {
    DottedRoundTrip(p.address, QuadOf(p));
    ParseHost32(lib.v6, QuadOf(p));
    hide ParseKey, ParseCIDR, ParseDotted, PrintQuad, TrimSpace;
  }

  /**
   * While the agent is up, the configuration of an enabled, settled peer fits the device: the client's own key pair is
   * the one the device knows it by, the preshared keys are the same, and the client's address is all that the device
   * routes to it and to nobody else.
   */
  lemma ConfigurationFitsDevice(lib: Library, cfg: Config, s: Sys, p: Peer, serverKey: Key)
    requires Inv(lib, cfg, s) && s.up && PlainConfig(cfg)
    requires p in s.view.current.value && p.enabled && KeyOf(p) !in s.dirty
    ensures var text := Render(cfg, p, serverKey);
      var privateKey := ReadValue(text, "[Interface]", "PrivateKey");
      var address := ReadValue(text, "[Interface]", "Address");
      var psk := ReadValue(text, "[Peer]", "PresharedKey");
      && privateKey.Some? && address.Some? && psk.Some? && ParseKey(privateKey.value).Some?
      && var k := lib.pub(ParseKey(privateKey.value).value);
         && k in s.view.table
         && ParseKey(psk.value) == Some(s.view.table[k].psk)
         && s.view.table[k].allowed == {Home(p)} && ParseCIDR(lib.v6, address.value) == Some(Home(p))
         && forall j :: j in s.view.table && Home(p) in s.view.table[j].allowed ==> j == k
  {
    ListedPeer(lib, cfg, s, p);
    RecordKeys(lib, cfg.net, p);
    hide Render, ReadValue, PlainConfig, CanonicalPeer, ValidPeer, ParseKey, ParseCIDR, KeyOf, PskOf, Home, Inv;
    ConfigurationReadsBack(cfg, p, serverKey);
  }
}
