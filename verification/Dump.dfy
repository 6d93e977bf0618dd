/** The text of `awg show <interface> dump`: lines of tab-separated fields, one of them a comma-separated list. */
module Dump {
  import opened Prelude
  import opened Text
  import opened Ipv4
  import opened Keys
  import opened Peers
  import opened Views

  /** What the model leaves open: IPv6 spellings and the resolving of endpoints. */
  datatype Reader = Reader(v6: Ipv6Reader, resolve: string -> Option<string>)

  const NONE := "(none)"

  const MARK_LIMIT := 0x1_0000_0000

  // ---- reading ----

  function ParseOptionalKey(s: string): Option<Key>
  {
    if s == NONE || s == "" then Some(ZeroKey()) else ParseKey(s)
  }

  function ReadUint32(s: string, base: nat): Option<nat>
    requires base == 10 || base == 16
  {
    match ReadNumeral(s, base)
    case None => None
    case Some(n) => if n < MARK_LIMIT then Some(n) else None
  }

  /** The mark is read as hexadecimal, with or without 0x; only if that fails, as decimal. */
  function ParseMark(s: string): Option<nat>
  {
    var hex := ReadUint32(if "0x" <= s then s[2..] else s, 16);
    if hex.Some? then hex else ReadUint32(s, 10)
  }

  /** int64 arithmetic wraps around. */
  function Wrap64(x: int): int
  {
    (x + INT64_LIMIT) % (2 * INT64_LIMIT) - INT64_LIMIT
  }

  function ParseKeepalive(s: string): Option<int>
  {
    var value := TrimSpace(s);
    if value == "" || value == "off" then Some(0)
    else
      match ParseInt64(value)
      case None => None
      case Some(n) => if n < 0 then None else Some(Wrap64(n * SECOND))
  }

  function ParseAllowed(r: Reader, s: string): Option<seq<Prefix>>
  {
    if s == NONE || s == "" then Some([]) else ParseNetworks(r.v6, Split(s, ','))
  }

  function ParseEndpoint(r: Reader, s: string): Option<Option<string>>
  {
    if s == NONE then Some(None)
    else match r.resolve(s) case None => None case Some(e) => Some(Some(e))
  }

  function ParsePeer(r: Reader, fields: seq<string>): Option<DevicePeer>
  {
    if |fields| < 8 then None
    else
      match (ParseKey(fields[0]), ParseOptionalKey(fields[1]), ParseEndpoint(r, fields[2]), ParseAllowed(r, fields[3]))
      case (Some(key), Some(psk), Some(endpoint), Some(allowed)) =>
        (match (ParseInt64(fields[4]), ParseInt64(fields[5]), ParseInt64(fields[6]), ParseKeepalive(fields[7]))
         case (Some(handshake), Some(received), Some(transmitted), Some(keepalive)) =>
           Some(DevicePeer(key, psk, endpoint, allowed, if handshake > 0 then Some(handshake) else None,
             received, transmitted, keepalive))
         case _ => None)
      case _ => None
  }

  function ParsePeers(r: Reader, lines: seq<string>): Option<seq<DevicePeer>>
    decreases |lines|
  {
    if lines == [] then Some([])
    else
      var n := |lines| - 1;
      match ParsePeers(r, lines[..n])
      case None => None
      case Some(before) =>
        if TrimSpace(lines[n]) == "" then Some(before)
        else match ParsePeer(r, Split(lines[n], '\t')) case None => None case Some(p) => Some(before + [p])
  }

  function ParseHeader(name: string, fields: seq<string>): Option<DeviceView>
  {
    if |fields| < 4 then None
    else
      match (ParseOptionalKey(fields[0]), ParseOptionalKey(fields[1]), ParseInt64(fields[2]), ParseMark(fields[3]))
      case (Some(privateKey), Some(key), Some(port), Some(mark)) =>
        Some(DeviceView(name, "userspace", privateKey, key, port, mark, []))
      case _ => None
  }

  function ParseDump(r: Reader, name: string, raw: string): Option<DeviceView>
  {
    var lines := Split(TrimSpace(raw), '\n');
    if TrimSpace(lines[0]) == "" then None
    else
      match ParseHeader(name, Split(lines[0], '\t'))
      case None => None
      case Some(d) =>
        match ParsePeers(r, lines[1..])
        case None => None
        case Some(peers) => Some(d.(peers := peers))
  }

  method ReadPeer(r: Reader, fields: seq<string>) returns (p: Option<DevicePeer>)
    ensures p == ParsePeer(r, fields)
  {
    hide ParseKey, ParseInt64, ParseOptionalKey, ParseKeepalive;
    if |fields| < 8 {
      return None;
    }
    var key, psk := ParseKey(fields[0]), ParseOptionalKey(fields[1]);
    if key.None? || psk.None? {
      return None;
    }
    var endpoint := ParseEndpoint(r, fields[2]);
    if endpoint.None? {
      return None;
    }
    var allowed := Some([]);
    if fields[3] != NONE && fields[3] != "" {
      allowed := ReadNetworks(r.v6, Split(fields[3], ','));
      if allowed.None? {
        return None;
      }
    }
    var handshake, received, transmitted := ParseInt64(fields[4]), ParseInt64(fields[5]), ParseInt64(fields[6]);
    var keepalive := ParseKeepalive(fields[7]);
    if handshake.None? || received.None? || transmitted.None? || keepalive.None? {
      return None;
    }
    return Some(DevicePeer(key.value, psk.value, endpoint.value, allowed.value,
      if handshake.value > 0 then Some(handshake.value) else None, received.value, transmitted.value, keepalive.value));
  }

  lemma {:induction false} RestUnread(r: Reader, lines: seq<string>, i: nat)
    requires i <= |lines| && ParsePeers(r, lines[..i]).None?
    ensures ParsePeers(r, lines).None?
    decreases |lines|
  {
    hide ParsePeer, TrimSpace;
    if i < |lines| {
      var n := |lines| - 1;
      assert lines[..n][..i] == lines[..i];
      RestUnread(r, lines[..n], i);
    } else {
      assert lines[..i] == lines;
    }
  }

  method ReadDump(r: Reader, name: string, raw: string) returns (d: Option<DeviceView>)
    ensures d == ParseDump(r, name, raw)
  {
    hide ParsePeer, ParseHeader, TrimSpace;
    var lines := Split(TrimSpace(raw), '\n');
    if TrimSpace(lines[0]) == "" {
      return None;
    }
    d := ParseHeader(name, Split(lines[0], '\t'));
    if d.None? {
      return;
    }
    var rest := lines[1..];
    var peers: seq<DevicePeer> := [];
    assert rest[..0] == [];
    for i := 0 to |rest|
      invariant ParsePeers(r, rest[..i]) == Some(peers)
    {
      assert rest[..i + 1][..i] == rest[..i] && rest[..i + 1][i] == rest[i];
      if TrimSpace(rest[i]) != "" {
        var p := ReadPeer(r, Split(rest[i], '\t'));
        if p.None? {
          RestUnread(r, rest, i + 1);
          return None;
        }
        peers := peers + [p.value];
      }
    }
    assert rest[..|rest|] == rest;
    d := Some(d.value.(peers := peers));
  }

  // ---- writing ----

  function PrintOptionalKey(k: Key): string
  {
    if k == ZeroKey() then NONE else PrintKey(k)
  }

  function PrintMark(mark: nat): string
  {
    if mark == 0 then "0" else "0x" + Numeral(mark, 16)
  }

  function PrintAllowed(allowed: seq<Prefix>): string
  {
    if allowed == [] then NONE else Join(MapSeq(PrintPrefix, allowed), ",")
  }

  function PrintKeepalive(duration: int): string
  {
    if duration == 0 then "off" else FormatInt(duration / SECOND)
  }

  function PrintEndpoint(endpoint: Option<string>): string
  {
    if endpoint.Some? then endpoint.value else NONE
  }

  function HandshakeTime(p: DevicePeer): nat
  {
    if p.lastHandshake.Some? then p.lastHandshake.value else 0
  }

  function PeerFields(p: DevicePeer): (fields: seq<string>)
    ensures |fields| == 8
  {
    [PrintKey(p.key),
     PrintOptionalKey(p.psk),
     PrintEndpoint(p.endpoint),
     PrintAllowed(p.allowed),
     FormatInt(HandshakeTime(p)),
     FormatInt(p.received),
     FormatInt(p.transmitted),
     PrintKeepalive(p.keepalive)]
  }

  /** The mark is a text of its own, for tools differ in how they print it. */
  function HeaderFields(d: DeviceView, mark: string): (fields: seq<string>)
    ensures |fields| == 4
  {
    [PrintOptionalKey(d.privateKey), PrintOptionalKey(d.key), FormatInt(d.port), mark]
  }

  function PeerLine(p: DevicePeer): string
  {
    Join(PeerFields(p), "\t")
  }

  function DumpLines(d: DeviceView, mark: string): seq<string>
  {
    [Join(HeaderFields(d, mark), "\t")] + MapSeq(PeerLine, d.peers)
  }

  function PrintDump(d: DeviceView, mark: string): string
  {
    Join(DumpLines(d, mark), "\n") + "\n"
  }

  // ---- what can be written ----

  predicate PlainField(s: string)
  {
    '\t' !in s && '\n' !in s
  }

  /** A network whose text the library reads back: any masked IPv4 one, and an IPv6 one if the library does. */
  predicate PrintablePrefix(r: Reader, p: Prefix)
  {
    match p
    case Net4(base, ones) => ones <= 32 && Mask(base, ones) == base
    case Net6(text) => ParseCIDR(r.v6, text) == Some(p) && PlainField(text) && ',' !in text
  }

  predicate Int64(n: int)
  {
    -INT64_LIMIT <= n < INT64_LIMIT
  }

  predicate PrintablePeer(r: Reader, p: DevicePeer)
  {
    && (p.endpoint.Some? ==>
          var e := p.endpoint.value; r.resolve(e) == Some(e) && e != NONE && PlainField(e))
    && (forall i :: 0 <= i < |p.allowed| ==> PrintablePrefix(r, p.allowed[i]))
    && (p.lastHandshake.Some? ==> 0 < p.lastHandshake.value < INT64_LIMIT)
    && Int64(p.received) && Int64(p.transmitted)
    && 0 <= p.keepalive < INT64_LIMIT && p.keepalive % SECOND == 0
  }

  predicate Printable(r: Reader, d: DeviceView)
  {
    && d.typeName == "userspace" && Int64(d.port)
    && forall i :: 0 <= i < |d.peers| ==> PrintablePeer(r, d.peers[i])
  }

  predicate MarkText(mark: string)
  {
    mark != "" && Trimmed(mark) && PlainField(mark)
  }

  /** The device with the mark that is read from the text, if one can be. */
  function WithMark(d: DeviceView, mark: string): Option<DeviceView>
  {
    match ParseMark(mark) case None => None case Some(n) => Some(d.(mark := n))
  }

  // ---- field by field ----

  lemma KeyField(k: Key)
    ensures ParseKey(PrintKey(k)) == Some(k) && PlainField(PrintKey(k)) && !IsSpace(PrintKey(k)[0])
    ensures PrintKey(k) != NONE && PrintKey(k) != ""
  {
    ParsePrintedKey(k);
    PrintedKeyChars(k);
    assert |NONE| == 6;
    hide ParseKey, PrintKey;
  }

  lemma OptionalKeyField(k: Key)
    ensures ParseOptionalKey(PrintOptionalKey(k)) == Some(k) && PlainField(PrintOptionalKey(k))
    ensures PrintOptionalKey(k) != "" && !IsSpace(PrintOptionalKey(k)[0])
  {
    KeyField(k);
    hide ParseKey, PrintKey;
  }

  lemma VisibleField(s: string)
    requires s != "" && forall c :: c in s ==> '-' <= c <= 'z'
    ensures PlainField(s) && Trimmed(s)
  {
    assert s[0] in s && s[|s| - 1] in s;
  }

  lemma NumberField(n: int)
    requires Int64(n)
    ensures ParseInt64(FormatInt(n)) == Some(n)
    ensures PlainField(FormatInt(n)) && FormatInt(n) != "" && Trimmed(FormatInt(n))
  {
    ParseFormatInt(n);
    hide ParseInt64, FormatInt, IsSpace;
    VisibleField(FormatInt(n));
  }

  lemma HexDigits(s: string)
    requires forall c :: c in s ==> IsDigit(c, 16)
    ensures forall c :: c in s ==> '-' <= c <= 'z'
  {
  }

  lemma ReadMark(mark: nat)
    requires 0 < mark < MARK_LIMIT
    ensures ParseMark("0x" + Numeral(mark, 16)) == Some(mark)
  {
    NumeralRoundTrip(mark, 16);
    hide Numeral, ReadNumeral;
    assert ("0x" + Numeral(mark, 16))[2..] == Numeral(mark, 16);
  }

  lemma MarkField(mark: nat)
    requires mark < MARK_LIMIT
    ensures ParseMark(PrintMark(mark)) == Some(mark) && PlainField(PrintMark(mark))
    ensures PrintMark(mark) != "" && Trimmed(PrintMark(mark))
  {
    if mark == 0 {
      assert ReadNumeral("0", 16) == Some(0);
    } else {
      NumeralChars(mark, 16);
      HexDigits(Numeral(mark, 16));
      ReadMark(mark);
    }
    hide Numeral, ReadNumeral, IsSpace, IsDigit, ParseMark;
    VisibleField(PrintMark(mark));
  }

  lemma WholeSeconds(duration: int)
    requires 0 < duration < INT64_LIMIT && duration % SECOND == 0
    ensures 0 < duration / SECOND < INT64_LIMIT && duration / SECOND * SECOND == duration
  {
  }

  lemma NotWord(n: int)
    requires Int64(n)
    ensures FormatInt(n) != "off"
  {
    ParseFormatInt(n);
    hide FormatInt, ParseInt64;
    assert 'o' in "off";
  }

  lemma WrapExact(x: int)
    ensures Wrap64(x) == x <==> Int64(x)
  {
  }

  lemma ReadKeepalive(n: int)
    requires 0 < n && Int64(n) && Int64(n * SECOND)
    ensures ParseKeepalive(FormatInt(n)) == Some(n * SECOND)
  {
    NumberField(n);
    NotWord(n);
    TrimLine(FormatInt(n));
    WrapExact(n * SECOND);
    hide ParseInt64, FormatInt, TrimSpace, Wrap64;
  }

  lemma KeepaliveField(duration: int)
    requires 0 <= duration < INT64_LIMIT && duration % SECOND == 0
    ensures ParseKeepalive(PrintKeepalive(duration)) == Some(duration) && PlainField(PrintKeepalive(duration))
    ensures PrintKeepalive(duration) != "" && Trimmed(PrintKeepalive(duration))
  {
    if duration == 0 {
      TrimLine("off");
    } else {
      WholeSeconds(duration);
      hide ParseKeepalive, FormatInt, IsSpace;
      ReadKeepalive(duration / SECOND);
      NumberField(duration / SECOND);
    }
  }

  lemma Net4Lacks(base: Quad, ones: nat, c: char)
    requires c in "\t\n,"
    ensures c !in PrintPrefix(Net4(base, ones))
  {
    PrintedQuadLacks(base, c);
    DecChars(ones);
    hide PrintQuad, Dec;
    assert c !in "/";
  }

  lemma PrefixField(r: Reader, p: Prefix)
    requires PrintablePrefix(r, p)
    ensures ParseCIDR(r.v6, PrintPrefix(p)) == Some(p) && PlainField(PrintPrefix(p)) && ',' !in PrintPrefix(p)
  {
    if p.Net4? {
      ParsePrintedNet4(r.v6, p.base, p.ones);
      Net4Lacks(p.base, p.ones, '\t');
      Net4Lacks(p.base, p.ones, '\n');
      Net4Lacks(p.base, p.ones, ',');
    }
    hide ParseCIDR;
  }

  lemma {:induction false} PrefixesRead(r: Reader, allowed: seq<Prefix>)
    requires forall i :: 0 <= i < |allowed| ==> PrintablePrefix(r, allowed[i])
    ensures ParseNetworks(r.v6, MapSeq(PrintPrefix, allowed)) == Some(allowed)
    decreases |allowed|
  {
    hide PrintPrefix, ParseCIDR;
    if allowed != [] {
      PrefixField(r, allowed[0]);
      PrefixesRead(r, allowed[1..]);
      assert MapSeq(PrintPrefix, allowed)[1..] == MapSeq(PrintPrefix, allowed[1..]);
      assert allowed == [allowed[0]] + allowed[1..];
    }
  }

  lemma JoinedPrefixes(r: Reader, allowed: seq<Prefix>)
    requires allowed != [] && forall i :: 0 <= i < |allowed| ==> PrintablePrefix(r, allowed[i])
    ensures Split(Join(MapSeq(PrintPrefix, allowed), ","), ',') == MapSeq(PrintPrefix, allowed)
    ensures PlainField(Join(MapSeq(PrintPrefix, allowed), ","))
  {
    hide PrintPrefix, ParseCIDR, Split, Join, PrintablePrefix;
    var texts := MapSeq(PrintPrefix, allowed);
    forall t | t in texts ensures ',' !in t && '\t' !in t && '\n' !in t {
      var i :| 0 <= i < |texts| && texts[i] == t;
      PrefixField(r, allowed[i]);
    }
    SplitJoin(texts, ',');
    assert [','] == ",";
    JoinLacks(texts, ",", '\t');
    JoinLacks(texts, ",", '\n');
  }

  lemma NotOneNetwork(r: Reader)
    ensures ParseNetworks(r.v6, Split(NONE, ',')) == None && ParseNetworks(r.v6, Split("", ',')) == None
  {
    assert ',' !in NONE && '/' !in NONE;
    SplitPrefix(NONE, "", ',');
    ParseOneNetwork(r.v6, NONE);
    ParseOneNetwork(r.v6, "");
  }

  lemma AllowedField(r: Reader, allowed: seq<Prefix>)
    requires forall i :: 0 <= i < |allowed| ==> PrintablePrefix(r, allowed[i])
    ensures ParseAllowed(r, PrintAllowed(allowed)) == Some(allowed) && PlainField(PrintAllowed(allowed))
  {
    hide PrintablePrefix, PrintPrefix, Split, Join, ParseNetworks;
    if allowed != [] {
      JoinedPrefixes(r, allowed);
      PrefixesRead(r, allowed);
      NotOneNetwork(r);
    }
  }

  // ---- line by line ----

  lemma EndpointField(r: Reader, p: DevicePeer)
    requires PrintablePeer(r, p)
    ensures ParseEndpoint(r, PrintEndpoint(p.endpoint)) == Some(p.endpoint) && PlainField(PrintEndpoint(p.endpoint))
    ensures Int64(HandshakeTime(p)) && p.lastHandshake == if HandshakeTime(p) > 0 then Some(HandshakeTime(p)) else None
  {
    hide PrintablePrefix;
  }

  lemma PeerFieldsRead(r: Reader, p: DevicePeer)
    requires PrintablePeer(r, p)
    ensures ParsePeer(r, PeerFields(p)) == Some(p)
  {
    hide ParseKey, ParseOptionalKey, ParseEndpoint, ParseAllowed, ParseInt64, ParseKeepalive, PrintKey,
      PrintOptionalKey,
      PrintEndpoint, PrintAllowed, PrintKeepalive, HandshakeTime, IsSpace, FormatInt, PrintablePrefix, PlainField,
      Trimmed;
    KeyField(p.key);
    OptionalKeyField(p.psk);
    EndpointField(r, p);
    AllowedField(r, p.allowed);
    NumberField(HandshakeTime(p));
    NumberField(p.received);
    NumberField(p.transmitted);
    KeepaliveField(p.keepalive);
  }

  lemma PeerFieldsPlain(r: Reader, p: DevicePeer)
    requires PrintablePeer(r, p)
    ensures forall f :: f in PeerFields(p) ==> PlainField(f)
    ensures PeerFields(p)[0] != "" && !IsSpace(PeerFields(p)[0][0])
    ensures PeerFields(p)[7] != "" && Trimmed(PeerFields(p)[7])
  {
    hide ParseKey, ParseOptionalKey, ParseEndpoint, ParseAllowed, ParseInt64, ParseKeepalive, PrintKey,
      PrintOptionalKey,
      PrintEndpoint, PrintAllowed, PrintKeepalive, HandshakeTime, IsSpace, FormatInt, PrintablePrefix, PlainField,
      Trimmed;
    KeyField(p.key);
    OptionalKeyField(p.psk);
    EndpointField(r, p);
    AllowedField(r, p.allowed);
    NumberField(HandshakeTime(p));
    NumberField(p.received);
    NumberField(p.transmitted);
    KeepaliveField(p.keepalive);
  }

  lemma HeaderLineFields(r: Reader, d: DeviceView, mark: string)
    requires Printable(r, d) && MarkText(mark)
    ensures ParseHeader(d.name, HeaderFields(d, mark)) == WithMark(d.(peers := []), mark)
    ensures forall f :: f in HeaderFields(d, mark) ==> PlainField(f)
    ensures HeaderFields(d, mark)[0] != "" && !IsSpace(HeaderFields(d, mark)[0][0])
    ensures HeaderFields(d, mark)[3] == mark
  {
    OptionalKeyField(d.privateKey);
    OptionalKeyField(d.key);
    NumberField(d.port);
    hide ParseOptionalKey, ParseInt64, ParseMark, PrintOptionalKey, FormatInt, IsSpace, PrintablePeer, Trimmed;
  }

  lemma {:induction false} JoinTail(parts: seq<string>, sep: string)
    requires |parts| > 0 && parts[|parts| - 1] != ""
    ensures var s := Join(parts, sep);
      s != "" && s[|s| - 1] == parts[|parts| - 1][|parts[|parts| - 1]| - 1]
    decreases |parts|
  {
    if |parts| > 1 {
      JoinTail(parts[1..], sep);
    }
  }

  lemma {:induction false} JoinEdges(parts: seq<string>, sep: string)
    requires |parts| > 1 && parts[0] != "" && parts[|parts| - 1] != ""
    ensures var s := Join(parts, sep);
      s != "" && s[0] == parts[0][0] && s[|s| - 1] == parts[|parts| - 1][|parts[|parts| - 1]| - 1]
    decreases |parts|
  {
    if |parts| == 2 {
      assert Join(parts[1..], sep) == parts[1];
    } else {
      JoinTail(parts, sep);
    }
  }

  /** A line of plain fields: it can be split again, holds no line break, and is trimmed if its edges are visible. */
  lemma LineOfFields(fields: seq<string>)
    requires |fields| > 1 && forall f :: f in fields ==> PlainField(f)
    requires fields[0] != "" && !IsSpace(fields[0][0])
    requires fields[|fields| - 1] != "" && Trimmed(fields[|fields| - 1])
    ensures var line := Join(fields, "\t");
      && Split(line, '\t') == fields && '\n' !in line
      && line != "" && !IsSpace(line[0]) && Trimmed(line) && TrimSpace(line) != ""
  {
    hide Split, IsSpace, TrimSpace;
    SplitJoin(fields, '\t');
    assert ['\t'] == "\t";
    JoinLacks(fields, "\t", '\n');
    JoinEdges(fields, "\t");
    hide Join;
    NotBlank(Join(fields, "\t"));
  }

  lemma {:induction false} PeerLinesRead(r: Reader, peers: seq<DevicePeer>)
    requires forall i :: 0 <= i < |peers| ==> PrintablePeer(r, peers[i])
    ensures ParsePeers(r, MapSeq(PeerLine, peers)) == Some(peers)
    decreases |peers|
  {
    hide PrintablePeer, ParsePeer, PeerFields, TrimSpace, Split, Join, IsSpace, PlainField, Trimmed;
    if peers != [] {
      var n := |peers| - 1;
      PeerLinesRead(r, peers[..n]);
      PeerFieldsRead(r, peers[n]);
      PeerFieldsPlain(r, peers[n]);
      LineOfFields(PeerFields(peers[n]));
      assert MapSeq(PeerLine, peers)[..n] == MapSeq(PeerLine, peers[..n]);
      assert peers == peers[..n] + [peers[n]];
    }
  }

  lemma LinesCount(d: DeviceView, mark: string)
    ensures |DumpLines(d, mark)| == 1 + |d.peers| && DumpLines(d, mark)[1..] == MapSeq(PeerLine, d.peers)
    ensures DumpLines(d, mark)[0] == Join(HeaderFields(d, mark), "\t")
  {
    hide PeerLine, HeaderFields, Join;
  }

  lemma DumpLinesAre(r: Reader, d: DeviceView, mark: string, i: nat)
    requires Printable(r, d) && MarkText(mark) && i < |DumpLines(d, mark)|
    ensures var line := DumpLines(d, mark)[i];
      '\n' !in line && line != "" && !IsSpace(line[0]) && Trimmed(line)
  {
    hide PrintablePeer, PeerFields, HeaderFields, Join, IsSpace, PlainField, Trimmed;
    LinesCount(d, mark);
    hide DumpLines;
    if i == 0 {
      HeaderLineFields(r, d, mark);
      LineOfFields(HeaderFields(d, mark));
    } else {
      assert DumpLines(d, mark)[i] == DumpLines(d, mark)[1..][i - 1] == PeerLine(d.peers[i - 1]);
      PeerFieldsPlain(r, d.peers[i - 1]);
      LineOfFields(PeerFields(d.peers[i - 1]));
    }
  }

  lemma OneLine(lines: seq<string>)
    requires |lines| == 1
    ensures Join(lines, "\n") == lines[0]
  {
  }

  /** The whole text, less the last line break, is trimmed and splits into its lines. */
  lemma DumpSplits(r: Reader, d: DeviceView, mark: string)
    requires Printable(r, d) && MarkText(mark)
    ensures Split(TrimSpace(PrintDump(d, mark)), '\n') == DumpLines(d, mark)
  {
    hide PrintablePeer, PeerFields, HeaderFields, Join, Split, IsSpace, TrimSpace, DumpLines, Printable, MarkText;
    var lines := DumpLines(d, mark);
    LinesCount(d, mark);
    forall line | line in lines ensures '\n' !in line {
      var i :| 0 <= i < |lines| && lines[i] == line;
      DumpLinesAre(r, d, mark, i);
    }
    SplitJoin(lines, '\n');
    assert ['\n'] == "\n";
    DumpLinesAre(r, d, mark, 0);
    DumpLinesAre(r, d, mark, |lines| - 1);
    var text := Join(lines, "\n");
    if |lines| > 1 {
      JoinEdges(lines, "\n");
    } else {
      OneLine(lines);
    }
    TrimLine(text);
  }

  /**
   * Reading undoes writing, for any number of peers and networks, in order, and however the mark is written: the device
   * is read with the mark that its text is taken for, and refused if it is taken for none.
   */
  lemma DumpReads(r: Reader, d: DeviceView, mark: string)
    requires Printable(r, d) && MarkText(mark)
    ensures ParseDump(r, d.name, PrintDump(d, mark)) == WithMark(d, mark)
  {
    hide PrintablePeer, ParsePeers, ParseHeader, HeaderFields, Join, Split, TrimSpace, PlainField, IsSpace, Trimmed,
      PrintDump, DumpLines, PeerLine, ParseMark;
    DumpSplits(r, d, mark);
    LinesCount(d, mark);
    HeaderLineFields(r, d, mark);
    LineOfFields(HeaderFields(d, mark));
    PeerLinesRead(r, d.peers);
  }

  /** With the mark as 0 or in hexadecimal behind 0x, exactly the printed device is read. */
  lemma DumpRoundTrip(r: Reader, d: DeviceView)
    requires Printable(r, d) && d.mark < MARK_LIMIT
    ensures ParseDump(r, d.name, PrintDump(d, PrintMark(d.mark))) == Some(d)
  {
    hide Printable, ParseMark, PrintMark, Trimmed, PlainField, ParseDump, PrintDump;
    MarkField(d.mark);
    DumpReads(r, d, PrintMark(d.mark));
  }

  // ---- where the formats of other tools are misread ----

  /** The number that decimal digits denote when read as hexadecimal. */
  function AsHex(n: nat): nat
  {
    if n < 10 then n else AsHex(n / 10) * 16 + n % 10
  }

  function Power(base: nat, k: nat): nat
  {
    if k == 0 then 1 else base * Power(base, k - 1)
  }

  lemma {:induction false} ReadAsHex(n: nat)
    ensures ReadNumeral(Dec(n), 16) == Some(AsHex(n))
    decreases n
  {
    DigitRoundTrip(n % 10);
    if n >= 10 {
      ReadAsHex(n / 10);
      var s := Dec(n);
      assert s[..|s| - 1] == Dec(n / 10) && s[|s| - 1] == DigitChar(n % 10);
    }
  }

  lemma {:induction false} AsHexGrows(n: nat)
    ensures AsHex(n) >= n && (AsHex(n) == n <==> n < 10)
    decreases n
  {
    if n >= 10 {
      AsHexGrows(n / 10);
    }
  }

  lemma {:induction false} PowerPositive(base: nat, k: nat)
    requires base > 0
    ensures Power(base, k) >= 1
    decreases k
  {
    if k > 0 {
      PowerPositive(base, k - 1);
    }
  }

  lemma {:induction false} AsHexDigits(n: nat, k: nat)
    ensures n < Power(10, k) <==> AsHex(n) < Power(16, k)
    decreases k
  {
    AsHexGrows(n);
    if k > 0 {
      if n < 10 {
        PowerPositive(10, k - 1);
        PowerPositive(16, k - 1);
      } else {
        AsHexDigits(n / 10, k - 1);
      }
    }
  }

  lemma Powers()
    ensures Power(10, 8) == 100_000_000 && Power(16, 8) == MARK_LIMIT
  {
    assert Power(10, 4) == 10_000 && Power(16, 4) == 0x1_0000;
  }

  /**
   * A mark written in decimal is read as the same number just when it is a single digit or has at least nine:
   * anything between is taken for hexadecimal.
   */
  lemma DecimalMark(mark: nat)
    requires mark < MARK_LIMIT
    ensures ParseMark(Dec(mark)) == Some(mark) <==> mark < 10 || mark >= 100_000_000
  {
    var s := Dec(mark);
    DecChars(mark);
    assert |s| >= 2 ==> s[1] in s;
    assert !("0x" <= s);
    hide Dec, ReadNumeral, AsHex, Power;
    ReadAsHex(mark);
    AsHexGrows(mark);
    AsHexDigits(mark, 8);
    Powers();
  }

  /** Some tools print `off` for no mark. */
  function ToolMark(mark: nat): string
  {
    if mark == 0 then "off" else "0x" + Numeral(mark, 16)
  }

  lemma OffMark()
    ensures ParseMark("off") == None && MarkText("off")
  {
    assert ReadNumeral("off"[..2], 16) == None by {
      assert "off"[..2][..1] == "o";
    }
  }

  /** The dump of such a tool is read back if and only if there is a mark; else it is refused. */
  lemma ToolDump(r: Reader, d: DeviceView)
    requires Printable(r, d) && d.mark < MARK_LIMIT
    ensures ParseDump(r, d.name, PrintDump(d, ToolMark(d.mark))) == if d.mark == 0 then None else Some(d)
  {
    if d.mark == 0 {
      OffMark();
    } else {
      MarkField(d.mark);
    }
    hide Printable, ParseMark, Trimmed, PlainField, ParseDump, PrintDump, Numeral;
    DumpReads(r, d, ToolMark(d.mark));
  }

  /** A dump with a decimal mark is read back if and only if the mark has one digit or at least nine. */
  lemma DecimalDump(r: Reader, d: DeviceView)
    requires Printable(r, d) && d.mark < MARK_LIMIT
    ensures ParseDump(r, d.name, PrintDump(d, Dec(d.mark))) == Some(d) <==> d.mark < 10 || d.mark >= 100_000_000
  {
    DecimalMark(d.mark);
    DecChars(d.mark);
    hide Printable, ParseMark, Trimmed, PlainField, ParseDump, PrintDump, Dec;
    VisibleField(Dec(d.mark));
    DumpReads(r, d, Dec(d.mark));
  }

  /** A keepalive is read back just when it is small enough to be counted in nanoseconds; else it wraps around. */
  lemma KeepaliveExact(n: nat)
    requires Int64(n)
    ensures ParseKeepalive(FormatInt(n)) == Some(n * SECOND) <==> n * SECOND < INT64_LIMIT
  {
    NumberField(n);
    NotWord(n);
    TrimLine(FormatInt(n));
    WrapExact(n * SECOND);
    hide ParseInt64, FormatInt, TrimSpace, Wrap64;
  }

  // ---- what is refused ----

  /** A negative keepalive is refused, and none is written in two ways. */
  lemma KeepaliveWords(n: int)
    requires Int64(n) && n < 0
    ensures ParseKeepalive(FormatInt(n)) == None && ParseKeepalive("off") == Some(0) && ParseKeepalive("") == Some(0)
  {
    NumberField(n);
    NotWord(n);
    TrimLine(FormatInt(n));
    TrimLine("off");
    hide ParseInt64, FormatInt, Wrap64;
  }

  /** The line of a peer is read if and only if it has eight fields or more, and each of the eight can be read. */
  lemma PeerIsExact(r: Reader, fields: seq<string>)
    ensures ParsePeer(r, fields).Some? <==>
      && |fields| >= 8
      && ParseKey(fields[0]).Some?
      && (fields[1] == "(none)" || fields[1] == "" || ParseKey(fields[1]).Some?)
      && (fields[2] == "(none)" || r.resolve(fields[2]).Some?)
      && (fields[3] == "(none)" || fields[3] == "" || ParseNetworks(r.v6, Split(fields[3], ',')).Some?)
      && ParseInt64(fields[4]).Some? && ParseInt64(fields[5]).Some? && ParseInt64(fields[6]).Some?
      && ParseKeepalive(fields[7]).Some?
    ensures ParsePeer(r, fields).Some? ==>
      var p := ParsePeer(r, fields).value;
      && ParseKey(fields[0]) == Some(p.key)
      && ParseInt64(fields[5]) == Some(p.received) && ParseInt64(fields[6]) == Some(p.transmitted)
      && ParseKeepalive(fields[7]) == Some(p.keepalive)
      && (if fields[1] == "(none)" || fields[1] == "" then p.psk == ZeroKey() else ParseKey(fields[1]) == Some(p.psk))
      && (if fields[2] == "(none)" then p.endpoint == None else p.endpoint == r.resolve(fields[2]))
      && (if fields[3] == "(none)" || fields[3] == "" then p.allowed == []
          else ParseNetworks(r.v6, Split(fields[3], ',')) == Some(p.allowed))
      && p.lastHandshake == if ParseInt64(fields[4]).value > 0 then Some(ParseInt64(fields[4]).value) else None
  {
    hide ParseKey, ParseInt64, ParseKeepalive, ParseNetworks, Split;
  }

  /** The header is read if and only if it has four fields or more, and each of the four can be read. */
  lemma HeaderIsExact(name: string, fields: seq<string>)
    ensures ParseHeader(name, fields).Some? <==>
      && |fields| >= 4
      && (fields[0] == "(none)" || fields[0] == "" || ParseKey(fields[0]).Some?)
      && (fields[1] == "(none)" || fields[1] == "" || ParseKey(fields[1]).Some?)
      && ParseInt64(fields[2]).Some? && ParseMark(fields[3]).Some?
    ensures ParseHeader(name, fields).Some? ==>
      var d := ParseHeader(name, fields).value;
      && d.name == name && d.typeName == "userspace"
      && (fields[0] == "(none)" || fields[0] == "" || ParseKey(fields[0]) == Some(d.privateKey))
      && (fields[1] == "(none)" || fields[1] == "" || ParseKey(fields[1]) == Some(d.key))
      && ParseInt64(fields[2]) == Some(d.port) && ParseMark(fields[3]) == Some(d.mark)
  {
    hide ParseKey, ParseInt64, ParseMark;
  }

  lemma {:induction false} PeersAreExact(r: Reader, lines: seq<string>)
    ensures ParsePeers(r, lines).Some? <==>
      forall i :: 0 <= i < |lines| && TrimSpace(lines[i]) != "" ==> ParsePeer(r, Split(lines[i], '\t')).Some?
    ensures ParsePeers(r, lines).Some? ==>
      forall p :: p in ParsePeers(r, lines).value <==>
        exists i :: 0 <= i < |lines| && TrimSpace(lines[i]) != "" && ParsePeer(r, Split(lines[i], '\t')) == Some(p)
    decreases |lines|
  {
    hide ParsePeer, Split, TrimSpace;
    if lines != [] {
      PeersAreExact(r, lines[..|lines| - 1]);
    }
  }

  /** A dump is read if and only if its header is and every line behind it is blank or a peer's; else it is refused. */
  lemma DumpIsExact(r: Reader, name: string, raw: string)
    ensures var lines := Split(TrimSpace(raw), '\n');
      ParseDump(r, name, raw).Some? <==>
        && TrimSpace(lines[0]) != "" && ParseHeader(name, Split(lines[0], '\t')).Some?
        && forall i :: 0 < i < |lines| && TrimSpace(lines[i]) != "" ==> ParsePeer(r, Split(lines[i], '\t')).Some?
  {
    var lines := Split(TrimSpace(raw), '\n');
    hide ParsePeer, Split, TrimSpace, ParseHeader, ParsePeers;
    PeersAreExact(r, lines[1..]);
    forall i | 0 < i < |lines| ensures lines[i] == lines[1..][i - 1] {
    }
  }
}
