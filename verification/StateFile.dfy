/** The text of `peers.json`: what Save writes and what Load makes of what it finds. */
module StateFile {
  import opened Prelude
  import opened Text
  import opened Ipv4
  import opened Keys
  import opened Json
  import opened Peers

  const STATE_VERSION := 1

  const READ_LIMIT := 1048576

  // ---- the document ----

  function Strings(items: seq<string>): (r: seq<Value>)
    ensures |r| == |items| && forall i :: 0 <= i < |items| ==> r[i] == Str(items[i])
  {
    seq(|items|, i requires 0 <= i < |items| => Str(items[i]))
  }

  function PeerValue(p: Peer): Value
  {
    Obj([
      Field("name", Str(p.name)),
      Field("address", Str(p.address)),
      Field("privateKey", Str(p.privateKey)),
      Field("publicKey", Str(p.publicKey)),
      Field("presharedKey", Str(p.presharedKey)),
      Field("allowedIps", Arr(Strings(p.allowedIPs))),
      Field("enabled", Bool(p.enabled))])
  }

  function PeerValues(peers: seq<Peer>): (r: seq<Value>)
    ensures |r| == |peers| && forall i :: 0 <= i < |peers| ==> r[i] == PeerValue(peers[i])
  {
    seq(|peers|, i requires 0 <= i < |peers| => PeerValue(peers[i]))
  }

  function StateValue(peers: seq<Peer>): Value
  {
    Obj([Field("version", Num("1")), Field("peers", Arr(PeerValues(peers)))])
  }

  /** What `Encode` writes for a state: the indented document and a line feed. */
  function EncodeState(peers: seq<Peer>): string
  {
    Print(StateValue(peers), 0, "\n")
  }

  // ---- reading a document into the state type ----

  function StringItems(items: seq<Value>): (r: Option<seq<string>>)
    ensures r.Some? ==> |r.value| == |items|
  {
    if items == [] then Some([])
    else
      match (items[0], StringItems(items[1..]))
      case (Str(s), Some(rest)) => Some([s] + rest)
      case (Null, Some(rest)) => Some([""] + rest)
      case _ => None
  }

  /** One key of a peer object: an unknown key or a value of another type is an error, null changes nothing. */
  function SetField(p: Peer, f: Field): Option<Peer>
  {
    match f.value
    case Null =>
      if f.name == "allowedIps" then Some(p.(allowedIPs := []))
      else if f.name in ["name", "address", "privateKey", "publicKey", "presharedKey", "enabled"] then Some(p)
      else None
    case Str(s) =>
      if f.name == "name" then Some(p.(name := s))
      else if f.name == "address" then Some(p.(address := s))
      else if f.name == "privateKey" then Some(p.(privateKey := s))
      else if f.name == "publicKey" then Some(p.(publicKey := s))
      else if f.name == "presharedKey" then Some(p.(presharedKey := s))
      else None
    case Bool(b) => if f.name == "enabled" then Some(p.(enabled := b)) else None
    case Arr(items) =>
      if f.name != "allowedIps" then None
      else (match StringItems(items) case None => None case Some(list) => Some(p.(allowedIPs := list)))
    case _ => None
  }

  function SetFields(p: Peer, fields: seq<Field>): Option<Peer>
    decreases |fields|
  {
    if fields == [] then Some(p)
    else
      match SetField(p, fields[0])
      case None => None
      case Some(q) => SetFields(q, fields[1..])
  }

  const BLANK_PEER := Peer("", "", "", "", "", [], false)

  function PeerOf(v: Value): Option<Peer>
  {
    match v
    case Null => Some(BLANK_PEER)
    case Obj(fields) => SetFields(BLANK_PEER, fields)
    case _ => None
  }

  function PeersOf(items: seq<Value>): (r: Option<seq<Peer>>)
    ensures r.Some? ==> |r.value| == |items|
  {
    if items == [] then Some([])
    else
      match (PeerOf(items[0]), PeersOf(items[1..]))
      case (Some(p), Some(rest)) => Some([p] + rest)
      case _ => None
  }

  datatype StateDoc = StateDoc(version: int, peers: seq<Peer>)

  function SetStateField(s: StateDoc, f: Field): Option<StateDoc>
  {
    if f.name == "version" then
      match f.value
      case Null => Some(s)
      case Num(text) => (match ParseInt64(text) case None => None case Some(n) => Some(s.(version := n)))
      case _ => None
    else if f.name == "peers" then
      match f.value
      case Null => Some(s.(peers := []))
      case Arr(items) => (match PeersOf(items) case None => None case Some(list) => Some(s.(peers := list)))
      case _ => None
    else None
  }

  function SetStateFields(s: StateDoc, fields: seq<Field>): Option<StateDoc>
    decreases |fields|
  {
    if fields == [] then Some(s)
    else
      match SetStateField(s, fields[0])
      case None => None
      case Some(t) => SetStateFields(t, fields[1..])
  }

  /** The peers of a document of the supported version. */
  function StateOf(v: Value): Option<seq<Peer>>
  {
    if !v.Obj? then None
    else
      match SetStateFields(StateDoc(0, []), v.fields)
      case None => None
      case Some(s) => if s.version == STATE_VERSION then Some(s.peers) else None
  }

  // ---- bytes ----

  /** Bytes of a character in UTF-8. */
  function CharSize(c: char): (n: nat)
    ensures 1 <= n <= 4
  {
    if c < '\U{80}' then 1 else if c < '\U{800}' then 2 else if c < '\U{10000}' then 3 else 4
  }

  /** The lengths change at these characters (section 3 of RFC 3629). */
  lemma Utf8Lengths()
    ensures CharSize('\U{7F}') == 1 && CharSize('\U{80}') == 2 && CharSize('\U{7FF}') == 2
    ensures CharSize('\U{800}') == 3 && CharSize('\U{FFFF}') == 3 && CharSize('\U{10000}') == 4
  {
  }

  function Size(s: string): nat
  {
    if s == "" then 0 else CharSize(s[0]) + Size(s[1..])
  }

  /** io.LimitReader: the text up to the limit. */
  function Limited(s: string, limit: nat): string
  {
    if s == "" || CharSize(s[0]) > limit then "" else [s[0]] + Limited(s[1..], limit - CharSize(s[0]))
  }

  /** What Load makes of the contents of the file; None is its error. */
  function DecodeState(text: string): Option<seq<Peer>>
  {
    match ParseDocument(Limited(text, READ_LIMIT))
    case None => None
    case Some(v) => StateOf(v)
  }

  lemma {:induction false} LimitedAll(s: string, limit: nat)
    requires Size(s) <= limit
    ensures Limited(s, limit) == s
    decreases |s|
  {
    if s != "" {
      LimitedAll(s[1..], limit - CharSize(s[0]));
      assert s == [s[0]] + s[1..];
    }
  }

  // ---- reading back ----

  lemma {:induction false} StringItemsOf(items: seq<string>)
    ensures StringItems(Strings(items)) == Some(items)
    decreases |items|
  {
    if items != [] {
      StringItemsOf(items[1..]);
      assert Strings(items)[1..] == Strings(items[1..]);
      assert items == [items[0]] + items[1..];
    }
  }

  lemma SetFieldsStep(p: Peer, f: Field, rest: seq<Field>)
    ensures SetFields(p, [f] + rest) == match SetField(p, f) case None => None case Some(q) => SetFields(q, rest)
  {
    assert ([f] + rest)[1..] == rest;
  }

  lemma SetFieldsEnd(p: Peer)
    ensures SetFields(p, []) == Some(p)
  {
  }

  lemma PeerReadBack(p: Peer)
    ensures PeerOf(PeerValue(p)) == Some(p)
  {
    hide StringItems, SetFields;
    StringItemsOf(p.allowedIPs);
    var f7 := [Field("enabled", Bool(p.enabled))] + [];
    var f6 := [Field("allowedIps", Arr(Strings(p.allowedIPs)))] + f7;
    var f5 := [Field("presharedKey", Str(p.presharedKey))] + f6;
    var f4 := [Field("publicKey", Str(p.publicKey))] + f5;
    var f3 := [Field("privateKey", Str(p.privateKey))] + f4;
    var f2 := [Field("address", Str(p.address))] + f3;
    var f1 := [Field("name", Str(p.name))] + f2;
    assert PeerValue(p).fields == f1;
    var p1 := BLANK_PEER.(name := p.name);
    SetFieldsStep(BLANK_PEER, f1[0], f2);
    var p2 := p1.(address := p.address);
    SetFieldsStep(p1, f2[0], f3);
    var p3 := p2.(privateKey := p.privateKey);
    SetFieldsStep(p2, f3[0], f4);
    var p4 := p3.(publicKey := p.publicKey);
    SetFieldsStep(p3, f4[0], f5);
    var p5 := p4.(presharedKey := p.presharedKey);
    SetFieldsStep(p4, f5[0], f6);
    var p6 := p5.(allowedIPs := p.allowedIPs);
    SetFieldsStep(p5, f6[0], f7);
    SetFieldsStep(p6, f7[0], []);
    SetFieldsEnd(p);
  }

  lemma {:induction false} PeersReadBack(peers: seq<Peer>)
    ensures PeersOf(PeerValues(peers)) == Some(peers)
    decreases |peers|
  {
    hide PeerValue, PeerOf;
    if peers != [] {
      PeerReadBack(peers[0]);
      PeersReadBack(peers[1..]);
      assert PeerValues(peers)[1..] == PeerValues(peers[1..]);
      assert peers == [peers[0]] + peers[1..];
    }
  }

  lemma StateReadBack(peers: seq<Peer>)
    ensures StateOf(StateValue(peers)) == Some(peers)
  {
    hide PeersOf, PeerValues;
    PeersReadBack(peers);
    var fields := StateValue(peers).fields;
    var s1 := StateDoc(1, []);
    assert ParseInt64("1") == Some(1) by {
      ParseFormatInt(1);
      assert FormatInt(1) == "1";
    }
    assert SetStateField(StateDoc(0, []), fields[0]) == Some(s1);
    assert SetStateField(s1, fields[1]) == Some(StateDoc(1, peers));
    assert fields[1..] == [fields[1]] && fields[1..][1..] == [];
    assert SetStateFields(StateDoc(1, peers), []) == Some(StateDoc(1, peers));
    assert SetStateFields(s1, fields[1..]) == Some(StateDoc(1, peers));
  }

  lemma StringsWellFormed(items: seq<string>)
    ensures WellFormed(Arr(Strings(items)))
  {
  }

  lemma PeerWellFormed(p: Peer)
    ensures WellFormed(PeerValue(p))
  {
    StringsWellFormed(p.allowedIPs);
  }

  lemma StateWellFormed(peers: seq<Peer>)
    ensures WellFormed(StateValue(peers))
  {
    var items := PeerValues(peers);
    forall i | 0 <= i < |items| ensures WellFormed(items[i]) {
      PeerWellFormed(peers[i]);
    }
    assert WellFormed(Arr(items));
    assert IsInteger("1") by {
      assert ReadNumeral("1", 10) == Some(1);
    }
  }

  /** Load gives back what Save wrote, if the file is within the read limit. */
  lemma StateRoundTrip(peers: seq<Peer>)
    requires Size(EncodeState(peers)) <= READ_LIMIT
    ensures DecodeState(EncodeState(peers)) == Some(peers)
  {
    LimitedAll(EncodeState(peers), READ_LIMIT);
    StateWellFormed(peers);
    DocumentRoundTrip(StateValue(peers));
    StateReadBack(peers);
  }

  // ---- what a reader of the file finds, and what is refused ----

  function Member(fields: seq<Field>, name: string): Option<Value>
    decreases |fields|
  {
    if fields == [] then None
    else if fields[0].name == name then Some(fields[0].value)
    else Member(fields[1..], name)
  }

  lemma {:induction false} MemberAt(fields: seq<Field>, i: nat)
    requires i < |fields| && forall j :: 0 <= j < i ==> fields[j].name != fields[i].name
    ensures Member(fields, fields[i].name) == Some(fields[i].value)
    decreases i
  {
    if i > 0 {
      MemberAt(fields[1..], i - 1);
    }
  }

  /** The members of a record in the file, by name. */
  predicate Records(v: Value, p: Peer)
  {
    && v.Obj?
    && Member(v.fields, "name") == Some(Str(p.name)) && Member(v.fields, "address") == Some(Str(p.address))
    && Member(v.fields, "privateKey") == Some(Str(p.privateKey))
    && Member(v.fields, "publicKey") == Some(Str(p.publicKey))
    && Member(v.fields, "presharedKey") == Some(Str(p.presharedKey))
    && Member(v.fields, "enabled") == Some(Bool(p.enabled))
    && (match Member(v.fields, "allowedIps")
        case Some(Arr(items)) =>
          |items| == |p.allowedIPs| && forall i :: 0 <= i < |items| ==> items[i] == Str(p.allowedIPs[i])
        case _ => false)
  }

  lemma RecordMembers(p: Peer)
    ensures Records(PeerValue(p), p)
  {
    var fields := PeerValue(p).fields;
    MemberAt(fields, 0);
    MemberAt(fields, 1);
    MemberAt(fields, 2);
    MemberAt(fields, 3);
    MemberAt(fields, 4);
    MemberAt(fields, 5);
    MemberAt(fields, 6);
    hide Member;
  }

  /** The file holds the version 1 and the records in order, each with all that it says under its name. */
  lemma FileMembers(peers: seq<Peer>) returns (fields: seq<Field>, items: seq<Value>)
    ensures ParseDocument(EncodeState(peers)) == Some(Obj(fields))
    ensures Member(fields, "version") == Some(Num("1")) && Member(fields, "peers") == Some(Arr(items))
    ensures |items| == |peers| && forall i :: 0 <= i < |peers| ==> Records(items[i], peers[i])
  {
    StateWellFormed(peers);
    DocumentRoundTrip(StateValue(peers));
    fields, items := StateValue(peers).fields, PeerValues(peers);
    forall i | 0 <= i < |peers| ensures Records(items[i], peers[i]) {
      RecordMembers(peers[i]);
    }
    hide Records, ParseDocument, PeerValue, PeerValues, Print;
    assert fields[1..][0] == fields[1];
  }

  /** Only version 1 is read. */
  lemma OtherVersionsRefused(peers: seq<Peer>, n: int)
    requires -INT64_LIMIT <= n < INT64_LIMIT
    ensures StateOf(Obj([Field("version", Num(FormatInt(n))), Field("peers", Arr(PeerValues(peers)))]))
      == if n == 1 then Some(peers) else None
  {
    hide PeersOf, PeerValues, ParseInt64, FormatInt;
    PeersReadBack(peers);
    ParseFormatInt(n);
    var fields := [Field("version", Num(FormatInt(n))), Field("peers", Arr(PeerValues(peers)))];
    assert SetStateField(StateDoc(0, []), fields[0]) == Some(StateDoc(n, []));
    assert SetStateField(StateDoc(n, []), fields[1]) == Some(StateDoc(n, peers));
    assert fields[1..] == [fields[1]] && fields[1..][1..] == [];
    assert SetStateFields(StateDoc(n, peers), []) == Some(StateDoc(n, peers));
    assert SetStateFields(StateDoc(n, []), fields[1..]) == Some(StateDoc(n, peers));
  }

  /** A record with a member that no record has is refused, and so is a file. */
  lemma {:induction false} UnknownMembersRefused(p: Peer, fields: seq<Field>, f: Field)
    requires f in fields
    requires f.name !in ["name", "address", "privateKey", "publicKey", "presharedKey", "allowedIps", "enabled"]
    ensures SetFields(p, fields).None?
    decreases |fields|
  {
    hide StringItems;
    if f != fields[0] && SetField(p, fields[0]).Some? {
      assert f in fields[1..];
      UnknownMembersRefused(SetField(p, fields[0]).value, fields[1..], f);
    }
  }

  lemma {:induction false} UnknownSettingsRefused(s: StateDoc, fields: seq<Field>, f: Field)
    requires f in fields && f.name !in ["version", "peers"]
    ensures SetStateFields(s, fields).None?
    decreases |fields|
  {
    hide PeersOf, ParseInt64;
    if f != fields[0] && SetStateField(s, fields[0]).Some? {
      assert f in fields[1..];
      UnknownSettingsRefused(SetStateField(s, fields[0]).value, fields[1..], f);
    }
  }

  // ---- the size of the file ----

  lemma {:induction false} SizeConcat(a: string, b: string)
    ensures Size(a + b) == Size(a) + Size(b)
    decreases |a|
  {
    if a == "" {
      assert a + b == b;
    } else {
      SizeConcat(a[1..], b);
      assert (a + b)[1..] == a[1..] + b;
    }
  }

  lemma {:induction false} SizePerChar(s: string)
    ensures Size(s) <= 4 * |s|
    decreases |s|
  {
    if s != "" {
      SizePerChar(s[1..]);
    }
  }

  lemma OneChar(c: char, rest: string)
    ensures Size([c] + rest) == CharSize(c) + Size(rest)
  {
    assert ([c] + rest)[1..] == rest;
  }

  lemma {:induction false} AsciiSize(s: string)
    requires forall i :: 0 <= i < |s| ==> s[i] < '\U{80}'
    ensures Size(s) == |s|
    decreases |s|
  {
    if s != "" {
      AsciiSize(s[1..]);
    }
  }

  lemma EscapeCharSize(c: char)
    ensures Size(EscapeChar(c)) <= 6
  {
    var e := EscapeChar(c);
    if e == [c] {
      OneChar(c, "");
      assert [c] + "" == [c];
    } else {
      assert |e| <= 6;
      if e[1] == 'u' {
        forall i | 0 <= i < |e| ensures e[i] < '\U{80}' {
        }
      }
      AsciiSize(e);
    }
  }

  lemma {:induction false} EscapeSize(s: string, rest: string)
    ensures Size(Escape(s, rest)) <= 6 * |s| + Size(rest)
    decreases |s|
  {
    if s != "" {
      EscapeSize(s[1..], rest);
      EscapeCharSize(s[0]);
      SizeConcat(EscapeChar(s[0]), Escape(s[1..], rest));
    }
  }

  lemma QuoteSize(s: string, rest: string)
    ensures Size(Quote(s, rest)) <= 6 * |s| + 2 + Size(rest)
  {
    EscapeSize(s, ['"'] + rest);
    OneChar('"', rest);
    OneChar('"', Escape(s, ['"'] + rest));
  }

  lemma {:induction false} SpacesSize(n: nat, rest: string)
    ensures Size(Spaces(n, rest)) == 2 * n + Size(rest)
  {
    if n > 0 {
      SpacesSize(n - 1, rest);
      OneChar(' ', Spaces(n - 1, rest));
      OneChar(' ', [' '] + Spaces(n - 1, rest));
    }
  }

  lemma NewLineSize(level: nat, rest: string)
    ensures Size(NewLine(level, rest)) == 2 * level + 1 + Size(rest)
  {
    SpacesSize(level, rest);
    OneChar('\n', Spaces(level, rest));
  }

  /** An upper bound on the bytes of a printed value: every character escaped, every item with a comma. */
  function Weight(v: Value, level: nat): nat
    decreases v, 1
  {
    match v
    case Null => 4
    case Bool(_) => 5
    case Num(text) => 4 * |text|
    case Str(s) => 6 * |s| + 2
    case Arr(items) => 2 * level + 3 + ItemsWeight(items, 0, level + 1)
    case Obj(fields) => 2 * level + 3 + FieldsWeight(fields, 0, level + 1)
  }

  function ItemsWeight(items: seq<Value>, i: nat, level: nat): nat
    requires i <= |items|
    decreases items, 0, |items| - i
  {
    if i == |items| then 0 else 2 * level + 2 + Weight(items[i], level) + ItemsWeight(items, i + 1, level)
  }

  function FieldsWeight(fields: seq<Field>, i: nat, level: nat): nat
    requires i <= |fields|
    decreases fields, 0, |fields| - i
  {
    if i == |fields| then 0
    else 2 * level + 6 + 6 * |fields[i].name| + Weight(fields[i].value, level) + FieldsWeight(fields, i + 1, level)
  }

  lemma BracketSize(open: char, close: char, level: nat, rest: string)
    requires open < '\U{80}' && close < '\U{80}'
    ensures Size([open] + ([close] + rest)) == 2 + Size(rest)
    ensures Size(NewLine(level, [close] + rest)) == 2 * level + 2 + Size(rest)
  {
    OneChar(close, rest);
    OneChar(open, [close] + rest);
    NewLineSize(level, [close] + rest);
  }

  lemma {:induction false} PrintSize(v: Value, level: nat, rest: string)
    ensures Size(Print(v, level, rest)) <= Weight(v, level) + Size(rest)
    decreases v, 1
  {
    match v
    case Null =>
      SizeConcat("null", rest);
      AsciiSize("null");
    case Bool(b) =>
      SizeConcat("true", rest);
      SizeConcat("false", rest);
      AsciiSize("true");
      AsciiSize("false");
    case Num(text) =>
      SizeConcat(text, rest);
      SizePerChar(text);
    case Str(s) =>
      QuoteSize(s, rest);
    case Arr(items) =>
      BracketSize('[', ']', level, rest);
      if items != [] {
        var close := NewLine(level, [']'] + rest);
        ItemsSize(items, 0, level + 1, close);
        OneChar('[', PrintItems(items, 0, level + 1, close));
      }
    case Obj(fields) =>
      BracketSize('{', '}', level, rest);
      if fields != [] {
        var close := NewLine(level, ['}'] + rest);
        FieldsSize(fields, 0, level + 1, close);
        OneChar('{', PrintFields(fields, 0, level + 1, close));
      }
  }

  lemma {:induction false} ItemsSize(items: seq<Value>, i: nat, level: nat, rest: string)
    requires i < |items|
    ensures Size(PrintItems(items, i, level, rest)) <= ItemsWeight(items, i, level) + Size(rest)
    decreases items, 0, |items| - i
  {
    var after := AfterItem(items, i, level, rest);
    PrintSize(items[i], level, after);
    NewLineSize(level, Print(items[i], level, after));
    if i + 1 < |items| {
      ItemsSize(items, i + 1, level, rest);
      OneChar(',', PrintItems(items, i + 1, level, rest));
    }
  }

  lemma {:induction false} FieldsSize(fields: seq<Field>, i: nat, level: nat, rest: string)
    requires i < |fields|
    ensures Size(PrintFields(fields, i, level, rest)) <= FieldsWeight(fields, i, level) + Size(rest)
    decreases fields, 0, |fields| - i
  {
    var after := AfterField(fields, i, level, rest);
    var value := Print(fields[i].value, level, after);
    PrintSize(fields[i].value, level, after);
    OneChar(' ', value);
    OneChar(':', [' '] + value);
    QuoteSize(fields[i].name, [':'] + ([' '] + value));
    NewLineSize(level, PrintField(fields[i], level, after));
    if i + 1 < |fields| {
      FieldsSize(fields, i + 1, level, rest);
      OneChar(',', PrintFields(fields, i + 1, level, rest));
    }
  }

  /** Bounds on the strings of a record that hold in every canonical valid list. */
  predicate Compact(p: Peer)
  {
    && |p.name| <= MAX_NAME && |p.address| <= 15
    && |p.privateKey| == 44 && |p.publicKey| == 44 && |p.presharedKey| == 44
    && p.allowedIPs == [p.address + "/32"]
  }

  const PEER_WEIGHT := 2200

  lemma PeerWeight(p: Peer)
    requires Compact(p)
    ensures Weight(PeerValue(p), 2) <= PEER_WEIGHT
  {
    var f := PeerValue(p).fields;
    var list := Strings(p.allowedIPs);
    assert ItemsWeight(list, 1, 4) == 0;
    assert ItemsWeight(list, 0, 4) == 10 + Weight(list[0], 4) <= 120;
    assert Weight(Arr(list), 3) <= 129;
    assert FieldsWeight(f, 7, 3) == 0;
    assert FieldsWeight(f, 6, 3) <= 59;
    assert FieldsWeight(f, 5, 3) <= 59 + 201;
    assert FieldsWeight(f, 4, 3) <= 260 + 350;
    assert FieldsWeight(f, 3, 3) <= 610 + 332;
    assert FieldsWeight(f, 2, 3) <= 942 + 338;
    assert FieldsWeight(f, 1, 3) <= 1280 + 146;
    assert FieldsWeight(f, 0, 3) <= 1426 + 638;
  }

  lemma {:induction false} PeersWeight(peers: seq<Peer>, i: nat)
    requires i <= |peers| && forall j :: 0 <= j < |peers| ==> Compact(peers[j])
    ensures ItemsWeight(PeerValues(peers), i, 2) <= (|peers| - i) * (PEER_WEIGHT + 6)
    decreases |peers| - i
  {
    if i < |peers| {
      PeersWeight(peers, i + 1);
      PeerWeight(peers[i]);
    }
  }

  lemma StateSize(peers: seq<Peer>)
    requires |peers| <= POOL_SIZE && forall j :: 0 <= j < |peers| ==> Compact(peers[j])
    ensures Size(EncodeState(peers)) < READ_LIMIT
  {
    var v := StateValue(peers);
    PrintSize(v, 0, "\n");
    PeersWeight(peers, 0);
    assert Weight(v.fields[0].value, 1) == 4;
    assert Weight(v.fields[1].value, 1) <= 5 + POOL_SIZE * (PEER_WEIGHT + 6);
    assert FieldsWeight(v.fields, 2, 1) == 0;
    assert FieldsWeight(v.fields, 1, 1) <= 38 + 5 + POOL_SIZE * (PEER_WEIGHT + 6);
    assert FieldsWeight(v.fields, 0, 1) <= 54 + 43 + POOL_SIZE * (PEER_WEIGHT + 6);
    assert Size("\n") == 1;
  }

  lemma GoodIsCompact(lib: Library, net: Network, p: Peer)
    requires ValidPeer(lib, net, p) && CanonicalPeer(p)
    ensures Compact(p)
  {
    DottedRoundTrip(p.address, QuadOf(p));
    PrintedLength(QuadOf(p));
    hide ParseKey, ParseIP4, TrimSpace;
  }

  /** No list the agent can reach outgrows the read limit, so Load never truncates what Save wrote. */
  lemma GoodListFits(lib: Library, net: Network, peers: seq<Peer>)
    requires Good(lib, net, peers)
    ensures Size(EncodeState(peers)) < READ_LIMIT
    ensures DecodeState(EncodeState(peers)) == Some(peers)
  {
    hide ValidPeer, CanonicalPeer, Compact, EncodeState, DecodeState;
    GoodLength(lib, net, peers);
    forall i | 0 <= i < |peers| ensures Compact(peers[i]) {
      GoodIsCompact(lib, net, peers[i]);
    }
    StateSize(peers);
    StateRoundTrip(peers);
  }
}
