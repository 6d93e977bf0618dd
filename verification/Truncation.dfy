/** What the read limit of Load does to a file that is longer: exactly when a saved list can be loaded again. */
module Truncation {
  import opened Prelude
  import opened Peers
  import opened Json
  import opened StateFile

  // ---- the decoder does not care what follows the value it has read ----

  lemma {:induction false} SkipMore(s: string, x: string)
    requires SkipBlank(s) != ""
    ensures SkipBlank(s + x) == SkipBlank(s) + x
    decreases |s|
  {
    if IsBlank(s[0]) {
      SkipMore(s[1..], x);
      assert (s + x)[1..] == s[1..] + x;
    }
  }

  lemma {:induction false} SkipsOnlyBlanks(s: string)
    ensures SkipBlank(s) != "" ==> s != "" && !IsBlank(SkipBlank(s)[0])
    decreases |s|
  {
    if s != "" && IsBlank(s[0]) {
      SkipsOnlyBlanks(s[1..]);
    }
  }

  /** A string literal that closes has room for the escape it starts with, if any. */
  lemma EscapedLength(s: string)
    requires ParseString(s).Some?
    ensures s != "" && (s[0] == '\\' ==> |s| >= 2 && (s[1] == 'u' ==> |s| >= 7))
  {
    if s[0] == '\\' && |s| >= 2 {
      assert s[1..][0] == s[1];
    }
  }

  lemma HexMore(s: string, n: nat, x: string)
    requires |s| >= n + 4
    ensures (s + x)[n..] == s[n..] + x && HexValue4((s + x)[n..]) == HexValue4(s[n..])
  {
    assert (s + x)[n..] == s[n..] + x;
  }

  lemma UnicodeMore(s: string, x: string)
    requires s != "" && s[0] == 'u'
    requires ParseEscape(s).Some? && ParseString(ParseEscape(s).value.1).Some?
    ensures ParseEscape(s + x) == Some((ParseEscape(s).value.0, ParseEscape(s).value.1 + x))
  {
    hide HexValue4, ParseString;
    HexMore(s, 1, x);
    assert (s + x)[5..] == s[5..] + x;
    if |s| >= 11 {
      HexMore(s, 7, x);
      assert (s + x)[11..] == s[11..] + x;
    } else {
      EscapedLength(ParseEscape(s).value.1);
    }
  }

  /** The escape before a string literal that closes is read alike with more text behind. */
  lemma EscapeMore(s: string, x: string)
    requires ParseEscape(s).Some? && ParseString(ParseEscape(s).value.1).Some?
    ensures ParseEscape(s + x) == Some((ParseEscape(s).value.0, ParseEscape(s).value.1 + x))
  {
    hide HexValue4, ParseString;
    if s[0] == 'u' {
      UnicodeMore(s, x);
    } else {
      assert (s + x)[1..] == s[1..] + x && (s + x)[0] == s[0];
    }
  }

  lemma {:induction false} StringMore(s: string, x: string)
    requires ParseString(s).Some?
    ensures ParseString(s + x) == Some((ParseString(s).value.0, ParseString(s).value.1 + x))
    decreases |s|
  {
    hide ParseEscape;
    assert (s + x)[0] == s[0] && (s + x)[1..] == s[1..] + x;
    if s[0] == '"' {
    } else if s[0] == '\\' {
      var (c, rest) := ParseEscape(s[1..]).value;
      EscapeMore(s[1..], x);
      StringMore(rest, x);
    } else {
      StringMore(s[1..], x);
    }
  }

  lemma {:induction false} NumberMore(t: string, x: string)
    requires TakeNumber(t) != t
    ensures TakeNumber(t + x) == TakeNumber(t)
    decreases |t|
  {
    if t != "" && IsNumberChar(t[0]) {
      assert t == [t[0]] + t[1..];
      NumberMore(t[1..], x);
      assert (t + x)[1..] == t[1..] + x;
    }
  }

  /** Only a number may still be growing where the text ends. */
  predicate Closed(v: Value, rest: string)
  {
    v.Num? ==> rest != ""
  }

  lemma TokenStarts(t: string)
    requires ParseToken(t).Some?
    ensures t != ""
  {
  }

  lemma {:induction false} ValueMore(s: string, x: string)
    requires ParseValue(s).Some? && Closed(ParseValue(s).value.0, ParseValue(s).value.1)
    ensures ParseValue(s + x) == Some((ParseValue(s).value.0, ParseValue(s).value.1 + x))
    decreases |s|, 1
  {
    hide ParseToken;
    TokenStarts(SkipBlank(s));
    SkipMore(s, x);
    TokenMore(SkipBlank(s), x);
  }

  lemma ArrayMore(t: string, x: string)
    requires t != "" && t[0] == '[' && ParseToken(t).Some?
    requires ParseItems(t[1..]).Some? ==>
      ParseItems(t[1..] + x) == Some((ParseItems(t[1..]).value.0, ParseItems(t[1..]).value.1 + x))
    ensures ParseToken(t + x) == Some((ParseToken(t).value.0, ParseToken(t).value.1 + x))
  {
    hide ParseString, ParseFields, TakeNumber, IsInteger;
    var u := SkipBlank(t[1..]);
    assert u != "";
    assert (t + x)[0] == t[0] && (t + x)[1..] == t[1..] + x && (u + x)[1..] == u[1..] + x;
    SkipMore(t[1..], x);
    hide ParseItems;
  }

  lemma ObjectMore(t: string, x: string)
    requires t != "" && t[0] == '{' && ParseToken(t).Some?
    requires ParseFields(t[1..]).Some? ==>
      ParseFields(t[1..] + x) == Some((ParseFields(t[1..]).value.0, ParseFields(t[1..]).value.1 + x))
    ensures ParseToken(t + x) == Some((ParseToken(t).value.0, ParseToken(t).value.1 + x))
  {
    hide ParseString, ParseItems, TakeNumber, IsInteger;
    var u := SkipBlank(t[1..]);
    assert u != "";
    assert (t + x)[0] == t[0] && (t + x)[1..] == t[1..] + x && (u + x)[1..] == u[1..] + x;
    SkipMore(t[1..], x);
    hide ParseFields;
  }

  lemma WordMore(t: string, x: string)
    requires t != "" && t[0] !in "\"[{"
    requires ParseToken(t).Some? && Closed(ParseToken(t).value.0, ParseToken(t).value.1)
    ensures ParseToken(t + x) == Some((ParseToken(t).value.0, ParseToken(t).value.1 + x))
  {
    hide ParseString, ParseItems, ParseFields, IsInteger;
    assert (t + x)[0] == t[0];
    if "null" <= t {
      assert "null" <= t + x && (t + x)[4..] == t[4..] + x;
    } else if "true" <= t {
      assert "true" <= t + x && (t + x)[4..] == t[4..] + x;
    } else if "false" <= t {
      assert "false" <= t + x && (t + x)[5..] == t[5..] + x;
    } else {
      var text := TakeNumber(t);
      NumberMore(t, x);
      assert (t + x)[|text|..] == t[|text|..] + x;
    }
  }

  lemma {:induction false} TokenMore(t: string, x: string)
    requires ParseToken(t).Some? && Closed(ParseToken(t).value.0, ParseToken(t).value.1)
    ensures ParseToken(t + x) == Some((ParseToken(t).value.0, ParseToken(t).value.1 + x))
    decreases |t|, 0
  {
    assert (t + x)[0] == t[0] && (t + x)[1..] == t[1..] + x;
    if t[0] == '"' {
      hide ParseString, ParseItems, ParseFields, TakeNumber, IsInteger;
      StringMore(t[1..], x);
    } else if t[0] == '[' {
      if ParseItems(t[1..]).Some? {
        ItemsMore(t[1..], x);
      }
      ArrayMore(t, x);
    } else if t[0] == '{' {
      if ParseFields(t[1..]).Some? {
        FieldsMore(t[1..], x);
      }
      ObjectMore(t, x);
    } else {
      WordMore(t, x);
    }
  }

  lemma {:induction false} ItemsMore(s: string, x: string)
    requires ParseItems(s).Some?
    ensures ParseItems(s + x) == Some((ParseItems(s).value.0, ParseItems(s).value.1 + x))
    decreases |s|, 3
  {
    hide ParseValue;
    var (v, t) := ParseValue(s).value;
    var u := SkipBlank(t);
    SkipsOnlyBlanks(t);
    ValueMore(s, x);
    SkipMore(t, x);
    assert (u + x)[1..] == u[1..] + x;
    if u[0] != ']' {
      ItemsMore(u[1..], x);
    }
  }

  lemma {:induction false} FieldMore(s: string, x: string)
    requires ParseField(s).Some? && ParseField(s).value.1 != ""
    ensures ParseField(s + x) == Some((ParseField(s).value.0, ParseField(s).value.1 + x))
    decreases |s|, 2
  {
    hide ParseValue, ParseString;
    var q := SkipBlank(s);
    SkipMore(s, x);
    assert (q + x)[1..] == q[1..] + x;
    StringMore(q[1..], x);
    var (name, afterName) := ParseString(q[1..]).value;
    var c := SkipBlank(afterName);
    SkipMore(afterName, x);
    assert (c + x)[1..] == c[1..] + x;
    ValueMore(c[1..], x);
  }

  lemma {:induction false} FieldsMore(s: string, x: string)
    requires ParseFields(s).Some?
    ensures ParseFields(s + x) == Some((ParseFields(s).value.0, ParseFields(s).value.1 + x))
    decreases |s|, 3
  {
    hide ParseField;
    var (f, t) := ParseField(s).value;
    var u := SkipBlank(t);
    SkipsOnlyBlanks(t);
    FieldMore(s, x);
    SkipMore(t, x);
    assert (u + x)[1..] == u[1..] + x;
    if u[0] != '}' {
      FieldsMore(u[1..], x);
    }
  }

  // ---- the limit ----

  lemma {:induction false} LimitedIsPrefix(s: string, limit: nat)
    ensures Limited(s, limit) <= s && Size(Limited(s, limit)) <= limit
    ensures Limited(s, limit) == s <==> Size(s) <= limit
    decreases |s|
  {
    if s != "" && CharSize(s[0]) <= limit {
      LimitedIsPrefix(s[1..], limit - CharSize(s[0]));
      var l := Limited(s[1..], limit - CharSize(s[0]));
      assert ([s[0]] + l)[1..] == l && s == [s[0]] + s[1..];
    }
  }

  lemma {:induction false} LimitedLonger(s: string, t: string, limit: nat)
    requires Size(s) <= limit
    ensures |Limited(s + t, limit)| >= |s|
    decreases |s|
  {
    if s != "" {
      assert (s + t)[1..] == s[1..] + t && (s + t)[0] == s[0];
      LimitedLonger(s[1..], t, limit - CharSize(s[0]));
    }
  }

  lemma ParseOfPrinted(v: Value)
    requires WellFormed(v)
    ensures ParseValue(Print(v, 0, "\n")) == Some((v, "\n"))
  {
    PrintStartsToken(v, 0, "\n");
    ParsePrinted(v, 0, "\n");
  }

  /** A printed object is read from a part of its text only if no more than the line feed is missing. */
  lemma PrefixParses(v: Value, t: string, x: string)
    requires WellFormed(v) && Print(v, 0, "\n") == t + x && ParseDocument(t).Some? && ParseDocument(t).value.Obj?
    ensures |x| <= 1
  {
    hide ParseValue, Print;
    ParseOfPrinted(v);
    ValueMore(t, x);
  }

  // ---- text printed with more behind it ----

  lemma JoinedThree(a: string, b: string, c: string)
    ensures a + (b + c) == a + b + c
  {
  }

  lemma {:induction false} EscapeFollowed(s: string, rest: string, x: string)
    ensures Escape(s, rest + x) == Escape(s, rest) + x
    decreases |s|
  {
    hide EscapeChar;
    if s != "" {
      EscapeFollowed(s[1..], rest, x);
      JoinedThree(EscapeChar(s[0]), Escape(s[1..], rest), x);
    }
  }

  lemma QuoteFollowed(s: string, rest: string, x: string)
    ensures Quote(s, rest + x) == Quote(s, rest) + x
  {
    EscapeFollowed(s, ['"'] + rest, x);
    assert ['"'] + rest + x == ['"'] + (rest + x);
  }

  lemma {:induction false} SpacesFollowed(n: nat, rest: string, x: string)
    ensures Spaces(n, rest + x) == Spaces(n, rest) + x
    decreases n
  {
    if n > 0 {
      SpacesFollowed(n - 1, rest, x);
    }
  }

  lemma LineFollowed(level: nat, rest: string, x: string)
    ensures NewLine(level, rest + x) == NewLine(level, rest) + x
  {
    SpacesFollowed(level, rest, x);
  }

  lemma {:induction false} PrintFollowed(v: Value, level: nat, rest: string, x: string)
    ensures Print(v, level, rest + x) == Print(v, level, rest) + x
    decreases v, 1
  {
    hide Quote, NewLine;
    match v
    case Null =>
    case Bool(_) =>
    case Num(_) =>
    case Str(s) => QuoteFollowed(s, rest, x);
    case Arr(items) =>
      assert [']'] + (rest + x) == [']'] + rest + x;
      if items != [] {
        LineFollowed(level, [']'] + rest, x);
        ItemsFollowed(items, 0, level + 1, NewLine(level, [']'] + rest), x);
      }
    case Obj(fields) =>
      assert ['}'] + (rest + x) == ['}'] + rest + x;
      if fields != [] {
        LineFollowed(level, ['}'] + rest, x);
        FieldsFollowed(fields, 0, level + 1, NewLine(level, ['}'] + rest), x);
      }
  }

  lemma {:induction false} ItemsFollowed(items: seq<Value>, i: nat, level: nat, rest: string, x: string)
    requires i < |items|
    ensures PrintItems(items, i, level, rest + x) == PrintItems(items, i, level, rest) + x
    decreases items, 0, |items| - i
  {
    hide NewLine, Print;
    if i + 1 < |items| {
      ItemsFollowed(items, i + 1, level, rest, x);
    }
    var after := AfterItem(items, i, level, rest);
    assert AfterItem(items, i, level, rest + x) == after + x;
    PrintFollowed(items[i], level, after, x);
    LineFollowed(level, Print(items[i], level, after), x);
  }

  lemma {:induction false} FieldsFollowed(fields: seq<Field>, i: nat, level: nat, rest: string, x: string)
    requires i < |fields|
    ensures PrintFields(fields, i, level, rest + x) == PrintFields(fields, i, level, rest) + x
    decreases fields, 0, |fields| - i
  {
    hide NewLine, Print, Quote;
    if i + 1 < |fields| {
      FieldsFollowed(fields, i + 1, level, rest, x);
    }
    var after := AfterField(fields, i, level, rest);
    assert AfterField(fields, i, level, rest + x) == after + x;
    PrintFollowed(fields[i].value, level, after, x);
    var spaced := [':'] + ([' '] + Print(fields[i].value, level, after));
    assert [':'] + ([' '] + (Print(fields[i].value, level, after) + x)) == spaced + x;
    QuoteFollowed(fields[i].name, spaced, x);
    LineFollowed(level, PrintField(fields[i], level, after), x);
  }

  // ---- reading back ----

  lemma EncodedText(peers: seq<Peer>)
    ensures EncodeState(peers) == Print(StateValue(peers), 0, "") + "\n"
    ensures ParseDocument(Print(StateValue(peers), 0, "")) == Some(StateValue(peers))
  {
    var v := StateValue(peers);
    PrintFollowed(v, 0, "", "\n");
    assert "" + "\n" == "\n";
    StateWellFormed(peers);
    PrintStartsToken(v, 0, "");
    ParsePrinted(v, 0, "");
  }

  lemma LimitedText(text: string)
    ensures var s, t := text + "\n", Limited(text + "\n", READ_LIMIT);
      if Size(s) <= READ_LIMIT then t == s
      else if Size(s) == READ_LIMIT + 1 then t == text
      else t <= s && |t| + 1 < |s|
  {
    var s := text + "\n";
    SizeConcat(text, "\n");
    assert Size("\n") == 1;
    LimitedIsPrefix(s, READ_LIMIT);
    if Size(s) == READ_LIMIT + 1 {
      LimitedLonger(text, "\n", READ_LIMIT);
    } else if Size(s) > READ_LIMIT + 1 {
      var t := Limited(s, READ_LIMIT);
      assert |t| + 1 == |s| ==> t == text;
    }
  }

  lemma StateNeedsObject(v: Value)
    ensures StateOf(v).Some? ==> v.Obj?
  {
  }

  /**
   * Load reads back what Save wrote if and only if the file, without its line feed, is within the read limit. It
   * never takes a part for the whole: a longer file is refused.
   */
  lemma ReadBackIsExact(peers: seq<Peer>)
    ensures DecodeState(EncodeState(peers)) == if Size(EncodeState(peers)) <= 1_048_577 then Some(peers) else None
  {
    var v := StateValue(peers);
    var text := Print(v, 0, "");
    var s := EncodeState(peers);
    var t := Limited(s, READ_LIMIT);
    hide Print, Limited, ParseDocument, Size;
    EncodedText(peers);
    LimitedText(text);
    StateReadBack(peers);
    if Size(s) <= READ_LIMIT {
      StateRoundTrip(peers);
    } else if Size(s) > READ_LIMIT + 1 && DecodeState(s).Some? {
      StateWellFormed(peers);
      StateNeedsObject(ParseDocument(t).value);
      assert s == t + s[|t|..];
      PrefixParses(v, t, s[|t|..]);
    }
  }

  // ---- the text is at least as long as any of its strings ----

  lemma {:induction false} SizeAtLeast(s: string)
    ensures Size(s) >= |s|
    decreases |s|
  {
    if s != "" {
      SizeAtLeast(s[1..]);
    }
  }

  lemma {:induction false} EscapeLength(s: string, rest: string)
    ensures |Escape(s, rest)| >= |s| + |rest|
    decreases |s|
  {
    if s != "" {
      EscapeLength(s[1..], rest);
    }
  }

  lemma PrintLength(v: Value, level: nat, rest: string)
    ensures |Print(v, level, rest)| >= |rest|
    ensures v.Str? ==> |Print(v, level, rest)| >= |v.s|
  {
    if v.Str? {
      EscapeLength(v.s, ['"'] + rest);
    }
    PrintFollowed(v, level, "", rest);
    assert "" + rest == rest;
  }

  lemma LineLength(level: nat, rest: string)
    ensures |NewLine(level, rest)| >= |rest|
  {
    LineFollowed(level, "", rest);
    assert "" + rest == rest;
  }

  lemma QuoteLength(s: string, rest: string)
    ensures |Quote(s, rest)| >= |rest|
  {
    EscapeLength(s, ['"'] + rest);
  }

  lemma {:induction false} FieldsLength(fields: seq<Field>, i: nat, j: nat, level: nat, rest: string)
    requires i <= j < |fields|
    ensures |PrintFields(fields, i, level, rest)| >= |Print(fields[j].value, level, AfterField(fields, j, level, rest))|
    decreases j - i
  {
    hide Print, NewLine, Quote;
    var after := AfterField(fields, i, level, rest);
    var colon := [':'] + ([' '] + Print(fields[i].value, level, after));
    LineLength(level, PrintField(fields[i], level, after));
    QuoteLength(fields[i].name, colon);
    PrintLength(fields[i].value, level, after);
    if i < j {
      FieldsLength(fields, i + 1, j, level, rest);
    }
  }

  lemma FieldInObject(fields: seq<Field>, j: nat, level: nat, rest: string) returns (after: string)
    requires j < |fields|
    ensures |Print(Obj(fields), level, rest)| >= |Print(fields[j].value, level + 1, after)|
  {
    hide NewLine;
    var close := NewLine(level, ['}'] + rest);
    after := AfterField(fields, j, level + 1, close);
    FieldsLength(fields, 0, j, level + 1, close);
    hide PrintFields;
  }

  lemma FirstItemLength(items: seq<Value>, level: nat, rest: string)
    requires items != []
    ensures |PrintItems(items, 0, level, rest)| >= |Print(items[0], level, AfterItem(items, 0, level, rest))|
  {
    hide Print, NewLine;
    LineLength(level, Print(items[0], level, AfterItem(items, 0, level, rest)));
  }

  lemma FirstInArray(items: seq<Value>, level: nat, rest: string) returns (after: string)
    requires items != []
    ensures |Print(Arr(items), level, rest)| >= |Print(items[0], level + 1, after)|
  {
    hide NewLine;
    var close := NewLine(level, [']'] + rest);
    after := AfterItem(items, 0, level + 1, close);
    FirstItemLength(items, level + 1, close);
    hide PrintItems, AfterItem;
  }

  /** The file is longer than the public key of its first record. */
  lemma FileLength(peers: seq<Peer>)
    requires peers != []
    ensures Size(EncodeState(peers)) >= |peers[0].publicKey|
  {
    hide Print;
    SizeAtLeast(EncodeState(peers));
    var p := peers[0];
    var a := FieldInObject(StateValue(peers).fields, 1, 0, "\n");
    var b := FirstInArray(PeerValues(peers), 1, a);
    var c := FieldInObject(PeerValue(p).fields, 3, 2, b);
    PrintLength(Str(p.publicKey), 3, c);
  }
}
