/** The part of `encoding/json` that the peer store goes through: the indenting encoder and the decoder. */
module Json {
  import opened Prelude
  import opened Text

  /** A document. Numbers keep their text; only integers occur in a state file. */
  datatype Value =
    | Null
    | Bool(b: bool)
    | Num(text: string)
    | Str(s: string)
    | Arr(items: seq<Value>)
    | Obj(fields: seq<Field>)

  datatype Field = Field(name: string, value: Value)

  // ---- the encoder, with SetIndent("", "  ") ----

  function HexDigits4(n: nat): string
    requires n < 0x10000
  {
    var n1 := n / 16;
    var n2 := n1 / 16;
    [DigitChar(n2 / 16), DigitChar(n2 % 16), DigitChar(n1 % 16), DigitChar(n % 16)]
  }

  /** HTML characters and the two line separators are escaped by default. */
  function EscapeChar(c: char): string
  {
    if c == '"' || c == '\\' then ['\\', c]
    else if c == '\U{08}' then "\\b"
    else if c == '\U{0C}' then "\\f"
    else if c == '\n' then "\\n"
    else if c == '\r' then "\\r"
    else if c == '\t' then "\\t"
    else if c < ' ' || c == '<' || c == '>' || c == '&' || c == '\U{2028}' || c == '\U{2029}'
    then ['\\', 'u'] + HexDigits4(c as nat)
    else [c]
  }

  // Each printing function takes the text that follows, so that no proof has to regroup concatenations.

  function Escape(s: string, rest: string): string
  {
    if s == "" then rest else EscapeChar(s[0]) + Escape(s[1..], rest)
  }

  function Quote(s: string, rest: string): string
  {
    ['"'] + Escape(s, ['"'] + rest)
  }

  function Spaces(n: nat, rest: string): string
  {
    if n == 0 then rest else [' '] + ([' '] + Spaces(n - 1, rest))
  }

  function NewLine(level: nat, rest: string): string
  {
    ['\n'] + Spaces(level, rest)
  }

  /** The text of `v`, starting on a line indented to `level`, and then `rest`. */
  function Print(v: Value, level: nat, rest: string): string
    decreases v, 1
  {
    match v
    case Null => "null" + rest
    case Bool(b) => if b then "true" + rest else "false" + rest
    case Num(text) => text + rest
    case Str(s) => Quote(s, rest)
    case Arr(items) =>
      if items == [] then ['['] + ([']'] + rest)
      else ['['] + PrintItems(items, 0, level + 1, NewLine(level, [']'] + rest))
    case Obj(fields) =>
      if fields == [] then ['{'] + (['}'] + rest)
      else ['{'] + PrintFields(fields, 0, level + 1, NewLine(level, ['}'] + rest))
  }

  /** The items from index `i` on, each on a line of its own. */
  function PrintItems(items: seq<Value>, i: nat, level: nat, rest: string): string
    requires i < |items|
    decreases items, 0, |items| - i
  {
    NewLine(level, Print(items[i], level, AfterItem(items, i, level, rest)))
  }

  function AfterItem(items: seq<Value>, i: nat, level: nat, rest: string): string
    requires i < |items|
    decreases items, 0, |items| - i, 0
  {
    if i + 1 == |items| then rest else [','] + PrintItems(items, i + 1, level, rest)
  }

  function PrintFields(fields: seq<Field>, i: nat, level: nat, rest: string): string
    requires i < |fields|
    decreases fields, 0, |fields| - i
  {
    NewLine(level, PrintField(fields[i], level, AfterField(fields, i, level, rest)))
  }

  function PrintField(f: Field, level: nat, rest: string): string
    decreases f, 2
  {
    Quote(f.name, [':'] + ([' '] + Print(f.value, level, rest)))
  }

  function AfterField(fields: seq<Field>, i: nat, level: nat, rest: string): string
    requires i < |fields|
    decreases fields, 0, |fields| - i, 0
  {
    if i + 1 == |fields| then rest else [','] + PrintFields(fields, i + 1, level, rest)
  }

  // ---- the decoder ----

  predicate IsBlank(c: char)
  {
    c in " \t\r\n"
  }

  function SkipBlank(s: string): (r: string)
    ensures |r| <= |s|
  {
    if s != "" && IsBlank(s[0]) then SkipBlank(s[1..]) else s
  }

  function HexValue4(s: string): Option<nat>
    requires |s| >= 4
  {
    if IsDigit(s[0], 16) && IsDigit(s[1], 16) && IsDigit(s[2], 16) && IsDigit(s[3], 16) then
      Some(DigitValue(s[0]).value * 4096 + DigitValue(s[1]).value * 256
           + DigitValue(s[2]).value * 16 + DigitValue(s[3]).value)
    else None
  }

  predicate IsSurrogate(n: nat)
  {
    0xD800 <= n < 0xE000
  }

  /** One character of a string literal after the backslash, and what follows it. */
  function ParseEscape(s: string): (r: Option<(char, string)>)
    ensures r.Some? ==> |r.value.1| < |s|
  {
    if s == "" then None
    else if s[0] in "\"\\/" then Some((s[0], s[1..]))
    else if s[0] == 'b' then Some(('\U{08}', s[1..]))
    else if s[0] == 'f' then Some(('\U{0C}', s[1..]))
    else if s[0] == 'n' then Some(('\n', s[1..]))
    else if s[0] == 'r' then Some(('\r', s[1..]))
    else if s[0] == 't' then Some(('\t', s[1..]))
    else if s[0] != 'u' || |s| < 5 then None
    else
      match HexValue4(s[1..])
      case None => None
      case Some(n) =>
        if n >= 0x10000 then None
        else if !IsSurrogate(n) then Some((n as char, s[5..]))
        else if n < 0xDC00 && |s| >= 11 && s[5] == '\\' && s[6] == 'u' then
          match HexValue4(s[7..])
          case None => None
          case Some(low) =>
            if 0xDC00 <= low < 0xE000
            then Some(((0x10000 + (n - 0xD800) * 0x400 + (low - 0xDC00)) as char, s[11..]))
            else Some(('\U{FFFD}', s[5..]))
        else Some(('\U{FFFD}', s[5..]))
  }

  /** The rest of a string literal, after its opening quote. */
  function ParseString(s: string): (r: Option<(string, string)>)
    ensures r.Some? ==> |r.value.1| < |s|
    decreases |s|
  {
    if s == "" || s[0] < ' ' then None
    else if s[0] == '"' then Some(("", s[1..]))
    else if s[0] == '\\' then
      match ParseEscape(s[1..])
      case None => None
      case Some((c, rest)) =>
        match ParseString(rest)
        case None => None
        case Some((tail, after)) => Some(([c] + tail, after))
    else
      match ParseString(s[1..])
      case None => None
      case Some((tail, after)) => Some(([s[0]] + tail, after))
  }

  predicate IsNumberChar(c: char)
  {
    '0' <= c <= '9' || c in "+-.eE"
  }

  function TakeNumber(s: string): (r: string)
    ensures |r| <= |s| && r == s[..|r|]
    ensures s != "" && IsNumberChar(s[0]) ==> r != ""
  {
    if s != "" && IsNumberChar(s[0]) then [s[0]] + TakeNumber(s[1..]) else ""
  }

  /** A JSON integer; a fraction or exponent would be refused for the one number of a state file. */
  predicate IsInteger(text: string)
  {
    var digits := if text != "" && text[0] == '-' then text[1..] else text;
    ReadNumeral(digits, 10).Some? && (|digits| == 1 || digits[0] != '0')
  }

  function ParseValue(s: string): (r: Option<(Value, string)>)
    ensures r.Some? ==> |r.value.1| < |s|
    decreases |s|, 1
  {
    var t := SkipBlank(s);
    ParseToken(t)
  }

  function ParseToken(t: string): (r: Option<(Value, string)>)
    ensures r.Some? ==> |r.value.1| < |t|
    decreases |t|, 0
  {
    if t == "" then None
    else if t[0] == '"' then
      match ParseString(t[1..])
      case None => None
      case Some((s, rest)) => Some((Str(s), rest))
    else if t[0] == '[' then
      var u := SkipBlank(t[1..]);
      if u != "" && u[0] == ']' then Some((Arr([]), u[1..]))
      else
        match ParseItems(t[1..])
        case None => None
        case Some((items, rest)) => Some((Arr(items), rest))
    else if t[0] == '{' then
      var u := SkipBlank(t[1..]);
      if u != "" && u[0] == '}' then Some((Obj([]), u[1..]))
      else
        match ParseFields(t[1..])
        case None => None
        case Some((fields, rest)) => Some((Obj(fields), rest))
    else if "null" <= t then Some((Null, t[4..]))
    else if "true" <= t then Some((Bool(true), t[4..]))
    else if "false" <= t then Some((Bool(false), t[5..]))
    else if IsNumberChar(t[0]) then
      var text := TakeNumber(t);
      if IsInteger(text) then Some((Num(text), t[|text|..])) else None
    else None
  }

  function ParseItems(s: string): (r: Option<(seq<Value>, string)>)
    ensures r.Some? ==> |r.value.1| < |s|
    decreases |s|, 3
  {
    match ParseValue(s)
    case None => None
    case Some((v, t)) =>
      var u := SkipBlank(t);
      if u == "" then None
      else if u[0] == ']' then Some(([v], u[1..]))
      else if u[0] != ',' then None
      else
        match ParseItems(u[1..])
        case None => None
        case Some((items, rest)) => Some(([v] + items, rest))
  }

  function ParseField(s: string): (r: Option<(Field, string)>)
    ensures r.Some? ==> |r.value.1| < |s|
    decreases |s|, 2
  {
    var q := SkipBlank(s);
    if q == "" || q[0] != '"' then None
    else
      match ParseString(q[1..])
      case None => None
      case Some((name, afterName)) =>
        var c := SkipBlank(afterName);
        if c == "" || c[0] != ':' then None
        else
          match ParseValue(c[1..])
          case None => None
          case Some((v, rest)) => Some((Field(name, v), rest))
  }

  function ParseFields(s: string): (r: Option<(seq<Field>, string)>)
    ensures r.Some? ==> |r.value.1| < |s|
    decreases |s|, 3
  {
    match ParseField(s)
    case None => None
    case Some((f, t)) =>
      var u := SkipBlank(t);
      if u == "" then None
      else if u[0] == '}' then Some(([f], u[1..]))
      else if u[0] != ',' then None
      else
        match ParseFields(u[1..])
        case None => None
        case Some((fields, rest)) => Some(([f] + fields, rest))
  }

  /** One value and nothing but blanks after it: Decode, then Decode again expecting io.EOF. */
  function ParseDocument(s: string): Option<Value>
  {
    match ParseValue(s)
    case None => None
    case Some((v, rest)) => if SkipBlank(rest) == "" then Some(v) else None
  }

  // ---- reading back what was printed ----

  lemma ReadHexDigits(d0: nat, d1: nat, d2: nat, d3: nat, rest: string)
    requires d0 < 16 && d1 < 16 && d2 < 16 && d3 < 16
    ensures HexValue4([DigitChar(d0), DigitChar(d1), DigitChar(d2), DigitChar(d3)] + rest)
         == Some(d0 * 4096 + d1 * 256 + d2 * 16 + d3)
  {
    DigitRoundTrip(d0);
    DigitRoundTrip(d1);
    DigitRoundTrip(d2);
    DigitRoundTrip(d3);
  }

  lemma HexRoundTrip(n: nat, rest: string)
    requires n < 0x10000
    ensures HexValue4(HexDigits4(n) + rest) == Some(n)
  {
    var n1 := n / 16;
    var n2 := n1 / 16;
    ReadHexDigits(n2 / 16, n2 % 16, n1 % 16, n % 16, rest);
  }

  lemma ParseHexEscape(c: char, rest: string)
    requires c as nat < 0x10000 && !IsSurrogate(c as nat)
    ensures ParseEscape(['u'] + HexDigits4(c as nat) + rest) == Some((c, rest))
  {
    var s := ['u'] + HexDigits4(c as nat) + rest;
    HexRoundTrip(c as nat, rest);
    assert s[1..] == HexDigits4(c as nat) + rest;
    assert s[5..] == rest;
  }

  lemma ParseEscapeChar(c: char, rest: string)
    ensures EscapeChar(c) == [c] ==> c != '"' && c != '\\' && c >= ' '
    ensures EscapeChar(c) != [c] ==>
      EscapeChar(c)[0] == '\\' && ParseEscape(EscapeChar(c)[1..] + rest) == Some((c, rest))
  {
    var e := EscapeChar(c);
    if e != [c] && e[1] == 'u' {
      ParseHexEscape(c, rest);
      assert e[1..] == ['u'] + HexDigits4(c as nat);
    } else if e != [c] {
      assert (e[1..] + rest)[1..] == rest;
    }
  }

  lemma ParseStringStep(c: char, after: string, tail: string, rest: string)
    requires ParseString(after) == Some((tail, rest))
    ensures ParseString(EscapeChar(c) + after) == Some(([c] + tail, rest))
  {
    ParseEscapeChar(c, after);
    var e := EscapeChar(c);
    assert (e + after)[0] == e[0] && (e + after)[1..] == e[1..] + after;
  }

  lemma {:induction false} ParseQuoted(s: string, rest: string)
    ensures ParseString(Escape(s, ['"'] + rest)) == Some((s, rest))
    decreases |s|
  {
    if s != "" {
      ParseQuoted(s[1..], rest);
      ParseStringStep(s[0], Escape(s[1..], ['"'] + rest), s[1..], rest);
      assert s == [s[0]] + s[1..];
    }
  }

  predicate StartsToken(s: string)
  {
    s != "" && !IsBlank(s[0])
  }

  lemma {:induction false} SkipSpaces(n: nat, rest: string)
    requires StartsToken(rest)
    ensures SkipBlank(Spaces(n, rest)) == rest
  {
    if n > 0 {
      SkipSpaces(n - 1, rest);
      var one := [' '] + Spaces(n - 1, rest);
      assert one[1..] == Spaces(n - 1, rest) && Spaces(n, rest)[1..] == one;
    }
  }

  lemma SkipNewLine(level: nat, rest: string)
    requires StartsToken(rest)
    ensures SkipBlank(NewLine(level, rest)) == rest
  {
    SkipSpaces(level, rest);
    assert NewLine(level, rest)[1..] == Spaces(level, rest);
  }

  /** Every number in the document is an integer literal. */
  predicate WellFormed(v: Value)
  {
    match v
    case Num(text) => IsInteger(text)
    case Arr(items) => forall i :: 0 <= i < |items| ==> WellFormed(items[i])
    case Obj(fields) => forall i :: 0 <= i < |fields| ==> WellFormed(fields[i].value)
    case _ => true
  }

  /** `rest` does not continue the token: only numbers have no end mark of their own. */
  predicate Stops(rest: string)
  {
    rest == "" || !IsNumberChar(rest[0])
  }

  lemma {:induction false} DigitsAreNumberChars(s: string)
    requires ReadNumeral(s, 10).Some?
    ensures forall c :: c in s ==> '0' <= c <= '9'
    decreases |s|
  {
    if |s| > 1 {
      DigitsAreNumberChars(s[..|s| - 1]);
      assert s == s[..|s| - 1] + [s[|s| - 1]];
    }
  }

  lemma {:induction false} TakeAll(text: string, rest: string)
    requires (forall c :: c in text ==> IsNumberChar(c)) && Stops(rest)
    ensures TakeNumber(text + rest) == text
    decreases |text|
  {
    if text == "" {
      assert text + rest == rest;
    } else {
      assert forall c :: c in text[1..] ==> c in text;
      TakeAll(text[1..], rest);
      assert (text + rest)[1..] == text[1..] + rest;
      assert text[0] in text;
    }
  }

  lemma IntegerChars(text: string)
    requires IsInteger(text)
    ensures text != "" && (text[0] == '-' || '0' <= text[0] <= '9')
    ensures forall c :: c in text ==> IsNumberChar(c)
  {
    var digits := if text[0] == '-' then text[1..] else text;
    DigitsAreNumberChars(digits);
    if text[0] == '-' {
      assert text == "-" + digits;
    } else {
      assert text[0] in digits;
    }
  }

  lemma PrintStartsToken(v: Value, level: nat, rest: string)
    requires WellFormed(v)
    ensures StartsToken(Print(v, level, rest)) && Print(v, level, rest)[0] !in "]},:"
  {
    if v.Num? {
      IntegerChars(v.text);
    }
  }

  lemma ParseNumber(text: string, rest: string)
    requires IsInteger(text) && Stops(rest)
    ensures ParseToken(text + rest) == Some((Num(text), rest))
  {
    IntegerChars(text);
    TakeAll(text, rest);
    var t := text + rest;
    assert t[|text|..] == rest;
    assert t[0] == text[0];
  }

  lemma ParseQuotedToken(s: string, rest: string)
    ensures ParseToken(Quote(s, rest)) == Some((Str(s), rest))
  {
    ParseQuoted(s, rest);
    assert Quote(s, rest)[1..] == Escape(s, ['"'] + rest);
  }

  lemma ParseWord(rest: string)
    ensures ParseToken("null" + rest) == Some((Null, rest))
    ensures ParseToken("true" + rest) == Some((Bool(true), rest))
    ensures ParseToken("false" + rest) == Some((Bool(false), rest))
  {
    assert ("null" + rest)[4..] == rest && ("true" + rest)[4..] == rest && ("false" + rest)[5..] == rest;
  }

  lemma ParseEmpty(rest: string)
    ensures ParseToken(['['] + ([']'] + rest)) == Some((Arr([]), rest))
    ensures ParseToken(['{'] + (['}'] + rest)) == Some((Obj([]), rest))
  {
    var a, o := [']'] + rest, ['}'] + rest;
    assert (['['] + a)[1..] == a && (['{'] + o)[1..] == o;
    assert a[1..] == rest && o[1..] == rest;
  }

  lemma ParseArray(items: seq<Value>, level: nat, rest: string)
    requires items != [] && WellFormed(items[0])
    requires ParseItems(PrintItems(items, 0, level + 1, NewLine(level, [']'] + rest))) == Some((items, rest))
    ensures ParseToken(Print(Arr(items), level, rest)) == Some((Arr(items), rest))
  {
    var after := AfterItem(items, 0, level + 1, NewLine(level, [']'] + rest));
    var token := Print(items[0], level + 1, after);
    PrintStartsToken(items[0], level + 1, after);
    SkipNewLine(level + 1, token);
    assert (['['] + NewLine(level + 1, token))[1..] == NewLine(level + 1, token);
  }

  lemma ParseObject(fields: seq<Field>, level: nat, rest: string)
    requires fields != []
    requires ParseFields(PrintFields(fields, 0, level + 1, NewLine(level, ['}'] + rest))) == Some((fields, rest))
    ensures ParseToken(Print(Obj(fields), level, rest)) == Some((Obj(fields), rest))
  {
    var token := PrintField(fields[0], level + 1, AfterField(fields, 0, level + 1, NewLine(level, ['}'] + rest)));
    SkipNewLine(level + 1, token);
    assert (['{'] + NewLine(level + 1, token))[1..] == NewLine(level + 1, token);
  }

  lemma ParseLastItem(items: seq<Value>, i: nat, level: nat, close: string, rest: string)
    requires i + 1 == |items| && WellFormed(items[i]) && SkipBlank(close) == [']'] + rest
    requires ParseToken(Print(items[i], level, close)) == Some((items[i], close))
    ensures ParseItems(PrintItems(items, i, level, close)) == Some((items[i..], rest))
  {
    PrintStartsToken(items[i], level, close);
    SkipNewLine(level, Print(items[i], level, close));
    assert ([']'] + rest)[1..] == rest && items[i..] == [items[i]];
  }

  lemma ParseNextItem(items: seq<Value>, i: nat, level: nat, close: string, rest: string)
    requires i + 1 < |items| && WellFormed(items[i])
    requires var after := AfterItem(items, i, level, close);
      ParseToken(Print(items[i], level, after)) == Some((items[i], after))
    requires ParseItems(PrintItems(items, i + 1, level, close)) == Some((items[i + 1..], rest))
    ensures ParseItems(PrintItems(items, i, level, close)) == Some((items[i..], rest))
  {
    var more := PrintItems(items, i + 1, level, close);
    PrintStartsToken(items[i], level, [','] + more);
    SkipNewLine(level, Print(items[i], level, [','] + more));
    assert ([','] + more)[1..] == more && items[i..] == [items[i]] + items[i + 1..];
  }

  /** The name, the colon and the value of one field. */
  lemma ParsePrintedField(f: Field, level: nat, after: string)
    requires WellFormed(f.value)
    requires ParseToken(Print(f.value, level, after)) == Some((f.value, after))
    ensures ParseField(NewLine(level, PrintField(f, level, after))) == Some((f, after))
  {
    var token := Print(f.value, level, after);
    var spaced := [' '] + token;
    var colon := [':'] + spaced;
    SkipNewLine(level, Quote(f.name, colon));
    ParseQuoted(f.name, colon);
    assert Quote(f.name, colon)[1..] == Escape(f.name, ['"'] + colon);
    assert colon[1..] == spaced && spaced[1..] == token;
    PrintStartsToken(f.value, level, after);
    assert SkipBlank(spaced) == SkipBlank(token) == token;
  }

  lemma ParseLastField(fields: seq<Field>, i: nat, level: nat, close: string, rest: string)
    requires i + 1 == |fields| && SkipBlank(close) == ['}'] + rest
    requires ParseField(NewLine(level, PrintField(fields[i], level, close))) == Some((fields[i], close))
    ensures ParseFields(PrintFields(fields, i, level, close)) == Some((fields[i..], rest))
  {
    assert (['}'] + rest)[1..] == rest && fields[i..] == [fields[i]];
  }

  lemma ParseNextField(fields: seq<Field>, i: nat, level: nat, close: string, rest: string)
    requires i + 1 < |fields|
    requires var after := AfterField(fields, i, level, close);
      ParseField(NewLine(level, PrintField(fields[i], level, after))) == Some((fields[i], after))
    requires ParseFields(PrintFields(fields, i + 1, level, close)) == Some((fields[i + 1..], rest))
    ensures ParseFields(PrintFields(fields, i, level, close)) == Some((fields[i..], rest))
  {
    var more := PrintFields(fields, i + 1, level, close);
    assert ([','] + more)[1..] == more && fields[i..] == [fields[i]] + fields[i + 1..];
  }

  /** Decoding undoes encoding, at any indentation and whatever text follows. */
  lemma {:induction false} ParsePrinted(v: Value, level: nat, rest: string)
    requires WellFormed(v) && Stops(rest)
    ensures ParseToken(Print(v, level, rest)) == Some((v, rest))
    decreases v, 1
  {
    match v
    case Null => ParseWord(rest);
    case Bool(_) => ParseWord(rest);
    case Num(text) => ParseNumber(text, rest);
    case Str(s) => ParseQuotedToken(s, rest);
    case Arr(items) => ParsePrintedArray(items, level, rest);
    case Obj(fields) => ParsePrintedObject(fields, level, rest);
  }

  lemma {:induction false} ParsePrintedArray(items: seq<Value>, level: nat, rest: string)
    requires WellFormed(Arr(items)) && Stops(rest)
    ensures ParseToken(Print(Arr(items), level, rest)) == Some((Arr(items), rest))
    decreases items, 1
  {
    if items == [] {
      ParseEmpty(rest);
    } else {
      SkipNewLine(level, [']'] + rest);
      ParsePrintedItems(items, 0, level + 1, NewLine(level, [']'] + rest), rest);
      ParseArray(items, level, rest);
    }
  }

  lemma {:induction false} ParsePrintedItems(items: seq<Value>, i: nat, level: nat, close: string, rest: string)
    requires i < |items| && WellFormed(Arr(items))
    requires Stops(close) && SkipBlank(close) == [']'] + rest
    ensures ParseItems(PrintItems(items, i, level, close)) == Some((items[i..], rest))
    decreases items, 0, |items| - i
  {
    ParsePrinted(items[i], level, AfterItem(items, i, level, close));
    if i + 1 == |items| {
      ParseLastItem(items, i, level, close, rest);
    } else {
      ParsePrintedItems(items, i + 1, level, close, rest);
      ParseNextItem(items, i, level, close, rest);
    }
  }

  lemma {:induction false} ParsePrintedObject(fields: seq<Field>, level: nat, rest: string)
    requires WellFormed(Obj(fields)) && Stops(rest)
    ensures ParseToken(Print(Obj(fields), level, rest)) == Some((Obj(fields), rest))
    decreases fields, 1
  {
    if fields == [] {
      ParseEmpty(rest);
    } else {
      SkipNewLine(level, ['}'] + rest);
      ParsePrintedFields(fields, 0, level + 1, NewLine(level, ['}'] + rest), rest);
      ParseObject(fields, level, rest);
    }
  }

  lemma {:induction false} ParsePrintedFields(fields: seq<Field>, i: nat, level: nat, close: string, rest: string)
    requires i < |fields| && WellFormed(Obj(fields))
    requires Stops(close) && SkipBlank(close) == ['}'] + rest
    ensures ParseFields(PrintFields(fields, i, level, close)) == Some((fields[i..], rest))
    decreases fields, 0, |fields| - i
  {
    ParsePrinted(fields[i].value, level, AfterField(fields, i, level, close));
    ParsePrintedField(fields[i], level, AfterField(fields, i, level, close));
    if i + 1 == |fields| {
      ParseLastField(fields, i, level, close, rest);
    } else {
      ParsePrintedFields(fields, i + 1, level, close, rest);
      ParseNextField(fields, i, level, close, rest);
    }
  }

  /** A printed document and the line feed that Encode adds are read back as that document. */
  lemma DocumentRoundTrip(v: Value)
    requires WellFormed(v)
    ensures ParseDocument(Print(v, 0, "\n")) == Some(v)
  {
    PrintStartsToken(v, 0, "\n");
    ParsePrinted(v, 0, "\n");
    assert SkipBlank("\n") == "";
  }

  /** A document with anything but blanks behind it is refused, however far it could be read. */
  lemma TrailingDataRefused(v: Value, rest: string)
    requires WellFormed(v) && Stops(rest)
    ensures ParseDocument(Print(v, 0, rest)) == if SkipBlank(rest) == "" then Some(v) else None
  {
    PrintStartsToken(v, 0, rest);
    ParsePrinted(v, 0, rest);
  }

  /** Characters that HTML or a terminal would act on are never written as they are. */
  predicate Harmless(c: char)
  {
    c >= ' ' && c !in "<>&\U{2028}\U{2029}"
  }

  lemma DigitHarmless(d: nat)
    requires d < 16
    ensures Harmless(DigitChar(d))
  {
  }

  lemma HexHarmless(n: nat)
    requires n < 0x10000
    ensures forall i :: 0 <= i < |HexDigits4(n)| ==> Harmless(HexDigits4(n)[i])
  {
    DigitHarmless(n / 16 / 16 / 16);
    DigitHarmless(n / 16 / 16 % 16);
    DigitHarmless(n / 16 % 16);
    DigitHarmless(n % 16);
    hide Harmless, DigitChar;
  }

  lemma EscapedHarmless(c: char)
    ensures forall i :: 0 <= i < |EscapeChar(c)| ==> Harmless(EscapeChar(c)[i])
  {
    if c < ' ' || c in "<>&\U{2028}\U{2029}" {
      HexHarmless(c as nat);
    }
    hide HexDigits4;
  }

  lemma {:induction false} QuotedHarmless(s: string, rest: string)
    requires forall i :: 0 <= i < |rest| ==> Harmless(rest[i])
    ensures forall i :: 0 <= i < |Escape(s, rest)| ==> Harmless(Escape(s, rest)[i])
    decreases |s|
  {
    hide EscapeChar, Harmless;
    if s != "" {
      QuotedHarmless(s[1..], rest);
      EscapedHarmless(s[0]);
    }
  }
}
