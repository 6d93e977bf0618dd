/** The string operations of Go's `strings` and `strconv` that the agent relies on. */
module Text {
  import opened Prelude

  // ---- strings.TrimSpace ----

  /** unicode.IsSpace. */
  predicate IsSpace(c: char)
  {
    || c in "\t\n\U{0B}\U{0C}\r "
    || c in "\U{85}\U{A0}\U{1680}\U{2028}\U{2029}\U{202F}\U{205F}\U{3000}"
    || '\U{2000}' <= c <= '\U{200A}'
  }

  /** The same by code point (the White_Space property of Unicode). */
  lemma SpaceCodes(c: char)
    ensures IsSpace(c) <==>
      var n := c as int;
      || 9 <= n <= 13 || n == 32 || n == 0x85 || n == 0xA0 || n == 0x1680 || 0x2000 <= n <= 0x200A
      || n == 0x2028 || n == 0x2029 || n == 0x202F || n == 0x205F || n == 0x3000
  {
  }

  function TrimLeft(s: string): string
  {
    if s != "" && IsSpace(s[0]) then TrimLeft(s[1..]) else s
  }

  function TrimRight(s: string): string
  {
    if s != "" && IsSpace(s[|s| - 1]) then TrimRight(s[..|s| - 1]) else s
  }

  function TrimSpace(s: string): string
  {
    TrimRight(TrimLeft(s))
  }

  /** No white space at either end. */
  predicate Trimmed(s: string)
  {
    s == "" || (!IsSpace(s[0]) && !IsSpace(s[|s| - 1]))
  }

  lemma {:induction false} TrimRightEdges(s: string)
    requires s == "" || !IsSpace(s[0])
    ensures Trimmed(TrimRight(s)) && |TrimRight(s)| <= |s|
    decreases |s|
  {
    if s != "" && IsSpace(s[|s| - 1]) {
      TrimRightEdges(s[..|s| - 1]);
    }
  }

  lemma {:induction false} TrimLeftEdges(s: string)
    ensures var t := TrimLeft(s); (t == "" || !IsSpace(t[0])) && |t| <= |s|
    decreases |s|
  {
    if s != "" && IsSpace(s[0]) {
      TrimLeftEdges(s[1..]);
    }
  }

  /** Trimming leaves a trimmed string, never a longer one, and trimming that again changes nothing. */
  lemma TrimSpaceIdempotent(s: string)
    ensures Trimmed(TrimSpace(s)) && |TrimSpace(s)| <= |s|
    ensures TrimSpace(TrimSpace(s)) == TrimSpace(s)
  {
    TrimLeftEdges(s);
    TrimRightEdges(TrimLeft(s));
  }

  /** A trimmed text is its own trimming, and a line break behind it does not matter. */
  lemma TrimLine(s: string)
    requires s != "" && Trimmed(s)
    ensures TrimSpace(s) == s && TrimSpace(s + "\n") == s
  {
    var t := s + "\n";
    assert t[..|t| - 1] == s && TrimLeft(t) == t;
  }

  lemma {:induction false} TrimRightKeeps(s: string)
    requires s != "" && !IsSpace(s[0])
    ensures TrimRight(s) != ""
    decreases |s|
  {
    if IsSpace(s[|s| - 1]) {
      TrimRightKeeps(s[..|s| - 1]);
    }
  }

  /** A text that starts with a visible character is not blank. */
  lemma NotBlank(s: string)
    requires s != "" && !IsSpace(s[0])
    ensures TrimSpace(s) != ""
  {
    TrimRightKeeps(s);
  }

  predicate AllSpace(s: string)
  {
    forall i :: 0 <= i < |s| ==> IsSpace(s[i])
  }

  lemma {:induction false} TrimmedLeft(s: string) returns (left: string)
    ensures s == left + TrimLeft(s) && AllSpace(left)
    decreases |s|
  {
    left := "";
    if s != "" && IsSpace(s[0]) {
      left := TrimmedLeft(s[1..]);
      left := [s[0]] + left;
    }
  }

  lemma {:induction false} TrimmedRight(s: string) returns (right: string)
    ensures s == TrimRight(s) + right && AllSpace(right)
    decreases |s|
  {
    right := "";
    if s != "" && IsSpace(s[|s| - 1]) {
      right := TrimmedRight(s[..|s| - 1]);
      right := right + [s[|s| - 1]];
    }
  }

  /** Trimming takes away white space at the ends and nothing else, and as much of it as there is. */
  lemma TrimSpaceExact(s: string) returns (left: string, right: string)
    ensures s == left + TrimSpace(s) + right && AllSpace(left) && AllSpace(right)
    ensures Trimmed(TrimSpace(s))
  {
    TrimSpaceIdempotent(s);
    left := TrimmedLeft(s);
    right := TrimmedRight(TrimLeft(s));
    assert left + (TrimSpace(s) + right) == left + TrimSpace(s) + right;
  }

  // ---- strings.Split and strings.Join ----

  function Split(s: string, sep: char): (parts: seq<string>)
    ensures |parts| > 0
  {
    if s == "" then [""]
    else if s[0] == sep then [""] + Split(s[1..], sep)
    else var rest := Split(s[1..], sep); [[s[0]] + rest[0]] + rest[1..]
  }

  function Join(parts: seq<string>, sep: string): string
  {
    if |parts| == 0 then ""
    else if |parts| == 1 then parts[0]
    else parts[0] + sep + Join(parts[1..], sep)
  }

  lemma {:induction false} SplitPrefix(part: string, rest: string, sep: char)
    requires sep !in part
    ensures Split(part, sep) == [part]
    ensures Split(part + [sep] + rest, sep) == [part] + Split(rest, sep)
    decreases |part|
  {
    if part != "" {
      SplitPrefix(part[1..], rest, sep);
      assert (part + [sep] + rest)[1..] == part[1..] + [sep] + rest;
      assert [part[0]] + part[1..] == part;
    } else {
      assert (part + [sep] + rest)[1..] == rest;
    }
  }

  /** Splitting undoes joining when no part holds the separator. */
  lemma {:induction false} SplitJoin(parts: seq<string>, sep: char)
    requires |parts| > 0
    requires forall p :: p in parts ==> sep !in p
    ensures Split(Join(parts, [sep]), sep) == parts
    decreases |parts|
  {
    if |parts| == 1 {
      SplitPrefix(parts[0], "", sep);
    } else {
      SplitJoin(parts[1..], sep);
      SplitPrefix(parts[0], Join(parts[1..], [sep]), sep);
      assert parts == [parts[0]] + parts[1..];
    }
  }

  /** Joining undoes splitting, always. */
  lemma {:induction false} JoinSplit(s: string, sep: char)
    ensures Join(Split(s, sep), [sep]) == s
    decreases |s|
  {
    if s != "" {
      JoinSplit(s[1..], sep);
      var rest := Split(s[1..], sep);
      if s[0] == sep {
        assert Split(s, sep)[1..] == rest;
        assert s == "" + [sep] + s[1..];
      } else {
        assert Split(s, sep)[1..] == rest[1..];
        assert s == [s[0]] + s[1..];
        if |rest| > 1 {
          assert [s[0]] + (rest[0] + [sep] + Join(rest[1..], [sep]))
            == ([s[0]] + rest[0]) + [sep] + Join(rest[1..], [sep]);
        }
      }
    }
  }

  lemma {:induction false} JoinLacks(parts: seq<string>, sep: string, c: char)
    requires c !in sep && forall p :: p in parts ==> c !in p
    ensures c !in Join(parts, sep)
    decreases |parts|
  {
    if |parts| > 1 {
      JoinLacks(parts[1..], sep, c);
    }
  }

  // ---- numerals (strconv) ----

  function DigitChar(d: nat): char
    requires d < 16
  {
    if d < 10 then '0' + d as char else 'a' + (d - 10) as char
  }

  function DigitValue(c: char): Option<nat>
  {
    if '0' <= c <= '9' then Some((c - '0') as nat)
    else if 'a' <= c <= 'f' then Some(10 + (c - 'a') as nat)
    else if 'A' <= c <= 'F' then Some(10 + (c - 'A') as nat)
    else None
  }

  predicate IsDigit(c: char, base: nat)
  {
    DigitValue(c).Some? && DigitValue(c).value < base
  }

  /** `n` written in `base`, lower case, without leading zeros. */
  function Numeral(n: nat, base: nat): (s: string)
    requires base == 10 || base == 16
    ensures |s| > 0
    decreases n
  {
    if n < base then [DigitChar(n)] else Numeral(n / base, base) + [DigitChar(n % base)]
  }

  /** The unsigned number a run of digits denotes; leading zeros are accepted, the empty run is not. */
  function ReadNumeral(s: string, base: nat): Option<nat>
    requires base == 10 || base == 16
  {
    if s == "" || !IsDigit(s[|s| - 1], base) then None
    else
      var last := DigitValue(s[|s| - 1]).value;
      if |s| == 1 then Some(last)
      else
        match ReadNumeral(s[..|s| - 1], base)
        case None => None
        case Some(high) => Some(high * base + last)
  }

  lemma DigitRoundTrip(d: nat)
    requires d < 16
    ensures DigitValue(DigitChar(d)) == Some(d)
    ensures d < 10 ==> '0' <= DigitChar(d) <= '9'
    ensures DigitChar(d) == '0' ==> d == 0
  {
  }

  lemma ReadLastDigit(high: string, low: nat, base: nat)
    requires (base == 10 || base == 16) && low < base && high != "" && ReadNumeral(high, base).Some?
    ensures ReadNumeral(high + [DigitChar(low)], base) == Some(ReadNumeral(high, base).value * base + low)
  {
    DigitRoundTrip(low);
    var s := high + [DigitChar(low)];
    assert s[..|s| - 1] == high && s[|s| - 1] == DigitChar(low);
  }

  lemma {:induction false} NumeralRoundTrip(n: nat, base: nat)
    requires base == 10 || base == 16
    ensures ReadNumeral(Numeral(n, base), base) == Some(n)
    decreases n
  {
    if n < base {
      DigitRoundTrip(n);
    } else {
      NumeralRoundTrip(n / base, base);
      hide ReadNumeral, DigitChar;
      ReadLastDigit(Numeral(n / base, base), n % base, base);
    }
  }

  /** The characters of a numeral: digits of the base, the first not a zero unless the number is. */
  lemma {:induction false} NumeralChars(n: nat, base: nat)
    requires base == 10 || base == 16
    ensures forall c :: c in Numeral(n, base) ==> IsDigit(c, base) && (base == 10 ==> '0' <= c <= '9')
    ensures Numeral(n, base)[0] == '0' ==> n == 0
    decreases n
  {
    if n < base {
      DigitRoundTrip(n);
    } else {
      NumeralChars(n / base, base);
      DigitRoundTrip(n % base);
      assert Numeral(n, base) == Numeral(n / base, base) + [DigitChar(n % base)];
    }
  }

  function Dec(n: nat): string
  {
    Numeral(n, 10)
  }

  /** The last digit is the number's remainder by ten, and the others are the numeral of its tenth. */
  lemma DecSteps(n: nat)
    ensures n < 10 ==> Dec(n) == ["0123456789"[n]]
    ensures n >= 10 ==> Dec(n) == Dec(n / 10) + ["0123456789"[n % 10]]
  {
  }

  /** A decimal numeral has only the characters 0 to 9. */
  lemma DecChars(n: nat)
    ensures forall c :: c in Dec(n) ==> '0' <= c <= '9'
    ensures ReadNumeral(Dec(n), 10) == Some(n)
  {
    NumeralChars(n, 10);
    NumeralRoundTrip(n, 10);
  }

  lemma {:induction false} ReadPositive(s: string)
    requires ReadNumeral(s, 10).Some? && s[0] != '0'
    ensures ReadNumeral(s, 10).value > 0
    decreases |s|
  {
    if |s| > 1 {
      assert s[..|s| - 1][0] == s[0];
      ReadPositive(s[..|s| - 1]);
    }
  }

  /** A run of decimal digits without a superfluous leading zero is the numeral of its value. */
  lemma {:induction false} DecCanonical(s: string)
    requires ReadNumeral(s, 10).Some? && (|s| == 1 || s[0] != '0')
    ensures s == Dec(ReadNumeral(s, 10).value)
    decreases |s|
  {
    var n := ReadNumeral(s, 10).value;
    if |s| > 1 {
      var high := s[..|s| - 1];
      assert high[0] == s[0];
      if |high| == 1 {
        assert ReadNumeral(high, 10).value > 0;
      } else {
        assert ReadNumeral(high, 10).Some?;
      }
      DecCanonical(high);
      ReadPositive(high);
      assert n / 10 == ReadNumeral(high, 10).value && n % 10 == DigitValue(s[|s| - 1]).value;
      assert s == high + [s[|s| - 1]];
    }
  }

  const INT64_LIMIT: int := 0x8000_0000_0000_0000

  /** strconv.ParseInt(s, 10, 64) and, on a 64-bit platform, strconv.Atoi. */
  function ParseInt64(s: string): Option<int>
  {
    if s == "" then None
    else
      var negative := s[0] == '-';
      var digits := if s[0] == '-' || s[0] == '+' then s[1..] else s;
      match ReadNumeral(digits, 10)
      case None => None
      case Some(n) =>
        if negative then (if n <= INT64_LIMIT then Some(0 - n) else None)
        else if n < INT64_LIMIT then Some(n) else None
  }

  /** The decimal text of a signed number. */
  function FormatInt(n: int): string
  {
    if n < 0 then "-" + Dec(-n) else Dec(n)
  }

  lemma ParseFormatInt(n: int)
    requires -INT64_LIMIT <= n < INT64_LIMIT
    ensures ParseInt64(FormatInt(n)) == Some(n)
    ensures forall c :: c in FormatInt(n) ==> c == '-' || '0' <= c <= '9'
    ensures FormatInt(n) != ""
  {
    if n < 0 {
      DecChars(-n);
      assert ("-" + Dec(-n))[1..] == Dec(-n);
    } else {
      DecChars(n);
      assert Dec(n)[0] in Dec(n);
    }
  }

  /** A number of more than 64 bits is refused. */
  lemma WideNumbersRefused(n: int)
    requires n < -INT64_LIMIT || n >= INT64_LIMIT
    ensures ParseInt64(FormatInt(n)) == None
  {
    if n < 0 {
      DecChars(-n);
      assert ("-" + Dec(-n))[1..] == Dec(-n);
    } else {
      DecChars(n);
      assert Dec(n)[0] in Dec(n);
    }
  }

  // ---- byte order of strings ----

  /** Go's `<=` on strings; on UTF-8 the byte order is the code point order. */
  predicate StringLeq(a: string, b: string)
  {
    if a == "" then true
    else if b == "" then false
    else if a[0] != b[0] then a[0] < b[0]
    else StringLeq(a[1..], b[1..])
  }

  lemma {:induction false} StringLeqTotal(a: string, b: string)
    ensures StringLeq(a, b) || StringLeq(b, a)
    ensures StringLeq(a, b) && StringLeq(b, a) ==> a == b
    decreases |a|
  {
    if a != "" && b != "" && a[0] == b[0] {
      StringLeqTotal(a[1..], b[1..]);
      assert a == [a[0]] + a[1..] && b == [b[0]] + b[1..];
    }
  }

  /** The order is decided where two strings first differ; a string comes before its continuations. */
  lemma {:induction false} StringLeqExact(a: string, b: string, n: nat)
    requires n <= |a| && n <= |b| && a[..n] == b[..n] && (n < |a| && n < |b| ==> a[n] != b[n])
    ensures StringLeq(a, b) <==> n == |a| || (n < |b| && a[n] < b[n])
    decreases n
  {
    if n > 0 {
      assert a[..n][0] == b[..n][0];
      assert a[1..][..n - 1] == a[..n][1..] && b[1..][..n - 1] == b[..n][1..];
      StringLeqExact(a[1..], b[1..], n - 1);
    }
  }

  lemma {:induction false} StringLeqTransitive(a: string, b: string, c: string)
    requires StringLeq(a, b) && StringLeq(b, c)
    ensures StringLeq(a, c)
    decreases |a|
  {
    if a != "" && b != "" && c != "" && a[0] == b[0] && b[0] == c[0] {
      StringLeqTransitive(a[1..], b[1..], c[1..]);
    }
  }
}
