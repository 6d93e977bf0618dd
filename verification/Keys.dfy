/** WireGuard keys and their base64 spelling (wgtypes.Key, wgtypes.ParseKey). */
module Keys {
  import opened Prelude
  import opened Text

  /** 32 bytes are 42 sextets and four more bits, which base64 pads with two zero bits. */
  predicate IsKey(k: seq<nat>)
  {
    |k| == 43 && (forall i :: 0 <= i < 43 ==> k[i] < 64) && k[42] % 4 == 0
  }

  type Key = k: seq<nat> | IsKey(k) witness seq(43, _ => 0)

  function ZeroKey(): Key
  {
    seq(43, _ => 0)
  }

  function SextetChar(v: nat): char
    requires v < 64
  {
    if v < 26 then 'A' + v as char
    else if v < 52 then 'a' + (v - 26) as char
    else if v < 62 then '0' + (v - 52) as char
    else if v == 62 then '+'
    else '/'
  }

  function CharSextet(c: char): (r: Option<nat>)
    ensures r.Some? ==> r.value < 64 && SextetChar(r.value) == c
  {
    if 'A' <= c <= 'Z' then Some((c - 'A') as nat)
    else if 'a' <= c <= 'z' then Some(26 + (c - 'a') as nat)
    else if '0' <= c <= '9' then Some(52 + (c - '0') as nat)
    else if c == '+' then Some(62)
    else if c == '/' then Some(63)
    else None
  }

  /** Key.String: standard base64 with padding. */
  function PrintKey(k: Key): (s: string)
    ensures |s| == 44
  {
    seq(43, i requires 0 <= i < 43 => SextetChar(k[i])) + "="
  }

  /** Go's decoder skips carriage returns and line feeds wherever they stand. */
  function DropLineBreaks(s: string): string
  {
    if s == "" then ""
    else if s[0] in "\r\n" then DropLineBreaks(s[1..])
    else [s[0]] + DropLineBreaks(s[1..])
  }

  predicate Base64Of32Bytes(t: string)
  {
    |t| == 44 && t[43] == '=' && forall i :: 0 <= i < 43 ==> CharSextet(t[i]).Some?
  }

  /** ParseKey: the decoder is not strict, so the two padding bits of the last sextet are dropped. */
  function ParseKey(s: string): Option<Key>
  {
    var t := DropLineBreaks(s);
    if !Base64Of32Bytes(t) then None
    else
      Some(seq(43, i requires 0 <= i < 43 =>
        var v := CharSextet(t[i]).value; if i < 42 then v else v - v % 4))
  }

  /** The spelling that Key.String gives back. */
  predicate CanonicalKey(s: string)
  {
    ParseKey(s).Some? && PrintKey(ParseKey(s).value) == s
  }

  /** A spelling on one line: it may differ from the canonical one in the padding bits only. */
  predicate OneLineKey(s: string)
  {
    |s| == 44 && ParseKey(s).Some?
  }

  lemma {:induction false} DropShortens(s: string)
    ensures |DropLineBreaks(s)| <= |s|
    ensures |DropLineBreaks(s)| == |s| ==> DropLineBreaks(s) == s
    decreases |s|
  {
    if s != "" {
      DropShortens(s[1..]);
      assert s == [s[0]] + s[1..];
    }
  }

  lemma OneLineKeyChars(s: string)
    requires OneLineKey(s)
    ensures forall c :: c in s ==> CharSextet(c).Some? || c == '='
  {
    DropShortens(s);
    hide DropLineBreaks;
  }

  lemma {:induction false} NoLineBreaks(s: string)
    requires forall c :: c in s ==> c !in "\r\n"
    ensures DropLineBreaks(s) == s
    decreases |s|
  {
    if s != "" {
      NoLineBreaks(s[1..]);
      assert s[0] in s;
      assert s == [s[0]] + s[1..];
    }
  }

  lemma SextetRoundTrip(v: nat)
    requires v < 64
    ensures CharSextet(SextetChar(v)) == Some(v)
  {
  }

  lemma PrintedKeyChars(k: Key)
    ensures forall c :: c in PrintKey(k) ==> CharSextet(c).Some? || c == '='
    ensures CharSextet(PrintKey(k)[0]).Some?
  {
    forall i | 0 <= i < 43 ensures CharSextet(PrintKey(k)[i]).Some? {
      SextetRoundTrip(k[i]);
    }
  }

  /** Any 43 base64 characters and a `=` spell the key of their sextets, less the two padding bits. */
  lemma ParseSpelling(s: string, v: seq<nat>, k: Key)
    requires |s| == 44 && s[43] == '=' && |v| == 43
    requires forall i :: 0 <= i < 43 ==> v[i] < 64 && s[i] == SextetChar(v[i])
    requires v[..42] == k[..42] && k[42] == v[42] - v[42] % 4
    ensures ParseKey(s) == Some(k)
  {
    forall i | 0 <= i < 43 ensures CharSextet(s[i]) == Some(v[i]) && s[i] !in "\r\n" {
      SextetRoundTrip(v[i]);
    }
    NoLineBreaks(s);
    forall i | 0 <= i < 42 ensures ParseKey(s).value[i] == k[i] {
      assert v[..42][i] == k[..42][i];
    }
    assert ParseKey(s).value == k;
  }

  /** The alphabet of base64 (section 4 of RFC 4648): letters, digits, and two more. */
  lemma Alphabet(v: nat)
    requires v < 64
    ensures SextetChar(0) == 'A' && SextetChar(26) == 'a' && SextetChar(52) == '0'
    ensures SextetChar(62) == '+' && SextetChar(63) == '/'
    ensures v + 1 < 62 && v + 1 != 26 && v + 1 != 52 ==> SextetChar(v + 1) as int == SextetChar(v) as int + 1
  {
  }

  /** The last character of a key's spelling: the padding bits may be set or not. */
  predicate EndsKey(c: char, k: Key)
  {
    c == SextetChar(k[42]) || c == SextetChar(k[42] + 1) || c == SextetChar(k[42] + 2) || c == SextetChar(k[42] + 3)
  }

  lemma SextetOf(c: char, v: nat)
    requires v < 64
    ensures c == SextetChar(v) <==> CharSextet(c) == Some(v)
  {
    SextetRoundTrip(v);
  }

  lemma LastSextet(c: char, k: Key)
    ensures EndsKey(c, k) <==> CharSextet(c).Some? && CharSextet(c).value - CharSextet(c).value % 4 == k[42]
  {
    hide SextetChar, CharSextet;
    SextetOf(c, k[42]);
    SextetOf(c, k[42] + 1);
    SextetOf(c, k[42] + 2);
    SextetOf(c, k[42] + 3);
  }

  /**
   * A text is read as a key if and only if, without its line breaks, it has the 43 characters of the key's sextets and
   * a `=`, where the last of them may stand for any of the four sextets with the same upper bits.
   */
  lemma ParseKeyExact(s: string, k: Key)
    ensures ParseKey(s) == Some(k) <==>
      var t := DropLineBreaks(s);
      |t| == 44 && t[43] == '=' && EndsKey(t[42], k) && forall i :: 0 <= i < 42 ==> t[i] == SextetChar(k[i])
  {
    var t := DropLineBreaks(s);
    if |t| == 44 {
      LastSextet(t[42], k);
      hide EndsKey;
      forall i | 0 <= i < 42 ensures t[i] == SextetChar(k[i]) <==> CharSextet(t[i]) == Some(k[i]) {
        SextetRoundTrip(k[i]);
      }
      if ParseKey(s) == Some(k) {
        forall i | 0 <= i < 42 ensures CharSextet(t[i]) == Some(k[i]) {
          assert ParseKey(s).value[i] == k[i];
        }
      }
      if t[43] == '=' && EndsKey(t[42], k) && forall i :: 0 <= i < 42 ==> t[i] == SextetChar(k[i]) {
        assert ParseKey(s).Some? && ParseKey(s).value == k;
      }
    }
  }

  lemma ParsePrintedKey(k: Key)
    ensures ParseKey(PrintKey(k)) == Some(k)
    ensures CanonicalKey(PrintKey(k)) && OneLineKey(PrintKey(k))
  {
    ParseSpelling(PrintKey(k), k, k);
  }

  /** On canonical spellings, different strings are different keys. */
  lemma CanonicalKeysDiffer(s: string, t: string)
    requires CanonicalKey(s) && CanonicalKey(t)
    ensures ParseKey(s) == ParseKey(t) <==> s == t
  {
  }

  /** Every key has a second, equally trimmed spelling, so a check on strings is not one on keys. */
  lemma EveryKeyHasTwoSpellings(k: Key) returns (s: string)
    ensures s != PrintKey(k) && Trimmed(s) && ParseKey(s) == Some(k)
  {
    var v := k[..42] + [k[42] + 1];
    s := PrintKey(k)[42 := SextetChar(v[42])];
    ParseSpelling(s, v, k);
    SextetRoundTrip(v[42]);
    SextetRoundTrip(k[42]);
    SextetRoundTrip(v[0]);
  }
}
