/** Addresses and networks as Go's `net` package reads and prints them. */
module Ipv4 {
  import opened Prelude
  import opened Text

  type Byte = x: int | 0 <= x < 256

  datatype Quad = Quad(a: Byte, b: Byte, c: Byte, d: Byte)

  /** A routed network: an IPv4 one in numbers, an IPv6 one as its printed text. */
  datatype Prefix = Net4(base: Quad, ones: nat) | Net6(text: string)

  /** What the model leaves open about IPv6 spellings: `net.ParseIP(s).To4()` and `net.ParseCIDR` on them. */
  datatype Ipv6Reader = Ipv6Reader(host: string -> Option<Quad>, cidr: string -> Option<Prefix>)

  datatype Family = Dotted | Colons | Neither

  /** The first of `.`, `:` and `%` decides how an address is read. */
  function FamilyOf(s: string): Family
  {
    if s == "" || s[0] == '%' then Neither
    else if s[0] == '.' then Dotted
    else if s[0] == ':' then Colons
    else FamilyOf(s[1..])
  }

  function ParseOctet(s: string): Option<Byte>
  {
    match ReadNumeral(s, 10)
    case None => None
    case Some(n) => if n < 256 && (|s| == 1 || s[0] != '0') then Some(n) else None
  }

  function ParseDotted(s: string): Option<Quad>
  {
    var parts := Split(s, '.');
    if |parts| != 4 then None
    else
      match (ParseOctet(parts[0]), ParseOctet(parts[1]), ParseOctet(parts[2]), ParseOctet(parts[3]))
      case (Some(a), Some(b), Some(c), Some(d)) => Some(Quad(a, b, c, d))
      case _ => None
  }

  function QuadParts(q: Quad): seq<string>
  {
    [Dec(q.a), Dec(q.b), Dec(q.c), Dec(q.d)]
  }

  /** net.IP.String for an IPv4 address. */
  function PrintQuad(q: Quad): string
  {
    Join(QuadParts(q), ".")
  }

  /** `net.ParseIP(s).To4()`: None where Go gives nil. */
  function ParseIP4(v6: Ipv6Reader, s: string): Option<Quad>
  {
    match FamilyOf(s)
    case Dotted => ParseDotted(s)
    case Colons => v6.host(s)
    case Neither => None
  }

  lemma OctetLength(x: Byte)
    ensures |Dec(x)| <= 3 && (x < 10 ==> |Dec(x)| == 1)
  {
    if x >= 10 {
      assert |Dec(x)| == |Numeral(x / 10, 10)| + 1;
      if x >= 100 {
        assert |Numeral(x / 10, 10)| == |Numeral(x / 100, 10)| + 1 == 2;
      }
    }
  }

  lemma OctetRoundTrip(x: Byte)
    ensures ParseOctet(Dec(x)) == Some(x)
    ensures |Dec(x)| <= 3
  {
    OctetLength(x);
    NumeralRoundTrip(x, 10);
    NumeralChars(x, 10);
    hide Numeral, ReadNumeral, IsDigit;
  }

  lemma QuadPartsLack(q: Quad, c: char)
    requires !('0' <= c <= '9')
    ensures forall p :: p in QuadParts(q) ==> c !in p
  {
    DecChars(q.a);
    DecChars(q.b);
    DecChars(q.c);
    DecChars(q.d);
  }

  lemma {:induction false} FamilyAfterDigits(digits: string, rest: string)
    requires forall c :: c in digits ==> '0' <= c <= '9'
    ensures FamilyOf(digits + rest) == FamilyOf(rest)
    decreases |digits|
  {
    if digits == "" {
      assert digits + rest == rest;
    } else {
      assert forall c :: c in digits[1..] ==> c in digits;
      FamilyAfterDigits(digits[1..], rest);
      assert (digits + rest)[1..] == digits[1..] + rest;
      assert digits[0] in digits;
    }
  }

  /** A printed address starts with a digit run and a dot, so it is read as dotted. */
  lemma PrintedIsDotted(q: Quad)
    ensures FamilyOf(PrintQuad(q)) == Dotted
  {
    var rest := "." + Join(QuadParts(q)[1..], ".");
    assert PrintQuad(q) == Dec(q.a) + rest;
    DecChars(q.a);
    FamilyAfterDigits(Dec(q.a), rest);
  }

  /** The dotted spelling of an address is unique: reading and printing are inverse to each other. */
  lemma DottedRoundTrip(s: string, q: Quad)
    ensures ParseDotted(s) == Some(q) <==> s == PrintQuad(q)
  {
    QuadPartsLack(q, '.');
    SplitJoin(QuadParts(q), '.');
    OctetRoundTrip(q.a);
    OctetRoundTrip(q.b);
    OctetRoundTrip(q.c);
    OctetRoundTrip(q.d);
    if ParseDotted(s) == Some(q) {
      var parts := Split(s, '.');
      JoinSplit(s, '.');
      DecCanonical(parts[0]);
      DecCanonical(parts[1]);
      DecCanonical(parts[2]);
      DecCanonical(parts[3]);
      assert parts == QuadParts(q);
    }
  }

  lemma DottedText(q: Quad)
    ensures PrintQuad(q) == Dec(q.a) + "." + Dec(q.b) + "." + Dec(q.c) + "." + Dec(q.d)
  {
    hide Dec;
    var parts := QuadParts(q);
    assert parts[1..][1..] == parts[2..] && parts[2..][1..] == parts[3..];
    assert Join(parts[3..], ".") == parts[3];
    assert Join(parts[2..], ".") == parts[2] + "." + parts[3];
    assert Join(parts[1..], ".") == parts[1] + "." + (parts[2] + "." + parts[3]);
  }

  lemma PrintedLength(q: Quad)
    ensures |PrintQuad(q)| <= 15
  {
    OctetRoundTrip(q.a);
    OctetRoundTrip(q.b);
    OctetRoundTrip(q.c);
    OctetRoundTrip(q.d);
    hide Dec;
    var parts := QuadParts(q);
    assert parts[1..][1..] == parts[2..] && parts[2..][1..] == parts[3..];
    assert Join(parts[3..], ".") == parts[3];
    assert Join(parts[2..], ".") == parts[2] + "." + parts[3];
    assert |Join(parts[1..], ".")| == |parts[1]| + 1 + |Join(parts[2..], ".")|;
  }

  lemma ParsePrintedQuad(v6: Ipv6Reader, q: Quad)
    ensures ParseIP4(v6, PrintQuad(q)) == Some(q)
  {
    PrintedIsDotted(q);
    DottedRoundTrip(PrintQuad(q), q);
  }

  // ---- CIDR notation ----

  function Pow2(n: nat): nat
    requires n <= 8
  {
    [1, 2, 4, 8, 16, 32, 64, 128, 256][n]
  }

  /** The leading `ones - skip` bits of an octet, as many as there are. */
  function MaskOctet(x: Byte, ones: nat, skip: nat): (r: Byte)
    ensures ones >= skip + 8 ==> r == x
  {
    var kept := if ones <= skip then 0 else if ones >= skip + 8 then 8 else ones - skip;
    x - x % Pow2(8 - kept)
  }

  function Mask(q: Quad, ones: nat): (r: Quad)
    ensures ones >= 32 ==> r == q
  {
    Quad(MaskOctet(q.a, ones, 0), MaskOctet(q.b, ones, 8), MaskOctet(q.c, ones, 16), MaskOctet(q.d, ones, 24))
  }

  /** A network's base has the leading octets of any of its addresses, and zeros behind them. */
  lemma MaskedOctets(q: Quad)
    ensures Mask(q, 0) == Quad(0, 0, 0, 0) && Mask(q, 8) == Quad(q.a, 0, 0, 0)
    ensures Mask(q, 16) == Quad(q.a, q.b, 0, 0) && Mask(q, 24) == Quad(q.a, q.b, q.c, 0) && Mask(q, 32) == q
  {
  }

  lemma PowerIsPositive(n: nat)
    requires n <= 8
    ensures Pow2(n) > 0
  {
  }

  /** Within an octet, the bits that are kept stay as they are and the others are cleared. */
  lemma MaskedBits(x: Byte, kept: nat)
    requires kept <= 8
    ensures var m := Pow2(8 - kept);
      MaskOctet(x, kept, 0) == x / m * m && x / m * m <= x < x / m * m + m
  {
    hide Pow2;
    assert Pow2(8 - kept) > 0 by {
      PowerIsPositive(8 - kept);
    }
  }

  function IndexOf(s: string, c: char): (r: Option<nat>)
    ensures r.None? <==> c !in s
    ensures r.Some? ==> r.value < |s| && s[r.value] == c && c !in s[..r.value]
  {
    if s == "" then None
    else if s[0] == c then Some(0)
    else
      match IndexOf(s[1..], c)
      case None => None
      case Some(i) =>
        assert s[..i + 1] == [s[0]] + s[1..][..i];
        Some(i + 1)
  }

  lemma {:induction false} IndexOfFirst(before: string, c: char, after: string)
    requires c !in before
    ensures IndexOf(before + [c] + after, c) == Some(|before|)
    decreases |before|
  {
    if before != "" {
      assert (before + [c] + after)[1..] == before[1..] + [c] + after;
      IndexOfFirst(before[1..], c, after);
    }
  }

  /** The network part of `net.ParseCIDR`. */
  function ParseCIDR(v6: Ipv6Reader, s: string): Option<Prefix>
  {
    match IndexOf(s, '/')
    case None => None
    case Some(i) =>
      match FamilyOf(s[..i])
      case Neither => None
      case Colons => v6.cidr(s)
      case Dotted =>
        match (ParseDotted(s[..i]), ReadNumeral(s[i + 1..], 10))
        case (Some(q), Some(ones)) => if ones <= 32 then Some(Net4(Mask(q, ones), ones)) else None
        case _ => None
  }

  /** net.IPNet.String. */
  function PrintPrefix(p: Prefix): string
  {
    match p
    case Net4(base, ones) => PrintQuad(base) + "/" + Dec(ones)
    case Net6(text) => text
  }

  /** The network a `/32` names: exactly one address. */
  function Host32(q: Quad): Prefix
  {
    Net4(q, 32)
  }

  lemma PrintedQuadLacks(q: Quad, c: char)
    requires !('0' <= c <= '9') && c != '.'
    ensures c !in PrintQuad(q)
  {
    QuadPartsLack(q, c);
    JoinLacks(QuadParts(q), ".", c);
  }

  /** Behind an address and a slash, just a length of 0 to 32 is read; the bits behind it are cleared. */
  lemma CidrIsExact(v6: Ipv6Reader, q: Quad, length: string)
    ensures ParseCIDR(v6, PrintQuad(q) + "/" + length) ==
      match ReadNumeral(length, 10)
      case None => None
      case Some(n) => if n <= 32 then Some(Net4(Mask(q, n), n)) else None
  {
    var s := PrintQuad(q) + "/" + length;
    PrintedQuadLacks(q, '/');
    IndexOfFirst(PrintQuad(q), '/', length);
    var i := |PrintQuad(q)|;
    assert s[..i] == PrintQuad(q) && s[i + 1..] == length;
    PrintedIsDotted(q);
    DottedRoundTrip(PrintQuad(q), q);
    hide ReadNumeral, ParseDotted, PrintQuad, Mask;
  }

  lemma ParsePrintedNet4(v6: Ipv6Reader, base: Quad, ones: nat)
    requires ones <= 32 && Mask(base, ones) == base
    ensures ParseCIDR(v6, PrintPrefix(Net4(base, ones))) == Some(Net4(base, ones))
  {
    var s := PrintPrefix(Net4(base, ones));
    PrintedQuadLacks(base, '/');
    IndexOfFirst(PrintQuad(base), '/', Dec(ones));
    var i := |PrintQuad(base)|;
    assert s[..i] == PrintQuad(base) && s[i + 1..] == Dec(ones);
    PrintedIsDotted(base);
    DottedRoundTrip(PrintQuad(base), base);
    DecChars(ones);
  }

  /** `address + "/32"` for a printed address denotes that one address. */
  lemma ParseHost32(v6: Ipv6Reader, q: Quad)
    ensures ParseCIDR(v6, PrintQuad(q) + "/32") == Some(Host32(q))
  {
    assert Dec(32) == "32";
    assert PrintQuad(q) + "/32" == PrintQuad(q) + "/" + Dec(32);
    ParsePrintedNet4(v6, q, 32);
  }
}
