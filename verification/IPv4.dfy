/** IPv4 addresses as 32-bit numbers, as big-endian bytes and as dotted-decimal text, and the
    networks of classless addressing (section 3.1 of RFC 4632). */
module IPv4 {
  import opened Options

  const SPACE: nat := 0x1_0000_0000

  type Addr = n: nat | n < SPACE witness 0

  // ---------------------------------------------------------------------------
  // Bytes
  // ---------------------------------------------------------------------------

  type Byte = n: nat | n < 256 witness 0

  /** The big-endian bytes of a 32-bit number. */
  function Bytes(n: Addr): (b: seq<Byte>)
    ensures |b| == 4
  {
    [n / 256 / 256 / 256, n / 256 / 256 % 256, n / 256 % 256, n % 256]
  }

  function FromBytes(b: seq<Byte>): Addr
    requires |b| == 4
  {
    var b0: nat, b1: nat, b2: nat, b3: nat := b[0], b[1], b[2], b[3];
    ((b0 * 256 + b1) * 256 + b2) * 256 + b3
  }

  lemma BytesRoundTrip(n: Addr)
    ensures FromBytes(Bytes(n)) == n
  {
    var q1: nat := n / 256;
    var q2: nat := q1 / 256;
    assert n == q1 * 256 + n % 256 && q1 == q2 * 256 + q1 % 256 && q2 == q2 / 256 * 256 + q2 % 256;
  }

  /** The most significant byte comes first. */
  lemma BytesAreBigEndian(n: Addr)
    ensures var b := Bytes(n);
            n == b[0] as nat * 0x100_0000 + b[1] as nat * 0x1_0000 + b[2] as nat * 0x100 + b[3] as nat
  {
    BytesRoundTrip(n);
  }

  lemma FromBytesRoundTrip(b: seq<Byte>)
    requires |b| == 4
    ensures Bytes(FromBytes(b)) == b
  {
    var b0: nat, b1: nat, b2: nat, b3: nat := b[0], b[1], b[2], b[3];
    var h2: nat := b0 * 256 + b1;
    var h1: nat := h2 * 256 + b2;
    assert (h1 * 256 + b3) / 256 == h1 && (h1 * 256 + b3) % 256 == b3;
    assert (h2 * 256 + b2) / 256 == h2 && (h2 * 256 + b2) % 256 == b2;
    assert (b0 * 256 + b1) / 256 == b0 && (b0 * 256 + b1) % 256 == b1;
  }

  // ---------------------------------------------------------------------------
  // Text
  // ---------------------------------------------------------------------------

  predicate IsDigit(c: char) { '0' <= c <= '9' }

  function DigitOf(n: nat): (c: char)
    requires n < 10
    ensures IsDigit(c) && ValueOf(c) == n
  {
    '0' + n as char
  }

  function ValueOf(c: char): nat
    requires IsDigit(c)
  {
    c as nat - '0' as nat
  }

  function FormatOctet(n: Byte): string {
    if n < 10 then [DigitOf(n)]
    else if n < 100 then [DigitOf(n / 10), DigitOf(n % 10)]
    else [DigitOf(n / 100), DigitOf(n / 10 % 10), DigitOf(n % 10)]
  }

  /** One to three digits without a leading zero, at most 255. */
  function ParseOctet(s: string): Option<Byte> {
    if !(1 <= |s| <= 3) || exists c | c in s :: !IsDigit(c) then None
    else if |s| > 1 && s[0] == '0' then None
    else
      var n := if |s| == 1 then ValueOf(s[0])
               else if |s| == 2 then ValueOf(s[0]) * 10 + ValueOf(s[1])
               else ValueOf(s[0]) * 100 + ValueOf(s[1]) * 10 + ValueOf(s[2]);
      if n < 256 then Some(n) else None
  }

  lemma OctetRoundTrip(n: Byte)
    ensures ParseOctet(FormatOctet(n)) == Some(n) && '.' !in FormatOctet(n)
  {
    var h, t, u: nat := n / 100, n / 10 % 10, n % 10;
    assert n == 100 * h + 10 * t + u;
    var s := FormatOctet(n);
    assert forall c | c in s :: IsDigit(c);
  }

  lemma DigitText(c: char)
    requires IsDigit(c)
    ensures ValueOf(c) < 10 && DigitOf(ValueOf(c)) == c && (ValueOf(c) == 0 <==> c == '0')
  {
  }

  lemma DigitsOfNumber(h: nat, t: nat, u: nat)
    requires h < 10 && t < 10 && u < 10
    ensures (10 * t + u) / 10 == t && (10 * t + u) % 10 == u
    ensures (100 * h + 10 * t + u) / 100 == h && (100 * h + 10 * t + u) / 10 % 10 == t && (100 * h + 10 * t + u) % 10 == u
  {
    assert (100 * h + 10 * t + u) / 10 == 10 * h + t;
  }

  /** Octets have one text only. */
  lemma OctetTextUnique(s: string)
    ensures var n := ParseOctet(s); n.Some? ==> s == FormatOctet(n.value)
  {
    if ParseOctet(s).Some? {
      assert s[0] in s;
      DigitText(s[0]);
      if |s| == 2 {
        assert s[1] in s;
        DigitText(s[1]);
        DigitsOfNumber(0, ValueOf(s[0]), ValueOf(s[1]));
      } else if |s| == 3 {
        assert s[1] in s && s[2] in s;
        DigitText(s[1]);
        DigitText(s[2]);
        DigitsOfNumber(ValueOf(s[0]), ValueOf(s[1]), ValueOf(s[2]));
      }
    }
  }

  /** The fields of a text between dots. */
  function Split(s: string): (f: seq<string>)
    ensures |f| >= 1
  {
    if s == [] then [[]]
    else
      var rest := Split(s[1..]);
      if s[0] == '.' then [[]] + rest else [[s[0]] + rest[0]] + rest[1..]
  }

  function Join(f: seq<string>): string
    requires |f| >= 1
  {
    if |f| == 1 then f[0] else f[0] + "." + Join(f[1..])
  }

  lemma {:induction false} JoinCons(c: char, f: seq<string>)
    requires |f| >= 1
    ensures Join([[c] + f[0]] + f[1..]) == [c] + Join(f)
  {
    var g := [[c] + f[0]] + f[1..];
    if |f| > 1 {
      var tail := "." + Join(f[1..]);
      assert g[1..] == f[1..];
      assert Join(g) == g[0] + "." + Join(g[1..]) == ([c] + f[0]) + tail;
      assert Join(f) == f[0] + "." + Join(f[1..]) == f[0] + tail;
      assert ([c] + f[0]) + tail == [c] + (f[0] + tail);
    }
  }

  lemma {:induction false} JoinSplit(s: string)
    ensures Join(Split(s)) == s
  {
    if s != [] {
      var rest := Split(s[1..]);
      JoinSplit(s[1..]);
      if s[0] == '.' {
        assert ([[]] + rest)[1..] == rest;
        assert Join([[]] + rest) == "." + Join(rest);
      } else {
        JoinCons(s[0], rest);
      }
    }
  }

  lemma {:induction false} SplitField(field: string, rest: string)
    requires '.' !in field
    ensures Split(field) == [field]
    ensures Split(field + "." + rest) == [field] + Split(rest)
  {
    var s := field + "." + rest;
    if field == [] {
      assert s[1..] == rest;
    } else {
      assert s[1..] == field[1..] + "." + rest;
      SplitField(field[1..], rest);
      assert [field[0]] + field[1..] == field;
      assert ([field[1..]] + Split(rest))[1..] == Split(rest);
    }
  }

  function Format(a: Addr): string {
    var b := Bytes(a);
    FormatOctet(b[0]) + "." + (FormatOctet(b[1]) + "." + (FormatOctet(b[2]) + "." + FormatOctet(b[3])))
  }

  function Parse(s: string): Option<Addr> {
    var f := Split(s);
    if |f| != 4 then None
    else
      var o0, o1, o2, o3 := ParseOctet(f[0]), ParseOctet(f[1]), ParseOctet(f[2]), ParseOctet(f[3]);
      if o0.None? || o1.None? || o2.None? || o3.None? then None
      else Some(FromBytes([o0.value, o1.value, o2.value, o3.value]))
  }

  /** The text of an address is its four bytes in decimal, the most significant one first. */
  lemma TextIsDottedBytes(a: Addr)
    ensures var f := Split(Format(a));
            |f| == 4 && forall i | 0 <= i < 4 :: ParseOctet(f[i]) == Some(Bytes(a)[i])
  {
    var b := Bytes(a);
    var t0, t1, t2, t3 := FormatOctet(b[0]), FormatOctet(b[1]), FormatOctet(b[2]), FormatOctet(b[3]);
    OctetRoundTrip(b[0]);
    OctetRoundTrip(b[1]);
    OctetRoundTrip(b[2]);
    OctetRoundTrip(b[3]);
    SplitField(t3, []);
    SplitField(t2, t3);
    SplitField(t1, t2 + "." + t3);
    SplitField(t0, t1 + "." + (t2 + "." + t3));
    assert Split(Format(a)) == [t0, t1, t2, t3];
  }

  lemma ParseFormat(a: Addr)
    ensures Parse(Format(a)) == Some(a)
  {
    var b := Bytes(a);
    TextIsDottedBytes(a);
    assert b == [b[0], b[1], b[2], b[3]];
    BytesRoundTrip(a);
  }

  /** A text that parses is the canonical text of its address. */
  lemma FormatParse(s: string)
    ensures var a := Parse(s); a.Some? ==> Format(a.value) == s
  {
    if Parse(s).Some? {
      var f := Split(s);
      JoinSplit(s);
      OctetTextUnique(f[0]);
      OctetTextUnique(f[1]);
      OctetTextUnique(f[2]);
      OctetTextUnique(f[3]);
      var b := [ParseOctet(f[0]).value, ParseOctet(f[1]).value, ParseOctet(f[2]).value, ParseOctet(f[3]).value];
      FromBytesRoundTrip(b);
      assert f[1..][1..] == f[2..] && f[2..][1..] == f[3..];
      assert Join(f[3..]) == f[3] && Join(f[2..]) == f[2] + "." + f[3];
      assert Join(f[1..]) == f[1] + "." + (f[2] + "." + f[3]);
      assert Join(f) == f[0] + "." + (f[1] + "." + (f[2] + "." + f[3]));
    }
  }
}
