/** `Buffer.toString("base64url")` and its inverse, byte by byte. */
module Base64Url {
  import opened Base

  type Byte = b: int | 0 <= b < 256

  type Sextet = v: int | 0 <= v < 64

  function Letter(v: Sextet): char {
    if v < 26 then ('A' as int + v) as char
    else if v < 52 then ('a' as int + v - 26) as char
    else if v < 62 then ('0' as int + v - 52) as char
    else if v == 62 then '-'
    else '_'
  }

  predicate InAlphabet(c: char) {
    'A' <= c <= 'Z' || 'a' <= c <= 'z' || '0' <= c <= '9' || c == '-' || c == '_'
  }

  function Value(c: char): Sextet
    requires InAlphabet(c)
  {
    if 'A' <= c <= 'Z' then c as int - 'A' as int
    else if 'a' <= c <= 'z' then c as int - 'a' as int + 26
    else if '0' <= c <= '9' then c as int - '0' as int + 52
    else if c == '-' then 62
    else 63
  }

  /** Eight-bit bytes regrouped as six-bit values; the last group is short. */
  function Sextets(b: seq<Byte>): seq<Sextet> {
    if |b| == 0 then []
    else if |b| == 1 then [b[0] / 4, b[0] % 4 * 16]
    else if |b| == 2 then [b[0] / 4, b[0] % 4 * 16 + b[1] / 16, b[1] % 16 * 4]
    else [b[0] / 4, b[0] % 4 * 16 + b[1] / 16, b[1] % 16 * 4 + b[2] / 64, b[2] % 64] + Sextets(b[3..])
  }

  /** The whole bytes in a run of six-bit values; left-over bits are dropped. */
  function Bytes(v: seq<Sextet>): seq<Byte> {
    if |v| <= 1 then []
    else if |v| == 2 then [v[0] as int * 4 + v[1] / 16]
    else if |v| == 3 then [v[0] as int * 4 + v[1] / 16, v[1] as int % 16 * 16 + v[2] / 4]
    else [v[0] as int * 4 + v[1] / 16, v[1] as int % 16 * 16 + v[2] / 4, v[2] as int % 4 * 64 + v[3]] + Bytes(v[4..])
  }

  lemma {:induction false} BytesSextets(b: seq<Byte>)
    ensures Bytes(Sextets(b)) == b
  {
    if |b| >= 3 {
      BytesSextets(b[3..]);
      assert Sextets(b)[4..] == Sextets(b[3..]);
      assert b == [b[0], b[1], b[2]] + b[3..];
    }
  }

  /** The unpadded encoding uses only the 64 letters, so none of the separators
      '.', ';', '=', ':', NUL or white space ever occurs in it. */
  function Encode(bytes: seq<Byte>): (s: string)
    ensures forall c | c in s :: InAlphabet(c)
  {
    var v := Sextets(bytes);
    seq(|v|, i requires 0 <= i < |v| => Letter(v[i]))
  }

  /** None where the text is not an unpadded encoding. */
  function Decode(s: string): Option<seq<Byte>> {
    if (exists c | c in s :: !InAlphabet(c)) || |s| % 4 == 1 then None
    else Some(Bytes(seq(|s|, i requires 0 <= i < |s| => assert s[i] in s; Value(s[i]))))
  }

  /** Section 5 of RFC 4648: each value's letter by its place in each range. */
  lemma LettersInOrder(v: Sextet)
    ensures v < 26 ==> Letter(v) as int == 'A' as int + v
    ensures 26 <= v < 52 ==> Letter(v) as int == 'a' as int + v - 26
    ensures 52 <= v < 62 ==> Letter(v) as int == '0' as int + v - 52
    ensures Letter(62) == '-' && Letter(63) == '_'
  {
  }

  /** A value of section 10 of RFC 4648: "foobar". */
  lemma EncodesFoobar()
    ensures Encode([0x66, 0x6f, 0x6f, 0x62, 0x61, 0x72]) == "Zm9vYmFy"
  {
    var b: seq<Byte> := [0x66, 0x6f, 0x6f, 0x62, 0x61, 0x72];
    assert b[3..] == [0x62, 0x61, 0x72] && b[3..][3..] == [];
    assert Sextets(b[3..]) == [24, 38, 5, 50];
    assert Sextets(b) == [25, 38, 61, 47, 24, 38, 5, 50];
  }

  lemma SextetsLength(b: seq<Byte>)
    ensures |Sextets(b)| % 4 != 1
  {
  }

  lemma ValueLetter(v: Sextet)
    ensures InAlphabet(Letter(v)) && Value(Letter(v)) == v
  {
  }

  lemma DecodeEncode(bytes: seq<Byte>)
    ensures Decode(Encode(bytes)) == Some(bytes)
  {
    var v, s := Sextets(bytes), Encode(bytes);
    SextetsLength(bytes);
    BytesSextets(bytes);
    forall i | 0 <= i < |v| ensures Value(s[i]) == v[i] {
      ValueLetter(v[i]);
    }
    assert seq(|s|, i requires 0 <= i < |s| => assert s[i] in s; Value(s[i])) == v;
  }

  lemma EncodeInjective(a: seq<Byte>, b: seq<Byte>)
    requires Encode(a) == Encode(b)
    ensures a == b
  {
    DecodeEncode(a);
    DecodeEncode(b);
  }

  /** UTF-8, the byte form in which `Buffer.from(s, "utf8")` hands a string on. */
  function Utf8Char(c: char): (bytes: seq<Byte>)
    ensures 1 <= |bytes| <= 4
  {
    var u := c as int;
    if u < 0x80 then [u]
    else if u < 0x800 then [0xC0 + u / 0x40, 0x80 + u % 0x40]
    else if u < 0x1_0000 then [0xE0 + u / 0x1000, 0x80 + u / 0x40 % 0x40, 0x80 + u % 0x40]
    else [0xF0 + u / 0x4_0000, 0x80 + u / 0x1000 % 0x40, 0x80 + u / 0x40 % 0x40, 0x80 + u % 0x40]
  }

  function Utf8(s: string): seq<Byte> {
    if s == "" then [] else Utf8Char(s[0]) + Utf8(s[1..])
  }

  /** The lead byte gives the length of a character's encoding away. */
  function LeadLength(b: Byte): nat {
    if b < 0x80 then 1 else if b < 0xE0 then 2 else if b < 0xF0 then 3 else 4
  }

  function Utf8Value(b: seq<int>): int
    requires 1 <= |b| <= 4
  {
    if |b| == 1 then b[0]
    else if |b| == 2 then (b[0] - 0xC0) * 0x40 + (b[1] - 0x80)
    else if |b| == 3 then (b[0] - 0xE0) * 0x1000 + (b[1] - 0x80) * 0x40 + (b[2] - 0x80)
    else (b[0] - 0xF0) * 0x4_0000 + (b[1] - 0x80) * 0x1000 + (b[2] - 0x80) * 0x40 + (b[3] - 0x80)
  }

  lemma Utf8CharInjective(c: char, d: char)
    requires Utf8Char(c) == Utf8Char(d)
    ensures c == d
  {
    Utf8CharValue(c);
    Utf8CharValue(d);
  }

  lemma Utf8CharValue(c: char)
    ensures Utf8Value(Utf8Char(c)) == c as int
  {
    var u := c as int;
    var q := u / 0x40;
    assert u == q * 0x40 + u % 0x40;
    var r := u / 0x1000;
    assert r == q / 0x40 && q == r * 0x40 + q % 0x40;
    var t := u / 0x4_0000;
    assert t == r / 0x40 && r == t * 0x40 + r % 0x40;
  }

  lemma {:induction false} Utf8Injective(s: string, t: string)
    requires Utf8(s) == Utf8(t)
    ensures s == t
  {
    if s != "" && t != "" {
      var b, e := Utf8Char(s[0]), Utf8Char(t[0]);
      assert Utf8(s)[0] == b[0] && Utf8(t)[0] == e[0];
      assert |b| == LeadLength(b[0]) == LeadLength(e[0]) == |e|;
      assert b == Utf8(s)[..|b|] && e == Utf8(t)[..|e|];
      Utf8CharInjective(s[0], t[0]);
      assert Utf8(s)[|b|..] == Utf8(s[1..]) && Utf8(t)[|e|..] == Utf8(t[1..]);
      Utf8Injective(s[1..], t[1..]);
      assert s == [s[0]] + s[1..] && t == [t[0]] + t[1..];
    }
  }

  /** `Buffer.from(s, "utf8").toString("base64url")` */
  function EncodeText(s: string): (r: string)
    ensures forall c | c in r :: InAlphabet(c)
  {
    Encode(Utf8(s))
  }

  lemma EncodeTextInjective(s: string, t: string)
    requires EncodeText(s) == EncodeText(t)
    ensures s == t
  {
    EncodeInjective(Utf8(s), Utf8(t));
    Utf8Injective(s, t);
  }
}
