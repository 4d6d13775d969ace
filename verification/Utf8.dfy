/** UTF-8 (section 3 of RFC 3629) and lower-case hexadecimal, as `path.encode('utf-8').hex()` uses them.
    Each encoder has a strict decoder, and the two are proved inverse to each other. */
module Utf8 {
  import opened Results

  type Byte = b: int | 0 <= b < 256

  // ----- UTF-8 -----

  function EncodeChar(c: char): (bytes: seq<Byte>)
    ensures 1 <= |bytes| <= 4
  {
    var n := c as int;
    if n < 0x80 then [n]
    else if n < 0x800 then [0xC0 + n / 64, 0x80 + n % 64]
    else if n < 0x10000 then [0xE0 + n / 4096, 0x80 + n / 64 % 64, 0x80 + n % 64]
    else [0xF0 + n / 262144, 0x80 + n / 4096 % 64, 0x80 + n / 64 % 64, 0x80 + n % 64]
  }

  function Encode(s: string): seq<Byte> {
    if s == "" then [] else EncodeChar(s[0]) + Encode(s[1..])
  }

  predicate Continuation(b: Byte) { 0x80 <= b < 0xC0 }

  predicate Scalar(n: int) { 0 <= n < 0xD800 || 0xE000 <= n < 0x110000 }

  /** A value built from a head and up to three six-bit groups. */
  function Join2(h: int, x: int): int { h * 64 + x }
  function Join3(h: int, x: int, y: int): int { Join2(Join2(h, x), y) }
  function Join4(h: int, x: int, y: int, z: int): int { Join2(Join3(h, x, y), z) }

  /** The code point at the head of `bytes` and its length in bytes; overlong forms and surrogates are refused. */
  function DecodeFirst(bytes: seq<Byte>): (r: Option<(char, nat)>)
    requires bytes != []
    ensures r.Some? ==> 1 <= r.value.1 <= |bytes|
  {
    var b: int := bytes[0];
    if b < 0x80 then Some((b as char, 1))
    else if 0xC0 <= b < 0xE0 && |bytes| >= 2 && Continuation(bytes[1]) then
      Checked(Join2(b - 0xC0, Low6(bytes[1])), 0x80, 2)
    else if 0xE0 <= b < 0xF0 && |bytes| >= 3 && Continuation(bytes[1]) && Continuation(bytes[2]) then
      Checked(Join3(b - 0xE0, Low6(bytes[1]), Low6(bytes[2])), 0x800, 3)
    else if 0xF0 <= b < 0xF8 && |bytes| >= 4
            && Continuation(bytes[1]) && Continuation(bytes[2]) && Continuation(bytes[3]) then
      Checked(Join4(b - 0xF0, Low6(bytes[1]), Low6(bytes[2]), Low6(bytes[3])), 0x10000, 4)
    else None
  }

  function Low6(b: Byte): int { var n: int := b; n - 0x80 }

  function Checked(n: int, least: int, length: nat): (r: Option<(char, nat)>) {
    if n >= least && Scalar(n) then Some((n as char, length)) else None
  }

  function Decode(bytes: seq<Byte>): Option<string>
    decreases |bytes|
  {
    if bytes == [] then Some("")
    else match DecodeFirst(bytes)
      case None => None
      case Some((c, k)) =>
        match Decode(bytes[k..])
        case None => None
        case Some(s) => Some([c] + s)
  }

  lemma SplitJoin(h: int, x: int)
    requires 0 <= x < 64
    ensures Join2(h, x) / 64 == h && Join2(h, x) % 64 == x
  {
  }

  lemma Quotients(n: nat)
    ensures n / 4096 == n / 64 / 64 && n / 262144 == n / 64 / 64 / 64
  {
  }

  /** The six-bit groups of a code point, and the code point of its groups. */
  lemma Digits(h: nat, x: int, y: int, z: int)
    requires 0 <= x < 64 && 0 <= y < 64 && 0 <= z < 64
    ensures var n := Join4(h, x, y, z);
            n / 262144 == h && n / 4096 == Join2(h, x) && n / 64 == Join3(h, x, y)
            && n / 4096 % 64 == x && n / 64 % 64 == y && n % 64 == z
  {
    SplitJoin(h, x);
    SplitJoin(Join2(h, x), y);
    SplitJoin(Join3(h, x, y), z);
    Quotients(Join4(h, x, y, z));
  }

  lemma Regroup(n: nat)
    ensures Join4(n / 262144, n / 4096 % 64, n / 64 % 64, n % 64) == n
    ensures Join3(n / 4096, n / 64 % 64, n % 64) == n
    ensures Join2(n / 64, n % 64) == n
  {
    Quotients(n);
    assert Join2(n / 64 / 64, n / 64 % 64) == n / 64;
    assert Join2(n / 64 / 64 / 64, n / 64 / 64 % 64) == n / 64 / 64;
  }

  lemma DecodeFirstOfEncoded(c: char, rest: seq<Byte>)
    ensures DecodeFirst(EncodeChar(c) + rest) == Some((c, |EncodeChar(c)|))
  {
    var n, bytes := c as int, EncodeChar(c) + rest;
    Regroup(n);
    if n >= 0x10000 {
      assert Low6(bytes[1]) == n / 4096 % 64 && Low6(bytes[2]) == n / 64 % 64 && Low6(bytes[3]) == n % 64;
      assert DecodeFirst(bytes) == Checked(n, 0x10000, 4);
    } else if n >= 0x800 {
      assert Low6(bytes[1]) == n / 64 % 64 && Low6(bytes[2]) == n % 64;
      assert DecodeFirst(bytes) == Checked(n, 0x800, 3);
    } else if n >= 0x80 {
      assert Low6(bytes[1]) == n % 64;
      assert DecodeFirst(bytes) == Checked(n, 0x80, 2);
    }
  }

  lemma EncodeCharOfDecoded(bytes: seq<Byte>)
    requires bytes != [] && DecodeFirst(bytes).Some?
    ensures var (c, k) := DecodeFirst(bytes).value; EncodeChar(c) == bytes[..k]
  {
    var b: int := bytes[0];
    if b >= 0xF0 {
      Digits(b - 0xF0, Low6(bytes[1]), Low6(bytes[2]), Low6(bytes[3]));
    } else if b >= 0xE0 {
      Digits(0, b - 0xE0, Low6(bytes[1]), Low6(bytes[2]));
    } else if b >= 0xC0 {
      SplitJoin(b - 0xC0, Low6(bytes[1]));
    }
  }

  lemma {:induction false} DecodeEncode(s: string)
    ensures Decode(Encode(s)) == Some(s)
  {
    if s != "" {
      DecodeFirstOfEncoded(s[0], Encode(s[1..]));
      assert Encode(s)[|EncodeChar(s[0])|..] == Encode(s[1..]);
      DecodeEncode(s[1..]);
      assert s == [s[0]] + s[1..];
    }
  }

  lemma JoinDecoded(head: seq<Byte>, tail: seq<Byte>, c: char, rest: string)
    requires EncodeChar(c) == head && Encode(rest) == tail
    ensures Encode([c] + rest) == head + tail
  {
    EncodeCons(c, rest);
  }

  lemma {:induction false} EncodeDecode(bytes: seq<Byte>)
    requires Decode(bytes).Some?
    ensures Encode(Decode(bytes).value) == bytes
    decreases |bytes|
  {
    if bytes != [] {
      var first := DecodeFirst(bytes).value;
      var head, tail := bytes[..first.1], bytes[first.1..];
      assert bytes == head + tail;
      EncodeDecode(tail);
      assert EncodeChar(first.0) == head by { EncodeCharOfDecoded(bytes); }
      JoinDecoded(head, tail, first.0, Decode(tail).value);
    }
  }

  lemma EncodeCons(c: char, rest: string)
    ensures Encode([c] + rest) == EncodeChar(c) + Encode(rest)
  {
    assert ([c] + rest)[1..] == rest;
  }

  // ----- Hexadecimal -----

  function HexDigit(d: int): (c: char)
    requires 0 <= d < 16
    ensures c != '_'
  {
    if d < 10 then ('0' as int + d) as char else ('a' as int + (d - 10)) as char
  }

  function Hex(bytes: seq<Byte>): string {
    if bytes == [] then "" else [HexDigit(bytes[0] / 16), HexDigit(bytes[0] % 16)] + Hex(bytes[1..])
  }

  function DigitValue(c: char): (d: Option<int>)
    ensures d.Some? ==> 0 <= d.value < 16
  {
    if '0' <= c <= '9' then Some(c as int - '0' as int)
    else if 'a' <= c <= 'f' then Some(c as int - 'a' as int + 10)
    else None
  }

  function Unhex(s: string): Option<seq<Byte>> {
    if s == "" then Some([])
    else if |s| == 1 then None
    else match (DigitValue(s[0]), DigitValue(s[1]), Unhex(s[2..]))
      case (Some(h), Some(l), Some(rest)) =>
        Some([h * 16 + l] + rest)
      case _ => None
  }

  lemma {:induction false} UnhexHex(bytes: seq<Byte>)
    ensures Unhex(Hex(bytes)) == Some(bytes)
  {
    if bytes != [] {
      var b: int := bytes[0];
      var digits := [HexDigit(b / 16), HexDigit(b % 16)];
      assert Hex(bytes) == digits + Hex(bytes[1..]);
      assert Hex(bytes)[2..] == Hex(bytes[1..]);
      assert Hex(bytes)[0] == digits[0] && Hex(bytes)[1] == digits[1];
      UnhexHex(bytes[1..]);
      assert bytes == [bytes[0]] + bytes[1..];
    }
  }

  /** Distinct texts have distinct hexadecimal UTF-8 forms. */
  lemma HexUtf8Injective(s: string, t: string)
    requires Hex(Encode(s)) == Hex(Encode(t))
    ensures s == t
  {
    UnhexHex(Encode(s));
    UnhexHex(Encode(t));
    DecodeEncode(s);
    DecodeEncode(t);
  }

  /** One character of each length, with the values of section 7 of RFC 3629 where it has them. */
  lemma StandardValues()
    ensures Hex(Encode("/")) == "2f"
    ensures EncodeChar('\U{00E9}') == [0xC3, 0xA9]
    ensures EncodeChar('\U{D55C}') == [0xED, 0x95, 0x9C]
    ensures EncodeChar('\U{233B4}') == [0xF0, 0xA3, 0x8E, 0xB4]
  {
    assert Encode("/") == EncodeChar('/') + Encode("") == [0x2F];
    assert Hex([0x2F]) == "2f" + Hex([]);
  }
}
