/** Unpadded base64url (sections 4 and 5 of RFC 4648) as the cursors use it: `urlsafe_b64encode(..).rstrip("=")`
    one way, `b64decode(raw + "=" * (-len(raw) % 4), altchars=b"-_", validate=True)` the other
    (engine/app/api/chat_sessions.py, lines 93 and 100). */
module Base64Url {
  import opened Results
  import opened Utf8

  function Symbol(v: int): (c: char)
    requires 0 <= v < 64
    ensures c != '='
  {
    if v < 26 then ('A' as int + v) as char
    else if v < 52 then ('a' as int + (v - 26)) as char
    else if v < 62 then ('0' as int + (v - 52)) as char
    else if v == 62 then '-'
    else '_'
  }

  /** Python translates `-` and `_` to `+` and `/` before decoding, so those two are accepted as well. */
  function Value(c: char): (v: Option<int>)
    ensures v.Some? ==> 0 <= v.value < 64
  {
    if 'A' <= c <= 'Z' then Some(c as int - 'A' as int)
    else if 'a' <= c <= 'z' then Some(c as int - 'a' as int + 26)
    else if '0' <= c <= '9' then Some(c as int - '0' as int + 52)
    else if c == '-' || c == '+' then Some(62)
    else if c == '_' || c == '/' then Some(63)
    else None
  }

  function Group3(a: int, b: int, c: int): (g: string)
    requires 0 <= a < 256 && 0 <= b < 256 && 0 <= c < 256
    ensures |g| == 4
  {
    [Symbol(a / 4), Symbol(a % 4 * 16 + b / 16), Symbol(b % 16 * 4 + c / 64), Symbol(c % 64)]
  }

  function Group2(a: int, b: int): string
    requires 0 <= a < 256 && 0 <= b < 256
  {
    [Symbol(a / 4), Symbol(a % 4 * 16 + b / 16), Symbol(b % 16 * 4), '=']
  }

  function Group1(a: int): string
    requires 0 <= a < 256
  {
    [Symbol(a / 4), Symbol(a % 4 * 16), '=', '=']
  }

  function Encode(bytes: seq<Byte>): string {
    if |bytes| == 0 then ""
    else if |bytes| == 1 then Group1(bytes[0])
    else if |bytes| == 2 then Group2(bytes[0], bytes[1])
    else Group3(bytes[0], bytes[1], bytes[2]) + Encode(bytes[3..])
  }

  function Bytes3(w: int, x: int, y: int, z: int): seq<Byte>
    requires 0 <= w < 64 && 0 <= x < 64 && 0 <= y < 64 && 0 <= z < 64
  {
    [w * 4 + x / 16, x % 16 * 16 + y / 4, y % 4 * 64 + z]
  }

  /** Strict decoding: whole groups of four, padding only at the end of the last. */
  function Decode(s: string): Option<seq<Byte>> {
    if s == "" then Some([])
    else if |s| < 4 then None
    else
      match (Value(s[0]), Value(s[1]), Value(s[2]), Value(s[3]))
      case (Some(w), Some(x), Some(y), Some(z)) =>
        (match Decode(s[4..])
         case None => None
         case Some(rest) => Some(Bytes3(w, x, y, z) + rest))
      case (Some(w), Some(x), Some(y), None) =>
        if |s| == 4 && s[3] == '=' then Some(Bytes3(w, x, y, 0)[..2]) else None
      case (Some(w), Some(x), None, None) =>
        if |s| == 4 && s[2] == '=' && s[3] == '=' then Some(Bytes3(w, x, 0, 0)[..1]) else None
      case _ => None
  }

  function Strip(s: string): string {
    if s != "" && s[|s| - 1] == '=' then Strip(s[..|s| - 1]) else s
  }

  function Repad(s: string): string {
    s + seq((-|s|) % 4, _ => '=')
  }

  lemma SymbolValue(v: int)
    requires 0 <= v < 64
    ensures Value(Symbol(v)) == Some(v)
  {
  }

  lemma JoinSplit(a: int, b: int, c: int)
    requires 0 <= a < 256 && 0 <= b < 256 && 0 <= c < 256
    ensures Bytes3(a / 4, a % 4 * 16 + b / 16, b % 16 * 4 + c / 64, c % 64) == [a, b, c]
  {
  }

  lemma DecodeGroup(w: int, x: int, y: int, z: int, t: string)
    requires 0 <= w < 64 && 0 <= x < 64 && 0 <= y < 64 && 0 <= z < 64
    ensures Decode([Symbol(w), Symbol(x), '=', '=']) == Some(Bytes3(w, x, 0, 0)[..1])
    ensures Decode([Symbol(w), Symbol(x), Symbol(y), '=']) == Some(Bytes3(w, x, y, 0)[..2])
    ensures Decode(t).Some? ==>
              Decode([Symbol(w), Symbol(x), Symbol(y), Symbol(z)] + t) == Some(Bytes3(w, x, y, z) + Decode(t).value)
  {
    SymbolValue(w);
    SymbolValue(x);
    SymbolValue(y);
    SymbolValue(z);
    assert ([Symbol(w), Symbol(x), Symbol(y), Symbol(z)] + t)[4..] == t;
  }

  lemma DecodeGroup1(a: int)
    requires 0 <= a < 256
    ensures Decode(Group1(a)) == Some([a])
  {
    JoinSplit(a, 0, 0);
    DecodeGroup(a / 4, a % 4 * 16, 0, 0, "");
    assert Bytes3(a / 4, a % 4 * 16, 0, 0)[..1] == [a];
  }

  lemma DecodeGroup2(a: int, b: int)
    requires 0 <= a < 256 && 0 <= b < 256
    ensures Decode(Group2(a, b)) == Some([a, b])
  {
    JoinSplit(a, b, 0);
    DecodeGroup(a / 4, a % 4 * 16 + b / 16, b % 16 * 4, 0, "");
    assert Bytes3(a / 4, a % 4 * 16 + b / 16, b % 16 * 4, 0)[..2] == [a, b];
  }

  lemma DecodeGroup3(a: int, b: int, c: int, t: string)
    requires 0 <= a < 256 && 0 <= b < 256 && 0 <= c < 256 && Decode(t).Some?
    ensures Decode(Group3(a, b, c) + t) == Some([a, b, c] + Decode(t).value)
  {
    JoinSplit(a, b, c);
    DecodeGroup(a / 4, a % 4 * 16 + b / 16, b % 16 * 4 + c / 64, c % 64, t);
  }

  lemma FirstThree(bytes: seq<Byte>)
    requires |bytes| >= 3
    ensures bytes == [bytes[0], bytes[1], bytes[2]] + bytes[3..]
  {
  }

  lemma {:induction false} DecodeEncode(bytes: seq<Byte>)
    ensures Decode(Encode(bytes)) == Some(bytes)
  {
    if |bytes| == 1 {
      assert bytes == [bytes[0]];
      DecodeGroup1(bytes[0]);
    } else if |bytes| == 2 {
      assert bytes == [bytes[0], bytes[1]];
      DecodeGroup2(bytes[0], bytes[1]);
    } else if |bytes| >= 3 {
      DecodeEncode(bytes[3..]);
      DecodeGroup3(bytes[0], bytes[1], bytes[2], Encode(bytes[3..]));
      FirstThree(bytes);
    }
  }

  lemma StripTail(g: string, t: string)
    requires g != "" && g[|g| - 1] != '='
    ensures Strip(g + t) == g + Strip(t)
    decreases |t|
  {
    if t == "" {
      assert g + t == g;
    } else if t[|t| - 1] == '=' {
      StripTail(g, t[..|t| - 1]);
      assert (g + t)[..|g + t| - 1] == g + t[..|t| - 1];
    }
  }

  lemma RepadBehind(g: string, t: string)
    requires |g| == 4
    ensures Repad(g + t) == g + Repad(t)
  {
  }

  lemma StripShort(g: string)
    requires |g| == 4 && g[1] != '=' && g[3] == '='
    ensures g[2] == '=' ==> Repad(Strip(g)) == g
    ensures g[2] != '=' ==> Repad(Strip(g)) == g
  {
    var g3, g2 := g[..3], g[..2];
    assert g3[..2] == g2;
    assert Strip(g) == Strip(g3);
    if g[2] == '=' {
      assert Strip(g3) == Strip(g2) == g2;
      assert g == g2 + ['=', '='];
      assert (-2) % 4 == 2;
      assert Repad(g2) == g;
    } else {
      assert Strip(g3) == g3;
      assert g == g3 + ['='];
      assert (-3) % 4 == 1;
      assert Repad(g3) == g;
    }
  }

  /** Padding is a function of the length, so stripping it loses nothing. */
  lemma {:induction false} RepadStrip(bytes: seq<Byte>)
    ensures Repad(Strip(Encode(bytes))) == Encode(bytes)
  {
    if |bytes| == 1 {
      StripShort(Group1(bytes[0]));
    } else if |bytes| == 2 {
      StripShort(Group2(bytes[0], bytes[1]));
    } else if |bytes| >= 3 {
      var g, rest := Group3(bytes[0], bytes[1], bytes[2]), Encode(bytes[3..]);
      RepadStrip(bytes[3..]);
      StripTail(g, rest);
      RepadBehind(g, Strip(rest));
    }
  }

  function EncodeUnpadded(bytes: seq<Byte>): string {
    Strip(Encode(bytes))
  }

  function DecodeUnpadded(raw: string): Option<seq<Byte>> {
    Decode(Repad(raw))
  }

  /** What is encoded without padding decodes to the same bytes, for every byte string. */
  lemma RoundTrip(bytes: seq<Byte>)
    ensures DecodeUnpadded(EncodeUnpadded(bytes)) == Some(bytes)
  {
    RepadStrip(bytes);
    DecodeEncode(bytes);
  }

  // ----- Which texts can be decoded -----

  predicate IsSymbol(c: char) {
    'A' <= c <= 'Z' || 'a' <= c <= 'z' || '0' <= c <= '9' || c == '-' || c == '_' || c == '+' || c == '/'
  }

  /** Symbols and then `k` of the `=` that belong behind so many symbols; a single symbol is never left over. */
  predicate SymbolsThenPadding(raw: string, k: nat) {
    && k <= |raw|
    && (forall i | 0 <= i < |raw| - k :: IsSymbol(raw[i])) && (forall i | |raw| - k <= i < |raw| :: raw[i] == '=')
    && (|raw| - k) % 4 != 1 && k <= (k - |raw|) % 4
  }

  ghost predicate Decodable(raw: string) {
    exists k :: SymbolsThenPadding(raw, k)
  }

  lemma ValueIff(c: char)
    ensures Value(c).Some? <==> IsSymbol(c)
    ensures c == '=' ==> Value(c).None?
  {
  }

  /** The cases of at most one group. */
  predicate ShortDecodable(raw: string)
    requires |raw| <= 4
  {
    match |raw|
    case 0 => true
    case 1 => false
    case 2 => IsSymbol(raw[0]) && IsSymbol(raw[1])
    case 3 => IsSymbol(raw[0]) && IsSymbol(raw[1]) && (IsSymbol(raw[2]) || raw[2] == '=')
    case _ =>
      && IsSymbol(raw[0]) && IsSymbol(raw[1])
      && ((IsSymbol(raw[2]) && (IsSymbol(raw[3]) || raw[3] == '=')) || (raw[2] == '=' && raw[3] == '='))
  }

  lemma ShortDecodes(raw: string)
    requires |raw| <= 4
    ensures DecodeUnpadded(raw).Some? <==> ShortDecodable(raw)
  {
    forall i | 0 <= i < |raw| { ValueIff(raw[i]); }
    ValueIff('=');
    assert (-1) % 4 == 3 && (-2) % 4 == 2 && (-3) % 4 == 1;
    var s := Repad(raw);
    assert forall i | 0 <= i < |s| :: s[i] == if i < |raw| then raw[i] else '=';
    if |s| == 4 { assert s[4..] == "" && Decode(s[4..]) == Some([]); }
  }

  lemma ShortPadded(raw: string)
    requires |raw| <= 4
    ensures Decodable(raw) <==> ShortDecodable(raw)
  {
    if ShortDecodable(raw) {
      var k := if |raw| >= 3 && raw[2] == '=' then |raw| - 2 else if |raw| == 4 && raw[3] == '=' then 1 else 0;
      assert SymbolsThenPadding(raw, k);
    }
  }

  lemma PaddedTail(g: string, t: string, k: nat)
    requires |g| == 4 && t != "" && SymbolsThenPadding(g + t, k)
    ensures (forall i | 0 <= i < 4 :: IsSymbol(g[i])) && SymbolsThenPadding(t, k)
  {
    var raw := g + t;
    assert |raw| - k >= 4;
    forall i | 0 <= i < 4 ensures IsSymbol(g[i]) { assert raw[i] == g[i]; }
    forall i | 0 <= i < |t| ensures t[i] == raw[4 + i] {}
  }

  lemma PaddedBehind(g: string, t: string, k: nat)
    requires |g| == 4 && (forall i | 0 <= i < 4 :: IsSymbol(g[i])) && SymbolsThenPadding(t, k)
    ensures SymbolsThenPadding(g + t, k)
  {
    var raw := g + t;
    forall i | 0 <= i < |raw| ensures raw[i] == if i < 4 then g[i] else t[i - 4] {}
  }

  lemma GroupDecodable(g: string, t: string)
    requires |g| == 4 && t != ""
    ensures Decodable(g + t) <==> (forall i | 0 <= i < 4 :: IsSymbol(g[i])) && Decodable(t)
  {
    if k :| SymbolsThenPadding(g + t, k) {
      PaddedTail(g, t, k);
    }
    if (forall i | 0 <= i < 4 :: IsSymbol(g[i])) && Decodable(t) {
      var k :| SymbolsThenPadding(t, k);
      PaddedBehind(g, t, k);
    }
  }

  lemma GroupDecodes(g: string, t: string)
    requires |g| == 4 && t != ""
    ensures Decode(g + t).Some? <==> (forall i | 0 <= i < 4 :: IsSymbol(g[i])) && Decode(t).Some?
  {
    assert (g + t)[4..] == t && forall i | 0 <= i < 4 :: (g + t)[i] == g[i];
    forall i | 0 <= i < 4 { ValueIff(g[i]); }
    assert IsSymbol(g[0]) && IsSymbol(g[1]) && IsSymbol(g[2]) && IsSymbol(g[3]) ==>
        forall i | 0 <= i < 4 :: IsSymbol(g[i]);
  }

  /** A text can be decoded exactly when it is symbols, with or without the padding that belongs to them. */
  lemma {:induction false} DecodesIff(raw: string)
    ensures DecodeUnpadded(raw).Some? <==> Decodable(raw)
  {
    if |raw| <= 4 {
      ShortDecodes(raw);
      ShortPadded(raw);
    } else {
      var g, t := raw[..4], raw[4..];
      assert raw == g + t;
      DecodesIff(t);
      RepadBehind(g, t);
      GroupDecodes(g, Repad(t));
      GroupDecodable(g, t);
    }
  }

  // ----- Canonical texts -----

  /** A symbol of the URL-safe alphabet; the decoder takes `+` and `/` as well. */
  predicate CanonicalSymbol(c: char) {
    Value(c).Some? && c != '+' && c != '/'
  }

  /** Only symbols of the alphabet, no single one left over, and no bits set in the last one beyond the last byte. */
  predicate Canonical(raw: string) {
    && (forall i | 0 <= i < |raw| :: CanonicalSymbol(raw[i]))
    && |raw| % 4 != 1
    && (|raw| % 4 == 2 ==> Value(raw[|raw| - 1]).value % 16 == 0)
    && (|raw| % 4 == 3 ==> Value(raw[|raw| - 1]).value % 4 == 0)
  }

  lemma SymbolCanonical(v: int)
    requires 0 <= v < 64
    ensures CanonicalSymbol(Symbol(v)) && Value(Symbol(v)) == Some(v)
  {
  }

  lemma ValueSymbol(c: char)
    requires CanonicalSymbol(c)
    ensures Symbol(Value(c).value) == c
  {
  }

  /** A whole group in front changes nothing about being canonical, apart from its own symbols. */
  lemma CanonicalBehind(g: string, t: string)
    requires |g| == 4
    ensures Canonical(g + t) <==> Canonical(g) && Canonical(t)
  {
    var raw := g + t;
    assert raw[..4] == g && raw[4..] == t && |raw| % 4 == |t| % 4;
    if Canonical(raw) {
      forall i | 0 <= i < 4 ensures CanonicalSymbol(g[i]) { assert g[i] == raw[i]; }
      forall i | 0 <= i < |t| ensures CanonicalSymbol(t[i]) { assert t[i] == raw[4 + i]; }
    }
    if Canonical(g) && Canonical(t) {
      forall i | 0 <= i < |raw| ensures CanonicalSymbol(raw[i]) {
        assert raw[i] == if i < 4 then g[i] else t[i - 4];
      }
    }
  }

  lemma Group3Canonical(a: int, b: int, c: int)
    requires 0 <= a < 256 && 0 <= b < 256 && 0 <= c < 256
    ensures Canonical(Group3(a, b, c))
  {
    SymbolCanonical(a / 4);
    SymbolCanonical(a % 4 * 16 + b / 16);
    SymbolCanonical(b % 16 * 4 + c / 64);
    SymbolCanonical(c % 64);
  }

  lemma StripGroup1(a: int)
    requires 0 <= a < 256
    ensures Strip(Group1(a)) == [Symbol(a / 4), Symbol(a % 4 * 16)]
  {
    var g := Group1(a);
    assert g[..3][..2] == [Symbol(a / 4), Symbol(a % 4 * 16)];
    assert Strip(g) == Strip(g[..3]) == Strip(g[..3][..2]);
  }

  lemma StripGroup2(a: int, b: int)
    requires 0 <= a < 256 && 0 <= b < 256
    ensures Strip(Group2(a, b)) == [Symbol(a / 4), Symbol(a % 4 * 16 + b / 16), Symbol(b % 16 * 4)]
  {
    var g := Group2(a, b);
    assert g[..3] == [Symbol(a / 4), Symbol(a % 4 * 16 + b / 16), Symbol(b % 16 * 4)];
    assert Strip(g) == Strip(g[..3]);
  }

  /** What the encoder writes is canonical. */
  lemma {:induction false} EncodedIsCanonical(bytes: seq<Byte>)
    ensures Canonical(EncodeUnpadded(bytes))
  {
    if |bytes| == 1 {
      StripGroup1(bytes[0]);
      SymbolCanonical(bytes[0] / 4);
      SymbolCanonical(bytes[0] % 4 * 16);
    } else if |bytes| == 2 {
      StripGroup2(bytes[0], bytes[1]);
      SymbolCanonical(bytes[0] / 4);
      SymbolCanonical(bytes[0] % 4 * 16 + bytes[1] / 16);
      SymbolCanonical(bytes[1] % 16 * 4);
    } else if |bytes| >= 3 {
      var g := Group3(bytes[0], bytes[1], bytes[2]);
      EncodedIsCanonical(bytes[3..]);
      StripTail(g, Encode(bytes[3..]));
      Group3Canonical(bytes[0], bytes[1], bytes[2]);
      CanonicalBehind(g, Strip(Encode(bytes[3..])));
    }
  }

  lemma Cut(h: nat, l: nat)
    ensures l < 4 ==> (h * 4 + l) / 4 == h && (h * 4 + l) % 4 == l
    ensures l < 16 ==> (h * 16 + l) / 16 == h && (h * 16 + l) % 16 == l
    ensures l < 64 ==> (h * 64 + l) / 64 == h && (h * 64 + l) % 64 == l
  {
  }

  lemma SplitJoin3(w: int, x: int, y: int, z: int)
    requires 0 <= w < 64 && 0 <= x < 64 && 0 <= y < 64 && 0 <= z < 64
    ensures var b := Bytes3(w, x, y, z);
            Group3(b[0], b[1], b[2]) == [Symbol(w), Symbol(x), Symbol(y), Symbol(z)]
  {
    Cut(w, x / 16);
    Cut(x % 16, y / 4);
    Cut(y % 4, z);
    assert x / 16 * 16 + x % 16 == x && y / 4 * 4 + y % 4 == y;
  }

  lemma SplitJoin1(w: int, x: int)
    requires 0 <= w < 64 && 0 <= x < 64 && x % 16 == 0
    ensures Group1(w * 4 + x / 16) == [Symbol(w), Symbol(x), '=', '=']
  {
    Cut(w, x / 16);
    assert x / 16 * 16 == x;
  }

  lemma SplitJoin2(w: int, x: int, y: int)
    requires 0 <= w < 64 && 0 <= x < 64 && 0 <= y < 64 && y % 4 == 0
    ensures Group2(w * 4 + x / 16, x % 16 * 16 + y / 4) == [Symbol(w), Symbol(x), Symbol(y), '=']
  {
    Cut(w, x / 16);
    Cut(x % 16, y / 4);
    assert x / 16 * 16 + x % 16 == x && y / 4 * 4 == y;
  }

  /** The short texts: one byte, or two. */
  lemma ShortIsEncoded(raw: string) returns (bytes: seq<Byte>)
    requires Canonical(raw) && 2 <= |raw| <= 3
    ensures EncodeUnpadded(bytes) == raw
  {
    assert CanonicalSymbol(raw[0]) && CanonicalSymbol(raw[1]);
    ValueSymbol(raw[0]);
    ValueSymbol(raw[1]);
    var w, x := Value(raw[0]).value, Value(raw[1]).value;
    if |raw| == 2 {
      bytes := [w * 4 + x / 16];
      SplitJoin1(w, x);
      StripGroup1(w * 4 + x / 16);
    } else {
      ValueSymbol(raw[2]);
      var y := Value(raw[2]).value;
      bytes := [w * 4 + x / 16, x % 16 * 16 + y / 4];
      SplitJoin2(w, x, y);
      StripGroup2(w * 4 + x / 16, x % 16 * 16 + y / 4);
    }
  }

  /** A canonical group of four is written for the three bytes it holds. */
  lemma GroupIsEncoded(g: string) returns (b: seq<Byte>)
    requires Canonical(g) && |g| == 4
    ensures |b| == 3 && Group3(b[0], b[1], b[2]) == g
  {
    assert forall i | 0 <= i < 4 :: CanonicalSymbol(g[i]);
    forall i | 0 <= i < 4 ensures Symbol(Value(g[i]).value) == g[i] { ValueSymbol(g[i]); }
    b := Bytes3(Value(g[0]).value, Value(g[1]).value, Value(g[2]).value, Value(g[3]).value);
    SplitJoin3(Value(g[0]).value, Value(g[1]).value, Value(g[2]).value, Value(g[3]).value);
  }

  lemma EncodeBehind(b: seq<Byte>, rest: seq<Byte>)
    requires |b| == 3 && Group3(b[0], b[1], b[2])[3] != '='
    ensures EncodeUnpadded(b + rest) == Group3(b[0], b[1], b[2]) + EncodeUnpadded(rest)
  {
    assert (b + rest)[3..] == rest;
    StripTail(Group3(b[0], b[1], b[2]), Encode(rest));
  }

  /** Every canonical text is what the encoder writes for some bytes. */
  lemma {:induction false} CanonicalIsEncoded(raw: string) returns (bytes: seq<Byte>)
    requires Canonical(raw)
    ensures EncodeUnpadded(bytes) == raw
  {
    if raw == "" {
      bytes := [];
    } else if |raw| < 4 {
      bytes := ShortIsEncoded(raw);
    } else {
      var g, t := raw[..4], raw[4..];
      assert raw == g + t;
      CanonicalBehind(g, t);
      var b := GroupIsEncoded(g);
      var rest := CanonicalIsEncoded(t);
      EncodeBehind(b, rest);
      bytes := b + rest;
    }
  }

  /** A text is what the encoder writes for the bytes it decodes to exactly when it is canonical. */
  lemma CanonicalIff(raw: string)
    ensures DecodeUnpadded(raw).Some? && EncodeUnpadded(DecodeUnpadded(raw).value) == raw <==> Canonical(raw)
  {
    if Canonical(raw) {
      var bytes := CanonicalIsEncoded(raw);
      RoundTrip(bytes);
    } else if DecodeUnpadded(raw).Some? {
      EncodedIsCanonical(DecodeUnpadded(raw).value);
    }
  }

  /** The decoder accepts texts the encoder never writes: the low bits of the last symbol are ignored. */
  lemma DecoderNotInjective()
    ensures "QQ" != "QR" && DecodeUnpadded("QQ") == DecodeUnpadded("QR") == Some([65])
  {
    assert (-2) % 4 == 2;
    assert Repad("QQ") == "QQ==" && Repad("QR") == "QR==";
    assert Bytes3(16, 16, 0, 0)[..1] == [65] && Bytes3(16, 17, 0, 0)[..1] == [65];
    assert Decode("QQ==") == Some(Bytes3(16, 16, 0, 0)[..1]);
    assert Decode("QR==") == Some(Bytes3(16, 17, 0, 0)[..1]);
  }

  /** The symbols of the standard alphabet stand for the same values as those of the URL-safe one. */
  lemma PlusAndSlash(s: string, t: string)
    requires |t| == |s| && forall i | 0 <= i < |s| ::
               t[i] == if s[i] == '+' then '-' else if s[i] == '/' then '_' else s[i]
    ensures Decode(s) == Decode(t)
  {
    if |s| >= 4 {
      forall i | 0 <= i < 4 ensures Value(s[i]) == Value(t[i]) && (s[i] == '=' <==> t[i] == '=') {}
      assert forall i | 0 <= i < |s| - 4 :: s[4..][i] == s[4 + i] && t[4..][i] == t[4 + i];
      PlusAndSlash(s[4..], t[4..]);
    }
  }

  /** Values from section 10 of RFC 4648, and one with the two symbols of the URL-safe alphabet (section 5). */
  lemma StandardValues()
    ensures Encode([0x66]) == "Zg==" && Encode([0x66, 0x6F]) == "Zm8="
    ensures Encode([0x66, 0x6F, 0x6F, 0x62, 0x61, 0x72]) == "Zm9vYmFy"
    ensures Encode([0xFB, 0xEF, 0xFF]) == "--__"
  {
    assert Encode([0x62, 0x61, 0x72]) == Group3(0x62, 0x61, 0x72) + Encode([]) == "YmFy";
    assert [0x66, 0x6F, 0x6F, 0x62, 0x61, 0x72][3..] == [0x62, 0x61, 0x72];
    assert [0xFB, 0xEF, 0xFF][3..] == [];
  }
}
