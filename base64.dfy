/**
 * The encoding applied to the password before login: `str.encode()` (UTF-8)
 * followed by `base64.b64encode` (the base 64 alphabet of section 4 of
 * RFC 4648, with "=" padding). Each encoder is paired with a decoder and a
 * round-trip lemma.
 */
module Base64 {
  import opened Wrappers

  type byte = x: int | 0 <= x < 256

  // ---------------------------------------------------------------------------
  // UTF-8 (RFC 3629)

  /** The UTF-8 bytes of one Unicode scalar value. */
  function Utf8Char(c: char): (r: seq<byte>)
    ensures 1 <= |r| <= 4
  {
    var cp := c as int;
    if cp < 0x80 then [cp]
    else if cp < 0x800 then [0xC0 + cp / 64, 0x80 + cp % 64]
    else if cp < 0x10000 then [0xE0 + cp / 4096, 0x80 + (cp / 64) % 64, 0x80 + cp % 64]
    else [0xF0 + cp / 262144, 0x80 + (cp / 4096) % 64, 0x80 + (cp / 64) % 64, 0x80 + cp % 64]
  }

  /** `s.encode()`: the UTF-8 bytes of a string. */
  function Utf8Encode(s: string): (r: seq<byte>)
    ensures |s| <= |r| <= 4 * |s|
  {
    if s == [] then [] else Utf8Char(s[0]) + Utf8Encode(s[1..])
  }

  /** The number of bytes of the sequence a UTF-8 lead byte starts. */
  function Utf8Width(lead: byte): nat {
    if lead < 0x80 then 1 else if lead < 0xE0 then 2 else if lead < 0xF0 then 3 else 4
  }

  /** The code point of one well-formed UTF-8 sequence. */
  function Utf8Point(b: seq<byte>): int
    requires 0 < |b| && |b| == Utf8Width(b[0])
  {
    var b0 := b[0] as int;
    if |b| == 1 then b0
    else if |b| == 2 then (b0 - 0xC0) * 64 + (b[1] as int - 0x80)
    else if |b| == 3 then (b0 - 0xE0) * 4096 + (b[1] as int - 0x80) * 64 + (b[2] as int - 0x80)
    else (b0 - 0xF0) * 262144 + (b[1] as int - 0x80) * 4096 + (b[2] as int - 0x80) * 64 + (b[3] as int - 0x80)
  }

  /** The code points of a UTF-8 byte string; None when a sequence is cut short. */
  function Utf8Decode(b: seq<byte>): Option<seq<int>>
    decreases |b|
  {
    if b == [] then Some([])
    else
      var w := Utf8Width(b[0]);
      if |b| < w then None
      else match Utf8Decode(b[w..])
        case None => None
        case Some(rest) => Some([Utf8Point(b[..w])] + rest)
  }

  function CodePoints(s: string): seq<int> {
    seq(|s|, k requires 0 <= k < |s| => s[k] as int)
  }

  /** A code point splits into its 6-bit groups, high to low. */
  lemma FourGroups(cp: nat)
    ensures cp == (cp / 262144) * 262144 + ((cp / 4096) % 64) * 4096 + ((cp / 64) % 64) * 64 + cp % 64
  {
    assert cp / 4096 == (cp / 262144) * 64 + (cp / 4096) % 64;
    assert cp / 64 == (cp / 4096) * 64 + (cp / 64) % 64;
  }

  lemma ThreeGroups(cp: nat)
    ensures cp == (cp / 4096) * 4096 + ((cp / 64) % 64) * 64 + cp % 64
  {
    assert cp / 64 == (cp / 4096) * 64 + (cp / 64) % 64;
  }

  /** The bytes of one character are one well-formed sequence, and it decodes to the character's code point. */
  lemma Utf8CharDecodes(c: char)
    ensures |Utf8Char(c)| == Utf8Width(Utf8Char(c)[0])
    ensures Utf8Point(Utf8Char(c)) == c as int
  {
    var cp := c as int;
    if cp >= 0x10000 {
      FourGroups(cp);
    } else if cp >= 0x800 {
      ThreeGroups(cp);
    }
  }

  /** Decoding the UTF-8 bytes of a string gives back its code points. */
  lemma {:induction false} Utf8RoundTrip(s: string)
    ensures Utf8Decode(Utf8Encode(s)) == Some(CodePoints(s))
  {
    if s != [] {
      var head := Utf8Char(s[0]);
      var b := Utf8Encode(s);
      Utf8CharDecodes(s[0]);
      assert b == head + Utf8Encode(s[1..]);
      assert b[0] == head[0];
      assert b[..|head|] == head;
      assert b[|head|..] == Utf8Encode(s[1..]);
      Utf8RoundTrip(s[1..]);
      assert Utf8Decode(b) == Some([Utf8Point(head)] + CodePoints(s[1..]));
      assert CodePoints(s) == [s[0] as int] + CodePoints(s[1..]);
    } else {
      assert CodePoints(s) == [];
    }
  }

  // ---------------------------------------------------------------------------
  // Base 64 (RFC 4648, section 4)

  /** The symbol of a 6-bit value in the base 64 alphabet (RFC 4648, Table 1). */
  function Symbol(v: nat): (c: char)
    requires v < 64
  {
    if v < 26 then ('A' as int + v) as char
    else if v < 52 then ('a' as int + v - 26) as char
    else if v < 62 then ('0' as int + v - 52) as char
    else if v == 62 then '+'
    else '/'
  }

  /** The 6-bit value of an alphabet symbol, or -1 for any other character. */
  function SymbolValue(c: char): int {
    if 'A' <= c <= 'Z' then c as int - 'A' as int
    else if 'a' <= c <= 'z' then c as int - 'a' as int + 26
    else if '0' <= c <= '9' then c as int - '0' as int + 52
    else if c == '+' then 62
    else if c == '/' then 63
    else -1
  }

  predicate IsSymbol(c: char) {
    0 <= SymbolValue(c) < 64
  }

  lemma SymbolValueOfSymbol(v: nat)
    requires v < 64
    ensures SymbolValue(Symbol(v)) == v
  {
  }

  /** Three bytes as four symbols. */
  function EncodeGroup(a: byte, b: byte, c: byte): string {
    [Symbol(a / 4), Symbol((a % 4) * 16 + b / 16), Symbol((b % 16) * 4 + c / 64), Symbol(c % 64)]
  }

  /** A final single byte: two symbols and two "=". */
  function EncodeFinalOne(a: byte): string {
    [Symbol(a / 4), Symbol((a % 4) * 16), '=', '=']
  }

  /** A final pair of bytes: three symbols and one "=". */
  function EncodeFinalTwo(a: byte, b: byte): string {
    [Symbol(a / 4), Symbol((a % 4) * 16 + b / 16), Symbol((b % 16) * 4), '=']
  }

  /** `base64.b64encode`: groups of three bytes; a final group of one or two bytes is padded with "=". */
  function Encode(data: seq<byte>): string
    decreases |data|
  {
    if |data| == 0 then ""
    else if |data| == 1 then EncodeFinalOne(data[0])
    else if |data| == 2 then EncodeFinalTwo(data[0], data[1])
    else EncodeGroup(data[0], data[1], data[2]) + Encode(data[3..])
  }

  /** Four symbols as three bytes. */
  function DecodeGroup(q: string): Option<seq<byte>>
    requires |q| == 4
  {
    var v0, v1, v2, v3 := SymbolValue(q[0]), SymbolValue(q[1]), SymbolValue(q[2]), SymbolValue(q[3]);
    if !(0 <= v0 < 64 && 0 <= v1 < 64 && 0 <= v2 < 64 && 0 <= v3 < 64) then None
    else Some([v0 * 4 + v1 / 16, (v1 % 16) * 16 + v2 / 4, (v2 % 4) * 64 + v3])
  }

  /** The last four characters, which may end in one or two "=". */
  function DecodeLast(q: string): Option<seq<byte>>
    requires |q| == 4
  {
    var v0, v1, v2 := SymbolValue(q[0]), SymbolValue(q[1]), SymbolValue(q[2]);
    if q[2] == '=' && q[3] == '=' then
      if 0 <= v0 < 64 && 0 <= v1 < 64 then Some([v0 * 4 + v1 / 16]) else None
    else if q[3] == '=' then
      if 0 <= v0 < 64 && 0 <= v1 < 64 && 0 <= v2 < 64 then Some([v0 * 4 + v1 / 16, (v1 % 16) * 16 + v2 / 4]) else None
    else DecodeGroup(q)
  }

  /** Base 64 decoding; None for a length that is not a multiple of four or a character outside the alphabet. */
  function Decode(s: string): Option<seq<byte>>
    decreases |s|
  {
    if |s| == 0 then Some([])
    else if |s| < 4 then None
    else if |s| == 4 then DecodeLast(s)
    else match DecodeGroup(s[..4])
      case None => None
      case Some(g) => match Decode(s[4..])
        case None => None
        case Some(rest) => Some(g + rest)
  }

  /** The encoding has 4 * ceil(n / 3) characters. */
  lemma {:induction false} EncodeLength(data: seq<byte>)
    ensures |Encode(data)| == 4 * ((|data| + 2) / 3)
    decreases |data|
  {
    var n := |data|;
    if n > 2 {
      EncodeLength(data[3..]);
      assert |data[3..]| == n - 3;
      assert |Encode(data)| == 4 + |Encode(data[3..])|;
      assert (n + 2) / 3 == (n - 1) / 3 + 1;
    } else if n == 1 {
      assert |Encode(data)| == |EncodeFinalOne(data[0])|;
    } else if n == 2 {
      assert |Encode(data)| == |EncodeFinalTwo(data[0], data[1])|;
    }
  }

  /** The number of "=" that close the encoding of `n` bytes. */
  function Padding(n: nat): nat {
    if n % 3 == 1 then 2 else if n % 3 == 2 then 1 else 0
  }

  /** A full group is four symbols of the alphabet. */
  lemma GroupSymbols(a: byte, b: byte, c: byte)
    ensures forall k :: 0 <= k < 4 ==> IsSymbol(EncodeGroup(a, b, c)[k])
  {
    SymbolValueOfSymbol(a / 4);
    SymbolValueOfSymbol((a % 4) * 16 + b / 16);
    SymbolValueOfSymbol((b % 16) * 4 + c / 64);
    SymbolValueOfSymbol(c % 64);
  }

  /** The encoding of a final group of one or two bytes. */
  lemma FinalSymbols(data: seq<byte>)
    requires 1 <= |data| <= 2
    ensures var e := Encode(data);
      |e| == 4 && (forall k :: 0 <= k < 4 - Padding(|data|) ==> IsSymbol(e[k])) &&
      (forall k :: 4 - Padding(|data|) <= k < 4 ==> e[k] == '=')
  {
    SymbolValueOfSymbol(data[0] / 4);
    if |data| == 1 {
      SymbolValueOfSymbol((data[0] % 4) * 16);
    } else {
      SymbolValueOfSymbol((data[0] % 4) * 16 + data[1] / 16);
      SymbolValueOfSymbol((data[1] % 16) * 4);
    }
  }

  /** The encoding is all alphabet symbols but for its last `p` characters, which are "=". */
  predicate PaddedWith(e: string, p: nat) {
    p <= |e| &&
    (forall k :: 0 <= k < |e| - p ==> IsSymbol(e[k])) &&
    (forall k :: |e| - p <= k < |e| ==> e[k] == '=')
  }

  /** Four symbols in front of a padded text keep it padded the same way. */
  lemma PaddedAfterGroup(g: string, r: string, p: nat)
    requires |g| == 4 && (forall k :: 0 <= k < 4 ==> IsSymbol(g[k])) && PaddedWith(r, p)
    ensures PaddedWith(g + r, p)
  {
    var e := g + r;
    forall k | 0 <= k < |e| - p ensures IsSymbol(e[k]) {
      if k >= 4 {
        assert e[k] == r[k - 4];
      }
    }
    forall k | |e| - p <= k < |e| ensures e[k] == '=' {
      assert e[k] == r[k - 4];
    }
  }

  /**
   * Section 4 of RFC 4648: the output is 4 * ceil(n / 3) characters, all from
   * the alphabet except the final "=" padding: two for n = 1 mod 3, one for
   * n = 2 mod 3, none otherwise.
   */
  lemma {:induction false} EncodePadding(data: seq<byte>)
    ensures var e := Encode(data);
      |e| == 4 * ((|data| + 2) / 3) &&
      (forall k :: 0 <= k < |e| - Padding(|data|) ==> IsSymbol(e[k])) &&
      (forall k :: |e| - Padding(|data|) <= k < |e| ==> e[k] == '=')
    decreases |data|
  {
    EncodeLength(data);
    assert PaddedWith(Encode(data), Padding(|data|)) by {
      EncodedPadded(data);
    }
  }

  /** `EncodePadding` in terms of `PaddedWith`. */
  lemma {:induction false} EncodedPadded(data: seq<byte>)
    ensures PaddedWith(Encode(data), Padding(|data|))
    decreases |data|
  {
    if |data| > 2 {
      var rest := data[3..];
      var g := EncodeGroup(data[0], data[1], data[2]);
      assert Encode(data) == g + Encode(rest);
      assert Padding(|rest|) == Padding(|data|) by {
        assert |rest| % 3 == |data| % 3;
      }
      EncodedPadded(rest);
      GroupSymbols(data[0], data[1], data[2]);
      PaddedAfterGroup(g, Encode(rest), Padding(|data|));
    } else if |data| > 0 {
      FinalSymbols(data);
    }
  }

  lemma GroupRoundTrip(a: byte, b: byte, c: byte)
    ensures DecodeGroup(EncodeGroup(a, b, c)) == Some([a, b, c])
  {
    SymbolValueOfSymbol(a / 4);
    SymbolValueOfSymbol((a % 4) * 16 + b / 16);
    SymbolValueOfSymbol((b % 16) * 4 + c / 64);
    SymbolValueOfSymbol(c % 64);
    assert ((a % 4) * 16 + b / 16) / 16 == a % 4;
    assert ((a % 4) * 16 + b / 16) % 16 == b / 16;
    assert ((b % 16) * 4 + c / 64) / 4 == b % 16;
    assert ((b % 16) * 4 + c / 64) % 4 == c / 64;
  }

  lemma FinalOneRoundTrip(a: byte)
    ensures DecodeLast(EncodeFinalOne(a)) == Some([a])
  {
    SymbolValueOfSymbol(a / 4);
    SymbolValueOfSymbol((a % 4) * 16);
    assert ((a % 4) * 16) / 16 == a % 4;
  }

  lemma FinalTwoRoundTrip(a: byte, b: byte)
    ensures DecodeLast(EncodeFinalTwo(a, b)) == Some([a, b])
  {
    var e := EncodeFinalTwo(a, b);
    assert e[2] != '=' && e[3] == '=';
    SymbolValueOfSymbol(a / 4);
    SymbolValueOfSymbol((a % 4) * 16 + b / 16);
    SymbolValueOfSymbol((b % 16) * 4);
    assert ((a % 4) * 16 + b / 16) / 16 == a % 4;
    assert ((a % 4) * 16 + b / 16) % 16 == b / 16;
    assert ((b % 16) * 4) / 4 == b % 16;
  }

  /** A text longer than four characters decodes as its first group followed by the rest. */
  lemma DecodeSplit(g: string, r: string)
    requires |g| == 4 && |r| > 0
    ensures Decode(g + r) == match DecodeGroup(g)
      case None => None
      case Some(x) => match Decode(r)
        case None => None
        case Some(y) => Some(x + y)
  {
    var e := g + r;
    assert e[..4] == g;
    assert e[4..] == r;
  }

  /** Three bytes encode as one group, which decodes back to them. */
  lemma ThreeRoundTrip(data: seq<byte>)
    requires |data| == 3
    ensures Decode(Encode(data)) == Some(data)
  {
    var g := EncodeGroup(data[0], data[1], data[2]);
    assert Encode(data) == g by {
      assert data[3..] == [];
    }
    GroupRoundTrip(data[0], data[1], data[2]);
    assert g[3] != '=' by {
      SymbolValueOfSymbol(data[2] % 64);
    }
    assert data == [data[0], data[1], data[2]];
  }

  /** Decoding an encoding gives the bytes back, so distinct passwords are sent as distinct strings. */
  lemma {:induction false} RoundTrip(data: seq<byte>)
    ensures Decode(Encode(data)) == Some(data)
    decreases |data|
  {
    if |data| == 1 {
      FinalOneRoundTrip(data[0]);
      assert data == [data[0]];
    } else if |data| == 2 {
      FinalTwoRoundTrip(data[0], data[1]);
      assert data == [data[0], data[1]];
    } else if |data| == 3 {
      ThreeRoundTrip(data);
    } else if |data| > 3 {
      var g := EncodeGroup(data[0], data[1], data[2]);
      var rest := Encode(data[3..]);
      assert Encode(data) == g + rest;
      assert |rest| > 0 by {
        EncodeLength(data[3..]);
      }
      DecodeSplit(g, rest);
      GroupRoundTrip(data[0], data[1], data[2]);
      RoundTrip(data[3..]);
      assert [data[0], data[1], data[2]] + data[3..] == data;
    }
  }

  /** What the client sends as the password: the base 64 text of the UTF-8 bytes. */
  function EncodePassword(password: string): (r: string)
    ensures |r| == 4 * ((|Utf8Encode(password)| + 2) / 3)
    ensures Decode(r) == Some(Utf8Encode(password))
  {
    EncodeLength(Utf8Encode(password));
    RoundTrip(Utf8Encode(password));
    Encode(Utf8Encode(password))
  }
}
