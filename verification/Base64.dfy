/** The Base64 codec of src/encoding/xylem-base64.c (sections 4 and 5 of RFC 4648), strict about canonical form. */
module Base64 {
  import opened Prelude

  type Byte = x: int | 0 <= x < 256
  datatype Alphabet = Std | Url

  const PAD: Byte := 61

  /** The encoding tables. */
  function EncChar(a: Alphabet, v: int): Byte
    requires 0 <= v < 64
  {
    if v < 26 then 65 + v else if v < 52 then 97 + v - 26 else if v < 62 then 48 + v - 52
    else if v == 62 then (if a.Std? then 43 else 45) else (if a.Std? then 47 else 95)
  }

  /** The decoding tables; -1 marks a byte outside the alphabet. */
  function DecChar(a: Alphabet, c: Byte): (v: int)
    ensures -1 <= v < 64
  {
    if 65 <= c <= 90 then c - 65 else if 97 <= c <= 122 then c - 97 + 26 else if 48 <= c <= 57 then c - 48 + 52
    else if c == (if a.Std? then 43 else 45) then 62 else if c == (if a.Std? then 47 else 95) then 63 else -1
  }

  /** The tables are each other's inverse, and padding is not in the alphabet. */
  lemma TablesInverse(a: Alphabet, v: int, c: Byte)
    ensures 0 <= v < 64 ==> DecChar(a, EncChar(a, v)) == v
    ensures DecChar(a, c) >= 0 ==> EncChar(a, DecChar(a, c)) == c && c != PAD
  {
  }

  // ---- specification ----------------------------------------------------------------------------------------------

  function Bits24(x: Byte, y: Byte, z: Byte): int { x * 65536 + y * 256 + z }
  function Bits4x6(a: int, b: int, c: int, d: int): int { a * 262144 + b * 4096 + c * 64 + d }

  /** Four characters for the 24 bits of three bytes. */
  function Quad(a: Alphabet, x: Byte, y: Byte, z: Byte): seq<Byte> {
    var val := Bits24(x, y, z);
    [EncChar(a, val / 262144), EncChar(a, val / 4096 % 64), EncChar(a, val / 64 % 64), EncChar(a, val % 64)]
  }

  /** The last one or two bytes. */
  function Tail(a: Alphabet, b: seq<Byte>, padding: bool): seq<Byte> {
    if |b| == 2 then
      var val := Bits24(b[0], b[1], 0);
      [EncChar(a, val / 262144), EncChar(a, val / 4096 % 64), EncChar(a, val / 64 % 64)] + if padding then [PAD] else []
    else if |b| == 1 then
      var val := Bits24(b[0], 0, 0);
      [EncChar(a, val / 262144), EncChar(a, val / 4096 % 64)] + if padding then [PAD, PAD] else []
    else []
  }

  function Encoded(a: Alphabet, b: seq<Byte>, padding: bool): seq<Byte> {
    if |b| >= 3 then Quad(a, b[0], b[1], b[2]) + Encoded(a, b[3..], padding) else Tail(a, b, padding)
  }

  /** Two or three last characters, whose unused bits must be zero. */
  function Short(a: Alphabet, s: seq<Byte>): Option<seq<Byte>>
    requires 2 <= |s| <= 3
  {
    var v0, v1 := DecChar(a, s[0]), DecChar(a, s[1]);
    if v0 < 0 || v1 < 0 then None
    else if |s| == 2 then
      var val := v0 * 4096 + v1 * 64;
      if val % 1024 != 0 then None else Some([val / 1024])
    else
      var v2 := DecChar(a, s[2]);
      if v2 < 0 then None
      else
        var val := v0 * 4096 + v1 * 64 + v2;
        if val % 4 != 0 then None else Some([val / 1024, val / 4 % 256])
  }

  predicate Clean(a: Alphabet, s: seq<Byte>)
    requires |s| >= 4
  {
    DecChar(a, s[0]) >= 0 && DecChar(a, s[1]) >= 0 && DecChar(a, s[2]) >= 0 && DecChar(a, s[3]) >= 0
  }

  function Triple(a: Alphabet, s: seq<Byte>): seq<Byte>
    requires |s| >= 4 && Clean(a, s)
  {
    var val := Bits4x6(DecChar(a, s[0]), DecChar(a, s[1]), DecChar(a, s[2]), DecChar(a, s[3]));
    [val / 65536, val / 256 % 256, val % 256]
  }

  /** What follows the last clean group of four. */
  function Rest(a: Alphabet, s: seq<Byte>, padding: bool): Option<seq<Byte>> {
    if |s| >= 4 then
      if !padding || |s| != 4 || s[3] != PAD then None else Short(a, if s[2] == PAD then s[..2] else s[..3])
    else if |s| == 0 then Some([])
    else if padding || |s| == 1 then None
    else Short(a, s)
  }

  function Decoded(a: Alphabet, s: seq<Byte>, padding: bool): Option<seq<Byte>> {
    if |s| >= 4 && Clean(a, s) then
      var rest := Decoded(a, s[4..], padding);
      if rest.None? then None else Some(Triple(a, s) + rest.value)
    else Rest(a, s, padding)
  }

  // ---- the codec is a bijection onto the accepted text ------------------------------------------------------------

  lemma DivTwice(val: int)
    requires 0 <= val
    ensures val / 4096 == val / 64 / 64
  {
  }

  lemma Digits64(val: int)
    requires 0 <= val < 16777216
    ensures Bits4x6(val / 262144, val / 4096 % 64, val / 64 % 64, val % 64) == val && 0 <= val / 262144 < 64
  {
    var q1 := val / 64;
    DivTwice(val);
    DivTwice(q1);
    assert val / 262144 == q1 / 4096;
    assert val == q1 * 64 + val % 64 && q1 == q1 / 64 * 64 + q1 % 64 && q1 / 64 == q1 / 64 / 64 * 64 + q1 / 64 % 64;
  }

  lemma Digits256(val: int)
    requires 0 <= val < 16777216
    ensures Bits24(val / 65536, val / 256 % 256, val % 256) == val && 0 <= val / 65536 < 256
  {
  }

  lemma DigitsUnique(a: int, b: int, c: int, d: int)
    requires 0 <= a < 64 && 0 <= b < 64 && 0 <= c < 64 && 0 <= d < 64
    ensures var val := Bits4x6(a, b, c, d);
            0 <= val < 16777216 && val / 262144 == a && val / 4096 % 64 == b && val / 64 % 64 == c && val % 64 == d
  {
    var val := Bits4x6(a, b, c, d);
    var q1 := a * 4096 + b * 64 + c;
    assert val == q1 * 64 + d;
    assert val / 64 == q1;
    DivTwice(val);
    var q2 := a * 64 + b;
    assert q1 / 64 == q2;
  }

  lemma BytesUnique(x: Byte, y: Byte, z: Byte)
    ensures var val := Bits24(x, y, z);
            0 <= val < 16777216 && val / 65536 == x && val / 256 % 256 == y && val % 256 == z
  {
  }

  lemma QuadTriple(a: Alphabet, x: Byte, y: Byte, z: Byte)
    ensures Clean(a, Quad(a, x, y, z)) && Triple(a, Quad(a, x, y, z)) == [x, y, z]
  {
    var val := Bits24(x, y, z);
    BytesUnique(x, y, z);
    Digits64(val);
    forall v | v in {val / 262144, val / 4096 % 64, val / 64 % 64, val % 64}
      ensures DecChar(a, EncChar(a, v)) == v
    {
      TablesInverse(a, v, 0);
    }
  }

  lemma TripleQuad(a: Alphabet, s: seq<Byte>)
    requires |s| >= 4 && Clean(a, s)
    ensures var t := Triple(a, s); Quad(a, t[0], t[1], t[2]) == s[..4]
  {
    var v0, v1, v2, v3 := DecChar(a, s[0]), DecChar(a, s[1]), DecChar(a, s[2]), DecChar(a, s[3]);
    DigitsUnique(v0, v1, v2, v3);
    Digits256(Bits4x6(v0, v1, v2, v3));
    forall c | c in s[..4] ensures DecChar(a, c) >= 0 ==> EncChar(a, DecChar(a, c)) == c { TablesInverse(a, 0, c); }
    assert s[0] in s[..4] && s[1] in s[..4] && s[2] in s[..4] && s[3] in s[..4];
  }

  lemma Sixty4(k: int)
    requires k >= 0
    ensures k * 64 / 64 == k && k * 64 % 64 == 0
  {
  }

  /** The two or three digits of a short group, as the encoder cuts them and the decoder joins them. */
  lemma ShortDigits(x: Byte, y: Byte) returns (d0: int, d1: int, d2: int)
    ensures var val := Bits24(x, y, 0); d0 == val / 262144 && d1 == val / 4096 % 64 && d2 == val / 64 % 64
    ensures 0 <= d0 < 64 && 0 <= d1 < 64 && 0 <= d2 < 64 && d0 * 4096 + d1 * 64 + d2 == x * 1024 + y * 4
    ensures y == 0 ==> d2 == 0
  {
    var k: int := x * 1024 + y * 4;
    var val: int := k * 64;
    assert val == Bits24(x, y, 0);
    Sixty4(k);
    Digits64(val);
    if y == 0 { Sixty4(x * 16); }
    d0, d1, d2 := val / 262144, val / 4096 % 64, val / 64 % 64;
  }

  lemma ShortJoins(x: Byte, y: Byte)
    ensures (x * 1024 + y * 4) % 4 == 0 && (x * 1024 + y * 4) / 1024 == x && (x * 1024 + y * 4) / 4 % 256 == y
    ensures (x * 1024) % 1024 == 0
  {
    assert (x * 1024 + y * 4) / 4 == x * 256 + y;
  }

  /** Digits that join to bytes decode to them. */
  lemma ThreeDecode(a: Alphabet, d0: int, d1: int, d2: int, x: Byte, y: Byte)
    requires 0 <= d0 < 64 && 0 <= d1 < 64 && 0 <= d2 < 64 && d0 * 4096 + d1 * 64 + d2 == x * 1024 + y * 4
    ensures Short(a, [EncChar(a, d0), EncChar(a, d1), EncChar(a, d2)]) == Some([x, y]) && EncChar(a, d2) != PAD
  {
    TablesInverse(a, d0, 0);
    TablesInverse(a, d1, 0);
    TablesInverse(a, d2, EncChar(a, d2));
    ShortJoins(x, y);
  }

  lemma TwoDecode(a: Alphabet, d0: int, d1: int, x: Byte)
    requires 0 <= d0 < 64 && 0 <= d1 < 64 && d0 * 4096 + d1 * 64 == x * 1024
    ensures Short(a, [EncChar(a, d0), EncChar(a, d1)]) == Some([x])
  {
    TablesInverse(a, d0, 0);
    TablesInverse(a, d1, 0);
    OneJoins(x);
  }

  lemma TwoBytes(a: Alphabet, x: Byte, y: Byte)
    ensures var s := Tail(a, [x, y], false);
            Short(a, s) == Some([x, y]) && s[2] != PAD && Tail(a, [x, y], true) == s + [PAD]
  {
    var d0, d1, d2 := ShortDigits(x, y);
    ThreeDecode(a, d0, d1, d2, x, y);
    assert Tail(a, [x, y], false) == [EncChar(a, d0), EncChar(a, d1), EncChar(a, d2)];
  }

  lemma OneByte(a: Alphabet, x: Byte)
    ensures var s := Tail(a, [x], false); Short(a, s) == Some([x]) && Tail(a, [x], true) == s + [PAD, PAD]
  {
    var d0, d1, d2 := ShortDigits(x, 0);
    TwoDecode(a, d0, d1, x);
    assert Tail(a, [x], false) == [EncChar(a, d0), EncChar(a, d1)];
  }

  lemma OneJoins(x: Byte)
    ensures (x * 1024) % 1024 == 0 && x * 1024 / 1024 == x
  {
    ShortJoins(x, 0);
  }

  lemma TailRest(a: Alphabet, b: seq<Byte>, padding: bool)
    requires |b| < 3
    ensures var s := Tail(a, b, padding); Rest(a, s, padding) == Some(b) && (|s| >= 4 ==> !Clean(a, s))
  {
    var s, bare := Tail(a, b, padding), Tail(a, b, false);
    if |b| == 2 {
      assert b == [b[0], b[1]];
      TwoBytes(a, b[0], b[1]);
      assert s[..3] == bare;
    } else if |b| == 1 {
      assert b == [b[0]];
      OneByte(a, b[0]);
      assert s[..2] == bare;
    }
    TablesInverse(a, 0, PAD);
  }

  lemma CutBack(val: int)
    requires 0 <= val < 262144
    ensures val % 4 == 0 ==> Bits24(val / 1024, val / 4 % 256, 0) == val * 64
    ensures val % 1024 == 0 ==> Bits24(val / 1024, 0, 0) == val * 64
  {
    var q := val / 4;
    assert val / 1024 == q / 256 && q == q / 256 * 256 + q % 256;
  }

  lemma ThreeDigits(v0: int, v1: int, v2: int)
    requires 0 <= v0 < 64 && 0 <= v1 < 64 && 0 <= v2 < 64 && (v0 * 4096 + v1 * 64 + v2) % 4 == 0
    ensures var val := v0 * 4096 + v1 * 64 + v2;
            && 0 <= val / 1024 < 256
            && var w := Bits24(val / 1024, val / 4 % 256, 0);
               w / 262144 == v0 && w / 4096 % 64 == v1 && w / 64 % 64 == v2
  {
    CutBack(v0 * 4096 + v1 * 64 + v2);
    DigitsUnique(v0, v1, v2, 0);
  }

  lemma ThreeChars(a: Alphabet, s: seq<Byte>)
    requires |s| == 3 && Short(a, s).Some?
    ensures var b := Short(a, s).value; |b| == 2 && Tail(a, b, false) == s && Tail(a, b, true) == s + [PAD]
  {
    var v0, v1, v2 := DecChar(a, s[0]), DecChar(a, s[1]), DecChar(a, s[2]);
    ThreeDigits(v0, v1, v2);
    TablesInverse(a, v0, s[0]);
    TablesInverse(a, v1, s[1]);
    TablesInverse(a, v2, s[2]);
  }

  lemma TwoChars(a: Alphabet, s: seq<Byte>)
    requires |s| == 2 && Short(a, s).Some?
    ensures var b := Short(a, s).value; |b| == 1 && Tail(a, b, false) == s && Tail(a, b, true) == s + [PAD, PAD]
  {
    var v0, v1 := DecChar(a, s[0]), DecChar(a, s[1]);
    CutBack(v0 * 4096 + v1 * 64);
    DigitsUnique(v0, v1, 0, 0);
    TablesInverse(a, v0, s[0]);
    TablesInverse(a, v1, s[1]);
  }

  lemma RestTail(a: Alphabet, s: seq<Byte>, padding: bool)
    requires Rest(a, s, padding).Some? && (|s| >= 4 ==> !Clean(a, s))
    ensures |Rest(a, s, padding).value| < 3 && Tail(a, Rest(a, s, padding).value, padding) == s
  {
    if |s| >= 4 {
      var short := if s[2] == PAD then s[..2] else s[..3];
      if s[2] == PAD { TwoChars(a, short); } else { ThreeChars(a, short); }
      assert s == short + if s[2] == PAD then [PAD, PAD] else [PAD];
    } else if |s| == 2 {
      TwoChars(a, s);
    } else if |s| == 3 {
      ThreeChars(a, s);
    }
  }

  lemma {:induction false} DecodeEncode(a: Alphabet, b: seq<Byte>, padding: bool)
    ensures Decoded(a, Encoded(a, b, padding), padding) == Some(b)
  {
    var s := Encoded(a, b, padding);
    if |b| >= 3 {
      QuadTriple(a, b[0], b[1], b[2]);
      DecodeEncode(a, b[3..], padding);
      assert s[4..] == Encoded(a, b[3..], padding);
      assert b == [b[0], b[1], b[2]] + b[3..];
    } else {
      TailRest(a, b, padding);
    }
  }

  lemma {:induction false} EncodeDecode(a: Alphabet, s: seq<Byte>, padding: bool)
    requires Decoded(a, s, padding).Some?
    ensures Encoded(a, Decoded(a, s, padding).value, padding) == s
  {
    if |s| >= 4 && Clean(a, s) {
      TripleQuad(a, s);
      EncodeDecode(a, s[4..], padding);
      var t, rest := Triple(a, s), Decoded(a, s[4..], padding).value;
      assert (t + rest)[3..] == rest;
      assert s == s[..4] + s[4..];
    } else {
      RestTail(a, s, padding);
    }
  }

  /** For either alphabet and either padding mode, a text decodes to some bytes exactly when it is their encoding. */
  lemma Bijection(a: Alphabet, s: seq<Byte>, b: seq<Byte>, padding: bool)
    ensures Decoded(a, s, padding) == Some(b) <==> Encoded(a, b, padding) == s
  {
    DecodeEncode(a, b, padding);
    if Decoded(a, s, padding) == Some(b) { EncodeDecode(a, s, padding); }
  }

  // ---- the loops --------------------------------------------------------------------------------------------------

  function EncodeSize(n: int): int { (n + 2) / 3 * 4 }
  function DecodeSize(n: int): int { (n + 3) / 4 * 3 }

  lemma {:induction false} EncodedFits(a: Alphabet, b: seq<Byte>, padding: bool)
    ensures |Encoded(a, b, padding)| <= EncodeSize(|b|)
  {
    EncodeSizes(|b|);
    if |b| >= 3 { EncodedFits(a, b[3..], padding); }
  }

  /** The size of a group more, and of a short group. */
  lemma EncodeSizes(n: nat)
    ensures n >= 3 ==> EncodeSize(n) == 4 + EncodeSize(n - 3)
    ensures 0 < n < 3 ==> EncodeSize(n) == 4
  {
    if n >= 3 { assert n + 2 == (n - 3 + 2) + 3; }
  }

  /** The four characters of one group of three bytes. */
  method WriteQuad(a: Alphabet, x: Byte, y: Byte, z: Byte, dst: array<Byte>, n: nat)
    requires n + 4 <= dst.Length
    modifies dst
    ensures dst[..n + 4] == old(dst[..n]) + Quad(a, x, y, z)
  {
    var val: int := x * 65536 + y * 256 + z;
    dst[n] := EncChar(a, val / 262144);
    dst[n + 1] := EncChar(a, val / 4096 % 64);
    dst[n + 2] := EncChar(a, val / 64 % 64);
    dst[n + 3] := EncChar(a, val % 64);
  }

  /** The switch on what is left. */
  method WriteTwo(a: Alphabet, x: Byte, y: Byte, padding: bool, dst: array<Byte>, at: nat) returns (n: nat)
    requires at + (if padding then 4 else 3) <= dst.Length
    modifies dst
    ensures n <= dst.Length && dst[..n] == old(dst[..at]) + Tail(a, [x, y], padding)
  {
    var val: int := x * 65536 + y * 256;
    assert val == Bits24(x, y, 0);
    n := at;
    dst[n] := EncChar(a, val / 262144);
    dst[n + 1] := EncChar(a, val / 4096 % 64);
    dst[n + 2] := EncChar(a, val / 64 % 64);
    n := n + 3;
    if padding {
      dst[n] := PAD;
      n := n + 1;
    }
  }

  method WriteOne(a: Alphabet, x: Byte, padding: bool, dst: array<Byte>, at: nat) returns (n: nat)
    requires at + (if padding then 4 else 2) <= dst.Length
    modifies dst
    ensures n <= dst.Length && dst[..n] == old(dst[..at]) + Tail(a, [x], padding)
  {
    var val: int := x * 65536;
    assert val == Bits24(x, 0, 0);
    n := at;
    dst[n] := EncChar(a, val / 262144);
    dst[n + 1] := EncChar(a, val / 4096 % 64);
    n := n + 2;
    if padding {
      dst[n], dst[n + 1] := PAD, PAD;
      n := n + 2;
    }
  }

  lemma EncodedStep(a: Alphabet, done: seq<Byte>, b: seq<Byte>, padding: bool)
    requires |b| >= 3
    ensures done + Encoded(a, b, padding) == done + Quad(a, b[0], b[1], b[2]) + Encoded(a, b[3..], padding)
    ensures |done| + 4 <= |done + Encoded(a, b, padding)|
  {
  }

  method WriteTail(a: Alphabet, rest: seq<Byte>, padding: bool, dst: array<Byte>, at: nat) returns (n: nat)
    requires |rest| < 3 && at + |Tail(a, rest, padding)| <= dst.Length
    modifies dst
    ensures n <= dst.Length && dst[..n] == old(dst[..at]) + Tail(a, rest, padding)
  {
    n := at;
    if |rest| == 2 {
      assert rest == [rest[0], rest[1]];
      n := WriteTwo(a, rest[0], rest[1], padding, dst, at);
    } else if |rest| == 1 {
      assert rest == [rest[0]];
      n := WriteOne(a, rest[0], padding, dst, at);
    }
  }

  /** The encoding loop. */
  method WriteGroups(a: Alphabet, src: array<Byte>, dst: array<Byte>, ghost padding: bool) returns (i: nat, n: nat)
    requires src != dst && |Encoded(a, src[..], padding)| <= dst.Length
    modifies dst
    ensures src.Length < i + 3 <= src.Length + 3 && n <= dst.Length
    ensures dst[..n] + Encoded(a, src[i..], padding) == Encoded(a, src[..], padding)
  {
    ghost var whole := Encoded(a, src[..], padding);
    i, n := 0, 0;
    assert src[0..] == src[..];
    while src.Length - i >= 3
      invariant i <= src.Length && n <= dst.Length
      invariant dst[..n] + Encoded(a, src[i..], padding) == whole
    {
      ghost var rest := src[i..];
      EncodedStep(a, dst[..n], rest, padding);
      WriteQuad(a, src[i], src[i + 1], src[i + 2], dst, n);
      assert rest[3..] == src[i + 3..];
      n, i := n + 4, i + 3;
    }
  }

  /** `_base64_encode`: the length written, or -1 if the buffer might not hold it. */
  method Encode(a: Alphabet, src: array<Byte>, dst: array<Byte>, padding: bool) returns (n: int)
    requires src != dst
    modifies dst
    ensures n == -1 <==> dst.Length < EncodeSize(src.Length)
    ensures n != -1 ==> 0 <= n <= EncodeSize(src.Length) <= dst.Length && dst[..n] == Encoded(a, src[..], padding)
  {
    if dst.Length < EncodeSize(src.Length) { return -1; }
    EncodedFits(a, src[..], padding);
    var i, at := WriteGroups(a, src, dst, padding);
    n := WriteTail(a, src[i..], padding, dst, at);
  }

  lemma RestFits(a: Alphabet, s: seq<Byte>, padding: bool)
    ensures Rest(a, s, padding).Some? ==> |Rest(a, s, padding).value| <= (if s == [] then 0 else 2)
  {
  }

  lemma {:induction false} DecodedFits(a: Alphabet, s: seq<Byte>, padding: bool)
    ensures Decoded(a, s, padding).Some? ==> |Decoded(a, s, padding).value| <= DecodeSize(|s|)
  {
    if |s| >= 4 && Clean(a, s) {
      DecodedFits(a, s[4..], padding);
      assert DecodeSize(|s|) == 3 + DecodeSize(|s| - 4);
    } else {
      RestFits(a, s, padding);
      assert |s| > 0 ==> DecodeSize(|s|) >= 3;
    }
  }

  /** The last two or three characters: the new length, or -1. */
  method ReadShort(a: Alphabet, src: array<Byte>, i: nat, left: nat, dst: array<Byte>, at: nat) returns (n: int)
    requires src != dst && 2 <= left <= 3 && i + left <= src.Length && at + 2 <= dst.Length
    modifies dst
    ensures var r := Short(a, src[i..i + left]);
            && (n == -1 <==> r.None?) && (r.Some? ==> 0 <= n <= dst.Length && dst[..n] == old(dst[..at]) + r.value)
  {
    var v0, v1 := DecChar(a, src[i]), DecChar(a, src[i + 1]);
    if v0 < 0 || v1 < 0 { return -1; }
    if left == 2 {
      var val := v0 * 4096 + v1 * 64;
      if val % 1024 != 0 { return -1; }
      dst[at] := val / 1024;
      n := at + 1;
    } else {
      var v2 := DecChar(a, src[i + 2]);
      if v2 < 0 { return -1; }
      var val := v0 * 4096 + v1 * 64 + v2;
      if val % 4 != 0 { return -1; }
      dst[at] := val / 1024;
      dst[at + 1] := val / 4 % 256;
      n := at + 2;
    }
  }

  /** Four characters of the alphabet give three bytes; the joined value is negative exactly if one is not in it. */
  method ReadQuad(a: Alphabet, src: array<Byte>, i: nat, dst: array<Byte>, n: nat) returns (ok: bool)
    requires src != dst && i + 4 <= src.Length && n + 3 <= dst.Length
    modifies dst
    ensures ok <==> Clean(a, src[i..])
    ensures !ok ==> dst[..] == old(dst[..])
    ensures ok ==> dst[..n + 3] == old(dst[..n]) + Triple(a, src[i..])
  {
    ghost var rest := src[i..];
    var v0, v1, v2, v3 := DecChar(a, src[i]), DecChar(a, src[i + 1]), DecChar(a, src[i + 2]), DecChar(a, src[i + 3]);
    ok := v0 >= 0 && v1 >= 0 && v2 >= 0 && v3 >= 0;
    if ok {
      var val := v0 * 262144 + v1 * 4096 + v2 * 64 + v3;
      dst[n] := val / 65536;
      dst[n + 1] := val / 256 % 256;
      dst[n + 2] := val % 256;
    }
  }

  /** What decoding the rest makes of what is decoded so far. */
  function Joined(done: seq<Byte>, rest: Option<seq<Byte>>): Option<seq<Byte>> {
    if rest.None? then None else Some(done + rest.value)
  }

  lemma JoinedNothing(done: seq<Byte>, rest: Option<seq<Byte>>)
    requires done == []
    ensures Joined(done, rest) == rest
  {
    assert rest.Some? ==> done + rest.value == rest.value;
  }

  lemma DecodedStep(a: Alphabet, done: seq<Byte>, s: seq<Byte>, padding: bool)
    requires |s| >= 4 && Clean(a, s)
    ensures Joined(done, Decoded(a, s, padding)) == Joined(done + Triple(a, s), Decoded(a, s[4..], padding))
  {
    var rest := Decoded(a, s[4..], padding);
    if rest.Some? { assert done + (Triple(a, s) + rest.value) == done + Triple(a, s) + rest.value; }
  }

  lemma StepRoom(left: int)
    requires left >= 1
    ensures DecodeSize(left) >= 3 && (left >= 4 ==> DecodeSize(left) == 3 + DecodeSize(left - 4))
  {
  }

  /** The way out of the loop: only a last group of four may hold padding. */
  method ReadPadded(a: Alphabet, src: array<Byte>, i: nat, dst: array<Byte>, at: nat, padding: bool) returns (n: int)
    requires src != dst && i + 4 <= src.Length && at + 2 <= dst.Length && !Clean(a, src[i..])
    modifies dst
    ensures Finishes(old(dst[..at]), Rest(a, src[i..], padding), dst[..], n)
  {
    if !padding || src.Length - i != 4 || src[i + 3] != PAD { return -1; }
    var left := if src[i + 2] == PAD then 2 else 3;
    assert src[i..][..left] == src[i..i + left];
    n := ReadShort(a, src, i, left, dst, at);
  }

  /** After the loop fewer than four characters are left. */
  method ReadRest(a: Alphabet, src: array<Byte>, i: nat, dst: array<Byte>, at: nat, padding: bool) returns (n: int)
    requires src != dst && src.Length < i + 4 <= src.Length + 4 && at <= dst.Length
    requires i < src.Length ==> at + 2 <= dst.Length
    modifies dst
    ensures Finishes(old(dst[..at]), Rest(a, src[i..], padding), dst[..], n)
  {
    var left := src.Length - i;
    if left == 0 { return at; }
    if padding || left == 1 { return -1; }
    assert src[i..] == src[i..i + left];
    n := ReadShort(a, src, i, left, dst, at);
  }

  /** The length that was written, or -1. */
  predicate Finishes(done: seq<Byte>, rest: Option<seq<Byte>>, dst: seq<Byte>, n: int) {
    if rest.None? then n == -1 else 0 <= n <= |dst| && dst[..n] == done + rest.value
  }

  /** The decoding loop: it stops short of the first group that is not clean. */
  method ReadGroups(a: Alphabet, src: array<Byte>, dst: array<Byte>, ghost padding: bool) returns (i: nat, n: nat)
    requires src != dst && DecodeSize(src.Length) <= dst.Length
    modifies dst
    ensures i <= src.Length && n <= dst.Length && (i < src.Length ==> n + 3 <= dst.Length)
    ensures Joined(dst[..n], Decoded(a, src[i..], padding)) == Decoded(a, src[..], padding)
    ensures src.Length - i >= 4 ==> !Clean(a, src[i..])
  {
    i, n := 0, 0;
    assert src[0..] == src[..];
    JoinedNothing(dst[..0], Decoded(a, src[..], padding));
    var clean := true;
    while clean && src.Length - i >= 4
      invariant i <= src.Length && n + DecodeSize(src.Length - i) <= dst.Length
      invariant Joined(dst[..n], Decoded(a, src[i..], padding)) == Decoded(a, src[..], padding)
      invariant !clean ==> src.Length - i >= 4 && !Clean(a, src[i..])
      decreases src.Length - i, clean
    {
      ghost var rest, done := src[i..], dst[..n];
      StepRoom(src.Length - i);
      clean := ReadQuad(a, src, i, dst, n);
      if clean {
        DecodedStep(a, done, rest, padding);
        assert rest[4..] == src[i + 4..];
        n, i := n + 3, i + 4;
      }
    }
    if i < src.Length { StepRoom(src.Length - i); }
  }

  /** `_base64_decode`: the length written, or -1 for a buffer that might not hold it or a text that is not
      canonical. */
  method Decode(a: Alphabet, src: array<Byte>, dst: array<Byte>, padding: bool) returns (n: int)
    requires src != dst
    modifies dst
    ensures n == -1 <==> dst.Length < DecodeSize(src.Length) || Decoded(a, src[..], padding).None?
    ensures n != -1 ==> 0 <= n <= DecodeSize(src.Length) <= dst.Length && Decoded(a, src[..], padding) == Some(dst[..n])
  {
    if dst.Length < DecodeSize(src.Length) { return -1; }
    DecodedFits(a, src[..], padding);
    var i, at := ReadGroups(a, src, dst, padding);
    assert Decoded(a, src[i..], padding) == Rest(a, src[i..], padding);
    if src.Length - i >= 4 {
      n := ReadPadded(a, src, i, dst, at, padding);
    } else {
      n := ReadRest(a, src, i, dst, at, padding);
    }
  }
}
