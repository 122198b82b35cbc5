/**
 Standard base64 (section 4 of RFC 4648): bytes are regrouped into six-bit values, padded in
 the last group, and every value is written as one symbol.
 */
module Base64 {
  import opened Outcomes

  type Byte = x: int | 0 <= x < 256

  /** A six-bit value, or PAD. */
  type Sextet = x: int | 0 <= x <= 64

  const PAD: Sextet := 64

  function Sextets(s: seq<Byte>): seq<Sextet> {
    if |s| == 0 then []
    else if |s| == 1 then [s[0] / 4, s[0] % 4 * 16, PAD, PAD]
    else if |s| == 2 then [s[0] / 4, s[0] % 4 * 16 + s[1] / 16, s[1] % 16 * 4, PAD]
    else Group(s[0], s[1], s[2]) + Sextets(s[3..])
  }

  function Group(a: Byte, b: Byte, c: Byte): (g: seq<Sextet>)
    ensures |g| == 4 && forall i :: 0 <= i < 4 ==> g[i] != PAD
  {
    [a / 4, a % 4 * 16 + b / 16, b % 16 * 4 + c / 64, c % 64]
  }

  function Symbol(v: Sextet): char {
    if v < 26 then ('A' as int + v) as char
    else if v < 52 then ('a' as int + v - 26) as char
    else if v < 62 then ('0' as int + v - 52) as char
    else if v == 62 then '+'
    else if v == 63 then '/'
    else '='
  }

  /** The alphabet, table 1 of RFC 4648: 'A' to 'Z', 'a' to 'z', '0' to '9', '+' and '/', in this order, and '=' for padding. */
  lemma SymbolsOfTheAlphabet()
    ensures Symbol(0) == 'A' && Symbol(25) == 'Z' && Symbol(26) == 'a' && Symbol(51) == 'z'
    ensures Symbol(52) == '0' && Symbol(61) == '9' && Symbol(62) == '+' && Symbol(63) == '/' && Symbol(PAD) == '='
    ensures forall v: int :: 0 <= v < 61 && v != 25 && v != 51 ==> Symbol(v + 1) as int == Symbol(v) as int + 1
  {
  }

  /** The number whose 24 bits four values hold. */
  function Bits(g: seq<Sextet>): int
    requires |g| == 4
  {
    var w: int, x: int, y: int, z: int := g[0], g[1], g[2], g[3];
    w * 262_144 + x * 4096 + y * 64 + z
  }

  /** Three bytes and their four values are the same 24 bits. */
  lemma GroupKeepsBits(a: Byte, b: Byte, c: Byte)
    ensures var g := Sextets([a, b, c]);
            && |g| == 4 && (forall i :: 0 <= i < 4 ==> g[i] != PAD)
            && var x: int, y: int, z: int := a, b, c; Bits(g) == x * 65_536 + y * 256 + z
  {
    assert [a, b, c][3..] == [];
  }

  /** One or two bytes at the end are filled up with zero bytes, and what those alone make up is padding. */
  lemma TailKeepsBits(a: Byte, b: Byte)
    ensures |Sextets([a])| == 4 && Sextets([a])[2..] == [PAD, PAD] && Sextets([a])[..2] == Sextets([a, 0, 0])[..2]
    ensures |Sextets([a, b])| == 4 && Sextets([a, b])[3] == PAD && Sextets([a, b])[..3] == Sextets([a, b, 0])[..3]
  {
    assert [a, 0, 0][3..] == [] && [a, b, 0][3..] == [];
  }

  function Render(values: seq<Sextet>): string {
    seq(|values|, i requires 0 <= i < |values| => Symbol(values[i]))
  }

  function Encode(s: seq<Byte>): string {
    Render(Sextets(s))
  }

  /** base64.StdEncoding.EncodedLen. */
  function EncodedLen(n: nat): nat {
    (n + 2) / 3 * 4
  }

  // ---- an independent reader ----

  function SymbolValue(c: char): Option<Sextet> {
    if 'A' <= c <= 'Z' then Some(c as int - 'A' as int)
    else if 'a' <= c <= 'z' then Some(c as int - 'a' as int + 26)
    else if '0' <= c <= '9' then Some(c as int - '0' as int + 52)
    else if c == '+' then Some(62)
    else if c == '/' then Some(63)
    else if c == '=' then Some(PAD)
    else None
  }

  function Parse(t: string): Option<seq<Sextet>> {
    if t == "" then Some([])
    else match (SymbolValue(t[0]), Parse(t[1..]))
         case (Some(v), Some(rest)) => Some([v] + rest)
         case _ => None
  }

  /** Groups of four values, padded in the last group only, back to bytes. */
  function Bytes(v: seq<Sextet>): Option<seq<Byte>> {
    if v == [] then Some([])
    else if |v| < 4 || v[0] == PAD || v[1] == PAD then None
    else if v[2] == PAD then (if v[3] == PAD && |v| == 4 then Some([Byte0(v)]) else None)
    else if v[3] == PAD then (if |v| == 4 then Some([Byte0(v), Byte1(v)]) else None)
    else match Bytes(v[4..])
         case None => None
         case Some(rest) => Some([Byte0(v), Byte1(v), Byte2(v)] + rest)
  }

  function Byte0(v: seq<Sextet>): Byte
    requires |v| >= 4
  {
    var x: int, y: int := v[0], v[1];
    (x * 4 + y / 16) % 256
  }

  function Byte1(v: seq<Sextet>): Byte
    requires |v| >= 4
  {
    var x: int, y: int := v[1], v[2];
    (x * 16 + y / 4) % 256
  }

  function Byte2(v: seq<Sextet>): Byte
    requires |v| >= 4
  {
    var x: int, y: int := v[2], v[3];
    (x * 64 + y) % 256
  }

  function Decode(t: string): Option<seq<Byte>> {
    match Parse(t)
    case None => None
    case Some(v) => Bytes(v)
  }

  lemma {:induction false} ParseReadsBack(v: seq<Sextet>)
    ensures Parse(Render(v)) == Some(v)
  {
    if v != [] {
      ParseReadsBack(v[1..]);
      assert Render(v)[1..] == Render(v[1..]);
      assert SymbolValue(Symbol(v[0])) == Some(v[0]);
      assert v == [v[0]] + v[1..];
    }
  }

  lemma FirstByte(a: Byte, x: int)
    requires 0 <= x < 16
    ensures (a / 4 * 4 + (a % 4 * 16 + x) / 16) % 256 == a
  {
  }

  lemma SecondByte(b: Byte, x: int, y: int)
    requires 0 <= x < 4 && 0 <= y < 4
    ensures ((x * 16 + b / 16) * 16 + (b % 16 * 4 + y) / 4) % 256 == b
  {
    assert (b % 16 * 4 + y) / 4 == b % 16;
    assert (x * 16 + b / 16) * 16 + b % 16 == x * 256 + b;
  }

  lemma ThirdByte(b: Byte, c: Byte)
    ensures ((b % 16 * 4 + c / 64) * 64 + c % 64) % 256 == c
  {
  }

  lemma GroupReadsBack(a: Byte, b: Byte, c: Byte, rest: seq<Sextet>)
    ensures var v := Group(a, b, c) + rest; Byte0(v) == a && Byte1(v) == b && Byte2(v) == c
  {
    FirstByte(a, b / 16);
    SecondByte(b, a % 4, c / 64);
    ThirdByte(b, c);
  }

  lemma PaddedReadBack(a: Byte, b: Byte)
    ensures Bytes([a / 4, a % 4 * 16, PAD, PAD]) == Some([a])
    ensures Bytes([a / 4, a % 4 * 16 + b / 16, b % 16 * 4, PAD]) == Some([a, b])
  {
    FirstByte(a, 0);
    FirstByte(a, b / 16);
    SecondByte(b, a % 4, 0);
  }

  lemma {:induction false} BytesReadBack(s: seq<Byte>)
    ensures Bytes(Sextets(s)) == Some(s)
  {
    if |s| == 1 {
      PaddedReadBack(s[0], 0);
      assert s == [s[0]];
    } else if |s| == 2 {
      PaddedReadBack(s[0], s[1]);
      assert s == [s[0], s[1]];
    } else if |s| > 2 {
      var g := Group(s[0], s[1], s[2]);
      GroupReadsBack(s[0], s[1], s[2], Sextets(s[3..]));
      BytesReadBack(s[3..]);
      assert (g + Sextets(s[3..]))[4..] == Sextets(s[3..]);
      assert s == [s[0], s[1], s[2]] + s[3..];
    }
  }

  /** Decoding gives back the encoded bytes. */
  lemma DecodeReadsBack(s: seq<Byte>)
    ensures Decode(Encode(s)) == Some(s)
  {
    ParseReadsBack(Sextets(s));
    BytesReadBack(s);
  }

  // ---- length, padding and chunks ----

  lemma {:induction false} EncodeLength(s: seq<Byte>)
    ensures |Encode(s)| == |Sextets(s)| == EncodedLen(|s|)
  {
    if |s| > 2 {
      EncodeLength(s[3..]);
    }
  }

  /** Padding is found only at the very end, and exactly when the length is not a multiple of three. */
  lemma {:induction false} PaddingOnlyAtEnd(s: seq<Byte>)
    ensures forall i :: 0 <= i < |Sextets(s)| && Sextets(s)[i] == PAD ==> |s| % 3 != 0 && i >= |Sextets(s)| - 2
    ensures |s| % 3 != 0 ==> |Sextets(s)| > 0 && Sextets(s)[|Sextets(s)| - 1] == PAD
  {
    EncodeLength(s);
    if |s| > 2 {
      PaddingOnlyAtEnd(s[3..]);
      EncodeLength(s[3..]);
    }
  }

  lemma {:induction false} SextetsConcat(a: seq<Byte>, b: seq<Byte>)
    requires |a| % 3 == 0
    ensures Sextets(a + b) == Sextets(a) + Sextets(b)
  {
    if a == [] {
      assert a + b == b;
    } else {
      assert (a + b)[3..] == a[3..] + b;
      SextetsConcat(a[3..], b);
    }
  }

  lemma EncodeConcat(a: seq<Byte>, b: seq<Byte>)
    requires |a| % 3 == 0
    ensures Encode(a + b) == Encode(a) + Encode(b)
  {
    SextetsConcat(a, b);
  }

  /** Chunks can be encoded one by one exactly when every chunk but the last is a multiple of three bytes long. */
  lemma ChunksConcatenateExactly(a: seq<Byte>, b: seq<Byte>)
    requires b != []
    ensures Encode(a + b) == Encode(a) + Encode(b) <==> |a| % 3 == 0
  {
    if |a| % 3 == 0 {
      EncodeConcat(a, b);
    } else {
      PaddedChunksDiffer(a, b);
    }
  }

  /** The padding of a first chunk that needs some would stand inside the text. */
  lemma PaddedChunksDiffer(a: seq<Byte>, b: seq<Byte>)
    requires b != [] && |a| % 3 != 0
    ensures Encode(a + b) != Encode(a) + Encode(b)
  {
    EncodeLength(a);
    EncodeLength(b);
    PaddingOnlyAtEnd(a);
    PaddingOnlyAtEnd(a + b);
    if |Encode(a + b)| == |Encode(a)| + |Encode(b)| {
      ParseReadsBack(Sextets(a + b));
      var i := |Encode(a)| - 1;
      assert Encode(a)[i] == '=';
      assert Sextets(a + b)[i] != PAD;
      assert Encode(a + b)[i] == Symbol(Sextets(a + b)[i]);
    }
  }

  lemma SymbolsAreNotSpecial(s: seq<Byte>)
    ensures forall i :: 0 <= i < |Encode(s)| ==>
              var c := Encode(s)[i];
              'A' <= c <= 'Z' || 'a' <= c <= 'z' || '0' <= c <= '9' || c == '+' || c == '/' || c == '='
  {
  }
}
