/**
 Unpadded base64url (sections 3.2 and 5 of RFC 4648) with canonical trailing bits (section 3.5).
 */
module Base64Url {
  import opened Options

  type Sextet = x: int | 0 <= x < 64

  type Byte = x: int | 0 <= x < 256

  // ----- the alphabet -----

  function CharOf(x: Sextet): char {
    if x < 26 then ('A' as int + x) as char
    else if x < 52 then ('a' as int + x - 26) as char
    else if x < 62 then ('0' as int + x - 52) as char
    else if x == 62 then '-'
    else '_'
  }

  predicate InAlphabet(c: char) {
    'A' <= c <= 'Z' || 'a' <= c <= 'z' || '0' <= c <= '9' || c == '-' || c == '_'
  }

  function SextetOf(c: char): Sextet
    requires InAlphabet(c)
  {
    if 'A' <= c <= 'Z' then c as int - 'A' as int
    else if 'a' <= c <= 'z' then c as int - 'a' as int + 26
    else if '0' <= c <= '9' then c as int - '0' as int + 52
    else if c == '-' then 62
    else 63
  }

  predicate AllInAlphabet(s: string) {
    forall i :: 0 <= i < |s| ==> InAlphabet(s[i])
  }

  function Chars(xs: seq<Sextet>): (s: string)
    ensures |s| == |xs| && AllInAlphabet(s)
    ensures forall i :: 0 <= i < |s| ==> SextetOf(s[i]) == xs[i]
  {
    seq(|xs|, i requires 0 <= i < |xs| => CharOf(xs[i]))
  }

  function Sextets(s: string): (xs: seq<Sextet>)
    requires AllInAlphabet(s)
    ensures |xs| == |s|
    ensures forall i :: 0 <= i < |s| ==> CharOf(xs[i]) == s[i]
  {
    seq(|s|, i requires 0 <= i < |s| => SextetOf(s[i]))
  }

  // ----- regrouping 8 bits into 6, and back -----

  /** Two bits above four, and four above two. */
  function Sextet16(high: int, low: int): (x: Sextet)
    requires 0 <= high < 4 && 0 <= low < 16
    ensures x / 16 == high && x % 16 == low
  {
    high * 16 + low
  }

  function Sextet4(high: int, low: int): (x: Sextet)
    requires 0 <= high < 16 && 0 <= low < 4
    ensures x / 4 == high && x % 4 == low
  {
    high * 4 + low
  }

  function Group(b0: Byte, b1: Byte, b2: Byte): seq<Sextet> {
    [b0 / 4, Sextet16(b0 % 4, b1 / 16), Sextet4(b1 % 16, b2 / 64), b2 % 64]
  }

  function Regroup(b: seq<Byte>): seq<Sextet> {
    if |b| == 0 then []
    else if |b| == 1 then Group(b[0], 0, 0)[..2]
    else if |b| == 2 then Group(b[0], b[1], 0)[..3]
    else Group(b[0], b[1], b[2]) + Regroup(b[3..])
  }

  /** Six bits above two, four above four, and two above six. */
  function Byte4(high: int, low: int): (b: Byte)
    requires 0 <= high < 64 && 0 <= low < 4
    ensures b / 4 == high && b % 4 == low
  {
    high * 4 + low
  }

  function Byte16(high: int, low: int): (b: Byte)
    requires 0 <= high < 16 && 0 <= low < 16
    ensures b / 16 == high && b % 16 == low
  {
    high * 16 + low
  }

  function Byte64(high: int, low: int): (b: Byte)
    requires 0 <= high < 4 && 0 <= low < 64
    ensures b / 64 == high && b % 64 == low
  {
    high * 64 + low
  }

  function Ungrouped(x0: Sextet, x1: Sextet, x2: Sextet, x3: Sextet): seq<Byte> {
    [Byte4(x0, x1 / 16), Byte16(x1 % 16, x2 / 4), Byte64(x2 % 4, x3)]
  }

  /** The bits left over in a last partial group are dropped. */
  function Ungroup(xs: seq<Sextet>): seq<Byte>
    requires |xs| % 4 != 1
  {
    if |xs| == 0 then []
    else if |xs| == 2 then Ungrouped(xs[0], xs[1], 0, 0)[..1]
    else if |xs| == 3 then Ungrouped(xs[0], xs[1], xs[2], 0)[..2]
    else Ungrouped(xs[0], xs[1], xs[2], xs[3]) + Ungroup(xs[4..])
  }

  /** The bits that a last partial group leaves over are zero. */
  predicate ZeroTrailingBits(xs: seq<Sextet>) {
    && (|xs| % 4 == 2 ==> xs[|xs| - 1] % 16 == 0)
    && (|xs| % 4 == 3 ==> xs[|xs| - 1] % 4 == 0)
  }

  lemma ThreeBytes(b0: Byte, b1: Byte, b2: Byte)
    ensures var g := Group(b0, b1, b2); Ungrouped(g[0], g[1], g[2], g[3]) == [b0, b1, b2]
  {
  }

  lemma TwoBytes(b0: Byte, b1: Byte)
    ensures var g := Group(b0, b1, 0); Ungrouped(g[0], g[1], g[2], 0)[..2] == [b0, b1]
  {
  }

  lemma OneByte(b0: Byte)
    ensures var g := Group(b0, 0, 0); Ungrouped(g[0], g[1], 0, 0)[..1] == [b0]
  {
  }

  lemma FourSextets(x0: Sextet, x1: Sextet, x2: Sextet, x3: Sextet)
    ensures var b := Ungrouped(x0, x1, x2, x3); Group(b[0], b[1], b[2]) == [x0, x1, x2, x3]
  {
    var b0, b1, b2 := Byte4(x0, x1 / 16), Byte16(x1 % 16, x2 / 4), Byte64(x2 % 4, x3);
    assert Sextet16(b0 % 4, b1 / 16) == x1;
    assert Sextet4(b1 % 16, b2 / 64) == x2;
  }

  /** A partial group comes back with its trailing bits zeroed. */
  lemma ThreeSextets(x0: Sextet, x1: Sextet, x2: Sextet)
    ensures var b := Ungrouped(x0, x1, x2, 0); Group(b[0], b[1], 0)[..3] == [x0, x1, x2 / 4 * 4]
  {
    var b0, b1 := Byte4(x0, x1 / 16), Byte16(x1 % 16, x2 / 4);
    assert Sextet16(b0 % 4, b1 / 16) == x1;
    assert Sextet4(b1 % 16, 0) == x2 / 4 * 4;
  }

  lemma TwoSextets(x0: Sextet, x1: Sextet)
    ensures var b := Ungrouped(x0, x1, 0, 0); Group(b[0], 0, 0)[..2] == [x0, x1 / 16 * 16]
  {
  }

  lemma UngroupOne(b: seq<Byte>)
    requires |b| == 1
    ensures |Regroup(b)| == 2 && Ungroup(Regroup(b)) == b
  {
    OneByte(b[0]);
  }

  lemma UngroupTwo(b: seq<Byte>)
    requires |b| == 2
    ensures |Regroup(b)| == 3 && Ungroup(Regroup(b)) == b
  {
    TwoBytes(b[0], b[1]);
  }

  lemma UngroupMore(first: seq<Sextet>, rest: seq<Sextet>)
    requires |first| == 4 && |rest| % 4 != 1
    ensures |first + rest| % 4 != 1
    ensures Ungroup(first + rest) == Ungrouped(first[0], first[1], first[2], first[3]) + Ungroup(rest)
  {
    assert (first + rest)[4..] == rest;
  }

  lemma {:induction false} UngroupRegroup(b: seq<Byte>)
    ensures |Regroup(b)| == (4 * |b| + 2) / 3
    ensures |Regroup(b)| % 4 != 1 && Ungroup(Regroup(b)) == b
  {
    if |b| == 1 {
      UngroupOne(b);
    } else if |b| == 2 {
      UngroupTwo(b);
    } else if |b| >= 3 {
      UngroupRegroup(b[3..]);
      UngroupMore(Group(b[0], b[1], b[2]), Regroup(b[3..]));
      ThreeBytes(b[0], b[1], b[2]);
      assert b == [b[0], b[1], b[2]] + b[3..];
    }
  }

  lemma RegroupTwo(xs: seq<Sextet>)
    requires |xs| == 2
    ensures Ungroup(xs) != [] && (Regroup(Ungroup(xs)) == xs <==> ZeroTrailingBits(xs))
  {
    TwoSextets(xs[0], xs[1]);
    assert Regroup(Ungroup(xs)) == [xs[0], xs[1] / 16 * 16];
  }

  lemma RegroupThree(xs: seq<Sextet>)
    requires |xs| == 3
    ensures Ungroup(xs) != [] && (Regroup(Ungroup(xs)) == xs <==> ZeroTrailingBits(xs))
  {
    ThreeSextets(xs[0], xs[1], xs[2]);
    assert Regroup(Ungroup(xs)) == [xs[0], xs[1], xs[2] / 4 * 4];
  }

  lemma {:induction false} RegroupUngroup(xs: seq<Sextet>)
    requires |xs| % 4 != 1
    ensures xs != [] ==> Ungroup(xs) != []
    ensures Regroup(Ungroup(xs)) == xs <==> ZeroTrailingBits(xs)
  {
    if |xs| == 2 {
      RegroupTwo(xs);
    } else if |xs| == 3 {
      RegroupThree(xs);
    } else if |xs| >= 4 {
      RegroupUngroup(xs[4..]);
      RegroupFullGroup(xs, Ungroup(xs[4..]));
      TrailingBitsOfTail(xs);
    }
  }

  lemma RegroupPrepend(first: seq<Byte>, rest: seq<Byte>)
    requires |first| == 3
    ensures Regroup(first + rest) == Group(first[0], first[1], first[2]) + Regroup(rest)
  {
    assert (first + rest)[3..] == rest;
  }

  lemma SamePrefix<T>(prefix: seq<T>, a: seq<T>, xs: seq<T>)
    requires |prefix| <= |xs| && prefix == xs[..|prefix|]
    ensures prefix + a == xs <==> a == xs[|prefix|..]
  {
    assert xs == prefix + xs[|prefix|..];
    assert (prefix + a)[|prefix|..] == a;
  }

  lemma RegroupFullGroup(xs: seq<Sextet>, tail: seq<Byte>)
    requires |xs| >= 4
    ensures Regroup(Ungrouped(xs[0], xs[1], xs[2], xs[3]) + tail) == xs <==> Regroup(tail) == xs[4..]
  {
    var first := Ungrouped(xs[0], xs[1], xs[2], xs[3]);
    RegroupPrepend(first, tail);
    FourSextets(xs[0], xs[1], xs[2], xs[3]);
    SamePrefix(Group(first[0], first[1], first[2]), Regroup(tail), xs);
  }

  lemma TrailingBitsOfTail(xs: seq<Sextet>)
    requires |xs| >= 4
    ensures ZeroTrailingBits(xs) <==> ZeroTrailingBits(xs[4..])
  {
    var tail := xs[4..];
    assert |tail| % 4 == |xs| % 4;
    if tail != [] {
      assert xs[|xs| - 1] == tail[|tail| - 1];
    }
  }

  // ----- the codec -----

  function Encode(b: seq<Byte>): string
  {
    Chars(Regroup(b))
  }

  /** Decodes, then refuses any spelling that encoding would not produce. */
  function Decode(s: string): Option<seq<Byte>> {
    if s == "" || !AllInAlphabet(s) then None
    else if |s| % 4 == 1 then None
    else
      var b := Ungroup(Sextets(s));
      RegroupUngroup(Sextets(s));
      if Encode(b) != s then None else Some(b)
  }

  lemma CharsOfSextets(s: string)
    requires AllInAlphabet(s)
    ensures Chars(Sextets(s)) == s
  {
  }

  lemma SextetsOfChars(xs: seq<Sextet>)
    ensures Sextets(Chars(xs)) == xs
  {
  }

  /** Decoding undoes encoding. */
  lemma DecodeEncode(b: seq<Byte>)
    requires b != []
    ensures Decode(Encode(b)) == Some(b)
  {
    UngroupRegroup(b);
    SextetsOfChars(Regroup(b));
  }

  /** Encoding undoes decoding, so an accepted string is the only spelling of its bytes. */
  lemma EncodeDecode(s: string)
    requires Decode(s).Some?
    ensures Decode(s).value != [] && Encode(Decode(s).value) == s
  {
    RegroupUngroup(Sextets(s));
  }

  /** Encoding and decoding are inverse bijections between nonempty byte strings and accepted
      strings. */
  lemma Inverse(b: seq<Byte>, s: string)
    requires b != []
    ensures Encode(b) == s <==> Decode(s) == Some(b)
  {
    DecodeEncode(b);
    if Decode(s).Some? {
      EncodeDecode(s);
    }
  }

  /** Exactly the nonempty alphabet strings of a possible length with zero trailing bits decode. */
  lemma AcceptedStrings(s: string)
    ensures Decode(s).Some? <==> s != "" && AllInAlphabet(s) && |s| % 4 != 1 && ZeroTrailingBits(Sextets(s))
  {
    if s != "" && AllInAlphabet(s) && |s| % 4 != 1 {
      RegroupUngroup(Sextets(s));
      CharsOfSextets(s);
      SextetsOfChars(Regroup(Ungroup(Sextets(s))));
    }
  }

  lemma EncodedLength(b: seq<Byte>)
    ensures |Encode(b)| == (4 * |b| + 2) / 3
    ensures AllInAlphabet(Encode(b))
  {
    UngroupRegroup(b);
  }

  // ----- the standard encoding -----

  /** The characters are those of table 2 of RFC 4648, in its order: A to Z, a to z, 0 to 9, - and _. */
  lemma AlphabetIsStandard(x: Sextet, c: char)
    ensures CharOf(0) == 'A' && CharOf(26) == 'a' && CharOf(52) == '0' && CharOf(62) == '-' && CharOf(63) == '_'
    ensures x < 61 && x != 25 && x != 51 ==> CharOf(x + 1) as int == CharOf(x) as int + 1
    ensures InAlphabet(c) && SextetOf(c) == x <==> c == CharOf(x)
  {
  }

  /** The value of the character at `i`. */
  function At(s: string, i: nat): int
    requires i < |s| && AllInAlphabet(s)
  {
    SextetOf(s[i])
  }

  function BitsOfBytes(b0: int, b1: int, b2: int): int {
    (b0 * 256 + b1) * 256 + b2
  }

  function BitsOfSextets(x0: int, x1: int, x2: int, x3: int): int {
    ((x0 * 64 + x1) * 64 + x2) * 64 + x3
  }

  lemma GroupIsBigEndian(b0: Byte, b1: Byte, b2: Byte)
    ensures var g := Group(b0, b1, b2); BitsOfBytes(b0, b1, b2) == BitsOfSextets(g[0], g[1], g[2], g[3])
  {
    assert b0 as int == b0 / 4 * 4 + b0 % 4;
    assert b1 as int == b1 / 16 * 16 + b1 % 16;
    assert b2 as int == b2 / 64 * 64 + b2 % 64;
  }

  lemma EncodeMore(b: seq<Byte>)
    requires |b| >= 3
    ensures |Encode(b)| >= 4 && Encode(b)[4..] == Encode(b[3..])
    ensures Encode(b)[..4] == Chars(Group(b[0], b[1], b[2]))
  {
  }

  /** The characters of the `i`-th group of three bytes, or of the one or two that are left, are the
      same bits, most significant first and padded with zeros. */
  predicate SameBits(b: seq<Byte>, s: string, i: nat)
    requires 3 * i < |b| && AllInAlphabet(s)
  {
    var n := |b| - 3 * i;
    && |s| >= 4 * i + (if n < 3 then n + 1 else 4)
    && BitsOfBytes(b[3 * i], if n > 1 then b[3 * i + 1] else 0, if n > 2 then b[3 * i + 2] else 0)
       == BitsOfSextets(At(s, 4 * i), At(s, 4 * i + 1), if n > 1 then At(s, 4 * i + 2) else 0,
                        if n > 2 then At(s, 4 * i + 3) else 0)
  }

  lemma SameBitsLater(b: seq<Byte>, s: string, i: nat)
    requires |b| >= 3 && |s| >= 4 && AllInAlphabet(s) && i > 0 && 3 * i < |b|
    requires SameBits(b[3..], s[4..], i - 1)
    ensures SameBits(b, s, i)
  {
    assert forall k: nat :: k + 3 < |b| ==> b[3..][k] == b[k + 3];
    assert forall k: nat :: k + 4 < |s| ==> s[4..][k] == s[k + 4];
  }

  lemma FirstSameBits(b: seq<Byte>)
    requires b != []
    ensures SameBits(b, Encode(b), 0)
  {
    if |b| >= 3 {
      GroupIsBigEndian(b[0], b[1], b[2]);
      EncodeMore(b);
    } else {
      GroupIsBigEndian(b[0], if |b| == 2 then b[1] else 0, 0);
    }
  }

  lemma {:induction false} EncodedBits(b: seq<Byte>, i: nat)
    requires 3 * i < |b|
    ensures SameBits(b, Encode(b), i)
  {
    if i > 0 {
      EncodedBits(b[3..], i - 1);
      EncodeMore(b);
      SameBitsLater(b, Encode(b), i);
    } else {
      FirstSameBits(b);
    }
  }
}
