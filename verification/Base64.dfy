/** The base 64 codec: an encoder into a second buffer, and a decoder that overwrites its input.

Its reference is the encoding of section 4 of RFC 4648, stated on bits: the symbols, read as six
bits each, spell the input, read as eight bits each, and then zeros.
*/
module Base64 {

  type byte = bv8

  const PAD: byte := 61

  /** The symbol for a six-bit value. */
  function Symbol(v: byte): byte
    requires v < 64
  {
    if v < 26 then 65 + v
    else if v < 52 then 97 + (v - 26)
    else if v < 62 then 48 + (v - 52)
    else if v == 62 then 43
    else 47
  }

  /** The value of a symbol, or 64. */
  function PrToSix(c: byte): byte {
    if 65 <= c <= 90 then c - 65
    else if 97 <= c <= 122 then c - 97 + 26
    else if 48 <= c <= 57 then c - 48 + 52
    else if c == 43 then 62
    else if c == 47 then 63
    else 64
  }

  predicate IsSymbol(c: byte) {
    PrToSix(c) < 64
  }

  lemma SymbolsAreInverse(v: byte)
    requires v < 64
    ensures PrToSix(Symbol(v)) == v && Symbol(v) != PAD && Symbol(v) != 0
  {
  }

  lemma ValuesAreInverse(c: byte)
    requires IsSymbol(c)
    ensures Symbol(PrToSix(c)) == c
  {
  }

  // ---- One group ----

  function First(a: byte): (v: byte)
    ensures v < 64
  {
    (a & 0xfc) >> 2
  }

  function Second(a: byte, b: byte): (v: byte)
    ensures v < 64
  {
    ((a & 0x03) << 4) + ((b & 0xf0) >> 4)
  }

  function Third(b: byte, c: byte): (v: byte)
    ensures v < 64
  {
    ((b & 0x0f) << 2) + ((c & 0xc0) >> 6)
  }

  function Fourth(c: byte): (v: byte)
    ensures v < 64
  {
    c & 0x3f
  }

  function Byte0(s: byte, t: byte): byte {
    (PrToSix(s) << 2) | (PrToSix(t) >> 4)
  }

  function Byte1(t: byte, u: byte): byte {
    (PrToSix(t) << 4) | (PrToSix(u) >> 2)
  }

  function Byte2(u: byte, w: byte): byte {
    (PrToSix(u) << 6) | PrToSix(w)
  }

  lemma GroupsAreInverse(a: byte, b: byte, c: byte)
    ensures Byte0(Symbol(First(a)), Symbol(Second(a, b))) == a
    ensures Byte1(Symbol(Second(a, b)), Symbol(Third(b, c))) == b
    ensures Byte2(Symbol(Third(b, c)), Symbol(Fourth(c))) == c
  {
    SymbolsAreInverse(First(a));
    SymbolsAreInverse(Second(a, b));
    SymbolsAreInverse(Third(b, c));
    SymbolsAreInverse(Fourth(c));
    BitsMeet(a, b, c);
  }

  lemma BitsMeet(a: byte, b: byte, c: byte)
    ensures (First(a) << 2) | (Second(a, b) >> 4) == a
    ensures (Second(a, b) << 4) | (Third(b, c) >> 2) == b
    ensures (Third(b, c) << 6) | Fourth(c) == c
  {
  }

  // ---- Texts ----

  /** The four symbols of three bytes. */
  function Group(a: byte, b: byte, c: byte): (s: seq<byte>)
    ensures |s| == 4
  {
    [Symbol(First(a)), Symbol(Second(a, b)), Symbol(Third(b, c)), Symbol(Fourth(c))]
  }

  /** The three bytes of four symbols. */
  function Trio(s: byte, t: byte, u: byte, w: byte): (x: seq<byte>)
    ensures |x| == 3
  {
    [Byte0(s, t), Byte1(t, u), Byte2(u, w)]
  }

  /** The symbols of `x`, without padding: whole groups, and then one symbol more than there are bytes left. */
  function Symbols(x: seq<byte>): seq<byte> {
    if |x| == 0 then []
    else if |x| == 1 then Group(x[0], 0, 0)[..2]
    else if |x| == 2 then Group(x[0], x[1], 0)[..3]
    else Group(x[0], x[1], x[2]) + Symbols(x[3..])
  }

  /** The padding after a last group of `r` bytes. */
  function Padding(r: nat): (p: seq<byte>)
    requires r < 3
    ensures forall c :: c in p ==> c == PAD
  {
    if r == 0 then [] else if r == 1 then [PAD, PAD] else [PAD]
  }

  function Encoded(x: seq<byte>): seq<byte> {
    Symbols(x) + Padding(|x| % 3)
  }

  /** What decoding the symbols `s` yields; a lone symbol in the last group yields nothing. */
  function Decoded(s: seq<byte>): seq<byte> {
    if |s| <= 1 then []
    else if |s| == 2 then [Byte0(s[0], s[1])]
    else if |s| == 3 then [Byte0(s[0], s[1]), Byte1(s[1], s[2])]
    else Trio(s[0], s[1], s[2], s[3]) + Decoded(s[4..])
  }

  lemma {:induction false} SymbolsLength(x: seq<byte>)
    ensures 4 * |x| <= 3 * |Symbols(x)| <= 4 * |x| + 2
  {
    if |x| >= 3 {
      SymbolsLength(x[3..]);
    }
  }

  lemma {:induction false} DecodedLengthOf(s: seq<byte>)
    ensures 4 * |Decoded(s)| <= 3 * |s| < 4 * |Decoded(s)| + 4
  {
    if |s| >= 4 {
      DecodedLengthOf(s[4..]);
    }
  }

  lemma Associate<T>(a: seq<T>, b: seq<T>, c: seq<T>)
    ensures (a + b) + c == a + (b + c)
  {
  }

  /** The symbols of `q` whole groups and then more. */
  lemma {:induction false} SymbolsAppend(q: nat, a: seq<byte>, b: seq<byte>)
    requires |a| == 3 * q
    ensures Symbols(a + b) == Symbols(a) + Symbols(b)
  {
    if a == [] {
      assert a + b == b;
    } else {
      SymbolsAppend(q - 1, a[3..], b);
      assert (a + b)[3..] == a[3..] + b;
      Associate(Group(a[0], a[1], a[2]), Symbols(a[3..]), Symbols(b));
    }
  }

  lemma {:induction false} DecodedAppend(q: nat, a: seq<byte>, b: seq<byte>)
    requires |a| == 4 * q
    ensures Decoded(a + b) == Decoded(a) + Decoded(b)
  {
    if a == [] {
      assert a + b == b;
    } else {
      DecodedAppend(q - 1, a[4..], b);
      assert (a + b)[4..] == a[4..] + b;
      Associate(Trio(a[0], a[1], a[2], a[3]), Decoded(a[4..]), Decoded(b));
    }
  }

  // ---------------------------------------------------------------------------------------
  // The laws of the codec
  // ---------------------------------------------------------------------------------------

  /** Decoding the symbols of a string gives it back. */
  lemma {:induction false} RoundTrip(x: seq<byte>)
    ensures Decoded(Symbols(x)) == x
  {
    if |x| >= 3 {
      GroupsAreInverse(x[0], x[1], x[2]);
      RoundTrip(x[3..]);
      assert Symbols(x)[4..] == Symbols(x[3..]);
    } else if |x| == 2 {
      GroupsAreInverse(x[0], x[1], 0);
    } else if |x| == 1 {
      GroupsAreInverse(x[0], 0, 0);
    }
  }

  /** Every character before the padding is a symbol. */
  lemma {:induction false} SymbolsAreSymbols(x: seq<byte>)
    ensures forall c :: c in Symbols(x) ==> IsSymbol(c) && c != PAD && c != 0
  {
    if |x| >= 3 {
      SymbolsAreSymbols(x[3..]);
      SymbolsAreInverse(First(x[0]));
      SymbolsAreInverse(Second(x[0], x[1]));
      SymbolsAreInverse(Third(x[1], x[2]));
      SymbolsAreInverse(Fourth(x[2]));
    } else if |x| == 2 {
      SymbolsAreInverse(First(x[0]));
      SymbolsAreInverse(Second(x[0], x[1]));
      SymbolsAreInverse(Third(x[1], 0));
    } else if |x| == 1 {
      SymbolsAreInverse(First(x[0]));
      SymbolsAreInverse(Second(x[0], 0));
    }
  }

  /** A text up to its first padding character. */
  function Unpadded(t: seq<byte>): seq<byte> {
    if t == [] || t[0] == PAD then [] else [t[0]] + Unpadded(t[1..])
  }

  lemma {:induction false} UnpaddedPrefix(s: seq<byte>, p: seq<byte>)
    requires PAD !in s && (p == [] || p[0] == PAD)
    ensures Unpadded(s + p) == s
  {
    if s == [] {
      assert s + p == p;
    } else {
      UnpaddedPrefix(s[1..], p);
      assert (s + p)[1..] == s[1..] + p;
    }
  }

  /** Cutting an encoded text at its padding and decoding it gives the input back. */
  lemma TextDecodes(x: seq<byte>)
    ensures Unpadded(Encoded(x)) == Symbols(x) && Decoded(Unpadded(Encoded(x))) == x
  {
    SymbolsAreSymbols(x);
    UnpaddedPrefix(Symbols(x), Padding(|x| % 3));
    RoundTrip(x);
  }

  // ---- The reference, on bits ----

  function EightBits(b: byte): (s: seq<bool>)
    ensures |s| == 8
  {
    [b & 128 != 0, b & 64 != 0, b & 32 != 0, b & 16 != 0, b & 8 != 0, b & 4 != 0, b & 2 != 0, b & 1 != 0]
  }

  function SixBits(v: byte): (s: seq<bool>)
    ensures |s| == 6
  {
    [v & 32 != 0, v & 16 != 0, v & 8 != 0, v & 4 != 0, v & 2 != 0, v & 1 != 0]
  }

  function Flatten(p: seq<seq<bool>>): seq<bool> {
    if p == [] then [] else p[0] + Flatten(p[1..])
  }

  function EightParts(x: seq<byte>): (p: seq<seq<bool>>)
    ensures |p| == |x|
  {
    seq(|x|, i requires 0 <= i < |x| => EightBits(x[i]))
  }

  function SixParts(s: seq<byte>): (p: seq<seq<bool>>)
    ensures |p| == |s|
  {
    seq(|s|, i requires 0 <= i < |s| => SixBits(PrToSix(s[i])))
  }

  /** The input as a string of bits, eight a byte. */
  function BytesSpell(x: seq<byte>): seq<bool> {
    Flatten(EightParts(x))
  }

  /** The text as a string of bits, six a symbol. */
  function SymbolsSpell(s: seq<byte>): seq<bool> {
    Flatten(SixParts(s))
  }

  /** The zeros that complete the last symbol, after a last group of `r` bytes. */
  function Zeros(r: nat): seq<bool>
    requires r < 3
  {
    if r == 0 then [] else if r == 1 then [false, false, false, false] else [false, false]
  }

  lemma FirstBits(a: byte)
    ensures SixBits(First(a)) == EightBits(a)[..6]
  {
  }

  lemma SecondBits(a: byte, b: byte)
    ensures SixBits(Second(a, b)) == EightBits(a)[6..] + EightBits(b)[..4]
  {
    SecondFlags(a, b);
    assert EightBits(a)[6..] == [a & 2 != 0, a & 1 != 0];
    assert EightBits(b)[..4] == [b & 128 != 0, b & 64 != 0, b & 32 != 0, b & 16 != 0];
  }

  lemma SecondFlags(a: byte, b: byte)
    ensures var v := Second(a, b);
      && (v & 32 != 0 <==> a & 2 != 0) && (v & 16 != 0 <==> a & 1 != 0)
      && (v & 8 != 0 <==> b & 128 != 0) && (v & 4 != 0 <==> b & 64 != 0)
      && (v & 2 != 0 <==> b & 32 != 0) && (v & 1 != 0 <==> b & 16 != 0)
  {
  }

  lemma ThirdBits(b: byte, c: byte)
    ensures SixBits(Third(b, c)) == EightBits(b)[4..] + EightBits(c)[..2]
  {
    ThirdFlags(b, c);
    assert EightBits(b)[4..] == [b & 8 != 0, b & 4 != 0, b & 2 != 0, b & 1 != 0];
    assert EightBits(c)[..2] == [c & 128 != 0, c & 64 != 0];
  }

  lemma ThirdFlags(b: byte, c: byte)
    ensures var v := Third(b, c);
      && (v & 32 != 0 <==> b & 8 != 0) && (v & 16 != 0 <==> b & 4 != 0)
      && (v & 8 != 0 <==> b & 2 != 0) && (v & 4 != 0 <==> b & 1 != 0)
      && (v & 2 != 0 <==> c & 128 != 0) && (v & 1 != 0 <==> c & 64 != 0)
  {
  }

  lemma FourthBits(c: byte)
    ensures SixBits(Fourth(c)) == EightBits(c)[2..]
  {
  }

  lemma {:induction false} FlattenAppend(p: seq<seq<bool>>, q: seq<seq<bool>>)
    ensures Flatten(p + q) == Flatten(p) + Flatten(q)
  {
    if p == [] {
      assert p + q == q;
    } else {
      FlattenAppend(p[1..], q);
      assert (p + q)[1..] == p[1..] + q;
      Associate(p[0], Flatten(p[1..]), Flatten(q));
    }
  }

  lemma FlattenOne(p: seq<bool>)
    ensures Flatten([p]) == p
  {
    assert Flatten([]) == [];
  }

  lemma FlattenTwo(p: seq<bool>, q: seq<bool>)
    ensures Flatten([p, q]) == p + q
  {
    FlattenOne(q);
    assert [p, q][1..] == [q];
  }

  lemma FlattenThree(p: seq<bool>, q: seq<bool>, r: seq<bool>)
    ensures Flatten([p, q, r]) == p + q + r
  {
    FlattenTwo(q, r);
    assert [p, q, r][1..] == [q, r];
  }

  lemma FlattenFour(p: seq<bool>, q: seq<bool>, r: seq<bool>, t: seq<bool>)
    ensures Flatten([p, q, r, t]) == p + q + r + t
  {
    FlattenThree(q, r, t);
    assert [p, q, r, t][1..] == [q, r, t];
  }

  lemma SpellAppend(a: seq<byte>, b: seq<byte>)
    ensures SymbolsSpell(a + b) == SymbolsSpell(a) + SymbolsSpell(b)
  {
    assert SixParts(a + b) == SixParts(a) + SixParts(b);
    FlattenAppend(SixParts(a), SixParts(b));
  }

  lemma BytesSpellAppend(a: seq<byte>, b: seq<byte>)
    ensures BytesSpell(a + b) == BytesSpell(a) + BytesSpell(b)
  {
    assert EightParts(a + b) == EightParts(a) + EightParts(b);
    FlattenAppend(EightParts(a), EightParts(b));
  }

  /** Three octets cut into four sextets. */
  lemma Sextets(p: seq<bool>, q: seq<bool>, r: seq<bool>)
    requires |p| == 8 && |q| == 8 && |r| == 8
    ensures p[..6] + (p[6..] + q[..4]) + (q[4..] + r[..2]) + r[2..] == p + q + r
  {
  }

  /** The sextets of a group are the octets of its bytes, cut differently. */
  lemma GroupParts(a: byte, b: byte, c: byte)
    ensures SixParts(Group(a, b, c)) == [EightBits(a)[..6], EightBits(a)[6..] + EightBits(b)[..4],
                                         EightBits(b)[4..] + EightBits(c)[..2], EightBits(c)[2..]]
  {
    SymbolsAreInverse(First(a));
    SymbolsAreInverse(Second(a, b));
    SymbolsAreInverse(Third(b, c));
    SymbolsAreInverse(Fourth(c));
    FirstBits(a);
    SecondBits(a, b);
    ThirdBits(b, c);
    FourthBits(c);
  }

  lemma GroupSpells(x: seq<byte>)
    requires |x| == 3
    ensures SymbolsSpell(Group(x[0], x[1], x[2])) == BytesSpell(x)
  {
    var p, q, r := EightBits(x[0]), EightBits(x[1]), EightBits(x[2]);
    GroupParts(x[0], x[1], x[2]);
    FlattenFour(p[..6], p[6..] + q[..4], q[4..] + r[..2], r[2..]);
    Sextets(p, q, r);
    assert EightParts(x) == [p, q, r];
    FlattenThree(p, q, r);
  }

  /** Two octets cut into three sextets, the last one completed with zeros. */
  lemma TwoOctets(p: seq<bool>, q: seq<bool>, z: seq<bool>)
    requires |p| == 8 && |q| == 8
    ensures p[..6] + (p[6..] + q[..4]) + (q[4..] + z) == p + q + z
  {
  }

  lemma ZeroBits()
    ensures EightBits(0)[..2] == Zeros(2) && EightBits(0)[..4] == Zeros(1)
  {
  }

  lemma PartsOfPrefix(s: seq<byte>, n: nat)
    requires n <= |s|
    ensures SixParts(s[..n]) == SixParts(s)[..n]
  {
  }

  lemma TwoParts(s: seq<byte>, p: seq<bool>, q: seq<bool>, z: seq<bool>)
    requires |s| == 4 && |p| == 8 && |q| == 8 && SixParts(s)[..3] == [p[..6], p[6..] + q[..4], q[4..] + z]
    ensures SymbolsSpell(s[..3]) == p + q + z
  {
    PartsOfPrefix(s, 3);
    FlattenThree(p[..6], p[6..] + q[..4], q[4..] + z);
    TwoOctets(p, q, z);
  }

  lemma OnePart(s: seq<byte>, p: seq<bool>, z: seq<bool>)
    requires |s| == 4 && |p| == 8 && SixParts(s)[..2] == [p[..6], p[6..] + z]
    ensures SymbolsSpell(s[..2]) == p + z
  {
    PartsOfPrefix(s, 2);
    FlattenTwo(p[..6], p[6..] + z);
  }

  lemma TwoSpell(x: seq<byte>)
    requires |x| == 2
    ensures SymbolsSpell(Group(x[0], x[1], 0)[..3]) == BytesSpell(x) + Zeros(2)
  {
    var p, q := EightBits(x[0]), EightBits(x[1]);
    GroupParts(x[0], x[1], 0);
    ZeroBits();
    TwoParts(Group(x[0], x[1], 0), p, q, Zeros(2));
    assert EightParts(x) == [p, q];
    FlattenTwo(p, q);
  }

  lemma OneSpells(x: seq<byte>)
    requires |x| == 1
    ensures SymbolsSpell(Group(x[0], 0, 0)[..2]) == BytesSpell(x) + Zeros(1)
  {
    var p := EightBits(x[0]);
    GroupParts(x[0], 0, 0);
    ZeroBits();
    OnePart(Group(x[0], 0, 0), p, Zeros(1));
    assert EightParts(x) == [p];
    FlattenOne(p);
  }

  lemma SpellJoin(s: seq<byte>, s': seq<byte>, x: seq<byte>, x': seq<byte>, z: seq<bool>)
    requires SymbolsSpell(s) == BytesSpell(x) && SymbolsSpell(s') == BytesSpell(x') + z
    ensures SymbolsSpell(s + s') == BytesSpell(x + x') + z
  {
    SpellAppend(s, s');
    BytesSpellAppend(x, x');
  }

  lemma SymbolsHead(x: seq<byte>, t: seq<byte>)
    requires |x| >= 3 && t == Symbols(x[3..])
    ensures Symbols(x) == Group(x[0], x[1], x[2]) + t
  {
  }

  lemma GroupThenSpells(x: seq<byte>, t: seq<byte>, rest: seq<byte>, z: seq<bool>)
    requires |x| == 3 && SymbolsSpell(t) == BytesSpell(rest) + z
    ensures SymbolsSpell(Group(x[0], x[1], x[2]) + t) == BytesSpell(x + rest) + z
  {
    GroupSpells(x);
    SpellJoin(Group(x[0], x[1], x[2]), t, x, rest, z);
  }

  lemma SameResidue(n: nat)
    requires n >= 3
    ensures (n - 3) % 3 == n % 3
  {
  }

  /** The symbols, six bits each, spell the input, eight bits each, and then zeros. */
  lemma {:induction false} EncodingSpellsInput(x: seq<byte>)
    ensures SymbolsSpell(Symbols(x)) == BytesSpell(x) + Zeros(|x| % 3)
  {
    if |x| >= 3 {
      EncodingSpellsInput(x[3..]);
      SameResidue(|x|);
      GroupThenSpells(x[..3], Symbols(x[3..]), x[3..], Zeros(|x| % 3));
      SymbolsHead(x, Symbols(x[3..]));
      assert x == x[..3] + x[3..];
    } else if |x| == 2 {
      TwoSpell(x);
    } else if |x| == 1 {
      OneSpells(x);
    } else {
      assert SixParts([]) == [] && EightParts([]) == [];
    }
  }

  // ---- Padding and canonical texts ----

  lemma DecodedFour(s: byte, t: byte, u: byte, w: byte)
    ensures Decoded([s, t, u, w]) == [Byte0(s, t), Byte1(t, u), Byte2(u, w)]
  {
    assert [s, t, u, w][4..] == [];
  }

  lemma FrontOfFour(s: byte, t: byte, u: byte, w: byte, a: byte, b: byte)
    requires Byte0(s, t) == a
    ensures [a] <= Decoded([s, t, u, w])
    ensures Byte1(t, u) == b ==> [a, b] <= Decoded([s, t, u, w])
  {
    DecodedFour(s, t, u, w);
  }

  lemma SymbolsOfTwo(a: byte, b: byte)
    ensures Symbols([a, b]) == [Symbol(First(a)), Symbol(Second(a, b)), Symbol(Third(b, 0))]
  {
  }

  lemma SymbolsOfThree(a: byte, b: byte, c: byte)
    ensures Symbols([a, b, c]) == [Symbol(First(a)), Symbol(Second(a, b)), Symbol(Third(b, c)), Symbol(Fourth(c))]
  {
    assert [a, b, c][3..] == [];
  }

  lemma GroupBytes(a: byte, b: byte, c: byte)
    ensures var g := Group(a, b, c);
            Byte0(g[0], g[1]) == a && Byte1(g[1], g[2]) == b && Byte2(g[2], g[3]) == c
  {
    GroupsAreInverse(a, b, c);
  }

  lemma FrontKept(g: seq<byte>, a: byte, b: byte)
    requires |g| == 4 && Byte0(g[0], g[1]) == a && Byte1(g[1], g[2]) == b
    ensures [a] <= Decoded(g[..2] + [PAD, PAD]) && [a, b] <= Decoded(g[..3] + [PAD])
  {
    assert g[..2] + [PAD, PAD] == [g[0], g[1], PAD, PAD] && g[..3] + [PAD] == [g[0], g[1], g[2], PAD];
    FrontOfFour(g[0], g[1], PAD, PAD, a, b);
    FrontOfFour(g[0], g[1], g[2], PAD, a, b);
  }

  lemma LastTwoKept(b: seq<byte>, g: seq<byte>)
    requires |b| == 2 && |g| == 4 && Byte0(g[0], g[1]) == b[0] && Byte1(g[1], g[2]) == b[1]
    ensures b <= Decoded(g[..3] + [PAD])
  {
    assert b == [b[0], b[1]];
    FrontKept(g, b[0], b[1]);
  }

  lemma LastOneKept(b: seq<byte>, g: seq<byte>)
    requires |b| == 1 && |g| == 4 && Byte0(g[0], g[1]) == b[0]
    ensures b <= Decoded(g[..2] + [PAD, PAD])
  {
    assert b == [b[0]];
    FrontKept(g, b[0], Byte1(g[1], g[2]));
  }

  lemma LastGroupKept(b: seq<byte>)
    requires |b| < 3
    ensures b <= Decoded(Symbols(b) + Padding(|b|))
  {
    if |b| == 2 {
      GroupBytes(b[0], b[1], 0);
      LastTwoKept(b, Group(b[0], b[1], 0));
    } else if |b| == 1 {
      GroupBytes(b[0], 0, 0);
      LastOneKept(b, Group(b[0], 0, 0));
    }
  }

  lemma Residue(q: nat, r: nat)
    requires r < 3
    ensures (3 * q + r) % 3 == r
  {
  }

  lemma FrontIsKept(a: seq<byte>, b: seq<byte>, c: seq<byte>)
    requires b <= c
    ensures a + b <= a + c
  {
  }

  /** Decoding whole groups of symbols `s` and a last group `t` keeps what both decode to. */
  lemma GroupsKeepInput(q: nat, a: seq<byte>, b: seq<byte>, s: seq<byte>, t: seq<byte>)
    requires |s| == 4 * q && Decoded(s) == a && b <= Decoded(t)
    ensures a + b <= Decoded(s + t)
  {
    DecodedAppend(q, s, t);
    FrontIsKept(a, b, Decoded(t));
  }

  /** The encoded text is whole groups and a last one. */
  lemma EncodedInGroups(q: nat, a: seq<byte>, b: seq<byte>)
    requires |a| == 3 * q && |b| < 3
    ensures Encoded(a + b) == Symbols(a) + (Symbols(b) + Padding(|b|))
  {
    Residue(q, |b|);
    SymbolsAppend(q, a, b);
    Associate(Symbols(a), Symbols(b), Padding(|b|));
  }

  /** Decoding the padded text keeps the input at the front. */
  lemma PaddedKeepsInput(q: nat, a: seq<byte>, b: seq<byte>)
    requires |a| == 3 * q && |b| < 3
    ensures a + b <= Decoded(Encoded(a + b))
  {
    EncodedInGroups(q, a, b);
    SymbolsLength(a);
    RoundTrip(a);
    LastGroupKept(b);
    GroupsKeepInput(q, a, b, Symbols(a), Symbols(b) + Padding(|b|));
  }

  /** The encoded length is that of the whole groups. */
  lemma EncodedLength(x: seq<byte>)
    ensures |Encoded(x)| == (|x| + 2) / 3 * 4
  {
    SymbolsLength(x);
    GroupCount(|x| / 3, |x| % 3);
  }

  lemma FrontOfText(x: seq<byte>)
    ensures x <= Decoded(Encoded(x))
  {
    var q := |x| / 3;
    assert x == x[..3 * q] + x[3 * q..];
    PaddedKeepsInput(q, x[..3 * q], x[3 * q..]);
  }

  /** The decoder computes three bytes for each group of the text. */
  lemma WholeGroups(n: nat, m: nat)
    requires 4 * m <= 3 * ((n + 2) / 3 * 4) < 4 * m + 4
    ensures m == n <==> n % 3 == 0
  {
    assert m == (n + 2) / 3 * 3;
  }

  /** Decoding the padded text keeps the input at the front, but returns its exact length only if
      there is no padding. */
  lemma PaddingMustBeCut(x: seq<byte>)
    ensures x <= Decoded(Encoded(x))
    ensures |Decoded(Encoded(x))| == |x| <==> |x| % 3 == 0
  {
    FrontOfText(x);
    EncodedLength(x);
    DecodedLengthOf(Encoded(x));
    WholeGroups(|x|, |Decoded(Encoded(x))|);
  }

  /** A text that an encoder can have made: no lone symbol, and no stray bits in the last one. */
  predicate Canonical(s: seq<byte>) {
    && |s| % 4 != 1
    && (|s| % 4 == 2 ==> PrToSix(s[|s| - 1]) & 15 == 0)
    && (|s| % 4 == 3 ==> PrToSix(s[|s| - 1]) & 3 == 0)
  }

  /** Encoding what was decoded gives the symbols back exactly if they are canonical. */
  lemma {:induction false} ReEncoding(s: seq<byte>)
    requires forall c :: c in s ==> IsSymbol(c)
    ensures Symbols(Decoded(s)) == s <==> Canonical(s)
  {
    if |s| >= 4 {
      ReEncoding(s[4..]);
      ReEncodingOfMore(s);
    } else if |s| == 3 {
      ThreeReEncoded(s);
    } else if |s| == 2 {
      TwoReEncoded(s);
    } else {
      LoneIsLost(s);
    }
  }

  lemma ReEncodingOfMore(s: seq<byte>)
    requires |s| >= 4 && forall c :: c in s ==> IsSymbol(c)
    requires Symbols(Decoded(s[4..])) == s[4..] <==> Canonical(s[4..])
    ensures Symbols(Decoded(s)) == s <==> Canonical(s)
  {
    GroupThenRest(s);
    CanonicalRest(s);
    SamePrefix(s[..4], Symbols(Decoded(s[4..])), s[4..]);
    assert s == s[..4] + s[4..];
  }

  lemma ReEncodingOfThree(a: byte, b: byte, c: byte)
    requires IsSymbol(a) && IsSymbol(b) && IsSymbol(c)
    ensures Symbols(Decoded([a, b, c])) == [a, b, Symbol(Third(Byte1(b, c), 0))]
  {
    FirstReEncoded(a, b);
    SecondReEncoded(a, b, c);
    assert Decoded([a, b, c]) == [Byte0(a, b), Byte1(b, c)];
    SymbolsOfTwo(Byte0(a, b), Byte1(b, c));
  }

  lemma ReEncodingOfTwo(a: byte, b: byte)
    requires IsSymbol(a) && IsSymbol(b)
    ensures Symbols(Decoded([a, b])) == [a, Symbol(Second(Byte0(a, b), 0))]
  {
    FirstReEncoded(a, b);
    assert Decoded([a, b]) == [Byte0(a, b)];
  }

  lemma CanonicalOfThree(a: byte, b: byte, c: byte)
    ensures Canonical([a, b, c]) <==> PrToSix(c) & 3 == 0
  {
  }

  lemma CanonicalOfTwo(a: byte, b: byte)
    ensures Canonical([a, b]) <==> PrToSix(b) & 15 == 0
  {
  }

  lemma ThreeReEncoded(s: seq<byte>)
    requires |s| == 3 && forall c :: c in s ==> IsSymbol(c)
    ensures Symbols(Decoded(s)) == s <==> Canonical(s)
  {
    var a, b, c := s[0], s[1], s[2];
    assert s == [a, b, c];
    ReEncodingOfThree(a, b, c);
    ThirdIsCanonical(b, c);
    CanonicalOfThree(a, b, c);
  }

  lemma TwoReEncoded(s: seq<byte>)
    requires |s| == 2 && forall c :: c in s ==> IsSymbol(c)
    ensures Symbols(Decoded(s)) == s <==> Canonical(s)
  {
    var a, b := s[0], s[1];
    assert s == [a, b];
    ReEncodingOfTwo(a, b);
    SecondIsCanonical(a, b);
    CanonicalOfTwo(a, b);
  }

  lemma LoneIsLost(s: seq<byte>)
    requires |s| <= 1
    ensures Symbols(Decoded(s)) == s <==> Canonical(s)
  {
    assert Decoded(s) == [] && Symbols([]) == [];
  }

  lemma SamePrefix(p: seq<byte>, a: seq<byte>, b: seq<byte>)
    ensures p + a == p + b <==> a == b
  {
    assert (p + a)[|p|..] == a && (p + b)[|p|..] == b;
  }

  lemma CanonicalRest(s: seq<byte>)
    requires |s| >= 4
    ensures Canonical(s) <==> Canonical(s[4..])
  {
    assert |s| > 4 ==> s[4..][|s| - 5] == s[|s| - 1];
  }

  lemma GroupBack(g: seq<byte>)
    requires |g| == 4 && forall c :: c in g ==> IsSymbol(c)
    ensures |Decoded(g)| == 3 && Symbols(Decoded(g)) == g
  {
    var s, t, u, w := g[0], g[1], g[2], g[3];
    GroupReEncoded(s, t, u, w);
    SymbolsOfThree(Byte0(s, t), Byte1(t, u), Byte2(u, w));
    assert g == [s, t, u, w];
    DecodedFour(s, t, u, w);
  }

  lemma GroupThenRest(s: seq<byte>)
    requires |s| >= 4 && forall c :: c in s ==> IsSymbol(c)
    ensures Symbols(Decoded(s)) == s[..4] + Symbols(Decoded(s[4..]))
  {
    var g, rest := s[..4], s[4..];
    assert s == g + rest;
    DecodedAppend(1, g, rest);
    GroupBack(g);
    SymbolsAppend(1, Decoded(g), Decoded(rest));
  }

  lemma FirstMeets(s: byte, t: byte)
    requires s < 64 && t < 64
    ensures First((s << 2) | (t >> 4)) == s
  {
  }

  lemma SecondMeets(s: byte, t: byte, u: byte)
    requires s < 64 && t < 64 && u < 64
    ensures Second((s << 2) | (t >> 4), (t << 4) | (u >> 2)) == t
  {
  }

  lemma ThirdMeets(t: byte, u: byte, w: byte)
    requires t < 64 && u < 64 && w < 64
    ensures Third((t << 4) | (u >> 2), (u << 6) | w) == u
  {
  }

  lemma FourthMeets(u: byte, w: byte)
    requires u < 64 && w < 64
    ensures Fourth((u << 6) | w) == w
  {
  }

  lemma FirstReEncoded(s: byte, t: byte)
    requires IsSymbol(s) && IsSymbol(t)
    ensures Symbol(First(Byte0(s, t))) == s
  {
    ValuesAreInverse(s);
    ValuesAreInverse(t);
    FirstMeets(PrToSix(s), PrToSix(t));
  }

  lemma SecondReEncoded(s: byte, t: byte, u: byte)
    requires IsSymbol(s) && IsSymbol(t) && IsSymbol(u)
    ensures Symbol(Second(Byte0(s, t), Byte1(t, u))) == t
  {
    ValuesAreInverse(s);
    ValuesAreInverse(t);
    ValuesAreInverse(u);
    SecondMeets(PrToSix(s), PrToSix(t), PrToSix(u));
  }

  lemma ThirdReEncoded(t: byte, u: byte, w: byte)
    requires IsSymbol(t) && IsSymbol(u) && IsSymbol(w)
    ensures Symbol(Third(Byte1(t, u), Byte2(u, w))) == u
  {
    ValuesAreInverse(t);
    ValuesAreInverse(u);
    ValuesAreInverse(w);
    ThirdMeets(PrToSix(t), PrToSix(u), PrToSix(w));
  }

  lemma FourthReEncoded(u: byte, w: byte)
    requires IsSymbol(u) && IsSymbol(w)
    ensures Symbol(Fourth(Byte2(u, w))) == w
  {
    ValuesAreInverse(u);
    ValuesAreInverse(w);
    FourthMeets(PrToSix(u), PrToSix(w));
  }

  lemma GroupReEncoded(s: byte, t: byte, u: byte, w: byte)
    requires IsSymbol(s) && IsSymbol(t) && IsSymbol(u) && IsSymbol(w)
    ensures Symbol(First(Byte0(s, t))) == s && Symbol(Second(Byte0(s, t), Byte1(t, u))) == t
    ensures Symbol(Third(Byte1(t, u), Byte2(u, w))) == u && Symbol(Fourth(Byte2(u, w))) == w
  {
    FirstReEncoded(s, t);
    SecondReEncoded(s, t, u);
    ThirdReEncoded(t, u, w);
    FourthReEncoded(u, w);
  }

  lemma ThirdIsCanonical(t: byte, u: byte)
    requires IsSymbol(t) && IsSymbol(u)
    ensures Symbol(Third(Byte1(t, u), 0)) == u <==> PrToSix(u) & 3 == 0
  {
    ValuesAreInverse(t);
    ValuesAreInverse(u);
    SymbolsAreInverse(Third(Byte1(t, u), 0));
    StrayTwo(PrToSix(t), PrToSix(u));
  }

  lemma StrayTwo(t: byte, u: byte)
    requires t < 64 && u < 64
    ensures Third((t << 4) | (u >> 2), 0) == u <==> u & 3 == 0
  {
  }

  lemma SecondIsCanonical(s: byte, t: byte)
    requires IsSymbol(s) && IsSymbol(t)
    ensures Symbol(Second(Byte0(s, t), 0)) == t <==> PrToSix(t) & 15 == 0
  {
    ValuesAreInverse(s);
    ValuesAreInverse(t);
    SymbolsAreInverse(Second(Byte0(s, t), 0));
    StrayFour(PrToSix(s), PrToSix(t));
  }

  lemma StrayFour(s: byte, t: byte)
    requires s < 64 && t < 64
    ensures Second((s << 2) | (t >> 4), 0) == t <==> t & 15 == 0
  {
  }

  // ---------------------------------------------------------------------------------------
  // The encoder
  // ---------------------------------------------------------------------------------------

  ghost predicate Sixes(v: seq<byte>) {
    forall k :: 0 <= k < |v| ==> v[k] < 64
  }

  /** The symbols for a list of values. */
  ghost function Lookup(v: seq<byte>): (s: seq<byte>)
    requires Sixes(v)
    ensures |s| == |v|
  {
    if v == [] then [] else Lookup(v[..|v| - 1]) + [Symbol(v[|v| - 1])]
  }

  /** The four values of a group of three bytes. */
  ghost function Values(a: byte, b: byte, c: byte): (v: seq<byte>)
    ensures |v| == 4 && Sixes(v)
  {
    [First(a), Second(a, b), Third(b, c), Fourth(c)]
  }

  lemma LookupFour(v: seq<byte>)
    requires |v| == 4 && Sixes(v)
    ensures Lookup(v[..2]) == [Symbol(v[0]), Symbol(v[1])]
    ensures Lookup(v[..3]) == [Symbol(v[0]), Symbol(v[1]), Symbol(v[2])]
    ensures Lookup(v[..4]) == [Symbol(v[0]), Symbol(v[1]), Symbol(v[2]), Symbol(v[3])]
  {
    assert v[..1][..0] == [] && v[..2][..1] == v[..1] && v[..3][..2] == v[..2] && v[..4][..3] == v[..3];
  }

  /** A group's values, looked up, are its symbols; the last group gives one symbol more than it has bytes. */
  lemma SymbolsOfGroup(a: byte, b: byte, c: byte)
    ensures Lookup(Values(a, b, c)[..4]) == Symbols([a, b, c])
    ensures Lookup(Values(a, b, 0)[..3]) == Symbols([a, b])
    ensures Lookup(Values(a, 0, 0)[..2]) == Symbols([a])
  {
    LookupFour(Values(a, b, c));
    LookupFour(Values(a, b, 0));
    LookupFour(Values(a, 0, 0));
    SymbolsOfThree(a, b, c);
    SymbolsOfTwo(a, b);
  }

  /** Cuts three bytes into four values. */
  method Split(in3: array<byte>, out4: array<byte>)
    requires in3.Length == 3 && out4.Length == 4 && in3 != out4
    modifies out4
    ensures out4[..] == Values(in3[0], in3[1], in3[2])
  {
    out4[0] := (in3[0] & 0xfc) >> 2;
    out4[1] := ((in3[0] & 0x03) << 4) + ((in3[1] & 0xf0) >> 4);
    out4[2] := ((in3[1] & 0x0f) << 2) + ((in3[2] & 0xc0) >> 6);
    out4[3] := in3[2] & 0x3f;
  }

  /** Writes the symbols for the first `count` values. */
  method Emit(out4: array<byte>, count: nat, outbuf: array<byte>, start: nat) returns (outLen: nat)
    requires out4 != outbuf && count <= out4.Length && Sixes(out4[..]) && start + count <= outbuf.Length
    modifies outbuf
    ensures outLen == start + count
    ensures outbuf[start..outLen] == Lookup(out4[..count])
    ensures forall k :: 0 <= k < start || outLen <= k < outbuf.Length ==> outbuf[k] == old(outbuf[k])
  {
    outLen := start;
    var j := 0;
    while j < count
      invariant 0 <= j <= count && outLen == start + j
      invariant outbuf[start..outLen] == Lookup(out4[..j])
      invariant forall k :: 0 <= k < start || outLen <= k < outbuf.Length ==> outbuf[k] == old(outbuf[k])
    {
      assert out4[..j + 1][..j] == out4[..j];
      assert out4[..][j] == out4[j];
      outbuf[outLen] := Symbol(out4[j]);
      outLen := outLen + 1;
      j := j + 1;
    }
  }

  /** Encodes the three bytes in `in3`. */
  method EncodeGroup(in3: array<byte>, out4: array<byte>, outbuf: array<byte>, start: nat) returns (outLen: nat)
    requires in3.Length == 3 && out4.Length == 4 && in3 != outbuf && out4 != in3 && out4 != outbuf
    requires start + 4 <= outbuf.Length
    modifies outbuf, out4
    ensures outLen == start + 4 && outbuf[start..outLen] == Symbols(in3[..])
    ensures forall k :: 0 <= k < start || outLen <= k < outbuf.Length ==> outbuf[k] == old(outbuf[k])
  {
    Split(in3, out4);
    outLen := Emit(out4, 4, outbuf, start);
    SymbolsOfGroup(in3[0], in3[1], in3[2]);
    assert in3[..] == [in3[0], in3[1], in3[2]];
  }

  lemma NextGroup(x: seq<byte>, q: nat, done: seq<byte>, next: seq<byte>)
    requires 3 * q + 3 <= |x|
    requires done == Symbols(x[..3 * q]) && next == Symbols(x[3 * q..3 * q + 3])
    ensures done + next == Symbols(x[..3 * q + 3])
  {
    assert x[..3 * q + 3] == x[..3 * q] + x[3 * q..3 * q + 3];
    SymbolsAppend(q, x[..3 * q], x[3 * q..3 * q + 3]);
  }

  /** Encodes group `q` of the input `x`, the groups before it being done. */
  method EncodeNext(in3: array<byte>, out4: array<byte>, outbuf: array<byte>, start: nat,
                    ghost x: seq<byte>, ghost q: nat)
      returns (outLen: nat)
    requires in3.Length == 3 && out4.Length == 4 && in3 != outbuf && out4 != in3 && out4 != outbuf
    requires 3 * q + 3 <= |x| && in3[..] == x[3 * q..3 * q + 3]
    requires start + 4 <= outbuf.Length && outbuf[..start] == Symbols(x[..3 * q])
    modifies outbuf, out4
    ensures outLen == start + 4 && outbuf[..outLen] == Symbols(x[..3 * q + 3])
    ensures forall k :: outLen <= k < outbuf.Length ==> outbuf[k] == old(outbuf[k])
  {
    ghost var done := outbuf[..start];
    outLen := EncodeGroup(in3, out4, outbuf, start);
    NextGroup(x, q, done, outbuf[start..outLen]);
    assert outbuf[..outLen] == done + outbuf[start..outLen];
  }

  /** Zeros in the place of the bytes that the last group does not have. */
  method FillWithZeros(in3: array<byte>, i: nat)
    requires in3.Length == 3 && i <= 3
    modifies in3
    ensures in3[..i] == old(in3[..i]) && forall k :: i <= k < 3 ==> in3[k] == 0
  {
    var j := i;
    while j < 3
      invariant i <= j <= 3 && in3[..i] == old(in3[..i])
      invariant forall k :: i <= k < j ==> in3[k] == 0
    {
      in3[j] := 0;
      j := j + 1;
    }
  }

  /** The bytes left over: their symbols, completed with padding. */
  method EncodeLast(in3: array<byte>, i: nat, out4: array<byte>, outbuf: array<byte>, start: nat) returns (outLen: nat)
    requires in3.Length == 3 && out4.Length == 4 && in3 != outbuf && out4 != in3 && out4 != outbuf
    requires 1 <= i <= 2 && start + 4 <= outbuf.Length
    modifies outbuf, out4, in3
    ensures outLen == start + 4 && outbuf[start..outLen] == Symbols(old(in3[..i])) + Padding(i)
    ensures forall k :: 0 <= k < start || outLen <= k < outbuf.Length ==> outbuf[k] == old(outbuf[k])
  {
    FillWithZeros(in3, i);
    Split(in3, out4);
    outLen := Emit(out4, i + 1, outbuf, start);
    SymbolsOfGroup(in3[0], in3[1], in3[2]);
    assert in3[..1] == [in3[0]] && in3[..2] == [in3[0], in3[1]];
    outLen := Pad(i, outbuf, outLen);
    assert outbuf[start..outLen] == outbuf[start..start + i + 1] + outbuf[start + i + 1..outLen];
  }

  method Pad(i: nat, outbuf: array<byte>, start: nat) returns (outLen: nat)
    requires 1 <= i <= 2 && start + 3 - i <= outbuf.Length
    modifies outbuf
    ensures outLen == start + 3 - i && outbuf[start..outLen] == Padding(i)
    ensures forall k :: 0 <= k < start || outLen <= k < outbuf.Length ==> outbuf[k] == old(outbuf[k])
  {
    outLen := start;
    var k := i;
    while k < 3
      invariant i <= k <= 3 && outLen == start + k - i
      invariant forall m :: start <= m < outLen ==> outbuf[m] == PAD
      invariant forall k :: 0 <= k < start || outLen <= k < outbuf.Length ==> outbuf[k] == old(outbuf[k])
    {
      outbuf[outLen] := PAD;
      outLen := outLen + 1;
      k := k + 1;
    }
  }

  lemma LastGroup(x: seq<byte>, q: nat, done: seq<byte>, last: seq<byte>)
    requires 3 * q <= |x| && x[..3 * q] + last == x && |last| < 3
    requires done == Symbols(x[..3 * q])
    ensures done + (Symbols(last) + Padding(|last|)) == Encoded(x)
  {
    SymbolsAppend(q, x[..3 * q], last);
    Residue(q, |last|);
    Associate(done, Symbols(last), Padding(|last|));
  }

  /** Encodes the whole groups; `i` bytes are left over in `in3`. */
  method EncodeGroups(bytes: array<byte>, inLen: nat, in3: array<byte>, out4: array<byte>, outbuf: array<byte>)
      returns (i: nat, outLen: nat, ghost q: nat)
    requires inLen <= bytes.Length && in3.Length == 3 && out4.Length == 4
    requires bytes != outbuf && in3 != outbuf && in3 != bytes && out4 != bytes && out4 != in3 && out4 != outbuf
    requires 4 * inLen <= 3 * outbuf.Length
    modifies outbuf, in3, out4
    ensures i < 3 && inLen == 3 * q + i && outLen == 4 * q <= outbuf.Length
    ensures outbuf[..outLen] == Symbols(bytes[..3 * q])
    ensures forall k :: outLen <= k < outbuf.Length ==> outbuf[k] == old(outbuf[k])
    ensures in3[..i] == bytes[3 * q..inLen]
  {
    ghost var x := bytes[..inLen];
    i, outLen, q := 0, 0, 0;
    var at := 0;
    while at < inLen
      modifies outbuf, in3, out4
      invariant at <= inLen && i < 3 && at == 3 * q + i && outLen == 4 * q
      invariant outbuf[..outLen] == Symbols(x[..3 * q])
      invariant forall k :: outLen <= k < outbuf.Length ==> outbuf[k] == old(outbuf[k])
      invariant in3[..i] == x[3 * q..at]
    {
      in3[i] := bytes[at];
      i, at := i + 1, at + 1;
      assert in3[..i - 1] == x[3 * q..at - 1] && in3[..i] == in3[..i - 1] + [x[at - 1]];
      if i == 3 {
        assert in3[..] == in3[..3];
        outLen := EncodeNext(in3, out4, outbuf, outLen, x, q);
        i, q := 0, q + 1;
      }
    }
    assert x[..3 * q] == bytes[..3 * q] && x[3 * q..at] == bytes[3 * q..inLen];
  }

  lemma GroupCount(q: nat, i: nat)
    requires i < 3
    ensures (3 * q + i + 2) / 3 == if i == 0 then q else q + 1
  {
  }

  /** Encodes `inLen` bytes into `outbuf`, and ends the text with a zero. */
  method Encode(bytes: array<byte>, inLen: nat, outbuf: array<byte>) returns (outLen: nat)
    requires inLen <= bytes.Length && bytes != outbuf && (inLen + 2) / 3 * 4 < outbuf.Length
    modifies outbuf
    ensures outLen == (inLen + 2) / 3 * 4 && outbuf[..outLen] == Encoded(bytes[..inLen])
    ensures outbuf[outLen] == 0 && forall k :: outLen < k < outbuf.Length ==> outbuf[k] == old(outbuf[k])
  {
    ghost var x := bytes[..inLen];
    var in3, out4 := new byte[3], new byte[4];
    ghost var q;
    var i;
    i, outLen, q := EncodeGroups(bytes, inLen, in3, out4, outbuf);
    assert x[..3 * q] == bytes[..3 * q] && x[..3 * q] + in3[..i] == x;
    GroupCount(q, i);
    if i > 0 {
      ghost var done, last := outbuf[..outLen], in3[..i];
      outLen := EncodeLast(in3, i, out4, outbuf, outLen);
      assert outbuf[..outLen] == done + (Symbols(last) + Padding(i));
      LastGroup(x, q, done, last);
    }
    outbuf[outLen] := 0;
  }

  // ---------------------------------------------------------------------------------------
  // The decoder
  // ---------------------------------------------------------------------------------------

  /** Decodes four symbols at `bufin` to `bufout`, which is not beyond it. */
  method DecodeGroup(buffer: array<byte>, bufin: nat, bufout: nat, ghost g: seq<byte>)
    requires bufout <= bufin && bufin + 4 <= buffer.Length && |g| == 4
    requires forall k :: 0 <= k < 4 ==> buffer[bufin + k] == g[k]
    modifies buffer
    ensures forall k :: 0 <= k < bufout || bufout + 3 <= k < buffer.Length ==> buffer[k] == old(buffer[k])
    ensures buffer[bufout..bufout + 3] == [Byte0(g[0], g[1]), Byte1(g[1], g[2]), Byte2(g[2], g[3])]
  {
    assert buffer[bufin] == g[0] && buffer[bufin + 1] == g[1] && buffer[bufin + 2] == g[2] && buffer[bufin + 3] == g[3];
    buffer[bufout] := (PrToSix(buffer[bufin]) << 2) | (PrToSix(buffer[bufin + 1]) >> 4);
    buffer[bufout + 1] := (PrToSix(buffer[bufin + 1]) << 4) | (PrToSix(buffer[bufin + 2]) >> 2);
    buffer[bufout + 2] := (PrToSix(buffer[bufin + 2]) << 6) | PrToSix(buffer[bufin + 3]);
  }

  lemma DecodedGroup(g: seq<byte>)
    requires |g| == 4
    ensures Decoded(g) == [Byte0(g[0], g[1]), Byte1(g[1], g[2]), Byte2(g[2], g[3])]
  {
    assert g == [g[0], g[1], g[2], g[3]];
    DecodedFour(g[0], g[1], g[2], g[3]);
  }

  lemma NextDecoded(s: seq<byte>, j: nat, done: seq<byte>, next: seq<byte>)
    requires 4 * j + 4 <= |s|
    requires done == Decoded(s[..4 * j]) && next == Decoded(s[4 * j..4 * j + 4])
    ensures done + next == Decoded(s[..4 * j + 4])
  {
    assert s[..4 * j + 4] == s[..4 * j] + s[4 * j..4 * j + 4];
    DecodedAppend(j, s[..4 * j], s[4 * j..4 * j + 4]);
  }

  /** Decodes group `j` of the text `s`, the groups before it being done. */
  method DecodeNext(buffer: array<byte>, bufin: nat, bufout: nat, ghost j: nat, ghost s: seq<byte>)
    requires bufout <= bufin == 4 * j && bufin + 4 <= buffer.Length == |s|
    requires buffer[..bufout] == Decoded(s[..bufin]) && forall k :: bufout <= k < |s| ==> buffer[k] == s[k]
    modifies buffer
    ensures buffer[..bufout + 3] == Decoded(s[..bufin + 4]) && forall k :: bufout + 3 <= k < |s| ==> buffer[k] == s[k]
  {
    ghost var done, g := buffer[..bufout], s[bufin..bufin + 4];
    DecodeGroup(buffer, bufin, bufout, g);
    DecodedGroup(g);
    NextDecoded(s, j, done, buffer[bufout..bufout + 3]);
    assert buffer[..bufout + 3] == done + buffer[bufout..bufout + 3];
  }

  /** The bytes of at most four symbols: one less than there are. */
  lemma DecodedFew(s: seq<byte>)
    requires |s| <= 4
    ensures |Decoded(s)| == if |s| == 0 then 0 else |s| - 1
    ensures |s| > 1 ==> Decoded(s)[0] == Byte0(s[0], s[1])
    ensures |s| > 2 ==> Decoded(s)[1] == Byte1(s[1], s[2])
    ensures |s| > 3 ==> Decoded(s)[2] == Byte2(s[2], s[3])
  {
    if |s| == 4 {
      DecodedGroup(s);
    }
  }

  /** Decodes the last symbols `g`, at most four. */
  method DecodeLast(buffer: array<byte>, bufin: nat, bufout: nat, left: nat, ghost g: seq<byte>) returns (end: nat)
    requires bufout <= bufin && left == |g| <= 4 && bufin + left <= buffer.Length && bufout < buffer.Length
    requires forall k :: 0 <= k < left ==> buffer[bufin + k] == g[k]
    modifies buffer
    ensures end == bufout + (if left == 0 then 0 else left - 1) && end < buffer.Length && buffer[end] == 0
    ensures left > 1 ==> buffer[bufout] == Byte0(g[0], g[1])
    ensures left > 2 ==> buffer[bufout + 1] == Byte1(g[1], g[2])
    ensures left > 3 ==> buffer[bufout + 2] == Byte2(g[2], g[3])
    ensures forall k :: 0 <= k < bufout || end < k < buffer.Length ==> buffer[k] == old(buffer[k])
  {
    end := bufout;
    if left > 1 {
      assert buffer[bufin] == g[0] && buffer[bufin + 1] == g[1];
      buffer[end] := (PrToSix(buffer[bufin]) << 2) | (PrToSix(buffer[bufin + 1]) >> 4);
      end := end + 1;
    }
    if left > 2 {
      assert buffer[bufin + 1] == g[1] && buffer[bufin + 2] == g[2];
      buffer[end] := (PrToSix(buffer[bufin + 1]) << 4) | (PrToSix(buffer[bufin + 2]) >> 2);
      end := end + 1;
    }
    if left > 3 {
      assert buffer[bufin + 2] == g[2] && buffer[bufin + 3] == g[3];
      buffer[end] := (PrToSix(buffer[bufin + 2]) << 6) | PrToSix(buffer[bufin + 3]);
      end := end + 1;
    }
    buffer[end] := 0;
  }

  /** All groups but the last, which may be whole. */
  method DecodeGroups(buffer: array<byte>, size: nat) returns (left: nat, bufin: nat, bufout: nat, ghost j: nat)
    requires size <= buffer.Length
    modifies buffer
    ensures bufin == 4 * j && bufout == 3 * j && size == bufin + left && left <= 4 && (size > 0 ==> left > 0)
    ensures buffer[..bufout] == Decoded(old(buffer[..])[..bufin])
    ensures forall k :: bufout <= k < buffer.Length ==> buffer[k] == old(buffer[k])
  {
    ghost var s := buffer[..];
    left, bufin, bufout, j := size, 0, 0, 0;
    while left > 4
      invariant bufin == 4 * j && bufout == 3 * j && size == bufin + left && (size > 0 ==> left > 0)
      invariant buffer[..bufout] == Decoded(s[..bufin])
      invariant forall k :: bufout <= k < |s| ==> buffer[k] == s[k]
      decreases left
    {
      DecodeNext(buffer, bufin, bufout, j, s);
      bufin, bufout, left, j := bufin + 4, bufout + 3, left - 4, j + 1;
    }
  }

  /** The length that the decoder computes is that of the decoded text. */
  lemma DecodedLength(j: nat, left: nat, n: nat)
    requires left <= 4 && (left == 0 ==> j == 0)
    requires 4 * n <= 3 * (4 * j + left) < 4 * n + 4
    ensures (4 * j + left + 3) / 4 * 3 - (4 - left) % 4 == n
  {
    GroupsOf(j, left);
    assert left > 0 ==> n == 3 * j + left - 1;
  }

  lemma GroupsOf(j: nat, left: nat)
    requires left <= 4
    ensures (4 * j + left + 3) / 4 == if left == 0 then j else j + 1
    ensures (4 - left) % 4 == if left == 0 then 0 else 4 - left
  {
  }

  lemma DecodedInTwo(s: seq<byte>, j: nat, front: seq<byte>, last: seq<byte>)
    requires 4 * j <= |s| && front == Decoded(s[..4 * j]) && last == Decoded(s[4 * j..])
    ensures front + last == Decoded(s)
  {
    assert s == s[..4 * j] + s[4 * j..];
    DecodedAppend(j, s[..4 * j], s[4 * j..]);
  }

  /** As above, on the whole last group. */
  method DecodeTail(buffer: array<byte>, bufin: nat, bufout: nat, left: nat, ghost g: seq<byte>) returns (end: nat)
    requires bufout <= bufin && left == |g| <= 4 && bufin + left <= buffer.Length && bufout < buffer.Length
    requires forall k :: 0 <= k < left ==> buffer[bufin + k] == g[k]
    modifies buffer
    ensures bufout <= end < buffer.Length && buffer[bufout..end] == Decoded(g) && buffer[end] == 0
    ensures forall k :: 0 <= k < bufout || end < k < buffer.Length ==> buffer[k] == old(buffer[k])
  {
    end := DecodeLast(buffer, bufin, bufout, left, g);
    DecodedFew(g);
  }

  /** Decodes the rest of the text `s`, the groups before `bufin` being done. */
  method DecodeRest(buffer: array<byte>, bufin: nat, bufout: nat, left: nat, ghost j: nat, ghost s: seq<byte>)
      returns (ghost end: nat)
    requires bufout <= bufin && left <= 4 && |s| == bufin + left <= buffer.Length && bufout < buffer.Length
    requires bufin == 4 * j && buffer[..bufout] == Decoded(s[..bufin])
    requires forall k :: bufin <= k < bufin + left ==> buffer[k] == s[k]
    modifies buffer
    ensures end < buffer.Length && bufout <= end && buffer[..end] == Decoded(s) && buffer[end] == 0
    ensures forall k :: end < k < buffer.Length ==> buffer[k] == old(buffer[k])
  {
    ghost var front := buffer[..bufout];
    end := DecodeTail(buffer, bufin, bufout, left, s[bufin..]);
    DecodedInTwo(s, j, front, buffer[bufout..end]);
    assert buffer[..end] == front + buffer[bufout..end];
  }

  /** The decoder without its result: all groups, and `left` symbols at the end. */
  method DecodeText(buffer: array<byte>, size: nat) returns (left: nat, ghost j: nat, ghost end: nat)
    requires size <= buffer.Length && buffer.Length > 0
    modifies buffer
    ensures size == 4 * j + left && left <= 4 && (left == 0 ==> j == 0)
    ensures end < buffer.Length && buffer[..end] == Decoded(old(buffer[..size])) && buffer[end] == 0
    ensures forall k :: end < k < buffer.Length ==> buffer[k] == old(buffer[k])
  {
    ghost var s, b := buffer[..size], buffer[..];
    var bufin, bufout;
    left, bufin, bufout, j := DecodeGroups(buffer, size);
    assert s[..bufin] == b[..bufin];
    end := DecodeRest(buffer, bufin, bufout, left, j, s);
  }

  /** Decodes the first `size` symbols of `buffer` in place, and ends the result with a zero.  What
      was encoded comes back: from the symbols of `x` it makes `x`. */
  method Decode(buffer: array<byte>, size: nat) returns (nbytes: nat)
    requires size <= buffer.Length && buffer.Length > 0
    modifies buffer
    ensures nbytes < buffer.Length && buffer[..nbytes] == Decoded(old(buffer[..size])) && buffer[nbytes] == 0
    ensures forall k :: nbytes < k < buffer.Length ==> buffer[k] == old(buffer[k])
    ensures forall x :: old(buffer[..size]) == Symbols(x) ==> nbytes == |x| && buffer[..nbytes] == x
  {
    nbytes := (size + 3) / 4 * 3;
    ghost var j, end;
    var left;
    left, j, end := DecodeText(buffer, size);
    DecodedLengthOf(old(buffer[..size]));
    DecodedLength(j, left, end);
    nbytes := nbytes - (4 - left) % 4;
    forall x | old(buffer[..size]) == Symbols(x) ensures nbytes == |x| && buffer[..nbytes] == x {
      RoundTrip(x);
    }
  }
}
