/** The canonical base64url decoder of trust documents (section 5 of RFC 4648,
    without padding). */
module Base64Url {
  import opened Wrappers

  type Byte = x: int | 0 <= x <= 255

  type Sextet = x: int | 0 <= x <= 63

  // ---------- the alphabet ----------

  function Symbol(i: Sextet): char
  {
    if i < 26 then 'A' + i as char
    else if i < 52 then 'a' + (i - 26) as char
    else if i < 62 then '0' + (i - 52) as char
    else if i == 62 then '-' else '_'
  }

  predicate InAlphabet(c: char)
  {
    'A' <= c <= 'Z' || 'a' <= c <= 'z' || '0' <= c <= '9' || c == '-' || c == '_'
  }

  function Index(c: char): Sextet
    requires InAlphabet(c)
  {
    if 'A' <= c <= 'Z' then c as int - 'A' as int
    else if 'a' <= c <= 'z' then c as int - 'a' as int + 26
    else if '0' <= c <= '9' then c as int - '0' as int + 52
    else if c == '-' then 62 else 63
  }

  lemma SymbolIndex(i: Sextet)
    ensures InAlphabet(Symbol(i)) && Index(Symbol(i)) == i
  {
  }

  lemma IndexSymbol(c: char)
    requires InAlphabet(c)
    ensures Symbol(Index(c)) == c
  {
  }

  predicate AllInAlphabet(s: string)
  {
    forall i | 0 <= i < |s| :: InAlphabet(s[i])
  }

  function Symbols(t: seq<Sextet>): string { seq(|t|, i requires 0 <= i < |t| => Symbol(t[i])) }

  function Indices(s: string): seq<Sextet>
    requires AllInAlphabet(s)
  {
    seq(|s|, i requires 0 <= i < |s| => Index(s[i]))
  }

  lemma SymbolsIndices(t: seq<Sextet>)
    ensures AllInAlphabet(Symbols(t)) && Indices(Symbols(t)) == t
  {
    hide Symbol, Index, InAlphabet;
    forall i | 0 <= i < |t| ensures InAlphabet(Symbol(t[i])) && Index(Symbol(t[i])) == t[i] { SymbolIndex(t[i]); }
  }

  lemma IndicesSymbols(s: string)
    requires AllInAlphabet(s)
    ensures Symbols(Indices(s)) == s
  {
    hide Symbol, Index, InAlphabet;
    forall i | 0 <= i < |s| ensures Symbol(Index(s[i])) == s[i] { IndexSymbol(s[i]); }
  }

  // ---------- the library's coder ----------

  // the four sextets of three bytes
  function Sextet0(x: Byte): Sextet { (x as int) / 4 }
  function Sextet1(x: Byte, y: Byte): Sextet { (x as int) % 4 * 16 + (y as int) / 16 }
  function Sextet2(y: Byte, z: Byte): Sextet { (y as int) % 16 * 4 + (z as int) / 64 }
  function Sextet3(z: Byte): Sextet { (z as int) % 64 }

  // the three bytes of four sextets
  function Byte0(a: Sextet, b: Sextet): Byte { (a as int) * 4 + (b as int) / 16 }
  function Byte1(b: Sextet, c: Sextet): Byte { (b as int) % 16 * 16 + (c as int) / 4 }
  function Byte2(c: Sextet, d: Sextet): Byte { (c as int) % 4 * 64 + (d as int) }

  /** Three bytes make four sextets; a shorter last group is filled with zero bits. */
  function Split(bytes: seq<Byte>): seq<Sextet>
  {
    if |bytes| == 0 then []
    else if |bytes| == 1 then [Sextet0(bytes[0]), Sextet1(bytes[0], 0)]
    else if |bytes| == 2 then [Sextet0(bytes[0]), Sextet1(bytes[0], bytes[1]), Sextet2(bytes[1], 0)]
    else
      [Sextet0(bytes[0]), Sextet1(bytes[0], bytes[1]), Sextet2(bytes[1], bytes[2]), Sextet3(bytes[2])] + Split(bytes[3..])
  }

  /** The reverse; bits left over in the last sextet are dropped, and a single
      left-over sextet raises. */
  function Merge(t: seq<Sextet>): Option<seq<Byte>>
  {
    if |t| == 0 then Some([])
    else if |t| == 1 then None
    else if |t| == 2 then Some([Byte0(t[0], t[1])])
    else if |t| == 3 then Some([Byte0(t[0], t[1]), Byte1(t[1], t[2])])
    else match Merge(t[4..])
      case None => None
      case Some(rest) => Some([Byte0(t[0], t[1]), Byte1(t[1], t[2]), Byte2(t[2], t[3])] + rest)
  }

  /** urlsafe_b64encode(bytes).rstrip(b"=") */
  function Encode(bytes: seq<Byte>): string { Symbols(Split(bytes)) }

  /** urlsafe_b64decode of the padded text */
  function LibraryDecode(s: string): Option<seq<Byte>>
    requires AllInAlphabet(s)
  {
    Merge(Indices(s))
  }

  /** `_decode_b64url`: None where it raises invalid-schema. */
  function Decode(value: string): Option<seq<Byte>>
  {
    if value == "" || !AllInAlphabet(value) then None
    else match LibraryDecode(value)
      case None => None
      case Some(decoded) => if decoded == [] || Encode(decoded) != value then None else Some(decoded)
  }

  // ---------- round trips ----------

  /** Three bytes survive their four sextets. */
  lemma Triple(x: Byte, y: Byte, z: Byte)
    ensures Byte0(Sextet0(x), Sextet1(x, y)) == x
    ensures Byte1(Sextet1(x, y), Sextet2(y, z)) == y
    ensures Byte2(Sextet2(y, z), Sextet3(z)) == z
  {
  }

  lemma {:induction false} MergeUndoesSplit(bytes: seq<Byte>)
    ensures Merge(Split(bytes)) == Some(bytes)
  {
    hide Byte0, Byte1, Byte2, Sextet0, Sextet1, Sextet2, Sextet3;
    if |bytes| > 2 {
      MergeUndoesSplit(bytes[3..]);
      Triple(bytes[0], bytes[1], bytes[2]);
      assert Split(bytes)[4..] == Split(bytes[3..]);
      assert bytes == [bytes[0], bytes[1], bytes[2]] + bytes[3..];
    } else if |bytes| == 2 {
      Triple(bytes[0], bytes[1], 0);
      assert Merge(Split(bytes)).value == bytes;
    } else if |bytes| == 1 {
      Triple(bytes[0], 0, 0);
      assert Merge(Split(bytes)).value == bytes;
    }
  }

  /** Decoding undoes encoding, for every non-empty byte string. */
  lemma DecodeUndoesEncode(bytes: seq<Byte>)
    requires bytes != []
    ensures Decode(Encode(bytes)) == Some(bytes)
  {
    hide Split, Merge, Symbols, Indices, AllInAlphabet;
    SymbolsIndices(Split(bytes));
    MergeUndoesSplit(bytes);
    if Encode(bytes) == "" { NothingDecoded(); }
  }

  lemma NothingDecoded()
    ensures Indices("") == [] && Merge([]) == Some([])
  {
  }

  /** The bits the last sextet carries beyond the last byte are zero, and no sextet is
      left over alone. */
  predicate NoLooseBits(t: seq<Sextet>)
  {
    && |t| % 4 != 1
    && (|t| % 4 == 2 ==> t[|t| - 1] % 16 == 0)
    && (|t| % 4 == 3 ==> t[|t| - 1] % 4 == 0)
  }

  /** Four sextets survive their three bytes. */
  lemma Quadruple(a: Sextet, b: Sextet, c: Sextet, d: Sextet)
    ensures Sextet0(Byte0(a, b)) == a && Sextet1(Byte0(a, b), Byte1(b, c)) == b
    ensures Sextet2(Byte1(b, c), Byte2(c, d)) == c && Sextet3(Byte2(c, d)) == d
  {
  }

  /** A short last group survives exactly when its loose bits are zero. */
  lemma ShortGroups(a: Sextet, b: Sextet, c: Sextet)
    ensures Sextet0(Byte0(a, b)) == a && Sextet1(Byte0(a, b), Byte1(b, c)) == b
    ensures Sextet1(Byte0(a, b), 0) == b <==> b % 16 == 0
    ensures Sextet2(Byte1(b, c), 0) == c <==> c % 4 == 0
  {
  }

  /** Splitting again gives the sextets back exactly when there are no loose bits. */
  lemma {:induction false} ResplitsIff(t: seq<Sextet>)
    ensures (Merge(t).Some? && Split(Merge(t).value) == t) <==> NoLooseBits(t)
    ensures Merge(t).Some? && t != [] ==> Merge(t).value != []
  {
    hide Byte0, Byte1, Byte2, Sextet0, Sextet1, Sextet2, Sextet3, NoLooseBits;
    if |t| >= 4 {
      ResplitsIff(t[4..]);
      if Merge(t[4..]).Some? {
        FourSextets(t);
        assert t == t[..4] + t[4..];
        if Split(Merge(t).value) == t { assert t[4..] == Split(Merge(t[4..]).value); }
      }
      LooseBitsTail(t);
    } else if |t| >= 2 {
      ShortResplits(t);
    } else {
      NoGroup(t);
    }
  }

  lemma NoGroup(t: seq<Sextet>)
    requires |t| < 2
    ensures NoLooseBits(t) <==> t == []
  {
  }

  lemma LooseBitsTail(t: seq<Sextet>)
    requires |t| >= 4
    ensures NoLooseBits(t[4..]) <==> NoLooseBits(t)
  {
    assert |t[4..]| % 4 == |t| % 4;
  }

  lemma ShortResplits(t: seq<Sextet>)
    requires 2 <= |t| <= 3
    ensures Merge(t).Some? && Merge(t).value != [] && (Split(Merge(t).value) == t <==> NoLooseBits(t))
  {
    hide Byte0, Byte1, Split, Merge, NoLooseBits;
    LooseBitsShort(t);
    if |t| == 2 {
      TwoSextets(t[0], t[1]);
      assert t == [t[0], t[1]];
    } else {
      ThreeSextets(t[0], t[1], t[2]);
      assert t == [t[0], t[1], t[2]];
    }
  }

  lemma LooseBitsShort(t: seq<Sextet>)
    requires 2 <= |t| <= 3
    ensures NoLooseBits(t) <==> if |t| == 2 then t[1] % 16 == 0 else t[2] % 4 == 0
  {
  }

  lemma TwoSextets(a: Sextet, b: Sextet)
    ensures Merge([a, b]) == Some([Byte0(a, b)]) && (Split([Byte0(a, b)]) == [a, b] <==> b % 16 == 0)
  {
    ShortGroups(a, b, 0);
    hide Byte0, Sextet0, Sextet1;
    var split := Split([Byte0(a, b)]);
    assert split[0] == Sextet0(Byte0(a, b)) && split[1] == Sextet1(Byte0(a, b), 0);
  }

  lemma ThreeSextets(a: Sextet, b: Sextet, c: Sextet)
    ensures Merge([a, b, c]) == Some([Byte0(a, b), Byte1(b, c)])
    ensures Split([Byte0(a, b), Byte1(b, c)]) == [a, b, c] <==> c % 4 == 0
  {
    ShortGroups(a, b, c);
    hide Byte0, Byte1, Sextet0, Sextet1, Sextet2;
    var x, y := Byte0(a, b), Byte1(b, c);
    var split := Split([x, y]);
    assert split[0] == Sextet0(x) && split[1] == Sextet1(x, y) && split[2] == Sextet2(y, 0);
  }

  lemma MergeFour(t: seq<Sextet>)
    requires |t| >= 4 && Merge(t[4..]).Some?
    ensures Merge(t) == Some([Byte0(t[0], t[1]), Byte1(t[1], t[2]), Byte2(t[2], t[3])] + Merge(t[4..]).value)
  {
    hide Byte0, Byte1, Byte2;
  }

  lemma FourSextets(t: seq<Sextet>)
    requires |t| >= 4 && Merge(t[4..]).Some?
    ensures Merge(t).Some? && Split(Merge(t).value) == t[..4] + Split(Merge(t[4..]).value)
  {
    hide Byte0, Byte1, Byte2, Sextet0, Sextet1, Sextet2, Sextet3, Split, Merge;
    var x, y, z := Byte0(t[0], t[1]), Byte1(t[1], t[2]), Byte2(t[2], t[3]);
    MergeFour(t);
    SplitTriple(x, y, z, Merge(t[4..]).value);
    Quadruple(t[0], t[1], t[2], t[3]);
    assert [Sextet0(x), Sextet1(x, y), Sextet2(y, z), Sextet3(z)] == t[..4];
  }

  lemma SplitTriple(x: Byte, y: Byte, z: Byte, rest: seq<Byte>)
    ensures Split([x, y, z] + rest) == [Sextet0(x), Sextet1(x, y), Sextet2(y, z), Sextet3(z)] + Split(rest)
  {
    assert ([x, y, z] + rest)[3..] == rest;
  }

  /** The decoder accepts exactly the unpadded encodings of non-empty byte strings:
      alphabetic texts with no symbol left over and no loose bits. */
  lemma AcceptsExactlyEncodings(s: string)
    ensures Decode(s).Some? <==> s != "" && AllInAlphabet(s) && NoLooseBits(Indices(s))
    ensures Decode(s).Some? <==> exists bytes: seq<Byte> :: bytes != [] && Encode(bytes) == s
    ensures Decode(s).Some? ==> Encode(Decode(s).value) == s
  {
    hide Split, Merge, Symbol, Index, InAlphabet, NoLooseBits;
    if AllInAlphabet(s) {
      var t := Indices(s);
      ResplitsIff(t);
      IndicesSymbols(s);
      if Merge(t).Some? { SymbolsIndices(Split(Merge(t).value)); }
    }
    if bytes: seq<Byte> :| bytes != [] && Encode(bytes) == s { DecodeUndoesEncode(bytes); }
  }

  // ---------- the coder, said of the bits ----------

  /** Table 2 of RFC 4648: four runs of consecutive characters and the two last ones. */
  lemma SymbolsAreTheAlphabet(i: Sextet)
    ensures Symbol(0) == 'A' && Symbol(26) == 'a' && Symbol(52) == '0' && Symbol(62) == '-' && Symbol(63) == '_'
    ensures Symbol(25) == 'Z' && Symbol(51) == 'z' && Symbol(61) == '9'
    ensures i < 61 && i != 25 && i != 51 ==> Symbol(i + 1) as int == Symbol(i) as int + 1
  {
  }

  function Pow2(n: nat): nat { if n == 0 then 1 else 2 * Pow2(n - 1) }

  /** The k low bits of n, the highest first. */
  function Bits(n: nat, k: nat): (r: seq<bool>)
    ensures |r| == k
  {
    if k == 0 then [] else Bits(n / 2, k - 1) + [n % 2 == 1]
  }

  function ByteBits(bytes: seq<Byte>): (r: seq<bool>)
    ensures |r| == 8 * |bytes|
  {
    if bytes == [] then [] else Bits(bytes[0], 8) + ByteBits(bytes[1..])
  }

  function SextetBits(t: seq<Sextet>): (r: seq<bool>)
    ensures |r| == 6 * |t|
  {
    if t == [] then [] else Bits(t[0], 6) + SextetBits(t[1..])
  }

  lemma Halves(a: nat, b: nat, p: nat)
    ensures (a * (2 * p) + b) / 2 == a * p + b / 2 && (a * (2 * p) + b) % 2 == b % 2
  {
    var c := a * p;
    assert a * (2 * p) == 2 * c;
    assert (2 * c + b) / 2 == c + b / 2 && (2 * c + b) % 2 == b % 2;
  }

  /** The bits of a number are those of its high part, then those of its low part. */
  lemma {:induction false} BitsJoin(a: nat, b: nat, k: nat, m: nat)
    requires b < Pow2(m)
    ensures Bits(a * Pow2(m) + b, k + m) == Bits(a, k) + Bits(b, m)
  {
    if m == 0 {
      assert a * Pow2(m) + b == a;
    } else {
      BitsJoin(a, b / 2, k, m - 1);
      Halves(a, b, Pow2(m - 1));
      var n := a * Pow2(m) + b;
      assert Pow2(m) == 2 * Pow2(m - 1);
      assert Bits(n, k + m) == Bits(n / 2, k + m - 1) + [n % 2 == 1];
    }
  }

  lemma Powers()
    ensures Pow2(2) == 4 && Pow2(4) == 16 && Pow2(6) == 64
  {
    assert Pow2(0) == 1 && Pow2(1) == 2 && Pow2(3) == 8 && Pow2(5) == 32;
  }

  /** Three bytes and their four sextets have the same 24 bits. */
  lemma TripleBits(x: Byte, y: Byte, z: Byte)
    ensures Bits(x, 8) + Bits(y, 8) + Bits(z, 8)
         == Bits(Sextet0(x), 6) + Bits(Sextet1(x, y), 6) + Bits(Sextet2(y, z), 6) + Bits(Sextet3(z), 6)
  {
    hide Bits, Pow2;
    Powers();
    BitsJoin(x / 4, x % 4, 6, 2);
    BitsJoin(y / 16, y % 16, 4, 4);
    BitsJoin(z / 64, z % 64, 2, 6);
    BitsJoin(x % 4, y / 16, 2, 4);
    BitsJoin(y % 16, z / 64, 4, 2);
  }

  lemma Zeros()
    ensures Bits(0, 8) == [false, false, false, false, false, false, false, false]
    ensures Bits(0, 6) == [false, false, false, false, false, false]
  {
    assert Bits(0, 0) == [] && Bits(0, 1) == [false] && Bits(0, 2) == [false, false] && Bits(0, 3) == [false, false, false];
    assert Bits(0, 4) == [false, false, false, false] && Bits(0, 5) == [false, false, false, false, false];
    assert Bits(0, 6) == [false, false, false, false, false, false] && Bits(0, 7) == [false, false, false, false, false, false, false];
  }

  /** The sextets hold the bits of the bytes in order, and after them only the zero bits
      that fill up the last sextet. */
  predicate Fills(bytes: seq<Byte>, t: seq<Sextet>)
  {
    var b, s := ByteBits(bytes), SextetBits(t);
    && |b| <= |s| < |b| + 6 && s[..|b|] == b && forall i | |b| <= i < |s| :: !s[i]
  }

  lemma {:induction false} SplitFills(bytes: seq<Byte>)
    ensures Fills(bytes, Split(bytes))
  {
    hide Bits, Sextet0, Sextet1, Sextet2, Sextet3;
    if |bytes| >= 3 {
      SplitFills(bytes[3..]);
      TripleBits(bytes[0], bytes[1], bytes[2]);
      FourBits(Split(bytes), Split(bytes[3..]));
      ThreeBits(bytes);
    } else if |bytes| == 2 {
      Zeros();
      TripleBits(bytes[0], bytes[1], 0);
      ShortBits(bytes[0], bytes[1]);
      assert bytes == [bytes[0], bytes[1]];
    } else if |bytes| == 1 {
      Zeros();
      TripleBits(bytes[0], 0, 0);
      SingleBits(bytes[0]);
      assert bytes == [bytes[0]];
    }
  }

  lemma ThreeBits(bytes: seq<Byte>)
    requires |bytes| >= 3
    ensures ByteBits(bytes) == Bits(bytes[0], 8) + Bits(bytes[1], 8) + Bits(bytes[2], 8) + ByteBits(bytes[3..])
  {
    hide Bits;
    assert bytes[1..][1..] == bytes[2..] && bytes[2..][1..] == bytes[3..];
    assert ByteBits(bytes[1..]) == Bits(bytes[1], 8) + ByteBits(bytes[2..]);
    assert ByteBits(bytes[2..]) == Bits(bytes[2], 8) + ByteBits(bytes[3..]);
  }

  lemma FourBits(t: seq<Sextet>, rest: seq<Sextet>)
    requires |t| >= 4 && t[4..] == rest
    ensures SextetBits(t) == Bits(t[0], 6) + Bits(t[1], 6) + Bits(t[2], 6) + Bits(t[3], 6) + SextetBits(rest)
  {
    hide Bits;
    assert t[1..][1..] == t[2..] && t[2..][1..] == t[3..] && t[3..][1..] == t[4..];
    assert SextetBits(t[1..]) == Bits(t[1], 6) + SextetBits(t[2..]);
    assert SextetBits(t[2..]) == Bits(t[2], 6) + SextetBits(t[3..]);
    assert SextetBits(t[3..]) == Bits(t[3], 6) + SextetBits(t[4..]);
  }

  lemma TwoByteBits(x: Byte, y: Byte)
    ensures ByteBits([x, y]) == Bits(x, 8) + Bits(y, 8)
  {
    hide Bits;
    assert [x, y][1..] == [y] && [y][1..] == [];
    assert ByteBits([y]) == Bits(y, 8) + ByteBits([]);
  }

  lemma ThreeSextetBits(a: Sextet, b: Sextet, c: Sextet)
    ensures SextetBits([a, b, c]) == Bits(a, 6) + Bits(b, 6) + Bits(c, 6)
  {
    hide Bits;
    assert [a, b, c][1..] == [b, c] && [b, c][1..] == [c] && [c][1..] == [];
    assert SextetBits([c]) == Bits(c, 6) + SextetBits([]);
    assert SextetBits([b, c]) == Bits(b, 6) + SextetBits([c]);
  }

  lemma PaddedPrefix(a: seq<bool>, z: seq<bool>, p: seq<bool>, w: seq<bool>)
    requires a + z == p + w && |a| <= |p| <= |a| + |z| && forall i | 0 <= i < |z| :: !z[i]
    ensures p[..|a|] == a && forall i | |a| <= i < |p| :: !p[i]
  {
    assert p == (p + w)[..|p|] && a == (a + z)[..|a|];
    forall i | |a| <= i < |p| ensures !p[i] { assert p[i] == (a + z)[i] == z[i - |a|]; }
  }

  /** Two bytes: three sextets, the last two of whose bits are zero. */
  lemma ShortBits(x: Byte, y: Byte)
    requires Bits(x, 8) + Bits(y, 8) + Bits(0, 8)
          == Bits(Sextet0(x), 6) + Bits(Sextet1(x, y), 6) + Bits(Sextet2(y, 0), 6) + Bits(Sextet3(0), 6)
    requires Bits(0, 8) == [false, false, false, false, false, false, false, false]
    ensures Fills([x, y], [Sextet0(x), Sextet1(x, y), Sextet2(y, 0)])
  {
    hide Bits, Sextet0, Sextet1, Sextet2, Sextet3;
    TwoByteBits(x, y);
    ThreeSextetBits(Sextet0(x), Sextet1(x, y), Sextet2(y, 0));
    PaddedPrefix(Bits(x, 8) + Bits(y, 8), Bits(0, 8), Bits(Sextet0(x), 6) + Bits(Sextet1(x, y), 6) + Bits(Sextet2(y, 0), 6),
                 Bits(Sextet3(0), 6));
  }

  /** One byte: two sextets, the last four of whose bits are zero. */
  lemma SingleBits(x: Byte)
    requires Bits(x, 8) + Bits(0, 8) + Bits(0, 8)
          == Bits(Sextet0(x), 6) + Bits(Sextet1(x, 0), 6) + Bits(Sextet2(0, 0), 6) + Bits(Sextet3(0), 6)
    requires Bits(0, 8) == [false, false, false, false, false, false, false, false]
    ensures Fills([x], [Sextet0(x), Sextet1(x, 0)])
  {
    hide Bits, Sextet0, Sextet1, Sextet2, Sextet3;
    var t := [Sextet0(x), Sextet1(x, 0)];
    assert [x][1..] == [] && t[1..] == [t[1]] && [t[1]][1..] == [];
    assert ByteBits([x]) == Bits(x, 8) + [];
    assert SextetBits([t[1]]) == Bits(t[1], 6) + [];
    var all := Bits(x, 8) + Bits(0, 8) + Bits(0, 8);
    assert ByteBits([x]) == all[..8] && SextetBits(t) == all[..12];
    assert forall i | 8 <= i < 12 :: all[i] == Bits(0, 8)[i - 8];
  }

  /** A text decodes to a byte string exactly when its symbols are those of the sextets
      that the string's bits fill, zero bits last. */
  lemma DecodesToItsBits(s: string, bytes: seq<Byte>)
    ensures Decode(s) == Some(bytes) <==> bytes != [] && exists t :: s == Symbols(t) && Fills(bytes, t)
  {
    hide Split, Merge, Symbol, Index, InAlphabet, Fills, Symbols, Indices, AllInAlphabet;
    AcceptsExactlyEncodings(s);
    SplitFills(bytes);
    if Decode(s) == Some(bytes) {
      assert s == Symbols(Split(bytes));
    }
    if bytes != [] && exists t :: s == Symbols(t) && Fills(bytes, t) {
      var t :| s == Symbols(t) && Fills(bytes, t);
      FillsOnce(bytes, t, Split(bytes));
      DecodeUndoesEncode(bytes);
    }
  }

  /** Only one list of sextets is filled by given bytes. */
  lemma FillsOnce(bytes: seq<Byte>, t: seq<Sextet>, u: seq<Sextet>)
    requires Fills(bytes, t) && Fills(bytes, u)
    ensures t == u
  {
    var a, b := SextetBits(t), SextetBits(u);
    assert |t| == |u|;
    forall i | 0 <= i < |a| ensures a[i] == b[i] {
      if i < 8 * |bytes| { assert a[..8 * |bytes|][i] == b[..8 * |bytes|][i]; }
    }
    assert a == b;
    SextetBitsUnique(t, u);
  }

  lemma {:induction false} SextetBitsUnique(t: seq<Sextet>, u: seq<Sextet>)
    requires |t| == |u| && SextetBits(t) == SextetBits(u)
    ensures t == u
  {
    hide Bits;
    if t != [] {
      var a, b := SextetBits(t), SextetBits(u);
      assert a[..6] == Bits(t[0], 6) && b[..6] == Bits(u[0], 6);
      assert a[6..] == SextetBits(t[1..]) && b[6..] == SextetBits(u[1..]);
      Powers();
      BitsUnique(t[0], u[0], 6);
      SextetBitsUnique(t[1..], u[1..]);
      assert t == [t[0]] + t[1..] && u == [u[0]] + u[1..];
    }
  }

  lemma {:induction false} BitsUnique(m: nat, n: nat, k: nat)
    requires m < Pow2(k) && n < Pow2(k) && Bits(m, k) == Bits(n, k)
    ensures m == n
  {
    if k > 0 {
      assert Bits(m, k)[k - 1] == (m % 2 == 1) && Bits(n, k)[k - 1] == (n % 2 == 1);
      assert Bits(m / 2, k - 1) == Bits(m, k)[..k - 1] && Bits(n / 2, k - 1) == Bits(n, k)[..k - 1];
      BitsUnique(m / 2, n / 2, k - 1);
    }
  }
}
