/** SHA-256 worked out: the digests of particular short messages, for the messages the tests of
    crates/rdesk_crypto/src/auth.rs hash. The evaluation is of four words at a time, by functions that
    are the standard's with every operation written out. */
module KnownDigests {
  import opened Wrappers
  import opened Fips180
  import opened LoginHash

  datatype Four = Four(p: Word, q: Word, r: Word, s: Word)

  datatype Sixteen = Sixteen(a: Four, b: Four, c: Four, d: Four)

  // ---- The standard's operations, written out ---------------------------------------------------------

  function Add(x: Word, y: Word): Word { Plus(x, y) }

  function NextWord(w2: Word, w7: Word, w15: Word, w16: Word): Word {
    Sum4(((w2 >> 17) | (w2 << 15)) ^ ((w2 >> 19) | (w2 << 13)) ^ (w2 >> 10), w7,
         ((w15 >> 7) | (w15 << 25)) ^ ((w15 >> 18) | (w15 << 14)) ^ (w15 >> 3), w16)
  }

  function T1(e: Word, f: Word, g: Word, h: Word, k: Word, w: Word): Word {
    Sum5(h, ((e >> 6) | (e << 26)) ^ ((e >> 11) | (e << 21)) ^ ((e >> 25) | (e << 7)), (e & f) ^ (!e & g), k, w)
  }

  function T2(a: Word, b: Word, c: Word): Word {
    Plus(((a >> 2) | (a << 30)) ^ ((a >> 13) | (a << 19)) ^ ((a >> 22) | (a << 10)), (a & b) ^ (a & c) ^ (b & c))
  }

  lemma RoundWritten(v: Vars, k: Word, w: Word)
    ensures var t := T1(v.e, v.f, v.g, v.h, k, w);
            Round(v, k, w) == Vars(Add(t, T2(v.a, v.b, v.c)), v.a, v.b, v.c, Add(v.d, t), v.e, v.f, v.g)
  {
  }

  // The table of constants, by sixteen: Part0 to Part3 compare it with K.

  const K_0: Sixteen := Sixteen(Four(0x428a2f98, 0x71374491, 0xb5c0fbcf, 0xe9b5dba5),
                                Four(0x3956c25b, 0x59f111f1, 0x923f82a4, 0xab1c5ed5),
                                Four(0xd807aa98, 0x12835b01, 0x243185be, 0x550c7dc3),
                                Four(0x72be5d74, 0x80deb1fe, 0x9bdc06a7, 0xc19bf174))
  const K_16: Sixteen := Sixteen(Four(0xe49b69c1, 0xefbe4786, 0x0fc19dc6, 0x240ca1cc),
                                Four(0x2de92c6f, 0x4a7484aa, 0x5cb0a9dc, 0x76f988da),
                                Four(0x983e5152, 0xa831c66d, 0xb00327c8, 0xbf597fc7),
                                Four(0xc6e00bf3, 0xd5a79147, 0x06ca6351, 0x14292967))
  const K_32: Sixteen := Sixteen(Four(0x27b70a85, 0x2e1b2138, 0x4d2c6dfc, 0x53380d13),
                                Four(0x650a7354, 0x766a0abb, 0x81c2c92e, 0x92722c85),
                                Four(0xa2bfe8a1, 0xa81a664b, 0xc24b8b70, 0xc76c51a3),
                                Four(0xd192e819, 0xd6990624, 0xf40e3585, 0x106aa070))
  const K_48: Sixteen := Sixteen(Four(0x19a4c116, 0x1e376c08, 0x2748774c, 0x34b0bcb5),
                                Four(0x391c0cb3, 0x4ed8aa4a, 0x5b9cca4f, 0x682e6ff3),
                                Four(0x748f82ee, 0x78a5636f, 0x84c87814, 0x8cc70208),
                                Four(0x90befffa, 0xa4506ceb, 0xbef9a3f7, 0xc67178f2))

  // ---- Four rounds, sixteen rounds, a block -----------------------------------------------------------

  function FourRounds(v: Vars, k: Four, w: Four): Vars {
    var t := T1(v.e, v.f, v.g, v.h, k.p, w.p);
    var a, e := Add(t, T2(v.a, v.b, v.c)), Add(v.d, t);
    var t := T1(e, v.e, v.f, v.g, k.q, w.q);
    var b, f := Add(t, T2(a, v.a, v.b)), Add(v.c, t);
    var t := T1(f, e, v.e, v.f, k.r, w.r);
    var c, g := Add(t, T2(b, a, v.a)), Add(v.b, t);
    var t := T1(g, f, e, v.e, k.s, w.s);
    Vars(Add(t, T2(c, b, a)), c, b, a, Add(v.a, t), g, f, e)
  }

  function NextFour(a: Four, b: Four, c: Four, d: Four): Four {
    var x := NextWord(d.r, c.q, a.q, a.p);
    var y := NextWord(d.s, c.r, a.r, a.q);
    Four(x, y, NextWord(x, c.s, a.s, a.r), NextWord(y, d.p, b.p, a.s))
  }

  function NextSixteen(w: Sixteen): Sixteen {
    var e := NextFour(w.a, w.b, w.c, w.d);
    var f := NextFour(w.b, w.c, w.d, e);
    var g := NextFour(w.c, w.d, e, f);
    Sixteen(e, f, g, NextFour(w.d, e, f, g))
  }

  function SixteenRounds(v: Vars, k: Sixteen, w: Sixteen): Vars {
    FourRounds(FourRounds(FourRounds(FourRounds(v, k.a, w.a), k.b, w.b), k.c, w.c), k.d, w.d)
  }

  function AllRounds(v: Vars, k0: Sixteen, k1: Sixteen, k2: Sixteen, k3: Sixteen, w0: Sixteen): Vars {
    var w1 := NextSixteen(w0);
    var w2 := NextSixteen(w1);
    var w3 := NextSixteen(w2);
    SixteenRounds(SixteenRounds(SixteenRounds(SixteenRounds(v, k0, w0), k1, w1), k2, w2), k3, w3)
  }

  function BlockDigest(w: Sixteen): Vars {
    var v := AllRounds(H0, K_0, K_16, K_32, K_48, w);
    Vars(Add(H0.a, v.a), Add(H0.b, v.b), Add(H0.c, v.c), Add(H0.d, v.d),
         Add(H0.e, v.e), Add(H0.f, v.f), Add(H0.g, v.g), Add(H0.h, v.h))
  }

  // The schedule s and the values r of the working variables, each word and round by itself.

  ghost predicate WordOk(s: seq<Word>, t: nat)
    requires |s| == 64
  {
    16 <= t < 64 ==> s[t] == Mix(s[t - 2], s[t - 7], s[t - 15], s[t - 16])
  }

  ghost predicate RoundOk(c: seq<Word>, s: seq<Word>, r: seq<Vars>, t: nat)
    requires |c| == |s| == 64 && |r| == 65
  {
    t < 64 ==> r[t + 1] == Round(r[t], c[t], s[t])
  }

  ghost predicate Unrolled(c: seq<Word>, s: seq<Word>, r: seq<Vars>) {
    |c| == |s| == 64 && |r| == 65 && (forall t: nat :: WordOk(s, t)) && (forall t: nat :: RoundOk(c, s, r, t))
  }

  ghost predicate FourAt(s: seq<Word>, t: nat, w: Four)
    requires |s| == 64 && t + 4 <= 64
  {
    w == Four(s[t], s[t + 1], s[t + 2], s[t + 3])
  }

  ghost predicate SixteenAt(s: seq<Word>, t: nat, w: Sixteen)
    requires |s| == 64 && t + 16 <= 64
  {
    FourAt(s, t, w.a) && FourAt(s, t + 4, w.b) && FourAt(s, t + 8, w.c) && FourAt(s, t + 12, w.d)
  }

  ghost predicate SameConstant(c: seq<Word>, t: nat)
    requires |c| == 64
  {
    t < 64 ==> c[t] == K[t]
  }

  lemma Part0()
    ensures SixteenAt(K, 0, K_0)
  {
  }

  lemma Part1()
    ensures SixteenAt(K, 16, K_16)
  {
  }

  lemma Part2()
    ensures SixteenAt(K, 32, K_32)
  {
  }

  lemma Part3()
    ensures SixteenAt(K, 48, K_48)
  {
  }

  lemma NextWordWritten(w2: Word, w7: Word, w15: Word, w16: Word)
    ensures NextWord(w2, w7, w15, w16) == Mix(w2, w7, w15, w16)
  {
  }

  lemma WordIs(c: seq<Word>, s: seq<Word>, r: seq<Vars>, t: nat)
    requires Unrolled(c, s, r) && 16 <= t < 64
    ensures s[t] == NextWord(s[t - 2], s[t - 7], s[t - 15], s[t - 16])
  {
    assert WordOk(s, t);
    NextWordWritten(s[t - 2], s[t - 7], s[t - 15], s[t - 16]);
  }

  lemma NextFourAt(c: seq<Word>, s: seq<Word>, r: seq<Vars>, t: nat, w: Four, x: Four, y: Four, z: Four)
    requires Unrolled(c, s, r) && 16 <= t && t + 4 <= 64
    requires FourAt(s, t - 16, w) && FourAt(s, t - 12, x) && FourAt(s, t - 8, y) && FourAt(s, t - 4, z)
    ensures FourAt(s, t, NextFour(w, x, y, z))
  {
    WordIs(c, s, r, t);
    WordIs(c, s, r, t + 1);
    WordIs(c, s, r, t + 2);
    WordIs(c, s, r, t + 3);
  }

  lemma NextSixteenAt(c: seq<Word>, s: seq<Word>, r: seq<Vars>, t: nat, w: Sixteen)
    requires Unrolled(c, s, r) && 16 <= t && t + 16 <= 64 && SixteenAt(s, t - 16, w)
    ensures SixteenAt(s, t, NextSixteen(w))
  {
    var x := NextSixteen(w);
    NextFourAt(c, s, r, t, w.a, w.b, w.c, w.d);
    NextFourAt(c, s, r, t + 4, w.b, w.c, w.d, x.a);
    NextFourAt(c, s, r, t + 8, w.c, w.d, x.a, x.b);
    NextFourAt(c, s, r, t + 12, w.d, x.a, x.b, x.c);
  }

  lemma RoundIs(c: seq<Word>, s: seq<Word>, r: seq<Vars>, t: nat)
    requires Unrolled(c, s, r) && t < 64
    ensures var v := r[t]; var x := T1(v.e, v.f, v.g, v.h, c[t], s[t]);
            r[t + 1] == Vars(Add(x, T2(v.a, v.b, v.c)), v.a, v.b, v.c, Add(v.d, x), v.e, v.f, v.g)
  {
    assert RoundOk(c, s, r, t);
    RoundWritten(r[t], c[t], s[t]);
  }

  lemma FourRoundsOn(c: seq<Word>, s: seq<Word>, r: seq<Vars>, t: nat, k: Four, w: Four)
    requires Unrolled(c, s, r) && t + 4 <= 64 && FourAt(c, t, k) && FourAt(s, t, w)
    ensures FourRounds(r[t], k, w) == r[t + 4]
  {
    RoundIs(c, s, r, t);
    RoundIs(c, s, r, t + 1);
    RoundIs(c, s, r, t + 2);
    RoundIs(c, s, r, t + 3);
  }

  lemma SixteenRoundsOn(c: seq<Word>, s: seq<Word>, r: seq<Vars>, t: nat, k: Sixteen, w: Sixteen)
    requires Unrolled(c, s, r) && t + 16 <= 64 && SixteenAt(c, t, k) && SixteenAt(s, t, w)
    ensures SixteenRounds(r[t], k, w) == r[t + 16]
  {
    FourRoundsOn(c, s, r, t, k.a, w.a);
    FourRoundsOn(c, s, r, t + 4, k.b, w.b);
    FourRoundsOn(c, s, r, t + 8, k.c, w.c);
    FourRoundsOn(c, s, r, t + 12, k.d, w.d);
  }

  lemma ScheduleOn(c: seq<Word>, s: seq<Word>, r: seq<Vars>, w: Sixteen)
    requires Unrolled(c, s, r) && SixteenAt(s, 0, w)
    ensures SixteenAt(s, 16, NextSixteen(w)) && SixteenAt(s, 32, NextSixteen(NextSixteen(w)))
    ensures SixteenAt(s, 48, NextSixteen(NextSixteen(NextSixteen(w))))
  {
    NextSixteenAt(c, s, r, 16, w);
    NextSixteenAt(c, s, r, 32, NextSixteen(w));
    NextSixteenAt(c, s, r, 48, NextSixteen(NextSixteen(w)));
  }

  lemma RoundsOn(c: seq<Word>, s: seq<Word>, r: seq<Vars>, t: nat, k: Sixteen, k': Sixteen, w: Sixteen, w': Sixteen)
    requires Unrolled(c, s, r) && t + 32 <= 64 && SixteenAt(c, t, k) && SixteenAt(c, t + 16, k')
    requires SixteenAt(s, t, w) && SixteenAt(s, t + 16, w')
    ensures SixteenRounds(SixteenRounds(r[t], k, w), k', w') == r[t + 32]
  {
    SixteenRoundsOn(c, s, r, t, k, w);
    SixteenRoundsOn(c, s, r, t + 16, k', w');
  }

  lemma AllRoundsOn(c: seq<Word>, s: seq<Word>, r: seq<Vars>, k0: Sixteen, k1: Sixteen, k2: Sixteen, k3: Sixteen,
                    w: Sixteen)
    requires Unrolled(c, s, r) && SixteenAt(s, 0, w) && SixteenAt(c, 0, k0) && SixteenAt(c, 16, k1)
    requires SixteenAt(c, 32, k2) && SixteenAt(c, 48, k3)
    ensures AllRounds(r[0], k0, k1, k2, k3, w) == r[64]
  {
    ScheduleOn(c, s, r, w);
    var w1 := NextSixteen(w);
    var w2 := NextSixteen(w1);
    RoundsOn(c, s, r, 0, k0, k1, w, w1);
    RoundsOn(c, s, r, 32, k2, k3, w2, NextSixteen(w2));
  }

  /** The constants are those of the standard. */
  ghost predicate AreConstants(c: seq<Word>) {
    |c| == 64 && SixteenAt(c, 0, K_0) && SixteenAt(c, 16, K_16) && SixteenAt(c, 32, K_32) && SixteenAt(c, 48, K_48)
  }

  lemma Constants() returns (c: seq<Word>)
    ensures |c| == 64 && forall t: nat :: SameConstant(c, t)
    ensures AreConstants(c)
  {
    c := K;
    Part0();
    Part1();
    Part2();
    Part3();
  }

  lemma Unroll(block: seq<Byte>, c: seq<Word>) returns (s: seq<Word>, r: seq<Vars>)
    requires |block| == |c| == 64 && forall t: nat :: SameConstant(c, t)
    ensures Unrolled(c, s, r) && r[0] == H0 && r[64] == Rounds(H0, block, 64)
    ensures forall t :: 0 <= t < 16 ==> s[t] == Schedule(block, t)
  {
    s := seq(64, t requires 0 <= t < 64 => Schedule(block, t));
    r := seq(65, t requires 0 <= t < 65 => Rounds(H0, block, t));
    forall t: nat
      ensures RoundOk(c, s, r, t)
    {
      assert SameConstant(c, t);
    }
  }

  /** The written-out evaluation of a block is the standard's. */
  lemma BlockDigestIs(block: seq<Byte>, w: Sixteen)
    requires |block| == 64 && FourIs(block, 0, w.a) && FourIs(block, 4, w.b)
    requires FourIs(block, 8, w.c) && FourIs(block, 12, w.d)
    ensures BlockDigest(w) == Compress(H0, block)
  {
    var c := Constants();
    var s, r := Unroll(block, c);
    AllRoundsOn(c, s, r, K_0, K_16, K_32, K_48, w);
  }

  // ---- A message of one block ---------------------------------------------------------------------------

  function Join(b0: Byte, b1: Byte, b2: Byte, b3: Byte): Word {
    ((b0 as Word) << 24) | ((b1 as Word) << 16) | ((b2 as Word) << 8) | (b3 as Word)
  }

  /** Byte i of a padded message of n bytes. */
  function PadByte(m: seq<Byte>, n: nat, i: nat): Byte
    requires |m| == n <= 55 && i < 64
  {
    if i < n then m[i] else if i == n then 0x80
    else if i == 62 then (8 * n / 256) as Byte else if i == 63 then (8 * n % 256) as Byte else 0
  }

  function WordAt(m: seq<Byte>, n: nat, t: nat): Word
    requires |m| == n <= 55 && t < 16
  {
    Join(PadByte(m, n, 4 * t), PadByte(m, n, 4 * t + 1), PadByte(m, n, 4 * t + 2), PadByte(m, n, 4 * t + 3))
  }

  function FourOf(m: seq<Byte>, n: nat, t: nat): Four
    requires |m| == n <= 55 && t <= 12
  {
    Four(WordAt(m, n, t), WordAt(m, n, t + 1), WordAt(m, n, t + 2), WordAt(m, n, t + 3))
  }

  function Padded(m: seq<Byte>, n: nat): Sixteen
    requires |m| == n <= 55
  {
    Sixteen(FourOf(m, n, 0), FourOf(m, n, 4), FourOf(m, n, 8), FourOf(m, n, 12))
  }

  lemma LengthBytes(n: nat)
    requires n < 0x1_0000
    ensures BigEndian(n, 8) == [0, 0, 0, 0, 0, 0, (n / 256) as Byte, (n % 256) as Byte]
  {
    assert BigEndian(0, 0) == [] && BigEndian(0, 1) == [0] && BigEndian(0, 2) == [0, 0];
    assert BigEndian(0, 3) == [0, 0, 0] && BigEndian(0, 4) == [0, 0, 0, 0];
    assert BigEndian(0, 5) == [0, 0, 0, 0, 0] && BigEndian(0, 6) == [0, 0, 0, 0, 0, 0];
    assert n / 256 / 256 == 0 && n / 256 % 256 == n / 256;
    assert BigEndian(n / 256, 7) == BigEndian(0, 6) + [(n / 256) as Byte];
  }

  /** w is the schedule of the block from t on. */
  ghost predicate FourIs(block: seq<Byte>, t: nat, w: Four)
    requires |block| == 64 && t <= 12
  {
    w == Four(Schedule(block, t), Schedule(block, t + 1), Schedule(block, t + 2), Schedule(block, t + 3))
  }

  lemma ZerosCounted(n: nat)
    requires n <= 55
    ensures ZeroCount(n) == 55 - n
  {
  }

  lemma PadLength(m: seq<Byte>)
    requires |m| <= 55
    ensures |Pad(m)| == 64 && |Trailer(|m|)| == 64 - |m|
  {
    ZerosCounted(|m|);
  }

  lemma Second(a: seq<Byte>, b: seq<Byte>, k: nat)
    requires k < |b|
    ensures (a + b)[|a| + k] == b[k]
  {
  }

  lemma PadEnd(m: seq<Byte>, k: nat)
    requires |m| <= 55 && k < 8
    ensures |Pad(m)| == 64 && Pad(m)[56 + k] == BigEndian(8 * |m|, 8)[k]
  {
    PadLength(m);
    ZerosCounted(|m|);
    Second(Mark(|m|), BigEndian(8 * |m|, 8), k);
    Second(m, Trailer(|m|), 56 - |m| + k);
  }

  lemma PadByteIs(m: seq<Byte>, i: nat)
    requires |m| <= 55 && i < 64
    ensures |Pad(m)| == 64 && Pad(m)[i] == PadByte(m, |m|, i)
  {
    PadLength(m);
    if i >= 56 {
      PadEnd(m, i - 56);
      LengthBytes(8 * |m|);
    } else {
      PadBytes(m);
    }
  }

  lemma WordAtIs(m: seq<Byte>, t: nat)
    requires |m| <= 55 && t < 16
    ensures |Pad(m)| == 64 && Schedule(Pad(m), t) == WordAt(m, |m|, t)
  {
    PadByteIs(m, 4 * t);
    PadByteIs(m, 4 * t + 1);
    PadByteIs(m, 4 * t + 2);
    PadByteIs(m, 4 * t + 3);
  }

  lemma FourOfIs(m: seq<Byte>, t: nat)
    requires |m| <= 55 && t <= 12
    ensures |Pad(m)| == 64 && FourIs(Pad(m), t, FourOf(m, |m|, t))
  {
    WordAtIs(m, t);
    WordAtIs(m, t + 1);
    WordAtIs(m, t + 2);
    WordAtIs(m, t + 3);
  }

  /** The digest of a message that fits one block, evaluated. */
  lemma ShortDigest(m: seq<Byte>)
    requires |m| <= 55
    ensures Sha256(m) == DigestOf(BlockDigest(Padded(m, |m|)))
  {
    FourOfIs(m, 0);
    FourOfIs(m, 4);
    FourOfIs(m, 8);
    FourOfIs(m, 12);
    BlockDigestIs(Pad(m), Padded(m, |m|));
    assert Pad(m)[..0] == [] && Pad(m)[0..] == Pad(m);
    assert HashBlocks(Pad(m)) == Compress(HashBlocks([]), Pad(m));
  }

  // ---- Digests as messages --------------------------------------------------------------------------------

  lemma {:induction false} WordBytesAt(s: seq<Word>, t: nat)
    requires t < |s|
    ensures WordBytes(s)[4 * t..4 * t + 4] == BytesOf(s[t])
    decreases |s|
  {
    if t < |s| - 1 {
      WordBytesAt(s[..|s| - 1], t);
    }
  }

  lemma Joined(w: Word)
    ensures var b := BytesOf(w); Join(b[0], b[1], b[2], b[3]) == w
  {
  }

  /** The words of a digest are the first words of a message that begins with it. */
  lemma DigestWord(v: Vars, rest: seq<Byte>, t: nat)
    requires |rest| <= 23 && t < 8
    ensures WordAt(DigestOf(v) + rest, 32 + |rest|, t) == WordsOf(v)[t]
  {
    var d := DigestOf(v);
    WordBytesAt(WordsOf(v), t);
    Joined(WordsOf(v)[t]);
    var b := d[4 * t..4 * t + 4];
    assert b[0] == (d + rest)[4 * t] && b[1] == (d + rest)[4 * t + 1];
    assert b[2] == (d + rest)[4 * t + 2] && b[3] == (d + rest)[4 * t + 3];
  }

  lemma OtherDigest(v: Vars, u: Vars)
    requires v.a != u.a
    ensures DigestOf(v) != DigestOf(u)
  {
    DigestWord(v, [], 0);
    DigestWord(u, [], 0);
    assert WordsOf(v)[0] != WordsOf(u)[0];
  }

  // ---- The messages of the tests ----------------------------------------------------------------------------

  // Byte by byte, so that nothing is evaluated but what is asked for.

  predicate IsAbc(m: seq<Byte>) {
    |m| == 3 && m[0] == 0x61 && m[1] == 0x62 && m[2] == 0x63
  }

  predicate IsPassword(m: seq<Byte>) {
    // "s3cret!"
    |m| == 7 && m[0] == 0x73 && m[1] == 0x33 && m[2] == 0x63 && m[3] == 0x72 && m[4] == 0x65 && m[5] == 0x74
    && m[6] == 0x21
  }

  predicate IsNonce(m: seq<Byte>) {
    // "random_nonce_value"
    |m| == 18 && m[0] == 0x72 && m[1] == 0x61 && m[2] == 0x6e && m[3] == 0x64 && m[4] == 0x6f && m[5] == 0x6d
    && m[6] == 0x5f && m[7] == 0x6e && m[8] == 0x6f && m[9] == 0x6e && m[10] == 0x63 && m[11] == 0x65
    && m[12] == 0x5f && m[13] == 0x76 && m[14] == 0x61 && m[15] == 0x6c && m[16] == 0x75 && m[17] == 0x65
  }

  lemma DigestBy(m: seq<Byte>, n: nat, w: Sixteen, d: Vars)
    requires |m| == n <= 55 && Padded(m, n) == w && BlockDigest(w) == d
    ensures Sha256(m) == DigestOf(d)
  {
    ShortDigest(m);
  }

  const ABC_BLOCK := Sixteen(Four(0x61626380, 0, 0, 0),
                             Four(0, 0, 0, 0),
                             Four(0, 0, 0, 0),
                             Four(0, 0, 0, 0x00000018))
  const ABC := Vars(0xba7816bf, 0x8f01cfea, 0x414140de, 0x5dae2223,
                      0xb00361a3, 0x96177a9c, 0xb410ff61, 0xf20015ad)
  const STORED_BLOCK := Sixteen(Four(0x73336372, 0x65742180, 0, 0),
                                Four(0, 0, 0, 0),
                                Four(0, 0, 0, 0),
                                Four(0, 0, 0, 0x00000038))
  const STORED := Vars(0x5cb7b35e, 0xb7ae9bbd, 0x505baa5c, 0xde3fb64c,
                      0x1e9a5e88, 0x62072013, 0x989c0a55, 0x7ab9eaa2)
  const MADE_BLOCK := Sixteen(Four(0x73336372, 0x65742172, 0x616e646f, 0x6d5f6e6f),
                              Four(0x6e63655f, 0x76616c75, 0x65800000, 0),
                              Four(0, 0, 0, 0),
                              Four(0, 0, 0, 0x000000c8))
  const MADE := Vars(0x549257c2, 0x2d8492d2, 0x89b990e8, 0xd0d9c3c3,
                    0x76ce12fa, 0x3addfb0b, 0xe9b8fd07, 0xed8c5f7f)
  const EXPECTED_BLOCK := Sixteen(Four(0x5cb7b35e, 0xb7ae9bbd, 0x505baa5c, 0xde3fb64c),
                                  Four(0x1e9a5e88, 0x62072013, 0x989c0a55, 0x7ab9eaa2),
                                  Four(0x72616e64, 0x6f6d5f6e, 0x6f6e6365, 0x5f76616c),
                                  Four(0x75658000, 0, 0, 0x00000190))
  const EXPECTED := Vars(0xbe999db6, 0xd90680a6, 0x965a8cb1, 0x7af2e521,
                        0x507cabe0, 0x00a862d0, 0x1d6ea886, 0x6c3af623)

  lemma AbcWords(m: seq<Byte>)
    requires IsAbc(m)
    ensures Padded(m, 3) == ABC_BLOCK
  {
    assert FourOf(m, 3, 0) == Four(0x61626380, 0, 0, 0);
    assert FourOf(m, 3, 4) == Four(0, 0, 0, 0);
    assert FourOf(m, 3, 8) == Four(0, 0, 0, 0);
    assert FourOf(m, 3, 12) == Four(0, 0, 0, 0x00000018);
  }

  lemma AbcEvaluated(m: seq<Byte>)
    requires |m| == 3 && Padded(m, 3) == ABC_BLOCK
    ensures Sha256(m) == DigestOf(ABC)
  {
    DigestBy(m, 3, Padded(m, 3), ABC);
  }

  /** "abc" has the digest another test of the repository gives. */
  lemma AbcDigest(m: seq<Byte>)
    requires IsAbc(m)
    ensures Sha256(m) == DigestOf(ABC)
  {
    AbcWords(m);
    AbcEvaluated(m);
  }

  lemma StoredWords(m: seq<Byte>)
    requires IsPassword(m)
    ensures Padded(m, 7) == STORED_BLOCK
  {
    assert FourOf(m, 7, 0) == Four(0x73336372, 0x65742180, 0, 0);
    assert FourOf(m, 7, 4) == Four(0, 0, 0, 0);
    assert FourOf(m, 7, 8) == Four(0, 0, 0, 0);
    assert FourOf(m, 7, 12) == Four(0, 0, 0, 0x00000038);
  }

  lemma StoredEvaluated(m: seq<Byte>)
    requires |m| == 7 && Padded(m, 7) == STORED_BLOCK
    ensures Sha256(m) == DigestOf(STORED)
  {
    DigestBy(m, 7, Padded(m, 7), STORED);
  }

  lemma StoredDigest(m: seq<Byte>)
    requires IsPassword(m)
    ensures Sha256(m) == DigestOf(STORED)
  {
    StoredWords(m);
    StoredEvaluated(m);
  }

  lemma MadeWords(m: seq<Byte>)
    requires |m| == 25 && IsPassword(m[..7]) && IsNonce(m[7..])
    ensures Padded(m, 25) == MADE_BLOCK
  {
    assert forall i :: 0 <= i < 7 ==> m[i] == m[..7][i];
    assert forall i :: 7 <= i < 25 ==> m[i] == m[7..][i - 7];
  }

  lemma MadeEvaluated(m: seq<Byte>)
    requires |m| == 25 && Padded(m, 25) == MADE_BLOCK
    ensures Sha256(m) == DigestOf(MADE)
  {
    DigestBy(m, 25, Padded(m, 25), MADE);
  }

  lemma MadeDigest(m: seq<Byte>)
    requires |m| == 25 && IsPassword(m[..7]) && IsNonce(m[7..])
    ensures Sha256(m) == DigestOf(MADE)
  {
    MadeWords(m);
    MadeEvaluated(m);
  }

  lemma ExpectedWords(m: seq<Byte>)
    requires |m| == 50 && IsNonce(m[32..]) && FourOf(m, 50, 0) == Four(0x5cb7b35e, 0xb7ae9bbd, 0x505baa5c, 0xde3fb64c)
    requires FourOf(m, 50, 4) == Four(0x1e9a5e88, 0x62072013, 0x989c0a55, 0x7ab9eaa2)
    ensures Padded(m, 50) == EXPECTED_BLOCK
  {
    assert forall i :: 32 <= i < 50 ==> m[i] == m[32..][i - 32];
    assert FourOf(m, 50, 8) == Four(0x72616e64, 0x6f6d5f6e, 0x6f6e6365, 0x5f76616c);
    assert FourOf(m, 50, 12) == Four(0x75658000, 0, 0, 0x00000190);
  }

  lemma ExpectedEvaluated(m: seq<Byte>)
    requires |m| == 50 && Padded(m, 50) == EXPECTED_BLOCK
    ensures Sha256(m) == DigestOf(EXPECTED)
  {
    DigestBy(m, 50, Padded(m, 50), EXPECTED);
  }

  lemma ExpectedDigest(nonce: seq<Byte>)
    requires IsNonce(nonce)
    ensures Sha256(DigestOf(STORED) + nonce) == DigestOf(EXPECTED)
  {
    var m := DigestOf(STORED) + nonce;
    DigestWord(STORED, nonce, 0);
    DigestWord(STORED, nonce, 1);
    DigestWord(STORED, nonce, 2);
    DigestWord(STORED, nonce, 3);
    DigestWord(STORED, nonce, 4);
    DigestWord(STORED, nonce, 5);
    DigestWord(STORED, nonce, 6);
    DigestWord(STORED, nonce, 7);
    assert m[32..] == nonce;
    ExpectedWords(m);
    ExpectedEvaluated(m);
  }

  lemma RefusedWhen(password: seq<Byte>, nonce: seq<Byte>, stored: Vars, made: Vars, expected: Vars)
    requires Sha256(password) == DigestOf(stored) && Sha256(password + nonce) == DigestOf(made)
    requires Sha256(DigestOf(stored) + nonce) == DigestOf(expected) && made.a != expected.a
    ensures Verdict(HexEncode(Sha256(password)), nonce, Sha256(password + nonce)) == Some(false)
  {
    OtherDigest(made, expected);
    StoredDigestAccepts(password, nonce);
  }

  /** The right password refused: the very one, with the very nonce, that the repository's own test
      expects to be accepted. */
  lemma RightPasswordRefused(password: seq<Byte>, nonce: seq<Byte>)
    requires IsPassword(password) && IsNonce(nonce)
    ensures Verdict(HexEncode(Sha256(password)), nonce, Sha256(password + nonce)) == Some(false)
  {
    var m := password + nonce;
    assert m[..7] == password && m[7..] == nonce;
    StoredDigest(password);
    MadeDigest(m);
    ExpectedDigest(nonce);
    RefusedWhen(password, nonce, STORED, MADE, EXPECTED);
  }
}
