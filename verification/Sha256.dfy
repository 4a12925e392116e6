/** The hashing code itself: the one-shot hash, HMAC and key derivation of
    crates/rdesk_crypto/src/session_key.rs and the incremental hasher of crates/rdesk_crypto/src/auth.rs,
    each proved to compute what the standards say. */
module Sha256Code {
  import opened Fips180

  const TWO_64: nat := 0x1_0000_0000_0000_0000
  const HKDF_SALT := "rdesk-session-key-v1"

  // ---- Rotations -----------------------------------------------------------------------------

  lemma Sigma0Rotates(x: Word)
    ensures x.RotateRight(7) ^ x.RotateRight(18) ^ (x >> 3) == SmallSigma0(x)
  {
  }

  lemma Sigma1Rotates(x: Word)
    ensures x.RotateRight(17) ^ x.RotateRight(19) ^ (x >> 10) == SmallSigma1(x)
  {
  }

  lemma BigSigma0Rotates(x: Word)
    ensures x.RotateRight(2) ^ x.RotateRight(13) ^ x.RotateRight(22) == BigSigma0(x)
  {
  }

  lemma BigSigma1Rotates(x: Word)
    ensures x.RotateRight(6) ^ x.RotateRight(11) ^ x.RotateRight(25) == BigSigma1(x)
  {
  }

  /** Wrapping sums as the code writes them; the schedule's runs the other way round. */
  method AddFour(p: Word, q: Word, r: Word, s: Word) returns (x: Word)
    ensures x == Sum4(s, r, q, p)
  {
    x := p + q + r + s;
  }

  method AddFive(p: Word, q: Word, r: Word, s: Word, t: Word) returns (x: Word)
    ensures x == Sum5(p, q, r, s, t)
  {
    x := p + q + r + s + t;
  }

  // ---- Compression ---------------------------------------------------------------------------

  /** One later word of the schedule from four earlier ones. */
  method LaterWord(w16: Word, w15: Word, w7: Word, w2: Word) returns (x: Word)
    ensures x == Mix(w2, w7, w15, w16)
  {
    Sigma0Rotates(w15);
    Sigma1Rotates(w2);
    var s0 := w15.RotateRight(7) ^ w15.RotateRight(18) ^ (w15 >> 3);
    var s1 := w2.RotateRight(17) ^ w2.RotateRight(19) ^ (w2 >> 10);
    x := AddFour(w16, s0, w7, s1);
  }

  method FirstWords(w: array<Word>, block: seq<Byte>)
    requires |block| == 64 && w.Length == 64
    modifies w
    ensures forall t :: 0 <= t < 16 ==> w[t] == Schedule(block, t)
  {
    for i := 0 to 16
      invariant forall t :: 0 <= t < i ==> w[t] == Schedule(block, t)
    {
      assert block[4 * i..4 * i + 4] == [block[i * 4], block[i * 4 + 1], block[i * 4 + 2], block[i * 4 + 3]];
      w[i] := WordOf([block[i * 4], block[i * 4 + 1], block[i * 4 + 2], block[i * 4 + 3]]);
    }
  }

  method MessageSchedule(block: seq<Byte>) returns (w: array<Word>)
    requires |block| == 64
    ensures fresh(w) && w.Length == 64 && forall t :: 0 <= t < 64 ==> w[t] == Schedule(block, t)
  {
    w := new Word[64](_ => 0);
    FirstWords(w, block);
    for i := 16 to 64
      invariant forall t :: 0 <= t < i ==> w[t] == Schedule(block, t)
    {
      w[i] := LaterWord(w[i - 16], w[i - 15], w[i - 7], w[i - 2]);
    }
  }

  method FirstTemporary(e: Word, f: Word, g: Word, h: Word, k: Word, w: Word) returns (temp1: Word)
    ensures temp1 == Sum5(h, BigSigma1(e), Ch(e, f, g), k, w)
  {
    BigSigma1Rotates(e);
    var s1 := e.RotateRight(6) ^ e.RotateRight(11) ^ e.RotateRight(25);
    var ch := (e & f) ^ (!e & g);
    temp1 := AddFive(h, s1, ch, k, w);
  }

  method SecondTemporary(a: Word, b: Word, c: Word) returns (temp2: Word)
    ensures temp2 == Plus(BigSigma0(a), Maj(a, b, c))
  {
    BigSigma0Rotates(a);
    var s0 := a.RotateRight(2) ^ a.RotateRight(13) ^ a.RotateRight(22);
    var maj := (a & b) ^ (a & c) ^ (b & c);
    temp2 := Plus(s0, maj);
  }

  method OneRound(v: Vars, k: Word, w: Word) returns (r: Vars)
    ensures r == Round(v, k, w)
  {
    var Vars(a, b, c, d, e, f, g, h) := v;
    var temp1 := FirstTemporary(e, f, g, h, k, w);
    var temp2 := SecondTemporary(a, b, c);
    h := g;
    g := f;
    f := e;
    e := Plus(d, temp1);
    d := c;
    c := b;
    b := a;
    a := Plus(temp1, temp2);
    r := Vars(a, b, c, d, e, f, g, h);
  }

  method AllRounds(before: Vars, block: seq<Byte>) returns (v: Vars)
    requires |block| == 64
    ensures v == Rounds(before, block, 64)
  {
    var w := MessageSchedule(block);
    v := before;
    for i := 0 to 64
      invariant v == Rounds(before, block, i)
      invariant forall t :: 0 <= t < 64 ==> w[t] == Schedule(block, t)
    {
      v := OneRound(v, K[i], w[i]);
    }
  }

  method AddToState(state: array<Word>, v: Vars, ghost was: Vars)
    requires state.Length == 8 && state[..] == WordsOf(was)
    modifies state
    ensures state[..] == WordsOf(AddVars(was, v))
  {
    StateWords(state[..], was);
    state[0] := Plus(state[0], v.a);
    state[1] := Plus(state[1], v.b);
    state[2] := Plus(state[2], v.c);
    state[3] := Plus(state[3], v.d);
    state[4] := Plus(state[4], v.e);
    state[5] := Plus(state[5], v.f);
    state[6] := Plus(state[6], v.g);
    state[7] := Plus(state[7], v.h);
    StateIs(state[..], AddVars(was, v));
  }

  lemma StateWords(s: seq<Word>, v: Vars)
    requires s == WordsOf(v)
    ensures |s| == 8 && s[0] == v.a && s[1] == v.b && s[2] == v.c && s[3] == v.d
    ensures s[4] == v.e && s[5] == v.f && s[6] == v.g && s[7] == v.h
  {
  }

  lemma StateIs(s: seq<Word>, v: Vars)
    requires |s| == 8 && s[0] == v.a && s[1] == v.b && s[2] == v.c && s[3] == v.d
    requires s[4] == v.e && s[5] == v.f && s[6] == v.g && s[7] == v.h
    ensures s == WordsOf(v)
  {
  }

  method CompressBlock(state: array<Word>, block: seq<Byte>, ghost before: Vars)
    requires state.Length == 8 && state[..] == WordsOf(before) && |block| == 64
    modifies state
    ensures state[..] == WordsOf(Compress(before, block))
  {
    StateWords(state[..], before);
    var was := Vars(state[0], state[1], state[2], state[3], state[4], state[5], state[6], state[7]);
    var v := AllRounds(was, block);
    AddToState(state, v, before);
  }

  method InitialState() returns (state: array<Word>)
    ensures fresh(state) && state.Length == 8 && state[..] == WordsOf(H0)
  {
    state := new Word[8][0x6a09e667, 0xbb67ae85, 0x3c6ef372, 0xa54ff53a, 0x510e527f, 0x9b05688c, 0x1f83d9ab,
                         0x5be0cd19];
  }

  method CompressNext(state: array<Word>, ghost hashed: seq<Byte>, block: seq<Byte>)
    requires state.Length == 8 && |hashed| % 64 == 0 && |block| == 64 && state[..] == WordsOf(HashBlocks(hashed))
    modifies state
    ensures |hashed + block| % 64 == 0 && state[..] == WordsOf(HashBlocks(hashed + block))
  {
    CompressBlock(state, block, HashBlocks(hashed));
    HashBlocksAppend(hashed, block);
  }

  lemma OneBlockMore(done: seq<Byte>, data: seq<Byte>, n: nat)
    requires n + 64 <= |data|
    ensures done + data[..n] + data[n..n + 64] == done + data[..n + 64]
  {
    assert data[..n] + data[n..n + 64] == data[..n + 64];
  }

  /** Compress every whole block of the data, in order. */
  method CompressAll(state: array<Word>, ghost done: seq<Byte>, data: seq<Byte>)
    requires state.Length == 8 && |done| % 64 == 0 && |data| % 64 == 0 && state[..] == WordsOf(HashBlocks(done))
    modifies state
    ensures |done + data| % 64 == 0 && state[..] == WordsOf(HashBlocks(done + data))
  {
    var blocks := |data| / 64;
    ghost var hashed := done;
    assert data[..0] == [];
    for k := 0 to blocks
      invariant hashed == done + data[..64 * k] && |hashed| % 64 == 0
      invariant state[..] == WordsOf(HashBlocks(hashed))
    {
      CompressNext(state, hashed, data[64 * k..64 * k + 64]);
      OneBlockMore(done, data, 64 * k);
      hashed := hashed + data[64 * k..64 * k + 64];
    }
    assert data[..64 * blocks] == data;
  }

  method Digest(state: array<Word>, ghost v: Vars) returns (out: seq<Byte>)
    requires state.Length == 8 && state[..] == WordsOf(v)
    ensures out == DigestOf(v)
  {
    out := [];
    for i := 0 to 8
      invariant out == WordBytes(state[..i])
    {
      assert state[..i + 1][..i] == state[..i];
      out := out + BytesOf(state[i]);
    }
    assert state[..8] == state[..];
  }

  // ---- The one-shot hash (session_key.rs) -----------------------------------------------------------

  /** The loop below stops after exactly the zeros of the standard. */
  lemma WhenPadded(tail: nat, total: nat, zeros: nat)
    requires tail % 64 == total % 64 && zeros <= ZeroCount(total)
    ensures (tail + 1 + zeros) % 64 == 56 <==> zeros == ZeroCount(total)
  {
    var k := tail % 64;
    assert ZeroCount(total) == if k <= 55 then 55 - k else 119 - k;
    assert (tail + 1 + zeros) % 64 == (k + 1 + zeros) % 64;
  }

  lemma OneMoreZero(tail: seq<Byte>, n: nat)
    ensures (tail + ([0x80] + Zeros(n))) + [0] == tail + ([0x80] + Zeros(n + 1))
  {
  }

  method AddZeros(tail: seq<Byte>, ghost total: nat) returns (padded: seq<Byte>)
    requires |tail| % 64 == total % 64
    ensures padded == tail + Mark(total) && |padded| % 64 == 56
  {
    ghost var zeros := 0;
    padded := tail + [0x80];
    WhenPadded(|tail|, total, zeros);
    assert [0x80] + Zeros(0) == [0x80];
    while |padded| % 64 != 56
      invariant padded == tail + ([0x80] + Zeros(zeros)) && zeros <= ZeroCount(total)
      invariant |padded| % 64 == 56 <==> zeros == ZeroCount(total)
      decreases ZeroCount(total) - zeros
    {
      OneMoreZero(tail, zeros);
      padded := padded + [0x00];
      zeros := zeros + 1;
      WhenPadded(|tail|, total, zeros);
    }
  }

  lemma Regroup(a: seq<Byte>, b: seq<Byte>, c: seq<Byte>)
    ensures a + (b + c) == (a + b) + c
  {
  }

  method LengthBytes(totalLen: nat) returns (b: seq<Byte>)
    requires 8 * totalLen < TWO_64
    ensures b == BigEndian(8 * totalLen, 8)
  {
    var bits := 8 * totalLen % TWO_64;
    assert bits == 8 * totalLen;
    b := BigEndian(bits, 8);
  }

  lemma LastEight(n: nat)
    requires n % 64 == 56
    ensures (n + 8) % 64 == 0
  {
  }

  /** Append the padding of a message of the given length, kept as a 64-bit counter, to its tail. */
  method PadTail(tail: seq<Byte>, totalLen: nat) returns (padded: seq<Byte>)
    requires |tail| % 64 == totalLen % 64 && 8 * totalLen < TWO_64
    ensures padded == tail + Trailer(totalLen) && |padded| % 64 == 0
  {
    var front := AddZeros(tail, totalLen);
    var length := LengthBytes(totalLen);
    LastEight(|front|);
    Regroup(tail, Mark(totalLen), length);
    padded := front + length;
  }

  method HashPadded(state: array<Word>, ghost hashed: seq<Byte>, padded: seq<Byte>) returns (out: seq<Byte>)
    requires state.Length == 8 && |hashed| % 64 == 0 && |padded| % 64 == 0 && state[..] == WordsOf(HashBlocks(hashed))
    modifies state
    ensures out == DigestOf(HashBlocks(hashed + padded))
  {
    CompressAll(state, hashed, padded);
    out := Digest(state, HashBlocks(hashed + padded));
  }

  lemma EmptyFirst(s: seq<Byte>)
    ensures [] + s == s
  {
  }

  method OneShot(data: seq<Byte>) returns (out: seq<Byte>)
    requires 8 * |data| < TWO_64
    ensures out == Sha256(data)
  {
    var state := InitialState();
    var padded := PadTail(data, |data|);
    EmptyFirst(padded);
    out := HashPadded(state, [], padded);
  }

  // ---- The incremental hasher (auth.rs) -----------------------------------------------------------------

  class Hasher {
    const state: array<Word>
    var buffer: seq<Byte>
    var totalLen: nat
    ghost var hashed: seq<Byte>
    ghost var message: seq<Byte>
    /** How often the 64-bit counter has wrapped. */
    ghost var wraps: nat

    /** The state holds the hash of the whole blocks given so far, the buffer the rest. */
    ghost predicate Valid()
      reads this, state
    {
      && state.Length == 8
      && message == hashed + buffer && |hashed| % 64 == 0 && |buffer| < 64
      && totalLen < TWO_64 && |message| == totalLen + wraps * TWO_64
      && state[..] == WordsOf(HashBlocks(hashed))
    }

    constructor ()
      ensures Valid() && fresh(state) && message == []
    {
      var s := InitialState();
      state := s;
      buffer, totalLen, hashed, message, wraps := [], 0, [], [], 0;
    }

    method Update(data: seq<Byte>)
      requires Valid()
      modifies this, state
      ensures Valid() && message == old(message) + data
    {
      Count(|data|);
      Buffer(data);
      Drain();
    }

    method Count(n: nat)
      requires totalLen < TWO_64 && |message| == totalLen + wraps * TWO_64
      modifies this`totalLen, this`wraps
      ensures totalLen < TWO_64 && |message| + n == totalLen + wraps * TWO_64
    {
      ghost var sum := totalLen + n;
      assert sum == sum / TWO_64 * TWO_64 + sum % TWO_64;
      wraps := wraps + sum / TWO_64;
      totalLen := (totalLen + n) % TWO_64;
    }

    method Buffer(data: seq<Byte>)
      requires message == hashed + buffer
      modifies this`buffer, this`message
      ensures message == old(message) + data == hashed + buffer
    {
      Regroup(hashed, buffer, data);
      buffer := buffer + data;
      message := message + data;
    }

    /** Compress the whole blocks waiting in the buffer. */
    method Drain()
      requires state.Length == 8 && message == hashed + buffer && |hashed| % 64 == 0
      requires state[..] == WordsOf(HashBlocks(hashed))
      modifies this`buffer, this`hashed, state
      ensures message == hashed + buffer && |hashed| % 64 == 0 && |buffer| < 64
      ensures state[..] == WordsOf(HashBlocks(hashed))
    {
      while |buffer| >= 64
        invariant message == hashed + buffer && |hashed| % 64 == 0
        invariant state[..] == WordsOf(HashBlocks(hashed))
      {
        CompressNext(state, hashed, buffer[..64]);
        FirstBlock(hashed, buffer);
        hashed := hashed + buffer[..64];
        buffer := buffer[64..];
      }
    }

    /** The digest is that of everything given to update, however it was split. */
    method Finalize() returns (out: seq<Byte>)
      requires Valid() && 8 * |message| < TWO_64
      modifies state
      ensures out == Sha256(message)
    {
      TailLength(hashed, buffer, message, totalLen);
      var padded := PadTail(buffer, totalLen);
      PadSplit(hashed, buffer, message, padded);
      out := HashPadded(state, hashed, padded);
    }
  }

  lemma TailLength(hashed: seq<Byte>, buffer: seq<Byte>, message: seq<Byte>, total: nat)
    requires message == hashed + buffer && |hashed| % 64 == 0 && total == |message|
    ensures |buffer| % 64 == total % 64
  {
  }

  lemma PadSplit(hashed: seq<Byte>, buffer: seq<Byte>, message: seq<Byte>, padded: seq<Byte>)
    requires message == hashed + buffer && padded == buffer + Trailer(|message|)
    ensures hashed + padded == Pad(message)
  {
    Regroup(hashed, buffer, Trailer(|message|));
  }

  lemma FirstBlock(hashed: seq<Byte>, buffer: seq<Byte>)
    requires |buffer| >= 64
    ensures hashed + buffer[..64] + buffer[64..] == hashed + buffer
  {
  }

  function Concat(parts: seq<seq<Byte>>): seq<Byte> {
    if parts == [] then [] else Concat(parts[..|parts| - 1]) + parts[|parts| - 1]
  }

  /** Any split of a message into updates hashes to the same digest as the whole. */
  method HashParts(parts: seq<seq<Byte>>) returns (out: seq<Byte>)
    requires 8 * |Concat(parts)| < TWO_64
    ensures out == Sha256(Concat(parts))
  {
    var hasher := new Hasher();
    for i := 0 to |parts|
      invariant hasher.Valid() && fresh(hasher) && fresh(hasher.state) && hasher.message == Concat(parts[..i])
    {
      hasher.Update(parts[i]);
      assert parts[..i + 1][..i] == parts[..i];
    }
    assert parts[..|parts|] == parts;
    out := hasher.Finalize();
  }

  method HashTwo(a: seq<Byte>, b: seq<Byte>) returns (out: seq<Byte>)
    requires 8 * |a + b| < TWO_64
    ensures out == Sha256(a + b)
  {
    var hasher := new Hasher();
    hasher.Update(a);
    EmptyFirst(a);
    hasher.Update(b);
    out := hasher.Finalize();
  }

  /** Every byte is looked at whatever the first difference; the answer is equality. */
  method ConstantTimeEq(a: seq<Byte>, b: seq<Byte>) returns (same: bool)
    ensures same <==> a == b
  {
    if |a| != |b| {
      return false;
    }
    var diff: Byte := 0;
    for i := 0 to |a|
      invariant diff == 0 <==> a[..i] == b[..i]
    {
      DifferenceSeen(diff, a[i], b[i]);
      assert a[..i + 1] == a[..i] + [a[i]] && b[..i + 1] == b[..i] + [b[i]];
      diff := diff | (a[i] ^ b[i]);
    }
    assert a[..|a|] == a && b[..|b|] == b;
    return diff == 0;
  }

  lemma DifferenceSeen(diff: Byte, x: Byte, y: Byte)
    ensures diff | (x ^ y) == 0 <==> diff == 0 && x == y
  {
  }

  // ---- HMAC and key derivation (session_key.rs) ---------------------------------------------------------------

  method HmacSha256(key: seq<Byte>, message: seq<Byte>) returns (out: seq<Byte>)
    requires 8 * |key| < TWO_64 && 8 * (64 + |message|) < TWO_64
    ensures out == Hmac(key, message)
  {
    var keyBlock := key;
    if |key| > 64 {
      keyBlock := OneShot(key);
    }
    keyBlock := keyBlock + Zeros(64 - |keyBlock|);
    var innerPad: seq<Byte>, outerPad: seq<Byte> := [], [];
    for i := 0 to 64
      invariant |innerPad| == |outerPad| == i
      invariant forall j :: 0 <= j < i ==> innerPad[j] == keyBlock[j] ^ 0x36 && outerPad[j] == keyBlock[j] ^ 0x5c
    {
      innerPad := innerPad + [keyBlock[i] ^ 0x36];
      outerPad := outerPad + [keyBlock[i] ^ 0x5c];
    }
    assert innerPad == XorByte(KeyBlock(key), 0x36) && outerPad == XorByte(KeyBlock(key), 0x5c);
    var inner := OneShot(innerPad + message);
    out := OneShot(outerPad + inner);
  }

  function AsciiBytes(s: string): (b: seq<Byte>)
    requires forall i :: 0 <= i < |s| ==> s[i] < 256 as char
    ensures |b| == |s|
  {
    seq(|s|, i requires 0 <= i < |s| => (s[i] as int) as Byte)
  }

  /** One block of HKDF with the fixed salt: a 32-byte key needs no more. */
  method DeriveSessionKey(sharedSecret: seq<Byte>, context: seq<Byte>) returns (okm: seq<Byte>)
    requires 8 * (64 + |sharedSecret|) < TWO_64 && 8 * (65 + |context|) < TWO_64
    ensures okm == Expand(Extract(AsciiBytes(HKDF_SALT), sharedSecret), context, 32)
  {
    var prk := HmacSha256(AsciiBytes(HKDF_SALT), sharedSecret);
    var info := context + [0x01];
    okm := HmacSha256(prk, info);
    assert T(prk, context, 0) + context + [1 as Byte] == info;
    assert Blocks(prk, context, 1) == [] + T(prk, context, 1);
  }
}
