/** SHA-256 as FIPS 180-4 states it, HMAC as RFC 2104 and HKDF as RFC 5869: the references the
    hashing code of crates/rdesk_crypto is proved against. Messages are byte sequences. */
module Fips180 {
  type Byte = bv8
  type Word = bv32

  // ---- Functions and constants, sections 3.2, 4.1.2, 4.2.2 and 5.3.3 ------------------------

  // Sums of two, four and five words, modulo 2^32.

  function Plus(x: Word, y: Word): Word { x + y }
  function Sum4(p: Word, q: Word, r: Word, s: Word): Word { p + q + r + s }
  function Sum5(p: Word, q: Word, r: Word, s: Word, t: Word): Word { p + q + r + s + t }

  function Ch(x: Word, y: Word, z: Word): Word { (x & y) ^ (!x & z) }
  function Maj(x: Word, y: Word, z: Word): Word { (x & y) ^ (x & z) ^ (y & z) }

  // The right rotation of a word by n is (x >> n) | (x << 32 - n).

  function BigSigma0(x: Word): Word {
    ((x >> 2) | (x << 30)) ^ ((x >> 13) | (x << 19)) ^ ((x >> 22) | (x << 10))
  }

  function BigSigma1(x: Word): Word {
    ((x >> 6) | (x << 26)) ^ ((x >> 11) | (x << 21)) ^ ((x >> 25) | (x << 7))
  }

  function SmallSigma0(x: Word): Word {
    ((x >> 7) | (x << 25)) ^ ((x >> 18) | (x << 14)) ^ (x >> 3)
  }

  function SmallSigma1(x: Word): Word {
    ((x >> 17) | (x << 15)) ^ ((x >> 19) | (x << 13)) ^ (x >> 10)
  }

  const K: seq<Word> := [
    0x428a2f98, 0x71374491, 0xb5c0fbcf, 0xe9b5dba5, 0x3956c25b, 0x59f111f1, 0x923f82a4, 0xab1c5ed5,
    0xd807aa98, 0x12835b01, 0x243185be, 0x550c7dc3, 0x72be5d74, 0x80deb1fe, 0x9bdc06a7, 0xc19bf174] + [
    0xe49b69c1, 0xefbe4786, 0x0fc19dc6, 0x240ca1cc, 0x2de92c6f, 0x4a7484aa, 0x5cb0a9dc, 0x76f988da,
    0x983e5152, 0xa831c66d, 0xb00327c8, 0xbf597fc7, 0xc6e00bf3, 0xd5a79147, 0x06ca6351, 0x14292967] + [
    0x27b70a85, 0x2e1b2138, 0x4d2c6dfc, 0x53380d13, 0x650a7354, 0x766a0abb, 0x81c2c92e, 0x92722c85,
    0xa2bfe8a1, 0xa81a664b, 0xc24b8b70, 0xc76c51a3, 0xd192e819, 0xd6990624, 0xf40e3585, 0x106aa070] + [
    0x19a4c116, 0x1e376c08, 0x2748774c, 0x34b0bcb5, 0x391c0cb3, 0x4ed8aa4a, 0x5b9cca4f, 0x682e6ff3,
    0x748f82ee, 0x78a5636f, 0x84c87814, 0x8cc70208, 0x90befffa, 0xa4506ceb, 0xbef9a3f7, 0xc67178f2]

  datatype Vars = Vars(a: Word, b: Word, c: Word, d: Word, e: Word, f: Word, g: Word, h: Word)

  const H0 := Vars(0x6a09e667, 0xbb67ae85, 0x3c6ef372, 0xa54ff53a, 0x510e527f, 0x9b05688c, 0x1f83d9ab, 0x5be0cd19)

  // ---- Bytes and words, section 3.1 -----------------------------------------------------------

  function WordOf(b: seq<Byte>): Word
    requires |b| == 4
  {
    ((b[0] as Word) << 24) | ((b[1] as Word) << 16) | ((b[2] as Word) << 8) | (b[3] as Word)
  }

  function BytesOf(w: Word): seq<Byte> {
    [(w >> 24) as Byte, ((w >> 16) & 0xff) as Byte, ((w >> 8) & 0xff) as Byte, (w & 0xff) as Byte]
  }

  /** n as k big-endian bytes. */
  function BigEndian(n: nat, k: nat): (s: seq<Byte>)
    ensures |s| == k
  {
    if k == 0 then [] else BigEndian(n / 256, k - 1) + [(n % 256) as Byte]
  }

  // ---- Padding and parsing, sections 5.1.1 and 5.2.1 -------------------------------------------

  function Zeros(n: nat): (s: seq<Byte>)
    ensures |s| == n
  {
    seq(n, _ => 0)
  }

  /** The least number of zero bytes that brings the length plus one to 56 modulo 64. */
  function ZeroCount(n: nat): nat { (55 - n) % 64 }

  /** The end mark and the zeros after a message of n bytes. */
  function Mark(n: nat): (t: seq<Byte>)
    ensures |t| == 1 + ZeroCount(n)
  {
    [0x80] + Zeros(ZeroCount(n))
  }

  /** What follows a message of n bytes. */
  function Trailer(n: nat): (t: seq<Byte>)
    ensures |t| == 9 + ZeroCount(n) && t[0] == 0x80 && forall i :: 1 <= i < |t| - 8 ==> t[i] == 0
  {
    Mark(n) + BigEndian(8 * n, 8)
  }

  function Pad(m: seq<Byte>): (p: seq<Byte>)
    ensures |p| % 64 == 0
  {
    m + Trailer(|m|)
  }

  // ---- The hash computation, section 6.2.2 ------------------------------------------------------

  function Mix(w2: Word, w7: Word, w15: Word, w16: Word): Word {
    Sum4(SmallSigma1(w2), w7, SmallSigma0(w15), w16)
  }

  function Schedule(block: seq<Byte>, t: nat): Word
    requires |block| == 64 && t < 64
  {
    if t < 16 then WordOf(block[4 * t..4 * t + 4])
    else Mix(Schedule(block, t - 2), Schedule(block, t - 7), Schedule(block, t - 15), Schedule(block, t - 16))
  }

  function Round(v: Vars, k: Word, w: Word): Vars {
    var t1 := Sum5(v.h, BigSigma1(v.e), Ch(v.e, v.f, v.g), k, w);
    var t2 := Plus(BigSigma0(v.a), Maj(v.a, v.b, v.c));
    Vars(Plus(t1, t2), v.a, v.b, v.c, Plus(v.d, t1), v.e, v.f, v.g)
  }

  function Rounds(v: Vars, block: seq<Byte>, t: nat): Vars
    requires |block| == 64 && t <= 64
  {
    if t == 0 then v else Round(Rounds(v, block, t - 1), K[t - 1], Schedule(block, t - 1))
  }

  function AddVars(x: Vars, y: Vars): Vars {
    Vars(Plus(x.a, y.a), Plus(x.b, y.b), Plus(x.c, y.c), Plus(x.d, y.d),
         Plus(x.e, y.e), Plus(x.f, y.f), Plus(x.g, y.g), Plus(x.h, y.h))
  }

  function Compress(h: Vars, block: seq<Byte>): Vars
    requires |block| == 64
  {
    AddVars(h, Rounds(h, block, 64))
  }

  /** The intermediate hash value after all the 64-byte blocks of s. */
  function HashBlocks(s: seq<Byte>): Vars
    requires |s| % 64 == 0
  {
    if s == [] then H0 else Compress(HashBlocks(s[..|s| - 64]), s[|s| - 64..])
  }

  function WordsOf(v: Vars): (s: seq<Word>)
    ensures |s| == 8
  {
    [v.a, v.b, v.c, v.d, v.e, v.f, v.g, v.h]
  }

  function WordBytes(s: seq<Word>): (b: seq<Byte>)
    ensures |b| == 4 * |s|
  {
    if s == [] then [] else WordBytes(s[..|s| - 1]) + BytesOf(s[|s| - 1])
  }

  function DigestOf(v: Vars): (d: seq<Byte>)
    ensures |d| == 32
  {
    WordBytes(WordsOf(v))
  }

  function Sha256(m: seq<Byte>): (d: seq<Byte>)
    ensures |d| == 32
  {
    DigestOf(HashBlocks(Pad(m)))
  }

  lemma HashBlocksAppend(s: seq<Byte>, block: seq<Byte>)
    requires |s| % 64 == 0 && |block| == 64
    ensures HashBlocks(s + block) == Compress(HashBlocks(s), block)
  {
    assert (s + block)[..|s|] == s && (s + block)[|s|..] == block;
  }

  // ---- The padding is unambiguous -----------------------------------------------------------------

  lemma PadBytes(m: seq<Byte>)
    ensures var p := Pad(m);
            |m| + 9 <= |p| && p[..|m|] == m && p[|m|] == 0x80 && forall i :: |m| < i < |p| - 8 ==> p[i] == 0
  {
    var p, t := Pad(m), Trailer(|m|);
    assert forall i :: |m| <= i < |p| ==> p[i] == t[i - |m|];
  }

  /** No other message is padded to the same bytes: its end mark would lie among the zeros. */
  lemma PaddingIsInjective(m: seq<Byte>, n: seq<Byte>)
    requires Pad(m) == Pad(n)
    ensures m == n
  {
    PadBytes(m);
    PadBytes(n);
  }

  // ---- HMAC, section 2 of RFC 2104 -------------------------------------------------------------------

  function XorByte(s: seq<Byte>, b: Byte): (r: seq<Byte>)
    ensures |r| == |s|
  {
    seq(|s|, i requires 0 <= i < |s| => s[i] ^ b)
  }

  function KeyBlock(key: seq<Byte>): (b: seq<Byte>)
    ensures |b| == 64
  {
    var k := if |key| > 64 then Sha256(key) else key;
    k + Zeros(64 - |k|)
  }

  function Hmac(key: seq<Byte>, text: seq<Byte>): (d: seq<Byte>)
    ensures |d| == 32
  {
    Sha256(XorByte(KeyBlock(key), 0x5c) + Sha256(XorByte(KeyBlock(key), 0x36) + text))
  }

  // ---- HKDF, sections 2.2 and 2.3 of RFC 5869 -----------------------------------------------------------

  function Extract(salt: seq<Byte>, ikm: seq<Byte>): (prk: seq<Byte>)
    ensures |prk| == 32
  {
    Hmac(salt, ikm)
  }

  function T(prk: seq<Byte>, info: seq<Byte>, n: nat): (t: seq<Byte>)
    requires n <= 255
    ensures |t| == if n == 0 then 0 else 32
  {
    if n == 0 then [] else Hmac(prk, T(prk, info, n - 1) + info + [n as Byte])
  }

  function Blocks(prk: seq<Byte>, info: seq<Byte>, n: nat): (b: seq<Byte>)
    requires n <= 255
    ensures |b| == 32 * n
  {
    if n == 0 then [] else Blocks(prk, info, n - 1) + T(prk, info, n)
  }

  function Expand(prk: seq<Byte>, info: seq<Byte>, length: nat): (okm: seq<Byte>)
    requires length <= 255 * 32
    ensures |okm| == length
  {
    Blocks(prk, info, (length + 31) / 32)[..length]
  }
}
