/** SHA-256 as FIPS 180-4 defines it. */
module Sha256Spec {
  type Byte = bv8
  type Word = bv32

  const INITIAL: seq<Word> := [
    0x6a09e667, 0xbb67ae85, 0x3c6ef372, 0xa54ff53a, 0x510e527f, 0x9b05688c, 0x1f83d9ab, 0x5be0cd19]

  const ROUND_CONSTANTS: seq<Word> :=
    [0x428a2f98, 0x71374491, 0xb5c0fbcf, 0xe9b5dba5, 0x3956c25b, 0x59f111f1, 0x923f82a4, 0xab1c5ed5] +
    [0xd807aa98, 0x12835b01, 0x243185be, 0x550c7dc3, 0x72be5d74, 0x80deb1fe, 0x9bdc06a7, 0xc19bf174] +
    [0xe49b69c1, 0xefbe4786, 0x0fc19dc6, 0x240ca1cc, 0x2de92c6f, 0x4a7484aa, 0x5cb0a9dc, 0x76f988da] +
    [0x983e5152, 0xa831c66d, 0xb00327c8, 0xbf597fc7, 0xc6e00bf3, 0xd5a79147, 0x06ca6351, 0x14292967] +
    [0x27b70a85, 0x2e1b2138, 0x4d2c6dfc, 0x53380d13, 0x650a7354, 0x766a0abb, 0x81c2c92e, 0x92722c85] +
    [0xa2bfe8a1, 0xa81a664b, 0xc24b8b70, 0xc76c51a3, 0xd192e819, 0xd6990624, 0xf40e3585, 0x106aa070] +
    [0x19a4c116, 0x1e376c08, 0x2748774c, 0x34b0bcb5, 0x391c0cb3, 0x4ed8aa4a, 0x5b9cca4f, 0x682e6ff3] +
    [0x748f82ee, 0x78a5636f, 0x84c87814, 0x8cc70208, 0x90befffa, 0xa4506ceb, 0xbef9a3f7, 0xc67178f2]

  /** Addition modulo 2^32 (section 3.2). */
  function Add(x: Word, y: Word): (z: Word) { x + y }

  // ---- section 4.1.2: the six logical functions

  function Rotr(x: Word, n: Word): (r: Word)
    requires 0 < n < 32
  {
    (x >> n) | (x << (32 - n))
  }

  function Ch(x: Word, y: Word, z: Word): (r: Word) { (x & y) ^ (!x & z) }

  function Maj(x: Word, y: Word, z: Word): (r: Word) { (x & y) ^ (x & z) ^ (y & z) }

  function BigSigma0(x: Word): (r: Word) { Rotr(x, 2) ^ Rotr(x, 13) ^ Rotr(x, 22) }

  function BigSigma1(x: Word): (r: Word) { Rotr(x, 6) ^ Rotr(x, 11) ^ Rotr(x, 25) }

  function SmallSigma0(x: Word): (r: Word) { Rotr(x, 7) ^ Rotr(x, 18) ^ (x >> 3) }

  function SmallSigma1(x: Word): (r: Word) { Rotr(x, 17) ^ Rotr(x, 19) ^ (x >> 10) }

  // ---- section 6.2.2: one block

  /** Word i of a block, most significant byte first (section 3.1). */
  function BlockWord(block: seq<Byte>, i: nat): (w: Word)
    requires |block| == 64 && i < 16
  {
    ((block[4 * i] as Word) << 24) | ((block[4 * i + 1] as Word) << 16) | ((block[4 * i + 2] as Word) << 8) | (block[4 * i + 3] as Word)
  }

  /** The word that follows at least sixteen words of a message schedule. */
  function NextWord(w: seq<Word>): (x: Word)
    requires |w| >= 16
  {
    Add(Add(Add(SmallSigma1(w[|w| - 2]), w[|w| - 7]), SmallSigma0(w[|w| - 15])), w[|w| - 16])
  }

  /** The first t words of the message schedule. */
  function Schedule(block: seq<Byte>, t: nat): (w: seq<Word>)
    requires |block| == 64
    ensures |w| == t
  {
    if t == 0 then []
    else
      var w := Schedule(block, t - 1);
      w + [if t <= 16 then BlockWord(block, t - 1) else NextWord(w)]
  }

  datatype Working = Working(a: Word, b: Word, c: Word, d: Word, e: Word, f: Word, g: Word, h: Word)

  function Round(v: Working, k: Word, w: Word): (v': Working)
  {
    var t1 := Add(Add(Add(Add(v.h, BigSigma1(v.e)), Ch(v.e, v.f, v.g)), k), w);
    var t2 := Add(BigSigma0(v.a), Maj(v.a, v.b, v.c));
    Working(Add(t1, t2), v.a, v.b, v.c, Add(v.d, t1), v.e, v.f, v.g)
  }

  /** The working variables after a round for each of these schedule words. */
  function Rounds(v: Working, words: seq<Word>): (v': Working)
    requires |words| <= 64
  {
    if words == [] then v
    else
      var n := |words| - 1;
      Round(Rounds(v, words[..n]), ROUND_CONSTANTS[n], words[n])
  }

  type Hash = h: seq<Word> | |h| == 8 witness INITIAL

  function Load(h: Hash): (v: Working)
  {
    Working(h[0], h[1], h[2], h[3], h[4], h[5], h[6], h[7])
  }

  /** Adds the working variables into the chaining value. */
  function Combine(h: Hash, v: Working): (h': Hash)
  {
    [Add(h[0], v.a), Add(h[1], v.b), Add(h[2], v.c), Add(h[3], v.d),
     Add(h[4], v.e), Add(h[5], v.f), Add(h[6], v.g), Add(h[7], v.h)]
  }

  function Compress(h: Hash, block: seq<Byte>): (h': Hash)
    requires |block| == 64
  {
    Combine(h, Rounds(Load(h), Schedule(block, 64)))
  }

  /** The chaining value after the first count blocks of a message. */
  function Absorb(m: seq<Byte>, count: nat): (h: Hash)
    requires 64 * count <= |m|
  {
    if count == 0 then INITIAL
    else Compress(Absorb(m, count - 1), m[64 * (count - 1)..64 * count])
  }

  // ---- section 5.1.1: padding

  /** The 64-bit message length in bits; it wraps like the counter it is kept in. */
  function BitLength(bytes: nat): (n: nat)
  {
    (8 * bytes) % 0x1_0000_0000_0000_0000
  }

  function Shift(n: nat, bytes: nat): (m: nat)
  {
    if bytes == 0 then n else Shift(n / 256, bytes - 1)
  }

  /** The lowest k binary digits of a number. */
  function LowBits(n: nat, k: nat): (b: Byte)
  {
    if k == 0 then 0 else (LowBits(n / 2, k - 1) << 1) | (if n % 2 == 1 then 1 else 0)
  }

  /** A number cut to its least significant byte. */
  function LowByte(n: nat): (b: Byte)
  {
    LowBits(n, 8)
  }

  /** Byte i of a 64-bit number, counted from the least significant. */
  function ByteOf(n: nat, i: nat): (b: Byte)
  {
    LowByte(Shift(n, i))
  }

  function LengthBytes(n: nat): (b: seq<Byte>)
    ensures |b| == 8
  {
    seq(8, i requires 0 <= i < 8 => ByteOf(n, 7 - i))
  }

  function Zeros(n: nat): (z: seq<Byte>)
    ensures |z| == n
  {
    seq(n, i => 0)
  }

  /** The fewest zeros that leave room for the length at the end of a block. */
  function ZeroCount(bytes: nat): (k: nat)
    ensures k < 64 && (bytes + 1 + k + 8) % 64 == 0
  {
    (119 - bytes % 64) % 64
  }

  /** How many blocks the padded message has. */
  function BlockCount(bytes: nat): (count: nat)
    ensures 64 * count == bytes + 1 + ZeroCount(bytes) + 8
  {
    (bytes + 1 + ZeroCount(bytes) + 8) / 64
  }

  function Pad(m: seq<Byte>): (p: seq<Byte>)
    ensures |p| == 64 * BlockCount(|m|)
  {
    m + [0x80] + Zeros(ZeroCount(|m|)) + LengthBytes(BitLength(|m|))
  }

  function WordBytes(w: Word): (b: seq<Byte>)
    ensures |b| == 4
  {
    [((w >> 24) & 0xff) as Byte, ((w >> 16) & 0xff) as Byte, ((w >> 8) & 0xff) as Byte, (w & 0xff) as Byte]
  }

  function Serialize(h: seq<Word>): (b: seq<Byte>)
    ensures |b| == 4 * |h|
  {
    if h == [] then [] else Serialize(h[..|h| - 1]) + WordBytes(h[|h| - 1])
  }

  /** The message digest. */
  function Digest(m: seq<Byte>): (d: seq<Byte>)
    ensures |d| == 32
  {
    Serialize(Absorb(Pad(m), BlockCount(|m|)))
  }
}
