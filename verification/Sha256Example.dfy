/** The one-block example published with the standard (FIPS 180-2, appendix B.1): the digest of "abc", word by
    word and round by round. It pins what the definition of the hash leaves to its own letters: rotations,
    constants, byte order. */
module Sha256Example {
  import opened Sha256Spec

  const ABC: seq<Byte> := [0x61, 0x62, 0x63]

  const DIGEST_OF_ABC: seq<Byte> :=
    [0xba, 0x78, 0x16, 0xbf] + [0x8f, 0x01, 0xcf, 0xea] + [0x41, 0x41, 0x40, 0xde] + [0x5d, 0xae, 0x22, 0x23] +
    [0xb0, 0x03, 0x61, 0xa3] + [0x96, 0x17, 0x7a, 0x9c] + [0xb4, 0x10, 0xff, 0x61] + [0xf2, 0x00, 0x15, 0xad]

  // ---------------------------------------------------------------- the schedule, eight words at a time

  const W0: seq<Word> := [
    0x61626380, 0x00000000, 0x00000000, 0x00000000, 0x00000000, 0x00000000, 0x00000000, 0x00000000]

  const W1: seq<Word> := [
    0x00000000, 0x00000000, 0x00000000, 0x00000000, 0x00000000, 0x00000000, 0x00000000, 0x00000018]

  const W2: seq<Word> := [
    0x61626380, 0x000f0000, 0x7da86405, 0x600003c6, 0x3e9d7b78, 0x0183fc00, 0x12dcbfdb, 0xe2e2c38e]

  const W3: seq<Word> := [
    0xc8215c1a, 0xb73679a2, 0xe5bc3909, 0x32663c5b, 0x9d209d67, 0xec8726cb, 0x702138a4, 0xd3b7973b]

  const W4: seq<Word> := [
    0x93f5997f, 0x3b68ba73, 0xaff4ffc1, 0xf10a5c62, 0x0a8b3996, 0x72af830a, 0x9409e33e, 0x24641522]

  const W5: seq<Word> := [
    0x9f47bf94, 0xf0a64f5a, 0x3e246a79, 0x27333ba3, 0x0c4763f2, 0x840abf27, 0x7a290d5d, 0x065c43da]

  const W6: seq<Word> := [
    0xfb3e89cb, 0xcc7617db, 0xb9e66c34, 0xa9993667, 0x84badedd, 0xc21462bc, 0x1487472c, 0xb20f7a99]

  const W7: seq<Word> := [
    0xef57b9cd, 0xebe6b238, 0x9fe3095e, 0x78bc8d4b, 0xa43fcf15, 0x668b2ff8, 0xeeaba2cc, 0x12b1edeb]

  const WORDS: seq<Word> := W0 + W1 + W2 + W3 + W4 + W5 + W6 + W7

  function Following(p: Word, q: Word, r: Word, s: Word): (x: Word)
  {
    Add(Add(Add(SmallSigma1(p), q), SmallSigma0(r)), s)
  }

  /** The eight words of c follow those of a and b. */
  predicate Follows(a: seq<Word>, b: seq<Word>, c: seq<Word>)
    requires |a| == |b| == |c| == 8
  {
    && c[0] == Following(b[6], b[1], a[1], a[0]) && c[1] == Following(b[7], b[2], a[2], a[1])
    && c[2] == Following(c[0], b[3], a[3], a[2]) && c[3] == Following(c[1], b[4], a[4], a[3])
    && c[4] == Following(c[2], b[5], a[5], a[4]) && c[5] == Following(c[3], b[6], a[6], a[5])
    && c[6] == Following(c[4], b[7], a[7], a[6]) && c[7] == Following(c[5], c[0], b[0], a[7])
  }

  lemma Words2()
    ensures Follows(W0, W1, W2)
  {
  }

  lemma Words3()
    ensures Follows(W1, W2, W3)
  {
  }

  lemma Words4()
    ensures Follows(W2, W3, W4)
  {
  }

  lemma Words5()
    ensures Follows(W3, W4, W5)
  {
  }

  lemma Words6()
    ensures Follows(W4, W5, W6)
  {
  }

  lemma Words7()
    ensures Follows(W5, W6, W7)
  {
  }

  lemma FollowsAt(a: seq<Word>, b: seq<Word>, c: seq<Word>, k: nat)
    requires |a| == |b| == |c| == 8 && Follows(a, b, c) && k < 8
    ensures
      var x := a + b + c;
      c[k] == Following(x[14 + k], x[9 + k], x[1 + k], x[k])
  {
    hide Following;
    match k
    case 0 => case 1 => case 2 => case 3 => case 4 => case 5 => case 6 => case 7 =>
  }

  lemma NextInRow(block: seq<Byte>, w: seq<Word>, a: seq<Word>, b: seq<Word>, c: seq<Word>, k: nat)
    requires |block| == 64 && |a| == |b| == |c| == 8 && Follows(a, b, c) && k < 8 && |w| + 24 <= 64
    requires Schedule(block, |w| + 16 + k) == w + a + b + c[..k]
    ensures Schedule(block, |w| + 17 + k) == w + a + b + c[..k + 1]
  {
    FollowsAt(a, b, c, k);
    hide Follows, Following, Schedule;
    var s, x := w + a + b + c[..k], a + b + c;
    assert s == w + x[..16 + k];
    NextIs(block, s, c[k]);
    assert s + [c[k]] == w + a + b + c[..k + 1];
  }

  lemma {:induction false} RowUpTo(block: seq<Byte>, w: seq<Word>, a: seq<Word>, b: seq<Word>, c: seq<Word>, k: nat)
    requires |block| == 64 && |a| == |b| == |c| == 8 && Follows(a, b, c) && k <= 8 && |w| + 24 <= 64
    requires Schedule(block, |w| + 16) == w + a + b
    ensures Schedule(block, |w| + 16 + k) == w + a + b + c[..k]
  {
    hide Follows, Schedule;
    if k == 0 {
      assert w + a + b + c[..0] == w + a + b;
    } else {
      RowUpTo(block, w, a, b, c, k - 1);
      NextInRow(block, w, a, b, c, k - 1);
    }
  }

  lemma FollowingRow(block: seq<Byte>, w: seq<Word>, a: seq<Word>, b: seq<Word>, c: seq<Word>)
    requires |block| == 64 && |a| == |b| == |c| == 8 && Follows(a, b, c)
    requires |w| + 24 <= 64 && Schedule(block, |w| + 16) == w + a + b
    ensures Schedule(block, |w| + 24) == w + a + b + c
  {
    hide Follows, Schedule;
    RowUpTo(block, w, a, b, c, 8);
    assert c[..8] == c;
  }

  lemma NextIs(block: seq<Byte>, s: seq<Word>, x: Word)
    requires |block| == 64 && 16 <= |s| < 64 && Schedule(block, |s|) == s
    requires x == Following(s[|s| - 2], s[|s| - 7], s[|s| - 15], s[|s| - 16])
    ensures Schedule(block, |s| + 1) == s + [x]
  {
    hide Add, SmallSigma0, SmallSigma1, BlockWord;
  }

  function Block(): (block: seq<Byte>)
    ensures |block| == 64
  {
    ABC + [0x80] + Zeros(52) + [0, 0, 0, 0, 0, 0, 0, 0x18]
  }

  lemma FirstWord()
    ensures BlockWord(Block(), 0) == W0[0]
  {
    var b := Block();
    assert b[0] == 0x61 && b[1] == 0x62 && b[2] == 0x63 && b[3] == 0x80;
    hide Block;
  }

  lemma MiddleWord(t: nat)
    requires 0 < t < 15
    ensures BlockWord(Block(), t) == 0
  {
    var b := Block();
    assert b[4 * t] == 0 && b[4 * t + 1] == 0 && b[4 * t + 2] == 0 && b[4 * t + 3] == 0;
    hide Block;
  }

  lemma LastWord()
    ensures BlockWord(Block(), 15) == W1[7]
  {
    var b := Block();
    assert b[60] == 0 && b[61] == 0 && b[62] == 0 && b[63] == 0x18;
    hide Block;
  }

  lemma ZeroWords(t: nat)
    requires 0 < t < 15
    ensures (W0 + W1)[t] == 0
  {
    assert W0[1..] == [0, 0, 0, 0, 0, 0, 0] && W1[..7] == [0, 0, 0, 0, 0, 0, 0];
  }

  lemma {:induction false} FirstWords(t: nat)
    requires t <= 16
    ensures Schedule(Block(), t) == (W0 + W1)[..t]
  {
    hide BlockWord, Block, NextWord;
    if t > 0 {
      FirstWords(t - 1);
      if t == 1 {
        FirstWord();
      } else if t == 16 {
        LastWord();
      } else {
        MiddleWord(t - 1);
        ZeroWords(t - 1);
      }
      assert (W0 + W1)[..t] == (W0 + W1)[..t - 1] + [(W0 + W1)[t - 1]];
    }
  }

  lemma SixRows(block: seq<Byte>, a: seq<Word>, b: seq<Word>, c: seq<Word>, d: seq<Word>, e: seq<Word>, f: seq<Word>, g: seq<Word>, h: seq<Word>)
    requires |block| == 64 && |a| == |b| == |c| == |d| == |e| == |f| == |g| == |h| == 8 && Schedule(block, 16) == a + b
    requires Follows(a, b, c) && Follows(b, c, d) && Follows(c, d, e) && Follows(d, e, f) && Follows(e, f, g) && Follows(f, g, h)
    ensures Schedule(block, 64) == a + b + c + d + e + f + g + h
  {
    hide Follows, Schedule;
    var none: seq<Word> := [];
    assert none + a + b == a + b;
    FollowingRow(block, none, a, b, c);
    assert none + a + b + c == a + b + c;
    FollowingRow(block, a, b, c, d);
    FollowingRow(block, a + b, c, d, e);
    FollowingRow(block, a + b + c, d, e, f);
    FollowingRow(block, a + b + c + d, e, f, g);
    FollowingRow(block, a + b + c + d + e, f, g, h);
  }

  lemma FirstSixteen()
    ensures Schedule(Block(), 16) == W0 + W1
  {
    FirstWords(16);
    hide Schedule, Block;
    assert (W0 + W1)[..16] == W0 + W1;
  }

  lemma ScheduleOfAbc()
    ensures Schedule(Block(), 64) == WORDS
  {
    FirstSixteen();
    hide Follows, Schedule, Block;
    Words2(); Words3(); Words4(); Words5(); Words6(); Words7();
    SixRows(Block(), W0, W1, W2, W3, W4, W5, W6, W7);
  }

  // ---------------------------------------------------------------- the rounds, eight at a time

  const A0: seq<Word> := [
    0xa54ff53a, 0x3c6ef372, 0xbb67ae85, 0x6a09e667, 0x5d6aebcd, 0x5a6ad9ad, 0xc8c347a7, 0xd550f666,
    0x04409a6a, 0x2b4209f5, 0xe5030380, 0x85a07b5f]

  const E0: seq<Word> := [
    0x5be0cd19, 0x1f83d9ab, 0x9b05688c, 0x510e527f, 0xfa2a4622, 0x78ce7989, 0xf92939eb, 0x24e00850,
    0x43ada245, 0x714260ad, 0x9b27a401, 0x0c657a79]

  const A1: seq<Word> := [
    0x04409a6a, 0x2b4209f5, 0xe5030380, 0x85a07b5f, 0x8e04ecb9, 0x8c87346b, 0x4798a3f4, 0xf71fc5a9,
    0x87912990, 0xd932eb16, 0xc0645fde, 0xb0fa238e]

  const E1: seq<Word> := [
    0x43ada245, 0x714260ad, 0x9b27a401, 0x0c657a79, 0x32ca2d8c, 0x1cc92596, 0x436b23e8, 0x816fd6e9,
    0x1e578218, 0x745a48de, 0x0b92f20c, 0x07590dcd]

  const A2: seq<Word> := [
    0x87912990, 0xd932eb16, 0xc0645fde, 0xb0fa238e, 0x21da9a9b, 0xc2fbd9d1, 0xfe777bbf, 0xe1f20c33,
    0x9dc68b63, 0xc2606d6d, 0xa7a3623f, 0xc5d53d8d]

  const E2: seq<Word> := [
    0x1e578218, 0x745a48de, 0x0b92f20c, 0x07590dcd, 0x8034229c, 0x846ee454, 0xcc899961, 0xb0638179,
    0x8ada8930, 0xe1257970, 0x49f5114a, 0xaa47c347]

  const A3: seq<Word> := [
    0x9dc68b63, 0xc2606d6d, 0xa7a3623f, 0xc5d53d8d, 0x1c2c2838, 0xcde8037d, 0xb62ec4bc, 0x77d37528,
    0x363482c9, 0xa0060b30, 0xea992a22, 0x73b33bf5]

  const E3: seq<Word> := [
    0x8ada8930, 0xe1257970, 0x49f5114a, 0xaa47c347, 0x2823ef91, 0x14383d8e, 0xc74c6516, 0xedffbff8,
    0x6112a3b7, 0xade79437, 0x0109ab3a, 0xba591112]

  const A4: seq<Word> := [
    0x363482c9, 0xa0060b30, 0xea992a22, 0x73b33bf5, 0x98e12507, 0xfe604df5, 0xa9a7738c, 0x65a0cfe4,
    0x41a65cb1, 0x34df1604, 0x6dc57a8a, 0x79ea687a]

  const E4: seq<Word> := [
    0x6112a3b7, 0xade79437, 0x0109ab3a, 0xba591112, 0x9cd9f5f6, 0x59249dd3, 0x085f3833, 0xf4b002d6,
    0x0772a26b, 0xa507a53d, 0xf0781bc8, 0x1efbc0a0]

  const A5: seq<Word> := [
    0x41a65cb1, 0x34df1604, 0x6dc57a8a, 0x79ea687a, 0xd6670766, 0xdf46652f, 0x17aa0dfe, 0x9d4baf93,
    0x26628815, 0x72ab4b91, 0xa14c14b0, 0x4172328d]

  const E5: seq<Word> := [
    0x0772a26b, 0xa507a53d, 0xf0781bc8, 0x1efbc0a0, 0x26352d63, 0x838b2711, 0xdecd4715, 0xfda24c2e,
    0xa80f11f0, 0xb7755da1, 0xd57b94a9, 0xfecf0bc6]

  const A6: seq<Word> := [
    0x26628815, 0x72ab4b91, 0xa14c14b0, 0x4172328d, 0x05757ceb, 0xf11bfaa8, 0x7a0508a1, 0x886e7a22,
    0x101fd28f, 0xf5702fdb, 0x3ec45cdb, 0x38cc9913]

  const E6: seq<Word> := [
    0xa80f11f0, 0xb7755da1, 0xd57b94a9, 0xfecf0bc6, 0xbd714038, 0x6e5c390c, 0x52f1ccf7, 0x49231c1e,
    0x529e7d00, 0x9f4787c3, 0xe50e1b4f, 0x54cb266b]

  const A7: seq<Word> := [
    0x101fd28f, 0xf5702fdb, 0x3ec45cdb, 0x38cc9913, 0xfcd1887b, 0xc062d46f, 0xffb70472, 0xb6ae8fff,
    0xb85e2ce9, 0x04d24d6c, 0xd39a2165, 0x506e3058]

  const E7: seq<Word> := [
    0x529e7d00, 0x9f4787c3, 0xe50e1b4f, 0x54cb266b, 0x9b5e906c, 0x7e44008e, 0x6d83bfc6, 0xb21bad3d,
    0x961f4894, 0x948d25b6, 0xfb121210, 0x5ef50f24]

  /** The working variables after i of eight rounds; the first four entries of a row are those before it. */
  function At(a: seq<Word>, e: seq<Word>, i: nat): (v: Working)
    requires |a| == |e| == 12 && i <= 8
  {
    Working(a[i + 3], a[i + 2], a[i + 1], a[i], e[i + 3], e[i + 2], e[i + 1], e[i])
  }

  /** Round i of eight yields the next entry of both rows. */
  predicate Turns(a: seq<Word>, e: seq<Word>, i: nat, k: Word, w: Word)
    requires |a| == |e| == 12 && i < 8
  {
    var t1 := Add(Add(Add(Add(e[i], BigSigma1(e[i + 3])), Ch(e[i + 3], e[i + 2], e[i + 1])), k), w);
    && a[i + 4] == Add(t1, Add(BigSigma0(a[i + 3]), Maj(a[i + 3], a[i + 2], a[i + 1])))
    && e[i + 4] == Add(a[i], t1)
  }

  predicate FourTurns(a: seq<Word>, e: seq<Word>, i: nat, k: seq<Word>, w: seq<Word>)
    requires |a| == |e| == 12 && |k| == |w| == 8 && i <= 4
  {
    && Turns(a, e, i, k[i], w[i]) && Turns(a, e, i + 1, k[i + 1], w[i + 1])
    && Turns(a, e, i + 2, k[i + 2], w[i + 2]) && Turns(a, e, i + 3, k[i + 3], w[i + 3])
  }

  lemma TurnIsRound(a: seq<Word>, e: seq<Word>, i: nat, k: Word, w: Word)
    requires |a| == |e| == 12 && i < 8 && Turns(a, e, i, k, w)
    ensures Round(At(a, e, i), k, w) == At(a, e, i + 1)
  {
    hide Add, BigSigma0, BigSigma1, Ch, Maj;
  }

  lemma OneRound(v: Working, x: seq<Word>, n: nat)
    requires n < |x| <= 64
    ensures Rounds(v, x[..n + 1]) == Round(Rounds(v, x[..n]), ROUND_CONSTANTS[n], x[n])
  {
    hide Round;
    assert x[..n + 1][..n] == x[..n];
  }

  lemma OneTurn(v: Working, x: seq<Word>, n: nat, a: seq<Word>, e: seq<Word>, i: nat, k: seq<Word>, w: seq<Word>)
    requires n + 8 <= |x| <= 64 && |a| == |e| == 12 && |k| == |w| == 8 && i < 8 && Turns(a, e, i, k[i], w[i])
    requires k == ROUND_CONSTANTS[n..n + 8] && w == x[n..n + 8] && Rounds(v, x[..n + i]) == At(a, e, i)
    ensures Rounds(v, x[..n + i + 1]) == At(a, e, i + 1)
  {
    hide Round, At, Rounds, Turns;
    TurnIsRound(a, e, i, k[i], w[i]);
    OneRound(v, x, n + i);
  }

  lemma EachTurn(a: seq<Word>, e: seq<Word>, i: nat, k: seq<Word>, w: seq<Word>)
    requires |a| == |e| == 12 && |k| == |w| == 8 && i < 8 && FourTurns(a, e, 0, k, w) && FourTurns(a, e, 4, k, w)
    ensures Turns(a, e, i, k[i], w[i])
  {
    hide Turns;
    match i
    case 0 => case 1 => case 2 => case 3 => case 4 => case 5 => case 6 => case 7 =>
  }

  /** Up to eight rounds of the example, from one row to the next. */
  lemma {:induction false} SomeRounds(v: Working, x: seq<Word>, n: nat, a: seq<Word>, e: seq<Word>, k: seq<Word>, w: seq<Word>, i: nat)
    requires n + 8 <= |x| <= 64 && |a| == |e| == 12 && |k| == |w| == 8 && i <= 8
    requires FourTurns(a, e, 0, k, w) && FourTurns(a, e, 4, k, w)
    requires k == ROUND_CONSTANTS[n..n + 8] && w == x[n..n + 8] && Rounds(v, x[..n]) == At(a, e, 0)
    ensures Rounds(v, x[..n + i]) == At(a, e, i)
  {
    hide Round, At, Rounds, Turns, FourTurns;
    if i > 0 {
      SomeRounds(v, x, n, a, e, k, w, i - 1);
      EachTurn(a, e, i - 1, k, w);
      OneTurn(v, x, n, a, e, i - 1, k, w);
    }
  }

  const K0: seq<Word> := [
    0x428a2f98, 0x71374491, 0xb5c0fbcf, 0xe9b5dba5, 0x3956c25b, 0x59f111f1, 0x923f82a4, 0xab1c5ed5]

  const K1: seq<Word> := [
    0xd807aa98, 0x12835b01, 0x243185be, 0x550c7dc3, 0x72be5d74, 0x80deb1fe, 0x9bdc06a7, 0xc19bf174]

  const K2: seq<Word> := [
    0xe49b69c1, 0xefbe4786, 0x0fc19dc6, 0x240ca1cc, 0x2de92c6f, 0x4a7484aa, 0x5cb0a9dc, 0x76f988da]

  const K3: seq<Word> := [
    0x983e5152, 0xa831c66d, 0xb00327c8, 0xbf597fc7, 0xc6e00bf3, 0xd5a79147, 0x06ca6351, 0x14292967]

  const K4: seq<Word> := [
    0x27b70a85, 0x2e1b2138, 0x4d2c6dfc, 0x53380d13, 0x650a7354, 0x766a0abb, 0x81c2c92e, 0x92722c85]

  const K5: seq<Word> := [
    0xa2bfe8a1, 0xa81a664b, 0xc24b8b70, 0xc76c51a3, 0xd192e819, 0xd6990624, 0xf40e3585, 0x106aa070]

  const K6: seq<Word> := [
    0x19a4c116, 0x1e376c08, 0x2748774c, 0x34b0bcb5, 0x391c0cb3, 0x4ed8aa4a, 0x5b9cca4f, 0x682e6ff3]

  const K7: seq<Word> := [
    0x748f82ee, 0x78a5636f, 0x84c87814, 0x8cc70208, 0x90befffa, 0xa4506ceb, 0xbef9a3f7, 0xc67178f2]

  lemma Rounds0()
    ensures FourTurns(A0, E0, 0, K0, W0)
  {
  }

  lemma MoreRounds0()
    ensures FourTurns(A0, E0, 4, K0, W0)
  {
  }

  lemma Rounds1()
    ensures FourTurns(A1, E1, 0, K1, W1)
  {
  }

  lemma MoreRounds1()
    ensures FourTurns(A1, E1, 4, K1, W1)
  {
  }

  lemma Rounds2()
    ensures FourTurns(A2, E2, 0, K2, W2)
  {
  }

  lemma MoreRounds2()
    ensures FourTurns(A2, E2, 4, K2, W2)
  {
  }

  lemma Rounds3()
    ensures FourTurns(A3, E3, 0, K3, W3)
  {
  }

  lemma MoreRounds3()
    ensures FourTurns(A3, E3, 4, K3, W3)
  {
  }

  lemma Rounds4()
    ensures FourTurns(A4, E4, 0, K4, W4)
  {
  }

  lemma MoreRounds4()
    ensures FourTurns(A4, E4, 4, K4, W4)
  {
  }

  lemma Rounds5()
    ensures FourTurns(A5, E5, 0, K5, W5)
  {
  }

  lemma MoreRounds5()
    ensures FourTurns(A5, E5, 4, K5, W5)
  {
  }

  lemma Rounds6()
    ensures FourTurns(A6, E6, 0, K6, W6)
  {
  }

  lemma MoreRounds6()
    ensures FourTurns(A6, E6, 4, K6, W6)
  {
  }

  lemma Rounds7()
    ensures FourTurns(A7, E7, 0, K7, W7)
  {
  }

  lemma MoreRounds7()
    ensures FourTurns(A7, E7, 4, K7, W7)
  {
  }

  lemma ConstantsRow0()
    ensures K0 == ROUND_CONSTANTS[0..8] && W0 == WORDS[0..8]
  {
  }

  lemma ConstantsRow1()
    ensures K1 == ROUND_CONSTANTS[8..16] && W1 == WORDS[8..16]
  {
  }

  lemma ConstantsRow2()
    ensures K2 == ROUND_CONSTANTS[16..24] && W2 == WORDS[16..24]
  {
  }

  lemma ConstantsRow3()
    ensures K3 == ROUND_CONSTANTS[24..32] && W3 == WORDS[24..32]
  {
  }

  lemma ConstantsRow4()
    ensures K4 == ROUND_CONSTANTS[32..40] && W4 == WORDS[32..40]
  {
  }

  lemma ConstantsRow5()
    ensures K5 == ROUND_CONSTANTS[40..48] && W5 == WORDS[40..48]
  {
  }

  lemma ConstantsRow6()
    ensures K6 == ROUND_CONSTANTS[48..56] && W6 == WORDS[48..56]
  {
  }

  lemma ConstantsRow7()
    ensures K7 == ROUND_CONSTANTS[56..64] && W7 == WORDS[56..64]
  {
  }

  lemma RowsMeet()
    ensures At(A0, E0, 8) == At(A1, E1, 0) && At(A1, E1, 8) == At(A2, E2, 0) && At(A2, E2, 8) == At(A3, E3, 0)
    ensures At(A3, E3, 8) == At(A4, E4, 0) && At(A4, E4, 8) == At(A5, E5, 0) && At(A5, E5, 8) == At(A6, E6, 0)
    ensures At(A6, E6, 8) == At(A7, E7, 0) && At(A0, E0, 0) == Load(INITIAL)
  {
  }

  lemma Row0(v: Working)
    requires Rounds(v, WORDS[..0]) == At(A0, E0, 0)
    ensures Rounds(v, WORDS[..8]) == At(A0, E0, 8)
  {
    Rounds0();
    MoreRounds0();
    ConstantsRow0();
    hide At, Rounds, FourTurns;
    SomeRounds(v, WORDS, 0, A0, E0, K0, W0, 8);
  }

  lemma Row1(v: Working)
    requires Rounds(v, WORDS[..8]) == At(A1, E1, 0)
    ensures Rounds(v, WORDS[..16]) == At(A1, E1, 8)
  {
    Rounds1();
    MoreRounds1();
    ConstantsRow1();
    hide At, Rounds, FourTurns;
    SomeRounds(v, WORDS, 8, A1, E1, K1, W1, 8);
  }

  lemma Row2(v: Working)
    requires Rounds(v, WORDS[..16]) == At(A2, E2, 0)
    ensures Rounds(v, WORDS[..24]) == At(A2, E2, 8)
  {
    Rounds2();
    MoreRounds2();
    ConstantsRow2();
    hide At, Rounds, FourTurns;
    SomeRounds(v, WORDS, 16, A2, E2, K2, W2, 8);
  }

  lemma Row3(v: Working)
    requires Rounds(v, WORDS[..24]) == At(A3, E3, 0)
    ensures Rounds(v, WORDS[..32]) == At(A3, E3, 8)
  {
    Rounds3();
    MoreRounds3();
    ConstantsRow3();
    hide At, Rounds, FourTurns;
    SomeRounds(v, WORDS, 24, A3, E3, K3, W3, 8);
  }

  lemma Row4(v: Working)
    requires Rounds(v, WORDS[..32]) == At(A4, E4, 0)
    ensures Rounds(v, WORDS[..40]) == At(A4, E4, 8)
  {
    Rounds4();
    MoreRounds4();
    ConstantsRow4();
    hide At, Rounds, FourTurns;
    SomeRounds(v, WORDS, 32, A4, E4, K4, W4, 8);
  }

  lemma Row5(v: Working)
    requires Rounds(v, WORDS[..40]) == At(A5, E5, 0)
    ensures Rounds(v, WORDS[..48]) == At(A5, E5, 8)
  {
    Rounds5();
    MoreRounds5();
    ConstantsRow5();
    hide At, Rounds, FourTurns;
    SomeRounds(v, WORDS, 40, A5, E5, K5, W5, 8);
  }

  lemma Row6(v: Working)
    requires Rounds(v, WORDS[..48]) == At(A6, E6, 0)
    ensures Rounds(v, WORDS[..56]) == At(A6, E6, 8)
  {
    Rounds6();
    MoreRounds6();
    ConstantsRow6();
    hide At, Rounds, FourTurns;
    SomeRounds(v, WORDS, 48, A6, E6, K6, W6, 8);
  }

  lemma Row7(v: Working)
    requires Rounds(v, WORDS[..56]) == At(A7, E7, 0)
    ensures Rounds(v, WORDS[..64]) == At(A7, E7, 8)
  {
    Rounds7();
    MoreRounds7();
    ConstantsRow7();
    hide At, Rounds, FourTurns;
    SomeRounds(v, WORDS, 56, A7, E7, K7, W7, 8);
  }

  lemma RoundsOfAbc()
    ensures Rounds(Load(INITIAL), WORDS) == At(A7, E7, 8)
  {
    var v := Load(INITIAL);
    RowsMeet();
    NoRounds(v);
    hide At, Rounds, Load;
    Row0(v); Row1(v); Row2(v); Row3(v); Row4(v); Row5(v); Row6(v); Row7(v);
    assert WORDS[..64] == WORDS;
  }

  lemma NoRounds(v: Working)
    ensures Rounds(v, WORDS[..0]) == v
  {
  }

  const HASH_OF_ABC: seq<Word> := [
    0xba7816bf, 0x8f01cfea, 0x414140de, 0x5dae2223, 0xb00361a3, 0x96177a9c, 0xb410ff61, 0xf20015ad]

  lemma HashOfAbc()
    ensures Compress(INITIAL, Block()) == HASH_OF_ABC
  {
    ScheduleOfAbc();
    RoundsOfAbc();
    hide Block, Schedule, Rounds;
    assert Combine(INITIAL, At(A7, E7, 8)) == HASH_OF_ABC;
  }

  lemma SerializeExtend(h: seq<Word>, k: nat)
    requires k < |h|
    ensures Serialize(h[..k + 1]) == Serialize(h[..k]) + WordBytes(h[k])
  {
    hide WordBytes;
    assert h[..k + 1][..k] == h[..k];
  }

  lemma BytesOfWords()
    ensures WordBytes(HASH_OF_ABC[0]) == [0xba, 0x78, 0x16, 0xbf] && WordBytes(HASH_OF_ABC[1]) == [0x8f, 0x01, 0xcf, 0xea]
    ensures WordBytes(HASH_OF_ABC[2]) == [0x41, 0x41, 0x40, 0xde] && WordBytes(HASH_OF_ABC[3]) == [0x5d, 0xae, 0x22, 0x23]
    ensures WordBytes(HASH_OF_ABC[4]) == [0xb0, 0x03, 0x61, 0xa3] && WordBytes(HASH_OF_ABC[5]) == [0x96, 0x17, 0x7a, 0x9c]
    ensures WordBytes(HASH_OF_ABC[6]) == [0xb4, 0x10, 0xff, 0x61] && WordBytes(HASH_OF_ABC[7]) == [0xf2, 0x00, 0x15, 0xad]
  {
  }

  lemma BytesOfHash()
    ensures Serialize(HASH_OF_ABC) == DIGEST_OF_ABC
  {
    BytesOfWords();
    hide Serialize, WordBytes;
    var h := HASH_OF_ABC;
    SerializeExtend(h, 0); SerializeExtend(h, 1); SerializeExtend(h, 2); SerializeExtend(h, 3);
    SerializeExtend(h, 4); SerializeExtend(h, 5); SerializeExtend(h, 6); SerializeExtend(h, 7);
    NothingToSerialize(h);
    assert h[..8] == h;
  }

  lemma NothingToSerialize(h: seq<Word>)
    ensures Serialize(h[..0]) == []
  {
  }

  // ---------------------------------------------------------------- the padding

  lemma LengthOfAbc()
    ensures LengthBytes(24) == [0, 0, 0, 0, 0, 0, 0, 0x18]
  {
    LowestByte();
    forall i: nat | 1 <= i < 8
      ensures ByteOf(24, i) == 0
    {
      HigherByte(i);
    }
    hide ByteOf;
  }

  lemma LowestByte()
    ensures ByteOf(24, 0) == 0x18
  {
    assert LowBits(24, 8) == (LowBits(12, 7) << 1) | 0;
    assert LowBits(12, 7) == LowBits(6, 6) << 1 && LowBits(6, 6) == LowBits(3, 5) << 1;
    assert LowBits(3, 5) == (LowBits(1, 4) << 1) | 1;
    assert LowBits(1, 4) == (LowBits(0, 3) << 1) | 1;
    ZeroBits(3);
  }

  lemma {:induction false} ZeroBits(k: nat)
    ensures LowBits(0, k) == 0
  {
    if k > 0 {
      ZeroBits(k - 1);
    }
  }

  lemma {:induction false} ZeroShift(i: nat)
    ensures Shift(0, i) == 0
  {
    if i > 0 {
      ZeroShift(i - 1);
    }
  }

  lemma HigherByte(i: nat)
    requires i >= 1
    ensures ByteOf(24, i) == 0
  {
    ZeroShift(i - 1);
    ZeroBits(8);
  }

  lemma PadOfAbc()
    ensures Pad(ABC) == Block() && BlockCount(|ABC|) == 1
  {
    LengthOfAbc();
    hide LengthBytes;
  }

  /** The definition of the hash yields the published digest. */
  lemma DigestOfAbc()
    ensures Digest(ABC) == DIGEST_OF_ABC
  {
    PadOfAbc();
    HashOfAbc();
    BytesOfHash();
    hide Pad, Block, Compress, Serialize;
    assert Absorb(Block(), 0) == INITIAL;
    assert Block()[64 * 0..64 * 1] == Block();
  }
}
