/** Tags on control frames: HMAC-SHA-256 (sections 2 and 5 of RFC 2104), cut to 16 bytes. */
module ControlAuthenticator {
  import opened Sha256Spec
  import opened Sha256Stream

  const TAG_SIZE := 16

  /** The key as one block: a long key is hashed first, then zeros fill the block. */
  function BlockKey(key: seq<Byte>): (block: seq<Byte>)
    ensures |block| == 64
  {
    var k := if |key| > 64 then Digest(key) else key;
    k + Zeros(64 - |k|)
  }

  function XorEach(block: seq<Byte>, pad: Byte): (r: seq<Byte>)
    ensures |r| == |block|
  {
    seq(|block|, i requires 0 <= i < |block| => block[i] ^ pad)
  }

  function Hmac(key: seq<Byte>, message: seq<Byte>): (mac: seq<Byte>)
    ensures |mac| == 32
  {
    var block := BlockKey(key);
    Digest(XorEach(block, 0x5c) + Digest(XorEach(block, 0x36) + message))
  }

  // ---- section 2 of RFC 2104, bit by bit

  /** The key at the front of a block of 64 bytes, its digest if it is longer than that; zeros behind. */
  predicate IsKeyBlock(key: seq<Byte>, block: seq<Byte>)
  {
    && |block| == 64
    && (|key| <= 64 ==> key <= block && forall i :: |key| <= i < 64 ==> block[i] == 0)
    && (|key| > 64 ==> Digest(key) <= block && forall i :: 32 <= i < 64 ==> block[i] == 0)
  }

  predicate IsXorWith(block: seq<Byte>, pad: Byte, r: seq<Byte>)
  {
    |r| == |block| && forall i :: 0 <= i < |block| ==> r[i] == block[i] ^ pad
  }

  /** The first 16 bytes of H(K xor opad, H(K xor ipad, message)): ipad is the byte 0x36 and
      opad the byte 0x5c, 64 times each. */
  ghost predicate IsTag(key: seq<Byte>, message: seq<Byte>, tag: seq<Byte>)
  {
    exists block, inner, outer ::
      && IsKeyBlock(key, block) && IsXorWith(block, 0x36, inner) && IsXorWith(block, 0x5c, outer)
      && tag == Digest(outer + Digest(inner + message))[..16]
  }

  lemma KeyBlockIsUnique(key: seq<Byte>, block: seq<Byte>)
    requires IsKeyBlock(key, block)
    ensures block == BlockKey(key)
  {
    hide Digest;
  }

  lemma BlockKeyIsKeyBlock(key: seq<Byte>)
    ensures IsKeyBlock(key, BlockKey(key))
  {
    hide Digest;
  }

  /** The formula has exactly one value, and it is the one computed here. */
  lemma TagIsTheFormula(key: seq<Byte>, message: seq<Byte>, tag: seq<Byte>)
    ensures IsTag(key, message, tag) <==> tag == Hmac(key, message)[..16]
  {
    hide Digest, IsKeyBlock, BlockKey;
    if IsTag(key, message, tag) {
      var block, inner, outer :|
        && IsKeyBlock(key, block) && IsXorWith(block, 0x36, inner) && IsXorWith(block, 0x5c, outer)
        && tag == Digest(outer + Digest(inner + message))[..16];
      KeyBlockIsUnique(key, block);
      assert inner == XorEach(block, 0x36) && outer == XorEach(block, 0x5c);
    }
    BlockKeyIsKeyBlock(key);
    var block := BlockKey(key);
    assert IsXorWith(block, 0x36, XorEach(block, 0x36)) && IsXorWith(block, 0x5c, XorEach(block, 0x5c));
  }

  method HashOf(input: seq<Byte>) returns (digest: array<Byte>)
    ensures fresh(digest) && digest[..] == Digest(input)
  {
    hide *;
    var hash := new Sha256();
    hash.Update(input);
    assert hash.message == input;
    digest := hash.Final();
  }

  /** The digest of two pieces fed one after the other. */
  method HashOfTwo(first: array<Byte>, second: seq<Byte>) returns (digest: array<Byte>)
    ensures fresh(digest) && digest[..] == Digest(first[..] + second)
  {
    hide *;
    var hash := new Sha256();
    hash.Update(first[..]);
    hash.Update(second);
    assert hash.message == first[..] + second;
    digest := hash.Final();
  }

  method PadKey(key: seq<Byte>) returns (block: array<Byte>)
    ensures fresh(block) && block[..] == BlockKey(key)
  {
    hide Digest;
    block := new Byte[64](i => 0);
    if |key| > 64 {
      var shortened := HashOf(key);
      forall i | 0 <= i < 32 { block[i] := shortened[i]; }
      assert block[..] == Digest(key) + Zeros(32) by {
        assert forall i: nat :: i < 32 ==> block[i] == shortened[..][i];
      }
    } else {
      forall i | 0 <= i < |key| { block[i] := key[i]; }
      assert block[..] == key + Zeros(64 - |key|);
    }
  }

  /** The block under the inner and under the outer pad. */
  method MakePads(block: array<Byte>) returns (innerPad: array<Byte>, outerPad: array<Byte>)
    requires block.Length == 64
    ensures fresh(innerPad) && fresh(outerPad)
    ensures innerPad[..] == XorEach(block[..], 0x36) && outerPad[..] == XorEach(block[..], 0x5c)
  {
    innerPad := new Byte[64](i => 0);
    outerPad := new Byte[64](i => 0);
    for index := 0 to 64
      invariant forall i: nat :: i < index ==> innerPad[i] == block[i] ^ 0x36 && outerPad[i] == block[i] ^ 0x5c
    {
      innerPad[index] := block[index] ^ 0x36;
      outerPad[index] := block[index] ^ 0x5c;
    }
    assert innerPad[..] == XorEach(block[..], 0x36);
    assert outerPad[..] == XorEach(block[..], 0x5c);
  }

  method Sign(key: seq<Byte>, message: seq<Byte>) returns (tag: array<Byte>)
    ensures fresh(tag) && tag.Length == 16 && IsTag(key, message, tag[..])
  {
    hide Digest, BlockKey, XorEach, IsTag;
    var block := PadKey(key);
    var innerPad, outerPad := MakePads(block);
    var innerDigest := HashOfTwo(innerPad, message);
    var digest := HashOfTwo(outerPad, innerDigest[..]);
    assert digest[..] == Hmac(key, message);
    tag := new Byte[TAG_SIZE](i => 0);
    forall i | 0 <= i < TAG_SIZE { tag[i] := digest[i]; }
    assert tag[..] == digest[..][..TAG_SIZE];
    TagIsTheFormula(key, message, tag[..]);
  }

  /** True exactly for the tag that signing yields. */
  method Verify(key: seq<Byte>, message: seq<Byte>, tag: array<Byte>) returns (ok: bool)
    requires tag.Length == TAG_SIZE
    ensures ok <==> IsTag(key, message, tag[..])
  {
    hide Hmac, IsTag;
    TagIsTheFormula(key, message, tag[..]);
    var expected := Sign(key, message);
    ghost var want := expected[..];
    TagIsTheFormula(key, message, want);
    var mismatch: Byte := 0;
    for index := 0 to TAG_SIZE
      invariant expected[..] == want
      invariant mismatch == 0 <==> expected[..index] == tag[..index]
    {
      OrIsZero(mismatch, expected[index] ^ tag[index]);
      XorIsZero(expected[index], tag[index]);
      mismatch := mismatch | (expected[index] ^ tag[index]);
      assert expected[..index + 1] == expected[..index] + [expected[index]];
      assert tag[..index + 1] == tag[..index] + [tag[index]];
    }
    assert expected[..] == expected[..TAG_SIZE] && tag[..] == tag[..TAG_SIZE];
    ok := mismatch == 0;
  }

  lemma OrIsZero(x: Byte, y: Byte)
    ensures x | y == 0 <==> x == 0 && y == 0
  {
  }

  lemma XorIsZero(x: Byte, y: Byte)
    ensures x ^ y == 0 <==> x == y
  {
  }
}
