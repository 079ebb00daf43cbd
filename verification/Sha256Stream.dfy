/** The streaming hash: a 64-byte buffer that is compressed each time it fills. */
module Sha256Stream {
  import opened Sha256Spec

  /** Blocks already absorbed do not depend on what follows them. */
  lemma {:induction false} AbsorbIsPrefixOnly(m: seq<Byte>, rest: seq<Byte>, count: nat)
    requires 64 * count <= |m|
    ensures Absorb(m + rest, count) == Absorb(m, count)
  {
    hide Compress;
    if count > 0 {
      AbsorbIsPrefixOnly(m, rest, count - 1);
      assert (m + rest)[64 * (count - 1)..64 * count] == m[64 * (count - 1)..64 * count];
    }
  }

  lemma AddCommutes(x: Word, y: Word)
    ensures Add(x, y) == Add(y, x)
  {
  }

  lemma PlusAssociates(x: Word, y: Word, z: Word)
    ensures (x + y) + z == x + (y + z)
  {
  }

  lemma AddAssociates(x: Word, y: Word, z: Word)
    ensures Add(Add(x, y), z) == Add(x, Add(y, z))
  {
    calc {
      Add(Add(x, y), z);
      Add(x, y) + z;
      (x + y) + z;
      { PlusAssociates(x, y, z); }
      x + (y + z);
      x + Add(y, z);
      Add(x, Add(y, z));
    }
  }

  lemma AddInAnyOrder(p: Word, q: Word, r: Word, s: Word)
    ensures Add(Add(Add(p, q), r), s) == Add(Add(Add(s, r), q), p)
  {
    hide Add;
    AddCommutes(p, q);
    AddCommutes(Add(q, p), r);
    AddCommutes(Add(r, Add(q, p)), s);
    AddAssociates(s, r, Add(q, p));
    AddAssociates(Add(s, r), q, p);
  }

  /** The word the expansion loop computes, in the order the loop adds it up. */
  method FollowingWord(words: array<Word>, index: nat) returns (w: Word)
    requires 16 <= index <= words.Length
    ensures w == NextWord(words[..index])
  {
    hide Add, SmallSigma0, SmallSigma1;
    var s0 := SmallSigma0(words[index - 15]);
    var s1 := SmallSigma1(words[index - 2]);
    w := Add(Add(Add(words[index - 16], s0), words[index - 7]), s1);
    AddInAnyOrder(words[index - 16], s0, words[index - 7], s1);
  }

  /** The message schedule of a block. */
  method Expand(block: array<Byte>) returns (words: array<Word>)
    requires block.Length == 64
    ensures fresh(words) && words[..] == Schedule(block[..], 64)
  {
    hide NextWord;
    ghost var bytes := block[..];
    words := new Word[64](i => 0);
    for index := 0 to 16
      invariant words[..index] == Schedule(bytes, index)
    {
      var offset := index * 4;
      words[index] := ((block[offset] as Word) << 24) | ((block[offset + 1] as Word) << 16)
                      | ((block[offset + 2] as Word) << 8) | (block[offset + 3] as Word);
      assert words[index] == BlockWord(bytes, index);
      assert words[..index + 1] == words[..index] + [words[index]];
    }
    for index := 16 to 64
      invariant words[..index] == Schedule(bytes, index)
    {
      ghost var before := words[..index];
      var w := FollowingWord(words, index);
      words[index] := w;
      assert words[..index + 1] == before + [w];
    }
    assert words[..] == words[..64];
  }

  lemma RoundsStep(start: Working, words: seq<Word>, n: nat)
    requires n < |words| <= 64
    ensures Rounds(start, words[..n + 1]) == Round(Rounds(start, words[..n]), ROUND_CONSTANTS[n], words[n])
  {
    assert words[..n + 1][..n] == words[..n];
  }

  /** The rounds, one for each word of the schedule. */
  method Mix(start: Working, words: array<Word>) returns (v: Working)
    requires words.Length == 64
    ensures v == Rounds(start, words[..])
  {
    v := start;
    for index := 0 to 64
      invariant v == Rounds(start, words[..index])
    {
      RoundsStep(start, words[..], index);
      assert words[..][..index] == words[..index] && words[..][..index + 1] == words[..index + 1];
      v := OneRound(v, ROUND_CONSTANTS[index], words[index]);
    }
    assert words[..] == words[..64];
  }

  /** The body of the round loop: the eight variables move along one place. */
  method OneRound(v: Working, k: Word, w: Word) returns (v': Working)
    ensures v' == Round(v, k, w)
  {
    hide Add, BigSigma0, BigSigma1, Ch, Maj;
    var Working(a, b, c, d, e, f, g, h) := v;
    var s1 := BigSigma1(e);
    var choose := Ch(e, f, g);
    var temp1 := Add(Add(Add(Add(h, s1), choose), k), w);
    var s0 := BigSigma0(a);
    var majority := Maj(a, b, c);
    var temp2 := Add(s0, majority);
    h := g;
    g := f;
    f := e;
    e := Add(d, temp1);
    d := c;
    c := b;
    b := a;
    a := Add(temp1, temp2);
    v' := Working(a, b, c, d, e, f, g, h);
  }

  lemma BitLengthGrows(m: nat, n: nat)
    ensures (BitLength(m) + 8 * n) % 0x1_0000_0000_0000_0000 == BitLength(m + n)
  {
  }

  class Sha256 {
    const buffer: array<Byte>
    var size: nat
    var bitCount: nat
    const state: array<Word>
    ghost var message: seq<Byte>
    ghost var count: nat

    /** The bytes m have gone in: whole blocks are in the state, the rest in the buffer. */
    ghost predicate Holds(m: seq<Byte>)
      reads this, buffer, state
    {
      && buffer.Length == 64 && state.Length == 8
      && size <= 64 && |m| == 64 * count + size
      && buffer[..size] == m[64 * count..]
      && state[..] == Absorb(m, count)
    }

    ghost predicate Valid()
      reads this, buffer, state
    {
      Holds(message) && size < 64 && bitCount == BitLength(|message|)
    }

    constructor ()
      ensures Valid() && fresh(buffer) && fresh(state)
      ensures message == []
    {
      buffer := new Byte[64](i => 0);
      state := new Word[8](i requires 0 <= i < 8 => INITIAL[i]);
      size, bitCount, message, count := 0, 0, [], 0;
      new;
      assert state[..] == INITIAL;
    }

    /** Folds one block into the state. */
    method Transform(block: array<Byte>)
      requires block.Length == 64 && state.Length == 8
      modifies state
      ensures state[..] == Compress(old(state[..]), old(block[..]))
    {
      hide Add, Rounds, Schedule, Load, Combine;
      var words := Expand(block);
      var v := Mix(Load(state[..]), words);
      AddInto(v);
    }

    method AddAt(i: nat, x: Word)
      requires i < state.Length
      modifies state
      ensures state[..] == old(state[..][i := Add(state[i], x)])
    {
      state[i] := state[i] + x;
    }

    method AddInto(v: Working)
      requires state.Length == 8
      modifies state
      ensures state[..] == Combine(old(state[..]), v)
    {
      hide Add;
      AddAt(0, v.a);
      AddAt(1, v.b);
      AddAt(2, v.c);
      AddAt(3, v.d);
      AddAt(4, v.e);
      AddAt(5, v.f);
      AddAt(6, v.g);
      AddAt(7, v.h);
    }

    /** Puts one byte behind those already in the buffer. */
    method Append(b: Byte, ghost m: seq<Byte>)
      requires Holds(m) && size < 64
      modifies this`size, buffer
      ensures Holds(m + [b]) && size == old(size) + 1
    {
      hide Absorb, Compress;
      buffer[size] := b;
      size := size + 1;
      AbsorbIsPrefixOnly(m, [b], count);
      assert buffer[..size] == buffer[..size - 1] + [b];
      assert (m + [b])[64 * count..] == m[64 * count..] + [b];
    }

    /** Compresses the full buffer and empties it. */
    method Flush(ghost m: seq<Byte>)
      requires Holds(m) && size == 64
      modifies this`size, this`count, state
      ensures Holds(m) && size == 0
    {
      hide Compress;
      assert buffer[..] == buffer[..64];
      assert m[64 * count..] == m[64 * count..64 * (count + 1)];
      Transform(buffer);
      size, count := 0, count + 1;
    }

    /** Feeds the input, however the message was split before it. */
    method Update(input: seq<Byte>)
      requires Valid()
      modifies this, buffer, state
      ensures Valid()
      ensures message == old(message) + input
    {
      hide Absorb, BitLength;
      bitCount := (bitCount + 8 * |input|) % 0x1_0000_0000_0000_0000;
      BitLengthGrows(|message|, |input|);
      ghost var bits := bitCount;
      assert message + input[..0] == message;
      for index := 0 to |input|
        invariant Holds(old(message) + input[..index])
        invariant size < 64
        invariant message == old(message) && bitCount == bits
      {
        ghost var fed := old(message) + input[..index];
        assert fed + [input[index]] == old(message) + input[..index + 1];
        Append(input[index], fed);
        if size == 64 {
          Flush(fed + [input[index]]);
        }
      }
      message := message + input;
      assert old(message) + input[..|input|] == message;
    }

    /** Zero bytes up to the given fill of the buffer. */
    method ZeroFill(limit: nat, ghost m: seq<Byte>, ghost zeros: nat) returns (ghost zeros': nat)
      requires Holds(m + Zeros(zeros)) && size <= limit <= 64
      modifies this`size, buffer
      ensures size == limit && zeros' == zeros + limit - old(size)
      ensures Holds(m + Zeros(zeros'))
    {
      hide Absorb;
      zeros' := zeros;
      while size < limit
        invariant size <= limit && zeros' == zeros + size - old(size)
        invariant Holds(m + Zeros(zeros'))
      {
        Append(0, m + Zeros(zeros'));
        assert m + Zeros(zeros') + [0] == m + Zeros(zeros' + 1);
        zeros' := zeros' + 1;
      }
    }

    /** Writes the message length behind 56 bytes and compresses the last block. */
    method Seal(ghost m: seq<Byte>)
      requires Holds(m) && size == 56
      modifies buffer, state
      ensures state[..] == Absorb(m + LengthBytes(bitCount), count + 1)
    {
      hide Compress, ByteOf;
      ghost var tail := buffer[..56];
      for index := 0 to 8
        invariant buffer[..56] == tail && state[..] == Absorb(m, count)
        invariant forall j: nat :: j < index ==> buffer[63 - j] == ByteOf(bitCount, j)
      {
        buffer[63 - index] := ByteOf(bitCount, index);
      }
      ghost var bytes := LengthBytes(bitCount);
      forall j: nat | j < 8
        ensures buffer[56 + j] == bytes[j]
      {
        assert buffer[63 - (7 - j)] == ByteOf(bitCount, 7 - j);
      }
      assert buffer[..] == tail + bytes;
      assert m[64 * count..] == tail;
      assert (m + bytes)[64 * count..64 * (count + 1)] == m[64 * count..] + bytes;
      AbsorbIsPrefixOnly(m, bytes, count);
      assert Absorb(m + bytes, count + 1) == Compress(state[..], buffer[..]);
      Transform(buffer);
    }

    /** Pads, and returns the digest of everything that was fed. */
    method Final() returns (result: array<Byte>)
      requires Valid()
      modifies this, buffer, state
      ensures fresh(result) && result[..] == Digest(old(message))
    {
      hide Absorb, BitLength, LengthBytes, Serialize, WordBytes, ZeroCount, BlockCount;
      ghost var m := message + [0x80];
      Append(0x80, message);
      assert m + Zeros(0) == m;
      ghost var zeros := 0;
      if size > 56 {
        zeros := ZeroFill(64, m, zeros);
        Flush(m + Zeros(zeros));
      }
      zeros := ZeroFill(56, m, zeros);
      ZeroCountIsUnique(|message|, zeros, count);
      Seal(m + Zeros(zeros));
      assert Pad(message) == m + Zeros(zeros) + LengthBytes(bitCount);
      result := Bytes(state);
    }
  }

  lemma ZeroCountIsUnique(bytes: nat, zeros: nat, count: nat)
    requires zeros < 64 && bytes + 1 + zeros == 64 * count + 56
    ensures zeros == ZeroCount(bytes) && count + 1 == BlockCount(bytes)
  {
  }

  method PutWord(w: Word, result: array<Byte>, offset: nat)
    requires offset + 4 <= result.Length
    modifies result
    ensures result[..offset + 4] == old(result[..offset]) + WordBytes(w)
  {
    result[offset] := ((w >> 24) & 0xff) as Byte;
    result[offset + 1] := ((w >> 16) & 0xff) as Byte;
    result[offset + 2] := ((w >> 8) & 0xff) as Byte;
    result[offset + 3] := (w & 0xff) as Byte;
  }

  /** The state words, most significant byte first. */
  method Bytes(state: array<Word>) returns (result: array<Byte>)
    requires state.Length == 8
    ensures fresh(result) && result[..] == Serialize(state[..])
  {
    hide WordBytes;
    result := new Byte[32](i => 0);
    for index := 0 to 8
      invariant result[..4 * index] == Serialize(state[..index])
    {
      PutWord(state[index], result, index * 4);
      assert state[..index + 1][..index] == state[..index];
    }
    assert result[..] == result[..32] && state[..] == state[..8];
  }
}
