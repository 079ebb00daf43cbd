/** The remainder by repeated subtraction, which is what indexing with `id % count` and with
    `pos & (capacity - 1)` both compute. */
module Modulo {
  function Select(id: nat, count: nat): (i: nat)
    requires count > 0
    ensures i < count
    decreases id
  {
    if id < count then id else Select(id - count, count)
  }

  lemma AtLeastOnce(a: int, count: nat)
    requires a >= 1
    ensures a * count >= count
  {
    assert a * count == (a - 1) * count + count;
  }

  lemma QuotientIsUnique(count: nat, k: int, q: int, r: int, r2: int)
    requires 0 <= r < count && 0 <= r2 < count && k * count + r == q * count + r2
    ensures k == q
  {
    if k > q {
      assert k * count - q * count == (k - q) * count;
      AtLeastOnce(k - q, count);
    } else if k < q {
      assert q * count - k * count == (q - k) * count;
      AtLeastOnce(q - k, count);
    }
  }

  lemma {:induction false} SelectIsRemainder(id: nat, count: nat)
    requires count > 0
    ensures Select(id, count) == id % count
    decreases id
  {
    if id >= count {
      SelectIsRemainder(id - count, count);
      var q := (id - count) / count;
      var r := (id - count) % count;
      assert (q + 1) * count == q * count + count;
      QuotientIsUnique(count, q + 1, id / count, r, id % count);
    }
  }

  /** Fewer than `count` apart, two positions never share a slot. */
  lemma {:induction false} SelectIsInjectiveNearby(p: nat, q: nat, count: nat)
    requires count > 0 && p < q < p + count
    ensures Select(p, count) != Select(q, count)
    decreases p
  {
    if p >= count {
      SelectIsInjectiveNearby(p - count, q - count, count);
    } else if q >= count {
      assert Select(q - count, count) == q - count;
    }
  }
}
