/** Division facts about slots of a ring and positions in a batch. */
module Arith {

  lemma SameSlot(x: nat, y: nat, ring: nat)
    requires 0 < ring && x < y && x % ring == y % ring
    ensures x + ring <= y
  {
    var q := y / ring - x / ring;
    assert y - x == q * ring;
    assert 1 <= q;
  }

  /** Ids less than a ring apart never share a slot. */
  lemma SlotsDiffer(x: nat, y: nat, ring: nat)
    requires 0 < ring && x < y < x + ring
    ensures x % ring != y % ring
  {
    if x % ring == y % ring {
      SameSlot(x, y, ring);
    }
  }

  /** Quotient and remainder are unique. */
  lemma DivUnique(x: nat, d: nat, q: nat, r: nat)
    requires 0 < d && r < d && x == d * q + r
    ensures x / d == q && x % d == r
  {
    if x % d < r {
      SameSlotGap(d, q, x / d, r - x % d);
    } else if r < x % d {
      SameSlotGap(d, x / d, q, x % d - r);
    } else {
      assert d * q == d * (x / d);
    }
  }

  /** d*q and d*p never differ by less than d, unless they are equal. */
  lemma SameSlotGap(d: nat, q: nat, p: nat, gap: int)
    requires 0 < d
    requires d * p - d * q == gap
    ensures gap < d ==> gap <= 0
  {
    if q < p {
      MulMono(d, q + 1, p);
      assert d * (q + 1) == d * q + d;
    } else {
      MulMono(d, p, q);
    }
  }

  lemma PositionInBatch(batch: nat, k: nat, i: nat)
    requires i < batch
    ensures (batch * k + i) % batch == i && (batch * k + i) / batch == k
  {
    DivUnique(batch * k + i, batch, k, i);
  }

  lemma MulMono(d: nat, p: nat, q: nat)
    ensures p <= q ==> d * p <= d * q
  {
    if p <= q {
      assert d * q == d * p + d * (q - p);
    }
  }
}
