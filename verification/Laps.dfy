/** Slots of a segment: the position `p` of a segment of `m` slots lives in slot `p & (m - 1)`, and a
    position comes back to its slot one lap of `m` positions later. */
module Laps {

  /** The values of a 32-bit word. */
  const U32: nat := 0x1_0000_0000

  /** The slot of position `p`, by dropping whole laps. By `SlotIsMod` it is the remainder, which at the powers of
      two the ring accepts is the source's mask. */
  function Slot(p: nat, m: nat): (r: nat)
    requires m >= 1
    ensures r < m
    decreases p
  {
    if p < m then p else Slot(p - m, m)
  }

  lemma {:induction false} SlotIsMod(p: nat, m: nat)
    requires m >= 1
    ensures Slot(p, m) == p % m
    decreases p
  {
    if p >= m {
      SlotIsMod(p - m, m);
      ModLap(p - m, m);
    }
  }

  lemma ModLap(p: nat, m: nat)
    requires m >= 1
    ensures (p + m) % m == p % m
  {
    DivModUnique(p + m, m, p / m + 1, p % m);
  }

  lemma {:induction false} MulMono(a: nat, b: nat, m: nat)
    requires a <= b
    ensures a * m <= b * m
    decreases b - a
  {
    if a < b {
      MulMono(a, b - 1, m);
      assert b * m == (b - 1) * m + m;
    }
  }

  lemma MulOneMore(a: nat, m: nat)
    ensures (a + 1) * m == a * m + m
  {
  }

  lemma DivModUnique(x: nat, m: nat, q: nat, r: nat)
    requires m >= 1 && r < m && x == q * m + r
    ensures x / m == q && x % m == r
  {
    var k := x / m;
    assert x == k * m + x % m;
    assert (k + 1) * m == k * m + m && (q + 1) * m == q * m + m;
    if k < q {
      MulMono(k + 1, q, m);
    } else if q < k {
      MulMono(q + 1, k, m);
    }
  }

  /** Two positions less than a lap apart never share a slot. */
  lemma {:induction false} SlotsDiffer(p: nat, q: nat, m: nat)
    requires m >= 1 && p < q < p + m
    ensures Slot(p, m) != Slot(q, m)
    decreases p
  {
    if p >= m {
      SlotsDiffer(p - m, q - m, m);
    }
  }

  /** In any window of one lap every position has a slot of its own. */
  lemma WindowSlotsDiffer(lo: nat, m: nat)
    requires m >= 1
    ensures forall p, q :: lo <= p < lo + m && lo <= q < lo + m && p != q ==> Slot(p, m) != Slot(q, m)
  {
    forall p, q | lo <= p < lo + m && lo <= q < lo + m && p != q
      ensures Slot(p, m) != Slot(q, m)
    {
      if p < q {
        SlotsDiffer(p, q, m);
      } else {
        SlotsDiffer(q, p, m);
      }
    }
  }
}
