/** The in-use word, the slot words and the masks of positions as the 32-bit words they are: what each access stores
    there and tests there, in the program's own shifts, masks and compares. */
module Masks {
  import opened Laps
  import opened Machine
  import opened Invariant
  import opened Runs
  import opened Wrapping
  import opened WrapSteps
  import opened Words
  import opened Packing

  // ---------------------------------------------------------------- masks of a position

  lemma MaskTwice(x: bv32, y: bv32, odd: bool)
    ensures And(Twice(x, odd), Twice(y, true)) == Twice(And(x, y), odd)
    ensures And(x, 0) == 0
  {
  }

  lemma ModTwice(q: nat, m: nat)
    requires m >= 1
    ensures q % (2 * m) == 2 * (q / 2 % m) + q % 2
  {
    var a, b := q / 2 / m, q / 2 % m;
    assert q / 2 == a * m + b;
    assert a * (2 * m) == 2 * (a * m);
    DivModUnique(q, 2 * m, a, 2 * b + q % 2);
  }

  /** Masking with a power of two less one is the remainder. */
  lemma {:induction false} MaskIsMod(q: nat, e: nat)
    ensures AsWord(q % Pow2(e)) == And(AsWord(q), AsWord(Pow2(e) - 1))
    decreases e
  {
    hide Inc, Twice, And;
    if e == 0 {
      MaskTwice(AsWord(q), 0, false);
      DivModUnique(q, 1, q, 0);
    } else {
      var h := Pow2(e - 1);
      MaskIsMod(q / 2, e - 1);
      ModTwice(q, h);
      BitsTwice(q / 2, q % 2 == 1);
      BitsTwice(q / 2 % h, q % 2 == 1);
      BitsTwice(h - 1, true);
      MaskTwice(AsWord(q / 2), AsWord(h - 1), q % 2 == 1);
    }
  }

  /** `slot_ptr`'s index: the position masked by the capacity less one is the machine's slot. */
  lemma SlotMask(c: Config, e: nat, p: nat)
    requires Plain(c) && c.depth == Pow2(e)
    ensures AsWord(Slot(p, c.depth)) == And(AsWord(p), AsWord(c.depth - 1))
  {
    hide AsWord, And;
    SlotIsMod(p, c.depth);
    MaskIsMod(p, e);
  }

  /** `wake_mask`: the position masked by half a segment less one is zero exactly where the machine checks for
      sleeping producers. */
  lemma CheckTests(c: Config, e: nat, q: nat)
    requires Plain(c) && e <= MAX_DEPTH_BITS && c.depth == Pow2(e)
    ensures And(AsWord(q), AsWord(Half(c) - 1)) == AsWord(0) <==> AtCheck(c, q)
  {
    hide AsWord, And, Pow2, Half;
    HalfOf(c, e);
    var f := if e == 0 then 0 else e - 1;
    MaskIsMod(q, f);
    Pow2Mono(f, SEQ_BITS);
    if AsWord(q % Half(c)) == AsWord(0) {
      BitsInjective(q % Half(c), 0);
    }
  }

  // ---------------------------------------------------------------- the in-use word

  function Not(x: bv32): bv32 { !x }

  /** The word with bit `k` alone. */
  function BitOf(k: bv32): bv32 { if k <= 31 then 1 << k else 0 }

  predicate HasBit(w: bv32, k: bv32) { k <= 31 && Bit(w, k) }

  /** The word with the bits of the set's numbers below `n`. */
  function PackSet(s: set<nat>, n: nat): bv32 {
    if n == 0 then 0 else Or(PackSet(s, n - 1), if n - 1 in s then BitOf(AsWord(n - 1)) else 0)
  }

  lemma OrBit(w: bv32, k: bv32, j: bv32)
    requires k <= 31 && j <= 31
    ensures HasBit(Or(w, BitOf(k)), j) <==> HasBit(w, j) || j == k
  {
    hide Bit;
    BitSet(w, k, j);
  }

  lemma NoBit(j: bv32)
    ensures !HasBit(0, j)
  {
  }

  /** The in-use word's bits are the segments in use. */
  lemma {:induction false} SetBits(s: set<nat>, n: nat, j: nat)
    requires n <= 32 && j < 32
    ensures HasBit(PackSet(s, n), AsWord(j)) <==> j < n && j in s
    decreases n
  {
    hide HasBit, Or, BitOf, AsWord;
    FieldsFit(j);
    if n == 0 {
      NoBit(AsWord(j));
    } else {
      FieldsFit(n - 1);
      SetBits(s, n - 1, j);
      OrBit(PackSet(s, n - 1), AsWord(n - 1), AsWord(j));
      OrNone(PackSet(s, n - 1));
      if AsWord(n - 1) == AsWord(j) {
        SegInjective(n - 1, j);
      }
    }
  }

  lemma OrTwice(x: bv32, y: bv32, z: bv32)
    ensures Or(Or(x, y), z) == Or(Or(x, z), y)
  {
    hide Or;
    OrGroups(x, y, z);
    OrGroups(x, z, y);
    OrSwaps(y, z);
  }

  lemma OrGroups(x: bv32, y: bv32, z: bv32)
    ensures Or(Or(x, y), z) == Or(x, Or(y, z))
  {
  }

  lemma {:induction false} PackFrame(s: set<nat>, t: set<nat>, n: nat)
    requires forall k :: 0 <= k < n ==> (k in s <==> k in t)
    ensures PackSet(s, n) == PackSet(t, n)
    decreases n
  {
    hide Or, BitOf, AsWord;
    if n > 0 {
      PackFrame(s, t, n - 1);
    }
  }

  /** `fetch_or(1 << k)` sets the bit of the segment taken. */
  lemma {:induction false} TakeStores(s: set<nat>, n: nat, k: nat)
    requires k < n <= 32
    ensures PackSet(s + {k}, n) == Or(PackSet(s, n), BitOf(AsWord(k)))
    decreases n
  {
    hide Or, BitOf, AsWord;
    var x, b := PackSet(s, n - 1), BitOf(AsWord(k));
    if k == n - 1 {
      PackFrame(s, s + {k}, n - 1);
      OrAgain(x, b);
      OrNone(x);
    } else {
      TakeStores(s, n - 1, k);
      OrTwice(x, b, if n - 1 in s then BitOf(AsWord(n - 1)) else 0);
    }
  }

  lemma AndNot(x: bv32, y: bv32, z: bv32)
    ensures And(Or(x, y), Not(z)) == Or(And(x, Not(z)), And(y, Not(z)))
    ensures And(z, Not(z)) == 0 && And(0, Not(z)) == 0
  {
    hide Or, And, Not;
    AndOr(x, y, Not(z));
    AndSelf(z);
  }

  lemma AndOr(x: bv32, y: bv32, z: bv32)
    ensures And(Or(x, y), z) == Or(And(x, z), And(y, z))
  {
  }

  lemma AndSelf(z: bv32)
    ensures And(z, Not(z)) == 0 && And(0, Not(z)) == 0
  {
  }

  lemma BitsApart(j: bv32, k: bv32)
    requires j <= 31 && k <= 31 && j != k
    ensures And(BitOf(j), Not(BitOf(k))) == BitOf(j)
    ensures And(BitOf(j), BitOf(k)) == 0
  {
  }

  /** `fetch_and(!(1 << k))` clears the bit of the segment given back. */
  lemma {:induction false} ClearStores(s: set<nat>, n: nat, k: nat)
    requires n <= 32 && k < 32
    ensures PackSet(s - {k}, n) == And(PackSet(s, n), Not(BitOf(AsWord(k))))
    decreases n
  {
    hide Or, And, Not, BitOf, AsWord;
    var b := BitOf(AsWord(k));
    AndNot(0, 0, b);
    if n > 0 {
      ClearStores(s, n - 1, k);
      var x, y := PackSet(s, n - 1), if n - 1 in s then BitOf(AsWord(n - 1)) else 0;
      AndNot(x, y, b);
      OrNone(And(x, Not(b)));
      if n - 1 != k {
        FieldsFit(n - 1);
        FieldsFit(k);
        if AsWord(n - 1) == AsWord(k) {
          SegInjective(n - 1, k);
        }
        BitsApart(AsWord(n - 1), AsWord(k));
      }
    }
  }

  // ---------------------------------------------------------------- the free segments

  /** The first `n` segments. */
  function Upto(n: nat): (s: set<nat>)
    ensures forall k :: k in s <==> 0 <= k < n
  {
    if n == 0 then {} else Upto(n - 1) + {n - 1}
  }

  lemma AllGrows(n: bv32)
    requires 1 <= n <= 31
    ensures Or(AllBits(n), BitOf(n)) == AllBits(Inc(n))
    ensures AllBits(1) == Or(0, BitOf(0))
  {
  }

  lemma CountFits(n: nat)
    requires 1 <= n <= 32
    ensures 1 <= AsWord(n) <= 32 && (n <= 31 ==> AsWord(n) <= 31)
  {
    hide Inc, Above;
    FieldsFit(n);
    FieldsFit(n - 1);
    IncSmall(AsWord(n - 1));
  }

  lemma IncSmall(x: bv32)
    ensures x <= 31 ==> 1 <= Inc(x) <= 32
    ensures Inc(0) == 1
  {
  }

  /** `all`: the mask of a ring's segments, up to all 32. */
  lemma {:induction false} AllIsMask(n: nat)
    requires 1 <= n <= 32
    ensures 1 <= AsWord(n) <= 32 && AllBits(AsWord(n)) == PackSet(Upto(n), n)
    decreases n
  {
    hide Or, BitOf, AllBits, Inc;
    CountFits(n);
    AllGrows(1);
    IncSmall(0);
    if n > 1 {
      AllIsMask(n - 1);
      CountFits(n - 1);
      AllGrows(AsWord(n - 1));
      PackFrame(Upto(n), Upto(n - 1), n - 1);
    }
  }

  lemma AndSwaps(x: bv32, y: bv32)
    ensures And(x, y) == And(y, x)
  {
  }

  lemma ClearOf(x: bv32, b: bv32)
    requires And(x, b) == 0
    ensures And(Not(x), b) == b
  {
  }

  lemma MeetClear(x: bv32, f: bv32, b: bv32)
    requires And(x, b) == 0
    ensures And(Not(x), Or(f, b)) == Or(And(Not(x), f), b)
  {
    hide And, Or, Not;
    AndSwaps(Not(x), Or(f, b));
    AndOr(f, b, Not(x));
    AndSwaps(Not(x), f);
    AndSwaps(Not(x), b);
    ClearOf(x, b);
  }

  lemma NotOver(x: bv32, b: bv32)
    ensures Not(Or(x, b)) == And(Not(x), Not(b)) && And(And(Not(x), Not(b)), b) == 0
  {
  }

  lemma AndGroups(x: bv32, y: bv32, z: bv32)
    ensures And(And(x, y), z) == And(x, And(y, z))
  {
  }

  lemma MeetSet(x: bv32, f: bv32, b: bv32)
    requires And(f, b) == 0
    ensures And(Not(Or(x, b)), Or(f, b)) == And(Not(x), f)
  {
    hide And, Or, Not;
    var n := And(Not(x), Not(b));
    NotOver(x, b);
    AndSwaps(n, Or(f, b));
    AndOr(f, b, n);
    AndSwaps(b, n);
    AndSwaps(f, n);
    OrNone(And(f, n));
    AndGroups(Not(x), Not(b), f);
    AndSwaps(f, b);
    ClearOf(b, f);
  }

  lemma KeptApart(x: bv32, b: bv32)
    requires And(x, Not(b)) == x
    ensures And(x, b) == 0
  {
  }

  /** A word of the segments below `n` has no bit from `n` on. */
  lemma NoBitAbove(s: set<nat>, n: nat, k: nat)
    requires n <= k < 32
    ensures And(PackSet(s, n), BitOf(AsWord(k))) == 0
  {
    hide And, Not, Or, BitOf, AsWord;
    PackFrame(s, s - {k}, n);
    ClearStores(s, n, k);
    KeptApart(PackSet(s, n), BitOf(AsWord(k)));
  }

  /** `!in_use & all` is the word of the free segments. */
  lemma {:induction false} FreeWord(s: set<nat>, n: nat)
    requires n <= 32
    ensures And(Not(PackSet(s, n)), PackSet(Upto(n), n)) == PackSet(Upto(n) - s, n)
    decreases n
  {
    hide And, Not, Or, BitOf, AsWord;
    if n == 0 {
      AndNone(Not(0));
    } else {
      var x, f, b := PackSet(s, n - 1), PackSet(Upto(n - 1), n - 1), BitOf(AsWord(n - 1));
      FreeWord(s, n - 1);
      NoBitAbove(s, n - 1, n - 1);
      NoBitAbove(Upto(n - 1), n - 1, n - 1);
      MeetClear(x, f, b);
      MeetSet(x, f, b);
      OrNone(x);
      OrNone(PackSet(Upto(n - 1) - s, n - 1));
      PackFrame(Upto(n), Upto(n - 1), n - 1);
      PackFrame(Upto(n) - s, Upto(n - 1) - s, n - 1);
    }
  }

  lemma AndNone(x: bv32)
    ensures And(x, 0) == 0
  {
  }

  /** `trailing_zeros`, from bit `j` on. */
  function Trailing(w: bv32, j: nat): nat
    decreases 32 - j
  {
    if j >= 32 then 32 else if HasBit(w, AsWord(j)) then j else Trailing(w, j + 1)
  }

  lemma {:induction false} TrailingIs(c: Config, inUse: set<nat>, j: nat)
    requires j <= c.segs <= 32 && exists k :: j <= k < c.segs && k !in inUse
    ensures Trailing(PackSet(Upto(c.segs) - inUse, c.segs), j) == LowestFree(c, inUse, j)
    decreases c.segs - j
  {
    hide HasBit, Or, BitOf, AsWord;
    SetBits(Upto(c.segs) - inUse, c.segs, j);
    if j in inUse {
      TrailingIs(c, inUse, j + 1);
    }
  }

  /** `switch`'s and `has_room`'s test for a free segment, on the stored word: zero exactly where every segment's
      bit is set, and else its trailing zeros are the segment the machine takes. */
  lemma FreeTests(c: Config, inUse: set<nat>)
    requires 1 <= c.segs <= 32
    ensures 1 <= AsWord(c.segs) <= 32
    ensures var free := And(Not(PackSet(inUse, c.segs)), AllBits(AsWord(c.segs)));
      && (free != 0 <==> AnyFree(c, inUse))
      && (AnyFree(c, inUse) ==> Trailing(free, 0) == LowestFree(c, inUse, 0))
  {
    hide HasBit, Or, And, Not, BitOf, AsWord, AllBits;
    AllIsMask(c.segs);
    FreeWord(inUse, c.segs);
    var left := Upto(c.segs) - inUse;
    if AnyFree(c, inUse) {
      var k :| 0 <= k < c.segs && k !in inUse;
      SetBits(left, c.segs, k);
      NoBit(AsWord(k));
      TrailingIs(c, inUse, 0);
    } else {
      PackFrame(left, {}, c.segs);
      PackNone(c.segs);
    }
  }

  lemma {:induction false} PackNone(n: nat)
    ensures PackSet({}, n) == 0
    decreases n
  {
    hide Or;
    if n > 0 {
      PackNone(n - 1);
      OrNone(0);
    }
  }

  /** The set bit the `fetch_or` finds: the segment was in use already. */
  lemma TakenTests(s: set<nat>, n: nat, k: nat)
    requires k < n <= 32
    ensures And(PackSet(s, n), BitOf(AsWord(k))) != 0 <==> k in s
  {
    hide And, Not, Or, AsWord, BitOf, HasBit, Bit;
    SetBits(s, n, k);
    FieldsFit(k);
    BitMeets(PackSet(s, n), AsWord(k));
  }

  lemma BitMeets(w: bv32, k: bv32)
    requires k <= 31
    ensures And(w, BitOf(k)) != 0 <==> HasBit(w, k)
  {
  }

  // ---------------------------------------------------------------- slot words

  /** A slot word as it is stored: the tombstone's bit over the position. */
  function PackSlot(v: SlotWord): bv32 { Or(AsWord(v.pos), FlagBit(v.tomb)) }

  lemma FlagOver(x: bv32, y: bv32, a: bool, b: bool)
    requires Above(x, 26) == 0 && Above(y, 26) == 0 && Or(x, FlagBit(a)) == Or(y, FlagBit(b))
    ensures x == y && a == b
  {
  }

  lemma SlotsTell(v: SlotWord, w: SlotWord)
    requires v.pos < WIDTH && w.pos < WIDTH
    ensures PackSlot(v) == PackSlot(w) <==> v == w
  {
    hide AsWord, Or, FlagBit, Above, PosBits, Pow2;
    if PackSlot(v) == PackSlot(w) {
      FieldsFit(v.pos);
      FieldsFit(w.pos);
      FlagOver(AsWord(v.pos), AsWord(w.pos), v.tomb, w.tomb);
      BitsInjective(v.pos, w.pos);
    }
  }

  /** What a claim, a commit, an unwound fill and a release leave in a slot: `pos`, `seq_of(pos + M + 1)`, that with
      TOMBSTONE, and `seq_of(pos + M)`. */
  lemma SlotStores(d: Config, p: nat)
    requires Packed(d)
    ensures PackSlot(Claimable(p)) == AsWord(p)
    ensures PackSlot(CommittedAt(d, p)) == PosBits(Plus(AsWord(p), AsWord(d.depth + 1)))
    ensures PackSlot(TombAt(d, p)) == Or(PosBits(Plus(AsWord(p), AsWord(d.depth + 1))), FLAG)
    ensures PackSlot(ReleasedAt(d, p)) == PosBits(Plus(AsWord(p), AsWord(d.depth)))
  {
    hide AsWord, Or, FlagBit, PosBits, Plus, Pow2;
    Widths();
    FlagTells(true, false);
    MaskIsWrap(p + (d.depth + 1));
    BitsAdd(p, d.depth + 1);
    MaskIsWrap(p + d.depth);
    BitsAdd(p, d.depth);
    OrNone(AsWord(p));
    OrNone(PosBits(Plus(AsWord(p), AsWord(d.depth + 1))));
    OrNone(PosBits(Plus(AsWord(p), AsWord(d.depth))));
    assert p + (d.depth + 1) == p + d.depth + 1;
  }

  /** What the loads of a slot compare, on the stored word: claimable, committed, or tombstoned at a position as it
      is held. */
  lemma SlotTests(d: Config, v: SlotWord, p: nat)
    requires Packed(d) && v.pos < WIDTH && p < WIDTH
    ensures PackSlot(v) == AsWord(p) <==> v == Claimable(p)
    ensures PackSlot(v) == PosBits(Plus(AsWord(p), AsWord(d.depth + 1))) <==> v == CommittedAt(d, p)
    ensures PackSlot(v) == Or(PosBits(Plus(AsWord(p), AsWord(d.depth + 1))), FLAG) <==> v == TombAt(d, p)
  {
    hide AsWord, Or, PosBits, Plus, PackSlot, Pow2;
    Widths();
    SlotStores(d, p);
    SlotsTell(v, Claimable(p));
    SlotsTell(v, CommittedAt(d, p));
    SlotsTell(v, TombAt(d, p));
  }

  // ---------------------------------------------------------------- every run

  lemma SegsInUse(c: Config, s: State)
    requires Inv(c, s)
    ensures |s.core.mem.seqs| == c.segs && forall k :: k in s.core.mem.inUse ==> k < c.segs
    ensures forall k :: 0 <= k < c.segs ==> |s.core.mem.seqs[k]| == c.depth
  {
    hide Ordered, Placed, Slots, Sealed, Logged, Delivered, Placement, Holding, Flagged, Owed, Counted, Local, Ranged;
  }

  /** In every run of the ring at the program's widths, every slot word fits its packed word, and the in-use word
      and the consumer's position their words. With `TakeStores`, `ClearStores`, `FreeTests`, `SlotStores`,
      `SlotTests` and `CheckTests` the run is one of those words. */
  lemma RunFits(c: Config, d: Config, producers: nat, body: Msg, steps: seq<Step>)
    requires Wraps(c, d) && Good(c) && Good(d) && Packed(d)
    requires AllTimely(c, d, producers, body, steps)
    ensures var s := Run(d, producers, body, steps);
      && (forall k, j :: 0 <= k < |s.core.mem.seqs| && 0 <= j < |s.core.mem.seqs[k]| ==>
            s.core.mem.seqs[k][j].pos < WIDTH)
      && (forall k :: k in s.core.mem.inUse ==> k < d.segs)
      && s.core.cons.pos < WIDTH
  {
    hide Inv, Run, WellShaped, AllTimely, Shape, Pow2;
    RunWraps(c, d, producers, body, steps);
    PlainOf(c, d);
    RunInv(c, producers, body, steps);
    SegsInUse(c, Run(c, producers, body, steps));
  }
}
