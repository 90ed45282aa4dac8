/** The packed words: a segment and a position in one 32-bit word with a flag above them, one bit per segment
    in the in-use word, and the slot words of the rings with tombstones. */
module Words {
  import opened Laps
  import opened Machine
  import opened Invariant
  import opened Runs
  import opened Segments
  import opened Wrapping

  // ---------------------------------------------------------------- bits

  /** `word`, `word_seg` and `word_pos`: 26 bits of position, 5 of segment, and bit 31 for MOVED in a seal,
      WAITING in the claim word and TOMBSTONE in a slot word. */
  function Pack(seg: bv32, pos: bv32): bv32 {
    (seg << 26) | (pos & 0x03FF_FFFF)
  }

  function SegBits(w: bv32): bv32 {
    (w >> 26) & 31
  }

  function PosBits(w: bv32): bv32 {
    w & 0x03FF_FFFF
  }

  /** Packing loses nothing but the position's wrap, and leaves the flag clear. */
  lemma PackThenUnpack(seg: bv32, pos: bv32)
    requires seg <= 31
    ensures SegBits(Pack(seg, pos)) == seg
    ensures PosBits(Pack(seg, pos)) == pos & 0x03FF_FFFF
    ensures Pack(seg, pos) & 0x8000_0000 == 0
  {
  }

  /** A word is its segment, its position and its flag, and nothing else. */
  lemma UnpackThenPack(w: bv32)
    ensures Pack(SegBits(w), PosBits(w)) | (w & 0x8000_0000) == w
  {
  }

  /** The flag set, cleared or carried over leaves the segment and the position. */
  lemma FlagApart(w: bv32, flag: bv32)
    requires flag == 0 || flag == 0x8000_0000
    ensures SegBits(w | flag) == SegBits(w) && PosBits(w | flag) == PosBits(w)
  {
  }

  lemma FlagCleared(w: bv32)
    ensures SegBits(w & 0x7FFF_FFFF) == SegBits(w) && PosBits(w & 0x7FFF_FFFF) == PosBits(w)
    ensures w & 0x7FFF_FFFF == Pack(SegBits(w), PosBits(w))
  {
  }

  /** The consumer's test that the claim word, flag aside, names its place is the test on the two fields. */
  lemma HereIsFields(w: bv32, cur: bv32, pos: bv32)
    requires cur <= 31 && pos <= 0x03FF_FFFF
    ensures w & 0x7FFF_FFFF == Pack(cur, pos) <==> SegBits(w) == cur && PosBits(w) == pos
  {
    if SegBits(w) == cur && PosBits(w) == pos {
      FlagCleared(w);
    } else {
      FlagCleared(w);
      PackThenUnpack(cur, pos);
    }
  }

  predicate Bit(w: bv32, k: bv32)
    requires k < 32
  {
    (w >> k) & 1 == 1
  }

  /** The `fetch_or` of one bit takes that segment and no other. */
  lemma BitSet(w: bv32, k: bv32, j: bv32)
    requires k < 32 && j < 32
    ensures Bit(w | (1 << k), j) <==> Bit(w, j) || j == k
  {
  }

  /** `all`: the bits of the segments the ring has, up to all 32. */
  function AllBits(count: bv32): bv32
    requires 1 <= count <= 32
  {
    if count == 32 then 0xFFFF_FFFF else (1 << count) - 1
  }

  // ---------------------------------------------------------------- slot words with tombstones

  const TOMB: nat := 0x8000_0000
  const MPSC_MAX_CAPACITY: nat := 0x4000_0000

  /** v2's slot word: bit 31 over a 26-bit position. */
  function SlotBits(v: SlotWord): nat {
    v.pos + if v.tomb then TOMB else 0
  }

  lemma SlotBitsInjective(v: SlotWord, w: SlotWord)
    requires v.pos < 0x400_0000 && w.pos < 0x400_0000
    ensures SlotBits(v) == SlotBits(w) <==> v == w
  {
  }

  /** v1's slot word: a 32-bit position, a tombstone half the range past its commit. */
  function Slot32(v: SlotWord): nat {
    (v.pos + if v.tomb then TOMB else 0) % U32
  }

  /** Two numbers less than 2^32 apart are equal if they are equal as 32-bit words. */
  lemma Near32(a: nat, b: nat)
    requires a <= b < a + U32
    ensures a % U32 == b % U32 <==> a == b
  {
  }

  /** At every depth v1 accepts, down to one slot, what a slot can hold at position `p`, claimable, committed,
      tombstoned or released, is four different words. */
  lemma FourWords(c: Config, p: nat)
    requires Plain(c) && c.depth <= MPSC_MAX_CAPACITY
    ensures Slot32(Claimable(p)) != Slot32(CommittedAt(c, p))
    ensures Slot32(Claimable(p)) != Slot32(TombAt(c, p))
    ensures Slot32(Claimable(p)) != Slot32(ReleasedAt(c, p))
    ensures Slot32(CommittedAt(c, p)) != Slot32(TombAt(c, p))
    ensures Slot32(CommittedAt(c, p)) != Slot32(ReleasedAt(c, p))
    ensures Slot32(TombAt(c, p)) != Slot32(ReleasedAt(c, p))
  {
    var m := c.depth;
    Near32(p, p + m + 1);
    Near32(p, p + m + 1 + TOMB);
    Near32(p, p + m);
    Near32(p + m + 1, p + m + 1 + TOMB);
    Near32(p + m, p + m + 1);
    Near32(p + m, p + m + 1 + TOMB);
  }

  /** v1's width, 32 bits, is whole laps and whole half segments of every depth it accepts: `RunWraps` holds of its
      ring too, with no switches and one segment. */
  lemma V1WidthWraps(c: Config, e: nat)
    requires Plain(c) && e <= 30 && c.depth == Pow2(e)
    ensures Pow2(32) == U32 && Wraps(c, c.(wrap := U32))
  {
    hide Pow2;
    TwoTo32();
    Pow2Splits(32 - e, e);
    DivModUnique(U32, Pow2(e), Pow2(32 - e), 0);
    Pow2Mono(e + 1, 31);
    DoubleIs(e);
    DoubleIs(31);
    HalfOf(c, e);
    var f := if e == 0 then 0 else e - 1;
    Pow2Splits(32 - f, f);
    DivModUnique(U32, Pow2(f), Pow2(32 - f), 0);
  }

  lemma TwoTo32()
    ensures Pow2(32) == U32
  {
    assert Pow2(8) == 256;
    Pow2Splits(8, 8);
    Pow2Splits(16, 16);
  }

  lemma DoubleIs(e: nat)
    ensures Pow2(e + 1) == 2 * Pow2(e)
  {
  }

  lemma HalfOf(c: Config, e: nat)
    requires c.depth == Pow2(e)
    ensures Half(c) == Pow2(if e == 0 then 0 else e - 1)
  {
  }

  /** And the slot words it wraps to are the same 32-bit words. */
  lemma V1SlotsWrap(d: Config, v: SlotWord)
    requires d.wrap == U32
    ensures Slot32(WrapSlot(d, v)) == Slot32(v)
  {
    ModAdd(v.pos, if v.tomb then TOMB else 0, U32);
    ModAdd(v.pos, 0, U32);
  }

  /** v1's consumer reads its slot's 32-bit word as the ring means it: committed, tombstoned, or neither. */
  lemma ConsumerTests32(c: Config, s: State, k: nat)
    requires Reached(c, s) && c.depth <= MPSC_MAX_CAPACITY && Shape(c, s.core) && k < c.segs
    ensures var p := s.core.g.rd[k];
      var v := SeqAt(c, s.core.mem, k, p);
      && (Slot32(v) == (p + c.depth + 1) % U32 <==> v == CommittedAt(c, p))
      && (Slot32(v) == (p + c.depth + 1 + TOMB) % U32 <==> v == TombAt(c, p))
  {
    hide Inv, Reached, Shape, Slot32;
    ReachedInv(c, s);
    SlotFacts(c, s);
    SealsShape(c, s);
    Is32(c, s.core.g.rd[k]);
    assert SlotOk(c, s.core, k, s.core.g.rd[k]);
    FourWords(c, s.core.g.rd[k]);
  }

  lemma Is32(c: Config, p: nat)
    requires Plain(c)
    ensures Slot32(CommittedAt(c, p)) == (p + c.depth + 1) % U32
    ensures Slot32(TombAt(c, p)) == (p + c.depth + 1 + TOMB) % U32
    ensures Slot32(Claimable(p)) == p % U32
  {
  }

  /** v1's producer reads the slot at its index as the ring means it, as long as fewer than half the range
      less one lap have been claimed since it loaded the index: a tombstone of the lap before is never
      taken for a claimable slot. */
  lemma ProducerTests32(c: Config, s: State, i: nat)
    requires Reached(c, s) && c.depth <= MPSC_MAX_CAPACITY && Shape(c, s.core) && i < |s.prods|
    requires s.prods[i].pc.Look? && s.prods[i].pc.w.seg < c.segs
    requires s.core.g.cl[s.prods[i].pc.w.seg] + c.depth < s.prods[i].pc.w.pos + TOMB
    ensures var w := s.prods[i].pc.w;
      var v := SeqAt(c, s.core.mem, w.seg, w.pos);
      Slot32(v) == w.pos % U32 <==> v == Claimable(w.pos)
  {
    hide Inv, Reached, Shape, Numbers, Keeps, Owes, Owns;
    ReachedInv(c, s);
    SlotFacts(c, s);
    SealsShape(c, s);
    RingLocalOf(c, s, i);
    var x, w := s.core, s.prods[i].pc.w;
    SlotForms(c, x, w.seg, w.pos);
    Claims32(SeqAt(c, x.mem, w.seg, w.pos), w.pos, x.g.rd[w.seg], x.g.cl[w.seg], c.depth);
  }

  lemma SlotForms(c: Config, x: Core, k: nat, p: nat)
    requires Plain(c) && Shape(c, x) && Fronts(c, x) && Slots(c, x) && k < c.segs
    ensures var v := SeqAt(c, x.mem, k, p);
      && x.g.rd[k] <= v.pos <= x.g.cl[k] + c.depth
      && (v.tomb ==> v.pos >= x.g.rd[k] + c.depth + 1)
  {
    var q := WindowHas(x.g.rd[k], c.depth, p);
    assert SlotOk(c, x, k, q);
  }

  lemma Claims32(v: SlotWord, p: nat, rd: nat, cl: nat, m: nat)
    requires 1 <= m <= MPSC_MAX_CAPACITY && rd <= v.pos <= cl + m && p <= cl <= rd + m && cl + m < p + TOMB
    requires v.tomb ==> v.pos >= rd + m + 1
    ensures Slot32(v) == p % U32 <==> v == Claimable(p)
  {
    var n := v.pos + if v.tomb then TOMB else 0;
    if n >= p {
      Near32(p, n);
    } else {
      Near32(n, p);
    }
  }
}
