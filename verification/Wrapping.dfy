/** The ring the program runs, whose words hold positions modulo a power of two, against the ring of the
    proofs, whose positions never wrap: the words of the second read modulo the first's width. */
module Wrapping {
  import opened Laps
  import opened Machine
  import opened Invariant

  // ---------------------------------------------------------------- positions

  /** `d` is `c` with positions that wrap, at a width that whole laps and whole half-segments divide. */
  ghost predicate Wraps(c: Config, d: Config) {
    && Plain(c)
    && d == c.(wrap := d.wrap)
    && d.wrap >= 2 * c.depth + 2
    && d.wrap % c.depth == 0
    && d.wrap % Half(c) == 0
  }

  function Pow2(e: nat): (r: nat)
    ensures r >= 1
  {
    if e == 0 then 1 else 2 * Pow2(e - 1)
  }

  lemma {:induction false} Pow2Splits(a: nat, b: nat)
    ensures Pow2(a + b) == Pow2(a) * Pow2(b)
    decreases a
  {
    if a > 0 {
      Pow2Splits(a - 1, b);
      assert (2 * Pow2(a - 1)) * Pow2(b) == 2 * (Pow2(a - 1) * Pow2(b));
    }
  }

  lemma {:induction false} Pow2Mono(a: nat, b: nat)
    requires a <= b
    ensures Pow2(a) <= Pow2(b)
    decreases b
  {
    if a < b {
      Pow2Mono(a, b - 1);
    }
  }

  /** The bits of a position in a packed word, and the largest segment `validate_geometry` accepts. */
  const SEQ_BITS: nat := 26
  const MAX_DEPTH_BITS: nat := 24

  /** The program's width fits every depth it accepts: any power of two up to its largest segment. */
  lemma SourceWidthWraps(c: Config, e: nat)
    requires Plain(c) && e <= MAX_DEPTH_BITS && c.depth == Pow2(e)
    ensures Wraps(c, c.(wrap := Pow2(SEQ_BITS)))
  {
    hide Pow2;
    Pow2Divides(e);
    FourLaps(e);
    HalfDivides(c, e);
  }

  lemma FourLaps(e: nat)
    requires e <= MAX_DEPTH_BITS
    ensures Pow2(SEQ_BITS) >= 4 * Pow2(e)
  {
    Pow2Mono(e + 2, SEQ_BITS);
    assert Pow2(e + 2) == 2 * Pow2(e + 1) == 4 * Pow2(e);
  }

  lemma HalfDivides(c: Config, e: nat)
    requires e <= MAX_DEPTH_BITS && c.depth == Pow2(e)
    ensures Pow2(SEQ_BITS) % Half(c) == 0
  {
    Pow2Divides(0);
    if e > 0 {
      Pow2Divides(e - 1);
      assert c.depth / 2 == Pow2(e - 1);
    }
  }

  lemma Pow2Divides(e: nat)
    requires e <= SEQ_BITS
    ensures Pow2(SEQ_BITS) % Pow2(e) == 0
  {
    Pow2Splits(SEQ_BITS - e, e);
    DivModUnique(Pow2(SEQ_BITS), Pow2(e), Pow2(SEQ_BITS - e), 0);
  }

  lemma DivModEq(x: nat, w: nat)
    requires w >= 1
    ensures x == x / w * w + x % w && x % w < w
  {
  }

  lemma Distribute(a: nat, q: nat, d: nat, m: nat)
    ensures (a * q + d) * m == a * (q * m) + d * m
  {
    assert (a * q) * m == a * (q * m);
  }

  lemma ModOfMod(x: nat, w: nat, m: nat)
    requires m >= 1 && w >= 1 && w % m == 0
    ensures x % w % m == x % m
  {
    DivModEq(x, w);
    DivModEq(x % w, m);
    DivModEq(w, m);
    ModOfParts(x, w, m, x / w, w / m, x % w, x % w / m, x % w % m);
  }

  lemma ModOfParts(x: nat, w: nat, m: nat, a: nat, q: nat, b: nat, d: nat, r: nat)
    requires m >= 1 && x == a * w + b && w == q * m && b == d * m + r && r < m
    ensures x % m == r
  {
    Distribute(a, q, d, m);
    DivModUnique(x, m, a * q + d, r);
  }

  lemma SlotOfSeq(c: Config, d: Config, p: nat)
    requires Wraps(c, d)
    ensures Slot(SeqOf(d, p), c.depth) == Slot(p, c.depth)
  {
    SlotIsMod(SeqOf(d, p), c.depth);
    SlotIsMod(p, c.depth);
    ModOfMod(p, d.wrap, c.depth);
  }

  lemma ModAdd(p: nat, n: nat, w: nat)
    requires w >= 1
    ensures (p % w + n) % w == (p + n) % w
  {
    var a, b := p / w, p % w + n;
    var e := b / w;
    assert p == a * w + p % w;
    assert b == e * w + b % w;
    assert (a + e) * w == a * w + e * w;
    DivModUnique(p + n, w, a + e, b % w);
  }

  lemma SeqAdd(c: Config, d: Config, p: nat, n: nat)
    requires Wraps(c, d)
    ensures SeqOf(d, SeqOf(d, p) + n) == SeqOf(d, p + n)
  {
    ModAdd(p, n, d.wrap);
  }

  lemma ModClose(p: nat, q: nat, w: nat)
    requires w >= 1 && p <= q < p + w && p % w == q % w
    ensures p == q
  {
    DivModEq(p, w);
    DivModEq(q, w);
    PartsClose(p / w, q / w, p % w, w);
  }

  lemma PartsClose(a: nat, b: nat, r: nat, w: nat)
    requires a * w + r <= b * w + r < a * w + r + w
    ensures a == b || a * w == b * w
  {
    assert (a + 1) * w == a * w + w;
    if a < b {
      MulMono(a + 1, b, w);
    } else {
      MulMono(b, a, w);
    }
  }

  /** Two positions less than a width apart wrap alike only if they are one. */
  lemma SeqClose(c: Config, d: Config, p: nat, q: nat)
    requires Wraps(c, d) && p <= q < p + d.wrap && SeqOf(d, p) == SeqOf(d, q)
    ensures p == q
  {
    ModClose(p, q, d.wrap);
  }

  lemma CheckOfSeq(c: Config, d: Config, p: nat)
    requires Wraps(c, d)
    ensures AtCheck(d, SeqOf(d, p)) <==> AtCheck(c, p)
  {
    ModOfMod(p, d.wrap, Half(c));
  }

  lemma SmallSeq(c: Config, d: Config, p: nat)
    requires Wraps(c, d) && p < d.wrap
    ensures SeqOf(d, p) == p
  {
    DivModUnique(p, d.wrap, 0, p);
  }

  // ---------------------------------------------------------------- states

  function WrapWord(d: Config, w: Word): Word { Word(w.seg, SeqOf(d, w.pos), w.waiting) }

  function WrapSeal(d: Config, v: Seal): Seal { Seal(v.moved, v.seg, SeqOf(d, v.pos)) }

  function WrapSlot(d: Config, v: SlotWord): SlotWord { SlotWord(SeqOf(d, v.pos), v.tomb) }

  function WrapAll(d: Config, ps: seq<nat>): (r: seq<nat>)
    ensures |r| == |ps| && forall k :: 0 <= k < |ps| ==> r[k] == SeqOf(d, ps[k])
  {
    seq(|ps|, k requires 0 <= k < |ps| => SeqOf(d, ps[k]))
  }

  function WrapSeals(d: Config, vs: seq<Seal>): (r: seq<Seal>)
    ensures |r| == |vs| && forall k :: 0 <= k < |vs| ==> r[k] == WrapSeal(d, vs[k])
  {
    seq(|vs|, k requires 0 <= k < |vs| => WrapSeal(d, vs[k]))
  }

  function WrapRow(d: Config, row: seq<SlotWord>): (r: seq<SlotWord>)
    ensures |r| == |row| && forall j :: 0 <= j < |row| ==> r[j] == WrapSlot(d, row[j])
  {
    seq(|row|, j requires 0 <= j < |row| => WrapSlot(d, row[j]))
  }

  function WrapSeqs(d: Config, seqs: seq<seq<SlotWord>>): (r: seq<seq<SlotWord>>)
    ensures |r| == |seqs| && forall k :: 0 <= k < |seqs| ==> r[k] == WrapRow(d, seqs[k])
  {
    seq(|seqs|, k requires 0 <= k < |seqs| => WrapRow(d, seqs[k]))
  }

  function WrapMemory(d: Config, m: Memory): Memory {
    m.(claim := WrapWord(d, m.claim),
       seqs := WrapSeqs(d, m.seqs),
       seals := WrapSeals(d, m.seals),
       ckpt := Checkpoint(m.ckpt.cur, SeqOf(d, m.ckpt.pos), WrapAll(d, m.ckpt.resume)))
  }

  function WrapConsPc(d: Config, pc: ConsPc): ConsPc {
    match pc
    case Store(p, got) => Store(SeqOf(d, p), got)
    case Sleep(val) => Sleep(WrapWord(d, val))
    case _ => pc
  }

  function WrapConsumer(d: Config, cons: Consumer): Consumer {
    cons.(pc := WrapConsPc(d, cons.pc), pos := SeqOf(d, cons.pos), resume := WrapAll(d, cons.resume))
  }

  function WrapPc(d: Config, pc: Pc): Pc {
    match pc
    case Look(w) => Look(WrapWord(d, w))
    case Cas(w) => Cas(WrapWord(d, w))
    case Reread(w) => Reread(WrapWord(d, w))
    case FreeLoad(w) => FreeLoad(WrapWord(d, w))
    case Take(w, k) => Take(WrapWord(d, w), k)
    case SealLoad(w, k) => SealLoad(WrapWord(d, w), k)
    case SealClear(w, k, start) => SealClear(WrapWord(d, w), k, SeqOf(d, start))
    case Move(w, k, start) => Move(WrapWord(d, w), k, SeqOf(d, start))
    case SealStore(w, k) => SealStore(WrapWord(d, w), k)
    case SealRestore(k, start) => SealRestore(k, SeqOf(d, start))
    case RoomSeq(seen, r) => RoomSeq(seen, WrapWord(d, r))
    case Fill(w) => Fill(WrapWord(d, w))
    case Commit(w) => Commit(WrapWord(d, w))
    case Tomb(w) => Tomb(WrapWord(d, w))
    case WakeConsumer(w) => WakeConsumer(WrapWord(d, w))
    case _ => pc
  }

  function WrapProducers(d: Config, prods: seq<Producer>): (r: seq<Producer>)
    ensures |r| == |prods|
    ensures forall i :: 0 <= i < |prods| ==> r[i] == prods[i].(pc := WrapPc(d, prods[i].pc))
  {
    seq(|prods|, i requires 0 <= i < |prods| => prods[i].(pc := WrapPc(d, prods[i].pc)))
  }

  function WrapCore(d: Config, x: Core): Core {
    Core(WrapMemory(d, x.mem), WrapConsumer(d, x.cons), x.g)
  }

  /** Every word of the state as the narrower ring holds it. The bookkeeping stays unwrapped. */
  function Wrap(d: Config, s: State): State {
    State(WrapCore(d, s.core), WrapProducers(d, s.prods))
  }

  lemma WrapShape(c: Config, d: Config, x: Core)
    requires Wraps(c, d) && Shape(c, x)
    ensures Shape(d, WrapCore(d, x))
  {
    hide SeqOf;
    forall k | 0 <= k < c.segs
      ensures |WrapCore(d, x).mem.seqs[k]| == c.depth
    {
    }
  }

  lemma WrapWell(c: Config, d: Config, s: State)
    requires Wraps(c, d) && WellShaped(c, s)
    ensures WellShaped(d, Wrap(d, s))
  {
    hide SeqOf, Shape;
    WrapShape(c, d, s.core);
  }

  // ---------------------------------------------------------------- accesses

  lemma ReadSlot(c: Config, d: Config, x: Core, k: nat, p: nat)
    requires Wraps(c, d) && Shape(c, x) && k < c.segs
    ensures Shape(d, WrapCore(d, x))
    ensures SeqAt(d, WrapCore(d, x).mem, k, SeqOf(d, p)) == WrapSlot(d, SeqAt(c, x.mem, k, p))
    ensures BodyAt(d, WrapCore(d, x).mem, k, SeqOf(d, p)) == BodyAt(c, x.mem, k, p)
  {
    hide SeqOf;
    WrapShape(c, d, x);
    SlotOfSeq(c, d, p);
  }

  lemma WriteSlot(c: Config, d: Config, x: Core, k: nat, p: nat, v: SlotWord)
    requires Wraps(c, d) && Shape(c, x) && k < c.segs
    ensures Shape(d, WrapCore(d, x))
    ensures SetSeq(d, WrapMemory(d, x.mem), k, SeqOf(d, p), WrapSlot(d, v)) == WrapMemory(d, SetSeq(c, x.mem, k, p, v))
  {
    hide SeqOf, WrapSlot;
    WrapShape(c, d, x);
    SlotOfSeq(c, d, p);
    var j := Slot(p, c.depth);
    var row := x.mem.seqs[k];
    assert WrapRow(d, row)[j := WrapSlot(d, v)] == WrapRow(d, row[j := v]);
    assert WrapSeqs(d, x.mem.seqs)[k := WrapRow(d, row[j := v])] == WrapSeqs(d, x.mem.seqs[k := row[j := v]]);
  }

  lemma FillSlot(c: Config, d: Config, x: Core, k: nat, p: nat, v: Msg)
    requires Wraps(c, d) && Shape(c, x) && k < c.segs
    ensures Shape(d, WrapCore(d, x))
    ensures SetBody(d, WrapMemory(d, x.mem), k, SeqOf(d, p), v) == WrapMemory(d, SetBody(c, x.mem, k, p, v))
  {
    hide SeqOf;
    WrapShape(c, d, x);
    SlotOfSeq(c, d, p);
  }

  lemma WriteSeal(c: Config, d: Config, x: Core, k: nat, v: Seal)
    requires Wraps(c, d) && k < |x.mem.seals|
    ensures StoreSeal(WrapCore(d, x), k, WrapSeal(d, v)) == WrapCore(d, StoreSeal(x, k, v))
  {
    hide SeqOf, WrapSeal;
    assert WrapSeals(d, x.mem.seals)[k := WrapSeal(d, v)] == WrapSeals(d, x.mem.seals[k := v]);
  }

  /** What the slot words say wraps with them. */
  lemma WordsWrap(c: Config, d: Config, p: nat)
    requires Wraps(c, d)
    ensures Claimable(SeqOf(d, p)) == WrapSlot(d, Claimable(p))
    ensures CommittedAt(d, SeqOf(d, p)) == WrapSlot(d, CommittedAt(c, p))
    ensures TombAt(d, SeqOf(d, p)) == WrapSlot(d, TombAt(c, p))
    ensures ReleasedAt(d, SeqOf(d, p)) == WrapSlot(d, ReleasedAt(c, p))
    ensures SeqOf(d, SeqOf(d, p) + 1) == SeqOf(d, p + 1)
    ensures SeqOf(c, p + 1) == p + 1
    ensures SeqOf(d, SeqOf(d, p)) == SeqOf(d, p)
    ensures WrapSeal(d, ClearSeal) == ClearSeal
  {
    SeqAdd(c, d, p, 0);
    SeqAdd(c, d, p, 1);
    SeqAdd(c, d, p, c.depth);
    SeqAdd(c, d, p, c.depth + 1);
    SmallSeq(c, d, 0);
    SeqC(c, p);
    assert SeqOf(c, p + c.depth) == p + c.depth && SeqOf(c, p + c.depth + 1) == p + c.depth + 1;
    hide SeqOf;
    assert SeqOf(d, SeqOf(d, p) + 0) == SeqOf(d, p + 0);
    assert SeqOf(d, p) + d.depth + 1 == SeqOf(d, p) + (c.depth + 1);
  }

  lemma SeqC(c: Config, p: nat)
    requires Plain(c)
    ensures SeqOf(c, p) == p
  {
  }

  // ---------------------------------------------------------------- tests

  /** A loaded word not overtaken by a whole width: since its load fewer claims than the width less one
      segment have been made in its segment. */
  ghost predicate Current(c: Config, d: Config, x: Core, w: Word)
    requires Shape(c, x)
  {
    w.seg < c.segs ==> x.g.cl[w.seg] + c.depth < w.pos + d.wrap
  }

  /** The words a producer is about to compare with the ring's are current. */
  ghost predicate FreshPc(c: Config, d: Config, x: Core, pc: Pc)
    requires Shape(c, x)
  {
    match pc
    case Look(w) => Current(c, d, x, w)
    case Cas(w) => Current(c, d, x, w)
    case Reread(w) => Current(c, d, x, w)
    case Move(w, _, _) => Current(c, d, x, w)
    case RoomSeq(_, r) => Current(c, d, x, r)
    case _ => true
  }

  ghost predicate Fresh(c: Config, d: Config, s: State, i: nat)
    requires Shape(c, s.core)
  {
    i < |s.prods| ==> FreshPc(c, d, s.core, s.prods[i].pc)
  }

  /** The access about to be made compares no word a width old. The others' words may be any age. */
  ghost predicate Timely(c: Config, d: Config, s: State, step: Step)
    requires Shape(c, s.core)
  {
    step.ByProducer? ==> Fresh(c, d, s, step.i)
  }

  /** A current word equals the claim word exactly when its wrapped form does. */
  lemma ClaimAgrees(c: Config, d: Config, x: Core, w: Word)
    requires Wraps(c, d) && Shape(c, x) && Chained(c, x) && w.seg < c.segs
    requires w.pos <= x.g.cl[w.seg] && Current(c, d, x, w)
    ensures WrapWord(d, x.mem.claim) == WrapWord(d, w) <==> x.mem.claim == w
  {
    hide SeqOf;
    if WrapWord(d, x.mem.claim) == WrapWord(d, w) {
      SeqClose(c, d, w.pos, x.mem.claim.pos);
    }
  }

  /** Every slot is some position's of the window. */
  lemma {:induction false} WindowHas(lo: nat, m: nat, p: nat) returns (q: nat)
    requires m >= 1
    ensures lo <= q < lo + m && Slot(q, m) == Slot(p, m)
    decreases if p < lo then lo - p else p - lo
  {
    if p < lo {
      if p + m < lo + m && p + m >= lo {
        q := p + m;
      } else {
        q := WindowHas(lo, m, p + m);
      }
    } else if p < lo + m {
      q := p;
    } else {
      q := WindowHas(lo, m, p - m);
    }
  }

  /** A slot word holds a position not before its segment's read frontier, and not past its claim frontier
      by more than a lap. */
  lemma SlotNear(c: Config, x: Core, k: nat, p: nat)
    requires Plain(c) && Shape(c, x) && Fronts(c, x) && Slots(c, x) && k < c.segs
    ensures x.g.rd[k] <= SeqAt(c, x.mem, k, p).pos <= x.g.cl[k] + c.depth
  {
    var q := WindowHas(x.g.rd[k], c.depth, p);
    assert SlotOk(c, x, k, q);
  }

  /** A slot reads as claimable at a current word exactly when its wrapped form does. */
  lemma SlotAgrees(c: Config, d: Config, x: Core, w: Word)
    requires Wraps(c, d) && Shape(c, x) && Fronts(c, x) && Slots(c, x) && w.seg < c.segs
    requires w.pos <= x.g.cl[w.seg] && Current(c, d, x, w)
    ensures WrapSlot(d, SeqAt(c, x.mem, w.seg, w.pos)) == WrapSlot(d, Claimable(w.pos)) <==>
            SeqAt(c, x.mem, w.seg, w.pos) == Claimable(w.pos)
  {
    hide SeqOf, SeqAt;
    var v := SeqAt(c, x.mem, w.seg, w.pos);
    SlotNear(c, x, w.seg, w.pos);
    if WrapSlot(d, v) == WrapSlot(d, Claimable(w.pos)) {
      if v.pos >= w.pos {
        SeqClose(c, d, w.pos, v.pos);
      } else {
        SeqClose(c, d, v.pos, w.pos);
      }
    }
  }

  /** The consumer's look at its slot, committed or tombstone, reads alike. */
  lemma LookAgrees(c: Config, d: Config, x: Core, k: nat)
    requires Wraps(c, d) && Shape(c, x) && Fronts(c, x) && Slots(c, x) && k < c.segs
    ensures forall u :: u == CommittedAt(c, x.g.rd[k]) || u == TombAt(c, x.g.rd[k]) ==>
      (WrapSlot(d, SeqAt(c, x.mem, k, x.g.rd[k])) == WrapSlot(d, u) <==> SeqAt(c, x.mem, k, x.g.rd[k]) == u)
  {
    hide SeqOf;
    var p := x.g.rd[k];
    SeqC(c, p + c.depth + 1);
    assert SlotOk(c, x, k, p);
    var v := SeqAt(c, x.mem, k, p);
    if SeqOf(d, v.pos) == SeqOf(d, p + c.depth + 1) {
      SeqClose(c, d, v.pos, p + c.depth + 1);
    }
  }

  /** The consumer's look at its segment's seal reads alike. */
  lemma SealAgrees(c: Config, d: Config, x: Core)
    requires Wraps(c, d) && Shape(c, x) && Chained(c, x) && Fronts(c, x) && Sealed(c, x)
    requires x.cons.cur == x.g.chain[0] && x.cons.pos == x.g.rd[x.cons.cur] && x.mem.seals[x.cons.cur].moved
    ensures SeqOf(d, x.mem.seals[x.cons.cur].pos) == SeqOf(d, x.cons.pos) <==>
            x.mem.seals[x.cons.cur].pos == x.cons.pos
  {
    hide SeqOf;
    if |x.g.chain| > 1 {
      assert LinkOk(c, x, x.g.chain[0]);
      if SeqOf(d, x.mem.seals[x.cons.cur].pos) == SeqOf(d, x.cons.pos) {
        SeqClose(c, d, x.cons.pos, x.mem.seals[x.cons.cur].pos);
      }
    }
  }

  /** The consumer's look at the claim word reads alike. */
  lemma HereAgrees(c: Config, d: Config, x: Core)
    requires Wraps(c, d) && Shape(c, x) && Chained(c, x) && Fronts(c, x)
    requires x.cons.cur == x.g.chain[0] && x.cons.pos == x.g.rd[x.cons.cur]
    ensures Here(d, WrapWord(d, x.mem.claim), x.cons.cur, SeqOf(d, x.cons.pos)) <==>
            Here(c, x.mem.claim, x.cons.cur, x.cons.pos)
    ensures WrapWord(d, x.mem.claim) == WrapWord(d, Word(x.cons.cur, x.cons.pos, true)) <==>
            x.mem.claim == Word(x.cons.cur, x.cons.pos, true)
  {
    hide SeqOf;
    assert !c.multi ==> x.mem.claim.seg == x.cons.cur == 0;
    if x.mem.claim.seg == x.cons.cur && SeqOf(d, x.mem.claim.pos) == SeqOf(d, x.cons.pos) {
      SeqClose(c, d, x.cons.pos, x.mem.claim.pos);
    }
  }
}
