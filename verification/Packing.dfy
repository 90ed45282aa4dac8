/** The claim word and the seals as the 32-bit words they are: the machine's `Word` and `Seal` packed, with the
    words each access writes and the tests each access makes in the program's own shifts and masks. */
module Packing {
  import opened Laps
  import opened Machine
  import opened Invariant
  import opened Runs
  import opened Wrapping
  import opened WrapSteps
  import opened Words

  // ---------------------------------------------------------------- numbers as 32-bit words

  function Inc(x: bv32): bv32 { x + 1 }

  function Plus(x: bv32, y: bv32): bv32 { x + y }

  function Twice(x: bv32, odd: bool): bv32 { (x << 1) | if odd then 1 else 0 }

  /** What of a word lies at or above bit `w`. */
  function Above(x: bv32, w: bv32): bv32
    requires w <= 31
  {
    x >> w
  }

  /** The word that holds `n`: `n` counted up to, wrapping as a word does. */
  function AsWord(n: nat): bv32 {
    if n == 0 then 0 else Inc(AsWord(n - 1))
  }

  lemma PlusInc(x: bv32, y: bv32)
    ensures Plus(x, Inc(y)) == Inc(Plus(x, y)) && Plus(x, 0) == x
  {
  }

  lemma {:induction false} BitsAdd(a: nat, b: nat)
    ensures AsWord(a + b) == Plus(AsWord(a), AsWord(b))
    decreases b
  {
    hide Inc, Plus;
    if b > 0 {
      BitsAdd(a, b - 1);
      PlusInc(AsWord(a), AsWord(b - 1));
    } else {
      PlusInc(AsWord(a), 0);
    }
  }

  lemma Doubled(x: bv32)
    ensures Plus(x, x) == Twice(x, false)
    ensures Inc(Twice(x, false)) == Twice(x, true)
  {
  }

  lemma BitsTwice(q: nat, odd: bool)
    ensures AsWord(2 * q + if odd then 1 else 0) == Twice(AsWord(q), odd)
  {
    hide Inc, Plus, Twice;
    BitsAdd(q, q);
    Doubled(AsWord(q));
  }

  /** `w` is the number `e`, at most 31. */
  predicate Same(e: nat, w: bv32) {
    if e == 0 then w == 0 else 1 <= w <= 31 && Same(e - 1, w - 1)
  }

  lemma TwiceAbove(x: bv32, odd: bool, w: bv32)
    requires 1 <= w <= 31 && Above(x, w - 1) == 0
    ensures Above(Twice(x, odd), w) == 0
  {
  }

  /** A number below 2^e has no bit at or above `e`. */
  lemma {:induction false} BitsFit(n: nat, e: nat, w: bv32)
    requires n < Pow2(e) && w <= 31 && Same(e, w)
    ensures Above(AsWord(n), w) == 0
    decreases e
  {
    hide Inc, Twice, Above;
    if e == 0 {
      NoneAbove(w);
    } else {
      BitsFit(n / 2, e - 1, w - 1);
      BitsTwice(n / 2, n % 2 == 1);
      TwiceAbove(AsWord(n / 2), n % 2 == 1, w);
    }
  }

  lemma NoneAbove(w: bv32)
    requires w <= 31
    ensures Above(0, w) == 0
  {
  }

  /** The width of a position, and its bits and a segment's as words. */
  const WIDTH: nat := Pow2(SEQ_BITS)

  lemma Widths()
    ensures WIDTH == 0x400_0000 && Pow2(5) == 32 && Same(SEQ_BITS, 26) && Same(5, 5)
  {
    assert Pow2(13) == 0x2000;
    Pow2Splits(13, 13);
    assert Same(2, 2) && Same(4, 4) && Same(6, 6) && Same(8, 8) && Same(10, 10) && Same(12, 12) && Same(14, 14);
    assert Same(16, 16) && Same(18, 18) && Same(20, 20) && Same(22, 22) && Same(24, 24);
  }

  lemma MaskKeeps(x: bv32)
    ensures Above(x, 26) == 0 ==> PosBits(x) == x
    ensures Above(x, 5) == 0 ==> x <= 31
    ensures PosBits(Plus(x, 0x400_0000)) == PosBits(x)
  {
  }

  /** A position below the width is its own word's low bits, and a segment below 32 is five bits. */
  lemma FieldsFit(n: nat)
    ensures n < WIDTH ==> Above(AsWord(n), 26) == 0 && PosBits(AsWord(n)) == AsWord(n)
    ensures n < 32 ==> AsWord(n) <= 31
  {
    hide AsWord, PosBits, Above, Pow2, Same;
    Widths();
    MaskKeeps(AsWord(n));
    if n < WIDTH {
      BitsFit(n, SEQ_BITS, 26);
    }
    if n < 32 {
      BitsFit(n, 5, 5);
    }
  }

  lemma Untwice(x: bv32, y: bv32, a: bool, b: bool)
    requires Above(x, 26) == 0 && Above(y, 26) == 0 && Twice(x, a) == Twice(y, b)
    ensures x == y && a == b
  {
  }

  /** Two positions held by one word are one position. */
  lemma {:induction false} BitsInjective(n: nat, m: nat)
    requires n < WIDTH && m < WIDTH && AsWord(n) == AsWord(m)
    ensures n == m
    decreases n + m
  {
    hide Inc, Twice, Above, PosBits;
    if n + m > 0 {
      BitsTwice(n / 2, n % 2 == 1);
      BitsTwice(m / 2, m % 2 == 1);
      FieldsFit(n / 2);
      FieldsFit(m / 2);
      Untwice(AsWord(n / 2), AsWord(m / 2), n % 2 == 1, m % 2 == 1);
      BitsInjective(n / 2, m / 2);
    }
  }

  function OneAt(w: bv32): bv32
    requires w <= 31
  {
    1 << w
  }

  lemma OneTwice(w: bv32)
    requires 1 <= w <= 31
    ensures Twice(OneAt(w - 1), false) == OneAt(w) && OneAt(0) == Inc(0)
    ensures OneAt(26) == 0x400_0000
  {
  }

  lemma {:induction false} BitsPow(e: nat, w: bv32)
    requires w <= 31 && Same(e, w)
    ensures AsWord(Pow2(e)) == OneAt(w)
    decreases e
  {
    hide Inc, Twice, OneAt;
    if e > 0 {
      BitsPow(e - 1, w - 1);
      BitsTwice(Pow2(e - 1), false);
      OneTwice(w);
    } else {
      OneTwice(1);
    }
  }

  /** `seq_of`: masking the word is the machine's wrap of the position. */
  lemma {:induction false} MaskIsWrap(n: nat)
    ensures AsWord(n % WIDTH) == PosBits(AsWord(n))
    decreases n
  {
    hide AsWord, PosBits, Pow2, Plus, OneAt, Same;
    Widths();
    if n < WIDTH {
      FieldsFit(n);
    } else {
      MaskIsWrap(n - WIDTH);
      ModLap(n - WIDTH, WIDTH);
      BitsAdd(n - WIDTH, WIDTH);
      BitsPow(SEQ_BITS, 26);
      OneTwice(26);
      MaskKeeps(AsWord(n - WIDTH));
    }
  }

  predicate Below(x: bv32, y: bv32) { x < y }

  lemma IncGrows(x: bv32)
    requires Above(x, 26) == 0
    ensures Below(x, Inc(x))
  {
  }

  lemma BelowChains(x: bv32, y: bv32, z: bv32)
    requires Below(x, y) && Below(y, z)
    ensures Below(x, z)
  {
  }

  /** The order of two positions is the order of their words. */
  lemma {:induction false} BitsLess(n: nat, m: nat)
    requires n < m < WIDTH
    ensures Below(AsWord(n), AsWord(m))
    decreases m
  {
    hide Inc, Above, PosBits, Below;
    FieldsFit(m - 1);
    IncGrows(AsWord(m - 1));
    if n < m - 1 {
      BitsLess(n, m - 1);
      BelowChains(AsWord(n), AsWord(m - 1), AsWord(m));
    }
  }

  // ---------------------------------------------------------------- the packed words

  function Or(x: bv32, y: bv32): bv32 { x | y }

  function And(x: bv32, y: bv32): bv32 { x & y }

  /** MOVED in a seal, WAITING in the claim word. */
  const FLAG: bv32 := 0x8000_0000

  const NOT_FLAG: bv32 := 0x7FFF_FFFF

  function FlagBit(up: bool): bv32 { if up then FLAG else 0 }

  function PackWord(w: Word): bv32 { Or(Pack(AsWord(w.seg), AsWord(w.pos)), FlagBit(w.waiting)) }

  function PackSeal(v: Seal): bv32 { Or(Pack(AsWord(v.seg), AsWord(v.pos)), FlagBit(v.moved)) }

  /** Within a word's fields. */
  predicate Fits(seg: nat, pos: nat) { seg < 32 && pos < WIDTH }

  lemma FlagAside(x: bv32, up: bool)
    requires And(x, FLAG) == 0
    ensures And(Or(x, FlagBit(up)), FLAG) == FlagBit(up)
    ensures And(Or(x, FlagBit(up)), NOT_FLAG) == x
  {
    BareWord(x);
  }

  lemma BareWord(x: bv32)
    requires And(x, FLAG) == 0
    ensures And(Or(x, FLAG), FLAG) == FLAG && And(Or(x, FLAG), NOT_FLAG) == x && And(x, NOT_FLAG) == x
    ensures Or(x, 0) == x
  {
    BareBits(x);
  }

  lemma BareBits(x: bv32)
    requires x & 0x8000_0000 == 0
    ensures x & 0x7FFF_FFFF == x && (x | 0x8000_0000) & 0x7FFF_FFFF == x
    ensures (x | 0x8000_0000) & 0x8000_0000 == 0x8000_0000 && x | 0 == x
  {
  }

  lemma OrSwaps(x: bv32, y: bv32)
    ensures Or(x, y) == Or(y, x)
  {
  }

  lemma OrAgain(x: bv32, y: bv32)
    ensures Or(Or(x, y), y) == Or(x, y)
  {
  }

  lemma OrFlag(x: bv32, up: bool)
    ensures Or(x, FlagBit(up)) == Or(FlagBit(up), x)
    ensures Or(Or(x, FlagBit(up)), FLAG) == Or(x, FLAG) && Or(x, 0) == x
  {
    hide Or;
    OrSwaps(x, FlagBit(up));
    OrAgain(x, FLAG);
    OrNone(x);
  }

  lemma OrNone(x: bv32)
    ensures Or(x, 0) == x
  {
  }

  lemma FieldsAside(x: bv32, up: bool)
    ensures SegBits(Or(x, FlagBit(up))) == SegBits(x) && PosBits(Or(x, FlagBit(up))) == PosBits(x)
  {
    FlagApart(x, FlagBit(up));
  }

  lemma PackBare(seg: bv32, pos: bv32)
    requires seg <= 31
    ensures And(Pack(seg, pos), FLAG) == 0 && SegBits(Pack(seg, pos)) == seg && PosBits(Pack(seg, pos)) == PosBits(pos)
  {
    PackThenUnpack(seg, pos);
  }

  /** A packed word gives back its fields and its flag. */
  lemma Fields(seg: nat, pos: nat, up: bool)
    requires Fits(seg, pos)
    ensures var a, b := Pack(AsWord(seg), AsWord(pos)), Or(Pack(AsWord(seg), AsWord(pos)), FlagBit(up));
      && SegBits(b) == AsWord(seg)
      && PosBits(b) == AsWord(pos)
      && And(b, FLAG) == FlagBit(up)
      && And(b, NOT_FLAG) == a
      && Or(b, FLAG) == Or(a, FLAG)
      && Or(a, 0) == a
      && b == Or(FlagBit(up), a)
  {
    hide AsWord, Pack, SegBits, PosBits, FlagBit, And, Or;
    FieldsFit(seg);
    FieldsFit(pos);
    PackBare(AsWord(seg), AsWord(pos));
    FlagAside(Pack(AsWord(seg), AsWord(pos)), up);
    OrFlag(Pack(AsWord(seg), AsWord(pos)), up);
    FieldsAside(Pack(AsWord(seg), AsWord(pos)), up);
  }

  lemma FlagTells(a: bool, b: bool)
    ensures FlagBit(a) == FlagBit(b) <==> a == b
    ensures FlagBit(true) == FLAG && FlagBit(false) == 0 && FLAG != 0
  {
  }

  lemma SegInjective(a: nat, b: nat)
    requires a < 32 && b < 32 && AsWord(a) == AsWord(b)
    ensures a == b
  {
    hide AsWord, Pow2;
    Widths();
    BitsInjective(a, b);
  }

  /** The claim word as it is stored tells every two claim words apart, and so does a seal: the compare of a
      CAS, a futex wait or a re-read is the compare of segment, position and flag. */
  lemma WordsTell(v: Word, w: Word)
    requires Fits(v.seg, v.pos) && Fits(w.seg, w.pos)
    ensures PackWord(v) == PackWord(w) <==> v == w
  {
    hide AsWord, Pack, SegBits, PosBits, FlagBit, And, Or;
    if PackWord(v) == PackWord(w) {
      Fields(v.seg, v.pos, v.waiting);
      Fields(w.seg, w.pos, w.waiting);
      SegInjective(v.seg, w.seg);
      BitsInjective(v.pos, w.pos);
      FlagTells(v.waiting, w.waiting);
    }
  }

  lemma SealsTell(v: Seal, w: Seal)
    requires Fits(v.seg, v.pos) && Fits(w.seg, w.pos)
    ensures PackSeal(v) == PackSeal(w) <==> v == w
  {
    hide AsWord, Pack, FlagBit, Or;
    WordsTell(Word(v.seg, v.pos, v.moved), Word(w.seg, w.pos, w.moved));
  }

  // ---------------------------------------------------------------- what the accesses store

  /** A configuration of the program's widths: 26-bit positions, at most 32 segments. */
  ghost predicate Packed(c: Config) {
    c.wrap == WIDTH && c.segs <= 32
  }

  lemma PackMasks(seg: bv32, pos: bv32)
    ensures Pack(seg, PosBits(pos)) == Pack(seg, pos)
  {
  }

  /** The claim CAS stores `word(seg, pos + 1) | (w & WAITING)` of the word `w` it replaces. */
  lemma ClaimStores(c: Config, x: Core, i: nat, n: nat, w: Word)
    requires Packed(c) && Shape(c, x) && w.seg < c.segs && w.pos < WIDTH
    ensures var b := PackWord(w);
      PackWord(ClaimSlot(c, x, i, n, w).mem.claim) == Or(Pack(SegBits(b), Inc(PosBits(b))), And(b, FLAG))
  {
    hide Pack, SegBits, PosBits, FlagBit, Shape, Inc, And, Or;
    Fields(w.seg, w.pos, w.waiting);
    MaskIsWrap(w.pos + 1);
    PackMasks(AsWord(w.seg), AsWord(w.pos + 1));
  }

  /** The switch CAS stores `word(k, start) | (w & WAITING)`. */
  lemma MoveStores(c: Config, x: Core, i: nat, w: Word, k: nat, start: nat)
    requires Packed(c) && Shape(c, x) && w.seg < c.segs && w.pos < WIDTH && k < c.segs
    ensures PackWord(MoveRing(c, x, i, w, k, start).mem.claim) ==
            Or(Pack(AsWord(k), AsWord(start)), And(PackWord(w), FLAG))
  {
    hide AsWord, Pack, SegBits, PosBits, FlagBit, Shape, And, Or;
    Fields(w.seg, w.pos, w.waiting);
  }

  /** The old segment's seal is `MOVED | word(k, word_pos(w))`. */
  lemma SealStores(c: Config, x: Core, w: Word, k: nat)
    requires Packed(c) && Shape(c, x) && w.seg < c.segs && w.pos < WIDTH && k < c.segs && |x.mem.seals| == c.segs
    ensures PackSeal(SealOld(c, x, w, k).mem.seals[w.seg]) == Or(FLAG, Pack(AsWord(k), PosBits(PackWord(w))))
  {
    hide AsWord, Pack, SegBits, PosBits, FlagBit, Shape, And, Or;
    Fields(w.seg, w.pos, w.waiting);
    Fields(k, w.pos, true);
    FlagTells(true, false);
  }

  lemma PackZero(pos: bv32)
    ensures Pack(0, pos) == PosBits(pos) && PosBits(0) == 0
  {
  }

  /** The seal put back by a switch that lost is the bare position, and a cleared one is 0. */
  lemma SealRestores(start: nat)
    requires start < WIDTH
    ensures PackSeal(Seal(false, 0, start)) == AsWord(start)
    ensures PackSeal(ClearSeal) == 0
  {
    hide Pack, SegBits, PosBits, FlagBit, And, Or, Pow2;
    Widths();
    Fields(0, start, false);
    Fields(0, 0, false);
    FieldsFit(start);
    FlagTells(true, false);
    PackZero(AsWord(start));
    PackZero(0);
  }

  /** `fetch_or` of WAITING and `fetch_and` of its complement raise and lower the flag and nothing else. */
  lemma FlagStores(w: Word)
    requires Fits(w.seg, w.pos)
    ensures PackWord(w.(waiting := true)) == Or(PackWord(w), FLAG)
    ensures PackWord(w.(waiting := false)) == And(PackWord(w), NOT_FLAG)
  {
    hide AsWord, Pack, SegBits, PosBits, FlagBit, And, Or;
    Fields(w.seg, w.pos, w.waiting);
    FlagTells(true, false);
  }

  // ---------------------------------------------------------------- what the accesses test

  /** The consumer's test before it sleeps, on the stored words: across segments `prev & !WAITING` against
      `word(cur, pos)`, on one the position bits alone. */
  lemma HereTests(c: Config, w: Word, cur: nat, pos: nat)
    requires Fits(w.seg, w.pos) && Fits(cur, pos)
    ensures Here(c, w, cur, pos) <==>
      if c.multi then And(PackWord(w), NOT_FLAG) == Pack(AsWord(cur), AsWord(pos))
      else PosBits(PackWord(w)) == AsWord(pos)
  {
    hide AsWord, Pack, SegBits, PosBits, FlagBit, And, Or;
    Fields(w.seg, w.pos, w.waiting);
    Fields(cur, pos, false);
    Fields(w.seg, w.pos, false);
    FlagTells(true, false);
    if AsWord(w.pos) == AsWord(pos) {
      BitsInjective(w.pos, pos);
    }
    if AsWord(w.seg) == AsWord(cur) {
      SegInjective(w.seg, cur);
    }
  }

  lemma NotBelow(x: bv32, y: bv32)
    ensures !(Below(x, y) && Below(y, x)) && !Below(x, x)
  {
  }

  lemma SegBelow(seg: nat, segs: nat)
    requires seg < 32 && segs <= 32
    ensures Below(AsWord(seg), AsWord(segs)) <==> seg < segs
  {
    hide AsWord, Pow2, Below;
    Widths();
    NotBelow(AsWord(seg), AsWord(segs));
    if seg < segs {
      BitsLess(seg, segs);
    } else if segs < seg {
      BitsLess(segs, seg);
    }
  }

  /** The consumer's test of a seal, on the stored word: MOVED, the position bits and the segment bits below
      the count. */
  lemma SealTests(v: Seal, pos: nat, segs: nat)
    requires Fits(v.seg, v.pos) && pos < WIDTH && segs <= 32
    ensures var b := PackSeal(v);
      v.moved && v.pos == pos && v.seg < segs <==>
      And(b, FLAG) != 0 && PosBits(b) == AsWord(pos) && Below(SegBits(b), AsWord(segs))
  {
    hide AsWord, Pack, SegBits, PosBits, FlagBit, Pow2, And, Or, Below;
    Fields(v.seg, v.pos, v.moved);
    FlagTells(v.moved, false);
    SegBelow(v.seg, segs);
    if AsWord(v.pos) == AsWord(pos) {
      BitsInjective(v.pos, pos);
    }
  }

  // ---------------------------------------------------------------- every run

  /** Every seal names a segment there is. */
  predicate SealsNamed(c: Config, m: Memory) {
    forall k :: 0 <= k < |m.seals| ==> m.seals[k].seg < c.segs
  }

  lemma SealsNamedStep(c: Config, s: State, step: Step)
    requires WellShaped(c, s) && SealsNamed(c, s.core.mem)
    ensures SealsNamed(c, Next(c, s, step).core.mem)
  {
    hide Produce, Consume;
    match step
    case ByProducer(i, ch) => if i < |s.prods| { SealsByProducer(c, s, i, ch); }
    case ByConsumer(ch) => SealsByConsumer(c, s, ch);
  }

  lemma SealsByProducer(c: Config, s: State, i: nat, ch: Choice)
    requires WellShaped(c, s) && i < |s.prods| && SealsNamed(c, s.core.mem)
    ensures SealsNamed(c, Produce(c, s, i, ch).core.mem)
  {
    hide LowestFree, SeqAt, AnyFree, NapStep, FillStep, SendStep;
    SealsKept(c, s, i, ch);
  }

  lemma SealsKept(c: Config, s: State, i: nat, ch: Choice)
    requires WellShaped(c, s) && i < |s.prods|
    ensures NapStep(c, s, i, ch).core.mem.seals == s.core.mem.seals
    ensures FillStep(c, s, i, ch).core.mem.seals == s.core.mem.seals
    ensures SendStep(c, s, i, ch).core.mem.seals == s.core.mem.seals
  {
    hide Shape, SeqAt, AnyFree, EntryOf;
  }

  lemma SealsByConsumer(c: Config, s: State, ch: Choice)
    requires WellShaped(c, s)
    ensures Consume(c, s, ch).core.mem.seals == s.core.mem.seals
  {
    hide PcShape, Shape, ReadStep, Here;
    SealsRead(c, s.core, ch);
  }

  lemma SealsRead(c: Config, x: Core, ch: Choice)
    requires Shape(c, x)
    ensures ReadStep(c, x, ch).mem.seals == x.mem.seals
  {
    hide Shape, SeqAt, BodyAt, AtCheck;
  }

  lemma {:induction false} SealsNamedRun(c: Config, producers: nat, body: Msg, steps: seq<Step>)
    requires Plain(c)
    ensures SealsNamed(c, Run(c, producers, body, steps).core.mem)
    decreases |steps|
  {
    hide Inv, Next, Exec, SealsNamed;
    if steps == [] {
      SealsNamedInit(c, producers, body);
      RunInv(c, producers, body, []);
    } else {
      var m := |steps| - 1;
      SealsNamedRun(c, producers, body, steps[..m]);
      RunNext(c, producers, body, steps[..m], steps[m]);
      assert steps[..m] + [steps[m]] == steps;
      SealsNamedStep(c, Run(c, producers, body, steps[..m]), steps[m]);
    }
  }

  lemma SealsNamedInit(c: Config, producers: nat, body: Msg)
    requires Good(c)
    ensures SealsNamed(c, Init(c, producers, body).core.mem)
  {
  }

  lemma ClaimNamed(c: Config, s: State)
    requires Inv(c, s)
    ensures s.core.mem.claim.seg < c.segs && |s.core.mem.seals| == c.segs
  {
    hide Placed, Slots, Sealed, AsWord, Logged, Delivered, Placement, Holding, Flagged, Owed, Counted, Local, Ranged;
  }

  /** In every run of the ring at the program's widths, every claim word and every seal fits its packed word, and
      so does every claim word a producer has yet to compare: by `WordsTell`, `SealsTell`, `ClaimStores`,
      `MoveStores`, `SealStores`, `HereTests` and `SealTests` the run is one of the packed words, compares,
      tests and stores included. */
  lemma RunPacks(c: Config, d: Config, producers: nat, body: Msg, steps: seq<Step>)
    requires Wraps(c, d) && Good(c) && Good(d) && Packed(d)
    requires AllTimely(c, d, producers, body, steps)
    ensures var s := Run(d, producers, body, steps);
      && Fits(s.core.mem.claim.seg, s.core.mem.claim.pos)
      && (forall k :: 0 <= k < |s.core.mem.seals| ==> Fits(s.core.mem.seals[k].seg, s.core.mem.seals[k].pos))
      && (forall i :: 0 <= i < |s.prods| ==> PcFits(s.prods[i].pc))
  {
    hide Inv, Run, WellShaped, AllTimely, Shape, Pow2;
    var r := Run(c, producers, body, steps);
    RunWraps(c, d, producers, body, steps);
    PlainOf(c, d);
    RunInv(c, producers, body, steps);
    ClaimNamed(c, r);
    SealsNamedRun(c, producers, body, steps);
    forall i | 0 <= i < |r.prods|
      ensures PcFits(WrapPc(d, r.prods[i].pc))
    {
      PcNamed(c, r, i);
    }
  }

  /** The word and the position a producer is about to compare or store fit their fields. */
  predicate PcFits(pc: Pc) {
    match pc
    case Cas(w) => Fits(w.seg, w.pos)
    case Reread(w) => Fits(w.seg, w.pos)
    case Move(w, k, start) => Fits(w.seg, w.pos) && Fits(k, start)
    case SealStore(w, k) => Fits(w.seg, w.pos) && k < 32
    case SealRestore(k, start) => Fits(k, start)
    case _ => true
  }

  lemma PcNamed(c: Config, s: State, i: nat)
    requires WellShaped(c, s) && i < |s.prods|
    ensures PcShape(c, s.prods[i].pc)
  {
    hide Shape, PcShape;
  }
}
