/** A ring's segments as buffers of a pool: how `init` lays one out, what `attach` accepts of a region whatever
    it holds, and where every slot then lies. */
module Regions {
  import opened Laps
  import opened Machine
  import opened Invariant
  import opened Wrapping

  const LINE: nat := 64
  /** The seven lines at the front of a segment, the seq word and padding at the front of a slot. */
  const SEGMENT_HEADER: nat := 7 * LINE
  const SLOT_HEADER_BYTES: nat := 16
  const MAX_SEGMENTS: nat := 32
  const MAX_SEG_CAPACITY: nat := 0x100_0000
  const MAX_PRODUCERS: nat := 0xFFFF
  const MAGIC: nat := 0x5A43_4D33
  const LAYOUT_VERSION: nat := 1
  const NO_SEGMENT: nat := 0xFFFF_FFFF
  const U64: nat := 0x1_0000_0000_0000_0000

  datatype Error =
    | BadMaxProducers | BadSlotSize | BadCapacity | BadSegmentCount | TooSmall | Exhausted
    | BadSegment | BadMagic | BadLayoutVersion | BadMode

  datatype Result = Ok(layout: Layout) | Err(error: Error)

  /** A segment's first line, any 32-bit values at all. */
  datatype Info = Info(
    magic: nat, version: nat, slotSize: nat, segCapacity: nat, segCount: nat, segNum: nat, mode: nat,
    maxProducers: nat)

  /** A buffer of the pool: its info line, its table line, its other header words, and the seq words of the
      slots laid in it. */
  datatype Buffer = Buffer(info: Info, table: seq<nat>, claim: nat, inUse: nat, rest: nat, seqs: seq<nat>)

  /** A ring as a process holds it. */
  datatype Layout = Layout(indices: seq<nat>, slotSize: nat, segCapacity: nat, segCount: nat)

  predicate PowerOfTwo(n: nat) {
    n == 1 || (n > 1 && n % 2 == 0 && PowerOfTwo(n / 2))
  }

  lemma {:induction false} PowerOfTwoIs(n: nat) returns (e: nat)
    requires PowerOfTwo(n)
    ensures n == Pow2(e)
  {
    if n == 1 {
      e := 0;
    } else {
      var f := PowerOfTwoIs(n / 2);
      e := f + 1;
    }
  }

  lemma SmallPower(e: nat)
    requires Pow2(e) <= MAX_SEG_CAPACITY
    ensures e <= MAX_DEPTH_BITS
  {
    assert Pow2(4) == 2 * Pow2(3) == 4 * Pow2(2) == 16;
    Pow2Splits(4, 4);
    Pow2Splits(8, 8);
    Pow2Splits(16, 8);
    if e > 24 {
      Pow2Mono(25, e);
    }
  }

  /** Every depth the geometry check accepts is one at which the 26-bit ring behaves as the unwrapped one. */
  lemma AcceptedDepthsWrap(c: Config, slotSize: nat, segCount: nat)
    requires Plain(c) && GoodGeometry(slotSize, c.depth, segCount)
    ensures Wraps(c, c.(wrap := Pow2(SEQ_BITS)))
  {
    var e := PowerOfTwoIs(c.depth);
    SmallPower(e);
    SourceWidthWraps(c, e);
  }

  function SegmentSize(slotSize: nat, segCapacity: nat): nat {
    SEGMENT_HEADER + slotSize * segCapacity
  }

  predicate GoodSlotSize(slotSize: nat) {
    slotSize != 0 && slotSize % LINE == 0
  }

  predicate GoodCapacity(segCapacity: nat) {
    PowerOfTwo(segCapacity) && segCapacity <= MAX_SEG_CAPACITY
  }

  predicate GoodCount(segCount: nat) {
    1 <= segCount <= MAX_SEGMENTS
  }

  /** The geometry both calls insist on. */
  predicate GoodGeometry(slotSize: nat, segCapacity: nat, segCount: nat) {
    GoodSlotSize(slotSize) && GoodCapacity(segCapacity) && GoodCount(segCount)
  }

  /** `validate_geometry`: the first thing wrong. */
  function GeometryError(slotSize: nat, segCapacity: nat, segCount: nat): (e: seq<Error>)
    ensures e == [] <==> GoodGeometry(slotSize, segCapacity, segCount)
    ensures e == [] || e == [BadSlotSize] || e == [BadCapacity] || e == [BadSegmentCount]
    ensures e == [BadSlotSize] ==> !GoodSlotSize(slotSize)
    ensures e == [BadCapacity] ==> !GoodCapacity(segCapacity)
    ensures e == [BadSegmentCount] ==> !GoodCount(segCount)
  {
    if slotSize == 0 || slotSize % LINE != 0 then [BadSlotSize]
    else if segCapacity == 0 || !PowerOfTwo(segCapacity) || segCapacity > MAX_SEG_CAPACITY then [BadCapacity]
    else if segCount == 0 || segCount > MAX_SEGMENTS then [BadSegmentCount]
    else []
  }

  lemma {:induction false} PowersPass(e: nat)
    ensures PowerOfTwo(Pow2(e))
  {
    if e > 0 {
      PowersPass(e - 1);
    }
  }

  lemma SlotSizeIs(slotSize: nat)
    ensures GoodSlotSize(slotSize) <==> exists lines: nat :: lines >= 1 && slotSize == lines * LINE
  {
    if GoodSlotSize(slotSize) {
      assert slotSize == slotSize / LINE * LINE;
    }
  }

  lemma CapacityIs(segCapacity: nat)
    ensures GoodCapacity(segCapacity) <==> exists e: nat :: e <= MAX_DEPTH_BITS && segCapacity == Pow2(e)
  {
    if GoodCapacity(segCapacity) {
      var e := PowerOfTwoIs(segCapacity);
      SmallPower(e);
    } else if e: nat :| e <= MAX_DEPTH_BITS && segCapacity == Pow2(e) {
      PowersPass(e);
      Pow2Mono(e, MAX_DEPTH_BITS);
      LargestCapacity();
    }
  }

  lemma LargestCapacity()
    ensures Pow2(MAX_DEPTH_BITS) == MAX_SEG_CAPACITY
  {
    assert Pow2(8) == 256;
    Pow2Splits(8, 8);
    Pow2Splits(16, 8);
  }

  /** The geometry check names the first fault in the order slot size, capacity, count: a slot that is not whole
      lines, a capacity that is no power of two up to 2^24, a count that is not 1 to 32. */
  lemma ErrorNamesFault(slotSize: nat, segCapacity: nat, segCount: nat)
    ensures var e := GeometryError(slotSize, segCapacity, segCount);
      var lined := exists lines: nat :: lines >= 1 && slotSize == lines * LINE;
      var power := exists b: nat :: b <= MAX_DEPTH_BITS && segCapacity == Pow2(b);
      && (e == [BadSlotSize] <==> !lined)
      && (e == [BadCapacity] <==> lined && !power)
      && (e == [BadSegmentCount] <==> lined && power && !(1 <= segCount <= 32))
      && (e == [] <==> lined && power && 1 <= segCount <= 32)
  {
    SlotSizeIs(slotSize);
    CapacityIs(segCapacity);
  }

  /** The mode's value in the control block. */
  function ModeCode(multi: bool): nat {
    if multi then 2 else 1
  }

  // ---------------------------------------------------------------- what attach accepts

  /** A segment's own header agrees with the block. */
  predicate Agrees(info: Info, block: Info, seg: nat) {
    && info.magic == MAGIC
    && info.version == LAYOUT_VERSION
    && info.slotSize == block.slotSize
    && info.segCapacity == block.segCapacity
    && info.segCount == block.segCount
    && info.segNum == seg
    && info.mode == block.mode
  }

  /** The block a region holds at buffer `first`, and the segments its table names, hold a ring. */
  ghost predicate HoldsRing(bufs: seq<Buffer>, bufSize: nat, multi: bool, first: nat)
    requires forall b :: 0 <= b < |bufs| ==> |bufs[b].table| == MAX_SEGMENTS
  {
    && first < |bufs|
    && var block := bufs[first].info;
    && block.magic == MAGIC
    && block.version == LAYOUT_VERSION
    && block.mode == ModeCode(multi)
    && GoodGeometry(block.slotSize, block.segCapacity, block.segCount)
    && (!multi ==> block.segCount == 1)
    && SegmentSize(block.slotSize, block.segCapacity) <= bufSize
    && block.segNum == 0
    && 1 <= block.maxProducers <= MAX_PRODUCERS
    && NamesSegments(bufs, first)
  }

  /** A layout whose segments are whole buffers of the pool, each used once. */
  predicate Sound(layout: Layout, bufCount: nat, bufSize: nat) {
    && GoodGeometry(layout.slotSize, layout.segCapacity, layout.segCount)
    && SegmentSize(layout.slotSize, layout.segCapacity) <= bufSize
    && |layout.indices| == layout.segCount
    && (forall seg :: 0 <= seg < layout.segCount ==> layout.indices[seg] < bufCount)
    && Distinct(layout.indices)
  }

  /** The ring a block describes. */
  function LayoutAt(bufs: seq<Buffer>, first: nat): Layout
    requires first < |bufs| && |bufs[first].table| == MAX_SEGMENTS && bufs[first].info.segCount <= MAX_SEGMENTS
  {
    var block := bufs[first].info;
    Layout(bufs[first].table[..block.segCount], block.slotSize, block.segCapacity, block.segCount)
  }

  /** A fault `init` refuses for, under the error it names. */
  predicate InitFault(error: Error, multi: bool, slotSize: nat, segCapacity: nat, segCount: nat, maxProducers: nat,
                      bufSize: nat, freeBufs: nat)
  {
    match error
    case BadMaxProducers => maxProducers == 0
    case BadSlotSize => !GoodSlotSize(slotSize)
    case BadCapacity => !GoodCapacity(segCapacity)
    case BadSegmentCount => !GoodCount(segCount) || (!multi && segCount != 1)
    case TooSmall => bufSize < SegmentSize(slotSize, segCapacity)
    case Exhausted => freeBufs < segCount
    case _ => false
  }

  /** The order `init` looks for faults in. */
  function InitRank(error: Error): nat {
    match error
    case BadMaxProducers => 0
    case BadSlotSize => 1
    case BadCapacity => 2
    case BadSegmentCount => 3
    case TooSmall => 4
    case _ => 5
  }

  /** The order `attach` does. The two of the last rank exclude each other. */
  function AttachRank(error: Error): nat {
    match error
    case BadMagic => 0
    case BadLayoutVersion => 1
    case BadMode => 2
    case BadSlotSize => 3
    case BadCapacity => 4
    case BadSegmentCount => 5
    case TooSmall => 6
    case _ => 7
  }

  /** A fault `attach` refuses for, under the error it names. */
  ghost predicate AttachFault(error: Error, bufs: seq<Buffer>, bufSize: nat, multi: bool, first: nat)
    requires forall b :: 0 <= b < |bufs| ==> |bufs[b].table| == MAX_SEGMENTS
  {
    if first >= |bufs| then error == BadSegment
    else
      var block, table := bufs[first].info, bufs[first].table;
      match error
      case BadMagic => block.magic != MAGIC
      case BadLayoutVersion => block.version != LAYOUT_VERSION
      case BadMode => block.mode != ModeCode(multi)
      case BadSlotSize => !GoodSlotSize(block.slotSize)
      case BadCapacity => !GoodCapacity(block.segCapacity)
      case BadSegmentCount => !GoodCount(block.segCount) || (!multi && block.segCount != 1)
      case TooSmall => bufSize < SegmentSize(block.slotSize, block.segCapacity)
      case BadMaxProducers => block.segNum == 0 && !(1 <= block.maxProducers <= MAX_PRODUCERS)
      case BadSegment =>
        || block.segNum != 0
        || (1 <= block.maxProducers <= MAX_PRODUCERS && GoodCount(block.segCount) && !NamesSegments(bufs, first))
      case Exhausted => false
  }

  /** The table names that many different buffers, `first` the first, each with a header that agrees. */
  ghost predicate NamesSegments(bufs: seq<Buffer>, first: nat)
    requires forall b :: 0 <= b < |bufs| ==> |bufs[b].table| == MAX_SEGMENTS
    requires first < |bufs| && GoodCount(bufs[first].info.segCount)
  {
    var block, table := bufs[first].info, bufs[first].table;
    && (forall seg :: 0 <= seg < block.segCount ==> table[seg] < |bufs|)
    && Distinct(table[..block.segCount])
    && table[0] == first
    && (forall seg :: 0 <= seg < block.segCount ==> Agrees(bufs[table[seg]].info, block, seg))
  }

  /** Every slot of a buffer claimable for its first lap. */
  predicate FirstLapIn(b: Buffer, segCapacity: nat) {
    && |b.seqs| == segCapacity
    && forall i :: 0 <= i < segCapacity ==> b.seqs[i] == i
  }

  /** The control block of a new ring: no position claimed yet, segment 0 alone in use, the segments' buffers in
      the table, the most producers as asked, and every other word zero. */
  predicate NewBlock(b: Buffer, layout: Layout, maxProducers: nat) {
    && b.info.maxProducers == maxProducers
    && b.claim == 0
    && b.inUse == 1
    && b.rest == 0
    && |layout.indices| <= MAX_SEGMENTS
    && b.table == layout.indices + seq(MAX_SEGMENTS - |layout.indices|, _ => NO_SEGMENT)
  }

  /** The header of a new ring's other segments: nothing but its own line. */
  predicate NewHeader(b: Buffer) {
    && b.info.maxProducers == 0
    && b.claim == 0
    && b.inUse == 0
    && b.rest == 0
    && b.table == seq(MAX_SEGMENTS, _ => 0)
  }

  /** A region that became a ring: the layout is sound and is what the region holds, with nothing claimed and every
      slot claimable for its first lap, and the buffers outside it are as they were. */
  ghost predicate Made(layout: Layout, multi: bool, maxProducers: nat, bufSize: nat, before: seq<Buffer>,
                       after: seq<Buffer>)
    requires forall b :: 0 <= b < |after| ==> |after[b].table| == MAX_SEGMENTS
  {
    && |after| == |before|
    && Sound(layout, |after|, bufSize)
    && HoldsRing(after, bufSize, multi, layout.indices[0])
    && LayoutAt(after, layout.indices[0]) == layout
    && NewBlock(after[layout.indices[0]], layout, maxProducers)
    && (forall seg :: 1 <= seg < layout.segCount ==> NewHeader(after[layout.indices[seg]]))
    && (forall b :: 0 <= b < |after| && b !in SetOf(layout.indices) ==> after[b] == before[b])
    && (forall seg :: 0 <= seg < layout.segCount ==> FirstLapIn(after[layout.indices[seg]], layout.segCapacity))
  }

  // ---------------------------------------------------------------- where the slots lie

  function SegmentAt(base: nat, bufSize: nat, layout: Layout, seg: nat): nat
    requires seg < |layout.indices|
  {
    base + layout.indices[seg] * bufSize
  }

  /** `slot_ptr`. */
  function SlotAt(base: nat, bufSize: nat, layout: Layout, seg: nat, slot: nat): nat
    requires seg < |layout.indices|
  {
    SegmentAt(base, bufSize, layout, seg) + SEGMENT_HEADER + slot * layout.slotSize
  }

  predicate Apart(a: nat, sizeA: nat, b: nat, sizeB: nat) {
    a + sizeA <= b || b + sizeB <= a
  }

  lemma MulDivides(a: nat, b: nat, m: nat)
    requires m >= 1 && b % m == 0
    ensures (a * b) % m == 0
  {
    var q := b / m;
    assert b == q * m;
    assert a * (q * m) == (a * q) * m;
    DivModUnique(a * b, m, a * q, 0);
  }

  lemma StrideFits(k: nat, n: nat, size: nat)
    requires k < n
    ensures k * size + size <= n * size
  {
    MulMono(k + 1, n, size);
    assert (k + 1) * size == k * size + size;
  }

  lemma SizesFit(slotSize: nat, segCapacity: nat)
    requires slotSize < U32 && segCapacity <= MAX_SEG_CAPACITY
    ensures SegmentSize(slotSize, segCapacity) < U64
  {
    MulMono(slotSize, U32, segCapacity);
    MulMono(segCapacity, MAX_SEG_CAPACITY, U32);
    assert U32 * segCapacity == segCapacity * U32;
  }

  /** A slot of a sound layout lies behind its segment's header, inside its buffer and the region, at the front
      of a line, with room for its body, and no address or size computed on the way overflows. */
  lemma SlotInBounds(base: nat, bufCount: nat, bufSize: nat, layout: Layout, seg: nat, slot: nat)
    requires Sound(layout, bufCount, bufSize) && seg < layout.segCount && slot < layout.segCapacity
    requires base % LINE == 0 && bufSize % LINE == 0 && base + bufCount * bufSize < U64 && layout.slotSize < U32
    ensures var at := SlotAt(base, bufSize, layout, seg, slot);
      && SegmentAt(base, bufSize, layout, seg) + SEGMENT_HEADER <= at
      && at + layout.slotSize <= SegmentAt(base, bufSize, layout, seg) + bufSize <= base + bufCount * bufSize
      && at % LINE == 0
      && SLOT_HEADER_BYTES < layout.slotSize
    ensures SegmentSize(layout.slotSize, layout.segCapacity) < U64
    ensures layout.segCapacity + 1 < U32
  {
    hide PowerOfTwo;
    StrideFits(layout.indices[seg], bufCount, bufSize);
    StrideFits(slot, layout.segCapacity, layout.slotSize);
    SizesFit(layout.slotSize, layout.segCapacity);
    MulDivides(layout.indices[seg], bufSize, LINE);
    MulDivides(slot, layout.slotSize, LINE);
    LinesAdd(base, layout.indices[seg] * bufSize, slot * layout.slotSize);
    assert layout.slotSize * layout.segCapacity == layout.segCapacity * layout.slotSize;
  }

  lemma LinesAdd(a: nat, b: nat, c: nat)
    requires a % LINE == 0 && b % LINE == 0 && c % LINE == 0
    ensures (a + b + SEGMENT_HEADER + c) % LINE == 0
  {
    var q := a / LINE + b / LINE + 7 + c / LINE;
    assert a == a / LINE * LINE && b == b / LINE * LINE && c == c / LINE * LINE;
    DivModUnique(a + b + SEGMENT_HEADER + c, LINE, q, 0);
  }

  /** Two segments of a sound layout never overlap. */
  lemma SegmentsApart(base: nat, bufCount: nat, bufSize: nat, layout: Layout, a: nat, b: nat)
    requires Sound(layout, bufCount, bufSize) && a < layout.segCount && b < layout.segCount && a != b
    ensures Apart(SegmentAt(base, bufSize, layout, a), bufSize, SegmentAt(base, bufSize, layout, b), bufSize)
  {
    var i, j := layout.indices[a], layout.indices[b];
    assert i != j;
    assert (i + 1) * bufSize == i * bufSize + bufSize && (j + 1) * bufSize == j * bufSize + bufSize;
    if i < j {
      MulMono(i + 1, j, bufSize);
    } else {
      MulMono(j + 1, i, bufSize);
    }
  }

  /** Two slots of a sound layout never overlap, nor a slot any segment's header. */
  lemma SlotsApart(base: nat, bufCount: nat, bufSize: nat, layout: Layout, a: nat, i: nat, b: nat, j: nat)
    requires Sound(layout, bufCount, bufSize)
    requires a < layout.segCount && b < layout.segCount && i < layout.segCapacity && j < layout.segCapacity
    requires base % LINE == 0 && bufSize % LINE == 0 && base + bufCount * bufSize < U64 && layout.slotSize < U32
    ensures a != b || i != j ==>
      Apart(SlotAt(base, bufSize, layout, a, i), layout.slotSize, SlotAt(base, bufSize, layout, b, j), layout.slotSize)
    ensures Apart(SlotAt(base, bufSize, layout, a, i), layout.slotSize, SegmentAt(base, bufSize, layout, b),
              SEGMENT_HEADER)
  {
    SlotInBounds(base, bufCount, bufSize, layout, a, i);
    SlotInBounds(base, bufCount, bufSize, layout, b, j);
    if a != b {
      SegmentsApart(base, bufCount, bufSize, layout, a, b);
    } else if i < j {
      MulMono(i + 1, j, layout.slotSize);
      assert (i + 1) * layout.slotSize == i * layout.slotSize + layout.slotSize;
    } else if j < i {
      MulMono(j + 1, i, layout.slotSize);
      assert (j + 1) * layout.slotSize == j * layout.slotSize + layout.slotSize;
    }
  }

  // ---------------------------------------------------------------- the pool, init and attach

  /** A pool over a mapped region: equal buffers, line after line, some of them free. */
  class Pool {
    const base: nat
    const bufSize: nat
    const bufs: array<Buffer>
    var free: set<nat>

    ghost predicate Valid()
      reads this, bufs
    {
      && base % LINE == 0
      && bufSize % LINE == 0
      && bufs.Length < U32
      && base + bufs.Length * bufSize < U64
      && (forall b :: b in free ==> b < bufs.Length)
      && (forall b :: 0 <= b < bufs.Length ==> |bufs[b].table| == MAX_SEGMENTS && bufs[b].info.slotSize < U32)
    }

    /** Some free buffer handed out, if there is one. */
    method Alloc() returns (ok: bool, idx: nat)
      requires Valid()
      modifies this`free
      ensures Valid()
      ensures ok <==> old(free) != {}
      ensures ok ==> idx in old(free) && free == old(free) - {idx}
      ensures !ok ==> free == old(free)
    {
      idx := 0;
      ok := free != {};
      if ok {
        idx :| idx in free;
        free := free - {idx};
      }
    }

    /** The segments' buffers handed out one by one, or, with too few free, all given back. */
    method Take(count: nat) returns (ok: bool, indices: seq<nat>)
      requires Valid()
      modifies this`free
      ensures Valid()
      ensures ok ==> |indices| == count && Distinct(indices) && SetOf(indices) <= old(free)
      ensures ok ==> free == old(free) - SetOf(indices)
      ensures !ok ==> free == old(free) && |free| < count
    {
      hide SetOf, Distinct;
      indices := [];
      PushOf([], 0);
      while |indices| < count
        invariant |indices| <= count && Valid()
        invariant Distinct(indices) && |SetOf(indices)| == |indices|
        invariant free !! SetOf(indices) && free + SetOf(indices) == old(free)
      {
        var idx: nat;
        ok, idx := Alloc();
        if !ok {
          free := free + SetOf(indices);
          return;
        }
        PushOf(indices, idx);
        indices := indices + [idx];
      }
      ok := true;
    }

    // ---------------------------------------------------------------- init

    /** The seq words of a segment's slots, each claimable by the position that first reaches it. */
    method FirstLap(segCapacity: nat) returns (seqs: seq<nat>)
      ensures |seqs| == segCapacity && forall i :: 0 <= i < segCapacity ==> seqs[i] == i
    {
      seqs := [];
      while |seqs| < segCapacity
        invariant |seqs| <= segCapacity && forall i :: 0 <= i < |seqs| ==> seqs[i] == i
      {
        seqs := seqs + [|seqs|];
      }
    }

    /** One segment laid out in its buffer, the magic last. */
    method WriteSegment(indices: seq<nat>, seg: nat, info: Info)
      requires Valid() && seg < |indices| <= MAX_SEGMENTS && indices[seg] < bufs.Length && info.slotSize < U32
      modifies bufs
      ensures Valid()
      ensures Written(bufs[indices[seg]], indices, seg, info)
      ensures forall b :: 0 <= b < bufs.Length && b != indices[seg] ==> bufs[b] == old(bufs[b])
    {
      var idx := indices[seg];
      var none := seq(MAX_SEGMENTS, _ => 0);
      bufs[idx] := Buffer(info.(magic := 0, segNum := seg, maxProducers := 0), none, 0, 0, 0, bufs[idx].seqs);
      if seg == 0 {
        var table := indices + seq(MAX_SEGMENTS - |indices|, _ => NO_SEGMENT);
        bufs[idx] := bufs[idx].(info := bufs[idx].info.(maxProducers := info.maxProducers), table := table, inUse := 1);
      }
      var seqs := FirstLap(info.segCapacity);
      bufs[idx] := bufs[idx].(seqs := seqs);
      bufs[idx] := bufs[idx].(info := bufs[idx].info.(magic := MAGIC));
    }

    /** The rest of `init`, once the arguments are good. */
    method LayOut(multi: bool, slotSize: nat, segCapacity: nat, segCount: nat, maxProducers: nat) returns (r: Result)
      requires Valid() && slotSize < U32 && 1 <= maxProducers <= MAX_PRODUCERS
      requires GoodGeometry(slotSize, segCapacity, segCount) && (multi || segCount == 1)
      requires SegmentSize(slotSize, segCapacity) <= bufSize
      modifies this`free, bufs
      ensures Valid()
      ensures r.Err? ==> free == old(free) && bufs[..] == old(bufs[..]) && r.error == Exhausted
      ensures r.Ok? <==> |old(free)| >= segCount
      ensures r.Ok? ==>
        && r.layout.slotSize == slotSize && r.layout.segCapacity == segCapacity && r.layout.segCount == segCount
        && SetOf(r.layout.indices) <= old(free) && free == old(free) - SetOf(r.layout.indices)
        && Made(r.layout, multi, maxProducers, bufSize, old(bufs[..]), bufs[..])
    {
      hide PowerOfTwo, SegmentSize, GoodSlotSize, GoodCapacity, Made, Distinct, Written, SetOf;
      var ok, indices := Take(segCount);
      if !ok {
        return Err(Exhausted);
      }
      TakenFit(old(free), free, indices, segCount);
      var info := Info(0, LAYOUT_VERSION, slotSize, segCapacity, segCount, 0, ModeCode(multi), maxProducers);
      WriteAll(indices, info);
      r := Ok(Layout(indices, slotSize, segCapacity, segCount));
      WrittenIsMade(old(bufs[..]), bufs[..], bufSize, multi, indices, info);
    }

    /** Lay a ring out over free buffers: what it writes is a ring any process can join, in buffers that were
        free and are no longer. A refused geometry, or a pool with too few buffers, leaves the pool and the
        region as they were. */
    method Init(multi: bool, slotSize: nat, segCapacity: nat, segCount: nat, maxProducers: nat) returns (r: Result)
      requires Valid() && slotSize < U32 && maxProducers <= MAX_PRODUCERS
      modifies this`free, bufs
      ensures Valid()
      ensures r.Err? ==> free == old(free) && bufs[..] == old(bufs[..])
      ensures r.Err? ==>
        && InitFault(r.error, multi, slotSize, segCapacity, segCount, maxProducers, bufSize, |old(free)|)
        && forall e: Error :: InitRank(e) < InitRank(r.error) ==>
             !InitFault(e, multi, slotSize, segCapacity, segCount, maxProducers, bufSize, |old(free)|)
      ensures r.Ok? ==>
        && r.layout.slotSize == slotSize && r.layout.segCapacity == segCapacity && r.layout.segCount == segCount
        && SetOf(r.layout.indices) <= old(free) && free == old(free) - SetOf(r.layout.indices)
        && Made(r.layout, multi, maxProducers, bufSize, old(bufs[..]), bufs[..])
      ensures r.Ok? <==>
        && maxProducers != 0
        && GoodGeometry(slotSize, segCapacity, segCount)
        && (multi || segCount == 1)
        && SegmentSize(slotSize, segCapacity) <= bufSize
        && |old(free)| >= segCount
    {
      hide PowerOfTwo, SegmentSize, Made;
      if maxProducers == 0 {
        return Err(BadMaxProducers);
      }
      var bad := GeometryError(slotSize, segCapacity, segCount);
      if bad != [] {
        return Err(bad[0]);
      }
      if !multi && segCount != 1 {
        return Err(BadSegmentCount);
      }
      if bufSize < SegmentSize(slotSize, segCapacity) {
        return Err(TooSmall);
      }
      r := LayOut(multi, slotSize, segCapacity, segCount, maxProducers);
    }

    method WriteAll(indices: seq<nat>, info: Info)
      requires Valid() && |indices| <= MAX_SEGMENTS && Distinct(indices) && info.slotSize < U32
      requires forall a :: 0 <= a < |indices| ==> indices[a] < bufs.Length
      modifies bufs
      ensures Valid()
      ensures forall a :: 0 <= a < |indices| ==> Written(bufs[indices[a]], indices, a, info)
      ensures forall b :: 0 <= b < bufs.Length && b !in SetOf(indices) ==> bufs[b] == old(bufs[b])
    {
      hide Written;
      for seg := 0 to |indices|
        invariant Valid()
        invariant forall a :: 0 <= a < seg ==> Written(bufs[indices[a]], indices, a, info)
        invariant forall b :: 0 <= b < bufs.Length && b !in SetOf(indices) ==> bufs[b] == old(bufs[b])
      {
        WriteSegment(indices, seg, info);
      }
    }

    // ---------------------------------------------------------------- attach

    /** The table's entries in turn: each a buffer of the pool, none twice. */
    method ReadTable(first: nat, segCount: nat) returns (ok: bool, indices: seq<nat>)
      requires Valid() && first < bufs.Length && segCount <= MAX_SEGMENTS
      ensures ok ==> indices == bufs[first].table[..segCount] && Distinct(indices)
      ensures ok ==> forall a :: 0 <= a < segCount ==> indices[a] < bufs.Length
      ensures !ok ==>
        || !Distinct(bufs[first].table[..segCount])
        || exists a :: 0 <= a < segCount && bufs[first].table[a] >= bufs.Length
    {
      var table := bufs[first].table;
      indices := [];
      for seg := 0 to segCount
        invariant indices == table[..seg] && Distinct(indices)
        invariant forall a :: 0 <= a < seg ==> indices[a] < bufs.Length
      {
        var idx := table[seg];
        if idx >= bufs.Length {
          return false, indices;
        }
        if idx in indices {
          var a :| 0 <= a < seg && indices[a] == idx;
          assert table[..segCount][a] == table[..segCount][seg];
          return false, indices;
        }
        PushOf(indices, idx);
        assert table[..seg] + [idx] == table[..seg + 1];
        indices := indices + [idx];
      }
      ok := true;
    }

    /** Whether every segment's own header agrees with the block. */
    method HeadersAgree(indices: seq<nat>, block: Info) returns (ok: bool)
      requires Valid() && forall a :: 0 <= a < |indices| ==> indices[a] < bufs.Length
      ensures ok <==> forall a :: 0 <= a < |indices| ==> Agrees(bufs[indices[a]].info, block, a)
    {
      for seg := 0 to |indices|
        invariant forall a :: 0 <= a < seg ==> Agrees(bufs[indices[a]].info, block, a)
      {
        if !Agrees(bufs[indices[seg]].info, block, seg) {
          return false;
        }
      }
      ok := true;
    }

    /** Join the ring whose first segment is buffer `first`, whatever the region holds: accepted exactly when
        the region holds a ring of this mode there, as the ring it holds, and nothing is written. What is
        accepted is sound, so every slot then lies where `SlotInBounds` and `SlotsApart` say. */
    method Attach(multi: bool, first: nat) returns (r: Result)
      requires Valid()
      ensures r.Ok? <==> HoldsRing(bufs[..], bufSize, multi, first)
      ensures r.Err? ==> AttachFault(r.error, bufs[..], bufSize, multi, first)
      ensures r.Err? && first < bufs.Length ==>
        forall e: Error :: AttachRank(e) < AttachRank(r.error) ==> !AttachFault(e, bufs[..], bufSize, multi, first)
      ensures r.Ok? ==> r.layout == LayoutAt(bufs[..], first) && Sound(r.layout, bufs.Length, bufSize)
    {
      hide PowerOfTwo;
      if first >= bufs.Length {
        return Err(BadSegment);
      }
      var block := bufs[first].info;
      if block.magic != MAGIC {
        return Err(BadMagic);
      }
      if block.version != LAYOUT_VERSION {
        return Err(BadLayoutVersion);
      }
      if block.mode != ModeCode(multi) {
        return Err(BadMode);
      }
      var bad := GeometryError(block.slotSize, block.segCapacity, block.segCount);
      if bad != [] {
        return Err(bad[0]);
      }
      if !multi && block.segCount != 1 {
        return Err(BadSegmentCount);
      }
      if bufSize < SegmentSize(block.slotSize, block.segCapacity) {
        return Err(TooSmall);
      }
      if block.segNum != 0 {
        return Err(BadSegment);
      }
      if block.maxProducers == 0 || block.maxProducers > MAX_PRODUCERS {
        return Err(BadMaxProducers);
      }
      r := AttachSegments(multi, first, block);
    }

    /** The rest of `attach`, once the block's own fields are good. */
    method AttachSegments(multi: bool, first: nat, block: Info) returns (r: Result)
      requires Valid() && first < bufs.Length && block == bufs[first].info
      requires block.magic == MAGIC && block.version == LAYOUT_VERSION && block.mode == ModeCode(multi)
      requires GoodGeometry(block.slotSize, block.segCapacity, block.segCount) && (multi || block.segCount == 1)
      requires SegmentSize(block.slotSize, block.segCapacity) <= bufSize && block.segNum == 0
      requires 1 <= block.maxProducers <= MAX_PRODUCERS
      ensures r.Ok? <==> HoldsRing(bufs[..], bufSize, multi, first)
      ensures r.Err? ==> AttachFault(r.error, bufs[..], bufSize, multi, first)
      ensures r.Err? && first < bufs.Length ==>
        forall e: Error :: AttachRank(e) < AttachRank(r.error) ==> !AttachFault(e, bufs[..], bufSize, multi, first)
      ensures r.Ok? ==> r.layout == LayoutAt(bufs[..], first) && Sound(r.layout, bufs.Length, bufSize)
    {
      hide PowerOfTwo, Distinct;
      var ok, indices := ReadTable(first, block.segCount);
      if !ok || indices[0] != first {
        return Err(BadSegment);
      }
      ok := HeadersAgree(indices, block);
      if !ok {
        return Err(BadSegment);
      }
      r := Ok(Layout(indices, block.slotSize, block.segCapacity, block.segCount));
    }

    /** A ring just made and joined from its first segment's index is one ring: the same geometry and the same
        buffers, whoever joins it. */
    method InitThenAttach(multi: bool, slotSize: nat, segCapacity: nat, segCount: nat, maxProducers: nat)
      returns (made: Result, joined: Result)
      requires Valid() && slotSize < U32 && maxProducers <= MAX_PRODUCERS
      modifies this`free, bufs
      ensures Valid()
      ensures made.Ok? <==>
        && maxProducers != 0
        && GoodGeometry(slotSize, segCapacity, segCount)
        && (multi || segCount == 1)
        && SegmentSize(slotSize, segCapacity) <= bufSize
        && |old(free)| >= segCount
      ensures made.Ok? ==> joined == made && Made(made.layout, multi, maxProducers, bufSize, old(bufs[..]), bufs[..])
      ensures made.Ok? ==>
        made.layout.slotSize == slotSize && made.layout.segCapacity == segCapacity && made.layout.segCount == segCount
    {
      made := Init(multi, slotSize, segCapacity, segCount, maxProducers);
      joined := made;
      if made.Ok? {
        joined := Attach(multi, made.layout.indices[0]);
      }
    }
  }

  /** Segment `seg` of the ring over `indices`, as `init` leaves its buffer. */
  predicate Written(b: Buffer, indices: seq<nat>, seg: nat, info: Info) {
    && b.info == info.(magic := MAGIC, segNum := seg, maxProducers := if seg == 0 then info.maxProducers else 0)
    && FirstLapIn(b, info.segCapacity)
    && if seg == 0 then NewBlock(b, Layout(indices, info.slotSize, info.segCapacity, info.segCount), info.maxProducers)
       else NewHeader(b)
  }

  lemma WrittenIsMade(before: seq<Buffer>, bufs: seq<Buffer>, bufSize: nat, multi: bool, indices: seq<nat>, info: Info)
    requires forall b :: 0 <= b < |bufs| ==> |bufs[b].table| == MAX_SEGMENTS
    requires GoodGeometry(info.slotSize, info.segCapacity, info.segCount) && |indices| == info.segCount
    requires (multi || info.segCount == 1) && SegmentSize(info.slotSize, info.segCapacity) <= bufSize
    requires Distinct(indices) && forall a :: 0 <= a < |indices| ==> indices[a] < |bufs|
    requires forall a :: 0 <= a < |indices| ==> Written(bufs[indices[a]], indices, a, info)
    requires info.version == LAYOUT_VERSION && info.mode == ModeCode(multi) && 1 <= info.maxProducers <= MAX_PRODUCERS
    requires |before| == |bufs| && forall b :: 0 <= b < |bufs| && b !in SetOf(indices) ==> bufs[b] == before[b]
    ensures Made(Layout(indices, info.slotSize, info.segCapacity, info.segCount), multi, info.maxProducers, bufSize,
              before, bufs)
  {
    hide PowerOfTwo, SegmentSize, GoodSlotSize, GoodCapacity, Distinct, HoldsRing, SetOf, NewBlock, NewHeader;
    var layout := Layout(indices, info.slotSize, info.segCapacity, info.segCount);
    WrittenIsRing(bufs, bufSize, multi, indices, info);
    forall seg | 0 <= seg < info.segCount
      ensures FirstLapIn(bufs[indices[seg]], info.segCapacity)
      ensures if seg == 0 then NewBlock(bufs[indices[seg]], layout, info.maxProducers)
              else NewHeader(bufs[indices[seg]])
    {
      assert Written(bufs[indices[seg]], indices, seg, info);
    }
  }

  lemma WrittenIsRing(bufs: seq<Buffer>, bufSize: nat, multi: bool, indices: seq<nat>, info: Info)
    requires forall b :: 0 <= b < |bufs| ==> |bufs[b].table| == MAX_SEGMENTS
    requires GoodGeometry(info.slotSize, info.segCapacity, info.segCount) && |indices| == info.segCount
    requires (multi || info.segCount == 1) && SegmentSize(info.slotSize, info.segCapacity) <= bufSize
    requires Distinct(indices) && forall a :: 0 <= a < |indices| ==> indices[a] < |bufs|
    requires forall a :: 0 <= a < |indices| ==> Written(bufs[indices[a]], indices, a, info)
    requires info.version == LAYOUT_VERSION && info.mode == ModeCode(multi) && 1 <= info.maxProducers <= MAX_PRODUCERS
    ensures HoldsRing(bufs, bufSize, multi, indices[0])
    ensures LayoutAt(bufs, indices[0]) == Layout(indices, info.slotSize, info.segCapacity, info.segCount)
  {
    hide PowerOfTwo;
    assert Written(bufs[indices[0]], indices, 0, info);
    var table := bufs[indices[0]].table;
    forall seg | 0 <= seg < info.segCount
      ensures table[seg] == indices[seg]
    {
      assert table[seg] == (indices + seq(MAX_SEGMENTS - |indices|, _ => NO_SEGMENT))[seg];
    }
  }

  lemma TakenFit(before: set<nat>, after: set<nat>, indices: seq<nat>, count: nat)
    requires |indices| == count && Distinct(indices) && SetOf(indices) <= before
    ensures |before| >= count
    ensures forall a :: 0 <= a < count ==> indices[a] in before
  {
    forall a | 0 <= a < count
      ensures indices[a] in before
    {
      assert indices[a] in SetOf(indices);
    }
    CountOfSet(indices);
    Within(SetOf(indices), before);
  }

  lemma {:induction false} CountOfSet(indices: seq<nat>)
    requires Distinct(indices)
    ensures |SetOf(indices)| == |indices|
  {
    if indices != [] {
      var n := |indices| - 1;
      CountOfSet(indices[..n]);
      PushOf(indices[..n], indices[n]);
      assert indices[..n] + [indices[n]] == indices;
    }
  }

  lemma Within(a: set<nat>, b: set<nat>)
    requires a <= b
    ensures |a| <= |b|
  {
    assert b == a + (b - a);
  }

  function SetOf(indices: seq<nat>): set<nat> {
    set i | i in indices
  }

  predicate Distinct(indices: seq<nat>) {
    forall a, b :: 0 <= a < b < |indices| ==> indices[a] != indices[b]
  }

  lemma PushOf(indices: seq<nat>, idx: nat)
    ensures SetOf([]) == {} && Distinct([])
    ensures SetOf(indices + [idx]) == SetOf(indices) + {idx}
    ensures Distinct(indices) && idx !in SetOf(indices) ==> Distinct(indices + [idx])
  {
  }
}
