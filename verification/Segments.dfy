/** How the ring's segments are shared, in every state of every run: the chain they form, who may write
    a slot or a seal, how a free segment comes back, and how much the ring holds. */
module Segments {
  import opened Laps
  import opened Machine
  import opened Invariant
  import opened Runs
  import opened LogFacts
  import opened ProducerSteps
  import opened ConsumerSteps
  import opened Delivery

  // ---------------------------------------------------------------- openings

  lemma ChainFacts(c: Config, s: State)
    requires Inv(c, s)
    ensures Shape(c, s.core) && Chained(c, s.core) && Sealed(c, s.core) && Bits(c, s.core) && Fronts(c, s.core)
  {
    hide Ordered, Placed, Slots, Logged, Delivered, Placement, Holding, Flagged, Owed, Counted, Local, Ranged;
  }

  lemma OrderFacts(c: Config, s: State)
    requires Inv(c, s)
    ensures Shape(c, s.core) && Chained(c, s.core) && Fronts(c, s.core) && Ordered(c, s.core) && Placed(c, s.core)
  {
    hide Slots, Sealed, Bits, Logged, Delivered, Placement, Holding, Flagged, Owed, Counted, Local, Ranged;
  }

  lemma SlotFacts(c: Config, s: State)
    requires Inv(c, s)
    ensures Shape(c, s.core) && Slots(c, s.core) && Fronts(c, s.core)
  {
    hide Chained, Ordered, Placed, Sealed, Bits, Logged, Delivered, Placement, Holding, Flagged, Owed, Counted, Local,
         Ranged;
  }

  lemma PlacementFacts(c: Config, s: State)
    requires Inv(c, s)
    ensures Shape(c, s.core) && Placement(c, s.core) && Holding(c, s.core)
  {
    hide Chained, Fronts, Ordered, Placed, Slots, Sealed, Bits, Logged, Delivered, Flagged, Owed, Counted, Local,
         Ranged;
  }

  lemma RingLocalOf(c: Config, s: State, i: nat)
    requires Inv(c, s) && i < |s.prods|
    ensures Shape(c, s.core) && RingLocal(c, i, s.prods[i], s.core)
  {
    hide Chained, Fronts, Ordered, Placed, Slots, Sealed, Bits, Logged, Delivered, Placement, Holding, Flagged, Owed,
         Counted, Sends, Keeps, Owes, Owns, Numbers, Naps, Wakes, Ranged;
  }

  lemma SwitchLocalOf(c: Config, s: State, i: nat)
    requires Inv(c, s) && i < |s.prods|
    ensures Shape(c, s.core) && PcShape(c, s.prods[i].pc)
    ensures Keeps(c, i, s.prods[i], s.core) && Owes(c, i, s.prods[i], s.core) && Lags(i, s.prods[i], s.core)
  {
    hide Chained, Fronts, Ordered, Placed, Slots, Sealed, Bits, Logged, Delivered, Placement, Holding, Flagged, Owed,
         Counted, Sends, Keeps, Owes, Owns, Numbers, Naps, Wakes, Ranged;
  }

  // ---------------------------------------------------------------- the chain

  /** A producer past its switch CAS, with the seal of segment `k` still to store. */
  predicate OwesSeal(pc: Pc, k: nat) {
    pc.SealStore? && pc.w.seg == k
  }

  /** The link from `k` to `next`: stored in `k`'s seal, which ends the segment at `end`, or owed by
      exactly one producer about to store just that, the seal not moved yet. */
  ghost predicate Link(s: State, k: nat, next: nat, end: nat)
    requires k < |s.core.mem.seals|
  {
    || (s.core.mem.seals[k] == Seal(true, next, end)
        && forall i :: 0 <= i < |s.prods| ==> !OwesSeal(s.prods[i].pc, k))
    || (!s.core.mem.seals[k].moved
        && exists i :: 0 <= i < |s.prods| && s.prods[i].pc.SealStore? && OwesSeal(s.prods[i].pc, k)
             && s.prods[i].pc.k == next && s.prods[i].pc.w.pos == end
             && forall j :: 0 <= j < |s.prods| && j != i ==> !OwesSeal(s.prods[j].pc, k))
  }

  lemma LinkStands(c: Config, s: State, j: nat)
    requires Inv(c, s) && Shape(c, s.core) && j + 1 < |s.core.g.chain|
    ensures s.core.g.chain[j] < c.segs
    ensures Link(s, s.core.g.chain[j], s.core.g.chain[j + 1], s.core.g.cl[s.core.g.chain[j]])
  {
    hide Inv, Fronts, Bits, Keeps, Shape;
    var g, k := s.core.g, s.core.g.chain[j];
    ChainFacts(c, s);
    SealsShape(c, s);
    InvCore(c, s);
    assert LinkOk(c, s.core, k);
    forall i | 0 <= i < |s.prods|
      ensures OwesSeal(s.prods[i].pc, k) <==> k in g.debt && g.debt[k] == i
      ensures OwesSeal(s.prods[i].pc, k) ==> s.prods[i].pc.k == g.nxt[k] && s.prods[i].pc.w.pos == g.cl[k]
    {
      SwitchLocalOf(c, s, i);
    }
    assert g.nxt[k] == g.chain[j + 1];
    if k in g.debt {
      assert OwesSeal(s.prods[g.debt[k]].pc, k);
    }
  }

  lemma SealsShape(c: Config, s: State)
    requires Shape(c, s.core)
    ensures |s.core.mem.seals| == |s.core.g.cl| == |s.core.g.nxt| == |s.core.g.rd| == |s.core.g.off| == c.segs
    ensures |s.core.mem.seqs| == c.segs
    ensures forall k :: 0 <= k < c.segs ==> |s.core.mem.seqs[k]| == c.depth && c.depth >= 1
  {
  }

  /** From the consumer's segment to the claim word's the segments are distinct, and each link is stored
      or owed by exactly one producer. */
  lemma ChainIsLinked(c: Config, s: State)
    requires Reached(c, s)
    ensures |s.core.mem.seals| == |s.core.g.cl| == c.segs
    ensures |s.core.g.chain| >= 1
    ensures forall j :: 0 <= j < |s.core.g.chain| ==> s.core.g.chain[j] < c.segs
    ensures forall i, j :: 0 <= i < j < |s.core.g.chain| ==> s.core.g.chain[i] != s.core.g.chain[j]
    ensures Present(s.core.cons.pc) ==> s.core.g.chain[0] == s.core.cons.cur
    ensures s.core.g.chain[|s.core.g.chain| - 1] == s.core.mem.claim.seg
    ensures forall j :: 0 <= j < |s.core.g.chain| - 1 ==>
      Link(s, s.core.g.chain[j], s.core.g.chain[j + 1], s.core.g.cl[s.core.g.chain[j]])
  {
    hide Inv, Reached, Fronts, Sealed, Bits, Link, Holding, Shape;
    ReachedInv(c, s);
    ChainFacts(c, s);
    SealsShape(c, s);
    PlacementFacts(c, s);
    forall j | 0 <= j < |s.core.g.chain| - 1
      ensures Link(s, s.core.g.chain[j], s.core.g.chain[j + 1], s.core.g.cl[s.core.g.chain[j]])
    {
      LinkStands(c, s, j);
    }
  }

  /** The in-use word holds the chain's bits and, apart from them, the bits of the segments each held by
      exactly one producer inside `switch`. */
  lemma BitsAreShared(c: Config, s: State, k: nat)
    requires Reached(c, s)
    ensures k in s.core.mem.inUse <==>
      k in s.core.g.chain || exists i :: 0 <= i < |s.prods| && Holds(s.prods[i].pc, k)
    ensures forall i :: 0 <= i < |s.prods| && Holds(s.prods[i].pc, k) ==>
      && k < c.segs
      && k !in s.core.g.chain
      && forall j :: 0 <= j < |s.prods| && j != i ==> !Holds(s.prods[j].pc, k)
  {
    hide Inv, Reached, Fronts, Sealed, Chained, Owes, Lags, Shape;
    ReachedInv(c, s);
    ChainFacts(c, s);
    InvCore(c, s);
    forall i | 0 <= i < |s.prods|
      ensures Holds(s.prods[i].pc, k) <==> k in s.core.g.held && s.core.g.held[k] == i
    {
      SwitchLocalOf(c, s, i);
    }
    if k in s.core.g.held {
      assert Holds(s.prods[s.core.g.held[k]].pc, k);
    }
  }

  // ---------------------------------------------------------------- a claim word seen again

  /** A `send` whose CAS finds the word it loaded, however long ago and whatever the ring did since, claims
      a slot that is claimable now: at the claim frontier, inside the window, with no other producer and
      not the consumer at the slot. */
  lemma StaleSendIsSafe(c: Config, s: State, i: nat)
    requires Reached(c, s) && i < |s.prods|
    requires s.prods[i].pc.Cas? && s.core.mem.claim == s.prods[i].pc.w
    ensures var x, w := s.core, s.prods[i].pc.w;
      && Shape(c, x)
      && w.seg < c.segs
      && w.pos == x.g.cl[w.seg] < x.g.rd[w.seg] + c.depth
      && SeqAt(c, x.mem, w.seg, w.pos) == Claimable(w.pos)
      && (forall j :: 0 <= j < |s.prods| && Fills(s.prods[j].pc) && s.prods[j].pc.w.seg == w.seg ==>
            Slot(s.prods[j].pc.w.pos, c.depth) != Slot(w.pos, c.depth))
      && (x.cons.pc.Hold? || x.cons.pc.Store? ==>
            x.cons.cur != w.seg || Slot(x.g.rd[w.seg], c.depth) != Slot(w.pos, c.depth))
  {
    hide Inv, Reached, Shape, Sealed, Bits, Keeps, Owes, Numbers, Placement;
    ReachedInv(c, s);
    var x, w := s.core, s.prods[i].pc.w;
    ChainFacts(c, s);
    SlotFacts(c, s);
    SealsShape(c, s);
    PlacementFacts(c, s);
    RingLocalOf(c, s, i);
    assert SlotOk(c, x, w.seg, w.pos);
    forall j | 0 <= j < |s.prods| && Fills(s.prods[j].pc) && s.prods[j].pc.w.seg == w.seg
      ensures Slot(s.prods[j].pc.w.pos, c.depth) != Slot(w.pos, c.depth)
    {
      RingLocalOf(c, s, j);
      SlotsDiffer(s.prods[j].pc.w.pos, w.pos, c.depth);
    }
    if (x.cons.pc.Hold? || x.cons.pc.Store?) && x.cons.cur == w.seg {
      SlotsDiffer(x.g.rd[w.seg], w.pos, c.depth);
    }
  }

  /** A `switch` whose CAS finds the word it was given leaves a segment whose seal is not moved and that
      nobody is about to seal, for one that is empty, outside the chain, with its seal clear, entered at
      the position both sides have for it. */
  lemma StaleSwitchIsSafe(c: Config, s: State, i: nat)
    requires Reached(c, s) && i < |s.prods|
    requires s.prods[i].pc.Move? && s.core.mem.claim == s.prods[i].pc.w
    ensures var x, pc := s.core, s.prods[i].pc;
      && Shape(c, x)
      && pc.w.seg < c.segs
      && pc.k < c.segs
      && !x.mem.seals[pc.w.seg].moved
      && (forall j :: 0 <= j < |s.prods| ==> !OwesSeal(s.prods[j].pc, pc.w.seg) && !OwesSeal(s.prods[j].pc, pc.k))
      && pc.w.pos == x.g.cl[pc.w.seg]
      && x.mem.seals[pc.k] == ClearSeal
      && pc.k !in x.g.chain
      && pc.start == x.g.rd[pc.k] == x.g.cl[pc.k]
      && (forall p :: pc.start <= p < pc.start + c.depth ==> SeqAt(c, x.mem, pc.k, p) == Claimable(p))
  {
    hide Inv, Reached, Shape, Sends, Numbers, Owns;
    ReachedInv(c, s);
    var x, pc := s.core, s.prods[i].pc;
    ChainFacts(c, s);
    SlotFacts(c, s);
    SealsShape(c, s);
    SwitchLocalOf(c, s, i);
    forall j | 0 <= j < |s.prods|
      ensures !OwesSeal(s.prods[j].pc, pc.w.seg) && !OwesSeal(s.prods[j].pc, pc.k)
    {
      SwitchLocalOf(c, s, j);
    }
    forall p | pc.start <= p < pc.start + c.depth
      ensures SeqAt(c, x.mem, pc.k, p) == Claimable(p)
    {
      assert SlotOk(c, x, pc.k, p);
    }
  }

  // ---------------------------------------------------------------- slots

  /** Where the consumer reads or is about to release. */
  predicate ReadsSlot(x: Core) {
    x.cons.pc.Hold? || x.cons.pc.Store? || x.cons.pc.Skip?
  }

  /** No two producers ever write one slot, and none writes the slot the consumer reads. */
  lemma SlotsExclusive(c: Config, s: State, i: nat)
    requires Reached(c, s) && i < |s.prods| && Fills(s.prods[i].pc)
    ensures Shape(c, s.core) && s.prods[i].pc.w.seg < c.segs
    ensures forall j :: 0 <= j < |s.prods| && j != i && Fills(s.prods[j].pc) ==>
      var v, w := s.prods[i].pc.w, s.prods[j].pc.w;
      v.seg != w.seg || Slot(v.pos, c.depth) != Slot(w.pos, c.depth)
    ensures ReadsSlot(s.core) ==>
      var w, cons := s.prods[i].pc.w, s.core.cons;
      var p := if cons.pc.Store? then cons.pc.c else cons.pos;
      w.seg != cons.cur || Slot(w.pos, c.depth) != Slot(p, c.depth)
  {
    hide Inv, Reached, Shape, Keeps, Owes, Numbers, Sends;
    ReachedInv(c, s);
    var x, v := s.core, s.prods[i].pc.w;
    OrderFacts(c, s);
    SealsShape(c, s);
    PlacementFacts(c, s);
    RingLocalOf(c, s, i);
    forall j | 0 <= j < |s.prods| && j != i && Fills(s.prods[j].pc) && s.prods[j].pc.w.seg == v.seg
      ensures Slot(v.pos, c.depth) != Slot(s.prods[j].pc.w.pos, c.depth)
    {
      RingLocalOf(c, s, j);
      ApartSlots(v.pos, s.prods[j].pc.w.pos, x.g.rd[v.seg], c.depth);
    }
    if ReadsSlot(x) && x.cons.cur == v.seg {
      ApartSlots(v.pos, x.g.rd[v.seg], x.g.rd[v.seg], c.depth);
    }
  }

  /** Two positions of one window have two slots. */
  lemma ApartSlots(p: nat, q: nat, lo: nat, m: nat)
    requires m >= 1 && lo <= p < lo + m && lo <= q < lo + m && p != q
    ensures Slot(p, m) != Slot(q, m)
  {
    WindowSlotsDiffer(lo, m);
  }

  /** Every segment's slot words are one lap from its read frontier: claimable from the claim frontier on,
      and before it, never more than a lap, claimed by a producer at that slot, committed with its message
      in place, or a tombstone. */
  lemma WindowIsExact(c: Config, s: State, k: nat, p: nat)
    requires Reached(c, s) && Shape(c, s.core) && k < c.segs
    requires s.core.g.rd[k] <= p < s.core.g.rd[k] + c.depth
    ensures s.core.g.rd[k] <= s.core.g.cl[k] <= s.core.g.rd[k] + c.depth
    ensures p >= s.core.g.cl[k] ==> SeqAt(c, s.core.mem, k, p) == Claimable(p)
    ensures p < s.core.g.cl[k] ==>
      || (SeqAt(c, s.core.mem, k, p) == Claimable(p)
          && exists i :: 0 <= i < |s.prods| && Fills(s.prods[i].pc) && s.prods[i].pc.w.seg == k
               && s.prods[i].pc.w.pos == p)
      || (SeqAt(c, s.core.mem, k, p) == CommittedAt(c, p)
          && exists n :: s.core.g.head <= n < |s.core.g.log| && s.core.g.log[n].seg == k && s.core.g.log[n].pos == p
               && s.core.g.log[n].msg == BodyAt(c, s.core.mem, k, p))
      || SeqAt(c, s.core.mem, k, p) == TombAt(c, p)
  {
    hide Inv, Reached, Shape, Keeps, Owes, Numbers, Sends, Sealed, Bits;
    ReachedInv(c, s);
    var x := s.core;
    OrderFacts(c, s);
    SlotFacts(c, s);
    SealsShape(c, s);
    InvCore(c, s);
    assert SlotOk(c, x, k, p);
    if p < x.g.cl[k] {
      PlaceOf(c, x, k, p);
      var n := x.g.off[k] + p;
      var i := x.g.log[n].msg.pid;
      if x.g.log[n].fate == Filling {
        RingLocalOf(c, s, i);
        OwnerIs(c, s, i, n);
      }
    }
  }

  lemma OwnerIs(c: Config, s: State, i: nat, n: nat)
    requires Inv(c, s) && i < |s.prods| && n < |s.core.g.log|
    requires s.core.g.log[n].msg.pid == i && s.core.g.log[n].fate == Filling
    ensures Fills(s.prods[i].pc)
    ensures s.prods[i].pc.w.seg == s.core.g.log[n].seg && s.prods[i].pc.w.pos == s.core.g.log[n].pos
  {
    hide Inv, Shape, Keeps, Owes, Numbers, Sends, Live;
    RingLocalOf(c, s, i);
    LogOf(c, s);
  }

  // ---------------------------------------------------------------- free segments

  /** For a segment nobody uses, the seal the next producer reads and the resume entry the consumer will
      enter it by hold one position, where everything is read and every slot claimable. A producer that
      holds it inside `switch` has that position, or will find it in the seal. */
  lemma ResumesAgree(c: Config, s: State, k: nat)
    requires Reached(c, s) && Shape(c, s.core) && k < c.segs && k !in s.core.g.chain
    ensures s.core.g.rd[k] == s.core.g.cl[k]
    ensures k !in s.core.mem.inUse ==> s.core.mem.seals[k].pos == s.core.g.rd[k]
    ensures Present(s.core.cons.pc) ==> s.core.cons.resume[k] == s.core.g.rd[k]
    ensures !Present(s.core.cons.pc) ==> s.core.mem.ckpt.resume[k] == s.core.g.rd[k]
    ensures forall i :: 0 <= i < |s.prods| && Holds(s.prods[i].pc, k) ==>
      match s.prods[i].pc
      case SealLoad(_, _) => s.core.mem.seals[k].pos == s.core.g.rd[k]
      case SealClear(_, _, start) => start == s.core.g.rd[k]
      case Move(_, _, start) => start == s.core.g.rd[k]
      case SealRestore(_, start) => start == s.core.g.rd[k]
      case BitClear(_) => s.core.mem.seals[k].pos == s.core.g.rd[k]
      case _ => true
    ensures forall p :: s.core.g.rd[k] <= p < s.core.g.rd[k] + c.depth ==> SeqAt(c, s.core.mem, k, p) == Claimable(p)
  {
    hide Inv, Reached, Owes, Lags, Holding;
    ReachedInv(c, s);
    var x := s.core;
    ChainFacts(c, s);
    SlotFacts(c, s);
    PlacementFacts(c, s);
    forall i | 0 <= i < |s.prods| && Holds(s.prods[i].pc, k)
      ensures Keeps(c, i, s.prods[i], x)
    {
      SwitchLocalOf(c, s, i);
    }
    forall p | x.g.rd[k] <= p < x.g.rd[k] + c.depth
      ensures SeqAt(c, x.mem, k, p) == Claimable(p)
    {
      assert SlotOk(c, x, k, p);
    }
  }

  /** From `x` to `y` no frontier goes back, and those of segments outside the chain stand still. */
  ghost predicate Onwards(x: Core, y: Core) {
    && |y.g.rd| == |x.g.rd|
    && |y.g.cl| == |x.g.cl|
    && (forall k :: 0 <= k < |x.g.rd| ==>
          x.g.rd[k] <= y.g.rd[k] && (k !in x.g.chain ==> y.g.rd[k] == x.g.rd[k]))
    && (forall k :: 0 <= k < |x.g.cl| ==>
          x.g.cl[k] <= y.g.cl[k] && (k !in x.g.chain ==> y.g.cl[k] == x.g.cl[k]))
  }

  lemma OnwardsStep(c: Config, s: State, step: Step)
    requires Plain(c) && Inv(c, s) && WellShaped(c, s)
    ensures Onwards(s.core, Next(c, s, step).core)
  {
    hide Inv, WellShaped, Produce, Consume;
    match step
    case ByProducer(i, ch) => if i < |s.prods| { OnwardsProducer(c, s, i, ch); }
    case ByConsumer(ch) => OnwardsConsumer(c, s, ch);
  }

  lemma OnwardsProducer(c: Config, s: State, i: nat, ch: Choice)
    requires Plain(c) && Inv(c, s) && WellShaped(c, s) && i < |s.prods|
    ensures Onwards(s.core, Produce(c, s, i, ch).core)
  {
    hide Inv, Shape, LowestFree, SeqAt, AnyFree, NapStep, FillStep, Sealed, Fronts, Bits;
    ChainFacts(c, s);
    SealsShape(c, s);
    OnwardsQuiet(c, s, i, ch);
  }

  lemma OnwardsQuiet(c: Config, s: State, i: nat, ch: Choice)
    requires WellShaped(c, s) && i < |s.prods|
    ensures NapStep(c, s, i, ch).core.g.rd == FillStep(c, s, i, ch).core.g.rd == s.core.g.rd
    ensures NapStep(c, s, i, ch).core.g.cl == FillStep(c, s, i, ch).core.g.cl == s.core.g.cl
  {
    hide Shape, SeqAt, AnyFree, SetBody, SetSeq, EntryOf;
  }

  lemma OnwardsConsumer(c: Config, s: State, ch: Choice)
    requires Plain(c) && Inv(c, s) && WellShaped(c, s)
    ensures Onwards(s.core, Consume(c, s, ch).core)
  {
    hide Inv, PcShape, Shape, ReadStep, Here;
    OnwardsRead(c, s, ch);
    assert Onwards(s.core, s.core);
  }

  lemma OnwardsRead(c: Config, s: State, ch: Choice)
    requires Plain(c) && Inv(c, s) && Shape(c, s.core)
    ensures Onwards(s.core, ReadStep(c, s.core, ch))
  {
    hide Inv, Shape, SeqAt, BodyAt, SetSeq, AtCheck;
    SealsShape(c, s);
    PlacementFacts(c, s);
  }

  /** A segment held by one producer all along: its frontiers stay where they were. */
  lemma {:induction false} HeldStays(c: Config, s: State, i: nat, k: nat, steps: seq<Step>)
    requires Plain(c) && Inv(c, s) && i < |s.prods|
    requires forall m :: 0 <= m <= |steps| ==> Holds(Exec(c, s, steps[..m]).prods[i].pc, k)
    ensures k < |s.core.g.rd| == |s.core.g.cl| == c.segs
    ensures var g := Exec(c, s, steps).core.g;
      |g.rd| == |g.cl| == c.segs && g.rd[k] == s.core.g.rd[k] && g.cl[k] == s.core.g.cl[k]
    decreases |steps|
  {
    hide Inv, Next, WellShaped, Shape, Sealed, Fronts, Chained;
    assert steps[..0] == [] && steps[..|steps|] == steps;
    HeldApart(c, s, i, k);
    if steps != [] {
      var m := |steps| - 1;
      var r := Exec(c, s, steps[..m]);
      forall n | 0 <= n <= m
        ensures steps[..m][..n] == steps[..n]
      {
      }
      HeldStays(c, s, i, k, steps[..m]);
      ExecInv(c, s, steps[..m]);
      HeldApart(c, r, i, k);
      OnwardsStep(c, r, steps[m]);
    }
  }

  lemma HeldApart(c: Config, s: State, i: nat, k: nat)
    requires Inv(c, s) && i < |s.prods| && Holds(s.prods[i].pc, k)
    ensures k < |s.core.g.rd| == |s.core.g.cl| == c.segs && k !in s.core.g.chain
    ensures |s.core.mem.seals| == c.segs && Keeps(c, i, s.prods[i], s.core)
  {
    hide Inv, Sealed, Chained, Fronts, Owes, Lags;
    ChainFacts(c, s);
    SwitchLocalOf(c, s, i);
    SealsShape(c, s);
  }

  lemma LostTakes(c: Config, s: State, i: nat, w: Word, k: nat)
    requires Plain(c) && Inv(c, s) && i < |s.prods| && s.prods[i].pc == Take(w, k) && k !in s.core.mem.inUse
    requires k < |s.core.mem.seals|
    ensures Alone(c, s, i, 3) ==
      Put(s, i, StoreSeal(TakeBit(s.core, i, k), k, ClearSeal), Move(w, k, s.core.mem.seals[k].pos))
  {
    hide Inv, Alone, Shape, PcShape;
    AloneStep(c, s, i, 0);
    AloneStep(c, s, i, 1);
    AloneStep(c, s, i, 2);
  }

  /** Segment `k` is producer `i`'s at every access of `steps`, from `t` on. */
  ghost predicate HoldsOn(c: Config, t: State, i: nat, k: nat, steps: seq<Step>) {
    && i < |t.prods|
    && forall m :: 0 <= m <= |steps| ==> Holds(Exec(c, t, steps[..m]).prods[i].pc, k)
  }

  lemma AppliedReached(c: Config, s: State, step: Step)
    requires Reached(c, s)
    ensures Reached(c, Apply(c, s, step)) && Inv(c, Apply(c, s, step)) && Shape(c, Apply(c, s, step).core)
  {
    hide Inv, Reached, Next, Shape, PcShape;
    ReachedNext(c, s, step);
    ReachedInv(c, Apply(c, s, step));
  }

  lemma TakesIt(c: Config, s: State, i: nat, w: Word, k: nat, ch: Choice)
    requires Inv(c, s) && i < |s.prods| && s.prods[i].pc == Take(w, k) && k !in s.core.mem.inUse
    ensures Apply(c, s, ByProducer(i, ch)) == Put(s, i, TakeBit(s.core, i, k), SealLoad(w, k))
  {
    hide Inv, Shape, PcShape;
    InvShape(c, s);
  }

  lemma PutsBack(c: Config, s: State, i: nat, k: nat, ch: Choice)
    requires Inv(c, s) && i < |s.prods| && s.prods[i].pc == BitClear(k)
    ensures Apply(c, s, ByProducer(i, ch)) == Put(s, i, PutBack(s.core, k), Load)
  {
    hide Inv, Shape, PcShape;
    InvShape(c, s);
  }

  lemma FreeSeal(c: Config, s: State, i: nat, w: Word, k: nat)
    requires Inv(c, s) && i < |s.prods| && s.prods[i].pc == Take(w, k) && k !in s.core.mem.inUse
    ensures k < c.segs == |s.core.mem.seals| == |s.core.g.cl| == |s.core.g.rd| && k !in s.core.g.chain
    ensures s.core.mem.seals[k].pos == s.core.g.cl[k] == s.core.g.rd[k]
  {
    hide Inv, Chained, Keeps, Owes, Lags;
    ChainFacts(c, s);
    SwitchLocalOf(c, s, i);
    SealsShape(c, s);
  }

  /** A switch that loses its CAS leaves no trace, whatever the others do between its `fetch_or` and its
      `fetch_and`: while producer `i` holds the free segment `k` nothing is claimed or released there, and
      once it has lost and clears the bit, `k` is free again with its seal at the position it had, which is
      where the next taker and the consumer start, every slot claimable from there. */
  lemma LostSwitchLeavesNoTrace(c: Config, s: State, i: nat, w: Word, k: nat, steps: seq<Step>)
    requires Reached(c, s) && i < |s.prods| && s.prods[i].pc == Take(w, k) && k !in s.core.mem.inUse
    requires HoldsOn(c, Apply(c, s, ByProducer(i, Go)), i, k, steps)
    requires Exec(c, Apply(c, s, ByProducer(i, Go)), steps).prods[i].pc == BitClear(k)
    ensures var v := Apply(c, Exec(c, Apply(c, s, ByProducer(i, Go)), steps), ByProducer(i, Go));
      && k < c.segs == |s.core.mem.seals| == |v.core.mem.seals|
      && v.prods[i].pc.Load?
      && k !in v.core.mem.inUse
      && v.core.mem.seals[k].pos == s.core.mem.seals[k].pos
      && |s.core.g.rd| == |v.core.g.rd| == |s.core.g.cl| == |v.core.g.cl| == c.segs
      && v.core.g.rd[k] == v.core.g.cl[k] == s.core.g.cl[k] == s.core.g.rd[k] == s.core.mem.seals[k].pos
      && Shape(c, v.core)
      && forall p :: v.core.mem.seals[k].pos <= p < v.core.mem.seals[k].pos + c.depth ==>
           SeqAt(c, v.core.mem, k, p) == Claimable(p)
  {
    hide Inv, Reached, Apply, Exec, Shape, WellShaped;
    var t := Apply(c, s, ByProducer(i, Go));
    var u := Exec(c, t, steps);
    var v := Apply(c, u, ByProducer(i, Go));
    ReachedInv(c, s);
    FreeSeal(c, s, i, w, k);
    TakesIt(c, s, i, w, k, Go);
    AppliedReached(c, s, ByProducer(i, Go));
    HeldStays(c, t, i, k, steps);
    ReachedExec(c, t, steps);
    ReachedInv(c, u);
    assert steps[..|steps|] == steps;
    HeldApart(c, u, i, k);
    PutsBack(c, u, i, k, Go);
    AppliedReached(c, u, ByProducer(i, Go));
    ResumesAgree(c, v, k);
  }

  // ---------------------------------------------------------------- capacity

  lemma {:induction false} Pigeonhole(chain: seq<nat>, n: nat)
    requires forall j :: 0 <= j < |chain| ==> chain[j] < n
    requires forall i, j :: 0 <= i < j < |chain| ==> chain[i] != chain[j]
    ensures |chain| <= n
    decreases n
  {
    if |chain| > 0 {
      assert chain[0] < n;
      if n - 1 in chain {
        var j :| 0 <= j < |chain| && chain[j] == n - 1;
        Pigeonhole(chain[..j] + chain[j + 1..], n - 1);
      } else {
        Pigeonhole(chain, n - 1);
      }
    }
  }

  /** The chain's segments follow each other in the log without a gap. */
  lemma NoGap(c: Config, s: State, j: nat)
    requires Inv(c, s) && j + 1 < |s.core.g.chain|
    ensures Shape(c, s.core) && Chained(c, s.core)
    ensures var g := s.core.g;
      g.off[g.chain[j + 1]] + g.rd[g.chain[j + 1]] == g.off[g.chain[j]] + g.cl[g.chain[j]]
  {
    hide Inv, Shape;
    OrderFacts(c, s);
    SealsShape(c, s);
    var x, g := s.core, s.core.g;
    var n := g.off[g.chain[j]] + g.cl[g.chain[j]];
    if n < g.off[g.chain[j + 1]] + g.rd[g.chain[j + 1]] {
      assert EntryPlaced(c, x, n);
      var i :| 0 <= i < |g.chain| && g.chain[i] == g.log[n].seg;
      if i <= j {
        OffMonotone(c, s, i, j);
      } else {
        OffMonotone(c, s, j + 1, i);
      }
    }
  }

  lemma OffMonotone(c: Config, s: State, i: nat, j: nat)
    requires Inv(c, s) && i <= j < |s.core.g.chain|
    ensures Shape(c, s.core) && Chained(c, s.core)
    ensures var g := s.core.g;
      && g.off[g.chain[i]] + g.cl[g.chain[i]] <= g.off[g.chain[j]] + g.cl[g.chain[j]]
      && g.off[g.chain[i]] + g.rd[g.chain[i]] <= g.off[g.chain[j]] + g.rd[g.chain[j]]
  {
    hide Inv, Shape, Placed;
    OrderFacts(c, s);
    SealsShape(c, s);
  }

  /** A segment of the chain holds at most its depth, and the first starts at the log's head. */
  lemma FirstOf(c: Config, s: State, j: nat)
    requires Inv(c, s) && j < |s.core.g.chain|
    ensures Shape(c, s.core) && Chained(c, s.core)
    ensures var g := s.core.g;
      && g.chain[j] < |g.cl| == |g.rd| == |g.off|
      && g.cl[g.chain[j]] <= g.rd[g.chain[j]] + c.depth
      && (j == 0 ==> g.head == g.off[g.chain[0]] + g.rd[g.chain[0]])
  {
    hide Inv, Shape, Placed;
    OrderFacts(c, s);
    SealsShape(c, s);
  }

  lemma {:induction false} UnreadUpTo(c: Config, s: State, j: nat)
    requires Inv(c, s) && j < |s.core.g.chain|
    ensures Shape(c, s.core) && Chained(c, s.core)
    ensures var g := s.core.g; g.off[g.chain[j]] + g.cl[g.chain[j]] - g.head <= (j + 1) * c.depth
  {
    hide Inv, Shape, Placed, Ordered;
    FirstOf(c, s, j);
    var g := s.core.g;
    if j > 0 {
      UnreadUpTo(c, s, j - 1);
      NoGap(c, s, j - 1);
      MulOneMore(j, c.depth);
    }
  }

  /** The ring never holds more than its segments' slots of claims not yet released. */
  lemma CapacityHolds(c: Config, s: State)
    requires Reached(c, s)
    ensures |s.core.g.chain| <= c.segs
    ensures |s.core.g.log| - s.core.g.head <= |s.core.g.chain| * c.depth <= c.segs * c.depth
  {
    hide Inv, Reached, Shape, Placed;
    ReachedInv(c, s);
    var g := s.core.g;
    OrderFacts(c, s);
    Pigeonhole(g.chain, c.segs);
    UnreadUpTo(c, s, |g.chain| - 1);
    MulMono(|g.chain|, c.segs, c.depth);
  }

  // ---------------------------------------------------------------- switches

  /** The producers between their switch CAS and their count of it. */
  function Lagging(prods: seq<Producer>): (r: set<nat>) {
    set i | 0 <= i < |prods| && (prods[i].pc.SealStore? || prods[i].pc.CountSwitch?) :: i
  }

  lemma CountFacts(c: Config, s: State)
    requires Inv(c, s)
    ensures Counted(s.core) && Chained(c, s.core) && Placement(c, s.core) && Ranged(s.core.g, |s.prods|)
  {
    hide Fronts, Ordered, Placed, Slots, Sealed, Bits, Logged, Delivered, Holding, Flagged, Owed, Local, Ranged;
  }

  /** Switches won are those the consumers followed and the chain's links, and the header's count lags
      behind them by exactly the producers between their CAS and their count. */
  lemma SwitchesConserved(c: Config, s: State)
    requires Reached(c, s)
    ensures s.core.g.won == s.core.g.followed + |s.core.g.chain| - 1
    ensures s.core.g.won == s.core.mem.switches + |Lagging(s.prods)|
    ensures Present(s.core.cons.pc) && s.core.g.since == 0 ==>
      s.core.mem.switches + |Lagging(s.prods)| == s.core.cons.switches + |s.core.g.chain| - 1
    ensures Present(s.core.cons.pc) && s.core.g.since == 0 && AtConsumer(s.core) && Lagging(s.prods) == {} ==>
      s.core.mem.switches == s.core.cons.switches
  {
    hide Inv, Reached, Shape, Owes, Keeps;
    ReachedInv(c, s);
    CountFacts(c, s);
    var g := s.core.g;
    forall i | 0 <= i < |s.prods|
      ensures i in g.lag <==> i in Lagging(s.prods)
    {
      SwitchLocalOf(c, s, i);
    }
    assert g.lag == Lagging(s.prods);
  }

  /** Only a won switch CAS moves the claim word to another segment, and it is counted once. Every won
      claim or switch CAS carries the consumer's flag over, and only the consumer writes it. */
  lemma WonCountsMoves(c: Config, s: State, step: Step)
    requires WellShaped(c, s)
    ensures Next(c, s, step).core.g.won ==
      s.core.g.won + if step.ByProducer? && Moves(s, step.i) then 1 else 0
    ensures step.ByProducer? ==> Next(c, s, step).core.mem.claim.waiting == s.core.mem.claim.waiting
    ensures Next(c, s, step).core.mem.claim.seg != s.core.mem.claim.seg ==> step.ByProducer? && Moves(s, step.i)
  {
    hide Consume, Produce;
    match step
    case ByProducer(i, ch) => if i < |s.prods| { WonByProducer(c, s, i, ch); }
    case ByConsumer(ch) => WonByConsumer(c, s, ch);
  }

  /** Producer `i`'s next access is a switch CAS that succeeds. */
  predicate Moves(s: State, i: nat) {
    i < |s.prods| && s.prods[i].pc.Move? && s.core.mem.claim == s.prods[i].pc.w
  }

  lemma WonByProducer(c: Config, s: State, i: nat, ch: Choice)
    requires WellShaped(c, s) && i < |s.prods|
    ensures var m, t := s.core.mem, Produce(c, s, i, ch);
      && t.core.g.won == s.core.g.won + (if Moves(s, i) then 1 else 0)
      && t.core.mem.claim.waiting == m.claim.waiting
      && (!Moves(s, i) ==> t.core.mem.claim.seg == m.claim.seg)
  {
    hide Shape, LowestFree, SeqAt, AnyFree, NapStep, FillStep, SwitchStep, LookStep;
    QuietWon(c, s, i, ch);
    if s.prods[i].pc.Look? {
      LookWon(c, s, i, s.prods[i].pc.w);
    } else if Switching(s.prods[i].pc) {
      SwitchWon(c, s, i);
    }
  }

  lemma LookWon(c: Config, s: State, i: nat, w: Word)
    requires WellShaped(c, s) && i < |s.prods|
    ensures LookStep(c, s, i, w).core == s.core
  {
    hide Shape, PcShape, SeqAt;
  }

  lemma SwitchWon(c: Config, s: State, i: nat)
    requires WellShaped(c, s) && i < |s.prods| && Switching(s.prods[i].pc)
    ensures var m, t := s.core.mem, SwitchStep(c, s, i);
      && t.core.g.won == s.core.g.won + (if Moves(s, i) then 1 else 0)
      && t.core.mem.claim.waiting == m.claim.waiting
      && (!Moves(s, i) ==> t.core.mem.claim.seg == m.claim.seg)
  {
    hide Shape, LowestFree, AnyFree;
  }

  lemma QuietWon(c: Config, s: State, i: nat, ch: Choice)
    requires WellShaped(c, s) && i < |s.prods|
    ensures forall t :: t == NapStep(c, s, i, ch) || t == FillStep(c, s, i, ch) ==>
      t.core.g.won == s.core.g.won && t.core.mem.claim == s.core.mem.claim
  {
    hide Shape, SeqAt, AnyFree, EntryOf;
  }

  lemma WonByConsumer(c: Config, s: State, ch: Choice)
    requires WellShaped(c, s)
    ensures var t := Consume(c, s, ch);
      && t.core.g.won == s.core.g.won
      && t.core.mem.claim.(waiting := s.core.mem.claim.waiting) == s.core.mem.claim
  {
    hide PcShape, Shape, ReadStep, HandStep, Here;
    WonByRead(c, s.core, ch);
  }

  lemma WonByRead(c: Config, x: Core, ch: Choice)
    requires Shape(c, x)
    ensures ReadStep(c, x, ch).g.won == HandStep(c, x).g.won == x.g.won
    ensures ReadStep(c, x, ch).mem.claim == HandStep(c, x).mem.claim == x.mem.claim
  {
    hide Shape, SeqAt, BodyAt, AtCheck;
  }
}
