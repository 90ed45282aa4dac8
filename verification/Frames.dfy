/** What a step leaves alone when it writes none of the words a part of the invariant reads. */
module Frames {
  import opened Machine
  import opened Invariant

  /** The same claim position, seals, bits and frontiers. Slots and the fates of claims may differ. */
  predicate SameLayout(x: Core, y: Core) {
    && y.mem.claim.seg == x.mem.claim.seg
    && y.mem.claim.pos == x.mem.claim.pos
    && y.mem.seals == x.mem.seals
    && y.mem.inUse == x.mem.inUse
    && |y.g.log| == |x.g.log|
    && y.g.head == x.g.head
    && y.g.delivered == x.g.delivered
    && y.g.chain == x.g.chain
    && y.g.nxt == x.g.nxt
    && y.g.rd == x.g.rd
    && y.g.cl == x.g.cl
    && y.g.off == x.g.off
    && y.g.held == x.g.held
    && y.g.debt == x.g.debt
  }

  /** The same slots and claims as well. */
  predicate SameRing(x: Core, y: Core) {
    && SameLayout(x, y)
    && y.mem.seqs == x.mem.seqs
    && y.mem.bodies == x.mem.bodies
    && y.g.log == x.g.log
  }

  lemma FrameSlots(c: Config, x: Core, y: Core)
    requires Shape(c, x) && Shape(c, y) && SameRing(x, y) && Slots(c, x)
    ensures Slots(c, y)
  {
    forall k, p | 0 <= k < c.segs && y.g.rd[k] <= p < y.g.rd[k] + c.depth
      ensures SlotOk(c, y, k, p)
    {
      assert SlotOk(c, x, k, p);
    }
  }

  lemma FrameSealed(c: Config, x: Core, y: Core)
    requires Shape(c, x) && Shape(c, y) && SameLayout(x, y) && Chained(c, x) && Sealed(c, x)
    ensures Chained(c, y) && Sealed(c, y)
  {
    forall j | 0 <= j < |y.g.chain| - 1
      ensures LinkOk(c, y, y.g.chain[j])
    {
      assert LinkOk(c, x, x.g.chain[j]);
    }
  }

  /** The claims keep their places whatever becomes of them. */
  lemma FramePlaced(c: Config, x: Core, y: Core)
    requires Shape(c, x) && Shape(c, y) && SameLayout(x, y) && Placed(c, x)
    requires forall n :: 0 <= n < |x.g.log| ==> y.g.log[n] == x.g.log[n].(fate := y.g.log[n].fate)
    ensures Placed(c, y)
  {
    forall n | y.g.head <= n < |y.g.log|
      ensures EntryPlaced(c, y, n)
    {
      assert EntryPlaced(c, x, n);
    }
  }

  lemma FrameOrdered(c: Config, x: Core, y: Core)
    requires Shape(c, x) && Shape(c, y) && SameLayout(x, y) && Chained(c, x) && Chained(c, y)
    requires Fronts(c, x) && Ordered(c, x) && Bits(c, x)
    ensures Fronts(c, y) && Ordered(c, y) && Bits(c, y)
  {
  }

  lemma FrameLayout(c: Config, x: Core, y: Core)
    requires RingInv(c, x) && Shape(c, y) && SameLayout(x, y)
    ensures Chained(c, y) && Fronts(c, y) && Ordered(c, y) && Sealed(c, y) && Bits(c, y)
  {
    hide Chained, Fronts, Ordered, Placed, Slots, Sealed, Bits, Logged, Delivered;
    FrameSealed(c, x, y);
    FrameOrdered(c, x, y);
  }

  lemma FrameRing(c: Config, x: Core, y: Core)
    requires RingInv(c, x) && Shape(c, y) && SameRing(x, y)
    ensures RingInv(c, y)
  {
    hide Chained, Fronts, Ordered, Placed, Slots, Sealed, Bits;
    FrameSlots(c, x, y);
    FrameLayout(c, x, y);
    FramePlaced(c, x, y);
  }

  /** A step that leaves the consumer and the counts alone leaves what they know, though claims being
      filled may be settled. */
  lemma FrameCons(c: Config, x: Core, y: Core)
    requires Shape(c, x) && Shape(c, y) && SameLayout(x, y)
    requires y.cons == x.cons && y.mem.claim == x.mem.claim && y.mem.ckpt == x.mem.ckpt
    requires y.mem.waiters == x.mem.waiters && y.mem.switches == x.mem.switches
    requires y.g == x.g.(log := y.g.log)
    requires forall n :: 0 <= n < |x.g.log| ==> y.g.log[n] == x.g.log[n].(fate := y.g.log[n].fate)
    requires forall n :: 0 <= n < |x.g.log| && x.g.log[n].fate != Filling ==> y.g.log[n] == x.g.log[n]
    requires Placement(c, x) && Holding(c, x) && Flagged(x) && Owed(x) && Counted(x)
    ensures Placement(c, y) && Holding(c, y) && Flagged(y) && Owed(y) && Counted(y)
  {
  }

  /** A step that leaves a producer's own claims and the bodies alone leaves what it knows of the ring. */
  lemma FrameLocal(c: Config, x: Core, y: Core, i: nat, p: Producer)
    requires Shape(c, x) && Shape(c, y) && SameLayout(x, y) && y.mem.bodies == x.mem.bodies
    requires forall n :: 0 <= n < |x.g.log| ==> y.g.log[n] == x.g.log[n].(fate := y.g.log[n].fate)
    requires forall n :: 0 <= n < |x.g.log| && x.g.log[n].msg.pid == i ==> y.g.log[n] == x.g.log[n]
    requires RingLocal(c, i, p, x)
    ensures RingLocal(c, i, p, y)
  {
  }

  /** A step that touches neither the wake words nor the consumer leaves a sleeper's promise. */
  lemma FrameNaps(c: Config, x: Core, y: Core, i: nat, p: Producer)
    requires Shape(c, x) && Shape(c, y) && PcShape(c, p.pc) && SameLayout(x, y)
    requires y.cons == x.cons && y.mem.wake == x.mem.wake && y.g.followed == x.g.followed
    requires i in y.g.sleepers <==> i in x.g.sleepers
    requires Naps(c, i, p, x)
    ensures Naps(c, i, p, y)
  {
  }
}
