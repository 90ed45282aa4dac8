/** A producer's switch keeps the invariant: the bit taken, the seal cleared, the ring moved, the old
    segment sealed, and, for a lost CAS, the seal and the bit put back. */
module SwitchProofs {
  import opened Machine
  import opened Invariant
  import opened Frames

  /** What the switch steps leave alone: everything of the ring but seals, bits and the chain's end. */
  predicate SameSlots(x: Core, y: Core) {
    && y.mem.seqs == x.mem.seqs
    && y.mem.bodies == x.mem.bodies
    && y.mem.ckpt == x.mem.ckpt
    && y.mem.waiters == x.mem.waiters
    && y.mem.wake == x.mem.wake
    && y.cons == x.cons
    && y.g.log == x.g.log
    && y.g.head == x.g.head
    && y.g.delivered == x.g.delivered
    && y.g.rd == x.g.rd
    && y.g.cl == x.g.cl
    && y.g.sleepers == x.g.sleepers
    && y.g.wakers == x.g.wakers
    && y.g.followed == x.g.followed
    && y.g.since == x.g.since
  }

  /** And the chain with the claim word. */
  predicate SameChain(x: Core, y: Core) {
    && SameSlots(x, y)
    && y.mem.claim == x.mem.claim
    && y.g.chain == x.g.chain
    && y.g.nxt == x.g.nxt
    && y.g.off == x.g.off
  }

  lemma KeepSlots(c: Config, x: Core, y: Core)
    requires Shape(c, x) && Shape(c, y) && SameChain(x, y) && Slots(c, x) && Placed(c, x)
    ensures Slots(c, y) && Placed(c, y)
  {
    forall k, p | 0 <= k < c.segs && y.g.rd[k] <= p < y.g.rd[k] + c.depth
      ensures SlotOk(c, y, k, p)
    {
      assert SlotOk(c, x, k, p);
    }
    forall n | y.g.head <= n < |y.g.log|
      ensures EntryPlaced(c, y, n)
    {
      assert EntryPlaced(c, x, n);
    }
  }

  lemma KeepChain(c: Config, x: Core, y: Core)
    requires Shape(c, x) && Shape(c, y) && SameChain(x, y) && Chained(c, x) && Fronts(c, x) && Ordered(c, x)
    ensures Chained(c, y) && Fronts(c, y) && Ordered(c, y)
  {
  }

  lemma KeepCons(c: Config, x: Core, y: Core)
    requires Shape(c, x) && Shape(c, y) && SameChain(x, y) && Logged(x) && Delivered(x)
    requires Placement(c, x) && Flagged(x) && Owed(x)
    ensures Logged(y) && Delivered(y) && Placement(c, y) && Flagged(y) && Owed(y)
  {
  }

  lemma KeepCore(c: Config, x: Core, y: Core)
    requires CoreInv(c, x) && Shape(c, y) && SameChain(x, y)
    requires Chained(c, y) ==> Sealed(c, y)
    requires Bits(c, y) && Holding(c, y) && Counted(y)
    ensures CoreInv(c, y)
  {
    hide Chained, Fronts, Ordered, Placed, Slots, Sealed, Bits, Logged, Delivered, Placement, Holding, Flagged, Owed,
         Counted;
    KeepSlots(c, x, y);
    KeepChain(c, x, y);
    KeepCons(c, x, y);
  }

  /** What another producer relies on: its own segment's seal, its own debt, and the chain it fills in. */
  lemma KeepOther(c: Config, x: Core, y: Core, j: nat, q: Producer)
    requires Shape(c, x) && Shape(c, y) && SameSlots(x, y)
    requires forall k :: k in x.g.chain ==> k in y.g.chain && (k < c.segs ==> y.g.off[k] == x.g.off[k])
    requires forall k :: (k in x.g.held && x.g.held[k] == j) <==> (k in y.g.held && y.g.held[k] == j)
    requires forall k :: k in x.g.held && x.g.held[k] == j && k < c.segs ==> y.mem.seals[k] == x.mem.seals[k]
    requires forall k :: (k in x.g.debt && x.g.debt[k] == j) <==> (k in y.g.debt && y.g.debt[k] == j)
    requires forall k :: k in x.g.debt && x.g.debt[k] == j && k < c.segs ==> y.g.nxt[k] == x.g.nxt[k]
    requires j in x.g.lag <==> j in y.g.lag
    requires Local(c, j, q, x)
    ensures Local(c, j, q, y)
  {
    KeepOtherNaps(c, x, y, j, q);
    hide Naps, Numbers;
    assert Numbers(j, q, y) by { KeepNumbers(x, y, j, q); }
  }

  lemma KeepNumbers(x: Core, y: Core, j: nat, q: Producer)
    requires y.g.log == x.g.log && Numbers(j, q, x)
    ensures Numbers(j, q, y)
  {
  }

  lemma KeepOtherNaps(c: Config, x: Core, y: Core, j: nat, q: Producer)
    requires Shape(c, x) && Shape(c, y) && SameSlots(x, y) && PcShape(c, q.pc)
    requires Naps(c, j, q, x)
    ensures Naps(c, j, q, y)
  {
  }

  // ---------------------------------------------------------------- take

  lemma TakeCore(c: Config, x: Core, i: nat, k: nat)
    requires CoreInv(c, x) && k < c.segs && k !in x.mem.inUse
    ensures CoreInv(c, TakeBit(x, i, k))
  {
    hide Fronts, Ordered, Placed, Slots, Logged, Delivered, Flagged, Owed;
    var y := TakeBit(x, i, k);
    forall j | 0 <= j < |y.g.chain| - 1
      ensures LinkOk(c, y, y.g.chain[j])
    {
      assert LinkOk(c, x, x.g.chain[j]);
    }
    KeepCore(c, x, y);
  }

  lemma TakeActor(c: Config, x: Core, i: nat, p: Producer, w: Word, k: nat)
    requires CoreInv(c, x) && Local(c, i, p, x) && p.pc == Take(w, k) && k !in x.mem.inUse
    ensures Local(c, i, p.(pc := SealLoad(w, k)), TakeBit(x, i, k))
  {
    hide Fronts, Ordered, Placed, Slots, Logged, Delivered, Flagged, Owed, Placement, Holding, Counted;
  }

  lemma TakeOther(c: Config, x: Core, i: nat, k: nat, j: nat, q: Producer)
    requires CoreInv(c, x) && Local(c, j, q, x) && i != j && k !in x.mem.inUse
    ensures Local(c, j, q, TakeBit(x, i, k))
  {
    hide Chained, Fronts, Ordered, Placed, Slots, Logged, Delivered, Flagged, Owed, Placement, Holding, Counted, Sealed,
         RingLocal, Naps, Wakes;
    KeepOther(c, x, TakeBit(x, i, k), j, q);
  }

  // ---------------------------------------------------------------- clear and restore

  /** A store to the seal of a segment the producer took. */
  ghost predicate OwnSeal(c: Config, x: Core, i: nat, k: nat, v: Seal) {
    && CoreInv(c, x)
    && k in x.g.held
    && x.g.held[k] == i
    && k < c.segs
    && !v.moved
  }

  lemma SealCore(c: Config, x: Core, i: nat, k: nat, v: Seal)
    requires OwnSeal(c, x, i, k, v)
    ensures CoreInv(c, StoreSeal(x, k, v))
  {
    hide Fronts, Ordered, Placed, Slots, Logged, Delivered, Flagged, Owed;
    var y := StoreSeal(x, k, v);
    forall j | 0 <= j < |y.g.chain| - 1
      ensures LinkOk(c, y, y.g.chain[j])
    {
      assert LinkOk(c, x, x.g.chain[j]);
    }
    KeepCore(c, x, y);
  }

  lemma ClearActor(c: Config, x: Core, i: nat, p: Producer, w: Word, k: nat, start: nat)
    requires CoreInv(c, x) && Local(c, i, p, x) && p.pc == SealClear(w, k, start)
    ensures OwnSeal(c, x, i, k, ClearSeal)
    ensures var y := StoreSeal(x, k, ClearSeal); Shape(c, y) && Local(c, i, p.(pc := Move(w, k, start)), y)
  {
    hide Chained, Fronts, Ordered, Placed, Slots, Logged, Delivered, Flagged, Owed, Placement, Holding, Counted, Sealed;
  }

  lemma RestoreActor(c: Config, x: Core, i: nat, p: Producer, k: nat, start: nat)
    requires CoreInv(c, x) && Local(c, i, p, x) && p.pc == SealRestore(k, start)
    ensures OwnSeal(c, x, i, k, Seal(false, 0, start))
    ensures var y := StoreSeal(x, k, Seal(false, 0, start)); Shape(c, y) && Local(c, i, p.(pc := BitClear(k)), y)
  {
    hide Chained, Fronts, Ordered, Placed, Slots, Logged, Delivered, Flagged, Owed, Placement, Holding, Counted, Sealed;
  }

  lemma SealOther(c: Config, x: Core, i: nat, k: nat, v: Seal, j: nat, q: Producer)
    requires OwnSeal(c, x, i, k, v) && Local(c, j, q, x) && i != j
    ensures var y := StoreSeal(x, k, v); Shape(c, y) && Local(c, j, q, y)
  {
    hide Chained, Fronts, Ordered, Placed, Slots, Logged, Delivered, Flagged, Owed, Placement, Holding, Counted, Sealed,
         RingLocal, Naps, Wakes;
    KeepOther(c, x, StoreSeal(x, k, v), j, q);
  }

  // ---------------------------------------------------------------- move

  ghost predicate Moving(c: Config, x: Core, y: Core, i: nat, w: Word, k: nat, start: nat) {
    && Plain(c)
    && CoreInv(c, x)
    && w.seg < c.segs
    && k < c.segs
    && x.mem.claim == w
    && k in x.g.held
    && x.g.held[k] == i
    && start == x.g.cl[k]
    && x.mem.seals[k] == ClearSeal
    && i !in x.g.lag
    && y == MoveRing(c, x, i, w, k, start)
    && Shape(c, y)
  }

  lemma MoveChain(c: Config, x: Core, y: Core, i: nat, w: Word, k: nat, start: nat)
    requires Moving(c, x, y, i, w, k, start)
    ensures Chained(c, y) && Fronts(c, y) && Bits(c, y)
  {
    hide Ordered, Placed, Slots, Logged, Delivered, Flagged, Owed, Placement, Holding, Counted, Sealed;
  }

  lemma MoveOrder(c: Config, x: Core, y: Core, i: nat, w: Word, k: nat, start: nat)
    requires Moving(c, x, y, i, w, k, start) && Chained(c, y)
    ensures Ordered(c, y)
  {
    hide Placed, Slots, Logged, Delivered, Flagged, Owed, Placement, Holding, Counted, Sealed;
  }

  lemma MovePlaces(c: Config, x: Core, y: Core, i: nat, w: Word, k: nat, start: nat)
    requires Moving(c, x, y, i, w, k, start)
    ensures Placed(c, y) && Slots(c, y)
  {
    hide Chained, Ordered, Logged, Delivered, Flagged, Owed, Placement, Holding, Counted, Sealed;
    forall n | y.g.head <= n < |y.g.log|
      ensures EntryPlaced(c, y, n)
    {
      assert EntryPlaced(c, x, n);
    }
    forall j, p | 0 <= j < c.segs && y.g.rd[j] <= p < y.g.rd[j] + c.depth
      ensures SlotOk(c, y, j, p)
    {
      assert SlotOk(c, x, j, p);
    }
  }

  lemma MoveSeals(c: Config, x: Core, y: Core, i: nat, w: Word, k: nat, start: nat)
    requires Moving(c, x, y, i, w, k, start) && Chained(c, y)
    ensures Sealed(c, y)
  {
    hide Placed, Slots, Logged, Delivered, Flagged, Owed, Placement, Holding, Counted, Ordered, Fronts;
    forall j | 0 <= j < |y.g.chain| - 1
      ensures LinkOk(c, y, y.g.chain[j])
    {
      if j < |x.g.chain| - 1 {
        assert LinkOk(c, x, x.g.chain[j]);
      }
    }
  }

  lemma MoveCons(c: Config, x: Core, y: Core, i: nat, w: Word, k: nat, start: nat)
    requires Moving(c, x, y, i, w, k, start)
    ensures Placement(c, y) && Holding(c, y) && Flagged(y) && Owed(y) && Counted(y) && Logged(y) && Delivered(y)
  {
    hide Placed, Slots, Ordered, Fronts, Sealed;
  }

  lemma MoveCore(c: Config, x: Core, y: Core, i: nat, w: Word, k: nat, start: nat)
    requires Moving(c, x, y, i, w, k, start)
    ensures CoreInv(c, y)
  {
    hide CoreInv, Chained, Fronts, Ordered, Placed, Slots, Sealed, Bits, Logged, Delivered, Placement, Holding,
         Flagged, Owed, Counted;
    MoveChain(c, x, y, i, w, k, start);
    MoveOrder(c, x, y, i, w, k, start);
    MovePlaces(c, x, y, i, w, k, start);
    MoveSeals(c, x, y, i, w, k, start);
    MoveCons(c, x, y, i, w, k, start);
    MakeCore(c, y);
  }

  lemma MakeCore(c: Config, y: Core)
    requires Shape(c, y) && Chained(c, y) && Fronts(c, y) && Ordered(c, y) && Placed(c, y) && Slots(c, y)
    requires Sealed(c, y) && Bits(c, y) && Logged(y) && Delivered(y) && Placement(c, y) && Holding(c, y)
    requires Flagged(y) && Owed(y) && Counted(y)
    ensures CoreInv(c, y)
  {
  }

  lemma MoveActor(c: Config, x: Core, y: Core, i: nat, p: Producer, w: Word, k: nat, start: nat)
    requires Moving(c, x, y, i, w, k, start)
    requires Local(c, i, p, x) && p.pc == Move(w, k, start)
    ensures Local(c, i, p.(pc := SealStore(w, k)), y)
  {
    hide Fronts, Ordered, Placed, Slots, Logged, Delivered, Flagged, Owed, Placement, Holding, Counted, Sealed;
  }

  lemma MoveOther(c: Config, x: Core, y: Core, i: nat, w: Word, k: nat, start: nat, j: nat, q: Producer)
    requires Moving(c, x, y, i, w, k, start)
    requires Local(c, j, q, x) && i != j
    ensures Local(c, j, q, y)
  {
    hide Fronts, Ordered, Placed, Slots, Logged, Delivered, Flagged, Owed, Holding, Counted, RingLocal, Naps, Wakes;
    KeepOther(c, x, y, j, q);
  }

  // ---------------------------------------------------------------- seal the old segment

  ghost predicate Sealing(c: Config, x: Core, y: Core, i: nat, w: Word, k: nat) {
    && CoreInv(c, x)
    && w.seg < c.segs
    && w.seg in x.g.debt
    && x.g.debt[w.seg] == i
    && x.g.nxt[w.seg] == k
    && w.pos == x.g.cl[w.seg]
    && y == SealOld(c, x, w, k)
    && Shape(c, y)
  }

  lemma SealOldCore(c: Config, x: Core, y: Core, i: nat, w: Word, k: nat)
    requires Sealing(c, x, y, i, w, k)
    ensures CoreInv(c, y)
  {
    hide Fronts, Ordered, Placed, Slots, Logged, Delivered, Flagged, Owed;
    forall j | 0 <= j < |y.g.chain| - 1
      ensures LinkOk(c, y, y.g.chain[j])
    {
      assert LinkOk(c, x, x.g.chain[j]);
    }
    KeepCore(c, x, y);
  }

  lemma SealOldActor(c: Config, x: Core, y: Core, i: nat, p: Producer, w: Word, k: nat)
    requires CoreInv(c, x) && Local(c, i, p, x) && p.pc == SealStore(w, k) && y == SealOld(c, x, w, k)
    ensures Sealing(c, x, y, i, w, k) && Local(c, i, p.(pc := CountSwitch), y)
  {
    hide Fronts, Ordered, Placed, Slots, Logged, Delivered, Flagged, Owed, Placement, Holding, Counted, Sealed, Chained;
  }

  lemma SealOldOther(c: Config, x: Core, y: Core, i: nat, w: Word, k: nat, j: nat, q: Producer)
    requires Sealing(c, x, y, i, w, k) && Local(c, j, q, x) && i != j
    ensures Local(c, j, q, y)
  {
    hide Fronts, Ordered, Placed, Slots, Logged, Delivered, Flagged, Owed, Placement, Holding, Counted, Chained,
         RingLocal, Naps, Wakes;
    KeepOther(c, x, y, j, q);
  }

  // ---------------------------------------------------------------- count

  lemma CountCore(c: Config, x: Core, i: nat)
    requires CoreInv(c, x) && i in x.g.lag
    ensures CoreInv(c, AddSwitch(x, i))
  {
    hide Chained, Fronts, Ordered, Placed, Slots, Logged, Delivered, Sealed, Bits;
    FrameRing(c, x, AddSwitch(x, i));
  }

  lemma CountActor(c: Config, x: Core, i: nat, p: Producer)
    requires CoreInv(c, x) && Local(c, i, p, x) && p.pc == CountSwitch
    ensures i in x.g.lag && Local(c, i, p.(pc := Load), AddSwitch(x, i))
  {
    hide Chained, Fronts, Ordered, Placed, Slots, Logged, Delivered, Sealed, Bits, Placement, Holding, Flagged, Owed;
  }

  lemma CountOther(c: Config, x: Core, i: nat, j: nat, q: Producer)
    requires CoreInv(c, x) && Local(c, j, q, x) && i != j
    ensures Local(c, j, q, AddSwitch(x, i))
  {
    hide Chained, Fronts, Ordered, Placed, Slots, Logged, Delivered, Sealed, Bits, Placement, Holding, Flagged, Owed,
         RingLocal, Naps;
    FrameLocal(c, x, AddSwitch(x, i), j, q);
    FrameNaps(c, x, AddSwitch(x, i), j, q);
  }

  // ---------------------------------------------------------------- put back

  lemma PutBackCore(c: Config, x: Core, i: nat, k: nat)
    requires CoreInv(c, x) && k in x.g.held && x.g.held[k] == i && k < c.segs && x.mem.seals[k].pos == x.g.cl[k]
    ensures CoreInv(c, PutBack(x, k))
  {
    hide Fronts, Ordered, Placed, Slots, Logged, Delivered, Flagged, Owed;
    var y := PutBack(x, k);
    forall j | 0 <= j < |y.g.chain| - 1
      ensures LinkOk(c, y, y.g.chain[j])
    {
      assert LinkOk(c, x, x.g.chain[j]);
    }
    KeepCore(c, x, y);
  }

  lemma PutBackActor(c: Config, x: Core, i: nat, p: Producer, k: nat)
    requires CoreInv(c, x) && Local(c, i, p, x) && p.pc == BitClear(k)
    ensures k in x.g.held && x.g.held[k] == i && x.mem.seals[k].pos == x.g.cl[k]
    ensures Local(c, i, p.(pc := Load), PutBack(x, k))
  {
    hide Chained, Fronts, Ordered, Placed, Slots, Logged, Delivered, Sealed, Bits, Placement, Holding, Flagged, Owed;
  }

  lemma PutBackOther(c: Config, x: Core, i: nat, k: nat, j: nat, q: Producer)
    requires CoreInv(c, x) && Local(c, j, q, x) && i != j && k in x.g.held && x.g.held[k] == i
    ensures Local(c, j, q, PutBack(x, k))
  {
    hide Chained, Fronts, Ordered, Placed, Slots, Logged, Delivered, Sealed, Placement, Holding, Flagged, Owed,
         RingLocal, Naps, Wakes;
    KeepOther(c, x, PutBack(x, k), j, q);
  }
}
