/** The fill, the commit, the tombstone and the wake of the consumer keep the invariant. */
module CommitProofs {
  import opened Laps
  import opened Machine
  import opened Invariant
  import opened LogFacts
  import opened Frames

  /** A producer at a slot it claimed. */
  ghost predicate AtSlot(c: Config, x: Core, i: nat, p: Producer) {
    && Plain(c)
    && CoreInv(c, x)
    && Local(c, i, p, x)
    && Fills(p.pc)
  }

  // ---------------------------------------------------------------- fill

  lemma WriteSlots(c: Config, x: Core, i: nat, p: Producer, v: Msg)
    requires AtSlot(c, x, i, p)
    ensures var y := WriteBody(c, x, p.pc.w, v); Shape(c, y) && Slots(c, y)
  {
    hide Sealed, Bits, Delivered, Placement, Owed, Counted, Flagged, Logged, Holding, Ordered, Placed;
    var w := p.pc.w;
    var y := WriteBody(c, x, w, v);
    WindowSlotsDiffer(x.g.rd[w.seg], c.depth);
    forall k, q | 0 <= k < c.segs && y.g.rd[k] <= q < y.g.rd[k] + c.depth
      ensures SlotOk(c, y, k, q)
    {
      assert SlotOk(c, x, k, q);
    }
  }

  lemma WriteCore(c: Config, x: Core, i: nat, p: Producer, v: Msg)
    requires AtSlot(c, x, i, p)
    ensures CoreInv(c, WriteBody(c, x, p.pc.w, v))
  {
    var y := WriteBody(c, x, p.pc.w, v);
    WriteSlots(c, x, i, p, v);
    hide Chained, Fronts, Ordered, Placed, Slots, Sealed, Bits, Placement, Holding, Flagged, Owed, Counted,
         RingLocal, Wakes, Naps;
    FrameLayout(c, x, y);
    FramePlaced(c, x, y);
    FrameCons(c, x, y);
  }

  lemma WriteActor(c: Config, x: Core, i: nat, p: Producer, v: Msg)
    requires AtSlot(c, x, i, p) && p.pc.Fill?
    ensures var y := WriteBody(c, x, p.pc.w, v); Shape(c, y) && Local(c, i, p, y)
    ensures v == Msg(i, p.n) ==>
      var y := WriteBody(c, x, p.pc.w, v); Shape(c, y) && Local(c, i, p.(pc := Commit(p.pc.w)), y)
  {
    hide Chained, Fronts, Ordered, Placed, Slots, Sealed, Bits, Logged, Delivered, Placement, Holding, Owed;
  }

  lemma WriteOther(c: Config, x: Core, i: nat, p: Producer, v: Msg, j: nat, q: Producer)
    requires AtSlot(c, x, i, p) && i != j && Local(c, j, q, x)
    ensures var y := WriteBody(c, x, p.pc.w, v); Shape(c, y) && Local(c, j, q, y)
  {
    hide Chained, Ordered, Placed, Slots, Sealed, Bits, Logged, Delivered, Placement, Holding, Owed;
    WindowSlotsDiffer(x.g.rd[p.pc.w.seg], c.depth);
  }

  // ---------------------------------------------------------------- commit and tombstone

  ghost predicate Committing(c: Config, x: Core, y: Core, i: nat, p: Producer, fate: Fate) {
    && AtSlot(c, x, i, p)
    && (fate == Committed <==> p.pc.Commit?)
    && (fate == Dead <==> p.pc.Tomb?)
    && (fate == Filling <==> p.pc.Fill?)
    && !p.pc.Fill?
    && y == CommitSlot(c, x, p.pc.w, EntryOf(c, x.g, i, p.n), fate)
  }

  /** The claim's log entry is the one its position names. */
  lemma CommitEntry(c: Config, x: Core, y: Core, i: nat, p: Producer, fate: Fate)
    requires Committing(c, x, y, i, p, fate)
    ensures var idx := x.g.off[p.pc.w.seg] + p.pc.w.pos;
      && x.g.head <= idx < |x.g.log|
      && x.g.log[idx].fate == Filling
      && EntryOf(c, x.g, i, p.n) == idx
      && y.g == x.g.(log := x.g.log[idx := x.g.log[idx].(fate := fate)])
      && Shape(c, y)
  {
    hide Chained, Ordered, Placed, Slots, Sealed, Bits, Delivered, Placement, Holding, Owed;
    EntryIs(c, x, i, p.n, x.g.off[p.pc.w.seg] + p.pc.w.pos);
  }

  lemma CommitSlots(c: Config, x: Core, y: Core, i: nat, p: Producer, fate: Fate)
    requires Committing(c, x, y, i, p, fate)
    ensures Slots(c, y)
  {
    CommitEntry(c, x, y, i, p, fate);
    var w := p.pc.w;
    WindowSlotsDiffer(x.g.rd[w.seg], c.depth);
    forall k, q | 0 <= k < c.segs && y.g.rd[k] <= q < y.g.rd[k] + c.depth
      ensures SlotOk(c, y, k, q)
    {
      assert SlotOk(c, x, k, q);
      if q < x.g.cl[k] {
        PlaceOf(c, x, k, q);
      }
      CommitOneSlot(c, x, y, i, p, fate, k, q);
    }
  }

  lemma CommitOneSlot(c: Config, x: Core, y: Core, i: nat, p: Producer, fate: Fate, k: nat, q: nat)
    requires Committing(c, x, y, i, p, fate)
    requires Shape(c, y)
    requires k < c.segs && x.g.rd[k] <= q < x.g.rd[k] + c.depth && SlotOk(c, x, k, q)
    requires var w := p.pc.w; k != w.seg || q == w.pos || Slot(q, c.depth) != Slot(w.pos, c.depth)
    requires y.g == x.g.(log := x.g.log[x.g.off[p.pc.w.seg] + p.pc.w.pos :=
               x.g.log[x.g.off[p.pc.w.seg] + p.pc.w.pos].(fate := fate)])
    requires q < x.g.cl[k] ==>
      && 0 <= x.g.off[k] + q < |x.g.log|
      && x.g.log[x.g.off[k] + q].seg == k
      && x.g.log[x.g.off[k] + q].pos == q
    ensures SlotOk(c, y, k, q)
  {
    hide Chained, Fronts, Ordered, Placed, Slots, Sealed, Bits, Delivered, Placement, Holding, Flagged, Owed, Counted,
         Logged, Naps, Keeps, Owes, Numbers, Wakes, Sends, Lags, EntryOf, Live;
  }

  lemma CommitLog(c: Config, x: Core, y: Core, i: nat, p: Producer, fate: Fate)
    requires Committing(c, x, y, i, p, fate)
    ensures Placed(c, y) && Logged(y) && Delivered(y)
  {
    hide Chained, Ordered, Slots, Sealed, Bits, Placement, Holding, Flagged, Owed, Counted, Naps, Keeps,
         Owes, Numbers, Wakes, Sends, Placed, Fronts;
    CommitEntry(c, x, y, i, p, fate);
    LiveFrame(x.g.log, y.g.log, x.g.head);
    FramePlaced(c, x, y);
  }

  lemma CommitCore(c: Config, x: Core, y: Core, i: nat, p: Producer, fate: Fate)
    requires Committing(c, x, y, i, p, fate)
    ensures CoreInv(c, y)
  {
    hide Chained, Fronts, Ordered, Slots, Sealed, Bits, Placed, Logged, Delivered, Placement, Holding, Flagged,
         Owed, Counted, Committing, SameLayout;
    CommitEntry(c, x, y, i, p, fate);
    CommitSlots(c, x, y, i, p, fate);
    CommitLog(c, x, y, i, p, fate);
    CommitIs(c, x, y, i, p, fate);
    FrameLayout(c, x, y);
    FrameCons(c, x, y);
  }

  lemma CommitIs(c: Config, x: Core, y: Core, i: nat, p: Producer, fate: Fate)
    requires Committing(c, x, y, i, p, fate)
    ensures CoreInv(c, x) && SameLayout(x, y) && y.cons == x.cons && y.mem == x.mem.(seqs := y.mem.seqs)
  {
    hide Chained, Fronts, Ordered, Slots, Sealed, Bits, Placed, Logged, Delivered, Placement, Holding, Flagged,
         Owed, Counted, EntryOf;
  }

  /** The producer has no other claim being filled. */
  lemma CommitSettles(c: Config, x: Core, y: Core, i: nat, p: Producer, fate: Fate)
    requires Committing(c, x, y, i, p, fate)
    ensures forall n :: 0 <= n < |y.g.log| && y.g.log[n].msg.pid == i ==>
      y.g.log[n].fate != Filling && y.g.log[n].msg.n <= p.n
  {
    CommitEntry(c, x, y, i, p, fate);
    hide Chained, Fronts, Ordered, Slots, Sealed, Bits, Placed, Delivered, Placement, Holding, Flagged,
         Owed, Counted, Wakes, Naps, Sends, Keeps, Owes;
  }

  lemma CommitActor(c: Config, x: Core, y: Core, i: nat, p: Producer, fate: Fate, pc: Pc)
    requires Committing(c, x, y, i, p, fate)
    requires pc == if fate == Committed && c.wakes && p.pc.w.waiting then WakeConsumer(p.pc.w) else Idle
    ensures Shape(c, y) && Local(c, i, p.(pc := pc), y)
  {
    CommitSettles(c, x, y, i, p, fate);
    CommitLayout(c, x, y, i, p, fate);
    hide *;
    DoneLocal(c, x, y, i, p, pc);
  }

  /** A producer past its seq store keeps its promises. */
  lemma DoneLocal(c: Config, x: Core, y: Core, i: nat, p: Producer, pc: Pc)
    requires Shape(c, x) && Shape(c, y) && SameLayout(x, y)
    requires x.mem.wake == y.mem.wake && x.cons == y.cons && y.g == x.g.(log := y.g.log)
    requires Local(c, i, p, x) && Fills(p.pc) && !p.pc.Fill? && !(c.tombs && c.wakes)
    requires forall n :: 0 <= n < |y.g.log| && y.g.log[n].msg.pid == i ==>
      y.g.log[n].fate != Filling && y.g.log[n].msg.n <= p.n
    requires pc == if p.pc.Commit? && c.wakes && p.pc.w.waiting then WakeConsumer(p.pc.w) else Idle
    ensures Local(c, i, p.(pc := pc), y)
  {
  }

  lemma CommitOther(c: Config, x: Core, y: Core, i: nat, p: Producer, fate: Fate, j: nat, q: Producer)
    requires Committing(c, x, y, i, p, fate) && i != j && Local(c, j, q, x)
    ensures Shape(c, y) && Local(c, j, q, y)
  {
    CommitEntry(c, x, y, i, p, fate);
    CommitLayout(c, x, y, i, p, fate);
    hide CoreInv, AtSlot, RingLocal, Naps;
    FrameLocal(c, x, y, j, q);
    FrameNaps(c, x, y, j, q);
  }

  lemma CommitLayout(c: Config, x: Core, y: Core, i: nat, p: Producer, fate: Fate)
    requires Committing(c, x, y, i, p, fate)
    ensures Shape(c, x) && Shape(c, y) && SameLayout(x, y)
    ensures x.mem.bodies == y.mem.bodies && x.mem.wake == y.mem.wake && x.cons == y.cons
    ensures y.g == x.g.(log := y.g.log)
    ensures forall n :: 0 <= n < |x.g.log| ==> y.g.log[n] == x.g.log[n].(fate := y.g.log[n].fate)
    ensures forall n :: 0 <= n < |x.g.log| && x.g.log[n].msg.pid != i ==> y.g.log[n] == x.g.log[n]
  {
    CommitEntry(c, x, y, i, p, fate);
    hide Chained, Fronts, Ordered, Slots, Sealed, Bits, Placed, Logged, Delivered, Placement, Holding, Flagged,
         Owed, Counted, Wakes, Naps;
  }

  // ---------------------------------------------------------------- wake

  lemma RouseCore(c: Config, x: Core, i: nat)
    requires CoreInv(c, x)
    ensures CoreInv(c, Rouse(x, i))
  {
    hide Chained, Fronts, Ordered, Slots, Sealed, Bits, Placed, Logged, Delivered;
    FrameRing(c, x, Rouse(x, i));
  }

  lemma RouseActor(c: Config, x: Core, i: nat, p: Producer)
    requires CoreInv(c, x) && Local(c, i, p, x) && p.pc.WakeConsumer?
    ensures Shape(c, Rouse(x, i)) && Local(c, i, p.(pc := Idle), Rouse(x, i))
  {
    hide Chained, Fronts, Ordered, Slots, Sealed, Bits, Counted, Placed, Logged, Delivered, Placement, Holding,
         Owed, Flagged;
  }

  lemma RouseOther(c: Config, x: Core, i: nat, j: nat, q: Producer)
    requires CoreInv(c, x) && Local(c, j, q, x) && i != j
    ensures Shape(c, Rouse(x, i)) && Local(c, j, q, Rouse(x, i))
  {
    hide Chained, Fronts, Ordered, Slots, Sealed, Bits, Counted, Placed, Logged, Delivered, Placement, Holding,
         Owed, Flagged;
    FrameLocal(c, x, Rouse(x, i), j, q);
  }
}
