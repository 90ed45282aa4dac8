/** A won claim CAS keeps the invariant. */
module ClaimProofs {
  import opened Machine
  import opened Invariant
  import opened LogFacts

  ghost predicate Claim(c: Config, x: Core, y: Core, i: nat, n: nat, w: Word) {
    && Plain(c)
    && Shape(c, x)
    && w.seg < c.segs
    && x.mem.claim == w
    && w.pos < x.g.rd[w.seg] + c.depth
    && y == ClaimSlot(c, x, i, n, w)
    && Shape(c, y)
  }

  lemma ClaimChain(c: Config, x: Core, y: Core, i: nat, n: nat, w: Word)
    requires Claim(c, x, y, i, n, w)
    requires Chained(c, x) && Fronts(c, x)
    ensures Chained(c, y) && Fronts(c, y)
  {
  }

  lemma ClaimOrder(c: Config, x: Core, y: Core, i: nat, n: nat, w: Word)
    requires Claim(c, x, y, i, n, w)
    requires Chained(c, x) && Fronts(c, x) && Ordered(c, x)
    ensures Chained(c, y) && Ordered(c, y)
  {
  }

  lemma ClaimPlaces(c: Config, x: Core, y: Core, i: nat, n: nat, w: Word)
    requires Claim(c, x, y, i, n, w)
    requires Chained(c, x) && Fronts(c, x) && Ordered(c, x) && Placed(c, x)
    ensures Placed(c, y)
  {
    forall a | y.g.head <= a < |y.g.log|
      ensures EntryPlaced(c, y, a)
    {
      if a < |x.g.log| {
        assert EntryPlaced(c, x, a);
      }
    }
  }

  lemma ClaimSlots(c: Config, x: Core, y: Core, i: nat, n: nat, w: Word)
    requires Claim(c, x, y, i, n, w)
    requires Chained(c, x) && Fronts(c, x) && Ordered(c, x) && Slots(c, x)
    ensures Slots(c, y)
  {
    hide Chained, Ordered;
    forall k, p | 0 <= k < c.segs && y.g.rd[k] <= p < y.g.rd[k] + c.depth
      ensures SlotOk(c, y, k, p)
    {
      assert SlotOk(c, x, k, p);
      ClaimSlotOk(c, x, y, i, n, w, k, p);
    }
  }

  lemma ClaimSlotOk(c: Config, x: Core, y: Core, i: nat, n: nat, w: Word, k: nat, p: nat)
    requires Claim(c, x, y, i, n, w) && Chained(c, x) && Ordered(c, x)
    requires k < c.segs && x.g.rd[k] <= p < x.g.rd[k] + c.depth && SlotOk(c, x, k, p)
    ensures SlotOk(c, y, k, p)
  {
  }

  lemma ClaimSeals(c: Config, x: Core, y: Core, i: nat, n: nat, w: Word)
    requires Claim(c, x, y, i, n, w)
    requires Chained(c, x) && Chained(c, y) && Sealed(c, x) && Bits(c, x) && Counted(x)
    ensures Sealed(c, y) && Bits(c, y) && Counted(y)
  {
    forall j | 0 <= j < |y.g.chain| - 1
      ensures LinkOk(c, y, y.g.chain[j])
    {
      assert LinkOk(c, x, x.g.chain[j]);
    }
  }

  lemma ClaimLog(c: Config, x: Core, y: Core, i: nat, n: nat, w: Word)
    requires Claim(c, x, y, i, n, w)
    requires Logged(x) && Delivered(x)
    requires forall a :: 0 <= a < |x.g.log| && x.g.log[a].msg.pid == i ==> x.g.log[a].msg.n < n
    ensures Logged(y) && Delivered(y)
  {
    LiveFrame(x.g.log, y.g.log, x.g.head);
  }

  lemma ClaimCons(c: Config, x: Core, y: Core, i: nat, n: nat, w: Word)
    requires Claim(c, x, y, i, n, w)
    requires Chained(c, x) && Sealed(c, x) && Logged(x) && Placement(c, x)
    requires Holding(c, x) && Flagged(x) && Owed(x) && i !in x.g.wakers
    ensures Placement(c, y) && Holding(c, y) && Flagged(y) && Owed(y)
  {
  }

  lemma ClaimActor(c: Config, x: Core, y: Core, i: nat, p: Producer, w: Word)
    requires Claim(c, x, y, i, p.n, w)
    requires CoreInv(c, x) && Local(c, i, p, x) && p.pc == Cas(w)
    ensures Local(c, i, p.(pc := Fill(w)), y)
  {
  }

  lemma ClaimOther(c: Config, x: Core, y: Core, i: nat, n: nat, w: Word, j: nat, q: Producer)
    requires Claim(c, x, y, i, n, w) && j != i
    requires CoreInv(c, x) && Local(c, j, q, x)
    ensures PcShape(c, q.pc) && Sends(c, q, y) && Keeps(c, j, q, y) && Owes(c, j, q, y)
  {
    hide Ordered, Placed, Slots, Logged, Delivered, Placement, Holding, Owed, Counted;
  }

  lemma ClaimOtherFills(c: Config, x: Core, y: Core, i: nat, n: nat, w: Word, j: nat, q: Producer)
    requires Claim(c, x, y, i, n, w) && j != i
    requires Chained(c, x) && PcShape(c, q.pc)
    requires Owns(c, j, q, x) && Numbers(j, q, x) && Wakes(c, j, q, x)
    ensures Owns(c, j, q, y) && Numbers(j, q, y) && Wakes(c, j, q, y)
  {
  }

  lemma ClaimOtherNaps(c: Config, x: Core, y: Core, i: nat, n: nat, w: Word, j: nat, q: Producer)
    requires Claim(c, x, y, i, n, w)
    requires CoreInv(c, x) && PcShape(c, q.pc) && Naps(c, j, q, x)
    ensures Naps(c, j, q, y)
  {
    hide Ordered, Placed, Slots, Sealed, Bits, Delivered, Owed, Counted;
  }
}
