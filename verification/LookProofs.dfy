/** The producer's loads, and its way to sleep: steps that write no word of the ring. */
module LookProofs {
  import opened Laps
  import opened Machine
  import opened Invariant
  import opened Frames

  // ---------------------------------------------------------------- what the slots show

  /** A slot word read at a claim word's position is claimable only inside the window. */
  lemma SlotInWindow(c: Config, x: Core, k: nat, p: nat)
    requires Plain(c) && Shape(c, x) && Fronts(c, x) && Slots(c, x)
    requires k < c.segs && p <= x.g.cl[k] && SeqAt(c, x.mem, k, p) == Claimable(p)
    ensures p < x.g.rd[k] + c.depth
  {
    assert SlotOk(c, x, k, x.g.rd[k]);
    assert Slot(x.g.rd[k] + c.depth, c.depth) == Slot(x.g.rd[k], c.depth);
  }

  /** A slot word at the claim frontier that is not claimable means a full segment. */
  lemma SlotShowsFull(c: Config, x: Core, k: nat)
    requires Plain(c) && Shape(c, x) && Fronts(c, x) && Slots(c, x)
    requires k < c.segs && SeqAt(c, x.mem, k, x.g.cl[k]) != Claimable(x.g.cl[k])
    ensures x.g.cl[k] == x.g.rd[k] + c.depth
  {
    assert x.g.cl[k] < x.g.rd[k] + c.depth ==> SlotOk(c, x, k, x.g.cl[k]);
  }

  /** Where the claim word names the consumer's place, everything claimed is released. */
  lemma EmptyHere(c: Config, x: Core)
    requires Plain(c) && CoreInv(c, x) && Present(x.cons.pc) && !x.cons.pc.Store? && AtConsumer(x)
    ensures x.g.head == |x.g.log|
  {
    hide Placed, Slots, Sealed, Bits, Logged, Delivered, Holding, Flagged, Owed, Counted;
  }

  /** With everything claimed released, every segment is empty and the slot at its claim frontier claimable. */
  lemma EmptyThere(c: Config, x: Core, k: nat)
    requires Plain(c) && CoreInv(c, x) && x.g.head == |x.g.log| && k < c.segs
    ensures x.g.rd[k] == x.g.cl[k] && SeqAt(c, x.mem, k, x.g.cl[k]) == Claimable(x.g.cl[k])
  {
    hide Placed, Sealed, Bits, Logged, Delivered, Placement, Holding, Flagged, Owed, Counted;
    if k in x.g.chain {
      var j :| 0 <= j < |x.g.chain| && x.g.chain[j] == k;
    }
    assert SlotOk(c, x, k, x.g.cl[k]);
  }

  // ---------------------------------------------------------------- the send's loads

  /** A producer between a send's steps: not filling, not counted in, holding nothing. */
  predicate Free(pc: Pc) {
    || pc.Load? || pc.Look? || pc.Cas? || pc.Reread? || pc.FreeLoad? || pc.Take? || pc.Full?
    || pc.CountIn?
  }

  /** Between such places a producer moves freely, as far as the rest of the ring goes. */
  lemma FreeMove(c: Config, x: Core, i: nat, p: Producer, q: Producer)
    requires Shape(c, x) && Local(c, i, p, x) && Free(p.pc)
    requires q.n == p.n && Free(q.pc) && PcShape(c, q.pc) && Sends(c, q, x)
    requires q.pc.CountIn? ==> c.wakes
    ensures Local(c, i, q, x)
  {
    FreeMoveNaps(c, x, i, p, q);
    hide Naps, Sends;
  }

  lemma FreeMoveNaps(c: Config, x: Core, i: nat, p: Producer, q: Producer)
    requires Shape(c, x) && Local(c, i, p, x) && Free(p.pc) && Free(q.pc) && PcShape(c, q.pc)
    requires q.pc.CountIn? ==> c.wakes
    ensures Naps(c, i, q, x)
  {
    hide RingLocal, Lags, Wakes;
  }

  lemma BeginSend(c: Config, x: Core, i: nat, p: Producer)
    requires Shape(c, x) && Local(c, i, p, x) && p.pc == Idle
    ensures Local(c, i, p.(n := p.n + 1, pc := Load), x)
  {
  }

  lemma EndSend(c: Config, x: Core, i: nat, p: Producer)
    requires Shape(c, x) && Local(c, i, p, x) && (p.pc.Full? || p.pc.Look?)
    ensures Local(c, i, p.(pc := Idle), x)
  {
  }

  /** A freshly loaded claim word is at the claim frontier. */
  lemma LoadClaim(c: Config, x: Core, i: nat, p: Producer)
    requires Plain(c) && CoreInv(c, x) && Local(c, i, p, x) && Free(p.pc)
    ensures Local(c, i, p.(pc := Look(x.mem.claim)), x)
  {
    hide Fronts, Ordered, Placed, Slots, Sealed, Bits, Logged, Delivered, Placement, Holding, Flagged, Owed, Counted,
         Keeps, Owes, Owns, Numbers, Wakes, Naps;
    FreeMove(c, x, i, p, p.(pc := Look(x.mem.claim)));
  }

  lemma SeeClaimable(c: Config, x: Core, i: nat, p: Producer, w: Word)
    requires Plain(c) && CoreInv(c, x) && Local(c, i, p, x) && p.pc == Look(w) && w.seg < c.segs
    requires SeqAt(c, x.mem, w.seg, w.pos) == Claimable(w.pos)
    ensures Local(c, i, p.(pc := Cas(w)), x)
  {
    SlotInWindow(c, x, w.seg, w.pos);
    hide Chained, Fronts, Ordered, Placed, Slots, Sealed, Bits, Logged, Delivered, Placement, Holding, Flagged, Owed,
         Counted, Keeps, Owes, Owns, Numbers, Wakes, Naps;
    FreeMove(c, x, i, p, p.(pc := Cas(w)));
  }

  lemma SeeTaken(c: Config, x: Core, i: nat, p: Producer, w: Word)
    requires Plain(c) && CoreInv(c, x) && Local(c, i, p, x) && p.pc == Look(w) && w.seg < c.segs
    requires SeqAt(c, x.mem, w.seg, w.pos) != Claimable(w.pos)
    ensures Local(c, i, p.(pc := Reread(w), snap := Snap(w.seg, x.g.cl[w.seg], x.g.rd[w.seg])), x)
  {
    if w.pos == x.g.cl[w.seg] {
      SlotShowsFull(c, x, w.seg);
    }
    hide Chained, Fronts, Ordered, Placed, Slots, Sealed, Bits, Logged, Delivered, Placement, Holding, Flagged, Owed,
         Counted, Keeps, Owes, Owns, Numbers, Wakes, Naps;
    FreeMove(c, x, i, p, p.(pc := Reread(w), snap := Snap(w.seg, x.g.cl[w.seg], x.g.rd[w.seg])));
  }

  /** A claim word that has not changed since the look: its segment was full at the look. */
  lemma SameWord(c: Config, x: Core, i: nat, p: Producer, w: Word)
    requires Plain(c) && CoreInv(c, x) && Local(c, i, p, x) && p.pc == Reread(w) && x.mem.claim == w
    ensures Local(c, i, p.(pc := FreeLoad(w)), x) && Local(c, i, p.(pc := Full), x)
  {
    hide Fronts, Ordered, Placed, Slots, Sealed, Bits, Logged, Delivered, Placement, Holding, Flagged, Owed, Counted,
         Keeps, Owes, Owns, Numbers, Wakes, Naps;
    FreeMove(c, x, i, p, p.(pc := FreeLoad(w)));
    FreeMove(c, x, i, p, p.(pc := Full));
  }

  lemma SwitchLoads(c: Config, x: Core, i: nat, p: Producer, w: Word, k: nat)
    requires Shape(c, x) && Local(c, i, p, x) && k < c.segs
    ensures p.pc == FreeLoad(w) ==> Local(c, i, p.(pc := Take(w, k)), x) && Local(c, i, p.(pc := Full), x)
    ensures p.pc == Take(w, k) ==> Local(c, i, p.(pc := FreeLoad(w)), x)
    ensures p.pc == Full ==>
      && Local(c, i, p.(pc := Load), x)
      && (c.wakes ==> Local(c, i, p.(pc := CountIn), x))
  {
    hide Keeps, Owes, Owns, Numbers, Wakes, Naps;
    if p.pc == FreeLoad(w) {
      FreeMove(c, x, i, p, p.(pc := Take(w, k)));
      FreeMove(c, x, i, p, p.(pc := Full));
    } else if p.pc == Take(w, k) {
      FreeMove(c, x, i, p, p.(pc := FreeLoad(w)));
    } else if p.pc == Full {
      FreeMove(c, x, i, p, p.(pc := Load));
      if c.wakes {
        FreeMove(c, x, i, p, p.(pc := CountIn));
      }
    }
  }

  lemma SealLoads(c: Config, x: Core, i: nat, p: Producer, w: Word, k: nat)
    requires Shape(c, x) && Local(c, i, p, x) && p.pc == SealLoad(w, k)
    ensures Local(c, i, p.(pc := SealClear(w, k, x.mem.seals[k].pos)), x)
  {
  }

  lemma MoveLost(c: Config, x: Core, i: nat, p: Producer, w: Word, k: nat, start: nat)
    requires Shape(c, x) && Local(c, i, p, x) && p.pc == Move(w, k, start)
    ensures Local(c, i, p.(pc := SealRestore(k, start)), x)
  {
  }

  lemma Unwind(c: Config, x: Core, i: nat, p: Producer, w: Word)
    requires Shape(c, x) && Local(c, i, p, x) && p.pc == Fill(w) && c.tombs
    ensures Local(c, i, p.(pc := Tomb(w)), x)
  {
  }

  // ---------------------------------------------------------------- the way to sleep

  lemma CountInCore(c: Config, x: Core, i: nat, p: Producer)
    requires CoreInv(c, x) && Local(c, i, p, x) && p.pc == CountIn
    ensures CoreInv(c, AddWaiter(x, i)) && Local(c, i, p.(pc := SeenLoad), AddWaiter(x, i))
  {
    hide Chained, Fronts, Ordered, Placed, Slots, Logged, Delivered, Sealed, Bits;
    FrameRing(c, x, AddWaiter(x, i));
    FrameLocal(c, x, AddWaiter(x, i), i, p);
  }

  lemma CountOutCore(c: Config, x: Core, i: nat, p: Producer)
    requires CoreInv(c, x) && Local(c, i, p, x) && p.pc == CountOut
    ensures CoreInv(c, DropWaiter(x, i)) && Local(c, i, p.(pc := Full), DropWaiter(x, i))
  {
    hide Chained, Fronts, Ordered, Placed, Slots, Logged, Delivered, Sealed, Bits;
    FrameRing(c, x, DropWaiter(x, i));
    FrameLocal(c, x, DropWaiter(x, i), i, p);
  }

  lemma CountInOther(c: Config, x: Core, i: nat, j: nat, q: Producer)
    requires CoreInv(c, x) && Local(c, j, q, x) && i != j
    ensures Local(c, j, q, AddWaiter(x, i))
  {
    hide Chained, Fronts, Ordered, Placed, Slots, Logged, Delivered, Sealed, Bits, Placement, Holding, Flagged, Owed,
         RingLocal, Naps;
    FrameLocal(c, x, AddWaiter(x, i), j, q);
    FrameNaps(c, x, AddWaiter(x, i), j, q);
  }

  lemma CountOutOther(c: Config, x: Core, i: nat, j: nat, q: Producer)
    requires CoreInv(c, x) && Local(c, j, q, x) && i != j
    ensures Local(c, j, q, DropWaiter(x, i))
  {
    hide Chained, Fronts, Ordered, Placed, Slots, Logged, Delivered, Sealed, Bits, Placement, Holding, Flagged, Owed,
         RingLocal, Naps;
    FrameLocal(c, x, DropWaiter(x, i), j, q);
    FrameNaps(c, x, DropWaiter(x, i), j, q);
  }

  lemma SeeWake(c: Config, x: Core, i: nat, p: Producer)
    requires Shape(c, x) && Local(c, i, p, x) && p.pc == SeenLoad
    ensures Local(c, i, p.(pc := RoomClaim(x.mem.wake), mark := Mark(x.g.rd, x.g.followed)), x)
  {
  }

  lemma RoomLoad(c: Config, x: Core, i: nat, p: Producer, seen: nat)
    requires Shape(c, x) && Local(c, i, p, x) && p.pc == RoomClaim(seen) && CoreInv(c, x)
    ensures x.mem.claim.seg < c.segs ==> Local(c, i, p.(pc := RoomSeq(seen, x.mem.claim)), x)
  {
    hide Fronts, Ordered, Placed, Slots, Sealed, Bits, Logged, Delivered, Placement, Holding, Flagged, Owed, Counted,
         Unchecked;
  }

  lemma CountsOut(c: Config, x: Core, i: nat, p: Producer)
    requires Shape(c, x) && Local(c, i, p, x) && Sees(p.pc)
    ensures Local(c, i, p.(pc := CountOut), x)
  {
  }

  /** A look that found no claimable slot: the consumer is not settled on an empty ring, or the word looked at
      was behind the claim frontier. */
  lemma NoRoom(c: Config, x: Core, i: nat, p: Producer, seen: nat, r: Word)
    requires Plain(c) && CoreInv(c, x) && Local(c, i, p, x) && p.pc == RoomSeq(seen, r)
    requires SeqAt(c, x.mem, r.seg, r.pos) != Claimable(r.pos)
    ensures Local(c, i, p.(pc := RoomBits(seen)), x) && Local(c, i, p.(pc := Wait(seen)), x)
  {
    if x.g.head == |x.g.log| {
      EmptyThere(c, x, r.seg);
    }
    hide CoreInv;
    NotHere(c, x, i, p, seen, r);
  }

  lemma NotHere(c: Config, x: Core, i: nat, p: Producer, seen: nat, r: Word)
    requires Shape(c, x) && Local(c, i, p, x) && p.pc == RoomSeq(seen, r)
    requires x.g.head == |x.g.log| ==> SeqAt(c, x.mem, r.seg, x.g.cl[r.seg]) == Claimable(x.g.cl[r.seg])
    requires SeqAt(c, x.mem, r.seg, r.pos) != Claimable(r.pos)
    ensures Local(c, i, p.(pc := RoomBits(seen)), x) && Local(c, i, p.(pc := Wait(seen)), x)
  {
  }

  lemma NoBits(c: Config, x: Core, i: nat, p: Producer, seen: nat)
    requires Shape(c, x) && Local(c, i, p, x)
    ensures p.pc == RoomBits(seen) ==> Local(c, i, p.(pc := Wait(seen)), x)
    ensures p.pc == Wait(seen) && x.mem.wake == seen ==> Local(c, i, p.(pc := Asleep(seen)), x)
  {
  }
}
