/** Every step of a producer keeps the invariant. */
module ProducerSteps {
  import opened Machine
  import opened Invariant
  import opened ClaimProofs
  import CommitProofs
  import SwitchProofs
  import opened LookProofs

  // ---------------------------------------------------------------- putting a step together

  lemma PutInv(c: Config, s: State, i: nat, y: Core, q: Producer)
    requires Inv(c, s) && i < |s.prods| && CoreInv(c, y) && Ranged(y.g, |s.prods|) && Local(c, i, q, y)
    requires forall j :: 0 <= j < |s.prods| && j != i ==> Local(c, j, s.prods[j], y)
    ensures Inv(c, State(y, s.prods[i := q]))
  {
    hide RingInv, Placement, Holding, Flagged, Owed, Counted, RingLocal, Naps, Wakes;
  }

  lemma SameCore(c: Config, s: State, i: nat, q: Producer)
    requires Inv(c, s) && i < |s.prods| && Local(c, i, q, s.core)
    ensures Inv(c, State(s.core, s.prods[i := q]))
  {
    hide CoreInv, Local, Ranged;
    PutInv(c, s, i, s.core, q);
  }

  lemma InvShape(c: Config, s: State)
    requires Inv(c, s)
    ensures WellShaped(c, s)
  {
    hide Chained, Fronts, Ordered, Placed, Slots, Sealed, Bits, Logged, Delivered, Placement, Holding, Flagged, Owed,
         Counted, Sends, Keeps, Owes, Owns, Numbers, Naps, Wakes, Ranged;
  }

  lemma InvSeals(c: Config, s: State)
    requires Shape(c, s.core)
    ensures |s.core.mem.seals| == c.segs
  {
  }

  /** The invariant at one producer. */
  lemma InvAt(c: Config, s: State, i: nat)
    requires Inv(c, s) && i < |s.prods|
    ensures CoreInv(c, s.core) && Shape(c, s.core) && Ranged(s.core.g, |s.prods|)
    ensures Local(c, i, s.prods[i], s.core) && PcShape(c, s.prods[i].pc)
  {
    hide Chained, Fronts, Ordered, Placed, Slots, Sealed, Bits, Logged, Delivered, Placement, Holding, Flagged, Owed,
         Counted, Sends, Keeps, Owes, Owns, Numbers, Naps, Wakes, Ranged;
  }

  lemma TakeRanged(x: Core, i: nat, k: nat, producers: nat)
    requires Ranged(x.g, producers) && i < producers
    ensures Ranged(TakeBit(x, i, k).g, producers)
  {
  }

  lemma DropRanged(x: Core, i: nat, producers: nat)
    requires Ranged(x.g, producers)
    ensures Ranged(DropWaiter(x, i).g, producers)
  {
  }

  lemma PutBackRanged(x: Core, k: nat, producers: nat)
    requires Ranged(x.g, producers)
    ensures Ranged(PutBack(x, k).g, producers)
  {
  }

  lemma WaiterRanged(x: Core, i: nat, producers: nat)
    requires Ranged(x.g, producers) && i < producers
    ensures Ranged(AddWaiter(x, i).g, producers)
  {
  }

  lemma RouseRanged(x: Core, i: nat, producers: nat)
    requires Ranged(x.g, producers)
    ensures Ranged(Rouse(x, i).g, producers)
  {
  }

  lemma CountRanged(x: Core, i: nat, producers: nat)
    requires Ranged(x.g, producers)
    ensures Ranged(AddSwitch(x, i).g, producers)
  {
  }

  lemma StoreRanged(x: Core, k: nat, v: Seal, producers: nat)
    requires Ranged(x.g, producers) && k < |x.mem.seals|
    ensures Ranged(StoreSeal(x, k, v).g, producers)
  {
  }

  lemma SealRanged(c: Config, x: Core, w: Word, k: nat, producers: nat)
    requires Shape(c, x) && Ranged(x.g, producers) && w.seg < c.segs
    ensures Ranged(SealOld(c, x, w, k).g, producers)
  {
  }

  // ---------------------------------------------------------------- producers: loads

  lemma SendLooks(c: Config, s: State, i: nat, ch: Choice)
    requires Plain(c) && Inv(c, s) && i < |s.prods| && WellShaped(c, s)
    requires var pc := s.prods[i].pc; pc.Idle? || pc.Load? || pc.Look? || pc.Reread? || pc.Full?
    ensures Inv(c, SendStep(c, s, i, ch))
  {
    hide CoreInv, Local, Inv, Ranged, WellShaped;
    var p := s.prods[i];
    var x := s.core;
    InvAt(c, s, i);
    match p.pc
    case Idle =>
      BeginSend(c, x, i, p);
      SameCore(c, s, i, p.(n := p.n + 1, pc := Load));
    case Load =>
      LoadClaim(c, x, i, p);
      SameCore(c, s, i, p.(pc := Look(x.mem.claim)));
    case Look(w) =>
      if w.seg >= c.segs {
        EndSend(c, x, i, p);
        SameCore(c, s, i, p.(pc := Idle));
      } else if SeqAt(c, x.mem, w.seg, w.pos) == Claimable(w.pos) {
        SeeClaimable(c, x, i, p, w);
        SameCore(c, s, i, p.(pc := Cas(w)));
      } else {
        SeeTaken(c, x, i, p, w);
        SameCore(c, s, i, p.(pc := Reread(w), snap := Snap(w.seg, x.g.cl[w.seg], x.g.rd[w.seg])));
      }
    case Reread(w) =>
      if x.mem.claim != w {
        LoadClaim(c, x, i, p);
        SameCore(c, s, i, p.(pc := Look(x.mem.claim)));
      } else {
        SameWord(c, x, i, p, w);
        SameCore(c, s, i, p.(pc := if c.multi then FreeLoad(w) else Full));
      }
    case Full =>
      SwitchLoads(c, x, i, p, Word(0, 0, false), 0);
      EndSend(c, x, i, p);
      SameCore(c, s, i, p.(pc := if ch.GiveUp? then Idle else if ch.Nap? && c.wakes then CountIn else Load));
  }

  lemma RoomLooks(c: Config, s: State, i: nat, ch: Choice)
    requires Plain(c) && Inv(c, s) && i < |s.prods| && WellShaped(c, s)
    requires s.prods[i].pc.SeenLoad? || s.prods[i].pc.RoomClaim? || s.prods[i].pc.RoomSeq?
    ensures Inv(c, NapStep(c, s, i, ch))
  {
    hide CoreInv, Local, Inv, Ranged, WellShaped;
    var p := s.prods[i];
    var x := s.core;
    InvAt(c, s, i);
    match p.pc
    case SeenLoad =>
      SeeWake(c, x, i, p);
      SameCore(c, s, i, p.(pc := RoomClaim(x.mem.wake), mark := Mark(x.g.rd, x.g.followed)));
    case RoomClaim(seen) =>
      if x.mem.claim.seg >= c.segs {
        CountsOut(c, x, i, p);
        SameCore(c, s, i, p.(pc := CountOut));
      } else {
        RoomLoad(c, x, i, p, seen);
        SameCore(c, s, i, p.(pc := RoomSeq(seen, x.mem.claim)));
      }
    case RoomSeq(seen, r) =>
      if SeqAt(c, x.mem, r.seg, r.pos) == Claimable(r.pos) {
        CountsOut(c, x, i, p);
        SameCore(c, s, i, p.(pc := CountOut));
      } else {
        NoRoom(c, x, i, p, seen, r);
        SameCore(c, s, i, p.(pc := if c.multi then RoomBits(seen) else Wait(seen)));
      }
  }

  lemma WaitLooks(c: Config, s: State, i: nat, ch: Choice)
    requires Plain(c) && Inv(c, s) && i < |s.prods| && WellShaped(c, s)
    requires s.prods[i].pc.RoomBits? || s.prods[i].pc.Wait? || s.prods[i].pc.Asleep?
    ensures Inv(c, NapStep(c, s, i, ch))
  {
    hide CoreInv, Local, Inv, Ranged, WellShaped, Shape;
    var p := s.prods[i];
    var x := s.core;
    InvAt(c, s, i);
    NoBits(c, x, i, p, p.pc.seen);
    CountsOut(c, x, i, p);
    match p.pc
    case RoomBits(seen) =>
      SameCore(c, s, i, p.(pc := if AnyFree(c, x.mem.inUse) then CountOut else Wait(seen)));
    case Wait(seen) =>
      SameCore(c, s, i, p.(pc := if !ch.Fail? && x.mem.wake == seen then Asleep(seen) else CountOut));
    case Asleep(seen) =>
      if ch.Fail? {
        SameCore(c, s, i, p.(pc := CountOut));
      }
  }

  lemma CountInKeeps(c: Config, s: State, i: nat, ch: Choice)
    requires Plain(c) && Inv(c, s) && i < |s.prods| && WellShaped(c, s) && s.prods[i].pc.CountIn?
    ensures Inv(c, NapStep(c, s, i, ch))
  {
    hide CoreInv, Local, Inv, Ranged, WellShaped;
    var p := s.prods[i];
    var x := s.core;
    InvAt(c, s, i);
    WaiterRanged(x, i, |s.prods|);
    forall j | 0 <= j < |s.prods| && j != i
      ensures Local(c, j, s.prods[j], AddWaiter(x, i))
    {
      InvAt(c, s, j);
      LookProofs.CountInOther(c, x, i, j, s.prods[j]);
    }
    CountInCore(c, x, i, p);
    PutInv(c, s, i, AddWaiter(x, i), p.(pc := SeenLoad));
  }

  lemma CountOutKeeps(c: Config, s: State, i: nat, ch: Choice)
    requires Plain(c) && Inv(c, s) && i < |s.prods| && WellShaped(c, s) && s.prods[i].pc.CountOut?
    ensures Inv(c, NapStep(c, s, i, ch))
  {
    hide CoreInv, Local, Inv, Ranged, WellShaped;
    var p := s.prods[i];
    var x := s.core;
    InvAt(c, s, i);
    DropRanged(x, i, |s.prods|);
    forall j | 0 <= j < |s.prods| && j != i
      ensures Local(c, j, s.prods[j], DropWaiter(x, i))
    {
      InvAt(c, s, j);
      LookProofs.CountOutOther(c, x, i, j, s.prods[j]);
    }
    CountOutCore(c, x, i, p);
    PutInv(c, s, i, DropWaiter(x, i), p.(pc := Full));
  }

  // ---------------------------------------------------------------- producers: claim, fill, commit, wake

  lemma ClaimCore(c: Config, x: Core, y: Core, i: nat, p: Producer, w: Word)
    requires Claim(c, x, y, i, p.n, w)
    requires CoreInv(c, x) && Local(c, i, p, x) && p.pc == Cas(w)
    ensures CoreInv(c, y)
  {
    assert forall a :: 0 <= a < |x.g.log| && x.g.log[a].msg.pid == i ==> x.g.log[a].msg.n < p.n;
    assert i !in x.g.wakers;
    hide Chained, Fronts, Ordered, Placed, Slots, Sealed, Bits, Logged, Delivered, Placement, Holding, Flagged, Owed,
         Counted, Local;
    ClaimChain(c, x, y, i, p.n, w);
    ClaimOrder(c, x, y, i, p.n, w);
    ClaimPlaces(c, x, y, i, p.n, w);
    ClaimSlots(c, x, y, i, p.n, w);
    ClaimSeals(c, x, y, i, p.n, w);
    ClaimLog(c, x, y, i, p.n, w);
    ClaimCons(c, x, y, i, p.n, w);
  }

  lemma ClaimLocal(c: Config, x: Core, y: Core, i: nat, n: nat, w: Word, j: nat, q: Producer)
    requires Claim(c, x, y, i, n, w) && j != i && CoreInv(c, x) && Local(c, j, q, x)
    ensures Local(c, j, q, y)
  {
    ClaimOther(c, x, y, i, n, w, j, q);
    ClaimOtherNaps(c, x, y, i, n, w, j, q);
    hide RingInv, Placement, Holding, Flagged, Owed, Counted, Sends, Keeps, Owes, Naps;
    assert Chained(c, x) by { ClaimHasChain(c, x); }
    ClaimOtherFills(c, x, y, i, n, w, j, q);
  }

  lemma ClaimHasChain(c: Config, x: Core)
    requires CoreInv(c, x)
    ensures Shape(c, x) && Chained(c, x)
  {
  }

  lemma CasWindow(c: Config, x: Core, i: nat, p: Producer)
    requires Shape(c, x) && Local(c, i, p, x) && p.pc.Cas?
    ensures p.pc.w.seg < c.segs && p.pc.w.pos < x.g.rd[p.pc.w.seg] + c.depth
  {
  }

  lemma ClaimReady(c: Config, x: Core, i: nat, n: nat, w: Word)
    requires Plain(c) && Shape(c, x) && x.mem.claim == w && w.seg < c.segs && w.pos < x.g.rd[w.seg] + c.depth
    ensures Claim(c, x, ClaimSlot(c, x, i, n, w), i, n, w)
  {
  }

  lemma ClaimRanged(c: Config, x: Core, i: nat, n: nat, w: Word, producers: nat)
    requires Shape(c, x) && w.seg < c.segs && Ranged(x.g, producers) && i < producers
    ensures Ranged(ClaimSlot(c, x, i, n, w).g, producers)
  {
  }

  lemma ClaimKeeps(c: Config, s: State, i: nat, ch: Choice)
    requires Plain(c) && Inv(c, s) && i < |s.prods| && WellShaped(c, s)
    requires s.prods[i].pc.Cas?
    ensures Inv(c, SendStep(c, s, i, ch))
  {
    hide CoreInv, Local, Inv, Ranged, WellShaped, Shape, ClaimSlot, Claim;
    var p := s.prods[i];
    var x := s.core;
    var w := p.pc.w;
    InvAt(c, s, i);
    CasWindow(c, x, i, p);
    if !ch.Fail? && x.mem.claim == w {
      var y := ClaimSlot(c, x, i, p.n, w);
      ClaimReady(c, x, i, p.n, w);
      ClaimCore(c, x, y, i, p, w);
      ClaimActor(c, x, y, i, p, w);
      forall j | 0 <= j < |s.prods| && j != i
        ensures Local(c, j, s.prods[j], y)
      {
        InvAt(c, s, j);
        ClaimLocal(c, x, y, i, p.n, w, j, s.prods[j]);
      }
      ClaimRanged(c, x, i, p.n, w, |s.prods|);
      PutInv(c, s, i, y, p.(pc := Fill(w)));
    } else {
      LoadClaim(c, x, i, p);
      SameCore(c, s, i, p.(pc := Look(x.mem.claim)));
    }
  }

  lemma SlotReady(c: Config, x: Core, i: nat, p: Producer)
    requires Plain(c) && CoreInv(c, x) && Local(c, i, p, x) && Fills(p.pc)
    ensures CommitProofs.AtSlot(c, x, i, p)
    ensures p.pc.Tomb? ==> c.tombs
  {
    hide RingInv, Placement, Holding, Flagged, Owed, Counted, Sends, Keeps, Owes, Numbers, Wakes, Naps;
  }

  lemma WriteRanged(c: Config, x: Core, w: Word, v: Msg, producers: nat)
    requires Shape(c, x) && w.seg < c.segs && Ranged(x.g, producers)
    ensures Ranged(WriteBody(c, x, w, v).g, producers)
  {
  }

  lemma FillKeeps(c: Config, s: State, i: nat, ch: Choice)
    requires Plain(c) && Inv(c, s) && i < |s.prods| && WellShaped(c, s) && s.prods[i].pc.Fill?
    ensures Inv(c, FillStep(c, s, i, ch))
  {
    hide CoreInv, Local, Inv, Ranged, WellShaped, Shape, WriteBody, CommitSlot, EntryOf, Rouse;
    var p := s.prods[i];
    var x := s.core;
    var w := p.pc.w;
    InvAt(c, s, i);
    if ch.Write? {
      WriteKeeps(c, s, i, ch.v, p.pc);
    } else if ch.Panic? && c.tombs {
      Unwind(c, x, i, p, w);
      SameCore(c, s, i, p.(pc := Tomb(w)));
    } else {
      WriteKeeps(c, s, i, Msg(i, p.n), Commit(w));
    }
  }

  lemma WriteKeeps(c: Config, s: State, i: nat, v: Msg, pc: Pc)
    requires Plain(c) && Inv(c, s) && i < |s.prods| && WellShaped(c, s) && s.prods[i].pc.Fill?
    requires pc == s.prods[i].pc || (pc == Commit(s.prods[i].pc.w) && v == Msg(i, s.prods[i].n))
    ensures Inv(c, Put(s, i, WriteBody(c, s.core, s.prods[i].pc.w, v), pc))
  {
    hide CoreInv, Local, Inv, Ranged, WellShaped, Shape, WriteBody, CommitProofs.AtSlot;
    var p := s.prods[i];
    var x := s.core;
    var w := p.pc.w;
    InvAt(c, s, i);
    SlotReady(c, x, i, p);
    WriteRanged(c, x, w, v, |s.prods|);
    CommitProofs.WriteCore(c, x, i, p, v);
    CommitProofs.WriteActor(c, x, i, p, v);
    forall j | 0 <= j < |s.prods| && j != i
      ensures Local(c, j, s.prods[j], WriteBody(c, x, w, v))
    {
      InvAt(c, s, j);
      CommitProofs.WriteOther(c, x, i, p, v, j, s.prods[j]);
    }
    assert p.(pc := p.pc) == p;
    PutInv(c, s, i, WriteBody(c, x, w, v), p.(pc := pc));
  }

  lemma CommitReady(c: Config, x: Core, i: nat, p: Producer, fate: Fate)
    requires CommitProofs.AtSlot(c, x, i, p) && Shape(c, x) && PcShape(c, p.pc)
    requires (p.pc.Commit? && fate == Committed) || (p.pc.Tomb? && fate == Dead)
    ensures CommitProofs.Committing(c, x, CommitSlot(c, x, p.pc.w, EntryOf(c, x.g, i, p.n), fate), i, p, fate)
  {
    hide CommitProofs.AtSlot;
  }

  lemma CommitRanged(c: Config, x: Core, w: Word, idx: int, fate: Fate, producers: nat)
    requires Shape(c, x) && w.seg < c.segs && Ranged(x.g, producers)
    ensures Ranged(CommitSlot(c, x, w, idx, fate).g, producers)
  {
  }

  lemma SettleKeeps(c: Config, s: State, i: nat, fate: Fate, pc: Pc)
    requires Plain(c) && Inv(c, s) && i < |s.prods| && WellShaped(c, s)
    requires var p := s.prods[i]; (p.pc.Commit? && fate == Committed) || (p.pc.Tomb? && fate == Dead)
    requires pc ==
      if fate == Committed && c.wakes && s.prods[i].pc.w.waiting then WakeConsumer(s.prods[i].pc.w) else Idle
    ensures Inv(c, Put(s, i, CommitSlot(c, s.core, s.prods[i].pc.w, EntryOf(c, s.core.g, i, s.prods[i].n), fate), pc))
  {
    hide CoreInv, Local, Inv, Ranged, WellShaped, CommitSlot, CommitProofs.AtSlot, CommitProofs.Committing,
         EntryOf;
    InvAt(c, s, i);
    var p := s.prods[i];
    var x := s.core;
    var w := p.pc.w;
    var y := CommitSlot(c, x, w, EntryOf(c, x.g, i, p.n), fate);
    SlotReady(c, x, i, p);
    CommitReady(c, x, i, p, fate);
    CommitProofs.CommitCore(c, x, y, i, p, fate);
    CommitProofs.CommitActor(c, x, y, i, p, fate, pc);
    CommitRanged(c, x, w, EntryOf(c, x.g, i, p.n), fate, |s.prods|);
    forall j | 0 <= j < |s.prods| && j != i
      ensures Local(c, j, s.prods[j], y)
    {
      InvAt(c, s, j);
      CommitProofs.CommitOther(c, x, y, i, p, fate, j, s.prods[j]);
    }
    PutInv(c, s, i, y, p.(pc := pc));
  }

  lemma CommitKeeps(c: Config, s: State, i: nat, ch: Choice)
    requires Plain(c) && Inv(c, s) && i < |s.prods| && WellShaped(c, s)
    requires s.prods[i].pc.Commit? || s.prods[i].pc.Tomb?
    ensures Inv(c, FillStep(c, s, i, ch))
  {
    hide Inv, CommitSlot, EntryOf, WriteBody, Rouse, WellShaped, Shape, Plain;
    var p := s.prods[i];
    if p.pc.Commit? {
      SettleKeeps(c, s, i, Committed, if c.wakes && p.pc.w.waiting then WakeConsumer(p.pc.w) else Idle);
    } else {
      SettleKeeps(c, s, i, Dead, Idle);
    }
  }

  lemma RouseKeeps(c: Config, s: State, i: nat, ch: Choice)
    requires Plain(c) && Inv(c, s) && i < |s.prods| && WellShaped(c, s)
    requires s.prods[i].pc.WakeConsumer?
    ensures Inv(c, FillStep(c, s, i, ch))
  {
    hide CoreInv, Local, Inv, Ranged, WellShaped, Shape, Rouse;
    var p := s.prods[i];
    var x := s.core;
    InvAt(c, s, i);
    RouseRanged(x, i, |s.prods|);
    CommitProofs.RouseCore(c, x, i);
    CommitProofs.RouseActor(c, x, i, p);
    forall j | 0 <= j < |s.prods| && j != i
      ensures Local(c, j, s.prods[j], Rouse(x, i))
    {
      InvAt(c, s, j);
      CommitProofs.RouseOther(c, x, i, j, s.prods[j]);
    }
    PutInv(c, s, i, Rouse(x, i), p.(pc := Idle));
  }

  // ---------------------------------------------------------------- producers: the switch

  lemma SwitchLooks(c: Config, s: State, i: nat)
    requires Plain(c) && Inv(c, s) && i < |s.prods| && WellShaped(c, s)
    requires var pc := s.prods[i].pc;
      || pc.FreeLoad?
      || pc.SealLoad?
      || (pc.Take? && pc.k in s.core.mem.inUse)
      || (pc.Move? && s.core.mem.claim != pc.w)
    ensures Inv(c, SwitchStep(c, s, i))
  {
    hide CoreInv, Local, Inv, Ranged, WellShaped;
    var p := s.prods[i];
    var x := s.core;
    InvAt(c, s, i);
    match p.pc
    case FreeLoad(w) =>
      var k := if AnyFree(c, x.mem.inUse) then LowestFree(c, x.mem.inUse, 0) else 0;
      SwitchLoads(c, x, i, p, w, k);
      SameCore(c, s, i, p.(pc := if AnyFree(c, x.mem.inUse) then Take(w, k) else Full));
    case Take(w, k) =>
      SwitchLoads(c, x, i, p, w, k);
      SameCore(c, s, i, p.(pc := FreeLoad(w)));
    case SealLoad(w, k) =>
      SealLoads(c, x, i, p, w, k);
      SameCore(c, s, i, p.(pc := SealClear(w, k, x.mem.seals[k].pos)));
    case Move(w, k, start) =>
      MoveLost(c, x, i, p, w, k, start);
      SameCore(c, s, i, p.(pc := SealRestore(k, start)));
  }

  lemma TakeKeeps(c: Config, s: State, i: nat)
    requires Plain(c) && Inv(c, s) && i < |s.prods| && WellShaped(c, s)
    requires s.prods[i].pc.Take? && s.prods[i].pc.k !in s.core.mem.inUse
    ensures Inv(c, SwitchStep(c, s, i))
  {
    hide CoreInv, Local, Inv, Ranged, WellShaped;
    var p := s.prods[i];
    var x := s.core;
    var w, k := p.pc.w, p.pc.k;
    InvAt(c, s, i);
    TakeRanged(x, i, k, |s.prods|);
    SwitchProofs.TakeCore(c, x, i, k);
    SwitchProofs.TakeActor(c, x, i, p, w, k);
    forall j | 0 <= j < |s.prods| && j != i
      ensures Local(c, j, s.prods[j], TakeBit(x, i, k))
    {
      InvAt(c, s, j);
      SwitchProofs.TakeOther(c, x, i, k, j, s.prods[j]);
    }
    PutInv(c, s, i, TakeBit(x, i, k), p.(pc := SealLoad(w, k)));
  }

  lemma OwnSealKeeps(c: Config, s: State, i: nat)
    requires Plain(c) && Inv(c, s) && i < |s.prods| && WellShaped(c, s)
    requires s.prods[i].pc.SealClear? || s.prods[i].pc.SealRestore?
    ensures Inv(c, SwitchStep(c, s, i))
  {
    hide CoreInv, Local, Inv, Ranged, WellShaped, SwitchProofs.OwnSeal;
    var p := s.prods[i];
    var x := s.core;
    var k := p.pc.k;
    var v := if p.pc.SealClear? then ClearSeal else Seal(false, 0, p.pc.start);
    InvAt(c, s, i);
    assert |x.mem.seals| == c.segs by { InvSeals(c, s); }
    StoreRanged(x, k, v, |s.prods|);
    if p.pc.SealClear? {
      SwitchProofs.ClearActor(c, x, i, p, p.pc.w, k, p.pc.start);
    } else {
      SwitchProofs.RestoreActor(c, x, i, p, k, p.pc.start);
    }
    SwitchProofs.SealCore(c, x, i, k, v);
    forall j | 0 <= j < |s.prods| && j != i
      ensures Local(c, j, s.prods[j], StoreSeal(x, k, v))
    {
      InvAt(c, s, j);
      SwitchProofs.SealOther(c, x, i, k, v, j, s.prods[j]);
    }
    PutInv(c, s, i, StoreSeal(x, k, v),
           p.(pc := if p.pc.SealClear? then Move(p.pc.w, k, p.pc.start) else BitClear(k)));
  }

  /** What the switch CAS finds. */
  lemma MoveReady(c: Config, x: Core, i: nat, p: Producer, w: Word, k: nat, start: nat)
    requires Plain(c) && CoreInv(c, x) && Local(c, i, p, x) && p.pc == Move(w, k, start) && x.mem.claim == w
    ensures Shape(c, MoveRing(c, x, i, w, k, start))
    ensures SwitchProofs.Moving(c, x, MoveRing(c, x, i, w, k, start), i, w, k, start)
  {
    hide Chained, Fronts, Ordered, Placed, Slots, Sealed, Bits, Logged, Delivered, Placement, Holding, Flagged, Owed,
         Counted;
  }

  lemma MoveKeeps(c: Config, s: State, i: nat)
    requires Plain(c) && Inv(c, s) && i < |s.prods| && WellShaped(c, s)
    requires s.prods[i].pc.Move? && s.core.mem.claim == s.prods[i].pc.w
    ensures Inv(c, SwitchStep(c, s, i))
  {
    hide CoreInv, Local, Inv, SwitchProofs.Moving, Ranged, WellShaped, MoveRing, Shape;
    var p := s.prods[i];
    var x := s.core;
    var w, k, start := p.pc.w, p.pc.k, p.pc.start;
    InvAt(c, s, i);
    var y := MoveRing(c, x, i, w, k, start);
    MoveReady(c, x, i, p, w, k, start);
    SwitchProofs.MoveCore(c, x, y, i, w, k, start);
    SwitchProofs.MoveActor(c, x, y, i, p, w, k, start);
    MoveRanged(c, x, i, w, k, start, |s.prods|);
    forall j | 0 <= j < |s.prods| && j != i
      ensures Local(c, j, s.prods[j], y)
    {
      InvAt(c, s, j);
      SwitchProofs.MoveOther(c, x, y, i, w, k, start, j, s.prods[j]);
    }
    PutInv(c, s, i, y, p.(pc := SealStore(w, k)));
  }

  lemma MoveRanged(c: Config, x: Core, i: nat, w: Word, k: nat, start: nat, n: nat)
    requires Shape(c, x) && w.seg < c.segs && k < c.segs && Ranged(x.g, n) && i < n
    ensures Ranged(MoveRing(c, x, i, w, k, start).g, n)
  {
  }

  lemma SealOldKeeps(c: Config, s: State, i: nat)
    requires Plain(c) && Inv(c, s) && i < |s.prods| && WellShaped(c, s)
    requires s.prods[i].pc.SealStore?
    ensures Inv(c, SwitchStep(c, s, i))
  {
    hide CoreInv, Local, Inv, Ranged, WellShaped, SwitchProofs.Sealing;
    InvAt(c, s, i);
    var p := s.prods[i];
    var x := s.core;
    var w, k := p.pc.w, p.pc.k;
    var y := SealOld(c, x, w, k);
    SealRanged(c, x, w, k, |s.prods|);
    SwitchProofs.SealOldActor(c, x, y, i, p, w, k);
    SwitchProofs.SealOldCore(c, x, y, i, w, k);
    forall j | 0 <= j < |s.prods| && j != i
      ensures Local(c, j, s.prods[j], y)
    {
      InvAt(c, s, j);
      SwitchProofs.SealOldOther(c, x, y, i, w, k, j, s.prods[j]);
    }
    PutInv(c, s, i, y, p.(pc := CountSwitch));
  }

  lemma CountSwitchKeeps(c: Config, s: State, i: nat)
    requires Plain(c) && Inv(c, s) && i < |s.prods| && WellShaped(c, s)
    requires s.prods[i].pc.CountSwitch?
    ensures Inv(c, SwitchStep(c, s, i))
  {
    hide CoreInv, Local, Inv, Ranged, WellShaped;
    var p := s.prods[i];
    var x := s.core;
    InvAt(c, s, i);
    CountRanged(x, i, |s.prods|);
    SwitchProofs.CountActor(c, x, i, p);
    SwitchProofs.CountCore(c, x, i);
    forall j | 0 <= j < |s.prods| && j != i
      ensures Local(c, j, s.prods[j], AddSwitch(x, i))
    {
      InvAt(c, s, j);
      SwitchProofs.CountOther(c, x, i, j, s.prods[j]);
    }
    PutInv(c, s, i, AddSwitch(x, i), p.(pc := Load));
  }

  lemma PutBackKeeps(c: Config, s: State, i: nat)
    requires Plain(c) && Inv(c, s) && i < |s.prods| && WellShaped(c, s)
    requires s.prods[i].pc.BitClear?
    ensures Inv(c, SwitchStep(c, s, i))
  {
    hide CoreInv, Local, Inv, Ranged, WellShaped;
    var p := s.prods[i];
    var x := s.core;
    var k := p.pc.k;
    InvAt(c, s, i);
    PutBackRanged(x, k, |s.prods|);
    SwitchProofs.PutBackActor(c, x, i, p, k);
    SwitchProofs.PutBackCore(c, x, i, k);
    forall j | 0 <= j < |s.prods| && j != i
      ensures Local(c, j, s.prods[j], PutBack(x, k))
    {
      InvAt(c, s, j);
      SwitchProofs.PutBackOther(c, x, i, k, j, s.prods[j]);
    }
    PutInv(c, s, i, PutBack(x, k), p.(pc := Load));
  }

  lemma SwitchKeeps(c: Config, s: State, i: nat)
    requires Plain(c) && Inv(c, s) && i < |s.prods| && WellShaped(c, s) && Switching(s.prods[i].pc)
    ensures Inv(c, SwitchStep(c, s, i))
  {
    hide Inv, SwitchStep;
    match s.prods[i].pc
    case Take(_, k) => if k in s.core.mem.inUse { SwitchLooks(c, s, i); } else { TakeKeeps(c, s, i); }
    case SealClear(_, _, _) => OwnSealKeeps(c, s, i);
    case SealRestore(_, _) => OwnSealKeeps(c, s, i);
    case Move(w, _, _) => if s.core.mem.claim == w { MoveKeeps(c, s, i); } else { SwitchLooks(c, s, i); }
    case SealStore(_, _) => SealOldKeeps(c, s, i);
    case CountSwitch => CountSwitchKeeps(c, s, i);
    case BitClear(_) => PutBackKeeps(c, s, i);
    case _ => SwitchLooks(c, s, i);
  }

  lemma ProduceKeeps(c: Config, s: State, i: nat, ch: Choice)
    requires Plain(c) && Inv(c, s) && i < |s.prods| && WellShaped(c, s)
    ensures Inv(c, Produce(c, s, i, ch))
  {
    hide Inv, SwitchStep, NapStep, FillStep, SendStep;
    var pc := s.prods[i].pc;
    if Switching(pc) {
      SwitchKeeps(c, s, i);
    } else if pc.CountIn? {
      CountInKeeps(c, s, i, ch);
    } else if pc.CountOut? {
      CountOutKeeps(c, s, i, ch);
    } else if pc.RoomBits? || pc.Wait? || pc.Asleep? {
      WaitLooks(c, s, i, ch);
    } else if Napping(pc) {
      RoomLooks(c, s, i, ch);
    } else if pc.Fill? {
      FillKeeps(c, s, i, ch);
    } else if pc.WakeConsumer? {
      RouseKeeps(c, s, i, ch);
    } else if Owning(pc) {
      CommitKeeps(c, s, i, ch);
    } else if pc.Cas? {
      ClaimKeeps(c, s, i, ch);
    } else {
      SendLooks(c, s, i, ch);
    }
  }
}
