/** The consumer's steps keep the invariant: its looks, the release of a slot, the switch to the next
    segment, the checks for sleepers, its own sleep, and the hand-off of its role. */
module ConsumerProofs {
  import opened Laps
  import opened Machine
  import opened Invariant
  import opened Frames
  import opened LookProofs

  /** A step of the consumer that leaves the ring and the wake sequence alone. */
  ghost predicate Quiet(c: Config, x: Core, y: Core) {
    && CoreInv(c, x)
    && Shape(c, y)
    && SameRing(x, y)
    && y.mem.wake == x.mem.wake
    && y.mem.waiters == x.mem.waiters
    && y.mem.switches == x.mem.switches
    && y.g == x.g.(since := y.g.since)
  }

  lemma QuietCore(c: Config, x: Core, y: Core)
    requires Quiet(c, x, y) && Placement(c, y) && Holding(c, y) && Flagged(y) && Owed(y)
    ensures CoreInv(c, y)
  {
    hide Chained, Fronts, Ordered, Placed, Slots, Sealed, Bits, Placement, Holding, Flagged, Owed;
    FrameRing(c, x, y);
  }

  /** A step past no check, and not on the way to sleep, changes nothing for a sleeping producer. */
  lemma QuietLocal(c: Config, x: Core, y: Core, j: nat, q: Producer)
    requires Quiet(c, x, y) && Local(c, j, q, x)
    requires Checking(x.cons.pc) ==> Checking(y.cons.pc)
    requires x.cons.pc.WakeAll? ==> y.cons.pc.WakeAll?
    requires Settled(y.cons.pc) && c.wakes ==>
      Settled(x.cons.pc) && y.cons.cur == x.cons.cur && y.cons.pos == x.cons.pos
    ensures Local(c, j, q, y)
  {
    hide Chained, Fronts, Ordered, Placed, Slots, Sealed, Bits, Placement, Holding, Flagged, Owed, Counted, Logged,
         Delivered, RingLocal, Wakes;
    FrameLocal(c, x, y, j, q);
    assert Wakes(c, j, q, y) by { QuietWakes(c, x, y, j, q); }
  }

  lemma QuietWakes(c: Config, x: Core, y: Core, j: nat, q: Producer)
    requires y.g.wakers == x.g.wakers && Wakes(c, j, q, x)
    ensures Wakes(c, j, q, y)
  {
  }

  // ---------------------------------------------------------------- the looks

  /** What the consumer's slot word says of the log's next entry. */
  lemma SlotShowsFate(c: Config, x: Core)
    requires Plain(c) && CoreInv(c, x) && x.cons.pc.SlotLook?
    ensures var v := SeqAt(c, x.mem, x.cons.cur, x.cons.pos);
      && x.cons.cur == x.g.chain[0]
      && (v == CommittedAt(c, x.cons.pos) ==>
            && x.g.rd[x.cons.cur] < x.g.cl[x.cons.cur]
            && x.g.head < |x.g.log|
            && x.g.log[x.g.head].fate == Committed)
      && (v == TombAt(c, x.cons.pos) ==>
            && x.g.rd[x.cons.cur] < x.g.cl[x.cons.cur]
            && x.g.head < |x.g.log|
            && x.g.log[x.g.head].fate == Dead)
  {
    hide Placed, Sealed, Bits, Logged, Delivered, Holding, Flagged, Owed, Counted;
    assert SlotOk(c, x, x.cons.cur, x.cons.pos);
  }

  /** What the consumer's seal says, once its position is the seal's. */
  lemma SealShowsNext(c: Config, x: Core)
    requires Plain(c) && CoreInv(c, x) && x.cons.pc.SealLook?
    requires x.mem.seals[x.cons.cur].moved && x.mem.seals[x.cons.cur].pos == x.cons.pos
    ensures x.mem.seals[x.cons.cur].seg < c.segs
    ensures Holding(c, At(x, GiveBack(x.mem.seals[x.cons.cur].seg)))
  {
    hide Fronts, Ordered, Placed, Slots, Bits, Logged, Delivered, Flagged, Owed, Counted;
    assert |x.g.chain| >= 2;
    assert LinkOk(c, x, x.g.chain[0]);
    assert x.g.nxt[x.g.chain[0]] == x.g.chain[1];
  }

  /** What the consumer reads in a held slot is the log's next message. */
  lemma BodyIsNext(c: Config, x: Core)
    requires Plain(c) && CoreInv(c, x) && x.cons.pc.Hold?
    ensures BodyAt(c, x.mem, x.cons.cur, x.cons.pos) == x.g.log[x.g.head].msg
  {
    hide Placed, Sealed, Bits, Logged, Delivered, Flagged, Owed, Counted;
    assert SlotOk(c, x, x.cons.cur, x.cons.pos);
  }

  /** The program counters the looks move between. */
  predicate Looks(pc: ConsPc) {
    pc.Ready? || pc.SlotLook? || pc.SealLook? || pc.Empty? || pc.Hold? || pc.Skip? || pc.GiveBack?
  }

  lemma LookCore(c: Config, x: Core, pc: ConsPc)
    requires Plain(c) && CoreInv(c, x) && Looks(x.cons.pc) && (Looks(pc) || pc == SaveResume(0))
    requires Shape(c, At(x, pc)) && Holding(c, At(x, pc))
    ensures CoreInv(c, At(x, pc))
  {
    hide Chained, Fronts, Ordered, Placed, Slots, Sealed, Bits, Counted, Logged, Delivered;
    QuietCore(c, x, At(x, pc));
  }

  /** The looks and the hand-off's start are past no check and not on the way to sleep. */
  lemma LookLocal(c: Config, x: Core, y: Core, j: nat, q: Producer)
    requires CoreInv(c, x) && Local(c, j, q, x) && Looks(x.cons.pc) && Shape(c, y)
    requires y == x.(cons := y.cons) && !Settled(y.cons.pc)
    ensures Local(c, j, q, y)
  {
    assert Shape(c, x);
    hide CoreInv, Local;
    QuietLocal(c, x, y, j, q);
  }

  lemma HoldCore(c: Config, x: Core, y: Core)
    requires Plain(c) && CoreInv(c, x) && x.cons.pc.Hold?
    requires y == x.(cons := x.cons.(pc := Store(x.cons.pos, BodyAt(c, x.mem, x.cons.cur, x.cons.pos)),
                                     pos := SeqOf(c, x.cons.pos + 1)))
    ensures CoreInv(c, y)
  {
    BodyIsNext(c, x);
    hide Chained, Fronts, Ordered, Placed, Slots, Sealed, Bits, Counted, Logged, Delivered;
    QuietCore(c, x, y);
  }

  // ---------------------------------------------------------------- the release of a slot

  /** The seq store of a release, or of a tombstone's skip, with the state it is done in. */
  ghost predicate Freeing(c: Config, x: Core, y: Core, p: nat, got: seq<Msg>, pc: ConsPc) {
    && Plain(c)
    && CoreInv(c, x)
    && (if x.cons.pc.Store?
        then
          && p == x.cons.pc.c
          && got == [x.cons.pc.got]
          && pc == (if c.wakes && AtCheck(c, x.cons.pos) then CheckLoad(ToReady) else Ready)
        else
          && x.cons.pc.Skip?
          && p == x.cons.pos
          && got == []
          && pc == SlotLook)
    && y == FreeSlot(c, x, p, got).(cons := x.cons.(pc := pc, pos := p + 1))
    && Shape(c, y)
  }

  /** The consumer stands at the read frontier, before a claim whose fate is settled. */
  lemma FreeingAt(c: Config, x: Core, y: Core, p: nat, got: seq<Msg>, pc: ConsPc)
    requires Freeing(c, x, y, p, got, pc)
    ensures x.cons.cur == x.g.chain[0] && p == x.g.rd[x.cons.cur] < x.g.cl[x.cons.cur]
    ensures x.g.head < |x.g.log| && x.g.log[x.g.head].fate != Filling
    ensures x.g.log[x.g.head].fate == Dead <==> got == []
    ensures got != [] ==> got == [x.g.log[x.g.head].msg]
    ensures x.cons.pc.Store? ==> x.cons.pos == p + 1
    ensures x.g.head == x.g.off[x.cons.cur] + p
    ensures y.mem == SetSeq(c, x.mem, x.cons.cur, p, Claimable(p + c.depth))
    ensures y.g == x.g.(head := x.g.head + 1, rd := x.g.rd[x.cons.cur := p + 1], delivered := x.g.delivered + got)
  {
    hide Placed, Slots, Sealed, Bits, Logged, Delivered, Flagged, Owed, Counted;
  }

  lemma FreeChain(c: Config, x: Core, y: Core, p: nat, got: seq<Msg>, pc: ConsPc)
    requires Freeing(c, x, y, p, got, pc)
    ensures Chained(c, y) && Fronts(c, y) && Ordered(c, y) && Bits(c, y)
  {
    FreeingAt(c, x, y, p, got, pc);
    hide Placed, Slots, Sealed, Logged, Delivered, Flagged, Owed, Counted, Placement, Holding;
  }

  lemma FreePlaces(c: Config, x: Core, y: Core, p: nat, got: seq<Msg>, pc: ConsPc)
    requires Freeing(c, x, y, p, got, pc)
    ensures Placed(c, y)
  {
    FreeingAt(c, x, y, p, got, pc);
    hide Chained, Ordered, Slots, Sealed, Bits, Logged, Delivered, Flagged, Owed, Counted, Placement, Holding;
    forall n | y.g.head <= n < |y.g.log|
      ensures EntryPlaced(c, y, n)
    {
      assert EntryPlaced(c, x, n);
    }
  }

  lemma FreeSlots(c: Config, x: Core, y: Core, p: nat, got: seq<Msg>, pc: ConsPc)
    requires Freeing(c, x, y, p, got, pc)
    ensures Slots(c, y)
  {
    FreeingAt(c, x, y, p, got, pc);
    hide Freeing, Chained, Ordered, Placed, Sealed, Bits;
    forall k, r | 0 <= k < c.segs && y.g.rd[k] <= r < y.g.rd[k] + c.depth
      ensures SlotOk(c, y, k, r)
    {
      if k != x.cons.cur || r < p + c.depth {
        assert SlotOk(c, x, k, r);
      }
      FreeOneSlot(c, x, y, p, got, k, r);
    }
  }

  lemma FreeOneSlot(c: Config, x: Core, y: Core, p: nat, got: seq<Msg>, k: nat, r: nat)
    requires Shape(c, x) && Shape(c, y) && Fronts(c, x) && p == x.g.rd[x.cons.cur]
    requires y.mem == SetSeq(c, x.mem, x.cons.cur, p, Claimable(p + c.depth))
    requires y.g == x.g.(head := x.g.head + 1, rd := x.g.rd[x.cons.cur := p + 1], delivered := x.g.delivered + got)
    requires k < c.segs && y.g.rd[k] <= r < y.g.rd[k] + c.depth
    requires k != x.cons.cur || r < p + c.depth ==> SlotOk(c, x, k, r)
    ensures SlotOk(c, y, k, r)
  {
    WindowSlotsDiffer(p, c.depth);
    assert Slot(p + c.depth, c.depth) == Slot(p, c.depth);
  }

  lemma FreeSeals(c: Config, x: Core, y: Core, p: nat, got: seq<Msg>, pc: ConsPc)
    requires Freeing(c, x, y, p, got, pc) && Chained(c, y)
    ensures Sealed(c, y)
  {
    FreeingAt(c, x, y, p, got, pc);
    hide Ordered, Placed, Slots, Bits, Logged, Delivered, Flagged, Owed, Counted, Placement, Holding;
    forall j | 0 <= j < |y.g.chain| - 1
      ensures LinkOk(c, y, y.g.chain[j])
    {
      assert LinkOk(c, x, x.g.chain[j]);
    }
  }

  lemma FreeCons(c: Config, x: Core, y: Core, p: nat, got: seq<Msg>, pc: ConsPc)
    requires Freeing(c, x, y, p, got, pc)
    ensures Logged(y) && Delivered(y) && Placement(c, y) && Holding(c, y) && Flagged(y) && Owed(y) && Counted(y)
  {
    FreeingAt(c, x, y, p, got, pc);
    hide Chained, Ordered, Placed, Slots, Sealed, Bits;
  }

  lemma FreeCore(c: Config, x: Core, y: Core, p: nat, got: seq<Msg>, pc: ConsPc)
    requires Freeing(c, x, y, p, got, pc)
    ensures CoreInv(c, y)
  {
    hide Chained, Fronts, Ordered, Placed, Slots, Sealed, Bits, Logged, Delivered, Placement, Holding, Flagged, Owed,
         Counted;
    FreeChain(c, x, y, p, got, pc);
    FreePlaces(c, x, y, p, got, pc);
    FreeSlots(c, x, y, p, got, pc);
    FreeSeals(c, x, y, p, got, pc);
    FreeCons(c, x, y, p, got, pc);
  }

  lemma FreeLocal(c: Config, x: Core, y: Core, p: nat, got: seq<Msg>, pc: ConsPc, j: nat, q: Producer)
    requires Freeing(c, x, y, p, got, pc) && Local(c, j, q, x)
    ensures Local(c, j, q, y)
  {
    FreeingAt(c, x, y, p, got, pc);
    FreeNaps(c, x, y, p, got, pc, j, q);
    FreeOwns(c, x, y, p, got, pc, j, q);
    FreeRest(c, x, y, p, got, pc, j, q);
    hide CoreInv, Naps, Owns, Numbers, Wakes, Lags, Freeing;
  }

  lemma FreeRest(c: Config, x: Core, y: Core, p: nat, got: seq<Msg>, pc: ConsPc, j: nat, q: Producer)
    requires Freeing(c, x, y, p, got, pc) && Local(c, j, q, x)
    ensures Shape(c, y) && PcShape(c, q.pc)
    ensures Sends(c, q, y) && Keeps(c, j, q, y) && Owes(c, j, q, y)
    ensures Numbers(j, q, y) && Wakes(c, j, q, y) && Lags(j, q, y)
  {
    FreeingAt(c, x, y, p, got, pc);
    hide CoreInv, Naps, Owns;
  }

  /** The freed slot is nobody's to fill. */
  lemma FreeOwns(c: Config, x: Core, y: Core, p: nat, got: seq<Msg>, pc: ConsPc, j: nat, q: Producer)
    requires Freeing(c, x, y, p, got, pc) && RingLocal(c, j, q, x)
    ensures Owns(c, j, q, y)
  {
    FreeingAt(c, x, y, p, got, pc);
    hide CoreInv, Sends, Keeps, Owes, Numbers;
  }

  lemma FreeNaps(c: Config, x: Core, y: Core, p: nat, got: seq<Msg>, pc: ConsPc, j: nat, q: Producer)
    requires Freeing(c, x, y, p, got, pc) && Local(c, j, q, x)
    ensures Naps(c, j, q, y)
  {
    FreeingAt(c, x, y, p, got, pc);
    hide CoreInv, Sends, Keeps, Owes, Owns, Numbers, Wakes, Lags, SeqAt;
  }

  // ---------------------------------------------------------------- the next segment

  ghost predicate Following(c: Config, x: Core, y: Core, k: nat) {
    && Plain(c)
    && CoreInv(c, x)
    && x.cons.pc == GiveBack(k)
    && y == Follow(c, x, k)
    && Shape(c, y)
  }

  /** The next segment's first unread position is the log's next entry. */
  lemma FollowHead(c: Config, x: Core, y: Core, k: nat)
    requires Following(c, x, y, k)
    ensures x.g.head == x.g.off[k] + x.g.rd[k]
  {
    hide Slots, Sealed, Bits, Logged, Delivered, Flagged, Owed, Counted;
    if x.g.head < |x.g.log| {
      assert EntryPlaced(c, x, x.g.head);
      var s := x.g.log[x.g.head].seg;
      var t :| 0 <= t < |x.g.chain| && x.g.chain[t] == s;
    }
  }

  lemma FollowChain(c: Config, x: Core, y: Core, k: nat)
    requires Following(c, x, y, k)
    ensures Chained(c, y) && Fronts(c, y)
  {
    FollowFacts(c, x, y, k);
    FollowFirst(c, x, y, k);
    hide Chained, Fronts, Ordered, Placed, Slots, Sealed, Bits, Logged, Delivered, Placement, Holding, Flagged, Owed,
         Counted, Leaving, Follow;
    LeaveChain(c, x, y);
  }

  lemma FollowFirst(c: Config, x: Core, y: Core, k: nat)
    requires Following(c, x, y, k)
    ensures |x.g.chain| >= 2 && y.g.chain == x.g.chain[1..] && y.mem.claim == x.mem.claim
  {
    hide Chained, Fronts, Ordered, Placed, Slots, Sealed, Bits, Logged, Delivered, Placement, Flagged, Owed, Counted;
  }

  lemma LeaveChain(c: Config, x: Core, y: Core)
    requires Leaving(c, x, y) && Chained(c, x) && Fronts(c, x)
    requires |x.g.chain| >= 2 && y.g.chain == x.g.chain[1..] && y.mem.claim == x.mem.claim
    ensures Chained(c, y) && Fronts(c, y)
  {
  }

  lemma FollowOrder(c: Config, x: Core, y: Core, k: nat)
    requires Following(c, x, y, k) && Chained(c, y)
    ensures Ordered(c, y)
  {
    FollowHead(c, x, y, k);
    hide Fronts, Placed, Slots, Sealed, Bits, Logged, Delivered, Flagged, Owed, Counted, Placement;
  }

  lemma FollowPlaces(c: Config, x: Core, y: Core, k: nat)
    requires Following(c, x, y, k)
    ensures Placed(c, y) && Slots(c, y)
  {
    FollowFacts(c, x, y, k);
    hide Chained, Fronts, Ordered, Placed, Slots, Sealed, Bits, Logged, Delivered, Placement, Holding, Flagged, Owed,
         Counted, Leaving;
    LeavePlaces(c, x, y);
  }

  lemma LeavePlaces(c: Config, x: Core, y: Core)
    requires Leaving(c, x, y) && Placed(c, x) && Slots(c, x)
    ensures Placed(c, y) && Slots(c, y)
  {
    forall n | y.g.head <= n < |y.g.log|
      ensures EntryPlaced(c, y, n)
    {
      assert EntryPlaced(c, x, n);
    }
    forall s, r | 0 <= s < c.segs && y.g.rd[s] <= r < y.g.rd[s] + c.depth
      ensures SlotOk(c, y, s, r)
    {
      assert SlotOk(c, x, s, r);
    }
  }

  lemma FollowSeals(c: Config, x: Core, y: Core, k: nat)
    requires Following(c, x, y, k) && Chained(c, y)
    ensures Sealed(c, y) && Bits(c, y)
  {
    hide Fronts, Ordered, Placed, Slots, Logged, Delivered, Flagged, Owed, Counted;
    forall j | 0 <= j < |y.g.chain| - 1
      ensures LinkOk(c, y, y.g.chain[j])
    {
      assert LinkOk(c, x, x.g.chain[j + 1]);
    }
    assert forall s :: s in x.g.chain ==> s == x.cons.cur || s in y.g.chain;
  }

  lemma FollowCons(c: Config, x: Core, y: Core, k: nat)
    requires Following(c, x, y, k)
    ensures Logged(y) && Delivered(y) && Placement(c, y) && Holding(c, y) && Flagged(y) && Owed(y) && Counted(y)
  {
    hide Fronts, Ordered, Placed, Slots, Sealed, Bits;
  }

  lemma FollowCore(c: Config, x: Core, y: Core, k: nat)
    requires Following(c, x, y, k)
    ensures CoreInv(c, y)
  {
    hide Chained, Fronts, Ordered, Placed, Slots, Sealed, Bits, Logged, Delivered, Placement, Holding, Flagged, Owed,
         Counted;
    FollowChain(c, x, y, k);
    FollowOrder(c, x, y, k);
    FollowPlaces(c, x, y, k);
    FollowSeals(c, x, y, k);
    FollowCons(c, x, y, k);
  }

  lemma FollowLocal(c: Config, x: Core, y: Core, k: nat, j: nat, q: Producer)
    requires Following(c, x, y, k) && Local(c, j, q, x)
    ensures Local(c, j, q, y)
  {
    FollowNaps(c, x, y, k, j, q);
    FollowFacts(c, x, y, k);
    hide CoreInv, Naps, Following;
    LeaveLocal(c, x, y, j, q);
  }

  lemma FollowFacts(c: Config, x: Core, y: Core, k: nat)
    requires Following(c, x, y, k)
    ensures Leaving(c, x, y)
  {
    hide Fronts, Ordered, Placed, Slots, Sealed, Bits, Logged, Delivered, Flagged, Owed, Counted;
    assert forall s :: s in x.g.chain ==> s == x.cons.cur || s in y.g.chain;
  }

  /** A step that drops one read-out segment from the chain and writes nothing else a filler reads. */
  ghost predicate Leaving(c: Config, x: Core, y: Core) {
    && Shape(c, x)
    && Shape(c, y)
    && y.mem.seals == x.mem.seals
    && y.mem.bodies == x.mem.bodies
    && y.mem.seqs == x.mem.seqs
    && y.g == x.g.(chain := y.g.chain, followed := y.g.followed)
    && x.g.rd[x.cons.cur] == x.g.cl[x.cons.cur]
    && forall s :: s in x.g.chain ==> s == x.cons.cur || s in y.g.chain
  }

  lemma LeaveLocal(c: Config, x: Core, y: Core, j: nat, q: Producer)
    requires Leaving(c, x, y) && RingLocal(c, j, q, x) && Lags(j, q, x) && Wakes(c, j, q, x)
    ensures RingLocal(c, j, q, y) && Lags(j, q, y) && Wakes(c, j, q, y)
  {
  }

  lemma FollowNaps(c: Config, x: Core, y: Core, k: nat, j: nat, q: Producer)
    requires Following(c, x, y, k) && Local(c, j, q, x)
    ensures Naps(c, j, q, y)
  {
    hide CoreInv, RingLocal, Wakes;
  }

  // ---------------------------------------------------------------- checks for sleepers

  /** No producer is counted in where the count is zero. */
  lemma NoSleepers(c: Config, x: Core, j: nat, q: Producer)
    requires CoreInv(c, x) && Local(c, j, q, x) && x.mem.waiters == 0
    ensures !Counts(q.pc)
  {
  }

  lemma CheckedCore(c: Config, x: Core, pc: ConsPc)
    requires CoreInv(c, x) && x.cons.pc.CheckLoad?
    requires pc == Bump(x.cons.pc.next) || pc == Onward(x.cons.pc.next)
    ensures CoreInv(c, At(x, pc))
  {
    hide Chained, Fronts, Ordered, Placed, Slots, Sealed, Bits, Counted, Logged, Delivered;
    QuietCore(c, x, At(x, pc));
  }

  lemma CheckedLocal(c: Config, x: Core, pc: ConsPc, j: nat, q: Producer)
    requires CoreInv(c, x) && Local(c, j, q, x) && x.cons.pc.CheckLoad? && Shape(c, At(x, pc))
    requires pc.Bump? || x.mem.waiters == 0
    ensures Local(c, j, q, At(x, pc))
  {
    if !pc.Bump? {
      NoSleepers(c, x, j, q);
    }
    var y := At(x, pc);
    hide CoreInv;
    FrameLocal(c, x, y, j, q);
    hide RingLocal;
  }

  lemma BumpCore(c: Config, x: Core, y: Core)
    requires CoreInv(c, x) && x.cons.pc.Bump?
    requires y == At(x.(mem := x.mem.(wake := x.mem.wake + 1)), WakeAll(x.cons.pc.next))
    ensures CoreInv(c, y)
  {
    hide Chained, Fronts, Ordered, Placed, Slots, Sealed, Bits, Logged, Delivered;
    FrameRing(c, x, y);
  }

  lemma BumpLocal(c: Config, x: Core, y: Core, j: nat, q: Producer)
    requires CoreInv(c, x) && x.cons.pc.Bump? && Local(c, j, q, x)
    requires y == At(x.(mem := x.mem.(wake := x.mem.wake + 1)), WakeAll(x.cons.pc.next))
    ensures Shape(c, y) && Local(c, j, q, y)
  {
    hide Chained, Fronts, Ordered, Placed, Slots, Sealed, Bits, Logged, Delivered, RingLocal;
    FrameLocal(c, x, y, j, q);
  }

  lemma WakeCore(c: Config, x: Core)
    requires CoreInv(c, x) && x.cons.pc.WakeAll?
    ensures CoreInv(c, At(x, Onward(x.cons.pc.next)))
  {
    hide Chained, Fronts, Ordered, Placed, Slots, Sealed, Bits, Counted, Logged, Delivered;
    QuietCore(c, x, At(x, Onward(x.cons.pc.next)));
  }

  lemma WakeLocal(c: Config, x: Core, j: nat, q: Producer)
    requires Shape(c, x) && CoreInv(c, x) && x.cons.pc.WakeAll? && Local(c, j, q, x)
    ensures var y := At(x, Onward(x.cons.pc.next));
      Local(c, j, if q.pc.Asleep? then q.(pc := CountOut) else q, y)
  {
    hide CoreInv;
    var y := At(x, Onward(x.cons.pc.next));
    var r := if q.pc.Asleep? then q.(pc := CountOut) else q;
    assert Local(c, j, r, x) by {
      if q.pc.Asleep? {
        CountsOut(c, x, j, q);
      }
    }
    hide RingLocal;
    FrameLocal(c, x, y, j, r);
    WakeNaps(c, x, y, j, r);
  }

  lemma WakeNaps(c: Config, x: Core, y: Core, j: nat, q: Producer)
    requires Shape(c, x) && x.cons.pc.WakeAll? && y == At(x, Onward(x.cons.pc.next)) && Shape(c, y)
    requires PcShape(c, q.pc) && !q.pc.Asleep? && Naps(c, j, q, x) && Wakes(c, j, q, x)
    ensures Naps(c, j, q, y) && Wakes(c, j, q, y)
  {
  }

  // ---------------------------------------------------------------- the consumer's sleep

  lemma EmptyCore(c: Config, x: Core, pc: ConsPc)
    requires CoreInv(c, x) && x.cons.pc.Empty?
    requires pc.FlagSet? || pc == CheckLoad(ToFlag)
    requires pc.CheckLoad? ==> c.wakes
    ensures CoreInv(c, At(x, pc))
  {
    hide Chained, Fronts, Ordered, Placed, Slots, Sealed, Bits, Counted, Logged, Delivered;
    QuietCore(c, x, At(x, pc));
  }

  lemma EmptyLocal(c: Config, x: Core, pc: ConsPc, j: nat, q: Producer)
    requires CoreInv(c, x) && Local(c, j, q, x) && x.cons.pc.Empty? && Shape(c, x) && Shape(c, At(x, pc))
    requires (pc.FlagSet? && !c.wakes) || pc == CheckLoad(ToFlag)
    ensures Local(c, j, q, At(x, pc))
  {
    hide CoreInv, Local;
    QuietLocal(c, x, At(x, pc), j, q);
  }

  /** The flag set before the sleep, or cleared after it. */
  ghost predicate Flagging(c: Config, x: Core, y: Core) {
    && Plain(c)
    && CoreInv(c, x)
    && if x.cons.pc.FlagSet?
       then
         y == At(x.(mem := x.mem.(claim := x.mem.claim.(waiting := true))),
                 if Here(c, x.mem.claim, x.cons.cur, x.cons.pos) then Sleep(x.mem.claim.(waiting := true))
                 else FlagClear)
       else
         && x.cons.pc.FlagClear?
         && y == At(x.(mem := x.mem.(claim := x.mem.claim.(waiting := false))), Empty)
  }

  lemma FlagCore(c: Config, x: Core, y: Core)
    requires Flagging(c, x, y)
    ensures CoreInv(c, y)
  {
    hide Fronts, Ordered, Placed, Slots, Sealed, Bits, Counted, Logged, Delivered;
    assert x.mem.claim.seg < c.segs && x.cons.cur < c.segs;
    QuietCore(c, x, y);
  }

  lemma FlagLocal(c: Config, x: Core, y: Core, j: nat, q: Producer)
    requires Flagging(c, x, y) && Local(c, j, q, x)
    ensures Shape(c, y) && Local(c, j, q, y)
  {
    hide Chained, Fronts, Ordered, Placed, Slots, Sealed, Bits, Counted, Logged, Delivered, Placement, Holding, Flagged,
         Owed, RingLocal, Naps, Wakes;
    QuietLocal(c, x, y, j, q);
  }

  lemma SleepCore(c: Config, x: Core, pc: ConsPc)
    requires Plain(c) && CoreInv(c, x) && x.cons.pc.Sleep?
    requires pc.FlagClear? || (pc.Sleeping? && c.wakes && x.mem.claim == x.cons.pc.val)
    ensures CoreInv(c, At(x, pc))
  {
    if pc.Sleeping? {
      EmptyHere(c, x);
    }
    hide Chained, Fronts, Ordered, Placed, Slots, Sealed, Bits, Counted, Logged, Delivered;
    QuietCore(c, x, At(x, pc));
  }

  lemma StirCore(c: Config, x: Core)
    requires CoreInv(c, x) && x.cons.pc.Sleeping?
    ensures CoreInv(c, At(x, FlagClear))
  {
    hide Chained, Fronts, Ordered, Placed, Slots, Sealed, Bits, Counted, Logged, Delivered;
    QuietCore(c, x, At(x, FlagClear));
  }

  /** Falling asleep and stirring change nothing for a sleeping producer. */
  lemma RestLocal(c: Config, x: Core, y: Core, j: nat, q: Producer)
    requires CoreInv(c, x) && Shape(c, x) && Local(c, j, q, x) && (x.cons.pc.Sleep? || x.cons.pc.Sleeping?)
    requires y == x || y == At(x, Sleeping) || y == At(x, FlagClear)
    ensures Shape(c, y) && Local(c, j, q, y)
  {
    hide CoreInv, Local;
    QuietLocal(c, x, y, j, q);
  }

  // ---------------------------------------------------------------- the hand-off of the role

  predicate Saving(pc: ConsPc) {
    pc.SaveResume? || pc.SaveCur? || pc.SavePos? || pc.RoleClear?
  }

  predicate Handing(pc: ConsPc) {
    Saving(pc) || !Present(pc)
  }

  lemma SaveCore(c: Config, x: Core)
    requires Plain(c) && CoreInv(c, x) && Saving(x.cons.pc)
    ensures CoreInv(c, HandStep(c, x))
  {
    hide Chained, Fronts, Ordered, Placed, Slots, Sealed, Bits, Counted, Logged, Delivered;
    QuietCore(c, x, HandStep(c, x));
  }

  lemma LoadCore(c: Config, x: Core)
    requires Plain(c) && CoreInv(c, x) && !Present(x.cons.pc)
    ensures CoreInv(c, HandStep(c, x))
  {
    hide Chained, Fronts, Ordered, Placed, Slots, Sealed, Bits, Counted, Logged, Delivered;
    QuietCore(c, x, HandStep(c, x));
  }

  lemma HandCore(c: Config, x: Core)
    requires Plain(c) && CoreInv(c, x) && Handing(x.cons.pc)
    ensures CoreInv(c, HandStep(c, x))
  {
    hide CoreInv;
    if Present(x.cons.pc) {
      SaveCore(c, x);
    } else {
      LoadCore(c, x);
    }
  }

  /** The hand-off writes only the checkpoint and the consumer's own state. */
  lemma HandWrites(c: Config, x: Core)
    requires Shape(c, x) && Handing(x.cons.pc)
    ensures var y := HandStep(c, x);
      && Shape(c, y)
      && SameRing(x, y)
      && y.mem.wake == x.mem.wake
      && y.mem.waiters == x.mem.waiters
      && y.mem.switches == x.mem.switches
      && y.g == x.g.(since := y.g.since)
      && !Settled(y.cons.pc)
  {
  }

  lemma HandLocal(c: Config, x: Core, j: nat, q: Producer)
    requires Plain(c) && CoreInv(c, x) && Handing(x.cons.pc) && Local(c, j, q, x)
    ensures var y := HandStep(c, x); Shape(c, y) && Local(c, j, q, y)
  {
    assert Shape(c, x);
    hide CoreInv, Local;
    HandWrites(c, x);
    QuietLocal(c, x, HandStep(c, x), j, q);
  }
}
