/** The two sides' sleep: neither sleeps past work the other left it, at the grain of single accesses. */
module Sleeping {
  import opened Laps
  import opened Machine
  import opened Invariant
  import opened Runs
  import opened Segments
  import LookProofs

  // ---------------------------------------------------------------- openings

  lemma RestFacts(c: Config, s: State)
    requires Inv(c, s)
    ensures Shape(c, s.core) && Flagged(s.core) && Owed(s.core) && Ranged(s.core.g, |s.prods|)
    ensures |s.core.g.rd| == |s.core.g.cl| == c.segs
  {
    hide Chained, Fronts, Ordered, Placed, Slots, Sealed, Bits, Logged, Delivered, Placement, Holding, Counted, Local,
         Ranged;
  }

  lemma NapsOf(c: Config, s: State, i: nat)
    requires Inv(c, s) && i < |s.prods|
    ensures Shape(c, s.core) && PcShape(c, s.prods[i].pc)
    ensures Naps(c, i, s.prods[i], s.core) && Wakes(c, i, s.prods[i], s.core)
  {
    hide Chained, Fronts, Ordered, Placed, Slots, Sealed, Bits, Logged, Delivered, Placement, Holding, Flagged, Owed,
         Counted, Sends, Keeps, Owes, Owns, Numbers, Naps, Wakes, Ranged;
  }

  lemma OwnsOf(c: Config, s: State, i: nat)
    requires Inv(c, s) && i < |s.prods|
    ensures Shape(c, s.core) && PcShape(c, s.prods[i].pc) && Owns(c, i, s.prods[i], s.core)
  {
    hide Chained, Fronts, Ordered, Placed, Slots, Sealed, Bits, Logged, Delivered, Placement, Holding, Flagged, Owed,
         Counted, Sends, Keeps, Owes, Owns, Numbers, Naps, Wakes, Ranged;
  }

  // ---------------------------------------------------------------- no mutual sleep

  /** While the consumer sleeps on a ring where everything claimed is released, no producer sleeps. */
  lemma NoMutualSleep(c: Config, s: State)
    requires Reached(c, s) && s.core.cons.pc.Sleeping? && s.core.g.head == |s.core.g.log|
    ensures forall i :: 0 <= i < |s.prods| ==> !s.prods[i].pc.Asleep?
  {
    hide Inv, Reached, Wakes, Shape, Unchecked, PcShape;
    ReachedInv(c, s);
    forall i | 0 <= i < |s.prods|
      ensures !s.prods[i].pc.Asleep?
    {
      NapsOf(c, s, i);
    }
  }

  // ---------------------------------------------------------------- the consumer's wake

  /** The claimed slot of log entry `n` is this producer's, claimed under the waiting flag, and its wake of
      the consumer is still to come. */
  ghost predicate WakeComing(p: Producer, e: Claimed) {
    && (Fills(p.pc) || p.pc.WakeConsumer?)
    && p.pc.w.waiting
    && (e.fate == Filling ==> Fills(p.pc) && p.n == e.msg.n)
  }

  /** While the consumer sleeps its flag is up, and whatever is claimed at or past its place was claimed
      under the flag, by a producer that has not yet issued its wake. */
  lemma WakeIsOwed(c: Config, s: State)
    requires Reached(c, s) && s.core.cons.pc.Sleeping?
    ensures s.core.mem.claim.waiting
    ensures forall n :: s.core.g.head <= n < |s.core.g.log| ==>
      var e := s.core.g.log[n];
      e.msg.pid < |s.prods| && WakeComing(s.prods[e.msg.pid], e)
  {
    hide Inv, Reached, Naps, Shape, PcShape;
    ReachedInv(c, s);
    RestFacts(c, s);
    forall n | s.core.g.head <= n < |s.core.g.log|
      ensures var e := s.core.g.log[n]; e.msg.pid < |s.prods| && WakeComing(s.prods[e.msg.pid], e)
    {
      var i := s.core.g.log[n].msg.pid;
      NapsOf(c, s, i);
      OwnsOf(c, s, i);
    }
  }

  /** The accesses left before a producer's wake. */
  function ToWake(pc: Pc): nat {
    if pc.Fill? then 3 else if pc.Commit? then 2 else if pc.WakeConsumer? then 1 else 0
  }

  lemma FillGoesOn(c: Config, s: State, i: nat)
    requires Plain(c) && WellShaped(c, s) && i < |s.prods| && c.wakes && !s.prods[i].pc.Tomb?
    requires (Fills(s.prods[i].pc) || s.prods[i].pc.WakeConsumer?) && s.prods[i].pc.w.waiting
    ensures var t := Produce(c, s, i, Go);
      && (ToWake(s.prods[i].pc) == 1 ==> !t.core.cons.pc.Sleeping?)
      && (ToWake(s.prods[i].pc) > 1 ==>
            && (Fills(t.prods[i].pc) || t.prods[i].pc.WakeConsumer?)
            && !t.prods[i].pc.Tomb?
            && t.prods[i].pc.w.waiting
            && ToWake(t.prods[i].pc) == ToWake(s.prods[i].pc) - 1)
  {
    hide Shape, PcShape, SetBody, SetSeq, EntryOf, SwitchStep, NapStep, SendStep;
  }

  lemma {:induction false} GetsToWake(c: Config, s: State, i: nat, n: nat)
    requires Plain(c) && Inv(c, s) && i < |s.prods| && c.wakes && !s.prods[i].pc.Tomb?
    requires (Fills(s.prods[i].pc) || s.prods[i].pc.WakeConsumer?) && s.prods[i].pc.w.waiting
    requires n < ToWake(s.prods[i].pc)
    ensures var q := Alone(c, s, i, n).prods[i];
      && (Fills(q.pc) || q.pc.WakeConsumer?)
      && !q.pc.Tomb?
      && q.pc.w.waiting
      && ToWake(q.pc) == ToWake(s.prods[i].pc) - n
    decreases n
  {
    hide Inv, Produce, WellShaped;
    if n > 0 {
      GetsToWake(c, s, i, n - 1);
      AloneStep(c, s, i, n - 1);
      FillGoesOn(c, Alone(c, s, i, n - 1), i);
    }
  }

  /** A consumer asleep with something claimed at or past its place is woken by at most three further
      accesses of the claim's own producer, whatever the others do or do not do. */
  lemma SleepIsEnded(c: Config, s: State, n: nat) returns (i: nat, m: nat)
    requires Reached(c, s) && s.core.cons.pc.Sleeping? && c.wakes && s.core.g.head <= n < |s.core.g.log|
    ensures i == s.core.g.log[n].msg.pid < |s.prods| && 1 <= m <= 3
    ensures !Alone(c, s, i, m).core.cons.pc.Sleeping?
  {
    hide Inv, Reached, Produce, Alone, WellShaped;
    ReachedInv(c, s);
    WakeIsOwed(c, s);
    i := s.core.g.log[n].msg.pid;
    NotTomb(c, s, i);
    m := ToWake(s.prods[i].pc);
    GetsToWake(c, s, i, m - 1);
    AloneStep(c, s, i, m - 1);
    FillGoesOn(c, Alone(c, s, i, m - 1), i);
  }

  lemma NotTomb(c: Config, s: State, i: nat)
    requires Plain(c) && Inv(c, s) && i < |s.prods| && c.wakes
    ensures !s.prods[i].pc.Tomb?
  {
    hide Inv, Shape, PcShape;
    OwnsOf(c, s, i);
  }

  // ---------------------------------------------------------------- the producers' wake

  /** Any half segment of consecutive positions has a check. */
  lemma CheckInEveryHalf(c: Config, lo: nat)
    ensures exists q :: lo < q <= lo + Half(c) && AtCheck(c, q)
  {
    var h := Half(c);
    var q := lo + (h - lo % h);
    DivModUnique(q, h, lo / h + 1, 0);
    assert AtCheck(c, q);
  }

  /** In a full segment's worth of releases there is always one check, and in most two. */
  lemma HalfFits(c: Config)
    requires c.depth >= 1
    ensures Half(c) <= c.depth
  {
  }

  /** A producer that sleeps, not yet notified and with no check under way, has missed no check: since it
      read the wake sequence no segment was given back, and of no segment was half a segment released. */
  lemma SleeperMissedNoCheck(c: Config, s: State, i: nat)
    requires Reached(c, s) && i < |s.prods| && s.prods[i].pc.Asleep?
    requires !Checking(s.core.cons.pc) && !s.core.cons.pc.WakeAll?
    ensures s.prods[i].pc.seen == s.core.mem.wake
    ensures s.prods[i].mark.followed == s.core.g.followed
    ensures |s.prods[i].mark.released| == |s.core.g.rd| == c.segs
    ensures forall k :: 0 <= k < c.segs ==> s.core.g.rd[k] < s.prods[i].mark.released[k] + Half(c)
  {
    hide Inv, Reached, Wakes, PcShape, AtCheck, Half;
    ReachedInv(c, s);
    NapsOf(c, s, i);
    RestFacts(c, s);
    forall k | 0 <= k < c.segs
      ensures s.core.g.rd[k] < s.prods[i].mark.released[k] + Half(c)
    {
      CheckInEveryHalf(c, s.prods[i].mark.released[k]);
    }
  }

  /** From `p` to `q` a producer kept its mark, or just took it. */
  predicate MarkKept(x: Core, p: Producer, q: Producer) {
    Sees(q.pc) ==>
      || (p.pc.SeenLoad? && q.mark == Mark(x.g.rd, x.g.followed) && q.pc.seen == x.mem.wake)
      || (Sees(p.pc) && q.mark == p.mark && q.pc.seen == p.pc.seen)
  }

  lemma MarkStep(c: Config, s: State, step: Step, i: nat)
    requires WellShaped(c, s) && i < |s.prods|
    ensures MarkKept(s.core, s.prods[i], Next(c, s, step).prods[i])
  {
    hide WellShaped, Produce, ConsumeCore;
    if step.ByProducer? && step.i < |s.prods| {
      if step.i == i {
        MarkOwn(c, s, i, step.ch);
      } else {
        OtherStays(c, s, step.i, step.ch, i);
      }
    }
  }

  lemma MarkOwn(c: Config, s: State, i: nat, ch: Choice)
    requires WellShaped(c, s) && i < |s.prods|
    ensures MarkKept(s.core, s.prods[i], Produce(c, s, i, ch).prods[i])
  {
    hide Shape, EntryOf, AnyFree, ClaimSlot, WriteBody, CommitSlot, Rouse, SwitchStep, LookStep, NapStep;
    if Napping(s.prods[i].pc) {
      MarkNap(c, s, i, ch);
    } else if s.prods[i].pc.Look? {
      MarkLook(c, s, i, s.prods[i].pc.w);
    } else if Switching(s.prods[i].pc) {
      MarkSwitch(c, s, i);
    }
  }

  lemma MarkNap(c: Config, s: State, i: nat, ch: Choice)
    requires WellShaped(c, s) && i < |s.prods| && Napping(s.prods[i].pc)
    ensures MarkKept(s.core, s.prods[i], NapStep(c, s, i, ch).prods[i])
  {
    hide Shape, SeqAt, AnyFree, AddWaiter, DropWaiter;
  }

  lemma MarkLook(c: Config, s: State, i: nat, w: Word)
    requires WellShaped(c, s) && i < |s.prods|
    ensures !Sees(LookStep(c, s, i, w).prods[i].pc)
  {
    hide Shape, PcShape, SeqAt;
  }

  lemma MarkSwitch(c: Config, s: State, i: nat)
    requires WellShaped(c, s) && i < |s.prods| && Switching(s.prods[i].pc)
    ensures !Sees(SwitchStep(c, s, i).prods[i].pc)
  {
    hide Shape, LowestFree, AnyFree, TakeBit, StoreSeal, MoveRing, SealOld, AddSwitch, PutBack;
  }

  lemma OtherStays(c: Config, s: State, j: nat, ch: Choice, i: nat)
    requires WellShaped(c, s) && i < |s.prods| && j < |s.prods| && j != i
    ensures Produce(c, s, j, ch).prods[i] == s.prods[i]
  {
    hide Shape, PcShape, LowestFree, SeqAt, EntryOf, AnyFree, ClaimSlot, TakeBit, StoreSeal, MoveRing, SealOld,
         AddSwitch, PutBack, AddWaiter, DropWaiter, WriteBody, CommitSlot, Rouse;
  }

  /** What a producer on its way to sleep holds is what the ring was when it read the wake sequence. */
  lemma {:induction false} MarkTaken(c: Config, producers: nat, body: Msg, steps: seq<Step>, i: nat) returns (m: nat)
    requires Plain(c) && i < producers && Sees(Run(c, producers, body, steps).prods[i].pc)
    ensures m < |steps|
    ensures var q, r := Run(c, producers, body, steps).prods[i], Run(c, producers, body, steps[..m]);
      && r.prods[i].pc.SeenLoad?
      && q.mark == Mark(r.core.g.rd, r.core.g.followed)
      && q.pc.seen == r.core.mem.wake
    decreases |steps|
  {
    hide Inv, Next, Init, Exec;
    if steps == [] {
      InitIdle(c, producers, body, i);
      assert false;
    } else {
      var r := Run(c, producers, body, steps[..|steps| - 1]);
      RunNext(c, producers, body, steps[..|steps| - 1], steps[|steps| - 1]);
      assert steps[..|steps| - 1] + [steps[|steps| - 1]] == steps;
      MarkStep(c, r, steps[|steps| - 1], i);
      if r.prods[i].pc.SeenLoad? && !Sees(r.prods[i].pc) {
        m := |steps| - 1;
      } else {
        m := MarkTaken(c, producers, body, steps[..|steps| - 1], i);
        assert steps[..|steps| - 1][..m] == steps[..m];
      }
    }
  }

  lemma InitIdle(c: Config, producers: nat, body: Msg, i: nat)
    requires Plain(c) && i < producers
    ensures Run(c, producers, body, []).prods[i] == Producer(0, Idle, Snap(0, 0, 0), Mark([], 0))
  {
    hide Inv;
  }

  /** A producer goes to sleep while segment `k` holds a full segment of unread claims. By the time they are
      all released it is awake, or the consumer is in the check that wakes it: half-segment checks lose no
      sleeper of a full ring, at any depth and from any resume position. */
  lemma FullRingIsNotified(c: Config, producers: nat, body: Msg, steps: seq<Step>, i: nat, k: nat) returns (m: nat)
    requires Plain(c) && i < producers && k < c.segs
    requires Run(c, producers, body, steps).prods[i].pc.Asleep?
    ensures m < |steps| && Run(c, producers, body, steps[..m]).prods[i].pc.SeenLoad?
    ensures var s, r := Run(c, producers, body, steps), Run(c, producers, body, steps[..m]);
      && |s.core.g.rd| == |r.core.g.cl| == |r.core.g.rd| == c.segs
      && (r.core.g.cl[k] == r.core.g.rd[k] + c.depth && s.core.g.rd[k] >= r.core.g.cl[k] ==>
            Checking(s.core.cons.pc) || s.core.cons.pc.WakeAll?)
  {
    hide Inv, Run, Exec, Shape, Half;
    m := MarkTaken(c, producers, body, steps, i);
    var s, r := Run(c, producers, body, steps), Run(c, producers, body, steps[..m]);
    RunInv(c, producers, body, steps);
    RunInv(c, producers, body, steps[..m]);
    RestFacts(c, s);
    RestFacts(c, r);
    HalfFits(c);
    if !Checking(s.core.cons.pc) && !s.core.cons.pc.WakeAll? {
      SleeperMissedNoCheck(c, s, i);
    }
  }

  lemma CountedIn(c: Config, s: State, i: nat)
    requires Inv(c, s) && i < |s.prods| && s.prods[i].pc.Asleep?
    ensures s.core.mem.waiters > 0
  {
    hide Inv, Shape, PcShape, Wakes, Placement;
    NapsOf(c, s, i);
    WaitersAre(c, s);
    assert i in s.core.g.sleepers;
  }

  lemma WaitersAre(c: Config, s: State)
    requires Inv(c, s)
    ensures s.core.mem.waiters == |s.core.g.sleepers|
  {
    hide Chained, Fronts, Ordered, Placed, Slots, Sealed, Bits, Logged, Delivered, Placement, Holding, Flagged, Owed,
         Local, Ranged;
  }

  /** A check that starts while a producer sleeps finds it counted in, and three accesses of the consumer
      later no producer sleeps. */
  lemma CheckWakesSleepers(c: Config, s: State, i: nat)
    requires Plain(c) && Inv(c, s) && i < |s.prods| && s.prods[i].pc.Asleep?
    requires s.core.cons.pc.CheckLoad?
    ensures var t := ConsumerAlone(c, s, 3);
      && t.core.cons.pc == Onward(s.core.cons.pc.next)
      && t.core.mem.wake == s.core.mem.wake + 1
      && forall j :: 0 <= j < |t.prods| ==> !t.prods[j].pc.Asleep?
  {
    hide Inv, ConsumerAlone, WellShaped, Shape, ReadStep, HandStep;
    CountedIn(c, s, i);
    ConsumerAloneStep(c, s, 0);
    ConsumerAloneStep(c, s, 1);
    ConsumerAloneStep(c, s, 2);
  }

  // ---------------------------------------------------------------- what a sleeper has seen

  /** What a producer on its way to sleep has seen since it took its mark: nothing is less released than
      there, the claim word it looks by is no older, and past the look some segment has been claimed beyond
      what was released there. */
  ghost predicate Saw(c: Config, p: Producer, x: Core) {
    Sees(p.pc) ==>
      && |p.mark.released| == |x.g.rd| == |x.g.cl| == c.segs
      && (forall k :: 0 <= k < c.segs ==> p.mark.released[k] <= x.g.rd[k])
      && (p.pc.RoomSeq? ==> p.pc.r.seg < c.segs && p.mark.released[p.pc.r.seg] <= p.pc.r.pos)
      && (p.pc.RoomBits? || p.pc.Wait? || p.pc.Asleep? ==>
            exists k :: 0 <= k < c.segs && p.mark.released[k] < x.g.cl[k])
  }

  lemma SawLater(c: Config, p: Producer, x: Core, y: Core)
    requires Saw(c, p, x) && Onwards(x, y)
    ensures Saw(c, p, y)
  {
    if Sees(p.pc) && (p.pc.RoomBits? || p.pc.Wait? || p.pc.Asleep?) {
      var k :| 0 <= k < c.segs && p.mark.released[k] < x.g.cl[k];
      assert p.mark.released[k] < y.g.cl[k];
    }
  }

  /** The look itself: a slot that is not claimable, at or past the mark, is claimed past it. */
  lemma SawTaken(c: Config, s: State, i: nat, r: Word)
    requires Plain(c) && Inv(c, s) && i < |s.prods| && s.prods[i].pc.RoomSeq? && s.prods[i].pc.r == r
    requires Saw(c, s.prods[i], s.core) && Shape(c, s.core) && r.seg < c.segs
    requires SeqAt(c, s.core.mem, r.seg, r.pos) != Claimable(r.pos)
    ensures |s.prods[i].mark.released| == |s.core.g.cl| == c.segs
    ensures s.prods[i].mark.released[r.seg] < s.core.g.cl[r.seg]
  {
    hide Inv, Keeps, Owes, Owns, Numbers;
    RingLocalOf(c, s, i);
    SlotFacts(c, s);
    if r.pos == s.core.g.cl[r.seg] {
      LookProofs.SlotShowsFull(c, s.core, r.seg);
    }
  }

  lemma SawNap(c: Config, s: State, i: nat, ch: Choice)
    requires Plain(c) && Inv(c, s) && WellShaped(c, s) && i < |s.prods| && Napping(s.prods[i].pc)
    requires Saw(c, s.prods[i], s.core)
    ensures var t := NapStep(c, s, i, ch); Saw(c, t.prods[i], t.core)
  {
    hide Inv, SeqAt, AnyFree, Chained, Fronts, Sealed, Bits, Placed, Ordered;
    ClaimFront(c, s);
    var pc := s.prods[i].pc;
    if pc.RoomSeq? && SeqAt(c, s.core.mem, pc.r.seg, pc.r.pos) != Claimable(pc.r.pos) {
      SawTaken(c, s, i, pc.r);
    }
  }

  lemma ClaimFront(c: Config, s: State)
    requires Inv(c, s)
    ensures |s.core.g.rd| == |s.core.g.cl| == c.segs
    ensures s.core.mem.claim.seg < c.segs
    ensures s.core.g.rd[s.core.mem.claim.seg] <= s.core.mem.claim.pos
  {
    hide Inv, Sealed, Bits, Shape;
    ChainFacts(c, s);
    SealsShape(c, s);
  }

  lemma SawStep(c: Config, s: State, step: Step, i: nat)
    requires Plain(c) && Inv(c, s) && WellShaped(c, s) && i < |s.prods| && Saw(c, s.prods[i], s.core)
    ensures Saw(c, Next(c, s, step).prods[i], Next(c, s, step).core)
  {
    hide Inv, WellShaped, Produce, ConsumeCore, Onwards;
    var t := Next(c, s, step);
    OnwardsStep(c, s, step);
    SawLater(c, s.prods[i], s.core, t.core);
    if step.ByProducer? && step.i < |s.prods| {
      if step.i != i {
        OtherStays(c, s, step.i, step.ch, i);
      } else {
        SawOwn(c, s, i, step.ch);
      }
    }
  }

  lemma SawOwn(c: Config, s: State, i: nat, ch: Choice)
    requires Plain(c) && Inv(c, s) && WellShaped(c, s) && i < |s.prods| && Saw(c, s.prods[i], s.core)
    ensures var t := Next(c, s, ByProducer(i, ch)); Saw(c, t.prods[i], t.core)
  {
    hide Inv, Shape, SwitchStep, SendStep, FillStep, NapStep;
    if Napping(s.prods[i].pc) {
      SawNap(c, s, i, ch);
    } else {
      MarkOwn(c, s, i, ch);
    }
  }

  /** In every run, a producer on its way to sleep, past its look, has had some segment claimed beyond what
      was released of it when the wake sequence was read. */
  lemma {:induction false} SleeperSawClaims(c: Config, producers: nat, body: Msg, steps: seq<Step>, i: nat)
    requires Plain(c) && i < producers
    ensures var s := Run(c, producers, body, steps); Saw(c, s.prods[i], s.core)
    decreases |steps|
  {
    hide Inv, Next, Init, Exec, Saw;
    if steps == [] {
      InitIdle(c, producers, body, i);
      NotYet(c, producers, body, i);
    } else {
      var r := Run(c, producers, body, steps[..|steps| - 1]);
      SleeperSawClaims(c, producers, body, steps[..|steps| - 1], i);
      RunNext(c, producers, body, steps[..|steps| - 1], steps[|steps| - 1]);
      assert steps[..|steps| - 1] + [steps[|steps| - 1]] == steps;
      SawStep(c, r, steps[|steps| - 1], i);
    }
  }

  lemma NotYet(c: Config, producers: nat, body: Msg, i: nat)
    requires Plain(c) && i < producers && Run(c, producers, body, []).prods[i].pc.Idle?
    ensures Saw(c, Run(c, producers, body, []).prods[i], Run(c, producers, body, []).core)
  {
    hide Run;
  }

  /** At a depth of one, two or three a check follows every release, and half-segment checks miss nobody at
      all, sleeping consumer or polling: with everything claimed released and no check under way, no
      producer is asleep. */
  lemma SmallDepthMissesNone(c: Config, s: State)
    requires Reached(c, s) && Half(c) == 1 && s.core.g.head == |s.core.g.log|
    requires !Checking(s.core.cons.pc) && !s.core.cons.pc.WakeAll?
    ensures forall i :: 0 <= i < |s.prods| ==> !s.prods[i].pc.Asleep?
  {
    hide Inv, Reached, WellShaped, Run, Shape, Half;
    ReachedInv(c, s);
    forall i | 0 <= i < |s.prods|
      ensures !s.prods[i].pc.Asleep?
    {
      if s.prods[i].pc.Asleep? {
        SleeperMissedNoCheck(c, s, i);
        SawOf(c, s, i);
        AllReleased(c, s);
        assert false;
      }
    }
  }

  lemma SawOf(c: Config, s: State, i: nat)
    requires Reached(c, s) && i < |s.prods|
    ensures Saw(c, s.prods[i], s.core)
  {
    hide Run, Saw, Inv;
    var producers: nat, body: Msg, steps: seq<Step> :| s == Run(c, producers, body, steps);
    SleeperSawClaims(c, producers, body, steps, i);
  }

  lemma AllReleased(c: Config, s: State)
    requires Inv(c, s) && s.core.g.head == |s.core.g.log|
    ensures |s.core.g.cl| == |s.core.g.rd| == c.segs
    ensures forall k :: 0 <= k < c.segs ==> s.core.g.cl[k] == s.core.g.rd[k]
  {
    hide Inv, Shape, Placed;
    OrderFacts(c, s);
    SealsShape(c, s);
    var g := s.core.g;
    forall k | 0 <= k < c.segs
      ensures g.cl[k] == g.rd[k]
    {
      if k in g.chain {
        var j :| 0 <= j < |g.chain| && g.chain[j] == k;
      }
    }
  }
}
