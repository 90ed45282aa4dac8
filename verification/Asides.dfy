/** What one side of the ring can rely on while the others run. */
module Asides {
  import opened Machine
  import opened Invariant
  import opened Runs
  import opened ProducerSteps
  import opened Delivery
  import opened Sleeping
  import opened Segments
  import CommitProofs
  import ConsumerSteps
  import ConsumerProofs

  // ---------------------------------------------------------------- the log only grows

  /** Claims keep their place and message, a settled claim its fate, and releases and reads only add. */
  predicate Later(g: Ghost, h: Ghost) {
    && |g.log| <= |h.log|
    && (forall n :: 0 <= n < |g.log| ==> h.log[n].msg == g.log[n].msg)
    && (forall n :: 0 <= n < |g.log| && g.log[n].fate != Filling ==> h.log[n].fate == g.log[n].fate)
    && g.head <= h.head
    && g.delivered <= h.delivered
  }

  lemma LaterStep(q: Queue, e: Event, r: Queue)
    requires QueueStep(q, e, r)
    ensures |q.entries| <= |r.entries|
    ensures forall n :: 0 <= n < |q.entries| ==> r.entries[n].msg == q.entries[n].msg
    ensures forall n :: 0 <= n < |q.entries| && q.entries[n].fate != Filling ==> r.entries[n] == q.entries[n]
    ensures q.head <= r.head && q.read <= r.read
  {
  }

  lemma LaterNext(c: Config, s: State, step: Step)
    requires Reached(c, s)
    ensures WellShaped(c, s) && Later(s.core.g, Next(c, s, step).core.g)
  {
    hide Reached, Next, WellShaped, EventOf, QueueStep;
    RefinesQueue(c, s, step);
    var q, r := QueueOf(s.core.g), QueueOf(Next(c, s, step).core.g);
    LaterStep(q, EventOf(c, s, step), r);
    forall n | 0 <= n < |s.core.g.log|
      ensures Next(c, s, step).core.g.log[n].msg == s.core.g.log[n].msg
      ensures s.core.g.log[n].fate != Filling ==> Next(c, s, step).core.g.log[n].fate == s.core.g.log[n].fate
    {
      assert r.entries[n].msg == q.entries[n].msg;
    }
  }

  lemma {:induction false} LaterRun(c: Config, producers: nat, body: Msg, before: seq<Step>, after: seq<Step>)
    requires Plain(c) && before <= after
    ensures Later(Run(c, producers, body, before).core.g, Run(c, producers, body, after).core.g)
    decreases |after|
  {
    hide Inv, Next, Run;
    if before != after {
      var m := |after| - 1;
      LaterRun(c, producers, body, before, after[..m]);
      RunNext(c, producers, body, after[..m], after[m]);
      assert after[..m] + [after[m]] == after;
      LaterNext(c, Run(c, producers, body, after[..m]), after[m]);
    }
  }

  // ---------------------------------------------------------------- a committed slot

  /** A claim's segment and position never change. */
  lemma PlacesStay(c: Config, s: State, step: Step)
    requires WellShaped(c, s)
    ensures var g, h := s.core.g, Next(c, s, step).core.g;
      && |g.log| <= |h.log|
      && forall n :: 0 <= n < |g.log| ==> h.log[n].seg == g.log[n].seg && h.log[n].pos == g.log[n].pos
  {
    hide WellShaped, Produce, Consume;
    match step
    case ByProducer(i, ch) => if i < |s.prods| { ProducerPlaces(c, s, i, ch); }
    case ByConsumer(ch) => ConsumerPlaces(c, s, ch);
  }

  lemma ProducerPlaces(c: Config, s: State, i: nat, ch: Choice)
    requires WellShaped(c, s) && i < |s.prods|
    ensures var g, h := s.core.g, Produce(c, s, i, ch).core.g;
      && |g.log| <= |h.log|
      && forall n :: 0 <= n < |g.log| ==> h.log[n].seg == g.log[n].seg && h.log[n].pos == g.log[n].pos
  {
    hide WellShaped, Produce, EntryOf;
    var pc := s.prods[i].pc;
    if pc.Commit? || pc.Tomb? {
      SettlePlaces(c, s, i, ch);
    } else if EventOf(c, s, ByProducer(i, ch)) == Stutter {
      QuietProducer(c, s, i, ch);
    } else {
      ClaimPlaces(c, s, i, ch);
    }
  }

  lemma SettlePlaces(c: Config, s: State, i: nat, ch: Choice)
    requires WellShaped(c, s) && i < |s.prods| && (s.prods[i].pc.Commit? || s.prods[i].pc.Tomb?)
    ensures var g, h := s.core.g, Produce(c, s, i, ch).core.g;
      && |g.log| == |h.log|
      && forall n :: 0 <= n < |g.log| ==> h.log[n].seg == g.log[n].seg && h.log[n].pos == g.log[n].pos
  {
    hide Shape, SetSeq, EntryOf, SwitchStep, NapStep, SendStep, WriteBody, Rouse;
  }

  lemma ClaimPlaces(c: Config, s: State, i: nat, ch: Choice)
    requires WellShaped(c, s) && i < |s.prods| && s.prods[i].pc.Cas?
    ensures s.core.g.log <= Produce(c, s, i, ch).core.g.log
  {
    hide Shape, EntryOf, SwitchStep, NapStep, FillStep, LookStep;
  }

  lemma ConsumerPlaces(c: Config, s: State, ch: Choice)
    requires WellShaped(c, s)
    ensures Consume(c, s, ch).core.g.log == s.core.g.log
  {
    hide WellShaped, Consume;
    if s.core.cons.pc.Store? || s.core.cons.pc.Skip? {
      FreePlaces(c, s, ch);
    } else {
      QuietConsumer(c, s, ch);
    }
  }

  lemma FreePlaces(c: Config, s: State, ch: Choice)
    requires WellShaped(c, s) && (s.core.cons.pc.Store? || s.core.cons.pc.Skip?)
    ensures Consume(c, s, ch).core.g.log == s.core.g.log
  {
    hide PcShape, Shape, SetSeq, AtCheck, RestStep, HandStep;
  }

  /** A committed claim not released has its word and its message in its slot. */
  lemma CommittedHere(c: Config, s: State, n: nat)
    requires Plain(c) && Inv(c, s) && s.core.g.head <= n < |s.core.g.log| && s.core.g.log[n].fate == Committed
    ensures Shape(c, s.core) && s.core.g.log[n].seg < c.segs
    ensures var e := s.core.g.log[n];
      && SeqAt(c, s.core.mem, e.seg, e.pos) == CommittedAt(c, e.pos)
      && BodyAt(c, s.core.mem, e.seg, e.pos) == e.msg
  {
    hide Inv, Ordered, Chained;
    OrderFacts(c, s);
    SlotFacts(c, s);
    assert EntryPlaced(c, s.core, n);
    assert SlotOk(c, s.core, s.core.g.log[n].seg, s.core.g.log[n].pos);
  }

  /** Between its commit and its release nobody touches a slot: whatever access comes next, its word and its
      message stay. */
  lemma CommittedStays(c: Config, s: State, step: Step, n: nat)
    requires Reached(c, s) && n < |s.core.g.log| && s.core.g.log[n].fate == Committed && s.core.g.head <= n
    ensures WellShaped(c, s) && Shape(c, Next(c, s, step).core)
    ensures Next(c, s, step).core.g.head <= n ==>
      var e, m, k := s.core.g.log[n], s.core.mem, Next(c, s, step).core.mem;
      && e.seg < c.segs
      && SeqAt(c, k, e.seg, e.pos) == SeqAt(c, m, e.seg, e.pos) == CommittedAt(c, e.pos)
      && BodyAt(c, k, e.seg, e.pos) == BodyAt(c, m, e.seg, e.pos) == e.msg
  {
    hide Inv, Reached, Next, WellShaped, SeqAt, BodyAt;
    ReachedInv(c, s);
    ReachedNext(c, s, step);
    ReachedInv(c, Next(c, s, step));
    ShapeOf(c, Next(c, s, step));
    PlacesStay(c, s, step);
    LaterNext(c, s, step);
    CommittedHere(c, s, n);
    if Next(c, s, step).core.g.head <= n {
      CommittedHere(c, Next(c, s, step), n);
    }
  }

  lemma ShapeOf(c: Config, s: State)
    requires WellShaped(c, s)
    ensures Shape(c, s.core)
  {
  }

  // ---------------------------------------------------------------- a producer's place

  lemma OtherStep(c: Config, s: State, step: Step, i: nat)
    requires WellShaped(c, s) && i < |s.prods| && !s.prods[i].pc.Asleep?
    requires !(step.ByProducer? && step.i == i)
    ensures Next(c, s, step).prods[i] == s.prods[i]
  {
    hide WellShaped, Produce, ConsumeCore;
    if step.ByProducer? && step.i < |s.prods| {
      OtherStays(c, s, step.i, step.ch, i);
    }
  }

  /** Whatever the others do, a producer that does not sleep stays where it is. */
  lemma {:induction false} OthersLeave(c: Config, producers: nat, body: Msg, before: seq<Step>, after: seq<Step>,
                                       i: nat)
    requires Plain(c) && before <= after && i < producers
    requires forall n :: |before| <= n < |after| ==> !(after[n].ByProducer? && after[n].i == i)
    requires !Run(c, producers, body, before).prods[i].pc.Asleep?
    ensures Run(c, producers, body, after).prods[i] == Run(c, producers, body, before).prods[i]
    decreases |after|
  {
    hide Inv, Next, Run;
    if before != after {
      var m := |after| - 1;
      OthersLeave(c, producers, body, before, after[..m], i);
      RunNext(c, producers, body, after[..m], after[m]);
      assert after[..m] + [after[m]] == after;
      OtherStep(c, Run(c, producers, body, after[..m]), after[m], i);
    }
  }

  lemma WokenStep(c: Config, s: State, step: Step, i: nat)
    requires WellShaped(c, s) && i < |s.prods| && !(step.ByProducer? && step.i == i)
    requires s.prods[i].pc.Asleep? || s.prods[i].pc.CountOut?
    ensures Next(c, s, step).prods[i].n == s.prods[i].n
    ensures Next(c, s, step).prods[i].pc == s.prods[i].pc || Next(c, s, step).prods[i].pc == CountOut
  {
    hide WellShaped, Produce, ConsumeCore;
    if step.ByProducer? && step.i < |s.prods| {
      OtherStays(c, s, step.i, step.ch, i);
    }
  }

  /** A wait sleeps where the sequence is still the one seen, and a sleep ends by itself at a timeout. */
  lemma WaitLands(c: Config, s: State, i: nat)
    requires Inv(c, s) && i < |s.prods| && (s.prods[i].pc.Wait? || s.prods[i].pc.Asleep?)
    ensures WellShaped(c, s)
    ensures s.prods[i].pc.Wait? ==>
      Next(c, s, ByProducer(i, Go)) ==
      Put(s, i, s.core, if s.core.mem.wake == s.prods[i].pc.seen then Asleep(s.prods[i].pc.seen) else CountOut)
    ensures s.prods[i].pc.Asleep? ==> Next(c, s, ByProducer(i, Fail)) == Put(s, i, s.core, CountOut)
  {
    hide Inv, Shape, PcShape;
    InvShape(c, s);
  }

  /** A sleeping producer is left asleep or woken. */
  lemma {:induction false} OthersWake(c: Config, producers: nat, body: Msg, before: seq<Step>, after: seq<Step>, i: nat)
    requires Plain(c) && before <= after && i < producers
    requires forall n :: |before| <= n < |after| ==> !(after[n].ByProducer? && after[n].i == i)
    requires Run(c, producers, body, before).prods[i].pc.Asleep?
    ensures var p, q := Run(c, producers, body, before).prods[i], Run(c, producers, body, after).prods[i];
      q.n == p.n && (q.pc == p.pc || q.pc == CountOut)
    decreases |after|
  {
    hide Inv, Next, Run;
    if before != after {
      var m := |after| - 1;
      OthersWake(c, producers, body, before, after[..m], i);
      RunNext(c, producers, body, after[..m], after[m]);
      assert after[..m] + [after[m]] == after;
      WokenStep(c, Run(c, producers, body, after[..m]), after[m], i);
    }
  }

  // ---------------------------------------------------------------- the consumer's place

  lemma ProducerWakes(c: Config, s: State, i: nat, ch: Choice)
    requires WellShaped(c, s) && i < |s.prods|
    ensures var x, y := s.core.cons, Produce(c, s, i, ch).core.cons;
      y == x || (x.pc.Sleeping? && y == x.(pc := FlagClear))
  {
    hide Shape, LowestFree, SeqAt, AnyFree, EntryOf, SetBody, SetSeq, NapStep, SwitchStep;
    SwitchWakes(c, s, i, ch);
  }

  lemma SwitchWakes(c: Config, s: State, i: nat, ch: Choice)
    requires WellShaped(c, s) && i < |s.prods|
    ensures SwitchStep(c, s, i).core.cons == s.core.cons && NapStep(c, s, i, ch).core.cons == s.core.cons
  {
    hide Shape, LowestFree, SeqAt, AnyFree;
  }

  /** Whatever the producers do, a consumer that does not sleep stays where it is, one that does is left
      asleep or woken, and nothing is released or read for it. */
  lemma {:induction false} ProducersLeave(c: Config, producers: nat, body: Msg, before: seq<Step>, after: seq<Step>)
    requires Plain(c) && before <= after
    requires forall n :: |before| <= n < |after| ==> after[n].ByProducer?
    ensures var x, y := Run(c, producers, body, before).core, Run(c, producers, body, after).core;
      && SamePlace(x.g, y.g)
      && (y.cons == x.cons || (x.cons.pc.Sleeping? && y.cons == x.cons.(pc := FlagClear)))
    decreases |after|
  {
    hide Inv, Run, Produce;
    if before != after {
      var m := |after| - 1;
      ProducersLeave(c, producers, body, before, after[..m]);
      RunNext(c, producers, body, after[..m], after[m]);
      assert after[..m] + [after[m]] == after;
      var r := Run(c, producers, body, after[..m]);
      if after[m].i < |r.prods| {
        ProducerWakes(c, r, after[m].i, after[m].ch);
        ProducerPlace(c, r, after[m].i, after[m].ch);
      }
    } else {
      RunInv(c, producers, body, before);
      ChainOf(c, Run(c, producers, body, before));
    }
  }

  // ---------------------------------------------------------------- a ring moved has room

  lemma MoveLands(c: Config, s: State, i: nat)
    requires Plain(c) && Inv(c, s) && WellShaped(c, s) && Reached(c, s) && i < |s.prods|
    requires s.prods[i].pc.Move? && s.core.mem.claim == s.prods[i].pc.w
    ensures Produce(c, s, i, Go).core.mem ==
      s.core.mem.(claim := Word(s.prods[i].pc.k, s.prods[i].pc.start, s.prods[i].pc.w.waiting))
    ensures s.prods[i].pc.k < c.segs
    ensures SeqAt(c, s.core.mem, s.prods[i].pc.k, s.prods[i].pc.start) == Claimable(s.prods[i].pc.start)
  {
    hide Inv, Reached, SeqAt;
    StaleSwitchIsSafe(c, s, i);
  }

  // ---------------------------------------------------------------- a send's claim

  /** A producer that has not begun its send number `n` has no claim under it. */
  lemma NotYetClaimed(c: Config, s: State, i: nat)
    requires Inv(c, s) && i < |s.prods| && s.prods[i].pc.Idle?
    ensures forall e :: 0 <= e < |s.core.g.log| ==> s.core.g.log[e].msg != Machine.Msg(i, s.prods[i].n + 1)
  {
    hide Inv, Shape;
    RingLocalOf(c, s, i);
  }

  /** The claim word always names a segment of the ring. */
  lemma ClaimNamesSegment(c: Config, s: State)
    requires Inv(c, s)
    ensures s.core.mem.claim.seg < c.segs
  {
    hide Inv, Shape, Sealed, Fronts, Bits;
    ChainFacts(c, s);
  }

  /** Up to its claim, and through a refusal, a send has no claim under its number. */
  lemma NothingClaimed(c: Config, s: State, i: nat)
    requires Inv(c, s) && i < |s.prods| && (s.prods[i].pc.Full? || s.prods[i].pc.Look?)
    ensures forall e :: 0 <= e < |s.core.g.log| ==> s.core.g.log[e].msg != Machine.Msg(i, s.prods[i].n)
  {
    hide Inv, Shape;
    RingLocalOf(c, s, i);
  }

  /** A producer at its fill has its claim. */
  lemma ClaimAtFill(c: Config, s: State, i: nat)
    requires Inv(c, s) && i < |s.prods| && s.prods[i].pc.Fill?
    ensures var log := s.core.g.log;
      exists e :: 0 <= e < |log| && log[e].msg == Machine.Msg(i, s.prods[i].n) && log[e].fate == Filling
  {
    hide Inv;
    RingLocalOf(c, s, i);
    var w := s.prods[i].pc.w;
    assert s.core.g.log[s.core.g.off[w.seg] + w.pos].fate == Filling;
  }

  /** The commit store commits this send's one claim. */
  lemma CommitLands(c: Config, s: State, i: nat)
    requires Plain(c) && Inv(c, s) && WellShaped(c, s) && i < |s.prods|
    requires s.prods[i].pc.Commit? || s.prods[i].pc.Tomb?
    ensures var log := Produce(c, s, i, Go).core.g.log;
      exists e :: 0 <= e < |log| && log[e].msg == Machine.Msg(i, s.prods[i].n)
        && log[e].fate == if s.prods[i].pc.Tomb? then Dead else Committed
  {
    hide CoreInv, Inv, Ranged, WellShaped, Shape, Local, EntryOf, SwitchStep, NapStep, SendStep, CommitSlot,
         CommitProofs.AtSlot, CommitProofs.Committing, WriteBody, Rouse;
    var p := s.prods[i];
    var fate := if p.pc.Tomb? then Dead else Committed;
    InvAt(c, s, i);
    SlotReady(c, s.core, i, p);
    CommitReady(c, s.core, i, p, fate);
    CommitProofs.CommitEntry(c, s.core, CommitSlot(c, s.core, p.pc.w, EntryOf(c, s.core.g, i, p.n), fate), i, p, fate);
    SlotIsMine(c, s.core, i, p);
    var log := Produce(c, s, i, Go).core.g.log;
    var e := s.core.g.off[p.pc.w.seg] + p.pc.w.pos;
    assert log[e].msg == Machine.Msg(i, p.n);
  }

  lemma SlotIsMine(c: Config, x: Core, i: nat, p: Producer)
    requires CommitProofs.AtSlot(c, x, i, p)
    ensures Shape(c, x) && p.pc.w.seg < |x.g.off|
    ensures var e := x.g.off[p.pc.w.seg] + p.pc.w.pos; 0 <= e < |x.g.log| && x.g.log[e].msg == Machine.Msg(i, p.n)
  {
    ConsumerSteps.CoreShape(c, x);
    hide CoreInv, Sends, Keeps, Owes, Numbers, Naps, Wakes;
  }

  /** The checkpoint always names a segment of the ring. */
  lemma CheckpointIsGood(c: Config, s: State)
    requires Inv(c, s) && !Present(s.core.cons.pc)
    ensures s.core.mem.ckpt.cur < c.segs && s.core.cons.switches == 0
  {
    hide Inv, Shape;
    PlacementFacts(c, s);
  }

  /** With the role about to be cleared the checkpoint has all the handle has. */
  lemma CheckpointSaved(c: Config, s: State)
    requires Inv(c, s) && s.core.cons.pc.RoleClear?
    ensures s.core.mem.ckpt == Checkpoint(s.core.cons.cur, s.core.cons.pos, s.core.cons.resume)
  {
    hide Inv;
    PlacementFacts(c, s);
  }

  // ---------------------------------------------------------------- the consumer's progress

  /** The first claim not yet released. */
  function Front(g: Ghost): Msg {
    if g.head < |g.log| then g.log[g.head].msg else Machine.Msg(0, 0)
  }

  lemma BodyIsFront(c: Config, s: State)
    requires Plain(c) && Inv(c, s) && WellShaped(c, s) && s.core.cons.pc.Hold?
    ensures s.core.g.head < |s.core.g.log| && s.core.g.log[s.core.g.head].fate == Committed
    ensures BodyAt(c, s.core.mem, s.core.cons.cur, s.core.cons.pos) == Front(s.core.g)
  {
    hide CoreInv, Inv, BodyAt, Placement;
    InvCoreOf(c, s);
    PlacementFacts(c, s);
    ConsumerProofs.BodyIsNext(c, s.core);
  }

  lemma InvCoreOf(c: Config, s: State)
    requires Inv(c, s)
    ensures CoreInv(c, s.core)
  {
    hide CoreInv, Ranged, Local;
  }

  /** A consumer that leaves its segment leaves at least one behind it, and one that skips has a claim to
      release. */
  lemma MoreLeft(c: Config, s: State)
    requires Inv(c, s)
    ensures s.core.cons.pc.GiveBack? ==> |s.core.g.chain| >= 2
    ensures s.core.cons.pc.Skip? ==> s.core.g.head < |s.core.g.log|
  {
    hide Inv, Placement;
    PlacementFacts(c, s);
  }

  /** The claims the consumer has to release and the segments it has to leave. */
  function LeftOf(g: Ghost): nat {
    (if |g.log| > g.head then |g.log| - g.head else 0) + |g.chain|
  }

  // ---------------------------------------------------------------- an empty ring

  /** The consumer's segment is read to its claim frontier, or its next claim is still being filled. */
  predicate Stuck(g: Ghost, cur: nat) {
    && cur < |g.rd|
    && cur < |g.cl|
    && (g.rd[cur] == g.cl[cur] || (g.head < |g.log| && g.log[g.head].fate == Filling))
  }

  /** Nothing is there to read: everything claimed is released, or the next claim is being filled, or the
      seal the consumer would follow is owed. */
  ghost predicate Blocked(g: Ghost, cur: nat) {
    g.head == |g.log| || (g.head < |g.log| && g.log[g.head].fate == Filling) || cur in g.debt
  }

  lemma SlotNotReady(c: Config, s: State)
    requires Plain(c) && Inv(c, s) && s.core.cons.pc.SlotLook?
    ensures Shape(c, s.core)
    ensures var x := s.core;
      var v := SeqAt(c, x.mem, x.cons.cur, x.cons.pos);
      v != CommittedAt(c, x.cons.pos) && !(c.tombs && v == TombAt(c, x.cons.pos)) ==> Stuck(x.g, x.cons.cur)
  {
    hide Inv, Sealed, Bits;
    OrderFacts(c, s);
    SlotFacts(c, s);
    PlacementFacts(c, s);
    assert SlotOk(c, s.core, s.core.cons.cur, s.core.cons.pos);
  }

  lemma SealNotThere(c: Config, s: State)
    requires Plain(c) && Inv(c, s) && (s.core.cons.pc.SealLook? || (!c.multi && s.core.cons.pc.SlotLook?))
    requires Stuck(s.core.g, s.core.cons.cur)
    ensures |s.core.mem.seals| == c.segs && s.core.cons.cur < c.segs
    ensures var x := s.core;
      var seal := x.mem.seals[x.cons.cur];
      !c.multi || !(seal.moved && seal.pos == x.cons.pos && seal.seg < c.segs) ==> Blocked(x.g, x.cons.cur)
  {
    hide Inv, Bits;
    OrderFacts(c, s);
    ChainFacts(c, s);
    PlacementFacts(c, s);
    Pigeonhole(s.core.g.chain, c.segs);
    var g := s.core.g;
    if |g.chain| > 1 {
      assert LinkOk(c, s.core, g.chain[0]);
      assert g.nxt[g.chain[0]] == g.chain[1];
    }
  }
}
