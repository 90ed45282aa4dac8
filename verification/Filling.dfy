/** Any producers, any schedule, nothing released: how full the ring is at every instant, and what a send on its own
    then finds. */
module Filling {
  import opened Laps
  import opened Machine
  import opened Invariant
  import opened Runs
  import opened Segments
  import opened Sleeping
  import opened Progress
  import opened FillingUp
  import opened Switches
  import Races

  // ---------------------------------------------------------------- nothing released

  /** A send at a switch left its segment full, and one about to read the claim word again saw nothing released. */
  predicate Piled(c: Config, p: Producer) {
    match p.pc
    case Reread(_) => p.snap.released == 0
    case FreeLoad(w) => w.pos == c.depth
    case Take(w, _) => w.pos == c.depth
    case SealLoad(w, _) => w.pos == c.depth
    case SealClear(w, _, _) => w.pos == c.depth
    case Move(w, _, _) => w.pos == c.depth
    case _ => true
  }

  /** While nothing is released every segment of the chain but the last is full, and none is left. */
  ghost predicate Stacked(c: Config, s: State) {
    s.core.g.head == 0 ==>
      && |s.core.g.rd| == |s.core.g.cl| == c.segs
      && s.core.g.followed == 0
      && (forall k :: 0 <= k < c.segs ==> s.core.g.rd[k] == 0)
      && (forall a :: 0 <= a < |s.core.g.chain| - 1 ==>
            s.core.g.chain[a] < c.segs && s.core.g.cl[s.core.g.chain[a]] == c.depth)
      && (forall i :: 0 <= i < |s.prods| ==> Piled(c, s.prods[i]))
  }

  lemma RereadFull(c: Config, s: State, i: nat)
    requires Plain(c) && Inv(c, s) && i < |s.prods| && s.prods[i].pc.Reread? && s.core.mem.claim == s.prods[i].pc.w
    ensures s.prods[i].pc.w.pos == s.prods[i].snap.released + c.depth
  {
    hide Inv, Shape, Keeps, Owes, Owns, Numbers;
    OffShape(c, s);
    RingLocalOf(c, s, i);
  }

  lemma PiledOwn(c: Config, s: State, i: nat, ch: Choice)
    requires Plain(c) && Inv(c, s) && WellShaped(c, s) && i < |s.prods| && Piled(c, s.prods[i])
    requires |s.core.g.rd| == c.segs && forall k :: 0 <= k < c.segs ==> s.core.g.rd[k] == 0
    ensures Piled(c, Next(c, s, ByProducer(i, ch)).prods[i])
  {
    hide Inv, Shape, SeqAt, ClaimSlot, SwitchStep, NapStep, FillStep;
    var pc := s.prods[i].pc;
    if Switching(pc) {
      PiledSwitch(c, s, i);
    } else if Napping(pc) || Owning(pc) {
      PiledRest(c, s, i, ch);
    } else if pc.Reread? && s.core.mem.claim == pc.w {
      RereadFull(c, s, i);
    }
  }

  lemma PiledSwitch(c: Config, s: State, i: nat)
    requires WellShaped(c, s) && i < |s.prods| && Switching(s.prods[i].pc) && Piled(c, s.prods[i])
    ensures Piled(c, SwitchStep(c, s, i).prods[i])
  {
    hide Shape, LowestFree, AnyFree, TakeBit, StoreSeal, MoveRing, SealOld, AddSwitch, PutBack;
  }

  lemma PiledRest(c: Config, s: State, i: nat, ch: Choice)
    requires WellShaped(c, s) && i < |s.prods|
    ensures Napping(s.prods[i].pc) ==> Piled(c, NapStep(c, s, i, ch).prods[i])
    ensures Owning(s.prods[i].pc) ==> Piled(c, FillStep(c, s, i, ch).prods[i])
  {
    hide Shape, SeqAt, AnyFree, EntryOf, AddWaiter, DropWaiter, WriteBody, CommitSlot, Rouse;
  }

  lemma WinGrows(c: Config, s: State, i: nat, ch: Choice)
    requires Plain(c) && Inv(c, s) && WellShaped(c, s) && Wins(s, i, ch)
    ensures var g, h, k := s.core.g, Produce(c, s, i, ch).core.g, s.core.mem.claim.seg;
      && h.chain == g.chain && h.rd == g.rd && h.head == g.head && h.followed == g.followed
      && |g.cl| == |h.cl| == c.segs
      && |g.chain| >= 1 && k == g.chain[|g.chain| - 1] < c.segs
      && forall a :: 0 <= a < c.segs && a != k ==> h.cl[a] == g.cl[a]
  {
    hide Inv, Shape, NapStep, FillStep, SwitchStep, LookStep;
    OffShape(c, s);
    FrontOf(c, s);
  }

  lemma MoveAdds(c: Config, s: State, i: nat, ch: Choice)
    requires Plain(c) && Inv(c, s) && WellShaped(c, s) && Moves(s, i)
    ensures var g, h, w := s.core.g, Produce(c, s, i, ch).core.g, s.core.mem.claim;
      && |h.chain| == |g.chain| + 1 && h.chain[..|g.chain|] == g.chain
      && h.rd == g.rd && h.cl == g.cl && h.head == g.head && h.followed == g.followed
      && |g.cl| == |g.rd| == c.segs && |g.chain| >= 1
      && w.seg == g.chain[|g.chain| - 1] < c.segs && w.pos == g.cl[w.seg]
  {
    hide Inv, Shape, NapStep, FillStep, SendStep;
    OffShape(c, s);
    FrontOf(c, s);
  }

  lemma LastApart(c: Config, s: State, a: nat)
    requires Inv(c, s) && a < |s.core.g.chain| - 1
    ensures s.core.g.chain[a] != s.core.g.chain[|s.core.g.chain| - 1]
  {
    hide Inv, Sealed, Fronts, Bits;
    ChainFacts(c, s);
  }

  lemma StackedFronts(c: Config, s: State, i: nat, ch: Choice)
    requires Plain(c) && Inv(c, s) && WellShaped(c, s) && i < |s.prods| && Stacked(c, s) && s.core.g.head == 0
    ensures var t := Produce(c, s, i, ch);
      && |t.core.g.rd| == |t.core.g.cl| == c.segs
      && t.core.g.followed == 0
      && (forall k :: 0 <= k < c.segs ==> t.core.g.rd[k] == 0)
      && (forall a :: 0 <= a < |t.core.g.chain| - 1 ==>
            t.core.g.chain[a] < c.segs && t.core.g.cl[t.core.g.chain[a]] == c.depth)
  {
    hide Inv, WellShaped, Produce;
    if Moves(s, i) {
      MoveAdds(c, s, i, ch);
      assert Piled(c, s.prods[i]);
    } else if Wins(s, i, ch) {
      WinGrows(c, s, i, ch);
      forall a | 0 <= a < |s.core.g.chain| - 1
        ensures s.core.g.chain[a] != s.core.mem.claim.seg
      {
        LastApart(c, s, a);
      }
    } else {
      QuietAccess(c, s, i, ch);
    }
  }

  lemma HeadStays(c: Config, s: State, i: nat, ch: Choice)
    requires Plain(c) && Inv(c, s) && WellShaped(c, s) && i < |s.prods|
    ensures Produce(c, s, i, ch).core.g.head == s.core.g.head
  {
    hide Inv, WellShaped, Produce;
    if Moves(s, i) {
      MoveAdds(c, s, i, ch);
    } else if Wins(s, i, ch) {
      WinGrows(c, s, i, ch);
    } else {
      QuietAccess(c, s, i, ch);
    }
  }

  lemma StackedProducer(c: Config, s: State, i: nat, ch: Choice)
    requires Plain(c) && Inv(c, s) && WellShaped(c, s) && i < |s.prods| && Stacked(c, s)
    ensures Stacked(c, Next(c, s, ByProducer(i, ch)))
  {
    hide Inv, WellShaped, Produce, Piled;
    var t := Next(c, s, ByProducer(i, ch));
    NextIs(c, s, i, ch);
    HeadStays(c, s, i, ch);
    if s.core.g.head == 0 {
      StackedFronts(c, s, i, ch);
      PiledOwn(c, s, i, ch);
      forall q | 0 <= q < |t.prods|
        ensures Piled(c, t.prods[q])
      {
        if q != i {
          OtherStays(c, s, i, ch, q);
        }
      }
    }
  }

  /** With every segment before the last full and nothing read, the consumer follows no seal. */
  lemma NoneToFollow(c: Config, s: State)
    requires Plain(c) && Inv(c, s) && Stacked(c, s) && s.core.g.head == 0
    ensures !s.core.cons.pc.GiveBack?
  {
    hide Inv, Piled;
    PlacementFacts(c, s);
  }

  lemma PiledAwake(c: Config, prods: seq<Producer>)
    requires forall i :: 0 <= i < |prods| ==> Piled(c, prods[i])
    ensures forall i :: 0 <= i < |prods| ==> Piled(c, WakeProducers(prods)[i])
  {
  }

  lemma StackedConsumer(c: Config, s: State, ch: Choice)
    requires Plain(c) && Inv(c, s) && WellShaped(c, s) && Stacked(c, s)
    ensures Stacked(c, Next(c, s, ByConsumer(ch)))
  {
    hide Inv, WellShaped, Piled, ConsumeCore, At;
    if s.core.g.head == 0 {
      NoneToFollow(c, s);
      PiledAwake(c, s.prods);
    }
    HeadGrows(c, s, ch);
  }

  lemma HeadGrows(c: Config, s: State, ch: Choice)
    requires WellShaped(c, s)
    ensures Consume(c, s, ch).core.g.head >= s.core.g.head
    ensures !s.core.cons.pc.GiveBack? ==>
      var g, h := s.core.g, Consume(c, s, ch).core.g;
      h.head == g.head ==> h.rd == g.rd && h.cl == g.cl && h.chain == g.chain && h.followed == g.followed
  {
    hide PcShape, Shape, SeqAt, BodyAt, AtCheck, Here, ReadStep;
    HeadReads(c, s, ch);
  }

  lemma HeadReads(c: Config, s: State, ch: Choice)
    requires Shape(c, s.core)
    ensures ReadStep(c, s.core, ch).g.head >= s.core.g.head
    ensures !s.core.cons.pc.GiveBack? ==>
      var g, h := s.core.g, ReadStep(c, s.core, ch).g;
      h.head == g.head ==> h.rd == g.rd && h.cl == g.cl && h.chain == g.chain && h.followed == g.followed
  {
    hide SeqAt, BodyAt, AtCheck, FreeSlot, Follow;
    FreeCounts(c, s.core);
    FollowCounts(c, s.core);
  }

  lemma FreeCounts(c: Config, x: Core)
    requires Shape(c, x)
    ensures forall p, got :: FreeSlot(c, x, p, got).g.head == x.g.head + 1
  {
  }

  lemma FollowCounts(c: Config, x: Core)
    requires Shape(c, x)
    ensures forall k :: 0 <= k < c.segs ==> Follow(c, x, k).g.head == x.g.head
  {
  }

  lemma {:induction false} StackedRun(c: Config, producers: nat, body: Msg, steps: seq<Step>)
    requires Plain(c)
    ensures Stacked(c, Run(c, producers, body, steps))
    decreases |steps|
  {
    hide Inv, Next, Init, Exec, Stacked;
    if steps == [] {
      StackedInit(c, producers, body);
      RunInv(c, producers, body, []);
    } else {
      var m := |steps| - 1;
      StackedRun(c, producers, body, steps[..m]);
      RunNext(c, producers, body, steps[..m], steps[m]);
      assert steps[..m] + [steps[m]] == steps;
      StackedStep(c, Run(c, producers, body, steps[..m]), steps[m]);
    }
  }

  lemma StackedStep(c: Config, s: State, step: Step)
    requires Plain(c) && Inv(c, s) && WellShaped(c, s) && Stacked(c, s)
    ensures Stacked(c, Next(c, s, step))
  {
    hide Inv, WellShaped, Stacked, Produce, Consume;
    match step
    case ByProducer(i, ch) => if i < |s.prods| { StackedProducer(c, s, i, ch); }
    case ByConsumer(ch) => StackedConsumer(c, s, ch);
  }

  lemma StackedInit(c: Config, producers: nat, body: Msg)
    requires Plain(c)
    ensures Stacked(c, Init(c, producers, body))
  {
  }

  // ---------------------------------------------------------------- how full

  lemma StackedOf(c: Config, s: State)
    requires Reached(c, s)
    ensures Stacked(c, s)
  {
    hide Run, Stacked;
    var producers: nat, body: Msg, steps: seq<Step> :| s == Run(c, producers, body, steps);
    StackedRun(c, producers, body, steps);
  }

  lemma {:induction false} Piles(c: Config, s: State, a: nat)
    requires Plain(c) && Inv(c, s) && Stacked(c, s) && s.core.g.head == 0 && a < |s.core.g.chain| - 1
    ensures Shape(c, s.core) && Chained(c, s.core)
    ensures s.core.g.off[s.core.g.chain[a]] + s.core.g.cl[s.core.g.chain[a]] == (a + 1) * c.depth
  {
    hide Inv, Shape, Piled;
    FirstOf(c, s, a);
    if a > 0 {
      Piles(c, s, a - 1);
      NoGap(c, s, a - 1);
      MulOneMore(a, c.depth);
    }
  }

  /** While nothing is released, whatever the producers and the schedule: every segment of the chain but the last is
      full, the claims are those segments' slots and the last one's, and the moves won are the chain's links. */
  lemma FillLevel(c: Config, s: State)
    requires Reached(c, s) && s.core.g.head == 0
    ensures 1 <= |s.core.g.chain| <= c.segs && s.core.mem.claim.seg < c.segs == |s.core.g.cl|
    ensures forall a :: 0 <= a < |s.core.g.chain| - 1 ==>
      s.core.g.chain[a] < c.segs && s.core.g.cl[s.core.g.chain[a]] == c.depth
    ensures s.core.g.cl[s.core.mem.claim.seg] <= c.depth
    ensures |s.core.g.log| == (|s.core.g.chain| - 1) * c.depth + s.core.g.cl[s.core.mem.claim.seg]
    ensures s.core.g.won == |s.core.g.chain| - 1
    ensures |s.core.g.log| == c.segs * c.depth <==>
      |s.core.g.chain| == c.segs && s.core.g.cl[s.core.mem.claim.seg] == c.depth
  {
    hide Inv, Reached, Shape, Piled;
    ReachedInv(c, s);
    StackedOf(c, s);
    CapacityHolds(c, s);
    SwitchesConserved(c, s);
    OffShape(c, s);
    FrontOf(c, s);
    var l := |s.core.g.chain| - 1;
    if l > 0 {
      Piles(c, s, l - 1);
      NoGap(c, s, l - 1);
    } else {
      FirstOf(c, s, 0);
    }
    LevelIs(s.core.g.cl[s.core.mem.claim.seg], l, c.segs, c.depth);
  }

  /** A filling of whole segments and a part of one more is every segment's exactly when both are at their most. */
  lemma LevelIs(rest: nat, l: nat, segs: nat, d: nat)
    requires rest <= d && l < segs && d >= 1
    ensures l * d + rest == segs * d <==> l + 1 == segs && rest == d
  {
    MulOneMore(l, d);
    MulMono(l + 1, segs, d);
    if l + 1 < segs {
      MulOneMore(l + 1, d);
      MulMono(l + 2, segs, d);
    }
  }

  // ---------------------------------------------------------------- a send on its own

  /** Nobody is in a send. */
  predicate AllIdle(prods: seq<Producer>) {
    forall q :: 0 <= q < |prods| ==> prods[q].pc.Idle?
  }

  /** From rest, at a segment with room: the send goes through. */
  lemma SendEnters(c: Config, s: State, i: nat) returns (n: nat)
    requires Plain(c) && Inv(c, s) && i < |s.prods| && s.prods[i].pc.Idle? && Shape(c, s.core)
    requires s.core.mem.claim.seg < c.segs == |s.core.g.cl| == |s.core.g.rd|
    requires s.core.g.cl[s.core.mem.claim.seg] < s.core.g.rd[s.core.mem.claim.seg] + c.depth
    ensures var t := Alone(c, s, i, n);
      SentOne(c, s.core, t.core, Machine.Msg(i, s.prods[i].n + 1)) && |t.prods| == |s.prods| && t.prods[i].pc.Idle?
  {
    hide Inv, Alone, Shape, SentOne;
    AloneLooks(c, s, i);
    AloneInv(c, s, i, 2);
    AloneSends(c, Alone(c, s, i, 2), i);
    n := 2 + SendCost(c, s.core.mem.claim);
    AloneSplits(c, s, i, 2, SendCost(c, s.core.mem.claim));
  }

  /** From rest, at a full segment with another free: the send moves the ring and goes through. */
  lemma SendCrosses(c: Config, s: State, i: nat) returns (n: nat)
    requires Plain(c) && Inv(c, s) && Reached(c, s) && i < |s.prods| && AllIdle(s.prods) && Shape(c, s.core)
    requires s.core.mem.claim.seg < c.segs == |s.core.g.cl| == |s.core.g.rd|
    requires s.core.g.cl[s.core.mem.claim.seg] == s.core.g.rd[s.core.mem.claim.seg] + c.depth
    requires |s.core.g.chain| < c.segs
    ensures var t := Alone(c, s, i, n);
      && |t.core.g.log| == |s.core.g.log| + 1
      && t.core.g.log[..|s.core.g.log|] == s.core.g.log
      && t.core.g.log[|s.core.g.log|].msg == Machine.Msg(i, s.prods[i].n + 1)
      && t.core.g.log[|s.core.g.log|].fate == Committed
      && |t.prods| == |s.prods|
      && t.prods[i].pc.Idle?
  {
    hide Inv, Reached, Alone, Shape, AnyFree, LowestFree;
    ManySegments(c, s);
    FreeLeft(c, s, i);
    Races.SeesFull(c, s, i);
    var a := Alone(c, s, i, 4);
    AloneReached(c, s, i, 4);
    FreeThere(c, s.core.mem.inUse);
    var k := LowestFree(c, s.core.mem.inUse, 0);
    OutsideChain(c, s, k);
    Races.FreeIsEmpty(c, s, k);
    Races.SwitchesTo(c, a, i, k, s.core.mem.seals[k].pos);
    var b := Alone(c, a, i, 7);
    AloneReached(c, a, i, 7);
    OffShape(c, b);
    DepthIs(c);
    AloneReloads(c, b, i);
    AloneInv(c, b, i, 1);
    AloneSends(c, Alone(c, b, i, 1), i);
    var m := SendCost(c, b.core.mem.claim);
    AloneSplits(c, b, i, 1, m);
    AloneSplits(c, s, i, 4, 7);
    AloneSplits(c, s, i, 11, 1 + m);
    n := 11 + (1 + m);
  }

  lemma ManySegments(c: Config, s: State)
    requires Plain(c) && Inv(c, s) && |s.core.g.chain| < c.segs
    ensures c.multi
  {
    hide Inv;
    FrontOf(c, s);
  }

  lemma FreeThere(c: Config, inUse: set<nat>)
    requires AnyFree(c, inUse)
    ensures exists k :: 0 <= k < c.segs && k !in inUse
  {
  }

  lemma OutsideChain(c: Config, s: State, k: nat)
    requires Inv(c, s) && k < c.segs && k !in s.core.mem.inUse
    ensures k !in s.core.g.chain && |s.core.mem.seals| == c.segs
  {
    hide Inv, Sealed, Fronts;
    ChainFacts(c, s);
    SealsAre(c, s);
  }

  /** From rest, with the last segment full and all in the chain: refused, and nothing changed. */
  lemma SendMissesOut(c: Config, s: State, i: nat) returns (n: nat)
    requires Plain(c) && Inv(c, s) && i < |s.prods| && AllIdle(s.prods) && Shape(c, s.core)
    requires s.core.mem.claim.seg < c.segs == |s.core.g.cl| == |s.core.g.rd|
    requires s.core.g.cl[s.core.mem.claim.seg] == s.core.g.rd[s.core.mem.claim.seg] + c.depth
    requires |s.core.g.chain| == c.segs
    ensures var t := Alone(c, s, i, n); i < |t.prods| && t.prods[i].pc.Full? && t.core == s.core
  {
    hide Inv, Alone, Shape, AnyFree;
    FreeLeft(c, s, i);
    Races.SeesFull(c, s, i);
    n := 4;
    if c.multi {
      AloneInv(c, s, i, 4);
      AloneFindsNone(c, Alone(c, s, i, 4), i, s.core.mem.claim);
      AloneSplits(c, s, i, 4, 1);
      n := 5;
    }
  }

  /** From rest, in any reached state, what a send of any producer's finds on its own. It is refused exactly when
      every segment is in the chain and the last is full, and else its message is at the back of the log,
      committed. With nothing released, that is exactly when the ring holds segments times depth claims. */
  lemma LoneSend(c: Config, s: State, i: nat) returns (n: nat)
    requires Reached(c, s) && i < |s.prods| && AllIdle(s.prods)
    ensures s.core.mem.claim.seg < c.segs == |s.core.g.cl| == |s.core.g.rd|
    ensures var t, k := Alone(c, s, i, n), s.core.mem.claim.seg;
      && |t.prods| == |s.prods|
      && (t.prods[i].pc.Full? <==> |s.core.g.chain| == c.segs && s.core.g.cl[k] == s.core.g.rd[k] + c.depth)
      && (s.core.g.head == 0 ==> (t.prods[i].pc.Full? <==> |s.core.g.log| == c.segs * c.depth))
      && (t.prods[i].pc.Full? ==> t.core == s.core)
      && (!t.prods[i].pc.Full? ==>
            && t.prods[i].pc.Idle?
            && |t.core.g.log| == |s.core.g.log| + 1
            && t.core.g.log[..|s.core.g.log|] == s.core.g.log
            && t.core.g.log[|s.core.g.log|].msg == Machine.Msg(i, s.prods[i].n + 1)
            && t.core.g.log[|s.core.g.log|].fate == Committed)
  {
    hide Inv, Reached, Alone, Shape;
    ReachedInv(c, s);
    OffShape(c, s);
    FrontOf(c, s);
    CapacityHolds(c, s);
    if s.core.g.head == 0 {
      FillLevel(c, s);
      StackedOf(c, s);
    }
    var k := s.core.mem.claim.seg;
    if s.core.g.cl[k] < s.core.g.rd[k] + c.depth {
      n := SendEnters(c, s, i);
    } else if |s.core.g.chain| < c.segs {
      n := SendCrosses(c, s, i);
    } else {
      n := SendMissesOut(c, s, i);
    }
  }
}
