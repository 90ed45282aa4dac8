/** The counts of segment switches at rest: when nothing is being sent and everything is read, the ring is in one
    segment, and the producers' count is the consumer's. */
module Switches {
  import opened Machine
  import opened Invariant
  import opened Runs
  import opened Segments
  import opened Sleeping
  import Progress

  // ---------------------------------------------------------------- an empty last segment

  /** A send past its switch CAS, or past a load of the claim word, with a look at the word's slot still to come
      or seen claimable. One that is about to read the word again holds one that is not the word's place. */
  predicate Headed(m: Memory, pc: Pc) {
    || pc.SealStore? || pc.CountSwitch? || pc.Load? || pc.Look? || pc.Cas?
    || (pc.Reread? && (pc.w.seg != m.claim.seg || pc.w.pos != m.claim.pos))
  }

  /** A ring of more than one segment whose last is empty. */
  ghost predicate EndsEmpty(x: Core) {
    && |x.g.chain| >= 2
    && x.mem.claim.seg < |x.g.rd|
    && x.mem.claim.seg < |x.g.cl|
    && x.g.rd[x.mem.claim.seg] == x.g.cl[x.mem.claim.seg]
  }

  /** An empty last segment has a send headed for it, and every claim word to be looked at names a segment. */
  ghost predicate Manned(c: Config, s: State) {
    && (EndsEmpty(s.core) ==> exists i :: 0 <= i < |s.prods| && Headed(s.core.mem, s.prods[i].pc))
    && forall i :: 0 <= i < |s.prods| && s.prods[i].pc.Look? ==> s.prods[i].pc.w.seg < c.segs
  }

  /** The claim word's place, the chain, the frontiers and the counts of claims and releases are what they were. */
  predicate SamePlace(x: Core, y: Core) {
    && y.mem.claim.seg == x.mem.claim.seg
    && y.mem.claim.pos == x.mem.claim.pos
    && y.g.chain == x.g.chain
    && y.g.rd == x.g.rd
    && y.g.cl == x.g.cl
    && |y.g.log| == |x.g.log|
    && y.g.head == x.g.head
    && y.g.followed == x.g.followed
  }

  /** Producer `i`'s next access is a claim CAS that succeeds. */
  predicate Wins(s: State, i: nat, ch: Choice) {
    i < |s.prods| && s.prods[i].pc.Cas? && !ch.Fail? && s.core.mem.claim == s.prods[i].pc.w
  }

  lemma QuietSwitch(c: Config, s: State, i: nat)
    requires WellShaped(c, s) && i < |s.prods| && Switching(s.prods[i].pc) && !Moves(s, i)
    ensures SamePlace(s.core, SwitchStep(c, s, i).core)
  {
    hide Shape, LowestFree, AnyFree;
  }

  lemma QuietRest(c: Config, s: State, i: nat, ch: Choice)
    requires WellShaped(c, s) && i < |s.prods|
    ensures SamePlace(s.core, NapStep(c, s, i, ch).core) && SamePlace(s.core, FillStep(c, s, i, ch).core)
  {
    hide Shape, SeqAt, AnyFree, EntryOf;
  }

  /** Apart from a won claim or switch CAS, no producer's access touches the claim word's place. */
  lemma QuietAccess(c: Config, s: State, i: nat, ch: Choice)
    requires WellShaped(c, s) && i < |s.prods| && !Wins(s, i, ch) && !Moves(s, i)
    ensures SamePlace(s.core, Produce(c, s, i, ch).core)
  {
    hide Shape, SeqAt, NapStep, FillStep, SwitchStep;
    QuietRest(c, s, i, ch);
    if Switching(s.prods[i].pc) {
      QuietSwitch(c, s, i);
    }
  }

  lemma DepthIs(c: Config)
    requires Plain(c)
    ensures c.depth >= 1
  {
  }

  /** A look that finds an empty last segment's slot taken looked elsewhere. */
  lemma OpenPlace(c: Config, s: State, w: Word)
    requires Plain(c) && Inv(c, s) && EndsEmpty(s.core) && Shape(c, s.core) && w.seg < c.segs
    requires SeqAt(c, s.core.mem, w.seg, w.pos) != Claimable(w.pos)
    ensures w.seg != s.core.mem.claim.seg || w.pos != s.core.mem.claim.pos
  {
    hide Inv, Shape, SeqAt;
    DepthIs(c);
    Progress.OffShape(c, s);
    Progress.OpenHere(c, s);
  }

  lemma SlotsThere(c: Config, s: State)
    requires WellShaped(c, s)
    ensures Shape(c, s.core) && c.depth >= 1 && |s.core.mem.seqs| == c.segs
    ensures forall k :: 0 <= k < c.segs ==> |s.core.mem.seqs[k]| == c.depth
  {
  }

  /** A send headed for the empty last segment goes on to it. */
  lemma HeadsOn(c: Config, s: State, i: nat, ch: Choice)
    requires Plain(c) && Inv(c, s) && WellShaped(c, s) && i < |s.prods| && EndsEmpty(s.core)
    requires Headed(s.core.mem, s.prods[i].pc) && !Wins(s, i, ch)
    requires s.prods[i].pc.Look? ==> s.prods[i].pc.w.seg < c.segs
    ensures Headed(s.core.mem, Next(c, s, ByProducer(i, ch)).prods[i].pc)
  {
    hide Inv, Shape, SeqAt, NapStep, FillStep, EndsEmpty, ClaimSlot, SealOld, AddSwitch, AnyFree, LowestFree;
    var pc := s.prods[i].pc;
    SlotsThere(c, s);
    if pc.Look? && SeqAt(c, s.core.mem, pc.w.seg, pc.w.pos) != Claimable(pc.w.pos) {
      OpenPlace(c, s, pc.w);
    }
  }

  lemma HeadedFrame(m: Memory, n: Memory, pc: Pc)
    requires Headed(m, pc) && n.claim.seg == m.claim.seg && n.claim.pos == m.claim.pos
    ensures Headed(n, pc)
  {
  }

  lemma MannedProducer(c: Config, s: State, i: nat, ch: Choice)
    requires Plain(c) && Inv(c, s) && WellShaped(c, s) && i < |s.prods| && Manned(c, s)
    ensures var t := Next(c, s, ByProducer(i, ch));
      EndsEmpty(t.core) ==> exists q :: 0 <= q < |t.prods| && Headed(t.core.mem, t.prods[q].pc)
  {
    hide Inv, WellShaped, Produce, Headed, Next;
    var t := Next(c, s, ByProducer(i, ch));
    if Moves(s, i) {
      MoveHeads(c, s, i, ch);
    } else if Wins(s, i, ch) {
      WinFills(c, s, i, ch);
    } else if EndsEmpty(t.core) {
      NextIs(c, s, i, ch);
      QuietAccess(c, s, i, ch);
      var q :| 0 <= q < |s.prods| && Headed(s.core.mem, s.prods[q].pc);
      if q == i {
        HeadsOn(c, s, i, ch);
      } else {
        OtherStays(c, s, i, ch, q);
      }
      HeadedFrame(s.core.mem, t.core.mem, t.prods[q].pc);
    }
  }

  lemma NextIs(c: Config, s: State, i: nat, ch: Choice)
    requires WellShaped(c, s) && i < |s.prods|
    ensures Next(c, s, ByProducer(i, ch)) == Produce(c, s, i, ch)
  {
    hide WellShaped, Produce;
  }

  lemma MoveHeads(c: Config, s: State, i: nat, ch: Choice)
    requires WellShaped(c, s) && Moves(s, i)
    ensures var t := Next(c, s, ByProducer(i, ch)); Headed(t.core.mem, t.prods[i].pc)
  {
    hide Shape, MoveRing;
  }

  lemma WinFills(c: Config, s: State, i: nat, ch: Choice)
    requires Plain(c) && Inv(c, s) && WellShaped(c, s) && Wins(s, i, ch)
    ensures !EndsEmpty(Next(c, s, ByProducer(i, ch)).core)
  {
    hide Inv, Shape, NapStep, FillStep, SwitchStep, LookStep;
    Progress.OffShape(c, s);
  }

  lemma MannedConsumer(c: Config, s: State, ch: Choice)
    requires Plain(c) && Inv(c, s) && WellShaped(c, s) && Manned(c, s)
    ensures var t := Next(c, s, ByConsumer(ch));
      EndsEmpty(t.core) ==> exists q :: 0 <= q < |t.prods| && Headed(t.core.mem, t.prods[q].pc)
  {
    hide Inv, WellShaped, Headed, ConsumeCore;
    var t := Next(c, s, ByConsumer(ch));
    if EndsEmpty(t.core) {
      LastStays(c, s, ch);
      var q :| 0 <= q < |s.prods| && Headed(s.core.mem, s.prods[q].pc);
      HeadedAwake(s.core.mem, s.prods[q].pc);
      HeadedFrame(s.core.mem, t.core.mem, t.prods[q].pc);
    }
  }

  lemma HeadedAwake(m: Memory, pc: Pc)
    requires Headed(m, pc)
    ensures !pc.Asleep?
  {
  }

  /** The consumer never touches the last of two segments or more. */
  lemma LastStays(c: Config, s: State, ch: Choice)
    requires Plain(c) && Inv(c, s) && WellShaped(c, s) && EndsEmpty(Consume(c, s, ch).core)
    ensures EndsEmpty(s.core)
    ensures Consume(c, s, ch).core.mem.claim.seg == s.core.mem.claim.seg
    ensures Consume(c, s, ch).core.mem.claim.pos == s.core.mem.claim.pos
  {
    hide Inv, PcShape, Shape, ReadStep, Here, Sealed, Fronts, Bits;
    ReadLeaves(c, s, ch);
    ChainFacts(c, s);
    CurIsFirst(c, s);
  }

  lemma CurIsFirst(c: Config, s: State)
    requires Inv(c, s)
    ensures |s.core.g.chain| >= 1 && s.core.mem.claim.seg < |s.core.g.rd| == |s.core.g.cl| == c.segs
    ensures Present(s.core.cons.pc) ==> s.core.cons.cur == s.core.g.chain[0]
    ensures |s.core.g.chain| >= 2 ==> s.core.mem.claim.seg != s.core.g.chain[0]
  {
    hide Inv, Shape, Sealed, Fronts, Bits;
    ChainFacts(c, s);
    SealsShape(c, s);
    PlacementFacts(c, s);
  }

  lemma ReadLeaves(c: Config, s: State, ch: Choice)
    requires Shape(c, s.core)
    ensures var x, y := s.core, ReadStep(c, s.core, ch);
      && y.mem.claim == x.mem.claim
      && (x.cons.pc.GiveBack? || y.g.chain == x.g.chain)
      && (|x.g.chain| >= 1 ==> |y.g.chain| <= |x.g.chain|)
      && y.g.cl == x.g.cl
      && |y.g.rd| == |x.g.rd|
      && forall k :: 0 <= k < |x.g.rd| && k != x.cons.cur ==> y.g.rd[k] == x.g.rd[k]
  {
    hide SeqAt, BodyAt, AtCheck;
  }

  lemma NamedLooks(c: Config, s: State, step: Step)
    requires Plain(c) && Inv(c, s) && WellShaped(c, s) && Manned(c, s)
    ensures var t := Next(c, s, step);
      forall i :: 0 <= i < |t.prods| && t.prods[i].pc.Look? ==> t.prods[i].pc.w.seg < c.segs
  {
    hide Inv, WellShaped, Produce, ConsumeCore, EndsEmpty, Headed;
    var t := Next(c, s, step);
    if step.ByProducer? && step.i < |s.prods| {
      forall i | 0 <= i < |t.prods| && t.prods[i].pc.Look?
        ensures t.prods[i].pc.w.seg < c.segs
      {
        if i == step.i {
          LookIsFresh(c, s, i, step.ch);
          CurIsFirst(c, s);
        } else {
          OtherStays(c, s, step.i, step.ch, i);
        }
      }
    }
  }

  /** A word about to be looked at was loaded just now. */
  lemma LookIsFresh(c: Config, s: State, i: nat, ch: Choice)
    requires WellShaped(c, s) && i < |s.prods| && Produce(c, s, i, ch).prods[i].pc.Look?
    ensures Produce(c, s, i, ch).prods[i].pc == Look(s.core.mem.claim)
    ensures s.prods[i].pc.Load? || s.prods[i].pc.Cas? || s.prods[i].pc.Reread?
  {
    hide Shape, SeqAt, ClaimSlot, AnyFree, LowestFree, TakeBit, StoreSeal, MoveRing, SealOld, AddSwitch, PutBack,
         AddWaiter, DropWaiter, WriteBody, CommitSlot, Rouse;
  }

  lemma {:induction false} MannedRun(c: Config, producers: nat, body: Msg, steps: seq<Step>)
    requires Plain(c)
    ensures Manned(c, Run(c, producers, body, steps))
    decreases |steps|
  {
    hide Inv, Next, Init, Exec, Manned;
    if steps == [] {
      MannedInit(c, producers, body);
    } else {
      var m := |steps| - 1;
      MannedRun(c, producers, body, steps[..m]);
      RunNext(c, producers, body, steps[..m], steps[m]);
      assert steps[..m] + [steps[m]] == steps;
      MannedStep(c, Run(c, producers, body, steps[..m]), steps[m]);
    }
  }

  lemma MannedInit(c: Config, producers: nat, body: Msg)
    requires Plain(c)
    ensures Manned(c, Run(c, producers, body, []))
  {
  }

  lemma MannedStep(c: Config, s: State, step: Step)
    requires Plain(c) && Inv(c, s) && WellShaped(c, s) && Manned(c, s)
    ensures Manned(c, Next(c, s, step))
  {
    hide Inv, WellShaped, Headed, EndsEmpty, Produce, Consume;
    NamedLooks(c, s, step);
    match step
    case ByProducer(i, ch) => if i < |s.prods| { MannedProducer(c, s, i, ch); }
    case ByConsumer(ch) => MannedConsumer(c, s, ch);
  }

  // ---------------------------------------------------------------- at rest

  /** Not between a load of the claim word and what the send makes of it, nor in the rest of a won switch. Every
      producer whose sends have returned is at rest, and so is one refused, asleep or in a claimed slot. */
  predicate Parked(pc: Pc) {
    !pc.Load? && !pc.Look? && !pc.Cas? && !pc.Reread? && !pc.SealStore? && !pc.CountSwitch?
  }

  lemma NobodyHeaded(m: Memory, pc: Pc)
    requires Parked(pc)
    ensures !Headed(m, pc)
  {
  }

  lemma MannedOf(c: Config, s: State)
    requires Reached(c, s)
    ensures Manned(c, s)
  {
    hide Run, Manned;
    var producers: nat, body: Msg, steps: seq<Step> :| s == Run(c, producers, body, steps);
    MannedRun(c, producers, body, steps);
  }

  /** With every send returned, or at rest, and everything claimed released, the ring is in one segment, however
      many switches there were and whichever lost: none leaves an empty segment behind a link nobody follows. So
      the header's count is the seals followed, and a first consumer's own count is the header's. */
  lemma CountsAgreeAtRest(c: Config, s: State)
    requires Reached(c, s) && s.core.g.head == |s.core.g.log|
    requires forall i :: 0 <= i < |s.prods| ==> Parked(s.prods[i].pc)
    ensures |s.core.g.chain| == 1
    ensures s.core.mem.switches == s.core.g.followed
    ensures Present(s.core.cons.pc) && s.core.g.since == 0 ==> s.core.mem.switches == s.core.cons.switches
  {
    hide Inv, Reached, Headed, Shape;
    ReachedInv(c, s);
    MannedOf(c, s);
    SwitchesConserved(c, s);
    AllReleased(c, s);
    CurIsFirst(c, s);
    forall i | 0 <= i < |s.prods|
      ensures !Headed(s.core.mem, s.prods[i].pc)
    {
      NobodyHeaded(s.core.mem, s.prods[i].pc);
    }
    assert Lagging(s.prods) == {};
  }
}
