/** What `Full` means: at the instant a send that finds the ring full read the seq word, the segment it
    looked at held exactly its depth of claims not released, and the send has claimed nothing. */
module Fullness {
  import opened Machine
  import opened Invariant
  import opened Runs
  import opened Segments
  import opened Sleeping

  /** A send past the look that found its slot not claimable, up to the policy's answer. */
  predicate Looked(pc: Pc) {
    pc.Reread? || pc.FreeLoad? || pc.Take? || pc.Full? || pc.CountIn? || Counts(pc)
  }

  /** From `p` to `q` a producer kept what it saw, or just looked. */
  predicate SnapKept(g: Ghost, p: Producer, q: Producer) {
    Looked(q.pc) ==>
      && q.n == p.n
      && (|| (p.pc.Look? && p.pc.w.seg < |g.cl| && p.pc.w.seg < |g.rd|
              && q.snap == Snap(p.pc.w.seg, g.cl[p.pc.w.seg], g.rd[p.pc.w.seg]))
          || (Looked(p.pc) && q.snap == p.snap))
  }

  lemma SnapOwn(c: Config, s: State, i: nat, ch: Choice)
    requires WellShaped(c, s) && i < |s.prods|
    ensures SnapKept(s.core.g, s.prods[i], Produce(c, s, i, ch).prods[i])
  {
    hide LowestFree, SeqAt, EntryOf, AnyFree, ClaimSlot, WriteBody, CommitSlot, Rouse, SwitchStep, NapStep, LookStep;
    if s.prods[i].pc.Look? {
      SnapLook(c, s, i, s.prods[i].pc.w);
    } else if Switching(s.prods[i].pc) {
      SnapSwitch(c, s, i);
    } else if Napping(s.prods[i].pc) {
      SnapNap(c, s, i, ch);
    }
  }

  lemma SnapLook(c: Config, s: State, i: nat, w: Word)
    requires WellShaped(c, s) && i < |s.prods| && s.prods[i].pc == Look(w)
    ensures SnapKept(s.core.g, s.prods[i], LookStep(c, s, i, w).prods[i])
  {
    hide SeqAt;
  }

  lemma SnapSwitch(c: Config, s: State, i: nat)
    requires WellShaped(c, s) && i < |s.prods| && Switching(s.prods[i].pc)
    ensures SnapKept(s.core.g, s.prods[i], SwitchStep(c, s, i).prods[i])
  {
    hide LowestFree, AnyFree, TakeBit, StoreSeal, MoveRing, SealOld, AddSwitch, PutBack;
  }

  lemma SnapNap(c: Config, s: State, i: nat, ch: Choice)
    requires WellShaped(c, s) && i < |s.prods| && Napping(s.prods[i].pc)
    ensures SnapKept(s.core.g, s.prods[i], NapStep(c, s, i, ch).prods[i])
  {
    hide SeqAt, AnyFree, AddWaiter, DropWaiter;
  }

  lemma SnapStep(c: Config, s: State, step: Step, i: nat)
    requires WellShaped(c, s) && i < |s.prods|
    ensures SnapKept(s.core.g, s.prods[i], Next(c, s, step).prods[i])
  {
    hide WellShaped, Produce, ConsumeCore;
    if step.ByProducer? && step.i < |s.prods| {
      if step.i == i {
        SnapOwn(c, s, i, step.ch);
      } else {
        OtherStays(c, s, step.i, step.ch, i);
      }
    }
  }

  /** A send that found its slot taken did so at some access of this very send, and kept what it saw. */
  lemma {:induction false} SnapTaken(c: Config, producers: nat, body: Msg, steps: seq<Step>, i: nat) returns (m: nat)
    requires Plain(c) && i < producers && Looked(Run(c, producers, body, steps).prods[i].pc)
    ensures m < |steps|
    ensures var q, r := Run(c, producers, body, steps).prods[i], Run(c, producers, body, steps[..m]);
      && r.prods[i].pc.Look?
      && r.prods[i].n == q.n
      && q.snap.seg == r.prods[i].pc.w.seg < |r.core.g.cl|
      && q.snap.seg < |r.core.g.rd|
      && q.snap == Snap(q.snap.seg, r.core.g.cl[q.snap.seg], r.core.g.rd[q.snap.seg])
    decreases |steps|
  {
    hide Inv, Next, Init, Exec;
    if steps == [] {
      InitIdle(c, producers, body, i);
      assert false;
    } else {
      var r := Run(c, producers, body, steps[..|steps| - 1]);
      RunNext(c, producers, body, steps[..|steps| - 1], steps[|steps| - 1]);
      assert steps[..|steps| - 1] + [steps[|steps| - 1]] == steps;
      SnapStep(c, r, steps[|steps| - 1], i);
      if r.prods[i].pc.Look? {
        m := |steps| - 1;
      } else {
        m := SnapTaken(c, producers, body, steps[..|steps| - 1], i);
        assert steps[..|steps| - 1][..m] == steps[..m];
      }
    }
  }

  /** A send refused, up to its next look. */
  predicate Refused(pc: Pc) {
    pc.Full? || pc.CountIn? || Counts(pc)
  }

  /** From `p` to `q` a producer stays refused, or has just found every segment's bit set. */
  predicate RefusalKept(c: Config, m: Memory, p: Producer, q: Producer) {
    Refused(q.pc) ==>
      && q.n == p.n
      && ((p.pc.FreeLoad? && !AnyFree(c, m.inUse)) || Refused(p.pc) || (p.pc.Reread? && !c.multi))
  }

  lemma RefusalStep(c: Config, s: State, step: Step, i: nat)
    requires WellShaped(c, s) && i < |s.prods|
    ensures RefusalKept(c, s.core.mem, s.prods[i], Next(c, s, step).prods[i])
  {
    hide WellShaped, Produce, ConsumeCore, AnyFree;
    if step.ByProducer? && step.i < |s.prods| {
      if step.i == i {
        RefusalOwn(c, s, i, step.ch);
      } else {
        OtherStays(c, s, step.i, step.ch, i);
      }
    }
  }

  lemma RefusalOwn(c: Config, s: State, i: nat, ch: Choice)
    requires WellShaped(c, s) && i < |s.prods|
    ensures RefusalKept(c, s.core.mem, s.prods[i], Produce(c, s, i, ch).prods[i])
  {
    hide LowestFree, SeqAt, EntryOf, AnyFree, ClaimSlot, WriteBody, CommitSlot, Rouse, LookStep, SwitchStep, NapStep;
    if s.prods[i].pc.Look? {
      LookNotRefused(c, s, i, s.prods[i].pc.w);
    } else if Switching(s.prods[i].pc) {
      RefusalSwitch(c, s, i);
    } else if Napping(s.prods[i].pc) {
      RefusalNap(c, s, i, ch);
    }
  }

  lemma RefusalSwitch(c: Config, s: State, i: nat)
    requires WellShaped(c, s) && i < |s.prods| && Switching(s.prods[i].pc)
    ensures RefusalKept(c, s.core.mem, s.prods[i], SwitchStep(c, s, i).prods[i])
  {
    hide LowestFree, AnyFree, TakeBit, StoreSeal, MoveRing, SealOld, AddSwitch, PutBack;
  }

  lemma RefusalNap(c: Config, s: State, i: nat, ch: Choice)
    requires WellShaped(c, s) && i < |s.prods| && Napping(s.prods[i].pc)
    ensures RefusalKept(c, s.core.mem, s.prods[i], NapStep(c, s, i, ch).prods[i])
  {
    hide SeqAt, AnyFree, AddWaiter, DropWaiter;
  }

  lemma LookNotRefused(c: Config, s: State, i: nat, w: Word)
    requires WellShaped(c, s) && i < |s.prods|
    ensures !Refused(LookStep(c, s, i, w).prods[i].pc)
  {
    hide SeqAt, Shape, PcShape;
  }

  /** Across segments, a refused send has also found, at some access of its own, every segment's bit set: in
      the chain, or held by a producer inside `switch`, as `BitsAreShared` says. */
  lemma {:induction false} FullSawNoSegment(c: Config, producers: nat, body: Msg, steps: seq<Step>, i: nat)
    returns (m: nat)
    requires Plain(c) && c.multi && i < producers && Refused(Run(c, producers, body, steps).prods[i].pc)
    ensures m < |steps|
    ensures var q, r := Run(c, producers, body, steps).prods[i], Run(c, producers, body, steps[..m]);
      r.prods[i].pc.FreeLoad? && r.prods[i].n == q.n && !AnyFree(c, r.core.mem.inUse)
    decreases |steps|
  {
    hide Inv, Next, Init, Exec, AnyFree;
    if steps == [] {
      InitIdle(c, producers, body, i);
      assert false;
    } else {
      var r := Run(c, producers, body, steps[..|steps| - 1]);
      RunNext(c, producers, body, steps[..|steps| - 1], steps[|steps| - 1]);
      assert steps[..|steps| - 1] + [steps[|steps| - 1]] == steps;
      RefusalStep(c, r, steps[|steps| - 1], i);
      if r.prods[i].pc.FreeLoad? {
        m := |steps| - 1;
      } else {
        m := FullSawNoSegment(c, producers, body, steps[..|steps| - 1], i);
        assert steps[..|steps| - 1][..m] == steps[..m];
      }
    }
  }

  lemma FullLocal(c: Config, s: State, i: nat)
    requires Inv(c, s) && i < |s.prods| && s.prods[i].pc.Full?
    ensures SawFull(c, s.prods[i])
    ensures forall n :: 0 <= n < |s.core.g.log| ==> s.core.g.log[n].msg != Machine.Msg(i, s.prods[i].n)
  {
    hide Inv, Shape;
    RingLocalOf(c, s, i);
  }

  lemma OneSegment(c: Config, s: State)
    requires Inv(c, s) && c.segs == 1
    ensures Shape(c, s.core) && |s.core.g.rd| == |s.core.g.cl| == 1
    ensures |s.core.g.log| - s.core.g.head == s.core.g.cl[0] - s.core.g.rd[0]
  {
    hide Inv, Shape;
    OrderFacts(c, s);
    SealsShape(c, s);
  }

  /** When the policy is asked, this very send has looked at a segment that held exactly its depth of claims
      not released. On a ring of one segment, `Single` or not, that is the whole ring. Nothing is claimed
      for the send, so giving up leaves no trace of it. */
  lemma FullIsTruthful(c: Config, producers: nat, body: Msg, steps: seq<Step>, i: nat) returns (m: nat)
    requires Plain(c) && i < producers && Run(c, producers, body, steps).prods[i].pc.Full?
    ensures m < |steps|
    ensures var s, r := Run(c, producers, body, steps), Run(c, producers, body, steps[..m]);
      && r.prods[i].pc.Look?
      && r.prods[i].n == s.prods[i].n
      && |r.core.g.cl| == |r.core.g.rd| == c.segs
      && r.prods[i].pc.w.seg < c.segs
      && r.core.g.cl[r.prods[i].pc.w.seg] == r.core.g.rd[r.prods[i].pc.w.seg] + c.depth
      && (c.segs == 1 ==> |r.core.g.log| - r.core.g.head == c.depth)
      && (forall n :: 0 <= n < |s.core.g.log| ==> s.core.g.log[n].msg != Machine.Msg(i, s.prods[i].n))
  {
    hide Inv, Run, Exec, Shape;
    var s := Run(c, producers, body, steps);
    m := SnapTaken(c, producers, body, steps, i);
    var r := Run(c, producers, body, steps[..m]);
    RunInv(c, producers, body, steps);
    RunInv(c, producers, body, steps[..m]);
    FullLocal(c, s, i);
    RestFacts(c, r);
    if c.segs == 1 {
      OneSegment(c, r);
    }
  }
}
