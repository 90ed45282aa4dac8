/** When a claim word that a send finds unchanged has not changed: on which rings the CAS that succeeds has seen no
    claim and no switch since its load. */
module Stale {
  import opened Machine
  import opened Invariant
  import opened Runs
  import opened ProducerSteps
  import opened Segments
  import opened Sleeping
  import opened Progress
  import opened Switches
  import opened Asides
  import Races

  // ---------------------------------------------------------------- the load of a word

  /** About to look at the slot of word `w`, or to claim it. */
  predicate GoesBy(pc: Pc, w: Word) {
    pc == Look(w) || pc == Cas(w)
  }

  /** Access `m` of the run is the load of the word producer `i` now goes by. */
  ghost predicate LoadedAt(c: Config, producers: nat, body: Msg, steps: seq<Step>, i: nat, m: nat)
    requires Good(c) && i < producers
  {
    && m < |steps|
    && steps[m].ByProducer?
    && steps[m].i == i
    && var w := Run(c, producers, body, steps[..m]).core.mem.claim;
    && Run(c, producers, body, steps[..m + 1]).prods[i].pc == Look(w)
    && forall n :: m < n <= |steps| ==> GoesBy(Run(c, producers, body, steps[..n]).prods[i].pc, w)
  }

  lemma GoesOnBy(c: Config, s: State, step: Step, i: nat)
    requires WellShaped(c, s) && i < |s.prods|
    ensures var p, q := s.prods[i].pc, Next(c, s, step).prods[i].pc;
      q.Look? || q.Cas? ==>
        || (step.ByProducer? && step.i == i && q == Look(s.core.mem.claim))
        || ((p.Look? || p.Cas?) && q.w == p.w && (q.Look? ==> p.Look?))
  {
    hide WellShaped, Produce, ConsumeCore;
    if step.ByProducer? && step.i < |s.prods| {
      if step.i == i {
        OwnGoesBy(c, s, i, step.ch);
      } else {
        OtherStays(c, s, step.i, step.ch, i);
      }
    }
  }

  lemma OwnGoesBy(c: Config, s: State, i: nat, ch: Choice)
    requires WellShaped(c, s) && i < |s.prods|
    ensures var p, q := s.prods[i].pc, Produce(c, s, i, ch).prods[i].pc;
      q.Look? || q.Cas? ==> q == Look(s.core.mem.claim) || (p.Look? && q == Cas(p.w))
  {
    hide Shape, SeqAt, ClaimSlot, SwitchStep, NapStep, FillStep;
    if Switching(s.prods[i].pc) {
      SwitchNoLook(c, s, i);
    } else if !s.prods[i].pc.Look? {
      RestNoLook(c, s, i, ch);
    }
  }

  lemma SwitchNoLook(c: Config, s: State, i: nat)
    requires WellShaped(c, s) && i < |s.prods| && Switching(s.prods[i].pc)
    ensures var q := SwitchStep(c, s, i).prods[i].pc; !q.Look? && !q.Cas?
  {
    hide Shape, LowestFree, AnyFree, TakeBit, StoreSeal, MoveRing, SealOld, AddSwitch, PutBack;
  }

  lemma RestNoLook(c: Config, s: State, i: nat, ch: Choice)
    requires WellShaped(c, s) && i < |s.prods|
    ensures Napping(s.prods[i].pc) ==> var q := NapStep(c, s, i, ch).prods[i].pc; !q.Look? && !q.Cas?
    ensures Owning(s.prods[i].pc) ==> var q := FillStep(c, s, i, ch).prods[i].pc; !q.Look? && !q.Cas?
  {
    hide Shape, SeqAt, AnyFree, EntryOf, AddWaiter, DropWaiter, WriteBody, CommitSlot, Rouse;
  }

  /** Every word a send goes by was loaded at some access of that producer's. */
  lemma {:induction false} WasLoaded(c: Config, producers: nat, body: Msg, steps: seq<Step>, i: nat) returns (m: nat)
    requires Plain(c) && i < producers
    requires var pc := Run(c, producers, body, steps).prods[i].pc; pc.Look? || pc.Cas?
    ensures LoadedAt(c, producers, body, steps, i, m)
    ensures GoesBy(Run(c, producers, body, steps).prods[i].pc, Run(c, producers, body, steps[..m]).core.mem.claim)
    decreases |steps|
  {
    hide Inv, Next, Init, Exec;
    if steps == [] {
      InitIdle(c, producers, body, i);
      assert false;
    } else {
      var last := |steps| - 1;
      var r := Run(c, producers, body, steps[..last]);
      RunNext(c, producers, body, steps[..last], steps[last]);
      assert steps[..last] + [steps[last]] == steps && steps[..|steps|] == steps;
      GoesOnBy(c, r, steps[last], i);
      var q := Run(c, producers, body, steps).prods[i].pc;
      if steps[last].ByProducer? && steps[last].i == i && q == Look(r.core.mem.claim) {
        m := last;
      } else {
        m := WasLoaded(c, producers, body, steps[..last], i);
        assert steps[..last][..m] == steps[..m] && steps[..last][..m + 1] == steps[..m + 1];
        forall n | m < n <= |steps|
          ensures GoesBy(Run(c, producers, body, steps[..n]).prods[i].pc,
                    Run(c, producers, body, steps[..m]).core.mem.claim)
        {
          if n < |steps| {
            assert steps[..last][..n] == steps[..n];
          }
        }
      }
    }
  }

  // ---------------------------------------------------------------- one segment

  /** On one segment the claims are the positions, and there are no switches. */
  ghost predicate Counting(s: State) {
    |s.core.g.cl| == 1 && |s.core.g.log| == s.core.g.cl[0] && s.core.g.won == 0
  }

  lemma NoMoves(c: Config, s: State, i: nat)
    requires Plain(c) && Inv(c, s) && c.segs == 1
    ensures !Moves(s, i)
  {
    hide Inv, Sealed, Fronts, Bits;
    if Moves(s, i) {
      ChainFacts(c, s);
      HeldApart(c, s, i, s.prods[i].pc.k);
    }
  }

  lemma CountingStep(c: Config, s: State, step: Step)
    requires Plain(c) && Inv(c, s) && WellShaped(c, s) && c.segs == 1 && Counting(s)
    ensures Counting(Next(c, s, step))
  {
    hide Inv, WellShaped, Produce, Consume;
    WonCountsMoves(c, s, step);
    match step
    case ByProducer(i, ch) =>
      if i < |s.prods| {
        NoMoves(c, s, i);
        NextIs(c, s, i, ch);
        if Wins(s, i, ch) {
          WinCounts(c, s, i, ch);
        } else {
          QuietAccess(c, s, i, ch);
        }
      }
    case ByConsumer(ch) => ConsumerCounts(c, s, ch);
  }

  lemma WinCounts(c: Config, s: State, i: nat, ch: Choice)
    requires Plain(c) && Inv(c, s) && WellShaped(c, s) && c.segs == 1 && Counting(s) && Wins(s, i, ch)
    ensures var g := Produce(c, s, i, ch).core.g; |g.cl| == 1 && |g.log| == g.cl[0]
  {
    hide Inv, Shape, NapStep, FillStep, SwitchStep, LookStep;
    OffShape(c, s);
  }

  lemma ConsumerCounts(c: Config, s: State, ch: Choice)
    requires WellShaped(c, s)
    ensures Consume(c, s, ch).core.g.cl == s.core.g.cl && Consume(c, s, ch).core.g.log == s.core.g.log
  {
    hide PcShape, Shape, ReadStep, Here;
    ConsumerPlaces(c, s, ch);
    ReadLeaves(c, s, ch);
  }

  lemma {:induction false} CountingRun(c: Config, producers: nat, body: Msg, steps: seq<Step>)
    requires Plain(c) && c.segs == 1
    ensures Counting(Run(c, producers, body, steps))
    decreases |steps|
  {
    hide Inv, Next, Init, Exec, Counting;
    if steps == [] {
      CountingInit(c, producers, body);
      RunInv(c, producers, body, []);
    } else {
      var m := |steps| - 1;
      CountingRun(c, producers, body, steps[..m]);
      RunNext(c, producers, body, steps[..m], steps[m]);
      assert steps[..m] + [steps[m]] == steps;
      CountingStep(c, Run(c, producers, body, steps[..m]), steps[m]);
    }
  }

  lemma CountingInit(c: Config, producers: nat, body: Msg)
    requires Plain(c) && c.segs == 1
    ensures Counting(Init(c, producers, body))
  {
  }

  // ---------------------------------------------------------------- the condition

  /** No claim and no switch since the load of a word that a claim CAS finds unchanged. */
  ghost predicate Unmoved(c: Config, producers: nat, body: Msg, steps: seq<Step>, i: nat, m: nat)
    requires Good(c) && i < producers && m <= |steps|
  {
    var r, s := Run(c, producers, body, steps[..m]), Run(c, producers, body, steps);
    |r.core.g.log| == |s.core.g.log| && r.core.g.won == s.core.g.won
  }

  /** Every claim CAS that succeeds, in every run, has had no claim and no switch since its word was loaded. */
  ghost predicate CasIsFresh(c: Config)
    requires Good(c)
  {
    forall producers: nat, body: Msg, steps: seq<Step>, i: nat, m: nat ::
      i < producers && Wins(Run(c, producers, body, steps), i, Go) && LoadedAt(c, producers, body, steps, i, m) ==>
        Unmoved(c, producers, body, steps, i, m)
  }

  lemma FreshOnOne(c: Config, producers: nat, body: Msg, steps: seq<Step>, i: nat, m: nat)
    requires Plain(c) && c.segs == 1 && i < producers && Wins(Run(c, producers, body, steps), i, Go)
    requires LoadedAt(c, producers, body, steps, i, m)
    ensures Unmoved(c, producers, body, steps, i, m)
  {
    hide Inv, Run;
    var r, s := Run(c, producers, body, steps[..m]), Run(c, producers, body, steps);
    assert steps[..|steps|] == steps;
    CountingRun(c, producers, body, steps);
    CountingRun(c, producers, body, steps[..m]);
    RunInv(c, producers, body, steps);
    RunInv(c, producers, body, steps[..m]);
    OffShape(c, r);
    OffShape(c, s);
  }

  /** The run of `ClaimWordReturns` up to the CAS: it succeeds, and was loaded before a claim. */
  lemma StaleWins(c: Config, s: State, u: State) returns (v: State)
    requires Plain(c) && Reached(c, s) && Meanwhile(c, s, u, 1) && |s.prods| == |u.prods| == 2
    requires s.prods[1].pc == u.prods[1].pc == Look(s.core.mem.claim) && u.core.mem.claim == s.core.mem.claim
    requires u.core.mem.claim.seg < |u.core.g.cl| == |u.core.g.rd|
    requires u.core.g.cl[u.core.mem.claim.seg] == u.core.g.rd[u.core.mem.claim.seg]
    ensures v == Apply(c, u, ByProducer(1, Go)) && Wins(v, 1, Go)
    ensures v.core.g.log == u.core.g.log
  {
    hide Inv, Reached, Meanwhile, Shape, PcShape, SeqAt;
    MeanwhileReached(c, s, u, 1);
    ReachedInv(c, u);
    DepthIs(c);
    OffShape(c, u);
    OpenHere(c, u);
    v := Apply(c, u, ByProducer(1, Go));
    LooksOpen(c, u, 1);
  }

  lemma LooksOpen(c: Config, s: State, i: nat)
    requires Inv(c, s) && i < |s.prods| && s.prods[i].pc.Look? && Shape(c, s.core) && s.prods[i].pc.w.seg < c.segs
    requires SeqAt(c, s.core.mem, s.prods[i].pc.w.seg, s.prods[i].pc.w.pos) == Claimable(s.prods[i].pc.w.pos)
    ensures Apply(c, s, ByProducer(i, Go)) == Put(s, i, s.core, Cas(s.prods[i].pc.w))
  {
    hide Inv, Shape, PcShape, SeqAt;
    InvShape(c, s);
  }

  lemma MeanwhileReached(c: Config, s: State, t: State, i: nat)
    requires Reached(c, s) && Meanwhile(c, s, t, i)
    ensures Reached(c, t)
  {
    hide Reached, Exec;
    var steps :| NoneOf(steps, i) && t == Exec(c, s, steps);
    ReachedExec(c, s, steps);
  }

  lemma LogGrows(c: Config, s: State, t: State, i: nat)
    requires Reached(c, s) && Meanwhile(c, s, t, i)
    ensures |s.core.g.log| <= |t.core.g.log|
  {
    hide Run, Exec;
    var producers: nat, body: Msg, before: seq<Step> :| s == Run(c, producers, body, before);
    var more :| NoneOf(more, i) && t == Exec(c, s, more);
    RunSplits(c, producers, body, before, more);
    LaterRun(c, producers, body, before, before + more);
  }

  lemma RunSplits(c: Config, producers: nat, body: Msg, before: seq<Step>, more: seq<Step>)
    requires Good(c)
    ensures Run(c, producers, body, before + more) == Exec(c, Run(c, producers, body, before), more)
  {
    hide Exec, Init;
    ExecSplits(c, Init(c, producers, body), before, more);
  }

  lemma MeanwhileChains(c: Config, s: State, t: State, u: State, i: nat)
    requires Meanwhile(c, s, t, i) && Meanwhile(c, t, u, i)
    ensures Meanwhile(c, s, u, i)
  {
    hide Exec;
    var more :| NoneOf(more, i) && u == Exec(c, t, more);
    MeanwhileExec(c, s, t, i, more);
  }

  lemma ExecOne(c: Config, s: State, step: Step)
    ensures Exec(c, s, [step]) == Apply(c, s, step)
  {
    hide Apply;
    assert [step][..0] == [];
  }

  /** The load a stale word goes by lies before the accesses of the others. */
  lemma LoadIsBefore(c: Config, producers: nat, body: Msg, before: seq<Step>, more: seq<Step>, i: nat, w: Word, m: nat)
    requires Good(c) && i < producers && NoneOf(more, i)
    requires LoadedAt(c, producers, body, before + more + [ByProducer(i, Go)], i, m)
    requires Run(c, producers, body, before + more + [ByProducer(i, Go)]).prods[i].pc == Cas(w)
    ensures m < |before|
  {
    hide Run;
    var steps := before + more + [ByProducer(i, Go)];
    assert steps[..|steps|] == steps;
    forall n | |before| <= n < |steps| - 1
      ensures !(steps[n].ByProducer? && steps[n].i == i)
    {
      assert steps[n] == more[n - |before|];
    }
  }

  lemma NotFresh(c: Config, s: State, u: State)
    requires Plain(c) && Reached(c, s) && Meanwhile(c, s, u, 1) && |s.prods| == |u.prods| == 2
    requires s.prods[1].pc == u.prods[1].pc == Look(s.core.mem.claim) && u.core.mem.claim == s.core.mem.claim
    requires u.core.mem.claim.seg < |u.core.g.cl| == |u.core.g.rd|
    requires u.core.g.cl[u.core.mem.claim.seg] == u.core.g.rd[u.core.mem.claim.seg]
    requires |s.core.g.log| < |u.core.g.log|
    ensures !CasIsFresh(c)
  {
    hide Run, Exec, Apply, LoadedAt;
    var v := StaleWins(c, s, u);
    var producers: nat, body: Msg, before: seq<Step> :| s == Run(c, producers, body, before);
    var more :| NoneOf(more, 1) && u == Exec(c, s, more);
    var steps := before + more + [ByProducer(1, Go)];
    RunSplits(c, producers, body, before, more);
    RunSplits(c, producers, body, before + more, [ByProducer(1, Go)]);
    ExecOne(c, u, ByProducer(1, Go));
    var m := WasLoaded(c, producers, body, steps, 1);
    LoadIsBefore(c, producers, body, before, more, 1, v.prods[1].pc.w, m);
    assert steps[..m] <= before;
    LaterRun(c, producers, body, steps[..m], before);
    assert !Unmoved(c, producers, body, steps, 1, m);
  }

  /** When "a stale view fails the CAS" can be taken at its word: every successful claim CAS, in every run, has had no
      claim and no switch since its load, exactly when the ring has one segment. On more, the claim word comes back
      to a word a send still holds, and the CAS succeeds; `StaleSendIsSafe` says why no claim goes wrong by it. */
  lemma CasIsFreshOnOneSegment(c: Config)
    requires Plain(c)
    ensures CasIsFresh(c) <==> c.segs == 1
  {
    hide Run, LoadedAt, Unmoved, Reached, Wins;
    if c.segs == 1 {
      forall producers: nat, body: Msg, steps: seq<Step>, i: nat, m: nat |
        i < producers && Wins(Run(c, producers, body, steps), i, Go) && LoadedAt(c, producers, body, steps, i, m)
        ensures LoadedAt(c, producers, body, steps, i, m) && m <= |steps| && Unmoved(c, producers, body, steps, i, m)
      {
        LoadIn(c, producers, body, steps, i, m);
        FreshOnOne(c, producers, body, steps, i, m);
      }
    } else {
      var s, t, u := Races.ClaimWordReturns(c, Machine.Msg(0, 0));
      MeanwhileChains(c, s, t, u, 1);
      MeanwhileReached(c, s, t, 1);
      LogGrows(c, t, u, 1);
      NotFresh(c, s, u);
    }
  }

  lemma LoadIn(c: Config, producers: nat, body: Msg, steps: seq<Step>, i: nat, m: nat)
    requires Good(c) && i < producers && LoadedAt(c, producers, body, steps, i, m)
    ensures m < |steps|
  {
    hide Run;
  }
}
