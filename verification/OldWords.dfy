/** What the bound on a word's age is for: a run of the ring at any width in which one access compares a word exactly
    a width old, and two claims come to share a slot. */
module OldWords {
  import opened Laps
  import opened Machine
  import opened Invariant
  import opened Runs
  import opened Progress
  import opened Draining
  import opened Switches
  import opened Wrapping
  import opened WrapSteps
  import Races
  import Stale

  // ---------------------------------------------------------------- a sender by itself

  /** A word a producer goes by is not behind its segment's claim frontier. */
  predicate Ahead(x: Core, pc: Pc) {
    match pc
    case Look(w) => w.seg < |x.g.cl| ==> x.g.cl[w.seg] <= w.pos
    case Cas(w) => w.seg < |x.g.cl| ==> x.g.cl[w.seg] <= w.pos
    case Reread(w) => w.seg < |x.g.cl| ==> x.g.cl[w.seg] <= w.pos
    case FreeLoad(w) => w.seg < |x.g.cl| ==> x.g.cl[w.seg] <= w.pos
    case Take(w, _) => w.seg < |x.g.cl| ==> x.g.cl[w.seg] <= w.pos
    case SealLoad(w, _) => w.seg < |x.g.cl| ==> x.g.cl[w.seg] <= w.pos
    case SealClear(w, _, _) => w.seg < |x.g.cl| ==> x.g.cl[w.seg] <= w.pos
    case Move(w, _, _) => w.seg < |x.g.cl| ==> x.g.cl[w.seg] <= w.pos
    case RoomSeq(_, r) => r.seg < |x.g.cl| ==> x.g.cl[r.seg] <= r.pos
    case _ => true
  }

  lemma AheadSend(c: Config, s: State, i: nat, ch: Choice)
    requires Plain(c) && Inv(c, s) && WellShaped(c, s) && i < |s.prods| && Ahead(s.core, s.prods[i].pc)
    requires !Switching(s.prods[i].pc) && !Napping(s.prods[i].pc) && !Owning(s.prods[i].pc)
    ensures var t := SendStep(c, s, i, ch); Ahead(t.core, t.prods[i].pc)
  {
    hide Inv, Shape, SeqAt, ClaimSlot;
    OffShape(c, s);
  }

  lemma AheadSwitch(c: Config, s: State, i: nat)
    requires WellShaped(c, s) && i < |s.prods| && Ahead(s.core, s.prods[i].pc) && Switching(s.prods[i].pc)
    ensures var t := SwitchStep(c, s, i); Ahead(t.core, t.prods[i].pc)
  {
    hide Shape, LowestFree, AnyFree;
  }

  lemma AheadNap(c: Config, s: State, i: nat, ch: Choice)
    requires Plain(c) && Inv(c, s) && WellShaped(c, s) && i < |s.prods| && Napping(s.prods[i].pc)
    ensures var t := NapStep(c, s, i, ch); Ahead(t.core, t.prods[i].pc)
  {
    hide Inv, Shape, SeqAt, AnyFree;
    OffShape(c, s);
  }

  lemma AheadFill(c: Config, s: State, i: nat, ch: Choice)
    requires WellShaped(c, s) && i < |s.prods| && Owning(s.prods[i].pc)
    ensures var t := FillStep(c, s, i, ch); Ahead(t.core, t.prods[i].pc)
  {
    hide Shape, SeqAt, EntryOf, WriteBody, CommitSlot, Rouse;
  }

  lemma AheadOwn(c: Config, s: State, i: nat, ch: Choice)
    requires Plain(c) && Inv(c, s) && WellShaped(c, s) && i < |s.prods| && Ahead(s.core, s.prods[i].pc)
    ensures var t := Next(c, s, ByProducer(i, ch)); Ahead(t.core, t.prods[i].pc)
  {
    hide Inv, Shape, Ahead, SendStep, SwitchStep, NapStep, FillStep;
    if Switching(s.prods[i].pc) {
      AheadSwitch(c, s, i);
    } else if Napping(s.prods[i].pc) {
      AheadNap(c, s, i, ch);
    } else if Owning(s.prods[i].pc) {
      AheadFill(c, s, i, ch);
    } else {
      AheadSend(c, s, i, ch);
    }
  }

  lemma AheadConsumer(c: Config, s: State, i: nat, ch: Choice)
    requires WellShaped(c, s) && i < |s.prods| && Ahead(s.core, s.prods[i].pc)
    ensures var t := Next(c, s, ByConsumer(ch)); Ahead(t.core, t.prods[i].pc)
  {
    hide WellShaped, ConsumeCore, At;
    Stale.ConsumerCounts(c, s, ch);
  }

  /** No accesses of producers but `i`. */
  predicate OnlyOf(steps: seq<Step>, i: nat, producers: nat) {
    forall n :: 0 <= n < |steps| && steps[n].ByProducer? ==> steps[n].i == i || steps[n].i >= producers
  }

  /** As long as the others stand still a producer's words are never behind. */
  lemma AheadStep(c: Config, s: State, step: Step, i: nat)
    requires Plain(c) && Inv(c, s) && WellShaped(c, s) && i < |s.prods| && Ahead(s.core, s.prods[i].pc)
    requires step.ByProducer? ==> step.i == i || step.i >= |s.prods|
    ensures var t := Next(c, s, step); Ahead(t.core, t.prods[i].pc)
  {
    hide Inv, WellShaped, Ahead, Produce, Consume;
    match step
    case ByProducer(q, ch) =>
      if q == i {
        AheadOwn(c, s, i, ch);
      }
    case ByConsumer(ch) => AheadConsumer(c, s, i, ch);
  }

  lemma AheadIsTimely(c: Config, d: Config, s: State, step: Step, i: nat)
    requires Wraps(c, d) && Inv(c, s) && Shape(c, s.core) && i < |s.prods| && Ahead(s.core, s.prods[i].pc)
    requires step.ByProducer? ==> step.i == i || step.i >= |s.prods|
    ensures Timely(c, d, s, step)
  {
    hide Inv, Shape;
    OffShape(c, s);
  }

  lemma {:induction false} AheadExec(c: Config, d: Config, s: State, steps: seq<Step>, i: nat)
    requires Wraps(c, d) && Inv(c, s) && i < |s.prods| && Ahead(s.core, s.prods[i].pc) && OnlyOf(steps, i, |s.prods|)
    ensures var t := Exec(c, s, steps); Ahead(t.core, t.prods[i].pc)
    ensures forall n :: 0 <= n < |steps| ==>
      var t := Exec(c, s, steps[..n]); Shape(c, t.core) && Timely(c, d, t, steps[n])
    decreases |steps|
  {
    hide Inv, WellShaped, Ahead, Next, Shape, Fresh, Wraps;
    PlainOf(c, d);
    if steps != [] {
      var m := |steps| - 1;
      AheadExec(c, d, s, steps[..m], i);
      var r := Exec(c, s, steps[..m]);
      ExecInv(c, s, steps[..m]);
      ShapeOf(c, r);
      AheadStep(c, r, steps[m], i);
      AheadIsTimely(c, d, r, steps[m], i);
      forall n | 0 <= n < m
        ensures steps[..m][..n] == steps[..n] && steps[..m][n] == steps[n]
      {
      }
    }
  }

  lemma ShapeOf(c: Config, s: State)
    requires WellShaped(c, s)
    ensures Shape(c, s.core)
  {
  }

  /** Two stretches of a run, one producer's each. */
  lemma TwoStretches(c: Config, d: Config, producers: nat, body: Msg, a: seq<Step>, b: seq<Step>, i: nat, j: nat)
    requires Wraps(c, d) && i < producers && j < producers && OnlyOf(a, i, producers) && OnlyOf(b, j, producers)
    requires Ahead(Init(c, producers, body).core, Init(c, producers, body).prods[i].pc)
    requires var s := Run(c, producers, body, a); Ahead(s.core, s.prods[j].pc)
    ensures AllTimely(c, d, producers, body, a + b)
  {
    hide Inv, WellShaped, Ahead, Exec, Shape, Timely, Wraps, Init;
    PlainOf(c, d);
    var s0 := Init(c, producers, body);
    InitInv(c, producers, body);
    RunInv(c, producers, body, a);
    AheadExec(c, d, s0, a, i);
    AheadExec(c, d, Run(c, producers, body, a), b, j);
    forall n | 0 <= n < |a + b|
      ensures var s := Run(c, producers, body, (a + b)[..n]); Shape(c, s.core) && Timely(c, d, s, (a + b)[n])
    {
      if n < |a| {
        assert (a + b)[..n] == a[..n] && (a + b)[n] == a[n];
      } else {
        assert (a + b)[..n] == a + b[..n - |a|] && (a + b)[n] == b[n - |a|];
        Stale.RunSplits(c, producers, body, a, b[..n - |a|]);
      }
    }
  }

  // ---------------------------------------------------------------- a width of claims

  /** Everything is read up to position `p` of the first segment, producer 0 is at rest, and producer 1 is about to
      claim at a word it loaded at the start. */
  ghost predicate UpTo(s: State, p: nat) {
    && |s.prods| == 2
    && s.prods[0].pc.Idle?
    && s.prods[1].pc == Cas(Word(0, 0, false))
    && Drained(s)
    && s.core.cons.pc.SlotLook?
    && s.core.mem.claim == Word(0, p, false)
  }

  lemma OneRound(c: Config, s: State, p: nat) returns (t: State)
    requires Plain(c) && Reached(c, s) && UpTo(s, p)
    ensures Reached(c, t) && Meanwhile(c, s, t, 1) && UpTo(t, p + 1)
  {
    hide Inv, Reached, Alone, ConsumerAlone, Shape, Meanwhile, Drained;
    ReachedInv(c, s);
    Races.AllEmpty(c, s);
    DepthIs(c);
    Races.SendsOne(c, s, 0);
    MeanwhileNone(c, s, 1);
    MeanwhileAlone(c, s, s, 1, 0, 6);
    AloneReached(c, s, 0, 6);
    var a := Alone(c, s, 0, 6);
    var n := DrainsAll(c, a);
    MeanwhileConsumer(c, s, a, 1, n);
    ConsumerAloneReached(c, a, n);
    t := ConsumerAlone(c, a, n);
  }

  lemma {:induction false} Rounds(c: Config, s: State, m: nat) returns (t: State)
    requires Plain(c) && Reached(c, s) && UpTo(s, 0)
    ensures Reached(c, t) && Meanwhile(c, s, t, 1) && UpTo(t, m)
    decreases m
  {
    hide Reached, Meanwhile, UpTo;
    if m == 0 {
      t := s;
      MeanwhileNone(c, s, 1);
    } else {
      var u := Rounds(c, s, m - 1);
      t := OneRound(c, u, m - 1);
      Stale.MeanwhileChains(c, s, u, t, 1);
    }
  }

  /** Producer 1 loads the claim word of a new ring and sees its slot claimable. */
  lemma LoadsFirst(c: Config, body: Msg) returns (s: State)
    requires Plain(c)
    ensures s == Run(c, 2, body, Repeat(ByProducer(1, Go), 3)) && Reached(c, s) && Inv(c, s)
    ensures |s.prods| == 2 && s.prods[0].pc.Idle? && s.prods[1].pc == Cas(Word(0, 0, false))
    ensures s.core == Init(c, 2, body).core && s.core.cons.pc.Gone? && s.core.mem.claim == Word(0, 0, false)
  {
    hide Inv, Reached, Alone, Shape, SeqAt, Init;
    var s0 := Races.StartIsEmpty(c, 2, body);
    DepthIs(c);
    OffShape(c, s0);
    OpenHere(c, s0);
    AloneLooks(c, s0, 1);
    var a := Alone(c, s0, 1, 2);
    AloneInv(c, s0, 1, 2);
    SeesOpen(c, a, 1);
    AloneSplits(c, s0, 1, 2, 1);
    AloneReached(c, s0, 1, 3);
    s := Alone(c, s0, 1, 3);
    AloneIsRun(c, body);
  }

  lemma AloneIsRun(c: Config, body: Msg)
    requires Good(c)
    ensures Alone(c, Init(c, 2, body), 1, 3) == Run(c, 2, body, Repeat(ByProducer(1, Go), 3))
  {
    hide Exec, Init;
  }

  lemma SeesOpen(c: Config, s: State, i: nat)
    requires Plain(c) && Inv(c, s) && i < |s.prods| && s.prods[i].pc.Look? && Shape(c, s.core)
    requires s.prods[i].pc.w.seg < c.segs
    requires SeqAt(c, s.core.mem, s.prods[i].pc.w.seg, s.prods[i].pc.w.pos) == Claimable(s.prods[i].pc.w.pos)
    ensures Alone(c, s, i, 1) == Put(s, i, s.core, Cas(s.prods[i].pc.w))
  {
    hide Inv, Alone, Shape, PcShape, SeqAt;
    AloneStep(c, s, i, 0);
  }

  /** The segment full a width on, with producer 1 still at its first claim. */
  lemma ComesRound(c: Config, d: Config, s: State) returns (t: State)
    requires Wraps(c, d) && Reached(c, s) && |s.prods| == 2 && s.prods[0].pc.Idle? && s.core.cons.pc.Gone?
    requires s.prods[1].pc == Cas(Word(0, 0, false)) && s.core.mem.claim == Word(0, 0, false)
    ensures Reached(c, t) && Meanwhile(c, s, t, 1) && |t.prods| == 2 && t.prods[1].pc == Cas(Word(0, 0, false))
    ensures t.core.mem.claim == Word(0, d.wrap, false)
    ensures 0 < |t.core.g.cl| == |t.core.g.rd| && t.core.g.cl[0] == t.core.g.rd[0] + c.depth
  {
    hide Inv, Reached, Alone, ConsumerAlone, Shape, Meanwhile;
    PlainOf(c, d);
    ReachedInv(c, s);
    MeanwhileNone(c, s, 1);
    var n := Races.ReadsAll(c, s);
    MeanwhileConsumer(c, s, s, 1, n);
    ConsumerAloneReached(c, s, n);
    var a := ConsumerAlone(c, s, n);
    var b := Rounds(c, a, d.wrap - c.depth);
    Stale.MeanwhileChains(c, s, a, b, 1);
    ReachedInv(c, b);
    Races.AllEmpty(c, b);
    var m := Races.SendsMany(c, b, 0, c.depth);
    MeanwhileAlone(c, s, b, 1, 0, m);
    AloneReached(c, b, 0, m);
    t := Alone(c, b, 0, m);
  }

  /** The wrapped word names the claim word again, and the CAS succeeds. */
  lemma ClaimsOver(c: Config, d: Config, t: State)
    requires Wraps(c, d) && WellShaped(c, t) && 1 < |t.prods| && t.prods[1].pc == Cas(Word(0, 0, false))
    requires t.core.mem.claim == Word(0, d.wrap, false) && 0 < |t.core.g.cl| == |t.core.g.rd|
    ensures var u := Apply(d, Wrap(d, t), ByProducer(1, Go));
      u.core.g.cl == t.core.g.cl[0 := t.core.g.cl[0] + 1] && u.core.g.rd == t.core.g.rd
  {
    hide Shape, PcShape, SwitchStep, NapStep, FillStep, LookStep, WrapSeqs, WrapSeals, WrapAll;
    WrapWell(c, d, t);
    GhostIs(d, t.core);
    DivModUnique(d.wrap, d.wrap, 1, 0);
    SmallSeq(c, d, 0);
  }

  /** At every width and on every ring, some run whose last access alone compares a word a width old puts one claim
      more into a segment than it has slots: without the bound `RunWraps` is false. */
  lemma OldWordOverfills(c: Config, d: Config, body: Msg) returns (steps: seq<Step>)
    requires Wraps(c, d) && Good(d)
    ensures AllTimely(c, d, 2, body, steps)
    ensures var t, u := Run(c, 2, body, steps), Run(d, 2, body, steps + [ByProducer(1, Go)]);
      && |t.prods| == 2 && t.prods[1].pc == Cas(Word(0, 0, false)) && t.core.mem.claim.pos == d.wrap
      && 0 < |u.core.g.cl| == |u.core.g.rd|
      && u.core.g.cl[0] == u.core.g.rd[0] + d.depth + 1
  {
    hide Inv, Reached, WellShaped, Exec, Apply, Wrap, Run, AllTimely, Ahead, Wraps, Init;
    PlainOf(c, d);
    var s := LoadsFirst(c, body);
    var t := ComesRound(c, d, s);
    var more :| NoneOf(more, 1) && t == Exec(c, s, more);
    var a := Repeat(ByProducer(1, Go), 3);
    steps := a + more;
    Stale.RunSplits(c, 2, body, a, more);
    StartsAhead(c, body, s);
    TwoStretches(c, d, 2, body, a, more, 1, 0);
    RunWraps(c, d, 2, body, steps);
    ReachedInv(c, t);
    ClaimsOver(c, d, t);
    Stale.RunSplits(d, 2, body, steps, [ByProducer(1, Go)]);
    Stale.ExecOne(d, Run(d, 2, body, steps), ByProducer(1, Go));
    DepthOfBoth(c, d);
  }

  lemma DepthOfBoth(c: Config, d: Config)
    requires Wraps(c, d)
    ensures d.depth == c.depth
  {
  }

  lemma StartsAhead(c: Config, body: Msg, s: State)
    requires Good(c) && |s.prods| == 2 && s.prods[0].pc.Idle?
    ensures var s0 := Init(c, 2, body); Ahead(s0.core, s0.prods[1].pc) && Ahead(s.core, s.prods[0].pc)
  {
  }
}
