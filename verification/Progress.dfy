/** What one side gets done when the others stand still: a send alone claims and commits in a fixed number of
    accesses, or finds the ring full, and a producer alone fills the ring exactly to its capacity. */
module Progress {
  import opened Machine
  import opened Invariant
  import opened Runs
  import opened ProducerSteps
  import opened Segments
  import CommitProofs
  import LookProofs

  // ---------------------------------------------------------------- a send alone

  function Begun(p: Producer): Producer {
    p.(n := p.n + 1)
  }

  lemma AloneLooks(c: Config, s: State, i: nat)
    requires Plain(c) && Inv(c, s) && i < |s.prods| && s.prods[i].pc.Idle?
    ensures Alone(c, s, i, 2) == Put(State(s.core, s.prods[i := Begun(s.prods[i])]), i, s.core, Look(s.core.mem.claim))
  {
    hide Inv, Alone, Shape, PcShape;
    AloneStep(c, s, i, 0);
    AloneStep(c, s, i, 1);
  }

  lemma AloneReloads(c: Config, s: State, i: nat)
    requires Plain(c) && Inv(c, s) && i < |s.prods| && s.prods[i].pc.Load?
    ensures Alone(c, s, i, 1) == Put(s, i, s.core, Look(s.core.mem.claim))
  {
    hide Inv, Alone, Shape, PcShape;
    AloneStep(c, s, i, 0);
  }

  /** The consumer as a wake of it leaves it. */
  function Woken(cons: Consumer): Consumer {
    if cons.pc.Sleeping? then cons.(pc := FlagClear) else cons
  }

  /** A claim of this word owes the consumer a wake. */
  predicate OwesWake(c: Config, w: Word) {
    c.wakes && w.waiting
  }

  /** What a send leaves: one claim more, at the back, committed, and a consumer that slept under the flag woken. */
  ghost predicate SentOne(c: Config, x: Core, y: Core, msg: Msg)
    requires Shape(c, x) && x.mem.claim.seg < c.segs
  {
    var k := x.mem.claim.seg;
    && y.mem.claim == Word(k, x.mem.claim.pos + 1, x.mem.claim.waiting)
    && y.mem.inUse == x.mem.inUse
    && y.mem.switches == x.mem.switches
    && y.mem.wake == x.mem.wake
    && y.cons == (if OwesWake(c, x.mem.claim) then Woken(x.cons) else x.cons)
    && y.g == x.g.(log := x.g.log + [Claimed(msg, k, x.g.cl[k], Committed)], cl := x.g.cl[k := x.g.cl[k] + 1])
  }

  lemma AloneClaims(c: Config, s: State, i: nat, w: Word)
    requires Plain(c) && Inv(c, s) && i < |s.prods| && s.prods[i].pc == Look(w) && w == s.core.mem.claim
    requires w.seg < c.segs && Shape(c, s.core)
    requires SeqAt(c, s.core.mem, w.seg, w.pos) == Claimable(w.pos)
    ensures Alone(c, s, i, 2) == Put(s, i, ClaimSlot(c, s.core, i, s.prods[i].n, w), Fill(w))
  {
    hide Inv, Alone, Shape, PcShape, ClaimSlot, SeqAt;
    AloneStep(c, s, i, 0);
    AloneStep(c, s, i, 1);
  }

  /** The parts of the memory a claim or a switch reads, but for the slots. */
  predicate SameWords(m: Memory, n: Memory) {
    n.claim == m.claim && n.inUse == m.inUse && n.switches == m.switches && n.wake == m.wake
  }

  lemma AloneWrites(c: Config, s: State, i: nat, w: Word)
    requires Plain(c) && Inv(c, s) && i < |s.prods| && s.prods[i].pc == Fill(w)
    ensures var t := Alone(c, s, i, 1);
      && t.prods == s.prods[i := s.prods[i].(pc := Commit(w))]
      && SameWords(s.core.mem, t.core.mem)
      && t.core.cons == s.core.cons
      && t.core.g == s.core.g
  {
    hide Inv, Alone, Shape, PcShape;
    AloneStep(c, s, i, 0);
  }

  lemma AloneCommits(c: Config, s: State, i: nat, w: Word)
    requires Plain(c) && Inv(c, s) && i < |s.prods| && s.prods[i].pc == Commit(w)
    requires Shape(c, s.core) && w.seg < |s.core.g.off|
    ensures var t, e := Alone(c, s, i, 1), s.core.g.off[w.seg] + w.pos;
      && 0 <= e < |s.core.g.log|
      && t.prods == s.prods[i := s.prods[i].(pc := if OwesWake(c, w) then WakeConsumer(w) else Idle)]
      && SameWords(s.core.mem, t.core.mem)
      && t.core.cons == s.core.cons
      && t.core.g == s.core.g.(log := s.core.g.log[e := s.core.g.log[e].(fate := Committed)])
  {
    hide Inv, Alone, PcShape, EntryOf, CommitProofs.AtSlot, CommitProofs.Committing, CoreInv, Local, Ranged, CommitSlot,
         SwitchStep, NapStep, SendStep, WriteBody, Rouse;
    AloneStep(c, s, i, 0);
    InvAt(c, s, i);
    SlotReady(c, s.core, i, s.prods[i]);
    CommitReady(c, s.core, i, s.prods[i], Committed);
    var y := CommitSlot(c, s.core, w, EntryOf(c, s.core.g, i, s.prods[i].n), Committed);
    CommitProofs.CommitEntry(c, s.core, y, i, s.prods[i], Committed);
    CommitFrame(c, s.core, w, EntryOf(c, s.core.g, i, s.prods[i].n));
  }

  lemma CommitFrame(c: Config, x: Core, w: Word, idx: int)
    requires Shape(c, x) && w.seg < c.segs
    ensures SameWords(x.mem, CommitSlot(c, x, w, idx, Committed).mem)
    ensures CommitSlot(c, x, w, idx, Committed).cons == x.cons
  {
  }

  lemma OffShape(c: Config, s: State)
    requires Inv(c, s)
    ensures Shape(c, s.core) && |s.core.g.off| == |s.core.g.cl| == |s.core.g.rd| == c.segs
    ensures s.core.mem.claim.seg < c.segs && s.core.mem.claim.pos == s.core.g.cl[s.core.mem.claim.seg]
    ensures |s.core.g.log| == s.core.g.off[s.core.mem.claim.seg] + s.core.g.cl[s.core.mem.claim.seg]
    ensures s.core.g.rd[s.core.mem.claim.seg] <= s.core.g.cl[s.core.mem.claim.seg]
  {
    hide Inv, Placed, Shape;
    OrderFacts(c, s);
    SealsShape(c, s);
  }

  /** The accesses of a send from its look at a claimable slot on. */
  function SendCost(c: Config, w: Word): nat {
    if OwesWake(c, w) then 5 else 4
  }

  /** From its look at a claimable slot a send alone takes four accesses, or five where the claim word has the
      consumer's flag up: its message is claimed at the back of the log and committed, and a consumer asleep
      under the flag is woken. */
  lemma AloneSends(c: Config, s: State, i: nat)
    requires Plain(c) && Inv(c, s) && i < |s.prods| && s.prods[i].pc == Look(s.core.mem.claim)
    requires Shape(c, s.core) && s.core.mem.claim.seg < c.segs
    requires s.core.g.cl[s.core.mem.claim.seg] < s.core.g.rd[s.core.mem.claim.seg] + c.depth
    ensures var t := Alone(c, s, i, SendCost(c, s.core.mem.claim));
      && SentOne(c, s.core, t.core, Machine.Msg(i, s.prods[i].n))
      && t.prods == s.prods[i := s.prods[i].(pc := Idle)]
  {
    hide Inv, Alone, Shape, SeqAt, SameWords;
    var w := s.core.mem.claim;
    AloneLogs(c, s, i);
    var v := Alone(c, s, i, 4);
    AloneInv(c, s, i, 4);
    NotWaker(c, s, i);
    if OwesWake(c, w) {
      AloneWakes(c, v, i, w);
      AloneSplits(c, s, i, 4, 1);
      assert s.core.g.wakers[i := |s.core.g.log|] - {i} == s.core.g.wakers;
    }
  }

  /** A producer not past a claim owes no wake. */
  lemma NotWaker(c: Config, s: State, i: nat)
    requires Inv(c, s) && i < |s.prods| && s.prods[i].pc.Look?
    ensures i !in s.core.g.wakers
  {
    hide CoreInv, RingLocal, Naps;
    InvAt(c, s, i);
  }

  lemma AloneWakes(c: Config, s: State, i: nat, w: Word)
    requires Plain(c) && Inv(c, s) && i < |s.prods| && s.prods[i].pc == WakeConsumer(w)
    ensures Alone(c, s, i, 1) == Put(s, i, Rouse(s.core, i), Idle)
  {
    hide Inv, Alone, Shape, PcShape, Rouse;
    AloneStep(c, s, i, 0);
  }

  /** The send up to its commit. */
  ghost predicate LoggedOne(c: Config, x: Core, y: Core, i: nat, msg: Msg)
    requires Shape(c, x) && x.mem.claim.seg < c.segs
  {
    var w := x.mem.claim;
    && y.mem.claim == Word(w.seg, w.pos + 1, w.waiting)
    && y.mem.inUse == x.mem.inUse
    && y.mem.switches == x.mem.switches
    && y.mem.wake == x.mem.wake
    && y.cons == x.cons
    && y.g == x.g.(log := x.g.log + [Claimed(msg, w.seg, x.g.cl[w.seg], Committed)],
                   cl := x.g.cl[w.seg := x.g.cl[w.seg] + 1],
                   wakers := if OwesWake(c, w) then x.g.wakers[i := |x.g.log|] else x.g.wakers)
  }

  lemma AloneLogs(c: Config, s: State, i: nat)
    requires Plain(c) && Inv(c, s) && i < |s.prods| && s.prods[i].pc == Look(s.core.mem.claim)
    requires Shape(c, s.core) && s.core.mem.claim.seg < c.segs
    requires s.core.g.cl[s.core.mem.claim.seg] < s.core.g.rd[s.core.mem.claim.seg] + c.depth
    ensures var t, w := Alone(c, s, i, 4), s.core.mem.claim;
      && LoggedOne(c, s.core, t.core, i, Machine.Msg(i, s.prods[i].n))
      && t.prods == s.prods[i := s.prods[i].(pc := if OwesWake(c, w) then WakeConsumer(w) else Idle)]
  {
    hide Inv, Alone, Shape, SeqAt, ClaimSlot, SameWords;
    var w := s.core.mem.claim;
    OffShape(c, s);
    OpenHere(c, s);
    AloneClaims(c, s, i, w);
    var t := Alone(c, s, i, 2);
    ClaimIs(c, s.core, i, s.prods[i].n, w);
    AloneSplits(c, s, i, 2, 1);
    AloneSplits(c, s, i, 3, 1);
    AloneInv(c, s, i, 2);
    AloneInv(c, s, i, 3);
    AloneWrites(c, t, i, w);
    var u := Alone(c, t, i, 1);
    OffShape(c, u);
    AloneCommits(c, u, i, w);
    SentIs(c, s, i, t, u, Alone(c, u, i, 1));
  }

  lemma OpenHere(c: Config, s: State)
    requires Plain(c) && Inv(c, s) && Shape(c, s.core) && s.core.mem.claim.seg < c.segs
    ensures var x, k := s.core, s.core.mem.claim.seg;
      x.g.cl[k] < x.g.rd[k] + c.depth <==> SeqAt(c, x.mem, k, x.mem.claim.pos) == Claimable(x.mem.claim.pos)
  {
    hide Inv, Shape, Placed, Bits, Sealed;
    OffShape(c, s);
    SlotFacts(c, s);
    var x, k := s.core, s.core.mem.claim.seg;
    if x.g.cl[k] < x.g.rd[k] + c.depth {
      assert SlotOk(c, x, k, x.g.cl[k]);
    } else {
      FullSlot(c, x, k);
    }
  }

  lemma FullSlot(c: Config, x: Core, k: nat)
    requires Plain(c) && Shape(c, x) && Fronts(c, x) && Slots(c, x) && k < c.segs
    requires x.g.cl[k] >= x.g.rd[k] + c.depth
    ensures SeqAt(c, x.mem, k, x.g.cl[k]) != Claimable(x.g.cl[k])
  {
    if SeqAt(c, x.mem, k, x.g.cl[k]) == Claimable(x.g.cl[k]) {
      LookProofs.SlotInWindow(c, x, k, x.g.cl[k]);
      assert false;
    }
  }

  lemma ClaimIs(c: Config, x: Core, i: nat, n: nat, w: Word)
    requires Plain(c) && Shape(c, x) && w.seg < c.segs
    ensures var y := ClaimSlot(c, x, i, n, w);
      && y.mem == x.mem.(claim := Word(w.seg, w.pos + 1, w.waiting))
      && y.cons == x.cons
      && y.g == x.g.(log := x.g.log + [Claimed(Machine.Msg(i, n), w.seg, x.g.cl[w.seg], Filling)],
                     cl := x.g.cl[w.seg := x.g.cl[w.seg] + 1],
                     wakers := if OwesWake(c, w) then x.g.wakers[i := |x.g.log|] else x.g.wakers)
  {
  }

  lemma SentIs(c: Config, s: State, i: nat, t: State, u: State, v: State)
    requires Shape(c, s.core) && i < |s.prods| && s.core.mem.claim.seg < |s.core.g.cl| && |s.core.g.off| == c.segs
    requires s.core.mem.claim.seg < c.segs
    requires var w, x := s.core.mem.claim, s.core;
      && |x.g.log| == x.g.off[w.seg] + w.pos && w.pos == x.g.cl[w.seg]
      && t == Put(s, i, t.core, Fill(w))
      && t.core.mem == x.mem.(claim := Word(w.seg, w.pos + 1, w.waiting))
      && t.core.cons == x.cons
      && t.core.g == x.g.(log := x.g.log + [Claimed(Machine.Msg(i, s.prods[i].n), w.seg, x.g.cl[w.seg], Filling)],
                          cl := x.g.cl[w.seg := x.g.cl[w.seg] + 1],
                          wakers := if OwesWake(c, w) then x.g.wakers[i := |x.g.log|] else x.g.wakers)
      && u.prods == t.prods[i := t.prods[i].(pc := Commit(w))]
      && SameWords(t.core.mem, u.core.mem) && u.core.cons == t.core.cons && u.core.g == t.core.g
      && v.prods == u.prods[i := u.prods[i].(pc := if OwesWake(c, w) then WakeConsumer(w) else Idle)]
      && SameWords(u.core.mem, v.core.mem) && v.core.cons == u.core.cons
      && v.core.g == u.core.g.(log := u.core.g.log[|x.g.log| := u.core.g.log[|x.g.log|].(fate := Committed)])
    ensures LoggedOne(c, s.core, v.core, i, Machine.Msg(i, s.prods[i].n))
    ensures v.prods ==
      s.prods[i := s.prods[i].(pc := if OwesWake(c, s.core.mem.claim) then WakeConsumer(s.core.mem.claim) else Idle)]
  {
    hide Shape;
    var x := s.core;
    var e := Claimed(Machine.Msg(i, s.prods[i].n), x.mem.claim.seg, x.g.cl[x.mem.claim.seg], Committed);
    assert (x.g.log + [e.(fate := Filling)])[|x.g.log| := e] == x.g.log + [e];
  }

  // ---------------------------------------------------------------- a full ring alone

  /** A look alone at a full segment. */
  lemma AloneMisses(c: Config, s: State, i: nat)
    requires Plain(c) && Inv(c, s) && i < |s.prods| && s.prods[i].pc == Look(s.core.mem.claim)
    requires Shape(c, s.core) && s.core.mem.claim.seg < c.segs
    requires s.core.g.cl[s.core.mem.claim.seg] == s.core.g.rd[s.core.mem.claim.seg] + c.depth
    ensures var t := Alone(c, s, i, 2);
      && t.core == s.core
      && |t.prods| == |s.prods|
      && t.prods[i].n == s.prods[i].n
      && t.prods[i].pc == (if c.multi then FreeLoad(s.core.mem.claim) else Full)
      && forall j :: 0 <= j < |s.prods| && j != i ==> t.prods[j] == s.prods[j]
  {
    hide Inv, Alone, Shape, PcShape, SeqAt;
    OffShape(c, s);
    OpenHere(c, s);
    AloneStep(c, s, i, 0);
    AloneStep(c, s, i, 1);
  }

  lemma AloneFindsNone(c: Config, s: State, i: nat, w: Word)
    requires Plain(c) && Inv(c, s) && i < |s.prods| && s.prods[i].pc == FreeLoad(w) && !AnyFree(c, s.core.mem.inUse)
    ensures Alone(c, s, i, 1) == Put(s, i, s.core, Full)
  {
    hide Inv, Alone, Shape, PcShape, AnyFree;
    AloneStep(c, s, i, 0);
  }

  lemma AloneTakes(c: Config, s: State, i: nat, w: Word, k: nat)
    requires Plain(c) && Inv(c, s) && i < |s.prods| && s.prods[i].pc == FreeLoad(w)
    requires AnyFree(c, s.core.mem.inUse) && k == LowestFree(c, s.core.mem.inUse, 0)
    ensures k < |s.core.mem.seals|
    ensures Alone(c, s, i, 4) == Put(s, i, StoreSeal(TakeBit(s.core, i, k), k, ClearSeal),
                                     Move(w, k, s.core.mem.seals[k].pos))
  {
    hide Inv, Alone, Shape, PcShape, AnyFree, LowestFree;
    SealsAre(c, s);
    AloneStep(c, s, i, 0);
    LostTakes(c, Alone(c, s, i, 1), i, w, k);
    AloneSplits(c, s, i, 1, 3);
  }

  lemma SealsAre(c: Config, s: State)
    requires Inv(c, s)
    ensures |s.core.mem.seals| == c.segs
  {
    hide Inv, Shape, Sealed, Fronts, Bits;
    ChainFacts(c, s);
    SealsShape(c, s);
  }

  lemma AloneMoves(c: Config, s: State, i: nat, w: Word, k: nat, start: nat)
    requires Plain(c) && Inv(c, s) && i < |s.prods| && s.prods[i].pc == Move(w, k, start) && s.core.mem.claim == w
    requires Shape(c, s.core) && w.seg < c.segs && k < c.segs
    ensures Alone(c, s, i, 3) == Put(s, i, AddSwitch(SealOld(c, MoveRing(c, s.core, i, w, k, start), w, k), i), Load)
  {
    hide Inv, Alone, PcShape, MoveRing, SealOld, AddSwitch;
    AloneStep(c, s, i, 0);
    AloneStep(c, s, i, 1);
    AloneStep(c, s, i, 2);
  }
}
