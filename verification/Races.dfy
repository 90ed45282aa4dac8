/** Runs that show what rings of several segments do not promise, and why their proofs need what they need. */
module Races {
  import opened Laps
  import opened Machine
  import opened Invariant
  import opened Runs
  import opened Segments
  import opened Progress
  import opened FillingUp
  import opened Draining
  import opened Asides
  import opened Fullness

  // ---------------------------------------------------------------- parts of the runs

  /** From rest, at a full segment: four accesses to the question of a free segment, or, with one segment,
      to the policy. */
  lemma SeesFull(c: Config, s: State, i: nat)
    requires Plain(c) && Inv(c, s) && i < |s.prods| && s.prods[i].pc.Idle? && Shape(c, s.core)
    requires s.core.mem.claim.seg < c.segs
    requires s.core.g.cl[s.core.mem.claim.seg] == s.core.g.rd[s.core.mem.claim.seg] + c.depth
    ensures var t := Alone(c, s, i, 4);
      && t.core == s.core
      && |t.prods| == |s.prods|
      && t.prods[i].pc == (if c.multi then FreeLoad(s.core.mem.claim) else Full)
      && t.prods[i].n == s.prods[i].n + 1
      && forall j :: 0 <= j < |s.prods| && j != i ==> t.prods[j] == s.prods[j]
  {
    hide Inv, Alone, Shape;
    AloneLooks(c, s, i);
    AloneInv(c, s, i, 2);
    AloneMisses(c, Alone(c, s, i, 2), i);
    AloneSplits(c, s, i, 2, 2);
  }

  /** From rest, at a segment with room: six accesses to a message more. */
  lemma SendsOne(c: Config, s: State, i: nat)
    requires Plain(c) && Inv(c, s) && i < |s.prods| && s.prods[i].pc.Idle? && Shape(c, s.core)
    requires !s.core.mem.claim.waiting && s.core.mem.claim.seg < c.segs
    requires s.core.g.cl[s.core.mem.claim.seg] < s.core.g.rd[s.core.mem.claim.seg] + c.depth
    ensures var t := Alone(c, s, i, 6);
      && SentOne(c, s.core, t.core, Machine.Msg(i, s.prods[i].n + 1))
      && |t.prods| == |s.prods|
      && t.prods[i].pc.Idle?
      && forall j :: 0 <= j < |s.prods| && j != i ==> t.prods[j] == s.prods[j]
  {
    hide Inv, Alone, Shape, SentOne;
    AloneLooks(c, s, i);
    AloneInv(c, s, i, 2);
    AloneSends(c, Alone(c, s, i, 2), i);
    AloneSplits(c, s, i, 2, 4);
  }

  lemma StartIsEmpty(c: Config, producers: nat, body: Msg) returns (s: State)
    requires Plain(c)
    ensures s == Init(c, producers, body) && Reached(c, s) && Inv(c, s) && Shape(c, s.core)
    ensures |s.prods| == producers && forall i :: 0 <= i < producers ==> s.prods[i].pc.Idle?
    ensures s.core.mem.claim == Word(0, 0, false) && s.core.mem.inUse == {0} && s.core.mem.switches == 0
    ensures s.core.g.log == [] && s.core.g.head == 0 && s.core.g.chain == [0]
    ensures forall k :: 0 <= k < c.segs ==> s.core.g.cl[k] == s.core.g.rd[k] == 0
    ensures s.core.cons.pc.Gone?
  {
    hide Inv, Reached;
    s := Init(c, producers, body);
    InitReached(c, producers, body);
    InitInv(c, producers, body);
    InitShape(c, producers, body);
  }

  lemma DepthOf(c: Config)
    requires Plain(c)
    ensures c.depth >= 1
  {
  }

  /** With nobody switching and a chain of one segment, only its bit is set. */
  lemma RestBits(c: Config, s: State)
    requires Inv(c, s) && |s.core.g.chain| == 1
    requires forall q :: 0 <= q < |s.prods| ==> !Switching(s.prods[q].pc)
    ensures s.core.mem.claim.seg < c.segs
    ensures forall k :: k in s.core.mem.inUse <==> k in [s.core.mem.claim.seg]
  {
    hide Inv, Sealed, Fronts, Owes;
    ChainFacts(c, s);
    InvCoreRanged(c, s);
    forall k: nat
      ensures k !in s.core.g.held
    {
      if k in s.core.g.held {
        SwitchLocalOf(c, s, s.core.g.held[k]);
      }
    }
  }

  // ---------------------------------------------------------------- full with room

  /** A segment outside the chain, when that is all but one of them: its bit set, none is free. */
  lemma LastTaken(c: Config, s: State, k: nat)
    requires Inv(c, s) && |s.core.g.chain| + 1 == c.segs && k < c.segs && k !in s.core.mem.inUse
    ensures !AnyFree(c, s.core.mem.inUse + {k})
  {
    hide Inv, Sealed, Fronts;
    ChainFacts(c, s);
    if AnyFree(c, s.core.mem.inUse + {k}) {
      var j :| 0 <= j < c.segs && j !in s.core.mem.inUse + {k};
      Pigeonhole(s.core.g.chain + [k, j], c.segs);
    }
  }

  /** On any ring of two or more segments: all but one are filled, a second producer's send finds the claim
      word's segment full, and before it looks for a free one the first takes the last, in the middle of its
      switch. The send is refused with a whole segment never used. */
  lemma FullWithRoom(c: Config, body: Msg) returns (s: State)
    requires Plain(c) && c.segs >= 2
    ensures Reached(c, s) && |s.prods| == 2 && s.prods[1].pc.Full?
    ensures |s.core.g.log| == (c.segs - 1) * c.depth < c.segs * c.depth
  {
    hide Inv, Reached, Alone, Shape, Init, Filled, LowestFree;
    MulMono(c.segs - 1, c.segs, c.depth);
    var s0 := StartIsEmpty(c, 2, body);
    var n := FillsTo(c, 2, body, 0, (c.segs - 1) * c.depth);
    var s1 := Alone(c, s0, 0, n);
    AloneReached(c, s0, 0, n);
    WholeSegments(c, s1, 0, c.segs - 1);
    AtRest(c, s1, 0, (c.segs - 1) * c.depth);
    OffShape(c, s1);
    SeesFull(c, s1, 1);
    var s2 := Alone(c, s1, 1, 4);
    AloneReached(c, s1, 1, 4);
    SeesFull(c, s2, 0);
    var s3 := Alone(c, s2, 0, 4);
    AloneReached(c, s2, 0, 4);
    FreeLeft(c, s1, 0);
    var k := LowestFree(c, s3.core.mem.inUse, 0);
    LastTaken(c, s1, k);
    AloneTakes(c, s3, 0, s1.core.mem.claim, k);
    var s4 := Alone(c, s3, 0, 4);
    AloneReached(c, s3, 0, 4);
    AloneFindsNone(c, s4, 1, s1.core.mem.claim);
    s := Alone(c, s4, 1, 1);
    AloneReached(c, s4, 1, 1);
  }

  lemma AtRest(c: Config, s: State, i: nat, j: nat)
    requires Filled(c, s, i, j)
    ensures i < |s.prods| && Quiet(s, i) && |s.core.g.log| == j && s.core.g.head == 0
    ensures forall q :: 0 <= q < |s.prods| ==> s.prods[q].pc.Idle?
    ensures s.core.cons.pc.Gone? && !s.core.mem.claim.waiting
  {
  }

  /** Some access of this very send of producer `i`'s, now refused, found the whole ring full. */
  ghost predicate SawRingFull(c: Config, producers: nat, body: Msg, steps: seq<Step>, i: nat)
    requires Good(c) && i < producers
  {
    exists m :: 0 <= m <= |steps|
      && var r := Run(c, producers, body, steps[..m]);
      && r.prods[i].n == Run(c, producers, body, steps).prods[i].n
      && |r.core.g.log| - r.core.g.head == c.segs * c.depth
  }

  /** Every refused send, in every run, saw the whole ring full. */
  ghost predicate FullIsFull(c: Config)
    requires Good(c)
  {
    forall producers: nat, body: Msg, steps: seq<Step>, i: nat ::
      i < producers && Run(c, producers, body, steps).prods[i].pc.Full? ==>
        SawRingFull(c, producers, body, steps, i)
  }

  lemma RefusedSawFull(c: Config, producers: nat, body: Msg, steps: seq<Step>, i: nat)
    requires Plain(c) && c.segs == 1 && i < producers && Run(c, producers, body, steps).prods[i].pc.Full?
    ensures SawRingFull(c, producers, body, steps, i)
  {
    hide Run;
    var m := FullIsTruthful(c, producers, body, steps, i);
    assert |Run(c, producers, body, steps[..m]).core.g.log| - Run(c, producers, body, steps[..m]).core.g.head ==
        c.segs * c.depth;
  }

  lemma NeverSawFull(c: Config, producers: nat, body: Msg, steps: seq<Step>, i: nat)
    requires Plain(c) && i < producers && |Run(c, producers, body, steps).core.g.log| < c.segs * c.depth
    ensures !SawRingFull(c, producers, body, steps, i)
  {
    hide Run;
    forall m | 0 <= m <= |steps|
      ensures |Run(c, producers, body, steps[..m]).core.g.log| < c.segs * c.depth
    {
      LaterRun(c, producers, body, steps[..m], steps);
    }
  }

  /** When `Full` can be taken at its word: a refused send saw the whole ring full, in every run, exactly
      when the ring has one segment. */
  lemma FullIsFullOnOneSegment(c: Config)
    requires Plain(c)
    ensures FullIsFull(c) <==> c.segs == 1
  {
    hide Run, SawRingFull, Reached;
    if c.segs == 1 {
      forall producers: nat, body: Msg, steps: seq<Step>, i: nat |
        i < producers && Run(c, producers, body, steps).prods[i].pc.Full?
        ensures SawRingFull(c, producers, body, steps, i)
      {
        RefusedSawFull(c, producers, body, steps, i);
      }
    } else {
      var s := FullWithRoom(c, Machine.Msg(0, 0));
      NotFull(c, s, 1);
    }
  }

  lemma NotFull(c: Config, s: State, i: nat)
    requires Reached(c, s) && i < |s.prods| && s.prods[i].pc.Full? && |s.core.g.log| < c.segs * c.depth
    ensures !FullIsFull(c)
  {
    hide Run, SawRingFull;
    var producers: nat, body: Msg, steps: seq<Step> :| s == Run(c, producers, body, steps);
    NeverSawFull(c, producers, body, steps, i);
  }

  /** A consumer takes the role over and reads everything. */
  lemma ReadsAll(c: Config, s: State) returns (n: nat)
    requires Plain(c) && Inv(c, s) && s.core.cons.pc.Gone? && AllCalm(s.prods) && NobodyNaps(s.prods)
    ensures var t := ConsumerAlone(c, s, n);
      t.core.cons.pc.SlotLook? && Drained(t) && t.prods == s.prods && Unread(s.core, t.core)
  {
    hide Inv, ConsumerAlone;
    var a := TakesRole(c, s);
    ConsumerAloneInv(c, s, a);
    var b := DrainsAll(c, ConsumerAlone(c, s, a));
    ConsumerAloneSplits(c, s, a, b);
    n := a + b;
  }

  /** With nothing left to read every segment is empty, and no bit is in use but the one segment's left. */
  lemma AllEmpty(c: Config, s: State)
    requires Plain(c) && Inv(c, s) && Drained(s)
    ensures Shape(c, s.core) && |s.core.g.cl| == |s.core.g.rd| == c.segs && s.core.mem.claim.seg < c.segs
    ensures s.core.mem.claim.pos == s.core.g.cl[s.core.mem.claim.seg]
    ensures forall k :: 0 <= k < c.segs ==> s.core.g.cl[k] == s.core.g.rd[k]
    ensures s.core.g.chain == [s.core.mem.claim.seg]
  {
    hide Inv, Shape, Placed;
    OrderFacts(c, s);
    SealsShape(c, s);
  }

  // ---------------------------------------------------------------- the claim word comes back

  /** From the question of a free segment, with segment `k` the lowest: seven accesses to a ring moved on. */
  lemma SwitchesTo(c: Config, s: State, i: nat, k: nat, start: nat)
    requires Plain(c) && Inv(c, s) && i < |s.prods| && s.prods[i].pc == FreeLoad(s.core.mem.claim)
    requires AnyFree(c, s.core.mem.inUse) && k == LowestFree(c, s.core.mem.inUse, 0)
    requires k < |s.core.mem.seals| && s.core.mem.seals[k].pos == start
    ensures var t := Alone(c, s, i, 7);
      && t.core.mem.claim == Word(k, start, s.core.mem.claim.waiting)
      && t.core.mem.switches == s.core.mem.switches + 1
      && t.core.cons == s.core.cons
      && t.core.g.log == s.core.g.log && t.core.g.cl == s.core.g.cl && t.core.g.rd == s.core.g.rd
      && |t.prods| == |s.prods|
      && t.prods[i].pc.Load? && t.prods[i].n == s.prods[i].n
      && forall j :: 0 <= j < |s.prods| && j != i ==> t.prods[j] == s.prods[j]
  {
    hide Inv, Alone, AnyFree, LowestFree;
    var w := s.core.mem.claim;
    OffShape(c, s);
    AloneTakes(c, s, i, w, k);
    var t := Alone(c, s, i, 4);
    AloneInv(c, s, i, 4);
    OffShape(c, t);
    AloneMoves(c, t, i, w, k, start);
    AloneSplits(c, s, i, 4, 3);
  }

  /** From a fresh load, at a segment with room: five accesses to a message more. */
  lemma SendsOnward(c: Config, s: State, i: nat)
    requires Plain(c) && Inv(c, s) && i < |s.prods| && s.prods[i].pc.Load? && Shape(c, s.core)
    requires !s.core.mem.claim.waiting && s.core.mem.claim.seg < c.segs
    requires s.core.g.cl[s.core.mem.claim.seg] < s.core.g.rd[s.core.mem.claim.seg] + c.depth
    ensures var t := Alone(c, s, i, 5);
      && SentOne(c, s.core, t.core, Machine.Msg(i, s.prods[i].n))
      && |t.prods| == |s.prods|
      && t.prods[i].pc.Idle?
      && forall j :: 0 <= j < |s.prods| && j != i ==> t.prods[j] == s.prods[j]
  {
    hide Inv, Alone, Shape, SentOne;
    AloneReloads(c, s, i);
    AloneInv(c, s, i, 1);
    AloneSends(c, Alone(c, s, i, 1), i);
    AloneSplits(c, s, i, 1, 4);
  }

  /** A free segment's bit and seal, when no producer is inside a switch. */
  lemma FreeSegment(c: Config, s: State, k: nat)
    requires Plain(c) && Reached(c, s) && Inv(c, s) && Shape(c, s.core) && k < c.segs && k !in s.core.g.chain
    requires forall i :: 0 <= i < |s.prods| ==> !Holds(s.prods[i].pc, k)
    requires |s.core.g.rd| == |s.core.mem.seals| == c.segs
    ensures k !in s.core.mem.inUse && s.core.mem.seals[k].pos == s.core.g.rd[k]
  {
    hide Inv, Reached, Shape;
    BitsAreShared(c, s, k);
    ResumesAgree(c, s, k);
  }

  lemma SeesSegs(c: Config, s: State)
    requires Plain(c) && Inv(c, s)
    ensures |s.core.g.rd| == |s.core.mem.seals| == c.segs
  {
    hide Inv, Sealed, Fronts, Bits;
    ChainFacts(c, s);
    SealsShape(c, s);
  }

  /** From rest, at a segment with room for `m`: so many messages more. */
  lemma {:induction false} SendsMany(c: Config, s: State, i: nat, m: nat) returns (n: nat)
    requires Plain(c) && Inv(c, s) && i < |s.prods| && s.prods[i].pc.Idle? && !s.core.mem.claim.waiting
    requires s.core.mem.claim.seg < |s.core.g.cl| == |s.core.g.rd| == c.segs
    requires s.core.g.cl[s.core.mem.claim.seg] + m <= s.core.g.rd[s.core.mem.claim.seg] + c.depth
    ensures var k, t := s.core.mem.claim.seg, Alone(c, s, i, n);
      && t.core.mem.claim == Word(k, s.core.mem.claim.pos + m, false)
      && t.core.g.cl == s.core.g.cl[k := s.core.g.cl[k] + m]
      && t.core.g.rd == s.core.g.rd
      && t.core.g.chain == s.core.g.chain
      && t.core.cons == s.core.cons
      && |t.prods| == |s.prods|
      && t.prods[i].pc.Idle?
      && forall j :: 0 <= j < |s.prods| && j != i ==> t.prods[j] == s.prods[j]
    decreases m
  {
    hide Inv, Alone, Shape;
    if m == 0 {
      n := 0;
      AloneStep(c, s, i, 0);
    } else {
      OffShape(c, s);
      SendsOne(c, s, i);
      AloneInv(c, s, i, 6);
      var r := SendsMany(c, Alone(c, s, i, 6), i, m - 1);
      AloneSplits(c, s, i, 6, r);
      n := 6 + r;
    }
  }

  lemma OneBit(c: Config, s: State)
    requires Plain(c) && Inv(c, s) && c.segs >= 2 && |s.core.g.chain| == 1
    requires forall q :: 0 <= q < |s.prods| ==> !Switching(s.prods[q].pc)
    ensures s.core.mem.claim.seg < c.segs && AnyFree(c, s.core.mem.inUse)
    ensures var k := LowestFree(c, s.core.mem.inUse, 0); k == if s.core.mem.claim.seg == 0 then 1 else 0
  {
    hide Inv;
    RestBits(c, s);
    assert 0 !in s.core.mem.inUse || 1 !in s.core.mem.inUse;
  }

  /** From rest, at a full last segment: the free one of lowest number becomes the claim word's, at its
      resume position. */
  lemma MovesOn(c: Config, s: State, i: nat) returns (t: State)
    requires Plain(c) && Inv(c, s) && Reached(c, s) && c.segs >= 2 && |s.core.g.chain| == 1
    requires i < |s.prods| && s.prods[i].pc.Idle? && !s.core.mem.claim.waiting
    requires forall j :: 0 <= j < |s.prods| ==> !Switching(s.prods[j].pc)
    requires s.core.mem.claim.seg < |s.core.g.cl| == |s.core.g.rd| == c.segs
    requires s.core.g.cl[s.core.mem.claim.seg] == s.core.g.rd[s.core.mem.claim.seg] + c.depth
    ensures Inv(c, t) && Reached(c, t) && t == Alone(c, s, i, 11) && |t.prods| == |s.prods| && t.prods[i].pc.Load?
    ensures var k: nat := if s.core.mem.claim.seg == 0 then 1 else 0;
      t.core.mem.claim == Word(k, s.core.g.rd[k], false) && s.core.g.rd[k] == s.core.g.cl[k]
    ensures t.core.g.cl == s.core.g.cl && t.core.g.rd == s.core.g.rd && t.core.cons == s.core.cons
    ensures t.core.g.log == s.core.g.log
    ensures forall j :: 0 <= j < |s.prods| && j != i ==> t.prods[j] == s.prods[j]
  {
    hide Inv, Reached, Alone, Shape, AnyFree, LowestFree;
    OffShape(c, s);
    OneBit(c, s);
    SeesFull(c, s, i);
    var a := Alone(c, s, i, 4);
    AloneReached(c, s, i, 4);
    SeesSegs(c, s);
    var k := LowestFree(c, s.core.mem.inUse, 0);
    Apart(c, s, k);
    FreeSegment(c, s, k);
    SwitchesTo(c, a, i, k, s.core.g.rd[k]);
    AloneSplits(c, s, i, 4, 7);
    AloneReached(c, s, i, 11);
    t := Alone(c, s, i, 11);
    FreeIsEmpty(c, s, k);
  }

  lemma Apart(c: Config, s: State, k: nat)
    requires Inv(c, s) && |s.core.g.chain| == 1 && k != s.core.mem.claim.seg
    ensures k !in s.core.g.chain
  {
    hide Inv, Sealed, Fronts, Bits;
    ChainFacts(c, s);
  }

  lemma FreeIsEmpty(c: Config, s: State, k: nat)
    requires Inv(c, s) && k < c.segs && k !in s.core.g.chain
    ensures |s.core.g.rd| == |s.core.g.cl| == c.segs && s.core.g.rd[k] == s.core.g.cl[k]
  {
    hide Inv, Sealed, Bits;
    ChainFacts(c, s);
    SealsShape(c, s);
  }

  /** The first half: producer 1 loads the claim word at the end of segment 0, and producer 0 moves the ring on
      from there and sends. */
  lemma LeavesWord(c: Config, body: Msg) returns (s: State, t: State)
    requires Plain(c) && c.segs >= 2
    ensures Inv(c, s) && Reached(c, s) && Inv(c, t) && Reached(c, t) && |s.prods| == |t.prods| == 2
    ensures s.core.mem.claim == Word(0, c.depth, false) && s.prods[1].pc == Look(s.core.mem.claim)
    ensures Meanwhile(c, s, t, 1)
    ensures t.prods[1] == s.prods[1] && t.prods[0].pc.Idle? && t.core.cons.pc.Gone?
    ensures t.core.mem.claim == Word(1, 1, false)
    ensures |t.core.g.cl| == c.segs && t.core.g.cl[0] == c.depth && t.core.g.cl[1] == 1
    ensures |t.core.g.log| > |s.core.g.log|
  {
    hide Inv, Reached, Alone, Shape, Init, Meanwhile, Filled;
    var s0 := StartIsEmpty(c, 2, body);
    MulMono(1, c.segs, c.depth);
    var n := FillsTo(c, 2, body, 0, 1 * c.depth);
    var s1 := Alone(c, s0, 0, n);
    AloneReached(c, s0, 0, n);
    WholeSegments(c, s1, 0, 1);
    AtRest(c, s1, 0, c.depth);
    OffShape(c, s1);
    AloneLooks(c, s1, 1);
    s := Alone(c, s1, 1, 2);
    AloneReached(c, s1, 1, 2);
    MeanwhileNone(c, s, 1);
    DepthOf(c);
    var a := MovesOn(c, s, 0);
    MeanwhileAlone(c, s, s, 1, 0, 11);
    OffShape(c, a);
    SendsOnward(c, a, 0);
    MeanwhileAlone(c, s, a, 1, 0, 5);
    AloneReached(c, a, 0, 5);
    t := Alone(c, a, 0, 5);
    OffShape(c, t);
  }

  /** The other half: everything is read, and producer 0 fills segment 1 and moves the ring back. */
  lemma ComesBack(c: Config, s: State) returns (t: State)
    requires Plain(c) && Inv(c, s) && Reached(c, s) && |s.prods| == 2 && c.segs >= 2
    requires s.prods[1].pc.Look? && s.prods[0].pc.Idle? && s.core.cons.pc.Gone?
    requires s.core.mem.claim == Word(1, 1, false)
    requires |s.core.g.cl| == c.segs && s.core.g.cl[0] == c.depth && s.core.g.cl[1] == 1
    ensures Inv(c, t) && Reached(c, t) && |t.prods| == 2
    ensures Meanwhile(c, s, t, 1)
    ensures t.prods[1] == s.prods[1] && t.core.mem.claim == Word(0, c.depth, false)
    ensures |t.core.g.cl| == |t.core.g.rd| == c.segs && t.core.g.cl[0] == t.core.g.rd[0]
  {
    hide Inv, Reached, Alone, ConsumerAlone, Shape, Meanwhile;
    MeanwhileNone(c, s, 1);
    var n := ReadsAll(c, s);
    MeanwhileConsumer(c, s, s, 1, n);
    ConsumerAloneReached(c, s, n);
    var a := ConsumerAlone(c, s, n);
    AllEmpty(c, a);
    var m := SendsMany(c, a, 0, c.depth);
    MeanwhileAlone(c, s, a, 1, 0, m);
    AloneReached(c, a, 0, m);
    var b := Alone(c, a, 0, m);
    t := MovesOn(c, b, 0);
    MeanwhileAlone(c, s, b, 1, 0, 11);
  }

  /** The claim word comes back to a value it had: on any ring of two or more segments, producer 1 loads it,
      the ring moves to another segment and back while it stands, and the word it holds names the claim word
      again, a CAS away from being taken for current two switches later. `StaleSendIsSafe` and
      `StaleSwitchIsSafe` are what makes that harmless. */
  lemma ClaimWordReturns(c: Config, body: Msg) returns (s: State, t: State, u: State)
    requires Plain(c) && c.segs >= 2
    ensures Reached(c, s) && Meanwhile(c, s, t, 1) && Meanwhile(c, t, u, 1)
    ensures |s.prods| == |t.prods| == |u.prods| == 2
    ensures s.prods[1].pc == u.prods[1].pc == Look(s.core.mem.claim)
    ensures t.core.mem.claim.seg != s.core.mem.claim.seg && u.core.mem.claim == s.core.mem.claim
    ensures |t.core.g.log| > |s.core.g.log|
    ensures u.core.mem.claim.seg < |u.core.g.cl| == |u.core.g.rd|
    ensures u.core.g.cl[u.core.mem.claim.seg] == u.core.g.rd[u.core.mem.claim.seg]
  {
    hide Inv, Reached, Meanwhile;
    s, t := LeavesWord(c, body);
    u := ComesBack(c, t);
  }
}
