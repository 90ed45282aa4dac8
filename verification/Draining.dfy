/** The consumer alone, no send in flight: it reads everything claimed, across every switch and every
    tombstone, and ends in the producers' segment with nothing left. */
module Draining {
  import opened Machine
  import opened Invariant
  import opened Runs
  import opened Segments
  import opened Delivery
  import S = Sleeping
  import opened Asides

  /** No send is between its claim and its return, or owes a seal: in particular, when every send has returned or
      is refused. Producers may be on their way to sleep, or asleep. */
  predicate AllCalm(prods: seq<Producer>) {
    forall i :: 0 <= i < |prods| ==> !Owning(prods[i].pc) && !prods[i].pc.SealStore?
  }

  /** Nobody is counted in as about to sleep. */
  predicate NobodyNaps(prods: seq<Producer>) {
    forall i :: 0 <= i < |prods| ==> !Counts(prods[i].pc)
  }

  /** With every producer calm, nothing is being filled and no seal is owed. */
  lemma NothingPending(c: Config, s: State)
    requires Inv(c, s) && AllCalm(s.prods)
    ensures forall e :: 0 <= e < |s.core.g.log| ==> s.core.g.log[e].fate != Filling
    ensures forall k: nat :: k !in s.core.g.debt
  {
    hide Inv, Shape, PcShape, Keeps, Numbers, Sends, Wakes, Placement;
    CountFacts(c, s);
    forall e | 0 <= e < |s.core.g.log|
      ensures s.core.g.log[e].fate != Filling
    {
      RingLocalOf(c, s, s.core.g.log[e].msg.pid);
    }
    forall k: nat
      ensures k !in s.core.g.debt
    {
      if k in s.core.g.debt {
        RingLocalOf(c, s, s.core.g.debt[k]);
      }
    }
  }

  lemma WaitersCount(c: Config, s: State)
    requires Inv(c, s) && NobodyNaps(s.prods)
    ensures s.core.mem.waiters == 0
  {
    hide Inv, Shape, PcShape, Wakes, Placement;
    CountFacts(c, s);
    forall i: nat
      ensures i !in s.core.g.sleepers
    {
      if i in s.core.g.sleepers {
        S.NapsOf(c, s, i);
      }
    }
    assert s.core.g.sleepers == {};
  }

  /** What a consumer that reads leaves to the producers: the log, the claim frontiers and the claim word. */
  predicate Unread(x: Core, y: Core) {
    && y.g.log == x.g.log
    && y.g.cl == x.g.cl
    && y.mem.claim == x.mem.claim
    && y.g.won == x.g.won
  }

  /** What the consumer's checks do to the producers: nothing, or, with the wake sequence bumped, everyone asleep
      woken. With nobody counted in they do nothing. */
  ghost predicate Stirred(s: State, t: State) {
    && |t.prods| == |s.prods|
    && s.core.mem.wake <= t.core.mem.wake
    && t.prods == (if t.core.mem.wake == s.core.mem.wake then s.prods else WakeProducers(s.prods))
    && (NobodyNaps(s.prods) ==> t.core.mem.wake == s.core.mem.wake)
  }

  lemma StirredChains(s: State, t: State, u: State)
    requires Stirred(s, t) && Stirred(t, u)
    ensures Stirred(s, u)
  {
    hide NobodyNaps;
    var once := WakeProducers(s.prods);
    assert WakeProducers(once) == once;
  }

  lemma StirredCalm(s: State, t: State)
    requires Stirred(s, t) && AllCalm(s.prods)
    ensures AllCalm(t.prods)
  {
  }

  /** A check for sleeping producers, start to end. */
  lemma PassesCheck(c: Config, s: State) returns (n: nat)
    requires Plain(c) && Inv(c, s) && s.core.cons.pc.CheckLoad?
    ensures var t := ConsumerAlone(c, s, n);
      && t.core == s.core.(cons := s.core.cons.(pc := Onward(s.core.cons.pc.next)),
                           mem := s.core.mem.(wake := t.core.mem.wake))
      && Stirred(s, t)
  {
    hide Inv, ConsumerAlone, Shape, PcShape, ReadStep, HandStep, NobodyNaps;
    if s.core.mem.waiters == 0 {
      ConsumerAloneStep(c, s, 0);
      n := 1;
    } else {
      if NobodyNaps(s.prods) {
        WaitersCount(c, s);
        assert false;
      }
      ConsumerAloneStep(c, s, 0);
      ConsumerAloneStep(c, s, 1);
      ConsumerAloneStep(c, s, 2);
      n := 3;
    }
  }

  /** The consumer looks at its slot. */
  ghost predicate Looking(c: Config, s: State) {
    s.core.cons.pc.SlotLook? && AllCalm(s.prods)
  }

  /** What it sees there: the next claim, settled, or the end of its segment. */
  lemma SeesFront(c: Config, s: State)
    requires Plain(c) && Inv(c, s) && Looking(c, s)
    ensures Shape(c, s.core) && |s.core.g.rd| == |s.core.g.cl| == c.segs
    ensures var x := s.core;
      var k, v := x.cons.cur, SeqAt(c, x.mem, x.cons.cur, x.cons.pos);
      && (x.g.rd[k] < x.g.cl[k] ==>
            x.g.head < |x.g.log| && (v == CommittedAt(c, x.cons.pos) || (c.tombs && v == TombAt(c, x.cons.pos))))
      && (x.g.rd[k] == x.g.cl[k] ==> v == Claimable(x.cons.pos) && (x.g.head < |x.g.log| ==> |x.g.chain| > 1))
  {
    hide Inv, Sealed, Bits;
    OrderFacts(c, s);
    SlotFacts(c, s);
    PlacementFacts(c, s);
    NothingPending(c, s);
    var x := s.core;
    assert SlotOk(c, x, x.cons.cur, x.cons.pos);
  }

  /** At the end of its segment it sees the seal, if the ring went on. */
  lemma SeesSeal(c: Config, s: State)
    requires Plain(c) && Inv(c, s) && Looking(c, s) && Shape(c, s.core) && |s.core.g.chain| > 1
    requires s.core.g.rd[s.core.cons.cur] == s.core.g.cl[s.core.cons.cur]
    ensures var x := s.core;
      && x.mem.seals[x.cons.cur].moved
      && x.mem.seals[x.cons.cur].pos == x.cons.pos
      && x.mem.seals[x.cons.cur].seg < c.segs
      && c.multi
  {
    hide Inv, Bits;
    ChainFacts(c, s);
    PlacementFacts(c, s);
    NothingPending(c, s);
    Pigeonhole(s.core.g.chain, c.segs);
    assert LinkOk(c, s.core, s.core.g.chain[0]);
    assert s.core.g.nxt[s.core.g.chain[0]] == s.core.g.chain[1];
  }

  lemma TakesUp(c: Config, s: State)
    requires Plain(c) && Inv(c, s) && Looking(c, s) && Shape(c, s.core)
    requires SeqAt(c, s.core.mem, s.core.cons.cur, s.core.cons.pos) == CommittedAt(c, s.core.cons.pos)
    ensures var t := ConsumerAlone(c, s, 2);
      && t.core.cons.pc.Store?
      && t.prods == s.prods
      && t.core.mem == s.core.mem
      && t.core.g == s.core.g
  {
    hide Inv, ConsumerAlone, Shape, PcShape, SeqAt, BodyAt;
    ConsumerAloneStep(c, s, 0);
    ConsumerAloneStep(c, s, 1);
  }

  lemma Stores(c: Config, s: State)
    requires Plain(c) && Inv(c, s) && s.core.cons.pc.Store? && s.core.g.head < |s.core.g.log|
    ensures var t := ConsumerAlone(c, s, 1);
      && t.core.cons.pc == (if c.wakes && AtCheck(c, s.core.cons.pos) then CheckLoad(ToReady) else Ready)
      && t.prods == s.prods
      && LeftOf(t.core.g) < LeftOf(s.core.g)
      && Unread(s.core, t.core)
      && t.core.mem.wake == s.core.mem.wake
  {
    hide Inv, ConsumerAlone, Shape, PcShape, SeqAt, AtCheck;
    ConsumerAloneStep(c, s, 0);
  }

  lemma Looks(c: Config, s: State)
    requires Plain(c) && Inv(c, s) && s.core.cons.pc.Ready?
    ensures ConsumerAlone(c, s, 1) == State(At(s.core, SlotLook), s.prods)
  {
    hide Inv, ConsumerAlone, Shape, PcShape, SeqAt, AtCheck;
    ConsumerAloneStep(c, s, 0);
  }

  lemma GoesOn(c: Config, s: State) returns (n: nat)
    requires Plain(c) && Inv(c, s) && s.core.cons.pc.Store? && AllCalm(s.prods)
    requires s.core.g.head < |s.core.g.log|
    ensures var t := ConsumerAlone(c, s, n);
      && Looking(c, t)
      && Stirred(s, t)
      && LeftOf(t.core.g) < LeftOf(s.core.g)
      && Unread(s.core, t.core)
  {
    hide Inv, ConsumerAlone, AtCheck, Stirred, AllCalm, LeftOf, NobodyNaps;
    Stores(c, s);
    var a := ConsumerAlone(c, s, 1);
    ConsumerAloneInv(c, s, 1);
    StirredNone(s, a);
    var m := 0;
    if a.core.cons.pc.CheckLoad? {
      m := PassesCheck(c, a);
    } else {
      ConsumerAloneStep(c, a, 0);
      StirredNone(a, a);
    }
    var b := ConsumerAlone(c, a, m);
    ConsumerAloneInv(c, a, m);
    StirredChains(s, a, b);
    Looks(c, b);
    ConsumerAloneSplits(c, s, 1, m);
    ConsumerAloneSplits(c, s, 1 + m, 1);
    StirredNone(b, ConsumerAlone(c, b, 1));
    StirredChains(s, b, ConsumerAlone(c, b, 1));
    StirredCalm(s, ConsumerAlone(c, b, 1));
    n := 1 + m + 1;
  }

  lemma StirredNone(s: State, t: State)
    requires t.prods == s.prods && t.core.mem.wake == s.core.mem.wake
    ensures Stirred(s, t)
  {
  }

  /** One round of a read, from one look at a slot to the next. */
  lemma Reads(c: Config, s: State) returns (n: nat)
    requires Plain(c) && Inv(c, s) && Looking(c, s) && Shape(c, s.core)
    requires SeqAt(c, s.core.mem, s.core.cons.cur, s.core.cons.pos) == CommittedAt(c, s.core.cons.pos)
    requires s.core.g.head < |s.core.g.log|
    ensures var t := ConsumerAlone(c, s, n);
      && Looking(c, t)
      && Stirred(s, t)
      && LeftOf(t.core.g) < LeftOf(s.core.g)
      && Unread(s.core, t.core)
  {
    hide Inv, ConsumerAlone, Shape, SeqAt, Stirred;
    TakesUp(c, s);
    ConsumerAloneInv(c, s, 2);
    var m := GoesOn(c, ConsumerAlone(c, s, 2));
    ConsumerAloneSplits(c, s, 2, m);
    StirredNone(s, ConsumerAlone(c, s, 2));
    StirredChains(s, ConsumerAlone(c, s, 2), ConsumerAlone(c, s, 2 + m));
    n := 2 + m;
  }

  lemma Skips(c: Config, s: State)
    requires Plain(c) && Inv(c, s) && Looking(c, s) && Shape(c, s.core) && c.tombs
    requires SeqAt(c, s.core.mem, s.core.cons.cur, s.core.cons.pos) == TombAt(c, s.core.cons.pos)
    requires s.core.g.head < |s.core.g.log|
    ensures var t := ConsumerAlone(c, s, 2);
      && Looking(c, t)
      && t.prods == s.prods
      && LeftOf(t.core.g) < LeftOf(s.core.g)
      && Unread(s.core, t.core)
      && t.core.mem.wake == s.core.mem.wake
  {
    hide Inv, ConsumerAlone, Shape, PcShape, SeqAt, BodyAt;
    ConsumerAloneStep(c, s, 0);
    ConsumerAloneStep(c, s, 1);
  }

  lemma Crosses(c: Config, s: State)
    requires Plain(c) && Inv(c, s) && Looking(c, s) && Shape(c, s.core) && |s.core.g.chain| > 1 && c.multi
    requires SeqAt(c, s.core.mem, s.core.cons.cur, s.core.cons.pos) == Claimable(s.core.cons.pos)
    requires s.core.mem.seals[s.core.cons.cur].moved && s.core.mem.seals[s.core.cons.cur].pos == s.core.cons.pos
    requires s.core.mem.seals[s.core.cons.cur].seg < c.segs
    ensures var t := ConsumerAlone(c, s, 3);
      && t.core.cons.pc == (if c.wakes then CheckLoad(ToLook) else SlotLook)
      && t.prods == s.prods
      && LeftOf(t.core.g) < LeftOf(s.core.g)
      && Unread(s.core, t.core)
      && t.core.mem.wake == s.core.mem.wake
  {
    hide Inv, ConsumerAlone, Shape, PcShape, SeqAt;
    ConsumerAloneStep(c, s, 0);
    ConsumerAloneStep(c, s, 1);
    ConsumerAloneStep(c, s, 2);
  }

  lemma Follows(c: Config, s: State) returns (n: nat)
    requires Plain(c) && Inv(c, s) && Looking(c, s) && Shape(c, s.core) && |s.core.g.chain| > 1 && c.multi
    requires SeqAt(c, s.core.mem, s.core.cons.cur, s.core.cons.pos) == Claimable(s.core.cons.pos)
    requires s.core.mem.seals[s.core.cons.cur].moved && s.core.mem.seals[s.core.cons.cur].pos == s.core.cons.pos
    requires s.core.mem.seals[s.core.cons.cur].seg < c.segs
    ensures var t := ConsumerAlone(c, s, n);
      && Looking(c, t)
      && Stirred(s, t)
      && LeftOf(t.core.g) < LeftOf(s.core.g)
      && Unread(s.core, t.core)
  {
    hide Inv, ConsumerAlone, Shape, PcShape, SeqAt, Stirred, AllCalm, LeftOf, NobodyNaps;
    Crosses(c, s);
    n := 3;
    var a := ConsumerAlone(c, s, 3);
    ConsumerAloneInv(c, s, 3);
    StirredNone(s, a);
    if c.wakes {
      var m := PassesCheck(c, a);
      ConsumerAloneSplits(c, s, 3, m);
      StirredChains(s, a, ConsumerAlone(c, a, m));
      n := 3 + m;
    }
    StirredCalm(s, ConsumerAlone(c, s, n));
  }

  /** Nothing left to read, the consumer in the producers' segment. */
  ghost predicate Drained(s: State) {
    && s.core.g.head == |s.core.g.log|
    && |s.core.g.chain| == 1
    && s.core.g.delivered == Live(s.core.g.log, |s.core.g.log|)
  }

  /** With no send in flight the consumer alone reads everything: it ends with every message whose fill
      returned delivered, in the order of the claims, tombstones skipped wherever they lie, even just
      before a switch, and every segment but the last given back. Producers asleep on the full ring are woken
      by the first check that it passes. */
  lemma {:induction false} DrainsAll(c: Config, s: State) returns (n: nat)
    requires Plain(c) && Inv(c, s) && Looking(c, s)
    ensures Unread(s.core, ConsumerAlone(c, s, n).core)
    ensures Drained(ConsumerAlone(c, s, n))
    ensures Looking(c, ConsumerAlone(c, s, n)) && Stirred(s, ConsumerAlone(c, s, n))
    decreases LeftOf(s.core.g)
  {
    hide Inv, ConsumerAlone, SeqAt, Live, Stirred;
    SeesFront(c, s);
    CurOf(c, s);
    var x := s.core;
    if x.g.rd[x.cons.cur] < x.g.cl[x.cons.cur] || |x.g.chain| > 1 {
      var m := ReadsOn(c, s);
      ConsumerAloneInv(c, s, m);
      var r := DrainsAll(c, ConsumerAlone(c, s, m));
      ConsumerAloneSplits(c, s, m, r);
      StirredChains(s, ConsumerAlone(c, s, m), ConsumerAlone(c, s, m + r));
      n := m + r;
    } else {
      n := 0;
      ConsumerAloneStep(c, s, 0);
      StirredNone(s, s);
      LogOf(c, s);
    }
  }

  /** One message, one tombstone or one segment further. */
  lemma ReadsOn(c: Config, s: State) returns (m: nat)
    requires Plain(c) && Inv(c, s) && Looking(c, s)
    requires s.core.cons.cur < |s.core.g.rd| == |s.core.g.cl|
    requires s.core.g.rd[s.core.cons.cur] < s.core.g.cl[s.core.cons.cur] || |s.core.g.chain| > 1
    ensures var t := ConsumerAlone(c, s, m);
      && Looking(c, t)
      && Stirred(s, t)
      && LeftOf(t.core.g) < LeftOf(s.core.g)
      && Unread(s.core, t.core)
  {
    hide Inv, ConsumerAlone, SeqAt, Live, Stirred;
    SeesFront(c, s);
    CurOf(c, s);
    var x := s.core;
    if x.g.rd[x.cons.cur] == x.g.cl[x.cons.cur] {
      SeesSeal(c, s);
      m := Follows(c, s);
    } else if SeqAt(c, x.mem, x.cons.cur, x.cons.pos) == CommittedAt(c, x.cons.pos) {
      m := Reads(c, s);
    } else {
      m := 2;
      Skips(c, s);
      StirredNone(s, ConsumerAlone(c, s, 2));
    }
  }

  /** A producer asleep on a ring with half a segment unread somewhere, or with a switch to follow, is woken by the
      drain. */
  lemma DrainWakes(c: Config, s: State, i: nat, k: nat) returns (n: nat)
    requires Reached(c, s) && Looking(c, s) && i < |s.prods| && s.prods[i].pc.Asleep?
    requires k < |s.core.g.rd| && k < |s.core.g.cl|
    requires s.core.g.cl[k] >= s.core.g.rd[k] + Half(c) || |s.core.g.chain| > 1
    ensures var t := ConsumerAlone(c, s, n);
      Drained(t) && Unread(s.core, t.core) && Stirred(s, t) && t.prods[i].pc == CountOut
  {
    hide Inv, Reached, ConsumerAlone, Shape, PcShape, Half, Wakes, Live;
    ReachedInv(c, s);
    n := DrainsAll(c, s);
    var t := ConsumerAlone(c, s, n);
    ConsumerAloneReached(c, s, n);
    if t.prods[i].pc.Asleep? {
      S.SleeperMissedNoCheck(c, t, i);
      S.SawOf(c, s, i);
      S.NapsOf(c, s, i);
      S.AllReleased(c, t);
      WonIs(c, s);
      WonIs(c, t);
      assert false;
    }
  }

  lemma WonIs(c: Config, s: State)
    requires Inv(c, s)
    ensures s.core.g.won == s.core.g.followed + |s.core.g.chain| - 1
  {
    hide Inv, Chained, Placement, Ranged;
    CountFacts(c, s);
  }

  lemma CurOf(c: Config, s: State)
    requires Inv(c, s)
    ensures s.core.cons.cur < c.segs && |s.core.g.rd| == |s.core.g.cl| == c.segs
    ensures |s.core.g.chain| >= 1 && s.core.g.head <= |s.core.g.log|
    ensures Present(s.core.cons.pc) ==> s.core.g.rd[s.core.cons.cur] <= s.core.g.cl[s.core.cons.cur]
  {
    hide Inv, Placed;
    OrderFacts(c, s);
    PlacementFacts(c, s);
  }

  // ---------------------------------------------------------------- a new consumer

  lemma {:induction false} LoadsResumes(c: Config, s: State, j: nat) returns (n: nat)
    requires Plain(c) && Inv(c, s) && s.core.cons.pc == LoadResume(j) && j < c.segs
    ensures var t := ConsumerAlone(c, s, n);
      t.core.cons.pc.LoadPos? && t.core.mem == s.core.mem && t.core.g == s.core.g && t.prods == s.prods
    decreases c.segs - j
  {
    hide Inv, ConsumerAlone, Shape, PcShape;
    ConsumerAloneStep(c, s, 0);
    if j + 1 < c.segs {
      var m := LoadsResumes(c, ConsumerAlone(c, s, 1), j + 1);
      ConsumerAloneSplits(c, s, 1, m);
      n := 1 + m;
    } else {
      n := 1;
    }
  }

  lemma StartsLoad(c: Config, s: State)
    requires Plain(c) && Inv(c, s) && s.core.cons.pc.Gone?
    ensures var t := ConsumerAlone(c, s, 2);
      t.core.cons.pc == LoadResume(0) && t.core.mem == s.core.mem && t.core.g == s.core.g && t.prods == s.prods
  {
    hide Inv, ConsumerAlone, Shape, PcShape;
    CheckpointIsGood(c, s);
    ConsumerAloneStep(c, s, 0);
    ConsumerAloneStep(c, s, 1);
  }

  lemma EndsLoad(c: Config, s: State)
    requires Plain(c) && Inv(c, s) && s.core.cons.pc.LoadPos?
    ensures var t := ConsumerAlone(c, s, 2);
      && t.core.cons.pc.SlotLook?
      && t.core.mem == s.core.mem
      && t.core.g == s.core.g.(since := t.core.g.since)
      && t.prods == s.prods
  {
    hide Inv, ConsumerAlone, Shape, PcShape;
    ConsumerAloneStep(c, s, 0);
    ConsumerAloneStep(c, s, 1);
  }

  /** A consumer that takes the free role over comes to its first look, the ring as it was. */
  lemma TakesRole(c: Config, s: State) returns (n: nat)
    requires Plain(c) && Inv(c, s) && s.core.cons.pc.Gone?
    ensures var t := ConsumerAlone(c, s, n);
      && t.core.cons.pc.SlotLook?
      && t.core.mem == s.core.mem
      && t.core.g == s.core.g.(since := t.core.g.since)
      && t.prods == s.prods
  {
    hide Inv, ConsumerAlone;
    SegsPositive(c);
    StartsLoad(c, s);
    ConsumerAloneInv(c, s, 2);
    var m := LoadsResumes(c, ConsumerAlone(c, s, 2), 0);
    ConsumerAloneSplits(c, s, 2, m);
    ConsumerAloneInv(c, s, 2 + m);
    EndsLoad(c, ConsumerAlone(c, s, 2 + m));
    ConsumerAloneSplits(c, s, 2 + m, 2);
    n := 2 + m + 2;
  }

  lemma SegsPositive(c: Config)
    requires Plain(c)
    ensures c.segs >= 1
  {
  }
}
