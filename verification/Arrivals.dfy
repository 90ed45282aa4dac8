/** The message a consumer that nobody disturbs reads next, from the claims and the links alone, and what the
    consumer's own accesses make of it. */
module Arrivals {
  import opened Machine
  import opened Invariant
  import opened Runs
  import opened ProducerSteps
  import opened Segments
  import opened Asides
  import S = Sleeping

  /** The first claim from `head` on whose fill did not unwind. */
  function Ahead(log: seq<Claimed>, head: nat): (n: nat)
    requires head <= |log|
    ensures head <= n <= |log|
    ensures forall e :: head <= e < n ==> log[e].fate == Dead
    ensures n < |log| ==> log[n].fate != Dead
    decreases |log| - head
  {
    if head < |log| && log[head].fate == Dead then Ahead(log, head + 1) else head
  }

  /** Segment `k` is not among the first `j + 1` of the chain. */
  predicate StillAhead(chain: seq<nat>, j: nat, k: nat)
    requires j < |chain|
  {
    k !in chain[..j + 1]
  }

  /** Every segment of the chain before `k` has its seal stored. */
  predicate Linked(g: Ghost, k: nat) {
    forall j :: 0 <= j < |g.chain| && StillAhead(g.chain, j, k) ==> g.chain[j] !in g.debt
  }

  /** What the consumer comes to if it reads on alone: the first claim not released and not unwound, if it is
      committed and no seal on the way to it is owed, and else nothing. */
  function Coming(g: Ghost): seq<Msg> {
    if g.head > |g.log| then []
    else
      var n := Ahead(g.log, g.head);
      if n < |g.log| && g.log[n].fate == Committed && Linked(g, g.log[n].seg) then [g.log[n].msg] else []
  }

  /** A tombstone skipped leaves what is coming. */
  lemma SkipComing(c: Config, s: State)
    requires Plain(c) && Inv(c, s) && WellShaped(c, s) && s.core.cons.pc.Skip?
    ensures Coming(Consume(c, s, Go).core.g) == Coming(s.core.g)
  {
    hide Inv, Shape, PcShape, SetSeq;
    PlacementFacts(c, s);
    var g, h := s.core.g, Consume(c, s, Go).core.g;
    assert h.log == g.log && h.head == g.head + 1 && h.chain == g.chain && h.debt == g.debt;
    assert forall k :: Linked(h, k) == Linked(g, k);
  }

  /** So does a segment left: nothing coming lies in it, and its seal is stored. */
  lemma FollowComing(c: Config, s: State)
    requires Plain(c) && Inv(c, s) && WellShaped(c, s) && s.core.cons.pc.GiveBack?
    ensures Coming(Consume(c, s, Go).core.g) == Coming(s.core.g)
  {
    hide Inv, Shape, PcShape;
    PlacementFacts(c, s);
    OrderFacts(c, s);
    var g, h := s.core.g, Consume(c, s, Go).core.g;
    assert h.log == g.log && h.head == g.head && h.chain == g.chain[1..] && h.debt == g.debt;
    var n := Ahead(g.log, g.head);
    if n < |g.log| {
      assert EntryPlaced(c, s.core, n);
      LinkedOn(g, h, g.log[n].seg);
    }
  }

  lemma LinkedOn(g: Ghost, h: Ghost, k: nat)
    requires |g.chain| >= 1 && h.chain == g.chain[1..] && h.debt == g.debt
    requires g.chain[0] != k && g.chain[0] !in g.debt
    ensures Linked(h, k) == Linked(g, k)
  {
    forall j | 0 <= j < |h.chain|
      ensures StillAhead(h.chain, j, k) == StillAhead(g.chain, j + 1, k) && h.chain[j] == g.chain[j + 1]
    {
      assert g.chain[..j + 2] == [g.chain[0]] + h.chain[..j + 1];
    }
    if Linked(h, k) {
      forall j | 0 <= j < |g.chain| && StillAhead(g.chain, j, k)
        ensures g.chain[j] !in g.debt
      {
        if j > 0 {
          assert StillAhead(h.chain, j - 1, k);
        }
      }
    }
  }

  /** At a slot held, its message is what was coming. */
  lemma HeldComing(c: Config, s: State)
    requires Plain(c) && Inv(c, s) && s.core.cons.pc.Hold?
    ensures Coming(s.core.g) == [Front(s.core.g)]
  {
    hide Inv, Shape, Sealed, Bits, Slots;
    PlacementFacts(c, s);
    OrderFacts(c, s);
    var g := s.core.g;
    assert EntryPlaced(c, s.core, g.head);
    if j: nat :| 0 < j < |g.chain| && g.chain[j] == g.log[g.head].seg {
      assert false;
    }
    assert g.chain[0] == g.log[g.head].seg;
    FirstLinked(g);
  }

  lemma FirstLinked(g: Ghost)
    requires |g.chain| >= 1
    ensures Linked(g, g.chain[0])
  {
    forall j | 0 <= j < |g.chain|
      ensures !StillAhead(g.chain, j, g.chain[0])
    {
      assert g.chain[..j + 1][0] == g.chain[0];
    }
  }

  /** Stuck with nothing there to read, nothing was coming. */
  lemma NoneComing(c: Config, s: State)
    requires Plain(c) && Inv(c, s) && Present(s.core.cons.pc)
    requires Stuck(s.core.g, s.core.cons.cur) && Blocked(s.core.g, s.core.cons.cur)
    ensures Coming(s.core.g) == []
  {
    hide Inv, Shape;
    PlacementFacts(c, s);
    OrderFacts(c, s);
    var g := s.core.g;
    if g.head < |g.log| && g.log[g.head].fate != Filling {
      var n := Ahead(g.log, g.head);
      if n < |g.log| {
        assert EntryPlaced(c, s.core, n);
        assert g.chain[..0 + 1] == [s.core.cons.cur];
        assert StillAhead(g.chain, 0, g.log[n].seg);
      }
    }
  }

  /** With nobody counted in, nobody sleeps. */
  lemma NobodyIn(c: Config, s: State)
    requires Inv(c, s) && s.core.mem.waiters == 0
    ensures forall i :: 0 <= i < |s.prods| ==> !s.prods[i].pc.Asleep?
  {
    hide Inv, Shape, PcShape, Wakes, Placement;
    CountFacts(c, s);
    assert s.core.g.sleepers == {};
    forall i | 0 <= i < |s.prods|
      ensures !s.prods[i].pc.Asleep?
    {
      S.NapsOf(c, s, i);
    }
  }
}
