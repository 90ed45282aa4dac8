/** A consumer that polls and never sleeps: at which depths the half-segment checks are enough for it. */
module Polling {
  import opened Laps
  import opened Machine
  import opened Invariant
  import opened Runs
  import opened ProducerSteps
  import opened Segments
  import opened Sleeping
  import opened Progress
  import opened FillingUp
  import opened Draining
  import opened Races

  // ---------------------------------------------------------------- a sleep on a ring with room

  /** One access of producer `i`. */
  lemma Goes(c: Config, s: State, i: nat, ch: Choice) returns (t: State)
    requires Plain(c) && Inv(c, s) && Reached(c, s) && i < |s.prods|
    ensures WellShaped(c, s) && t == Produce(c, s, i, ch) && Inv(c, t) && Reached(c, t) && |t.prods| == |s.prods|
  {
    hide Inv, Reached, Produce, WellShaped;
    InvShape(c, s);
    NextKeeps(c, s, ByProducer(i, ch));
    ReachedNext(c, s, ByProducer(i, ch));
    t := Produce(c, s, i, ch);
  }

  /** A refused producer that chooses to sleep comes to its look for room with the claim word loaded. */
  lemma NapsToLook(c: Config, s: State, i: nat) returns (t: State)
    requires Plain(c) && Inv(c, s) && Reached(c, s) && i < |s.prods| && s.prods[i].pc.Full? && c.wakes
    requires s.core.mem.claim.seg < c.segs
    ensures Inv(c, t) && Reached(c, t) && |t.prods| == |s.prods|
    ensures t.core == s.core.(mem := s.core.mem.(waiters := t.core.mem.waiters),
              g := s.core.g.(sleepers := t.core.g.sleepers))
    ensures t.prods[i].pc == RoomSeq(s.core.mem.wake, s.core.mem.claim)
    ensures forall j :: 0 <= j < |s.prods| && j != i ==> t.prods[j] == s.prods[j]
  {
    hide Inv, Reached, Shape, PcShape;
    var a := NapsIn(c, s, i);
    var b := Goes(c, a, i, Go);
    t := Goes(c, b, i, Go);
  }

  lemma NapsIn(c: Config, s: State, i: nat) returns (t: State)
    requires Plain(c) && Inv(c, s) && Reached(c, s) && i < |s.prods| && s.prods[i].pc.Full? && c.wakes
    ensures Inv(c, t) && Reached(c, t) && t == Put(s, i, AddWaiter(s.core, i), SeenLoad)
  {
    hide Inv, Reached, Shape, PcShape;
    var a := Goes(c, s, i, Nap);
    t := Goes(c, a, i, Go);
  }

  /** A look for room that finds the slot taken, and no segment free, goes to sleep. */
  lemma NapsAway(c: Config, s: State, i: nat, seen: nat, r: Word) returns (t: State)
    requires Plain(c) && Inv(c, s) && Reached(c, s) && i < |s.prods| && c.wakes
    requires c.multi ==> !AnyFree(c, s.core.mem.inUse)
    requires s.prods[i].pc == RoomSeq(seen, r) && s.core.mem.wake == seen && r.seg < c.segs && Shape(c, s.core)
    requires SeqAt(c, s.core.mem, r.seg, r.pos) != Claimable(r.pos)
    ensures Inv(c, t) && Reached(c, t) && t.core == s.core && |t.prods| == |s.prods|
    ensures t.prods[i].pc == Asleep(seen)
    ensures forall j :: 0 <= j < |s.prods| && j != i ==> t.prods[j] == s.prods[j]
  {
    hide Inv, Reached, Shape, PcShape, SeqAt, AnyFree;
    var a := Goes(c, s, i, Go);
    if c.multi {
      a := Goes(c, a, i, Go);
    }
    t := Goes(c, a, i, Go);
  }

  /** A slot just claimed and committed is not claimable. */
  lemma TakenShows(c: Config, s: State, k: nat)
    requires Plain(c) && Inv(c, s) && Shape(c, s.core) && |s.core.g.cl| == |s.core.g.rd| == c.segs && k < c.segs
    requires s.core.g.cl[k] == s.core.g.rd[k] + 1 && s.core.g.off[k] + s.core.g.rd[k] == |s.core.g.log| - 1
    requires |s.core.g.log| > 0 && s.core.g.log[|s.core.g.log| - 1].fate == Committed
    ensures SeqAt(c, s.core.mem, k, s.core.g.rd[k]) == CommittedAt(c, s.core.g.rd[k])
    ensures SeqAt(c, s.core.mem, k, s.core.g.rd[k]) != Claimable(s.core.g.rd[k])
  {
    hide Inv;
    SlotFacts(c, s);
    assert SlotOk(c, s.core, k, s.core.g.rd[k]);
  }

  /** The consumer's read of one message, up to the store, and the store when no check is due there. */
  lemma ReadsOne(c: Config, s: State) returns (t: State)
    requires Plain(c) && Inv(c, s) && Reached(c, s) && s.core.cons.pc.SlotLook? && Shape(c, s.core)
    requires SeqAt(c, s.core.mem, s.core.cons.cur, s.core.cons.pos) == CommittedAt(c, s.core.cons.pos)
    requires !AtCheck(c, s.core.cons.pos + 1)
    ensures Inv(c, t) && Reached(c, t) && t.prods == s.prods && t.core.cons.pc.Ready?
    ensures t.core.g.log == s.core.g.log && t.core.g.head == s.core.g.head + 1 && t.core.g.chain == s.core.g.chain
    ensures t.core.mem.wake == s.core.mem.wake
  {
    hide Inv, Reached, ConsumerAlone, Shape, PcShape, SeqAt, BodyAt, AtCheck;
    ConsumerAloneStep(c, s, 0);
    ConsumerAloneStep(c, s, 1);
    ConsumerAloneStep(c, s, 2);
    ConsumerAloneReached(c, s, 3);
    t := ConsumerAlone(c, s, 3);
  }

  lemma AtFront(c: Config, s: State)
    requires Plain(c) && Inv(c, s) && s.core.cons.pc.SlotLook? && |s.core.g.chain| == 1
    ensures s.core.cons.cur == s.core.mem.claim.seg < |s.core.g.rd|
    ensures s.core.cons.pos == s.core.g.rd[s.core.cons.cur]
  {
    hide Inv, Fronts, Sealed, Bits;
    ChainFacts(c, s);
    PlacementFacts(c, s);
  }

  /** A send to an empty ring, and the read of it that no check follows, with a producer on its way to sleep
      all along and every segment's bit set: it falls asleep on a ring that is not full, and the consumer
      passes it by. */
  lemma SleepsOnRoom(c: Config, s: State, taken: seq<nat>, seen: nat) returns (t: State)
    requires Plain(c) && Inv(c, s) && Reached(c, s) && c.wakes && Crowded(c, s, taken)
    requires s.prods[0].pc.Idle? && s.prods[1].pc == RoomSeq(seen, s.core.mem.claim) && s.core.mem.wake == seen
    requires Drained(s) && s.core.cons.pc.SlotLook? && !s.core.mem.claim.waiting
    requires !AtCheck(c, s.core.mem.claim.pos + 1)
    ensures Inv(c, t) && Reached(c, t) && |t.prods| == |s.prods| > 1
    ensures t.prods[0].pc.Idle? && t.prods[1].pc == Asleep(t.core.mem.wake) && t.core.cons.pc.Ready?
    ensures t.core.g.head == |t.core.g.log| && |t.core.g.chain| == 1
  {
    hide Inv, Reached, Alone, Shape, AtCheck, SeqAt, Crowded, AnyFree;
    AllEmpty(c, s);
    AtFront(c, s);
    CrowdHas(c, s, taken);
    var k := s.core.mem.claim.seg;
    DepthOf(c);
    SendsOne(c, s, 0);
    var a := Alone(c, s, 0, 6);
    AloneReached(c, s, 0, 6);
    OffShape(c, a);
    OffShape(c, s);
    TakenShows(c, a, k);
    CrowdStays(c, s, a, taken);
    NoneFree(c, a, taken);
    var b := NapsAway(c, a, 1, seen, s.core.mem.claim);
    t := ReadsOne(c, b);
  }

  /** A consumer that looks again and again. */
  predicate Polling(pc: ConsPc) {
    pc.Ready? || pc.SlotLook? || pc.SealLook? || pc.Empty?
  }

  /** A consumer that only polls an empty ring wakes nobody, however long it polls. */
  lemma {:induction false} PollsOn(c: Config, s: State, n: nat)
    requires Plain(c) && Inv(c, s) && s.core.g.head == |s.core.g.log| && |s.core.g.chain| == 1
    requires Polling(s.core.cons.pc)
    ensures var t := ConsumerAlone(c, s, n);
      && t.prods == s.prods
      && t.core.mem == s.core.mem
      && t.core.g == s.core.g
      && Polling(t.core.cons.pc)
  {
    hide Inv, ConsumerAlone, Shape, PcShape, SeqAt;
    ConsumerAloneStep(c, s, 0);
    if n > 0 {
      PollsOn(c, s, n - 1);
      var t := ConsumerAlone(c, s, n - 1);
      ConsumerAloneStep(c, s, n - 1);
      NothingThere(c, t);
    }
  }

  lemma NothingThere(c: Config, s: State)
    requires Plain(c) && Inv(c, s) && Polling(s.core.cons.pc)
    requires s.core.g.head == |s.core.g.log| && |s.core.g.chain| == 1
    ensures Shape(c, s.core) && s.core.cons.cur < |s.core.mem.seals|
    ensures SeqAt(c, s.core.mem, s.core.cons.cur, s.core.cons.pos) == Claimable(s.core.cons.pos)
    ensures !s.core.mem.seals[s.core.cons.cur].moved
  {
    hide Inv, Bits;
    OrderFacts(c, s);
    SlotFacts(c, s);
    ChainFacts(c, s);
    PlacementFacts(c, s);
    assert SlotOk(c, s.core, s.core.cons.cur, s.core.cons.pos);
  }

  // ---------------------------------------------------------------- every segment taken

  /** Every segment is taken: the claim word's, and each other held by a producer of its own, from the third
      producer on, in the middle of its switch. */
  ghost predicate Crowded(c: Config, s: State, taken: seq<nat>) {
    && |taken| == c.segs >= 1
    && |s.prods| == c.segs + 1
    && HeldBy(c, s, taken)
  }

  /** The claim word's segment and the ones held so far, all different. */
  ghost predicate HeldBy(c: Config, s: State, taken: seq<nat>) {
    && 1 <= |taken| < |s.prods|
    && AllApart(taken, c.segs)
    && taken[0] == s.core.mem.claim.seg
    && (forall a :: 1 <= a < |taken| ==> Moving(s, a + 1, taken[a]))
  }

  predicate AllApart(taken: seq<nat>, n: nat) {
    && (forall a :: 0 <= a < |taken| ==> taken[a] < n)
    && (forall a, b :: 0 <= a < b < |taken| ==> taken[a] != taken[b])
  }

  /** Producer `i` holds segment `k`, its switch CAS to come. */
  predicate Moving(s: State, i: nat, k: nat) {
    i < |s.prods| && s.prods[i].pc.Move? && s.prods[i].pc.k == k
  }

  lemma CrowdHas(c: Config, s: State, taken: seq<nat>)
    requires Crowded(c, s, taken)
    ensures |s.prods| > 1
  {
  }

  lemma CrowdStays(c: Config, s: State, t: State, taken: seq<nat>)
    requires Crowded(c, s, taken) && |t.prods| == |s.prods| && t.core.mem.claim.seg == s.core.mem.claim.seg
    requires forall j :: 2 <= j < |s.prods| ==> t.prods[j] == s.prods[j]
    ensures Crowded(c, t, taken)
  {
  }

  lemma NoneFree(c: Config, s: State, taken: seq<nat>)
    requires Reached(c, s) && Crowded(c, s, taken)
    ensures !AnyFree(c, s.core.mem.inUse)
  {
    hide Inv, Reached, Sealed, Fronts, Bits;
    ReachedInv(c, s);
    ChainFacts(c, s);
    if AnyFree(c, s.core.mem.inUse) {
      var k :| 0 <= k < c.segs && k !in s.core.mem.inUse;
      BitsAreShared(c, s, k);
      assert forall a :: 1 <= a < |taken| ==> Moving(s, a + 1, taken[a]) && Holds(s.prods[a + 1].pc, taken[a]);
      Pigeonhole(taken + [k], c.segs);
    }
  }

  /** What a producer that takes a segment and goes no further leaves as it was. */
  predicate Stands(x: Core, y: Core) {
    y == x.(mem := x.mem.(inUse := y.mem.inUse, seals := y.mem.seals), g := x.g.(held := y.g.held))
  }

  /** At a full segment the third producer and the ones after it take a free segment each. */
  lemma {:induction false} Crowds(c: Config, s: State, h: nat) returns (t: State, taken: seq<nat>)
    requires Plain(c) && Inv(c, s) && Reached(c, s) && (c.multi || h == 0) && h < c.segs && |s.prods| == c.segs + 1
    requires (forall q :: 0 <= q < |s.prods| ==> s.prods[q].pc.Idle?) && |s.core.g.chain| == 1
    requires s.core.mem.claim.seg < |s.core.g.cl| == |s.core.g.rd| == c.segs
    requires s.core.g.cl[s.core.mem.claim.seg] == s.core.g.rd[s.core.mem.claim.seg] + c.depth
    ensures Inv(c, t) && Reached(c, t) && |t.prods| == |s.prods| && Stands(s.core, t.core)
    ensures |taken| == h + 1 && HeldBy(c, t, taken)
    ensures forall k :: k in t.core.mem.inUse <==> k in taken
    ensures forall j :: 0 <= j < |s.prods| && !(2 <= j <= h + 1) ==> t.prods[j] == s.prods[j]
    decreases h
  {
    hide Inv, Reached, Alone, Shape, LowestFree;
    if h == 0 {
      RestBits(c, s);
      t, taken := s, [s.core.mem.claim.seg];
    } else {
      var u, held := Crowds(c, s, h - 1);
      t, taken := OneMoreTakes(c, u, held, h + 1);
    }
  }

  lemma HeldGrows(c: Config, u: State, t: State, held: seq<nat>, i: nat, k: nat)
    requires HeldBy(c, u, held) && i == |held| + 1 < |u.prods| == |t.prods| && k < c.segs && k !in held
    requires t.core.mem.claim.seg == u.core.mem.claim.seg && t.prods[i].pc.Move? && t.prods[i].pc.k == k
    requires forall j :: 0 <= j < |u.prods| && j != i ==> t.prods[j] == u.prods[j]
    ensures HeldBy(c, t, held + [k])
  {
    var taken := held + [k];
    ApartGrows(held, k, c.segs);
    forall a | 1 <= a < |taken|
      ensures Moving(t, a + 1, taken[a])
    {
      if a < |held| {
        assert taken[a] == held[a] && Moving(u, a + 1, held[a]);
      }
    }
  }

  lemma ApartGrows(held: seq<nat>, k: nat, n: nat)
    requires AllApart(held, n) && k < n && k !in held
    ensures AllApart(held + [k], n)
  {
  }

  lemma OneMoreTakes(c: Config, u: State, held: seq<nat>, i: nat) returns (t: State, taken: seq<nat>)
    requires Plain(c) && Inv(c, u) && Reached(c, u) && c.multi && HeldBy(c, u, held) && |held| < c.segs
    requires i == |held| + 1 < |u.prods| && u.prods[i].pc.Idle?
    requires u.core.mem.claim.seg < |u.core.g.cl| == |u.core.g.rd| == c.segs
    requires u.core.g.cl[u.core.mem.claim.seg] == u.core.g.rd[u.core.mem.claim.seg] + c.depth
    requires forall k :: k in u.core.mem.inUse <==> k in held
    ensures Inv(c, t) && Reached(c, t) && |t.prods| == |u.prods| && Stands(u.core, t.core)
    ensures |taken| == |held| + 1 && HeldBy(c, t, taken)
    ensures forall k :: k in t.core.mem.inUse <==> k in taken
    ensures forall j :: 0 <= j < |u.prods| && j != i ==> t.prods[j] == u.prods[j]
  {
    hide Inv, Reached, Alone, Shape, LowestFree, HeldBy;
    OffShape(c, u);
    HeldFits(c, u, held);
    SeesFull(c, u, i);
    var v := Alone(c, u, i, 4);
    AloneReached(c, u, i, 4);
    var m := Missing(held, c.segs);
    assert m !in u.core.mem.inUse;
    var k := LowestFree(c, u.core.mem.inUse, 0);
    AloneTakes(c, v, i, u.core.mem.claim, k);
    t := Alone(c, v, i, 4);
    AloneReached(c, v, i, 4);
    taken := held + [k];
    HeldGrows(c, u, t, held, i, k);
  }

  lemma HeldFits(c: Config, s: State, held: seq<nat>)
    requires HeldBy(c, s, held)
    ensures forall a, b :: 0 <= a < b < |held| ==> held[a] != held[b]
  {
  }

  // ---------------------------------------------------------------- the poller's run

  /** A second producer refused at a full segment, every other segment taken, and nothing read. */
  lemma RefusedInCrowd(c: Config, body: Msg) returns (s: State, taken: seq<nat>)
    requires Plain(c)
    ensures Inv(c, s) && Reached(c, s) && Crowded(c, s, taken) && |s.prods| > 1
    ensures s.prods[0].pc.Idle? && s.prods[1].pc.Full? && s.core.cons.pc.Gone?
    ensures AllCalm(s.prods) && NobodyNaps(s.prods)
    ensures s.core.mem.claim.pos == c.depth && !s.core.mem.claim.waiting
  {
    hide Inv, Reached, Alone, Shape, Init, Filled, AnyFree, HeldBy;
    var s0 := StartIsEmpty(c, c.segs + 1, body);
    MulMono(1, c.segs, c.depth);
    var n := FillsTo(c, c.segs + 1, body, 0, 1 * c.depth);
    var s1 := Alone(c, s0, 0, n);
    AloneReached(c, s0, 0, n);
    WholeSegments(c, s1, 0, 1);
    AtRest(c, s1, 0, c.depth);
    OffShape(c, s1);
    var s2: State;
    s2, taken := Crowds(c, s1, c.segs - 1);
    OffShape(c, s2);
    SeesFull(c, s2, 1);
    s := Alone(c, s2, 1, 4);
    AloneReached(c, s2, 1, 4);
    CrowdStays(c, s2, s, taken);
    if c.multi {
      NoneFree(c, s, taken);
      AloneFindsNone(c, s, 1, s2.core.mem.claim);
      AloneReached(c, s, 1, 1);
      var r := Alone(c, s, 1, 1);
      CrowdStays(c, s, r, taken);
      s := r;
    }
    CrowdCalm(c, s, taken);
  }

  lemma CrowdCalm(c: Config, s: State, taken: seq<nat>)
    requires Crowded(c, s, taken) && s.prods[0].pc.Idle? && s.prods[1].pc.Full?
    ensures AllCalm(s.prods) && NobodyNaps(s.prods)
  {
    forall i | 0 <= i < |s.prods|
      ensures !Owning(s.prods[i].pc) && !s.prods[i].pc.SealStore? && !Counts(s.prods[i].pc)
    {
      if i >= 2 {
        var a := i - 1;
        assert taken[a] < c.segs && Moving(s, a + 1, taken[a]);
      }
    }
  }

  /** One message sent and read, if a check follows the next position. */
  lemma PastCheck(c: Config, s: State, taken: seq<nat>) returns (t: State)
    requires Plain(c) && Inv(c, s) && Reached(c, s) && Crowded(c, s, taken) && |s.prods| > 1 && Half(c) >= 2
    requires s.prods[0].pc.Idle? && s.prods[1].pc.Full? && Drained(s) && Looking(c, s) && !s.core.mem.claim.waiting
    ensures Inv(c, t) && Reached(c, t) && Crowded(c, t, taken) && |t.prods| > 1
    ensures t.prods[0].pc.Idle? && t.prods[1].pc.Full? && Drained(t) && t.core.cons.pc.SlotLook?
    ensures !t.core.mem.claim.waiting && !AtCheck(c, t.core.mem.claim.pos + 1)
  {
    hide Inv, Reached, Alone, ConsumerAlone, Shape, AtCheck, Crowded, Drained, Half;
    t := s;
    if AtCheck(c, s.core.mem.claim.pos + 1) {
      AllEmpty(c, s);
      DepthOf(c);
      SendsOne(c, s, 0);
      var a := Alone(c, s, 0, 6);
      AloneReached(c, s, 0, 6);
      CrowdStays(c, s, a, taken);
      CrowdCalm(c, a, taken);
      var n := DrainsAll(c, a);
      ConsumerAloneReached(c, a, n);
      t := ConsumerAlone(c, a, n);
      CrowdStays(c, a, t, taken);
      NextIsNoCheck(c, s.core.mem.claim.pos + 1);
    }
  }

  /** With half a segment two positions or more, no two positions in a row have a check. */
  lemma NextIsNoCheck(c: Config, q: nat)
    requires Half(c) >= 2 && AtCheck(c, q)
    ensures !AtCheck(c, q + 1)
  {
    DivModUnique(q + 1, Half(c), q / Half(c), 1);
  }

  /** At a depth of four or more: a producer refused at a full ring goes to sleep while the ring is drained and
      filled by one, and its look for room reads a claim word one claim old; a ring of several segments has
      another producer in each free one. It sleeps on an empty ring, not notified, and a consumer that polls
      never wakes it. A consumer that sleeps, or a ring full when the wake sequence is read, never leaves it
      so: `NoMutualSleep`, `FullRingIsNotified`. */
  lemma PollerMissesSleeper(c: Config, body: Msg) returns (s: State)
    requires Plain(c) && c.wakes && c.depth >= 4
    ensures Stranded(c, s, 1) && s.prods[0].pc.Idle?
  {
    hide Inv, Reached, ConsumerAlone, Shape, Drained, AtCheck, Crowded;
    var s1, taken := RefusedInCrowd(c, body);
    var b := ReadsAll(c, s1);
    var s2 := ConsumerAlone(c, s1, b);
    ConsumerAloneReached(c, s1, b);
    CrowdStays(c, s1, s2, taken);
    var s3 := PastCheck(c, s2, taken);
    AllEmpty(c, s3);
    var s4 := NapsToLook(c, s3, 1);
    StillDrained(c, s3, s4);
    CrowdStays(c, s3, s4, taken);
    s := SleepsOnRoom(c, s4, taken, s3.core.mem.wake);
    forall n: nat
      ensures ConsumerAlone(c, s, n).prods[1].pc == Asleep(s.core.mem.wake)
    {
      PollsOn(c, s, n);
    }
  }

  lemma StillDrained(c: Config, s: State, t: State)
    requires Drained(s) && s.core.cons.pc.SlotLook?
    requires t.core == s.core.(mem := s.core.mem.(waiters := t.core.mem.waiters),
              g := s.core.g.(sleepers := t.core.g.sleepers))
    ensures Drained(t) && t.core.cons.pc.SlotLook?
  {
  }

  /** Producer `i` is asleep with nothing left to read, and no number of the consumer's looks wakes it. */
  ghost predicate Stranded(c: Config, s: State, i: nat) {
    && Reached(c, s)
    && i < |s.prods|
    && s.prods[i].pc == Asleep(s.core.mem.wake)
    && s.core.g.head == |s.core.g.log|
    && forall n :: ConsumerAlone(c, s, n).prods[i].pc == Asleep(s.core.mem.wake)
  }

  /** A check under way wakes every sleeper in at most three accesses. */
  lemma CheckEnds(c: Config, s: State, i: nat) returns (n: nat)
    requires Plain(c) && Inv(c, s) && i < |s.prods| && s.prods[i].pc.Asleep?
    requires Checking(s.core.cons.pc) || s.core.cons.pc.WakeAll?
    ensures !ConsumerAlone(c, s, n).prods[i].pc.Asleep?
  {
    hide Inv, ConsumerAlone, Shape, PcShape, ReadStep, HandStep;
    if s.core.cons.pc.CheckLoad? {
      CheckWakesSleepers(c, s, i);
      n := 3;
    } else {
      ConsumerAloneStep(c, s, 0);
      ConsumerAloneStep(c, s, 1);
      n := if s.core.cons.pc.Bump? then 2 else 1;
    }
  }

  lemma NotStranded(c: Config, s: State, i: nat)
    requires Plain(c) && c.depth < 4
    ensures !Stranded(c, s, i)
  {
    hide Inv, Reached, ConsumerAlone;
    if Stranded(c, s, i) {
      ReachedInv(c, s);
      if Checking(s.core.cons.pc) || s.core.cons.pc.WakeAll? {
        var n := CheckEnds(c, s, i);
      } else {
        SmallDepthMissesNone(c, s);
      }
    }
  }

  /** When polling is enough: a ring whose sides wake each other can strand a producer exactly when a segment
      has four slots or more. Below that `SmallDepthMissesNone` says more: nobody sleeps on an empty ring at
      all once the check at hand is done. */
  lemma PollingStrands(c: Config)
    requires Plain(c) && c.wakes
    ensures (exists s, i :: Stranded(c, s, i)) <==> c.depth >= 4
  {
    hide Stranded;
    if c.depth >= 4 {
      var s := PollerMissesSleeper(c, Machine.Msg(0, 0));
      assert Stranded(c, s, 1);
    } else {
      forall s, i
        ensures !Stranded(c, s, i)
      {
        NotStranded(c, s, i);
      }
    }
  }
}
