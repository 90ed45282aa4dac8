/** A producer alone on a new ring, the consumer idle: it fills every slot of every segment, switching as each
    is full, and only then finds the ring full. */
module FillingUp {
  import opened Laps
  import opened Machine
  import opened Invariant
  import opened Runs
  import opened Segments
  import opened Progress

  /** The ring with `j` sends of producer `i` in it and nothing read: the segments before the claim word's are
      full, and the log is the sends in order, all committed. */
  ghost predicate Carrying(c: Config, x: Core, i: nat, j: nat) {
    && |x.g.rd| == |x.g.cl| == c.segs
    && |x.g.chain| >= 1
    && x.g.chain[0] == 0
    && !x.mem.claim.waiting
    && x.cons.pc.Gone?
    && x.g.head == 0
    && |x.g.log| == j
    && (forall e :: 0 <= e < j ==> x.g.log[e].msg == Machine.Msg(i, e + 1) && x.g.log[e].fate == Committed)
    && (forall k :: 0 <= k < c.segs ==> x.g.rd[k] == 0)
    && (forall a :: 0 <= a < |x.g.chain| - 1 ==> x.g.chain[a] < c.segs && x.g.cl[x.g.chain[a]] == c.depth)
    && x.mem.switches == |x.g.chain| - 1
  }

  /** Producer `i` has made `j` sends, the last of them in the claim word's segment, and nobody does anything. */
  ghost predicate Filled(c: Config, s: State, i: nat, j: nat) {
    && i < |s.prods|
    && s.prods[i].n == j
    && (forall q :: 0 <= q < |s.prods| ==> s.prods[q].pc.Idle?)
    && Carrying(c, s.core, i, j)
    && (j > 0 ==> s.core.mem.claim.seg < c.segs && s.core.g.cl[s.core.mem.claim.seg] > 0)
  }

  /** Nobody inside a switch but, perhaps, producer `i`. */
  ghost predicate Quiet(s: State, i: nat) {
    forall q :: 0 <= q < |s.prods| && q != i ==> s.prods[q].pc.Idle?
  }

  lemma {:induction false} FullSegments(c: Config, s: State, i: nat, j: nat, a: nat)
    requires Inv(c, s) && Carrying(c, s.core, i, j) && a < |s.core.g.chain| - 1
    ensures Shape(c, s.core) && Chained(c, s.core)
    ensures s.core.g.off[s.core.g.chain[a]] + s.core.g.cl[s.core.g.chain[a]] == (a + 1) * c.depth
  {
    hide Inv, Shape;
    FirstOf(c, s, a);
    if a > 0 {
      FullSegments(c, s, i, j, a - 1);
      NoGap(c, s, a - 1);
      MulOneMore(a, c.depth);
    }
  }

  /** How far the claim word's segment is filled. */
  lemma LastSegment(c: Config, s: State, i: nat, j: nat)
    requires Inv(c, s) && Carrying(c, s.core, i, j)
    ensures s.core.mem.claim.seg < c.segs && |s.core.g.cl| == c.segs
    ensures s.core.g.cl[s.core.mem.claim.seg] == j - (|s.core.g.chain| - 1) * c.depth
    ensures |s.core.g.chain| <= c.segs
  {
    hide Inv, Shape, Placed;
    var g := s.core.g;
    OrderFacts(c, s);
    SealsShape(c, s);
    Pigeonhole(g.chain, c.segs);
    var l := |g.chain| - 1;
    if l > 0 {
      FullSegments(c, s, i, j, l - 1);
      NoGap(c, s, l - 1);
    }
  }

  /** A filling of whole segments: `m` of them, the claim word's the last, full. */
  lemma WholeSegments(c: Config, s: State, i: nat, m: nat)
    requires Plain(c) && Inv(c, s) && m >= 1 && Filled(c, s, i, m * c.depth)
    ensures s.core.mem.claim.seg < c.segs && |s.core.g.cl| == |s.core.g.rd| == c.segs
    ensures |s.core.g.chain| == m && s.core.g.cl[s.core.mem.claim.seg] == c.depth
    ensures m == 1 ==> s.core.mem.claim.seg == 0
    ensures forall k :: 0 <= k < c.segs ==> s.core.g.rd[k] == 0
  {
    hide Inv;
    LastSegment(c, s, i, m * c.depth);
    FrontOf(c, s);
    assert m * c.depth > 0 by { MulMono(1, m, c.depth); }
    WholeLaps(s.core.g.cl[s.core.mem.claim.seg], |s.core.g.chain| - 1, m, c.depth);
  }

  /** The part of a lap left over from whole laps is a whole lap. */
  lemma WholeLaps(rest: nat, l: nat, m: nat, d: nat)
    requires 1 <= rest <= d && rest == m * d - l * d
    ensures l + 1 == m && rest == d
  {
    assert (l + 1) * d == l * d + d && (l + 2) * d == l * d + 2 * d;
    if l >= m {
      MulMono(m, l, d);
    } else if l + 1 < m {
      MulMono(l + 2, m, d);
    }
  }

  /** With nobody switching, the bits in use are the chain's, and a segment is free while the chain is short. */
  lemma FreeLeft(c: Config, s: State, i: nat)
    requires Inv(c, s) && Quiet(s, i) && i < |s.prods| && !Switching(s.prods[i].pc)
    ensures AnyFree(c, s.core.mem.inUse) <==> |s.core.g.chain| < c.segs
  {
    hide Inv, Sealed, Fronts, Owes;
    ChainFacts(c, s);
    InvCoreRanged(c, s);
    var g := s.core.g;
    forall k: nat
      ensures k !in g.held
    {
      if k in g.held {
        SwitchLocalOf(c, s, g.held[k]);
      }
    }
    if |g.chain| < c.segs {
      var k := Missing(g.chain, c.segs);
      assert k !in s.core.mem.inUse;
    } else if AnyFree(c, s.core.mem.inUse) {
      var k :| 0 <= k < c.segs && k !in s.core.mem.inUse;
      Pigeonhole(g.chain + [k], c.segs);
    }
  }

  lemma InvCoreRanged(c: Config, s: State)
    requires Inv(c, s)
    ensures Ranged(s.core.g, |s.prods|)
  {
    hide CoreInv, Ranged, Local;
  }

  /** A list shorter than `n` misses some number below `n`. */
  lemma {:induction false} Missing(chain: seq<nat>, n: nat) returns (k: nat)
    requires |chain| < n
    requires forall i, j :: 0 <= i < j < |chain| ==> chain[i] != chain[j]
    ensures k < n && k !in chain
    decreases n
  {
    if n - 1 !in chain {
      k := n - 1;
    } else {
      var j :| 0 <= j < |chain| && chain[j] == n - 1;
      k := Missing(chain[..j] + chain[j + 1..], n - 1);
      assert forall a :: 0 <= a < |chain| && a != j ==>
        chain[a] == (chain[..j] + chain[j + 1..])[if a < j then a else a - 1];
    }
  }

  // ---------------------------------------------------------------- one send more

  lemma SentHolds(c: Config, s: State, i: nat, j: nat, t: State)
    requires Inv(c, s) && Inv(c, t) && Carrying(c, s.core, i, j) && Shape(c, s.core)
    requires s.core.mem.claim.seg < c.segs
    requires SentOne(c, s.core, t.core, Machine.Msg(i, j + 1))
    ensures Carrying(c, t.core, i, j + 1)
    ensures t.core.mem.claim.seg < c.segs && t.core.g.cl[t.core.mem.claim.seg] > 0
  {
    hide Inv, Shape, Sealed, Fronts, Bits;
    ChainFacts(c, s);
  }

  /** The switch's four writes. */
  ghost function Switched(c: Config, x: Core, i: nat, w: Word, k: nat): (y: Core)
    requires Shape(c, x) && w.seg < c.segs && k < c.segs
  {
    var z := StoreSeal(TakeBit(x, i, k), k, ClearSeal);
    AddSwitch(SealOld(c, MoveRing(c, z, i, w, k, x.mem.seals[k].pos), w, k), i)
  }

  lemma SwitchedHolds(c: Config, s: State, i: nat, j: nat, k: nat)
    requires Inv(c, s) && Carrying(c, s.core, i, j) && Shape(c, s.core) && k < c.segs
    requires s.core.mem.claim.seg < c.segs && s.core.g.cl[s.core.mem.claim.seg] == c.depth
    ensures Carrying(c, Switched(c, s.core, i, s.core.mem.claim, k), i, j)
    ensures Switched(c, s.core, i, s.core.mem.claim, k).g.cl == s.core.g.cl
    ensures Switched(c, s.core, i, s.core.mem.claim, k).g.rd == s.core.g.rd
    ensures Switched(c, s.core, i, s.core.mem.claim, k).mem.claim.seg == k
  {
    hide Inv, Sealed, Fronts, Bits;
    ChainFacts(c, s);
  }

  lemma AtLook(c: Config, s: State, i: nat, j: nat)
    requires Plain(c) && Inv(c, s) && Filled(c, s, i, j)
    ensures var t := Alone(c, s, i, 2);
      && t.core == s.core
      && i < |t.prods|
      && t.prods[i].pc == Look(t.core.mem.claim)
      && t.prods[i].n == j + 1
      && Quiet(t, i)
  {
    hide Inv, Alone, Carrying;
    AloneLooks(c, s, i);
  }

  /** With room in the claim word's segment the next send takes six accesses. */
  lemma SendFits(c: Config, s: State, i: nat, j: nat)
    requires Plain(c) && Inv(c, s) && Filled(c, s, i, j)
    requires s.core.mem.claim.seg < |s.core.g.cl| && s.core.g.cl[s.core.mem.claim.seg] < c.depth
    ensures Filled(c, Alone(c, s, i, 6), i, j + 1)
  {
    hide Inv, Alone, Shape, SentOne;
    AtLook(c, s, i, j);
    LastSegment(c, s, i, j);
    AloneSplits(c, s, i, 2, 4);
    AloneInv(c, s, i, 2);
    SendsOn(c, Alone(c, s, i, 2), i, j);
  }

  lemma SendsOn(c: Config, t: State, i: nat, j: nat)
    requires Plain(c) && Inv(c, t) && Quiet(t, i) && Carrying(c, t.core, i, j)
    requires i < |t.prods| && t.prods[i].pc == Look(t.core.mem.claim) && t.prods[i].n == j + 1
    requires t.core.mem.claim.seg < c.segs && t.core.g.cl[t.core.mem.claim.seg] < c.depth
    ensures Filled(c, Alone(c, t, i, 4), i, j + 1)
  {
    hide Inv, Alone, Shape, SentOne;
    OffShape(c, t);
    AloneSends(c, t, i);
    AloneInv(c, t, i, 4);
    SentHolds(c, t, i, j, Alone(c, t, i, 4));
  }

  /** At a full segment with another free, the next send takes sixteen: ten of them move the ring. */
  lemma SendMovesOn(c: Config, s: State, i: nat, j: nat)
    requires Plain(c) && Inv(c, s) && Filled(c, s, i, j) && c.multi && |s.core.g.chain| < c.segs
    requires s.core.mem.claim.seg < |s.core.g.cl| && s.core.g.cl[s.core.mem.claim.seg] == c.depth
    ensures Filled(c, Alone(c, s, i, 16), i, j + 1)
  {
    hide Inv, Alone, Shape, Carrying, AnyFree, LowestFree, Switched;
    var t := Alone(c, s, i, 2);
    AtLook(c, s, i, j);
    LastSegment(c, s, i, j);
    AloneInv(c, s, i, 2);
    RingMoves(c, t, i, j);
    AloneInv(c, t, i, 10);
    AloneSplits(c, s, i, 2, 10);
    var u := Alone(c, t, i, 10);
    SendsOn(c, u, i, j);
    AloneSplits(c, s, i, 12, 4);
  }

  lemma RingMoves(c: Config, t: State, i: nat, j: nat)
    requires Plain(c) && Inv(c, t) && Quiet(t, i) && Carrying(c, t.core, i, j) && c.multi && |t.core.g.chain| < c.segs
    requires i < |t.prods| && t.prods[i].pc == Look(t.core.mem.claim) && t.prods[i].n == j + 1
    requires t.core.mem.claim.seg < c.segs && t.core.g.cl[t.core.mem.claim.seg] == c.depth
    ensures var u := Alone(c, t, i, 10);
      && Quiet(u, i)
      && Carrying(c, u.core, i, j)
      && i < |u.prods|
      && u.prods[i].pc == Look(u.core.mem.claim)
      && u.prods[i].n == j + 1
      && u.core.mem.claim.seg < c.segs
      && u.core.g.cl[u.core.mem.claim.seg] < c.depth
  {
    hide Inv, Alone, Shape, LowestFree, Carrying, MoveRing, SealOld, AddSwitch, StoreSeal, TakeBit;
    var w := t.core.mem.claim;
    OffShape(c, t);
    RoomOf(c, t, i, j);
    AloneMisses(c, t, i);
    var a := Alone(c, t, i, 2);
    FreeLeft(c, t, i);
    var k := LowestFree(c, t.core.mem.inUse, 0);
    AloneInv(c, t, i, 2);
    AloneTakes(c, a, i, w, k);
    AloneSplits(c, t, i, 2, 4);
    var b := Alone(c, t, i, 6);
    TakenIs(c, t, b, k);
    AloneInv(c, t, i, 6);
    OffShape(c, b);
    AloneMoves(c, b, i, w, k, t.core.mem.seals[k].pos);
    AloneSplits(c, t, i, 6, 3);
    SwitchedHolds(c, t, i, j, k);
    EmptyNew(c, t, i, k);
    AloneInv(c, t, i, 9);
    AloneReloads(c, Alone(c, t, i, 9), i);
    AloneSplits(c, t, i, 9, 1);
  }

  lemma RoomOf(c: Config, t: State, i: nat, j: nat)
    requires Carrying(c, t.core, i, j)
    ensures |t.core.g.rd| == c.segs && forall k :: 0 <= k < c.segs ==> t.core.g.rd[k] == 0
  {
  }

  lemma TakenIs(c: Config, t: State, b: State, k: nat)
    requires Inv(c, t) && k < |t.core.mem.seals|
    requires exists i :: b.core == StoreSeal(TakeBit(t.core, i, k), k, ClearSeal)
    ensures b.core.mem.claim == t.core.mem.claim
  {
    hide Inv;
  }

  lemma EmptyNew(c: Config, t: State, i: nat, k: nat)
    requires Plain(c) && Inv(c, t) && Shape(c, t.core) && k < c.segs && k !in t.core.mem.inUse
    ensures |t.core.g.cl| == |t.core.g.rd| == c.segs && t.core.g.cl[k] == t.core.g.rd[k]
  {
    hide Inv, Sealed;
    ChainFacts(c, t);
  }

  /** With every segment full the next send finds the ring full, and leaves it as it was. */
  lemma SendFindsFull(c: Config, s: State, i: nat, j: nat)
    requires Plain(c) && Inv(c, s) && Filled(c, s, i, j) && |s.core.g.chain| == c.segs
    requires s.core.mem.claim.seg < |s.core.g.cl| && s.core.g.cl[s.core.mem.claim.seg] == c.depth
    ensures var t := Alone(c, s, i, if c.multi then 5 else 4);
      i < |t.prods| && t.prods[i].pc.Full? && t.core == s.core
  {
    hide Inv, Alone, Shape, AnyFree, Carrying;
    var t := Alone(c, s, i, 2);
    AtLook(c, s, i, j);
    AloneInv(c, s, i, 2);
    OffShape(c, t);
    RoomOf(c, s, i, j);
    AloneMisses(c, t, i);
    AloneSplits(c, s, i, 2, 2);
    if c.multi {
      FreeLeft(c, s, i);
      AloneInv(c, t, i, 2);
      AloneFindsNone(c, Alone(c, t, i, 2), i, t.core.mem.claim);
      AloneSplits(c, s, i, 4, 1);
    }
  }

  // ---------------------------------------------------------------- the whole ring

  lemma StartsEmpty(c: Config, producers: nat, body: Msg, i: nat)
    requires Plain(c) && i < producers
    ensures Filled(c, Init(c, producers, body), i, 0)
  {
  }

  /** Any number of sends up to the ring's slots all go through. */
  lemma {:induction false} FillsTo(c: Config, producers: nat, body: Msg, i: nat, j: nat) returns (n: nat)
    requires Plain(c) && i < producers && j <= c.segs * c.depth
    ensures Inv(c, Alone(c, Init(c, producers, body), i, n))
    ensures Filled(c, Alone(c, Init(c, producers, body), i, n), i, j)
  {
    hide Inv, Alone, Filled, Init;
    var s := Init(c, producers, body);
    InitInv(c, producers, body);
    AloneInv(c, s, i, 0);
    if j == 0 {
      n := 0;
      StartsEmpty(c, producers, body, i);
      AloneStep(c, s, i, 0);
    } else {
      var m := FillsTo(c, producers, body, i, j - 1);
      var t := Alone(c, s, i, m);
      var cost := OneMore(c, t, i, j - 1);
      n := m + cost;
      AloneSplits(c, s, i, m, cost);
      AloneInv(c, s, i, n);
    }
  }

  lemma OneMore(c: Config, t: State, i: nat, j: nat) returns (cost: nat)
    requires Plain(c) && Inv(c, t) && Filled(c, t, i, j) && j < c.segs * c.depth
    ensures Filled(c, Alone(c, t, i, cost), i, j + 1)
  {
    hide Inv, Alone, Carrying;
    LastSegment(c, t, i, j);
    var l := |t.core.g.chain| - 1;
    FrontOf(c, t);
    RoomOf(c, t, i, j);
    if t.core.g.cl[t.core.mem.claim.seg] < c.depth {
      cost := 6;
      SendFits(c, t, i, j);
    } else {
      cost := 16;
      assert (l + 1) * c.depth == l * c.depth + c.depth;
      SendMovesOn(c, t, i, j);
    }
  }

  lemma FrontOf(c: Config, t: State)
    requires Inv(c, t)
    ensures t.core.mem.claim.seg < |t.core.g.cl| == |t.core.g.rd|
    ensures t.core.g.cl[t.core.mem.claim.seg] <= t.core.g.rd[t.core.mem.claim.seg] + c.depth
    ensures |t.core.g.chain| >= 1 && t.core.mem.claim.seg == t.core.g.chain[|t.core.g.chain| - 1]
  {
    hide Inv, Shape, Placed;
    OrderFacts(c, t);
    SealsShape(c, t);
  }

  /** With the consumer idle a new ring takes exactly its segments' slots of sends, all committed in order,
      with one switch fewer than it has segments, every segment in its chain. The next send finds it full
      and changes nothing. */
  lemma FillsExactly(c: Config, producers: nat, body: Msg, i: nat) returns (n: nat)
    requires Plain(c) && i < producers
    ensures var t := Alone(c, Init(c, producers, body), i, n);
      && |t.core.g.log| == c.segs * c.depth
      && (forall e :: 0 <= e < |t.core.g.log| ==>
            t.core.g.log[e].msg == Machine.Msg(i, e + 1) && t.core.g.log[e].fate == Committed)
      && t.core.mem.switches == c.segs - 1
      && |t.core.g.chain| == c.segs
      && var u := Alone(c, t, i, if c.multi then 5 else 4);
         i < |u.prods| && u.prods[i].pc.Full? && u.core == t.core
  {
    hide Inv, Alone, Init;
    n := FillsTo(c, producers, body, i, c.segs * c.depth);
    var t := Alone(c, Init(c, producers, body), i, n);
    LastSegment(c, t, i, c.segs * c.depth);
    FrontOf(c, t);
    var l := |t.core.g.chain| - 1;
    RoomOf(c, t, i, c.segs * c.depth);
    assert (l + 1) * c.depth == l * c.depth + c.depth;
    assert (l + 2) * c.depth == (l + 1) * c.depth + c.depth;
    if l + 1 < c.segs {
      MulMono(l + 2, c.segs, c.depth);
    }
    SendFindsFull(c, t, i, c.segs * c.depth);
  }
}
