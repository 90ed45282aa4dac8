/** Facts about the claim log the step proofs share. */
module LogFacts {
  import opened Machine
  import opened Invariant

  lemma {:induction false} LiveFrame(a: seq<Claimed>, b: seq<Claimed>, upto: nat)
    requires upto <= |a| && upto <= |b|
    requires forall n :: 0 <= n < upto ==> a[n] == b[n]
    ensures Live(a, upto) == Live(b, upto)
  {
    if upto > 0 {
      LiveFrame(a, b, upto - 1);
    }
  }

  /** The unread positions of a chain segment are the log entries that name them. */
  lemma PlaceOf(c: Config, x: Core, k: nat, p: nat)
    requires Shape(c, x) && Chained(c, x) && Fronts(c, x) && Ordered(c, x) && Placed(c, x)
    requires k < c.segs && x.g.rd[k] <= p < x.g.cl[k]
    ensures k in x.g.chain && x.g.head <= x.g.off[k] + p < |x.g.log|
    ensures x.g.log[x.g.off[k] + p].seg == k && x.g.log[x.g.off[k] + p].pos == p
  {
    assert k in x.g.chain;
    var j :| 0 <= j < |x.g.chain| && x.g.chain[j] == k;
    var n := x.g.off[k] + p;
    assert EntryPlaced(c, x, n);
    var i :| 0 <= i < |x.g.chain| && x.g.chain[i] == x.g.log[n].seg;
    hide Chained, Fronts, Placed, Shape;
    SpansApart(c, x, i, j, n);
  }

  /** An entry lies in the span of one chain segment only. */
  lemma SpansApart(c: Config, x: Core, i: nat, j: nat, n: int)
    requires Shape(c, x) && Chained(c, x) && Ordered(c, x) && i < |x.g.chain| && j < |x.g.chain|
    requires var k := x.g.chain[i]; x.g.off[k] + x.g.rd[k] <= n < x.g.off[k] + x.g.cl[k]
    requires var k := x.g.chain[j]; x.g.off[k] + x.g.rd[k] <= n < x.g.off[k] + x.g.cl[k]
    ensures i == j
  {
  }

  /** A message is claimed once, so the search finds the one entry there is. */
  lemma EntryIs(c: Config, x: Core, i: nat, n: nat, idx: nat)
    requires Logged(x) && idx < |x.g.log| && x.g.log[idx].msg == Msg(i, n)
    ensures EntryOf(c, x.g, i, n) == idx
  {
    var r := FindEntry(x.g.log, Msg(i, n), |x.g.log|);
    assert r >= idx;
  }
}
