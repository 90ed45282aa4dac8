/** Every run keeps the invariant: any steps of any producers and the consumer, in any order, from the
    ring `init` leaves. */
module Runs {
  import opened Laps
  import opened Machine
  import opened Invariant
  import opened ProducerSteps
  import opened ConsumerSteps

  lemma NextKeeps(c: Config, s: State, step: Step)
    requires Plain(c) && Inv(c, s)
    ensures WellShaped(c, s) && Inv(c, Next(c, s, step))
  {
    InvShape(c, s);
    hide Inv, WellShaped, Produce, Consume;
    match step
    case ByProducer(i, ch) =>
      if i < |s.prods| {
        ProduceKeeps(c, s, i, ch);
      }
    case ByConsumer(ch) => ConsumeKeeps(c, s, ch);
  }

  // ---------------------------------------------------------------- runs

  /** One access where one is defined, as it is in every state the invariant holds of. */
  function Apply(c: Config, s: State, step: Step): (t: State)
    ensures |t.prods| == |s.prods|
  {
    if WellShaped(c, s) then Next(c, s, step) else s
  }

  /** The state after these accesses, in this order. */
  function Exec(c: Config, s: State, steps: seq<Step>): (t: State)
    ensures |t.prods| == |s.prods|
    decreases |steps|
  {
    if steps == [] then s
    else Apply(c, Exec(c, s, steps[..|steps| - 1]), steps[|steps| - 1])
  }

  lemma {:induction false} ExecInv(c: Config, s: State, steps: seq<Step>)
    requires Plain(c) && Inv(c, s)
    ensures Inv(c, Exec(c, s, steps)) && WellShaped(c, Exec(c, s, steps))
    decreases |steps|
  {
    hide Inv, Next, WellShaped;
    if steps != [] {
      ExecInv(c, s, steps[..|steps| - 1]);
      NextKeeps(c, Exec(c, s, steps[..|steps| - 1]), steps[|steps| - 1]);
    }
    InvShape(c, Exec(c, s, steps));
  }

  lemma ExecNext(c: Config, s: State, steps: seq<Step>, step: Step)
    requires Plain(c) && Inv(c, s)
    ensures WellShaped(c, Exec(c, s, steps)) && Inv(c, Exec(c, s, steps))
    ensures Exec(c, s, steps + [step]) == Next(c, Exec(c, s, steps), step)
  {
    hide Inv, Next, WellShaped;
    ExecInv(c, s, steps);
    assert (steps + [step])[..|steps|] == steps;
  }

  lemma {:induction false} ExecSplits(c: Config, s: State, a: seq<Step>, b: seq<Step>)
    ensures Exec(c, s, a + b) == Exec(c, Exec(c, s, a), b)
    decreases |b|
  {
    hide Apply;
    if b == [] {
      assert a + b == a;
    } else {
      ExecSplits(c, s, a, b[..|b| - 1]);
      assert (a + b)[..|a + b| - 1] == a + b[..|b| - 1];
    }
  }

  // ---------------------------------------------------------------- one side alone

  function Repeat(step: Step, n: nat): (r: seq<Step>)
    ensures |r| == n && forall k :: 0 <= k < n ==> r[k] == step
  {
    seq(n, _ => step)
  }

  /** The state after `n` accesses of producer `i` alone, each going the plain way. */
  function Alone(c: Config, s: State, i: nat, n: nat): (t: State)
    ensures |t.prods| == |s.prods|
  {
    Exec(c, s, Repeat(ByProducer(i, Go), n))
  }

  lemma AloneStep(c: Config, s: State, i: nat, n: nat)
    requires Plain(c) && Inv(c, s) && i < |s.prods|
    ensures Alone(c, s, i, 0) == s
    ensures WellShaped(c, Alone(c, s, i, n)) && Inv(c, Alone(c, s, i, n)) && Inv(c, Alone(c, s, i, n + 1))
    ensures Alone(c, s, i, n + 1) == Produce(c, Alone(c, s, i, n), i, Go)
  {
    hide Inv, Produce, WellShaped, Exec;
    ExecNext(c, s, Repeat(ByProducer(i, Go), n), ByProducer(i, Go));
    ExecInv(c, s, Repeat(ByProducer(i, Go), n + 1));
    assert Repeat(ByProducer(i, Go), n + 1) == Repeat(ByProducer(i, Go), n) + [ByProducer(i, Go)];
    NoSteps(c, s, ByProducer(i, Go));
  }

  lemma NoSteps(c: Config, s: State, step: Step)
    ensures Exec(c, s, Repeat(step, 0)) == s
  {
  }

  lemma AloneInv(c: Config, s: State, i: nat, n: nat)
    requires Plain(c) && Inv(c, s)
    ensures Inv(c, Alone(c, s, i, n)) && WellShaped(c, Alone(c, s, i, n))
  {
    hide Inv, WellShaped, Exec;
    ExecInv(c, s, Repeat(ByProducer(i, Go), n));
  }

  lemma AloneSplits(c: Config, s: State, i: nat, a: nat, b: nat)
    ensures Alone(c, s, i, a + b) == Alone(c, Alone(c, s, i, a), i, b)
  {
    hide Exec;
    ExecSplits(c, s, Repeat(ByProducer(i, Go), a), Repeat(ByProducer(i, Go), b));
    assert Repeat(ByProducer(i, Go), a + b) == Repeat(ByProducer(i, Go), a) + Repeat(ByProducer(i, Go), b);
  }

  /** The state after `n` accesses of the consumer alone. */
  function ConsumerAlone(c: Config, s: State, n: nat): (t: State)
    ensures |t.prods| == |s.prods|
  {
    Exec(c, s, Repeat(ByConsumer(Go), n))
  }

  lemma ConsumerAloneStep(c: Config, s: State, n: nat)
    requires Plain(c) && Inv(c, s)
    ensures ConsumerAlone(c, s, 0) == s
    ensures WellShaped(c, ConsumerAlone(c, s, n)) && Inv(c, ConsumerAlone(c, s, n)) && Inv(c, ConsumerAlone(c, s,
              n + 1))
    ensures ConsumerAlone(c, s, n + 1) == Consume(c, ConsumerAlone(c, s, n), Go)
  {
    hide Inv, Consume, WellShaped, Exec;
    ExecNext(c, s, Repeat(ByConsumer(Go), n), ByConsumer(Go));
    ExecInv(c, s, Repeat(ByConsumer(Go), n + 1));
    assert Repeat(ByConsumer(Go), n + 1) == Repeat(ByConsumer(Go), n) + [ByConsumer(Go)];
    NoSteps(c, s, ByConsumer(Go));
  }

  lemma ConsumerAloneInv(c: Config, s: State, n: nat)
    requires Plain(c) && Inv(c, s)
    ensures Inv(c, ConsumerAlone(c, s, n)) && WellShaped(c, ConsumerAlone(c, s, n))
  {
    hide Inv, WellShaped, Exec;
    ExecInv(c, s, Repeat(ByConsumer(Go), n));
  }

  lemma ConsumerAloneSplits(c: Config, s: State, a: nat, b: nat)
    ensures ConsumerAlone(c, s, a + b) == ConsumerAlone(c, ConsumerAlone(c, s, a), b)
  {
    hide Exec;
    ExecSplits(c, s, Repeat(ByConsumer(Go), a), Repeat(ByConsumer(Go), b));
    assert Repeat(ByConsumer(Go), a + b) == Repeat(ByConsumer(Go), a) + Repeat(ByConsumer(Go), b);
  }

  // ---------------------------------------------------------------- the start

  lemma InitShape(c: Config, producers: nat, body: Msg)
    requires Plain(c)
    ensures Shape(c, Init(c, producers, body).core)
  {
  }

  lemma InitSlots(c: Config, producers: nat, body: Msg)
    requires Plain(c)
    ensures var x := Init(c, producers, body).core; Shape(c, x) && Slots(c, x) && Placed(c, x)
  {
    var x := Init(c, producers, body).core;
    forall k, p | 0 <= k < c.segs && x.g.rd[k] <= p < x.g.rd[k] + c.depth
      ensures SlotOk(c, x, k, p)
    {
      assert Slot(p, c.depth) == p;
    }
  }

  lemma InitRing(c: Config, producers: nat, body: Msg)
    requires Plain(c)
    ensures RingInv(c, Init(c, producers, body).core)
  {
    hide Slots, Placed;
    InitSlots(c, producers, body);
  }

  lemma InitCore(c: Config, producers: nat, body: Msg)
    requires Plain(c)
    ensures CoreInv(c, Init(c, producers, body).core)
  {
    InitRing(c, producers, body);
    hide RingInv;
    InitShape(c, producers, body);
  }

  lemma InitLocal(c: Config, producers: nat, body: Msg, i: nat)
    requires Plain(c) && i < producers
    ensures var s := Init(c, producers, body); Shape(c, s.core) && Local(c, i, s.prods[i], s.core)
  {
  }

  lemma InitInv(c: Config, producers: nat, body: Msg)
    requires Plain(c)
    ensures Inv(c, Init(c, producers, body))
  {
    hide CoreInv, Local;
    var s := Init(c, producers, body);
    InitCore(c, producers, body);
    InitShape(c, producers, body);
    forall i | 0 <= i < |s.prods|
      ensures Local(c, i, s.prods[i], s.core)
    {
      InitLocal(c, producers, body, i);
    }
  }

  // ---------------------------------------------------------------- runs from the start

  /** The state of the ring after a run from `init`. */
  ghost function Run(c: Config, producers: nat, body: Msg, steps: seq<Step>): (t: State)
    requires Good(c)
    ensures |t.prods| == producers
  {
    Exec(c, Init(c, producers, body), steps)
  }

  lemma RunInv(c: Config, producers: nat, body: Msg, steps: seq<Step>)
    requires Plain(c)
    ensures Inv(c, Run(c, producers, body, steps)) && WellShaped(c, Run(c, producers, body, steps))
    ensures Run(c, producers, body, []) == Init(c, producers, body)
  {
    hide Inv, WellShaped, Init;
    InitInv(c, producers, body);
    ExecInv(c, Init(c, producers, body), steps);
  }

  lemma RunNext(c: Config, producers: nat, body: Msg, steps: seq<Step>, step: Step)
    requires Plain(c)
    ensures WellShaped(c, Run(c, producers, body, steps)) && Inv(c, Run(c, producers, body, steps))
    ensures Run(c, producers, body, steps + [step]) == Next(c, Run(c, producers, body, steps), step)
  {
    hide Inv, Next, Init, WellShaped, Exec;
    InitInv(c, producers, body);
    ExecNext(c, Init(c, producers, body), steps, step);
  }

  /** A state some run from `init` comes to, whatever the number of producers and the schedule. */
  ghost predicate Reached(c: Config, s: State) {
    && Plain(c)
    && exists producers: nat, body: Msg, steps: seq<Step> :: s == Run(c, producers, body, steps)
  }

  lemma ReachedInv(c: Config, s: State)
    requires Reached(c, s)
    ensures Plain(c) && Inv(c, s) && WellShaped(c, s)
  {
    hide Run, Inv, WellShaped;
    var producers: nat, body: Msg, steps: seq<Step> :| s == Run(c, producers, body, steps);
    RunInv(c, producers, body, steps);
  }

  /** More accesses make a run still. */
  lemma ReachedExec(c: Config, s: State, more: seq<Step>)
    requires Reached(c, s)
    ensures Reached(c, Exec(c, s, more))
  {
    hide Inv, Exec, Init;
    var producers: nat, body: Msg, steps: seq<Step> :| s == Run(c, producers, body, steps);
    ExecSplits(c, Init(c, producers, body), steps, more);
    assert Exec(c, s, more) == Run(c, producers, body, steps + more);
  }

  lemma ReachedNext(c: Config, s: State, step: Step)
    requires Reached(c, s)
    ensures WellShaped(c, s) && Reached(c, Next(c, s, step))
  {
    hide Inv, Next, Reached, WellShaped;
    ReachedInv(c, s);
    ReachedExec(c, s, [step]);
    assert [step][..0] == [];
  }

  lemma AloneReached(c: Config, s: State, i: nat, n: nat)
    requires Reached(c, s)
    ensures Reached(c, Alone(c, s, i, n)) && Inv(c, Alone(c, s, i, n))
  {
    hide Inv, Exec, Reached;
    ReachedExec(c, s, Repeat(ByProducer(i, Go), n));
    ReachedInv(c, Alone(c, s, i, n));
  }

  lemma ConsumerAloneReached(c: Config, s: State, n: nat)
    requires Reached(c, s)
    ensures Reached(c, ConsumerAlone(c, s, n)) && Inv(c, ConsumerAlone(c, s, n))
  {
    hide Inv, Exec, Reached;
    ReachedExec(c, s, Repeat(ByConsumer(Go), n));
    ReachedInv(c, ConsumerAlone(c, s, n));
  }

  lemma InitReached(c: Config, producers: nat, body: Msg)
    requires Plain(c)
    ensures Reached(c, Init(c, producers, body)) && Inv(c, Init(c, producers, body))
  {
    hide Inv, Init;
    InitInv(c, producers, body);
    assert Run(c, producers, body, []) == Init(c, producers, body);
  }

  /** State `t` comes after `s` with no access of producer `i` between. */
  ghost predicate Meanwhile(c: Config, s: State, t: State, i: nat) {
    exists steps: seq<Step> :: NoneOf(steps, i) && t == Exec(c, s, steps)
  }

  predicate NoneOf(steps: seq<Step>, i: nat) {
    forall n :: 0 <= n < |steps| ==> !(steps[n].ByProducer? && steps[n].i == i)
  }

  lemma MeanwhileNone(c: Config, s: State, i: nat)
    ensures Meanwhile(c, s, s, i)
  {
    assert NoneOf([], i) && s == Exec(c, s, []);
  }

  lemma MeanwhileExec(c: Config, s: State, t: State, i: nat, more: seq<Step>)
    requires Meanwhile(c, s, t, i) && NoneOf(more, i)
    ensures Meanwhile(c, s, Exec(c, t, more), i)
  {
    hide Exec;
    var steps :| NoneOf(steps, i) && t == Exec(c, s, steps);
    ExecSplits(c, s, steps, more);
    assert NoneOf(steps + more, i);
  }

  lemma MeanwhileAlone(c: Config, s: State, t: State, i: nat, j: nat, n: nat)
    requires Meanwhile(c, s, t, i) && j != i
    ensures Meanwhile(c, s, Alone(c, t, j, n), i)
  {
    hide Exec, Meanwhile;
    MeanwhileExec(c, s, t, i, Repeat(ByProducer(j, Go), n));
  }

  lemma MeanwhileConsumer(c: Config, s: State, t: State, i: nat, n: nat)
    requires Meanwhile(c, s, t, i)
    ensures Meanwhile(c, s, ConsumerAlone(c, t, n), i)
  {
    hide Exec, Meanwhile;
    MeanwhileExec(c, s, t, i, Repeat(ByConsumer(Go), n));
  }
}
