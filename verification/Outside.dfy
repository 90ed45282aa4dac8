/** What a run takes from outside the ring: what policies answered and how fills ended. Given that, and which weak
    CASes failed for no reason, every access of a call is fixed by its program counter: a call that is told one
    thing and does another does not exist. */
module Outside {
  import opened Machine
  import opened Invariant
  import opened Runs
  import opened ProducerSteps
  import opened Asides
  import opened Arrivals

  /** What a side goes by: its policy's answer, the end of the fill, or a way its user chose that is not the plain
      one. */
  datatype Cue = Asked(answer: Choice) | Ended(panicked: bool) | Chose(way: Choice)

  /** What each producer went by so far, in order, and what the consumer did. */
  datatype Heard = Heard(producers: seq<seq<Cue>>, consumer: seq<Cue>)

  /** A producer's access that goes by a cue. A claim CAS may fail for no reason, a sleep may end at any time, and a
      fill may write what it likes on the way. */
  predicate Hears(pc: Pc, ch: Choice) {
    match pc
    case Full => true
    case Fill(_) => !ch.Write?
    case Asleep(_) => false
    case Cas(_) => ch != Go && ch != Fail
    case _ => ch != Go
  }

  function CueAt(pc: Pc, ch: Choice): Cue {
    match pc
    case Full => Asked(ch)
    case Fill(_) => Ended(ch.Panic?)
    case _ => Chose(ch)
  }

  predicate ConsumerHears(pc: ConsPc, ch: Choice) {
    match pc
    case Empty => true
    case Sleeping => false
    case _ => ch != Go
  }

  function ConsumerCue(pc: ConsPc, ch: Choice): Cue {
    if pc.Empty? then Asked(ch) else Chose(ch)
  }

  function Tell(h: Heard, i: nat, cue: Cue): (r: Heard)
    requires i < |h.producers|
    ensures |r.producers| == |h.producers|
  {
    h.(producers := h.producers[i := h.producers[i] + [cue]])
  }

  function TellConsumer(h: Heard, cue: Cue): (r: Heard)
    ensures |r.producers| == |h.producers|
  {
    h.(consumer := h.consumer + [cue])
  }

  /** What has been heard once this access is made. */
  function Hear(h: Heard, s: State, step: Step): (r: Heard)
    requires |h.producers| == |s.prods|
    ensures |r.producers| == |h.producers|
  {
    match step
    case ByProducer(i, ch) =>
      if i < |s.prods| && Hears(s.prods[i].pc, ch) then Tell(h, i, CueAt(s.prods[i].pc, ch)) else h
    case ByConsumer(ch) =>
      if ConsumerHears(s.core.cons.pc, ch) then TellConsumer(h, ConsumerCue(s.core.cons.pc, ch)) else h
  }

  /** What the accesses of a run went by. */
  ghost function HeardIn(c: Config, producers: nat, body: Msg, steps: seq<Step>): (h: Heard)
    requires Good(c)
    ensures |h.producers| == producers
    decreases |steps|
  {
    if steps == [] then Heard(seq(producers, _ => []), [])
    else
      var m := |steps| - 1;
      Hear(HeardIn(c, producers, body, steps[..m]), Run(c, producers, body, steps[..m]), steps[m])
  }

  lemma HeardNext(c: Config, producers: nat, body: Msg, steps: seq<Step>, step: Step)
    requires Good(c)
    ensures HeardIn(c, producers, body, steps + [step]) ==
            Hear(HeardIn(c, producers, body, steps), Run(c, producers, body, steps), step)
  {
    hide Run, Hear;
    assert (steps + [step])[..|steps|] == steps;
  }

  /** Accesses of the others tell a producer nothing. */
  lemma {:induction false} OthersHeard(c: Config, producers: nat, body: Msg, before: seq<Step>, after: seq<Step>,
                                       i: nat)
    requires Good(c) && before <= after && i < producers
    requires forall n :: |before| <= n < |after| ==> !(after[n].ByProducer? && after[n].i == i)
    ensures HeardIn(c, producers, body, after).producers[i] == HeardIn(c, producers, body, before).producers[i]
    decreases |after|
  {
    hide Run;
    if before != after {
      OthersHeard(c, producers, body, before, after[..|after| - 1], i);
    }
  }

  /** Accesses of producers tell the consumer nothing. */
  lemma {:induction false} ProducersHeard(c: Config, producers: nat, body: Msg, before: seq<Step>, after: seq<Step>)
    requires Good(c) && before <= after
    requires forall n :: |before| <= n < |after| ==> after[n].ByProducer?
    ensures HeardIn(c, producers, body, after).consumer == HeardIn(c, producers, body, before).consumer
    decreases |after|
  {
    hide Run;
    if before != after {
      ProducersHeard(c, producers, body, before, after[..|after| - 1]);
    }
  }

  // ---------------------------------------------------------------- where a run has been

  /** After the first `n` accesses, for some `n` since the first `from`, producer `i` was asleep. */
  ghost predicate SleptIn(c: Config, producers: nat, body: Msg, steps: seq<Step>, i: nat, from: nat)
    requires Good(c)
  {
    exists n :: from <= n <= |steps| && AsleepAfter(c, producers, body, steps[..n], i)
  }

  ghost predicate AsleepAfter(c: Config, producers: nat, body: Msg, steps: seq<Step>, i: nat)
    requires Good(c)
  {
    i < producers && Run(c, producers, body, steps).prods[i].pc.Asleep?
  }

  /** Producer `i` counted itself in. */
  ghost predicate CountedIn(c: Config, producers: nat, body: Msg, steps: seq<Step>, i: nat, from: nat)
    requires Good(c)
  {
    exists n :: from <= n < |steps| && steps[n].ByProducer? && steps[n].i == i
      && CountsAfter(c, producers, body, steps[..n], i)
  }

  ghost predicate CountsAfter(c: Config, producers: nat, body: Msg, steps: seq<Step>, i: nat)
    requires Good(c)
  {
    i < producers && Run(c, producers, body, steps).prods[i].pc.CountIn?
  }

  /** At one moment no producer was asleep: every one asleep before it was woken. */
  ghost predicate AllWokenIn(c: Config, producers: nat, body: Msg, steps: seq<Step>, from: nat)
    requires Good(c)
  {
    exists n :: from <= n <= |steps| && NobodySleeps(Run(c, producers, body, steps[..n]).prods)
  }

  predicate NobodySleeps(prods: seq<Producer>) {
    forall i :: 0 <= i < |prods| ==> !prods[i].pc.Asleep?
  }

  /** The consumer raised its flag. */
  ghost predicate FlaggedIn(c: Config, producers: nat, body: Msg, steps: seq<Step>, from: nat)
    requires Good(c)
  {
    exists n :: from <= n < |steps| && steps[n].ByConsumer?
      && Run(c, producers, body, steps[..n]).core.cons.pc.FlagSet?
  }

  /** The consumer was asleep. */
  ghost predicate DozedIn(c: Config, producers: nat, body: Msg, steps: seq<Step>, from: nat)
    requires Good(c)
  {
    exists n :: from <= n <= |steps| && Run(c, producers, body, steps[..n]).core.cons.pc.Sleeping?
  }

  /** What has happened has happened. */
  lemma StillSo(c: Config, producers: nat, body: Msg, before: seq<Step>, after: seq<Step>, i: nat, since: nat,
                from: nat)
    requires Good(c) && before <= after && from <= since
    ensures SleptIn(c, producers, body, before, i, since) ==> SleptIn(c, producers, body, after, i, from)
    ensures CountedIn(c, producers, body, before, i, since) ==> CountedIn(c, producers, body, after, i, from)
    ensures AllWokenIn(c, producers, body, before, since) ==> AllWokenIn(c, producers, body, after, from)
    ensures FlaggedIn(c, producers, body, before, since) ==> FlaggedIn(c, producers, body, after, from)
    ensures DozedIn(c, producers, body, before, since) ==> DozedIn(c, producers, body, after, from)
  {
    hide Run;
    forall n | 0 <= n <= |before|
      ensures after[..n] == before[..n]
    {
    }
  }

  // ---------------------------------------------------------------- a word to sleep is followed

  /** The cue came between the two. */
  predicate CameIn(before: seq<Cue>, now: seq<Cue>, cue: Cue) {
    before <= now && cue in now[|before|..]
  }

  lemma ToldOne(before: seq<Cue>, mid: seq<Cue>, now: seq<Cue>, one: Cue, cue: Cue)
    requires before <= mid && (now == mid || now == mid + [one])
    ensures before <= now
    ensures CameIn(before, now, cue) ==> CameIn(before, mid, cue) || (now == mid + [one] && cue == one)
    ensures CameIn(before, mid, cue) ==> CameIn(before, now, cue)
    ensures !CameIn(before, before, cue)
  {
    if now == mid + [one] {
      assert now[|before|..] == mid[|before|..] + [one];
    }
  }

  /** A producer told to sleep, on a ring that wakes, has counted itself in since, or is about to. */
  lemma {:induction false} NapsCount(c: Config, producers: nat, body: Msg, before: seq<Step>, after: seq<Step>, i: nat)
    requires Plain(c) && c.wakes && before <= after && i < producers
    ensures var h, k := HeardIn(c, producers, body, before).producers[i],
                        HeardIn(c, producers, body, after).producers[i];
      && h <= k
      && (CameIn(h, k, Asked(Nap)) ==>
            CountedIn(c, producers, body, after, i, |before|) || CountsAfter(c, producers, body, after, i))
    decreases |after|
  {
    hide Run, CameIn, Inv, CountedIn, CountsAfter, HeardIn, Hear;
    var h := HeardIn(c, producers, body, before).producers[i];
    if before == after {
      ToldOne(h, h, h, Asked(Nap), Asked(Nap));
    } else {
      var mid, step := after[..|after| - 1], after[|after| - 1];
      NapsCount(c, producers, body, before, mid, i);
      assert mid + [step] == after;
      NapStays(c, producers, body, mid, step, i, |before|);
      var k, l := HeardIn(c, producers, body, mid).producers[i], HeardIn(c, producers, body, after).producers[i];
      ToldOne(h, k, l, if |l| > 0 then l[|l| - 1] else Asked(Go), Asked(Nap));
    }
  }

  /** One access more: a producer told to sleep by it is about to count itself in, and one about to does. */
  lemma NapStays(c: Config, producers: nat, body: Msg, steps: seq<Step>, step: Step, i: nat, from: nat)
    requires Plain(c) && c.wakes && i < producers && from <= |steps|
    ensures var k, l := HeardIn(c, producers, body, steps).producers[i],
                        HeardIn(c, producers, body, steps + [step]).producers[i];
      && (l == k || (l == k + [l[|l| - 1]] && (l[|l| - 1] == Asked(Nap) ==>
                       CountsAfter(c, producers, body, steps + [step], i))))
    ensures CountsAfter(c, producers, body, steps, i) ==>
      || CountsAfter(c, producers, body, steps + [step], i)
      || CountedIn(c, producers, body, steps + [step], i, from)
    ensures CountedIn(c, producers, body, steps, i, from) ==> CountedIn(c, producers, body, steps + [step], i, from)
  {
    hide Run, Inv, HeardIn, Next, WellShaped;
    RunNext(c, producers, body, steps, step);
    HeardNext(c, producers, body, steps, step);
    StillSo(c, producers, body, steps, steps + [step], i, from, from);
    var s := Run(c, producers, body, steps);
    if step.ByProducer? && step.i == i {
      assert (steps + [step])[..|steps|] == steps;
      if s.prods[i].pc.Full? && step.ch.Nap? {
        NapCounts(c, s, i);
      }
    } else if s.prods[i].pc.CountIn? {
      OtherStep(c, s, step, i);
    }
  }

  lemma NapCounts(c: Config, s: State, i: nat)
    requires WellShaped(c, s) && i < |s.prods| && s.prods[i].pc.Full? && c.wakes
    ensures Next(c, s, ByProducer(i, Nap)).prods[i].pc.CountIn?
  {
    hide Shape, PcShape;
  }

  /** The consumer, told to sleep, is on its way to raise the flag, any producer asleep woken by then. */
  ghost predicate OnTheWay(c: Config, producers: nat, body: Msg, steps: seq<Step>, from: nat)
    requires Good(c)
  {
    var pc := Run(c, producers, body, steps).core.cons.pc;
    || pc == CheckLoad(ToFlag)
    || pc == Bump(ToFlag)
    || pc == WakeAll(ToFlag)
    || (pc.FlagSet? && (c.wakes ==> AllWokenIn(c, producers, body, steps, from)))
  }

  /** The consumer went through a sleep on the empty ring: it woke the producers, on a ring that wakes, and raised its
      flag. */
  ghost predicate RestedIn(c: Config, producers: nat, body: Msg, steps: seq<Step>, from: nat)
    requires Good(c)
  {
    && FlaggedIn(c, producers, body, steps, from)
    && (c.wakes ==> AllWokenIn(c, producers, body, steps, from))
  }

  /** A consumer told to sleep, on a ring it can sleep on, has done so since, or is on its way. */
  lemma {:induction false} RestIsTaken(c: Config, producers: nat, body: Msg, before: seq<Step>, after: seq<Step>)
    requires Plain(c) && !c.tombs && before <= after
    ensures var h, k := HeardIn(c, producers, body, before).consumer, HeardIn(c, producers, body, after).consumer;
      && h <= k
      && (CameIn(h, k, Asked(Nap)) ==>
            RestedIn(c, producers, body, after, |before|) || OnTheWay(c, producers, body, after, |before|))
    decreases |after|
  {
    hide Run, CameIn, Inv, RestedIn, OnTheWay, HeardIn, Hear;
    var h := HeardIn(c, producers, body, before).consumer;
    if before == after {
      ToldOne(h, h, h, Asked(Nap), Asked(Nap));
    } else {
      var mid, step := after[..|after| - 1], after[|after| - 1];
      RestIsTaken(c, producers, body, before, mid);
      assert mid + [step] == after;
      RestStays(c, producers, body, mid, step, |before|);
      var k, l := HeardIn(c, producers, body, mid).consumer, HeardIn(c, producers, body, after).consumer;
      ToldOne(h, k, l, if |l| > 0 then l[|l| - 1] else Asked(Go), Asked(Nap));
    }
  }

  lemma RestStays(c: Config, producers: nat, body: Msg, steps: seq<Step>, step: Step, from: nat)
    requires Plain(c) && !c.tombs && from <= |steps|
    ensures var k, l := HeardIn(c, producers, body, steps).consumer,
                        HeardIn(c, producers, body, steps + [step]).consumer;
      && (l == k || (l == k + [l[|l| - 1]] && (l[|l| - 1] == Asked(Nap) ==>
                       OnTheWay(c, producers, body, steps + [step], from))))
    ensures OnTheWay(c, producers, body, steps, from) ==>
      || OnTheWay(c, producers, body, steps + [step], from)
      || RestedIn(c, producers, body, steps + [step], from)
    ensures RestedIn(c, producers, body, steps, from) ==> RestedIn(c, producers, body, steps + [step], from)
  {
    hide Run, Inv, HeardIn, Next, WellShaped, AllWokenIn, FlaggedIn;
    RunNext(c, producers, body, steps, step);
    HeardNext(c, producers, body, steps, step);
    StillSo(c, producers, body, steps, steps + [step], 0, from, from);
    var s := Run(c, producers, body, steps);
    if step.ByConsumer? {
      RestsOn(c, producers, body, steps, step.ch, from);
    } else if step.i < |s.prods| {
      ProducerWakes(c, s, step.i, step.ch);
      ProducerNext(c, s, step.i, step.ch);
    } else {
      NobodyNext(c, s, step);
    }
  }

  lemma ProducerNext(c: Config, s: State, i: nat, ch: Choice)
    requires WellShaped(c, s) && i < |s.prods|
    ensures Next(c, s, ByProducer(i, ch)) == Produce(c, s, i, ch)
  {
  }

  lemma NobodyNext(c: Config, s: State, step: Step)
    requires WellShaped(c, s) && step.ByProducer? && step.i >= |s.prods|
    ensures Next(c, s, step) == s
  {
  }

  /** The consumer's own accesses on the way. */
  lemma RestsOn(c: Config, producers: nat, body: Msg, steps: seq<Step>, ch: Choice, from: nat)
    requires Plain(c) && !c.tombs && from <= |steps|
    ensures Run(c, producers, body, steps).core.cons.pc.Empty? && ch.Nap? ==>
      var pc := Run(c, producers, body, steps + [ByConsumer(ch)]).core.cons.pc;
      pc == if c.wakes then CheckLoad(ToFlag) else FlagSet
    ensures OnTheWay(c, producers, body, steps, from) ==>
      || OnTheWay(c, producers, body, steps + [ByConsumer(ch)], from)
      || RestedIn(c, producers, body, steps + [ByConsumer(ch)], from)
  {
    hide Run, Inv, HeardIn, WellShaped, AllWokenIn, FlaggedIn, ConsumeCore;
    RunNext(c, producers, body, steps, ByConsumer(ch));
    var s, after := Run(c, producers, body, steps), steps + [ByConsumer(ch)];
    StillSo(c, producers, body, steps, after, 0, from, from);
    RestMoves(c, s, ch);
    if s.core.cons.pc.FlagSet? {
      assert after[..|steps|] == steps;
      FlaggedNow(c, producers, body, after, from);
    } else if s.core.cons.pc == CheckLoad(ToFlag) || s.core.cons.pc == WakeAll(ToFlag) {
      if NobodySleeps(Run(c, producers, body, after).prods) {
        WokenNow(c, producers, body, after, from);
      }
    }
  }

  lemma FlaggedNow(c: Config, producers: nat, body: Msg, steps: seq<Step>, from: nat)
    requires Good(c) && from < |steps| && steps[|steps| - 1].ByConsumer?
    requires Run(c, producers, body, steps[..|steps| - 1]).core.cons.pc.FlagSet?
    ensures FlaggedIn(c, producers, body, steps, from)
  {
    hide Run;
  }

  lemma WokenNow(c: Config, producers: nat, body: Msg, steps: seq<Step>, from: nat)
    requires Good(c) && from <= |steps| && NobodySleeps(Run(c, producers, body, steps).prods)
    ensures AllWokenIn(c, producers, body, steps, from)
  {
    hide Run;
    assert steps[..|steps|] == steps;
  }

  /** A check that finds nobody counted in leaves nobody asleep, and one that wakes wakes everyone. */
  lemma RestMoves(c: Config, s: State, ch: Choice)
    requires Inv(c, s) && WellShaped(c, s)
    ensures var pc, t := s.core.cons.pc, Consume(c, s, ch);
      && (pc == CheckLoad(ToFlag) ==>
            t.core.cons.pc == Bump(ToFlag) || (t.core.cons.pc == FlagSet && NobodySleeps(t.prods)))
      && (pc == Bump(ToFlag) ==> t.core.cons.pc == WakeAll(ToFlag))
      && (pc == WakeAll(ToFlag) ==> t.core.cons.pc == FlagSet && NobodySleeps(t.prods))
      && (pc.Empty? && ch.Nap? && !c.tombs ==> t.core.cons.pc == if c.wakes then CheckLoad(ToFlag) else FlagSet)
  {
    hide Inv, Shape, PcShape, HandStep;
    if s.core.mem.waiters == 0 {
      NobodyIn(c, s);
    }
  }
}
