/** What the consumer is delivered: every run of the machine is a run of a first-in first-out queue of
    claims, consumer hand-offs and segment switches included. */
module Delivery {
  import opened Machine
  import opened Invariant
  import opened Runs
  import opened ProducerSteps
  import opened CommitProofs

  // ---------------------------------------------------------------- the claim log

  lemma {:induction false} LivePrefix(log: seq<Claimed>, a: nat, b: nat)
    requires a <= b <= |log|
    ensures Live(log, a) <= Live(log, b)
    decreases b
  {
    if a < b {
      LivePrefix(log, a, b - 1);
    }
  }

  /** Every live message is one claim's, with the messages before it those of the claims before. */
  lemma {:induction false} LiveEntry(log: seq<Claimed>, upto: nat, d: nat) returns (n: nat)
    requires upto <= |log| && d < |Live(log, upto)|
    ensures n < upto && log[n].msg == Live(log, upto)[d] && !log[n].fate.Dead?
    ensures |Live(log, n)| == d
    decreases upto
  {
    if log[upto - 1].fate.Dead? || d < |Live(log, upto - 1)| {
      n := LiveEntry(log, upto - 1, d);
    } else {
      n := upto - 1;
    }
  }

  lemma LogOf(c: Config, s: State)
    requires Inv(c, s)
    ensures Logged(s.core) && Delivered(s.core) && Ranged(s.core.g, |s.prods|)
  {
    hide Chained, Fronts, Ordered, Placed, Slots, Sealed, Bits, Placement, Holding, Flagged, Owed, Counted, Local,
         Ranged, Live;
  }

  /** The bodies the consumer read are, in order, the messages of the claims it has released: each once,
      none from a fill that unwound, and each producer's in the order it sent them. */
  lemma DeliveredInClaimOrder(c: Config, s: State)
    requires Reached(c, s)
    ensures s.core.g.head <= |s.core.g.log|
    ensures s.core.g.delivered == Live(s.core.g.log, s.core.g.head)
    ensures s.core.g.delivered <= Live(s.core.g.log, |s.core.g.log|)
    ensures forall a, b :: 0 <= a < b < |s.core.g.delivered| ==>
      && s.core.g.delivered[a] != s.core.g.delivered[b]
      && (s.core.g.delivered[a].pid == s.core.g.delivered[b].pid ==>
            s.core.g.delivered[a].n < s.core.g.delivered[b].n)
  {
    hide Inv, Reached, Ranged;
    var g := s.core.g;
    ReachedInv(c, s);
    LogOf(c, s);
    LivePrefix(g.log, g.head, |g.log|);
    forall a, b | 0 <= a < b < |g.delivered|
      ensures g.delivered[a] != g.delivered[b]
      ensures g.delivered[a].pid == g.delivered[b].pid ==> g.delivered[a].n < g.delivered[b].n
    {
      var m := LiveEntry(g.log, g.head, a);
      var n := LiveEntry(g.log, g.head, b);
      if n <= m {
        LivePrefix(g.log, n, m);
      }
    }
  }

  // ---------------------------------------------------------------- the queue

  datatype Entry = Entry(msg: Msg, fate: Fate)

  /** A first-in first-out queue: the claims so far, how many are released, and the messages read. */
  datatype Queue = Queue(entries: seq<Entry>, head: nat, read: seq<Msg>)

  datatype Event = Stutter | Claims(msg: Msg) | Settles(n: nat, fate: Fate) | Releases

  /** - A claim goes to the back, under a message never claimed before.
      - A claim not yet released is settled once, committed or dead.
      - Only the front is released, only when settled, and its message is read if it was committed. */
  ghost predicate QueueStep(q: Queue, e: Event, r: Queue) {
    match e
    case Stutter => r == q
    case Claims(msg) =>
      && (forall n :: 0 <= n < |q.entries| ==> q.entries[n].msg != msg)
      && r == q.(entries := q.entries + [Entry(msg, Filling)])
    case Settles(n, fate) =>
      && q.head <= n < |q.entries|
      && q.entries[n].fate == Filling
      && fate != Filling
      && r == q.(entries := q.entries[n := q.entries[n].(fate := fate)])
    case Releases =>
      && q.head < |q.entries|
      && q.entries[q.head].fate != Filling
      && r == q.(head := q.head + 1,
                 read := if q.entries[q.head].fate == Committed then q.read + [q.entries[q.head].msg] else q.read)
  }

  function Entries(log: seq<Claimed>): (r: seq<Entry>)
    ensures |r| == |log|
    ensures forall n :: 0 <= n < |log| ==> r[n] == Entry(log[n].msg, log[n].fate)
  {
    seq(|log|, n requires 0 <= n < |log| => Entry(log[n].msg, log[n].fate))
  }

  function QueueOf(g: Ghost): Queue {
    Queue(Entries(g.log), g.head, g.delivered)
  }

  /** What an access is to the queue: a won claim CAS claims, a commit or tombstone store settles that
      claim, the consumer's seq store releases the front, and every other access does nothing. */
  function EventOf(c: Config, s: State, step: Step): Event {
    match step
    case ByProducer(i, ch) =>
      if i >= |s.prods| then Stutter
      else if s.prods[i].pc.Cas? && !ch.Fail? && s.core.mem.claim == s.prods[i].pc.w then
        Claims(Msg(i, s.prods[i].n))
      else if s.prods[i].pc.Commit? || s.prods[i].pc.Tomb? then
        var n := EntryOf(c, s.core.g, i, s.prods[i].n);
        if n < 0 then Stutter else Settles(n, if s.prods[i].pc.Tomb? then Dead else Committed)
      else Stutter
    case ByConsumer(ch) => if s.core.cons.pc.Store? || s.core.cons.pc.Skip? then Releases else Stutter
  }

  /** The queue sees only the log, the head and the reads. */
  predicate SameQueue(g: Ghost, h: Ghost) {
    h.log == g.log && h.head == g.head && h.delivered == g.delivered
  }

  lemma QuietProducer(c: Config, s: State, i: nat, ch: Choice)
    requires WellShaped(c, s) && i < |s.prods| && !s.prods[i].pc.Commit? && !s.prods[i].pc.Tomb?
    requires EventOf(c, s, ByProducer(i, ch)) == Stutter
    ensures SameQueue(s.core.g, Produce(c, s, i, ch).core.g)
  {
    hide Shape, LowestFree, SeqAt, SetBody, SetSeq, EntryOf, AnyFree, Entries, CommitSlot;
  }

  lemma QuietConsumer(c: Config, s: State, ch: Choice)
    requires WellShaped(c, s) && EventOf(c, s, ByConsumer(ch)) == Stutter
    ensures SameQueue(s.core.g, Consume(c, s, ch).core.g)
  {
    hide PcShape, Shape, Entries, Here, ReadStep, HandStep;
    QuietReads(c, s.core, ch);
  }

  lemma QuietReads(c: Config, x: Core, ch: Choice)
    requires Shape(c, x) && !x.cons.pc.Store? && !x.cons.pc.Skip?
    ensures SameQueue(x.g, ReadStep(c, x, ch).g) && SameQueue(x.g, HandStep(c, x).g)
  {
    hide Shape, SeqAt, BodyAt, AtCheck;
  }

  lemma ClaimStep(c: Config, s: State, i: nat, ch: Choice)
    requires Plain(c) && Inv(c, s) && WellShaped(c, s) && i < |s.prods|
    requires EventOf(c, s, ByProducer(i, ch)).Claims?
    ensures QueueStep(QueueOf(s.core.g), Claims(Msg(i, s.prods[i].n)),
                      QueueOf(Next(c, s, ByProducer(i, ch)).core.g))
  {
    hide CoreInv, Inv, Ranged, WellShaped, Shape, Sends, Keeps, Owes, Owns, Naps, Wakes, Lags, PcShape, EntryOf,
         SwitchStep, NapStep, FillStep, LookStep;
    InvAt(c, s, i);
  }

  lemma SettleStep(c: Config, s: State, i: nat, ch: Choice)
    requires Plain(c) && Inv(c, s) && WellShaped(c, s) && i < |s.prods|
    requires s.prods[i].pc.Commit? || s.prods[i].pc.Tomb?
    ensures EventOf(c, s, ByProducer(i, ch)).Settles?
    ensures QueueStep(QueueOf(s.core.g), EventOf(c, s, ByProducer(i, ch)),
                      QueueOf(Next(c, s, ByProducer(i, ch)).core.g))
  {
    hide CoreInv, Inv, Ranged, WellShaped, Shape, Local, EntryOf, SwitchStep, NapStep, SendStep, CommitSlot,
         AtSlot, Committing, WriteBody, Rouse;
    var p := s.prods[i];
    var fate := if p.pc.Tomb? then Dead else Committed;
    InvAt(c, s, i);
    SlotReady(c, s.core, i, p);
    CommitReady(c, s.core, i, p, fate);
    CommitEntry(c, s.core, CommitSlot(c, s.core, p.pc.w, EntryOf(c, s.core.g, i, p.n), fate), i, p, fate);
  }

  lemma FrontIs(c: Config, s: State)
    requires Inv(c, s) && (s.core.cons.pc.Store? || s.core.cons.pc.Skip?)
    ensures var g := s.core.g;
      && g.head < |g.log|
      && (s.core.cons.pc.Skip? ==> g.log[g.head].fate == Dead)
      && (s.core.cons.pc.Store? ==> g.log[g.head].fate == Committed && s.core.cons.pc.got == g.log[g.head].msg)
  {
    hide RingInv, Placement, Flagged, Owed, Counted, Local, Ranged;
  }

  lemma ReleaseStep(c: Config, s: State, ch: Choice)
    requires Inv(c, s) && WellShaped(c, s) && (s.core.cons.pc.Store? || s.core.cons.pc.Skip?)
    ensures QueueStep(QueueOf(s.core.g), Releases, QueueOf(Next(c, s, ByConsumer(ch)).core.g))
  {
    hide Inv, WellShaped, Shape, SetSeq, AtCheck, RestStep, HandStep;
    FrontIs(c, s);
  }

  /** Every access of every run is one step of the queue: `EventOf` says which. */
  lemma RefinesQueue(c: Config, s: State, step: Step)
    requires Reached(c, s)
    ensures WellShaped(c, s)
    ensures QueueStep(QueueOf(s.core.g), EventOf(c, s, step), QueueOf(Next(c, s, step).core.g))
  {
    hide Inv, Reached, WellShaped, Next, EventOf, QueueStep;
    ReachedInv(c, s);
    match step
    case ByProducer(i, ch) =>
      if i < |s.prods| && (s.prods[i].pc.Commit? || s.prods[i].pc.Tomb?) {
        SettleStep(c, s, i, ch);
      } else {
        OneEvent(c, s, step);
        if EventOf(c, s, step).Claims? {
          ClaimStep(c, s, i, ch);
        } else {
          QuietStep(c, s, step);
        }
      }
    case ByConsumer(ch) =>
      OneEvent(c, s, step);
      if s.core.cons.pc.Store? || s.core.cons.pc.Skip? {
        ReleaseStep(c, s, ch);
      } else {
        QuietStep(c, s, step);
      }
  }

  lemma OneEvent(c: Config, s: State, step: Step)
    requires step.ByProducer? && step.i < |s.prods| ==> !s.prods[step.i].pc.Commit? && !s.prods[step.i].pc.Tomb?
    ensures var e := EventOf(c, s, step);
      match step
      case ByProducer(i, _) => e == Stutter || (i < |s.prods| && e == Claims(Msg(i, s.prods[i].n)))
      case ByConsumer(_) => e == if s.core.cons.pc.Store? || s.core.cons.pc.Skip? then Releases else Stutter
  {
  }

  lemma QuietStep(c: Config, s: State, step: Step)
    requires WellShaped(c, s) && EventOf(c, s, step) == Stutter
    requires step.ByProducer? && step.i < |s.prods| ==> !s.prods[step.i].pc.Commit? && !s.prods[step.i].pc.Tomb?
    ensures QueueStep(QueueOf(s.core.g), Stutter, QueueOf(Next(c, s, step).core.g))
  {
    hide WellShaped, EventOf, Produce, Consume;
    match step
    case ByProducer(i, ch) => if i < |s.prods| { QuietProducer(c, s, i, ch); }
    case ByConsumer(ch) => QuietConsumer(c, s, ch);
  }

  // ---------------------------------------------------------------- hand-off

  /** The role between two handles: its state being stored, the role free, or its state being loaded. */
  predicate Handing(pc: ConsPc) {
    || pc.SaveResume? || pc.SaveCur? || pc.SavePos? || pc.RoleClear? || pc.Gone? || pc.LoadCur? || pc.LoadResume?
    || pc.LoadPos?
  }

  /** What the consumer has done to the ring: which segment it is in and how far it read each. */
  predicate SamePlace(g: Ghost, h: Ghost) {
    && h.rd == g.rd
    && |g.chain| >= 1
    && |h.chain| >= 1
    && h.chain[0] == g.chain[0]
    && h.head == g.head
    && h.delivered == g.delivered
  }

  lemma ProducerPlace(c: Config, s: State, i: nat, ch: Choice)
    requires WellShaped(c, s) && i < |s.prods| && |s.core.g.chain| >= 1
    ensures SamePlace(s.core.g, Produce(c, s, i, ch).core.g)
  {
    hide Shape, LowestFree, SeqAt, AnyFree, NapStep, FillStep;
    NapPlace(c, s, i, ch);
  }

  lemma NapPlace(c: Config, s: State, i: nat, ch: Choice)
    requires WellShaped(c, s) && i < |s.prods| && |s.core.g.chain| >= 1
    ensures SamePlace(s.core.g, NapStep(c, s, i, ch).core.g)
    ensures SamePlace(s.core.g, FillStep(c, s, i, ch).core.g)
  {
    hide Shape, SeqAt, AnyFree, SetBody, SetSeq, EntryOf;
  }

  lemma HandingPlace(c: Config, s: State, ch: Choice)
    requires WellShaped(c, s) && |s.core.g.chain| >= 1
    requires Handing(s.core.cons.pc) || s.core.cons.pc.Ready?
    ensures SamePlace(s.core.g, Consume(c, s, ch).core.g)
  {
    hide PcShape, Shape, SeqAt, BodyAt, SetSeq, AtCheck, Entries, FreeSlot, Here;
  }

  lemma ChainOf(c: Config, s: State)
    requires Inv(c, s)
    ensures |s.core.g.chain| >= 1
  {
    hide Ordered, Placed, Slots, Sealed, Bits, Logged, Delivered, Placement, Holding, Flagged, Owed, Counted,
         Local, Ranged;
  }

  /** While the role passes from handle to handle the producers go on, and the consumer's place stays. */
  lemma {:induction false} PlaceKept(c: Config, s: State, steps: seq<Step>)
    requires Plain(c) && Inv(c, s)
    requires forall n :: 0 <= n <= |steps| ==>
      var pc := Exec(c, s, steps[..n]).core.cons.pc; pc.Ready? || Handing(pc)
    ensures SamePlace(s.core.g, Exec(c, s, steps).core.g)
    decreases |steps|
  {
    hide Inv, Produce, Consume;
    ChainOf(c, s);
    if steps != [] {
      var m := |steps| - 1;
      var r := Exec(c, s, steps[..m]);
      forall n | 0 <= n <= m
        ensures steps[..m][..n] == steps[..n]
      {
      }
      PlaceKept(c, s, steps[..m]);
      assert steps[..m + 1] == steps;
      ExecInv(c, s, steps[..m]);
      ChainOf(c, r);
      match steps[m]
      case ByProducer(i, ch) => if i < |r.prods| { ProducerPlace(c, r, i, ch); }
      case ByConsumer(ch) => HandingPlace(c, r, ch);
    }
  }

  lemma PlaceOfReady(c: Config, s: State)
    requires Inv(c, s) && s.core.cons.pc.Ready?
    ensures var x := s.core;
      && |x.g.chain| >= 1
      && |x.cons.resume| == |x.g.rd| == c.segs
      && x.cons.cur < c.segs
      && x.cons.cur == x.g.chain[0]
      && x.cons.pos == x.g.rd[x.cons.cur]
      && forall k :: 0 <= k < c.segs && k != x.cons.cur ==> x.cons.resume[k] == x.g.rd[k]
  {
    hide Ordered, Placed, Slots, Sealed, Bits, Logged, Delivered, Holding, Flagged, Owed, Counted, Local, Ranged;
  }

  /** A consumer that takes the role over stands exactly where the last one stood: the same segment, the
      same position, every other segment's resume position, and nothing read or released between them,
      whatever the producers did meanwhile and however often the role changed hands. */
  lemma HandOffExact(c: Config, s: State, steps: seq<Step>)
    requires Plain(c) && Inv(c, s)
    requires s.core.cons.pc.Ready? && Exec(c, s, steps).core.cons.pc.Ready?
    requires forall n :: 0 <= n <= |steps| ==>
      var pc := Exec(c, s, steps[..n]).core.cons.pc; pc.Ready? || Handing(pc)
    ensures var x, y := s.core, Exec(c, s, steps).core;
      && y.cons.cur == x.cons.cur
      && y.cons.pos == x.cons.pos
      && |y.cons.resume| == |x.cons.resume| == c.segs
      && (forall k :: 0 <= k < c.segs && k != x.cons.cur ==> y.cons.resume[k] == x.cons.resume[k])
      && y.g.delivered == x.g.delivered
      && y.g.head == x.g.head
  {
    hide Inv, Exec;
    PlaceKept(c, s, steps);
    PlaceOfReady(c, s);
    ExecInv(c, s, steps);
    PlaceOfReady(c, Exec(c, s, steps));
  }
}
