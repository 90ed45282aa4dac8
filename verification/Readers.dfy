/** The consumer's handle: where it reads, what it knows of the other segments, and the accesses its
    calls make to the ring, between which the producers do as they please. */
module Readers {
  import opened Laps
  import opened Machine
  import opened Invariant
  import opened Runs
  import opened ProducerSteps
  import opened Asides
  import opened Arrivals
  import opened Outside
  import opened Rings

  class Reader {
    const ring: Ring
    var cur: nat
    var pos: nat
    const resume: array<nat>
    var switches: nat

    /** The handle is the machine's consumer, at `pc`, with `read` the messages read so far. */
    ghost predicate At(pc: ConsPc, read: seq<Msg>)
      reads this, resume, ring`steps
    {
      && resume.Length == ring.cfg.segs
      && resume != ring.savedResume
      && ring.Now().core.cons == Consumer(pc, cur, pos, resume[..], switches)
      && ring.Now().core.g.delivered == read
    }

    /** The handle while its state is loaded: what is loaded is the machine's. */
    ghost predicate Loading(pc: ConsPc, upto: nat, read: seq<Msg>)
      reads this, resume, ring`steps
    {
      && resume.Length == ring.cfg.segs
      && resume != ring.savedResume
      && ring.Now().core.g.delivered == read
      && var cons := ring.Now().core.cons;
      && cons.pc == pc
      && cons.cur == cur
      && cons.switches == switches
      && |cons.resume| == ring.cfg.segs
      && upto <= ring.cfg.segs
      && forall k :: 0 <= k < upto ==> cons.resume[k] == resume[k]
    }

    /** Take the free role over: continue from the checkpoint the last consumer left, or from the ring's
        start. */
    constructor (ring: Ring, ghost read: seq<Msg>)
      requires ring.Valid() && ring.Now().core.cons.pc == Gone && ring.Now().core.g.delivered == read
      modifies ring, ring.seqs, ring.bodies, ring.seals, ring.savedResume
      ensures this.ring == ring && fresh(resume)
      ensures ring.Valid() && At(Ready, read)
      ensures old(ring.steps) <= ring.steps && ring.turns <= old(ring.turns)
    {
      hide *;
      this.ring := ring;
      cur, pos, switches := 0, 0, 0;
      resume := new nat[ring.cfg.segs];
      new;
      HasSlots(ring.cfg);
      LoadCurOf(read);
      var j := 0;
      while j < ring.cfg.segs
        invariant ring.Valid() && j <= ring.cfg.segs && resume.Length == ring.cfg.segs
        invariant Loading(if j < ring.cfg.segs then LoadResume(j) else LoadPos, j, read)
        invariant old(ring.steps) <= ring.steps && ring.turns <= old(ring.turns)
      {
        YieldLoading(LoadResume(j), j, read);
        LoadResumeOf(j, read);
        j := j + 1;
      }
      YieldLoading(LoadPos, j, read);
      LoadPosOf(read);
    }

    method YieldLoading(pc: ConsPc, upto: nat, ghost read: seq<Msg>)
      requires ring.Valid() && Loading(pc, upto, read) && !pc.Sleeping?
      modifies ring, ring.seqs, ring.bodies, ring.seals, ring.savedResume
      ensures ring.Valid() && Loading(pc, upto, read)
      ensures old(ring.steps) <= ring.steps && ring.turns <= old(ring.turns)
    {
      hide Inv, Run;
      Others();
      ProducersLeave(ring.cfg, ring.producers, ring.body, old(ring.steps), ring.steps);
    }

    /** The role claimed, and the checkpoint's segment loaded. A checkpoint that named no segment would
        leave the role free; none ever does. */
    method LoadCurOf(ghost read: seq<Msg>)
      requires ring.Valid() && ring.Now().core.cons.pc == Gone && ring.Now().core.g.delivered == read
      requires resume.Length == ring.cfg.segs && resume != ring.savedResume && switches == 0
      modifies ring, ring.seqs, ring.bodies, ring.seals, ring.savedResume, this
      ensures ring.Valid() && Loading(LoadResume(0), 0, read)
      ensures old(ring.steps) <= ring.steps && ring.turns <= old(ring.turns)
    {
      hide Inv, Run, PcShape, HeardIn, Coming;
      InvShape(ring.cfg, ring.Now());
      ring.Advance(ByConsumer(Go));
      Others();
      ProducersLeave(ring.cfg, ring.producers, ring.body, old(ring.steps) + [ByConsumer(Go)], ring.steps);
      InvShape(ring.cfg, ring.Now());
      CheckpointIsGood(ring.cfg, ring.Now());
      cur := ring.savedCur;
      ring.Advance(ByConsumer(Go));
    }

    method LoadResumeOf(j: nat, ghost read: seq<Msg>)
      requires ring.Valid() && Loading(LoadResume(j), j, read) && j < ring.cfg.segs && resume.Length == ring.cfg.segs
      modifies ring`steps, resume
      ensures ring.Valid() && Loading(if j + 1 < ring.cfg.segs then LoadResume(j + 1) else LoadPos, j + 1, read)
      ensures ring.steps == old(ring.steps) + [ByConsumer(Go)]
    {
      hide Inv, Run, PcShape, HeardIn, Coming;
      InvShape(ring.cfg, ring.Now());
      resume[j] := ring.savedResume[j];
      ring.Advance(ByConsumer(Go));
    }

    method LoadPosOf(ghost read: seq<Msg>)
      requires ring.Valid() && Loading(LoadPos, ring.cfg.segs, read) && resume.Length == ring.cfg.segs
      modifies ring`steps, this`pos
      ensures ring.Valid() && At(Ready, read) && ring.steps == old(ring.steps) + [ByConsumer(Go)]
    {
      hide Inv, Run, PcShape, HeardIn, Coming;
      InvShape(ring.cfg, ring.Now());
      pos := ring.savedPos;
      ring.Advance(ByConsumer(Go));
    }

    /** What was claimed, released and linked so far. */
    ghost function Books(): Ghost
      reads ring`steps
    {
      ring.Now().core.g
    }

    /** What the consumer heard so far. */
    ghost function Told(): seq<Cue>
      reads ring`heard
    {
      ring.heard.consumer
    }

    /** At some moment since the first `from` accesses no producer was asleep. */
    ghost predicate Woken(from: nat)
      reads ring`steps
    {
      AllWokenIn(ring.cfg, ring.producers, ring.body, ring.steps, from)
    }

    /** The consumer was asleep since. */
    ghost predicate Dozed(from: nat)
      reads ring`steps
    {
      DozedIn(ring.cfg, ring.producers, ring.body, ring.steps, from)
    }

    /** The consumer went through a sleep on the empty ring since: it raised its flag, and before that woke the
        producers, on a ring that wakes. */
    ghost predicate Rested(from: nat)
      reads ring`steps
    {
      RestedIn(ring.cfg, ring.producers, ring.body, ring.steps, from)
    }

    /** What has been since `since` has been since `from`. */
    lemma BeenSo(before: seq<Step>, since: nat, from: nat)
      requires before <= ring.steps && from <= since
      ensures AllWokenIn(ring.cfg, ring.producers, ring.body, before, since) ==> Woken(from)
      ensures DozedIn(ring.cfg, ring.producers, ring.body, before, since) ==> Dozed(from)
      ensures before == ring.steps && Woken(since) ==> Woken(from)
      ensures before == ring.steps && Dozed(since) ==> Dozed(from)
    {
      hide AllWokenIn, DozedIn, FlaggedIn;
      StillSo(ring.cfg, ring.producers, ring.body, before, ring.steps, 0, since, from);
    }

    /** What has been so far, said of the accesses so far. */
    lemma BeenThen(from: nat)
      ensures Woken(from) == AllWokenIn(ring.cfg, ring.producers, ring.body, ring.steps, from)
      ensures Dozed(from) == DozedIn(ring.cfg, ring.producers, ring.body, ring.steps, from)
    {
      hide AllWokenIn, DozedIn;
    }

    /** The producers make some accesses. */
    method Others()
      requires ring.Valid()
      modifies ring, ring.seqs, ring.bodies, ring.seals, ring.savedResume
      ensures ring.Valid()
      ensures old(ring.steps) <= ring.steps
      ensures forall n :: |old(ring.steps)| <= n < |ring.steps| ==> ring.steps[n].ByProducer?
      ensures ring.turns + |ring.steps| <= old(ring.turns) + |old(ring.steps)|
    {
    }

    /** The producers' turn: this consumer stays where it is, and with no turn taken so does the ring. */
    method Yield(ghost pc: ConsPc, ghost read: seq<Msg>)
      requires ring.Valid() && At(pc, read) && !pc.Sleeping?
      modifies ring, ring.seqs, ring.bodies, ring.seals, ring.savedResume
      ensures ring.Valid() && At(pc, read)
      ensures old(ring.steps) <= ring.steps && ring.turns <= old(ring.turns)
      ensures ring.turns == old(ring.turns) ==>
        && ring.steps == old(ring.steps)
        && Books() == old(Books())
        && ring.claim == old(ring.claim)
      ensures Told() == old(Told())
    {
      hide Inv, Run, HeardIn;
      Others();
      ProducersLeave(ring.cfg, ring.producers, ring.body, old(ring.steps), ring.steps);
      ProducersHeard(ring.cfg, ring.producers, ring.body, old(ring.steps), ring.steps);
    }

    // ---------------------------------------------------------------- reserve

    method StartLook(ghost read: seq<Msg>)
      requires ring.Valid() && At(Ready, read)
      modifies ring`steps
      ensures ring.Valid() && At(SlotLook, read) && ring.steps == old(ring.steps) + [ByConsumer(Go)]
      ensures Books() == old(Books())
    {
      hide Inv, Run, Shape, PcShape, HeardIn, Coming;
      InvShape(ring.cfg, ring.Now());
      ring.Advance(ByConsumer(Go));
    }

    /** The look at the slot: committed, a tombstone, or neither. */
    method LookSlot(ghost read: seq<Msg>) returns (committed: bool, tomb: bool)
      requires ring.Valid() && At(SlotLook, read)
      modifies ring`steps
      ensures ring.Valid() && ring.steps == old(ring.steps) + [ByConsumer(Go)]
      ensures At(if committed then Hold else if tomb then Skip else if ring.cfg.multi then SealLook else Empty, read)
      ensures cur < ring.cfg.segs
      ensures Books() == old(Books())
      ensures !committed && !tomb ==> Stuck(Books(), cur)
      ensures !committed && !tomb && !ring.cfg.multi ==> Blocked(Books(), cur)
    {
      hide Inv, Run, PcShape, Stuck, Blocked, HeardIn, Coming;
      InvShape(ring.cfg, ring.Now());
      SlotNotReady(ring.cfg, ring.Now());
      if !ring.cfg.multi && Stuck(ring.Now().core.g, cur) {
        SealNotThere(ring.cfg, ring.Now());
      }
      var v := ring.seqs[cur, Slot(pos, ring.cfg.depth)];
      assert v == SeqAt(ring.cfg, ring.Now().core.mem, cur, pos);
      committed := v == CommittedAt(ring.cfg, pos);
      tomb := !committed && ring.cfg.tombs && v == TombAt(ring.cfg, pos);
      ring.Advance(ByConsumer(Go));
    }

    /** The look at the segment's seal: whether the segment ends here, and what follows it. */
    method LookSeal(ghost read: seq<Msg>) returns (ended: bool, k: nat)
      requires ring.Valid() && At(SealLook, read) && cur < ring.seals.Length
      modifies ring`steps
      ensures ring.Valid() && ring.steps == old(ring.steps) + [ByConsumer(Go)]
      ensures At(if ended then GiveBack(k) else Empty, read)
      ensures ended ==> k < ring.cfg.segs
      ensures Books() == old(Books())
      ensures !ended && old(Stuck(Books(), cur)) ==> Blocked(Books(), cur)
    {
      hide Inv, Run, Shape, PcShape, Stuck, Blocked, HeardIn, Coming;
      InvShape(ring.cfg, ring.Now());
      if Stuck(ring.Now().core.g, cur) {
        SealNotThere(ring.cfg, ring.Now());
      }
      var seal := ring.seals[cur];
      ended, k := seal.moved && seal.pos == pos && seal.seg < ring.cfg.segs, seal.seg;
      ring.Advance(ByConsumer(Go));
    }

    /** The ended segment given back, and the next one entered where it was left. */
    method Enter(ghost read: seq<Msg>, k: nat)
      requires ring.Valid() && At(GiveBack(k), read) && k < ring.cfg.segs && cur < ring.cfg.segs
      modifies ring`steps, ring`inUse, this, resume
      ensures ring.Valid() && ring.steps == old(ring.steps) + [ByConsumer(Go)]
      ensures At(if ring.cfg.wakes then CheckLoad(ToLook) else SlotLook, read)
      ensures LeftOf(Books()) < old(LeftOf(Books())) && Coming(Books()) == old(Coming(Books()))
      ensures switches == old(switches) + 1
    {
      hide Inv, Run, PcShape, HeardIn, Coming;
      MoreLeft(ring.cfg, ring.Now());
      InvShape(ring.cfg, ring.Now());
      FollowComing(ring.cfg, ring.Now());
      resume[cur] := pos;
      ring.inUse := ring.inUse - {cur};
      cur := k;
      pos := resume[k];
      switches := switches + 1;
      ring.Advance(ByConsumer(Go));
    }

    /** The policy's answer at an empty ring acted on. */
    method Answered(ghost read: seq<Msg>, answer: Answer)
      requires ring.Valid() && At(Empty, read) && (answer.NapFirst? ==> !ring.cfg.tombs)
      modifies ring`steps, ring`heard
      ensures ring.Valid() && ring.steps == old(ring.steps) + [ByConsumer(ChoiceOf(answer))]
      ensures At(match answer
                 case Stop => Ready
                 case Again => SlotLook
                 case NapFirst => if ring.cfg.wakes then CheckLoad(ToFlag) else FlagSet, read)
      ensures Told() == old(Told()) + [Asked(ChoiceOf(answer))]
      ensures Books() == old(Books())
    {
      hide Inv, Run, Shape, PcShape, HeardIn, Coming;
      InvShape(ring.cfg, ring.Now());
      ring.heard := TellConsumer(ring.heard, Asked(ChoiceOf(answer)));
      ring.Advance(ByConsumer(ChoiceOf(answer)));
    }

    /** A tombstone released: nothing is read, and the front of the claims moves on. */
    method SkipTomb(ghost read: seq<Msg>)
      requires ring.Valid() && At(Skip, read) && cur < ring.cfg.segs
      modifies ring`steps, ring.seqs, this`pos
      ensures ring.Valid() && At(SlotLook, read)
      ensures ring.steps == old(ring.steps) + [ByConsumer(Go)]
      ensures LeftOf(Books()) < old(LeftOf(Books())) && Coming(Books()) == old(Coming(Books()))
    {
      hide Inv, Run, PcShape, HeardIn, Coming;
      InvShape(ring.cfg, ring.Now());
      SkipComing(ring.cfg, ring.Now());
      MoreLeft(ring.cfg, ring.Now());
      InvShape(ring.cfg, ring.Now());
      ring.seqs[cur, Slot(pos, ring.cfg.depth)] := ReleasedAt(ring.cfg, pos);
      pos := SeqOf(ring.cfg, pos + 1);
      ring.Advance(ByConsumer(Go));
    }

    // ---------------------------------------------------------------- release

    /** The message of the reserved slot, in place: that of the first claim not yet released. */
    method Deref(ghost read: seq<Msg>) returns (msg: Msg)
      requires ring.Valid() && At(Hold, read)
      ensures ring.Now().core.g.head < |ring.Now().core.g.log|
      ensures ring.Now().core.g.log[ring.Now().core.g.head].fate == Committed
      ensures msg == ring.Now().core.g.log[ring.Now().core.g.head].msg == Front(ring.Now().core.g)
    {
      hide Inv, Run, PcShape, HeardIn, Coming;
      InvShape(ring.cfg, ring.Now());
      BodyIsFront(ring.cfg, ring.Now());
      msg := ring.bodies[cur, Slot(pos, ring.cfg.depth)];
    }

    /** The position moved on, private state, before the slot is freed. */
    method MoveOn(ghost read: seq<Msg>) returns (c: nat, ghost msg: Msg)
      requires ring.Valid() && At(Hold, read)
      modifies ring`steps, this`pos
      ensures ring.Valid() && At(Store(c, msg), read) && ring.steps == old(ring.steps) + [ByConsumer(Go)]
      ensures msg == Front(old(ring.Now()).core.g)
      ensures cur < ring.cfg.segs && pos == c + 1 && c == old(pos)
    {
      hide Inv, Run, PcShape, HeardIn, Coming;
      InvShape(ring.cfg, ring.Now());
      BodyIsFront(ring.cfg, ring.Now());
      c := pos;
      msg := Front(ring.Now().core.g);
      pos := SeqOf(ring.cfg, pos + 1);
      ring.Advance(ByConsumer(Go));
    }

    method FreeSlotAt(ghost read: seq<Msg>, c: nat, ghost msg: Msg) returns (check: bool)
      requires ring.Valid() && At(Store(c, msg), read) && cur < ring.cfg.segs
      modifies ring`steps, ring.seqs
      ensures ring.Valid() && At(if check then CheckLoad(ToReady) else Ready, read + [msg])
      ensures ring.steps == old(ring.steps) + [ByConsumer(Go)]
      ensures check == (ring.cfg.wakes && AtCheck(ring.cfg, pos))
    {
      hide Inv, Run, PcShape, HeardIn, Coming;
      InvShape(ring.cfg, ring.Now());
      ring.seqs[cur, Slot(c, ring.cfg.depth)] := ReleasedAt(ring.cfg, c);
      check := ring.cfg.wakes && AtCheck(ring.cfg, pos);
      ring.Advance(ByConsumer(Go));
    }

    // ---------------------------------------------------------------- wake producers, sleep on an empty ring

    method LoadWaiters(ghost read: seq<Msg>, ghost next: After) returns (any: bool)
      requires ring.Valid() && At(CheckLoad(next), read)
      modifies ring`steps
      ensures ring.Valid() && At(if any then Bump(next) else Onward(next), read)
      ensures ring.steps == old(ring.steps) + [ByConsumer(Go)]
      ensures !any ==> Woken(|old(ring.steps)|)
      ensures Books() == old(Books())
    {
      hide Inv, Run, Shape, PcShape, HeardIn, Coming;
      InvShape(ring.cfg, ring.Now());
      any := ring.waiters != 0;
      ring.Advance(ByConsumer(Go));
      if !any {
        NobodyIn(ring.cfg, ring.Now());
        WokenNow(|old(ring.steps)|);
      }
    }

    method BumpWake(ghost read: seq<Msg>, ghost next: After)
      requires ring.Valid() && At(Bump(next), read)
      modifies ring`steps, ring`wake
      ensures ring.Valid() && At(WakeAll(next), read) && ring.steps == old(ring.steps) + [ByConsumer(Go)]
      ensures Books() == old(Books())
    {
      hide Inv, Run, Shape, PcShape, HeardIn, Coming;
      InvShape(ring.cfg, ring.Now());
      ring.wake := ring.wake + 1;
      ring.Advance(ByConsumer(Go));
    }

    /** The futex wake: every producer asleep goes on. */
    method WakeThem(ghost read: seq<Msg>, ghost next: After)
      requires ring.Valid() && At(WakeAll(next), read)
      modifies ring`steps
      ensures ring.Valid() && At(Onward(next), read) && ring.steps == old(ring.steps) + [ByConsumer(Go)]
      ensures forall i :: 0 <= i < ring.producers ==> !ring.Now().prods[i].pc.Asleep?
      ensures Woken(|old(ring.steps)|)
      ensures Books() == old(Books())
    {
      hide Inv, Run, Shape, PcShape, HeardIn, Coming;
      InvShape(ring.cfg, ring.Now());
      ring.Advance(ByConsumer(Go));
      WokenNow(|old(ring.steps)|);
    }

    lemma WokenNow(from: nat)
      requires from <= |ring.steps| && forall i :: 0 <= i < ring.producers ==> !ring.Now().prods[i].pc.Asleep?
      ensures Woken(from)
    {
      hide Run, Inv, HeardIn;
      assert ring.steps[..|ring.steps|] == ring.steps;
      assert NobodySleeps(ring.Now().prods);
      assert NobodySleeps(Run(ring.cfg, ring.producers, ring.body, ring.steps[..|ring.steps|]).prods);
    }

    lemma DozedNow(from: nat)
      requires from <= |ring.steps| && ring.Now().core.cons.pc.Sleeping?
      ensures Dozed(from)
    {
      hide Run, Inv;
      assert ring.steps[..|ring.steps|] == ring.steps;
    }

    /** Wake the producers asleep on a full ring, if any is counted in: whoever was asleep is woken. */
    method WakeProducers(ghost read: seq<Msg>, ghost next: After)
      requires ring.Valid() && At(CheckLoad(next), read)
      modifies ring, ring.seqs, ring.bodies, ring.seals, ring.savedResume
      ensures ring.Valid() && At(Onward(next), read)
      ensures old(ring.steps) <= ring.steps && ring.turns <= old(ring.turns)
      ensures ring.turns == old(ring.turns) ==>
        Books() == old(Books()) && ring.claim == old(ring.claim)
      ensures Told() == old(Told()) && Woken(|old(ring.steps)|)
    {
      hide *;
      ghost var from := |ring.steps|;
      Yield(CheckLoad(next), read);
      ghost var since := |ring.steps|;
      var any := LoadWaiters(read, next);
      if any {
        Yield(Bump(next), read);
        BumpWake(read, next);
        Yield(WakeAll(next), read);
        since := |ring.steps|;
        WakeThem(read, next);
      }
      BeenSo(ring.steps, since, from);
    }

    /** The waiting flag set, and whether the claim word, flag aside, still names this place. */
    method SetFlag(ghost read: seq<Msg>) returns (here: bool, val: Word)
      requires ring.Valid() && At(FlagSet, read)
      modifies ring`steps, ring`claim
      ensures ring.Valid() && At(if here then Sleep(val) else FlagClear, read)
      ensures ring.steps == old(ring.steps) + [ByConsumer(Go)]
      ensures here == Here(ring.cfg, old(ring.claim), cur, pos) && val == ring.claim
      ensures Books() == old(Books())
    {
      hide Inv, Run, Shape, PcShape, HeardIn, Coming;
      InvShape(ring.cfg, ring.Now());
      var prev := ring.claim;
      val := prev.(waiting := true);
      ring.claim := val;
      here := if ring.cfg.multi then prev.seg == cur && prev.pos == pos else prev.pos == pos;
      ring.Advance(ByConsumer(Go));
    }

    /** A futex wait on the claim word: it returns at once if the word has moved, and else at a producer's
        wake or at a timeout. */
    method FutexWait(ghost read: seq<Msg>, val: Word)
      requires ring.Valid() && At(Sleep(val), read)
      modifies ring, ring.seqs, ring.bodies, ring.seals, ring.savedResume
      ensures ring.Valid() && At(FlagClear, read)
      ensures old(ring.steps) <= ring.steps && ring.turns <= old(ring.turns)
      ensures Told() == old(Told())
      ensures ring.cfg.wakes && old(ring.claim) == val ==> Dozed(|old(ring.steps)|)
      ensures ring.turns == old(ring.turns) ==> Books() == old(Books())
    {
      hide *;
      ghost var from := |ring.steps|;
      var sleeps := CompareAndSleep(read, val);
      if sleeps {
        ghost var since := |ring.steps|;
        Slumber(read);
        BeenSo(ring.steps, since, from);
      }
    }

    method CompareAndSleep(ghost read: seq<Msg>, val: Word) returns (sleeps: bool)
      requires ring.Valid() && At(Sleep(val), read)
      modifies ring`steps
      ensures ring.Valid() && At(if sleeps then Sleeping else FlagClear, read)
      ensures sleeps == (ring.cfg.wakes && ring.claim == val)
      ensures ring.steps == old(ring.steps) + [ByConsumer(Go)]
      ensures Books() == old(Books())
    {
      hide Inv, Run, Shape, PcShape, HeardIn, Coming;
      InvShape(ring.cfg, ring.Now());
      sleeps := ring.cfg.wakes && ring.claim == val;
      ring.Advance(ByConsumer(Go));
    }

    method Slumber(ghost read: seq<Msg>)
      requires ring.Valid() && At(Sleeping, read)
      modifies ring, ring.seqs, ring.bodies, ring.seals, ring.savedResume
      ensures ring.Valid() && At(FlagClear, read)
      ensures old(ring.steps) <= ring.steps && ring.turns <= old(ring.turns)
      ensures Told() == old(Told()) && Dozed(|old(ring.steps)|)
      ensures ring.turns == old(ring.turns) ==> Books() == old(Books())
    {
      hide Inv, Run, Shape, PcShape, HeardIn, DozedIn;
      ghost var before := ring.steps;
      DozedNow(|before|);
      Others();
      assert ring.turns == old(ring.turns) ==> ring.steps == before;
      ProducersLeave(ring.cfg, ring.producers, ring.body, before, ring.steps);
      ProducersHeard(ring.cfg, ring.producers, ring.body, before, ring.steps);
      if ring.Now().core.cons.pc.Sleeping? {
        TimeOut(read);
      }
      BeenSo(before, |before|, |before|);
    }

    /** A sleep ends at a timeout. */
    ghost method TimeOut(read: seq<Msg>)
      requires ring.Valid() && At(Sleeping, read)
      modifies ring`steps
      ensures ring.Valid() && At(FlagClear, read) && ring.steps == old(ring.steps) + [ByConsumer(Fail)]
      ensures Books() == old(Books())
    {
      hide Inv, Run, Shape, PcShape, HeardIn;
      InvShape(ring.cfg, ring.Now());
      ring.Advance(ByConsumer(Fail));
    }

    method ClearFlag(ghost read: seq<Msg>)
      requires ring.Valid() && At(FlagClear, read)
      modifies ring`steps, ring`claim
      ensures ring.Valid() && At(Empty, read) && ring.steps == old(ring.steps) + [ByConsumer(Go)]
      ensures Books() == old(Books())
    {
      hide Inv, Run, Shape, PcShape, HeardIn, Coming;
      InvShape(ring.cfg, ring.Now());
      ring.claim := ring.claim.(waiting := false);
      ring.Advance(ByConsumer(Go));
    }

    /** Sleep on an empty ring: wake the producers, every one of them asleep, raise the flag, sleep only while the
        claim word still names this place, as it does undisturbed where it names it now, and lower the flag. */
    method SleepEmpty(ghost read: seq<Msg>)
      requires ring.Valid() && At(if ring.cfg.wakes then CheckLoad(ToFlag) else FlagSet, read)
      modifies ring, ring.seqs, ring.bodies, ring.seals, ring.savedResume
      ensures ring.Valid() && At(Empty, read)
      ensures old(ring.steps) <= ring.steps && ring.turns <= old(ring.turns)
      ensures Told() == old(Told())
      ensures ring.cfg.wakes ==> Woken(|old(ring.steps)|)
      ensures ring.cfg.wakes && ring.turns == old(ring.turns) && Here(ring.cfg, old(ring.claim), cur, pos) ==>
        Dozed(|old(ring.steps)|)
      ensures ring.turns == old(ring.turns) ==> Books() == old(Books())
    {
      hide *;
      ghost var from := |ring.steps|;
      if ring.cfg.wakes {
        WakeProducers(read, ToFlag);
        ToFlagOn();
        BeenThen(from);
      }
      ghost var before := ring.steps;
      SleepFlagged(read);
      BeenSo(before, from, from);
      BeenSo(ring.steps, |before|, from);
    }

    method SleepFlagged(ghost read: seq<Msg>)
      requires ring.Valid() && At(FlagSet, read)
      modifies ring, ring.seqs, ring.bodies, ring.seals, ring.savedResume
      ensures ring.Valid() && At(Empty, read)
      ensures old(ring.steps) <= ring.steps && ring.turns <= old(ring.turns)
      ensures Told() == old(Told())
      ensures ring.cfg.wakes && ring.turns == old(ring.turns) && Here(ring.cfg, old(ring.claim), cur, pos) ==>
        Dozed(|old(ring.steps)|)
      ensures ring.turns == old(ring.turns) ==> Books() == old(Books())
    {
      hide *;
      ghost var from := |ring.steps|;
      Yield(FlagSet, read);
      ghost var since := |ring.steps|;
      var here, val := SetFlag(read);
      ghost var slept := ring.steps;
      if here {
        Yield(Sleep(val), read);
        since := |ring.steps|;
        FutexWait(read, val);
        slept := ring.steps;
        BeenSo(slept, since, from);
        BeenThen(from);
      }
      Yield(FlagClear, read);
      ClearFlag(read);
      BeenSo(slept, from, from);
    }

    static lemma ToFlagOn()
      ensures Onward(ToFlag) == FlagSet && Onward(ToLook) == SlotLook && Onward(ToReady) == Ready
    {
    }

    // ---------------------------------------------------------------- the calls

    /** A segment that may have ended: the next one entered, or the ring found empty. */
    method Beyond(ghost read: seq<Msg>) returns (entered: bool)
      requires ring.Valid() && At(if ring.cfg.multi then SealLook else Empty, read) && cur < ring.cfg.segs
      modifies ring, ring.seqs, ring.bodies, ring.seals, ring.savedResume, this, resume
      ensures ring.Valid() && At(if entered then SlotLook else Empty, read)
      ensures old(ring.steps) <= ring.steps && ring.turns <= old(ring.turns)
      ensures entered && ring.turns == old(ring.turns) ==>
        LeftOf(Books()) < old(LeftOf(Books())) && Coming(Books()) == old(Coming(Books()))
      ensures !entered && ring.turns == old(ring.turns) && old(Stuck(Books(), cur)) && ring.cfg.multi ==>
        Blocked(Books(), cur)
      ensures !entered && ring.turns == old(ring.turns) ==> Books() == old(Books()) && cur == old(cur)
      ensures Told() == old(Told())
      ensures switches == if entered then old(switches) + 1 else old(switches)
      ensures entered && ring.cfg.wakes ==> Woken(|old(ring.steps)|)
    {
      hide *;
      if !ring.cfg.multi {
        return false;
      }
      ghost var from := |ring.steps|;
      ring.SealsHere();
      Yield(SealLook, read);
      var k: nat;
      entered, k := LookSeal(read);
      if entered {
        Yield(GiveBack(k), read);
        Enter(read, k);
        if ring.cfg.wakes {
          ghost var since := |ring.steps|;
          WakeProducers(read, ToLook);
          ToFlagOn();
          BeenSo(ring.steps, since, from);
        }
      }
    }

    /** An empty ring: sleep as long as the policy says so, then give up or look again, at its word. */
    method Wait(ghost read: seq<Msg>, policy: nat -> Answer, ghost patience: nat, k0: nat, ghost h: seq<Cue>)
      returns (again: bool, k: nat)
      requires ring.Valid() && At(Empty, read)
      requires policy(patience).Stop? && Patient(policy, k0) && Told() == h + Answers(policy, k0, !ring.cfg.tombs)
      modifies ring, ring.seqs, ring.bodies, ring.seals, ring.savedResume
      ensures ring.Valid() && At(if again then SlotLook else Ready, read)
      ensures old(ring.steps) <= ring.steps && ring.turns <= old(ring.turns)
      ensures if again then Patient(policy, k) else GaveUp(policy, k)
      ensures k0 < k && (again ==> k <= patience) && Told() == h + Answers(policy, k, !ring.cfg.tombs)
      ensures ring.turns == old(ring.turns) ==> Books() == old(Books())
    {
      hide *;
      k := k0;
      while true
        invariant ring.Valid() && At(Empty, read) && old(ring.steps) <= ring.steps && ring.turns <= old(ring.turns)
        invariant k0 <= k && Patient(policy, k) && Told() == h + Answers(policy, k, !ring.cfg.tombs)
        invariant ring.turns == old(ring.turns) ==> Books() == old(Books())
        decreases patience - k
      {
        Yield(Empty, read);
        AskedOnce(policy, k, !ring.cfg.tombs, patience);
        var answer := policy(k);
        k := k + 1;
        if !answer.NapFirst? {
          Answered(read, answer);
          return answer.Again?, k;
        }
        if !ring.cfg.tombs {
          Answered(read, answer);
          SleepEmpty(read);
        }
      }
    }

    /** Reserve the oldest committed slot: tombstones are released on the way, an ended segment is given back,
        the producers woken, and the next one entered. Each time the ring is found empty the policy's next answer is
        followed, and only its giving up ends the call without a slot; a word to sleep is followed by a sleep. Nothing
        is read yet. The loop ends as soon as the producers and the policy leave it to. Undisturbed, it reserves
        exactly the message coming, however patient the policy, and is refused only with nothing there to read. */
    method Reserve(ghost read: seq<Msg>, policy: nat -> Answer, ghost patience: nat) returns (got: bool, asked: nat)
      requires ring.Valid() && At(Ready, read) && policy(patience).Stop?
      modifies ring, ring.seqs, ring.bodies, ring.seals, ring.savedResume, this, resume
      ensures ring.Valid() && At(if got then Hold else Ready, read)
      ensures old(ring.steps) <= ring.steps && ring.turns <= old(ring.turns)
      ensures ring.turns == old(ring.turns) ==> old(Coming(Books())) == if got then [Front(Books())] else []
      ensures !got && ring.turns == old(ring.turns) ==> Blocked(Books(), cur) && Stuck(Books(), cur)
      ensures if got then Patient(policy, asked) else GaveUp(policy, asked)
      ensures Told() == old(Told()) + Answers(policy, asked, !ring.cfg.tombs)
      ensures !ring.cfg.tombs && (exists j :: 0 <= j < asked && policy(j).NapFirst?) ==> Rested(|old(ring.steps)|)
      ensures switches != old(switches) && ring.cfg.wakes ==> Woken(|old(ring.steps)|)
    {
      hide *;
      ghost var start, from, h := ring.steps, |ring.steps|, Told();
      ToldHere();
      NothingAsked(policy);
      asked := 0;
      Yield(Ready, read);
      StartLook(read);
      while true
        invariant ring.Valid() && At(SlotLook, read)
        invariant old(ring.steps) <= ring.steps && ring.turns <= old(ring.turns)
        invariant ring.turns == old(ring.turns) ==> Coming(Books()) == old(Coming(Books()))
        invariant Patient(policy, asked) && Told() == h + Answers(policy, asked, !ring.cfg.tombs)
        invariant switches != old(switches) && ring.cfg.wakes ==> Woken(from)
        decreases ring.turns, patience - asked, LeftOf(Books())
      {
        ghost var before := ring.steps;
        BeenThen(from);
        AskedOnce(policy, asked, !ring.cfg.tombs, patience);
        var done;
        done, got, asked := LookOnce(read, policy, patience, asked, h);
        BeenSo(ring.steps, |before|, from);
        BeenSo(before, from, from);
        if done {
          RestTaken(start, h, read, if got then Hold else Ready, policy, asked);
          return;
        }
      }
    }

    /** One look at the slot: it is held, or passed over, or its segment is, or the policy is asked. */
    method LookOnce(ghost read: seq<Msg>, policy: nat -> Answer, ghost patience: nat, k0: nat, ghost h: seq<Cue>)
      returns (done: bool, got: bool, k: nat)
      requires ring.Valid() && At(SlotLook, read)
      requires policy(patience).Stop? && Patient(policy, k0) && Told() == h + Answers(policy, k0, !ring.cfg.tombs)
      modifies ring, ring.seqs, ring.bodies, ring.seals, ring.savedResume, this, resume
      ensures ring.Valid() && At(if !done then SlotLook else if got then Hold else Ready, read)
      ensures old(ring.steps) <= ring.steps && ring.turns <= old(ring.turns)
      ensures Told() == h + Answers(policy, k, !ring.cfg.tombs) && k0 <= k
      ensures if done && !got then GaveUp(policy, k) else Patient(policy, k)
      ensures !done && ring.turns == old(ring.turns) ==>
        k0 < k <= patience || (k0 == k && LeftOf(Books()) < old(LeftOf(Books())))
      ensures ring.turns == old(ring.turns) ==>
        if !done then Coming(Books()) == old(Coming(Books()))
        else old(Coming(Books())) == if got then [Front(Books())] else []
      ensures done && !got && ring.turns == old(ring.turns) ==> Blocked(Books(), cur) && Stuck(Books(), cur)
      ensures switches != old(switches) && ring.cfg.wakes ==> Woken(|old(ring.steps)|)
    {
      hide *;
      ghost var from := |ring.steps|;
      k := k0;
      Yield(SlotLook, read);
      var committed, tomb := LookSlot(read);
      if committed {
        HeldIsNext(read);
        return true, true, k;
      }
      if tomb {
        Yield(Skip, read);
        SkipTomb(read);
        return false, false, k;
      }
      ghost var since := |ring.steps|;
      var entered := Beyond(read);
      BeenSo(ring.steps, since, from);
      if entered {
        return false, false, k;
      }
      var again;
      again, k := Wait(read, policy, patience, k0, h);
      NoneIsNext(read, if again then SlotLook else Ready);
      return !again, false, k;
    }

    lemma ToldHere()
      requires ring.Valid()
      ensures Told() == HeardIn(ring.cfg, ring.producers, ring.body, ring.steps).consumer
    {
      hide Inv, Run, HeardIn;
    }

    lemma NothingAsked(policy: nat -> Answer)
      ensures Patient(policy, 0) && Answers(policy, 0, !ring.cfg.tombs) == []
    {
    }

    /** Told to sleep in this call, the consumer did. */
    lemma RestTaken(start: seq<Step>, h: seq<Cue>, read: seq<Msg>, pc: ConsPc, policy: nat -> Answer, asked: nat)
      requires ring.Valid() && start <= ring.steps && At(pc, read) && (pc.Ready? || pc.Hold?)
      requires h == HeardIn(ring.cfg, ring.producers, ring.body, start).consumer
      requires Told() == h + Answers(policy, asked, !ring.cfg.tombs)
      ensures !ring.cfg.tombs && (exists j :: 0 <= j < asked && policy(j).NapFirst?) ==> Rested(|start|)
    {
      hide Inv, Run, HeardIn, RestedIn, Answers;
      if !ring.cfg.tombs && exists j :: 0 <= j < asked && policy(j).NapFirst? {
        var j: nat :| j < asked && policy(j).NapFirst?;
        SaysNap(policy, asked, j);
        RestIsTaken(ring.cfg, ring.producers, ring.body, start, ring.steps);
        assert Told()[|h|..] == Answers(policy, asked, true);
      }
    }

    lemma HeldIsNext(read: seq<Msg>)
      requires ring.Valid() && At(Hold, read)
      ensures Coming(Books()) == [Front(Books())]
    {
      hide Inv, Run, Coming, HeardIn;
      HeldComing(ring.cfg, ring.Now());
    }

    lemma NoneIsNext(read: seq<Msg>, pc: ConsPc)
      requires ring.Valid() && At(pc, read) && (pc.Ready? || pc.SlotLook?)
      ensures Blocked(Books(), cur) && Stuck(Books(), cur) ==> Coming(Books()) == []
    {
      hide Inv, Run, Coming, HeardIn, Stuck, Blocked;
      if Blocked(Books(), cur) && Stuck(Books(), cur) {
        NoneComing(ring.cfg, ring.Now());
      }
    }

    method YieldHold(ghost read: seq<Msg>, ghost msg: Msg)
      requires ring.Valid() && At(Hold, read) && Front(ring.Now().core.g) == msg
      modifies ring, ring.seqs, ring.bodies, ring.seals, ring.savedResume
      ensures ring.Valid() && At(Hold, read) && Front(ring.Now().core.g) == msg
      ensures old(ring.steps) <= ring.steps && ring.turns <= old(ring.turns)
      ensures Told() == old(Told())
    {
      hide Inv, Run, HeardIn;
      ghost var before := ring.steps;
      InvShape(ring.cfg, ring.Now());
      BodyIsFront(ring.cfg, ring.Now());
      Others();
      ProducersLeave(ring.cfg, ring.producers, ring.body, old(ring.steps), ring.steps);
      LaterRun(ring.cfg, ring.producers, ring.body, old(ring.steps), ring.steps);
      ProducersHeard(ring.cfg, ring.producers, ring.body, before, ring.steps);
    }

    /** Free the reserved slot: its message, the first claim's not yet released, is now read, and nothing
        else is. At every half segment the producers are woken. */
    method Release(ghost read: seq<Msg>, ghost msg: Msg)
      requires ring.Valid() && At(Hold, read) && Front(ring.Now().core.g) == msg
      modifies ring, ring.seqs, ring.bodies, ring.seals, ring.savedResume, this`pos
      ensures ring.Valid() && At(Ready, read + [msg])
      ensures old(ring.steps) <= ring.steps && ring.turns <= old(ring.turns)
      ensures pos == old(pos) + 1 && Told() == old(Told())
      ensures ring.cfg.wakes && AtCheck(ring.cfg, pos) ==> Woken(|old(ring.steps)|)
    {
      hide *;
      ghost var from := |ring.steps|;
      YieldHold(read, msg);
      var c, front := MoveOn(read);
      Yield(Store(c, front), read);
      var check := FreeSlotAt(read, c, front);
      if check {
        ghost var since := |ring.steps|;
        WakeProducers(read + [front], ToReady);
        ToFlagOn();
        BeenSo(ring.steps, since, from);
      }
    }

    /** Receive one message by value: reserve and release in one. What it returns is what is read. It comes back
        without a message only at its policy's word, and undisturbed exactly when none is coming; the message it
        returns undisturbed is the one coming. */
    method Receive(ghost read: seq<Msg>, policy: nat -> Answer, ghost patience: nat)
      returns (got: bool, msg: Msg, asked: nat)
      requires ring.Valid() && At(Ready, read) && policy(patience).Stop?
      modifies ring, ring.seqs, ring.bodies, ring.seals, ring.savedResume, this, resume
      ensures ring.Valid() && At(Ready, if got then read + [msg] else read)
      ensures old(ring.steps) <= ring.steps && ring.turns <= old(ring.turns)
      ensures ring.turns == old(ring.turns) ==> old(Coming(Books())) == if got then [msg] else []
      ensures !got && ring.turns == old(ring.turns) ==> Blocked(Books(), cur) && Stuck(Books(), cur)
      ensures if got then Patient(policy, asked) else GaveUp(policy, asked)
      ensures Told() == old(Told()) + Answers(policy, asked, !ring.cfg.tombs)
      ensures !ring.cfg.tombs && (exists j :: 0 <= j < asked && policy(j).NapFirst?) ==> Rested(|old(ring.steps)|)
    {
      hide *;
      ghost var start, h := ring.steps, Told();
      ToldHere();
      msg := Machine.Msg(0, 0);
      got, asked := Reserve(read, policy, patience);
      if got {
        BooksAre();
        msg := Deref(read);
        Release(read, msg);
        RestTaken(start, h, read + [msg], Ready, policy, asked);
      }
    }

    lemma BooksAre()
      ensures Books() == ring.Now().core.g
    {
    }

    // ---------------------------------------------------------------- hand-off

    method SaveResumeOf(j: nat, ghost read: seq<Msg>)
      requires ring.Valid() && At(SaveResume(j), read) && j < resume.Length == ring.savedResume.Length == ring.cfg.segs
      modifies ring`steps, ring.savedResume
      ensures ring.Valid() && At(if j + 1 < ring.cfg.segs then SaveResume(j + 1) else SaveCur, read)
      ensures ring.steps == old(ring.steps) + [ByConsumer(Go)]
    {
      hide Inv, Run, PcShape, HeardIn, Coming;
      InvShape(ring.cfg, ring.Now());
      ring.savedResume[j] := resume[j];
      ring.Advance(ByConsumer(Go));
    }

    method SaveCurOf(ghost read: seq<Msg>)
      requires ring.Valid() && At(SaveCur, read)
      modifies ring`steps, ring`savedCur
      ensures ring.Valid() && At(SavePos, read) && ring.steps == old(ring.steps) + [ByConsumer(Go)]
    {
      hide Inv, Run, Shape, PcShape, HeardIn, Coming;
      InvShape(ring.cfg, ring.Now());
      ring.savedCur := cur;
      ring.Advance(ByConsumer(Go));
    }

    method SavePosOf(ghost read: seq<Msg>)
      requires ring.Valid() && At(SavePos, read)
      modifies ring`steps, ring`savedPos
      ensures ring.Valid() && At(RoleClear, read) && ring.steps == old(ring.steps) + [ByConsumer(Go)]
    {
      hide Inv, Run, Shape, PcShape, HeardIn, Coming;
      InvShape(ring.cfg, ring.Now());
      ring.savedPos := pos;
      ring.Advance(ByConsumer(Go));
    }

    method ClearRole(ghost read: seq<Msg>)
      requires ring.Valid() && At(RoleClear, read)
      modifies ring`steps
      ensures ring.Valid() && ring.Now().core.cons.pc == Gone && ring.Now().core.g.delivered == read
      ensures ring.steps == old(ring.steps) + [ByConsumer(Go)]
      ensures ring.savedCur == cur && ring.savedPos == pos && ring.savedResume[..] == resume[..]
    {
      hide Inv, Run, Shape, PcShape, HeardIn, Coming;
      InvShape(ring.cfg, ring.Now());
      CheckpointSaved(ring.cfg, ring.Now());
      ring.Advance(ByConsumer(Go));
    }

    method StartSave(ghost read: seq<Msg>)
      requires ring.Valid() && At(Ready, read)
      modifies ring`steps, ring`heard
      ensures ring.Valid() && At(SaveResume(0), read) && ring.steps == old(ring.steps) + [ByConsumer(GiveUp)]
      ensures resume.Length == ring.savedResume.Length == ring.cfg.segs
    {
      hide Inv, Run, PcShape, HeardIn, Coming;
      InvShape(ring.cfg, ring.Now());
      ring.heard := TellConsumer(ring.heard, Chose(GiveUp));
      ring.Advance(ByConsumer(GiveUp));
    }

    /** Give the consumer role back: every resume position, the segment and the position stored, then the role
        cleared, with the handle's place in the checkpoint. Nothing is read or lost by it, and another handle may
        take the role over. */
    method Leave(ghost read: seq<Msg>)
      requires ring.Valid() && At(Ready, read)
      modifies ring, ring.seqs, ring.bodies, ring.seals, ring.savedResume
      ensures ring.Valid() && ring.Now().core.cons.pc == Gone && ring.Now().core.g.delivered == read
      ensures old(ring.steps) <= ring.steps && ring.turns <= old(ring.turns)
      ensures ring.savedCur == cur && ring.savedPos == pos && ring.savedResume[..] == resume[..]
    {
      hide *;
      HasSlots(ring.cfg);
      StartSave(read);
      var j := 0;
      while j < ring.cfg.segs
        invariant ring.Valid() && j <= ring.cfg.segs
        invariant resume.Length == ring.savedResume.Length == ring.cfg.segs
        invariant At(if j < ring.cfg.segs then SaveResume(j) else SaveCur, read)
        invariant old(ring.steps) <= ring.steps && ring.turns <= old(ring.turns)
      {
        Yield(SaveResume(j), read);
        SaveResumeOf(j, read);
        j := j + 1;
      }
      Yield(SaveCur, read);
      SaveCurOf(read);
      Yield(SavePos, read);
      SavePosOf(read);
      Yield(RoleClear, read);
      ClearRole(read);
    }
  }
}
