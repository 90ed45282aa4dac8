/** The ring as the program keeps it: words, slots and seals in place, read and written one access at a
    time. `Others` stands for whatever the other sides do between two accesses of this one; its contract,
    not its body, is what callers rely on, as for the few other methods whose answer is not the ring's. */
module Rings {
  import opened Laps
  import opened Machine
  import opened Invariant
  import opened Runs
  import opened ProducerSteps
  import opened Asides
  import opened Outside

  type PlainConfig = c: Config | Plain(c) witness Config(1, 1, false, false, false, 0)

  lemma HasSlots(c: PlainConfig)
    ensures c.segs >= 1 && c.depth >= 1
  {
  }

  /** What a policy answers when the ring is full, or empty: give up, look again, or sleep, after which it goes on and
      is asked once more. A policy answers by how often it was asked in this call. */
  datatype Answer = Stop | Again | NapFirst

  function ChoiceOf(answer: Answer): Choice {
    match answer
    case Stop => GiveUp
    case Again => Go
    case NapFirst => Nap
  }

  /** What the first `asked` answers come to, on a ring with something to sleep on or without: there a policy's sleep is
      no access to the ring. */
  function Answers(policy: nat -> Answer, asked: nat, sleeps: bool): seq<Cue> {
    if asked == 0 then []
    else
      Answers(policy, asked - 1, sleeps) +
      (if policy(asked - 1).NapFirst? && !sleeps then [] else [Asked(ChoiceOf(policy(asked - 1)))])
  }

  /** The policy has not given up in its first `asked` answers. */
  ghost predicate Patient(policy: nat -> Answer, asked: nat) {
    forall j :: 0 <= j < asked ==> !policy(j).Stop?
  }

  /** It gave up in the last of them. */
  ghost predicate GaveUp(policy: nat -> Answer, asked: nat) {
    asked >= 1 && Patient(policy, asked - 1) && policy(asked - 1).Stop?
  }

  lemma AskedOnce(policy: nat -> Answer, asked: nat, sleeps: bool, patience: nat)
    requires Patient(policy, asked) && policy(patience).Stop?
    ensures asked <= patience
    ensures Answers(policy, asked + 1, sleeps) == Answers(policy, asked, sleeps) +
            (if policy(asked).NapFirst? && !sleeps then [] else [Asked(ChoiceOf(policy(asked)))])
    ensures if policy(asked).Stop? then GaveUp(policy, asked + 1) else Patient(policy, asked + 1) && asked < patience
  {
  }

  /** A policy that sleeps says so. */
  lemma {:induction false} SaysNap(policy: nat -> Answer, asked: nat, j: nat)
    requires j < asked && policy(j).NapFirst?
    ensures Asked(Nap) in Answers(policy, asked, true)
  {
    if j < asked - 1 {
      SaysNap(policy, asked - 1, j);
    }
  }

  /** How a send ends. A fill that panicked leaves a tombstone, or, on a ring without them, its slot claimed for
      good. */
  datatype Outcome = Sent | RingFull | Unwound | Abandoned

  /** What has become of the claim. */
  function FateOf(r: Outcome): Fate {
    match r
    case Sent => Committed
    case Unwound => Dead
    case _ => Filling
  }

  /** How a `switch` ends. */
  datatype Switched = Moved | NoFree | Lost

  class Ring {
    const cfg: PlainConfig
    /** The producers that may hold a role, and what every slot body held before the ring was made. */
    ghost const producers: nat
    ghost const body: Msg

    var claim: Word
    const seqs: array2<SlotWord>
    const bodies: array2<Msg>
    const seals: array<Seal>
    var inUse: set<nat>
    var switches: nat
    var waiters: nat
    var wake: nat
    /** The checkpoint a consumer's release leaves. */
    var savedCur: nat
    var savedPos: nat
    const savedResume: array<nat>

    /** Every access made so far, by whom, in order. */
    ghost var steps: seq<Step>
    /** What is left of the others' accesses and of spurious failures. */
    ghost var turns: nat
    /** What policies and fills had to say so far, to each side in order. */
    ghost var heard: Heard

    /** The machine's state after the accesses so far. */
    ghost function Now(): (s: State)
      reads this`steps
      ensures Inv(cfg, s) && |s.prods| == producers
    {
      RunInv(cfg, producers, body, steps);
      Run(cfg, producers, body, steps)
    }

    ghost predicate SlotsAre(rows: seq<seq<SlotWord>>)
      reads seqs
    {
      && seqs.Length0 == |rows| == cfg.segs
      && seqs.Length1 == cfg.depth
      && forall k, j :: 0 <= k < cfg.segs && 0 <= j < cfg.depth ==>
           |rows[k]| == cfg.depth && seqs[k, j] == rows[k][j]
    }

    ghost predicate BodiesAre(rows: seq<seq<Msg>>)
      reads bodies
    {
      && bodies.Length0 == |rows| == cfg.segs
      && bodies.Length1 == cfg.depth
      && forall k, j :: 0 <= k < cfg.segs && 0 <= j < cfg.depth ==>
           |rows[k]| == cfg.depth && bodies[k, j] == rows[k][j]
    }

    ghost predicate Matches(m: Memory)
      reads this`claim, this`inUse, this`switches, this`waiters, this`wake, this`savedCur, this`savedPos
      reads seqs, bodies, seals, savedResume
    {
      && claim == m.claim
      && SlotsAre(m.seqs)
      && BodiesAre(m.bodies)
      && seals[..] == m.seals
      && inUse == m.inUse
      && switches == m.switches
      && waiters == m.waiters
      && wake == m.wake
      && savedCur == m.ckpt.cur
      && savedPos == m.ckpt.pos
      && savedResume[..] == m.ckpt.resume
    }

    /** The words in place are the machine's after the accesses so far, and the accesses went by what was heard. */
    ghost predicate Valid()
      reads this`steps, this`heard
      reads this`claim, this`inUse, this`switches, this`waiters, this`wake, this`savedCur, this`savedPos
      reads seqs, bodies, seals, savedResume
    {
      Matches(Now().core.mem) && heard == HeardIn(cfg, producers, body, steps)
    }

    /** What producer `i` heard so far. */
    ghost function HeardBy(i: nat): seq<Cue>
      reads this`heard
    {
      if i < |heard.producers| then heard.producers[i] else []
    }

    /** Producer `i` was asleep at some moment since the first `from` accesses. */
    ghost predicate Slept(i: nat, from: nat)
      reads this`steps
    {
      SleptIn(cfg, producers, body, steps, i, from)
    }

    /** It counted itself in since. */
    ghost predicate Counted(i: nat, from: nat)
      reads this`steps
    {
      CountedIn(cfg, producers, body, steps, i, from)
    }

    /** A new ring: it starts in segment 0 at position 0, segment 0 in use, every seal clear and every slot
        claimable for its first lap. The slot bodies are what the memory held. */
    constructor (cfg: PlainConfig, ghost producers: nat, body: Msg, ghost turns: nat)
      ensures this.cfg == cfg && this.producers == producers && this.turns == turns
      ensures fresh(seqs) && fresh(bodies) && fresh(seals) && fresh(savedResume)
      ensures Valid() && steps == []
    {
      hide Inv, Run, Init, WellShaped, Hear;
      this.cfg, this.producers, this.body, this.turns := cfg, producers, body, turns;
      claim, inUse, switches, waiters, wake := Word(0, 0, false), {0}, 0, 0, 0;
      seqs := new SlotWord[cfg.segs, cfg.depth]((k, j) => Claimable(0));
      bodies := new Msg[cfg.segs, cfg.depth]((k, j) => body);
      seals := new Seal[cfg.segs](k => ClearSeal);
      savedCur, savedPos := 0, 0;
      savedResume := new nat[cfg.segs](k => 0);
      steps, heard := [], Heard(seq(producers, _ => []), []);
      new;
      FirstLap();
      RunInv(cfg, producers, body, []);
      FirstWords(cfg, producers, body);
    }

    /** Every slot claimable for its first lap, segment by segment. */
    method FirstLap()
      requires seqs.Length0 == cfg.segs && seqs.Length1 == cfg.depth
      modifies seqs
      ensures forall k, j :: 0 <= k < cfg.segs && 0 <= j < cfg.depth ==> seqs[k, j] == Claimable(j)
    {
      for seg := 0 to cfg.segs
        invariant forall k, j :: 0 <= k < seg && 0 <= j < cfg.depth ==> seqs[k, j] == Claimable(j)
      {
        for i := 0 to cfg.depth
          invariant forall k, j :: 0 <= k < seg && 0 <= j < cfg.depth ==> seqs[k, j] == Claimable(j)
          invariant forall j :: 0 <= j < i ==> seqs[seg, j] == Claimable(j)
        {
          seqs[seg, i] := Claimable(i);
        }
      }
    }

    /** An access made: the words it left are the machine's after it, and it went by what was heard. */
    ghost method Advance(step: Step)
      requires WellShaped(cfg, Now()) && Matches(Next(cfg, Now(), step).core.mem)
      requires heard == Hear(HeardIn(cfg, producers, body, steps), Now(), step)
      modifies this`steps
      ensures Valid()
      ensures steps == old(steps) + [step]
      ensures Now() == Next(cfg, old(Now()), step)
    {
      hide Inv, Next, WellShaped, Run, Matches, HeardIn, Hear;
      RunNext(cfg, producers, body, steps, step);
      HeardNext(cfg, producers, body, steps, step);
      steps := steps + [step];
    }

    /** The others make some accesses, none of them producer `i`'s. */
    method Others(i: nat)
      requires Valid()
      modifies this, seqs, bodies, seals, savedResume
      ensures Valid()
      ensures old(steps) <= steps
      ensures forall n :: |old(steps)| <= n < |steps| ==> !(steps[n].ByProducer? && steps[n].i == i)
      ensures turns + |steps| <= old(turns) + |old(steps)|
    {
    }

    /** A weak CAS may fail for no reason, but not forever. */
    method Spurious() returns (fails: bool)
      modifies this`turns
      ensures turns <= old(turns)
      ensures fails ==> turns < old(turns)
    {
      fails := false;
    }

    // ---------------------------------------------------------------- a producer's accesses

    /** Producer `i`, in its send number `n`, is at `pc`. */
    ghost predicate At(i: nat, n: nat, pc: Pc)
      reads this`steps
    {
      i < producers && Now().prods[i].n == n && Now().prods[i].pc == pc
    }

    /** The claim word's slot is claimable. */
    ghost predicate Open()
      reads this`claim, seqs
    {
      && claim.seg < seqs.Length0
      && cfg.depth == seqs.Length1
      && seqs[claim.seg, Slot(claim.pos, cfg.depth)] == Claimable(claim.pos)
    }

    /** The others' turn: this producer stays where it is, and with no turn taken so does the ring. */
    method Yield(i: nat, ghost n: nat, ghost pc: Pc)
      requires Valid() && At(i, n, pc) && !pc.Asleep?
      modifies this, seqs, bodies, seals, savedResume
      ensures Valid() && At(i, n, pc)
      ensures old(steps) <= steps
      ensures turns <= old(turns)
      ensures turns == old(turns) ==>
        && steps == old(steps)
        && claim == old(claim)
        && inUse == old(inUse)
        && wake == old(wake)
        && Open() == old(Open())
      ensures HeardBy(i) == old(HeardBy(i))
    {
      hide Inv, Run, HeardIn;
      Others(i);
      OthersLeave(cfg, producers, body, old(steps), steps, i);
      OthersHeard(cfg, producers, body, old(steps), steps, i);
    }

    method Begin(i: nat, ghost n: nat)
      requires Valid() && At(i, n, Idle)
      modifies this`steps
      ensures Valid() && At(i, n + 1, Load) && steps == old(steps) + [ByProducer(i, Go)]
    {
      hide Inv, Run, Shape, PcShape, HeardIn;
      InvShape(cfg, Now());
      Advance(ByProducer(i, Go));
    }

    method LoadClaim(i: nat, ghost n: nat) returns (w: Word)
      requires Valid() && At(i, n, Load)
      modifies this`steps
      ensures Valid() && At(i, n, Look(w)) && steps == old(steps) + [ByProducer(i, Go)]
      ensures w == claim && w.seg < cfg.segs
    {
      hide Inv, Run, Shape, PcShape, HeardIn;
      InvShape(cfg, Now());
      ClaimNamesSegment(cfg, Now());
      w := claim;
      Advance(ByProducer(i, Go));
    }

    /** Send number `n` of producer `i` has claimed nothing. */
    ghost predicate Unclaimed(i: nat, n: nat)
      reads this`steps
    {
      forall e :: 0 <= e < |Now().core.g.log| ==> Now().core.g.log[e].msg != Machine.Msg(i, n)
    }

    method LoadSeq(i: nat, ghost n: nat, w: Word) returns (claimable: bool)
      requires Valid() && At(i, n, Look(w)) && w.seg < cfg.segs
      modifies this`steps
      ensures Valid() && steps == old(steps) + [ByProducer(i, Go)]
      ensures At(i, n, if claimable then Cas(w) else Reread(w))
      ensures w == claim ==> claimable == Open()
    {
      hide Inv, Run, Shape, PcShape, HeardIn;
      InvShape(cfg, Now());
      claimable := seqs[w.seg, Slot(w.pos, cfg.depth)] == Claimable(w.pos);
      assert claimable <==> SeqAt(cfg, Now().core.mem, w.seg, w.pos) == Claimable(w.pos);
      Advance(ByProducer(i, Go));
    }

    method CasClaim(i: nat, ghost n: nat, w: Word) returns (ok: bool, actual: Word)
      requires Valid() && At(i, n, Cas(w)) && w.seg < cfg.segs
      modifies this`steps, this`claim, this`turns
      ensures Valid() && turns <= old(turns)
      ensures steps == old(steps) + [ByProducer(i, if !ok && old(claim) == w then Fail else Go)]
      ensures ok ==> At(i, n, Fill(w)) && old(claim) == w && claim == Word(w.seg, w.pos + 1, w.waiting)
      ensures !ok ==> At(i, n, Look(actual)) && actual == claim == old(claim) && (claim != w || turns < old(turns))
      ensures actual.seg < cfg.segs
    {
      hide Inv, Run, Shape, PcShape, HeardIn;
      InvShape(cfg, Now());
      ClaimNamesSegment(cfg, Now());
      var fails := Spurious();
      actual, ok := claim, claim == w && !fails;
      if ok {
        claim := Word(w.seg, SeqOf(cfg, w.pos + 1), w.waiting);
        Advance(ByProducer(i, Go));
      } else {
        Advance(ByProducer(i, if actual == w then Fail else Go));
      }
    }

    method Reload(i: nat, ghost n: nat, w: Word) returns (cur: Word)
      requires Valid() && At(i, n, Reread(w))
      modifies this`steps
      ensures Valid() && steps == old(steps) + [ByProducer(i, Go)]
      ensures cur == claim && cur.seg < cfg.segs
      ensures At(i, n, if cur != w then Look(cur) else if cfg.multi then FreeLoad(w) else Full)
    {
      hide Inv, Run, Shape, PcShape, HeardIn;
      InvShape(cfg, Now());
      ClaimNamesSegment(cfg, Now());
      cur := claim;
      Advance(ByProducer(i, Go));
    }

    /** The policy's answer at a full ring acted on. */
    method Answered(i: nat, ghost n: nat, answer: Answer)
      requires Valid() && At(i, n, Full) && (answer.NapFirst? ==> cfg.wakes)
      modifies this`steps, this`heard
      ensures Valid() && steps == old(steps) + [ByProducer(i, ChoiceOf(answer))]
      ensures HeardBy(i) == old(HeardBy(i)) + [Asked(ChoiceOf(answer))]
      ensures At(i, n, match answer case Stop => Idle case Again => Load case NapFirst => CountIn)
      ensures answer.Stop? ==> Unclaimed(i, n)
    {
      hide Inv, Run, Shape, PcShape, HeardIn;
      InvShape(cfg, Now());
      NothingClaimed(cfg, Now(), i);
      heard := Tell(heard, i, Asked(ChoiceOf(answer)));
      Advance(ByProducer(i, ChoiceOf(answer)));
    }

    // ---------------------------------------------------------------- switch

    method LoadFree(i: nat, ghost n: nat, w: Word) returns (any: bool, k: nat)
      requires Valid() && At(i, n, FreeLoad(w))
      modifies this`steps
      ensures Valid() && steps == old(steps) + [ByProducer(i, Go)]
      ensures At(i, n, if any then Take(w, k) else Full)
      ensures any ==> k < cfg.segs && k !in inUse
      ensures any == AnyFree(cfg, inUse)
    {
      hide Inv, Run, Shape, PcShape, HeardIn;
      InvShape(cfg, Now());
      any, k := LowestClear();
      Advance(ByProducer(i, Go));
    }

    /** The lowest clear bit of the in-use word, below the segment count. */
    method LowestClear() returns (any: bool, k: nat)
      ensures any <==> AnyFree(cfg, inUse)
      ensures any ==> k == LowestFree(cfg, inUse, 0) && k < cfg.segs && k !in inUse
    {
      k := 0;
      while k < cfg.segs && k in inUse
        invariant k <= cfg.segs && forall j :: 0 <= j < k ==> j in inUse
      {
        k := k + 1;
      }
      any := k < cfg.segs;
    }

    method SetBit(i: nat, ghost n: nat, w: Word, k: nat) returns (was: bool)
      requires Valid() && At(i, n, Take(w, k))
      modifies this`steps, this`inUse
      ensures Valid() && steps == old(steps) + [ByProducer(i, Go)]
      ensures was == (k in old(inUse))
      ensures At(i, n, if was then FreeLoad(w) else SealLoad(w, k))
    {
      hide Inv, Run, Shape, PcShape, HeardIn;
      InvShape(cfg, Now());
      was := k in inUse;
      inUse := inUse + {k};
      assert was ==> inUse == old(inUse);
      Advance(ByProducer(i, Go));
    }

    method LoadSeal(i: nat, ghost n: nat, w: Word, k: nat) returns (start: nat)
      requires Valid() && At(i, n, SealLoad(w, k)) && k < seals.Length
      modifies this`steps
      ensures Valid() && At(i, n, SealClear(w, k, start)) && steps == old(steps) + [ByProducer(i, Go)]
    {
      hide Inv, Run, Shape, PcShape, HeardIn;
      InvShape(cfg, Now());
      start := seals[k].pos;
      Advance(ByProducer(i, Go));
    }

    method ClearSealOf(i: nat, ghost n: nat, w: Word, k: nat, start: nat)
      requires Valid() && At(i, n, SealClear(w, k, start)) && k < seals.Length
      modifies this`steps, seals
      ensures Valid() && At(i, n, Move(w, k, start)) && steps == old(steps) + [ByProducer(i, Go)]
    {
      hide Inv, Run, Shape, PcShape, HeardIn;
      InvShape(cfg, Now());
      seals[k] := ClearSeal;
      Advance(ByProducer(i, Go));
    }

    method CasMove(i: nat, ghost n: nat, w: Word, k: nat, start: nat) returns (ok: bool)
      requires Valid() && At(i, n, Move(w, k, start)) && w.seg < cfg.segs && k < cfg.segs
      modifies this`steps, this`claim
      ensures Valid() && steps == old(steps) + [ByProducer(i, Go)]
      ensures ok == (old(claim) == w)
      ensures ok ==> At(i, n, SealStore(w, k)) && Open()
      ensures !ok ==> At(i, n, SealRestore(k, start)) && claim == old(claim)
    {
      hide Inv, Run, Shape, PcShape, MoveRing, HeardIn;
      InvShape(cfg, Now());
      ghost var s := Now();
      ok := claim == w;
      if ok {
        MoveLands(cfg, s, i);
        claim := Word(k, start, w.waiting);
        Advance(ByProducer(i, Go));
      } else {
        Advance(ByProducer(i, Go));
      }
    }

    method StoreSealOf(i: nat, ghost n: nat, w: Word, k: nat)
      requires Valid() && At(i, n, SealStore(w, k)) && w.seg < seals.Length
      modifies this`steps, seals
      ensures Valid() && At(i, n, CountSwitch) && steps == old(steps) + [ByProducer(i, Go)]
    {
      hide Inv, Run, Shape, PcShape, HeardIn;
      InvShape(cfg, Now());
      seals[w.seg] := Seal(true, k, w.pos);
      Advance(ByProducer(i, Go));
    }

    method CountMove(i: nat, ghost n: nat)
      requires Valid() && At(i, n, CountSwitch)
      modifies this`steps, this`switches
      ensures Valid() && At(i, n, Load) && steps == old(steps) + [ByProducer(i, Go)]
    {
      hide Inv, Run, Shape, PcShape, HeardIn;
      InvShape(cfg, Now());
      switches := switches + 1;
      Advance(ByProducer(i, Go));
    }

    method RestoreSeal(i: nat, ghost n: nat, k: nat, start: nat)
      requires Valid() && At(i, n, SealRestore(k, start)) && k < seals.Length
      modifies this`steps, seals
      ensures Valid() && At(i, n, BitClear(k)) && steps == old(steps) + [ByProducer(i, Go)]
    {
      hide Inv, Run, Shape, PcShape, HeardIn;
      InvShape(cfg, Now());
      seals[k] := Seal(false, 0, start);
      Advance(ByProducer(i, Go));
    }

    method ClearBit(i: nat, ghost n: nat, k: nat)
      requires Valid() && At(i, n, BitClear(k))
      modifies this`steps, this`inUse
      ensures Valid() && At(i, n, Load) && steps == old(steps) + [ByProducer(i, Go)]
    {
      hide Inv, Run, Shape, PcShape, HeardIn;
      InvShape(cfg, Now());
      inUse := inUse - {k};
      Advance(ByProducer(i, Go));
    }

    /** The bit of a free segment set for this producer alone. */
    method TakeSegment(i: nat, ghost n: nat, w: Word) returns (any: bool, k: nat)
      requires Valid() && At(i, n, FreeLoad(w))
      modifies this, seqs, bodies, seals, savedResume
      ensures Valid() && old(steps) <= steps && turns <= old(turns)
      ensures At(i, n, if any then SealLoad(w, k) else Full)
      ensures any ==> k < cfg.segs
      ensures turns == old(turns) ==> claim == old(claim) && any == AnyFree(cfg, old(inUse))
      ensures turns == old(turns) && !any ==> inUse == old(inUse) && Open() == old(Open())
      ensures HeardBy(i) == old(HeardBy(i))
    {
      hide *;
      while true
        invariant Valid() && At(i, n, FreeLoad(w)) && old(steps) <= steps && turns <= old(turns)
        invariant turns == old(turns) ==> claim == old(claim) && inUse == old(inUse) && Open() == old(Open())
        invariant HeardBy(i) == old(HeardBy(i))
        decreases turns
      {
        Yield(i, n, FreeLoad(w));
        any, k := LoadFree(i, n, w);
        if !any {
          return;
        }
        Yield(i, n, Take(w, k));
        var was := SetBit(i, n, w, k);
        if !was {
          return;
        }
      }
    }

    /** The segment of a lost switch put back as it was. */
    method PutBackSegment(i: nat, ghost n: nat, k: nat, start: nat)
      requires Valid() && At(i, n, SealRestore(k, start)) && k < seals.Length
      modifies this, seqs, bodies, seals, savedResume
      ensures Valid() && At(i, n, Load) && old(steps) <= steps && turns <= old(turns)
      ensures HeardBy(i) == old(HeardBy(i))
    {
      hide *;
      Yield(i, n, SealRestore(k, start));
      RestoreSeal(i, n, k, start);
      Yield(i, n, BitClear(k));
      ClearBit(i, n, k);
    }

    /** The old segment sealed behind the move. */
    method SealBehind(i: nat, ghost n: nat, w: Word, k: nat)
      requires Valid() && At(i, n, SealStore(w, k)) && w.seg < seals.Length
      modifies this, seqs, bodies, seals, savedResume
      ensures Valid() && At(i, n, Load) && old(steps) <= steps && turns <= old(turns)
      ensures turns == old(turns) ==> Open() == old(Open())
      ensures HeardBy(i) == old(HeardBy(i))
    {
      hide *;
      Yield(i, n, SealStore(w, k));
      StoreSealOf(i, n, w, k);
      Yield(i, n, CountSwitch);
      CountMove(i, n);
    }

    /** Move the ring from the full segment `w` names to a free one, or undo the attempt. Entered with the
        claim word still `w`, it can lose only to the others, and a ring it moved has room unless they took
        it. */
    method Switch(i: nat, ghost n: nat, w: Word) returns (r: Switched)
      requires Valid() && At(i, n, FreeLoad(w)) && w.seg < cfg.segs && claim == w
      modifies this, seqs, bodies, seals, savedResume
      ensures Valid() && old(steps) <= steps && turns <= old(turns)
      ensures At(i, n, if r.NoFree? then Full else Load)
      ensures r.Lost? ==> turns < old(turns)
      ensures r.Moved? && turns == old(turns) ==> Open()
      ensures turns == old(turns) ==> r == if AnyFree(cfg, old(inUse)) then Moved else NoFree
      ensures turns == old(turns) && r.NoFree? ==> claim == old(claim) && inUse == old(inUse) && Open() == old(Open())
      ensures HeardBy(i) == old(HeardBy(i))
    {
      hide *;
      SealsHere();
      var any, k := TakeSegment(i, n, w);
      if !any {
        return NoFree;
      }
      Yield(i, n, SealLoad(w, k));
      var start := LoadSeal(i, n, w, k);
      Yield(i, n, SealClear(w, k, start));
      ClearSealOf(i, n, w, k, start);
      Yield(i, n, Move(w, k, start));
      var ok := CasMove(i, n, w, k, start);
      if ok {
        SealBehind(i, n, w, k);
        return Moved;
      }
      PutBackSegment(i, n, k, start);
      return Lost;
    }

    // ---------------------------------------------------------------- sleep on a full ring

    method CountWaiter(i: nat, ghost n: nat)
      requires Valid() && At(i, n, CountIn)
      modifies this`steps, this`waiters
      ensures Valid() && At(i, n, SeenLoad) && steps == old(steps) + [ByProducer(i, Go)]
      ensures Counted(i, |old(steps)|)
    {
      hide Inv, Run, Shape, PcShape, HeardIn;
      InvShape(cfg, Now());
      waiters := waiters + 1;
      ghost var before := steps;
      Advance(ByProducer(i, Go));
      assert steps[..|before|] == before;
      assert CountsAfter(cfg, producers, body, steps[..|before|], i);
    }

    method LoadWake(i: nat, ghost n: nat) returns (seen: nat)
      requires Valid() && At(i, n, SeenLoad)
      modifies this`steps
      ensures Valid() && At(i, n, RoomClaim(seen)) && steps == old(steps) + [ByProducer(i, Go)]
      ensures seen == wake
    {
      hide Inv, Run, Shape, PcShape, HeardIn;
      InvShape(cfg, Now());
      seen := wake;
      Advance(ByProducer(i, Go));
    }

    method RoomLoadClaim(i: nat, ghost n: nat, ghost seen: nat) returns (r: Word)
      requires Valid() && At(i, n, RoomClaim(seen))
      modifies this`steps
      ensures Valid() && steps == old(steps) + [ByProducer(i, Go)]
      ensures At(i, n, if r.seg < cfg.segs then RoomSeq(seen, r) else CountOut)
      ensures r == claim && r.seg < cfg.segs
    {
      hide Inv, Run, Shape, PcShape, HeardIn;
      InvShape(cfg, Now());
      ClaimNamesSegment(cfg, Now());
      r := claim;
      Advance(ByProducer(i, Go));
    }

    method RoomLoadSeq(i: nat, ghost n: nat, ghost seen: nat, r: Word) returns (claimable: bool)
      requires Valid() && At(i, n, RoomSeq(seen, r)) && r.seg < cfg.segs
      modifies this`steps
      ensures Valid() && steps == old(steps) + [ByProducer(i, Go)]
      ensures At(i, n, if claimable then CountOut else if cfg.multi then RoomBits(seen) else Wait(seen))
      ensures r == claim ==> claimable == Open()
    {
      hide Inv, Run, Shape, PcShape, HeardIn;
      InvShape(cfg, Now());
      claimable := seqs[r.seg, Slot(r.pos, cfg.depth)] == Claimable(r.pos);
      assert claimable <==> SeqAt(cfg, Now().core.mem, r.seg, r.pos) == Claimable(r.pos);
      Advance(ByProducer(i, Go));
    }

    method RoomLoadFree(i: nat, ghost n: nat, ghost seen: nat) returns (any: bool)
      requires Valid() && At(i, n, RoomBits(seen))
      modifies this`steps
      ensures Valid() && steps == old(steps) + [ByProducer(i, Go)]
      ensures At(i, n, if any then CountOut else Wait(seen))
      ensures any == AnyFree(cfg, inUse)
    {
      hide Inv, Run, Shape, PcShape, HeardIn;
      InvShape(cfg, Now());
      var k: nat;
      any, k := LowestClear();
      Advance(ByProducer(i, Go));
    }

    /** A futex wait: the compare and the sleep are one access, and the sleep ends at a wake, which one of
        the others issued, or at a timeout. */
    method FutexWait(i: nat, ghost n: nat, seen: nat)
      requires Valid() && At(i, n, Wait(seen))
      modifies this, seqs, bodies, seals, savedResume
      ensures Valid() && At(i, n, CountOut) && old(steps) <= steps && turns <= old(turns)
      ensures HeardBy(i) == old(HeardBy(i))
      ensures old(wake) == seen ==> Slept(i, |old(steps)|)
      ensures turns == old(turns) ==> claim == old(claim) && inUse == old(inUse) && Open() == old(Open())
    {
      hide *;
      ghost var from := |steps|;
      var sleeps := CompareAndSleep(i, n, seen);
      if sleeps {
        ghost var since := |steps|;
        Slumber(i, n, seen);
        BeenSo(steps, i, since, from);
      }
    }

    method CompareAndSleep(i: nat, ghost n: nat, seen: nat) returns (sleeps: bool)
      requires Valid() && At(i, n, Wait(seen))
      modifies this`steps
      ensures Valid() && At(i, n, if sleeps then Asleep(seen) else CountOut)
      ensures steps == old(steps) + [ByProducer(i, Go)]
      ensures sleeps == (wake == seen)
    {
      hide Inv, Run, Next, WellShaped, HeardIn;
      WaitLands(cfg, Now(), i);
      sleeps := wake == seen;
      Advance(ByProducer(i, Go));
    }

    method Slumber(i: nat, ghost n: nat, ghost seen: nat)
      requires Valid() && At(i, n, Asleep(seen))
      modifies this, seqs, bodies, seals, savedResume
      ensures Valid() && At(i, n, CountOut) && old(steps) <= steps && turns <= old(turns)
      ensures HeardBy(i) == old(HeardBy(i))
      ensures Slept(i, |old(steps)|)
      ensures turns == old(turns) ==> claim == old(claim) && inUse == old(inUse) && Open() == old(Open())
    {
      hide Inv, Run, HeardIn, SleptIn;
      ghost var before := steps;
      SleepsNow(i, |before|);
      Others(i);
      assert turns == old(turns) ==> steps == before;
      OthersWake(cfg, producers, body, before, steps, i);
      OthersHeard(cfg, producers, body, before, steps, i);
      if Now().prods[i].pc.Asleep? {
        TimeOut(i, n, seen);
      }
      BeenSo(before, i, |before|, |before|);
    }

    /** A sleep ends at a timeout. */
    ghost method TimeOut(i: nat, n: nat, seen: nat)
      requires Valid() && At(i, n, Asleep(seen))
      modifies this`steps
      ensures Valid() && At(i, n, CountOut) && steps == old(steps) + [ByProducer(i, Fail)]
    {
      hide Inv, Run, Next, WellShaped, HeardIn;
      WaitLands(cfg, Now(), i);
      Advance(ByProducer(i, Fail));
    }

    /** What has been since `since` has been since `from`. */
    lemma BeenSo(before: seq<Step>, i: nat, since: nat, from: nat)
      requires before <= steps && from <= since
      ensures SleptIn(cfg, producers, body, before, i, since) ==> Slept(i, from)
      ensures CountedIn(cfg, producers, body, before, i, since) ==> Counted(i, from)
      ensures before == steps && Slept(i, since) ==> Slept(i, from)
      ensures before == steps && Counted(i, since) ==> Counted(i, from)
    {
      hide SleptIn, CountedIn;
      StillSo(cfg, producers, body, before, steps, i, since, from);
    }

    lemma BeenThen(i: nat, from: nat)
      ensures Slept(i, from) == SleptIn(cfg, producers, body, steps, i, from)
      ensures Counted(i, from) == CountedIn(cfg, producers, body, steps, i, from)
    {
      hide SleptIn, CountedIn;
    }

    lemma SleepsNow(i: nat, from: nat)
      requires i < producers && Now().prods[i].pc.Asleep? && from <= |steps|
      ensures Slept(i, from)
    {
      hide Run, Inv;
      assert steps[..|steps|] == steps;
      assert AsleepAfter(cfg, producers, body, steps[..|steps|], i);
    }

    method DropOut(i: nat, ghost n: nat)
      requires Valid() && At(i, n, CountOut)
      modifies this`steps, this`waiters
      ensures Valid() && At(i, n, Full) && steps == old(steps) + [ByProducer(i, Go)]
    {
      hide Inv, Run, Shape, PcShape, HeardIn;
      InvShape(cfg, Now());
      waiters := if waiters >= 1 then waiters - 1 else 0;
      Advance(ByProducer(i, Go));
    }

    /** The ring has room: the claim word's slot is claimable, or, across segments, a segment is free. */
    ghost predicate Roomy()
      reads this`claim, this`inUse, seqs
    {
      Open() || (cfg.multi && AnyFree(cfg, inUse))
    }

    /** Whether a claim could land now. Undisturbed the answer is exact. */
    method HasRoom(i: nat, ghost n: nat, ghost seen: nat) returns (room: bool)
      requires Valid() && At(i, n, RoomClaim(seen))
      modifies this, seqs, bodies, seals, savedResume
      ensures Valid() && old(steps) <= steps && turns <= old(turns)
      ensures At(i, n, if room then CountOut else Wait(seen))
      ensures turns == old(turns) ==> room == old(Roomy()) && wake == old(wake)
      ensures turns == old(turns) ==> claim == old(claim) && inUse == old(inUse) && Open() == old(Open())
      ensures HeardBy(i) == old(HeardBy(i))
    {
      hide *;
      RoomyIs();
      Yield(i, n, RoomClaim(seen));
      var r := RoomLoadClaim(i, n, seen);
      if r.seg >= cfg.segs {
        return true;
      }
      Yield(i, n, RoomSeq(seen, r));
      var claimable := RoomLoadSeq(i, n, seen, r);
      if claimable || !cfg.multi {
        return claimable;
      }
      Yield(i, n, RoomBits(seen));
      room := RoomLoadFree(i, n, seen);
    }

    /** Sleep on a full ring until the consumer frees room, a wake comes early, or a timeout: count in,
        read the wake sequence, look again, and only then sleep, as it does undisturbed where there is no room. */
    method SleepFull(i: nat, ghost n: nat)
      requires Valid() && At(i, n, CountIn)
      modifies this, seqs, bodies, seals, savedResume
      ensures Valid() && At(i, n, Full) && old(steps) <= steps && turns <= old(turns)
      ensures HeardBy(i) == old(HeardBy(i))
      ensures Counted(i, |old(steps)|)
      ensures turns == old(turns) && !old(Roomy()) ==> Slept(i, |old(steps)|)
      ensures turns == old(turns) ==> claim == old(claim) && inUse == old(inUse) && Open() == old(Open())
    {
      hide *;
      ghost var from := |steps|;
      RoomyIs();
      Yield(i, n, CountIn);
      RoomyIs();
      ghost var since := |steps|;
      CountWaiter(i, n);
      RoomyIs();
      BeenSo(steps, i, since, from);
      BeenThen(i, from);
      ghost var before := steps;
      SleepUnlessRoom(i, n);
      BeenSo(steps, i, |before|, from);
      BeenThen(i, from);
      ghost var after := steps;
      Yield(i, n, CountOut);
      DropOut(i, n);
      BeenSo(before, i, from, from);
      BeenSo(after, i, from, from);
    }

    /** Counted in: the wake sequence read, a look for room, and the wait. */
    method SleepUnlessRoom(i: nat, ghost n: nat)
      requires Valid() && At(i, n, SeenLoad)
      modifies this, seqs, bodies, seals, savedResume
      ensures Valid() && At(i, n, CountOut) && old(steps) <= steps && turns <= old(turns)
      ensures HeardBy(i) == old(HeardBy(i))
      ensures turns == old(turns) && !old(Roomy()) ==> Slept(i, |old(steps)|)
      ensures turns == old(turns) ==> claim == old(claim) && inUse == old(inUse) && Open() == old(Open())
    {
      hide *;
      ghost var from := |steps|;
      RoomyIs();
      Yield(i, n, SeenLoad);
      RoomyIs();
      var seen := LoadWake(i, n);
      RoomyIs();
      var room := HasRoom(i, n, seen);
      if !room {
        Yield(i, n, Wait(seen));
        ghost var since := |steps|;
        FutexWait(i, n, seen);
        BeenSo(steps, i, since, from);
      }
    }

    // ---------------------------------------------------------------- fill, commit, wake

    /** The closure's writes, what it likes on the way. */
    method WritePart(i: nat, ghost n: nat, w: Word)
      requires Valid() && At(i, n, Fill(w)) && w.seg < cfg.segs
      modifies this`steps, bodies
      ensures Valid() && At(i, n, Fill(w)) && old(steps) <= steps
    {
      hide Inv, Run, PcShape, HeardIn;
      InvShape(cfg, Now());
      var part: Msg := *;
      bodies[w.seg, Slot(w.pos, cfg.depth)] := part;
      Advance(ByProducer(i, Write(part)));
    }

    /** The closure done, the message in place, or, on a ring with tombstones, unwinding, the slot half written. */
    method EndFill(i: nat, ghost n: nat, w: Word, msg: Msg, panics: bool)
      requires Valid() && At(i, n, Fill(w)) && w.seg < cfg.segs && msg == Machine.Msg(i, n) && (panics ==> cfg.tombs)
      modifies this`steps, this`heard, bodies
      ensures Valid() && old(steps) <= steps
      ensures At(i, n, if panics then Tomb(w) else Commit(w))
      ensures HeardBy(i) == old(HeardBy(i)) + [Ended(panics)]
    {
      hide Inv, Run, PcShape, HeardIn;
      InvShape(cfg, Now());
      if !panics {
        bodies[w.seg, Slot(w.pos, cfg.depth)] := msg;
      }
      heard := Tell(heard, i, Ended(panics));
      Advance(ByProducer(i, if panics then Panic else Go));
    }

    /** Send number `n` of producer `i` has its claim, and the claim this fate. */
    ghost predicate Settled(i: nat, n: nat, fate: Fate)
      reads this`steps
    {
      SettledAfter(steps, i, n, fate)
    }

    ghost predicate SettledAfter(ss: seq<Step>, i: nat, n: nat, fate: Fate) {
      var log := Run(cfg, producers, body, ss).core.g.log;
      exists e :: 0 <= e < |log| && log[e].msg == Machine.Msg(i, n) && log[e].fate == fate
    }

    /** The claim of send number `n` was made after the accesses `before`, and has this fate. */
    ghost predicate SettledSince(before: seq<Step>, i: nat, n: nat, fate: Fate)
      reads this`steps
    {
      var log := Now().core.g.log;
      exists e :: |Run(cfg, producers, body, before).core.g.log| <= e < |log| && log[e].msg == Machine.Msg(i, n)
        && log[e].fate == fate
    }

    /** Before its send number `n + 1` began, producer `i` had no claim under it. */
    ghost predicate NoneBefore(before: seq<Step>, i: nat, n: nat) {
      var log := Run(cfg, producers, body, before).core.g.log;
      forall e :: 0 <= e < |log| ==> log[e].msg != Machine.Msg(i, n + 1)
    }

    lemma NotYet(before: seq<Step>, i: nat, n: nat)
      requires before == steps && At(i, n, Idle)
      ensures NoneBefore(before, i, n)
    {
      hide Inv, Run;
      NotYetClaimed(cfg, Now(), i);
    }

    lemma SettledNow(before: seq<Step>, i: nat, n: nat, fate: Fate)
      requires before <= steps && NoneBefore(before, i, n) && Settled(i, n + 1, fate)
      ensures SettledSince(before, i, n + 1, fate)
    {
      hide Inv, Run;
      LaterRun(cfg, producers, body, before, steps);
    }

    lemma SettledHere(i: nat, n: nat, fate: Fate)
      requires Settled(i, n, fate)
      ensures SettledAfter(steps, i, n, fate)
    {
      hide Run;
    }

    lemma StaysSettled(ss: seq<Step>, i: nat, n: nat, fate: Fate)
      requires ss <= steps && SettledAfter(ss, i, n, fate) && fate != Filling
      ensures Settled(i, n, fate)
    {
      hide Inv, Run;
      LaterRun(cfg, producers, body, ss, steps);
    }

    /** The claim settled: committed, or dead under a tombstone. */
    method StoreSettled(i: nat, ghost n: nat, w: Word, tomb: bool)
      requires Valid() && At(i, n, if tomb then Tomb(w) else Commit(w)) && w.seg < cfg.segs
      modifies this`steps, seqs
      ensures Valid() && steps == old(steps) + [ByProducer(i, Go)]
      ensures At(i, n, if !tomb && cfg.wakes && w.waiting then WakeConsumer(w) else Idle)
      ensures Settled(i, n, if tomb then Dead else Committed)
    {
      hide Inv, Run, PcShape, EntryOf;
      InvShape(cfg, Now());
      CommitLands(cfg, Now(), i);
      seqs[w.seg, Slot(w.pos, cfg.depth)] := if tomb then TombAt(cfg, w.pos) else CommittedAt(cfg, w.pos);
      Advance(ByProducer(i, Go));
    }

    method WakeUp(i: nat, ghost n: nat, w: Word)
      requires Valid() && At(i, n, WakeConsumer(w))
      modifies this`steps
      ensures Valid() && At(i, n, Idle) && steps == old(steps) + [ByProducer(i, Go)]
    {
      hide Inv, Run, Shape, PcShape, HeardIn;
      InvShape(cfg, Now());
      Advance(ByProducer(i, Go));
    }


    // ---------------------------------------------------------------- send

    // ---------------------------------------------------------------- send

    /** What a policy is asked at a full ring, and the sleep it may choose before it is asked again: the send gives
        up only at the policy's word, and goes on at it. Undisturbed, the ring is as full after as before. */
    method Refused(i: nat, ghost n: nat, policy: nat -> Answer, ghost patience: nat, k0: nat, ghost h: seq<Cue>)
      returns (again: bool, k: nat)
      requires Valid() && At(i, n, Full)
      requires policy(patience).Stop? && Patient(policy, k0) && HeardBy(i) == h + Answers(policy, k0, cfg.wakes)
      modifies this, seqs, bodies, seals, savedResume
      ensures Valid() && old(steps) <= steps && turns <= old(turns)
      ensures again ==> At(i, n, Load) && Patient(policy, k)
      ensures !again ==> At(i, n, Idle) && Unclaimed(i, n) && GaveUp(policy, k)
      ensures k0 < k <= patience + 1 && HeardBy(i) == h + Answers(policy, k, cfg.wakes)
      ensures turns == old(turns) ==> claim == old(claim) && inUse == old(inUse) && Open() == old(Open())
    {
      hide *;
      k := k0;
      while true
        invariant Valid() && At(i, n, Full) && old(steps) <= steps && turns <= old(turns)
        invariant k0 <= k && Patient(policy, k) && HeardBy(i) == h + Answers(policy, k, cfg.wakes)
        invariant turns == old(turns) ==> claim == old(claim) && inUse == old(inUse) && Open() == old(Open())
        decreases patience - k
      {
        Yield(i, n, Full);
        AskedOnce(policy, k, cfg.wakes, patience);
        var answer := policy(k);
        k := k + 1;
        if !answer.NapFirst? {
          Answered(i, n, answer);
          return answer.Again?, k;
        }
        if cfg.wakes {
          Answered(i, n, answer);
          SleepFull(i, n);
        }
      }
    }

    /** A slot found taken: the word was stale, or the segment is full and the ring moves on or is full. With the
        others idle, the ring moves on exactly where a segment is free, and is then open. */
    method Missed(i: nat, ghost n: nat, w: Word, policy: nat -> Answer, ghost patience: nat, k0: nat, ghost h: seq<Cue>)
      returns (again: bool, next: Word, k: nat)
      requires Valid() && At(i, n, Reread(w)) && w.seg < cfg.segs
      requires policy(patience).Stop? && Patient(policy, k0) && HeardBy(i) == h + Answers(policy, k0, cfg.wakes)
      modifies this, seqs, bodies, seals, savedResume
      ensures Valid() && old(steps) <= steps && turns <= old(turns)
      ensures again ==> At(i, n, Look(next)) && claim == next && next.seg < cfg.segs && Patient(policy, k)
      ensures !again ==> At(i, n, Idle) && Unclaimed(i, n) && GaveUp(policy, k)
      ensures k0 <= k <= patience + 1 + k0 && HeardBy(i) == h + Answers(policy, k, cfg.wakes)
      ensures turns == old(turns) && old(claim) == w ==>
        if cfg.multi && AnyFree(cfg, old(inUse)) then again && Open()
        else inUse == old(inUse) && Open() == old(Open()) && k0 < k
    {
      hide *;
      k := k0;
      Yield(i, n, Reread(w));
      next := Reload(i, n, w);
      if next != w {
        return true, next, k;
      }
      var full := !cfg.multi;
      if cfg.multi {
        var r := Switch(i, n, w);
        full := r.NoFree?;
      }
      if full {
        again, k := Refused(i, n, policy, patience, k0, h);
        if !again {
          return;
        }
      }
      Yield(i, n, Load);
      again := true;
      next := LoadClaim(i, n);
    }

    /** The claim loop: the claim word's slot claimed by CAS, another segment found when it is full, or the ring full
        and the policy done with it. It ends as soon as the others leave it to, and the policy, which gives up at the
        latest when it was asked `patience` times. A claim word that named no segment would end it as a full ring
        does; none ever does. */
    method ClaimNext(i: nat, ghost n: nat, policy: nat -> Answer, ghost patience: nat)
      returns (ok: bool, w: Word, asked: nat)
      requires Valid() && At(i, n, Load) && policy(patience).Stop?
      modifies this, seqs, bodies, seals, savedResume
      ensures Valid() && old(steps) <= steps && turns <= old(turns)
      ensures ok ==> At(i, n, Fill(w)) && w.seg < cfg.segs && Patient(policy, asked)
      ensures !ok ==> At(i, n, Idle) && Unclaimed(i, n) && GaveUp(policy, asked)
      ensures HeardBy(i) == old(HeardBy(i)) + Answers(policy, asked, cfg.wakes)
      ensures turns == old(turns) ==> ok == old(Roomy())
    {
      hide *;
      ghost var h := HeardBy(i);
      RoomyIs();
      NothingAsked(policy);
      asked := 0;
      Yield(i, n, Load);
      w := LoadClaim(i, n);
      while true
        invariant Valid() && At(i, n, Look(w)) && claim == w && old(steps) <= steps && turns <= old(turns)
        invariant turns == old(turns) ==>
          || (Open() == old(Open()) && inUse == old(inUse))
          || (Open() && cfg.multi && AnyFree(cfg, old(inUse)))
        invariant w.seg < cfg.segs
        invariant Patient(policy, asked) && HeardBy(i) == h + Answers(policy, asked, cfg.wakes)
        decreases turns, patience - asked, if Open() then 0 else 1
      {
        AskedOnce(policy, asked, cfg.wakes, patience);
        Yield(i, n, Look(w));
        if w.seg >= cfg.segs {
          return false, w, asked;
        }
        var claimable := LoadSeq(i, n, w);
        if claimable {
          Yield(i, n, Cas(w));
          var actual: Word;
          ok, actual := CasClaim(i, n, w);
          if ok {
            return;
          }
          w := actual;
        } else {
          ghost var before := asked;
          ok, w, asked := Missed(i, n, w, policy, patience, asked, h);
          if !ok {
            return;
          }
          AskedOnce(policy, asked, cfg.wakes, patience);
        }
      }
    }

    lemma NothingAsked(policy: nat -> Answer)
      ensures Patient(policy, 0) && Answers(policy, 0, cfg.wakes) == []
    {
    }

    /** `send`: claim the next slot, fill it, commit it, and wake a consumer that waits for it. The one claim
        made is the message's, made during this call, and settled when it returns, unless its fill panicked on a ring
        without tombstones. A refused send claims nothing. Each time the ring is found full the policy's next answer is
        followed, and only its giving up is a refusal; a word to sleep makes the producer count itself in. Undisturbed,
        a send is refused exactly when the ring has no room, however patient the policy. */
    method Send(i: nat, n: nat, policy: nat -> Answer, panics: bool, ghost patience: nat)
      returns (r: Outcome, asked: nat)
      requires Valid() && At(i, n, Idle) && policy(patience).Stop?
      modifies this, seqs, bodies, seals, savedResume
      ensures Valid() && old(steps) <= steps && turns <= old(turns)
      ensures if r.Abandoned? then exists w :: At(i, n + 1, Fill(w)) else At(i, n + 1, Idle)
      ensures r.RingFull? ==> Unclaimed(i, n + 1)
      ensures !r.RingFull? ==> SettledSince(old(steps), i, n + 1, FateOf(r))
      ensures !r.RingFull? ==> r == if !panics then Sent else if cfg.tombs then Unwound else Abandoned
      ensures if r.RingFull? then GaveUp(policy, asked) else Patient(policy, asked)
      ensures HeardBy(i) == old(HeardBy(i)) + Answers(policy, asked, cfg.wakes) +
                            if r.RingFull? || r.Abandoned? then [] else [Ended(panics)]
      ensures cfg.wakes && (exists j :: 0 <= j < asked && policy(j).NapFirst?) ==> Counted(i, |old(steps)|)
      ensures turns == old(turns) ==> (r.RingFull? <==> !old(Roomy()))
    {
      hide *;
      ghost var start, h := steps, HeardBy(i);
      NotYet(start, i, n);
      HeardHere(i, n);
      RoomyIs();
      Begin(i, n);
      RoomyIs();
      var ok, w;
      ok, w, asked := ClaimNext(i, n + 1, policy, patience);
      if !ok {
        NapsTaken(start, h, i, n + 1, Idle, policy, asked, []);
        return RingFull, asked;
      }
      Yield(i, n + 1, Fill(w));
      WritePart(i, n + 1, w);
      if panics && !cfg.tombs {
        NapsTaken(start, h, i, n + 1, Fill(w), policy, asked, []);
        FillingNow(i, n + 1, w);
        SettledNow(start, i, n, Filling);
        FateIs(Abandoned);
        return Abandoned, asked;
      }
      EndFill(i, n + 1, w, Machine.Msg(i, n + 1), panics);
      Yield(i, n + 1, if panics then Tomb(w) else Commit(w));
      StoreSettled(i, n + 1, w, panics);
      r := if panics then Unwound else Sent;
      ghost var done := steps;
      FateIs(r);
      SettledHere(i, n + 1, FateOf(r));
      if !panics && cfg.wakes && w.waiting {
        Yield(i, n + 1, WakeConsumer(w));
        WakeUp(i, n + 1, w);
      }
      NapsTaken(start, h, i, n + 1, Idle, policy, asked, [Ended(panics)]);
      StaysSettled(done, i, n + 1, FateOf(r));
      SettledNow(start, i, n, FateOf(r));
    }

    lemma HeardHere(i: nat, n: nat)
      requires Valid() && At(i, n, Idle)
      ensures HeardBy(i) == HeardIn(cfg, producers, body, steps).producers[i]
    {
      hide Inv, Run, HeardIn;
    }

    static lemma FateIs(r: Outcome)
      ensures FateOf(r) == if r.Sent? then Committed else if r.Unwound? then Dead else Filling
    {
    }

    /** A producer at its fill has its claim, still being filled. */
    lemma FillingNow(i: nat, n: nat, w: Word)
      requires Valid() && At(i, n, Fill(w))
      ensures Settled(i, n, Filling)
    {
      hide Inv, Run, Shape;
      ClaimAtFill(cfg, Now(), i);
    }

    /** Told to sleep in this call, the producer counted itself in. */
    lemma NapsTaken(start: seq<Step>, h: seq<Cue>, i: nat, n: nat, pc: Pc, policy: nat -> Answer, asked: nat,
                    end: seq<Cue>)
      requires Valid() && start <= steps && At(i, n, pc) && !pc.CountIn?
      requires h == HeardIn(cfg, producers, body, start).producers[i]
      requires HeardBy(i) == h + Answers(policy, asked, cfg.wakes) + end
      ensures cfg.wakes && (exists j :: 0 <= j < asked && policy(j).NapFirst?) ==> Counted(i, |start|)
    {
      hide Inv, Run, HeardIn, CountedIn, Answers;
      if cfg.wakes && exists j :: 0 <= j < asked && policy(j).NapFirst? {
        var j: nat :| j < asked && policy(j).NapFirst?;
        SaysNap(policy, asked, j);
        NapsCount(cfg, producers, body, start, steps, i);
        assert HeardBy(i)[|h|..] == Answers(policy, asked, cfg.wakes) + end;
      }
    }

    /** What `Roomy` comes to, here and after the others' turn. */
    lemma RoomyIs()
      ensures Roomy() <==> Open() || (cfg.multi && AnyFree(cfg, inUse))
    {
    }

    lemma SealsHere()
      requires Valid()
      ensures seals.Length == cfg.segs
    {
      hide Inv, Run;
      InvShape(cfg, Now());
    }
  }

  /** The words `init` leaves. */
  lemma FirstWords(c: Config, producers: nat, body: Msg)
    requires Good(c)
    ensures var m := Init(c, producers, body).core.mem;
      && m.claim == Word(0, 0, false) && m.inUse == {0} && m.switches == m.waiters == m.wake == 0
      && m.seqs == seq(c.segs, _ => seq(c.depth, i requires i >= 0 => Claimable(i)))
      && m.bodies == seq(c.segs, _ => seq(c.depth, _ => body))
      && m.seals == seq(c.segs, _ => ClearSeal)
      && m.ckpt == Checkpoint(0, 0, seq(c.segs, _ => 0))
  {
  }
}
