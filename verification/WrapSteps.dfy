/** One access of the ring with wrapped words is the same access of the ring without, read wrapped, as long
    as no producer compares a word a whole width old. */
module WrapSteps {
  import opened Machine
  import opened Invariant
  import opened Runs
  import opened Segments
  import opened Wrapping

  // ---------------------------------------------------------------- the core functions

  lemma ClaimWraps(c: Config, d: Config, x: Core, i: nat, n: nat, w: Word)
    requires Wraps(c, d) && Shape(c, x) && w.seg < c.segs
    ensures Shape(d, WrapCore(d, x))
    ensures ClaimSlot(d, WrapCore(d, x), i, n, WrapWord(d, w)) == WrapCore(d, ClaimSlot(c, x, i, n, w))
  {
    hide SeqOf, Shape;
    WrapShape(c, d, x);
    WordsWrap(c, d, w.pos);
  }

  lemma MoveWraps(c: Config, d: Config, x: Core, i: nat, w: Word, k: nat, start: nat)
    requires Wraps(c, d) && Shape(c, x) && w.seg < c.segs && k < c.segs
    ensures Shape(d, WrapCore(d, x))
    ensures MoveRing(d, WrapCore(d, x), i, WrapWord(d, w), k, SeqOf(d, start)) ==
            WrapCore(d, MoveRing(c, x, i, w, k, start))
  {
    hide SeqOf, Shape;
    WrapShape(c, d, x);
  }

  lemma SealOldWraps(c: Config, d: Config, x: Core, w: Word, k: nat)
    requires Wraps(c, d) && Shape(c, x) && w.seg < c.segs
    ensures Shape(d, WrapCore(d, x))
    ensures SealOld(d, WrapCore(d, x), WrapWord(d, w), k) == WrapCore(d, SealOld(c, x, w, k))
  {
    hide SeqOf, StoreSeal;
    WrapShape(c, d, x);
    WriteSeal(c, d, x, w.seg, Seal(true, k, w.pos));
    SealOldIs(d, WrapCore(d, x), WrapWord(d, w), k);
    SealOldIs(c, x, w, k);
  }

  lemma SealOldIs(c: Config, x: Core, w: Word, k: nat)
    requires Shape(c, x) && w.seg < c.segs
    ensures SealOld(c, x, w, k) ==
      Core(StoreSeal(x, w.seg, Seal(true, k, w.pos)).mem, x.cons, x.g.(debt := x.g.debt - {w.seg}))
    ensures StoreSeal(x, w.seg, Seal(true, k, w.pos)).cons == x.cons
    ensures StoreSeal(x, w.seg, Seal(true, k, w.pos)).g == x.g
  {
  }

  lemma WriteWraps(c: Config, d: Config, x: Core, w: Word, v: Msg)
    requires Wraps(c, d) && Shape(c, x) && w.seg < c.segs
    ensures Shape(d, WrapCore(d, x))
    ensures WriteBody(d, WrapCore(d, x), WrapWord(d, w), v) == WrapCore(d, WriteBody(c, x, w, v))
  {
    hide SeqOf, SetBody, WrapMemory;
    WrapShape(c, d, x);
    FillSlot(c, d, x, w.seg, w.pos, v);
  }

  lemma CommitWraps(c: Config, d: Config, x: Core, w: Word, idx: int, fate: Fate)
    requires Wraps(c, d) && Shape(c, x) && w.seg < c.segs
    ensures Shape(d, WrapCore(d, x))
    ensures CommitSlot(d, WrapCore(d, x), WrapWord(d, w), idx, fate) == WrapCore(d, CommitSlot(c, x, w, idx, fate))
  {
    hide SeqOf, SetSeq, WrapMemory;
    WrapShape(c, d, x);
    WordsWrap(c, d, w.pos);
    var v := if fate.Dead? then TombAt(c, w.pos) else CommittedAt(c, w.pos);
    WriteSlot(c, d, x, w.seg, w.pos, v);
  }

  lemma FreeWraps(c: Config, d: Config, x: Core, p: nat, got: seq<Msg>)
    requires Wraps(c, d) && Shape(c, x)
    ensures Shape(d, WrapCore(d, x))
    ensures FreeSlot(d, WrapCore(d, x), SeqOf(d, p), got) == WrapCore(d, FreeSlot(c, x, p, got))
  {
    hide SeqOf, SetSeq, WrapMemory;
    WrapShape(c, d, x);
    WordsWrap(c, d, p);
    WriteSlot(c, d, x, x.cons.cur, p, ReleasedAt(c, p));
  }

  lemma FollowWraps(c: Config, d: Config, x: Core, k: nat)
    requires Wraps(c, d) && Shape(c, x) && k < c.segs && x.cons.pc.GiveBack?
    ensures Shape(d, WrapCore(d, x))
    ensures Follow(d, WrapCore(d, x), k) == WrapCore(d, Follow(c, x, k))
  {
    hide SeqOf;
    WrapShape(c, d, x);
    assert WrapAll(d, x.cons.resume)[x.cons.cur := SeqOf(d, x.cons.pos)] ==
           WrapAll(d, x.cons.resume[x.cons.cur := x.cons.pos]);
  }

  lemma PutWraps(d: Config, s: State, i: nat, y: Core, q: Producer)
    requires i < |s.prods|
    ensures State(WrapCore(d, y), WrapProducers(d, s.prods)[i := q.(pc := WrapPc(d, q.pc))]) ==
            Wrap(d, State(y, s.prods[i := q]))
  {
    hide WrapPc, WrapCore;
    assert WrapProducers(d, s.prods)[i := q.(pc := WrapPc(d, q.pc))] == WrapProducers(d, s.prods[i := q]);
  }

  // ---------------------------------------------------------------- producers

  /** What a producer's comparisons come to, wrapped or not. */
  lemma TestsAgree(c: Config, d: Config, s: State, i: nat)
    requires Wraps(c, d) && Inv(c, s) && i < |s.prods| && WellShaped(c, s) && Fresh(c, d, s, i)
    ensures var x, pc := s.core, s.prods[i].pc;
      && (pc.Look? && pc.w.seg < c.segs ==>
            (WrapSlot(d, SeqAt(c, x.mem, pc.w.seg, pc.w.pos)) == WrapSlot(d, Claimable(pc.w.pos)) <==>
             SeqAt(c, x.mem, pc.w.seg, pc.w.pos) == Claimable(pc.w.pos)))
      && (pc.RoomSeq? && pc.r.seg < c.segs ==>
            (WrapSlot(d, SeqAt(c, x.mem, pc.r.seg, pc.r.pos)) == WrapSlot(d, Claimable(pc.r.pos)) <==>
             SeqAt(c, x.mem, pc.r.seg, pc.r.pos) == Claimable(pc.r.pos)))
      && (pc.Cas? || pc.Reread? || pc.Move? ==>
            (WrapWord(d, x.mem.claim) == WrapWord(d, pc.w) <==> x.mem.claim == pc.w))
  {
    hide Inv, SeqOf, SeqAt, WrapSlot, WrapWord, Shape, Slots, Chained, Fronts, Owns, Numbers, Keeps, Owes, Current,
         Wraps;
    RingLocalOf(c, s, i);
    ChainFacts(c, s);
    SlotFacts(c, s);
    var x, pc := s.core, s.prods[i].pc;
    assert FreshPc(c, d, x, pc);
    if pc.Look? && pc.w.seg < c.segs {
      SlotAgrees(c, d, x, pc.w);
    } else if pc.RoomSeq? {
      SlotAgrees(c, d, x, pc.r);
    } else if pc.Cas? || pc.Reread? || pc.Move? {
      ClaimAgrees(c, d, x, pc.w);
    }
  }

  lemma SendWraps(c: Config, d: Config, s: State, i: nat, ch: Choice)
    requires Wraps(c, d) && Inv(c, s) && i < |s.prods| && WellShaped(c, s) && Fresh(c, d, s, i)
    requires !s.prods[i].pc.Look? && !s.prods[i].pc.Cas?
    ensures WellShaped(d, Wrap(d, s)) && SendStep(d, Wrap(d, s), i, ch) == Wrap(d, SendStep(c, s, i, ch))
  {
    hide Inv, SeqOf, SeqAt, ClaimSlot, LookStep, Shape, Fresh, WrapCore;
    var p, x := s.prods[i], s.core;
    WrapWell(c, d, s);
    TestsAgree(c, d, s, i);
    GhostIs(d, x);
    PutWraps(d, s, i, x, p.(n := p.n + 1, pc := Load));
    PutWraps(d, s, i, x, p.(pc := Look(x.mem.claim)));
    PutWraps(d, s, i, x, p.(pc := Load));
    PutWraps(d, s, i, x, p.(pc := Full));
    PutWraps(d, s, i, x, p.(pc := Idle));
    PutWraps(d, s, i, x, p.(pc := CountIn));
    if p.pc.Reread? {
      PutWraps(d, s, i, x, p.(pc := FreeLoad(p.pc.w)));
    }
  }

  lemma CasWraps(c: Config, d: Config, s: State, i: nat, ch: Choice, w: Word)
    requires Wraps(c, d) && Inv(c, s) && i < |s.prods| && WellShaped(c, s) && Fresh(c, d, s, i)
    requires s.prods[i].pc == Cas(w)
    ensures WellShaped(d, Wrap(d, s)) && SendStep(d, Wrap(d, s), i, ch) == Wrap(d, SendStep(c, s, i, ch))
  {
    hide Inv, SeqOf, SeqAt, ClaimSlot, LookStep, Shape, Fresh, WrapCore;
    var p, x := s.prods[i], s.core;
    WrapWell(c, d, s);
    TestsAgree(c, d, s, i);
    GhostIs(d, x);
    ClaimWraps(c, d, x, i, p.n, w);
    PutWraps(d, s, i, ClaimSlot(c, x, i, p.n, w), p.(pc := Fill(w)));
    PutWraps(d, s, i, x, p.(pc := Look(x.mem.claim)));
  }

  lemma LookWraps(c: Config, d: Config, s: State, i: nat, w: Word)
    requires Wraps(c, d) && Inv(c, s) && i < |s.prods| && WellShaped(c, s) && Fresh(c, d, s, i)
    requires s.prods[i].pc == Look(w)
    ensures WellShaped(d, Wrap(d, s)) && LookStep(d, Wrap(d, s), i, WrapWord(d, w)) == Wrap(d, LookStep(c, s, i, w))
  {
    hide Inv, SeqOf, SeqAt, Shape, Fresh, WrapCore, WrapSlot;
    var p, x := s.prods[i], s.core;
    WrapWell(c, d, s);
    TestsAgree(c, d, s, i);
    GhostIs(d, x);
    LookSizes(c, s, w);
    if w.seg < c.segs {
      ReadSlot(c, d, x, w.seg, w.pos);
      WordsWrap(c, d, w.pos);
      PutWraps(d, s, i, x, p.(pc := Reread(w), snap := Snap(w.seg, x.g.cl[w.seg], x.g.rd[w.seg])));
    }
    PutWraps(d, s, i, x, p.(pc := Idle));
    PutWraps(d, s, i, x, p.(pc := Cas(w)));
  }

  lemma LookSizes(c: Config, s: State, w: Word)
    requires WellShaped(c, s)
    ensures |s.core.g.cl| == |s.core.g.rd| == c.segs
  {
  }

  lemma GhostIs(d: Config, x: Core)
    ensures WrapCore(d, x).g == x.g
    ensures WrapCore(d, x).mem.inUse == x.mem.inUse
    ensures WrapCore(d, x).mem.wake == x.mem.wake
    ensures WrapCore(d, x).mem.claim == WrapWord(d, x.mem.claim)
  {
  }

  lemma SwitchWraps(c: Config, d: Config, s: State, i: nat)
    requires Wraps(c, d) && Inv(c, s) && i < |s.prods| && WellShaped(c, s) && Fresh(c, d, s, i)
    requires Switching(s.prods[i].pc)
    ensures WellShaped(d, Wrap(d, s)) && SwitchStep(d, Wrap(d, s), i) == Wrap(d, SwitchStep(c, s, i))
  {
    WrapWell(c, d, s);
    if s.prods[i].pc.FreeLoad? || s.prods[i].pc.Take? || s.prods[i].pc.SealLoad? {
      TakeWraps(c, d, s, i);
    } else if s.prods[i].pc.SealClear? || s.prods[i].pc.SealRestore? {
      StoreWraps(c, d, s, i);
    } else {
      LeaveWraps(c, d, s, i);
    }
  }

  lemma TakeWraps(c: Config, d: Config, s: State, i: nat)
    requires Wraps(c, d) && i < |s.prods| && WellShaped(c, s) && WellShaped(d, Wrap(d, s))
    requires s.prods[i].pc.FreeLoad? || s.prods[i].pc.Take? || s.prods[i].pc.SealLoad?
    ensures SwitchStep(d, Wrap(d, s), i) == Wrap(d, SwitchStep(c, s, i))
  {
    hide SeqOf, Shape, LowestFree, WrapConsumer;
    var p, x := s.prods[i], s.core;
    FreeAlike(c, d, x.mem.inUse);
    match p.pc
    case FreeLoad(w) =>
      PutWraps(d, s, i, x, p.(pc := Full));
      if AnyFree(c, x.mem.inUse) {
        PutWraps(d, s, i, x, p.(pc := Take(w, LowestFree(c, x.mem.inUse, 0))));
      }
    case Take(w, k) =>
      PutWraps(d, s, i, x, p.(pc := FreeLoad(w)));
      PutWraps(d, s, i, TakeBit(x, i, k), p.(pc := SealLoad(w, k)));
    case SealLoad(w, k) =>
      SealsFit(c, s, i);
      PutWraps(d, s, i, x, p.(pc := SealClear(w, k, x.mem.seals[k].pos)));
  }

  lemma SealsFit(c: Config, s: State, i: nat)
    requires WellShaped(c, s) && i < |s.prods|
    ensures |s.core.mem.seals| == c.segs && PcShape(c, s.prods[i].pc)
  {
  }

  /** The lowest free segment does not depend on how positions are stored. */
  lemma FreeAlike(c: Config, d: Config, inUse: set<nat>)
    requires d.segs == c.segs
    ensures AnyFree(d, inUse) <==> AnyFree(c, inUse)
    ensures AnyFree(c, inUse) ==> LowestFree(d, inUse, 0) == LowestFree(c, inUse, 0)
  {
  }

  lemma StoreWraps(c: Config, d: Config, s: State, i: nat)
    requires Wraps(c, d) && i < |s.prods| && WellShaped(c, s) && WellShaped(d, Wrap(d, s))
    requires s.prods[i].pc.SealClear? || s.prods[i].pc.SealRestore?
    ensures SwitchStep(d, Wrap(d, s), i) == Wrap(d, SwitchStep(c, s, i))
  {
    hide SeqOf, Shape, LowestFree, AnyFree, WrapCore, StoreSeal, WellShaped;
    var p, x := s.prods[i], s.core;
    SealsFit(c, s, i);
    WordsWrap(c, d, 0);
    match p.pc
    case SealClear(w, k, start) =>
      WriteSeal(c, d, x, k, ClearSeal);
      PutWraps(d, s, i, StoreSeal(x, k, ClearSeal), p.(pc := Move(w, k, start)));
    case SealRestore(k, start) =>
      WriteSeal(c, d, x, k, Seal(false, 0, start));
      PutWraps(d, s, i, StoreSeal(x, k, Seal(false, 0, start)), p.(pc := BitClear(k)));
  }

  lemma LeaveWraps(c: Config, d: Config, s: State, i: nat)
    requires Wraps(c, d) && Inv(c, s) && i < |s.prods| && WellShaped(c, s) && Fresh(c, d, s, i)
    requires WellShaped(d, Wrap(d, s))
    requires var pc := s.prods[i].pc; pc.Move? || pc.SealStore? || pc.CountSwitch? || pc.BitClear?
    ensures SwitchStep(d, Wrap(d, s), i) == Wrap(d, SwitchStep(c, s, i))
  {
    hide Inv, SeqOf, Shape, LowestFree, AnyFree, WrapConsumer, Fresh, MoveRing, SealOld;
    var p, x := s.prods[i], s.core;
    SealsFit(c, s, i);
    TestsAgree(c, d, s, i);
    match p.pc
    case Move(w, k, start) =>
      MoveWraps(c, d, x, i, w, k, start);
      PutWraps(d, s, i, MoveRing(c, x, i, w, k, start), p.(pc := SealStore(w, k)));
      PutWraps(d, s, i, x, p.(pc := SealRestore(k, start)));
    case SealStore(w, k) =>
      SealOldWraps(c, d, x, w, k);
      PutWraps(d, s, i, SealOld(c, x, w, k), p.(pc := CountSwitch));
    case CountSwitch =>
      PutWraps(d, s, i, AddSwitch(x, i), p.(pc := Load));
    case BitClear(k) =>
      PutWraps(d, s, i, PutBack(x, k), p.(pc := Load));
  }

  lemma RoomClaimWraps(c: Config, d: Config, s: State, i: nat, ch: Choice)
    requires Wraps(c, d) && i < |s.prods| && WellShaped(c, s) && s.prods[i].pc.RoomClaim?
    ensures WellShaped(d, Wrap(d, s)) && NapStep(d, Wrap(d, s), i, ch) == Wrap(d, NapStep(c, s, i, ch))
  {
    hide SeqOf, SeqAt, Shape, WrapCore, AnyFree, WrapSlot, AddWaiter, DropWaiter;
    var p, x := s.prods[i], s.core;
    WrapWell(c, d, s);
    GhostIs(d, x);
    PutWraps(d, s, i, x, p.(pc := CountOut));
    PutWraps(d, s, i, x, p.(pc := RoomSeq(p.pc.seen, x.mem.claim)));
  }

  lemma RoomSeqWraps(c: Config, d: Config, s: State, i: nat, ch: Choice)
    requires Wraps(c, d) && Inv(c, s) && i < |s.prods| && WellShaped(c, s) && Fresh(c, d, s, i)
    requires s.prods[i].pc.RoomSeq?
    ensures WellShaped(d, Wrap(d, s)) && NapStep(d, Wrap(d, s), i, ch) == Wrap(d, NapStep(c, s, i, ch))
  {
    hide Inv, SeqOf, SeqAt, Shape, Fresh, WrapCore, AnyFree, WrapSlot, AddWaiter, DropWaiter, WellShaped;
    var p, x := s.prods[i], s.core;
    WrapWell(c, d, s);
    GhostIs(d, x);
    TestsAgree(c, d, s, i);
    SeqNamed(c, s, i);
    ReadSlot(c, d, x, p.pc.r.seg, p.pc.r.pos);
    WordsWrap(c, d, p.pc.r.pos);
    PutWraps(d, s, i, x, p.(pc := CountOut));
    PutWraps(d, s, i, x, p.(pc := RoomBits(p.pc.seen)));
    PutWraps(d, s, i, x, p.(pc := Wait(p.pc.seen)));
  }

  lemma SeqNamed(c: Config, s: State, i: nat)
    requires WellShaped(c, s) && i < |s.prods| && s.prods[i].pc.RoomSeq?
    ensures Shape(c, s.core) && s.prods[i].pc.r.seg < c.segs
  {
    hide Shape;
  }

  lemma CountsWrap(c: Config, d: Config, s: State, i: nat, ch: Choice)
    requires Wraps(c, d) && i < |s.prods| && WellShaped(c, s)
    requires s.prods[i].pc.CountIn? || s.prods[i].pc.SeenLoad? || s.prods[i].pc.CountOut?
    ensures WellShaped(d, Wrap(d, s)) && NapStep(d, Wrap(d, s), i, ch) == Wrap(d, NapStep(c, s, i, ch))
  {
    hide SeqOf, SeqAt, Shape, WrapCore, AnyFree, WrapSlot, AddWaiter, DropWaiter, WellShaped, WrapWord;
    var p, x := s.prods[i], s.core;
    WrapWell(c, d, s);
    GhostIs(d, x);
    WaiterWraps(d, x, i);
    match p.pc
    case CountIn => PutWraps(d, s, i, AddWaiter(x, i), p.(pc := SeenLoad));
    case SeenLoad => PutWraps(d, s, i, x, p.(pc := RoomClaim(x.mem.wake), mark := Mark(x.g.rd, x.g.followed)));
    case CountOut => PutWraps(d, s, i, DropWaiter(x, i), p.(pc := Full));
  }

  lemma WaitsWrap(c: Config, d: Config, s: State, i: nat, ch: Choice)
    requires Wraps(c, d) && i < |s.prods| && WellShaped(c, s)
    requires s.prods[i].pc.RoomBits? || s.prods[i].pc.Wait? || s.prods[i].pc.Asleep?
    ensures WellShaped(d, Wrap(d, s)) && NapStep(d, Wrap(d, s), i, ch) == Wrap(d, NapStep(c, s, i, ch))
  {
    hide SeqOf, SeqAt, Shape, WrapCore, AnyFree, WrapSlot, AddWaiter, DropWaiter, WellShaped, WrapWord;
    var p, x := s.prods[i], s.core;
    WrapWell(c, d, s);
    GhostIs(d, x);
    FreeAlike(c, d, x.mem.inUse);
    PutWraps(d, s, i, x, p.(pc := CountOut));
    match p.pc
    case RoomBits(seen) => PutWraps(d, s, i, x, p.(pc := Wait(seen)));
    case Wait(seen) => PutWraps(d, s, i, x, p.(pc := Asleep(seen)));
    case Asleep(_) =>
  }

  lemma NapWraps(c: Config, d: Config, s: State, i: nat, ch: Choice)
    requires Wraps(c, d) && Inv(c, s) && i < |s.prods| && WellShaped(c, s) && Fresh(c, d, s, i)
    requires Napping(s.prods[i].pc)
    ensures WellShaped(d, Wrap(d, s)) && NapStep(d, Wrap(d, s), i, ch) == Wrap(d, NapStep(c, s, i, ch))
  {
    hide Inv, WellShaped, Fresh, NapStep, Wrap, Wraps;
    var pc := s.prods[i].pc;
    if pc.RoomClaim? {
      RoomClaimWraps(c, d, s, i, ch);
    } else if pc.RoomSeq? {
      RoomSeqWraps(c, d, s, i, ch);
    } else if pc.RoomBits? || pc.Wait? || pc.Asleep? {
      WaitsWrap(c, d, s, i, ch);
    } else {
      CountsWrap(c, d, s, i, ch);
    }
  }

  lemma WaiterWraps(d: Config, x: Core, i: nat)
    ensures AddWaiter(WrapCore(d, x), i) == WrapCore(d, AddWaiter(x, i))
    ensures DropWaiter(WrapCore(d, x), i) == WrapCore(d, DropWaiter(x, i))
  {
    hide SeqOf, WrapConsumer;
  }

  lemma FillWraps(c: Config, d: Config, s: State, i: nat, ch: Choice)
    requires Wraps(c, d) && i < |s.prods| && WellShaped(c, s) && Owning(s.prods[i].pc)
    ensures WellShaped(d, Wrap(d, s)) && FillStep(d, Wrap(d, s), i, ch) == Wrap(d, FillStep(c, s, i, ch))
  {
    hide SeqOf, Shape, WriteBody, CommitSlot, EntryOf, WrapCore, Rouse, WellShaped, Wraps;
    var p, x := s.prods[i], s.core;
    WrapWell(c, d, s);
    GhostIs(d, x);
    WrapsAlike(c, d);
    OwningNamed(c, s, i);
    match p.pc
    case Fill(w) => WritesWrap(c, d, s, i, w, if ch.Write? then ch.v else Msg(i, p.n));
    case Commit(w) => SettleWraps(c, d, s, i, Committed, if c.wakes && w.waiting then WakeConsumer(w) else Idle);
    case Tomb(_) => SettleWraps(c, d, s, i, Dead, Idle);
    case WakeConsumer(_) =>
      RouseWraps(d, x, i);
      PutWraps(d, s, i, Rouse(x, i), p.(pc := Idle));
  }

  lemma WrapsAlike(c: Config, d: Config)
    requires Wraps(c, d)
    ensures d == c.(wrap := d.wrap)
  {
  }

  lemma OwningNamed(c: Config, s: State, i: nat)
    requires WellShaped(c, s) && i < |s.prods| && Owning(s.prods[i].pc)
    ensures Shape(c, s.core) && s.prods[i].pc.w.seg < c.segs
  {
    hide Shape;
  }

  lemma WritesWrap(c: Config, d: Config, s: State, i: nat, w: Word, v: Msg)
    requires Wraps(c, d) && i < |s.prods| && Shape(c, s.core) && w.seg < c.segs && s.prods[i].pc == Fill(w)
    ensures Shape(d, WrapCore(d, s.core))
    ensures var y := WriteBody(d, WrapCore(d, s.core), WrapWord(d, w), v);
      var t, z := Wrap(d, s), WriteBody(c, s.core, w, v);
      && Put(t, i, y, Fill(WrapWord(d, w))) == Wrap(d, Put(s, i, z, Fill(w)))
      && Put(t, i, y, Commit(WrapWord(d, w))) == Wrap(d, Put(s, i, z, Commit(w)))
      && Put(t, i, t.core, Tomb(WrapWord(d, w))) == Wrap(d, Put(s, i, s.core, Tomb(w)))
  {
    hide SeqOf, Shape, WriteBody, WrapCore, WrapWord;
    var p, x := s.prods[i], s.core;
    WriteWraps(c, d, x, w, v);
    PutWraps(d, s, i, WriteBody(c, x, w, v), p.(pc := Fill(w)));
    PutWraps(d, s, i, WriteBody(c, x, w, v), p.(pc := Commit(w)));
    PutWraps(d, s, i, x, p.(pc := Tomb(w)));
  }

  lemma RouseWraps(d: Config, x: Core, i: nat)
    ensures Rouse(WrapCore(d, x), i) == WrapCore(d, Rouse(x, i))
  {
    hide WrapMemory, SeqOf;
  }

  lemma SettleWraps(c: Config, d: Config, s: State, i: nat, fate: Fate, pc: Pc)
    requires Wraps(c, d) && i < |s.prods| && Shape(c, s.core) && Fills(s.prods[i].pc)
    requires s.prods[i].pc.w.seg < c.segs
    ensures Shape(d, WrapCore(d, s.core))
    ensures var p, x := s.prods[i], s.core;
      var y := CommitSlot(c, x, p.pc.w, EntryOf(c, x.g, i, p.n), fate);
      State(CommitSlot(d, WrapCore(d, x), WrapWord(d, p.pc.w), EntryOf(d, x.g, i, p.n), fate),
            WrapProducers(d, s.prods)[i := p.(pc := WrapPc(d, pc))]) ==
      Wrap(d, State(y, s.prods[i := p.(pc := pc)]))
  {
    hide SeqOf, Shape, CommitSlot, FindEntry, WrapPc;
    var p, x := s.prods[i], s.core;
    var idx := EntryOf(c, x.g, i, p.n);
    CommitWraps(c, d, x, p.pc.w, idx, fate);
    PutWraps(d, s, i, CommitSlot(c, x, p.pc.w, idx, fate), p.(pc := pc));
  }

  lemma ProduceWraps(c: Config, d: Config, s: State, i: nat, ch: Choice)
    requires Wraps(c, d) && Inv(c, s) && i < |s.prods| && WellShaped(c, s) && Fresh(c, d, s, i)
    ensures WellShaped(d, Wrap(d, s)) && Produce(d, Wrap(d, s), i, ch) == Wrap(d, Produce(c, s, i, ch))
  {
    hide Inv, SeqOf, WellShaped, Fresh, SwitchStep, NapStep, FillStep, LookStep, WrapCore, ClaimSlot;
    WrapWell(c, d, s);
    var pc := s.prods[i].pc;
    if Switching(pc) {
      SwitchWraps(c, d, s, i);
    } else if Napping(pc) {
      NapWraps(c, d, s, i, ch);
    } else if Owning(pc) {
      FillWraps(c, d, s, i, ch);
    } else if pc.Look? {
      LookWraps(c, d, s, i, pc.w);
    } else if pc.Cas? {
      CasWraps(c, d, s, i, ch, pc.w);
    } else {
      SendWraps(c, d, s, i, ch);
    }
  }

  // ---------------------------------------------------------------- the consumer

  /** What the consumer's comparisons come to, wrapped or not. */
  lemma LooksAgree(c: Config, d: Config, s: State)
    requires Wraps(c, d) && Inv(c, s) && WellShaped(c, s)
    ensures Shape(c, s.core)
    ensures var x := s.core;
      var v := SeqAt(c, x.mem, x.cons.cur, x.cons.pos);
      && (x.cons.pc.SlotLook? ==>
            && (WrapSlot(d, v) == WrapSlot(d, CommittedAt(c, x.cons.pos)) <==> v == CommittedAt(c, x.cons.pos))
            && (WrapSlot(d, v) == WrapSlot(d, TombAt(c, x.cons.pos)) <==> v == TombAt(c, x.cons.pos)))
      && (x.cons.pc.SealLook? && x.mem.seals[x.cons.cur].moved ==>
            (SeqOf(d, x.mem.seals[x.cons.cur].pos) == SeqOf(d, x.cons.pos) <==>
             x.mem.seals[x.cons.cur].pos == x.cons.pos))
      && (x.cons.pc.FlagSet? ==>
            (Here(d, WrapWord(d, x.mem.claim), x.cons.cur, SeqOf(d, x.cons.pos)) <==>
             Here(c, x.mem.claim, x.cons.cur, x.cons.pos)))
      && (x.cons.pc.Sleep? ==>
            (WrapWord(d, x.mem.claim) == WrapWord(d, x.cons.pc.val) <==> x.mem.claim == x.cons.pc.val))
  {
    hide Inv, SeqOf, SeqAt, WrapSlot, WrapWord, Here, Slots, Sealed, Chained, Fronts, Bits, Holding, Owed, Wraps;
    var x := s.core;
    ChainFacts(c, s);
    SlotFacts(c, s);
    PlacementFacts(c, s);
    Sleeps(c, s);
    if x.cons.pc.SlotLook? {
      LookAgrees(c, d, x, x.cons.cur);
    } else if x.cons.pc.SealLook? && x.mem.seals[x.cons.cur].moved {
      SealAgrees(c, d, x);
    } else if x.cons.pc.FlagSet? || x.cons.pc.Sleep? {
      HereAgrees(c, d, x);
    }
  }

  lemma Sleeps(c: Config, s: State)
    requires Inv(c, s)
    ensures s.core.cons.pc.Sleep? ==> s.core.cons.pc.val == Word(s.core.cons.cur, s.core.cons.pos, true)
  {
    hide RingInv, Placement, Holding, Owed, Counted, Local, Ranged;
  }

  lemma AtWraps(d: Config, x: Core, pc: ConsPc)
    ensures At(WrapCore(d, x), WrapConsPc(d, pc)) == WrapCore(d, At(x, pc))
  {
    hide WrapMemory, SeqOf;
  }

  lemma ReadWraps(c: Config, d: Config, s: State, ch: Choice)
    requires Wraps(c, d) && Inv(c, s) && WellShaped(c, s)
    requires var pc := s.core.cons.pc; pc.Ready? || pc.SlotLook? || pc.SealLook? || pc.Empty?
    ensures Shape(d, WrapCore(d, s.core)) && Shape(c, s.core)
    ensures ReadStep(d, WrapCore(d, s.core), ch) == WrapCore(d, ReadStep(c, s.core, ch))
  {
    hide Inv, SeqOf, SeqAt, Shape, WrapCore, WrapSlot, FreeSlot, Follow, At;
    var x := s.core;
    LooksAgree(c, d, s);
    WrapShape(c, d, x);
    ConsIs(d, x);
    WordsWrap(c, d, x.cons.pos);
    forall pc: ConsPc
      ensures At(WrapCore(d, x), WrapConsPc(d, pc)) == WrapCore(d, At(x, pc))
    {
      AtWraps(d, x, pc);
    }
    CurFits(c, x);
    ReadSlot(c, d, x, x.cons.cur, x.cons.pos);
    match x.cons.pc
    case SlotLook =>
      assert At(WrapCore(d, x), WrapConsPc(d, Hold)) == WrapCore(d, At(x, Hold));
      assert At(WrapCore(d, x), WrapConsPc(d, Skip)) == WrapCore(d, At(x, Skip));
      assert At(WrapCore(d, x), WrapConsPc(d, SealLook)) == WrapCore(d, At(x, SealLook));
      assert At(WrapCore(d, x), WrapConsPc(d, Empty)) == WrapCore(d, At(x, Empty));
    case SealLook =>
      var seal := x.mem.seals[x.cons.cur];
      assert At(WrapCore(d, x), WrapConsPc(d, GiveBack(seal.seg))) == WrapCore(d, At(x, GiveBack(seal.seg)));
      assert At(WrapCore(d, x), WrapConsPc(d, Empty)) == WrapCore(d, At(x, Empty));
    case Ready =>
      assert At(WrapCore(d, x), WrapConsPc(d, SaveResume(0))) == WrapCore(d, At(x, SaveResume(0)));
      assert At(WrapCore(d, x), WrapConsPc(d, SlotLook)) == WrapCore(d, At(x, SlotLook));
    case Empty =>
      assert At(WrapCore(d, x), WrapConsPc(d, Ready)) == WrapCore(d, At(x, Ready));
      assert At(WrapCore(d, x), WrapConsPc(d, CheckLoad(ToFlag))) == WrapCore(d, At(x, CheckLoad(ToFlag)));
      assert At(WrapCore(d, x), WrapConsPc(d, FlagSet)) == WrapCore(d, At(x, FlagSet));
      assert At(WrapCore(d, x), WrapConsPc(d, SlotLook)) == WrapCore(d, At(x, SlotLook));
  }

  lemma ConsIs(d: Config, x: Core)
    ensures WrapCore(d, x).cons.pc == WrapConsPc(d, x.cons.pc)
    ensures WrapCore(d, x).cons.cur == x.cons.cur
    ensures WrapCore(d, x).cons.pos == SeqOf(d, x.cons.pos)
    ensures |WrapCore(d, x).mem.seals| == |x.mem.seals|
    ensures forall k :: 0 <= k < |x.mem.seals| ==> WrapCore(d, x).mem.seals[k] == WrapSeal(d, x.mem.seals[k])
  {
  }

  lemma CurFits(c: Config, x: Core)
    requires Shape(c, x)
    ensures x.cons.cur < c.segs && |x.mem.seals| == c.segs
    ensures x.cons.pc.GiveBack? ==> x.cons.pc.k < c.segs
  {
  }

  lemma HoldWraps(c: Config, d: Config, x: Core, ch: Choice)
    requires Wraps(c, d) && Shape(c, x) && (x.cons.pc.Hold? || x.cons.pc.GiveBack?)
    ensures Shape(d, WrapCore(d, x))
    ensures ReadStep(d, WrapCore(d, x), ch) == WrapCore(d, ReadStep(c, x, ch))
  {
    hide SeqOf, Shape, WrapMemory, BodyAt, Follow;
    WrapShape(c, d, x);
    CurFits(c, x);
    match x.cons.pc
    case Hold =>
      ReadSlot(c, d, x, x.cons.cur, x.cons.pos);
      WordsWrap(c, d, x.cons.pos);
    case GiveBack(k) => FollowWraps(c, d, x, k);
  }

  lemma FreesWrap(c: Config, d: Config, x: Core, ch: Choice)
    requires Wraps(c, d) && Shape(c, x) && (x.cons.pc.Store? || x.cons.pc.Skip?)
    ensures Shape(d, WrapCore(d, x))
    ensures ReadStep(d, WrapCore(d, x), ch) == WrapCore(d, ReadStep(c, x, ch))
  {
    hide SeqOf, Shape, WrapMemory, FreeSlot, AtCheck;
    WrapShape(c, d, x);
    match x.cons.pc
    case Store(p, got) =>
      FreeWraps(c, d, x, p, [got]);
      CheckOfSeq(c, d, x.cons.pos);
    case Skip =>
      FreeWraps(c, d, x, x.cons.pos, []);
      WordsWrap(c, d, x.cons.pos);
      FreeKeepsPos(c, x, x.cons.pos, []);
  }

  lemma FreeKeepsPos(c: Config, x: Core, p: nat, got: seq<Msg>)
    requires Shape(c, x)
    ensures FreeSlot(c, x, p, got).cons == x.cons
  {
  }

  lemma RestWraps(c: Config, d: Config, s: State, ch: Choice)
    requires Wraps(c, d) && Inv(c, s) && WellShaped(c, s) && Resting(s.core.cons.pc)
    ensures Shape(d, WrapCore(d, s.core)) && Shape(c, s.core)
    ensures RestStep(d, WrapCore(d, s.core), ch) == WrapCore(d, RestStep(c, s.core, ch))
  {
    hide Inv, SeqOf, Shape, Here, WrapSeals, WrapSeqs, WrapAll;
    LooksAgree(c, d, s);
    WrapShape(c, d, s.core);
  }

  lemma HandWraps(c: Config, d: Config, x: Core)
    requires Wraps(c, d) && Shape(c, x)
    ensures Shape(d, WrapCore(d, x))
    ensures HandStep(d, WrapCore(d, x)) == WrapCore(d, HandStep(c, x))
  {
    hide SeqOf;
    WrapShape(c, d, x);
    WordsWrap(c, d, 0);
    match x.cons.pc
    case SaveResume(j) =>
      assert WrapAll(d, x.mem.ckpt.resume)[j := SeqOf(d, x.cons.resume[j])] ==
             WrapAll(d, x.mem.ckpt.resume[j := x.cons.resume[j]]);
    case LoadResume(j) =>
      assert WrapAll(d, x.cons.resume)[j := SeqOf(d, x.mem.ckpt.resume[j])] ==
             WrapAll(d, x.cons.resume[j := x.mem.ckpt.resume[j]]);
    case RoleClear =>
      SmallSeq(c, d, 0);
      assert WrapAll(d, seq(c.segs, _ => 0)) == seq(d.segs, _ => 0);
    case _ =>
  }

  lemma {:induction false} WakeWraps(d: Config, prods: seq<Producer>)
    ensures WakeProducers(WrapProducers(d, prods)) == WrapProducers(d, WakeProducers(prods))
  {
    hide SeqOf;
  }

  lemma WakeAllWraps(d: Config, s: State)
    requires s.core.cons.pc.WakeAll?
    ensures var next := Onward(s.core.cons.pc.next);
      State(At(WrapCore(d, s.core), next), WakeProducers(WrapProducers(d, s.prods))) ==
      Wrap(d, State(At(s.core, next), WakeProducers(s.prods)))
  {
    hide SeqOf, WrapCore, At;
    WakeWraps(d, s.prods);
    AtWraps(d, s.core, Onward(s.core.cons.pc.next));
  }

  lemma ConsumeWraps(c: Config, d: Config, s: State, ch: Choice)
    requires Wraps(c, d) && Inv(c, s) && WellShaped(c, s)
    ensures WellShaped(d, Wrap(d, s)) && Consume(d, Wrap(d, s), ch) == Wrap(d, Consume(c, s, ch))
  {
    hide Inv, SeqOf, WellShaped, Shape, ReadStep, RestStep, HandStep, WrapCore, At;
    var x := s.core;
    WrapWell(c, d, s);
    WrapShapes(c, s);
    ConsIs(d, x);
    if x.cons.pc.WakeAll? {
      WakeAllWraps(d, s);
    } else if Reading(x.cons.pc) {
      if x.cons.pc.Hold? || x.cons.pc.GiveBack? {
        HoldWraps(c, d, x, ch);
      } else if x.cons.pc.Store? || x.cons.pc.Skip? {
        FreesWrap(c, d, x, ch);
      } else {
        ReadWraps(c, d, s, ch);
      }
    } else if Resting(x.cons.pc) {
      RestWraps(c, d, s, ch);
    } else {
      HandWraps(c, d, x);
    }
  }

  lemma WrapShapes(c: Config, s: State)
    requires WellShaped(c, s)
    ensures Shape(c, s.core)
  {
  }

  // ---------------------------------------------------------------- runs

  /** One access of either side, wrapped or not, comes to the same state read wrapped. */
  lemma NextWraps(c: Config, d: Config, s: State, step: Step)
    requires Wraps(c, d) && Inv(c, s) && WellShaped(c, s) && Timely(c, d, s, step)
    ensures WellShaped(d, Wrap(d, s)) && Next(d, Wrap(d, s), step) == Wrap(d, Next(c, s, step))
  {
    hide Inv, WellShaped, Fresh, Produce, Consume, WrapCore, Wraps;
    WrapWell(c, d, s);
    match step
    case ByProducer(i, ch) => if i < |s.prods| { ProduceWraps(c, d, s, i, ch); }
    case ByConsumer(ch) => ConsumeWraps(c, d, s, ch);
  }

  lemma InitWraps(c: Config, d: Config, producers: nat, body: Msg)
    requires Wraps(c, d)
    ensures Good(d) && Wrap(d, Init(c, producers, body)) == Init(d, producers, body)
  {
    hide SeqOf;
    var a, b := Wrap(d, Init(c, producers, body)), Init(d, producers, body);
    forall i | 0 <= i < c.depth
      ensures SeqOf(d, i) == i
    {
      SmallSeq(c, d, i);
    }
    SmallSeq(c, d, 0);
    forall k | 0 <= k < c.segs
      ensures a.core.mem.seqs[k] == b.core.mem.seqs[k]
    {
    }
    assert a.core.mem.seqs == b.core.mem.seqs;
    assert a.core.mem.seals == b.core.mem.seals;
    assert a.core.mem.bodies == b.core.mem.bodies;
    assert a.core.mem.ckpt == b.core.mem.ckpt;
    assert a.core.cons == b.core.cons;
    assert a.prods == b.prods;
  }

  /** No access of the run compares a word a width old. */
  ghost predicate AllTimely(c: Config, d: Config, producers: nat, body: Msg, steps: seq<Step>)
    requires Good(c)
  {
    forall n :: 0 <= n < |steps| ==>
      var s := Run(c, producers, body, steps[..n]); Shape(c, s.core) && Timely(c, d, s, steps[n])
  }

  /** Every run of the ring as the program stores it, started as `init` leaves it, goes through exactly the
      states of the unwrapped run of the same schedule, read wrapped, as long as no access compares a word
      held across a whole width of claims in one segment. So what the consumer is delivered, which sends are
      claimed and in what order, are those of the unwrapped run, with all that holds of it. */
  lemma {:induction false} RunWraps(c: Config, d: Config, producers: nat, body: Msg, steps: seq<Step>)
    requires Wraps(c, d) && Good(c) && Good(d)
    requires AllTimely(c, d, producers, body, steps)
    ensures Run(d, producers, body, steps) == Wrap(d, Run(c, producers, body, steps))
    ensures Run(d, producers, body, steps).core.g == Run(c, producers, body, steps).core.g
    decreases |steps|
  {
    hide Inv, WellShaped, Timely, Next, Init, Wraps, Shape, WrapCore, WrapProducers, SeqOf;
    InitWraps(c, d, producers, body);
    GhostIs(d, Run(c, producers, body, steps).core);
    if steps != [] {
      var m := |steps| - 1;
      forall n | 0 <= n < m
        ensures steps[..m][..n] == steps[..n] && steps[..m][n] == steps[n]
      {
      }
      RunWraps(c, d, producers, body, steps[..m]);
      PlainOf(c, d);
      RunNext(c, producers, body, steps[..m], steps[m]);
      assert steps[..m] + [steps[m]] == steps;
      NextWraps(c, d, Run(c, producers, body, steps[..m]), steps[m]);
    }
  }

  lemma PlainOf(c: Config, d: Config)
    requires Wraps(c, d)
    ensures Plain(c)
  {
  }
}
