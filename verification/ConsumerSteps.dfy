/** Every step of the consumer keeps the invariant. */
module ConsumerSteps {
  import opened Machine
  import opened Invariant
  import opened ConsumerProofs

  /** The invariant's core, and what comes with it. */
  lemma InvCore(c: Config, s: State)
    requires Inv(c, s)
    ensures CoreInv(c, s.core) && Shape(c, s.core) && Ranged(s.core.g, |s.prods|)
  {
    hide Chained, Fronts, Ordered, Placed, Slots, Sealed, Bits, Logged, Delivered, Placement, Holding, Flagged, Owed,
         Counted, Local, Ranged;
  }

  lemma InvLocal(c: Config, s: State, j: nat)
    requires Inv(c, s) && j < |s.prods|
    ensures Shape(c, s.core) && Local(c, j, s.prods[j], s.core)
  {
    hide Chained, Fronts, Ordered, Placed, Slots, Sealed, Bits, Logged, Delivered, Placement, Holding, Flagged, Owed,
         Counted, Local, Ranged;
  }

  lemma CoreShape(c: Config, x: Core)
    requires CoreInv(c, x)
    ensures Shape(c, x)
  {
    hide Chained, Fronts, Ordered, Placed, Slots, Sealed, Bits, Logged, Delivered, Placement, Holding, Flagged, Owed,
         Counted;
  }

  /** A step that writes no bookkeeping of who owns what keeps it in range. */
  lemma ConsRanged(x: Core, y: Core, producers: nat)
    requires Ranged(x.g, producers)
    requires y.g.log == x.g.log && y.g.debt == x.g.debt && y.g.held == x.g.held
    requires y.g.wakers == x.g.wakers && y.g.sleepers == x.g.sleepers && y.g.lag == x.g.lag
    ensures Ranged(y.g, producers)
  {
  }

  lemma PutCore(c: Config, s: State, y: Core, prods: seq<Producer>)
    requires CoreInv(c, y) && Shape(c, y) && Ranged(y.g, |prods|)
    requires forall j :: 0 <= j < |prods| ==> Local(c, j, prods[j], y)
    ensures Inv(c, State(y, prods))
  {
    hide CoreInv, Local, Ranged;
  }

  // ---------------------------------------------------------------- reads

  /** A look: the program counter moves and nothing else does. */
  lemma LookKeeps(c: Config, s: State, pc: ConsPc)
    requires Plain(c) && Inv(c, s) && Looks(s.core.cons.pc) && (Looks(pc) || pc == SaveResume(0))
    requires Shape(c, At(s.core, pc)) && Holding(c, At(s.core, pc))
    ensures Inv(c, State(At(s.core, pc), s.prods))
  {
    hide CoreInv, Local, Inv, Ranged, Holding, Shape;
    InvCore(c, s);
    LookCore(c, s.core, pc);
    forall j | 0 <= j < |s.prods|
      ensures Local(c, j, s.prods[j], At(s.core, pc))
    {
      InvLocal(c, s, j);
      LookLocal(c, s.core, At(s.core, pc), j, s.prods[j]);
    }
    ConsRanged(s.core, At(s.core, pc), |s.prods|);
    PutCore(c, s, At(s.core, pc), s.prods);
  }

  /** What each look may come to holds there. */
  lemma LookHolds(c: Config, x: Core)
    requires Plain(c) && CoreInv(c, x)
    ensures forall pc: ConsPc :: (pc.Ready? || pc.SlotLook? || pc.SealLook? || pc.Empty? || pc == SaveResume(0)) ==>
      Shape(c, At(x, pc)) && Holding(c, At(x, pc))
    ensures x.cons.pc.SlotLook? && SeqAt(c, x.mem, x.cons.cur, x.cons.pos) == CommittedAt(c, x.cons.pos) ==>
      Shape(c, At(x, Hold)) && Holding(c, At(x, Hold))
    ensures x.cons.pc.SlotLook? && c.tombs && SeqAt(c, x.mem, x.cons.cur, x.cons.pos) == TombAt(c, x.cons.pos) ==>
      Shape(c, At(x, Skip)) && Holding(c, At(x, Skip))
  {
    CoreShape(c, x);
    if x.cons.pc.SlotLook? {
      SlotShowsFate(c, x);
    }
    hide CoreInv;
  }

  lemma ReadLooks(c: Config, s: State, ch: Choice)
    requires Plain(c) && Inv(c, s) && Shape(c, s.core)
    requires var pc := s.core.cons.pc; pc.Ready? || pc.SlotLook? || pc.SealLook? || (pc.Hold? && ch.GiveUp?)
    ensures Inv(c, State(ReadStep(c, s.core, ch), s.prods))
  {
    hide CoreInv, Local, Inv, Ranged, Holding;
    var x := s.core;
    InvCore(c, s);
    LookHolds(c, x);
    match x.cons.pc
    case Ready => LookKeeps(c, s, if ch.GiveUp? then SaveResume(0) else SlotLook);
    case SlotLook =>
      var v := SeqAt(c, x.mem, x.cons.cur, x.cons.pos);
      LookKeeps(c, s, if v == CommittedAt(c, x.cons.pos) then Hold
                      else if c.tombs && v == TombAt(c, x.cons.pos) then Skip
                      else if c.multi then SealLook else Empty);
    case SealLook =>
      var seal := x.mem.seals[x.cons.cur];
      if seal.moved && seal.pos == x.cons.pos && seal.seg < c.segs {
        SealShowsNext(c, x);
        LookKeeps(c, s, GiveBack(seal.seg));
      } else {
        LookKeeps(c, s, Empty);
      }
    case Hold => LookKeeps(c, s, Ready);
  }

  lemma EmptyKeeps(c: Config, s: State, ch: Choice)
    requires Plain(c) && Inv(c, s) && Shape(c, s.core) && s.core.cons.pc.Empty?
    ensures Inv(c, State(ReadStep(c, s.core, ch), s.prods))
  {
    hide CoreInv, Local, Inv, Ranged, Holding;
    var x := s.core;
    InvCore(c, s);
    LookHolds(c, x);
    if ch.Nap? && (c.wakes || !c.tombs) {
      var pc := if c.wakes then CheckLoad(ToFlag) else FlagSet;
      EmptyCore(c, x, pc);
      forall j | 0 <= j < |s.prods|
        ensures Local(c, j, s.prods[j], At(x, pc))
      {
        InvLocal(c, s, j);
        EmptyLocal(c, x, pc, j, s.prods[j]);
      }
      ConsRanged(x, At(x, pc), |s.prods|);
      PutCore(c, s, At(x, pc), s.prods);
    } else {
      LookKeeps(c, s, if ch.GiveUp? then Ready else SlotLook);
    }
  }

  lemma HoldKeeps(c: Config, s: State, ch: Choice)
    requires Plain(c) && Inv(c, s) && Shape(c, s.core) && s.core.cons.pc.Hold? && !ch.GiveUp?
    ensures Inv(c, State(ReadStep(c, s.core, ch), s.prods))
  {
    hide CoreInv, Local, Inv, Ranged;
    var x := s.core;
    var y := x.(cons := x.cons.(pc := Store(x.cons.pos, BodyAt(c, x.mem, x.cons.cur, x.cons.pos)),
                                pos := SeqOf(c, x.cons.pos + 1)));
    InvCore(c, s);
    HoldCore(c, x, y);
    forall j | 0 <= j < |s.prods|
      ensures Local(c, j, s.prods[j], y)
    {
      InvLocal(c, s, j);
      LookLocal(c, x, y, j, s.prods[j]);
    }
    ConsRanged(x, y, |s.prods|);
    PutCore(c, s, y, s.prods);
  }

  lemma FreeKeeps(c: Config, s: State, ch: Choice)
    requires Plain(c) && Inv(c, s) && Shape(c, s.core) && (s.core.cons.pc.Store? || s.core.cons.pc.Skip?)
    ensures Inv(c, State(ReadStep(c, s.core, ch), s.prods))
  {
    hide CoreInv, Local, Inv, Ranged, Freeing;
    var x := s.core;
    InvCore(c, s);
    var p := if x.cons.pc.Store? then x.cons.pc.c else x.cons.pos;
    var got := if x.cons.pc.Store? then [x.cons.pc.got] else [];
    var pc := if x.cons.pc.Skip? then SlotLook
              else if c.wakes && AtCheck(c, x.cons.pos) then CheckLoad(ToReady) else Ready;
    var y := ReadStep(c, x, ch);
    FreeReady(c, x, y, p, got, pc, ch);
    FreeCore(c, x, y, p, got, pc);
    forall j | 0 <= j < |s.prods|
      ensures Local(c, j, s.prods[j], y)
    {
      InvLocal(c, s, j);
      FreeLocal(c, x, y, p, got, pc, j, s.prods[j]);
    }
    ConsRanged(x, y, |s.prods|);
    PutCore(c, s, y, s.prods);
  }

  lemma FreeReady(c: Config, x: Core, y: Core, p: nat, got: seq<Msg>, pc: ConsPc, ch: Choice)
    requires Plain(c) && CoreInv(c, x) && Shape(c, x) && (x.cons.pc.Store? || x.cons.pc.Skip?)
    requires p == if x.cons.pc.Store? then x.cons.pc.c else x.cons.pos
    requires got == if x.cons.pc.Store? then [x.cons.pc.got] else []
    requires pc == if x.cons.pc.Skip? then SlotLook
                   else if c.wakes && AtCheck(c, x.cons.pos) then CheckLoad(ToReady) else Ready
    requires y == ReadStep(c, x, ch)
    ensures Freeing(c, x, y, p, got, pc) && Shape(c, y)
  {
    hide CoreInv;
    FreePlace(c, x);
  }

  lemma FreePlace(c: Config, x: Core)
    requires Plain(c) && CoreInv(c, x)
    ensures x.cons.pc.Store? ==> x.cons.pos == x.cons.pc.c + 1
  {
    hide RingInv, Flagged, Owed, Counted;
  }

  lemma FollowKeeps(c: Config, s: State, ch: Choice)
    requires Plain(c) && Inv(c, s) && Shape(c, s.core) && s.core.cons.pc.GiveBack?
    ensures Inv(c, State(ReadStep(c, s.core, ch), s.prods))
  {
    hide CoreInv, Local, Inv, Ranged;
    var x := s.core;
    var k := x.cons.pc.k;
    InvCore(c, s);
    var y := Follow(c, x, k);
    FollowCore(c, x, y, k);
    forall j | 0 <= j < |s.prods|
      ensures Local(c, j, s.prods[j], y)
    {
      InvLocal(c, s, j);
      FollowLocal(c, x, y, k, j, s.prods[j]);
    }
    ConsRanged(x, y, |s.prods|);
    PutCore(c, s, y, s.prods);
  }

  // ---------------------------------------------------------------- rests

  lemma CheckKeeps(c: Config, s: State, ch: Choice)
    requires Plain(c) && Inv(c, s) && Shape(c, s.core) && s.core.cons.pc.CheckLoad?
    ensures Inv(c, State(RestStep(c, s.core, ch), s.prods))
  {
    hide CoreInv, Local, Inv, Ranged;
    var x := s.core;
    var pc := if x.mem.waiters == 0 then Onward(x.cons.pc.next) else Bump(x.cons.pc.next);
    InvCore(c, s);
    CheckedCore(c, x, pc);
    forall j | 0 <= j < |s.prods|
      ensures Local(c, j, s.prods[j], At(x, pc))
    {
      InvLocal(c, s, j);
      CheckedLocal(c, x, pc, j, s.prods[j]);
    }
    ConsRanged(x, At(x, pc), |s.prods|);
    PutCore(c, s, At(x, pc), s.prods);
  }

  lemma BumpKeeps(c: Config, s: State, ch: Choice)
    requires Plain(c) && Inv(c, s) && Shape(c, s.core) && s.core.cons.pc.Bump?
    ensures Inv(c, State(RestStep(c, s.core, ch), s.prods))
  {
    hide CoreInv, Local, Inv, Ranged;
    var x := s.core;
    var y := At(x.(mem := x.mem.(wake := x.mem.wake + 1)), WakeAll(x.cons.pc.next));
    InvCore(c, s);
    BumpCore(c, x, y);
    forall j | 0 <= j < |s.prods|
      ensures Local(c, j, s.prods[j], y)
    {
      InvLocal(c, s, j);
      BumpLocal(c, x, y, j, s.prods[j]);
    }
    ConsRanged(x, y, |s.prods|);
    PutCore(c, s, y, s.prods);
  }

  lemma WakeKeeps(c: Config, s: State)
    requires Plain(c) && Inv(c, s) && Shape(c, s.core) && s.core.cons.pc.WakeAll?
    ensures Inv(c, State(At(s.core, Onward(s.core.cons.pc.next)), WakeProducers(s.prods)))
  {
    hide CoreInv, Local, Inv, Ranged;
    var x := s.core;
    var y := At(x, Onward(x.cons.pc.next));
    var prods := WakeProducers(s.prods);
    InvCore(c, s);
    WakeCore(c, x);
    forall j | 0 <= j < |prods|
      ensures Local(c, j, prods[j], y)
    {
      InvLocal(c, s, j);
      WakeLocal(c, x, j, s.prods[j]);
    }
    ConsRanged(x, y, |s.prods|);
    PutCore(c, s, y, prods);
  }

  lemma FlagKeeps(c: Config, s: State, ch: Choice)
    requires Plain(c) && Inv(c, s) && Shape(c, s.core) && (s.core.cons.pc.FlagSet? || s.core.cons.pc.FlagClear?)
    ensures Inv(c, State(RestStep(c, s.core, ch), s.prods))
  {
    hide CoreInv, Local, Inv, Ranged;
    var x := s.core;
    var y := RestStep(c, x, ch);
    InvCore(c, s);
    assert Flagging(c, x, y);
    FlagCore(c, x, y);
    forall j | 0 <= j < |s.prods|
      ensures Local(c, j, s.prods[j], y)
    {
      InvLocal(c, s, j);
      FlagLocal(c, x, y, j, s.prods[j]);
    }
    ConsRanged(x, y, |s.prods|);
    PutCore(c, s, y, s.prods);
  }

  lemma SleepKeeps(c: Config, s: State, ch: Choice)
    requires Plain(c) && Inv(c, s) && Shape(c, s.core) && (s.core.cons.pc.Sleep? || s.core.cons.pc.Sleeping?)
    ensures Inv(c, State(RestStep(c, s.core, ch), s.prods))
  {
    hide CoreInv, Local, Inv, Ranged;
    var x := s.core;
    var y := RestStep(c, x, ch);
    InvCore(c, s);
    if x.cons.pc.Sleep? {
      SleepCore(c, x, y.cons.pc);
    } else if ch.Fail? {
      StirCore(c, x);
    }
    forall j | 0 <= j < |s.prods|
      ensures Local(c, j, s.prods[j], y)
    {
      InvLocal(c, s, j);
      RestLocal(c, x, y, j, s.prods[j]);
    }
    ConsRanged(x, y, |s.prods|);
    PutCore(c, s, y, s.prods);
  }

  lemma HandKeeps(c: Config, s: State)
    requires Plain(c) && Inv(c, s) && Shape(c, s.core) && Handing(s.core.cons.pc)
    ensures Inv(c, State(HandStep(c, s.core), s.prods))
  {
    hide CoreInv, Local, Inv, Ranged, HandStep;
    var x := s.core;
    var y := HandStep(c, x);
    InvCore(c, s);
    HandCore(c, x);
    HandWrites(c, x);
    forall j | 0 <= j < |s.prods|
      ensures Local(c, j, s.prods[j], y)
    {
      InvLocal(c, s, j);
      HandLocal(c, x, j, s.prods[j]);
    }
    ConsRanged(x, y, |s.prods|);
    PutCore(c, s, y, s.prods);
  }

  lemma ReadKeeps(c: Config, s: State, ch: Choice)
    requires Plain(c) && Inv(c, s) && Shape(c, s.core) && Reading(s.core.cons.pc)
    ensures Inv(c, State(ReadStep(c, s.core, ch), s.prods))
  {
    hide Inv, ReadStep, Shape;
    var pc := s.core.cons.pc;
    if pc.GiveBack? {
      FollowKeeps(c, s, ch);
    } else if pc.Empty? {
      EmptyKeeps(c, s, ch);
    } else if pc.Store? || pc.Skip? {
      FreeKeeps(c, s, ch);
    } else if pc.Hold? && !ch.GiveUp? {
      HoldKeeps(c, s, ch);
    } else {
      ReadLooks(c, s, ch);
    }
  }

  lemma RestKeeps(c: Config, s: State, ch: Choice)
    requires Plain(c) && Inv(c, s) && Shape(c, s.core) && Resting(s.core.cons.pc) && !s.core.cons.pc.WakeAll?
    ensures Inv(c, State(RestStep(c, s.core, ch), s.prods))
  {
    hide Inv, RestStep, Shape;
    var pc := s.core.cons.pc;
    if pc.CheckLoad? {
      CheckKeeps(c, s, ch);
    } else if pc.Bump? {
      BumpKeeps(c, s, ch);
    } else if pc.FlagSet? || pc.FlagClear? {
      FlagKeeps(c, s, ch);
    } else {
      SleepKeeps(c, s, ch);
    }
  }

  lemma ConsumeKeeps(c: Config, s: State, ch: Choice)
    requires Plain(c) && Inv(c, s) && WellShaped(c, s)
    ensures Inv(c, Consume(c, s, ch))
  {
    hide Inv, ReadStep, RestStep, HandStep, Shape;
    var pc := s.core.cons.pc;
    if pc.WakeAll? {
      WakeKeeps(c, s);
    } else if Reading(pc) {
      ReadKeeps(c, s, ch);
    } else if Resting(pc) {
      RestKeeps(c, s, ch);
    } else {
      HandKeeps(c, s);
    }
  }
}
