/** The ring as a machine of single atomic accesses: any number of producers and one consumer, each a
    program counter with its saved locals, over one shared memory.

    - `Next` is one atomic access of one side. A `Choice` resolves what the code leaves open: a weak
      CAS that fails for no reason, a timeout, what a policy answers, what a closure writes.
    - `Runs.Run` is a run: the steps a scheduler picked, in order, from the ring `init` leaves.
    - Memory is sequentially consistent.
    - The `Ghost` part is bookkeeping no branch reads: what was claimed, what was delivered, and
      which segments the messages not yet read lie in. */
module Machine {
  import opened Laps

  /** Which ring. `multi` is the mode, `tombs` the tombstone of v1 and v2, `wakes` whether the sides
      sleep and wake (v3 and v4). `wrap` is the width positions wrap at, 0 for positions that never wrap. */
  datatype Config = Config(depth: nat, segs: nat, multi: bool, tombs: bool, wakes: bool, wrap: nat)

  /** The geometry `init` accepts. Only v3 and v4 sleep, and they have no tombstones. */
  ghost predicate Good(c: Config) {
    && c.depth >= 1
    && c.segs >= 1
    && (!c.multi ==> c.segs == 1)
    && !(c.tombs && c.wakes)
  }

  /** The claim word: current segment, next position, and the consumer's waiting flag. */
  datatype Word = Word(seg: nat, pos: nat, waiting: bool)

  /** A seal word. Not moved, its position is where the segment's next taker starts. */
  datatype Seal = Seal(moved: bool, seg: nat, pos: nat)

  /** A slot's seq word. */
  datatype SlotWord = SlotWord(pos: nat, tomb: bool)

  /** A message, named by its sender and the number of the send. Bodies are opaque to the ring, so
      a name per send is the most distinguishing content a body can have. */
  datatype Msg = Msg(pid: nat, n: nat)

  datatype Checkpoint = Checkpoint(cur: nat, pos: nat, resume: seq<nat>)

  /** The shared words. */
  datatype Memory = Memory(
    claim: Word,
    seqs: seq<seq<SlotWord>>,
    bodies: seq<seq<Msg>>,
    seals: seq<Seal>,
    inUse: set<nat>,
    switches: nat,
    waiters: nat,
    wake: nat,
    ckpt: Checkpoint)

  /** A producer's program counter with the locals that live across accesses. `w` is the claim word
      it last loaded, `k` and `start` the segment it took and its resume position, `seen` the wake
      sequence it read before looking for room. */
  datatype Pc =
    | Idle
    | Load
    | Look(w: Word)
    | Cas(w: Word)
    | Reread(w: Word)
    | FreeLoad(w: Word)
    | Take(w: Word, k: nat)
    | SealLoad(w: Word, k: nat)
    | SealClear(w: Word, k: nat, start: nat)
    | Move(w: Word, k: nat, start: nat)
    | SealStore(w: Word, k: nat)
    | CountSwitch
    | SealRestore(k: nat, start: nat)
    | BitClear(k: nat)
    | Full
    | CountIn
    | SeenLoad
    | RoomClaim(seen: nat)
    | RoomSeq(seen: nat, r: Word)
    | RoomBits(seen: nat)
    | Wait(seen: nat)
    | Asleep(seen: nat)
    | CountOut
    | Fill(w: Word)
    | Commit(w: Word)
    | Tomb(w: Word)
    | WakeConsumer(w: Word)

  /** What the ring held in segment `seg` when a producer last read a seq word: positions claimed and
      positions released. Ghost. */
  datatype Snap = Snap(seg: nat, claimed: nat, released: nat)

  /** What the consumer had done when a sleeping producer read the wake sequence: the releases of each
      segment and the seals followed. Ghost. */
  datatype Mark = Mark(released: seq<nat>, followed: nat)

  /** A producer: how many sends it began, where it is, and two ghost snapshots. */
  datatype Producer = Producer(n: nat, pc: Pc, snap: Snap, mark: Mark)

  /** Where the consumer goes after checking for sleeping producers. */
  datatype After = ToReady | ToLook | ToFlag

  datatype ConsPc =
    | Ready
    | SlotLook
    | SealLook
    | GiveBack(k: nat)
    | Empty
    | Hold
    | Store(c: nat, got: Msg)
    | Skip
    | CheckLoad(next: After)
    | Bump(next: After)
    | WakeAll(next: After)
    | FlagSet
    | Sleep(val: Word)
    | Sleeping
    | FlagClear
    | SaveResume(j: nat)
    | SaveCur
    | SavePos
    | RoleClear
    | Gone
    | LoadCur
    | LoadResume(j: nat)
    | LoadPos

  datatype Consumer = Consumer(pc: ConsPc, cur: nat, pos: nat, resume: seq<nat>, switches: nat)

  /** What has become of a claimed slot. */
  datatype Fate = Filling | Committed | Dead

  /** One entry of the claim log: whose message, at which position of which segment. */
  datatype Claimed = Claimed(msg: Msg, seg: nat, pos: nat, fate: Fate)

  /** - `log` is every claim in the order of the claim CASes, `head` how many are released, and
        `delivered` the bodies the consumer read, in order.
      - `chain` is the segments from the consumer's to the claim word's, `nxt` each one's successor.
      - `rd` and `cl` are each segment's read and claim frontiers, and position `p` of segment `k`,
        between them, is entry `off[k] + p` of the log.
      - `held` names who holds a free segment inside `switch`, `debt` who owes a segment its seal.
      - `sleepers` are the producers counted in, `lag` those that moved the ring and have not
        counted it, `wakers` those that claimed under the waiting flag and have not woken, with the
        log entry each claimed.
      - `won` counts the moves of the claim word, `followed` the seals followed, and `since` is what
        `followed` was when the present consumer claimed its role. */
  datatype Ghost = Ghost(
    log: seq<Claimed>,
    head: nat,
    delivered: seq<Msg>,
    chain: seq<nat>,
    nxt: seq<nat>,
    rd: seq<nat>,
    cl: seq<nat>,
    off: seq<int>,
    held: map<nat, nat>,
    debt: map<nat, nat>,
    sleepers: set<nat>,
    lag: set<nat>,
    wakers: map<nat, nat>,
    won: nat,
    followed: nat,
    since: nat)

  /** Everything but the producers' own state. */
  datatype Core = Core(mem: Memory, cons: Consumer, g: Ghost)

  datatype State = State(core: Core, prods: seq<Producer>)

  // ---------------------------------------------------------------- shapes

  /** Every table has one row per segment, and every row one entry per slot. */
  predicate Shape(c: Config, x: Core) {
    && c.depth >= 1
    && c.segs >= 1
    && |x.mem.seqs| == |x.mem.bodies| == |x.mem.seals| == |x.mem.ckpt.resume| == c.segs
    && |x.g.nxt| == |x.g.rd| == |x.g.cl| == |x.g.off| == |x.cons.resume| == c.segs
    && (forall k :: 0 <= k < c.segs ==> |x.mem.seqs[k]| == c.depth)
    && (forall k :: 0 <= k < c.segs ==> |x.mem.bodies[k]| == c.depth)
    && x.cons.cur < c.segs
    && ConsShape(c, x.cons.pc)
  }

  predicate ConsShape(c: Config, pc: ConsPc) {
    match pc
    case GiveBack(k) => k < c.segs
    case SaveResume(j) => j < c.segs
    case LoadResume(j) => j < c.segs
    case _ => true
  }

  /** The segments a program counter names exist. `send` and `has_room` check a loaded word before
      they use it. */
  predicate PcShape(c: Config, pc: Pc) {
    match pc
    case Cas(w) => w.seg < c.segs
    case Reread(w) => w.seg < c.segs
    case FreeLoad(w) => w.seg < c.segs
    case Take(w, k) => w.seg < c.segs && k < c.segs
    case SealLoad(w, k) => w.seg < c.segs && k < c.segs
    case SealClear(w, k, start) => w.seg < c.segs && k < c.segs
    case Move(w, k, start) => w.seg < c.segs && k < c.segs
    case SealStore(w, k) => w.seg < c.segs && k < c.segs
    case SealRestore(k, start) => k < c.segs
    case BitClear(k) => k < c.segs
    case RoomSeq(seen, r) => r.seg < c.segs
    case Fill(w) => w.seg < c.segs
    case Commit(w) => w.seg < c.segs
    case Tomb(w) => w.seg < c.segs
    case WakeConsumer(w) => w.seg < c.segs
    case _ => true
  }

  predicate WellShaped(c: Config, s: State) {
    && Shape(c, s.core)
    && forall i :: 0 <= i < |s.prods| ==> PcShape(c, s.prods[i].pc)
  }

  // ---------------------------------------------------------------- words

  /** A position as a word holds it. */
  function SeqOf(c: Config, x: nat): nat {
    if c.wrap == 0 then x else x % c.wrap
  }

  function Claimable(p: nat): SlotWord { SlotWord(p, false) }

  function CommittedAt(c: Config, p: nat): SlotWord { SlotWord(SeqOf(c, p + c.depth + 1), false) }

  function TombAt(c: Config, p: nat): SlotWord { SlotWord(SeqOf(c, p + c.depth + 1), true) }

  function ReleasedAt(c: Config, p: nat): SlotWord { SlotWord(SeqOf(c, p + c.depth), false) }

  const ClearSeal := Seal(false, 0, 0)

  function SeqAt(c: Config, m: Memory, k: nat, p: nat): SlotWord
    requires c.depth >= 1 && k < |m.seqs| && |m.seqs[k]| == c.depth
  {
    m.seqs[k][Slot(p, c.depth)]
  }

  function BodyAt(c: Config, m: Memory, k: nat, p: nat): Msg
    requires c.depth >= 1 && k < |m.bodies| && |m.bodies[k]| == c.depth
  {
    m.bodies[k][Slot(p, c.depth)]
  }

  function SetSeq(c: Config, m: Memory, k: nat, p: nat, v: SlotWord): Memory
    requires c.depth >= 1 && k < |m.seqs| && |m.seqs[k]| == c.depth
  {
    m.(seqs := m.seqs[k := m.seqs[k][Slot(p, c.depth) := v]])
  }

  function SetBody(c: Config, m: Memory, k: nat, p: nat, v: Msg): Memory
    requires c.depth >= 1 && k < |m.bodies| && |m.bodies[k]| == c.depth
  {
    m.(bodies := m.bodies[k := m.bodies[k][Slot(p, c.depth) := v]])
  }

  /** Whether some segment's bit is clear. */
  predicate AnyFree(c: Config, inUse: set<nat>) {
    exists k :: 0 <= k < c.segs && k !in inUse
  }

  /** The lowest segment whose bit is clear, looking from `from`. */
  function LowestFree(c: Config, inUse: set<nat>, from: nat): (k: nat)
    requires from <= c.segs
    requires exists k :: from <= k < c.segs && k !in inUse
    ensures from <= k < c.segs && k !in inUse
    ensures forall j :: from <= j < k ==> j in inUse
    decreases c.segs - from
  {
    if from !in inUse then from else LowestFree(c, inUse, from + 1)
  }

  /** Releases between two checks for sleeping producers: half a segment, at least one. */
  function Half(c: Config): (h: nat)
    ensures h >= 1
  {
    if c.depth / 2 >= 1 then c.depth / 2 else 1
  }

  /** A position at which the consumer checks for sleeping producers. */
  predicate AtCheck(c: Config, q: nat) {
    q % Half(c) == 0
  }

  // ---------------------------------------------------------------- accesses to shared words

  /** A won claim CAS: the word moves one position on, its flag carried over. */
  function ClaimSlot(c: Config, x: Core, i: nat, n: nat, w: Word): Core
    requires Shape(c, x) && w.seg < c.segs
  {
    var g := x.g;
    x.(mem := x.mem.(claim := Word(w.seg, SeqOf(c, w.pos + 1), w.waiting)),
       g := g.(log := g.log + [Claimed(Msg(i, n), w.seg, g.cl[w.seg], Filling)],
               cl := g.cl[w.seg := g.cl[w.seg] + 1],
               wakers := if c.wakes && w.waiting then g.wakers[i := |g.log|] else g.wakers))
  }

  /** The bit of a free segment set. */
  function TakeBit(x: Core, i: nat, k: nat): Core {
    x.(mem := x.mem.(inUse := x.mem.inUse + {k}), g := x.g.(held := x.g.held[k := i]))
  }

  function StoreSeal(x: Core, k: nat, v: Seal): Core
    requires k < |x.mem.seals|
  {
    x.(mem := x.mem.(seals := x.mem.seals[k := v]))
  }

  /** A won switch CAS: the claim word names segment `k` at its resume position. */
  function MoveRing(c: Config, x: Core, i: nat, w: Word, k: nat, start: nat): Core
    requires Shape(c, x) && w.seg < c.segs && k < c.segs
  {
    var g := x.g;
    x.(mem := x.mem.(claim := Word(k, start, w.waiting)),
       g := g.(chain := g.chain + [k],
               nxt := g.nxt[w.seg := k],
               off := g.off[k := |g.log| - g.cl[k]],
               held := g.held - {k},
               debt := g.debt[w.seg := i],
               lag := g.lag + {i},
               won := g.won + 1))
  }

  /** The old segment sealed behind the move. */
  function SealOld(c: Config, x: Core, w: Word, k: nat): Core
    requires Shape(c, x) && w.seg < c.segs
  {
    StoreSeal(x, w.seg, Seal(true, k, w.pos)).(g := x.g.(debt := x.g.debt - {w.seg}))
  }

  function AddSwitch(x: Core, i: nat): Core {
    x.(mem := x.mem.(switches := x.mem.switches + 1), g := x.g.(lag := x.g.lag - {i}))
  }

  /** The bit of a segment a lost switch held cleared. */
  function PutBack(x: Core, k: nat): Core {
    x.(mem := x.mem.(inUse := x.mem.inUse - {k}), g := x.g.(held := x.g.held - {k}))
  }

  function AddWaiter(x: Core, i: nat): Core {
    x.(mem := x.mem.(waiters := x.mem.waiters + 1), g := x.g.(sleepers := x.g.sleepers + {i}))
  }

  function DropWaiter(x: Core, i: nat): Core {
    x.(mem := x.mem.(waiters := if x.mem.waiters >= 1 then x.mem.waiters - 1 else 0),
       g := x.g.(sleepers := x.g.sleepers - {i}))
  }

  function WriteBody(c: Config, x: Core, w: Word, v: Msg): Core
    requires Shape(c, x) && w.seg < c.segs
  {
    x.(mem := SetBody(c, x.mem, w.seg, w.pos, v))
  }

  /** The commit store, or the tombstone store of an unwound fill. `idx` is the claim's log entry. */
  function CommitSlot(c: Config, x: Core, w: Word, idx: int, fate: Fate): Core
    requires Shape(c, x) && w.seg < c.segs
  {
    var v := if fate.Dead? then TombAt(c, w.pos) else CommittedAt(c, w.pos);
    x.(mem := SetSeq(c, x.mem, w.seg, w.pos, v),
       g := if 0 <= idx < |x.g.log|
            then x.g.(log := x.g.log[idx := x.g.log[idx].(fate := fate)])
            else x.g)
  }

  /** A producer's wake of the consumer: a sleeping consumer goes on, one awake is untouched. */
  function Rouse(x: Core, i: nat): Core {
    x.(cons := if x.cons.pc.Sleeping? then x.cons.(pc := FlagClear) else x.cons,
       g := x.g.(wakers := x.g.wakers - {i}))
  }

  /** The log entry a producer's claim at `w` is. */
  function EntryOf(c: Config, g: Ghost, i: nat, n: nat): int {
    FindEntry(g.log, Msg(i, n), |g.log|)
  }

  /** The last entry of `msg` before `upto`, or -1. */
  function FindEntry(log: seq<Claimed>, msg: Msg, upto: nat): (idx: int)
    requires upto <= |log|
    ensures -1 <= idx < upto
    ensures idx >= 0 ==> log[idx].msg == msg
    ensures forall j :: idx < j < upto ==> log[j].msg != msg
  {
    if upto == 0 then -1
    else if log[upto - 1].msg == msg then upto - 1
    else FindEntry(log, msg, upto - 1)
  }

  // ---------------------------------------------------------------- producers

  /** What a step resolves: `Go` is the plain way on. */
  datatype Choice = Go | Fail | GiveUp | Nap | Write(v: Msg) | Panic

  function Put(s: State, i: nat, x: Core, pc: Pc): State
    requires i < |s.prods|
  {
    State(x, s.prods[i := s.prods[i].(pc := pc)])
  }

  /** Inside `switch`. */
  predicate Switching(pc: Pc) {
    || pc.FreeLoad? || pc.Take? || pc.SealLoad? || pc.SealClear? || pc.Move? || pc.SealStore?
    || pc.CountSwitch? || pc.SealRestore? || pc.BitClear?
  }

  /** Inside `sleep_full`. */
  predicate Napping(pc: Pc) {
    || pc.CountIn? || pc.SeenLoad? || pc.RoomClaim? || pc.RoomSeq? || pc.RoomBits? || pc.Wait? || pc.Asleep?
    || pc.CountOut?
  }

  /** At a claimed slot, or past it with a wake to give. */
  predicate Owning(pc: Pc) {
    pc.Fill? || pc.Commit? || pc.Tomb? || pc.WakeConsumer?
  }

  /** One access of producer `i`, `mpsc/v3/producer.rs`. */
  function Produce(c: Config, s: State, i: nat, ch: Choice): State
    requires WellShaped(c, s) && i < |s.prods|
  {
    var pc := s.prods[i].pc;
    if Switching(pc) then SwitchStep(c, s, i)
    else if Napping(pc) then NapStep(c, s, i, ch)
    else if Owning(pc) then FillStep(c, s, i, ch)
    else SendStep(c, s, i, ch)
  }

  /** `send` up to its claim, and what the policy answers at a full ring. */
  function SendStep(c: Config, s: State, i: nat, ch: Choice): State
    requires WellShaped(c, s) && i < |s.prods|
  {
    var x, m, p := s.core, s.core.mem, s.prods[i];
    match p.pc
    case Idle => State(x, s.prods[i := p.(n := p.n + 1, pc := Load)])
    case Load => Put(s, i, x, Look(m.claim))
    case Look(w) => LookStep(c, s, i, w)
    case Cas(w) =>
      if !ch.Fail? && m.claim == w
      then Put(s, i, ClaimSlot(c, x, i, p.n, w), Fill(w))
      else Put(s, i, x, Look(m.claim))
    case Reread(w) =>
      if m.claim != w then Put(s, i, x, Look(m.claim))
      else if c.multi then Put(s, i, x, FreeLoad(w))
      else Put(s, i, x, Full)
    case Full =>
      if ch.GiveUp? then Put(s, i, x, Idle)
      else if ch.Nap? && c.wakes then Put(s, i, x, CountIn)
      else Put(s, i, x, Load)
    case _ => s
  }

  /** The load of the seq word the claim word names. A word naming no segment returns `Full`. */
  function LookStep(c: Config, s: State, i: nat, w: Word): State
    requires WellShaped(c, s) && i < |s.prods|
  {
    var x, p := s.core, s.prods[i];
    if w.seg >= c.segs then Put(s, i, x, Idle)
    else if SeqAt(c, x.mem, w.seg, w.pos) == Claimable(w.pos) then Put(s, i, x, Cas(w))
    else State(x, s.prods[i := p.(pc := Reread(w), snap := Snap(w.seg, x.g.cl[w.seg], x.g.rd[w.seg]))])
  }

  /** `switch`. */
  function SwitchStep(c: Config, s: State, i: nat): State
    requires WellShaped(c, s) && i < |s.prods|
  {
    var x, m := s.core, s.core.mem;
    match s.prods[i].pc
    case FreeLoad(w) =>
      if AnyFree(c, m.inUse) then Put(s, i, x, Take(w, LowestFree(c, m.inUse, 0)))
      else Put(s, i, x, Full)
    case Take(w, k) =>
      if k in m.inUse then Put(s, i, x, FreeLoad(w))
      else Put(s, i, TakeBit(x, i, k), SealLoad(w, k))
    case SealLoad(w, k) => Put(s, i, x, SealClear(w, k, m.seals[k].pos))
    case SealClear(w, k, start) => Put(s, i, StoreSeal(x, k, ClearSeal), Move(w, k, start))
    case Move(w, k, start) =>
      if m.claim == w then Put(s, i, MoveRing(c, x, i, w, k, start), SealStore(w, k))
      else Put(s, i, x, SealRestore(k, start))
    case SealStore(w, k) => Put(s, i, SealOld(c, x, w, k), CountSwitch)
    case CountSwitch => Put(s, i, AddSwitch(x, i), Load)
    case SealRestore(k, start) => Put(s, i, StoreSeal(x, k, Seal(false, 0, start)), BitClear(k))
    case BitClear(k) => Put(s, i, PutBack(x, k), Load)
    case _ => s
  }

  /** `sleep_full` with `has_room`. */
  function NapStep(c: Config, s: State, i: nat, ch: Choice): State
    requires WellShaped(c, s) && i < |s.prods|
  {
    var x, m, p := s.core, s.core.mem, s.prods[i];
    match p.pc
    case CountIn => Put(s, i, AddWaiter(x, i), SeenLoad)
    case SeenLoad =>
      State(x, s.prods[i := p.(pc := RoomClaim(m.wake), mark := Mark(x.g.rd, x.g.followed))])
    case RoomClaim(seen) =>
      if m.claim.seg >= c.segs then Put(s, i, x, CountOut)
      else Put(s, i, x, RoomSeq(seen, m.claim))
    case RoomSeq(seen, r) =>
      if SeqAt(c, m, r.seg, r.pos) == Claimable(r.pos) then Put(s, i, x, CountOut)
      else if c.multi then Put(s, i, x, RoomBits(seen))
      else Put(s, i, x, Wait(seen))
    case RoomBits(seen) =>
      if AnyFree(c, m.inUse) then Put(s, i, x, CountOut) else Put(s, i, x, Wait(seen))
    case Wait(seen) =>
      if !ch.Fail? && m.wake == seen then Put(s, i, x, Asleep(seen)) else Put(s, i, x, CountOut)
    case Asleep(seen) => if ch.Fail? then Put(s, i, x, CountOut) else s
    case CountOut => Put(s, i, DropWaiter(x, i), Full)
    case _ => s
  }

  /** The rest of `send`: the fill, the commit or the tombstone, and the wake. */
  function FillStep(c: Config, s: State, i: nat, ch: Choice): State
    requires WellShaped(c, s) && i < |s.prods|
  {
    var x, p := s.core, s.prods[i];
    match p.pc
    case Fill(w) =>
      if ch.Write? then Put(s, i, WriteBody(c, x, w, ch.v), p.pc)
      else if ch.Panic? && c.tombs then Put(s, i, x, Tomb(w))
      else Put(s, i, WriteBody(c, x, w, Msg(i, p.n)), Commit(w))
    case Commit(w) =>
      Put(s, i, CommitSlot(c, x, w, EntryOf(c, x.g, i, p.n), Committed),
          if c.wakes && w.waiting then WakeConsumer(w) else Idle)
    case Tomb(w) => Put(s, i, CommitSlot(c, x, w, EntryOf(c, x.g, i, p.n), Dead), Idle)
    case WakeConsumer(w) => Put(s, i, Rouse(x, i), Idle)
    case _ => s
  }

  // ---------------------------------------------------------------- the consumer

  function At(x: Core, pc: ConsPc): Core {
    x.(cons := x.cons.(pc := pc))
  }

  /** The current segment given back and the next one entered at its resume position. */
  function Follow(c: Config, x: Core, k: nat): Core
    requires Shape(c, x) && k < c.segs
  {
    var cons := x.cons;
    var resume := cons.resume[cons.cur := cons.pos];
    x.(mem := x.mem.(inUse := x.mem.inUse - {cons.cur}),
       cons := cons.(pc := if c.wakes then CheckLoad(ToLook) else SlotLook, cur := k, pos := resume[k],
                     resume := resume, switches := cons.switches + 1),
       g := x.g.(chain := if |x.g.chain| >= 1 then x.g.chain[1..] else x.g.chain,
                 followed := x.g.followed + 1))
  }

  /** The seq store that frees slot `p` of the current segment, `got` what was read there. */
  function FreeSlot(c: Config, x: Core, p: nat, got: seq<Msg>): Core
    requires Shape(c, x)
  {
    var k := x.cons.cur;
    x.(mem := SetSeq(c, x.mem, k, p, ReleasedAt(c, p)),
       g := x.g.(head := x.g.head + 1,
                 rd := x.g.rd[k := x.g.rd[k] + 1],
                 delivered := x.g.delivered + got))
  }

  /** Where the consumer goes once the check for sleepers is done. */
  function Onward(next: After): ConsPc {
    match next
    case ToReady => Ready
    case ToLook => SlotLook
    case ToFlag => FlagSet
  }

  /** Whether the claim word, flag aside, still names the consumer's place. */
  predicate Here(c: Config, w: Word, cur: nat, pos: nat) {
    if c.multi then w.seg == cur && w.pos == pos else w.pos == pos
  }

  /** Every producer asleep goes on. */
  function WakeProducers(prods: seq<Producer>): (r: seq<Producer>)
    ensures |r| == |prods|
    ensures forall i :: 0 <= i < |prods| ==>
      r[i] == if prods[i].pc.Asleep? then prods[i].(pc := CountOut) else prods[i]
  {
    if prods == [] then []
    else
      var last := prods[|prods| - 1];
      WakeProducers(prods[..|prods| - 1]) + [if last.pc.Asleep? then last.(pc := CountOut) else last]
  }

  /** One access of the consumer, `mpsc/v3/consumer.rs`. */
  function Consume(c: Config, s: State, ch: Choice): State
    requires WellShaped(c, s)
  {
    var x := s.core;
    if x.cons.pc.WakeAll? then State(At(x, Onward(x.cons.pc.next)), WakeProducers(s.prods))
    else State(ConsumeCore(c, x, ch), s.prods)
  }

  /** Inside `reserve` or `release` of a slot. */
  predicate Reading(pc: ConsPc) {
    || pc.Ready? || pc.SlotLook? || pc.SealLook? || pc.GiveBack? || pc.Empty? || pc.Hold? || pc.Store? || pc.Skip?
  }

  /** Inside `wake_producers` or `sleep_empty`. */
  predicate Resting(pc: ConsPc) {
    || pc.CheckLoad? || pc.Bump? || pc.WakeAll? || pc.FlagSet? || pc.Sleep? || pc.Sleeping? || pc.FlagClear?
  }

  function ConsumeCore(c: Config, x: Core, ch: Choice): Core
    requires Shape(c, x)
  {
    if Reading(x.cons.pc) then ReadStep(c, x, ch)
    else if Resting(x.cons.pc) then RestStep(c, x, ch)
    else HandStep(c, x)
  }

  /** `reserve`, and the guard's `release`. A tombstone is released without delivering it. */
  function ReadStep(c: Config, x: Core, ch: Choice): Core
    requires Shape(c, x)
  {
    var m, cons := x.mem, x.cons;
    match cons.pc
    case Ready => if ch.GiveUp? then At(x, SaveResume(0)) else At(x, SlotLook)
    case SlotLook =>
      var v := SeqAt(c, m, cons.cur, cons.pos);
      if v == CommittedAt(c, cons.pos) then At(x, Hold)
      else if c.tombs && v == TombAt(c, cons.pos) then At(x, Skip)
      else if c.multi then At(x, SealLook)
      else At(x, Empty)
    case SealLook =>
      var seal := m.seals[cons.cur];
      if seal.moved && seal.pos == cons.pos && seal.seg < c.segs then At(x, GiveBack(seal.seg))
      else At(x, Empty)
    case GiveBack(k) => Follow(c, x, k)
    case Empty =>
      if ch.GiveUp? then At(x, Ready)
      else if ch.Nap? && c.wakes then At(x, CheckLoad(ToFlag))
      else if ch.Nap? && !c.tombs then At(x, FlagSet)
      else At(x, SlotLook)
    case Hold =>
      if ch.GiveUp? then At(x, Ready)
      else
        x.(cons := cons.(pc := Store(cons.pos, BodyAt(c, m, cons.cur, cons.pos)), pos := SeqOf(c, cons.pos + 1)))
    case Store(p, got) =>
      At(FreeSlot(c, x, p, [got]),
         if c.wakes && AtCheck(c, cons.pos) then CheckLoad(ToReady) else Ready)
    case Skip =>
      FreeSlot(c, x, cons.pos, []).(cons := cons.(pc := SlotLook, pos := SeqOf(c, cons.pos + 1)))
    case _ => x
  }

  /** `wake_producers` and `sleep_empty`. A ring without wakes polls where it would sleep. */
  function RestStep(c: Config, x: Core, ch: Choice): Core
    requires Shape(c, x)
  {
    var m, cons := x.mem, x.cons;
    match cons.pc
    case CheckLoad(next) => if m.waiters == 0 then At(x, Onward(next)) else At(x, Bump(next))
    case Bump(next) => At(x.(mem := m.(wake := m.wake + 1)), WakeAll(next))
    case FlagSet =>
      At(x.(mem := m.(claim := m.claim.(waiting := true))),
         if Here(c, m.claim, cons.cur, cons.pos) then Sleep(m.claim.(waiting := true)) else FlagClear)
    case Sleep(val) => if c.wakes && !ch.Fail? && m.claim == val then At(x, Sleeping) else At(x, FlagClear)
    case Sleeping => if ch.Fail? then At(x, FlagClear) else x
    case FlagClear => At(x.(mem := m.(claim := m.claim.(waiting := false))), Empty)
    case _ => x
  }

  /** `release` of the consumer with `store_consumer`, and `claim_consumer` with `load_consumer`. The
      state a handle held is gone with it. */
  function HandStep(c: Config, x: Core): Core
    requires Shape(c, x)
  {
    var m, cons := x.mem, x.cons;
    match cons.pc
    case SaveResume(j) =>
      At(x.(mem := m.(ckpt := m.ckpt.(resume := m.ckpt.resume[j := cons.resume[j]]))),
         if j + 1 < c.segs then SaveResume(j + 1) else SaveCur)
    case SaveCur => At(x.(mem := m.(ckpt := m.ckpt.(cur := cons.cur))), SavePos)
    case SavePos => At(x.(mem := m.(ckpt := m.ckpt.(pos := cons.pos))), RoleClear)
    case RoleClear => x.(cons := Consumer(Gone, 0, 0, seq(c.segs, _ => 0), 0))
    case Gone => At(x, LoadCur)
    case LoadCur =>
      if m.ckpt.cur >= c.segs then At(x, Gone)
      else x.(cons := cons.(pc := LoadResume(0), cur := m.ckpt.cur))
    case LoadResume(j) =>
      x.(cons := cons.(resume := cons.resume[j := m.ckpt.resume[j]],
                       pc := if j + 1 < c.segs then LoadResume(j + 1) else LoadPos))
    case LoadPos =>
      x.(cons := cons.(pc := Ready, pos := m.ckpt.pos), g := x.g.(since := x.g.followed))
    case _ => x
  }

  // ---------------------------------------------------------------- runs

  /** A scheduler's pick: who moves next, and how what is open resolves. */
  datatype Step = ByProducer(i: nat, ch: Choice) | ByConsumer(ch: Choice)

  function Next(c: Config, s: State, step: Step): (t: State)
    requires WellShaped(c, s)
    ensures |t.prods| == |s.prods|
  {
    match step
    case ByProducer(i, ch) => if i < |s.prods| then Produce(c, s, i, ch) else s
    case ByConsumer(ch) => Consume(c, s, ch)
  }

  /** The ring as `init` leaves it, for `producers` producers. Every slot body holds `body`, any one message:
      no access reads a body before a fill wrote it. */
  function Init(c: Config, producers: nat, body: Msg): State
    requires Good(c)
  {
    var zeros := seq(c.segs, _ => 0);
    var mem := Memory(Word(0, 0, false),
                      seq(c.segs, _ => seq(c.depth, i requires i >= 0 => Claimable(i))),
                      seq(c.segs, _ => seq(c.depth, _ => body)),
                      seq(c.segs, _ => ClearSeal),
                      {0}, 0, 0, 0, Checkpoint(0, 0, zeros));
    var g := Ghost([], 0, [], [0], zeros, zeros, zeros, seq(c.segs, _ => 0), map[], map[], {}, {}, map[], 0, 0, 0);
    State(Core(mem, Consumer(Gone, 0, 0, zeros, 0), g),
          seq(producers, _ => Producer(0, Idle, Snap(0, 0, 0), Mark([], 0))))
  }
}
