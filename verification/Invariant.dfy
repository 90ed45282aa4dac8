/** What every step of the machine keeps, for positions that never wrap. The core's parts come first,
    then what each producer's program counter promises. */
module Invariant {
  import opened Machine

  /** The configurations of the proofs: any depth, any number of segments, unbounded positions. */
  ghost predicate Plain(c: Config) {
    Good(c) && c.wrap == 0
  }

  // ---------------------------------------------------------------- the core

  /** The segments from the consumer's to the claim word's are distinct and each names its successor. */
  ghost predicate Chained(c: Config, x: Core)
    requires Shape(c, x)
  {
    var ch := x.g.chain;
    && |ch| >= 1
    && (forall j :: 0 <= j < |ch| ==> ch[j] < c.segs)
    && (forall i, j :: 0 <= i < j < |ch| ==> ch[i] != ch[j])
    && x.mem.claim.seg == ch[|ch| - 1]
    && x.mem.claim.pos == x.g.cl[ch[|ch| - 1]]
    && (forall i, j :: 0 <= i && j == i + 1 && j < |ch| ==> x.g.nxt[ch[i]] == ch[j])
  }

  /** No segment holds more than its depth, and only the chain holds anything. */
  ghost predicate Fronts(c: Config, x: Core)
    requires Shape(c, x)
  {
    forall k :: 0 <= k < c.segs ==>
      && x.g.rd[k] <= x.g.cl[k] <= x.g.rd[k] + c.depth
      && (k !in x.g.chain ==> x.g.rd[k] == x.g.cl[k])
  }

  /** The log's unread part is the chain's unread positions, segment by segment. */
  ghost predicate Ordered(c: Config, x: Core)
    requires Shape(c, x) && Chained(c, x)
  {
    var g := x.g;
    && (forall i, j :: 0 <= i < j < |g.chain| ==>
          g.off[g.chain[i]] + g.cl[g.chain[i]] <= g.off[g.chain[j]] + g.rd[g.chain[j]])
    && (forall j :: 0 <= j < |g.chain| ==>
          g.head <= g.off[g.chain[j]] + g.rd[g.chain[j]] && g.off[g.chain[j]] + g.cl[g.chain[j]] <= |g.log|)
    && g.head == g.off[g.chain[0]] + g.rd[g.chain[0]]
    && |g.log| == g.off[g.chain[|g.chain| - 1]] + g.cl[g.chain[|g.chain| - 1]]
  }

  /** Each entry of the log not yet read lies where it says, in the chain. */
  ghost predicate Placed(c: Config, x: Core)
    requires Shape(c, x)
  {
    forall n :: x.g.head <= n < |x.g.log| ==> EntryPlaced(c, x, n)
  }

  ghost predicate EntryPlaced(c: Config, x: Core, n: nat)
    requires Shape(c, x) && n < |x.g.log|
  {
    var e := x.g.log[n];
    && e.seg < c.segs
    && e.seg in x.g.chain
    && x.g.off[e.seg] + e.pos == n
    && x.g.rd[e.seg] <= e.pos < x.g.cl[e.seg]
  }

  /** The slot words of every segment: one lap from the read frontier on, claimable from the claim
      frontier, and before it as the fate of the claim says. */
  ghost predicate Slots(c: Config, x: Core)
    requires Shape(c, x)
  {
    forall k, p :: 0 <= k < c.segs && x.g.rd[k] <= p < x.g.rd[k] + c.depth ==> SlotOk(c, x, k, p)
  }

  ghost predicate SlotOk(c: Config, x: Core, k: nat, p: nat)
    requires Shape(c, x) && k < c.segs
  {
    if p >= x.g.cl[k] then SeqAt(c, x.mem, k, p) == Claimable(p)
    else
      var n := x.g.off[k] + p;
      && 0 <= n < |x.g.log|
      && match x.g.log[n].fate
         case Filling => SeqAt(c, x.mem, k, p) == Claimable(p)
         case Committed =>
           SeqAt(c, x.mem, k, p) == CommittedAt(c, p) && BodyAt(c, x.mem, k, p) == x.g.log[n].msg
         case Dead => c.tombs && SeqAt(c, x.mem, k, p) == TombAt(c, p)
  }

  /** A link of the chain is stored in its segment's seal, or owed by a producer with the seal still
      clear. A free segment's seal keeps its resume position. */
  ghost predicate Sealed(c: Config, x: Core)
    requires Shape(c, x) && Chained(c, x)
  {
    && (forall j :: 0 <= j < |x.g.chain| - 1 ==> LinkOk(c, x, x.g.chain[j]))
    && !x.mem.seals[x.mem.claim.seg].moved
    && x.mem.claim.seg !in x.g.debt
    && (forall k :: k in x.g.debt ==> k in x.g.chain)
    && (forall k :: 0 <= k < c.segs && k !in x.g.chain && k !in x.g.held ==>
          x.mem.seals[k].pos == x.g.cl[k])
  }

  ghost predicate LinkOk(c: Config, x: Core, k: nat)
    requires Shape(c, x) && k < c.segs
  {
    if k in x.g.debt then !x.mem.seals[k].moved
    else x.mem.seals[k] == Seal(true, x.g.nxt[k], x.g.cl[k])
  }

  /** In use is the chain and the segments held inside `switch`, apart. */
  ghost predicate Bits(c: Config, x: Core)
    requires Shape(c, x)
  {
    && (forall k :: k in x.mem.inUse <==> k in x.g.chain || k in x.g.held)
    && (forall k :: k in x.g.held ==> k < c.segs && k !in x.g.chain)
  }

  /** Every message is claimed once, and a producer's in the order of its sends. */
  ghost predicate Logged(x: Core) {
    && x.g.head <= |x.g.log|
    && (forall a, b :: 0 <= a < b < |x.g.log| && x.g.log[a].msg.pid == x.g.log[b].msg.pid ==>
          x.g.log[a].msg.n < x.g.log[b].msg.n)
    && (forall a :: 0 <= a < x.g.head ==> x.g.log[a].fate != Filling)
  }

  /** The messages of the first `upto` claims, without those whose fill unwound. */
  ghost function Live(log: seq<Claimed>, upto: nat): (r: seq<Msg>)
    requires upto <= |log|
    ensures |r| <= upto
  {
    if upto == 0 then []
    else if log[upto - 1].fate.Dead? then Live(log, upto - 1)
    else Live(log, upto - 1) + [log[upto - 1].msg]
  }

  /** What the consumer read is what was claimed. */
  ghost predicate Delivered(x: Core)
    requires x.g.head <= |x.g.log|
  {
    x.g.delivered == Live(x.g.log, x.g.head)
  }

  /** A claimed consumer role with its state loaded. */
  predicate Present(pc: ConsPc) {
    !pc.Gone? && !pc.LoadCur? && !pc.LoadResume? && !pc.LoadPos?
  }

  /** The consumer stands at the read frontier of the chain's first segment, and knows where every
      other segment was left: in its own state, or in the checkpoint between two handles. */
  ghost predicate Placement(c: Config, x: Core)
    requires Shape(c, x)
  {
    && |x.g.chain| >= 1
    && x.g.chain[0] < c.segs
    && var cur, cons, ck := x.g.chain[0], x.cons, x.mem.ckpt;
    && (Present(cons.pc) ==>
          && cons.cur == cur
          && cons.pos == x.g.rd[cur] + (if cons.pc.Store? then 1 else 0)
          && x.g.followed == x.g.since + cons.switches
          && forall k :: 0 <= k < c.segs && k != cur ==> cons.resume[k] == x.g.rd[k])
    && (!Present(cons.pc) ==>
          && ck.cur == cur
          && ck.pos == x.g.rd[cur]
          && cons.switches == 0
          && forall k :: 0 <= k < c.segs && k != cur ==> ck.resume[k] == x.g.rd[k])
    && (match cons.pc
        case SaveResume(j) => forall k :: 0 <= k < j ==> ck.resume[k] == cons.resume[k]
        case SaveCur => forall k :: 0 <= k < c.segs ==> ck.resume[k] == cons.resume[k]
        case SavePos => ck.cur == cons.cur && forall k :: 0 <= k < c.segs ==> ck.resume[k] == cons.resume[k]
        case RoleClear =>
          && ck.cur == cons.cur
          && ck.pos == cons.pos
          && forall k :: 0 <= k < c.segs ==> ck.resume[k] == cons.resume[k]
        case LoadResume(j) =>
          cons.cur == cur && forall k :: 0 <= k < j && k != cur ==> cons.resume[k] == x.g.rd[k]
        case LoadPos =>
          cons.cur == cur && forall k :: 0 <= k < c.segs && k != cur ==> cons.resume[k] == x.g.rd[k]
        case _ => true)
  }

  /** What the consumer's program counter knows of the slot and the seal it looked at. */
  ghost predicate Holding(c: Config, x: Core)
    requires Shape(c, x)
  {
    var g, cur := x.g, x.cons.cur;
    match x.cons.pc
    case Hold => g.rd[cur] < g.cl[cur] && g.head < |g.log| && g.log[g.head].fate == Committed
    case Store(p, got) =>
      && p == g.rd[cur] < g.cl[cur]
      && g.head < |g.log|
      && g.log[g.head].fate == Committed
      && got == g.log[g.head].msg
    case Skip => c.tombs && g.rd[cur] < g.cl[cur] && g.head < |g.log| && g.log[g.head].fate == Dead
    case GiveBack(k) =>
      && |g.chain| >= 2
      && k == g.chain[1]
      && g.rd[cur] == g.cl[cur]
      && cur !in g.debt
      && x.mem.seals[cur] == Seal(true, k, g.cl[cur])
    case CheckLoad(next) => c.wakes
    case Bump(next) => c.wakes
    case WakeAll(next) => c.wakes
    case Sleeping => c.wakes
    case _ => true
  }

  /** The waiting flag is up exactly while the consumer sleeps or is about to. */
  ghost predicate Flagged(x: Core) {
    && (x.mem.claim.waiting <==> (x.cons.pc.Sleep? || x.cons.pc.Sleeping? || x.cons.pc.FlagClear?))
    && (x.cons.pc.Sleep? ==>
          x.cons.pc.val == Word(x.cons.cur, x.cons.pos, true))
  }

  /** While the consumer sleeps, every claim it has not read was made under the flag, by a producer that
      has yet to wake it. */
  ghost predicate Owed(x: Core) {
    x.cons.pc.Sleeping? ==>
      forall n :: x.g.head <= n < |x.g.log| ==>
        x.g.log[n].msg.pid in x.g.wakers && x.g.wakers[x.g.log[n].msg.pid] == n
  }

  /** The counts agree with what they count. */
  ghost predicate Counted(x: Core) {
    && |x.g.chain| >= 1
    && x.mem.waiters == |x.g.sleepers|
    && x.g.won == x.mem.switches + |x.g.lag|
    && x.g.won == x.g.followed + |x.g.chain| - 1
  }

  /** The part that speaks of the ring alone, and not of who waits where. */
  ghost predicate RingInv(c: Config, x: Core) {
    && Shape(c, x)
    && Chained(c, x)
    && Fronts(c, x)
    && Ordered(c, x)
    && Placed(c, x)
    && Slots(c, x)
    && Sealed(c, x)
    && Bits(c, x)
    && Logged(x)
    && Delivered(x)
  }

  ghost predicate CoreInv(c: Config, x: Core) {
    && RingInv(c, x)
    && Placement(c, x)
    && Holding(c, x)
    && Flagged(x)
    && Owed(x)
    && Counted(x)
  }

  // ---------------------------------------------------------------- the producers

  /** What a claim word loaded earlier is still good for: its position is at most the claim frontier,
      and, once seen claimable, stays inside the window until it is claimed. */
  ghost predicate Sends(c: Config, p: Producer, x: Core)
    requires Shape(c, x) && PcShape(c, p.pc)
  {
    match p.pc
    case Look(w) => w.seg < c.segs ==> w.pos <= x.g.cl[w.seg]
    case Cas(w) => w.pos <= x.g.cl[w.seg] && w.pos < x.g.rd[w.seg] + c.depth
    case Reread(w) =>
      && p.snap.seg == w.seg
      && w.pos <= p.snap.claimed <= x.g.cl[w.seg]
      && (w.pos == p.snap.claimed ==> p.snap.claimed == p.snap.released + c.depth)
    case FreeLoad(w) => w.pos <= x.g.cl[w.seg] && SawFull(c, p) && p.snap.seg == w.seg
    case Take(w, k) => w.pos <= x.g.cl[w.seg] && SawFull(c, p) && p.snap.seg == w.seg
    case SealLoad(w, k) => w.pos <= x.g.cl[w.seg]
    case SealClear(w, k, start) => w.pos <= x.g.cl[w.seg]
    case Move(w, k, start) => w.pos <= x.g.cl[w.seg]
    case Full => SawFull(c, p)
    case RoomSeq(_, r) => r.pos <= x.g.cl[r.seg] && SawFull(c, p)
    case _ => Counts(p.pc) || p.pc.CountIn? ==> SawFull(c, p)
  }

  /** At the producer's last look at a seq word, the segment held exactly its depth of claims not yet
      released. */
  predicate SawFull(c: Config, p: Producer) {
    p.snap.claimed == p.snap.released + c.depth && p.snap.seg < c.segs
  }

  predicate Holds(pc: Pc, k: nat) {
    match pc
    case SealLoad(_, j) => j == k
    case SealClear(_, j, _) => j == k
    case Move(_, j, _) => j == k
    case SealRestore(j, _) => j == k
    case BitClear(j) => j == k
    case _ => false
  }

  /** The segment a producer took is its own, and the resume position is in its seal or in its hands. */
  ghost predicate Keeps(c: Config, i: nat, p: Producer, x: Core)
    requires Shape(c, x) && PcShape(c, p.pc)
  {
    && (forall k :: k in x.g.held && x.g.held[k] == i ==> Holds(p.pc, k))
    && (forall k :: Holds(p.pc, k) ==> k in x.g.held && x.g.held[k] == i)
    && match p.pc
       case SealLoad(w, k) => x.mem.seals[k].pos == x.g.cl[k]
       case SealClear(w, k, start) => start == x.g.cl[k]
       case Move(w, k, start) => start == x.g.cl[k] && x.mem.seals[k] == ClearSeal
       case SealRestore(k, start) => start == x.g.cl[k]
       case BitClear(k) => x.mem.seals[k].pos == x.g.cl[k]
       case _ => true
  }

  /** A producer past its move owes exactly the seal of the segment it moved from. */
  ghost predicate Owes(c: Config, i: nat, p: Producer, x: Core)
    requires Shape(c, x) && PcShape(c, p.pc)
  {
    && (forall k :: k in x.g.debt && x.g.debt[k] == i ==> p.pc.SealStore? && p.pc.w.seg == k)
    && (p.pc.SealStore? ==>
          && p.pc.w.seg in x.g.debt
          && x.g.debt[p.pc.w.seg] == i
          && x.g.nxt[p.pc.w.seg] == p.pc.k
          && p.pc.w.pos == x.g.cl[p.pc.w.seg])
  }

  /** The producers that moved the ring and have not counted it. */
  predicate Lags(i: nat, p: Producer, x: Core) {
    i in x.g.lag <==> p.pc.SealStore? || p.pc.CountSwitch?
  }

  predicate Fills(pc: Pc) {
    pc.Fill? || pc.Commit? || pc.Tomb?
  }

  /** A producer filling a slot is the one whose claim the log has there, and every claim still being
      filled has its producer at it. */
  ghost predicate Owns(c: Config, i: nat, p: Producer, x: Core)
    requires Shape(c, x) && PcShape(c, p.pc)
  {
    var g := x.g;
    && (Fills(p.pc) ==>
          && var w := p.pc.w;
          && var n := g.off[w.seg] + w.pos;
          && g.head <= n < |g.log|
          && g.log[n] == Claimed(Msg(i, p.n), w.seg, w.pos, Filling)
          && w.seg in g.chain
          && g.rd[w.seg] <= w.pos < g.cl[w.seg]
          && (p.pc.Commit? ==> BodyAt(c, x.mem, w.seg, w.pos) == Msg(i, p.n))
          && (p.pc.Tomb? ==> c.tombs))
    && (forall n :: 0 <= n < |g.log| && g.log[n].msg.pid == i && g.log[n].fate == Filling ==>
          Fills(p.pc) && g.log[n].msg.n == p.n)
  }

  /** Sends begun but not claimed. */
  predicate Unclaimed(pc: Pc) {
    !pc.Idle? && !Fills(pc) && !pc.WakeConsumer?
  }

  /** The log has a producer's sends only as far as it has begun them. */
  ghost predicate Numbers(i: nat, p: Producer, x: Core) {
    forall n :: 0 <= n < |x.g.log| && x.g.log[n].msg.pid == i ==>
      x.g.log[n].msg.n <= p.n && (Unclaimed(p.pc) ==> x.g.log[n].msg.n < p.n)
  }

  /** A producer that claimed under the flag owes the wake until it gives it. */
  ghost predicate Wakes(c: Config, i: nat, p: Producer, x: Core) {
    && (i in x.g.wakers <==>
          c.wakes && (Fills(p.pc) || p.pc.WakeConsumer?) && p.pc.w.waiting)
    && (p.pc.WakeConsumer? ==> i in x.g.wakers)
  }

  /** Counted in as about to sleep on a full ring. */
  predicate Counts(pc: Pc) {
    || pc.SeenLoad? || pc.RoomClaim? || pc.RoomSeq? || pc.RoomBits?
    || pc.Wait? || pc.Asleep? || pc.CountOut?
  }

  /** Past the load of the wake sequence and not yet done sleeping. */
  predicate Sees(pc: Pc) {
    pc.RoomClaim? || pc.RoomSeq? || pc.RoomBits? || pc.Wait? || pc.Asleep?
  }

  /** The consumer is in a check that will find any producer counted in. */
  predicate Checking(pc: ConsPc) {
    pc.CheckLoad? || pc.Bump?
  }

  /** The consumer checked for sleepers on its way to sleep, and has not woken. */
  predicate Settled(pc: ConsPc) {
    pc == WakeAll(ToFlag) || pc.FlagSet? || pc.Sleep? || pc.Sleeping?
  }

  /** No check passed since the mark: no release reached a half-segment position and no segment was
      given back. */
  ghost predicate Unchecked(c: Config, mark: Mark, x: Core)
    requires Shape(c, x) && |mark.released| == c.segs
  {
    && x.g.followed == mark.followed
    && forall k, q :: 0 <= k < c.segs && mark.released[k] < q <= x.g.rd[k] ==> !AtCheck(c, q)
  }

  /** What a producer on its way to sleep, or asleep, can rely on. */
  ghost predicate Naps(c: Config, i: nat, p: Producer, x: Core)
    requires Shape(c, x) && PcShape(c, p.pc)
  {
    && (i in x.g.sleepers <==> Counts(p.pc))
    && (Counts(p.pc) || p.pc.CountIn? ==> c.wakes)
    && (Sees(p.pc) ==>
          && p.pc.seen <= x.mem.wake
          && |p.mark.released| == c.segs
          && p.mark.followed <= x.g.followed
          && (p.pc.seen == x.mem.wake && !Checking(x.cons.pc) ==> Unchecked(c, p.mark, x))
          && (p.pc.seen == x.mem.wake && Settled(x.cons.pc) && x.g.head == |x.g.log| ==>
                || p.pc.RoomClaim?
                || (p.pc.RoomSeq? && p.pc.r.pos == x.g.cl[p.pc.r.seg])))
    && (p.pc.Asleep? && !x.cons.pc.WakeAll? ==> p.pc.seen == x.mem.wake)
  }

  /** The claim word, flag aside, names the consumer's place. */
  predicate AtConsumer(x: Core) {
    x.mem.claim.seg == x.cons.cur && x.mem.claim.pos == x.cons.pos
  }

  /** What a producer knows of the ring alone. */
  ghost predicate RingLocal(c: Config, i: nat, p: Producer, x: Core)
    requires Shape(c, x)
  {
    && PcShape(c, p.pc)
    && Sends(c, p, x)
    && Keeps(c, i, p, x)
    && Owes(c, i, p, x)
    && Owns(c, i, p, x)
    && Numbers(i, p, x)
  }

  ghost predicate Local(c: Config, i: nat, p: Producer, x: Core)
    requires Shape(c, x)
  {
    && RingLocal(c, i, p, x)
    && Lags(i, p, x)
    && Wakes(c, i, p, x)
    && Naps(c, i, p, x)
  }

  /** The bookkeeping names only producers there are. */
  ghost predicate Ranged(g: Ghost, producers: nat) {
    && (forall n :: 0 <= n < |g.log| ==> g.log[n].msg.pid < producers)
    && (forall k :: k in g.debt ==> g.debt[k] < producers)
    && (forall k :: k in g.held ==> g.held[k] < producers)
    && (forall i :: i in g.wakers ==> i < producers)
    && (forall i :: i in g.sleepers ==> i < producers)
    && (forall i :: i in g.lag ==> i < producers)
  }

  /** Every producer's promises. */
  ghost predicate Locals(c: Config, prods: seq<Producer>, x: Core)
    requires Shape(c, x)
  {
    forall i :: 0 <= i < |prods| ==> Local(c, i, prods[i], x)
  }

  ghost predicate Inv(c: Config, s: State) {
    && CoreInv(c, s.core)
    && Ranged(s.core.g, |s.prods|)
    && Locals(c, s.prods, s.core)
  }
}
