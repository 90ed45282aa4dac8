/** Who may use a ring: the roles word, one 32-bit word that counts the producers, holds the consumer's bit and
    is closed once, as a machine of single accesses by any number of parties. */
module Roles {
  import opened Laps

  const CLOSED: nat := 0x8000_0000
  const CONSUMER: nat := 0x4000_0000
  const PRODUCERS: nat := 0xFFFF

  /** The bits of the word, its masks written as quotients and remainders. */
  predicate IsClosed(r: nat) { r / CLOSED % 2 == 1 }

  predicate HasConsumer(r: nat) { r / CONSUMER % 2 == 1 }

  function CountOf(r: nat): nat { r % (PRODUCERS + 1) }

  function WithConsumer(r: nat): nat { if HasConsumer(r) then r else r + CONSUMER }

  function WithoutConsumer(r: nat): nat {
    if HasConsumer(r) && r >= CONSUMER then r - CONSUMER else r
  }

  /** Where a party's call is, with what it loaded. `Checking` holds the consumer role while the checkpoint is
      read; the last three are `release_ring` past its CAS. */
  datatype Call =
    | Out
    | ProducerLoad
    | ProducerCas(r: nat)
    | ConsumerLoad
    | ConsumerCas(r: nat)
    | Checking
    | BadCheckpoint
    | RingCas
    | TableLoad(got: seq<nat>)
    | MagicClear(j: nat, got: seq<nat>)
    | FreeBuf(j: nat, got: seq<nat>)

  /** A party: its call, and the handles it holds. */
  datatype Party = Party(call: Call, producers: nat, consumer: bool)

  /** The ring's shared words the roles concern, the parties, the buffers given back to the pool in order, and
      how many `release_ring` calls have closed the ring. */
  datatype Office = Office(
    word: nat,
    max: nat,
    table: seq<nat>,
    magic: seq<bool>,
    parties: seq<Party>,
    freed: seq<nat>,
    closes: nat)

  /** What a party asks for next, or how a call goes on. */
  datatype Act = AskProducer | AskConsumer | AskRing | GiveProducer | GiveConsumer | Go | Fail

  /** What a ring made by `init`, or accepted by `attach`, starts with. */
  function Opened(max: nat, table: seq<nat>, parties: nat): Office {
    Office(0, max, table, seq(|table|, _ => true), seq(parties, _ => Party(Out, 0, false)), [], 0)
  }

  function With(s: Office, i: nat, p: Party): Office
    requires i < |s.parties|
  {
    s.(parties := s.parties[i := p])
  }

  function At(s: Office, i: nat, call: Call): Office
    requires i < |s.parties|
  {
    With(s, i, s.parties[i].(call := call))
  }

  /** One access of party `i`. */
  function Next(s: Office, i: nat, act: Act): (t: Office)
    requires i < |s.parties|
    ensures |t.parties| == |s.parties| && t.max == s.max && t.table == s.table && |t.magic| == |s.magic|
  {
    var p := s.parties[i];
    match p.call
    case Out => Ask(s, i, act)
    case ProducerLoad => At(s, i, ProducerCas(s.word))
    case ProducerCas(r) =>
      if IsClosed(r) || CountOf(r) >= s.max then At(s, i, Out)
      else if !act.Fail? && s.word == r then
        With(s.(word := (r + 1) % U32), i, p.(call := Out, producers := p.producers + 1))
      else At(s, i, ProducerCas(s.word))
    case ConsumerLoad => At(s, i, ConsumerCas(s.word))
    case ConsumerCas(r) =>
      if IsClosed(r) || HasConsumer(r) then At(s, i, Out)
      else if !act.Fail? && s.word == r then At(s.(word := WithConsumer(r)), i, Checking)
      else At(s, i, ConsumerCas(s.word))
    case Checking => if act.Fail? then At(s, i, BadCheckpoint) else With(s, i, p.(call := Out, consumer := true))
    case BadCheckpoint => At(s.(word := WithoutConsumer(s.word)), i, Out)
    case _ => Closing(s, i)
  }

  /** A party out of a call begins one, or gives a handle back. */
  function Ask(s: Office, i: nat, act: Act): (t: Office)
    requires i < |s.parties|
    ensures |t.parties| == |s.parties| && t.max == s.max && t.table == s.table && |t.magic| == |s.magic|
  {
    var p := s.parties[i];
    match act
    case AskProducer => At(s, i, ProducerLoad)
    case AskConsumer => At(s, i, ConsumerLoad)
    case AskRing => At(s, i, RingCas)
    case GiveProducer =>
      if p.producers >= 1 then With(s.(word := (s.word + U32 - 1) % U32), i, p.(producers := p.producers - 1))
      else s
    case GiveConsumer => if p.consumer then With(s.(word := WithoutConsumer(s.word)), i, p.(consumer := false)) else s
    case _ => s
  }

  /** `release_ring`: close an unheld ring, read the table, clear every magic, then free every buffer. */
  function Closing(s: Office, i: nat): (t: Office)
    requires i < |s.parties|
    ensures |t.parties| == |s.parties| && t.max == s.max && t.table == s.table && |t.magic| == |s.magic|
  {
    match s.parties[i].call
    case RingCas =>
      if s.word == 0 then At(s.(word := CLOSED, closes := s.closes + 1), i, TableLoad([])) else At(s, i, Out)
    case TableLoad(got) =>
      if |got| < |s.table| then At(s, i, TableLoad(got + [s.table[|got|]])) else At(s, i, MagicClear(0, got))
    case MagicClear(j, got) =>
      if j < |s.magic| then At(s.(magic := s.magic[j := false]), i, MagicClear(j + 1, got))
      else At(s, i, FreeBuf(0, got))
    case FreeBuf(j, got) =>
      if j < |got| then At(s.(freed := s.freed + [got[j]]), i, FreeBuf(j + 1, got)) else At(s, i, Out)
    case _ => s
  }

  // ---------------------------------------------------------------- what every access keeps

  /** The producer handles live in all. */
  function Live(parties: seq<Party>): nat {
    if parties == [] then 0 else Live(parties[..|parties| - 1]) + parties[|parties| - 1].producers
  }

  /** Holding the consumer's bit: a live handle, or a claim still reading the checkpoint. */
  predicate HasRole(p: Party) {
    p.consumer || p.call.Checking? || p.call.BadCheckpoint?
  }

  /** No two parties hold the consumer's bit. */
  ghost predicate OneRole(parties: seq<Party>) {
    forall i, j :: 0 <= i < |parties| && 0 <= j < |parties| && HasRole(parties[i]) && HasRole(parties[j]) ==> i == j
  }

  predicate Past(call: Call) {
    call.TableLoad? || call.MagicClear? || call.FreeBuf?
  }

  /** No two parties are in a `release_ring` past its CAS. */
  ghost predicate OnePast(parties: seq<Party>) {
    forall i, j :: 0 <= i < |parties| && 0 <= j < |parties| && Past(parties[i].call) && Past(parties[j].call) ==>
      i == j
  }

  function WordFor(count: nat, consumer: bool, closed: bool): nat {
    count + (if consumer then CONSUMER else 0) + (if closed then CLOSED else 0)
  }

  ghost predicate SomeRole(parties: seq<Party>) {
    exists i :: 0 <= i < |parties| && HasRole(parties[i])
  }

  /** Some party is in a `release_ring` past its CAS. */
  ghost predicate SomePast(parties: seq<Party>) {
    exists i :: 0 <= i < |parties| && Past(parties[i].call)
  }

  /** The first `n` segments have no magic, the others theirs. */
  ghost predicate ClearedTo(magic: seq<bool>, n: nat) {
    n <= |magic| && forall k :: 0 <= k < |magic| ==> (magic[k] <==> n <= k)
  }

  /** A release past its CAS has the table so far, has cleared every magic it is past, and has freed what it is
      past, with no magic left by then. */
  ghost predicate Progress(s: Office, call: Call) {
    match call
    case TableLoad(got) => got <= s.table && s.freed == [] && ClearedTo(s.magic, 0)
    case MagicClear(j, got) => got == s.table && s.freed == [] && ClearedTo(s.magic, j)
    case FreeBuf(j, got) => got == s.table && j <= |got| && s.freed == got[..j] && ClearedTo(s.magic, |s.magic|)
    case _ => true
  }

  ghost predicate Inv(s: Office) {
    && 1 <= s.max <= PRODUCERS
    && Live(s.parties) <= s.max
    && s.closes <= 1
    && s.word == WordFor(Live(s.parties), SomeRole(s.parties), s.closes == 1)
    && (s.closes == 1 ==> Live(s.parties) == 0 && !SomeRole(s.parties))
    && OneRole(s.parties)
    && (forall i :: 0 <= i < |s.parties| && s.parties[i].consumer ==>
          !s.parties[i].call.Checking? && !s.parties[i].call.BadCheckpoint?)
    && OnePast(s.parties)
    && (forall i :: 0 <= i < |s.parties| && Past(s.parties[i].call) ==> s.closes == 1)
    && (forall i :: 0 <= i < |s.parties| ==> Progress(s, s.parties[i].call))
    && (s.closes == 0 ==> s.freed == [] && ClearedTo(s.magic, 0))
    && (s.closes == 1 && !SomePast(s.parties) ==> s.freed == s.table && ClearedTo(s.magic, |s.magic|))
  }

  lemma {:induction false} LiveUpdate(parties: seq<Party>, i: nat, p: Party)
    requires i < |parties|
    ensures Live(parties[i := p]) == Live(parties) - parties[i].producers + p.producers
    ensures parties[i].producers <= Live(parties)
    decreases |parties|
  {
    var n := |parties| - 1;
    if i < n {
      LiveUpdate(parties[..n], i, p);
      assert parties[i := p][..n] == parties[..n][i := p];
    } else {
      assert parties[i := p][..n] == parties[..n];
    }
  }

  /** The word's bits are the fields packed in it. */
  lemma Fields(count: nat, consumer: bool, closed: bool)
    requires count <= PRODUCERS
    ensures var r := WordFor(count, consumer, closed);
      && r < U32
      && (IsClosed(r) <==> closed)
      && (HasConsumer(r) <==> consumer)
      && CountOf(r) == count
      && WithConsumer(r) == WordFor(count, true, closed)
      && WithoutConsumer(r) == WordFor(count, false, closed)
      && (r == 0 <==> count == 0 && !consumer && !closed)
  {
  }

  lemma RoleUpdate(s: Office, i: nat, p: Party)
    requires Inv(s) && i < |s.parties|
    ensures HasRole(p) ==> SomeRole(s.parties[i := p])
    ensures HasRole(s.parties[i]) && !HasRole(p) ==> !SomeRole(s.parties[i := p])
    ensures HasRole(s.parties[i]) == HasRole(p) ==> SomeRole(s.parties[i := p]) == SomeRole(s.parties)
  {
    var q := s.parties[i := p];
    if HasRole(p) {
      assert HasRole(q[i]);
    } else if !HasRole(s.parties[i]) && SomeRole(s.parties) {
      var j :| 0 <= j < |s.parties| && HasRole(s.parties[j]);
      assert HasRole(q[j]);
    }
  }

  lemma PastUpdate(s: Office, i: nat, p: Party)
    requires Inv(s) && i < |s.parties|
    ensures Past(p.call) ==> SomePast(s.parties[i := p])
    ensures Past(s.parties[i].call) && !Past(p.call) ==> !SomePast(s.parties[i := p])
    ensures Past(s.parties[i].call) == Past(p.call) ==> SomePast(s.parties[i := p]) == SomePast(s.parties)
  {
    var q := s.parties[i := p];
    if Past(p.call) {
      assert Past(q[i].call);
    } else if !Past(s.parties[i].call) && SomePast(s.parties) {
      var j :| 0 <= j < |s.parties| && Past(s.parties[j].call);
      assert Past(q[j].call);
    }
  }

  /** A step that changes one party's call alone, and not what it stands for, keeps everything. */
  lemma CallKeeps(s: Office, i: nat, call: Call)
    requires Inv(s) && i < |s.parties| && !Past(call) && !Past(s.parties[i].call)
    requires HasRole(s.parties[i].(call := call)) == HasRole(s.parties[i])
    requires s.parties[i].consumer ==> !call.Checking? && !call.BadCheckpoint?
    ensures Inv(At(s, i, call))
  {
    LiveUpdate(s.parties, i, s.parties[i].(call := call));
    RoleUpdate(s, i, s.parties[i].(call := call));
    PastUpdate(s, i, s.parties[i].(call := call));
  }

  lemma CountKeeps(s: Office, i: nat, p: Party)
    requires Inv(s) && i < |s.parties| && s.closes == 0
    requires !Past(p.call) && HasRole(p) == HasRole(s.parties[i]) && p.consumer == s.parties[i].consumer
    requires p.consumer ==> !p.call.Checking? && !p.call.BadCheckpoint?
    requires Live(s.parties) - s.parties[i].producers + p.producers <= s.max
    ensures Live(s.parties) >= s.parties[i].producers
    ensures Inv(With(s, i, p).(word := s.word - s.parties[i].producers + p.producers))
  {
    LiveUpdate(s.parties, i, p);
    RoleUpdate(s, i, p);
    PastUpdate(s, i, p);
  }

  lemma RoleKeeps(s: Office, i: nat, p: Party)
    requires Inv(s) && i < |s.parties| && s.closes == 0
    requires !Past(p.call) && !Past(s.parties[i].call) && p.producers == s.parties[i].producers
    requires HasRole(p) ==> !SomeRole(s.parties) || HasRole(s.parties[i])
    requires p.consumer ==> !p.call.Checking? && !p.call.BadCheckpoint?
    ensures Inv(With(s, i, p).(word := WordFor(Live(s.parties), SomeRole(s.parties[i := p]), false)))
  {
    LiveUpdate(s.parties, i, p);
    RoleUpdate(s, i, p);
    PastUpdate(s, i, p);
  }

  lemma ClosingKeeps(s: Office, i: nat)
    requires Inv(s) && i < |s.parties| && (s.parties[i].call.RingCas? || Past(s.parties[i].call))
    ensures Inv(Closing(s, i))
  {
    hide Live, SomeRole, SomePast;
    Fields(Live(s.parties), SomeRole(s.parties), s.closes == 1);
    var p := s.parties[i];
    var q := Closing(s, i).parties[i];
    LiveUpdate(s.parties, i, q);
    RoleUpdate(s, i, q);
    PastUpdate(s, i, q);
    assert Closing(s, i).parties == s.parties[i := q];
    match p.call
    case RingCas =>
    case TableLoad(got) =>
    case MagicClear(j, got) =>
    case FreeBuf(j, got) => assert j < |got| ==> got[..j] + [got[j]] == got[..j + 1];
  }

  lemma NextKeeps(s: Office, i: nat, act: Act)
    requires Inv(s) && i < |s.parties|
    ensures Inv(Next(s, i, act))
  {
    hide Inv, Live, SomeRole, Closing, WordFor;
    var p := s.parties[i];
    Opening(s, i);
    match p.call
    case Out => AskKeeps(s, i, act);
    case ProducerLoad => CallKeeps(s, i, ProducerCas(s.word));
    case ProducerCas(r) =>
      CallKeeps(s, i, Out);
      CallKeeps(s, i, ProducerCas(s.word));
      if !IsClosed(r) && CountOf(r) < s.max && s.word == r {
        CountKeeps(s, i, p.(call := Out, producers := p.producers + 1));
      }
    case ConsumerLoad => CallKeeps(s, i, ConsumerCas(s.word));
    case ConsumerCas(r) =>
      CallKeeps(s, i, Out);
      CallKeeps(s, i, ConsumerCas(s.word));
      if !IsClosed(r) && !HasConsumer(r) && s.word == r {
        RoleUpdate(s, i, p.(call := Checking));
        RoleKeeps(s, i, p.(call := Checking));
      }
    case Checking =>
      CallKeeps(s, i, BadCheckpoint);
      RoleUpdate(s, i, p.(call := Out, consumer := true));
      RoleKeeps(s, i, p.(call := Out, consumer := true));
    case BadCheckpoint =>
      RoleUpdate(s, i, p.(call := Out));
      RoleKeeps(s, i, p.(call := Out));
    case _ => ClosingKeeps(s, i);
  }

  /** The invariant's words at one party. */
  lemma Opening(s: Office, i: nat)
    requires Inv(s) && i < |s.parties|
    ensures s.max <= PRODUCERS && Live(s.parties) <= s.max && s.parties[i].producers <= Live(s.parties)
    ensures s.word == WordFor(Live(s.parties), SomeRole(s.parties), s.closes == 1) < U32
    ensures IsClosed(s.word) <==> s.closes == 1
    ensures HasConsumer(s.word) <==> SomeRole(s.parties)
    ensures CountOf(s.word) == Live(s.parties)
    ensures WithConsumer(s.word) == WordFor(Live(s.parties), true, s.closes == 1)
    ensures WithoutConsumer(s.word) == WordFor(Live(s.parties), false, s.closes == 1)
    ensures s.word + 1 < U32
    ensures s.closes <= 1
    ensures HasRole(s.parties[i]) || s.parties[i].producers > 0 ==> s.closes == 0
    ensures s.parties[i].consumer ==> !s.parties[i].call.Checking? && !s.parties[i].call.BadCheckpoint?
    ensures s.parties[i].producers > 0 ==> s.word > 0
  {
    LiveUpdate(s.parties, i, s.parties[i]);
    Fields(Live(s.parties), SomeRole(s.parties), s.closes == 1);
    if HasRole(s.parties[i]) {
      assert SomeRole(s.parties);
    }
  }

  lemma AskKeeps(s: Office, i: nat, act: Act)
    requires Inv(s) && i < |s.parties| && s.parties[i].call.Out?
    ensures Inv(Ask(s, i, act))
  {
    hide Inv, Live, SomeRole, WordFor;
    var p := s.parties[i];
    Opening(s, i);
    match act
    case AskProducer => CallKeeps(s, i, ProducerLoad);
    case AskConsumer => CallKeeps(s, i, ConsumerLoad);
    case AskRing => CallKeeps(s, i, RingCas);
    case GiveProducer =>
      if p.producers >= 1 {
        CountKeeps(s, i, p.(producers := p.producers - 1));
      }
    case GiveConsumer =>
      if p.consumer {
        RoleUpdate(s, i, p.(consumer := false));
        RoleKeeps(s, i, p.(consumer := false));
      }
    case _ =>
  }

  // ---------------------------------------------------------------- runs

  /** One access of one party. A pick of no party is nobody's. */
  datatype Turn = Turn(i: nat, act: Act)

  function Step(s: Office, turn: Turn): (t: Office)
    ensures |t.parties| == |s.parties| && t.max == s.max && t.table == s.table
  {
    if turn.i < |s.parties| then Next(s, turn.i, turn.act) else s
  }

  lemma OpenedInv(max: nat, table: seq<nat>, parties: nat)
    requires 1 <= max <= PRODUCERS
    ensures Inv(Opened(max, table, parties))
    decreases parties
  {
    var s := Opened(max, table, parties);
    NoneLive(s.parties);
  }

  lemma {:induction false} NoneLive(parties: seq<Party>)
    requires forall i :: 0 <= i < |parties| ==> parties[i].producers == 0
    ensures Live(parties) == 0
  {
    if parties != [] {
      NoneLive(parties[..|parties| - 1]);
    }
  }

  /** The office after any accesses of any parties in any order, from a new ring. */
  function Run(max: nat, table: seq<nat>, parties: nat, turns: seq<Turn>): (s: Office)
    ensures |s.parties| == parties && s.max == max && s.table == table
    decreases |turns|
  {
    if turns == [] then Opened(max, table, parties)
    else Step(Run(max, table, parties, turns[..|turns| - 1]), turns[|turns| - 1])
  }

  /** Every run keeps the invariant. */
  lemma {:induction false} RunInv(max: nat, table: seq<nat>, parties: nat, turns: seq<Turn>)
    requires 1 <= max <= PRODUCERS
    ensures Inv(Run(max, table, parties, turns))
    decreases |turns|
  {
    hide Inv, Step, Opened;
    if turns == [] {
      OpenedInv(max, table, parties);
    } else {
      RunInv(max, table, parties, turns[..|turns| - 1]);
      RunKeeps(Run(max, table, parties, turns[..|turns| - 1]), turns[|turns| - 1]);
    }
  }

  lemma RunKeeps(s: Office, turn: Turn)
    requires Inv(s)
    ensures Inv(Step(s, turn))
  {
    hide Inv, Next;
    if turn.i < |s.parties| {
      NextKeeps(s, turn.i, turn.act);
    }
  }

  lemma RunNext(max: nat, table: seq<nat>, parties: nat, turns: seq<Turn>, turn: Turn)
    ensures Run(max, table, parties, turns + [turn]) == Step(Run(max, table, parties, turns), turn)
  {
    hide Inv, Step, Opened;
    assert (turns + [turn])[..|turns|] == turns;
  }

  /** In every run the word is the live handles: its count the producers', never past the maximum, its bit
      some party's consumer role, never two, and closed exactly when one `release_ring` has won, which
      leaves no role held. */
  lemma WordIsHandles(max: nat, table: seq<nat>, parties: nat, turns: seq<Turn>)
    requires 1 <= max <= PRODUCERS
    ensures var s := Run(max, table, parties, turns);
      && CountOf(s.word) == Live(s.parties) <= max
      && (HasConsumer(s.word) <==> exists i :: 0 <= i < |s.parties| && HasRole(s.parties[i]))
      && (IsClosed(s.word) <==> s.closes == 1)
      && s.closes <= 1
      && OneRole(s.parties)
      && (IsClosed(s.word) ==> Live(s.parties) == 0 && forall i :: 0 <= i < |s.parties| ==> !HasRole(s.parties[i]))
  {
    hide Run, Live;
    var s := Run(max, table, parties, turns);
    RunInv(max, table, parties, turns);
    Fields(Live(s.parties), SomeRole(s.parties), s.closes == 1);
    if s.closes == 1 {
      forall i | 0 <= i < |s.parties|
        ensures !HasRole(s.parties[i])
      {
      }
    }
  }

  lemma ClosesStay(s: Office, turn: Turn)
    ensures Step(s, turn).closes >= s.closes
    ensures s.freed <= Step(s, turn).freed
  {
  }

  /** A ring once released stays released: whatever is called after, no role is held again. */
  lemma {:induction false} ClosedForGood(max: nat, table: seq<nat>, parties: nat, before: seq<Turn>, after: seq<Turn>)
    requires 1 <= max <= PRODUCERS && before <= after
    requires Run(max, table, parties, before).closes == 1
    ensures var s := Run(max, table, parties, after);
      s.closes == 1 && Live(s.parties) == 0 && forall i :: 0 <= i < |s.parties| ==> !HasRole(s.parties[i])
    decreases |after|
  {
    hide Run, Live, Inv, SomeRole, Step, WordFor;
    if before != after {
      ClosedForGood(max, table, parties, before, after[..|after| - 1]);
      RunNext(max, table, parties, after[..|after| - 1], after[|after| - 1]);
      assert after[..|after| - 1] + [after[|after| - 1]] == after;
      ClosesStay(Run(max, table, parties, after[..|after| - 1]), after[|after| - 1]);
    }
    WordIsHandles(max, table, parties, after);
  }

  /** Every segment goes back to the pool once: what has been freed is the table's entries in order, none
      before a release wins, and all of them once it is done. A table of distinct buffers frees none twice. */
  lemma FreedOnce(max: nat, table: seq<nat>, parties: nat, turns: seq<Turn>)
    requires 1 <= max <= PRODUCERS
    ensures var s := Run(max, table, parties, turns);
      && s.freed <= table
      && (s.closes == 0 ==> s.freed == [])
      && (s.closes == 1 && (forall i :: 0 <= i < |s.parties| ==> !Past(s.parties[i].call)) ==> s.freed == table)
      && ((forall a, b :: 0 <= a < b < |table| ==> table[a] != table[b]) ==>
            forall a, b :: 0 <= a < b < |s.freed| ==> s.freed[a] != s.freed[b])
  {
    hide Run, Live, SomeRole;
    var s := Run(max, table, parties, turns);
    RunInv(max, table, parties, turns);
    if SomePast(s.parties) {
      var i :| 0 <= i < |s.parties| && Past(s.parties[i].call);
      assert Progress(s, s.parties[i].call);
    }
  }

  /** No buffer goes back to the pool under a magic: an open ring has every magic, a release clears them in order
      before it frees the first buffer, and once it has freed one, or is done, none is left, so that no later join
      takes the freed segments for a ring. */
  lemma MagicFirst(max: nat, table: seq<nat>, parties: nat, turns: seq<Turn>)
    requires 1 <= max <= PRODUCERS
    ensures var s := Run(max, table, parties, turns);
      && (s.closes == 0 ==> forall k :: 0 <= k < |s.magic| ==> s.magic[k])
      && (s.freed != [] ==> forall k :: 0 <= k < |s.magic| ==> !s.magic[k])
      && (s.closes == 1 && (forall i :: 0 <= i < |s.parties| ==> !Past(s.parties[i].call)) ==>
            forall k :: 0 <= k < |s.magic| ==> !s.magic[k])
      && (forall i :: 0 <= i < |s.parties| && s.parties[i].call.MagicClear? ==>
            forall k :: 0 <= k < |s.magic| ==> (s.magic[k] <==> s.parties[i].call.j <= k))
      && (forall i :: 0 <= i < |s.parties| && s.parties[i].call.FreeBuf? ==>
            forall k :: 0 <= k < |s.magic| ==> !s.magic[k])
  {
    hide Run, Live, SomeRole;
    var s := Run(max, table, parties, turns);
    RunInv(max, table, parties, turns);
    if SomePast(s.parties) {
      var i :| 0 <= i < |s.parties| && Past(s.parties[i].call);
      assert Progress(s, s.parties[i].call);
    }
  }
}
