/** The calls that claim and give back roles, and the one that releases the ring, as loops over the roles word,
    between whose accesses the other parties do as they please. */
module RoleCalls {
  import opened Laps
  import opened Roles

  /** How a claim ends. */
  datatype Claimed = Held | RingClosed | RoleTaken | BadRing

  /** How a release of the ring ends. */
  datatype Released = Done | InUse | AlreadyClosed

  /** The most producers a ring may allow. */
  type Maximum = m: nat | 1 <= m <= PRODUCERS witness 1

  class Desk {
    const max: Maximum
    ghost const parties: nat
    var word: nat
    /** Segment 0's table of buffer indices, and each segment's magic. */
    const table: array<nat>
    const magic: array<bool>
    /** The buffers the pool got back, in order. */
    var freed: seq<nat>

    /** Every access so far, and what is left of the others' and of spurious failures. */
    ghost var turns: seq<Turn>
    ghost var left: nat

    ghost function Now(): (s: Office)
      reads this`turns, table
      ensures Inv(s) && |s.parties| == parties && s.max == max
    {
      RunInv(max, table[..], parties, turns);
      Run(max, table[..], parties, turns)
    }

    /** The words in place are the office's after the accesses so far. */
    ghost predicate Valid()
      reads this`turns, this`word, this`freed, table, magic
    {
      && word == Now().word
      && magic[..] == Now().magic
      && freed == Now().freed
      && table.Length == magic.Length
    }

    /** Party `i` is at `call`, holding these handles. */
    ghost predicate At(i: nat, p: Party)
      reads this`turns, table
    {
      i < parties && Now().parties[i] == p
    }

    /** A ring nobody holds yet, made by `init` or joined by `attach`. */
    constructor (max: Maximum, indices: seq<nat>, ghost parties: nat, ghost left: nat)
      ensures Valid() && turns == [] && fresh(table) && fresh(magic)
      ensures this.max == max && this.parties == parties && this.left == left && table[..] == indices
    {
      hide Inv;
      this.max, this.parties, this.left := max, parties, left;
      word, freed, turns := 0, [], [];
      table := new nat[|indices|](k requires 0 <= k < |indices| => indices[k]);
      magic := new bool[|indices|](k => true);
      new;
      assert table[..] == indices;
      OpenedInv(max, indices, parties);
    }

    ghost method Advance(turn: Turn)
      requires table.Length == magic.Length
      requires var s := Step(Now(), turn); word == s.word && magic[..] == s.magic && freed == s.freed
      modifies this`turns
      ensures Valid() && turns == old(turns) + [turn] && Now() == Step(old(Now()), turn)
    {
      hide Run, Inv, Step;
      RunNext(max, table[..], parties, turns, turn);
      turns := turns + [turn];
    }

    /** The other parties make some accesses. */
    method Others(i: nat)
      requires Valid()
      modifies this`turns, this`word, this`freed, this`left, magic
      ensures Valid() && old(turns) <= turns
      ensures forall n :: |old(turns)| <= n < |turns| ==> turns[n].i != i
      ensures left + |turns| <= old(left) + |old(turns)|
    {
    }

    /** A weak CAS may fail for no reason, but not forever. */
    method Spurious() returns (fails: bool)
      modifies this`left
      ensures left <= old(left) && (fails ==> left < old(left))
    {
      fails := false;
    }

    method Yield(i: nat, ghost p: Party)
      requires Valid() && At(i, p)
      modifies this`turns, this`word, this`freed, this`left, magic
      ensures Valid() && At(i, p)
      ensures old(turns) <= turns && left <= old(left)
      ensures left == old(left) ==> word == old(word) && freed == old(freed) && magic[..] == old(magic[..])
    {
      hide Run, Inv;
      Others(i);
      OthersLeave(max, table[..], parties, old(turns), turns, i);
      assert left == old(left) ==> turns == old(turns);
    }

    /** The roles word was `r` at some moment since the first `from` accesses. */
    ghost predicate Found(from: nat, r: nat)
      reads this`turns, table
    {
      FoundIn(max, table[..], parties, turns, from, r)
    }

    lemma FoundNow(from: nat)
      requires Valid() && from <= |turns|
      ensures Found(from, word)
    {
      hide Run, Inv;
      assert turns[..|turns|] == turns;
      assert WordAfter(max, table[..], parties, turns, |turns|) == word;
    }

    /** A ring found closed is closed for good. */
    lemma ClosedStill(from: nat, r: nat)
      requires Valid() && Found(from, r) && IsClosed(r)
      ensures IsClosed(word)
    {
      hide Run, Inv, IsClosed;
      var n :| from <= n <= |turns| && WordAfter(max, table[..], parties, turns, n) == r;
      WordIsHandles(max, table[..], parties, turns[..n]);
      ClosedForGood(max, table[..], parties, turns[..n], turns);
      WordIsHandles(max, table[..], parties, turns);
    }

    // ---------------------------------------------------------------- producers

    /** One access that changes this party alone. */
    ghost method Note(i: nat, act: Act, p: Party)
      requires Valid() && i < parties
      requires Step(Now(), Turn(i, act)) == With(Now(), i, p)
      modifies this`turns
      ensures Valid() && At(i, p) && turns == old(turns) + [Turn(i, act)]
    {
      hide Run, Inv, Step;
      Advance(Turn(i, act));
    }

    method CasProducer(i: nat, ghost p: Party, r: nat) returns (ok: bool, actual: nat)
      requires Valid() && At(i, p) && p.call == ProducerCas(r) && !IsClosed(r) && CountOf(r) < max
      modifies this`turns, this`word, this`left
      ensures Valid() && old(turns) <= turns && left <= old(left)
      ensures ok ==> At(i, p.(call := Out, producers := p.producers + 1))
      ensures !ok ==> At(i, p.(call := ProducerCas(actual))) && actual == word && (old(word) != r || left < old(left))
    {
      hide Run, Inv;
      var fails := Spurious();
      actual, ok := word, word == r && !fails;
      if ok {
        word := (r + 1) % U32;
        Advance(Turn(i, Go));
      } else {
        Advance(Turn(i, if actual == r then Fail else Go));
      }
    }

    method StartProducer(i: nat, ghost p: Party) returns (r: nat)
      requires Valid() && At(i, p) && p.call == Out
      modifies this`turns, this`word, this`freed, this`left, magic
      ensures Valid() && old(turns) <= turns && left <= old(left)
      ensures At(i, p.(call := ProducerCas(r))) && r == word
      ensures left == old(left) ==> word == old(word)
    {
      hide Run, Inv;
      Note(i, AskProducer, p.(call := ProducerLoad));
      Yield(i, p.(call := ProducerLoad));
      r := word;
      Note(i, Go, p.(call := ProducerCas(r)));
    }

    method RefuseProducer(i: nat, ghost p: Party, r: nat)
      requires Valid() && At(i, p.(call := ProducerCas(r))) && p.call == Out && (IsClosed(r) || CountOf(r) >= max)
      modifies this`turns
      ensures Valid() && old(turns) <= turns && At(i, p)
    {
      hide Run, Inv;
      Note(i, Go, p);
    }

    /** Claim a producer role: one CAS counts it in, below the maximum, on a ring not released. */
    method ClaimProducer(i: nat, ghost p: Party) returns (c: Claimed)
      requires Valid() && At(i, p) && p.call == Out
      modifies this`turns, this`word, this`freed, this`left, magic
      ensures Valid() && old(turns) <= turns
      ensures At(i, if c.Held? then p.(producers := p.producers + 1) else p)
      ensures !c.BadRing?
      ensures c.RingClosed? ==> IsClosed(word)
      ensures c.RoleTaken? ==> exists r :: Found(|old(turns)|, r) && !IsClosed(r) && CountOf(r) >= max
      ensures left == old(left) ==>
        && (c.RingClosed? <==> IsClosed(old(word)))
        && (c.RoleTaken? <==> !IsClosed(old(word)) && CountOf(old(word)) >= max)
        && (c.Held? <==> !IsClosed(old(word)) && CountOf(old(word)) < max)
    {
      hide Run, Inv, Step, Live, IsClosed, HasConsumer, CountOf, FoundIn;
      var r := StartProducer(i, p);
      FoundNow(|old(turns)|);
      while true
        invariant Valid() && At(i, p.(call := ProducerCas(r))) && r == word && old(turns) <= turns
        invariant Found(|old(turns)|, r)
        invariant left <= old(left) && (left == old(left) ==> word == old(word))
        decreases left
      {
        ghost var seen := turns;
        Yield(i, p.(call := ProducerCas(r)));
        if IsClosed(r) || CountOf(r) >= max {
          RefuseProducer(i, p, r);
          FoundStill(max, table[..], parties, seen, turns, |old(turns)|, r);
          if IsClosed(r) {
            ClosedStill(|old(turns)|, r);
          }
          return if IsClosed(r) then RingClosed else RoleTaken;
        }
        var ok, actual := CasProducer(i, p.(call := ProducerCas(r)), r);
        if ok {
          return Held;
        }
        r := actual;
        FoundNow(|old(turns)|);
      }
    }

    /** Give a producer handle back. */
    method ReleaseProducer(i: nat, ghost p: Party)
      requires Valid() && At(i, p) && p.call == Out && p.producers >= 1
      modifies this`turns, this`word
      ensures Valid() && old(turns) <= turns && At(i, p.(producers := p.producers - 1))
    {
      hide Run, Inv;
      word := (word + U32 - 1) % U32;
      Advance(Turn(i, GiveProducer));
    }

    // ---------------------------------------------------------------- the consumer

    method CasConsumer(i: nat, ghost p: Party, r: nat) returns (ok: bool, actual: nat)
      requires Valid() && At(i, p) && p.call == ConsumerCas(r) && !IsClosed(r) && !HasConsumer(r)
      modifies this`turns, this`word, this`left
      ensures Valid() && old(turns) <= turns && left <= old(left)
      ensures ok ==> At(i, p.(call := Checking))
      ensures !ok ==> At(i, p.(call := ConsumerCas(actual))) && actual == word && (old(word) != r || left < old(left))
    {
      hide Run, Inv;
      var fails := Spurious();
      actual, ok := word, word == r && !fails;
      if ok {
        word := WithConsumer(r);
        Advance(Turn(i, Go));
      } else {
        Advance(Turn(i, if actual == r then Fail else Go));
      }
    }

    /** The role claimed and its checkpoint read: a bad one leaves the role free. */
    method ReadCheckpoint(i: nat, ghost p: Party, good: bool) returns (c: Claimed)
      requires Valid() && At(i, p.(call := Checking)) && p.call == Out && !p.consumer
      modifies this`turns, this`word, this`freed, this`left, magic
      ensures Valid() && old(turns) <= turns && left <= old(left)
      ensures c == if good then Held else BadRing
      ensures At(i, if good then p.(consumer := true) else p)
    {
      hide Run, Inv;
      if good {
        Note(i, Go, p.(consumer := true));
        return Held;
      }
      Note(i, Fail, p.(call := BadCheckpoint));
      Yield(i, p.(call := BadCheckpoint));
      word := WithoutConsumer(word);
      Advance(Turn(i, Go));
      return BadRing;
    }

    method StartConsumer(i: nat, ghost p: Party) returns (r: nat)
      requires Valid() && At(i, p) && p.call == Out
      modifies this`turns, this`word, this`freed, this`left, magic
      ensures Valid() && old(turns) <= turns && left <= old(left)
      ensures At(i, p.(call := ConsumerCas(r))) && r == word
      ensures left == old(left) ==> word == old(word)
    {
      hide Run, Inv;
      Note(i, AskConsumer, p.(call := ConsumerLoad));
      Yield(i, p.(call := ConsumerLoad));
      r := word;
      Note(i, Go, p.(call := ConsumerCas(r)));
    }

    method RefuseConsumer(i: nat, ghost p: Party, r: nat)
      requires Valid() && At(i, p.(call := ConsumerCas(r))) && p.call == Out && (IsClosed(r) || HasConsumer(r))
      modifies this`turns
      ensures Valid() && old(turns) <= turns && At(i, p)
    {
      hide Run, Inv;
      Note(i, Go, p);
    }

    /** Claim the consumer role: one CAS sets its bit, on a ring not released whose role is free. */
    method ClaimConsumer(i: nat, ghost p: Party, good: bool) returns (c: Claimed)
      requires Valid() && At(i, p) && p.call == Out
      modifies this`turns, this`word, this`freed, this`left, magic
      ensures Valid() && old(turns) <= turns
      ensures At(i, if c.Held? then p.(consumer := true) else p)
      ensures c.Held? ==> good && !p.consumer
      ensures c.BadRing? ==> !good
      ensures c.RingClosed? ==> IsClosed(word)
      ensures c.RoleTaken? ==> exists r :: Found(|old(turns)|, r) && !IsClosed(r) && HasConsumer(r)
      ensures left == old(left) ==>
        && (c.RingClosed? <==> IsClosed(old(word)))
        && (c.RoleTaken? <==> !IsClosed(old(word)) && HasConsumer(old(word)))
        && (c.BadRing? <==> !IsClosed(old(word)) && !HasConsumer(old(word)) && !good)
        && (c.Held? <==> !IsClosed(old(word)) && !HasConsumer(old(word)) && good)
    {
      hide Run, Inv, Step, Live, IsClosed, HasConsumer, CountOf, FoundIn;
      var r := StartConsumer(i, p);
      FoundNow(|old(turns)|);
      while true
        invariant Valid() && At(i, p.(call := ConsumerCas(r))) && r == word && old(turns) <= turns
        invariant Found(|old(turns)|, r)
        invariant left <= old(left) && (left == old(left) ==> word == old(word))
        decreases left
      {
        ghost var seen := turns;
        Yield(i, p.(call := ConsumerCas(r)));
        if IsClosed(r) || HasConsumer(r) {
          RefuseConsumer(i, p, r);
          FoundStill(max, table[..], parties, seen, turns, |old(turns)|, r);
          if IsClosed(r) {
            ClosedStill(|old(turns)|, r);
          }
          return if IsClosed(r) then RingClosed else RoleTaken;
        }
        var ok, actual := CasConsumer(i, p.(call := ConsumerCas(r)), r);
        if ok {
          NotYet(i, p);
          Yield(i, p.(call := Checking));
          c := ReadCheckpoint(i, p, good);
          return;
        }
        r := actual;
        FoundNow(|old(turns)|);
      }
    }

    /** A party that claims the role holds no consumer handle already. */
    lemma NotYet(i: nat, p: Party)
      requires Valid() && At(i, p.(call := Checking))
      ensures !p.consumer
    {
      hide Run;
      Opening(Now(), i);
    }

    /** Give the consumer role back. */
    method ReleaseConsumer(i: nat, ghost p: Party)
      requires Valid() && At(i, p) && p.call == Out && p.consumer
      modifies this`turns, this`word
      ensures Valid() && old(turns) <= turns && At(i, p.(consumer := false))
    {
      hide Run, Inv;
      word := WithoutConsumer(word);
      Advance(Turn(i, GiveConsumer));
    }

    // ---------------------------------------------------------------- release of the ring

    method CasClosed(i: nat, ghost p: Party) returns (r: nat)
      requires Valid() && At(i, p) && p.call == RingCas
      modifies this`turns, this`word
      ensures Valid() && old(turns) <= turns && r == old(word)
      ensures r != 0 ==> word == old(word)
      ensures At(i, p.(call := if r == 0 then TableLoad([]) else Out))
    {
      hide Run, Inv;
      r := word;
      if r == 0 {
        word := CLOSED;
      }
      Advance(Turn(i, Go));
    }

    method ClearMagic(i: nat, ghost p: Party, j: nat, got: seq<nat>)
      requires Valid() && At(i, p) && p.call == MagicClear(j, got) && j < magic.Length
      modifies this`turns, magic
      ensures Valid() && old(turns) <= turns && At(i, p.(call := MagicClear(j + 1, got)))
    {
      hide Run, Inv;
      magic[j] := false;
      Advance(Turn(i, Go));
    }

    method Free(i: nat, ghost p: Party, j: nat, got: seq<nat>)
      requires Valid() && At(i, p) && p.call == FreeBuf(j, got) && j < |got|
      modifies this`turns, this`freed
      ensures Valid() && old(turns) <= turns && At(i, p.(call := FreeBuf(j + 1, got)))
    {
      hide Run, Inv;
      freed := freed + [got[j]];
      Advance(Turn(i, Go));
    }

    method ReadTable(i: nat, ghost p: Party) returns (got: seq<nat>)
      requires Valid() && At(i, p.(call := TableLoad([])))
      modifies this`turns, this`word, this`freed, this`left, magic
      ensures Valid() && old(turns) <= turns && left <= old(left) && At(i, p.(call := MagicClear(0, got)))
    {
      hide Run, Inv;
      got := [];
      while |got| < table.Length
        invariant |got| <= table.Length && got == table[..|got|]
        invariant Valid() && At(i, p.(call := TableLoad(got))) && old(turns) <= turns && left <= old(left)
      {
        Yield(i, p.(call := TableLoad(got)));
        TableIs();
        Note(i, Go, p.(call := TableLoad(got + [table[|got|]])));
        got := got + [table[|got|]];
      }
      Yield(i, p.(call := TableLoad(got)));
      TableIs();
      Note(i, Go, p.(call := MagicClear(0, got)));
    }

    method ClearMagics(i: nat, ghost p: Party, got: seq<nat>)
      requires Valid() && At(i, p.(call := MagicClear(0, got)))
      modifies this`turns, this`word, this`freed, this`left, magic
      ensures Valid() && old(turns) <= turns && left <= old(left) && At(i, p.(call := FreeBuf(0, got)))
    {
      hide Run, Inv;
      var j := 0;
      while j < magic.Length
        invariant j <= magic.Length
        invariant Valid() && At(i, p.(call := MagicClear(j, got))) && old(turns) <= turns && left <= old(left)
      {
        Yield(i, p.(call := MagicClear(j, got)));
        ClearMagic(i, p.(call := MagicClear(j, got)), j, got);
        j := j + 1;
      }
      Yield(i, p.(call := MagicClear(j, got)));
      Note(i, Go, p.(call := FreeBuf(0, got)));
    }

    method FreeAll(i: nat, ghost p: Party, got: seq<nat>)
      requires Valid() && At(i, p.(call := FreeBuf(0, got))) && p.call == Out
      modifies this`turns, this`word, this`freed, this`left, magic
      ensures Valid() && old(turns) <= turns && left <= old(left) && At(i, p) && freed == table[..]
      ensures forall k :: 0 <= k < magic.Length ==> !magic[k]
    {
      hide Run, Inv;
      var j := 0;
      while j < |got|
        invariant j <= |got|
        invariant Valid() && At(i, p.(call := FreeBuf(j, got))) && old(turns) <= turns && left <= old(left)
      {
        Yield(i, p.(call := FreeBuf(j, got)));
        Free(i, p.(call := FreeBuf(j, got)), j, got);
        j := j + 1;
      }
      Yield(i, p.(call := FreeBuf(j, got)));
      AllFreed(i, p, got);
      Note(i, Go, p);
    }

    lemma TableIs()
      requires Valid()
      ensures Now().table == table[..]
    {
      hide Inv;
    }

    lemma AllFreed(i: nat, p: Party, got: seq<nat>)
      requires Valid() && At(i, p.(call := FreeBuf(|got|, got)))
      ensures freed == got == Now().table == table[..]
      ensures forall k :: 0 <= k < magic.Length ==> !magic[k]
    {
      hide Run;
      assert Progress(Now(), Now().parties[i].call);
      TableIs();
      assert forall k :: 0 <= k < magic.Length ==> magic[k] == magic[..][k];
    }

    /** Release the ring: only with no role held, only once, and then every magic is cleared and every
        buffer of its table freed. A ring in use or already released is left as it was. */
    method ReleaseRing(i: nat, ghost p: Party) returns (r: Released)
      requires Valid() && At(i, p) && p.call == Out
      modifies this`turns, this`word, this`freed, this`left, magic
      ensures Valid() && old(turns) <= turns && At(i, p)
      ensures r.Done? ==> freed == table[..] && forall k :: 0 <= k < magic.Length ==> !magic[k]
      ensures r.AlreadyClosed? ==> IsClosed(word)
      ensures r.InUse? ==> exists u :: Found(|old(turns)|, u) && u != 0 && !IsClosed(u)
      ensures left == old(left) ==>
        && (r.Done? <==> old(word) == 0)
        && (r.AlreadyClosed? <==> IsClosed(old(word)))
        && (r.InUse? <==> old(word) != 0 && !IsClosed(old(word)))
        && (!r.Done? ==> word == old(word) && freed == old(freed) && magic[..] == old(magic[..]))
    {
      hide Run, Inv;
      Note(i, AskRing, p.(call := RingCas));
      Yield(i, p.(call := RingCas));
      var was := CasClosed(i, p.(call := RingCas));
      if was != 0 {
        FoundNow(|old(turns)|);
        return if IsClosed(was) then AlreadyClosed else InUse;
      }
      var got := ReadTable(i, p);
      ClearMagics(i, p, got);
      FreeAll(i, p, got);
      return Done;
    }
  }

  /** The roles word after the first `n` accesses. */
  function WordAfter(max: nat, table: seq<nat>, parties: nat, turns: seq<Turn>, n: nat): nat
    requires n <= |turns|
  {
    Run(max, table, parties, turns[..n]).word
  }

  ghost predicate FoundIn(max: nat, table: seq<nat>, parties: nat, turns: seq<Turn>, from: nat, r: nat) {
    exists n :: from <= n <= |turns| && WordAfter(max, table, parties, turns, n) == r
  }

  lemma FoundStill(max: nat, table: seq<nat>, parties: nat, before: seq<Turn>, after: seq<Turn>, from: nat, r: nat)
    requires before <= after && FoundIn(max, table, parties, before, from, r)
    ensures FoundIn(max, table, parties, after, from, r)
  {
    hide Run;
    var n :| from <= n <= |before| && WordAfter(max, table, parties, before, n) == r;
    assert after[..n] == before[..n];
    assert WordAfter(max, table, parties, after, n) == r;
  }

  lemma OtherStep(s: Office, turn: Turn, i: nat)
    requires i < |s.parties| && turn.i != i
    ensures Step(s, turn).parties[i] == s.parties[i]
  {
  }

  /** Whatever the others call, a party's own call and handles stay. */
  lemma {:induction false} OthersLeave(max: nat, table: seq<nat>, parties: nat, before: seq<Turn>, after: seq<Turn>,
                                       i: nat)
    requires before <= after && i < parties
    requires forall n :: |before| <= n < |after| ==> after[n].i != i
    ensures Run(max, table, parties, after).parties[i] == Run(max, table, parties, before).parties[i]
    decreases |after|
  {
    hide Run, Step, Inv;
    if before != after {
      var m := |after| - 1;
      OthersLeave(max, table, parties, before, after[..m], i);
      RunNext(max, table, parties, after[..m], after[m]);
      assert after[..m] + [after[m]] == after;
      OtherStep(Run(max, table, parties, after[..m]), after[m], i);
    }
  }
}
