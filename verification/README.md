# A verified model of the multi-producer ring of segments

This project models `mpsc::v3`, the ring of segments that any number of producers send into by compare-and-swap
and one consumer reads, with the sleep and wake protocol of both sides. The same model covers `mpsc::v4` (the same
protocol, receive by closure), `mpsc::v2` (the segments with tombstones, no sleeping) and `mpsc::v1` (one segment,
tombstones): a `Config` says which. It proves what the ring promises in every run: any number of producers, any
schedule, any depth and number of segments, any number of consumer hand-offs.

`dafny verify dfyconfig.toml` checks everything.

## The layers

- `Laps`, `Machine`: the ring as a machine of single atomic accesses. `Next` is one access of one producer or of the
  consumer; program counters carry the locals the code keeps across accesses (`w`, `k`, `start`, `seen`). A `Choice`
  resolves what the code leaves open: a weak CAS that fails for no reason, a timeout, a policy's answer, a closure's
  writes, a fill that unwinds. A `Ghost` part that no branch reads records the log of claims, each segment's claim and
  read frontier, the chain of segments from the consumer's to the claim word's, who holds a free segment inside
  `switch`, who owes a seal, a wake or a count.
- `Invariant`: what every access keeps. `Frames`, `LogFacts`, `LookProofs`, `ClaimProofs`, `CommitProofs`,
  `SwitchProofs`, `ConsumerProofs`, `ProducerSteps`, `ConsumerSteps`, `Runs`: the proof that it does. `Runs.Run` is the
  state after any schedule from `init`, and `Runs.Reached` says a state is one.
- `Delivery`, `Segments`, `Switches`, `Sleeping`, `Fullness`: the promises, as lemmas about every reached state or every
  run.
- `Progress`, `FillingUp`, `Filling`, `Draining`: what one side gets done when the others stand still, and how full any
  producers leave a ring nobody reads.
- `Races`, `Stale`, `Polling`: what is not promised. For every ring of the kind a run that shows it, and the exact
  condition under which the promise holds.
- `Wrapping`, `WrapSteps`, `OldWords`: the same machine with positions modulo 2^26, simulated step by step by the
  unwrapped one, and the run that shows what the simulation's bound is for.
- `Words`, `Packing`, `Masks`: the claim word, the seals, the in-use word and v2's to v4's slot words as the 32-bit words
  they are: every store and every test the machine makes of them is the program's own shift, mask and compare.
- `Outside`, `Arrivals`: what a run takes from outside the ring, the policies' answers and the fills' ends, and the
  message a consumer nobody disturbs reads next.
- `Asides`, `Rings`, `Readers`: the code's own form. `Ring` and `Reader` are classes whose fields and arrays are the
  shared words and the consumer's state; their methods are the code's calls, loops and all, one access at a time.
  Between two accesses `Others` lets the other sides make any accesses of theirs: callers see only its contract, so
  every method is proved against all interference. `Valid` says the words in place are the machine's after the accesses
  so far, so a call is a stretch of a run and every lemma about reached states holds of it. It says too that the
  accesses went by what was heard. The policies are parameters: a call says how many of their answers it took, that its
  accesses followed them, and that they went by nothing else. Each loop is proved to end once the others, spurious
  failures and the policy leave it to: the ghost `turns` bounds what is left of the first two.
- `Roles`, `RoleCalls`: the roles word as a machine of its own, with the claiming and releasing calls as methods.
- `Regions`: the layout of a ring in a pool, `init` and `attach` on arbitrary region contents, and the slots' addresses.

The step functions follow the source access by access: `Machine.SendStep` and `LookStep` are
`src/mpsc/v3/producer.rs:363-419`, `SwitchStep` is `:494-537`, `NapStep` is `:450-477`, `FillStep` is `:421-437` and
`src/mpsc/v2/producer.rs:160-195`; `ReadStep` is `src/mpsc/v3/consumer.rs:141-209` and `:265-275` with the tombstones of
`src/mpsc/v2/consumer.rs:109-141`, `RestStep` is `:223-235` and `src/mpsc/v3/mod.rs:417-424`, `HandStep` is
`src/mpsc/v3/mod.rs:380-408`; `Init` is `:524-555`.

## Assumptions

- Memory is sequentially consistent, and a read-modify-write is one access. A futex wait is one access that compares
  and sleeps, and may end early (the contract at `src/wake.rs:91-105`); a wake of a word wakes all its sleepers.
- The proofs are about positions that do not wrap. `WrapSteps.RunWraps` carries them to 26-bit words for every run in
  which no access compares a claim word that 2^26 less one segment claims in that segment have passed since it was
  loaded (`Wrapping.Current`); nothing else needs a bound, and without it the simulation is false
  (`OldWords.OldWordOverfills`). `Regions.AcceptedDepthsWrap` shows that every depth the geometry check accepts is
  covered, and `Words.V1WidthWraps` the same for v1's 32-bit positions.
- A message is a name for its sender and the number of its send, the most distinguishing content a body can have.
- A producer's policy and the consumer's answer by how often they were asked in the call, in any way, and give up at
  some question, so that calls end.

## Where the documentation says more than the code does

- `Err(Full)` is documented as "the ring was full when `send` last looked" (`src/mpsc/v3/producer.rs:313-316`). That
  holds exactly on rings of one segment (`FullIsFullOnOneSegment`). There the refused send saw the whole ring full
  (`FullIsTruthful`). On every ring of two or more segments a second producer can be refused with a whole segment never
  used, at no instant of the run full (`FullWithRoom`). What holds of every refusal is that the send saw its segment
  full at one access of its own and every segment's bit set at another (`FullIsTruthful`, `FullSawNoSegment`).
- The half-segment checks are documented to miss no sleeper, since a producer "sleeps only on a full ring"
  (`src/mpsc/v3/mod.rs:42-47`). A producer can sleep on a ring that is not full, because `has_room` loads the claim
  word and the slot apart. For a consumer that polls and never sleeps, the checks miss no sleeper exactly at depths
  below four (`PollingStrands`): there nobody is asleep on an empty ring (`SmallDepthMissesNone`). From four on, on one
  segment or several, a producer can be left asleep on an empty ring until its own timeout, however
  often the consumer polls (`PollerMissesSleeper`). A consumer that sleeps, or a segment full when the wake sequence is
  read, leaves no sleeper behind at any depth (`NoMutualSleep`, `FullRingIsNotified`).
- "A stale view fails the CAS, so no claim lands in a segment the ring has left" (`src/mpsc/v3/mod.rs:29-30`). The second
  half holds in every run (`StaleSendIsSafe`). The first holds exactly on rings of one segment
  (`CasIsFreshOnOneSegment`): on more, the claim word can come back to a word a send still holds (`ClaimWordReturns`),
  and the CAS succeeds.

## Model

| member | source | states |
|---|---|---|
| Runs.NextKeeps | src/mpsc/v3/producer.rs:350-537 | every access of every side, whatever is left open resolves to, keeps the whole invariant: window, chain, seals, bits, log, consumer's place, flag, counts, and what each program counter relies on |
| Delivery.DeliveredInClaimOrder | src/mpsc/v3/consumer.rs:141-209 | in every run the bodies read are the messages of the released claims in claim order: each once, none from an unwound fill, per-producer order kept, across all switches |
| Delivery.RefinesQueue | src/mpsc/v3/producer.rs:366-431 | every access is one step of a first-in first-out queue: a won claim CAS appends, the commit or tombstone store settles that very claim, the consumer's seq store releases the settled front and reads its message, everything else is a stutter |
| Delivery.HandOffExact | src/mpsc/v3/mod.rs:380-408 | a consumer that takes the role over has the last one's segment, position and resume positions, with nothing read or released between, whatever the producers did and however often the role changed hands |
| Delivery.PlaceKept | src/mpsc/v3/consumer.rs:69-79 | no access of a hand-off, and no access of a producer, moves the consumer's place in the ring |
| Segments.ChainIsLinked | src/mpsc/v3/producer.rs:510-526 | the segments from the consumer's to the claim word's are distinct, and each link is stored in its seal with the segment's end, or owed by exactly one producer with the seal not moved |
| Segments.BitsAreShared | src/mpsc/v3/producer.rs:497-508 | a segment's bit is set exactly when it is in the chain or held inside `switch`, never both, and never held by two producers |
| Segments.StaleSendIsSafe | src/mpsc/v3/producer.rs:376-394 | a send whose CAS finds the word it loaded, however old, takes the slot at the claim frontier, claimable now, with no other producer filling that slot and not the one the consumer reads |
| Segments.StaleSwitchIsSafe | src/mpsc/v3/producer.rs:508-526 | a switch whose CAS finds its word leaves a segment with no seal stored or pending, for one outside the chain with a clear seal, entered where both sides left it, all its slots claimable |
| Segments.SlotsExclusive | src/mpsc/v3/producer.rs:421-431 | no two producers fill one slot, and none fills the slot the consumer reads, tombstone or not |
| Segments.WindowIsExact | src/mpsc/v3/consumer.rs:153-163 | at every depth, each segment's slot words are one lap from its read frontier: claimable past the claim frontier, and before it being filled by its claimer, committed with the logged message in place, or a tombstone |
| Asides.CommittedStays | src/mpsc/v3/producer.rs:429-431 | no access of any side changes a committed slot's word or message before its release |
| Segments.ResumesAgree | src/mpsc/v3/consumer.rs:172-180 | for a segment outside the chain the seal, or its holder's `start`, and the consumer's resume entry, or the checkpoint's, are one position, with everything before it read and a lap claimable from it |
| Segments.LostSwitchLeavesNoTrace | src/mpsc/v3/producer.rs:503-535 | whatever the others do between a losing switch's `fetch_or` and its `fetch_and`: the segment it held ends free, its seal at the position it had, which is where both sides start there, nothing claimed or released in it, every slot claimable |
| Segments.CapacityHolds | src/mpsc/v3/producer.rs:366-420 | claims not yet released never exceed the chain's segments times the depth, nor the chain the ring's segments |
| Segments.SwitchesConserved | src/mpsc/v3/producer.rs:521-527 | switches won are the seals followed plus the chain's links; the header's count lags by exactly the producers between CAS and count |
| Switches.CountsAgreeAtRest | src/mpsc/v3/producer.rs:165-171 | once everything sent is read, with every send returned or refused, the ring is in one segment, however the switches went, and the producers' count is the seals followed, a first consumer's own count |
| Segments.WonCountsMoves | src/mpsc/v3/producer.rs:382-387 | only a won switch CAS changes the claim word's segment, it is counted once, and no producer's access changes the waiting flag |
| Sleeping.NoMutualSleep | src/mpsc/v3/consumer.rs:187-197 | while the consumer sleeps with everything claimed released, wherever a stale switch left the claim word, no producer is asleep |
| Sleeping.WakeIsOwed | src/mpsc/v3/producer.rs:432-436 | while the consumer sleeps the flag is up, and every claim at or past its place was made under it by a producer whose wake is still to come |
| Sleeping.SleepIsEnded | src/mpsc/v3/producer.rs:421-437 | a sleeping consumer with anything claimed is woken by at most three accesses of that claim's producer alone |
| Sleeping.SleeperMissedNoCheck | src/mpsc/v3/producer.rs:450-463 | a producer asleep and not notified has missed no check: no segment given back and less than half a segment released since it read the wake sequence |
| Sleeping.CheckInEveryHalf | src/mpsc/v3/mod.rs:314-314 | any half segment of consecutive positions, from anywhere, passes a check |
| Sleeping.FullRingIsNotified | src/mpsc/v3/consumer.rs:265-275 | if a segment held a full lap when a producer on its way to sleep read the wake sequence, that lap is not all released while the producer still sleeps, unless the consumer is in the check that wakes it |
| Sleeping.CheckWakesSleepers | src/mpsc/v3/mod.rs:417-424 | a check that starts while a producer sleeps bumps the sequence once and leaves nobody asleep, in three accesses |
| Sleeping.SleeperSawClaims | src/mpsc/v3/producer.rs:467-477 | in every run a producer asleep has had some segment claimed past what was released of it when the wake sequence was read, whatever stale word its look read |
| Sleeping.SmallDepthMissesNone | src/mpsc/v3/mod.rs:42-47 | below a depth of four the checks miss nobody, polling consumer or sleeping: with everything released and no check under way no producer is asleep |
| Fullness.FullIsTruthful | src/mpsc/v3/producer.rs:396-418 | when the policy is asked, this very send has looked at a segment holding exactly its depth of claims, on one segment the whole ring, and has claimed nothing |
| Fullness.FullSawNoSegment | src/mpsc/v3/producer.rs:497-502 | across segments the refused send has also found, at an access of its own, every segment's bit set |
| Races.FullIsFullOnOneSegment | src/mpsc/v3/producer.rs:313-316 | every refused send, in every run, saw the whole ring full at an instant of its own, if and only if the ring has one segment |
| Races.FullWithRoom | src/mpsc/v3/producer.rs:399-418 | on every ring of two or more segments a run of two producers where a send is refused with all but one segment's slots ever claimed |
| Polling.PollingStrands | src/mpsc/v3/mod.rs:42-47 | on a ring that wakes, of any mode and number of segments, some run strands a sleeping producer on an empty ring under a polling consumer, if and only if a segment has four slots or more |
| Polling.PollerMissesSleeper | src/mpsc/v3/producer.rs:467-477 | at every depth from four on such a run: a producer asleep, not notified, nothing left to read, and no number of polls wakes it |
| Races.ClaimWordReturns | src/mpsc/v3/producer.rs:376-394 | on every ring of two or more segments a run in which the claim word leaves a segment and comes back to the very value while a producer holds it loaded |
| Stale.CasIsFreshOnOneSegment | src/mpsc/v3/mod.rs:29-30 | every successful claim CAS, in every run, has had no claim and no switch since its load, if and only if the ring has one segment |
| Stale.WasLoaded | src/mpsc/v3/producer.rs:363-420 | every word a send goes by was loaded from the claim word at one access of that producer's, and kept since |
| Progress.AloneSends | src/mpsc/v3/producer.rs:376-437 | from its look at a claimable slot a send alone appends its message, committed, in four accesses, or in five where the consumer's flag is up, a sleeping consumer then woken, and changes nothing else |
| FillingUp.FillsExactly | src/mpsc/v3/mod.rs:1777-1798 | with the consumer idle a new ring takes exactly segments times depth sends, in order, with one switch fewer than segments and all of them in the chain, and the next send finds it full and changes nothing |
| Filling.FillLevel | src/mpsc/v3/producer.rs:366-420 | in every run of any producers with nothing released, every chain segment but the last is full, the claims are theirs and the last one's, and the moves won are the chain's links |
| Filling.LoneSend | src/mpsc/v3/producer.rs:396-420 | from rest, in every run, a send of any producer's on its own is refused, changing nothing, exactly when every segment is in the chain and the last is full, with nothing released exactly at segments times depth claims; else its message is committed at the back |
| Draining.DrainsAll | src/mpsc/v2/consumer.rs:98-155 | with no send in flight, producers asleep or not, the consumer alone reads everything committed, in claim order, over tombstones, even just before a seal, and every switch, and ends in the producers' segment; its checks wake everyone asleep or do nothing |
| Draining.DrainWakes | src/mpsc/v3/mod.rs:42-47 | that drain wakes a producer asleep, if half a segment was unread or a switch still to follow |
| Draining.TakesRole | src/mpsc/v3/mod.rs:755-779 | a consumer that claims the free role comes to its first look with the ring untouched |
| Wrapping.SourceWidthWraps | src/spsc/v3/mod.rs:51-84 | 26-bit positions are whole laps and whole half segments of every power-of-two depth up to 2^24, with room to tell the values apart |
| Wrapping.SlotAgrees | src/mpsc/v3/producer.rs:376-379 | the claimable test on wrapped words is the test on positions, for a word not a width old |
| Wrapping.SealAgrees | src/mpsc/v3/consumer.rs:167-172 | the end-of-segment test on a wrapped seal is the test on positions |
| WrapSteps.NextWraps | src/mpsc/v3/mod.rs:143-159 | one access of the 26-bit ring, from the wrapped words of any state the unwrapped ring keeps, comes to the wrapped words of the unwrapped access, if no compared word is a width old |
| WrapSteps.RunWraps | src/mpsc/v2/mod.rs:675-707 | a whole run of the 26-bit ring goes through the wrapped states of the unwrapped run of the same schedule, with the same claims and the same deliveries, if no access compares a word a width old |
| OldWords.OldWordOverfills | src/mpsc/v3/producer.rs:376-394 | at every width and on every ring some run in which the last access alone compares a word a width old claims one slot more than a segment has |
| Words.PackThenUnpack | src/mpsc/v3/mod.rs:143-159 | a packed word gives back its segment and its position modulo 2^26, and leaves bit 31 clear |
| Words.UnpackThenPack | src/mpsc/v3/mod.rs:143-159 | a word is its segment, position and flag, and nothing else |
| Words.HereIsFields | src/mpsc/v3/consumer.rs:226-231 | the masked comparison of the claim word is the comparison of the two fields |
| Words.FourWords | src/mpsc/v1/mod.rs:53-64 | at every depth v1 accepts, claimable, committed, tombstoned and released are four different 32-bit words |
| Words.ConsumerTests32 | src/mpsc/v1/consumer.rs:102-131 | in every run v1's two equality tests on the 32-bit word tell committed and tombstoned slots exactly |
| Words.ProducerTests32 | src/mpsc/v1/producer.rs:149-187 | in every run v1's claimable test on the 32-bit word is exact, tombstones of the lap before included, for an index less than half the range old |
| Words.SlotBitsInjective | src/mpsc/v2/producer.rs:54-60 | v2's tombstone bit over a 26-bit position loses nothing |
| Words.V1WidthWraps | src/mpsc/v1/mod.rs:320-328 | v1's 32-bit positions are whole laps and half laps of every depth it accepts, so that the run simulation covers its ring |
| Words.V1SlotsWrap | src/mpsc/v1/mod.rs:53-64 | v1's slot word of a wrapped position is that of the position |
| Packing.MaskIsWrap | src/spsc/v3/mod.rs:82-84 | `seq_of` of the word that holds a position is the position modulo 2^26, for every position |
| Packing.WordsTell | src/mpsc/v3/producer.rs:382-394 | comparing two stored claim words is comparing segment, position and flag |
| Packing.SealsTell | src/mpsc/v3/mod.rs:79-81 | a stored seal tells every two seals apart: flag, next segment and end position |
| Packing.ClaimStores | src/mpsc/v3/producer.rs:382-387 | the word a claim CAS leaves is `word(seg, pos + 1)` with the old word's flag, computed from the old word's bits |
| Packing.MoveStores | src/mpsc/v3/producer.rs:515-520 | the word a switch CAS leaves is `word(k, start)` with the old word's flag |
| Packing.SealStores | src/mpsc/v3/producer.rs:521-526 | the seal a switch stores is MOVED over `word(k, word_pos(w))` |
| Packing.SealRestores | src/mpsc/v3/producer.rs:514-533 | a lost switch's seal is the bare position, a cleared one 0 |
| Packing.FlagStores | src/mpsc/v3/consumer.rs:225-234 | the two updates of WAITING raise and lower the flag and leave the fields |
| Packing.HereTests | src/mpsc/v3/consumer.rs:226-230 | the consumer's test before it sleeps, masked compare or position bits, is the machine's test of its place |
| Packing.SealTests | src/mpsc/v3/consumer.rs:172-172 | the consumer's test of a seal word, flag, position bits and segment bits below the count, is the machine's |
| Packing.RunPacks | src/mpsc/v3/mod.rs:143-159 | in every run at the program's widths the claim word, every seal and every word a producer has yet to compare or store fit their 32-bit words |
| Masks.SlotMask | src/lib.rs:259-264 | the slot of a position is the position masked by the capacity less one |
| Masks.CheckTests | src/mpsc/v3/consumer.rs:272-272 | the masked position is zero exactly where the machine checks for sleeping producers |
| Masks.SetBits | src/mpsc/v3/producer.rs:497-508 | the bits of the stored in-use word are the segments in use |
| Masks.TakeStores | src/mpsc/v3/producer.rs:504-504 | the `fetch_or` leaves the word of the set with the segment taken |
| Masks.TakenTests | src/mpsc/v3/producer.rs:504-507 | the bit the `fetch_or` finds set is a segment in use already |
| Masks.ClearStores | src/mpsc/v3/consumer.rs:177-177 | the `fetch_and` leaves the word of the set without the segment given back |
| Masks.AllIsMask | src/mpsc/v3/mod.rs:426-434 | the mask is the word of all the ring's segments, up to all 32 |
| Masks.FreeTests | src/mpsc/v3/producer.rs:499-503 | `!in_use & all` is zero exactly when no segment is free, and else its trailing zeros are the lowest free segment |
| Masks.SlotStores | src/mpsc/v3/producer.rs:421-431 | the words a claim finds and a commit, an unwound fill and a release leave are the program's masked sums |
| Masks.SlotTests | src/mpsc/v2/consumer.rs:104-131 | comparing a stored slot word is telling claimable, committed and tombstoned at that position |
| Masks.RunFits | src/mpsc/v3/mod.rs:143-159 | in every run at the program's widths every slot word, the in-use word and the consumer's position fit their words |
| Rings.Ring.Send | src/mpsc/v3/producer.rs:350-438 | a send that is not refused has a claim made during this call: committed exactly when its fill returns, dead under a tombstone when the fill panics on a ring that has them, left filling for good when it panics on another; refused it has claimed nothing, and only by the policy giving up; each time the ring is found full the policy's next answer is followed, and a word to sleep has the producer count itself in; undisturbed it is refused exactly when the ring has no room, however patient the policy; it ends when the others and the policy let it |
| Rings.Ring.ClaimNext | src/mpsc/v3/producer.rs:363-420 | the claim loop ends with a slot claimed by this producer at the word it holds, the policy not having given up, or refused with nothing claimed at its giving up, undisturbed exactly as the ring has room or not; its accesses follow the policy's answers, all of them and no others |
| Rings.Ring.Refused | src/mpsc/v3/producer.rs:413-416 | at a full ring the policy is asked until it answers other than to sleep, each sleep taken: its giving up ends the send, its going on looks again, and undisturbed the ring is as full after |
| Rings.Ring.Switch | src/mpsc/v3/producer.rs:494-537 | from a word still current a switch loses only to others, and one that moved the ring leaves a claimable slot unless they took it; undisturbed it moves exactly when a segment is free |
| Rings.Ring.SleepFull | src/mpsc/v3/producer.rs:450-463 | through the count, the look, the wait and back out it comes again to the policy's question, whatever the others do; undisturbed, with no room, the producer sleeps |
| Outside.NapsCount | src/mpsc/v3/producer.rs:413-463 | in every run a producer whose policy said to sleep, on a ring that wakes, has counted itself in since or is about to |
| Rings.Ring.HasRoom | src/mpsc/v3/producer.rs:467-477 | undisturbed the answer is exact: a claimable slot at the claim word, or, across segments, a free segment |
| Rings.Ring.constructor | src/mpsc/v3/mod.rs:524-555 | what it writes, slot by slot, is the machine's initial state |
| Readers.Reader.Reserve | src/mpsc/v3/consumer.rs:141-209 | a reserve reads nothing and ends at a held slot, or refused only by the policy giving up; tombstones and ended segments are passed on the way, producers woken at each segment given back; each time the ring is found empty the policy's next answer is followed, and a word to sleep is; undisturbed it holds exactly the message coming: the first claim not released and not unwound, if it is committed and no seal on the way is owed, and is refused else; it ends when the producers and the policy let it |
| Readers.Reader.Wait | src/mpsc/v3/consumer.rs:187-202 | on an empty ring the policy is asked until it answers other than to sleep, each sleep taken, and the call looks again or gives up as it says |
| Outside.RestIsTaken | src/mpsc/v3/consumer.rs:192-197 | in every run a consumer whose policy said to sleep has woken the producers, on a ring that wakes, and raised its flag since, or is on its way |
| Arrivals.NoneComing | src/mpsc/v3/consumer.rs:153-201 | where a look and the seal show nothing to read, no message is coming |
| Arrivals.FollowComing | src/mpsc/v3/consumer.rs:172-186 | leaving an ended segment changes nothing of what is coming |
| Readers.Reader.Deref | src/mpsc/v3/consumer.rs:249-255 | the body of a held slot is the message of the first claim not released, committed |
| Readers.Reader.Release | src/mpsc/v3/consumer.rs:265-275 | a release adds exactly that message to what is read, moves one position on, and at every half segment leaves no producer asleep that was |
| Readers.Reader.Receive | src/mpsc/v4/consumer.rs:307-380 | a receive returns the message it adds to what is read, or adds nothing, and that only by the policy giving up; undisturbed it returns exactly the message coming, and comes back without one exactly when none is; every empty look follows the policy's next answer |
| Readers.Reader.SleepEmpty | src/mpsc/v4/consumer.rs:416-437 | before it sleeps every producer asleep is woken; undisturbed, with the claim word at its place, the consumer then sleeps; place and what is read stand, flag lowered after |
| Readers.Reader.WakeThem | src/mpsc/v3/mod.rs:421-422 | after the wake no producer is asleep |
| Readers.Reader.WakeProducers | src/mpsc/v3/mod.rs:417-424 | whatever the count is found to be, at one moment of the check no producer is asleep |
| Readers.Reader.Leave | src/mpsc/v3/consumer.rs:69-79 | giving the role back leaves it free with nothing read or lost, and the handle's segment, position and resume positions in the checkpoint |
| Readers.Reader.constructor | src/mpsc/v3/mod.rs:755-779 | a handle on the free role has the machine's consumer state, loaded word by word |
| Roles.WordIsHandles | src/mpsc/v3/mod.rs:721-779 | in every run the roles word is the live handles: the producers' count, at most the maximum, no carry, at most one consumer, closed exactly by the one release that won, and then no role held |
| Roles.ClosedForGood | src/mpsc/v3/mod.rs:687-696 | once released no role is ever held again, whatever is called |
| Roles.FreedOnce | src/mpsc/v3/mod.rs:696-711 | the buffers given back are the table's, in order, each once, none before a release wins and all when it is done |
| Roles.MagicFirst | src/mpsc/v3/mod.rs:698-710 | in every run an open ring has every magic; a release clears them in order, all before it frees the first buffer, and done has left none |
| RoleCalls.Desk.ClaimProducer | src/mpsc/v3/mod.rs:721-743 | a claim counts one handle more, or leaves the party as it was; it is refused as closed only on a ring closed for good, as taken only when the word, at a moment of the call, had the maximum; undisturbed it is refused as closed exactly on a closed ring, as taken exactly at the maximum, and else succeeds; it ends when the others let it |
| RoleCalls.Desk.ClaimConsumer | src/mpsc/v3/mod.rs:755-779 | a claim gives the party the handle, or leaves it as it was, the role free again after a bad checkpoint; it is refused as closed only on a ring closed for good, as taken only when the word, at a moment of the call, had the bit; undisturbed it is refused as closed, as taken, or for the checkpoint exactly when each is so, in that order, and else succeeds |
| RoleCalls.Desk.ReleaseRing | src/mpsc/v3/mod.rs:672-711 | a release that wins leaves every magic cleared and every buffer of the table given back; refused it was closed for good, or held at a moment of the call; undisturbed it wins exactly when no role is held and the ring is open, is refused as closed or in use exactly when each is so, and refused changes nothing, no magic either |
| Regions.Pool.Init | src/mpsc/v3/mod.rs:487-563 | succeeds exactly on a good geometry with enough free buffers, takes just those, and writes a ring `attach` accepts as the same layout: the most producers as asked, nothing claimed, segment 0 alone in use, the table, every other header word zero and every slot claimable for its first lap; refused, pool and region are untouched and the error is the first fault in the order of the checks |
| Regions.Pool.Attach | src/mpsc/v3/mod.rs:579-649 | accepts a region exactly when it holds a ring of this mode there, whatever else it holds, and what it accepts is sound; the error of a refusal is the first fault in the order of the checks |
| Regions.Pool.InitThenAttach | src/mpsc/v3/mod.rs:579-649 | joining what was just made, which is whenever `init` succeeds, gives the same layout |
| Regions.SlotInBounds | src/lib.rs:259-264 | every slot of an accepted layout lies in its buffer behind the header, at a line, with no overflow on the way |
| Regions.SlotsApart | src/mpsc/v3/mod.rs:287-316 | no two slots of an accepted layout overlap, nor a slot any header |
| Regions.AcceptedDepthsWrap | src/spsc/v3/mod.rs:256-272 | every depth the geometry check accepts is one the 26-bit simulation covers |
| Regions.ErrorNamesFault | src/spsc/v3/mod.rs:256-272 | the error names the first fault, each exactly: a slot size not whole lines, a capacity not a power of two up to 2^24, a count not 1 to 32 |

## Left out

- Weak memory orderings: accesses are sequentially consistent; Dafny has no model of the others.
- The futex calls, the clock and deadlines: kept as compare-and-sleep, wake, and a timeout at any time.
- Raw addresses, lifetimes and casts: a body is a name; that slots never overlap is `Regions.SlotsApart`.
- The 32-bit wrap of the switch count, the wake sequence and the waiters' count: counted without bound. A wake sequence
  that wraps all 2^32 values between a producer's load and its wait would miss a wake, as in the code.
- A `Single` ring's segment bits: the model's claim word of a one-segment ring always names segment 0, which the
  unused bits of the code's word do as long as nobody scribbles on them.
- The pool's free stack: a set of free buffers. `release_ring` on another region's pool is refused before anything this
  model follows.
- `mpsc::v0`, superseded by v1; its tombstone arithmetic differs from its comment (`src/mpsc/v0/mod.rs:62-64`).
- `spsc::v0` to `spsc::v4`, `registry`, the demos and measurement tools: no harder property needs them.
- v1's consumer index in the shared header: the model keeps the consumer's position in the handle and hands it over
  through the checkpoint, as v3 does.
- Rings.Ring.Others: what the other sides do between two accesses is its contract, any accesses of theirs; the body does
  nothing, since callers rely on the contract alone.
- Rings.Ring.Send: ends because interference, spurious failures and the policy's patience are finite, not because of a
  fair schedule; the words are unwrapped, as `WrapSteps.RunWraps` justifies. `on_lost` touches no shared word.
