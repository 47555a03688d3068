# Two-node BLE tunnel: a verified model

The system relays Bluetooth battery monitors (JK02 protocol) to a phone that is out of their
range. Node A is the central: an arbiter keeps one ring of requests per bank and one outstanding
operation, and a BLE owner keeps a pool of link slots that connect, discover, subscribe, write and
reassemble notifications. Node B is the peripheral the phone sees: it relays the live stream,
answers openers from cached records, and fences everything to the phone's session. A TCP tunnel
joins them.

The model covers the state machines that have to stay correct under timeouts, slot and handle
reuse, late callbacks and session changes, and the byte-level recognisers, formats and arithmetic
beneath them. Each mutex section, callback or arbiter message is one step; queues are sequences;
time and every answer of the radio stack, the buffer pool and the socket are parameters and may be
anything. Step functions give each operation its meaning, classes with arrays and loops are proved
to have exactly that meaning, and the theorems quantify over all runs.

| files | content |
|---|---|
| Prelude, JkFrame | bytes, record format, checksum |
| StreamStart, Reassembly | the two byte-stream recognisers, against whole-history specifications |
| StateCache, NodeATypes, Links, LinkPool, PoolInvariant | runtime cache; one link slot; the pool; what every callback keeps |
| Pending, NodeA, NodeATheorems | one arbiter bank; Node A as one step system; its theorems |
| Provenance, Retention | where idle releases come from; what becomes of a pending CONNECT |
| ArbiterRules, Deadlines, ExecRules, DiscoveryRules | what is decided and when, spelt out on the state before and after: dispatch, timeouts, requests and answers, discovery |
| Arbiter, BleOwner | the ring array and the slot array, in place, refining the above |
| PollCompletion, PollEvidence | how polls end and what an OK rests on |
| VerifyRound, FrameStamps, BootVerify | the boot-verify round, where frame time stamps come from, and the two together |
| Session, NbState | Node B's session fence and replay debt; the identity table |
| Notify, DevInfoCache | chunking, replay and the live gate; the richest-record cache |
| Tunnel, TunnelMessages, TunnelProducers | framing, validators, and what Node A puts on the wire |
| BalanceSettings | register writes and their readback |

Fields that exist for the theorems only and steer nothing are named as such where they are declared:
unbounded edge counters beside the 64-bit epochs, the arbiter's log, the evidence flags of a poll,
the numbers of phone connections and openers.

Where the code and its own comments differ, the model follows the code. The header of Node B's
state describes two alternating device-info pages in the cache; the code keeps one slot for the
richest frame (`node_b/main/nb_state.c:97`). The header of the protocol component describes the
write builder as compiled out by default; the build turns it on
(`components/jk_proto/CMakeLists.txt:15`).

## Model

| member | source | states |
|---|---|---|
| `NodeATheorems.TokenConservation` | node_a/main/arbiter.c:118-169 | in every reachable state of arbiter, queues and link pool, a bank is busy exactly when one copy of its operation exists in request queue, slots or response queue; no other copy exists; neither queue overflows and an idle bank always finds room |
| `NodeATheorems.NoUnsolicitedResult` | node_a/main/arbiter.c:339-346 | every response that reaches the arbiter answers the operation its bank waits for |
| `NodeATheorems.BankDiscipline` | node_a/main/arbiter.c:118-169 | per bank, over every run: ids sent are 1, 2, 3, ..., each answered once in order with at most the last open; non-CONNECT requests leave once each in acceptance order; backoff and hold-off equal the closed form of the result history |
| `NodeATheorems.SlotPhases` | node_a/main/ble_owner.c:655-736 | at most one slot per bank; each slot in use is in exactly one of four phases; ready slot, held link and link up coincide for every bank |
| `NodeATheorems.AllocationSucceeds` | node_a/main/ble_owner.c:294-305 | with no more banks than slots, allocating a slot never fails |
| `NodeATheorems.StaleWriteInert` | node_a/main/ble_owner.c:793-813 | a write callback with a token no longer waited for changes nothing at all, now or after any further run, unconditionally |
| `NodeATheorems.StaleDiscoveryInert` | node_a/main/ble_owner.c:428-438 | the same for every discovery callback, below 2^32 discoveries since boot |
| `NodeATheorems.AuthorisedMeansNoEdge` | node_a/main/ble_owner.c:913-920 | an authorised idle release carries the bank's current edge count, below 2^64 edges |
| `NodeATheorems.QuietStretch` | node_a/main/state_cache.c:38-65 | edge counts never fall along a run, and equal counts at two moments mean equal app and held flags |
| `NodeATheorems.RunEvolves` | node_a/main/ble_owner.c:655-674 | along every run tokens only move forward: a slot keeps or retires a write token or discovery generation, or takes one newer than all before |
| `NodeATheorems.DescriptorRanges` | node_a/main/ble_owner.c:516-569 | from the start of the first descriptor search to the end of the link: the recorded handles are those of the characteristics reported as FFE1 and FFE2, no declaration or value handle of any discovered characteristic lies in a searched range, both ranges lie in the service, and a CCCD found lies strictly after its value and in its range; a ready link has FFE1's |
| `Provenance.IdleFence` | node_a/main/supervisor.c:326-335 | an idle release authorised where it runs was built from what the supervisor saw at a snapshot event of the run, and at every moment from that event on the link was held and no app attached, with not one edge in between, below 2^64 edges |
| `Provenance.RunTraced` | node_a/main/arbiter.c:156-165 | over every run, every idle release in inbox, rings and request queue, but for its command id, is the one built from a record copied during the run |
| `Provenance.StepTraced` | node_a/main/supervisor.c:330-334 | no step of any task makes an idle release from anything but the supervisor's copy |
| `Retention.ConnectSurvives` | node_a/main/arbiter.c:346-358 | over every run of Node A, a CONNECT at the head stays there until a flush of its bank or its own first result other than CONNECT_WAIT, whatever else happens |
| `Retention.StepKeepsHead` | node_a/main/arbiter.c:156-168 | every single step keeps it there, with those two exceptions |
| `Retention.FlushedResultRemovesNothing` | node_a/main/arbiter.c:599-607 | whatever is accepted after a CLEAR or guard flush, the result of the operation outstanding at the flush removes nothing from the ring, after any run |
| `ArbiterRules.DispatchExact` | node_a/main/arbiter.c:118-169 | an idle bank past its spacing, with something pending and room, sends exactly its head if the link is held or the head needs none, its own CONNECT if the link is down and the hold-off over, and otherwise nothing |
| `ArbiterRules.DispatchRule` | node_a/main/arbiter.c:131-168 | the same for one bank: which request, which id, what stays in the ring |
| `ArbiterRules.HandedOverRightly` | node_a/main/arbiter.c:133-134 | at every step, polls and writes are handed over only while their link is held, and a CONNECT is the head of its ring or the arbiter's own because the head needs a link that is down |
| `ArbiterRules.RunHandsOverRightly` | node_a/main/arbiter.c:133-134 | so at every event of every run from boot |
| `ArbiterRules.ResultSpacing` | node_a/main/arbiter.c:359-395 | a failure or a busy radio holds the bank back for 100 ms; OK clears the backoff; CONNECT_WAIT and REJECTED leave backoff and hold-off alone |
| `ArbiterRules.BackoffFigures` | node_a/main/config.h:48-51 | 2, 4, 8, 16 s and then 30 s; 250 ms after the first failure with a phone attached, one step later from then on |
| `ArbiterRules.AppRule` | node_a/main/arbiter.c:401-424 | an app attaching sets the flag, a 10 s guard and a CONNECT; one leaving clears them, leaves its time and posts a device-info poll; a repeated departure changes nothing |
| `ArbiterRules.DevReqRule` | node_a/main/arbiter.c:433-439 | the phone's device-info request is checked 1.5 s later, once, and only on a held link with an app |
| `ArbiterRules.DisarmRule` | node_a/main/arbiter.c:599-620 | a device-info record disarms the check and a CLEAR empties the ring; neither touches anything else of the bank |
| `ArbiterRules.GuardRule` | node_a/main/arbiter.c:463-490 | past its time with the link down the guard empties the ring and reports the bank reachable; otherwise the pass changes nothing |
| `ArbiterRules.FlushReports` | node_a/main/arbiter.c:472-478 | a flush reports its app writes, and nothing else, in ring order |
| `ArbiterRules.ReleaseRule` | node_a/main/supervisor.c:326-335 | an idle release is posted exactly when the copied record shows a held link without an app, more than 60 s after both departure and link-up, and no verification wants the bank; it is a disconnect fenced to the copied epoch |
| `Deadlines.NeverEarly` | node_a/main/ble_owner.c:1017-1023 | over every run: an operation put on a slot at t is timed out only by a sweep later than t plus its own timeout |
| `Deadlines.NeverMissed` | node_a/main/ble_owner.c:1017-1023 | and after any sweep later than that, the slot no longer holds it |
| `Deadlines.SweepExact` | node_a/main/ble_owner.c:1007-1035 | a sweep queues timeouts of overdue slots only, ends every overdue operation and leaves all others alone |
| `Deadlines.CallbackCalm` | node_a/main/ble_owner.c:677-813 | no callback moves a deadline or reports a timeout |
| `ExecRules.WriteRule` | node_a/main/ble_owner.c:963-1000 | a write or poll on an available link goes to FFE2 for an app write with index 1 if there is one and to FFE1 otherwise, as request or command by that characteristic's properties; it is waited for, or answered at once with GATT error or, for a command, OK |
| `ExecRules.OnLinkAnswers` | node_a/main/ble_owner.c:958-971 | a poll with any other opcode is rejected; a disconnect is granted |
| `ExecRules.BusyAnswers` | node_a/main/ble_owner.c:922-931 | with an operation or an unacknowledged write on the link a request is rejected; only a disconnect may overtake the latter |
| `ExecRules.DownAnswers` | node_a/main/ble_owner.c:952-955 | without a ready link everything but a CONNECT is answered with link down |
| `ExecRules.ConnectAnswers` | node_a/main/ble_owner.c:932-944 | a CONNECT for a bank with a slot: OK on a ready link with nothing in flight, else link down |
| `ExecRules.ConnectStarts` | node_a/main/ble_owner.c:835-870 | a CONNECT for a bank without a slot: link down with the radio off or the stack refusing, CONNECT_WAIT while it is busy, otherwise in flight on a fresh slot and not answered |
| `ExecRules.ReleaseRuns` | node_a/main/ble_owner.c:913-920 | an idle release runs if and only if the bank is held, has no app and is in the epoch it was fenced to |
| `ExecRules.FailedConnect` | node_a/main/ble_owner.c:680-715 | a connect that fails makes its bank unreachable, frees its slot and answers link down |
| `ExecRules.LostLink` | node_a/main/ble_owner.c:716-736 | a lost link leaves its bank reachable and idle, frees its slot and answers link down |
| `ExecRules.WriteAnswered` | node_a/main/ble_owner.c:793-813 | the acknowledgement of an app or settings write answers OK only without error and for its own handle, else GATT error |
| `ExecRules.ReadyOnlyBySubscription` | node_a/main/ble_owner.c:472-494 | a slot becomes ready by one event only: the error-free acknowledgement of its own CCCD's subscription, on its connection, in its generation, while waiting for it |
| `ExecRules.SubscriptionMakesReady` | node_a/main/ble_owner.c:472-494 | and that event does make it ready, reports the link up and answers a waiting CONNECT with OK |
| `ExecRules.ExhaustedRejects` | node_a/main/ble_owner.c:878-881 | once the 32-bit write tokens are used up, whatever needs a Write Request is rejected |
| `DiscoveryRules.StartRule` | node_a/main/ble_owner.c:655-674 | a connection starts discovery in a new generation, or fails at once if the stack refuses |
| `DiscoveryRules.SvcRule` | node_a/main/ble_owner.c:626-651 | the JK service is recorded with its end if its range is not empty, other services are passed over, errors and a missing service fail the link |
| `DiscoveryRules.ChrRule` | node_a/main/ble_owner.c:584-611 | a characteristic is recorded, FFE1 and FFE2 under their own handles and properties, if it comes after the last one and inside the service; else discovery fails |
| `DiscoveryRules.ChrEndRule` | node_a/main/ble_owner.c:612-621 | at the end FFE1's descriptors are searched if FFE1 was found with room behind it; else discovery fails |
| `DiscoveryRules.CccdRule` | node_a/main/ble_owner.c:553-562 | a CCCD inside FFE1's range is recorded, one outside it or a second one fails the discovery, other descriptors change nothing |
| `DiscoveryRules.DscEndRule` | node_a/main/ble_owner.c:516-531 | at the end of FFE1's descriptors: failure without a CCCD, a search of FFE2's if it can notify and has room, the subscription otherwise |
| `DiscoveryRules.OptionalEndRule` | node_a/main/ble_owner.c:533-569 | after FFE2's descriptors, found or not, the subscription is requested |
| `DiscoveryRules.TeardownRule` | node_a/main/ble_owner.c:440-470 | a failed link is torn down again one second after the failure and every due second after that, exactly then, until it is gone |
| `DiscoveryRules.WayToReady` | node_a/main/ble_owner.c:472-674 | a discovery without errors ends in a ready link, reported up, writing to FFE1 and subscribed to its CCCD |
| `NodeA.StepInv` | node_a/main/arbiter.c:579-650 | every step of arbiter, supervisor, BLE task and radio callbacks keeps the system invariant (ring, ids, backoff, slots, fences, token balance) |
| `NodeA.RunInv` | node_a/main/queues.c:16-17 | so does every run |
| `PoolInvariant.RadioKeeps` | node_a/main/ble_owner.c:677-813 | every radio callback and every deadline sweep, with any return codes, keeps the pool well formed, conserves operations and forgets no token |
| `PoolInvariant.ExecTakes` | node_a/main/ble_owner.c:903-1004 | whatever the bank's state, executing a request either installs it in one slot or answers it exactly once |
| `PoolInvariant.PoolNeverFull` | node_a/main/ble_owner.c:294-305 | a bank without a slot finds a free one when banks do not outnumber slots |
| `PoolInvariant.RetiredWriteInert` | node_a/main/ble_owner.c:793-800 | a retired write token matches no slot, whatever handle and attribute come with it |
| `PoolInvariant.RetiredDiscoveryInert` | node_a/main/ble_owner.c:428-438 | a retired discovery token matches no slot, for all four discovery callbacks |
| `Links.DescriptorSound` | node_a/main/ble_owner.c:533-569 | a descriptor callback keeps the slot's phase and transaction rules and answers a waiting CONNECT at most once |
| `Links.DescriptorTable` | node_a/main/ble_owner.c:533-569 | and keeps every CCCD inside its characteristic's range |
| `Links.AddChrOk` | node_a/main/ble_owner.c:584-611 | recording a characteristic keeps all search ranges free of every declaration and value handle seen so far |
| `Links.ChrSound` | node_a/main/ble_owner.c:574-622 | a characteristic callback keeps the slot's phase and transaction rules |
| `Links.SvcSound` | node_a/main/ble_owner.c:626-651 | a service callback keeps the slot's phase and transaction rules |
| `Links.SubscribeDoneSound` | node_a/main/ble_owner.c:472-494 | a subscription result makes the slot ready with link up, or fails the discovery, and answers a waiting CONNECT once |
| `Links.FailSound` | node_a/main/ble_owner.c:454-470 | failing a discovery leaves a failed slot, reports the link idle and answers a waiting CONNECT once |
| `Links.ConnectSound` | node_a/main/ble_owner.c:680-715 | the CONNECT event starts discovery or gives the slot back with its operation answered |
| `Links.DisconnectSound` | node_a/main/ble_owner.c:716-736 | a disconnect gives the slot back with its operation answered as link down |
| `Links.NotifySound` | node_a/main/ble_owner.c:380-406 | frames of a chunk answer the slot's poll at most once and leave phases alone |
| `Links.WriteDoneSound` | node_a/main/ble_owner.c:793-813 | an acknowledgement retires its token and answers the operation at most once; a poll's OK needs its record |
| `Links.SweepSound` | node_a/main/ble_owner.c:1007-1035 | a sweep answers a slot's operation at most once and keeps the slot's rules; when it does so is in Deadlines |
| `Pending.DispatchOk` | node_a/main/arbiter.c:118-169 | dispatching keeps FIFO order, ids, stamps and backoff consistent |
| `Pending.DispatchSends` | node_a/main/arbiter.c:118-169 | a copy goes out only for an idle bank, with the next id; an implicit connect never before the last failure plus its delay; a forwarded request is logged once |
| `Pending.OnResponseOk` | node_a/main/arbiter.c:339-398 | a response keeps FIFO order, ids, stamps and backoff consistent |
| `Pending.ConnectRetained` | node_a/main/arbiter.c:346-358 | an explicit CONNECT stays at the head through CONNECT_WAIT, is removed by its first other result, and a result never removes a replacement head |
| `Pending.BackOffStep` | node_a/main/arbiter.c:370-395 | one more failure takes backoff and hold-off from the closed form of k failures to that of k+1, including the fast first retry with a phone attached |
| `Pending.NoFailureStep` | node_a/main/arbiter.c:359-369 | OK clears the backoff; CONNECT_WAIT and REJECTED leave backoff and hold-off alone |
| `Pending.ClosedFormStep` | node_a/main/config.h:48-51 | the capped power-of-two form obeys the doubling rule |
| `Pending.CheckDevReqOk` | node_a/main/arbiter.c:440-460 | the unanswered device-info check keeps the bank's bookkeeping consistent and touches no outstanding operation |
| `Pending.CheckDevReqQueues` | node_a/main/arbiter.c:440-460 | an overdue request queues a disconnect and a device-info poll, in that order, as far as the ring has room, and is not checked again; otherwise nothing is queued |
| `Arbiter.Unit.PushReq` | node_a/main/arbiter.c:89-95 | on the ring array: appends at the tail, refuses when eight are pending |
| `Arbiter.Unit.PopReq` | node_a/main/arbiter.c:97-104 | on the ring array: removes the head, refuses when empty |
| `Arbiter.Unit.Clear` | node_a/main/arbiter.c:599-607 | flushes the ring and nothing else |
| `Arbiter.Unit.DispatchReq` | node_a/main/arbiter.c:118-169 | on the ring array: sends exactly the copy, and leaves exactly the state, of the dispatch that ArbiterRules.DispatchRule spells out |
| `Arbiter.Unit.Respond` | node_a/main/arbiter.c:339-398 | the array form of a response has exactly the specified outcome |
| `Arbiter.Unit.CheckDevInfo` | node_a/main/arbiter.c:440-460 | the array form of the device-info check has exactly the specified outcome |
| `Arbiter.Unit.CheckGuard` | node_a/main/arbiter.c:463-490 | an expired link-up guard pops everything and reports precisely the pending app writes, in order |
| `BleOwner.Pool.LinkByConn` | node_a/main/ble_owner.c:280-287 | finds the first slot in use with this handle |
| `BleOwner.Pool.LinkByBank` | node_a/main/ble_owner.c:288-293 | finds the first slot in use for this bank |
| `BleOwner.Pool.LinkAlloc` | node_a/main/ble_owner.c:294-305 | hands out the first free slot, cleared |
| `BleOwner.Pool.DiscoveryLink` | node_a/main/ble_owner.c:428-438 | finds the slot whose pending discovery carries this token on this handle |
| `BleOwner.Pool.DiscoveryFail` | node_a/main/ble_owner.c:454-470 | slots, cache and response queue after a failed discovery are the specified ones |
| `BleOwner.Pool.SubscribeAck` | node_a/main/ble_owner.c:472-494 | slots, cache and queue after a subscription result are the specified ones; the pool stays valid, operations are conserved and no token is forgotten |
| `BleOwner.Pool.DescriptorFound` | node_a/main/ble_owner.c:533-569 | slots, cache and queue after a descriptor callback are the specified ones; the pool stays valid, operations are conserved and no token is forgotten |
| `BleOwner.Pool.CharacteristicFound` | node_a/main/ble_owner.c:574-622 | slots, cache and queue after a characteristic callback are the specified ones; the pool stays valid, operations are conserved and no token is forgotten |
| `BleOwner.Pool.ServiceFound` | node_a/main/ble_owner.c:626-651 | slots, cache and queue after a service callback are the specified ones; the pool stays valid, operations are conserved and no token is forgotten |
| `BleOwner.Pool.DiscoveryStart` | node_a/main/ble_owner.c:655-674 | takes the next non-zero 32-bit generation token and starts or fails discovery |
| `BleOwner.Pool.Connected` | node_a/main/ble_owner.c:680-715 | slots, cache, queue, in-flight mark and generation counter after a CONNECT event are the specified ones; for the connect in flight the pool stays valid, operations are conserved and no token is forgotten |
| `BleOwner.Pool.Disconnected` | node_a/main/ble_owner.c:716-736 | slots, cache and queue after a DISCONNECT event are the specified ones; the pool stays valid, operations are conserved and no token is forgotten |
| `BleOwner.Pool.CompleteFrame` | node_a/main/ble_owner.c:338-360 | a finished frame is noted and may complete the poll, as specified |
| `BleOwner.Pool.Notified` | node_a/main/ble_owner.c:396-406 | a chunk is reassembled and its frames are completed in order, as specified; the pool stays valid, operations are conserved and no token is forgotten |
| `BleOwner.Pool.WriteAck` | node_a/main/ble_owner.c:793-813 | slots and queue after a write callback are the specified ones; the pool stays valid, operations are conserved and no token is forgotten |
| `BleOwner.Pool.SweepTimeouts` | node_a/main/ble_owner.c:1007-1035 | the loop over the slots ends exactly the operations Deadlines.SweepExact says; the pool stays valid, operations are conserved and no token is forgotten |
| `BleOwner.Pool.ConnectRequest` | node_a/main/ble_owner.c:835-870 | the CONNECT branch and the start of a connect have the specified outcome |
| `BleOwner.Pool.SubmitOn` | node_a/main/ble_owner.c:874-901 | submitting a write takes the next token or rejects on exhaustion, as specified |
| `BleOwner.Pool.ExecRequest` | node_a/main/ble_owner.c:903-1004 | executing a request has the specified outcome for every kind and state; with room for one more operation the pool stays valid and gains exactly this one, held or answered |
| `PollCompletion.PollOutcome` | node_a/main/ble_owner.c:330-360 | after any radio event a waiting poll still waits or has exactly one answer queued: OK, GATT error, timeout or link down |
| `PollCompletion.PollBegins` | node_a/main/ble_owner.c:874-901 | a submitted poll starts with nothing heard and nothing acknowledged, waiting for device info after 0x97 and for cell info after 0x96 |
| `PollEvidence.PollTruth` | node_a/main/ble_owner.c:330-360 | over every run from submission to answer: OK only if a notification on that slot completed a valid 300-byte frame, of type 3 for opcode 0x97 and type 2 for 0x96, and, for a Write Request, its own acknowledgement with matching token and handle arrived, in either order; otherwise GATT error, timeout or link down |
| `PollEvidence.FrameAnswersPoll` | node_a/main/ble_owner.c:351-359 | a poll that waits for nothing but its record is answered OK by the notification that completes it |
| `PollEvidence.AckAnswersPoll` | node_a/main/ble_owner.c:798-811 | a poll whose record came first is answered OK by its acknowledgement |
| `PollEvidence.EvidenceBacked` | node_a/main/ble_owner.c:793-813 | whatever the transaction has recorded as heard or acknowledged was heard or acknowledged by an event of the run |
| `StateCache.UpdateKeeps` | node_a/main/state_cache.c:38-105 | every targeted update keeps held equal to link-up, keeps time stamps monotone, and advances the 64-bit epoch exactly when the app or the held link changes |
| `StateCache.RecordRules` | node_a/main/state_cache.c:38-105 | what each update puts on record: departures, link-ups and frames with their times, promotions and idle marks of unheld banks only |
| `StateCache.Cache.SetAppConnected` | node_a/main/state_cache.c:38-46 | the update of one bank in place; a consistent table stays consistent and no stamp, counter or edge moves back |
| `StateCache.Cache.SetLinkState` | node_a/main/state_cache.c:48-65 | the update of one bank in place; a consistent table stays consistent and no stamp, counter or edge moves back |
| `StateCache.Cache.PromoteUnreachable` | node_a/main/state_cache.c:76-85 | promotes exactly an unheld unreachable bank and says so; a consistent table stays consistent |
| `StateCache.Cache.NoteFrameAt` | node_a/main/state_cache.c:67-74 | the update of one bank in place; a consistent table stays consistent and no stamp, counter or edge moves back |
| `VerifyRound.PublishedOnce` | node_a/main/supervisor.c:110-150 | every run of passes publishes at most once, with a verdict for every bank; ok only with a frame stamp strictly after that bank's own start; parked exactly for parked banks |
| `VerifyRound.RoundInvariant` | node_a/main/supervisor.c:110-168 | banks below the current one are concluded, the others are not, along every run |
| `VerifyRound.VerdictExact` | node_a/main/supervisor.c:141-168 | parked for a bank without a name, ok with a frame after its start, after more than 45 s no_frames with the link held and no_connect without, otherwise nothing yet; in each case if and only if |
| `VerifyRound.StartExact` | node_a/main/supervisor.c:113-118 | the round starts exactly at an enabled pass with MQTT up, 20 s or more after boot |
| `VerifyRound.InOrder` | node_a/main/supervisor.c:160-168 | a pass concludes at most the current bank and never revisits one |
| `VerifyRound.ConcludedInTime` | node_a/main/supervisor.c:147-150 | an enabled pass more than 45 s after a bank's start concludes it |
| `VerifyRound.Supervisor.Report` | node_a/main/supervisor.c:119-126 | each result is published under its own name: ok, parked, no_frames, no_connect, or skipped without one |
| `VerifyRound.Supervisor.VerifyTick` | node_a/main/supervisor.c:110-168 | static variables and shared table after a pass are the specified ones; a report goes out exactly when the round ends, and then exactly the configured banks given up on are promoted and told; a driven poll is for the current bank |
| `VerifyRound.Supervisor.PromoteAll` | node_a/main/supervisor.c:132-137 | the loop promotes every configured unreachable bank and tells exactly those |
| `BootVerify.PublishedIsBacked` | node_a/main/supervisor.c:110-168 | passes interleaved with any run of Node A, each reading the table of that moment: a published ok of a bank is backed by a notification of that very bank which, after the bank's own start, completed frames of 300 bytes with valid checksums |
| `BootVerify.RoundBacked` | node_a/main/supervisor.c:145-146 | along the way every bank judged fine is backed, and the round stays in order |
| `BootVerify.PromotionsPromote` | node_a/main/supervisor.c:132-137 | the promotions of a publication, as steps of Node A, change the table exactly as the loop does |
| `FrameStamps.DeliveredWhole` | node_a/main/ble_owner.c:338-349 | frames completed by a chunk have 300 bytes, the magic and valid checksums, whatever came before |
| `FrameStamps.StampBacked` | node_a/main/state_cache.c:67-74 | no event but a frame-completing notification of that bank moves its frame stamp |
| `JkFrame.CheckFrame` | components/jk_proto/jk_proto.c:62-69 | the running 8-bit sum accepts exactly the frames whose last byte is the sum of the others modulo 256 |
| `StreamStart.Search.CheckHeader` | node_b/main/stream_start.c:4-10 | the buffer test says whether the bytes can still become a record of type 1 to 3 |
| `StreamStart.Search.Push` | node_b/main/stream_start.c:12-30 | true exactly at the end of the earliest valid record of the whole history, which the buffer then holds; otherwise the chunk is used up and the buffer is the longest suffix that can still become a record |
| `StreamStart.SearchChunks` | node_b/main/stream_start.c:12-30 | from an empty buffer, for any chunking, the answer is the earliest valid record end of the concatenated bytes, or none exists |
| `StreamStart.FirstRecordEndStable` | node_b/main/stream_start.c:12-30 | later bytes never change which record is the earliest |
| `Reassembly.RunIsWindows` | components/jk_proto/jk_proto.c:92-131 | from an unlock, the byte automaton delivers exactly the windows found by taking the first magic, 300 bytes, and going on behind them |
| `Reassembly.FramesAreWindows` | components/jk_proto/jk_proto.c:92-131 | the frames of a history are its windows, each a valid frame |
| `Reassembly.WindowsShape` | components/jk_proto/jk_proto.c:92-131 | delivered windows are in order, disjoint, inside the history and valid |
| `Reassembly.FeedConcat` | node_a/main/ble_owner.c:396-404 | cutting a stream anywhere changes neither frames nor state |
| `Reassembly.ConcatRoundTrip` | components/jk_proto/jk_proto.c:92-131 | valid frames laid end to end come back exactly and leave the reassembler unlocked |
| `Reassembly.StartupSearchNotLater` | node_b/main/stream_start.c:12-30 | the startup search is never later than the reassembler's first frame of a known type on the same bytes |
| `Reassembly.DeliveredComplete` | components/jk_proto/jk_proto.c:92-131 | from any state, a delivered frame has 300 bytes, the magic and a valid checksum |
| `Reassembly.Reassembler.Push` | components/jk_proto/jk_proto.c:92-131 | the array version consumes up to the byte that completes a valid frame and reaches the automaton's state and frame |
| `Reassembly.Reassembler.PushAll` | node_a/main/ble_owner.c:396-404 | re-feeding the suffix delivers the automaton's frames for the whole chunk |
| `Reassembly.ReassembleChunks` | components/jk_proto/jk_proto.c:92-131 | any partition of a stream delivers the specified windows of the stream |
| `Session.StepKeeps` | node_b/main/nb_state.c:164-298 | every lock section of every task, interleaved anyhow, keeps the session invariant |
| `Session.OnePhone` | node_b/main/ble_periph.c:516-526 | in every run at most one identity is connected, although the adoption test and the adoption are separate lock sections |
| `Session.DebtStaysInConnection` | node_b/main/nb_state.c:228-271 | the phone connection that was current when an opener was looked up is the one its debt is claimed for, at most 5 s before, and claims exactly the records marked, below 2^64 edges |
| `Session.ClaimedOnce` | node_b/main/nb_state.c:254-271 | no opener is answered by two claims, twice in one, or claimed and still owed |
| `Session.BurstStaysInSession` | node_b/main/ble_periph.c:457-463 | every chunk of a claimed burst is authorised only while the claimed session is current: no connection, subscription or handle change in between |
| `Session.ClaimExact` | node_b/main/nb_state.c:228-271 | in every run, a tick claims the debt of a subscribed phone, whole, if and only if at most 5 s passed since its first mark, no device info was forwarded after it, and the link is not up or more than 2 s passed; within 2 s on a link that is up it is left, else dropped |
| `Session.StampTells` | node_b/main/nb_state.c:219-226 | the stamp tells exactly whether device info was forwarded in the current session after a given time |
| `Session.OpenerOwes` | node_b/main/nb_state.c:164-174 | an opener of the connected phone adds exactly its records to the debt, which keeps the time of its first mark |
| `Session.ConnectionsRecorded` | node_b/main/ble_periph.c:516-592 | a phone that connects while none is connected is adopted under its handle; subscription and disconnection are recorded; a second phone changes nothing |
| `Session.FenceExact` | node_b/main/ble_periph.c:459-463 | below 2^64 edges a subscribed snapshot authorises a chunk if and only if not one session edge happened since |
| `Session.FenceWraps` | node_b/main/nb_state.c:280-297 | exactly 2^64 edges later a new subscribed session with the same handle passes the test: the bound is needed |
| `Session.LateSnapshot` | node_b/main/ble_periph.c:457-463 | in any run, a snapshot taken after a claim authorises its chunks if and only if it equals the claimed session |
| `Session.IdentityFor` | node_b/main/nb_state.c:312-318 | finds the first connected identity with this handle, or there is none |
| `NbState.Table.IdentityForConn` | node_b/main/nb_state.c:312-318 | the loop finds the first connected identity with this handle |
| `NbState.Table.ActiveConnCount` | node_b/main/nb_state.c:319-324 | the loop counts the connected identities |
| `NbState.Table.SetConn` | node_b/main/nb_state.c:280-290 | a changed connection is one edge; a disconnect drops subscription and debt; unknown identities are ignored |
| `NbState.Table.SetNotifyOn` | node_b/main/nb_state.c:291-298 | a changed subscription is one edge; unknown identities are ignored |
| `NbState.Table.Mark` | node_b/main/nb_state.c:164-174 | a debt is added only in the session the caller saw, and keeps the time it was first marked; a sane table stays sane (epochs count edges, debts in order and in their connection, one phone) |
| `NbState.Table.NoteForwarded` | node_b/main/nb_state.c:219-226 | a forwarded device-info counts only in the session it was sent in; a sane table stays sane (epochs count edges, debts in order and in their connection, one phone) |
| `NbState.Table.Current` | node_b/main/nb_state.c:300-310 | the session as it is; an unknown identity is not connected |
| `NbState.Table.ClaimReplay` | node_b/main/nb_state.c:228-271 | one step: code 1 exactly for a subscribed phone with a debt at most 5 s old, no device info forwarded after its mark, and a link that is not up or 2 s gone; code 2 exactly when device info was forwarded in time; the debt is then gone and bits and session come with code 1 only; a sane table stays sane |
| `NbState.Table.AdoptConn` | node_b/main/ble_periph.c:516-526 | adopts exactly a known identity while no phone is connected; a sane table stays sane |
| `NbState.Table.DisconnectEvent` | node_b/main/ble_periph.c:574-585 | detaches the identity of this handle, if there is one; a sane table stays sane (epochs count edges, debts in order and in their connection, one phone) |
| `NbState.Table.SubscribeEvent` | node_b/main/ble_periph.c:586-592 | sets the subscription of the identity of this handle, if there is one; a sane table stays sane (epochs count edges, debts in order and in their connection, one phone) |
| `NbState.Table.AuditConns` | node_b/main/ble_periph.c:341-352 | detaches exactly the connected identities whose handle the controller lost; a sane table stays sane (epochs count edges, debts in order and in their connection, one phone) |
| `NbState.Table.ReplayOpener` | node_b/main/ble_periph.c:90-121 | an opener 0x97 or 0x96 makes its cached records owed, against the session it saw; anything else nothing; a sane table stays sane (epochs count edges, debts in order and in their connection, one phone) |
| `NbState.OpenersAsk` | node_b/main/ble_periph.c:92-119 | AA 55 90 EB 97 asks for all three cached records, 96 for settings and cell info, anything else for none |
| `Notify.NotifySession` | node_b/main/ble_periph.c:428-488 | chunks carry the data from its start, each full but the last and no longer than MTU-3 and 128, each authorised at its own moment, up to the first unauthorised or bufferless one; success exactly when all went out and was accepted; a device-info attempt is noted exactly for a live session |
| `Notify.ChunkLen` | node_b/main/ble_periph.c:446-454 | MTU minus three, but at least 20 and at most 128 |
| `Notify.BurstInSession` | node_b/main/ble_periph.c:284-334 | with the tasks of Node B running between chunks, every notification of a claimed burst goes to the claimed handle while the claimed session is current |
| `Notify.ReplayBurst` | node_b/main/ble_periph.c:297-334 | each claimed and cached record goes out in order with its own counter, whole or up to an unauthorised or bufferless chunk, cut to the chunk length; a live session with nothing going wrong gets every record whole |
| `Notify.ReplayRecord` | node_b/main/ble_periph.c:301-328 | one record is copied, stamped and sent whole, or up to a blocked chunk |
| `Notify.BurstExact` | node_b/main/ble_periph.c:274-300 | the burst is device info, settings, cell info in that order, each if claimed and cached, each with the counter its predecessors left |
| `Notify.Stamp` | node_b/main/ble_periph.c:319-324 | the in-place stamp produces the specified frame; under six bytes it changes nothing |
| `Notify.StampedOk` | node_b/main/ble_periph.c:319-324 | a stamped record passes the checksum, keeps its type and every byte but the counter and the sum, and a full-length one stays a valid frame |
| `Notify.LiveGate.Forward` | node_b/main/ble_periph.c:395-422 | per epoch: shut, it has searched all input and sent nothing; open and without failures, it has sent exactly the input from the earliest valid record on; open in any case only after a complete valid record was accepted whole in this epoch |
| `Notify.LiveEpoch` | node_b/main/ble_periph.c:395-422 | an epoch without failed submissions delivers exactly the bytes from the first valid record on, for every chunking and every MTU |
| `DevInfoCache.CacheIsRichest` | node_b/main/nb_state.c:93-126 | after any offers the cached frame is the latest of the richest among the restored frame and all offers |
| `DevInfoCache.RichestUnique` | node_b/main/nb_state.c:93-126 | only one position is that, so the cached frame is determined |
| `DevInfoCache.FlashMirrors` | node_b/main/nb_state.c:116-138 | while flash writes succeed the copy has the cache's richness and length and, from 38 bytes on, its public bytes 6 to 37 |
| `DevInfoCache.RebootKeeps` | node_b/main/nb_state.c:36-57 | so a reboot at any moment loses none of these |
| `DevInfoCache.FlashNeverPoorer` | node_b/main/nb_state.c:131-138 | even when writes fail the copy never gets poorer and is never richer than the cache |
| `DevInfoCache.FlashSpared` | node_b/main/nb_state.c:116-122 | flash is written only for a frame that is taken and is richer, differs in length or public bytes, or is under 38 bytes, and then with that frame |
| `DevInfoCache.ScoreOf` | node_b/main/nb_state.c:29-34 | the loop counts the non-zero bytes at positions 38 to 159 |
| `DevInfoCache.WarmDevice.SetWarm` | node_b/main/nb_state.c:89-139 | slot and flash after an offer are the specified ones, with frames cut to 320 bytes |
| `Tunnel.RoundTrip` | node_a/main/tunnel_srv.c:40-47 | frames encoded one after the other decode to the same frames, and a stream that breaks off inside a frame to the complete ones |
| `Tunnel.BuildFrame` | node_b/main/tunnel_cli.c:34-35 | the array holds the encoded frame and is untouched behind it |
| `Tunnel.Socket.ReadN` | node_a/main/tunnel_srv.c:174-183 | however receives are split, exactly n bytes or failure once the stream ends |
| `Tunnel.Socket.Receive` | node_a/main/tunnel_srv.c:213-222 | one inbound frame, or hang up on a cut stream or an oversized length |
| `Tunnel.Serve` | node_b/main/tunnel_cli.c:171-180 | the frames served are those of the byte stream, for every splitting |
| `TunnelMessages.HeardFromB` | node_b/main/tunnel_cli.c:44-53 | Node A accepts every message Node B can build and understands what was meant |
| `TunnelMessages.OnlyFromB` | components/common/include/tunnel_validate.h:10-26 | Node A's validator accepts nothing else |
| `TunnelMessages.HeardFromA` | node_a/main/tunnel_srv.c:64-125 | Node B accepts every message within the shared limits and understands what was meant; the producers are shown to stay within them below |
| `TunnelMessages.OnlyFromA` | components/common/include/tunnel_validate.h:28-49 | Node B's validator accepts nothing else |
| `TunnelMessages.SendWrite` | node_b/main/tunnel_cli.c:44-51 | a write is refused or becomes a frame Node A accepts, and is refused exactly when malformed |
| `TunnelMessages.ReadCachePasses` | node_a/main/tunnel_srv.c:68-73 | a read-cache frame passes Node B if and only if identity and index are in range and the data has at most 320 bytes; cutting to 511 does not help |
| `TunnelMessages.ServeB` | node_b/main/tunnel_cli.c:56-61 | Node B handles the valid frames of the stream in order and passes over the others |
| `TunnelMessages.TunnelDelivers` | node_a/main/tunnel_srv.c:196-208 | messages of Node A, sent one after the other and split anyhow, arrive at Node B's handlers as the same messages in the same order |
| `TunnelMessages.TunnelDeliversB` | node_b/main/tunnel_cli.c:34-53 | messages of Node B, sent one after the other and split anyhow, arrive at Node A's handlers as the same messages in the same order |
| `TunnelMessages.ServeA` | node_a/main/tunnel_srv.c:128-133 | Node A handles the valid frames of the stream in order and passes over the others |
| `TunnelProducers.LinkHeard` | node_a/main/tunnel_srv.c:64-65 | a link report arrives as that report |
| `TunnelProducers.ResultHeard` | node_a/main/tunnel_srv.c:66-67 | the result of any app write Node A accepted arrives as that result |
| `TunnelProducers.NotificationsHeard` | node_a/main/tunnel_srv.c:197-205 | whatever bytes a bank sends, in any reassembler state, the raw chunk and the frames queued for it are accepted by Node B unchanged |
| `TunnelProducers.HarvestedOk` | node_a/main/supervisor.c:74-76 | a stored harvest has a name that fits and whole descriptors |
| `TunnelProducers.DarkBanks` | node_a/main/tunnel_srv.c:109-120 | parked banks, and all while the radio is off, read as unreachable, parked ones without a name; the others with their own state |
| `TunnelProducers.Refresh` | node_a/main/tunnel_srv.c:102-125 | Node B hears exactly the names of the configured banks and every bank's effective link, in order; parked banks and a disabled radio read as unreachable |
| `TunnelProducers.Announce` | node_a/main/tunnel_srv.c:78-93 | the first stored blueprint, if any, then the refresh, all accepted by Node B |
| `BalanceSettings.BuildWrite` | components/jk_proto/jk_proto.c:283-311 | refuses exactly a short buffer or a value outside 32 bits; otherwise the array holds the write frame of the nearest register value |
| `BalanceSettings.WriteBytes` | components/jk_proto/jk_proto.c:301-310 | the frame byte by byte: magic, the key's register number, a four, the value lowest byte first, zeros and the sum |
| `BalanceSettings.WriteUnderstood` | components/jk_proto/jk_proto.c:301-311 | a unit that checks magic, length byte and sum reads the register and the value that were meant |
| `BalanceSettings.WordRoundTrip` | components/jk_proto/jk_proto.c:53-56 | a 32-bit word written little-endian reads back as itself |
| `BalanceSettings.Envelope` | node_a/main/config.h:124-138 | an acceptable value is never refused and its register stays in the configured envelope: 3-100 mV, 100-2000 mA, 2900-3500 mV, 15-16 cells, 0/1 |
| `BalanceSettings.ReadbackExact` | node_a/main/arbiter.c:284-297 | for the four numeric keys and every register value, the readback passes if and only if it is the register that was written, or the one below at an exact half-unit tie |
| `BalanceSettings.ReadbackSwitch` | node_a/main/arbiter.c:284-297 | for the switch, exactly the register values with the same setting pass |
| `BalanceSettings.ReportedField` | components/jk_proto/jk_proto.c:210-214 | the comparison reads the settings field of its own key, at that key's offset and scale |
| `BalanceSettings.WrittenThenReported` | node_a/main/arbiter.c:278-299 | what a unit takes from the written frame and reports always passes the readback |

## Left out

- NimBLE, FreeRTOS, sockets, flash, MQTT and JSON internals: return codes, callbacks, split receives and write results are arbitrary parameters.
- One CONNECT event per started connect, for that slot, is assumed; the original clears its in-flight mark on any CONNECT event, so nothing is claimed for unsolicited ones.
- Each lock section is atomic, and a step reads the clock where the original reads it once or twice within a call.
- `BleOwner.Pool` keeps the reassembler of a slot as the byte automaton's value; the array version is proved equal to that automaton in `Reassembly`.
- `BleOwner.Pool.CompleteFrame`: the fan-out to the notification and decode queues, where a full queue drops silently; what is offered to the notification queue is in `TunnelProducers`, loss-free delivery is not claimed.
- The time stamp a noted device-info attempt writes is the `DevForwarded` event of `Session`, which may come at any moment there.
- Scan, GATT dump, raw capture, signal strength, connection-parameter events and timeout strikes: diagnostics without influence on the modelled state.
- A balance command's queueing, rate limit, app-precedence test, readback nudges and deadline: a newer accepted write replaces an armed readback, so no final acknowledgement per command is claimed.
- One device-info refresh per phone session: a repeated attach message reopens it, so it is not claimed.
- Hold-off for explicit CONNECT requests: they skip it in the original.
- The supervisor's bootstrap and re-arm ladder, nightly reboot, harvest and link publishing; from `maintenance_tick` only the idle release is modelled.
- `NbState.Table.AuditConns`: one call, where the original looks up and drops in separate lock sections; in the runs of `Session` an audit may drop any identity at any moment, which covers the gap between its test and its action.
- The second cached device-info page, the cell-info age gate, names, advertising and the mirrored read-only services of Node B.
- `Notify.NotifySession`: buffers longer than 65407 bytes, for which the 16-bit offset could wrap; every caller passes at most 320.
- IEEE rounding in `BalanceSettings`: values are exact reals.
- Parsing of the balance command: a key and a number are given; that the value is a flag for the switch and whole for the cell count is part of the model.
- Out-queue overflow of the tunnel, pings, dead timers, reconnects and the grace window.
- Cell-info and device-info field decoding: flat tables without an invariant.
- Display, UDP log, WiFi, updates, probes, measurement mode and host tools.
