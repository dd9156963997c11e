# gPTP daemon: a Dafny model and its proofs

The daemon synchronizes the clock of an end station over Ethernet with the generalized
Precision Time Protocol (IEEE 802.1AS). This project models the parts of it that decide
something, and proves what they keep over every run:

- `MachineInts`, `Timestamps`, `Rollover`: fixed-width integers, the three-field timestamp with
  its carries and borrows, and the extension of a 32-bit counter to 64 bits, each related to
  plain integer arithmetic.
- `TicketLock`, `NetworkLock`: the ticket lock with its two 8-bit counters as a refinement of an
  unbounded queue, and who takes and releases the network lock.
- `TimerQueue`, `PortTimers`, `TimerRuns`, `TimerEffects`, `TimerDeadlock`, `WorkQueue`: the timer queue
  with key reuse and cancel-by-type; every place where a port adds or cancels a timer or takes a lock to
  do so, run by the main, timer, listening and link threads; what a call or an expiry does when nothing
  else runs, kind by kind; when the threads deadlock; and the lock-free slots of the Windows work queue. All are step models over
  any number of events.
- `PriorityVectors`, `Election`: the byte-wise comparison of priority vectors, the master/slave
  machine of one clock, and agreement of two clocks over a link that loses, repeats, delays,
  reorders and echoes Announce messages.
- `LinkDelay`, `PeerDelay`, `Measurements`: the peer-delay arithmetic with its error bound; the
  request, response and follow-up exchange of a port; and what it measures, told by the events alone,
  with the accuracy of delay and neighbour rate ratio over every run, of clocks that are read with an
  error.
- `SyncFollowUp`, `SyncMeaning`, `Servo`, `ClosedLoop`: the pairing of Sync and Follow_Up, the servo it
  drives, what the servo is told, which is the offset from the master's time and the master's rate, and
  the loop that the port, its servo and its clock then are, from a pending set point to the offset that
  is left.
- `Wire`, `PathTrace`, `Persistence`: message formats, the path-trace TLV, and saved state.

State that the daemon updates in place is a class (`TicketingLock`, `LinuxTimerQueue`, `Port`,
`EtherPort`, `SyncPort`, `Clock`, `PathTraceTLV`, `Adapter`, `Cell`); each method is proved equal to
a function on values, and the theorems about runs are about those functions. `dafny verify
dfyconfig.toml` checks everything.

Frequency ratios are `real`. Time, randomness, sockets and kernel answers are parameters or
events. Histories kept in the state (`history`, `fired`, `calls`, ...) record what happened; no
handler reads them, except that the number of events so far gives each message its index.

## Where the code keeps less than one might expect

Each of these is stated as an exact condition, next to an input or a run on which the code fails.

- The counter extension recovers every run exactly when the backward and forward excursions sum to
  less than a quarter period; readings within 2^29 on both sides reach the bound and can fail
  (`Rollover.WindowIsSharp`, `Rollover.MissedRollover`).
- Timestamp addition drops 2^32 seconds when the nanoseconds carry and the right operand's low word
  is all ones; subtraction is right only in two of its borrow patterns (`Timestamps.PlusMeaning`,
  `Timestamps.MinusMeaning`, `Timestamps.LostCarry`, `Timestamps.LostBorrow`).
- The ticket lock excludes exactly up to 256 threads (`TicketLock.ThreadLimit`), and the work queue
  loses no job exactly with at most one submitter (`WorkQueue.SubmitterLimit`); a job it accepted can
  be finished exactly if the worker of its slot was not stopped (`WorkQueue.FinishedUnlessStopped`).
- Three kinds of timer are pending at most once, whatever the threads do: PDELAY_INTERVAL,
  SYNC_RECEIPT and ANNOUNCE_INTERVAL. SYNC_RATE joins them as long as one call is handled at a time,
  but its flag is tested and set without a lock, so a Follow_Up and a SYNC_INTERVAL expiry handled at
  once leave two of them; the other six kinds are pending twice on runs without any overlap
  (`TimerRuns.PendingOnce`, `TimerRuns.PendingOnceSequentially`, `TimerRuns.SyncRateRace`,
  `TimerRuns.TwicePending`).
- The timer thread takes the locks of PDELAY_INTERVAL, ANNOUNCE_INTERVAL and the peer-delay exchange
  inside the queue's lock; the other threads take them the other way round. A callback that meets a
  held one deadlocks for good (`TimerDeadlock.DeadlockLasts`, `TimerDeadlock.CallbackGoesOn`). Calls may
  overlap callbacks without that exactly if they are a link going down, an Announce, a Follow_Up
  without its Sync, a response that shows no misbehaviour, a follow-up without its response, or a
  signalling message that restarts neither timer (`TimerDeadlock.OverlapSafe`); every other call has a
  run on which it alone overlaps a callback and deadlocks (`TimerDeadlock.HarmfulJams`).
- The wrong-sequence rule makes a follower announce its master's identity as its own until an
  election that has an announce to decide on; a signalling message makes a follower announce until it
  re-enters its role, times out, is forced, or wins an election, and electing the same master again
  does not stop it (`Election.ForeignLasts`, `Election.BabblingLasts`,
  `Election.FollowerMustNotAnnounce`).
- With a zero receipt threshold a single unmatched Follow_Up makes a port a master even when it is
  not asCapable (`SyncFollowUp.CountsExactly`).
- A path-trace list survives printing and parsing exactly up to 8191 entries
  (`PathTrace.RoundTrip`, `PathTrace.LostList`), a Follow_Up's time-base indicator exactly when it is zero
  (`Wire.TimeBaseLost`), and a truncated message is discarded exactly when it is not a
  Pdelay_Resp_Follow_Up (`Wire.ShortIsDiscarded`).
- A received Announce passes its path to that parser with a size that is 60 bytes too large, so a path
  that was cut is not parsed to its longest whole prefix: bytes that did not arrive are taken for
  identities, and with eight or more of them, which do not fit the 128-byte receive buffer, bytes
  behind the buffer. It stays inside exactly if fewer than 72 bytes arrived or the length field is
  below 64, and a path is received exactly up to seven identities (`PathTrace.StaysInside`,
  `PathTrace.PathIsArrived`, `PathTrace.PathSurvives`, `PathTrace.EightHops`).
- Three duplicate responses with consecutive sequence ids, each exchange ended by its follow-up, halt
  the requests exactly when the ids do not wrap: 65534, 65535, 0 does not
  (`PeerDelay.ConsecutiveHalt`, `PeerDelay.WrapDoesNotHalt`). Without follow-ups no number of
  duplicates halts, because the first response to the next request is held against the last one and
  ends the streak (`PeerDelay.NoFollowUpNeverHalts`, `PeerDelay.UnfollowedDoNotHalt`).
- The callback that writes the saved state stays inside its buffer exactly from 20 bytes on; the
  registered 69 bytes are enough (`Persistence.CallbackInside`, `Persistence.WritesBefore`).

## Model

| member | source | states |
|---|---|---|
| Timestamps.Cell.constructor | common/ieee1588.hpp:245-252 | a timestamp is its four fields |
| Timestamps.Cell.Add | common/ieee1588.hpp:440-456 | in-place addition computes AddNs and keeps nanoseconds at most 10^9 |
| Timestamps.Cell.Sub | common/ieee1588.hpp:414-432 | in-place subtraction computes SubNs and keeps nanoseconds at most 10^9 |
| Timestamps.Cell.Set | common/ieee1588.hpp:369-373 | set64 gives a normalized timestamp whose integer value is its argument |
| Timestamps.AddNsMeaning | common/ieee1588.hpp:440-456 | adding is integer addition modulo the 48-bit span, and exact if and only if the resulting seconds fit in 48 bits |
| Timestamps.SubNsMeaning | common/ieee1588.hpp:414-432 | subtracting is integer subtraction modulo the span, and exact if and only if the seconds do not go below zero |
| Timestamps.ApplyIsSignedSum | common/ieee1588.hpp:414-456 | any sequence of additions and subtractions keeps nanoseconds at most 10^9 and amounts to the signed sum, modulo the span and exactly while the seconds stay in range |
| Timestamps.PlusMeaning | common/ieee1588.hpp:289-316 | operator+ is integer addition if and only if no carry is lost; a lost carry costs exactly 2^32 seconds |
| Timestamps.MinusMeaning | common/ieee1588.hpp:323-362 | operator- is integer subtraction if and only if the borrows are in one of the two right patterns |
| Timestamps.LostCarry | common/ieee1588.hpp:303-306 | two timestamps whose sum of 2^32 seconds comes out as zero |
| Timestamps.LostBorrow | common/ieee1588.hpp:341-347 | two timestamps whose difference comes out one second short |
| Timestamps.PlusThenMinus | common/ieee1588.hpp:289-362 | subtracting what was added returns the original if and only if no carry is lost and the low words either do not carry, with the high ones in range, or carry together with the nanoseconds into a zero or overflowing high word |
| Timestamps.MinusThenPlus | common/ieee1588.hpp:289-362 | adding what was subtracted returns the original if and only if the borrows are right and the nanoseconds do not borrow from an all-ones word |
| Timestamps.VersionsKept | common/ieee1588.hpp:289-456 | arithmetic on one timestamp keeps its version; that on two keeps a common one and marks the result 0xFF otherwise |
| Timestamps.OneSecondStays | common/ieee1588.hpp:341-456 | exactly 10^9 nanoseconds are not carried into the seconds, in each of the three operations |
| Timestamps.Set64Value | common/ieee1588.hpp:369-373 | every 64-bit nanosecond count is represented exactly |
| Timestamps.Set64RoundTrip | common/ieee1588.hpp:369-383 | set64 then TIMESTAMP_TO_NS is the identity |
| Rollover.Adapter.CalcRollover | windows/daemon_cl/intel_wireless.cpp:402-424 | updates the two registers and returns the count as Extend does |
| Rollover.RecoversCounter | windows/daemon_cl/intel_wireless.cpp:402-424 | every run, reordered or not, whose excursions sum to less than a quarter period is recovered reading by reading from the low 32 bits |
| Rollover.MissedRollover | windows/daemon_cl/intel_wireless.cpp:402-424 | for any larger excursions a run that is not recovered |
| Rollover.WindowIsSharp | windows/daemon_cl/intel_wireless.cpp:402-424 | all runs are recovered if and only if the excursions sum to less than a quarter period |
| TicketLock.TicketingLock.constructor | linux/src/linux_hal_common.cpp:680-696 | both counters start equal |
| TicketLock.TicketingLock.Take | linux/src/linux_hal_common.cpp:617-654 | a blocking caller draws a ticket and is served if it is the one being served |
| TicketLock.TicketingLock.TryLock | linux/src/linux_hal_common.cpp:617-654 | a non-blocking caller gets the lock exactly if it is free, and otherwise gives its ticket back |
| TicketLock.TicketingLock.Lock | linux/src/linux_hal_common.cpp:627-654 | whatever the counters are at each wake-up, a blocking caller sleeps on exactly while its own ticket is not served and then holds the lock |
| TicketLock.TicketingLock.Unlock | linux/src/linux_hal_common.cpp:656-678 | the next ticket is served |
| TicketLock.StepRefines | linux/src/linux_hal_common.cpp:617-678 | with at most 256 threads each step of the wrapping counters is a step of an unbounded first-in first-out queue |
| TicketLock.RunRefines | linux/src/linux_hal_common.cpp:617-678 | every run of the counters is a run of the queue with the same arrivals and the same grants |
| TicketLock.LockIsFair | linux/src/linux_hal_common.cpp:617-678 | on every run at most one thread holds the lock, grants are a prefix of arrivals, and while the lock is free only the earliest waiter is being served |
| TicketLock.FailedTryChangesNothing | linux/src/linux_hal_common.cpp:628-635 | a failed non-blocking attempt leaves the whole system as it was |
| TicketLock.TooManyThreads | linux/src/linux_hal_common.cpp:617-678 | any 257 threads have a run with two holders |
| TicketLock.ThreadLimit | linux/src/linux_hal_common.cpp:617-678 | mutual exclusion on all runs holds if and only if there are at most 256 threads |
| NetworkLock.TxTimestampOnce | linux/src/linux_hal_generic.cpp:300-366 | an attempt releases the lock exactly if it succeeds or is the last one, and never with a closed descriptor |
| NetworkLock.GetTxTimestamp | common/ptp_message.cpp:558-600 | whatever the attempts report, an open descriptor means exactly one release; success exactly if one of seven attempts succeeds, and none follows a success |
| NetworkLock.SendEvent | linux/src/linux_hal_common.cpp:99-105 | an event send waits for its ticket; from then on its timestamp retrieval releases the lock exactly once if and only if the descriptor is open, and obtains a timestamp if and only if one of its seven attempts succeeds too |
| NetworkLock.NonblockingReceive | linux/src/linux_hal_generic.cpp:55-162 | a receive that got the lock returns it on every way out, and one that did not leaves it alone; it succeeds if and only if it got the lock and a packet, and fails for good if and only if the wait failed or the read did for another reason than no message |
| TimerQueue.TakenBound | linux/src/linux_hal_common.cpp:528-531 | a run of n taken keys means n pending entries, so the key search ends |
| TimerQueue.NextFreeUnique | linux/src/linux_hal_common.cpp:528-531 | there is only one first free key after a given one |
| TimerQueue.FindKey | linux/src/linux_hal_common.cpp:528-531 | the search loop stops at the first free key, wrapping around |
| TimerQueue.LinuxTimerQueue.AddEvent | linux/src/linux_hal_common.cpp:514-558 | the event is stored under the first free key and nothing else changes |
| TimerQueue.LinuxTimerQueue.CancelEvent | linux/src/linux_hal_common.cpp:561-578 | exactly the entries of the type are removed and their ids become cancelled |
| TimerQueue.LinuxTimerQueue.TakeExpired | linux/src/linux_hal_common.cpp:440-482 | an expiry whose key is still pending fires that entry once; a stale one does nothing |
| TimerQueue.AddConserves | linux/src/linux_hal_common.cpp:514-558 | adding keeps every event in exactly one of pending, fired and cancelled |
| TimerQueue.CancelConserves | linux/src/linux_hal_common.cpp:561-578 | cancelling keeps every event in exactly one of the three |
| TimerQueue.ExpireConserves | linux/src/linux_hal_common.cpp:440-482 | expiry keeps every event in exactly one of the three, and fires it once |
| TimerQueue.ConservedCounts | linux/src/linux_hal_common.cpp:440-578 | added = pending + fired + cancelled |
| TimerQueue.StepKeeps | common/common_port.cpp:298-338 | every add, cancel, expiry and cancel-then-add keeps conservation and at most one pending entry of each kind that is restarted under a lock |
| TimerQueue.RunKeeps | linux/src/linux_hal_common.cpp:440-578 | the same over every run, a callback cancelling its own kind included, and what happened to an event is never undone |
| PortTimers.RunKeeps | common/ether_port.cpp:326-724 | on every interleaving of the calls of the main, timer, listening and link threads events are conserved, no lock is held twice and the kinds restarted under a lock are pending at most once |
| PortTimers.SequentialRate | common/ether_port.cpp:872-880 | one call at a time, the started flag keeps the SYNC_RATE timer single, and is set while one is pending |
| TimerRuns.PerformTrace | common/ether_port.cpp:170-212 | the steps of each timer operation, run without interference, end with the flags and the number of timers of each kind that one function gives |
| TimerRuns.ProgramTrace | common/ether_port.cpp:326-724 | so do the steps of every call and callback, whatever is still to do after them |
| TimerRuns.CallRuns | common/ether_port.cpp:326-498 | every call made while nothing else runs is a run of the port, from rest to rest, with exactly these timers |
| TimerRuns.ExpiryRuns | linux/src/linux_hal_common.cpp:461-478 | so is every timer that expires then |
| TimerRuns.MasterTimers | common/ether_port.cpp:731-751 | becoming master leaves no receipt timer and one timer for each message to send, and touches no other kind |
| TimerRuns.SlaveTimers | common/ether_port.cpp:753-774 | becoming slave leaves no timer for messages to send and waits for an announce |
| TimerRuns.AnnounceTimers | common/ptp_message.cpp:853-888 | an Announce leaves one ANNOUNCE_RECEIPT timer, and one STATE_CHANGE timer more if and only if it is acceptable |
| TimerRuns.FollowUpTimers | common/ptp_message.cpp:1115-1194 | a Follow_Up ends the wait for it; one that a slave uses begins the next, adds a SYNC_RATE timer if one is wanted and starts requests |
| TimerRuns.TimeoutTimers | common/common_port.cpp:476-542 | a receipt timeout waits again and makes the port a master with a timer for each message to send |
| TimerRuns.IdleTimeoutTimers | common/ether_port.cpp:499-516 | of a slave-only or automotive port a receipt timeout does nothing, but that the automotive profile waits for the next Sync |
| TimerRuns.EnterTimers | common/common_port.cpp:562-575 | which role power-up and link-up enter, and the timers that leaves |
| TimerRuns.IntervalTimers | common/ether_port.cpp:518-632 | the end of a Sync, Announce or request interval begins the next, and a request awaits its response |
| TimerRuns.RecoveryTimers | common/ether_port.cpp:663-673 | the end of a halt lets requests be made and starts them on a port without a role |
| TimerRuns.RateTimers | common/ether_port.cpp:674-714 | the end of a SYNC_RATE timer lets another one be started, and waits for the next Sync if a rate change is signalled |
| TimerRuns.ElectionTimers | common/common_port.cpp:340-473 | an election that ends with a role enters it |
| TimerRuns.LinkDownTimers | common/ether_port.cpp:482-498 | a link that goes down halts requests |
| TimerRuns.LinkUpTimers | common/ether_port.cpp:403-424 | a link that comes up starts them |
| TimerEffects.CallLeaves | common/ether_port.cpp:326-498 | of every call, from every state at rest, the role and flags it leaves, and for each of the ten kinds how many timers are pending then: after power-up and link-up a slave sends nothing and waits for an announce, a master waits for nothing and sends Sync and Announce, another port waits for an announce, and the automotive profile, unless grandmaster, waits for a Sync |
| TimerEffects.ExpiryLeaves | common/ether_port.cpp:499-724 | the same of every expiry but that of PDELAY_DEFERRED |
| TimerEffects.DeferredRuns | common/ether_port.cpp:640-653 | the expiry of PDELAY_DEFERRED with a follow-up kept is a run that takes it again, as if it came then, and defers it again exactly if the request still has no timestamp |
| TimerEffects.DeferredAborts | common/ether_port.cpp:640-653 | without one it is a run to the abort, after which nothing happens |
| TimerEffects.PowerUpFirst | common/ether_port.cpp:326-402 | no call is made before power-up, nor until it has started the other threads |
| TimerEffects.CallsOverlap | common/ether_port.cpp:344-402 | after that a call can be made during another exactly if one comes from the link and the other from the network, or the first has nothing to do |
| TimerRuns.StateChangeTwice | common/ptp_message.cpp:853-888 | two Announce messages leave two STATE_CHANGE timers |
| TimerRuns.AnnounceReceiptTwice | common/ether_port.cpp:403-424 | power-up and link-up leave two ANNOUNCE_RECEIPT timers |
| TimerRuns.SyncIntervalTwice | common/common_port.cpp:476-542 | a signalled Sync timer followed by an announce timeout leaves two SYNC_INTERVAL timers |
| TimerRuns.ResponseReceiptTwice | common/ether_port.cpp:518-569 | two requests without a response leave two PDELAY_RESP_RECEIPT timers |
| TimerRuns.DeferredTwice | common/ptp_message.cpp:1719-1731 | a link that goes down, a signalling message that restarts PDELAY_INTERVAL, its expiry, which stores a request and does not send it, a response and two follow-ups leave two PDELAY_DEFERRED timers |
| TimerRuns.MisbehaviourTimers | common/ptp_message.cpp:1459-1464 | on every run of responses and follow-ups the calls that PeerDelay's exchange makes leave one PEER_MISBEHAVING timer for each misbehaviour it found, and halt and hold a response as it does |
| TimerRuns.ExchangeRuns | common/ptp_message.cpp:1605-1743 | every possible course of PeerDelay's exchange, of messages, requests, halts by the link and signalling, is a run of the port's timers with the calls that it makes, and the two agree on what is requested, stamped, held, deferred and halted |
| TimerRuns.MisbehavingTwice | common/ptp_message.cpp:1459-1464 | so messages alone leave two of them |
| TimerRuns.SyncRateRace | common/ether_port.cpp:872-880 | a Follow_Up and a SYNC_INTERVAL expiry handled at the same time leave two SYNC_RATE timers |
| TimerRuns.TwicePending | common/ether_port.cpp:326-724 | each of the six remaining kinds has a run, one call at a time, that leaves it pending twice |
| TimerRuns.PendingOnce | common/ether_port.cpp:842-849 | a kind is pending at most once on every run if and only if it is PDELAY_INTERVAL, SYNC_RECEIPT or ANNOUNCE_INTERVAL |
| TimerRuns.PendingOnceSequentially | common/ether_port.cpp:196-212 | on runs with one call at a time the same holds if and only if it is one of these or SYNC_RATE |
| TimerDeadlock.RunParts | common/ptp_message.cpp:1425-1483 | on every run only the listening and timer threads take part in the exchange, and the listening thread's handling of a message has one of the listed forms |
| TimerDeadlock.DeadlockLasts | linux/src/linux_hal_common.cpp:457-478 | from a deadlock, whatever happens, the callback never goes on |
| TimerDeadlock.CallbackGoesOn | linux/src/linux_hal_common.cpp:457-478 | on every run a callback under way can go on if and only if no thread that needs the queue holds the lock it waits for |
| TimerDeadlock.AnnouncingJams | common/common_port.cpp:329-338 | a signalling message that has cancelled ANNOUNCE_INTERVAL and not yet added it again deadlocks with an announce timeout |
| TimerDeadlock.SignallingJams | common/ptp_message.cpp:1956-2032 | a signalling message that restarts PDELAY_INTERVAL deadlocks with that timer's expiry |
| TimerDeadlock.LinkUpJams | common/ether_port.cpp:403-424 | so does a link that comes up |
| TimerDeadlock.ForcedJams | common/ether_port.cpp:731-751 | a follow-up that makes the port a master deadlocks with the expiry of ANNOUNCE_INTERVAL |
| TimerDeadlock.UsedJams | common/ether_port.cpp:882-884 | a Follow_Up that starts requests deadlocks with the expiry of a signalled PDELAY_INTERVAL |
| TimerDeadlock.ExchangeJams | common/ether_port.cpp:640-653 | a response that shows misbehaviour, and a follow-up of the held response, deadlock with the expiry of PDELAY_DEFERRED; both are messages of a course of PeerDelay's exchange, in which the response is the third counted duplicate |
| TimerDeadlock.PowerUpJams | common/ether_port.cpp:331-343 | at the power-up of an automotive grandmaster the main thread and the first SYNC_INTERVAL callback both start requests, and deadlock |
| TimerDeadlock.HarmfulJams | common/ether_port.cpp:842-849 | every call that is not harmless has a run on which it alone overlaps a callback and deadlocks |
| TimerDeadlock.OverlapSafe | common/common_port.cpp:298-338 | the calls of a set can overlap callbacks, all others being kept apart, without ever a deadlock if and only if each is harmless |
| WorkQueue.Submit | windows/daemon_cl/work_queue.cpp:82-97 | uninterrupted, the first free slot gets task and argument, and failure means there was none |
| WorkQueue.StepKeeps | windows/daemon_cl/work_queue.cpp:45-97 | with one submitter each memory access keeps the slot invariants and overwrites no pending slot |
| WorkQueue.RunKeeps | windows/daemon_cl/work_queue.cpp:45-97 | the invariants hold on every interleaving |
| WorkQueue.OneSubmitterIsSafe | windows/daemon_cl/work_queue.cpp:45-97 | with one submitter every accepted job is called at most once and with its own argument, no worker calls a cleared task, accepted = finished + occupied, and a rejection saw every slot occupied |
| WorkQueue.ScansAlone | windows/daemon_cl/work_queue.cpp:82-97 | a submitter left alone, however far it has looked, accepts its job in the first free slot from there on, with both words, and gives up exactly if there is none; nothing else changes |
| WorkQueue.SubmitsAlone | windows/daemon_cl/work_queue.cpp:82-97 | so a whole submit left alone does to the slots what Submit does |
| WorkQueue.JobGetsDone | windows/daemon_cl/work_queue.cpp:45-58 | left to itself the worker of an occupied slot calls that job once, with its argument, finishes it and frees the slot |
| WorkQueue.StoppedKeeps | windows/daemon_cl/work_queue.cpp:45-58 | a job in the slot of a stopped worker stays there on every run |
| WorkQueue.FinishedUnlessStopped | windows/daemon_cl/work_queue.cpp:45-97 | with one submitter, in every reachable state, an accepted job can be finished if and only if its worker was not stopped |
| WorkQueue.TwoSubmittersLoseAJob | windows/daemon_cl/work_queue.cpp:82-97 | any two submitters have an interleaving that loses a job |
| WorkQueue.SubmitterLimit | windows/daemon_cl/work_queue.cpp:45-97 | jobs are conserved on all interleavings if and only if there is at most one submitter |
| PriorityVectors.Memcmp | common/ieee1588clock.cpp:494 | the byte comparison loop decides lexicographic order and equality |
| PriorityVectors.Fill | common/ptp_message.cpp:682-714 | the comparison buffer is the 14-byte vector in network order |
| PriorityVectors.IsBetterThan | common/ieee1588clock.cpp:454-495 | both comparisons answer the field-by-field order, and no message loses |
| PriorityVectors.MemLessIsNumeric | common/ieee1588clock.cpp:494 | byte order is numeric order of the big-endian numbers |
| PriorityVectors.BufferOrder | common/ptp_message.cpp:677-717 | comparing the buffers is comparing priority1, class, accuracy, variance, priority2, identity in that order |
| PriorityVectors.BetterIsStrictTotal | common/ieee1588clock.cpp:454-495 | the order is irreflexive, asymmetric, transitive and total on distinct vectors |
| PriorityVectors.ClockIdentityIsEui64 | common/ieee1588clock.cpp:66-78 | the shifts and masks insert FF FE in the middle of the MAC address |
| PriorityVectors.ClockIdentityInjective | common/ieee1588clock.cpp:66-78 | distinct MAC addresses give distinct identities |
| Election.Port.constructor | common/common_port.cpp:40-76 | a fresh port is initializing, announces nothing and knows no best clock |
| Election.Port.EnterMaster | common/ether_port.cpp:731-751 | becoming master starts announcing |
| Election.Port.EnterSlave | common/ether_port.cpp:753-774 | becoming slave stops announcing and asks for a new set point |
| Election.Port.HandlePowerUp | common/common_port.cpp:555-579 | power-up re-enters the current role, and slave if priority1 is 255 |
| Election.Port.HandleAnnounce | common/ptp_message.cpp:853-888 | an announce is stored unless it travelled too far, comes from this clock or went through it |
| Election.Port.HandleStateChange | common/common_port.cpp:340-473 | the election between this clock and the stored announce |
| Election.Port.HandleReceiptTimeout | common/common_port.cpp:476-542 | a clock without a master becomes its own grandmaster and forgets the announce |
| Election.StepHonest | common/common_port.cpp:340-542 | every event keeps: announcing if and only if master, and a master is its own grandmaster |
| Election.RunHonest | common/common_port.cpp:340-542 | the same over every run against any announces, so every announce sent carries this clock's own vector |
| Election.RunStores | common/ptp_message.cpp:863-876 | on every run of a fresh clock, whatever it hears, the stored announce is the last one with fewer than 255 steps, from another clock and not by way of this one, unless a receipt timeout made the clock master since |
| Election.RunElects | common/common_port.cpp:380-473 | on every run, from every role, an election with an announce stored makes the clock master with itself as grandmaster if it is better than the announced one, and otherwise slave of that one |
| Election.RunStands | common/common_port.cpp:476-579 | on every run what power-up, timeouts, forced switches and signalling make of role, grandmaster and announcing, and that nothing else touches them |
| Election.RunRoleless | common/common_port.cpp:40-76 | a fresh clock that may be master is without a role exactly until the first timeout, forced switch or election with an announce; until then it has elected nobody and was not told to step |
| Election.AnnounceMeans | common/ptp_message.cpp:781-806 | an announce carries the clock's own attributes, its grandmaster's identity, zero steps and a path of itself alone |
| Election.SetPointExactly | common/common_port.cpp:380-473 | the servo is told to step exactly on entering the role of a slave and on electing another master than the last one |
| Election.RunSlaveOnly | common/common_port.cpp:350-351 | on every run a clock with priority 255 never announces, is never master and keeps its grandmaster; it is a slave from the first power-up on |
| Election.RunKinds | common/ptp_message.cpp:1217-1231 | with forced switches and signalling every reachable clock is honest, a master announcing another clock, or announces without being master |
| Election.ForeignLasts | common/ptp_message.cpp:1217-1231 | a forced master with a foreign grandmaster stays one on every run until exactly an election with a stored announce, which makes it honest |
| Election.BabblingLasts | common/ptp_message.cpp:2024-2030 | a clock signalled to announce without being master goes on over every run until exactly a timeout, a forced switch, a power-up as slave, or an election it wins or that first makes it a slave |
| Election.FollowerMustNotAnnounce | common/ptp_message.cpp:1217-1231 | runs to both: a follower of a better clock that is forced, and one that is signalled |
| Election.NetStepKeeps | common/ptp_message.cpp:781-888 | the invariant of two linked clocks is kept by every event of either |
| Election.NetRunKeeps | common/common_port.cpp:340-542 | the invariant holds on every run |
| Election.DecidedClocksAgree | common/common_port.cpp:340-473 | on every run, once the better clock is master, by timeout or by election, and the other one last decided by election, exactly the better one is master and both name it grandmaster; agreement on the worse one never happens |
| Election.AgreementIsStable | common/common_port.cpp:476-542 | an agreement survives an event if and only if it is not a receipt timeout at the slave |
| Election.OneAnnounceSettles | common/common_port.cpp:607-629 | from every reachable state there is a run of four events to agreement: the better clock gives up waiting and announces, the other one hears it and elects |
| Election.AnyDeliverySettles | common/common_port.cpp:340-542 | once the better clock is master, every run in which an announce of it is delivered and the other clock later elects ends in agreement, however interleaved, unless that clock times out |
| LinkDelay.ReadingsAreSymmetric | common/ptp_message.cpp:1746-1787 | every exchange over a symmetric path whose four times are read to within a tick, whenever it happens, is symmetric to within a tick of either clock, which is what the bounds below ask for |
| LinkDelay.ErrorBound | common/ptp_message.cpp:1746-1787 | on a symmetric path read to within e, whatever the clock offset, and while no 64-bit intermediate overflows, the computed delay is off by at most half the turn-around times the rate-ratio error, plus e in local time and 1 ns |
| LinkDelay.AdjustIsClose | common/ptp_message.cpp:1766-1777 | the turn-around is multiplied by the ratio, losing less than a nanosecond, exactly for ratios between 0.998 and 1.002, and else taken as it is |
| LinkDelay.MeasuredIsHalf | common/ptp_message.cpp:1746-1787 | while nothing overflows the computed delay is half the round trip without that turn-around, cut towards zero |
| LinkDelay.ShortIsSane | common/ptp_message.cpp:1746-1787 | no intermediate overflows in exchanges shorter than 36 years |
| LinkDelay.ExactWhenRatesEqual | common/ptp_message.cpp:1746-1787 | with equal rates and exact readings a whole-nanosecond delay is computed exactly |
| PeerDelay.EtherPort.constructor | common/ether_port.cpp:86-156 | empty slots, invalid delay, ratio one, asCapable only in the automotive profile |
| PeerDelay.EtherPort.HandleInterval | common/ether_port.cpp:518-569 | a new request with the next sequence id and a pending timestamp replaces the old one |
| PeerDelay.EtherPort.HandleTxTimestamp | common/ptp_message.cpp:558-600 | the transmit timestamp goes to the pending request |
| PeerDelay.EtherPort.HandleResponse | common/ptp_message.cpp:1403-1487 | the duplicate check and the replacement of the stored response |
| PeerDelay.EtherPort.HandleFollowUp | common/ptp_message.cpp:1571-1744 | which follow-ups are dropped, deferred or used |
| PeerDelay.EtherPort.UpdateLink | common/ptp_message.cpp:1746-1832 | delay and rate ratio from the four timestamps |
| PeerDelay.EtherPort.MeasureLink | common/ptp_message.cpp:1746-1844 | delay, rate ratio, asCapable and baseline after a measurement |
| PeerDelay.EtherPort.HandleDeferred | common/ether_port.cpp:640-653 | the kept follow-up is taken out and processed again |
| PeerDelay.EtherPort.HandleOther | common/ether_port.cpp:403-673 | what timeouts, link changes, faults and phase steps do to the port |
| PeerDelay.EtherPort.LoseCapable | common/ether_port.cpp:654-661 | asCapable and the rate baseline are lost, except in the automotive profile |
| PeerDelay.RunLinkGood | common/common_port.hpp:443-454 | in every state reachable by the common Ethernet code asCapable means the delay is within the threshold, in the automotive profile asCapable is never lost, and the rate ratio is within 250 ppm, so that it always passes the guard and never makes a division by zero |
| PeerDelay.RunTraced | common/ptp_message.cpp:1605-1743 | every accepted measurement of every run comes from one sent and validly stamped request and a received response and follow-up that match it; no response and no follow-up is used twice |
| PeerDelay.AcceptedDelayIsAccurate | common/ptp_message.cpp:1746-1787 | so the error bound holds for every delay accepted on any run, with the ratio it was made with, which Measurements.RunAccurate bounds in turn |
| Measurements.RunMeasures | common/ptp_message.cpp:1602-1832 | on every run an event adds exactly one measurement, from the timestamps that the event list says, and sets the delay to it, if and only if it brings, or takes up again, a follow-up to the last request and the held response, with a valid stamp in the version of the response; any other event leaves measurements, delay and ratio alone |
| Measurements.RunStanding | common/ptp_message.cpp:1819-1832 | on every run, exactly what sets and clears asCapable, the rate baseline and the count of measurements |
| Measurements.RunStands | common/ptp_message.cpp:1819-1832 | so on every run asCapable, baseline and count are what the event list says, from a port that is capable at first only in the automotive profile |
| Measurements.BaselineKept | common/ieee1588clock.cpp:399-415 | a measurement is the baseline of the next ratio until a phase step or, in the standard profile, a timeout, a link going down or a fault |
| Measurements.BecomesCapable | common/ptp_message.cpp:1819-1831 | a standard port becomes asCapable if and only if the event makes a measurement within the threshold |
| Measurements.RatioIsQuotient | common/ptp_message.cpp:1791-1816 | the new ratio is the local time over the peer's since the baseline, lengthened by the change of delay, if that lies strictly between 0.99975 and 1.00025, and otherwise the old one |
| Measurements.RunHalted | common/ether_port.cpp:170-194 | on every run requests are halted exactly from a third repeated response or a link going down until the end of the halt or a link coming up |
| Measurements.NeighbourRatio | common/ptp_message.cpp:1791-1816 | with baseline and request over one delay to a clock of ratio rho, read to within e, the new ratio is rho minus an excess over the time passed at the peer, if that is plausible; the excess is rho times the change of the measured delay and at most two misreadings, so the ratio is exactly rho if the delay did not change and the readings are exact |
| Measurements.RunAccurate | common/ptp_message.cpp:1746-1832 | on every run whose measurements are of one peer with bounded turn-around and spacing, with clocks read to within e, every ratio used is within the bound of its ratio, and every accepted delay within half the bound times the turn-around plus a reading and one nanosecond; with measured ratios the bound is only the allowed change of delay and two readings over the spacing |
| Measurements.RunTuned | common/ptp_message.cpp:1791-1832 | on every such run, for a peer whose ratio is not implausible, from the first measurement with a baseline on the ratio is within that small bound for good, and so is the error of every delay accepted after it |
| Measurements.TypicalRun | common/ptp_message.cpp:1746-1832 | within 200 ppm, 10 ms and 0.9 s, and for readings to within e up to 100 ns, after any two measurements with the baseline kept between them the ratio is within 3 ppm and every later delay within 12.2 ns + 1.03 e |
| Measurements.TypicalPeer | common/ptp_message.cpp:1746-1832 | within 200 ppm, 10 ms and 0.9 s, and for readings to within e up to 100 ns, the measured ratios are within 3 ppm and the delays within 12.2 ns + 1.03 e, which is 21 ns for e = 8 |
| PeerDelay.RunDuplicatesGood | common/ptp_message.cpp:1435-1477 | in every reachable state a counter of k means k duplicates with consecutive ids ending at the last invalid id |
| PeerDelay.RunAgrees | common/ptp_message.cpp:1403-1744 | on every run the held response, the kept follow-up and the pending request are what the event list alone says |
| PeerDelay.RunStreak | common/ptp_message.cpp:1435-1477 | on every run the duplicate counter is the length of the streak of repeated responses that the event list alone defines |
| PeerDelay.StreakIds | common/ptp_message.cpp:1450-1470 | a streak is made of responses that repeat the held one from another port, with consecutive ids |
| PeerDelay.HaltsOnThirdDuplicate | common/ptp_message.cpp:1435-1477 | on every run an event halts requests for misbehaviour if and only if it completes a streak of three |
| PeerDelay.ConsecutiveHalt | common/ptp_message.cpp:1453-1464 | after every run that holds no response and has begun no streak, three exchanges with duplicates and consecutive ids, whatever else happens before, between and after their messages, halt if and only if the first id is at most 65533 |
| PeerDelay.WrapDoesNotHalt | common/ptp_message.cpp:1453-1455 | duplicates at 65534, 65535 and 0 do not halt |
| PeerDelay.NoFollowUpNeverHalts | common/ptp_message.cpp:1450-1474 | on every run without follow-ups the counter never exceeds one and nothing is halted |
| PeerDelay.UnfollowedDoNotHalt | common/ptp_message.cpp:1471-1474 | three consecutive duplicates without follow-ups do not halt |
| PeerDelay.MisbehavesTwice | common/ptp_message.cpp:1459-1464 | after every run that holds no response and awaits no timestamp, messages alone show the peer misbehaving twice, before the first halt ends |
| PeerDelay.DefersTwice | common/ptp_message.cpp:1719-1731 | on every run that leaves a request without its timestamp and its response held, any two follow-ups of it are deferred one after the other, and the second replaces the first |
| Servo.Clock.constructor | common/ieee1588clock.cpp:80-123 | no pending set point, no violation, no trim, no baselines |
| Servo.Clock.HandleOffset | common/ieee1588clock.cpp:350-440 | one update of the servo, and the phase adjustment it makes, which SyncMeaning.RunTold relates to the master's time |
| Servo.UpdateRemembers | common/ieee1588clock.cpp:399-430 | an effective update steps exactly when the input history says so and keeps the violation count equal to the current run of large errors |
| Servo.RunRemembers | common/ieee1588clock.cpp:395-437 | on every run of updates, new set points and lost baselines the servo's memory is what the event list alone says |
| Servo.ServoMeaning | common/ieee1588clock.cpp:395-437 | on every run the trim stays within 250 ppm and the violation count within 7; an effective update steps the phase if and only if a set point is pending or the previous seven were all large errors, and a step invalidates both baselines |
| Servo.RunTrim | common/ieee1588clock.cpp:416-437 | on every run the trim is the sum, cut to 250 ppm after each effective update, of the rate error in ppm minus 0.0003 ppm per nanosecond of offset and Sync per second; a large error adds nothing, a step only the rate error |
| Servo.RateErrorRemoved | common/ieee1588clock.cpp:416-430 | without an offset one update gives the clock exactly the trim it lacks |
| Servo.OffsetSteered | common/ieee1588clock.cpp:416-430 | at the master's rate the trim moves against the offset by its pull |
| Servo.LoopContracts | common/ieee1588clock.cpp:416-430 | the closed loop: over every run of updates that show the offset and the rate to within given errors, at the rate of Syncs they tell, and of a clock that drifts by itself within a bound, the offset shrinks to seven tenths at every Sync down to the errors, below the limit of the trim and without a phase step |
| Servo.TypicalLoop | common/ieee1588clock.cpp:416-430 | at eight Syncs per second, with offsets told to within 2 ns and rates to within 4 ns of drift, 60 us become less than 17 ns in four seconds |
| Servo.RunBaselines | common/ieee1588clock.cpp:399-415 | on every run which of the two rate baselines are valid |
| Servo.NothingToDo | common/ieee1588clock.cpp:395-397 | a report of no offset at the same rate changes nothing |
| Servo.SteersTowardMaster | common/ieee1588clock.cpp:416-430 | a clock that is ahead is slowed down and one that is behind is sped up, to the limit of the trim |
| Servo.NotSyntonized | common/ieee1588clock.cpp:399-437 | without syntonization neither phase nor rate is touched |
| SyncFollowUp.SyncPort.constructor | common/common_port.cpp:40-76 | no stored Sync, no mismatches, invalid delay |
| SyncFollowUp.SyncPort.HandleSync | common/ptp_message.cpp:890-935 | a Sync replaces the stored one unless the port is disabled or faulty |
| SyncFollowUp.SyncPort.HandleFollowUp | common/ptp_message.cpp:1180-1248 | mismatch, stale version or use, and the stored Sync is gone |
| SyncFollowUp.SyncPort.CountMismatch | common/common_port.hpp:592-606 | the mismatch counter and the forced master switch |
| SyncFollowUp.SyncPort.MasterRate | common/ieee1588clock.cpp:306-348 | the master's rate since the previous pair, zero on a jump backwards |
| SyncFollowUp.SyncPort.UsePair | common/ptp_message.cpp:1020-1178 | what a matching pair does to the port and its clock; the offset, rate and adjustment are those of SyncMeaning.RunTold |
| SyncFollowUp.CorrectionFits | common/ptp_message.cpp:1046-1067 | for every usable link delay and Follow_Up the correction fits in 64 bits |
| SyncFollowUp.MasterTimeMeaning | common/ptp_message.cpp:1066-1071 | the corrected origin is the sum modulo the span of a timestamp, and exact if and only if its seconds fit in 48 bits |
| SyncFollowUp.OffsetMeaning | common/ptp_message.cpp:1069-1087 | the offset is arrival minus corrected origin as a 64-bit integer, and while the corrected seconds fit the exact difference if and only if that fits in 64 bits |
| SyncMeaning.CorrectionIsClose | common/ptp_message.cpp:1046-1064 | the correction is the whole nanoseconds, cut towards zero, of delay (1 + rateOffset / 2^41) / rate plus those of correctionField / 2^16, so within 2 ns of their sum |
| SyncMeaning.OffsetIsClose | common/ptp_message.cpp:1063-1087 | so the offset is within 2 ns of arrival minus origin minus that, while seconds and 64 bits suffice |
| SyncMeaning.RateIsQuotient | common/ieee1588clock.cpp:306-348 | with a baseline the master's rate is the master's time passed over the local time passed, and the pair becomes the baseline |
| SyncMeaning.BaselineMeaning | common/ieee1588clock.cpp:306-348 | the baseline is lost exactly when the master's time goes back, and is otherwise the pair just used |
| SyncMeaning.RunHolds | common/ptp_message.cpp:890-935 | on every run the Sync held is the last message heard, if that was a Sync, and none is held after a Follow_Up |
| SyncMeaning.MismatchExactly | common/ptp_message.cpp:1210-1231 | a Follow_Up of another message than the held Sync counts exactly while asCapable, and makes a master exactly when counted as forced |
| SyncMeaning.RunInputs | common/ptp_message.cpp:1235-1239 | on every run capability and timestamp version are as last told |
| SyncMeaning.RunRole | common/ptp_message.cpp:1219-1226 | on every run the role is the one last given, or master if mismatches forced it since |
| SyncMeaning.RunRoleless | common/common_port.cpp:61 | before a role is given or forced the port is neither slave nor master and no pair has driven the servo |
| SyncMeaning.UsedExactly | common/ptp_message.cpp:1020-1062 | the exact condition on role, Sync, version, link delay, sign of the correction field and master's time under which a Follow_Up drives the servo |
| SyncMeaning.StepTells | common/ptp_message.cpp:1069-1148 | what each event tells the servo, with the offset and the exact rate of a pair that drives it, and that nothing else is told |
| SyncMeaning.RunTold | common/ptp_message.cpp:1020-1178 | on every run, for every pair that drove the servo: the offset is within 2 ns of arrival minus the master's time; the rate is one if the events tell no baseline, and otherwise exactly the master's time over the local time since the baseline, within 4 ns of the true time passed; the phase is adjusted if and only if the servo is to step, to within 2 ns of the master's time; and the port's baseline is that of the events, the last measured pair unless it stepped the phase or went back |
| SyncMeaning.RunDrives | common/ptp_message.cpp:1020-1178 | on every run a Follow_Up drives the servo if and only if a slave measures it, by the events, and the master's time advanced since the baseline |
| SyncFollowUp.RunPairs | common/ptp_message.cpp:1180-1248 | on every run the servo is driven only by a Sync and a later Follow_Up of the same sequence id and source, the Sync in the version then in force; no Sync and no Follow_Up is used twice |
| SyncFollowUp.DrivesExactly | common/ptp_message.cpp:1020-1178 | a Follow_Up drives the servo if and only if the port is a slave holding its current Sync, link and correction are usable and the master advances, and then with its offset, the rate since the baseline and the servo's adjustment; otherwise trim and phase are left alone |
| SyncFollowUp.RunCounts | common/common_port.hpp:592-606 | on every run mismatches while asCapable = threshold x forced master switches + counter, and the counter is below the threshold |
| SyncFollowUp.ZeroThreshold | common/ptp_message.cpp:1217-1231 | with threshold zero an uncounted mismatch forces a master |
| SyncFollowUp.CountsExactly | common/ptp_message.cpp:1217-1231 | every forced switch is backed by a threshold of mismatches on all runs if and only if the threshold is at least one |
| SyncFollowUp.RunDriven | common/ieee1588clock.cpp:350-440 | on every run of messages the port's clock is the servo run on exactly the updates of the pairs used, so ServoMeaning holds of it |
| ClosedLoop.RoundComes | common/ptp_message.cpp:890-935 | at whatever time and offset, a Sync and a Follow_Up with these times in whole nanoseconds are a round of the theorems below, for every slave that knows its link delay |
| ClosedLoop.RoundObserved | common/ieee1588clock.cpp:306-348 | with a baseline, on a line that misreads arrivals, master's times and intervals within bounds, the pair shows the servo the true offset to within 2 ns and the readings, and the drift to within the readings and a second-order term that is stated |
| ClosedLoop.RunFollows | common/ptp_message.cpp:1020-1178 | on every run of a port with a baseline, whatever else happens between the Syncs, what the servo is told follows the plant of Servo.LoopContracts with these errors, nothing else is told that moves trim or phase, and the offset shrinks to seven tenths at every Sync down to the errors |
| ClosedLoop.StepRound | common/ieee1588clock.cpp:399-415 | the pair after a pending set point takes the clock to the master's time, to within the readings, whatever its offset was, and leaves the trim and no baseline |
| ClosedLoop.FirstRound | common/ieee1588clock.cpp:306-348 | the pair after that, told no rate, takes three tenths of the offset back and begins the baseline, and the loop is closed |
| ClosedLoop.LockIn | common/ptp_message.cpp:1020-1178 | the whole way in: from any offset with a set point pending, the k-th Sync after these two finds the clock within 0.7^k of what it drifted, above what is left of the errors |
| ClosedLoop.RunsExist | common/ptp_message.cpp:890-1248 | from any offset a fresh slave has such a run, of Syncs and Follow_Ups in whole nanoseconds, with as many Syncs as 64 bits can tell |
| ClosedLoop.UsualLockIn | common/ptp_message.cpp:1020-1178 | at eight Syncs per second, within 100 ppm, with arrivals read to 8 ns and the master's time known to 22 ns, the clock is within 290 ns from the 35th Sync on, however far off it was |
| Wire.PutStart | common/ptp_message.cpp:614-625 | type, version, length and domain at their offsets, nothing else changed |
| Wire.PutPrefix | common/ptp_message.cpp:608-628 | the first sixteen header bytes, with flags and correction, nothing else changed |
| Wire.PutPortId | common/ptp_message.cpp:630-635 | clock identity and port number in network order |
| Wire.PutTail | common/ptp_message.cpp:637-646 | sequence id, control and interval at their offsets, nothing else changed |
| Wire.BuildCommonHeader | common/ptp_message.cpp:608-649 | the 34 header bytes in a zeroed buffer, nothing else changed |
| Wire.PutTimestamp | common/ptp_message.cpp:959-974 | seconds and nanoseconds in network order |
| Wire.PutBody | common/ptp_message.cpp:1846-1895 | the body bytes of each of the three messages |
| Wire.BuildMessage | common/ptp_message.cpp:1489-1539 | the zeroed 256-byte buffer then holds exactly the encoded message |
| Wire.RxTimestamp | common/ptp_message.cpp:124-166 | the retry loop gives the first success of six attempts |
| Wire.BuildPTPMessage | common/ptp_message.cpp:68-556 | the decoder computes Parse: which buffers are discarded and what the others hold |
| Wire.HeaderRoundTrip | common/ptp_message.cpp:513-541 | reading a written header gives it back |
| Wire.OnTheWire | common/ptp_message.cpp:948-985 | every message sent has its numbered type, control and length, version, domain, flags, interval, correction, sequence id, source, 48-bit seconds, nanoseconds and requesting port, as big-endian numbers at the offsets of the standard |
| Wire.DecodeEncoded | common/ptp_message.cpp:200-425 | decoding an encoded Follow_Up, Pdelay_Resp or Pdelay_Resp_Follow_Up gives back type, identities, sequence id, timestamps, correction, flags and interval, whatever follows it in the buffer |
| Wire.EncodeDecoded | common/ptp_message.cpp:200-425 | every decoded buffer is re-encoded to the same bytes wherever they carry information |
| Wire.SwapOfShort | common/ptp_message.cpp:976-978 | the 32-bit byte swap of every 16-bit number is zero in its lower 16 bits |
| Wire.TimeBaseLost | common/ptp_message.cpp:976-980 | so the time-base indicator goes out as zero, and survives if and only if it was zero |
| Wire.ShortIsDiscarded | common/ptp_message.cpp:205-365 | a message of which only the first bytes arrived is discarded if and only if it is not a Pdelay_Resp_Follow_Up |
| Wire.DiscardedExactly | common/ptp_message.cpp:166-512 | which first bytes, sizes and timestamps are discarded, which are passed on by type and which are decoded, for every buffer |
| PathTrace.PathTraceTLV.constructor | common/avbts_message.hpp:428-430 | an empty list |
| PathTrace.PathTraceTLV.ParseClockIdentity | common/avbts_message.hpp:437-454 | the identities in the buffer are appended in order, for any size, also one that the unsigned comparison ignores, and the parser leaves the buffer if and only if more are counted than it holds |
| PathTrace.PathTraceTLV.AppendClockIdentity | common/avbts_message.hpp:461-463 | one identity is appended |
| PathTrace.PathTraceTLV.ToByteString | common/avbts_message.hpp:470-483 | the printed list is in the buffer, nothing else changed |
| PathTrace.PathTraceTLV.Has | common/avbts_message.hpp:490-494 | membership |
| PathTrace.PathTraceTLV.Length | common/avbts_message.hpp:503-505 | the number of bytes that printing writes |
| PathTrace.ParsePrinted | common/avbts_message.hpp:437-483 | given the number of bytes that follow the type, of a printed list cut anywhere the longest whole prefix is parsed, up to what the 16-bit length shows; the daemon's own call gives another number, see PathTrace.SentPath |
| PathTrace.PrintedAs | common/avbts_message.hpp:470-483 | a printed list is of type eight, shows the length of its identities modulo 65536 and holds them in order |
| PathTrace.CountMeans | common/avbts_message.hpp:437-454 | how many identities are taken: those that the length field shows, limited by the size, unless the size is below the two bytes of that field |
| PathTrace.RoundTrip | common/avbts_message.hpp:437-483 | print then parse is the identity if and only if the list has at most 8191 identities |
| PathTrace.LostList | common/avbts_message.hpp:474-475 | a list of 8192 identities is parsed as empty |
| PathTrace.PrintParsed | common/avbts_message.hpp:437-454 | whatever the bytes, the parsed identities are exactly the bytes they came from |
| PathTrace.ParsePath | common/ptp_message.cpp:426-490 | the path of a received Announce, with the size as the call computes it, and whether the parser left the receive buffer |
| PathTrace.PathWhen | common/ptp_message.cpp:433-484 | there is a path exactly if more than eight bytes arrived and the type behind the Announce fields is eight, and else it is empty |
| PathTrace.StaysInside | common/ptp_message.cpp:433-484 | it stays inside the 128 bytes if and only if fewer than 72 bytes arrived or the length field is below 64 |
| PathTrace.UsesArrived | common/ptp_message.cpp:433-484 | it uses only bytes that arrived if and only if all the identities that the length field shows did |
| PathTrace.PathIsArrived | common/ptp_message.cpp:433-484 | whatever the bytes, the path is the longest whole prefix of what arrived under that same condition and no other |
| PathTrace.SentPath | common/ptp_message.cpp:433-484 | a printed path comes out as the longest whole prefix that arrived if and only if all of what its length field shows arrived; of every cut one bytes are taken that did not arrive |
| PathTrace.LongPath | common/ether_port.cpp:252-262 | from eight identities on the parser leaves the buffer, by 4 bytes with eight and by 60 with fifteen or more |
| PathTrace.EightHops | common/ptp_message.cpp:433-484 | such an Announce |
| PathTrace.PathSurvives | common/ptp_message.cpp:433-484 | a path that was sent is received if and only if it has at most seven identities |
| Persistence.WriteField | common/ieee1588clock.cpp:134-145 | one field is copied if it fits, and the count becomes the space left or the space missing |
| Persistence.ReadField | common/ieee1588clock.cpp:180-191 | one field is restored if it fits, and the count is kept in the same way |
| Persistence.Clock.SerializeState | common/ieee1588clock.cpp:125-174 | advertises 40 bytes, or writes the fields that fit and reports the outcome |
| Persistence.Clock.RestoreSerializedState | common/ieee1588clock.cpp:176-220 | replaces the fields that fit and reports the outcome |
| Persistence.Port.SerializeState | common/common_port.cpp:174-240 | advertises 29 bytes, refuses to save an undecided port, or writes the fields that fit and reports the outcome |
| Persistence.Port.RestoreSerializedState | common/common_port.cpp:242-296 | replaces the fields that fit and reports the outcome |
| Persistence.FittingMeaning | common/ieee1588clock.cpp:125-174 | the fields that fit are the longest prefix that the space can hold, and all of them if and only if there is room for all |
| Persistence.PassMeaning | common/common_port.cpp:174-296 | with room for all the result is true and the space left; with less it is false and exactly the number of missing bytes |
| Persistence.EmittedMeaning | common/common_port.cpp:191-236 | exactly the fields that fit are written |
| Persistence.ReadBackMeaning | common/common_port.cpp:242-296 | exactly the fields that fit are restored, the others keep their values |
| Persistence.RestoreWritten | common/ieee1588clock.cpp:125-220 | for every buffer size, restoring what was written gives back what fitted, everything if all did, and reports the same outcome |
| Persistence.CallbackInside | linux/src/daemon_cl.cpp:548-561 | where the callback puts the port in a buffer of any size, and that this is inside it if and only if there are at least 20 bytes |
| Persistence.WritesBefore | linux/src/daemon_cl.cpp:556-559 | with fewer bytes a master or slave writes before the buffer |
| Persistence.Save | linux/src/daemon_cl.cpp:548-561 | on every buffer it stays inside of, the callback leaves exactly the clock pass followed by the port pass, and their count; on 69 bytes or more as Persistence.SavedExactly says, with the count zero for a port without a role |
| Persistence.RoomForBoth | linux/src/daemon_cl.cpp:485-495 | from the advertised size on the buffer then holds both states and the count is what is left, zero at the advertised size |
| Persistence.SavedExactly | common/common_port.cpp:184-236 | on 69 bytes or more a port in state 7 or 9, master or slave, is saved, each field at its byte, and of a port in any other state nothing is written |
| Persistence.Restore | linux/src/daemon_cl.cpp:389-462 | from a file of any size and content exactly the fields that fit are restored, the port only after a whole clock, and it fails if and only if the file is too short |
| Persistence.SavedComesBack | linux/src/daemon_cl.cpp:389-462 | from a saved file both states come back, whatever they were |

## Left out

- Sockets, netlink, ioctl, packet capture, shared memory, service control and other calls into the operating system: no logic of the daemon.
- Failures of threads, mutexes and timers of the operating system, and signals still pending after a timer is deleted: the step models take these primitives as atomic and successful.
- Floating-point rounding and `pow(2, interval)`: ratios are real numbers and Syncs per second is a parameter.
- More than one port per clock: both daemons register one.
- Forced port states, restored state inside the election and peer-delay runs, and the disabled and faulty states outside Sync handling.
- The wrong-sequence master switch and signalling inside the two-clock theorems: they start announcing without the election; how long that lasts is stated for one clock.
- That a deferred peer-delay event always finds its follow-up: two overlapping deferrals reach the abort, which is modelled.
- Clock identities in the follow-up match of the peer-delay exchange: the code compares port numbers and source identities only, and so does the model.
- Local-to-system clock rate, cross timestamps, shared-memory reports and the automotive test-status message.
- Sync, Pdelay_Req, Announce and Signalling bodies on the wire, and the control field: only their dispatch is modelled.
- Windows link monitoring, vendor tables, driver reports, watchdogs, INI files, command line and logging: table lookups and I/O.
- Rollover.WindowIsSharp: for runs in which the counter may advance at all (forward excursion at least one).
- TimerQueue.RunKeeps: requires a free key for every add, since with all 2^32 keys pending the search would not end.
- WorkQueue.SubmitterLimit: for queues with at least one worker; with none no job is ever accepted.
- SyncFollowUp.RunPairs: link delay, rate ratio, role, version and asCapable are inputs of the run; the ratio ranges over what PeerDelay.RunLinkGood allows.
- SyncFollowUp.RunDriven: with syntonization on; without it Servo.NotSyntonized applies.
- Wire.BuildPTPMessage: the receive buffer has its 128 bytes, of which only size arrived; hosts are little-endian.
- LinkDelay.ErrorBound: assumes that the peer answers after it received (a turn-around of at least zero) and that no 64-bit intermediate overflows, which LinkDelay.ShortIsSane shows for exchanges below 36 years; the same in LinkDelay.ExactWhenRatesEqual and PeerDelay.AcceptedDelayIsAccurate.
- Measurements.NeighbourRatio: while the times in nanoseconds fit in 64 bits and both clocks advance.
- Measurements.RunAccurate: while the times in nanoseconds fit in 63 bits, for peers whose bound is kept by one measurement (Peer.Steady), which Measurements.TypicalPeer shows for usual ones; path delay, clock offset and ratio are constant but for what counts as a reading error.
- SyncMeaning.OffsetIsClose: for a valid origin and a master's time that a timestamp can hold, with a difference below 2^63 - 3 ns; the same in SyncMeaning.RunTold, whose rate is exact for the 64-bit times always, and against the true times for arrivals in order and master's times at least 4 ns apart below 2^64 - 3 ns.
- PeerDelay.RunLinkGood: speaks of the common and the Linux code; on Windows asCapable is also set from the link status (windows/daemon_cl/windows_hal.cpp:527, 576 and 746).
- PortTimers.RunKeeps: a call reads the port's role when it begins; whether a response shows misbehaviour, whether a follow-up belongs to the held request and response, how an election ends and whether intervals differ are inputs of the call; TimerRuns.ExchangeRuns gives the first two the values that the exchange computes. An invalid transmit timestamp and an automotive profile that asks for no requests are left out. Adding a timer again and giving back its lock is one step.
- TimerRuns.MisbehaviourTimers: for runs of fewer than 2^32 - 20 messages, so that every timer finds a key; the same in TimerRuns.CallRuns and TimerDeadlock.CallbackGoesOn, and half of that in TimerRuns.ExchangeRuns, which leaves out the expiry of the other timers.
- Servo.LoopContracts: the clock is taken to gain on the master, between two Syncs, what its trim exceeds the one needed, and its own drift; no step is pending, and the offsets are not large errors.
- ClosedLoop.RunFollows: the trim is taken to act from the arrival of the Sync on, so what the clock drifts under the old one until the Follow_Up counts as its own drift; no set point comes between the rounds, and the times fit in 64 bits.
- ClosedLoop.LockIn: for a port without a baseline when it is stepped, and an offset that cannot be misread as none.
- PathTrace.ParsePath: what is read behind the buffer is undefined; the model stops there. The other fields of an Announce are not part of it.
- TimerDeadlock.OverlapSafe: the transmit locks are left out; no timer is added or cancelled while one is held.
- WorkQueue.StepKeeps: all threads see the memory accesses in one order; weaker memory orders of the compiler and the processor are not modelled.
- Persistence.Save: for a master or slave the buffer has to have the 20 bytes from which the callback stays inside it; the fields are memory images whose numeric contents are not interpreted.
