# Multi-queue schedulers, CoDel and the DCTCP echo: a model in Dafny

This project models the packet schedulers of the MQ-ECN code base and proves properties of them over
whole runs: arbitrary sequences of arrivals, service attempts and, where the code allows it,
reconfigurations, under a clock that does not run backwards.  Each scheduler appears twice: as a state
machine on values, about which the theorems are proved, and as a class whose methods update the fields
the source updates, in the source's order, each tied to a transition of the machine.

| files | component |
|---|---|
| `TokenBucket.dfy` | fixed-point rate table, token bucket, watchdog (kernel modules) |
| `CoDel.dfy`, `CoDelRuns.dfy`, `CoDelAccuracy.dfy` | CoDel marking with 16/32/64-bit words (kernel modules; section 5 of RFC 8289): invariants, when marks are due, how precise their rate is |
| `Ns2Packets.dfy`, `Ns2Dwrr.dfy`, `Ns2DwrrRuns.dfy`, `Ns2DwrrHeap.dfy` | NS2 deficit weighted round robin: machine, fairness and delay, pointer list |
| `MqEcn.dfy` | MQ-ECN thresholds and the quantum sum estimate (NS2) |
| `Wrr.dfy`, `WrrGap.dfy` | NS2 weighted round robin: machine and class, drift between two queues |
| `KernelMqEcn.dfy` | MQ-ECN thresholds of `sch_dwrr` from the round time of a priority |
| `KernelPackets.dfy`, `KernelDwrr.dfy`, `KernelDwrrRuns.dfy`, `KernelDwrrFairness.dfy`, `KernelDwrrTurns.dfy`, `KernelDwrrAdmission.dfy`, `KernelDwrrClass.dfy` | `sch_dwrr` |
| `PrioDwrr.dfy`, `PrioDwrrRuns.dfy`, `PrioDwrrFairness.dfy`, `PrioDwrrAdmission.dfy`, `PrioDwrrClass.dfy` | `sch_prio_dwrr` |
| `Wfq.dfy`, `WfqRuns.dfy`, `WfqWrap.dfy`, `WfqFairness.dfy`, `WfqActivation.dfy`, `WfqService.dfy`, `WfqClass.dfy` | `sch_wfq` |
| `Dctcp.dfy`, `DctcpAlpha.dfy` | CE echo of the receiver and marked-byte counters of the sender (sections 3.2 and 3.3 of RFC 8257) |
| `Arithmetic.dfy`, `ActiveOrder.dfy`, `Fairness.dfy`, `Accounting.dfy`, `Admission.dfy` | integer laws, sums, list order, the fairness potential, byte accounts and buffer admission that several of these share |

Things a reader may not expect, all of them facts about the code:

- The token bucket admits a burst of twice its depth: elapsed time is capped before the saved tokens are
  added.  The comment in `tbf_schedule` speaks of an ordinary token bucket; `TokenBucket.OrdinaryBoundExact`
  says from which states its bound of one bucket plus the elapsed time holds.
- The rate multiplier is a 32-bit field; below 61036 bit/s it is truncated and the error bound is lost.
- `sch_dwrr` refuses a packet when the result is negative, `sch_prio_dwrr` refuses a DWRR packet unless
  tokens strictly exceed its cost.  The retry at the scheduled instant therefore succeeds in the first and
  fails in the second, which arms its timer for the same instant again.
- `set-quantum` on an active NS2 queue falsifies `quantum_sum`; `sch_prio_dwrr` records the quantum it
  counted and stays right.
- NS2 WRR loops for ever on a non-empty port none of whose head packets fits its quantum.  Its unused
  counter is not carried over, so the gap between two queues of equal quantum can grow without bound; for
  packets of fixed sizes `WrrGap.BoundedExact` says exactly when it does.
- `sch_dwrr` computes a class's rate with a shift by 33 where 8·10^9 is meant, so at the true round time the
  MQ-ECN thresholds exceed the port threshold by up to 7.38 %.  `div_u64` uses only the low 32 bits of the
  round time and traps when they are zero (its divisor is 32 bits wide in linux/math64.h, which is not part
  of this model).  `KernelMqEcn` says exactly when the thresholds share out the port threshold.
- DCTCP's receiver keeps `ce_transition` from the last ECN-capable packet, so a packet that is not
  ECN-capable can make it echo wrongly; `Dctcp.NotEctExact` says exactly when and `Dctcp.NotEctMisleads`
  shows it from the start.  A sender with `dctcp_` set gives every packet its own `ect_`
  (NS2/diffserv/tcp/tcp-full.cc:878-880), so only a peer that is not such a sender, or one whose connection
  did not negotiate ECN, produces this input.

Assumptions, where a theorem states them: wire sizes are at most 1538 bytes and kernel quanta at least that
(the sysctl minimum); WFQ weights are 1..64; NS2 packets have at least one byte and NS2 quanta are positive.
Configuration, clock, classification and the verdict of a class's inner FIFO are parameters.  NS2's
floating-point values are `real`.

## Model

| member | source | states |
|---|---|---|
| TokenBucket.MultiplierFits | kernel modules/sch_dwrr/main.c:189-200 | the stored multiplier is the true quotient if and only if the rate is at least 61036 bit/s |
| TokenBucket.RateErrorExact | kernel modules/sch_dwrr/main.c:203-206 | for every rate and length: the fixed-point time never exceeds len·8e9/rate and falls short of it by less than 1 + len/2^15 ns, if and only if the rate is at least 61036 bit/s |
| TokenBucket.TokensAccount | kernel modules/sch_dwrr/main.c:440-451 | over any accepted sequence of departures tokens stay within 0..bucket, and tokens left plus time spent never exceed initial tokens plus elapsed time |
| TokenBucket.BurstBound | kernel modules/sch_dwrr/main.c:534-536 | consecutive departures between s and t cost at most 2·bucket + (t − s); counted from an empty bucket, at most the elapsed time |
| TokenBucket.BurstIsTight | kernel modules/sch_dwrr/main.c:444-446 | for every bucket size a burst of exactly 2·bucket at one instant is admitted, so the factor two cannot be improved |
| TokenBucket.OrdinaryBoundExact | kernel modules/sch_dwrr/main.c:444-446 | for every valid bucket and start s: all runs starting at s cost at most bucket + (t − s) if and only if saved tokens plus capped elapsed time are at most one bucket at s |
| TokenBucket.WatchdogExact | kernel modules/sch_dwrr/main.c:499-508 | the retry at the scheduled instant yields exactly 0, and some later retry succeeds at all, if and only if the packet costs at most bucket plus saved tokens; every earlier retry is refused |
| CoDel.NewtonStepSafe | kernel modules/sch_dwrr/main.c:322-332 | if count·rec² ≤ 2^32 then no subtraction, product or store of the step overflows or underflows, the words equal the unbounded arithmetic, and the result satisfies the same inequality |
| CoDel.MarkingKeepsNewtonInv | kernel modules/sch_dwrr/main.c:350-406 | a dequeue that does not wrap count keeps lastcount ≤ count and count·rec² ≤ 2^32 |
| CoDel.OverflowBreaksNewtonInv | kernel modules/sch_dwrr/main.c:366-369 | once the class has marked, the invariant survives a dequeue if and only if count does not wrap in it |
| CoDel.RunKeepsNewtonInv | kernel modules/sch_dwrr/main.c:366-401 | every state of every run in which count has not wrapped satisfies the invariant |
| CoDel.ShortRunsNeverOverflow | kernel modules/sch_dwrr/main.c:366-368 | no run of fewer than 2^32 dequeues wraps count |
| CoDel.IncrementSpacing | kernel modules/sch_dwrr/main.c:341-347 | an increment s of the control law satisfies s ≤ interval and count·s² ≤ interval² |
| CoDel.MarkSpacing | kernel modules/sch_dwrr/main.c:366-404 | in every run, each mark schedules the next one at most interval/√count after the previous schedule point |
| CoDel.FirstAboveWitness | kernel modules/sch_dwrr/main.c:282-313 | whenever first_above_time is set, an earlier dequeue set it and every dequeue since saw a long sojourn and more than one packet left |
| CoDel.MarkJustified | kernel modules/sch_dwrr/main.c:296-312 | every mark of every run has an earlier dequeue more than an interval back in unwrapped time such that all dequeues from it to the mark were above target with more than a maximum packet of backlog |
| CoDel.IncrementExact | kernel modules/sch_dwrr/main.c:341-347 | the increment is interval·rec/2^16 rounded down, for every rec that fits its field |
| CoDelRuns.MarksKeepSchedule | kernel modules/sch_dwrr/main.c:361-373 | in every run, in unwrapped time: a class already marking marks nothing before its schedule point, so an episode has at most one mark more than schedule points passed |
| CoDelRuns.MarkedWhenDue | kernel modules/sch_dwrr/main.c:296-366 | the converse of justification: after more than an interval of dequeues above target the class is marking, and the dequeue is marked if and only if the class was not marking or its schedule point has passed; given that the gaps are below 2^31 ticks and the first deadline does not wrap to 0 |
| CoDelRuns.UnmarkedBelow | kernel modules/sch_dwrr/main.c:288-294 | a dequeue below target, or with at most one maximum packet left, is not marked and ends the episode |
| CoDelRuns.CountsEpisode | kernel modules/sch_dwrr/main.c:366-402 | count exceeds lastcount by the marks of the latest episode after its first, in every state in which count has not wrapped |
| CoDelRuns.ResumeExact | kernel modules/sch_dwrr/main.c:375-401 | the first mark of an episode starts from the marks of the latest one less one, if and only if those were more than two and its last schedule point is less than 16 intervals back; otherwise from one |
| CoDelAccuracy.NewtonStaysClose | kernel modules/sch_dwrr/main.c:322-332 | if count·rec² is between 0.49·2^32 and 2^32 then so it is for count + 1 after one Newton step, rounding included, for counts below 2^24 |
| CoDelAccuracy.SpacingIsClose | kernel modules/sch_dwrr/main.c:341-404 | in every run, up to the 2^24th mark of an episode that starts from one: each mark schedules the next by a step of at least 0.7·interval/√count, up to one tick |
| CoDel.Class.CodelShouldMark | kernel modules/sch_dwrr/main.c:282-313 | the in-place update is the transition ShouldMark, on the fields and on the verdict |
| CoDel.Class.CodelNewtonStep | kernel modules/sch_dwrr/main.c:322-332 | the word-by-word computation stores the modelled step |
| CoDel.Class.CodelMarking | kernel modules/sch_dwrr/main.c:350-406 | the in-place update is the transition Marking, on the fields and on the CE bit |
| Ns2Dwrr.RotateProgress | NS2/diffserv/dwrr/dwrr.cc:447-575 | every turn of the while(1) loop that sends nothing decreases the lexicographic measure (total shortfall, head is current), keeps the invariant and leaves a non-empty list |
| Ns2Dwrr.BacklogIsListed | NS2/diffserv/dwrr/dwrr.cc:444-464 | in every well-formed state bytes are queued if and only if the active list is non-empty, so the loop never meets a null or an empty head |
| Ns2Dwrr.ServeKeepsWf | NS2/diffserv/dwrr/dwrr.cc:475-560 | sending keeps the list exactly the non-empty queues, once each, waiting queues short of their head packet, idle queues at deficit 0, only the head current, and the quantum sum right |
| Ns2Dwrr.EnqueKeepsWf | NS2/diffserv/dwrr/dwrr.cc:350-433 | an arrival, dropped or not, keeps the same invariant |
| Ns2DwrrRuns.InitialIsWf | NS2/diffserv/dwrr/dwrr.cc:70-117 | the constructor's state satisfies the invariant |
| Ns2DwrrRuns.StepKeepsInvariant | NS2/diffserv/dwrr/dwrr.cc:350-599 | every enqueue and dequeue keeps the invariant; a dequeue sends if and only if a queue is listed, and then the head packet of one queue, all other packets untouched |
| Ns2DwrrRuns.AdmissionExact | NS2/diffserv/dwrr/dwrr.cc:402-422 | a packet is let in exactly when it fits the limit with all bytes queued, at the tail of the queue of its priority, or of the last queue if there is none such; no other packet moves |
| Ns2DwrrRuns.RunStaysWithin | NS2/diffserv/dwrr/dwrr.cc:402-407 | with a fixed limit no run takes the port beyond it |
| Ns2DwrrRuns.NobodyGetsAhead | NS2/diffserv/dwrr/dwrr.cc:450-575 | in every run in which i stays backlogged, sent_j·Q_i − sent_i·Q_j < Q_i·Q_j + M(Q_i + Q_j) for every j, backlogged or not |
| Ns2DwrrRuns.PairwiseFairness | NS2/diffserv/dwrr/dwrr.cc:450-575 | two queues backlogged throughout any run differ by less than that bound either way, whatever other queues come and go |
| Ns2DwrrRuns.BoundedDelay | NS2/diffserv/dwrr/dwrr.cc:456-475 | while a head packet of size S waits, any other queue sends less than ⌈S/Q_i⌉ of its quanta plus one packet |
| Ns2DwrrRuns.BoundedDelayTotal | NS2/diffserv/dwrr/dwrr.cc:456-475 | and all others together at most the sum of these |
| Ns2DwrrHeap.InsertTailList | NS2/diffserv/dwrr/dwrr.cc:14-35 | walking the next pointers appends the cell to the chain the list represents; null arguments change nothing |
| Ns2DwrrHeap.RemoveHeadList | NS2/diffserv/dwrr/dwrr.cc:38-58 | unlinks and returns the first cell of the chain, or returns null on an empty list |
| Ns2DwrrHeap.DWRR.TotalByteLength | NS2/diffserv/dwrr/dwrr.cc:145-153 | the loop returns the bytes queued in all queues |
| Ns2DwrrHeap.DWRR.Enque | NS2/diffserv/dwrr/dwrr.cc:350-433 | the heap afterwards represents the machine's state after the arrival: queues, flags, pointer list and quantum sum |
| Ns2DwrrHeap.DWRR.Visit | NS2/diffserv/dwrr/dwrr.cc:450-575 | one turn of the loop on the heap is one turn of the machine's loop |
| Ns2DwrrHeap.DWRR.Deque | NS2/diffserv/dwrr/dwrr.cc:435-599 | the loop terminates, the heap represents the machine's state after the dequeue, and the outcome is the machine's |
| MqEcn.SharingExact | NS2/diffserv/dwrr/dwrr.cc:203-209 | the thresholds of the active queues sum to at most the port threshold if and only if at most one queue is active or the estimate is at least the true quantum sum |
| MqEcn.PortOverMeansQueueOver | NS2/diffserv/dwrr/dwrr.cc:203-216 | then a port above its threshold has an active queue above its own |
| MqEcn.MarkingExact | NS2/diffserv/dwrr/dwrr.cc:203-214 | a queue is marked if and only if its bytes exceed the port threshold, or, times the estimate, its quantum's part of it; a queue within its share stays unmarked |
| MqEcn.EstimateConverges | NS2/diffserv/dwrr/dwrr.cc:126-129 | n ticks with a constant quantum sum scale the estimation error by alpha^n, and an estimate that has caught up stays caught up |
| MqEcn.SetQuantumExact | NS2/diffserv/dwrr/dwrr.cc:297-306 | set-quantum keeps the invariant if and only if the queue is idle or the quantum is unchanged |
| Wrr.TerminationExact | NS2/diffserv/wrr/wrr.cc:302-429 | the loop of deque ends if and only if the current queue's live counter or some non-empty queue's quantum covers the head packet, and then within queue_num + 1 iterations |
| Wrr.ScanMeets | NS2/diffserv/wrr/wrr.cc:406-429 | passing on k > 0 times changes no packet and no quantum, leaves no counter_updated flag set, and stands k places further round |
| Wrr.DequeIsRun | NS2/diffserv/wrr/wrr.cc:300-435 | a whole dequeue is the run of its iterations, so what holds of all runs of iterations holds of dequeues |
| WrrGap.DequeIsCall | NS2/diffserv/wrr/wrr.cc:300-435 | on a non-empty port that run is a call in the sense of WrrGap.Calls: nothing arrives in it and it ends by sending |
| Wrr.StepKeepsFlags | NS2/diffserv/wrr/wrr.cc:302-429 | in every step only the current, non-empty queue can have counter_updated, and a live counter stays within 0..quantum |
| Wrr.AdmissionExact | NS2/diffserv/wrr/wrr.cc:264-274 | a packet is let in exactly when it fits the limit with all bytes queued, at the tail of the queue of its priority, or of the last queue if there is none such; nothing else changes |
| Wrr.RunStaysWithin | NS2/diffserv/wrr/wrr.cc:264-270 | with a fixed limit no run takes the port beyond it |
| Wrr.BytesPerVisit | NS2/diffserv/wrr/wrr.cc:307-419 | v completed visits to a queue that stays backlogged send at least v(Q − M + 1) and at most v·Q bytes, open visits set off |
| Wrr.VisitsAlternate | NS2/diffserv/wrr/wrr.cc:396-429 | in every run the completed visits to two queues differ by at most one |
| Wrr.PairwiseShare | NS2/diffserv/wrr/wrr.cc:302-429 | two queues backlogged throughout share the link within the factor Q_j/(Q_j − M + 1), up to a constant |
| WrrGap.BytesExact | NS2/diffserv/wrr/wrr.cc:307-419 | with packets of one size c, v completed visits to a backlogged queue send exactly v times the whole packets of its quantum, up to what an open visit has used at either end |
| WrrGap.GapFollowsVisits | NS2/diffserv/wrr/wrr.cc:302-429 | in every run the bytes of i weighted with Q_j less those of j weighted with Q_i equal visits times drift, the whole packets of Q_i times Q_j less those of Q_j times Q_i, up to 3·Q_i·Q_j |
| WrrGap.VisitOften | NS2/diffserv/wrr/wrr.cc:302-429 | from every state with two backlogged queues, whatever the others hold, some run of enqueues and whole dequeues that keeps both backlogged completes n visits, for every n |
| WrrGap.BoundedExact | NS2/diffserv/wrr/wrr.cc:406-419 | for fixed packet sizes some constant bounds that weighted difference over all runs of enqueues and whole dequeues if and only if the drift is zero |
| WrrGap.GapGrows | NS2/diffserv/wrr/wrr.cc:406-419 | an instance: for every n a run of n rounds of whole dequeues, with equal quanta and both queues backlogged, ends 500·n bytes apart |
| Wrr.WrrPort.EnquePacket | NS2/diffserv/wrr/wrr.cc:234-289 | the array afterwards holds the machine's state after the arrival, flags invariant kept |
| Wrr.WrrPort.VisitCurrent | NS2/diffserv/wrr/wrr.cc:304-428 | one iteration sends exactly when the head packet fits, and is then the sending step, else the passing-on step |
| Wrr.WrrPort.DequePacket | NS2/diffserv/wrr/wrr.cc:291-435 | the loop observed for any number of iterations: on an empty port nothing happens; otherwise it returns with the packet and state of the first iteration that can send, or it is where that many passes lead; if it has not returned after queue_num + 1 iterations it never does, and that is so exactly when no head packet can be afforded |
| Wrr.WrrPort.SetQuantum | NS2/diffserv/wrr/wrr.cc:181-190 | rewriting a quantum at any time keeps the flags invariant |
| KernelDwrr.RotationSuffices | kernel modules/sch_dwrr/main.c:484-568 | in every well-formed state, if the head class lacks deficit then after one rotation the new head fits: a dequeue looks at no more than two classes |
| KernelDwrr.RotateKeepsCredits | kernel modules/sch_dwrr/main.c:554-565 | after a rotation every class of the priority holds at least its quantum, in deficit and in WRR mode |
| KernelDwrr.EwmaBetween | kernel modules/sch_dwrr/main.c:132-143 | the shifted average lies between the old value and the sample, also for negative ones |
| KernelDwrr.IdleDecays | kernel modules/sch_dwrr/main.c:146-165 | idle slots move a round time towards zero and never across it |
| KernelDwrr.EwmaPulls | kernel modules/sch_dwrr/main.c:132-137 | the distance to the sample shrinks to weight/1024 of itself, rounded down |
| KernelDwrr.DecayGeometric | kernel modules/sch_dwrr/main.c:146-165 | n idle slots scale a round time by at most (alpha/1024)^n |
| KernelDwrr.EmptyIsWf | kernel modules/sch_dwrr/main.c:716-772 | the initial state satisfies the invariant |
| KernelDwrrRuns.EnqueueKeepsWf | kernel modules/sch_dwrr/main.c:590-649 | an arrival under any configuration keeps lists, class bounds, credits and accounts, whether queued, dropped or refused |
| KernelDwrrRuns.DequeueKeepsWf | kernel modules/sch_dwrr/main.c:467-571 | so does a service attempt under any configuration |
| KernelDwrrRuns.DequeueMeetsContract | kernel modules/sch_dwrr/main.c:467-551 | a call sends the oldest packet of a class of the highest non-empty priority and charges the bucket for it, or moves no packet: because there is none, or until the bucket can pay |
| KernelDwrrRuns.ClassesAreFifo | kernel modules/sch_dwrr/main.c:597-639 | over any run under live reconfiguration, per class: what left followed by what is queued is what was queued followed by what was let in, in order |
| KernelDwrrRuns.RunKeepsAccounts | kernel modules/sch_dwrr/main.c:516-539 | over any run the byte counts of the port, of each priority and of each class equal the queued sizes, and each priority's list holds exactly the non-empty classes latched to it, once each |
| KernelDwrrFairness.RunKeepsBucket | kernel modules/sch_dwrr/main.c:534-536 | in every state of every run at a fixed rate 0 ≤ tokens ≤ bucket, given that it holds at the start |
| KernelDwrrFairness.DeparturesConform | kernel modules/sch_dwrr/main.c:499-536 | in every run from the initial state at a fixed rate, whatever else is reconfigured: 0 ≤ tokens ≤ bucket at every point, the packets sent from any point on cost at most 2·bucket plus the time they take, and all packets since the start at most the elapsed time |
| KernelDwrrFairness.ThrottledRetry | kernel modules/sch_dwrr/main.c:499-508 | a throttled call repeated at any time t sends the same head packet if t is not before the wake-up time and the packet costs at most bucket plus saved tokens, and otherwise moves nothing |
| KernelDwrrFairness.NobodyGetsAhead | kernel modules/sch_dwrr/main.c:484-568 | in deficit mode, while class i stays backlogged at a priority, class j's bytes at that priority lead its share by less than Q_i·Q_j + M(Q_i + Q_j), also when calls rotate and then send nothing |
| KernelDwrrFairness.PairwiseFairness | kernel modules/sch_dwrr/main.c:554-565 | two classes backlogged at one priority stay within that bound of each other both ways |
| KernelDwrrAdmission.AdmissionExact | kernel modules/sch_dwrr/main.c:573-608 | a packet is dropped if and only if the wire bytes queued, at the port or in its class, plus its own exceed the limit; otherwise the inner FIFO decides; a packet let in is appended to its class and nothing else moves |
| KernelDwrrAdmission.RunStaysWithin | kernel modules/sch_dwrr/main.c:573-587 | with fixed limits no run takes the port (shared) or a class (static) beyond its limit |
| KernelDwrrTurns.TurnAccount | kernel modules/sch_dwrr/main.c:485-568 | over any run in which a class stays listed, however configuration and mode change: bytes sent plus credit forfeited equal quanta granted plus deficit at the start less deficit at the end |
| KernelDwrrTurns.WrrKeepsWithinQuantum | kernel modules/sch_dwrr/main.c:561-565 | in WRR mode no listed class ever holds more than its recorded quantum |
| KernelDwrrTurns.WrrStartsAfresh | kernel modules/sch_dwrr/main.c:561-563 | in WRR mode a class whose turn ends holds the configured quantum, less what the same call sends of it, whatever it had left |
| KernelDwrrTurns.WrrTurnAtMostQuantum | kernel modules/sch_dwrr/main.c:553-565 | in WRR mode a class sends at most its quantum between two ends of its turn; over n ends it forfeits less than n maximum packets |
| KernelDwrrTurns.BusyPeriod | kernel modules/sch_dwrr/main.c:522-557 | the round samples of a busy period add up to its length, from the arrival that activates the class to the projected end of the packet that empties it |
| KernelDwrrTurns.RoundTimeTakesSamples | kernel modules/sch_dwrr/main.c:522-557 | a call feeds the sample of the turn it ends, then that of the class it empties, into the served priority's round time, and changes no other |
| KernelDwrrTurns.ArrivalAgesRoundTime | kernel modules/sch_dwrr/main.c:146-165 | an arrival leaves the round time of a busy priority alone; at an idle one, n whole idle slots scale it by at most (alpha/1024)^n, and more than ten of them, or a clock a slot behind, reset it to zero |
| KernelDwrrTurns.IdleSinceDeparture | kernel modules/sch_dwrr/main.c:516-518 | in every state of a run, an idle priority's last_idle_time is the time of its latest departure |
| KernelDwrrClass.DwrrSched.constructor | kernel modules/sch_dwrr/main.c:716-772 | the initialised scheduler is well-formed and empty, with no tokens |
| KernelDwrrClass.DwrrSched.PrioSchedule | kernel modules/sch_dwrr/main.c:454-465 | the loop finds the first priority with a non-empty list |
| KernelDwrrClass.DwrrSched.ResetRoundTime | kernel modules/sch_dwrr/main.c:146-165 | the loop leaves the decayed round time of this priority and no other change |
| KernelDwrrClass.DwrrSched.EnqueuePacket | kernel modules/sch_dwrr/main.c:590-649 | the fields afterwards are the machine's state after the arrival, with its verdict |
| KernelDwrrClass.DwrrSched.SendPacket | kernel modules/sch_dwrr/main.c:512-536 | the fields afterwards are the machine's state after sending the head packet, which is returned |
| KernelDwrrClass.DwrrSched.RotateClass | kernel modules/sch_dwrr/main.c:553-565 | the fields afterwards are the machine's state after the rotation |
| KernelDwrrClass.DwrrSched.DequeuePacket | kernel modules/sch_dwrr/main.c:467-571 | the loop terminates and state and outcome are those of a dequeue with at most one rotation |
| KernelMqEcn.LowWordOnly | kernel modules/sch_dwrr/main.c:214-217 | a class has no threshold, the division trapping, exactly when the low word of a positive round time is zero; otherwise its threshold is that of the low word |
| KernelMqEcn.LongerRoundExact | kernel modules/sch_dwrr/main.c:216-224 | a change of round time raises no threshold, over all quanta, rates and port thresholds, if and only if it does not lower the low word |
| KernelMqEcn.WrapRaisesThreshold | kernel modules/sch_dwrr/main.c:216-224 | for every quantum: if the rate is at most quantum·2^33 and exceeds both quantum·2^33/(2^32 − 1) and that times the port threshold, the threshold is zero at 2^32 − 1 ns and the whole port threshold at 2^32 + 1 ns |
| KernelMqEcn.ThresholdAtMost | kernel modules/sch_dwrr/main.c:221-224 | no threshold exceeds the port threshold, and a class entitled to the whole link gets exactly that |
| KernelMqEcn.MarksExact | kernel modules/sch_dwrr/main.c:214-227 | a class is marked if and only if it holds more than the port threshold, being entitled to the whole link, or a length that times the rate exceeds the port threshold times its estimated rate |
| KernelMqEcn.SharesBounded | kernel modules/sch_dwrr/main.c:209-224 | for every positive round time and any classes, the sum of thresholds times low word times rate is at most port threshold · 2^33 · sum of quanta |
| KernelMqEcn.SharesBalance | kernel modules/sch_dwrr/main.c:209-224 | if no class is entitled to the whole link, what is missing there is exactly what the two divisions of each class drop |
| KernelMqEcn.UncappedSharesExact | kernel modules/sch_dwrr/main.c:209-224 | then the thresholds sum to at most the port threshold if and only if the quanta's excess over the low word, weighted with the port threshold, is no more than the divisions drop |
| KernelMqEcn.CappedSharesExact | kernel modules/sch_dwrr/main.c:220-224 | with a class entitled to the whole link they do if and only if every other class's threshold is zero |
| KernelMqEcn.SharesByRoundTime | kernel modules/sch_dwrr/main.c:209-224 | they do from a low word of 2^33·ΣQ/rate on, and do not, no class being capped, if it is shorter by more than the rounding of two divisions a class |
| KernelMqEcn.SharesPortThreshold | kernel modules/sch_dwrr/main.c:209-224 | at most one class, or a low word of at least 2^33·ΣQ/rate: the thresholds sum to at most the port threshold |
| KernelMqEcn.PortOverMeansClassOver | kernel modules/sch_dwrr/main.c:209-227 | then classes that together hold more than the port threshold include one above its own |
| KernelMqEcn.OvershootBounded | kernel modules/sch_dwrr/main.c:216-224 | from the true round time 8·10^9·ΣQ/rate on, the sum exceeds the port threshold by at most 7.38 % |
| KernelMqEcn.TrueRoundTimeIsTooShort | kernel modules/sch_dwrr/main.c:216-224 | at the true round time it does exceed it, for any uncapped classes, as soon as (2^33 − 8·10^9)·ΣQ, weighted with the port threshold, outweighs the rounding |
| KernelMqEcn.TwoClassesOverrun | kernel modules/sch_dwrr/main.c:216-224 | an instance: two classes of 10000 bytes at 1 Gbit/s get 34358 of 32000 bytes |
| PrioDwrr.RotationSuffices | kernel modules/sch_prio_dwrr/main.c:257-388 | in every well-formed state, if the head queue cannot be scheduled even with its grant, the next one can after one rotation, and the invariant is kept throughout |
| PrioDwrrRuns.EnqueueKeepsWf | kernel modules/sch_prio_dwrr/main.c:407-586 | an arrival under any configuration keeps the active list, deficit bounds, quantum sum and byte counts right |
| PrioDwrrRuns.DequeueKeepsWf | kernel modules/sch_prio_dwrr/main.c:393-405 | so does a service attempt under any configuration, also one that grants or rotates and then sends nothing |
| PrioDwrrRuns.DequeueMeetsContract | kernel modules/sch_prio_dwrr/main.c:183-405 | the DWRR queues are served only while the high-priority queue is empty, each in arrival order; a refused call moves no packet; nothing is returned only when nothing is queued |
| PrioDwrrRuns.QuantumSumUnderReconfiguration | kernel modules/sch_prio_dwrr/main.c:374-379 | in every state reachable from an empty scheduler, with quanta rewritten between any two calls, quantum_sum is the sum of the quanta recorded by the non-empty DWRR queues (and fits 32 bits), the list holds exactly those queues once each, and all byte counts are the queued sizes |
| PrioDwrrRuns.StrictRetryExact | kernel modules/sch_prio_dwrr/main.c:285-290 | a refused DWRR packet is refused again at the instant the watchdog was set for, and leaves at time t if and only if t is later than that and it costs less than bucket plus saved tokens |
| PrioDwrrRuns.ThrottledRetry | kernel modules/sch_prio_dwrr/main.c:360-366 | repeating a throttled call at its wake-up time changes nothing on the DWRR band and arms the watchdog for the same instant, if and only if the packet costs at most bucket plus saved tokens; on the high-priority band it sends the packet under the same condition |
| PrioDwrrFairness.NobodyGetsAhead | kernel modules/sch_prio_dwrr/main.c:257-388 | in every run in which DWRR queue i stays backlogged, queue j's bytes lead its share by less than Q_i·Q_j + M(Q_i + Q_j): whatever the high-priority traffic does, however other quanta and the rate are rewritten, and across calls that grant or rotate and are then refused |
| PrioDwrrFairness.PairwiseFairness | kernel modules/sch_prio_dwrr/main.c:370-379 | two DWRR queues backlogged throughout a run stay within that bound of each other both ways |
| PrioDwrrAdmission.AdmissionExact | kernel modules/sch_prio_dwrr/main.c:455-470 | a packet is dropped if and only if the wire bytes queued, at the port or in its queue, plus its own exceed the limit; otherwise the inner FIFO decides; a packet let in is appended to its queue and nothing else moves |
| PrioDwrrAdmission.RunStaysWithin | kernel modules/sch_prio_dwrr/main.c:455-470 | with fixed limits no run takes the port (shared) or a queue (static) beyond its limit |
| PrioDwrrAdmission.RecordsConfigured | kernel modules/sch_prio_dwrr/main.c:370-379 | over any run, a rewritten quantum takes effect for a queue when it next joins the tail of the list, by becoming active or by the end of its turn, and not before |
| PrioDwrrClass.PrioDwrrSched.constructor | kernel modules/sch_prio_dwrr/main.c:661-728 | the initialised scheduler is empty and well-formed |
| PrioDwrrClass.PrioDwrrSched.EnqueuePacket | kernel modules/sch_prio_dwrr/main.c:407-586 | the fields afterwards are the machine's state after the arrival, with its verdict |
| PrioDwrrClass.PrioDwrrSched.PrioQueuesDequeue | kernel modules/sch_prio_dwrr/main.c:183-241 | the fields and outcome are those of a service attempt on the high-priority queue |
| PrioDwrrClass.PrioDwrrSched.SendOrThrottle | kernel modules/sch_prio_dwrr/main.c:283-368 | the fields and outcome are those of the attempt to send the DWRR head packet |
| PrioDwrrClass.PrioDwrrSched.DwrrQueuesDequeue | kernel modules/sch_prio_dwrr/main.c:244-391 | the loop terminates and state and outcome are those of a DWRR dequeue with at most one rotation |
| PrioDwrrClass.PrioDwrrSched.DequeuePacket | kernel modules/sch_prio_dwrr/main.c:393-405 | the fields and outcome are those of a whole dequeue |
| Wfq.SelectIsLeast | kernel modules/sch_wfq/main.c:402-414 | the scan with unbounded tags finds a live class of the priority with the least finish tag, or reports that there is none |
| Wfq.TagWindow | kernel modules/sch_wfq/main.c:444-458 | the intervals of the live classes cover everything up to the virtual time, so a live tag lies at most the spans of the other live classes of its priority below it |
| Wfq.TagSpread | kernel modules/sch_wfq/main.c:525-538 | a live tag lies at most the sum of floor(M/w_k) over the other live classes of its priority below the virtual time, hence below any other live tag |
| WfqRuns.EnqueueKeepsInv | kernel modules/sch_wfq/main.c:495-554 | an arrival keeps the window invariant: virtual time is the greatest live tag, the live intervals leave no gap, accounts right |
| WfqRuns.DequeueKeepsInv | kernel modules/sch_wfq/main.c:386-477 | so does a service attempt |
| WfqRuns.DequeueFinds | kernel modules/sch_wfq/main.c:393-416 | whenever a priority's byte count is positive the scan finds a class, the one with the least tag |
| WfqWrap.TimeBeforeExact | kernel modules/sch_wfq/main.c:113-123 | two tags less than 2^63 apart compare on the u64 circle exactly as unbounded |
| WfqWrap.CircleExact | kernel modules/sch_wfq/main.c:113-123 | for −2^64 < d < 2^64: the comparison of tags a and a + d is right for every a if and only if d is less than 2^63 either way |
| WfqWrap.StepRefines | kernel modules/sch_wfq/main.c:402-458 | under the invariant every call on u64 tags is the image of the call on unbounded tags, with the same outcome |
| WfqWrap.WrappedRefinesExact | kernel modules/sch_wfq/main.c:402-538 | over every run, across any number of wraps, the u64 scheduler gives the outcomes of the unbounded one, call by call |
| WfqWrap.ServesLeastTag | kernel modules/sch_wfq/main.c:388-416 | whatever the u64 scheduler sends has the least unbounded tag among the backlogged classes of the highest non-empty priority |
| WfqWrap.InitialState | kernel modules/sch_wfq/main.c:622-671 | the initial state satisfies the invariant for every choice of weights |
| WfqFairness.RunAdvancesTag | kernel modules/sch_wfq/main.c:446-457 | over a run in which a class stays backlogged its tag advances by exactly its normalised service |
| WfqFairness.RunStaysWithin | kernel modules/sch_wfq/main.c:525-538 | only classes live at a priority at the start, or let into it by some arrival of the run, are ever live there |
| WfqFairness.GainBetweenEnds | kernel modules/sch_wfq/main.c:402-458 | what one class backlogged throughout gains on another is at most the windows of the classes live at either end, each without one of the pair |
| WfqFairness.NormalisedFairness | kernel modules/sch_wfq/main.c:402-458 | two classes backlogged at one priority throughout a run receive normalised service within 2·W of each other, W the sum of floor(M/w_k) over the classes of that priority (each W even without one of the pair) |
| WfqActivation.ActivationTag | kernel modules/sch_wfq/main.c:523-537 | a class that becomes active is tagged at the virtual time it finds plus its packet's normalised length, which is at least 1, and takes the virtual time there |
| WfqActivation.TagFromActivation | kernel modules/sch_wfq/main.c:444-537 | from then on its tag is the virtual time it found plus everything charged since, the activating packet included |
| WfqActivation.FairFromActivation | kernel modules/sch_wfq/main.c:444-537 | counted from that arrival on, the newcomer gains on a class backlogged before it at most the window at the end, and that class on the newcomer at most the windows at either end |
| WfqActivation.NoOvertaking | kernel modules/sch_wfq/main.c:402-537 | if n is backlogged when an arrival activates k at the same priority, then in every run k sends nothing until n has sent the head packet it held, with unbounded and with u64 tags |
| WfqService.AdmissionExact | kernel modules/sch_wfq/main.c:479-516 | a packet is dropped if and only if the wire bytes queued, at the port or in its class, plus its own exceed the limit; otherwise the inner FIFO decides; a packet let in is appended to its class and nothing else moves |
| WfqService.RunStaysWithin | kernel modules/sch_wfq/main.c:479-493 | with fixed limits no run takes the port (shared) or a class (static) beyond its limit |
| WfqService.DequeueMeetsContract | kernel modules/sch_wfq/main.c:386-466 | a call sends the oldest packet of the class with the least tag of the highest non-empty priority and charges the bucket for it, or changes nothing: because there is none, or until the bucket can pay |
| WfqService.ThrottledRetry | kernel modules/sch_wfq/main.c:421-431 | a throttled call repeated at any time t sends that packet if and only if t is not before the wake-up time and the packet costs at most bucket plus saved tokens |
| WfqService.DeparturesConform | kernel modules/sch_wfq/main.c:421-464 | over every run at a fixed rate from a valid bucket: 0 ≤ tokens ≤ bucket, and the packets sent cost at most 2·bucket plus the time they take |
| WfqClass.WfqSched.PrioSchedule | kernel modules/sch_wfq/main.c:373-384 | the loop finds the first priority with queued bytes |
| WfqClass.WfqSched.EarliestQueue | kernel modules/sch_wfq/main.c:402-414 | the loop finds the class the machine's scan finds |
| WfqClass.WfqSched.EnqueuePacket | kernel modules/sch_wfq/main.c:495-554 | the fields afterwards are the machine's state, on u64 tags, after the arrival |
| WfqClass.WfqSched.SendPacket | kernel modules/sch_wfq/main.c:429-466 | the fields afterwards are the machine's state after sending and retagging |
| WfqClass.WfqSched.DequeuePacket | kernel modules/sch_wfq/main.c:386-477 | state and outcome are those of the machine's dequeue on u64 tags |
| Dctcp.TransitionIsTruthful | NS2/diffserv/tcp/tcp-full.cc:1693-1700 | when the CE state changes over unacknowledged bytes, an immediate ACK carries the previous state and covers exactly the bytes that have it |
| Dctcp.StepKeepsInv | NS2/diffserv/tcp/tcp-full.cc:1629-1715 | every event keeps: unacknowledged bytes share one CE value, the receiver's; ACKs in flight are gapless and echo the mark of every byte they cover; the sender's counters equal what was acknowledged |
| Dctcp.EchoConservation | NS2/diffserv/tcp/tcp-full.cc:2733-2761 | in every run of ECN-capable, in-order data over a FIFO ACK path, marked bytes summed over all epochs are exactly the CE-marked bytes among those acknowledged, totals are exactly the acknowledged bytes, 0 ≤ marked ≤ total, 0 ≤ alpha ≤ 1; with no ACK outstanding nothing is missing |
| Dctcp.NotEctExact | NS2/diffserv/tcp/tcp-full.cc:1630-1647 | after a data packet that is not ECN-capable the echo stays truthful if and only if recent_ce_ is clear and no stale transition meets pending bytes |
| Dctcp.NotEctMisleads | NS2/diffserv/tcp/tcp-full.cc:1630-1647 | from the start, a CE-marked packet followed by one that is not ECN-capable is acknowledged with a wrong echo, whatever the sizes and the ACK policy |
| Dctcp.AcksExact | NS2/diffserv/tcp/tcp-full.cc:1458-1467 | in-order data is acknowledged at once if and only if the pending bytes reach the limit, and before that, with the previous state, if and only if a CE transition meets pending bytes |
| Dctcp.UnackedBelowLimit | NS2/diffserv/tcp/tcp-full.cc:1693-1713 | in every state of every run the unacknowledged bytes stay below that limit |
| Dctcp.MaxseqIsHighestSent | NS2/diffserv/tcp/tcp-full.cc:2750 | the barrier an epoch takes is the highest sequence number sent in the run so far |
| Dctcp.OldAckCountsSegment | NS2/diffserv/tcp/tcp-full.cc:2739-2746 | an ACK of nothing new counts as one segment of size_ bytes |
| DctcpAlpha.AlphaIsWeightedAverage | NS2/diffserv/tcp/tcp-full.cc:2733-2761 | in every run from the start alpha is the sum of the CE-marked fractions of the epochs, counted on the bytes received, each weighing g less a factor 1 − g for every later epoch; an epoch closes exactly at the first ACK beyond what had been sent when the one before it closed |
| DctcpAlpha.AlphaConverges | NS2/diffserv/tcp/tcp-full.cc:2749-2757 | with marked fraction f in each of n epochs, alpha − f shrinks by exactly (1 − g)^n |
| Dctcp.ReceiverAgent.Output | NS2/diffserv/tcp/tcp-full.cc:882-912 | the ACK and the fields are those of the machine's acknowledgement |
| Dctcp.ReceiverAgent.Recv | NS2/diffserv/tcp/tcp-full.cc:1629-1715 | the ACKs sent and the fields are those of the machine's receive step |
| Dctcp.ReceiverAgent.DelackTimer | NS2/diffserv/tcp/tcp-full.cc:2809-2814 | the ACK sent, if any, and the fields are those of the machine's timeout |
| Dctcp.SenderAgent.UpdateDctcpAlpha | NS2/diffserv/tcp/tcp-full.cc:2733-2761 | the counters, epoch and alpha are those of the machine's update |
| Dctcp.SenderAgent.Recv | NS2/diffserv/tcp/tcp-full.cc:1600-1601 | counters are updated before the cumulative acknowledgement advances, as in the machine |

## Left out

- Ns2DwrrRuns.PairwiseFairness: quanta stay fixed for the whole run; MqEcn.SetQuantumExact says what rewriting one does to the state.
- KernelDwrrFairness.PairwiseFairness: deficit mode with the two quanta fixed; in WRR mode the deficit is reset on rotation, so unused credit is lost and no such bound is claimed (compare WrrGap.GapGrows).
- WfqWrap.WrappedRefinesExact: classes keep weights of 1..64 and packets of at most 1538 bytes; weights may change between packets.
- Dctcp.EchoConservation: one direction of data, in order and without loss; out-of-order data goes through the reassembly queue, which is not part of this model.
- Width of NS2 counters and of kernel byte counts: unbounded integers. The words whose wrap-around matters (CoDel's fields, the rate multiplier, WFQ tags) are modelled at their width.
- Floating-point rounding in NS2: thresholds, estimates and alpha are real numbers.
- Round time in NS2 and in sch_prio_dwrr, the quantum sum estimate of sch_prio_dwrr, and NS2's exponential idle decay: averages that only feed marking thresholds.
- Sign of round_time in sch_dwrr: a burst can make a sample negative, so it is not claimed to be non-negative.
- Per-queue, per-port, TCN, sojourn-time and drain-rate (PIE-like) marking: single comparisons against a configured or averaged value.
- PrioDwrrFairness.PairwiseFairness: the two quanta stay fixed during the run.
- WrrGap.BoundedExact: packets of one size in each of the two queues; for mixed sizes Wrr.BytesPerVisit and Wrr.PairwiseShare hold.
- KernelDwrrFairness.DeparturesConform: rate and bucket size fixed for the run; everything else may be rewritten.
- CoDelAccuracy.SpacingIsClose: an episode that resumes an earlier rate after one Newton step can start far from interval/√count, so only episodes that start from one are covered.
- WfqService.DeparturesConform: rate and bucket size fixed for the run; everything else may be rewritten.
- DctcpAlpha.AlphaIsWeightedAverage: data in order and without loss, as for Dctcp.EchoConservation.
- CoDel.Class: stands beside the scheduler classes rather than inside them; its input is the dequeue time, the packet's time stamp and the remaining backlog.
- Classification by DSCP, netlink and sysctl registration, socket buffers, timers, statistics, tracing and Tcl commands other than set-quantum.
- sch_prio, sch_prio_wfq and NS2's wfq, prio_wfq, prio_dwrr and priority queues: the modelled schedulers with one more strict-priority scan.
- The rest of TCP: connection states, retransmission, SACK, window growth and round-trip estimation.
- pFabric, the multipath classifier and the experiment scripts.
