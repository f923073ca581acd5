/** Whole runs of sch_dwrr: accounting, strict priority and FIFO order under arbitrary
    reconfiguration; token bucket conformance; fairness within a priority. */
module KernelDwrrRuns {
  import opened Accounting
  import opened ActiveOrder
  import opened KernelDwrr
  import opened KernelPackets
  import opened TokenBucket

  // ---------------------------------------------------------------- sending keeps the invariant

  lemma SendKeepsLists(s: Sched, c: Config, prio: nat, now: int)
    requires Lists(s) && HasHead(s, prio)
    ensures Lists(SendHead(s, c, prio, now))
  {
    ListHasHead(s, prio);
    DistinctTail(s.active[prio]);
    var h := Head(s, prio);
    var s' := SendHead(s, c, prio, now);
    forall p: nat, k: nat | p < MAX_PRIO
      ensures k in s'.active[p] <==> k < MAX_QUEUES && s'.cls[k].pkts != [] && s'.cls[k].prio == p
    {
      assert k in s'.active[p] <==> k in s.active[p] && (k != h || s'.cls[h].pkts != []);
    }
  }

  lemma SendKeepsAccounts(s: Sched, c: Config, prio: nat, now: int)
    requires Lists(s) && Classes(s) && Accounts(s) && HasHead(s, prio)
    ensures Accounts(SendHead(s, c, prio, now))
  {
    ListHasHead(s, prio);
    var k := Head(s, prio);
    assert ClassOk(s.cls[k]);
    var len: int := SkbSize(s.cls[k].pkts[0]);
    AccountsUpdate(s, SendHead(s, c, prio, now), k, -len);
  }

  lemma SendKeepsClasses(s: Sched, c: Config, prio: nat, now: int)
    requires Lists(s) && Classes(s) && HasHead(s, prio) && HeadFits(s, prio)
    ensures Classes(SendHead(s, c, prio, now))
  {
    var k := Head(s, prio);
    assert ClassOk(s.cls[k]);
    assert ClassOk(SendHead(s, c, prio, now).cls[k]);
    hide ClassOk;
  }

  lemma SendKeepsCredits(s: Sched, c: Config, prio: nat, now: int)
    requires Lists(s) && Credits(s) && HasHead(s, prio)
    ensures Lists(SendHead(s, c, prio, now)) && Credits(SendHead(s, c, prio, now))
  {
    SendKeepsLists(s, c, prio, now);
    var h := Head(s, prio);
    var s' := SendHead(s, c, prio, now);
    forall p, n | 0 <= p < MAX_PRIO && 0 < n < |s'.active[p]|
      ensures s'.active[p][n] in s'.active[p] && s'.cls[s'.active[p][n]].deficit >= s'.cls[s'.active[p][n]].quantum
    {
      var at := n + |s.active[p]| - |s'.active[p]|;
      var x := s.active[p][at];
      assert s'.active[p][n] == x;
      assert x in s.active[p] && h in s.active[prio];
      if p == prio {
        assert s.active[p][0] != s.active[p][at];
      }
      assert x != h;
    }
  }

  lemma ServeKeepsWf(s: Sched, c: Config, prio: nat, now: int)
    requires Wf(s) && HasHead(s, prio) && HeadFits(s, prio)
    ensures Wf(Serve(s, c, prio, now).0)
  {
    SendKeepsAccounts(s, c, prio, now);
    SendKeepsClasses(s, c, prio, now);
    SendKeepsCredits(s, c, prio, now);
  }

  /** Dequeue keeps the invariant whatever the configuration has become. */
  lemma DequeueKeepsWf(s: Sched, c: Config, now: int)
    requires Wf(s) && ConfigOk(c)
    ensures Wf(Dequeue(s, c, now).0)
  {
    var prio := PrioFrom(s.active, 0);
    if prio >= 0 {
      ListHasHead(s, prio);
      RotationSuffices(s, c, prio);
      hide Wf, HeadFits, RotateHead, Serve, HasHead;
      if HeadFits(s, prio) {
        ServeKeepsWf(s, c, prio, now);
      } else {
        ServeKeepsWf(RotateHead(s, c, prio), c, prio, now);
      }
    }
  }

  // ---------------------------------------------------------------- accepting keeps the invariant

  lemma AcceptKeepsLists(s: Sched, c: Config, k: nat, p: Packet, now: int)
    requires Lists(s) && ConfigOk(c) && k < MAX_QUEUES && s.cls[k].prio < MAX_PRIO
    ensures Lists(Accept(s, c, k, p, now))
  {
    var s' := Accept(s, c, k, p, now);
    forall q: nat, x: nat | q < MAX_PRIO
      ensures x in s'.active[q] <==> x < MAX_QUEUES && s'.cls[x].pkts != [] && s'.cls[x].prio == q
    {
      assert x in s'.active[q] <==> x in s.active[q] || (x == k && s.cls[k].pkts == [] && q == c.prio[k]);
      assert x in s.active[q] <==> x < MAX_QUEUES && s.cls[x].pkts != [] && s.cls[x].prio == q;
    }
    assert s.cls[k].pkts == [] ==> k !in s.active[c.prio[k]];
  }

  lemma AcceptKeepsClasses(s: Sched, c: Config, k: nat, p: Packet, now: int)
    requires Sized(s) && Classes(s) && ConfigOk(c) && k < MAX_QUEUES && SkbSize(p) <= MAX_PKT_BYTES
    ensures s.cls[k].prio < MAX_PRIO && Classes(Accept(s, c, k, p, now))
  {
    assert ClassOk(s.cls[k]);
    BytesAppend(s.cls[k].pkts, p);
    assert ClassOk(Accept(s, c, k, p, now).cls[k]);
    hide ClassOk;
  }

  lemma AcceptKeepsAccounts(s: Sched, c: Config, k: nat, p: Packet, now: int)
    requires Sized(s) && Classes(s) && Accounts(s) && ConfigOk(c) && k < MAX_QUEUES && s.cls[k].prio < MAX_PRIO
    ensures Accounts(Accept(s, c, k, p, now))
  {
    assert ClassOk(s.cls[k]);
    AccountsUpdate(s, Accept(s, c, k, p, now), k, SkbSize(p));
  }

  lemma AcceptKeepsCredits(s: Sched, c: Config, k: nat, p: Packet, now: int)
    requires Lists(s) && Credits(s) && ConfigOk(c) && k < MAX_QUEUES && s.cls[k].prio < MAX_PRIO
    ensures Lists(Accept(s, c, k, p, now)) && Credits(Accept(s, c, k, p, now))
  {
    AcceptKeepsLists(s, c, k, p, now);
    var s' := Accept(s, c, k, p, now);
    forall q, n | 0 <= q < MAX_PRIO && 0 < n < |s'.active[q]|
      ensures s'.active[q][n] in s'.active[q] && s'.cls[s'.active[q][n]].deficit >= s'.cls[s'.active[q][n]].quantum
    {
      if n < |s.active[q]| {
        assert s'.active[q][n] == s.active[q][n] && s.active[q][n] in s.active[q];
      }
    }
  }

  lemma ResetKeepsWf(s: Sched, c: Config, prio: nat, now: int)
    requires Wf(s) && prio < MAX_PRIO
    ensures Wf(ResetRound(s, c, prio, now))
  {
    hide ClassOk, Balanced, DecayRound, IdleRounds;
  }

  lemma AcceptKeepsWf(s: Sched, c: Config, k: nat, p: Packet, now: int)
    requires Wf(s) && ConfigOk(c) && k < MAX_QUEUES && SkbSize(p) <= MAX_PKT_BYTES
    ensures s.cls[k].prio < MAX_PRIO && Wf(Accept(s, c, k, p, now))
  {
    AcceptKeepsClasses(s, c, k, p, now);
    AcceptKeepsAccounts(s, c, k, p, now);
    AcceptKeepsCredits(s, c, k, p, now);
    hide Classes, Accounts, Credits, Accept;
  }

  lemma EnqueueKeepsWf(s: Sched, c: Config, k: nat, p: Packet, now: int, childAccepts: bool)
    requires Wf(s) && ConfigOk(c) && k < MAX_QUEUES && SkbSize(p) <= MAX_PKT_BYTES
    ensures s.cls[k].prio < MAX_PRIO && Wf(Enqueue(s, c, k, p, now, childAccepts).0)
  {
    assert ClassOk(s.cls[k]);
    ResetKeepsWf(s, c, c.prio[k], now);
    AcceptKeepsWf(s, c, k, p, now);
    AcceptKeepsWf(ResetRound(s, c, c.prio[k], now), c, k, p, now);
    hide Wf, Accept, ResetRound, Overfill;
  }

  // ---------------------------------------------------------------- what one call does

  /** Packets and latched priorities are untouched. */
  ghost predicate SamePackets(s: Sched, s': Sched)
  {
    |s'.cls| == |s.cls| && forall k :: 0 <= k < |s.cls| ==> s'.cls[k].pkts == s.cls[k].pkts && s'.cls[k].prio == s.cls[k].prio
  }

  ghost predicate PoppedFrom(s: Sched, s': Sched, k: nat)
  {
    && k < |s.cls| == |s'.cls| && s.cls[k].pkts != []
    && forall n :: 0 <= n < |s.cls| ==>
         s'.cls[n].pkts == (if n == k then s.cls[n].pkts[1..] else s.cls[n].pkts) && s'.cls[n].prio == s.cls[n].prio
  }

  /** A call sends the oldest packet of a class of the highest non-empty priority, or leaves every
      packet where it is: because there is none, or until the bucket can pay for one. */
  ghost predicate DequeueContract(s: Sched, s': Sched, o: Outcome, c: Config, now: int)
  {
    var bucketNs := L2tNs(c.rate, c.bucketBytes);
    match o
    case Sent(k, p, prio) =>
      && PoppedFrom(s, s', k) && p == s.cls[k].pkts[0] && s.cls[k].prio == prio
      && (forall n :: 0 <= n < |s.cls| && s.cls[n].pkts != [] ==> prio <= s.cls[n].prio)
      && Result(s.bucket, bucketNs, L2tNs(c.rate, SkbSize(p)), now) >= 0
      && s'.bucket == Depart(s.bucket, bucketNs, L2tNs(c.rate, SkbSize(p)), now)
    case Throttled(wakeup) => SamePackets(s, s') && s'.bucket == s.bucket && now < wakeup
    case Nothing => s' == s && forall n :: 0 <= n < |s.cls| ==> s.cls[n].pkts == []
  }

  lemma RotateFrame(s: Sched, c: Config, prio: nat)
    requires HasHead(s, prio) && ConfigOk(c)
    ensures SamePackets(s, RotateHead(s, c, prio)) && RotateHead(s, c, prio).bucket == s.bucket
  {}

  lemma NothingAbove(s: Sched, prio: int)
    requires Wf(s) && prio == PrioFrom(s.active, 0)
    ensures prio >= 0 ==> forall n :: 0 <= n < |s.cls| && s.cls[n].pkts != [] ==> prio <= s.cls[n].prio
    ensures prio < 0 ==> forall n :: 0 <= n < |s.cls| ==> s.cls[n].pkts == []
  {
    forall n | 0 <= n < |s.cls| && s.cls[n].pkts != []
      ensures prio >= 0 && prio <= s.cls[n].prio
    {
      assert ClassOk(s.cls[n]);
      assert n in s.active[s.cls[n].prio];
    }
  }

  lemma ServeContract(s: Sched, c: Config, prio: nat, now: int)
    requires Wf(s) && HasHead(s, prio)
    requires forall n :: 0 <= n < |s.cls| && s.cls[n].pkts != [] ==> prio <= s.cls[n].prio
    ensures DequeueContract(s, Serve(s, c, prio, now).0, Serve(s, c, prio, now).1, c, now)
  {
    ListHasHead(s, prio);
    hide L2tNs, Result, Depart;
  }

  lemma ContractThroughRotation(s: Sched, s1: Sched, s': Sched, o: Outcome, c: Config, now: int)
    requires SamePackets(s, s1) && s1.bucket == s.bucket && DequeueContract(s1, s', o, c, now) && !o.Nothing?
    ensures DequeueContract(s, s', o, c, now)
  {
    hide L2tNs, Result, Depart;
  }

  lemma DequeueMeetsContract(s: Sched, c: Config, now: int)
    requires Wf(s) && ConfigOk(c)
    ensures DequeueContract(s, Dequeue(s, c, now).0, Dequeue(s, c, now).1, c, now)
  {
    var prio := PrioFrom(s.active, 0);
    NothingAbove(s, prio);
    if prio >= 0 {
      ListHasHead(s, prio);
      RotationSuffices(s, c, prio);
      if HeadFits(s, prio) {
        ServeContract(s, c, prio, now);
      } else {
        var s1 := RotateHead(s, c, prio);
        RotateFrame(s, c, prio);
        ServeContract(s1, c, prio, now);
        hide Wf, RotateHead, DequeueContract;
        ContractThroughRotation(s, s1, Serve(s1, c, prio, now).0, Serve(s1, c, prio, now).1, c, now);
      }
    }
  }

  // ---------------------------------------------------------------- runs

  datatype Event =
    | Arrive(c: Config, now: int, queue: nat, pkt: Packet, childAccepts: bool)
    | Tick(c: Config, now: int)

  ghost predicate EventOk(e: Event)
  {
    ConfigOk(e.c) && (e.Arrive? ==> e.queue < MAX_QUEUES && SkbSize(e.pkt) <= MAX_PKT_BYTES)
  }

  ghost predicate EventsOk(es: seq<Event>)
  {
    forall n :: 0 <= n < |es| ==> EventOk(es[n])
  }

  lemma ClassPrioOk(s: Sched, k: nat)
    requires Wf(s) && k < MAX_QUEUES
    ensures s.cls[k].prio < MAX_PRIO
  {
    assert ClassOk(s.cls[k]);
  }

  ghost function Arrival(s: Sched, e: Event): (Sched, Verdict)
    requires Wf(s) && EventOk(e) && e.Arrive?
  {
    ClassPrioOk(s, e.queue);
    Enqueue(s, e.c, e.queue, e.pkt, e.now, e.childAccepts)
  }

  ghost function Step(s: Sched, e: Event): Sched
    requires Wf(s) && EventOk(e)
  {
    if e.Arrive? then Arrival(s, e).0 else Dequeue(s, e.c, e.now).0
  }

  ghost function Output(s: Sched, e: Event): Outcome
    requires Wf(s) && EventOk(e)
  {
    if e.Arrive? then Nothing else Dequeue(s, e.c, e.now).1
  }

  /** The packet class k took in, as a sequence of at most one. */
  ghost function TakenIn(s: Sched, e: Event, k: nat): seq<Packet>
    requires Wf(s) && EventOk(e)
  {
    if e.Arrive? && e.queue == k && Arrival(s, e).1 == Queued then [e.pkt] else []
  }

  ghost function SentOut(o: Outcome, k: nat): seq<Packet>
  {
    if o.Sent? && o.queue == k then [o.pkt] else []
  }

  lemma StepKeepsWf(s: Sched, e: Event)
    requires Wf(s) && EventOk(e)
    ensures Wf(Step(s, e))
  {
    if e.Arrive? {
      EnqueueKeepsWf(s, e.c, e.queue, e.pkt, e.now, e.childAccepts);
    } else {
      DequeueKeepsWf(s, e.c, e.now);
    }
  }

  ghost function Run(s: Sched, es: seq<Event>): Sched
    requires Wf(s) && EventsOk(es)
    ensures Wf(Run(s, es))
    decreases |es|
  {
    if es == [] then s else (StepKeepsWf(s, es[0]); Run(Step(s, es[0]), es[1..]))
  }

  ghost function AllTakenIn(s: Sched, es: seq<Event>, k: nat): seq<Packet>
    requires Wf(s) && EventsOk(es)
    decreases |es|
  {
    if es == [] then [] else (StepKeepsWf(s, es[0]); TakenIn(s, es[0], k) + AllTakenIn(Step(s, es[0]), es[1..], k))
  }

  ghost function AllSentOut(s: Sched, es: seq<Event>, k: nat): seq<Packet>
    requires Wf(s) && EventsOk(es)
    decreases |es|
  {
    if es == [] then []
    else (StepKeepsWf(s, es[0]); SentOut(Output(s, es[0]), k) + AllSentOut(Step(s, es[0]), es[1..], k))
  }

  lemma ArrivalIsFifo(s: Sched, e: Event, k: nat)
    requires Wf(s) && EventOk(e) && e.Arrive? && k < MAX_QUEUES
    ensures |Step(s, e).cls| == MAX_QUEUES
    ensures Step(s, e).cls[k].pkts == s.cls[k].pkts + TakenIn(s, e, k)
  {
    ClassPrioOk(s, e.queue);
    hide Wf, Overfill, DecayRound, IdleRounds, SkbSize;
  }

  lemma TickIsFifo(s: Sched, e: Event, k: nat)
    requires Wf(s) && EventOk(e) && e.Tick? && k < MAX_QUEUES
    ensures |Step(s, e).cls| == MAX_QUEUES
    ensures SentOut(Output(s, e), k) + Step(s, e).cls[k].pkts == s.cls[k].pkts
  {
    DequeueMeetsContract(s, e.c, e.now);
    assert Sized(s);
    hide Wf, Dequeue, L2tNs, Result, Depart;
    var o := Output(s, e);
    if o.Sent? && o.queue == k {
      assert s.cls[k].pkts == [o.pkt] + s.cls[k].pkts[1..];
    }
  }

  lemma StepIsFifo(s: Sched, e: Event, k: nat)
    requires Wf(s) && EventOk(e) && k < MAX_QUEUES
    ensures |Step(s, e).cls| == MAX_QUEUES
    ensures SentOut(Output(s, e), k) + Step(s, e).cls[k].pkts == s.cls[k].pkts + TakenIn(s, e, k)
  {
    if e.Arrive? {
      ArrivalIsFifo(s, e, k);
    } else {
      TickIsFifo(s, e, k);
    }
    hide Wf, Arrival, Dequeue, EventOk;
  }

  /** Conservation and FIFO order per class over any run, however the configuration changes: what left
      and what is still queued, in order, is what was there and what was let in, in order. */
  lemma {:induction false} ClassesAreFifo(s: Sched, es: seq<Event>, k: nat)
    requires Wf(s) && EventsOk(es) && k < MAX_QUEUES
    ensures AllSentOut(s, es, k) + Run(s, es).cls[k].pkts == s.cls[k].pkts + AllTakenIn(s, es, k)
    decreases |es|
  {
    if es != [] {
      var e := es[0];
      StepKeepsWf(s, e);
      var s1 := Step(s, e);
      StepIsFifo(s, e, k);
      ClassesAreFifo(s1, es[1..], k);
      hide Wf, Step, Output, TakenIn, SentOut;
      Splice(SentOut(Output(s, e), k), AllSentOut(s1, es[1..], k), Run(s, es).cls[k].pkts,
             s1.cls[k].pkts, s.cls[k].pkts, TakenIn(s, e, k), AllTakenIn(s1, es[1..], k));
    }
  }

  lemma Splice(out1: seq<Packet>, out2: seq<Packet>, q2: seq<Packet>, q1: seq<Packet>, q0: seq<Packet>,
               in1: seq<Packet>, in2: seq<Packet>)
    requires out1 + q1 == q0 + in1 && out2 + q2 == q1 + in2
    ensures (out1 + out2) + q2 == q0 + (in1 + in2)
  {
    assert (out1 + out2) + q2 == out1 + (out2 + q2) == (out1 + q1) + in2;
  }

  /** Accounting over any run: the port's, each priority's and each class's byte counts are the sizes
      of what is queued, and each list holds exactly the non-empty classes latched to it, once each. */
  lemma RunKeepsAccounts(s: Sched, es: seq<Event>)
    requires Wf(s) && EventsOk(es)
    ensures var s' := Run(s, es);
            && Lists(s') && Accounts(s')
            && forall k :: 0 <= k < MAX_QUEUES ==> s'.cls[k].lenBytes == Bytes(s'.cls[k].pkts)
  {
    var s' := Run(s, es);
    assert forall k :: 0 <= k < MAX_QUEUES ==> ClassOk(s'.cls[k]);
  }
}
