/** Which packets sch_dwrr lets in, and that its buffers never overflow. */
module KernelDwrrAdmission {
  import opened Accounting
  import opened ActiveOrder
  import opened Admission
  import opened KernelDwrr
  import opened KernelDwrrRuns
  import opened KernelPackets
  import opened TokenBucket

  ghost function Fifos(s: Sched): seq<seq<Packet>>
  {
    seq(|s.cls|, k requires 0 <= k < |s.cls| => s.cls[k].pkts)
  }

  lemma SumLenIsQueued(s: Sched)
    requires Wf(s)
    ensures s.sumLen == QueuedBytes(Fifos(s)) && |Fifos(s)| == MAX_QUEUES
    ensures forall k :: 0 <= k < MAX_QUEUES ==> s.cls[k].lenBytes == Bytes(Fifos(s)[k])
  {
    forall k | 0 <= k < MAX_QUEUES ensures s.cls[k].lenBytes == Bytes(Fifos(s)[k]) {
      assert ClassOk(s.cls[k]);
    }
    QueuedIsSum(Fifos(s), AllBytes(Loads(s.cls)));
  }

  lemma OverfillExact(s: Sched, c: Config, prio: nat, now: int, k: nat, size: nat)
    requires Wf(s) && ConfigOk(c) && k < MAX_QUEUES && prio < MAX_PRIO
    ensures |Fifos(s)| == MAX_QUEUES
    ensures Overfill(s, c, k, size) <==> TooMuch(c.buffer, Fifos(s), k, size)
    ensures Overfill(ResetRound(s, c, prio, now), c, k, size) <==> TooMuch(c.buffer, Fifos(s), k, size)
  {
    SumLenIsQueued(s);
    hide Wf, DecayRound, IdleRounds, QueuedBytes;
  }

  /** A packet is dropped exactly when it would not fit with the packets queued; otherwise the inner FIFO
      decides, and a packet let in is appended to its class and nothing else moves. */
  lemma AdmissionExact(s: Sched, c: Config, k: nat, p: Packet, now: int, childAccepts: bool)
    requires Wf(s) && ConfigOk(c) && k < MAX_QUEUES
    ensures |Fifos(s)| == MAX_QUEUES && s.cls[k].prio < MAX_PRIO
    ensures var (s', v) := Enqueue(s, c, k, p, now, childAccepts);
            && v == (if TooMuch(c.buffer, Fifos(s), k, SkbSize(p)) then Dropped
                     else if childAccepts then Queued else Refused)
            && Fifos(s') == (if v == Queued then Fifos(s)[k := Fifos(s)[k] + [p]] else Fifos(s))
  {
    ClassPrioOk(s, k);
    OverfillExact(s, c, c.prio[k], now, k, SkbSize(p));
    hide Wf, Overfill, DecayRound, IdleRounds, SkbSize, TooMuch;
  }

  lemma TickPops(s: Sched, c: Config, now: int)
    requires Wf(s) && ConfigOk(c)
    ensures var (s', o) := Dequeue(s, c, now);
            if o.Sent? then o.queue < |Fifos(s)| && Fifos(s)[o.queue] != [] && Fifos(s') == Fifos(s)[o.queue := Fifos(s)[o.queue][1..]]
            else Fifos(s') == Fifos(s)
  {
    DequeueMeetsContract(s, c, now);
    hide Wf, Dequeue, L2tNs, Result, Depart;
  }

  ghost predicate FixedBuffer(es: seq<Event>, b: BufferMode)
  {
    forall n :: 0 <= n < |es| ==> es[n].c.buffer == b
  }

  lemma StepStaysWithin(s: Sched, e: Event, b: BufferMode)
    requires Wf(s) && EventOk(e) && e.c.buffer == b && |Fifos(s)| == MAX_QUEUES && Within(b, Fifos(s))
    ensures |Fifos(Step(s, e))| == MAX_QUEUES && Within(b, Fifos(Step(s, e)))
  {
    if e.Arrive? {
      AdmissionExact(s, e.c, e.queue, e.pkt, e.now, e.childAccepts);
      hide Wf, Enqueue, Within, TooMuch, SkbSize;
      if Arrival(s, e).1 == Queued {
        AppendKeepsWithin(b, Fifos(s), e.queue, e.pkt);
      }
    } else {
      TickPops(s, e.c, e.now);
      hide Wf, Dequeue, Within;
      if Output(s, e).Sent? {
        PopKeepsWithin(b, Fifos(s), Output(s, e).queue);
      }
    }
  }

  /** While the limits stay the same, no run takes the port (shared) or a class (static) beyond its limit. */
  lemma {:induction false} RunStaysWithin(s: Sched, es: seq<Event>, b: BufferMode)
    requires Wf(s) && EventsOk(es) && FixedBuffer(es, b) && (b.StaticBuffer? ==> |b.limits| == MAX_QUEUES)
    requires |Fifos(s)| == MAX_QUEUES && Within(b, Fifos(s))
    ensures |Fifos(Run(s, es))| == MAX_QUEUES && Within(b, Fifos(Run(s, es)))
    decreases |es|
  {
    if es != [] {
      assert EventOk(es[0]) && EventsOk(es[1..]) && FixedBuffer(es[1..], b) && es[0].c.buffer == b;
      StepKeepsWf(s, es[0]);
      hide Wf, EventOk, EventsOk, FixedBuffer, Step, Fifos, Within;
      StepStaysWithin(s, es[0], b);
      assert Run(s, es) == Run(Step(s, es[0]), es[1..]);
      RunStaysWithin(Step(s, es[0]), es[1..], b);
    }
  }
}
