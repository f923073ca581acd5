/** What one call of sch_wfq does to the packets and the token bucket, and what follows over runs. */
module WfqService {
  import opened Accounting
  import opened ActiveOrder
  import opened Admission
  import opened KernelPackets
  import opened TokenBucket
  import opened Wfq
  import opened WfqRuns
  import opened WfqWrap

  ghost function Fifos(s: Sched): seq<seq<Packet>>
  {
    seq(|s.cls|, k requires 0 <= k < |s.cls| => s.cls[k].pkts)
  }

  // ---------------------------------------------------------------- admission

  lemma SumLenIsQueued(s: Sched)
    requires Accounts(s)
    ensures s.sumLen == QueuedBytes(Fifos(s)) && |Fifos(s)| == MAX_QUEUES
    ensures forall k :: 0 <= k < MAX_QUEUES ==> s.cls[k].lenBytes == Bytes(Fifos(s)[k])
  {
    forall k | 0 <= k < MAX_QUEUES ensures s.cls[k].lenBytes == Bytes(Fifos(s)[k]) {
      assert ClassOk(s.cls[k]);
    }
    QueuedIsSum(Fifos(s), AllBytes(Loads(s.cls)));
  }

  /** A packet is dropped exactly when it would not fit with the packets queued; otherwise the inner FIFO
      decides, and a packet let in is appended to its class and nothing else moves. */
  lemma AdmissionExact(m: Tags, s: Sched, c: Config, k: nat, p: Packet, childAccepts: bool)
    requires Accounts(s) && ConfigOk(c) && k < MAX_QUEUES
    ensures |Fifos(s)| == MAX_QUEUES && s.cls[k].prio < MAX_PRIO
    ensures var (s', v) := Enqueue(m, s, c, k, p, childAccepts);
            && v == (if TooMuch(c.buffer, Fifos(s), k, SkbSize(p)) then Dropped
                     else if childAccepts then Queued else Refused)
            && Fifos(s') == (if v == Queued then Fifos(s)[k := Fifos(s)[k] + [p]] else Fifos(s))
            && s'.bucket == s.bucket
  {
    assert ClassOk(s.cls[k]);
    SumLenIsQueued(s);
    hide Balanced, ClassOk, SkbSize, QueuedBytes;
  }

  // ---------------------------------------------------------------- service

  /** A call sends the oldest packet of the class with the least tag of the highest non-empty priority, or
      changes nothing: because there is none, or until the bucket can pay for it. */
  ghost predicate DequeueContract(s: Sched, s': Sched, o: Outcome, c: Config, now: int)
    requires Sized(s)
  {
    var bucketNs := L2tNs(c.rate, c.bucketBytes);
    match o
    case Sent(k, p, prio) =>
      && Least(s, prio, k) && s.cls[k].pkts != [] && p == s.cls[k].pkts[0]
      && Fifos(s') == Fifos(s)[k := s.cls[k].pkts[1..]]
      && Result(s.bucket, bucketNs, L2tNs(c.rate, SkbSize(p)), now) >= 0
      && s'.bucket == Depart(s.bucket, bucketNs, L2tNs(c.rate, SkbSize(p)), now)
    case Throttled(wakeup) => s' == s && now < wakeup
    case Nothing => s' == s && forall n :: 0 <= n < |s.cls| ==> s.cls[n].pkts == []
  }

  lemma SendEffect(m: Tags, s: Sched, c: Config, prio: nat, k: nat, now: int)
    requires Sized(s) && ConfigOk(c) && prio < MAX_PRIO && k < MAX_QUEUES && s.cls[k].pkts != []
    ensures var s' := SendFrom(m, s, c, prio, k, now);
            && Fifos(s') == Fifos(s)[k := s.cls[k].pkts[1..]]
            && s'.bucket == Depart(s.bucket, L2tNs(c.rate, c.bucketBytes), L2tNs(c.rate, SkbSize(s.cls[k].pkts[0])), now)
  {
    hide NextFin, NextVtime, L2tNs, Depart, SkbSize;
  }

  lemma DequeueMeetsContract(s: Sched, c: Config, w: seq<nat>, now: int)
    requires Inv(s, w) && ConfigOk(c)
    ensures DequeueContract(s, Dequeue(Exact, s, c, now).0, Dequeue(Exact, s, c, now).1, c, now)
  {
    DequeueFinds(s, w);
    var prio := PrioFrom(s.prioLen, 0);
    if prio >= 0 {
      SendEffect(Exact, s, c, prio, Select(Exact, s.cls, prio, 0, -1), now);
    }
    hide Inv, Fifos, Select, SendFrom, Least, L2tNs, SkbSize, Depart, PrioFrom;
  }

  /** A throttled call, repeated at any instant t, sends the head packet of that class if and only if t is
      not before the wake-up time and the packet costs at most the bucket plus the saved tokens. */
  lemma ThrottledRetry(s: Sched, c: Config, w: seq<nat>, now: int, t: int)
    requires Inv(s, w) && ConfigOk(c) && s.bucket.timeNs <= now && Dequeue(Exact, s, c, now).1.Throttled?
    ensures var prio := PrioFrom(s.prioLen, 0);
            var k := Select(Exact, s.cls, prio, 0, -1);
            && Least(s, prio, k) && s.cls[k].pkts != []
            && var fits := L2tNs(c.rate, SkbSize(s.cls[k].pkts[0])) <= L2tNs(c.rate, c.bucketBytes) + s.bucket.tokens;
               (Dequeue(Exact, s, c, t).1 == Sent(k, s.cls[k].pkts[0], prio)
                <==> t >= Dequeue(Exact, s, c, now).1.wakeup && fits)
  {
    DequeueFinds(s, w);
    var prio := PrioFrom(s.prioLen, 0);
    var k := Select(Exact, s.cls, prio, 0, -1);
    hide Inv, Select, SendFrom, Least, L2tNs, SkbSize, PrioFrom;
    RetryExact(s.bucket, L2tNs(c.rate, c.bucketBytes), L2tNs(c.rate, SkbSize(s.cls[k].pkts[0])), now, t);
  }

  // ---------------------------------------------------------------- runs

  ghost predicate FixedBuffer(es: seq<Event>, b: BufferMode)
  {
    forall n :: 0 <= n < |es| ==> es[n].c.buffer == b
  }

  lemma StepStaysWithin(s: Sched, e: Event, w: seq<nat>, b: BufferMode)
    requires Inv(s, w) && EventOk(e, w) && Shaped(s) && e.c.buffer == b && |Fifos(s)| == MAX_QUEUES && Within(b, Fifos(s))
    ensures |Fifos(Step(Exact, s, e).0)| == MAX_QUEUES && Within(b, Fifos(Step(Exact, s, e).0))
  {
    if e.Arrive? {
      AdmissionExact(Exact, s, e.c, e.queue, e.pkt, e.childAccepts);
      hide Inv, Enqueue, Within, TooMuch, SkbSize;
      if Enqueue(Exact, s, e.c, e.queue, e.pkt, e.childAccepts).1 == Queued {
        AppendKeepsWithin(b, Fifos(s), e.queue, e.pkt);
      }
    } else {
      DequeueMeetsContract(s, e.c, w, e.now);
      hide Inv, Dequeue, Within, L2tNs, Result, Depart, Least;
      var o := Step(Exact, s, e).1;
      if o.Sent? {
        PopKeepsWithin(b, Fifos(s), o.queue);
      }
    }
  }

  /** While the limits stay the same, no run takes the port (shared) or a class (static) beyond its limit. */
  lemma {:induction false} RunStaysWithin(s: Sched, es: seq<Event>, w: seq<nat>, b: BufferMode)
    requires Inv(s, w) && EventsOk(es, w) && FixedBuffer(es, b) && (b.StaticBuffer? ==> |b.limits| == MAX_QUEUES)
    requires |Fifos(s)| == MAX_QUEUES && Within(b, Fifos(s))
    ensures Shaped(s) && Runnable(es)
    ensures var s' := Run(Exact, s, es).0; |Fifos(s')| == MAX_QUEUES && Within(b, Fifos(s'))
    decreases |es|
  {
    WrappedRefinesExact(s, es, w);
    if es != [] {
      assert EventOk(es[0], w) && EventsOk(es[1..], w) && FixedBuffer(es[1..], b) && es[0].c.buffer == b;
      StepRefines(s, es[0], w);
      hide Inv, EventOk, EventsOk, FixedBuffer, Step, Fifos, Within, WrapSched;
      StepStaysWithin(s, es[0], w, b);
      RunStaysWithin(Step(Exact, s, es[0]).0, es[1..], w, b);
    }
  }

  ghost predicate Clocked(es: seq<Event>, from: int)
    decreases |es|
  {
    es == [] || (if es[0].Tick? then from <= es[0].now && Clocked(es[1..], es[0].now) else Clocked(es[1..], from))
  }

  ghost predicate FixedRate(es: seq<Event>, rate: RateCfg, bucketBytes: nat)
  {
    forall n :: 0 <= n < |es| ==> es[n].c.rate == rate && es[n].c.bucketBytes == bucketBytes
  }

  /** The departures of a run as the bucket sees them. */
  ghost function Departures(es: seq<Event>, os: seq<Outcome>): seq<Departure>
    requires |es| == |os| && forall n :: 0 <= n < |os| ==> os[n].Sent? ==> es[n].Tick?
  {
    if es == [] then []
    else
      var rest := Departures(es[1..], os[1..]);
      if os[0].Sent? then [Departure(es[0].now, L2tNs(es[0].c.rate, SkbSize(os[0].pkt)))] + rest else rest
  }

  lemma {:induction false} OneOutcomeEach(m: Tags, s: Sched, es: seq<Event>)
    requires Shaped(s) && Runnable(es)
    ensures var os := Run(m, s, es).1;
            |os| == |es| && forall n :: 0 <= n < |os| ==> os[n].Sent? ==> es[n].Tick?
    decreases |es|
  {
    if es != [] {
      OneOutcomeEach(m, Step(m, s, es[0]).0, es[1..]);
      var os := Run(m, s, es).1;
      var rest := Run(m, Step(m, s, es[0]).0, es[1..]).1;
      assert os == [Step(m, s, es[0]).1] + rest;
      assert es[0].Arrive? ==> !Step(m, s, es[0]).1.Sent?;
      hide Step, Run;
      forall n | 0 <= n < |os| ensures os[n].Sent? ==> es[n].Tick? {
        if n > 0 {
          assert os[n] == rest[n - 1] && es[n] == es[1..][n - 1];
        }
      }
    }
  }

  lemma StepBucket(s: Sched, e: Event, w: seq<nat>)
    requires Inv(s, w) && EventOk(e, w) && Shaped(s)
    ensures var (s', o) := Step(Exact, s, e);
            var bucketNs := L2tNs(e.c.rate, e.c.bucketBytes);
            && (o.Sent? ==> e.Tick? && Result(s.bucket, bucketNs, L2tNs(e.c.rate, SkbSize(o.pkt)), e.now) >= 0
                            && s'.bucket == Depart(s.bucket, bucketNs, L2tNs(e.c.rate, SkbSize(o.pkt)), e.now))
            && (!o.Sent? ==> s'.bucket == s.bucket)
  {
    if e.Arrive? {
      AdmissionExact(Exact, s, e.c, e.queue, e.pkt, e.childAccepts);
      hide Inv, Enqueue;
    } else {
      DequeueMeetsContract(s, e.c, w, e.now);
      hide Inv, Dequeue, L2tNs, Result, Depart, Least;
    }
  }

  lemma {:induction false} RunIsAccepted(s: Sched, es: seq<Event>, w: seq<nat>, rate: RateCfg, bucketBytes: nat, from: int)
    requires Inv(s, w) && EventsOk(es, w) && FixedRate(es, rate, bucketBytes)
    requires s.bucket.timeNs <= from && Clocked(es, from) && BucketValid(s.bucket, L2tNs(rate, bucketBytes))
    ensures Shaped(s) && Runnable(es)
    ensures var (s', os) := Run(Exact, s, es);
            && |os| == |es| && (forall n :: 0 <= n < |os| ==> os[n].Sent? ==> es[n].Tick?)
            && Accepts(s.bucket, L2tNs(rate, bucketBytes), Departures(es, os))
            && BucketValid(s'.bucket, L2tNs(rate, bucketBytes))
    decreases |es|
  {
    WrappedRefinesExact(s, es, w);
    OneOutcomeEach(Exact, s, es);
    if es != [] {
      var e := es[0];
      assert EventOk(e, w) && EventsOk(es[1..], w) && FixedRate(es[1..], rate, bucketBytes);
      StepRefines(s, e, w);
      StepBucket(s, e, w);
      var (s1, o) := Step(Exact, s, e);
      hide Inv, EventOk, EventsOk, FixedRate, Step, WrapSched, L2tNs, SkbSize;
      RunIsAccepted(s1, es[1..], w, rate, bucketBytes, if e.Tick? then e.now else from);
      var os := Run(Exact, s, es).1;
      assert os == [o] + Run(Exact, s1, es[1..]).1 && os[1..] == Run(Exact, s1, es[1..]).1;
      assert o.Sent? ==> Departures(es, os)[1..] == Departures(es[1..], os[1..]);
    }
  }

  /** From a state with a valid bucket on, at a fixed rate, whatever is reconfigured besides: tokens stay
      within the bucket, and the packets sent cost at most twice the bucket plus the time they take, or,
      from an empty bucket on, the time since then. */
  lemma DeparturesConform(s: Sched, es: seq<Event>, w: seq<nat>, rate: RateCfg, bucketBytes: nat, from: int)
    requires Inv(s, w) && EventsOk(es, w) && FixedRate(es, rate, bucketBytes)
    requires s.bucket.timeNs <= from && Clocked(es, from) && BucketValid(s.bucket, L2tNs(rate, bucketBytes))
    ensures Shaped(s) && Runnable(es)
    ensures var (s', os) := Run(Exact, s, es);
            && |os| == |es| && (forall n :: 0 <= n < |os| ==> os[n].Sent? ==> es[n].Tick?)
            && var bucketNs, ds := L2tNs(rate, bucketBytes), Departures(es, os);
               && 0 <= s'.bucket.tokens <= bucketNs
               && (ds != [] ==> Cost(ds) <= 2 * bucketNs + (ds[|ds| - 1].now - ds[0].now))
               && (ds != [] && s.bucket.tokens == 0 ==> Cost(ds) <= ds[|ds| - 1].now - s.bucket.timeNs)
  {
    hide Inv, EventsOk, FixedRate, Clocked, Departures, Accepts, Cost, L2tNs, Run;
    RunIsAccepted(s, es, w, rate, bucketBytes, from);
    var ds := Departures(es, Run(Exact, s, es).1);
    if ds != [] {
      BurstBound(s.bucket, L2tNs(rate, bucketBytes), ds);
    }
  }
}
