/** Fairness between two classes of one priority of sch_dwrr, and conformance of its departures to
    the token bucket. */
module KernelDwrrFairness {
  import opened ActiveOrder
  import opened Fairness
  import opened KernelDwrr
  import opened KernelPackets
  import opened KernelDwrrRuns
  import opened TokenBucket

  // ---------------------------------------------------------------- token bucket conformance

  ghost predicate Clocked(es: seq<Event>, from: int)
    decreases |es|
  {
    es == [] || (from <= es[0].now && Clocked(es[1..], es[0].now))
  }

  ghost predicate FixedRate(es: seq<Event>, rate: RateCfg, bucketBytes: nat)
  {
    forall n :: 0 <= n < |es| ==> es[n].c.rate == rate && es[n].c.bucketBytes == bucketBytes
  }

  /** The departures of a run as the bucket sees them. */
  ghost function Departures(s: Sched, es: seq<Event>): seq<Departure>
    requires Wf(s) && EventsOk(es)
    decreases |es|
  {
    if es == [] then []
    else
      StepKeepsWf(s, es[0]);
      var o := Output(s, es[0]);
      var rest := Departures(Step(s, es[0]), es[1..]);
      if o.Sent? then [Departure(es[0].now, L2tNs(es[0].c.rate, SkbSize(o.pkt)))] + rest else rest
  }

  lemma ArrivalKeepsBucket(s: Sched, e: Event)
    requires Wf(s) && EventOk(e) && e.Arrive?
    ensures Step(s, e).bucket == s.bucket
  {
    ClassPrioOk(s, e.queue);
    hide Wf, Overfill, DecayRound, IdleRounds, SkbSize;
  }

  lemma {:induction false} RunIsAccepted(s: Sched, es: seq<Event>, rate: RateCfg, bucketBytes: nat, from: int)
    requires Wf(s) && EventsOk(es) && FixedRate(es, rate, bucketBytes)
    requires s.bucket.timeNs <= from && Clocked(es, from)
    ensures Accepts(s.bucket, L2tNs(rate, bucketBytes), Departures(s, es))
    decreases |es|
  {
    if es != [] {
      var e := es[0];
      StepKeepsWf(s, e);
      if e.Arrive? {
        ArrivalKeepsBucket(s, e);
      } else {
        DequeueMeetsContract(s, e.c, e.now);
      }
      hide Wf, EventOk, L2tNs, Arrival, Dequeue, SamePackets, PoppedFrom;
      var s1 := Step(s, e);
      RunIsAccepted(s1, es[1..], rate, bucketBytes, e.now);
      assert Output(s, e).Sent? ==> Departures(s, es)[1..] == Departures(s1, es[1..]);
    }
  }

  /** 0 <= tokens <= bucket in every state of a run. */
  lemma {:induction false} RunKeepsBucket(s: Sched, es: seq<Event>, rate: RateCfg, bucketBytes: nat, from: int)
    requires Wf(s) && EventsOk(es) && FixedRate(es, rate, bucketBytes)
    requires s.bucket.timeNs <= from && Clocked(es, from) && BucketValid(s.bucket, L2tNs(rate, bucketBytes))
    ensures BucketValid(Run(s, es).bucket, L2tNs(rate, bucketBytes))
    ensures Run(s, es).bucket.timeNs <= (if es == [] then from else es[|es| - 1].now)
    decreases |es|
  {
    if es != [] {
      var e := es[0];
      StepKeepsWf(s, e);
      if e.Arrive? {
        ArrivalKeepsBucket(s, e);
      } else {
        DequeueMeetsContract(s, e.c, e.now);
      }
      hide Wf, EventOk, L2tNs, Arrival, Dequeue, SamePackets, PoppedFrom;
      RunKeepsBucket(Step(s, e), es[1..], rate, bucketBytes, e.now);
    }
  }

  lemma {:induction false} ClockSplits(es: seq<Event>, n: nat, from: int)
    requires n <= |es| && Clocked(es, from)
    ensures Clocked(es[..n], from) && Clocked(es[n..], if n == 0 then from else es[n - 1].now)
    decreases n
  {
    if n > 0 {
      ClockSplits(es[1..], n - 1, es[0].now);
      assert es[..n][1..] == es[1..][..n - 1];
      assert es[n..] == es[1..][n - 1..];
    } else {
      assert es[n..] == es;
    }
  }

  /** From a state with a valid bucket on, the departures between instants t0 and t1 cost at most twice
      the bucket plus t1 - t0; from an empty bucket on, at most the elapsed time. */
  lemma StretchConforms(s: Sched, es: seq<Event>, rate: RateCfg, bucketBytes: nat, from: int)
    requires Wf(s) && EventsOk(es) && FixedRate(es, rate, bucketBytes)
    requires s.bucket.timeNs <= from && Clocked(es, from) && BucketValid(s.bucket, L2tNs(rate, bucketBytes))
    requires Departures(s, es) != []
    ensures var ds := Departures(s, es);
            && Cost(ds) <= 2 * L2tNs(rate, bucketBytes) + (ds[|ds| - 1].now - ds[0].now)
            && (s.bucket.tokens == 0 ==> Cost(ds) <= ds[|ds| - 1].now - s.bucket.timeNs)
  {
    hide Wf, EventsOk, FixedRate, Clocked, Departures, Accepts, BucketValid, Cost, L2tNs;
    RunIsAccepted(s, es, rate, bucketBytes, from);
    BurstBound(s.bucket, L2tNs(rate, bucketBytes), Departures(s, es));
  }

  /** The scheduler as initialised at an instant: well-formed, without tokens. */
  ghost predicate Initialised(s: Sched, now: int)
  {
    Wf(s) && s.bucket == Bucket(0, now)
  }

  lemma RunOfNothing(s: Sched)
    requires Wf(s)
    ensures EventsOk([]) && Run(s, []) == s
  {}

  lemma RunSplits(es: seq<Event>, rate: RateCfg, bucketBytes: nat, start: int, n: nat)
    requires EventsOk(es) && FixedRate(es, rate, bucketBytes) && Clocked(es, start) && n <= |es|
    ensures EventsOk(es[..n]) && FixedRate(es[..n], rate, bucketBytes) && Clocked(es[..n], start)
    ensures EventsOk(es[n..]) && FixedRate(es[n..], rate, bucketBytes)
    ensures Clocked(es[n..], if n == 0 then start else es[n - 1].now)
  {
    ClockSplits(es, n, start);
    hide EventOk, Clocked;
  }

  lemma SplitConforms(s0: Sched, before: seq<Event>, after: seq<Event>, rate: RateCfg, bucketBytes: nat, start: int, at: int)
    requires Initialised(s0, start)
    requires EventsOk(before) && FixedRate(before, rate, bucketBytes) && Clocked(before, start)
    requires EventsOk(after) && FixedRate(after, rate, bucketBytes) && Clocked(after, at)
    requires at == if before == [] then start else before[|before| - 1].now
    ensures var bucketNs := L2tNs(rate, bucketBytes);
            var s := Run(s0, before);
            var ds := Departures(s, after);
            && 0 <= s.bucket.tokens <= bucketNs
            && (ds != [] ==> Cost(ds) <= 2 * bucketNs + (ds[|ds| - 1].now - ds[0].now))
            && (before == [] && ds != [] ==> Cost(ds) <= ds[|ds| - 1].now - start)
  {
    hide Wf, EventsOk, FixedRate, Departures, Cost, L2tNs, Clocked, Run;
    RunOfNothing(s0);
    RunKeepsBucket(s0, before, rate, bucketBytes, start);
    var s := Run(s0, before);
    if Departures(s, after) != [] {
      StretchConforms(s, after, rate, bucketBytes, at);
    }
  }

  /** In every run from the initial state at a fixed rate, whatever is reconfigured besides: tokens stay
      within the bucket; the departures of every stretch cost at most twice the bucket plus the time they
      take; all departures so far cost at most the time since initialisation. */
  lemma DeparturesConform(s0: Sched, es: seq<Event>, rate: RateCfg, bucketBytes: nat, start: int, n: nat)
    requires Initialised(s0, start) && EventsOk(es) && FixedRate(es, rate, bucketBytes) && Clocked(es, start)
    requires n <= |es|
    ensures EventsOk(es[..n]) && EventsOk(es[n..])
    ensures var bucketNs := L2tNs(rate, bucketBytes);
            var s := Run(s0, es[..n]);
            var ds := Departures(s, es[n..]);
            && 0 <= s.bucket.tokens <= bucketNs
            && (ds != [] ==> Cost(ds) <= 2 * bucketNs + (ds[|ds| - 1].now - ds[0].now))
            && (n == 0 && ds != [] ==> Cost(ds) <= ds[|ds| - 1].now - start)
  {
    hide Initialised, EventsOk, FixedRate, Departures, Cost, L2tNs, Clocked, Run;
    RunSplits(es, rate, bucketBytes, start, n);
    SplitConforms(s0, es[..n], es[n..], rate, bucketBytes, start, if n == 0 then start else es[n - 1].now);
  }

  // ---------------------------------------------------------------- the watchdog

  /** A throttled call, repeated at any instant t with the same configuration, sends that head packet if and
      only if t is not before the wake-up time and the packet costs at most the bucket plus the saved tokens.
      So the retry at the wake-up time succeeds exactly when any retry does. */
  lemma ThrottledRetry(s: Sched, c: Config, now: int, t: int)
    requires Wf(s) && ConfigOk(c) && s.bucket.timeNs <= now && Dequeue(s, c, now).1.Throttled?
    ensures var (s1, o) := Dequeue(s, c, now);
            var prio := PrioFrom(s1.active, 0);
            && Wf(s1) && prio >= 0 && HasHead(s1, prio)
            && var k := Head(s1, prio);
               var p := s1.cls[k].pkts[0];
               var fits := L2tNs(c.rate, SkbSize(p)) <= L2tNs(c.rate, c.bucketBytes) + s.bucket.tokens;
               && (t >= o.wakeup && fits ==> Dequeue(s1, c, t).1 == Sent(k, p, prio))
               && (t < o.wakeup || !fits ==> Dequeue(s1, c, t).0 == s1 && Dequeue(s1, c, t).1.Throttled?)
  {
    DequeueKeepsWf(s, c, now);
    var prio := PrioFrom(s.active, 0);
    ListHasHead(s, prio);
    RotationSuffices(s, c, prio);
    var s1 := if HeadFits(s, prio) then s else RotateHead(s, c, prio);
    assert Dequeue(s, c, now) == Serve(s1, c, prio, now);
    assert s1.bucket == s.bucket && HeadFits(s1, prio);
    SamePriority(s, s1, prio);
    var cost := L2tNs(c.rate, SkbSize(s1.cls[Head(s1, prio)].pkts[0]));
    hide Wf, SkbSize, L2tNs, SendHead, RotateHead, HeadFits, PrioFrom;
    assert Dequeue(s1, c, t) == Serve(s1, c, prio, t);
    RetryExact(s.bucket, L2tNs(c.rate, c.bucketBytes), cost, now, t);
  }

  /** Rotating within the highest non-empty priority leaves it the highest. */
  lemma SamePriority(s: Sched, s1: Sched, prio: nat)
    requires Sized(s) && Sized(s1) && prio < MAX_PRIO && PrioFrom(s.active, 0) == prio
    requires forall p :: 0 <= p < MAX_PRIO ==> (s1.active[p] == [] <==> s.active[p] == [])
    ensures PrioFrom(s1.active, 0) == prio
  {}

  // ---------------------------------------------------------------- the potential

  /** Class k is on the list of priority p. */
  ghost predicate In(s: Sched, p: nat, k: nat)
    requires Sized(s) && p < MAX_PRIO
  {
    k in s.active[p]
  }

  /** A class that is away counts as holding the quantum it will start with. */
  ghost function Credit(s: Sched, p: nat, k: nat, q: int): int
    requires Sized(s) && p < MAX_PRIO && k < MAX_QUEUES
  {
    if In(s, p, k) then s.cls[k].deficit else q
  }

  ghost function Potential(s: Sched, p: nat, i: nat, j: nat, qi: int, qj: int): int
    requires Sized(s) && p < MAX_PRIO && i < MAX_QUEUES && j < MAX_QUEUES
  {
    Pot(qi, qj, s.cls[i].deficit, Credit(s, p, j, qj), Before(s.active[p], i, j))
  }

  /** Both classes run with these quanta while on the list. */
  ghost predicate Quanta(s: Sched, p: nat, i: nat, j: nat, qi: int, qj: int)
    requires Sized(s) && p < MAX_PRIO && i < MAX_QUEUES && j < MAX_QUEUES
  {
    && qi >= MAX_PKT_BYTES && qj >= MAX_PKT_BYTES && i != j
    && s.cls[i].quantum == qi && (In(s, p, j) ==> s.cls[j].quantum == qj)
  }

  /** A listed class that is not the head holds its quantum. */
  lemma BehindHolds(s: Sched, p: nat, k: nat)
    requires Wf(s) && p < MAX_PRIO && k in s.active[p] && k != s.active[p][0]
    ensures s.cls[k].deficit >= s.cls[k].quantum
  {
    var n :| 0 <= n < |s.active[p]| && s.active[p][n] == k;
    assert s.active[p][n] in s.active[p];
  }

  lemma PotentialRange(s: Sched, p: nat, i: nat, j: nat, qi: int, qj: int)
    requires Wf(s) && p < MAX_PRIO && i < MAX_QUEUES && j < MAX_QUEUES && In(s, p, i)
    requires Quanta(s, p, i, j, qi, qj)
    ensures -(qj * (qi + MAX_PKT_BYTES)) < Potential(s, p, i, j, qi, qj) < qi * MAX_PKT_BYTES
  {
    var order := s.active[p];
    var turn := Before(order, i, j);
    BeforeHead(order, i, j);
    assert ClassOk(s.cls[i]) && ClassOk(s.cls[j]) && s.cls[i].pkts != [];
    if j !in order {
      BeforeAbsent(order, i, j);
    } else if turn {
      BehindHolds(s, p, j);
    }
    if !turn {
      BehindHolds(s, p, i);
    }
    hide Wf, Pot, Before, ClassOk;
    PotRangeGranted(qi, qj, s.cls[i].deficit, Credit(s, p, j, qj), MAX_PKT_BYTES, turn);
  }

  /** Rotating any class in deficit mode never raises the potential. */
  lemma RotateKeepsPotential(s: Sched, c: Config, prio: nat, p: nat, i: nat, j: nat, qi: int, qj: int)
    requires Wf(s) && HasHead(s, prio) && ConfigOk(c) && !c.wrr
    requires p < MAX_PRIO && i < MAX_QUEUES && j < MAX_QUEUES && In(s, p, i)
    requires Quanta(s, p, i, j, qi, qj) && c.quantum[i] == qi && c.quantum[j] == qj
    ensures var s' := RotateHead(s, c, prio);
            Sized(s') && In(s', p, i) && Quanta(s', p, i, j, qi, qj)
            && Potential(s', p, i, j, qi, qj) <= Potential(s, p, i, j, qi, qj)
  {
    var h := Head(s, prio);
    var order := s.active[p];
    var s' := RotateHead(s, c, prio);
    ListHasHead(s, prio);
    assert ClassOk(s.cls[i]);
    assert h in s.active[prio];
    if p == prio {
      BeforeRotate(order, i, j);
      DistinctTail(order);
      if j !in order {
        BeforeAbsent(order, i, j);
      } else {
        BeforeHead(order, i, j);
      }
    } else {
      assert h !in order;
    }
    var di, dj := s.cls[i].deficit, Credit(s, p, j, qj);
    PotGrant(qi, qj, di, dj);
    PotTurn(qi, qj, di + qi, dj, false, true);
    hide Wf, Pot, Before, ClassOk;
  }

  /** Bytes of class k that went out at priority p. */
  ghost function SentAt(o: Outcome, p: nat, k: nat): nat
  {
    if o.Sent? && o.queue == k && o.prio == p then SkbSize(o.pkt) else 0
  }

  /** What a send means to classes i and j of priority p; left says that it emptied this list's head. */
  ghost predicate SendEffect(s: Sched, s': Sched, o: Outcome, left: bool, p: nat, i: nat, j: nat, qi: int, qj: int)
    requires Sized(s) && Sized(s') && p < MAX_PRIO && i < MAX_QUEUES && j < MAX_QUEUES && o.Sent?
  {
    && Quanta(s', p, i, j, qi, qj)
    && s'.cls[i].deficit == s.cls[i].deficit - SentAt(o, p, i)
    && Credit(s, p, j, qj) - SentAt(o, p, j) >= 0
    && (left ==> s.active[p] != [] && o.queue == s.active[p][0] != i && Distinct(s.active[p]) && i in s.active[p])
    && s'.active[p] == (if left then s.active[p][1..] else s.active[p])
    && Credit(s', p, j, qj) == (if left && o.queue == j then qj else Credit(s, p, j, qj) - SentAt(o, p, j))
  }

  lemma SendParts(s: Sched, c: Config, prio: nat, now: int, p: nat, i: nat, j: nat, qi: int, qj: int)
    requires Wf(s) && HasHead(s, prio) && HeadFits(s, prio)
    requires p < MAX_PRIO && i < MAX_QUEUES && j < MAX_QUEUES && In(s, p, i)
    requires Quanta(s, p, i, j, qi, qj)
    requires In(SendHead(s, c, prio, now), p, i)
    ensures var s' := SendHead(s, c, prio, now);
            var h := Head(s, prio);
            SendEffect(s, s', Sent(h, s.cls[h].pkts[0], prio), p == prio && s'.cls[h].pkts == [], p, i, j, qi, qj)
  {
    ListHasHead(s, prio);
    SendKeepsLists(s, c, prio, now);
    var order := s.active[p];
    assert s.cls[i].prio == p;
    assert j in order <==> s.cls[j].pkts != [] && s.cls[j].prio == p;
    assert ClassOk(s.cls[j]);
    hide Accounts, Credits, ClassOk, SkbSize, L2tNs, Depart, SampleRound;
  }

  /** The potential over a send; left says that the head of this list sent its last packet. */
  lemma PotAfterSend(order: seq<nat>, left: bool, i: nat, j: nat, qi: int, qj: int,
                     di: int, dj: int, dj': int, sentI: nat, sentJ: nat)
    requires qi > 0 && i != j && dj - sentJ >= 0
    requires left ==> order != [] && order[0] != i && Distinct(order) && i in order
    requires dj' == if left && order[0] == j then qj else dj - sentJ
    ensures Pot(qi, qj, di - sentI, dj', Before(if left then order[1..] else order, i, j)) + qi * sentJ - qj * sentI
            <= Pot(qi, qj, di, dj, Before(order, i, j))
  {
    hide Pot, Before;
    PotServe(qi, qj, di, dj, dj - sentJ, sentI, sentJ, Before(order, i, j));
    if left {
      BeforeHead(order, i, j);
      BeforeDrop(order, i, j);
      if order[0] == j {
        PotLeave(qi, qj, di - sentI, dj - sentJ);
      }
    }
  }

  lemma EffectPays(s: Sched, s': Sched, o: Outcome, left: bool, p: nat, i: nat, j: nat, qi: int, qj: int)
    requires Sized(s) && Sized(s') && p < MAX_PRIO && i < MAX_QUEUES && j < MAX_QUEUES && o.Sent?
    requires qi > 0 && i != j && SendEffect(s, s', o, left, p, i, j, qi, qj)
    ensures Potential(s', p, i, j, qi, qj) + qi * SentAt(o, p, j) - qj * SentAt(o, p, i) <= Potential(s, p, i, j, qi, qj)
  {
    hide SentAt, Credit, Quanta, Pot, Before, Distinct;
    PotAfterSend(s.active[p], left, i, j, qi, qj, s.cls[i].deficit, Credit(s, p, j, qj),
                 Credit(s', p, j, qj), SentAt(o, p, i), SentAt(o, p, j));
  }

  /** Sending pays for itself; a class that empties forfeits the rest. */
  lemma SendPaysPotential(s: Sched, c: Config, prio: nat, now: int, p: nat, i: nat, j: nat, qi: int, qj: int)
    requires Wf(s) && HasHead(s, prio) && HeadFits(s, prio)
    requires p < MAX_PRIO && i < MAX_QUEUES && j < MAX_QUEUES && In(s, p, i)
    requires Quanta(s, p, i, j, qi, qj)
    requires In(SendHead(s, c, prio, now), p, i)
    ensures var s' := SendHead(s, c, prio, now);
            var o := Sent(Head(s, prio), s.cls[Head(s, prio)].pkts[0], prio);
            Quanta(s', p, i, j, qi, qj)
            && Potential(s', p, i, j, qi, qj) + qi * SentAt(o, p, j) - qj * SentAt(o, p, i) <= Potential(s, p, i, j, qi, qj)
  {
    var h := Head(s, prio);
    var s' := SendHead(s, c, prio, now);
    assert Sized(s') && qi > 0 && i != j;
    SendParts(s, c, prio, now, p, i, j, qi, qj);
    assert Quanta(s', p, i, j, qi, qj);
    hide Wf, HeadFits, SendHead, SentAt, Quanta, SendEffect, In, Potential;
    EffectPays(s, s', Sent(h, s.cls[h].pkts[0], prio), p == prio && s'.cls[h].pkts == [], p, i, j, qi, qj);
  }

  /** Deficit mode, with the quanta of i and j fixed. */
  ghost predicate FairConfig(e: Event, i: nat, j: nat, qi: int, qj: int)
    requires EventOk(e) && i < MAX_QUEUES && j < MAX_QUEUES
  {
    !e.c.wrr && e.c.quantum[i] == qi && e.c.quantum[j] == qj
  }

  lemma ServePaysPotential(s: Sched, c: Config, prio: nat, now: int, p: nat, i: nat, j: nat, qi: int, qj: int)
    requires Wf(s) && HasHead(s, prio) && HeadFits(s, prio)
    requires p < MAX_PRIO && i < MAX_QUEUES && j < MAX_QUEUES && In(s, p, i)
    requires Quanta(s, p, i, j, qi, qj)
    requires Sized(Serve(s, c, prio, now).0) && In(Serve(s, c, prio, now).0, p, i)
    ensures var (s', o) := Serve(s, c, prio, now);
            Quanta(s', p, i, j, qi, qj)
            && Potential(s', p, i, j, qi, qj) + qi * SentAt(o, p, j) - qj * SentAt(o, p, i) <= Potential(s, p, i, j, qi, qj)
  {
    hide Wf, Potential, SentAt, Quanta, SkbSize;
    var k := Head(s, prio);
    var result := TbfSchedule(SkbSize(s.cls[k].pkts[0]), c.rate, c.bucketBytes, s.bucket, now);
    if result >= 0 {
      SendPaysPotential(s, c, prio, now, p, i, j, qi, qj);
    } else {
      NothingSent(now - result, p, i);
      NothingSent(now - result, p, j);
    }
  }

  lemma NothingSent(wakeup: int, p: nat, k: nat)
    ensures SentAt(Throttled(wakeup), p, k) == 0
  {}

  lemma TickPaysPotential(s: Sched, e: Event, p: nat, i: nat, j: nat, qi: int, qj: int)
    requires Wf(s) && EventOk(e) && e.Tick? && p < MAX_PRIO && i < MAX_QUEUES && j < MAX_QUEUES && In(s, p, i)
    requires Quanta(s, p, i, j, qi, qj) && FairConfig(e, i, j, qi, qj)
    requires Wf(Step(s, e)) && In(Step(s, e), p, i)
    ensures Quanta(Step(s, e), p, i, j, qi, qj)
    ensures Potential(Step(s, e), p, i, j, qi, qj) + qi * SentAt(Output(s, e), p, j) - qj * SentAt(Output(s, e), p, i)
            <= Potential(s, p, i, j, qi, qj)
  {
    var prio := PrioFrom(s.active, 0);
    assert prio >= 0 by { assert s.active[p] != []; }
    ListHasHead(s, prio);
    RotationSuffices(s, e.c, prio);
    hide Wf, Potential, SentAt, Quanta, RotateHead, Serve, HeadFits, PrioFrom;
    if HeadFits(s, prio) {
      ServePaysPotential(s, e.c, prio, e.now, p, i, j, qi, qj);
    } else {
      RotateKeepsPotential(s, e.c, prio, p, i, j, qi, qj);
      ServePaysPotential(RotateHead(s, e.c, prio), e.c, prio, e.now, p, i, j, qi, qj);
    }
  }

  lemma ArrivalParts(s: Sched, e: Event, p: nat, i: nat, j: nat, qi: int, qj: int)
    requires Wf(s) && EventOk(e) && e.Arrive? && p < MAX_PRIO && i < MAX_QUEUES && j < MAX_QUEUES && In(s, p, i)
    requires Quanta(s, p, i, j, qi, qj) && FairConfig(e, i, j, qi, qj)
    ensures var s' := Step(s, e);
            && Sized(s') && In(s', p, i) && Quanta(s', p, i, j, qi, qj)
            && s'.cls[i].deficit == s.cls[i].deficit && Credit(s', p, j, qj) == Credit(s, p, j, qj)
            && (s'.active[p] == s.active[p] || s'.active[p] == s.active[p] + [e.queue])
  {
    ClassPrioOk(s, e.queue);
    var order := s.active[p];
    assert s.cls[i].pkts != [] && s.cls[i].prio == p;
    assert j in order <==> s.cls[j].pkts != [] && s.cls[j].prio == p;
    hide Classes, Credits, Accounts, Overfill, DecayRound, IdleRounds, SkbSize;
  }

  lemma ArrivalKeepsPotential(s: Sched, e: Event, p: nat, i: nat, j: nat, qi: int, qj: int)
    requires Wf(s) && EventOk(e) && e.Arrive? && p < MAX_PRIO && i < MAX_QUEUES && j < MAX_QUEUES && In(s, p, i)
    requires Quanta(s, p, i, j, qi, qj) && FairConfig(e, i, j, qi, qj)
    requires Wf(Step(s, e))
    ensures In(Step(s, e), p, i) && Quanta(Step(s, e), p, i, j, qi, qj)
    ensures Potential(Step(s, e), p, i, j, qi, qj) == Potential(s, p, i, j, qi, qj)
  {
    assert i in s.active[p] && i != j;
    hide Wf, EventOk, Step, Quanta, FairConfig, Credit, Pot, Before;
    ArrivalParts(s, e, p, i, j, qi, qj);
    BeforeAppend(s.active[p], e.queue, i, j);
  }

  // ---------------------------------------------------------------- runs

  /** Class k is backlogged at priority p before and after every event. */
  ghost predicate Backlogged(s: Sched, es: seq<Event>, p: nat, k: nat)
    requires Wf(s) && EventsOk(es) && p < MAX_PRIO
    decreases |es|
  {
    In(s, p, k) && (es == [] || (StepKeepsWf(s, es[0]); Backlogged(Step(s, es[0]), es[1..], p, k)))
  }

  ghost function SentBytes(s: Sched, es: seq<Event>, p: nat, k: nat): nat
    requires Wf(s) && EventsOk(es)
    decreases |es|
  {
    if es == [] then 0
    else (StepKeepsWf(s, es[0]); SentAt(Output(s, es[0]), p, k) + SentBytes(Step(s, es[0]), es[1..], p, k))
  }

  ghost predicate FairRun(es: seq<Event>, i: nat, j: nat, qi: int, qj: int)
    requires EventsOk(es) && i < MAX_QUEUES && j < MAX_QUEUES
  {
    forall n :: 0 <= n < |es| ==> FairConfig(es[n], i, j, qi, qj)
  }

  lemma StepPaysPotential(s: Sched, e: Event, p: nat, i: nat, j: nat, qi: int, qj: int)
    requires Wf(s) && EventOk(e) && p < MAX_PRIO && i < MAX_QUEUES && j < MAX_QUEUES && In(s, p, i)
    requires Quanta(s, p, i, j, qi, qj) && FairConfig(e, i, j, qi, qj)
    requires Wf(Step(s, e)) && In(Step(s, e), p, i)
    ensures Quanta(Step(s, e), p, i, j, qi, qj)
    ensures Potential(Step(s, e), p, i, j, qi, qj)
            + Lead(qi, qj, SentAt(Output(s, e), p, i), SentAt(Output(s, e), p, j)) <= Potential(s, p, i, j, qi, qj)
  {
    hide Wf, Potential, Quanta, FairConfig, Dequeue, Arrival;
    if e.Tick? {
      TickPaysPotential(s, e, p, i, j, qi, qj);
    } else {
      ArrivalKeepsPotential(s, e, p, i, j, qi, qj);
      NoLead(qi, qj);
    }
  }

  lemma UnfoldRun(s: Sched, es: seq<Event>, p: nat, i: nat, j: nat, qi: int, qj: int)
    requires Wf(s) && EventsOk(es) && p < MAX_PRIO && i < MAX_QUEUES && j < MAX_QUEUES && es != []
    requires Backlogged(s, es, p, i) && FairRun(es, i, j, qi, qj)
    ensures var s1 := Step(s, es[0]);
            && EventOk(es[0]) && EventsOk(es[1..]) && Wf(s1)
            && FairConfig(es[0], i, j, qi, qj) && FairRun(es[1..], i, j, qi, qj)
            && In(s, p, i) && In(s1, p, i) && Backlogged(s1, es[1..], p, i)
            && Run(s, es) == Run(s1, es[1..])
            && SentBytes(s, es, p, i) == SentAt(Output(s, es[0]), p, i) + SentBytes(s1, es[1..], p, i)
            && SentBytes(s, es, p, j) == SentAt(Output(s, es[0]), p, j) + SentBytes(s1, es[1..], p, j)
  {
    StepKeepsWf(s, es[0]);
    assert In(Step(s, es[0]), p, i) by { assert Backlogged(Step(s, es[0]), es[1..], p, i); }
    hide Wf, EventOk, Step, Output, SentAt, FairConfig;
  }

  lemma EmptyRun(s: Sched, p: nat, i: nat, j: nat)
    requires Wf(s) && p < MAX_PRIO && i < MAX_QUEUES && j < MAX_QUEUES
    ensures Run(s, []) == s && SentBytes(s, [], p, i) == 0 && SentBytes(s, [], p, j) == 0
    ensures Backlogged(s, [], p, i) ==> In(s, p, i)
  {}

  lemma {:induction false} RunPaysPotential(s: Sched, es: seq<Event>, p: nat, i: nat, j: nat, qi: int, qj: int)
    requires Wf(s) && EventsOk(es) && p < MAX_PRIO && i < MAX_QUEUES && j < MAX_QUEUES
    requires Backlogged(s, es, p, i) && Quanta(s, p, i, j, qi, qj) && FairRun(es, i, j, qi, qj)
    ensures In(Run(s, es), p, i) && Quanta(Run(s, es), p, i, j, qi, qj)
    ensures Potential(Run(s, es), p, i, j, qi, qj) + Lead(qi, qj, SentBytes(s, es, p, i), SentBytes(s, es, p, j))
            <= Potential(s, p, i, j, qi, qj)
    decreases |es|
  {
    hide EventOk, EventsOk, Potential, Quanta, FairConfig, FairRun, Backlogged, Run, SentBytes, Step, Output, SentAt, Lead;
    hide Lists, Classes, Credits, Accounts, In;
    if es == [] {
      EmptyRun(s, p, i, j);
      NoLead(qi, qj);
    } else {
      UnfoldRun(s, es, p, i, j, qi, qj);
      var s1, o := Step(s, es[0]), Output(s, es[0]);
      StepPaysPotential(s, es[0], p, i, j, qi, qj);
      RunPaysPotential(s1, es[1..], p, i, j, qi, qj);
      LeadSum(qi, qj, SentAt(o, p, i), SentAt(o, p, j), SentBytes(s1, es[1..], p, i), SentBytes(s1, es[1..], p, j));
    }
  }

  /** In deficit mode, while class i stays backlogged at priority p, class j cannot get ahead of its
      share there: whatever j does, however the other classes and parameters are reconfigured, and
      even across calls that rotate and are then throttled. */
  lemma NobodyGetsAhead(s: Sched, es: seq<Event>, p: nat, i: nat, j: nat, qi: int, qj: int)
    requires Wf(s) && EventsOk(es) && p < MAX_PRIO && i < MAX_QUEUES && j < MAX_QUEUES
    requires Backlogged(s, es, p, i) && Quanta(s, p, i, j, qi, qj) && FairRun(es, i, j, qi, qj)
    ensures SentBytes(s, es, p, j) * qi - SentBytes(s, es, p, i) * qj < qi * qj + MAX_PKT_BYTES * (qi + qj)
  {
    assert In(s, p, i);
    hide Wf, Potential, Quanta, Backlogged, SentBytes, FairRun, EventsOk, Lead;
    RunPaysPotential(s, es, p, i, j, qi, qj);
    var s' := Run(s, es);
    PotentialRange(s, p, i, j, qi, qj);
    PotentialRange(s', p, i, j, qi, qj);
    LeadBound(qi, qj, MAX_PKT_BYTES, Potential(s, p, i, j, qi, qj), Potential(s', p, i, j, qi, qj),
              SentBytes(s, es, p, i), SentBytes(s, es, p, j));
  }

  /** Pairwise fairness of two classes backlogged at one priority. */
  lemma PairwiseFairness(s: Sched, es: seq<Event>, p: nat, i: nat, j: nat)
    requires Wf(s) && EventsOk(es) && p < MAX_PRIO && i < MAX_QUEUES && j < MAX_QUEUES && i != j
    requires Backlogged(s, es, p, i) && Backlogged(s, es, p, j)
    requires FairRun(es, i, j, s.cls[i].quantum, s.cls[j].quantum)
    ensures var qi, qj := s.cls[i].quantum, s.cls[j].quantum;
            var bound := qi * qj + MAX_PKT_BYTES * (qi + qj);
            -bound < SentBytes(s, es, p, i) * qj - SentBytes(s, es, p, j) * qi < bound
  {
    assert In(s, p, i) && In(s, p, j);
    assert ClassOk(s.cls[i]) && ClassOk(s.cls[j]);
    var qi, qj := s.cls[i].quantum, s.cls[j].quantum;
    assert FairRun(es, j, i, qj, qi) by {
      forall n | 0 <= n < |es| ensures FairConfig(es[n], j, i, qj, qi) {
        assert FairConfig(es[n], i, j, qi, qj);
      }
    }
    NobodyGetsAhead(s, es, p, i, j, qi, qj);
    NobodyGetsAhead(s, es, p, j, i, qj, qi);
  }
}
