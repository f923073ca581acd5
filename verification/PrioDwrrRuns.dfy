/** sch_prio_dwrr over whole runs: the invariant under live reconfiguration, what a dequeue does, and
    what becomes of a throttled one. */
module PrioDwrrRuns {
  import opened ActiveOrder
  import opened KernelPackets
  import opened PrioDwrr
  import opened TokenBucket

  // ---------------------------------------------------------------- the steps keep the invariant

  lemma SendKeepsWf(s: Sched, c: Config, now: int)
    requires Wf(s) && HasHead(s) && HeadFits(s) && s.queues[s.order[0]].curr
    ensures Wf(SendLow(s, c, now))
  {
    ListHasHead(s);
    DistinctTail(s.order);
    SumsUpdate(s.queues, s.order[0], SendLow(s, c, now).queues[s.order[0]]);
    hide ActiveQuanta, Lengths, Sum, L2tNs, Depart;
  }

  lemma AcceptLowKeepsListed(s: Sched, c: Config, k: nat, p: Packet)
    requires Listed(s) && ConfigOk(c) && k < DWRR_QUEUES
    ensures Listed(AcceptLow(s, c, k, p))
  {
    var s' := AcceptLow(s, c, k, p);
    assert k in s.order <==> s.queues[k].active;
    assert forall x: nat :: x in s'.order <==> x in s.order || (x == k && !s.queues[k].active);
    assert s.order != [] ==> s.order[0] in s.order;
    assert Distinct(s'.order) by {
      forall i: nat | i < |s.order| ensures s.order[i] in s.order {}
    }
    hide SkbSize, Distinct;
  }

  lemma AcceptLowKeepsWf(s: Sched, c: Config, k: nat, p: Packet)
    requires Wf(s) && ConfigOk(c) && k < DWRR_QUEUES && SkbSize(p) <= MAX_PKT_BYTES
    ensures Wf(AcceptLow(s, c, k, p))
  {
    AcceptLowKeepsListed(s, c, k, p);
    assert ClassOk(s.queues[k]);
    BytesAppend(s.queues[k].pkts, p);
    var s' := AcceptLow(s, c, k, p);
    SumsUpdate(s.queues, k, s'.queues[k]);
    assert ClassOk(s'.queues[k]);
    hide ActiveQuanta, Lengths, Sum, SkbSize, Listed;
  }

  lemma EnqueueKeepsWf(s: Sched, c: Config, id: nat, p: Packet, childAccepts: bool)
    requires Wf(s) && ConfigOk(c) && id < MAX_QUEUES && SkbSize(p) <= MAX_PKT_BYTES
    ensures Wf(Enqueue(s, c, id, p, childAccepts).0)
  {
    if id == 0 {
      BytesAppend(s.prioPkts, p);
    } else {
      AcceptLowKeepsWf(s, c, id - 1, p);
    }
    hide ActiveQuanta, Lengths, Sum, SkbSize, AcceptLow;
  }

  lemma DequeueKeepsWf(s: Sched, c: Config, now: int)
    requires Wf(s) && ConfigOk(c)
    ensures Wf(Dequeue(s, c, now).0)
  {
    hide ActiveQuanta, Lengths, Sum, SkbSize, L2tNs, Result, Depart;
    if s.sumPrioLen == 0 && s.order != [] {
      RotationSuffices(s, c);
      GrantKeepsWf(s);
      var g := if HeadFits(GrantHead(s)) then GrantHead(s) else GrantHead(RotateHead(GrantHead(s), c));
      if !HeadFits(GrantHead(s)) {
        GrantKeepsWf(RotateHead(GrantHead(s), c));
      }
      SendKeepsWf(g, c, now);
      hide Wf, SendLow, RotateHead, GrantHead;
    }
  }

  // ---------------------------------------------------------------- what one call does

  ghost predicate SamePackets(s: Sched, s': Sched)
  {
    && s'.prioPkts == s.prioPkts && |s'.queues| == |s.queues|
    && forall k :: 0 <= k < |s.queues| ==> s'.queues[k].pkts == s.queues[k].pkts
  }

  ghost predicate PoppedLow(s: Sched, s': Sched, k: nat)
  {
    && s'.prioPkts == s.prioPkts && k < |s.queues| == |s'.queues| && s.queues[k].pkts != []
    && forall n :: 0 <= n < |s.queues| ==> s'.queues[n].pkts == (if n == k then s.queues[n].pkts[1..] else s.queues[n].pkts)
  }

  /** The DWRR queues are served only while the high-priority queue is empty, each in order of arrival;
      a refusal moves no packet and leaves the bucket alone. */
  ghost predicate DequeueContract(s: Sched, s': Sched, o: Outcome, c: Config, now: int)
  {
    match o
    case SentHigh(p) =>
      && s.prioPkts != [] && p == s.prioPkts[0] && s' == s.(prioPkts := s.prioPkts[1..], prioLen := s'.prioLen,
           sumLen := s'.sumLen, sumPrioLen := s'.sumPrioLen, bucket := s'.bucket)
      && Result(s.bucket, c.bucketNs, L2tNs(c.rate, SkbSize(p)), now) >= 0
      && s'.bucket == Depart(s.bucket, c.bucketNs, L2tNs(c.rate, SkbSize(p)), now)
    case SentLow(k, p) =>
      && s.prioPkts == [] && PoppedLow(s, s', k) && p == s.queues[k].pkts[0]
      && Result(s.bucket, c.bucketNs, L2tNs(c.rate, SkbSize(p)), now) > 0
      && s'.bucket == Depart(s.bucket, c.bucketNs, L2tNs(c.rate, SkbSize(p)), now)
    case Throttled(wakeup) =>
      && SamePackets(s, s') && s'.bucket == s.bucket && now <= wakeup
      && (s.prioPkts != [] ==> s' == s && now < wakeup)
    case Nothing => s' == s && s.prioPkts == [] && forall k :: 0 <= k < |s.queues| ==> s.queues[k].pkts == []
  }

  lemma AttemptContract(s: Sched, g: Sched, c: Config, now: int)
    requires HasHead(g) && SamePackets(s, g) && g.bucket == s.bucket && s.prioPkts == []
    ensures DequeueContract(s, AttemptLow(g, c, now).0, AttemptLow(g, c, now).1, c, now)
  {
    hide SkbSize, L2tNs, Result, Depart;
  }

  lemma DequeueMeetsContract(s: Sched, c: Config, now: int)
    requires Wf(s) && ConfigOk(c)
    ensures DequeueContract(s, Dequeue(s, c, now).0, Dequeue(s, c, now).1, c, now)
  {
    hide ActiveQuanta, Lengths, Sum, SkbSize, L2tNs, Result, Depart;
    if s.sumPrioLen == 0 {
      if s.order != [] {
        RotationSuffices(s, c);
        GrantKeepsWf(s);
        var g := GrantHead(s);
        if HeadFits(g) {
          AttemptContract(s, g, c, now);
        } else {
          var r := RotateHead(g, c);
          assert SamePackets(s, GrantHead(r));
          AttemptContract(s, GrantHead(r), c, now);
        }
        hide DequeueContract, AttemptLow;
      } else {
        forall k: nat | k < |s.queues| ensures s.queues[k].pkts == [] {
          assert ClassOk(s.queues[k]) && (k in s.order <==> s.queues[k].active);
        }
      }
    }
  }

  // ---------------------------------------------------------------- the watchdog

  /** The strict comparison: a packet refused at some instant is refused again at the instant the
      watchdog was set for.  It leaves at time t exactly when t is later than that and the packet costs
      less than the bucket plus the saved tokens. */
  lemma StrictRetryExact(b: Bucket, bucketNs: nat, pktNs: nat, now: int, t: int)
    requires b.timeNs <= now && Result(b, bucketNs, pktNs, now) <= 0
    ensures var retry := now - Result(b, bucketNs, pktNs, now);
            && Result(b, bucketNs, pktNs, retry) <= 0
            && (Result(b, bucketNs, pktNs, t) > 0 <==> t > retry && pktNs < bucketNs + b.tokens)
  {}

  /** So a throttled call on the DWRR band, repeated when the watchdog fires, changes nothing and, if
      the packet fits the bucket at all, sets the watchdog for that same instant again; on the
      high-priority band it sends the packet. */
  lemma ThrottledRetry(s: Sched, c: Config, now: int)
    requires Wf(s) && ConfigOk(c) && s.bucket.timeNs <= now && Dequeue(s, c, now).1.Throttled?
    ensures var (s1, o) := Dequeue(s, c, now);
            && Wf(s1)
            && (s.prioPkts == [] ==>
                  && s1.order != [] && HasHead(s1)
                  && var pktNs := L2tNs(c.rate, SkbSize(s1.queues[s1.order[0]].pkts[0]));
                     && Dequeue(s1, c, o.wakeup).0 == s1 && Dequeue(s1, c, o.wakeup).1.Throttled?
                     && (pktNs <= c.bucketNs + s.bucket.tokens <==> Dequeue(s1, c, o.wakeup).1 == o))
            && (s.prioPkts != [] ==>
                  var pktNs := L2tNs(c.rate, SkbSize(s.prioPkts[0]));
                  (pktNs <= c.bucketNs + s.bucket.tokens <==> Dequeue(s1, c, o.wakeup).1 == SentHigh(s.prioPkts[0])))
  {
    DequeueKeepsWf(s, c, now);
    hide ActiveQuanta, Lengths, Sum, SkbSize, L2tNs, Depart;
    if s.sumPrioLen == 0 {
      RotationSuffices(s, c);
      GrantKeepsWf(s);
      if !HeadFits(GrantHead(s)) {
        GrantKeepsWf(RotateHead(GrantHead(s), c));
      }
      var s1 := Dequeue(s, c, now).0;
      assert s1.queues[s1.order[0]].curr && GrantHead(s1) == s1;
    }
  }

  // ---------------------------------------------------------------- runs under reconfiguration

  datatype Event =
    | Arrive(id: nat, p: Packet, childAccepts: bool, c: Config)
    | Poll(now: int, c: Config)

  ghost predicate EventOk(e: Event)
  {
    ConfigOk(e.c) && (e.Arrive? ==> e.id < MAX_QUEUES && SkbSize(e.p) <= MAX_PKT_BYTES)
  }

  ghost function Step(s: Sched, e: Event): (s': Sched)
    requires Wf(s) && EventOk(e)
    ensures Wf(s')
  {
    match e
    case Arrive(id, p, childAccepts, c) =>
      EnqueueKeepsWf(s, c, id, p, childAccepts);
      Enqueue(s, c, id, p, childAccepts).0
    case Poll(now, c) =>
      DequeueKeepsWf(s, c, now);
      Dequeue(s, c, now).0
  }

  ghost function Run(s: Sched, es: seq<Event>): (s': Sched)
    requires Wf(s) && forall n :: 0 <= n < |es| ==> EventOk(es[n])
    ensures Wf(s')
    decreases |es|
  {
    if es == [] then s else Run(Step(s, es[0]), es[1..])
  }

  lemma {:induction false} SumAtMost(s: seq<int>, m: nat)
    requires forall k :: 0 <= k < |s| ==> 0 <= s[k] <= m
    ensures 0 <= Sum(s) <= |s| * m
  {
    if s != [] {
      SumAtMost(s[1..], m);
    }
  }

  /** Whatever is rewritten between the calls, in every reachable state the quantum sum is the sum of
      the quanta recorded by the non-empty DWRR queues, far below 2^32; the active list holds exactly
      those queues, once each; and the byte counts are those of the queued packets. */
  lemma QuantumSumUnderReconfiguration(s0: Sched, es: seq<Event>)
    requires Empty(s0) && forall n :: 0 <= n < |es| ==> EventOk(es[n])
    ensures Wf(s0)
    ensures var s := Run(s0, es);
            && s.quantumSum == Sum(seq(DWRR_QUEUES, k requires 0 <= k < DWRR_QUEUES =>
                                 if s.queues[k].pkts != [] then s.queues[k].quantum else 0))
            && 0 <= s.quantumSum <= DWRR_QUEUES * QUANTUM_MAX
            && Distinct(s.order) && (forall k: nat :: k in s.order <==> k < DWRR_QUEUES && s.queues[k].pkts != [])
            && s.sumPrioLen == Bytes(s.prioPkts)
            && (forall k :: 0 <= k < DWRR_QUEUES ==> s.queues[k].lenBytes == Bytes(s.queues[k].pkts))
            && s.sumLen == s.sumPrioLen + Sum(Lengths(s.queues))
  {
    EmptyIsWf(s0);
    var s := Run(s0, es);
    WfMeans(s);
  }

  lemma WfMeans(s: Sched)
    requires Wf(s)
    ensures s.quantumSum == Sum(seq(DWRR_QUEUES, k requires 0 <= k < DWRR_QUEUES =>
                                if s.queues[k].pkts != [] then s.queues[k].quantum else 0))
    ensures 0 <= s.quantumSum <= DWRR_QUEUES * QUANTUM_MAX
    ensures forall k: nat :: k in s.order <==> k < DWRR_QUEUES && s.queues[k].pkts != []
    ensures forall k :: 0 <= k < DWRR_QUEUES ==> s.queues[k].lenBytes == Bytes(s.queues[k].pkts)
  {
    assert forall k :: 0 <= k < DWRR_QUEUES ==> ClassOk(s.queues[k]);
    SumAtMost(ActiveQuanta(s.queues), QUANTUM_MAX);
    assert ActiveQuanta(s.queues) == seq(DWRR_QUEUES, k requires 0 <= k < DWRR_QUEUES =>
                                         if s.queues[k].pkts != [] then s.queues[k].quantum else 0);
  }
}
