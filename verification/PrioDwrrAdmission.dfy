/** Which packets sch_prio_dwrr lets in, that its buffers never overflow, and which quantum a queue is
    counted with. */
module PrioDwrrAdmission {
  import opened Accounting
  import opened ActiveOrder
  import opened Admission
  import opened KernelPackets
  import opened PrioDwrr
  import opened PrioDwrrRuns
  import opened TokenBucket

  /** The high-priority queue first, then the DWRR queues, as packets are classified. */
  ghost function Fifos(s: Sched): seq<seq<Packet>>
  {
    [s.prioPkts] + seq(|s.queues|, k requires 0 <= k < |s.queues| => s.queues[k].pkts)
  }

  lemma SumLenIsQueued(s: Sched)
    requires Wf(s)
    ensures s.sumLen == QueuedBytes(Fifos(s)) && |Fifos(s)| == MAX_QUEUES
    ensures s.prioLen == Bytes(Fifos(s)[0])
    ensures forall k :: 0 < k < MAX_QUEUES ==> s.queues[k - 1].lenBytes == Bytes(Fifos(s)[k])
  {
    var low := Fifos(s)[1..];
    forall k | 0 <= k < |low| ensures Lengths(s.queues)[k] == Bytes(low[k]) {
      assert ClassOk(s.queues[k]);
    }
    QueuedIsSum(low, Lengths(s.queues));
  }

  /** A packet is dropped exactly when it would not fit with the packets queued; otherwise the inner FIFO
      decides, and a packet let in is appended to its queue and nothing else moves. */
  lemma AdmissionExact(s: Sched, c: Config, id: nat, p: Packet, childAccepts: bool)
    requires Wf(s) && ConfigOk(c) && id < MAX_QUEUES
    ensures |Fifos(s)| == MAX_QUEUES
    ensures var (s', v) := Enqueue(s, c, id, p, childAccepts);
            && v == (if TooMuch(c.buffer, Fifos(s), id, SkbSize(p)) then Dropped
                     else if childAccepts then Queued else Refused)
            && Fifos(s') == (if v == Queued then Fifos(s)[id := Fifos(s)[id] + [p]] else Fifos(s))
  {
    SumLenIsQueued(s);
    hide Listed, Classes, Sums, SkbSize, QueuedBytes;
  }

  lemma PollPops(s: Sched, c: Config, now: int)
    requires Wf(s) && ConfigOk(c)
    ensures var (s', o) := Dequeue(s, c, now);
            match o
            case SentHigh(_) => Fifos(s)[0] != [] && Fifos(s') == Fifos(s)[0 := Fifos(s)[0][1..]]
            case SentLow(k, _) => k + 1 < |Fifos(s)| && Fifos(s)[k + 1] != [] && Fifos(s') == Fifos(s)[k + 1 := Fifos(s)[k + 1][1..]]
            case _ => Fifos(s') == Fifos(s)
  {
    DequeueMeetsContract(s, c, now);
    hide Wf, Dequeue, L2tNs, Result, Depart;
  }

  ghost predicate FixedBuffer(es: seq<Event>, b: BufferMode)
  {
    forall n :: 0 <= n < |es| ==> es[n].c.buffer == b
  }

  lemma StepStaysWithin(s: Sched, e: Event, b: BufferMode)
    requires Wf(s) && EventOk(e) && e.c.buffer == b && |Fifos(s)| == MAX_QUEUES && Within(b, Fifos(s))
    ensures |Fifos(Step(s, e))| == MAX_QUEUES && Within(b, Fifos(Step(s, e)))
  {
    match e
    case Arrive(id, p, childAccepts, c) =>
      AdmissionExact(s, c, id, p, childAccepts);
      hide Wf, Enqueue, Within, TooMuch, SkbSize;
      if Enqueue(s, c, id, p, childAccepts).1 == Queued {
        AppendKeepsWithin(b, Fifos(s), id, p);
      }
    case Poll(now, c) =>
      PollPops(s, c, now);
      hide Wf, Dequeue, Within;
      match Dequeue(s, c, now).1 {
        case SentHigh(_) => PopKeepsWithin(b, Fifos(s), 0);
        case SentLow(k, _) => PopKeepsWithin(b, Fifos(s), k + 1);
        case _ =>
      }
  }

  /** While the limits stay the same, no run takes the port (shared) or a queue (static) beyond its limit. */
  lemma {:induction false} RunStaysWithin(s: Sched, es: seq<Event>, b: BufferMode)
    requires Wf(s) && (forall n :: 0 <= n < |es| ==> EventOk(es[n])) && FixedBuffer(es, b)
    requires b.StaticBuffer? ==> |b.limits| == MAX_QUEUES
    requires |Fifos(s)| == MAX_QUEUES && Within(b, Fifos(s))
    ensures |Fifos(Run(s, es))| == MAX_QUEUES && Within(b, Fifos(Run(s, es)))
    decreases |es|
  {
    if es != [] {
      assert EventOk(es[0]) && es[0].c.buffer == b && FixedBuffer(es[1..], b);
      hide Wf, EventOk, FixedBuffer, Step, Fifos, Within;
      StepStaysWithin(s, es[0], b);
      RunStaysWithin(Step(s, es[0]), es[1..], b);
    }
  }

  // ---------------------------------------------------------------- the recorded quantum

  /** The call finds that the head k, whatever its turn adds, cannot be scheduled: its turn ends. */
  ghost predicate EndsTurn(s: Sched, e: Event, k: nat)
    requires Wf(s)
  {
    && e.Poll? && s.prioPkts == [] && s.order != [] && s.order[0] == k && k < DWRR_QUEUES && s.queues[k].pkts != []
    && SkbSize(s.queues[k].pkts[0]) > s.queues[k].deficit + (if s.queues[k].curr then 0 else s.queues[k].quantum)
  }

  /** The arrival is let into the empty DWRR queue k. */
  ghost predicate Starts(s: Sched, e: Event, k: nat)
    requires Wf(s) && EventOk(e)
  {
    e.Arrive? && e.id == k + 1 && k < DWRR_QUEUES && s.queues[k].pkts == [] && Step(s, e).queues[k].pkts != []
  }

  /** The quantum configured when queue k last joined the tail of the list; q before that. */
  ghost function Configured(s: Sched, es: seq<Event>, k: nat, q: int): int
    requires Wf(s) && (forall n :: 0 <= n < |es| ==> EventOk(es[n])) && k < DWRR_QUEUES
    decreases |es|
  {
    if es == [] then q
    else Configured(Step(s, es[0]), es[1..], k, if EndsTurn(s, es[0], k) || Starts(s, es[0], k) then es[0].c.quantum[k] else q)
  }

  lemma ArrivalRecords(s: Sched, e: Event, k: nat)
    requires Wf(s) && EventOk(e) && e.Arrive? && k < DWRR_QUEUES
    ensures Sized(s) && Sized(Step(s, e))
    ensures Step(s, e).queues[k].quantum == if Starts(s, e, k) then e.c.quantum[k] else s.queues[k].quantum
  {
    assert ClassOk(s.queues[k]);
    hide Listed, Sums, SkbSize, Overfill;
  }

  lemma AttemptRecords(g: Sched, c: Config, now: int, k: nat)
    requires HasHead(g) && k < DWRR_QUEUES
    ensures Sized(AttemptLow(g, c, now).0) && AttemptLow(g, c, now).0.queues[k].quantum == g.queues[k].quantum
  {
    hide SkbSize, L2tNs, Result, Depart;
  }

  lemma RotateRecords(g: Sched, c: Config, k: nat)
    requires HasHead(g) && ConfigOk(c) && k < DWRR_QUEUES
    ensures RotateHead(g, c).queues[k].quantum == if k == g.order[0] then c.quantum[k] else g.queues[k].quantum
  {}

  lemma LowRecords(s: Sched, c: Config, now: int, k: nat)
    requires Wf(s) && ConfigOk(c) && s.sumPrioLen == 0 && s.order != [] && k < DWRR_QUEUES
    ensures HasHead(s) && Sized(Dequeue(s, c, now).0)
    ensures Dequeue(s, c, now).0.queues[k].quantum
            == if k == s.order[0] && !HeadFits(GrantHead(s)) then c.quantum[k] else s.queues[k].quantum
  {
    RotationSuffices(s, c);
    GrantKeepsWf(s);
    var g := GrantHead(s);
    assert g.queues[k].quantum == s.queues[k].quantum && g.order == s.order;
    if HeadFits(g) {
      AttemptRecords(g, c, now, k);
    } else {
      var r := RotateHead(g, c);
      RotateRecords(g, c, k);
      assert GrantHead(r).queues[k].quantum == r.queues[k].quantum;
      AttemptRecords(GrantHead(r), c, now, k);
    }
    hide Wf, AttemptLow, RotateHead, HeadFits;
  }

  lemma PollRecords(s: Sched, c: Config, now: int, k: nat)
    requires Wf(s) && ConfigOk(c) && k < DWRR_QUEUES
    ensures Sized(s) && Sized(Dequeue(s, c, now).0)
    ensures Dequeue(s, c, now).0.queues[k].quantum
            == if EndsTurn(s, Poll(now, c), k) then c.quantum[k] else s.queues[k].quantum
  {
    PrioIsEmpty(s);
    if s.sumPrioLen == 0 && s.order != [] {
      LowRecords(s, c, now, k);
      assert EndsTurn(s, Poll(now, c), k) <==> k == s.order[0] && !HeadFits(GrantHead(s));
    }
    hide Classes, Sums, SkbSize, L2tNs, Depart, Result, DequeueLow;
  }

  lemma StepRecords(s: Sched, e: Event, k: nat)
    requires Wf(s) && EventOk(e) && k < DWRR_QUEUES
    ensures Sized(s) && Sized(Step(s, e))
    ensures Step(s, e).queues[k].quantum
            == if EndsTurn(s, e, k) || Starts(s, e, k) then e.c.quantum[k] else s.queues[k].quantum
  {
    if e.Arrive? {
      ArrivalRecords(s, e, k);
    } else {
      PollRecords(s, e.c, e.now, k);
    }
    hide Wf, Dequeue, Enqueue, SkbSize;
  }

  lemma PrioIsEmpty(s: Sched)
    requires Wf(s)
    ensures s.sumPrioLen == 0 <==> s.prioPkts == []
    ensures s.sumPrioLen >= 0
  {}

  /** Over any run, rewritten quanta take effect for a queue when it next joins the tail of the list, by
      becoming active or by a rotation, and not before. */
  lemma {:induction false} RecordsConfigured(s: Sched, es: seq<Event>, k: nat)
    requires Wf(s) && (forall n :: 0 <= n < |es| ==> EventOk(es[n])) && k < DWRR_QUEUES
    ensures Sized(s) && Sized(Run(s, es))
    ensures Run(s, es).queues[k].quantum == Configured(s, es, k, s.queues[k].quantum)
    decreases |es|
  {
    assert Listed(s) && Listed(Run(s, es));
    if es != [] {
      assert EventOk(es[0]);
      StepRecords(s, es[0], k);
      hide Wf, EventOk, Step, EndsTurn, Starts;
      RecordsConfigured(Step(s, es[0]), es[1..], k);
    }
  }
}
