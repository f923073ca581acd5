/** Whole runs of the NS2 scheduler: fairness and delay. */
module Ns2DwrrRuns {
  import opened ActiveOrder
  import opened Fairness
  import opened Ns2Dwrr
  import opened Ns2Packets

  datatype Event = Arrive(prio: int, pkt: Packet, qlimBytes: int) | Depart

  ghost function Step(s: Sched, e: Event): (Sched, Outcome)
    requires Wf(s)
  {
    match e
    case Arrive(prio, p, qlim) => (Enque(s, prio, p, qlim), Nothing)
    case Depart => Deque(s)
  }

  ghost predicate EventOk(e: Event, maxSize: nat)
  {
    e.Arrive? ==> 0 < e.pkt.size <= maxSize
  }

  ghost predicate EventsOk(es: seq<Event>, maxSize: nat)
  {
    forall n :: 0 <= n < |es| ==> EventOk(es[n], maxSize)
  }

  /** All queues empty, with the configured quanta. */
  ghost predicate Initial(s: Sched)
  {
    && |s.qs| > 0 && s.order == [] && s.quantumSum == 0
    && forall k :: 0 <= k < |s.qs| ==>
         s.qs[k].pkts == [] && s.qs[k].quantum > 0 && s.qs[k].deficit == 0 && !s.qs[k].active && !s.qs[k].current
  }

  lemma InitialIsWf(s: Sched, maxSize: nat)
    requires Initial(s) && maxSize > 0
    ensures Wf(s) && Bounded(s, maxSize)
  {
    SumOfZeros(ActiveQuanta(s.qs));
  }

  ghost predicate SameQuanta(s: Sched, s': Sched)
  {
    |s'.qs| == |s.qs| && forall k :: 0 <= k < |s.qs| ==> s'.qs[k].quantum == s.qs[k].quantum
  }

  lemma EnqueKeepsBounds(s: Sched, prio: int, p: Packet, qlim: int, maxSize: nat)
    requires Wf(s) && Bounded(s, maxSize) && 0 < p.size <= maxSize
    ensures var s' := Enque(s, prio, p, qlim); Bounded(s', maxSize) && SameQuanta(s, s')
  {
    var k := Classify(prio, |s.qs|);
    var s' := Enque(s, prio, p, qlim);
    assert QueueBounded(s.qs[k], maxSize);
    assert QueueBounded(s'.qs[k], maxSize);
    hide Wf, QueueBounded;
  }

  lemma GrantKeepsBounds(s: Sched, maxSize: nat)
    requires Wf(s) && Bounded(s, maxSize) && s.order != []
    ensures Bounded(GrantHead(s), maxSize)
  {
    GrantKeepsWf(s);
  }

  lemma ServeKeepsBounds(s: Sched, maxSize: nat)
    requires Wf(s) && Bounded(s, maxSize) && s.order != [] && CanServe(GrantHead(s))
    ensures Bounded(ServeHead(GrantHead(s)), maxSize)
  {
    GrantKeepsBounds(s, maxSize);
  }

  lemma RotateKeepsBounds(s: Sched, maxSize: nat)
    requires Wf(s) && Bounded(s, maxSize) && s.order != [] && !CanServe(GrantHead(s))
    ensures Bounded(RotateHead(GrantHead(s)), maxSize)
  {
    GrantKeepsWf(s);
    GrantKeepsBounds(s, maxSize);
  }

  ghost predicate ServedFrom(s: Sched, s': Sched, o: Outcome)
  {
    && o.Sent? && |s'.qs| == |s.qs| && o.queue < |s.qs|
    && s.qs[o.queue].pkts != [] && o.pkt == s.qs[o.queue].pkts[0]
    && (forall k :: 0 <= k < |s.qs| ==>
          s'.qs[k].pkts == if k == o.queue then s.qs[k].pkts[1..] else s.qs[k].pkts)
    && (forall k :: 0 <= k < |s.qs| && k != o.queue ==> !s'.qs[k].current)
  }

  lemma ServeFrame(s: Sched)
    requires Wf(s) && s.order != [] && CanServe(GrantHead(s))
    ensures var g := GrantHead(s);
            ServedFrom(s, ServeHead(g), Sent(g.order[0], g.qs[g.order[0]].pkts[0])) && SameQuanta(s, ServeHead(g))
  {
    GrantKeepsWf(s);
  }

  lemma RotateFrame(s: Sched)
    requires Wf(s) && s.order != []
    ensures var s' := RotateHead(GrantHead(s));
            SameQuanta(s, s') && forall k :: 0 <= k < |s.qs| ==> s'.qs[k].pkts == s.qs[k].pkts
  {}

  /** Deque always finds a packet, keeps the invariant, and afterwards nobody but the served queue
      is current. */
  lemma {:induction false} LoopKeepsInvariant(s: Sched, maxSize: nat)
    requires Wf(s) && Bounded(s, maxSize) && s.order != []
    ensures var (s', o) := Loop(s);
            Wf(s') && Bounded(s', maxSize) && SameQuanta(s, s') && ServedFrom(s, s', o)
    decreases Shortfall(s), if s.qs[s.order[0]].current then 1 else 0
  {
    GrantKeepsWf(s);
    hide Wf, Bounded, Shortfall, ServedFrom;
    var g := GrantHead(s);
    if CanServe(g) {
      ServeKeepsWf(s);
      ServeKeepsBounds(s, maxSize);
      ServeFrame(s);
    } else {
      RotateProgress(s);
      RotateKeepsBounds(s, maxSize);
      RotateFrame(s);
      var s1 := RotateHead(g);
      LoopKeepsInvariant(s1, maxSize);
      ServedFromSamePackets(s, s1, Loop(s1).0, Loop(s1).1);
    }
  }

  lemma ServedFromSamePackets(s: Sched, s1: Sched, s': Sched, o: Outcome)
    requires SameQuanta(s, s1) && ServedFrom(s1, s', o)
    requires forall k :: 0 <= k < |s.qs| ==> s1.qs[k].pkts == s.qs[k].pkts
    ensures ServedFrom(s, s', o)
  {}

  lemma StepKeepsInvariant(s: Sched, e: Event, maxSize: nat)
    requires Wf(s) && Bounded(s, maxSize) && EventOk(e, maxSize)
    ensures Wf(Step(s, e).0) && Bounded(Step(s, e).0, maxSize) && SameQuanta(s, Step(s, e).0)
    ensures Step(s, e).1.Sent? <==> e.Depart? && s.order != []
    ensures Step(s, e).1.Sent? ==> ServedFrom(s, Step(s, e).0, Step(s, e).1)
  {
    match e
    case Arrive(prio, p, qlim) =>
      EnqueKeepsWf(s, prio, p, qlim);
      EnqueKeepsBounds(s, prio, p, qlim, maxSize);
    case Depart =>
      BacklogIsListed(s);
      if s.order != [] {
        LoopKeepsInvariant(s, maxSize);
      }
  }

  // ---------------------------------------------------------------- runs

  ghost function Run(s: Sched, es: seq<Event>, maxSize: nat): Sched
    requires Wf(s) && Bounded(s, maxSize) && EventsOk(es, maxSize)
    decreases |es|
  {
    if es == [] then s
    else
      StepKeepsInvariant(s, es[0], maxSize);
      Run(Step(s, es[0]).0, es[1..], maxSize)
  }

  ghost function SentOf(o: Outcome, k: nat): nat
  {
    if o.Sent? && o.queue == k then o.pkt.size else 0
  }

  /** Bytes sent from queue k during the run. */
  ghost function SentBytes(s: Sched, es: seq<Event>, maxSize: nat, k: nat): nat
    requires Wf(s) && Bounded(s, maxSize) && EventsOk(es, maxSize)
    decreases |es|
  {
    if es == [] then 0
    else
      StepKeepsInvariant(s, es[0], maxSize);
      SentOf(Step(s, es[0]).1, k) + SentBytes(Step(s, es[0]).0, es[1..], maxSize, k)
  }

  /** Queue k is non-empty before and after every event of the run. */
  ghost predicate Backlogged(s: Sched, es: seq<Event>, maxSize: nat, k: nat)
    requires Wf(s) && Bounded(s, maxSize) && EventsOk(es, maxSize)
    decreases |es|
  {
    k < |s.qs| && s.qs[k].active &&
    (es == [] ||
     (StepKeepsInvariant(s, es[0], maxSize); Backlogged(Step(s, es[0]).0, es[1..], maxSize, k)))
  }

  lemma UnfoldRun(s: Sched, es: seq<Event>, maxSize: nat)
    requires Wf(s) && Bounded(s, maxSize) && EventsOk(es, maxSize) && es != []
    ensures var s1 := Step(s, es[0]).0;
            && EventOk(es[0], maxSize) && EventsOk(es[1..], maxSize)
            && Wf(s1) && Bounded(s1, maxSize) && SameQuanta(s, s1)
            && Run(s, es, maxSize) == Run(s1, es[1..], maxSize)
            && (forall k: nat :: SentBytes(s, es, maxSize, k)
                            == SentOf(Step(s, es[0]).1, k) + SentBytes(s1, es[1..], maxSize, k))
            && (forall k: nat :: Backlogged(s, es, maxSize, k) ==>
                  k < |s.qs| && s.qs[k].active && s1.qs[k].active && Backlogged(s1, es[1..], maxSize, k))
  {
    StepKeepsInvariant(s, es[0], maxSize);
    hide Wf, Bounded, EventOk, Step, SentOf;
  }

  lemma EmptyRun(s: Sched, maxSize: nat)
    requires Wf(s) && Bounded(s, maxSize)
    ensures Run(s, [], maxSize) == s && forall k: nat :: SentBytes(s, [], maxSize, k) == 0
    ensures EventsOk([], maxSize)
  {}

  lemma HeadOfBacklogged(s: Sched, es: seq<Event>, maxSize: nat, i: nat)
    requires Wf(s) && Bounded(s, maxSize) && EventsOk(es, maxSize) && Backlogged(s, es, maxSize, i)
    ensures i < |s.qs| && s.qs[i].active && s.qs[i].pkts != []
  {
    assert QueueOk(s.qs[i]);
  }

  lemma {:induction false} RunKeepsInvariant(s: Sched, es: seq<Event>, maxSize: nat)
    requires Wf(s) && Bounded(s, maxSize) && EventsOk(es, maxSize)
    ensures Wf(Run(s, es, maxSize)) && Bounded(Run(s, es, maxSize), maxSize)
    ensures SameQuanta(s, Run(s, es, maxSize))
    decreases |es|
  {
    if es != [] {
      StepKeepsInvariant(s, es[0], maxSize);
      RunKeepsInvariant(Step(s, es[0]).0, es[1..], maxSize);
    }
  }

  // ---------------------------------------------------------------- admission

  lemma {:induction false} TotalUpdate(qs: seq<Queue>, k: nat, q: Queue)
    requires k < |qs|
    ensures TotalByteLength(qs[k := q]) == TotalByteLength(qs) - Bytes(qs[k].pkts) + Bytes(q.pkts)
  {
    if k == 0 {
      assert qs[k := q][1..] == qs[1..];
    } else {
      TotalUpdate(qs[1..], k - 1, q);
      assert qs[k := q][1..] == qs[1..][k - 1 := q];
    }
  }

  /** A packet is let in exactly when it fits the limit with all bytes queued; then it is appended to the
      queue of its priority, or to the last queue, and no other queue's packets move. */
  lemma AdmissionExact(s: Sched, prio: int, p: Packet, qlimBytes: int)
    requires |s.qs| > 0
    ensures var s' := Enque(s, prio, p, qlimBytes);
            && |s'.qs| == |s.qs|
            && forall k: nat :: k < |s.qs| ==>
                 s'.qs[k].pkts == if TotalByteLength(s.qs) + p.size <= qlimBytes && GoesTo(prio, |s.qs|, k)
                                  then s.qs[k].pkts + [p] else s.qs[k].pkts
  {
    hide TotalByteLength;
  }

  lemma {:induction false} SamePktsSameTotal(a: seq<Queue>, b: seq<Queue>)
    requires |a| == |b| && forall k :: 0 <= k < |a| ==> a[k].pkts == b[k].pkts
    ensures TotalByteLength(a) == TotalByteLength(b)
  {
    if a != [] {
      SamePktsSameTotal(a[1..], b[1..]);
    }
  }

  lemma EnqueStaysWithin(s: Sched, prio: int, p: Packet, qlimBytes: int)
    requires |s.qs| > 0 && TotalByteLength(s.qs) <= qlimBytes
    ensures TotalByteLength(Enque(s, prio, p, qlimBytes).qs) <= qlimBytes
  {
    if TotalByteLength(s.qs) + p.size <= qlimBytes {
      var k := Classify(prio, |s.qs|);
      BytesAppend(s.qs[k].pkts, p);
      TotalUpdate(s.qs, k, Enque(s, prio, p, qlimBytes).qs[k]);
    }
    hide TotalByteLength, Bytes;
  }

  lemma DequeShrinks(s: Sched, maxSize: nat)
    requires Wf(s) && Bounded(s, maxSize)
    ensures TotalByteLength(Deque(s).0.qs) <= TotalByteLength(s.qs)
  {
    StepKeepsInvariant(s, Depart, maxSize);
    var (s', o) := Step(s, Depart);
    if o.Sent? {
      var popped := s.qs[o.queue := s'.qs[o.queue]];
      TotalUpdate(s.qs, o.queue, s'.qs[o.queue]);
      assert Bytes(s'.qs[o.queue].pkts) <= Bytes(s.qs[o.queue].pkts);
      SamePktsSameTotal(s'.qs, popped);
    } else {
      BacklogIsListed(s);
    }
    hide Wf, TotalByteLength, Bytes;
  }

  /** With a fixed limit no run takes the port beyond it. */
  lemma {:induction false} RunStaysWithin(s: Sched, es: seq<Event>, maxSize: nat, qlimBytes: int)
    requires Wf(s) && Bounded(s, maxSize) && EventsOk(es, maxSize) && TotalByteLength(s.qs) <= qlimBytes
    requires forall n :: 0 <= n < |es| && es[n].Arrive? ==> es[n].qlimBytes == qlimBytes
    ensures TotalByteLength(Run(s, es, maxSize).qs) <= qlimBytes
    decreases |es|
  {
    if es != [] {
      UnfoldRun(s, es, maxSize);
      var s1 := Step(s, es[0]).0;
      assert TotalByteLength(s1.qs) <= qlimBytes by {
        if es[0].Arrive? {
          EnqueStaysWithin(s, es[0].prio, es[0].pkt, qlimBytes);
        } else {
          DequeShrinks(s, maxSize);
        }
      }
      hide Wf, Bounded, EventOk, EventsOk, Step, TotalByteLength, Run;
      RunStaysWithin(s1, es[1..], maxSize, qlimBytes);
    }
  }

  // ---------------------------------------------------------------- the fairness potential

  /** Of queues i and j, the next one to be granted a quantum is i. */
  ghost predicate NextIsFirst(s: Sched, i: nat, j: nat)
    requires i < |s.qs| && j < |s.qs|
  {
    if Before(s.order, i, j) then !s.qs[i].current else s.qs[j].current
  }

  /** What j may still send ahead of i, in units of byte * quantum. */
  ghost function Potential(s: Sched, i: nat, j: nat): int
    requires i < |s.qs| && j < |s.qs|
  {
    Pot(s.qs[i].quantum, s.qs[j].quantum, s.qs[i].deficit, s.qs[j].deficit, NextIsFirst(s, i, j))
  }

  lemma PotentialRange(s: Sched, maxSize: nat, i: nat, j: nat)
    requires Wf(s) && Bounded(s, maxSize) && i != j && i < |s.qs| && j < |s.qs| && s.qs[i].active
    ensures var qi, qj := s.qs[i].quantum, s.qs[j].quantum;
            -(qj * (qi + maxSize)) < Potential(s, i, j) < qi * maxSize
  {
    var a, b := s.qs[i], s.qs[j];
    var turn := NextIsFirst(s, i, j);
    assert QueueOk(a) && QueueOk(b) && QueueBounded(a, maxSize) && QueueBounded(b, maxSize);
    assert if turn then !a.current else !b.current;
    hide Wf, Bounded, Pot, NextIsFirst;
    PotRangeTurn(a.quantum, b.quantum, a.deficit, b.deficit, maxSize, turn);
  }

  lemma GrantKeepsPotential(s: Sched, i: nat, j: nat)
    requires Wf(s) && s.order != [] && i != j && i < |s.qs| && j < |s.qs| && s.qs[i].active
    ensures Potential(GrantHead(s), i, j) == Potential(s, i, j)
  {
    PotGrant(s.qs[i].quantum, s.qs[j].quantum, s.qs[i].deficit, s.qs[j].deficit);
    hide Pot;
  }

  lemma ServeKeepsTurn(s: Sched, i: nat, j: nat)
    requires Wf(s) && s.order != [] && CanServe(GrantHead(s))
    requires i != j && i < |s.qs| && j < |s.qs| && s.qs[i].active
    requires ServeHead(GrantHead(s)).qs[i].active
    ensures NextIsFirst(ServeHead(GrantHead(s)), i, j) == NextIsFirst(GrantHead(s), i, j)
  {
    GrantKeepsWf(s);
    DistinctTail(s.order);
    if j == s.order[0] {
      BeforeAbsent(s.order[1..], i, j);
    }
  }

  /** Serving a packet moves the potential by exactly the bytes sent; a queue j that empties
      forfeits what is left. */
  lemma ServePaysPotential(s: Sched, i: nat, j: nat)
    requires Wf(s) && s.order != [] && CanServe(GrantHead(s))
    requires i != j && i < |s.qs| && j < |s.qs| && s.qs[i].active
    requires ServeHead(GrantHead(s)).qs[i].active
    ensures var g := GrantHead(s);
            var o := Sent(g.order[0], g.qs[g.order[0]].pkts[0]);
            Potential(ServeHead(g), i, j) + s.qs[i].quantum * SentOf(o, j) - s.qs[j].quantum * SentOf(o, i)
            <= Potential(g, i, j)
  {
    GrantKeepsWf(s);
    ServeKeepsTurn(s, i, j);
    var g := GrantHead(s);
    var s' := ServeHead(g);
    var o := Sent(g.order[0], g.qs[g.order[0]].pkts[0]);
    assert s'.qs[i].deficit == g.qs[i].deficit - SentOf(o, i);
    assert s'.qs[j].deficit <= g.qs[j].deficit - SentOf(o, j);
    assert QueueOk(s.qs[i]);
    hide Wf, Pot, NextIsFirst;
    PotServe(s.qs[i].quantum, s.qs[j].quantum, g.qs[i].deficit, g.qs[j].deficit, s'.qs[j].deficit,
             SentOf(o, i), SentOf(o, j), NextIsFirst(g, i, j));
  }

  lemma RotateKeepsPotential(s: Sched, i: nat, j: nat)
    requires Wf(s) && s.order != [] && !CanServe(GrantHead(s))
    requires i != j && i < |s.qs| && j < |s.qs| && s.qs[i].active
    ensures Potential(RotateHead(GrantHead(s)), i, j) <= Potential(GrantHead(s), i, j)
  {
    GrantKeepsWf(s);
    DistinctTail(s.order);
    BeforeAppend(s.order[1..], s.order[0], i, j);
    if j !in s.order[1..] {
      BeforeAbsent(s.order[1..], i, j);
    }
    var g := GrantHead(s);
    var s' := RotateHead(g);
    assert NextIsFirst(g, i, j) ==> NextIsFirst(s', i, j);
    assert QueueOk(s.qs[i]) && QueueOk(s.qs[j]);
    hide Wf, Pot, NextIsFirst;
    PotTurn(s.qs[i].quantum, s.qs[j].quantum, g.qs[i].deficit, g.qs[j].deficit,
            NextIsFirst(g, i, j), NextIsFirst(s', i, j));
  }

  lemma {:induction false} LoopPaysPotential(s: Sched, maxSize: nat, i: nat, j: nat)
    requires Wf(s) && Bounded(s, maxSize) && s.order != []
    requires i != j && i < |s.qs| && j < |s.qs| && s.qs[i].active
    requires |Loop(s).0.qs| == |s.qs| && Loop(s).0.qs[i].active
    ensures var (s', o) := Loop(s);
            Potential(s', i, j) + s.qs[i].quantum * SentOf(o, j) - s.qs[j].quantum * SentOf(o, i)
            <= Potential(s, i, j)
    decreases Shortfall(s), if s.qs[s.order[0]].current then 1 else 0
  {
    GrantKeepsWf(s);
    GrantKeepsPotential(s, i, j);
    hide Wf, Bounded, Shortfall, Potential, SentOf;
    var g := GrantHead(s);
    if CanServe(g) {
      ServePaysPotential(s, i, j);
    } else {
      RotateProgress(s);
      RotateKeepsBounds(s, maxSize);
      RotateKeepsPotential(s, i, j);
      LoopPaysPotential(RotateHead(g), maxSize, i, j);
    }
  }

  lemma EnqueKeepsPotential(s: Sched, prio: int, p: Packet, qlim: int, i: nat, j: nat)
    requires Wf(s) && i != j && i < |s.qs| && j < |s.qs| && s.qs[i].active
    ensures Potential(Enque(s, prio, p, qlim), i, j) == Potential(s, i, j)
  {
    BeforeAppend(s.order, Classify(prio, |s.qs|), i, j);
    if j !in s.order {
      BeforeAbsent(s.order, i, j);
    }
    hide Pot;
  }

  lemma StepPaysPotential(s: Sched, e: Event, maxSize: nat, i: nat, j: nat)
    requires Wf(s) && Bounded(s, maxSize) && EventOk(e, maxSize)
    requires i != j && i < |s.qs| && j < |s.qs| && s.qs[i].active
    requires |Step(s, e).0.qs| == |s.qs| && Step(s, e).0.qs[i].active
    ensures var (s', o) := Step(s, e);
            Potential(s', i, j) + Lead(s.qs[i].quantum, s.qs[j].quantum, SentOf(o, i), SentOf(o, j))
            <= Potential(s, i, j)
  {
    NoLead(s.qs[i].quantum, s.qs[j].quantum);
    match e
    case Arrive(prio, p, qlim) => EnqueKeepsPotential(s, prio, p, qlim, i, j);
    case Depart =>
      BacklogIsListed(s);
      if s.order != [] {
        LoopPaysPotential(s, maxSize, i, j);
      }
  }

  /** Over a run in which i stays backlogged, the potential pays for j's lead over i. */
  lemma {:induction false} RunPaysPotential(s: Sched, es: seq<Event>, maxSize: nat, i: nat, j: nat)
    requires Wf(s) && Bounded(s, maxSize) && EventsOk(es, maxSize)
    requires i != j && j < |s.qs| && Backlogged(s, es, maxSize, i)
    ensures |Run(s, es, maxSize).qs| == |s.qs|
    ensures Potential(Run(s, es, maxSize), i, j)
            + Lead(s.qs[i].quantum, s.qs[j].quantum, SentBytes(s, es, maxSize, i), SentBytes(s, es, maxSize, j))
            <= Potential(s, i, j)
    decreases |es|
  {
    hide Bounded, EventOk, EventsOk, QueueOk, Step, Potential, SentOf, Run, SentBytes, Backlogged, Lead;
    HeadOfBacklogged(s, es, maxSize, i);
    EmptyRun(s, maxSize);
    NoLead(s.qs[i].quantum, s.qs[j].quantum);
    if es != [] {
      UnfoldRun(s, es, maxSize);
      hide Wf;
      var (s1, o) := Step(s, es[0]);
      StepPaysPotential(s, es[0], maxSize, i, j);
      RunPaysPotential(s1, es[1..], maxSize, i, j);
      LeadSum(s.qs[i].quantum, s.qs[j].quantum, SentOf(o, i), SentOf(o, j),
              SentBytes(s1, es[1..], maxSize, i), SentBytes(s1, es[1..], maxSize, j));
    }
  }

  // ---------------------------------------------------------------- fairness

  /** While i stays backlogged, j cannot get ahead of its share, whatever j and the rest do. */
  lemma NobodyGetsAhead(s: Sched, es: seq<Event>, maxSize: nat, i: nat, j: nat)
    requires Wf(s) && Bounded(s, maxSize) && EventsOk(es, maxSize)
    requires i != j && j < |s.qs| && Backlogged(s, es, maxSize, i)
    ensures var qi, qj := s.qs[i].quantum, s.qs[j].quantum;
            SentBytes(s, es, maxSize, j) * qi - SentBytes(s, es, maxSize, i) * qj
            < qi * qj + maxSize * (qi + qj)
  {
    hide Wf, Bounded, EventsOk, Potential, Backlogged, Run, SentBytes, Lead;
    EndsBacklogged(s, es, maxSize, i);
    RunPaysPotential(s, es, maxSize, i, j);
    RunKeepsInvariant(s, es, maxSize);
    var s' := Run(s, es, maxSize);
    PotentialRange(s, maxSize, i, j);
    PotentialRange(s', maxSize, i, j);
    LeadBound(s.qs[i].quantum, s.qs[j].quantum, maxSize, Potential(s, i, j), Potential(s', i, j),
              SentBytes(s, es, maxSize, i), SentBytes(s, es, maxSize, j));
  }

  lemma {:induction false} EndsBacklogged(s: Sched, es: seq<Event>, maxSize: nat, i: nat)
    requires Wf(s) && Bounded(s, maxSize) && EventsOk(es, maxSize)
    requires Backlogged(s, es, maxSize, i)
    ensures i < |s.qs| == |Run(s, es, maxSize).qs|
    ensures s.qs[i].active && Run(s, es, maxSize).qs[i].active
    decreases |es|
  {
    hide Wf, Bounded, EventOk, Step;
    if es != [] {
      StepKeepsInvariant(s, es[0], maxSize);
      EndsBacklogged(Step(s, es[0]).0, es[1..], maxSize, i);
    }
  }

  /** Pairwise fairness: two queues that stay backlogged send in proportion to their quanta, up to
      one quantum and one packet each, whatever other queues come and go. */
  lemma PairwiseFairness(s: Sched, es: seq<Event>, maxSize: nat, i: nat, j: nat)
    requires Wf(s) && Bounded(s, maxSize) && EventsOk(es, maxSize)
    requires i != j && Backlogged(s, es, maxSize, i) && Backlogged(s, es, maxSize, j)
    ensures var qi, qj := s.qs[i].quantum, s.qs[j].quantum;
            var bound := qi * qj + maxSize * (qi + qj);
            -bound < SentBytes(s, es, maxSize, i) * qj - SentBytes(s, es, maxSize, j) * qi < bound
  {
    NobodyGetsAhead(s, es, maxSize, i, j);
    NobodyGetsAhead(s, es, maxSize, j, i);
  }

  // ---------------------------------------------------------------- delay

  lemma GrantGains(s: Sched, i: nat) returns (first: nat)
    requires Wf(s) && s.order != [] && i < |s.qs|
    ensures GrantHead(s).qs[i].quantum == s.qs[i].quantum
    ensures GrantHead(s).qs[i].deficit == Gained(s.qs[i].deficit, s.qs[i].quantum, first)
    ensures CanServe(GrantHead(s)) && s.order[0] != i ==>
              ServeHead(GrantHead(s)).qs[i].deficit == GrantHead(s).qs[i].deficit
    ensures RotateHead(GrantHead(s)).qs[i].deficit == GrantHead(s).qs[i].deficit
    ensures RotateHead(GrantHead(s)).qs[i].quantum == s.qs[i].quantum
  {
    hide Gained;
    first := if s.order[0] == i && !s.qs[i].current then 1 else 0;
    GainedTwice(s.qs[i].deficit, s.qs[i].quantum, first, 0);
  }

  /** A call that serves somebody else grants i some number of quanta. */
  lemma {:induction false} LoopGrants(s: Sched, maxSize: nat, i: nat) returns (k: nat)
    requires Wf(s) && Bounded(s, maxSize) && s.order != []
    requires i < |s.qs| && Loop(s).1.Sent? && Loop(s).1.queue != i
    ensures |Loop(s).0.qs| == |s.qs|
    ensures Loop(s).0.qs[i].deficit == Gained(s.qs[i].deficit, s.qs[i].quantum, k)
    decreases Shortfall(s), if s.qs[s.order[0]].current then 1 else 0
  {
    hide Bounded, QueueOk, Short, Shortfall, Gained;
    k := GrantGains(s, i);
    if !CanServe(GrantHead(s)) {
      RotateProgress(s);
      RotateKeepsBounds(s, maxSize);
      var rest := LoopGrants(RotateHead(GrantHead(s)), maxSize, i);
      GainedTwice(s.qs[i].deficit, s.qs[i].quantum, k, rest);
      k := k + rest;
    }
  }

  /** A call that serves somebody else leaves i its packets, and short of the first. */
  lemma LoopWaits(s: Sched, maxSize: nat, i: nat) returns (k: nat)
    requires Wf(s) && Bounded(s, maxSize) && s.order != []
    requires i < |s.qs| && s.qs[i].pkts != [] && SentOf(Loop(s).1, i) == 0
    ensures var s' := Loop(s).0;
            && |s'.qs| == |s.qs| && s'.qs[i].pkts == s.qs[i].pkts
            && s'.qs[i].deficit == Gained(s.qs[i].deficit, s.qs[i].quantum, k)
            && s'.qs[i].deficit < s.qs[i].pkts[0].size
  {
    LoopKeepsInvariant(s, maxSize);
    var (s', o) := Loop(s);
    assert o.queue != i by { assert QueueOk(s.qs[i]); }
    hide Loop, Bounded, Gained, QueueOk, TotalByteLength;
    k := LoopGrants(s, maxSize, i);
    assert Short(s'.qs[i]);
  }

  lemma StepWaits(s: Sched, e: Event, maxSize: nat, i: nat) returns (k: nat)
    requires Wf(s) && Bounded(s, maxSize) && EventOk(e, maxSize)
    requires i < |s.qs| && s.qs[i].active && SentOf(Step(s, e).1, i) == 0
    ensures |Step(s, e).0.qs| == |s.qs| && s.qs[i].pkts <= Step(s, e).0.qs[i].pkts && s.qs[i].pkts != []
    ensures Step(s, e).0.qs[i].deficit == Gained(s.qs[i].deficit, s.qs[i].quantum, k)
    ensures k == 0 || Step(s, e).0.qs[i].deficit < s.qs[i].pkts[0].size
  {
    assert s.qs[i].pkts != [] by { assert QueueOk(s.qs[i]); }
    k := 0;
    GainedTwice(s.qs[i].deficit, s.qs[i].quantum, 0, 0);
    if e.Arrive? {
      hide Wf, Bounded, Gained, TotalByteLength, EventOk, SentOf;
    } else {
      BacklogIsListed(s);
      if s.order != [] {
        k := LoopWaits(s, maxSize, i);
      }
    }
  }

  /** While i waits its head packet stays, and every quantum it got was too little. */
  lemma {:induction false} RunWaits(s: Sched, es: seq<Event>, maxSize: nat, i: nat) returns (k: nat)
    requires Wf(s) && Bounded(s, maxSize) && EventsOk(es, maxSize)
    requires Backlogged(s, es, maxSize, i) && SentBytes(s, es, maxSize, i) == 0
    ensures |Run(s, es, maxSize).qs| == |s.qs| && s.qs[i].pkts != []
    ensures Run(s, es, maxSize).qs[i].deficit == Gained(s.qs[i].deficit, s.qs[i].quantum, k)
    ensures k == 0 || Run(s, es, maxSize).qs[i].deficit < s.qs[i].pkts[0].size
    decreases |es|
  {
    hide Bounded, EventOk, EventsOk, QueueOk, Step, SentOf, Gained, Run, SentBytes, Backlogged;
    HeadOfBacklogged(s, es, maxSize, i);
    EmptyRun(s, maxSize);
    k := 0;
    GainedTwice(s.qs[i].deficit, s.qs[i].quantum, 0, 0);
    if es != [] {
      UnfoldRun(s, es, maxSize);
      hide Wf;
      var s1 := Step(s, es[0]).0;
      var k1 := StepWaits(s, es[0], maxSize, i);
      var k2 := RunWaits(s1, es[1..], maxSize, i);
      k := k1 + k2;
      GainedTwice(s.qs[i].deficit, s.qs[i].quantum, k1, k2);
      GainedTwice(s1.qs[i].deficit, s1.qs[i].quantum, 0, k2);
    }
  }

  lemma QueueFacts(s: Sched, maxSize: nat, i: nat, j: nat)
    requires Wf(s) && Bounded(s, maxSize) && i < |s.qs| && j < |s.qs| && i != j
    ensures s.qs[i].quantum > 0 && s.qs[i].deficit >= 0
    ensures s.qs[i].active ==> s.qs[i].pkts != [] && s.qs[i].pkts[0].size > 0
    ensures s.qs[j].quantum > 0 && s.qs[j].deficit < (if NextIsFirst(s, i, j) then s.qs[j].quantum else 0) + maxSize
  {
    assert QueueOk(s.qs[i]) && QueueOk(s.qs[j]) && QueueBounded(s.qs[j], maxSize);
    assert !NextIsFirst(s, i, j) ==> !s.qs[j].current;
  }

  /** Bounded delay: while a backlogged queue i with head packet size S sends nothing, any other
      queue j sends less than ceil(S / Qi) quanta plus one packet. */
  lemma BoundedDelay(s: Sched, es: seq<Event>, maxSize: nat, i: nat, j: nat)
    requires Wf(s) && Bounded(s, maxSize) && EventsOk(es, maxSize)
    requires i != j && j < |s.qs| && Backlogged(s, es, maxSize, i) && SentBytes(s, es, maxSize, i) == 0
    ensures s.qs[i].pkts != [] && s.qs[i].pkts[0].size > 0 && s.qs[i].quantum > 0
    ensures SentBytes(s, es, maxSize, j) < Rounds(s.qs[i].pkts[0].size, s.qs[i].quantum) * s.qs[j].quantum + maxSize
  {
    hide QueueOk, EventsOk, Backlogged, NextIsFirst, Run, SentBytes, Pot, Rounds, Lead;
    EndsBacklogged(s, es, maxSize, i);
    RunKeepsInvariant(s, es, maxSize);
    var s' := Run(s, es, maxSize);
    QueueFacts(s, maxSize, i, j);
    QueueFacts(s', maxSize, j, i);
    hide Wf, Bounded;
    RunPaysPotential(s, es, maxSize, i, j);
    var k := RunWaits(s, es, maxSize, i);
    WaitBound(s.qs[i].quantum, s.qs[j].quantum, maxSize, s.qs[i].pkts[0].size, k, s.qs[i].deficit,
              s.qs[j].deficit, s'.qs[j].deficit, SentBytes(s, es, maxSize, j),
              NextIsFirst(s, i, j), NextIsFirst(s', i, j));
  }

  /** All the others together. */
  lemma BoundedDelayTotal(s: Sched, es: seq<Event>, maxSize: nat, i: nat)
    requires Wf(s) && Bounded(s, maxSize) && EventsOk(es, maxSize)
    requires Backlogged(s, es, maxSize, i) && SentBytes(s, es, maxSize, i) == 0
    ensures s.qs[i].pkts != [] && s.qs[i].pkts[0].size > 0 && s.qs[i].quantum > 0
    ensures forall j :: 0 <= j < |s.qs| ==> s.qs[j].quantum > 0
    ensures var rounds := Rounds(s.qs[i].pkts[0].size, s.qs[i].quantum);
            Sum(seq(|s.qs|, j requires 0 <= j < |s.qs| => if j == i then 0 else SentBytes(s, es, maxSize, j)))
            <= Sum(seq(|s.qs|, j requires 0 <= j < |s.qs| => if j == i then 0 else rounds * s.qs[j].quantum + maxSize))
  {
    assert QueueOk(s.qs[i]);
    var rounds := Rounds(s.qs[i].pkts[0].size, s.qs[i].quantum);
    var sent := seq(|s.qs|, j requires 0 <= j < |s.qs| => if j == i then 0 else SentBytes(s, es, maxSize, j));
    var cap := seq(|s.qs|, j requires 0 <= j < |s.qs| => if j == i then 0 else rounds * s.qs[j].quantum + maxSize);
    forall j | 0 <= j < |s.qs| ensures sent[j] <= cap[j] {
      if j != i {
        BoundedDelay(s, es, maxSize, i, j);
      }
    }
    SumMonotone(sent, cap);
    assert forall j :: 0 <= j < |s.qs| ==> QueueOk(s.qs[j]);
  }
}
