/** Fairness among the DWRR queues of sch_prio_dwrr, which take their quantum when visited and run only
    while the high-priority queue is empty and the token bucket allows. */
module PrioDwrrFairness {
  import opened ActiveOrder
  import opened Fairness
  import opened KernelPackets
  import opened PrioDwrr
  import opened PrioDwrrRuns
  import opened TokenBucket

  // ---------------------------------------------------------------- the potential

  /** Of queues i and j, the next one to be granted a quantum is i. */
  ghost predicate NextIsFirst(s: Sched, i: nat, j: nat)
    requires Sized(s) && i < DWRR_QUEUES && j < DWRR_QUEUES
  {
    if Before(s.order, i, j) then !s.queues[i].curr else s.queues[j].curr
  }

  /** What a queue may spend; an idle one starts again from zero. */
  ghost function Credit(q: Class): int
  {
    if q.active then q.deficit else 0
  }

  ghost function Potential(s: Sched, i: nat, j: nat, qi: int, qj: int): int
    requires Sized(s) && i < DWRR_QUEUES && j < DWRR_QUEUES
  {
    Pot(qi, qj, s.queues[i].deficit, Credit(s.queues[j]), NextIsFirst(s, i, j))
  }

  /** Queue i is active with quantum qi, and so is j with qj whenever it is active. */
  ghost predicate Quanta(s: Sched, i: nat, j: nat, qi: int, qj: int)
  {
    && Sized(s) && i < DWRR_QUEUES && j < DWRR_QUEUES && i != j
    && qi >= MAX_PKT_BYTES && qj >= MAX_PKT_BYTES
    && s.queues[i].active && s.queues[i].quantum == qi && (s.queues[j].active ==> s.queues[j].quantum == qj)
  }

  ghost function SentTo(o: Outcome, k: nat): nat
  {
    if o.SentLow? && o.queue == k then SkbSize(o.pkt) else 0
  }

  /** The configured quanta of i and j are these. */
  ghost predicate FairConfig(c: Config, i: nat, j: nat, qi: int, qj: int)
    requires ConfigOk(c) && i < DWRR_QUEUES && j < DWRR_QUEUES
  {
    c.quantum[i] == qi && c.quantum[j] == qj
  }

  lemma PotentialRange(s: Sched, i: nat, j: nat, qi: int, qj: int)
    requires Wf(s) && Quanta(s, i, j, qi, qj)
    ensures -(qj * (qi + MAX_PKT_BYTES)) < Potential(s, i, j, qi, qj) < qi * MAX_PKT_BYTES
  {
    var a, b := s.queues[i], s.queues[j];
    assert ClassOk(a) && ClassOk(b) && i in s.order && (j in s.order <==> b.active);
    BeforeHead(s.order, i, j);
    hide ClassOk, Pot, Sums, Before;
    PotRangeTurn(qi, qj, a.deficit, Credit(b), MAX_PKT_BYTES, NextIsFirst(s, i, j));
  }

  // ---------------------------------------------------------------- the steps pay

  lemma GrantKeepsPotential(s: Sched, i: nat, j: nat, qi: int, qj: int)
    requires Wf(s) && HasHead(s) && Quanta(s, i, j, qi, qj)
    ensures Quanta(GrantHead(s), i, j, qi, qj)
    ensures Potential(GrantHead(s), i, j, qi, qj) == Potential(s, i, j, qi, qj)
  {
    ListHasHead(s);
    BeforeHead(s.order, i, j);
    PotGrant(qi, qj, s.queues[i].deficit, s.queues[j].deficit);
    hide Pot, Before, Classes, Sums;
  }

  lemma RotateKeepsPotential(s: Sched, c: Config, i: nat, j: nat, qi: int, qj: int)
    requires Wf(s) && HasHead(s) && ConfigOk(c) && Quanta(s, i, j, qi, qj) && FairConfig(c, i, j, qi, qj)
    requires s.queues[s.order[0]].curr
    ensures Quanta(RotateHead(s, c), i, j, qi, qj)
    ensures Potential(RotateHead(s, c), i, j, qi, qj) <= Potential(s, i, j, qi, qj)
  {
    var s' := RotateHead(s, c);
    assert i in s.order;
    BeforeHead(s.order, i, j);
    BeforeRotate(s.order, i, j);
    if j !in s.order {
      BeforeAbsent(s.order, i, j);
    }
    hide Pot, Before, Classes, Sums;
    assert NextIsFirst(s, i, j) ==> NextIsFirst(s', i, j);
    PotTurn(qi, qj, s.queues[i].deficit, Credit(s.queues[j]), NextIsFirst(s, i, j), NextIsFirst(s', i, j));
  }

  lemma SendKeepsTurn(s: Sched, c: Config, now: int, i: nat, j: nat)
    requires Wf(s) && HasHead(s) && s.queues[s.order[0]].curr && i < DWRR_QUEUES && j < DWRR_QUEUES && i != j
    requires SendLow(s, c, now).queues[i].active
    ensures NextIsFirst(SendLow(s, c, now), i, j) == NextIsFirst(s, i, j)
  {
    ListHasHead(s);
    assert i in s.order;
    BeforeHead(s.order, i, j);
    if s.order[0] != i {
      BeforeDrop(s.order, i, j);
    }
    hide Before, Classes, Sums, L2tNs, Depart, SkbSize;
  }

  lemma SendPaysPotential(s: Sched, c: Config, now: int, i: nat, j: nat, qi: int, qj: int)
    requires Wf(s) && HasHead(s) && HeadFits(s) && s.queues[s.order[0]].curr && Quanta(s, i, j, qi, qj)
    requires SendLow(s, c, now).queues[i].active
    ensures var s' := SendLow(s, c, now);
            var o := SentLow(s.order[0], s.queues[s.order[0]].pkts[0]);
            Quanta(s', i, j, qi, qj)
            && Potential(s', i, j, qi, qj) + qi * SentTo(o, j) - qj * SentTo(o, i) <= Potential(s, i, j, qi, qj)
  {
    ListHasHead(s);
    SendKeepsTurn(s, c, now, i, j);
    var s' := SendLow(s, c, now);
    var o := SentLow(s.order[0], s.queues[s.order[0]].pkts[0]);
    hide Pot, NextIsFirst, Listed, Classes, Sums, L2tNs, Depart, SkbSize;
    PotServe(qi, qj, s.queues[i].deficit, Credit(s.queues[j]), Credit(s'.queues[j]),
             SentTo(o, i), SentTo(o, j), NextIsFirst(s, i, j));
  }

  lemma AttemptPaysPotential(s: Sched, c: Config, now: int, i: nat, j: nat, qi: int, qj: int)
    requires Wf(s) && HasHead(s) && HeadFits(s) && s.queues[s.order[0]].curr && Quanta(s, i, j, qi, qj)
    requires Sized(AttemptLow(s, c, now).0) && AttemptLow(s, c, now).0.queues[i].active
    ensures var (s', o) := AttemptLow(s, c, now);
            Quanta(s', i, j, qi, qj)
            && Potential(s', i, j, qi, qj) + qi * SentTo(o, j) - qj * SentTo(o, i) <= Potential(s, i, j, qi, qj)
  {
    hide Potential, Quanta, Wf, L2tNs, SkbSize, Result;
    if AttemptLow(s, c, now).1.SentLow? {
      assert AttemptLow(s, c, now).0 == SendLow(s, c, now);
      SendPaysPotential(s, c, now, i, j, qi, qj);
    }
  }

  lemma DequeueLowPays(s: Sched, c: Config, now: int, i: nat, j: nat, qi: int, qj: int)
    requires Wf(s) && ConfigOk(c) && s.order != [] && s.sumPrioLen == 0
    requires Quanta(s, i, j, qi, qj) && FairConfig(c, i, j, qi, qj)
    requires Sized(Dequeue(s, c, now).0) && Dequeue(s, c, now).0.queues[i].active
    ensures var (s', o) := Dequeue(s, c, now);
            Quanta(s', i, j, qi, qj)
            && Potential(s', i, j, qi, qj) + qi * SentTo(o, j) - qj * SentTo(o, i) <= Potential(s, i, j, qi, qj)
  {
    RotationSuffices(s, c);
    GrantKeepsWf(s);
    GrantKeepsPotential(s, i, j, qi, qj);
    hide Potential, Quanta, Wf, AttemptLow, SentTo;
    var g := GrantHead(s);
    if HeadFits(g) {
      AttemptPaysPotential(g, c, now, i, j, qi, qj);
    } else {
      RotateKeepsPotential(g, c, i, j, qi, qj);
      var r := RotateHead(g, c);
      GrantKeepsWf(r);
      GrantKeepsPotential(r, i, j, qi, qj);
      AttemptPaysPotential(GrantHead(r), c, now, i, j, qi, qj);
    }
  }

  lemma PollPaysPotential(s: Sched, c: Config, now: int, i: nat, j: nat, qi: int, qj: int)
    requires Wf(s) && ConfigOk(c) && Quanta(s, i, j, qi, qj) && FairConfig(c, i, j, qi, qj)
    requires Sized(Dequeue(s, c, now).0) && Dequeue(s, c, now).0.queues[i].active
    ensures var (s', o) := Dequeue(s, c, now);
            Quanta(s', i, j, qi, qj)
            && Potential(s', i, j, qi, qj) + qi * SentTo(o, j) - qj * SentTo(o, i) <= Potential(s, i, j, qi, qj)
  {
    if s.sumPrioLen == 0 {
      assert i in s.order;
      DequeueLowPays(s, c, now, i, j, qi, qj);
    }
    hide Pot, SkbSize, L2tNs, Result, Depart, Before, DequeueLow;
  }

  lemma ArrivalParts(s: Sched, c: Config, id: nat, p: Packet, childAccepts: bool, i: nat, j: nat, qi: int, qj: int)
    requires Wf(s) && ConfigOk(c) && id < MAX_QUEUES && Quanta(s, i, j, qi, qj) && FairConfig(c, i, j, qi, qj)
    ensures var s' := Enqueue(s, c, id, p, childAccepts).0;
            && Quanta(s', i, j, qi, qj)
            && s'.queues[i].deficit == s.queues[i].deficit && s'.queues[i].curr == s.queues[i].curr
            && Credit(s'.queues[j]) == Credit(s.queues[j]) && (s.queues[j].active ==> s'.queues[j].curr == s.queues[j].curr)
            && (s'.order == s.order || (id > 0 && s'.order == s.order + [id - 1]))
  {
    hide SkbSize, Overfill, Classes, Sums, Listed;
  }

  lemma ArrivalKeepsPotential(s: Sched, c: Config, id: nat, p: Packet, childAccepts: bool, i: nat, j: nat, qi: int, qj: int)
    requires Wf(s) && ConfigOk(c) && id < MAX_QUEUES && Quanta(s, i, j, qi, qj) && FairConfig(c, i, j, qi, qj)
    ensures var s' := Enqueue(s, c, id, p, childAccepts).0;
            Quanta(s', i, j, qi, qj) && Potential(s', i, j, qi, qj) == Potential(s, i, j, qi, qj)
  {
    assert i in s.order && (j in s.order <==> s.queues[j].active) && i != j;
    ArrivalParts(s, c, id, p, childAccepts, i, j, qi, qj);
    hide Wf, Listed, ConfigOk, Enqueue, Quanta, FairConfig, Credit, Pot, Before;
    if id > 0 {
      BeforeAppend(s.order, id - 1, i, j);
    }
    if j !in s.order {
      BeforeAbsent(s.order, i, j);
    }
  }

  // ---------------------------------------------------------------- runs

  ghost function Output(s: Sched, e: Event): Outcome
    requires Wf(s) && EventOk(e)
  {
    if e.Poll? then Dequeue(s, e.c, e.now).1 else Nothing
  }

  ghost predicate EventsOk(es: seq<Event>)
  {
    forall n :: 0 <= n < |es| ==> EventOk(es[n])
  }

  /** DWRR queue k is non-empty before and after every event. */
  ghost predicate Backlogged(s: Sched, es: seq<Event>, k: nat)
    requires Wf(s) && EventsOk(es)
    decreases |es|
  {
    k < DWRR_QUEUES && s.queues[k].active && (es == [] || Backlogged(Step(s, es[0]), es[1..], k))
  }

  ghost function SentBytes(s: Sched, es: seq<Event>, k: nat): nat
    requires Wf(s) && EventsOk(es)
    decreases |es|
  {
    if es == [] then 0 else SentTo(Output(s, es[0]), k) + SentBytes(Step(s, es[0]), es[1..], k)
  }

  ghost predicate FairRun(es: seq<Event>, i: nat, j: nat, qi: int, qj: int)
    requires EventsOk(es) && i < DWRR_QUEUES && j < DWRR_QUEUES
  {
    forall n :: 0 <= n < |es| ==> FairConfig(es[n].c, i, j, qi, qj)
  }

  lemma StepPaysPotential(s: Sched, e: Event, i: nat, j: nat, qi: int, qj: int)
    requires Wf(s) && EventOk(e) && Quanta(s, i, j, qi, qj) && FairConfig(e.c, i, j, qi, qj)
    requires Step(s, e).queues[i].active
    ensures Quanta(Step(s, e), i, j, qi, qj)
    ensures Potential(Step(s, e), i, j, qi, qj) + Lead(qi, qj, SentTo(Output(s, e), i), SentTo(Output(s, e), j))
            <= Potential(s, i, j, qi, qj)
  {
    assert Sized(Step(s, e));
    hide Wf, Potential, Quanta, Dequeue, Enqueue, FairConfig;
    match e
    case Arrive(id, p, childAccepts, c) =>
      ArrivalKeepsPotential(s, c, id, p, childAccepts, i, j, qi, qj);
      NoLead(qi, qj);
    case Poll(now, c) => PollPaysPotential(s, c, now, i, j, qi, qj);
  }

  lemma UnfoldRun(s: Sched, es: seq<Event>, i: nat, j: nat, qi: int, qj: int)
    requires Wf(s) && EventsOk(es) && i < DWRR_QUEUES && j < DWRR_QUEUES && es != []
    requires Backlogged(s, es, i) && FairRun(es, i, j, qi, qj)
    ensures var s1 := Step(s, es[0]);
            && EventOk(es[0]) && EventsOk(es[1..]) && Wf(s1) && Sized(s1)
            && FairConfig(es[0].c, i, j, qi, qj) && FairRun(es[1..], i, j, qi, qj)
            && s1.queues[i].active && Backlogged(s1, es[1..], i)
            && Run(s, es) == Run(s1, es[1..])
            && SentBytes(s, es, i) == SentTo(Output(s, es[0]), i) + SentBytes(s1, es[1..], i)
            && SentBytes(s, es, j) == SentTo(Output(s, es[0]), j) + SentBytes(s1, es[1..], j)
  {
    assert Backlogged(Step(s, es[0]), es[1..], i);
    assert Listed(Step(s, es[0]));
    hide EventOk, Step, Output, SentTo, FairConfig, Listed, Classes, Sums;
  }

  lemma EmptyRun(s: Sched, i: nat, j: nat)
    requires Wf(s)
    ensures Run(s, []) == s && SentBytes(s, [], i) == 0 && SentBytes(s, [], j) == 0
  {}

  lemma {:induction false} RunPaysPotential(s: Sched, es: seq<Event>, i: nat, j: nat, qi: int, qj: int)
    requires Wf(s) && EventsOk(es) && Quanta(s, i, j, qi, qj)
    requires Backlogged(s, es, i) && FairRun(es, i, j, qi, qj)
    ensures Quanta(Run(s, es), i, j, qi, qj)
    ensures Potential(Run(s, es), i, j, qi, qj) + Lead(qi, qj, SentBytes(s, es, i), SentBytes(s, es, j))
            <= Potential(s, i, j, qi, qj)
    decreases |es|
  {
    hide EventOk, EventsOk, Potential, FairConfig, FairRun, Backlogged, Run, SentBytes, Step, Output, SentTo, Lead;
    hide Listed, Classes, Sums;
    if es == [] {
      EmptyRun(s, i, j);
      NoLead(qi, qj);
    } else {
      UnfoldRun(s, es, i, j, qi, qj);
      var s1, o := Step(s, es[0]), Output(s, es[0]);
      StepPaysPotential(s, es[0], i, j, qi, qj);
      RunPaysPotential(s1, es[1..], i, j, qi, qj);
      LeadSum(qi, qj, SentTo(o, i), SentTo(o, j), SentBytes(s1, es[1..], i), SentBytes(s1, es[1..], j));
    }
  }

  /** While queue i stays backlogged, queue j cannot get ahead of its share: whatever j and the
      high-priority traffic do, however the other quanta and the rate are rewritten, and across calls
      that grant or rotate and are then throttled. */
  lemma NobodyGetsAhead(s: Sched, es: seq<Event>, i: nat, j: nat, qi: int, qj: int)
    requires Wf(s) && EventsOk(es) && Quanta(s, i, j, qi, qj)
    requires Backlogged(s, es, i) && FairRun(es, i, j, qi, qj)
    ensures SentBytes(s, es, j) * qi - SentBytes(s, es, i) * qj < qi * qj + MAX_PKT_BYTES * (qi + qj)
  {
    assert qi > 0 && qj > 0;
    hide Wf, Potential, Quanta, Backlogged, SentBytes, FairRun, EventsOk, Lead, Run;
    RunPaysPotential(s, es, i, j, qi, qj);
    var s' := Run(s, es);
    PotentialRange(s, i, j, qi, qj);
    PotentialRange(s', i, j, qi, qj);
    LeadBound(qi, qj, MAX_PKT_BYTES, Potential(s, i, j, qi, qj), Potential(s', i, j, qi, qj),
              SentBytes(s, es, i), SentBytes(s, es, j));
  }

  /** Pairwise fairness of two DWRR queues backlogged throughout a run. */
  lemma PairwiseFairness(s: Sched, es: seq<Event>, i: nat, j: nat)
    requires Wf(s) && EventsOk(es) && i < DWRR_QUEUES && j < DWRR_QUEUES && i != j
    requires Backlogged(s, es, i) && Backlogged(s, es, j)
    requires FairRun(es, i, j, s.queues[i].quantum, s.queues[j].quantum)
    ensures var qi, qj := s.queues[i].quantum, s.queues[j].quantum;
            var bound := qi * qj + MAX_PKT_BYTES * (qi + qj);
            -bound < SentBytes(s, es, i) * qj - SentBytes(s, es, j) * qi < bound
  {
    assert s.queues[i].active && s.queues[j].active;
    assert ClassOk(s.queues[i]) && ClassOk(s.queues[j]);
    var qi, qj := s.queues[i].quantum, s.queues[j].quantum;
    assert FairRun(es, j, i, qj, qi) by {
      forall n | 0 <= n < |es| ensures FairConfig(es[n].c, j, i, qj, qi) {
        assert FairConfig(es[n].c, i, j, qi, qj);
      }
    }
    hide Wf, Backlogged, SentBytes, EventsOk, FairRun;
    NobodyGetsAhead(s, es, i, j, qi, qj);
    NobodyGetsAhead(s, es, j, i, qj, qi);
  }
}
