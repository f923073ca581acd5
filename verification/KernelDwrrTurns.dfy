/** The turns of a class of sch_dwrr over whole runs, in deficit and in WRR mode: what it is granted, what
    it forfeits, what it sends, and how long its rounds take. */
module KernelDwrrTurns {
  import opened ActiveOrder
  import opened Arithmetic
  import opened KernelDwrr
  import opened KernelDwrrFairness
  import opened KernelDwrrRuns
  import opened KernelPackets
  import opened TokenBucket

  /** The call finds that class k, the head of the highest priority, cannot be scheduled: its turn ends. */
  ghost predicate EndsTurn(s: Sched, e: Event, k: nat)
    requires Wf(s)
  {
    var prio := PrioFrom(s.active, 0);
    e.Tick? && prio >= 0 && HasHead(s, prio) && Head(s, prio) == k && !HeadFits(s, prio)
  }

  /** What is granted to class k when its turn ends. */
  ghost function Granted(s: Sched, e: Event, k: nat): int
    requires Wf(s) && EventOk(e) && k < MAX_QUEUES
  {
    if EndsTurn(s, e, k) then e.c.quantum[k] else 0
  }

  /** What class k then gives up: all it has left in WRR mode, nothing in deficit mode. */
  ghost function Forfeited(s: Sched, e: Event, k: nat): int
    requires Wf(s) && EventOk(e) && k < MAX_QUEUES
  {
    if EndsTurn(s, e, k) && e.c.wrr then s.cls[k].deficit else 0
  }

  ghost function SentOf(o: Outcome, k: nat): nat
  {
    if o.Sent? && o.queue == k then SkbSize(o.pkt) else 0
  }

  // ---------------------------------------------------------------- one call

  /** The state in which the call attempts to send. */
  ghost function Served(s: Sched, c: Config): Sched
    requires Wf(s) && ConfigOk(c) && PrioFrom(s.active, 0) >= 0
  {
    var prio := PrioFrom(s.active, 0);
    ListHasHead(s, prio);
    if HeadFits(s, prio) then s else RotateHead(s, c, prio)
  }

  lemma TickServes(s: Sched, e: Event)
    requires Wf(s) && EventOk(e) && e.Tick?
    ensures PrioFrom(s.active, 0) < 0 ==> Step(s, e) == s && Output(s, e) == Nothing
    ensures var prio := PrioFrom(s.active, 0);
            prio >= 0 ==>
              && HasHead(s, prio) && HasHead(Served(s, e.c), prio)
              && (Step(s, e), Output(s, e)) == Serve(Served(s, e.c), e.c, prio, e.now)
  {
    var prio := PrioFrom(s.active, 0);
    if prio >= 0 {
      ListHasHead(s, prio);
      RotationSuffices(s, e.c, prio);
    }
    hide Wf, Serve, RotateHead, HeadFits;
  }

  /** The rotation, if any, of the served state. */
  lemma ServedClass(s: Sched, e: Event, k: nat)
    requires Wf(s) && EventOk(e) && e.Tick? && PrioFrom(s.active, 0) >= 0 && k < MAX_QUEUES
    ensures Sized(s) && Sized(Served(s, e.c))
    ensures var cl, cl' := s.cls[k], Served(s, e.c).cls[k];
            && cl'.pkts == cl.pkts && cl'.lastPktTime == cl.lastPktTime
            && cl'.deficit == cl.deficit + Granted(s, e, k) - Forfeited(s, e, k)
            && (if EndsTurn(s, e, k) then cl'.quantum == e.c.quantum[k] && cl'.startTime == cl.lastPktTime
                else cl'.quantum == cl.quantum && cl'.startTime == cl.startTime)
            && Served(s, e.c).prioLen == s.prioLen && Served(s, e.c).lastIdle == s.lastIdle
  {
    var prio := PrioFrom(s.active, 0);
    ListHasHead(s, prio);
    hide Wf, HeadFits, PrioFrom, SampleRound;
  }

  lemma ServeClass(g: Sched, c: Config, prio: nat, now: int, k: nat)
    requires HasHead(g, prio) && k < MAX_QUEUES
    ensures Sized(Serve(g, c, prio, now).0)
    ensures var (s', o) := Serve(g, c, prio, now);
            var cl, cl' := g.cls[k], s'.cls[k];
            && cl'.deficit == cl.deficit - SentOf(o, k) && cl'.quantum == cl.quantum && cl'.startTime == cl.startTime
            && cl'.lastPktTime == (if SentOf(o, k) > 0 then now + L2tNs(c.rate, SentOf(o, k)) else cl.lastPktTime)
            && cl'.pkts == (if SentOf(o, k) > 0 && cl.pkts != [] then cl.pkts[1..] else cl.pkts)
  {
    hide SkbSize, L2tNs, TbfSchedule, Depart, S64Ewma;
  }

  /** Class k is on some list. */
  ghost predicate Listed(s: Sched, k: nat)
  {
    k < |s.cls| && s.cls[k].pkts != []
  }

  lemma ArrivalClass(s: Sched, e: Event, k: nat)
    requires Wf(s) && EventOk(e) && e.Arrive? && k < MAX_QUEUES
    ensures Sized(s) && Sized(Step(s, e))
    ensures var cl, cl' := s.cls[k], Step(s, e).cls[k];
            if cl.pkts == [] && cl'.pkts != [] then
              cl'.pkts == [e.pkt] && cl'.deficit == cl'.quantum == e.c.quantum[k] && cl'.startTime == e.now && cl'.lastPktTime == cl.lastPktTime
            else
              cl'.deficit == cl.deficit && cl'.quantum == cl.quantum && cl'.startTime == cl.startTime
              && cl'.lastPktTime == cl.lastPktTime && (cl.pkts != [] ==> cl'.pkts != [])
  {
    ClassPrioOk(s, e.queue);
    hide Wf, Overfill, DecayRound, IdleRounds, SkbSize;
  }

  // ---------------------------------------------------------------- the account

  lemma StepAccount(s: Sched, e: Event, k: nat)
    requires Wf(s) && EventOk(e) && Listed(s, k)
    ensures Sized(s) && Sized(Step(s, e)) && k < MAX_QUEUES
    ensures Step(s, e).cls[k].deficit
            == s.cls[k].deficit + Granted(s, e, k) - Forfeited(s, e, k) - SentOf(Output(s, e), k)
  {
    assert Sized(s);
    if e.Arrive? {
      ArrivalClass(s, e, k);
    } else {
      TickServes(s, e);
      if PrioFrom(s.active, 0) >= 0 {
        ServedClass(s, e, k);
        ServeClass(Served(s, e.c), e.c, PrioFrom(s.active, 0), e.now, k);
      }
    }
    hide Wf, Step, Output, Served, Serve, EndsTurn, PrioFrom;
  }

  ghost predicate StaysListed(s: Sched, es: seq<Event>, k: nat)
    requires Wf(s) && EventsOk(es)
    decreases |es|
  {
    Listed(s, k) && (es == [] || (StepKeepsWf(s, es[0]); StaysListed(Step(s, es[0]), es[1..], k)))
  }

  /** What a run grants to class k, makes it forfeit, and sends of it. */
  datatype Ledger = Ledger(granted: int, forfeited: int, sent: int, turns: nat)

  ghost function Totals(s: Sched, es: seq<Event>, k: nat): Ledger
    requires Wf(s) && EventsOk(es) && k < MAX_QUEUES
    decreases |es|
  {
    if es == [] then Ledger(0, 0, 0, 0)
    else
      assert EventOk(es[0]);
      StepKeepsWf(s, es[0]);
      var rest := Totals(Step(s, es[0]), es[1..], k);
      Ledger(Granted(s, es[0], k) + rest.granted, Forfeited(s, es[0], k) + rest.forfeited,
             SentOf(Output(s, es[0]), k) + rest.sent, (if EndsTurn(s, es[0], k) then 1 else 0) + rest.turns)
  }

  lemma UnfoldTotals(s: Sched, es: seq<Event>, k: nat)
    requires Wf(s) && EventsOk(es) && k < MAX_QUEUES && es != []
    ensures EventOk(es[0]) && EventsOk(es[1..]) && Wf(Step(s, es[0])) && Run(s, es) == Run(Step(s, es[0]), es[1..])
    ensures var rest := Totals(Step(s, es[0]), es[1..], k);
            Totals(s, es, k) == Ledger(Granted(s, es[0], k) + rest.granted, Forfeited(s, es[0], k) + rest.forfeited,
                                       SentOf(Output(s, es[0]), k) + rest.sent,
                                       (if EndsTurn(s, es[0], k) then 1 else 0) + rest.turns)
    ensures StaysListed(s, es, k) ==> Listed(s, k) && StaysListed(Step(s, es[0]), es[1..], k)
  {
    assert EventOk(es[0]);
    StepKeepsWf(s, es[0]);
    hide Wf, EventOk, Step, Output, Granted, Forfeited, EndsTurn, SentOf;
  }

  lemma SizedRun(s: Sched, es: seq<Event>)
    requires Wf(s) && EventsOk(es)
    ensures Sized(s) && Sized(Run(s, es))
  {}

  /** The account of every class over any run in which it stays listed, however the configuration and the
      mode change: what it sent and forfeited is what it was granted, up to its deficits at both ends. */
  lemma {:induction false} TurnAccount(s: Sched, es: seq<Event>, k: nat)
    requires Wf(s) && EventsOk(es) && StaysListed(s, es, k)
    ensures Sized(s) && Sized(Run(s, es)) && k < MAX_QUEUES
    ensures var t := Totals(s, es, k);
            t.sent + t.forfeited == t.granted + s.cls[k].deficit - Run(s, es).cls[k].deficit
    decreases |es|
  {
    SizedRun(s, es);
    if es != [] {
      UnfoldTotals(s, es, k);
      StepAccount(s, es[0], k);
      hide Wf, EventOk, EventsOk, Step, Output, Run, Totals, StaysListed, Listed, Granted, Forfeited, EndsTurn, SentOf;
      TurnAccount(Step(s, es[0]), es[1..], k);
    }
  }

  // ---------------------------------------------------------------- WRR mode

  ghost predicate AllWrr(es: seq<Event>)
  {
    forall n :: 0 <= n < |es| ==> es[n].c.wrr
  }

  /** No listed class holds more than its recorded quantum. */
  ghost predicate WithinQuantum(s: Sched)
  {
    forall k :: 0 <= k < |s.cls| && s.cls[k].pkts != [] ==> s.cls[k].deficit <= s.cls[k].quantum
  }

  lemma ClassWithinQuantum(s: Sched, e: Event, k: nat)
    requires Wf(s) && EventOk(e) && e.c.wrr && WithinQuantum(s) && k < MAX_QUEUES
    ensures Sized(Step(s, e))
    ensures Step(s, e).cls[k].pkts != [] ==> Step(s, e).cls[k].deficit <= Step(s, e).cls[k].quantum
  {
    assert Sized(s);
    if e.Arrive? {
      ArrivalClass(s, e, k);
    } else {
      TickServes(s, e);
      if PrioFrom(s.active, 0) >= 0 {
        ServedClass(s, e, k);
        ServeClass(Served(s, e.c), e.c, PrioFrom(s.active, 0), e.now, k);
      }
    }
    hide Wf, Step, Output, Served, Serve, EndsTurn, PrioFrom;
  }

  /** In WRR mode nothing is carried over: in every state of every run no listed class holds more than its
      quantum, and right after its turn ended it holds just that, less what the same call sent of it. */
  lemma {:induction false} WrrKeepsWithinQuantum(s: Sched, es: seq<Event>)
    requires Wf(s) && EventsOk(es) && AllWrr(es) && WithinQuantum(s)
    ensures WithinQuantum(Run(s, es))
    decreases |es|
  {
    if es != [] {
      assert EventOk(es[0]) && EventsOk(es[1..]) && es[0].c.wrr && AllWrr(es[1..]);
      StepKeepsWf(s, es[0]);
      forall k | 0 <= k < MAX_QUEUES
        ensures Sized(Step(s, es[0])) && (Step(s, es[0]).cls[k].pkts != [] ==> Step(s, es[0]).cls[k].deficit <= Step(s, es[0]).cls[k].quantum)
      {
        ClassWithinQuantum(s, es[0], k);
      }
      ClassWithinQuantum(s, es[0], 0);
      hide Wf, EventOk, EventsOk, AllWrr, Step;
      assert Run(s, es) == Run(Step(s, es[0]), es[1..]);
      WrrKeepsWithinQuantum(Step(s, es[0]), es[1..]);
    }
  }

  lemma WrrStartsAfresh(s: Sched, e: Event, k: nat)
    requires Wf(s) && EventOk(e) && e.c.wrr && Listed(s, k) && EndsTurn(s, e, k)
    ensures Sized(Step(s, e)) && k < MAX_QUEUES
    ensures Step(s, e).cls[k].deficit == e.c.quantum[k] - SentOf(Output(s, e), k)
  {
    StepAccount(s, e, k);
    hide Wf, Step, Output;
  }

  lemma DeficitNotNegative(s: Sched, k: nat)
    requires Wf(s) && Listed(s, k)
    ensures k < MAX_QUEUES && s.cls[k].deficit >= 0
  {
    assert ClassOk(s.cls[k]);
  }

  lemma {:induction false} StaysListedToTheEnd(s: Sched, es: seq<Event>, k: nat)
    requires Wf(s) && EventsOk(es) && StaysListed(s, es, k)
    ensures Listed(s, k) && Listed(Run(s, es), k)
    decreases |es|
  {
    if es != [] {
      assert EventOk(es[0]);
      StepKeepsWf(s, es[0]);
      hide Wf, EventOk, Step, Listed;
      StaysListedToTheEnd(Step(s, es[0]), es[1..], k);
    }
  }

  lemma NoTotals(s: Sched, k: nat)
    requires Wf(s) && k < MAX_QUEUES
    ensures EventsOk([]) && Totals(s, [], k) == Ledger(0, 0, 0, 0)
  {}

  lemma {:induction false} ForfeitsLess(s: Sched, es: seq<Event>, k: nat)
    requires Wf(s) && EventsOk(es) && StaysListed(s, es, k) && k < MAX_QUEUES
    ensures var t := Totals(s, es, k);
            0 <= t.forfeited <= t.turns * (MAX_PKT_BYTES - 1) && (t.turns == 0 ==> t.granted == 0)
    decreases |es|
  {
    hide Wf, EventOk, EventsOk, Step, Output, Run, Totals, StaysListed, Listed, Granted, Forfeited, EndsTurn, SentOf;
    if es == [] {
      NoTotals(s, k);
    } else {
      UnfoldTotals(s, es, k);
      StepForfeits(s, es[0], k);
      ForfeitsLess(Step(s, es[0]), es[1..], k);
    }
  }

  lemma StepForfeits(s: Sched, e: Event, k: nat)
    requires Wf(s) && EventOk(e) && Listed(s, k) && k < MAX_QUEUES
    ensures 0 <= Forfeited(s, e, k) <= if EndsTurn(s, e, k) then MAX_PKT_BYTES - 1 else 0
    ensures !EndsTurn(s, e, k) ==> Granted(s, e, k) == 0
  {
    assert ClassOk(s.cls[k]);
    hide Lists, Credits, Accounts, SkbSize, PrioFrom;
  }

  /** In WRR mode class k sends at most its quantum between two ends of its turn; and in either mode, over
      n ends of its turn, it forfeits less than n maximum packets. */
  lemma WrrTurnAtMostQuantum(s: Sched, es: seq<Event>, k: nat)
    requires Wf(s) && EventsOk(es) && WithinQuantum(s) && StaysListed(s, es, k)
    ensures Sized(s) && k < MAX_QUEUES
    ensures var t := Totals(s, es, k);
            && (t.turns == 0 ==> t.sent <= s.cls[k].deficit <= s.cls[k].quantum)
            && 0 <= t.forfeited <= t.turns * (MAX_PKT_BYTES - 1)
  {
    TurnAccount(s, es, k);
    StaysListedToTheEnd(s, es, k);
    DeficitNotNegative(Run(s, es), k);
    ForfeitsLess(s, es, k);
    hide Wf, EventsOk, Run, Totals, StaysListed;
  }

  // ---------------------------------------------------------------- how long rounds take

  /** The samples of class k in one call: a turn that ends, and a last packet that leaves. */
  ghost function StepSamples(s: Sched, e: Event, k: nat): int
    requires Wf(s) && EventOk(e) && Sized(s) && k < MAX_QUEUES
  {
    var start := if EndsTurn(s, e, k) then s.cls[k].lastPktTime else s.cls[k].startTime;
    start - s.cls[k].startTime
    + if SentOf(Output(s, e), k) > 0 && |s.cls[k].pkts| == 1 then e.now + L2tNs(e.c.rate, SentOf(Output(s, e), k)) - start else 0
  }

  ghost function Samples(s: Sched, es: seq<Event>, k: nat): int
    requires Wf(s) && EventsOk(es) && k < MAX_QUEUES
    decreases |es|
  {
    if es == [] then 0
    else
      assert EventOk(es[0]);
      StepKeepsWf(s, es[0]);
      StepSamples(s, es[0], k) + Samples(Step(s, es[0]), es[1..], k)
  }

  lemma StepStart(s: Sched, e: Event, k: nat)
    requires Wf(s) && EventOk(e) && Listed(s, k)
    ensures Sized(s) && Sized(Step(s, e)) && k < MAX_QUEUES
    ensures Listed(Step(s, e), k) ==> StepSamples(s, e, k) == Step(s, e).cls[k].startTime - s.cls[k].startTime
    ensures !Listed(Step(s, e), k) ==>
              && SentOf(Output(s, e), k) > 0
              && StepSamples(s, e, k) == e.now + L2tNs(e.c.rate, SentOf(Output(s, e), k)) - s.cls[k].startTime
  {
    assert Sized(s);
    if e.Arrive? {
      ArrivalClass(s, e, k);
      NoTurnOnArrival(s, e, k);
    } else {
      TickServes(s, e);
      if PrioFrom(s.active, 0) >= 0 {
        ServedClass(s, e, k);
        ServeClass(Served(s, e.c), e.c, PrioFrom(s.active, 0), e.now, k);
      } else {
        NoTurnWhenIdle(s, e, k);
      }
    }
    hide Wf, Step, Output, Served, Serve, EndsTurn, PrioFrom, L2tNs;
  }

  lemma NoTurnOnArrival(s: Sched, e: Event, k: nat)
    requires Wf(s) && EventOk(e) && e.Arrive?
    ensures !EndsTurn(s, e, k) && SentOf(Output(s, e), k) == 0
  {}

  lemma NoTurnWhenIdle(s: Sched, e: Event, k: nat)
    requires Wf(s) && PrioFrom(s.active, 0) < 0
    ensures !EndsTurn(s, e, k)
  {}

  lemma UnfoldSamples(s: Sched, es: seq<Event>, k: nat)
    requires Wf(s) && EventsOk(es) && k < MAX_QUEUES && es != []
    ensures EventOk(es[0]) && EventsOk(es[1..]) && Wf(Step(s, es[0])) && Run(s, es) == Run(Step(s, es[0]), es[1..])
    ensures Sized(s) && Samples(s, es, k) == StepSamples(s, es[0], k) + Samples(Step(s, es[0]), es[1..], k)
    ensures StaysListed(s, es, k) ==> Listed(s, k) && StaysListed(Step(s, es[0]), es[1..], k) && Listed(Step(s, es[0]), k)
  {
    assert EventOk(es[0]) && Sized(s);
    StepKeepsWf(s, es[0]);
    assert StaysListed(s, es, k) ==> StaysListed(Step(s, es[0]), es[1..], k);
    hide Wf, EventOk, Step, Output, StepSamples;
  }

  lemma {:induction false} SamplesTelescope(s: Sched, es: seq<Event>, k: nat)
    requires Wf(s) && EventsOk(es) && StaysListed(s, es, k)
    ensures Sized(s) && Sized(Run(s, es)) && k < MAX_QUEUES
    ensures Samples(s, es, k) == Run(s, es).cls[k].startTime - s.cls[k].startTime
    decreases |es|
  {
    SizedRun(s, es);
    if es != [] {
      UnfoldSamples(s, es, k);
      StepStart(s, es[0], k);
      hide Wf, EventOk, EventsOk, Step, Run, Samples, StepSamples, StaysListed, Listed;
      SamplesTelescope(Step(s, es[0]), es[1..], k);
    }
  }

  /** The round samples of a busy period add up to its length: from the arrival that activates class k to
      the projected end of the packet that empties it. */
  lemma BusyPeriod(s: Sched, first: Event, es: seq<Event>, last: Event, k: nat)
    requires Wf(s) && EventOk(first) && EventsOk(es) && EventOk(last) && first.Arrive?
    requires k < |s.cls| && s.cls[k].pkts == [] && Wf(Step(s, first)) && StaysListed(Step(s, first), es, k)
    requires !Listed(Step(Run(Step(s, first), es), last), k)
    ensures var s1 := Step(s, first);
            var s2 := Run(s1, es);
            && k < MAX_QUEUES && Sized(s2) && SentOf(Output(s2, last), k) > 0
            && Samples(s1, es, k) + StepSamples(s2, last, k)
               == last.now + L2tNs(last.c.rate, SentOf(Output(s2, last), k)) - first.now
  {
    assert Sized(s);
    ArrivalClass(s, first, k);
    var s1 := Step(s, first);
    assert s1.cls[k].startTime == first.now by {
      assert Listed(s1, k);
    }
    hide Wf, EventOk, EventsOk, Step, Run, Samples, StepSamples, Listed, StaysListed, Output, L2tNs;
    SamplesTelescope(s1, es, k);
    StaysListedToTheEnd(s1, es, k);
    StepStart(Run(s1, es), last, k);
  }

  /** A round time after a sample, if there is one. */
  ghost function Taking(round: int, taken: bool, sample: int, alpha: int): int
  {
    if taken then S64Ewma(round, sample, alpha) else round
  }

  lemma ServedRound(s: Sched, e: Event)
    requires Wf(s) && EventOk(e) && e.Tick? && PrioFrom(s.active, 0) >= 0
    ensures var prio := PrioFrom(s.active, 0);
            var h := s.active[prio][0];
            && HasHead(s, prio) && Sized(Served(s, e.c))
            && Served(s, e.c).roundTime == s.roundTime[prio :=
                 Taking(s.roundTime[prio], EndsTurn(s, e, h), s.cls[h].lastPktTime - s.cls[h].startTime, e.c.roundAlpha)]
  {
    ListHasHead(s, PrioFrom(s.active, 0));
    hide Wf, HeadFits, PrioFrom, S64Ewma;
  }

  /** The samples of a call enter the round time of the served priority in their order, and no other: that of
      the turn that ends, then that of the last packet that leaves. */
  lemma RoundTimeTakesSamples(s: Sched, e: Event)
    requires Wf(s) && EventOk(e) && e.Tick? && PrioFrom(s.active, 0) >= 0
    ensures var prio := PrioFrom(s.active, 0);
            && HasHead(s, prio) && HasHead(Served(s, e.c), prio)
            && var h, g, o := Head(s, prio), Served(s, e.c), Output(s, e);
               var k := Head(g, prio);
               var r1 := Taking(s.roundTime[prio], EndsTurn(s, e, h), s.cls[h].lastPktTime - s.cls[h].startTime, e.c.roundAlpha);
               && (o.Sent? ==> o.queue == k)
               && Step(s, e).roundTime == s.roundTime[prio :=
                    Taking(r1, o.Sent? && |s.cls[k].pkts| == 1,
                           e.now + L2tNs(e.c.rate, if o.Sent? then SkbSize(o.pkt) else 0) - g.cls[k].startTime, e.c.roundAlpha)]
  {
    var prio := PrioFrom(s.active, 0);
    TickServes(s, e);
    ServedRound(s, e);
    ServedClass(s, e, Head(Served(s, e.c), prio));
    hide Wf, Step, Output, Served, Serve, EndsTurn, Taking, L2tNs, SkbSize, PrioFrom;
    ServeRound(Served(s, e.c), e.c, prio, e.now);
  }

  lemma ServeRound(g: Sched, c: Config, prio: nat, now: int)
    requires HasHead(g, prio)
    ensures var (s', o) := Serve(g, c, prio, now);
            var k := Head(g, prio);
            && (o.Sent? ==> o.queue == k)
            && s'.roundTime == g.roundTime[prio :=
                 Taking(g.roundTime[prio], o.Sent? && |g.cls[k].pkts| == 1,
                        now + L2tNs(c.rate, if o.Sent? then SkbSize(o.pkt) else 0) - g.cls[k].startTime, c.roundAlpha)]
  {
    hide SkbSize, L2tNs, TbfSchedule, Depart, S64Ewma;
  }

  /** Whole idle slots between two instants, when the clock has not run backwards by a slot or more. */
  ghost predicate IdleSlots(from: int, to: int, slot: int, n: nat)
  {
    slot > 0 && (if to >= from then n * slot <= to - from < (n + 1) * slot else n == 0 && from - to < slot)
  }

  lemma QuotientOf(a: nat, d: nat, n: nat)
    requires d > 0 && n * d <= a < (n + 1) * d
    ensures a / d == n
  {
    QuotientBelow(a, d, n);
    QuotientBelow(a, d, n + 1);
    assert n * d == d * n && (n + 1) * d == d * (n + 1);
  }

  lemma SlotsCounted(from: int, to: int, slot: int, n: nat)
    requires IdleSlots(from, to, slot, n)
    ensures IdleRounds(0, from, slot, to) == n
  {
    if to >= from {
      QuotientOf(to - from, slot, n);
    } else {
      QuotientOf(from - to, slot, 0);
    }
  }

  lemma BackwardSlots(from: int, to: int, slot: int)
    requires slot > 0 && from - to >= slot
    ensures IdleRounds(0, from, slot, to) < 0
  {
    QuotientBelow(from - to, slot, 1);
  }

  /** An arrival leaves the round time of a busy priority alone.  At an idle one it ages it by the n idle
      slots since: to at most (alpha / 1024)^n of itself, and to zero after more than ten slots or if the
      clock has run backwards by a slot. */
  lemma ArrivalAgesRoundTime(s: Sched, e: Event, n: nat)
    requires Wf(s) && EventOk(e) && e.Arrive? && 0 <= e.c.roundAlpha <= ROUND_SHIFT_ONE
    ensures Sized(s) && Sized(Step(s, e)) && e.c.prio[e.queue] < MAX_PRIO
    ensures var p := e.c.prio[e.queue];
            var r, r' := s.roundTime[p], Step(s, e).roundTime[p];
            && (s.prioLen[p] != 0 || e.c.idleIntervalNs <= 0 ==> r' == r)
            && (s.prioLen[p] == 0 && IdleSlots(s.lastIdle[p], e.now, e.c.idleIntervalNs, n) ==>
                  && (n > MAX_ITERATION ==> r' == 0) && (n == 0 ==> r' == r)
                  && (r >= 0 ==> 0 <= r' && Times(r', Power(ROUND_SHIFT_ONE, n)) <= Times(r, Power(e.c.roundAlpha, n))))
            && (s.prioLen[p] == 0 && e.c.idleIntervalNs > 0 && s.lastIdle[p] - e.now >= e.c.idleIntervalNs ==> r' == 0)
            && forall q :: 0 <= q < MAX_PRIO && q != p ==> Step(s, e).roundTime[q] == s.roundTime[q]
  {
    ClassPrioOk(s, e.queue);
    assert Sized(s);
    ArrivalRound(s, e);
    var p := e.c.prio[e.queue];
    var r, slot := s.roundTime[p], e.c.idleIntervalNs;
    hide Wf, Step, DecayRound, IdleSlots, Times, Power;
    if s.prioLen[p] == 0 && IdleSlots(s.lastIdle[p], e.now, slot, n) {
      SlotsCounted(s.lastIdle[p], e.now, slot, n);
      if r >= 0 {
        DecayGeometric(r, e.c.roundAlpha, n);
        NotRaised(r, e.c.roundAlpha, n);
      }
      NoDecay(r, e.c.roundAlpha);
    }
    if s.prioLen[p] == 0 && slot > 0 && s.lastIdle[p] - e.now >= slot {
      BackwardSlots(s.lastIdle[p], e.now, slot);
    }
    NoDecay(r, e.c.roundAlpha);
  }

  lemma NoDecay(r: int, alpha: int)
    ensures DecayRound(r, alpha, 0) == r
  {}

  lemma NotRaised(r: nat, alpha: nat, n: nat)
    ensures Times(0, Power(ROUND_SHIFT_ONE, n)) <= Times(r, Power(alpha, n))
  {
    MulLe(0, r, Power(alpha, n));
  }

  lemma ArrivalRound(s: Sched, e: Event)
    requires Wf(s) && EventOk(e) && e.Arrive? && Sized(s)
    ensures Sized(Step(s, e))
    ensures var p := e.c.prio[e.queue];
            var iter := IdleRounds(0, s.lastIdle[p], e.c.idleIntervalNs, e.now);
            Step(s, e).roundTime == s.roundTime[p :=
              if s.prioLen[p] != 0 then s.roundTime[p]
              else if iter > MAX_ITERATION || iter < 0 then 0 else DecayRound(s.roundTime[p], e.c.roundAlpha, iter)]
  {
    ClassPrioOk(s, e.queue);
    hide Wf, Overfill, DecayRound, DivTrunc, SkbSize;
  }

  // ---------------------------------------------------------------- when a priority was last idle

  /** The time of the latest departure at priority p; t before the first. */
  ghost function LastDeparture(s: Sched, es: seq<Event>, p: nat, t: int): int
    requires Wf(s) && EventsOk(es)
    decreases |es|
  {
    if es == [] then t
    else
      assert EventOk(es[0]);
      StepKeepsWf(s, es[0]);
      var o := Output(s, es[0]);
      LastDeparture(Step(s, es[0]), es[1..], p, if o.Sent? && o.prio == p then es[0].now else t)
  }

  lemma StepIdle(s: Sched, e: Event, p: nat, t: int)
    requires Wf(s) && EventOk(e) && p < MAX_PRIO && Sized(s) && (s.prioLen[p] == 0 ==> s.lastIdle[p] == t)
    ensures Sized(Step(s, e))
    ensures var o := Output(s, e);
            Step(s, e).prioLen[p] == 0 ==> Step(s, e).lastIdle[p] == if o.Sent? && o.prio == p then e.now else t
  {
    if e.Arrive? {
      ClassPrioOk(s, e.queue);
      hide Wf, Overfill, DecayRound, IdleRounds;
      NotNegative(s, p);
    } else {
      TickServes(s, e);
      var prio := PrioFrom(s.active, 0);
      if prio >= 0 {
        ServedClass(s, e, 0);
        ServeIdle(Served(s, e.c), e.c, prio, e.now, p);
      }
      hide Wf, Step, Output, Served, Serve, PrioFrom;
    }
  }

  lemma NotNegative(s: Sched, p: nat)
    requires Wf(s) && p < MAX_PRIO
    ensures Sized(s) && s.prioLen[p] >= 0
  {
    forall k | 0 <= k < MAX_QUEUES ensures s.cls[k].lenBytes >= 0 {
      assert ClassOk(s.cls[k]);
    }
    SumOfNonNegatives(Accounting.PrioBytes(Loads(s.cls), p));
  }

  lemma ServeIdle(g: Sched, c: Config, prio: nat, now: int, p: nat)
    requires HasHead(g, prio) && p < MAX_PRIO
    ensures Sized(Serve(g, c, prio, now).0)
    ensures var (s', o) := Serve(g, c, prio, now);
            if o.Sent? && o.prio == p then s'.prioLen[p] == 0 ==> s'.lastIdle[p] == now
            else s'.prioLen[p] == g.prioLen[p] && s'.lastIdle[p] == g.lastIdle[p]
  {
    hide SkbSize, L2tNs, TbfSchedule, Depart, S64Ewma;
  }

  /** In every state of a run, an idle priority has been so since its latest departure. */
  lemma {:induction false} IdleSinceDeparture(s: Sched, es: seq<Event>, p: nat, t: int)
    requires Wf(s) && EventsOk(es) && p < MAX_PRIO && Sized(s) && (s.prioLen[p] == 0 ==> s.lastIdle[p] == t)
    ensures Sized(Run(s, es)) && (Run(s, es).prioLen[p] == 0 ==> Run(s, es).lastIdle[p] == LastDeparture(s, es, p, t))
    decreases |es|
  {
    if es != [] {
      assert EventOk(es[0]) && EventsOk(es[1..]);
      StepKeepsWf(s, es[0]);
      StepIdle(s, es[0], p, t);
      hide Wf, EventOk, EventsOk, Step, Output;
      var o := Output(s, es[0]);
      IdleSinceDeparture(Step(s, es[0]), es[1..], p, if o.Sent? && o.prio == p then es[0].now else t);
    }
  }
}
