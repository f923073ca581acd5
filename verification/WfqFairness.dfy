/** Fairness of sch_wfq between two classes that stay backlogged at one priority. */
module WfqFairness {
  import opened KernelPackets
  import opened TokenBucket
  import opened Wfq
  import opened WfqRuns
  import opened WfqWrap

  ghost predicate StaysLive(s: Sched, es: seq<Event>, w: seq<nat>, p: nat, k: nat)
    requires Inv(s, w) && EventsOk(es, w)
    decreases |es|
  {
    InvIsShaped(s, w);
    LiveAt(s, p, k) && (es == [] || (StepRefines(s, es[0], w); StaysLive(Step(Exact, s, es[0]).0, es[1..], w, p, k)))
  }

  /** The normalised length of the packet that becomes head of class k in this step. */
  ghost function StepCharge(s: Sched, e: Event, k: nat): nat
    requires Shaped(s) && ConfigOk(e.c) && (e.Arrive? ==> e.queue < MAX_QUEUES) && k < MAX_QUEUES
  {
    var (s', o) := Step(Exact, s, e);
    if o.Sent? && o.queue == k && |s.cls[k].pkts| > 1 then SkbSize(s.cls[k].pkts[1]) / e.c.weight[k]
    else if e.Arrive? && e.queue == k && s.cls[k].pkts == [] && s'.cls[k].pkts != [] then SkbSize(e.pkt) / e.c.weight[k]
    else 0
  }

  /** The normalised service of class k in a run: len / weight over the packets reaching its head. */
  ghost function Charged(s: Sched, es: seq<Event>, w: seq<nat>, k: nat): nat
    requires Inv(s, w) && EventsOk(es, w) && k < MAX_QUEUES
    decreases |es|
  {
    InvIsShaped(s, w);
    if es == [] then 0
    else
      assert EventOk(es[0], w);
      StepRefines(s, es[0], w);
      StepCharge(s, es[0], k) + Charged(Step(Exact, s, es[0]).0, es[1..], w, k)
  }

  lemma StepAdvancesTag(s: Sched, e: Event, w: seq<nat>, p: nat, k: nat)
    requires Inv(s, w) && EventOk(e, w) && Shaped(s) && LiveAt(s, p, k) && LiveAt(Step(Exact, s, e).0, p, k)
    ensures Step(Exact, s, e).0.cls[k].headFin == s.cls[k].headFin + StepCharge(s, e, k)
  {
    LiveHasPackets(s, p, k);
    match e
    case Arrive(c, n, pkt, childAccepts) =>
      hide Inv, SkbSize;
    case Tick(c, now) =>
      DequeueFinds(s, w);
      DequeueKeepsInv(s, c, w, now);
      LiveHasPackets(Step(Exact, s, e).0, p, k);
      hide Inv, Select, Least, TbfSchedule, PrioFrom;
  }

  lemma {:induction false} RunAdvancesTag(s: Sched, es: seq<Event>, w: seq<nat>, p: nat, k: nat)
    requires Inv(s, w) && EventsOk(es, w) && StaysLive(s, es, w, p, k)
    ensures Shaped(s) && Runnable(es) && k < MAX_QUEUES
    ensures var s' := Run(Exact, s, es).0;
            LiveAt(s', p, k) && s'.cls[k].headFin == s.cls[k].headFin + Charged(s, es, w, k)
    decreases |es|
  {
    WrappedRefinesExact(s, es, w);
    assert forall n :: 0 <= n < |es| ==> EventOk(es[n], w);
    if es != [] {
      StepRefines(s, es[0], w);
      var s1 := Step(Exact, s, es[0]).0;
      assert StaysLive(s1, es[1..], w, p, k) && LiveAt(s1, p, k);
      StepAdvancesTag(s, es[0], w, p, k);
      hide Inv, Step, EventOk, StepCharge;
      RunAdvancesTag(s1, es[1..], w, p, k);
    }
  }

  // ---------------------------------------------------------------- who shares the priority

  /** The classes that some arrival of the run may let into priority p. */
  ghost function Joiners(es: seq<Event>, p: nat): set<nat>
    requires Runnable(es)
  {
    if es == [] then {}
    else
      (if es[0].Arrive? && es[0].c.prio[es[0].queue] == p then {es[0].queue} else {}) + Joiners(es[1..], p)
  }

  /** The classes of priority p: those backlogged there at the start, and those let in later. */
  ghost function ClassesOf(s: Sched, es: seq<Event>, p: nat): set<nat>
    requires Sized(s) && Runnable(es)
  {
    LiveSet(s, p) + Joiners(es, p)
  }

  lemma StepStaysWithin(s: Sched, e: Event, w: seq<nat>, p: nat)
    requires Inv(s, w) && EventOk(e, w) && Shaped(s) && Shaped(WrapSched(s))
    ensures Shaped(Step(Exact, s, e).0)
    ensures LiveSet(Step(Exact, s, e).0, p) <= LiveSet(s, p) + Joiners([e], p)
  {
    StepRefines(s, e, w);
    var s' := Step(Exact, s, e).0;
    forall k | k in LiveSet(s', p) ensures k in LiveSet(s, p) + Joiners([e], p) {
      LiveHasPackets(s, p, k);
      LiveHasPackets(s', p, k);
    }
    hide Inv, SkbSize, Overfill, Select, TbfSchedule, PrioFrom;
  }

  lemma JoinersSplit(es: seq<Event>, p: nat)
    requires Runnable(es) && es != []
    ensures Runnable([es[0]]) && Runnable(es[1..])
    ensures Joiners(es, p) == Joiners([es[0]], p) + Joiners(es[1..], p)
  {
    assert Joiners([es[0]][1..], p) == {};
  }

  lemma {:induction false} RunStaysWithin(s: Sched, es: seq<Event>, w: seq<nat>, p: nat)
    requires Inv(s, w) && EventsOk(es, w)
    ensures Shaped(s) && Runnable(es)
    ensures LiveSet(Run(Exact, s, es).0, p) <= ClassesOf(s, es, p)
    decreases |es|
  {
    WrappedRefinesExact(s, es, w);
    if es != [] {
      assert EventOk(es[0], w);
      JoinersSplit(es, p);
      hide Inv, Step, EventOk, LiveSet, Joiners;
      StepRefines(s, es[0], w);
      StepStaysWithin(s, es[0], w, p);
      RunStaysWithin(Step(Exact, s, es[0]).0, es[1..], w, p);
    }
  }

  // ---------------------------------------------------------------- fairness

  /** While i and j stay backlogged at one priority, i gains no more on j than the other live classes'
      windows at both ends of the run. */
  lemma GainBetweenEnds(s: Sched, es: seq<Event>, w: seq<nat>, p: nat, i: nat, j: nat)
    requires Inv(s, w) && EventsOk(es, w) && p < MAX_PRIO
    requires StaysLive(s, es, w, p, i) && StaysLive(s, es, w, p, j)
    ensures i < MAX_QUEUES && j < MAX_QUEUES && Shaped(s) && Runnable(es)
    ensures Charged(s, es, w, i) - Charged(s, es, w, j)
            <= Window(w, LiveSet(s, p) - {i}) + Window(w, LiveSet(Run(Exact, s, es).0, p) - {j})
  {
    assert LiveAt(s, p, i) && LiveAt(s, p, j);
    hide Inv, EventsOk, StaysLive, Charged, Window, Run;
    RunAdvancesTag(s, es, w, p, i);
    RunAdvancesTag(s, es, w, p, j);
    WrappedRefinesExact(s, es, w);
    var s' := Run(Exact, s, es).0;
    TagSpread(s, w, p, j, i);
    TagSpread(s', w, p, i, j);
  }

  lemma WithinWindows(s: Sched, es: seq<Event>, w: seq<nat>, p: nat, i: nat, j: nat)
    requires Inv(s, w) && EventsOk(es, w) && p < MAX_PRIO
    requires StaysLive(s, es, w, p, i) && StaysLive(s, es, w, p, j)
    ensures i < MAX_QUEUES && j < MAX_QUEUES && Shaped(s) && Runnable(es)
    ensures var ks := ClassesOf(s, es, p);
            Charged(s, es, w, i) - Charged(s, es, w, j) <= Window(w, ks - {i}) + Window(w, ks - {j})
  {
    assert Weights(w);
    hide Inv, EventsOk, StaysLive, Charged, Window, Run, LiveSet, Joiners, Weights;
    GainBetweenEnds(s, es, w, p, i, j);
    RunStaysWithin(s, es, w, p);
    var ks := ClassesOf(s, es, p);
    WindowGrows(w, LiveSet(s, p) - {i}, ks - {i});
    WindowGrows(w, LiveSet(Run(Exact, s, es).0, p) - {j}, ks - {j});
  }

  /** Fairness: while two classes stay backlogged at one priority, with weights of at least w, their
      normalised service differs by at most twice the sum of floor(M / w_k) over the classes of that
      priority, and each of the two sums may even leave one of the pair out. */
  lemma NormalisedFairness(s: Sched, es: seq<Event>, w: seq<nat>, p: nat, i: nat, j: nat)
    requires Inv(s, w) && EventsOk(es, w) && p < MAX_PRIO
    requires StaysLive(s, es, w, p, i) && StaysLive(s, es, w, p, j)
    ensures i < MAX_QUEUES && j < MAX_QUEUES && Shaped(s) && Runnable(es)
    ensures var ks := ClassesOf(s, es, p);
            var bound := Window(w, ks - {i}) + Window(w, ks - {j});
            -bound <= Charged(s, es, w, i) - Charged(s, es, w, j) <= bound <= 2 * Window(w, ks)
  {
    assert Weights(w);
    hide Inv, EventsOk, StaysLive, Charged, Window, ClassesOf, Weights;
    WithinWindows(s, es, w, p, i, j);
    WithinWindows(s, es, w, p, j, i);
    var ks := ClassesOf(s, es, p);
    WindowGrows(w, ks - {i}, ks);
    WindowGrows(w, ks - {j}, ks);
  }
}
