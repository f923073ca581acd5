/** What a class that becomes active in sch_wfq is entitled to: its tag counts its first packet, so it
    overtakes nobody who was waiting. */
module WfqActivation {
  import opened Arithmetic
  import opened KernelPackets
  import opened TokenBucket
  import opened Wfq
  import opened WfqFairness
  import opened WfqRuns
  import opened WfqWrap

  /** This arrival is let into the empty class k, at priority p. */
  ghost predicate Activates(s: Sched, e: Event, p: nat, k: nat)
    requires Shaped(s) && ConfigOk(e.c) && (e.Arrive? ==> e.queue < MAX_QUEUES)
  {
    && e.Arrive? && e.queue == k && s.cls[k].pkts == [] && e.c.prio[k] == p
    && Step(Exact, s, e).0.cls[k].pkts != []
  }

  /** A packet is charged at least 1, since it has at least 84 bytes and weights are at most 64. */
  lemma ChargeIsPositive(p: Packet, weight: nat)
    requires 1 <= weight <= MIN_PKT_BYTES
    ensures SkbSize(p) / weight >= 1
  {
    QuotientBelow(SkbSize(p), weight, 1);
  }

  /** The tag of a class that becomes active: the virtual time plus its packet's normalised length. */
  lemma ActivationTag(s: Sched, e: Event, w: seq<nat>, p: nat, k: nat)
    requires Inv(s, w) && EventOk(e, w) && Shaped(s) && Activates(s, e, p, k)
    ensures p < MAX_PRIO && k < MAX_QUEUES
    ensures var s' := Step(Exact, s, e).0;
            && LiveAt(s', p, k) && s'.vtime[p] == s'.cls[k].headFin
            && s'.cls[k].headFin == s.vtime[p] + StepCharge(s, e, k) && StepCharge(s, e, k) >= 1
            && s'.cls[k].pkts == [e.pkt]
            && forall n :: 0 <= n < MAX_QUEUES && n != k ==> s'.cls[n] == s.cls[n]
  {
    ChargeIsPositive(e.pkt, e.c.weight[k]);
    EnqueueKeepsInv(s, e.c, w, k, e.pkt, e.childAccepts);
    LiveHasPackets(Step(Exact, s, e).0, p, k);
    hide Inv, SkbSize, Overfill;
  }

  // ---------------------------------------------------------------- the account of a busy period

  /** From the arrival that activates class k on, its tag is the virtual time it found plus everything
      charged since, that arrival included. */
  lemma TagFromActivation(s: Sched, e: Event, es: seq<Event>, w: seq<nat>, p: nat, k: nat)
    requires Inv(s, w) && EventOk(e, w) && EventsOk(es, w) && Shaped(s) && Activates(s, e, p, k) && p < MAX_PRIO
    requires Inv(Step(Exact, s, e).0, w) && StaysLive(Step(Exact, s, e).0, es, w, p, k)
    ensures k < MAX_QUEUES && Runnable(es)
    ensures var s1 := Step(Exact, s, e).0;
            Run(Exact, s1, es).0.cls[k].headFin == s.vtime[p] + StepCharge(s, e, k) + Charged(s1, es, w, k)
  {
    ActivationTag(s, e, w, p, k);
    hide Inv, Step, StaysLive, Charged, StepCharge, Run;
    RunAdvancesTag(Step(Exact, s, e).0, es, w, p, k);
  }

  lemma OthersStayLive(s: Sched, e: Event, w: seq<nat>, p: nat, k: nat, n: nat)
    requires Inv(s, w) && EventOk(e, w) && Shaped(s) && Activates(s, e, p, k) && LiveAt(s, p, n)
    ensures n != k && n < MAX_QUEUES && k < MAX_QUEUES && p < MAX_PRIO && LiveAt(Step(Exact, s, e).0, p, n)
    ensures StepCharge(s, e, n) == 0
  {
    LiveHasPackets(s, p, n);
    ActivationTag(s, e, w, p, k);
    hide Inv, SkbSize, Overfill;
  }

  /** Fair from the start: class n is backlogged when k becomes active, and both stay so.  Counted from
      that arrival, its packet included, k gains on n at most the window at the end, and n on k at most the
      windows at either end. */
  lemma FairFromActivation(s: Sched, e: Event, es: seq<Event>, w: seq<nat>, p: nat, k: nat, n: nat)
    requires Inv(s, w) && EventOk(e, w) && EventsOk(es, w) && Shaped(s) && Activates(s, e, p, k) && LiveAt(s, p, n)
    requires Inv(Step(Exact, s, e).0, w) && Shaped(Step(Exact, s, e).0)
    requires StaysLive(Step(Exact, s, e).0, es, w, p, k) && StaysLive(Step(Exact, s, e).0, es, w, p, n)
    ensures k < MAX_QUEUES && n < MAX_QUEUES && Runnable(es)
    ensures var s1 := Step(Exact, s, e).0;
            var s' := Run(Exact, s1, es).0;
            var gain := StepCharge(s, e, k) + Charged(s1, es, w, k) - Charged(s1, es, w, n);
            -(Window(w, LiveSet(s, p) - {n}) + Window(w, LiveSet(s', p) - {k})) <= gain <= Window(w, LiveSet(s', p) - {n})
  {
    ActivationTag(s, e, w, p, k);
    OthersStayLive(s, e, w, p, k, n);
    var s1 := Step(Exact, s, e).0;
    assert s1.cls[n].headFin == s.cls[n].headFin;
    TagSpread(s, w, p, n, n);
    hide Inv, EventOk, EventsOk, Step, StaysLive, Charged, StepCharge, Window, Run, Activates;
    RunAdvancesTag(s1, es, w, p, k);
    RunAdvancesTag(s1, es, w, p, n);
    WrappedRefinesExact(s1, es, w);
    var s' := Run(Exact, s1, es).0;
    TagSpread(s', w, p, k, n);
    TagSpread(s', w, p, n, k);
  }

  // ---------------------------------------------------------------- nobody is overtaken

  /** n and k are backlogged at p, and n's head packet comes first. */
  ghost predicate Ahead(s: Sched, p: nat, n: nat, k: nat)
    requires Sized(s)
  {
    LiveAt(s, p, n) && LiveAt(s, p, k) && s.cls[n].headFin < s.cls[k].headFin
  }

  ghost predicate Sends(o: Outcome, k: nat)
  {
    o.Sent? && o.queue == k
  }

  /** Nothing of k is sent before something of n. */
  ghost predicate ServedFirst(os: seq<Outcome>, n: nat, k: nat)
  {
    os == [] || Sends(os[0], n) || (!Sends(os[0], k) && ServedFirst(os[1..], n, k))
  }

  lemma StepKeepsAhead(s: Sched, e: Event, w: seq<nat>, p: nat, n: nat, k: nat)
    requires Inv(s, w) && EventOk(e, w) && Shaped(s) && Ahead(s, p, n, k)
    ensures var (s', o) := Step(Exact, s, e);
            !Sends(o, k) && (!Sends(o, n) ==> Ahead(s', p, n, k))
  {
    LiveHasPackets(s, p, n);
    LiveHasPackets(s, p, k);
    StepRefinesInv(s, e, w);
    var s' := Step(Exact, s, e).0;
    LiveHasPackets(s', p, n);
    LiveHasPackets(s', p, k);
    match e
    case Arrive(c, q, pkt, childAccepts) =>
      hide Inv, SkbSize, Overfill;
    case Tick(c, now) =>
      DequeueFinds(s, w);
      LeastIsNotBehind(s, p, n, k);
      hide Inv, Select, Least, TbfSchedule, PrioFrom, SkbSize;
  }

  lemma StepRefinesInv(s: Sched, e: Event, w: seq<nat>)
    requires Inv(s, w) && EventOk(e, w) && Shaped(s)
    ensures Inv(Step(Exact, s, e).0, w)
  {
    InvIsShaped(s, w);
    StepRefines(s, e, w);
  }

  lemma LeastIsNotBehind(s: Sched, p: nat, n: nat, k: nat)
    requires Sized(s) && Ahead(s, p, n, k)
    ensures forall q: nat :: !Least(s, q, k)
  {}

  lemma {:induction false} RunKeepsOrder(s: Sched, es: seq<Event>, w: seq<nat>, p: nat, n: nat, k: nat)
    requires Inv(s, w) && EventsOk(es, w) && Shaped(s) && Ahead(s, p, n, k)
    ensures Runnable(es) && ServedFirst(Run(Exact, s, es).1, n, k)
    decreases |es|
  {
    WrappedRefinesExact(s, es, w);
    if es != [] {
      assert EventOk(es[0], w) && EventsOk(es[1..], w);
      var (s1, o) := Step(Exact, s, es[0]);
      StepKeepsAhead(s, es[0], w, p, n, k);
      StepRefinesInv(s, es[0], w);
      var os := Run(Exact, s, es).1;
      assert os == [o] + Run(Exact, s1, es[1..]).1 && os[1..] == Run(Exact, s1, es[1..]).1;
      hide Inv, EventOk, EventsOk, Step, Run, Ahead, Sends;
      if !Sends(o, n) {
        RunKeepsOrder(s1, es[1..], w, p, n, k);
      }
    }
  }

  /** No overtaking: if n is backlogged at p when an arrival activates k there, then in every run from there
      on k sends nothing until n has sent the head packet it then held; with unbounded tags and with u64
      tags alike. */
  lemma NoOvertaking(s: Sched, e: Event, es: seq<Event>, w: seq<nat>, p: nat, n: nat, k: nat)
    requires Inv(s, w) && EventOk(e, w) && EventsOk(es, w) && Shaped(s) && Activates(s, e, p, k) && LiveAt(s, p, n)
    ensures Shaped(Step(Exact, s, e).0) && Shaped(WrapSched(Step(Exact, s, e).0)) && Runnable(es)
    ensures ServedFirst(Run(Exact, Step(Exact, s, e).0, es).1, n, k)
    ensures ServedFirst(Run(Wrapped, WrapSched(Step(Exact, s, e).0), es).1, n, k)
  {
    ActivationTag(s, e, w, p, k);
    OthersStayLive(s, e, w, p, k, n);
    TagWindow(s, w, p, n);
    StepRefinesInv(s, e, w);
    var s1 := Step(Exact, s, e).0;
    assert s1.cls[n] == s.cls[n];
    hide Inv, EventOk, EventsOk, Step, Activates, StepCharge, Run, WrapSched, ServedFirst;
    WrappedRefinesExact(s1, es, w);
    RunKeepsOrder(s1, es, w, p, n, k);
  }
}
