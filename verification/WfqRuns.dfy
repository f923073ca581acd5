/** Whole runs of sch_wfq: the tag invariant, the refinement of unbounded tags by u64 tags, service
    in tag order, and fairness. */
module WfqRuns {
  import opened Accounting
  import opened Arithmetic
  import opened KernelPackets
  import opened Wfq

  // ---------------------------------------------------------------- byte counts

  lemma AccountsUpdate(s: Sched, s': Sched, k: nat, delta: int)
    requires Accounts(s) && Sized(s') && k < MAX_QUEUES
    requires s'.cls == s.cls[k := s'.cls[k]] && ClassOk(s'.cls[k])
    requires s'.cls[k].lenBytes == s.cls[k].lenBytes + delta
    requires s'.cls[k].prio == s.cls[k].prio || s.cls[k].lenBytes == 0
    requires s'.sumLen == s.sumLen + delta
    requires s'.prioLen == s.prioLen[s'.cls[k].prio := s.prioLen[s'.cls[k].prio] + delta]
    ensures Accounts(s')
  {
    assert s'.cls[k].prio < MAX_PRIO;
    hide Balanced, ClassOk;
    BalancedUpdate(Loads(s.cls), k, LoadOf(s'.cls[k]), delta, s.sumLen, s.prioLen);
    assert Loads(s'.cls) == Loads(s.cls)[k := LoadOf(s'.cls[k])];
  }

  lemma SendKeepsAccounts(m: Tags, s: Sched, c: Config, prio: nat, k: nat, now: int)
    requires Accounts(s) && ConfigOk(c) && prio < MAX_PRIO && LiveAt(s, prio, k) && s.cls[k].pkts != []
    ensures Accounts(SendFrom(m, s, c, prio, k, now))
  {
    var len: int := SkbSize(s.cls[k].pkts[0]);
    assert ClassOk(s.cls[k]);
    AccountsUpdate(s, SendFrom(m, s, c, prio, k, now), k, -len);
  }

  lemma AcceptKeepsAccounts(m: Tags, s: Sched, c: Config, k: nat, p: Packet)
    requires Accounts(s) && ConfigOk(c) && k < MAX_QUEUES && SkbSize(p) <= MAX_PKT_BYTES
    ensures s.cls[k].prio < MAX_PRIO && Accounts(Accept(m, s, c, k, p))
  {
    assert ClassOk(s.cls[k]);
    BytesAppend(s.cls[k].pkts, p);
    AccountsUpdate(s, Accept(m, s, c, k, p), k, SkbSize(p));
  }

  // ---------------------------------------------------------------- tags at other priorities

  /** Priority p looks the same in both states. */
  ghost predicate SameTags(s: Sched, s': Sched, p: nat)
    requires Sized(s) && Sized(s') && p < MAX_PRIO
  {
    && s'.vtime[p] == s.vtime[p]
    && forall k: nat :: LiveAt(s', p, k) == LiveAt(s, p, k)
         && (LiveAt(s, p, k) ==> s'.cls[k].headFin == s.cls[k].headFin && s'.cls[k].pkts != [] && s.cls[k].pkts != []
                                 && s'.cls[k].pkts[0] == s.cls[k].pkts[0])
  }

  lemma SameTagsKeep(s: Sched, s': Sched, w: seq<nat>, p: nat)
    requires Sized(s) && Sized(s') && Weights(w) && p < MAX_PRIO
    requires TopTag(s, p) && NoGap(s, w, p) && SameTags(s, s', p)
    ensures TopTag(s', p) && NoGap(s', w, p)
  {
    forall b: nat, x: int | LiveAt(s', p, b) && s'.cls[b].headFin < x <= s'.vtime[p]
      ensures Covered(s', w, p, x)
    {
      assert LiveAt(s, p, b) && Covered(s, w, p, x);
      var k: nat :| LiveAt(s, p, k) && Covers(s, w, k, x);
      assert LiveAt(s', p, k) && Covers(s', w, k, x);
    }
    if k: nat :| LiveAt(s', p, k) {
      assert LiveAt(s, p, k);
      var t: nat :| LiveAt(s, p, t) && s.cls[t].headFin == s.vtime[p];
      assert LiveAt(s', p, t);
    }
  }

  // ---------------------------------------------------------------- retagging one class

  /** Class k is tagged anew: its interval starts where an old tag ended (the least live tag when it
      was served, the virtual time when it was empty) and the virtual time grows if need be. */
  ghost predicate Retagged(s: Sched, s': Sched, w: seq<nat>, p: nat, k: nat, from: int)
    requires Sized(s) && Sized(s') && Weights(w) && p < MAX_PRIO && k < MAX_QUEUES
  {
    && LiveAt(s', p, k) && from <= s.vtime[p]
    && s'.cls[k].headFin - Span(s'.cls[k], w[k]) <= from <= s'.cls[k].headFin
    && s'.vtime[p] == (if s.vtime[p] < s'.cls[k].headFin then s'.cls[k].headFin else s.vtime[p])
    && OthersSame(s, s', p, k)
  }

  ghost predicate OthersSame(s: Sched, s': Sched, p: nat, k: nat)
    requires Sized(s) && Sized(s')
  {
    forall n: nat :: n != k ==> LiveAt(s', p, n) == LiveAt(s, p, n) && (LiveAt(s, p, n) ==> s'.cls[n] == s.cls[n])
  }

  /** k is served: it has the least tag. */
  ghost predicate Least(s: Sched, p: nat, k: nat)
    requires Sized(s)
  {
    LiveAt(s, p, k) && forall n: nat :: LiveAt(s, p, n) ==> s.cls[k].headFin <= s.cls[n].headFin
  }

  lemma StillCovered(s: Sched, s': Sched, w: seq<nat>, p: nat, k: nat, b: nat, x: int)
    requires Sized(s) && Sized(s') && Weights(w) && p < MAX_PRIO && k < MAX_QUEUES
    requires NoGap(s, w, p) && OthersSame(s, s', p, k)
    requires LiveAt(s, p, b) && s.cls[b].headFin < x <= s.vtime[p]
    requires LiveAt(s, p, k) ==> Least(s, p, k)
    ensures Covered(s', w, p, x)
  {
    assert Covered(s, w, p, x);
    var n: nat :| LiveAt(s, p, n) && Covers(s, w, n, x);
    assert n != k;
    assert LiveAt(s', p, n) && Covers(s', w, n, x);
  }

  lemma RetagKeeps(s: Sched, s': Sched, w: seq<nat>, p: nat, k: nat, from: int)
    requires Sized(s) && Sized(s') && Weights(w) && p < MAX_PRIO && k < MAX_QUEUES
    requires TopTag(s, p) && NoGap(s, w, p) && Retagged(s, s', w, p, k, from)
    requires if LiveAt(s, p, k) then Least(s, p, k) && from == s.cls[k].headFin else from == s.vtime[p]
    ensures TopTag(s', p) && NoGap(s', w, p)
  {
    forall b: nat, x: int | LiveAt(s', p, b) && s'.cls[b].headFin < x <= s'.vtime[p]
      ensures Covered(s', w, p, x)
    {
      if x > s.vtime[p] {
        assert Covers(s', w, k, x);
      } else if b != k {
        StillCovered(s, s', w, p, k, b, x);
      } else {
        StillCovered(s, s', w, p, k, k, x);
      }
    }
    if s.vtime[p] < s'.cls[k].headFin {
      assert LiveAt(s', p, k) && s'.cls[k].headFin == s'.vtime[p];
    } else {
      TopSurvives(s, s', w, p, k, from);
    }
  }

  lemma TopSurvives(s: Sched, s': Sched, w: seq<nat>, p: nat, k: nat, from: int)
    requires Sized(s) && Sized(s') && Weights(w) && p < MAX_PRIO && k < MAX_QUEUES
    requires TopTag(s, p) && Retagged(s, s', w, p, k, from) && s'.vtime[p] == s.vtime[p]
    requires if LiveAt(s, p, k) then Least(s, p, k) && from == s.cls[k].headFin else from == s.vtime[p]
    ensures exists t: nat :: LiveAt(s', p, t) && s'.cls[t].headFin == s'.vtime[p]
  {
    if LiveAt(s, p, k) && s'.cls[k].headFin < s.vtime[p] {
      var t: nat :| LiveAt(s, p, t) && s.cls[t].headFin == s.vtime[p];
      assert t != k && LiveAt(s', p, t);
    } else {
      assert LiveAt(s', p, k) && s'.cls[k].headFin == s'.vtime[p];
    }
  }

  /** The class with the least tag sends its last packet. */
  lemma LeaveKeeps(s: Sched, s': Sched, w: seq<nat>, p: nat, k: nat)
    requires Sized(s) && Sized(s') && Weights(w) && p < MAX_PRIO && k < MAX_QUEUES
    requires TopTag(s, p) && NoGap(s, w, p) && Least(s, p, k)
    requires !LiveAt(s', p, k) && OthersSame(s, s', p, k) && s'.vtime[p] == s.vtime[p]
    ensures TopTag(s', p) && NoGap(s', w, p)
  {
    forall b: nat, x: int | LiveAt(s', p, b) && s'.cls[b].headFin < x <= s'.vtime[p]
      ensures Covered(s', w, p, x)
    {
      StillCovered(s, s', w, p, k, b, x);
    }
    if b: nat :| LiveAt(s', p, b) {
      assert LiveAt(s, p, b);
      var t: nat :| LiveAt(s, p, t) && s.cls[t].headFin == s.vtime[p];
      if t == k {
        assert s'.cls[b].headFin == s'.vtime[p];
      } else {
        assert LiveAt(s', p, t);
      }
    }
  }

  // ---------------------------------------------------------------- every step keeps the invariant

  lemma SendKeepsTags(s: Sched, c: Config, w: seq<nat>, prio: nat, k: nat, now: int, p: nat)
    requires Inv(s, w) && ConfigOk(c) && WeightsAtLeast(c, w) && prio < MAX_PRIO && p < MAX_PRIO
    requires Least(s, prio, k) && s.cls[k].pkts != []
    ensures var s' := SendFrom(Exact, s, c, prio, k, now); TopTag(s', p) && NoGap(s', w, p)
  {
    var s' := SendFrom(Exact, s, c, prio, k, now);
    var left := s.cls[k].pkts[1..];
    assert TopTag(s, p) && NoGap(s, w, p) && TopTag(s, prio);
    LiveHasPackets(s, prio, k);
    SendKeepsAccounts(Exact, s, c, prio, k, now);
    LiveHasPackets(s', prio, k);
    if p != prio {
      forall n: nat | LiveAt(s, p, n) ensures n != k && s.cls[n].pkts != [] {
        LiveHasPackets(s, p, n);
      }
      SameTagsKeep(s, s', w, p);
    } else if left == [] {
      LeaveKeeps(s, s', w, p, k);
    } else {
      DivWeights(SkbSize(left[0]), w[k], c.weight[k]);
      assert OthersSame(s, s', p, k);
      hide Inv, TopTag, NoGap, Accounts;
      RetagKeeps(s, s', w, p, k, s.cls[k].headFin);
    }
  }

  /** A larger weight gives a shorter span. */
  lemma DivWeights(len: nat, w: nat, weight: nat)
    requires 0 < w <= weight
    ensures 0 <= len / weight <= len / w
  {
    var q := len / weight;
    QuotientBelow(len, weight, q);
    MulLe(w, weight, q);
    QuotientBelow(len, w, q);
  }

  lemma AcceptKeepsTags(s: Sched, c: Config, w: seq<nat>, k: nat, pkt: Packet, p: nat)
    requires Inv(s, w) && ConfigOk(c) && WeightsAtLeast(c, w) && k < MAX_QUEUES && p < MAX_PRIO
    requires s.cls[k].prio < MAX_PRIO && SkbSize(pkt) <= MAX_PKT_BYTES
    ensures var s' := Accept(Exact, s, c, k, pkt); TopTag(s', p) && NoGap(s', w, p)
  {
    var s' := Accept(Exact, s, c, k, pkt);
    assert TopTag(s, p) && NoGap(s, w, p);
    LiveHasPackets(s, p, k);
    AcceptKeepsAccounts(Exact, s, c, k, pkt);
    LiveHasPackets(s', p, k);
    forall n: nat | LiveAt(s, p, n) ensures s.cls[n].pkts != [] {
      LiveHasPackets(s, p, n);
    }
    if s.cls[k].pkts == [] && c.prio[k] == p {
      DivWeights(SkbSize(pkt), w[k], c.weight[k]);
      assert OthersSame(s, s', p, k);
      hide Inv, TopTag, NoGap, Accounts;
      RetagKeeps(s, s', w, p, k, s.vtime[p]);
    } else {
      SameTagsKeep(s, s', w, p);
    }
  }

  /** Dequeue finds a packet whenever a priority's byte count is positive, and it is the one with the
      least tag at the highest such priority. */
  lemma DequeueFinds(s: Sched, w: seq<nat>)
    requires Inv(s, w)
    ensures var prio := PrioFrom(s.prioLen, 0);
            prio >= 0 ==>
              var k := Select(Exact, s.cls, prio, 0, -1);
              k >= 0 && Least(s, prio, k) && s.cls[k].pkts != []
    ensures PrioFrom(s.prioLen, 0) < 0 ==> forall k :: 0 <= k < MAX_QUEUES ==> s.cls[k].pkts == []
    ensures PrioFrom(s.prioLen, 0) >= 0 ==>
              forall k :: 0 <= k < MAX_QUEUES && s.cls[k].pkts != [] ==> PrioFrom(s.prioLen, 0) <= s.cls[k].prio
  {
    var prio := PrioFrom(s.prioLen, 0);
    forall k | 0 <= k < MAX_QUEUES ensures s.cls[k].lenBytes >= 0 {
      LiveHasPackets(s, 0, k);
    }
    if prio >= 0 {
      PositiveCount(Loads(s.cls), s.sumLen, s.prioLen, prio);
      var n :| 0 <= n < MAX_QUEUES && Loads(s.cls)[n].prio == prio && Loads(s.cls)[n].bytes > 0;
      assert LiveAt(s, prio, n);
      SelectIsLeast(s, prio, 0, -1);
      var k := Select(Exact, s.cls, prio, 0, -1);
      LiveHasPackets(s, prio, k);
    }
    forall k | 0 <= k < MAX_QUEUES && s.cls[k].pkts != []
      ensures prio >= 0 && prio <= s.cls[k].prio
    {
      assert ClassOk(s.cls[k]);
      LiveHasPackets(s, s.cls[k].prio, k);
      assert Loads(s.cls)[k].bytes > 0;
      PositiveCount(Loads(s.cls), s.sumLen, s.prioLen, s.cls[k].prio);
    }
  }

  lemma DequeueKeepsInv(s: Sched, c: Config, w: seq<nat>, now: int)
    requires Inv(s, w) && ConfigOk(c) && WeightsAtLeast(c, w)
    ensures Inv(Dequeue(Exact, s, c, now).0, w)
  {
    DequeueFinds(s, w);
    var (s', o) := Dequeue(Exact, s, c, now);
    if o.Sent? {
      SendKeepsAccounts(Exact, s, c, o.prio, o.queue, now);
      forall p | 0 <= p < MAX_PRIO ensures TopTag(s', p) && NoGap(s', w, p) {
        SendKeepsTags(s, c, w, o.prio, o.queue, now, p);
      }
    }
    hide Accounts, TopTag, NoGap, SendFrom, Select, Least;
  }

  lemma EnqueueKeepsInv(s: Sched, c: Config, w: seq<nat>, k: nat, pkt: Packet, childAccepts: bool)
    requires Inv(s, w) && ConfigOk(c) && WeightsAtLeast(c, w) && k < MAX_QUEUES && SkbSize(pkt) <= MAX_PKT_BYTES
    ensures s.cls[k].prio < MAX_PRIO && Inv(Enqueue(Exact, s, c, k, pkt, childAccepts).0, w)
  {
    AcceptKeepsAccounts(Exact, s, c, k, pkt);
    forall p | 0 <= p < MAX_PRIO
      ensures var s' := Accept(Exact, s, c, k, pkt); TopTag(s', p) && NoGap(s', w, p)
    {
      AcceptKeepsTags(s, c, w, k, pkt, p);
    }
    hide Accounts, TopTag, NoGap, Accept, Overfill;
  }
}
