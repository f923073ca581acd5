/** sch_dwrr: strict priorities, deficit round robin within each, and a token bucket, as a state
    machine.  The configuration may be rewritten arbitrarily between calls. */
module KernelDwrr {
  import opened Accounting
  import opened ActiveOrder
  import opened Arithmetic
  import opened KernelPackets
  import opened TokenBucket

  const MAX_ITERATION: nat := 10
  const ROUND_SHIFT_ONE: nat := 1024  // 1 << dwrr_round_shift

  datatype Class = Class(
    pkts: seq<Packet>, prio: nat, lenBytes: int, deficit: int, quantum: int, startTime: int, lastPktTime: int)

  datatype Sched = Sched(
    cls: seq<Class>, active: seq<seq<nat>>, bucket: Bucket, sumLen: int,
    prioLen: seq<int>, roundTime: seq<int>, lastIdle: seq<int>)

  /** The sysctl parameters and the configured rate. */
  datatype Config = Config(
    quantum: seq<int>, prio: seq<nat>, wrr: bool, rate: RateCfg, bucketBytes: nat,
    roundAlpha: int, idleIntervalNs: int, buffer: BufferMode)

  datatype Outcome = Sent(queue: nat, pkt: Packet, prio: nat) | Throttled(wakeup: int) | Nothing

  ghost predicate ConfigOk(c: Config)
  {
    && |c.quantum| == MAX_QUEUES && (forall k :: 0 <= k < MAX_QUEUES ==> c.quantum[k] >= MAX_PKT_BYTES)
    && |c.prio| == MAX_QUEUES && (forall k :: 0 <= k < MAX_QUEUES ==> c.prio[k] < MAX_PRIO)
    && (c.buffer.StaticBuffer? ==> |c.buffer.limits| == MAX_QUEUES)
  }

  // ---------------------------------------------------------------- round time

  /** The shift of a signed sum rounds down. */
  function S64Ewma(smooth: int, sample: int, weight: int): int
  {
    (smooth * weight + sample * (ROUND_SHIFT_ONE - weight)) / ROUND_SHIFT_ONE
  }

  function DecayRound(smooth: int, alpha: int, n: nat): int
    decreases n
  {
    if n == 0 then smooth else DecayRound(S64Ewma(smooth, 0, alpha), alpha, n - 1)
  }

  /** The average stays between the old value and the sample, rounding included. */
  lemma EwmaBetween(smooth: int, sample: int, weight: int)
    requires 0 <= weight <= ROUND_SHIFT_ONE
    ensures smooth <= sample ==> smooth <= S64Ewma(smooth, sample, weight) <= sample
    ensures sample <= smooth ==> sample <= S64Ewma(smooth, sample, weight) <= smooth
  {
    var v := ROUND_SHIFT_ONE - weight;
    var sum := smooth * weight + sample * v;
    assert sum == smooth * ROUND_SHIFT_ONE + (sample - smooth) * v;
    assert sum == sample * ROUND_SHIFT_ONE + (smooth - sample) * weight;
    Products(sample - smooth, v);
    Products(smooth - sample, weight);
    WordQuotient(sum, smooth);
    WordQuotient(sum, sample);
  }

  lemma Products(a: int, b: nat)
    ensures a >= 0 ==> a * b >= 0
    ensures a <= 0 ==> a * b <= 0
  {}

  lemma WordQuotient(sum: int, bound: int)
    ensures sum >= bound * ROUND_SHIFT_ONE ==> sum / ROUND_SHIFT_ONE >= bound
    ensures sum <= bound * ROUND_SHIFT_ONE ==> sum / ROUND_SHIFT_ONE <= bound
  {}

  /** Idle time moves a round time towards zero, never past it. */
  lemma {:induction false} IdleDecays(smooth: int, alpha: int, n: nat)
    requires 0 <= alpha <= ROUND_SHIFT_ONE
    ensures smooth >= 0 ==> 0 <= DecayRound(smooth, alpha, n) <= smooth
    ensures smooth <= 0 ==> smooth <= DecayRound(smooth, alpha, n) <= 0
    decreases n
  {
    if n > 0 {
      EwmaBetween(smooth, 0, alpha);
      IdleDecays(S64Ewma(smooth, 0, alpha), alpha, n - 1);
    }
  }

  /** The weight is that of the old value: the distance to the sample shrinks to weight / 1024 of itself,
      rounded down. */
  lemma EwmaPulls(smooth: int, sample: int, weight: int)
    ensures var left := (S64Ewma(smooth, sample, weight) - sample) * ROUND_SHIFT_ONE;
            weight * (smooth - sample) - ROUND_SHIFT_ONE < left <= weight * (smooth - sample)
  {
    var sum := smooth * weight + sample * (ROUND_SHIFT_ONE - weight);
    Distribute(weight, smooth, -sample);
    Distribute(sample, ROUND_SHIFT_ONE, -weight);
    assert smooth * weight == weight * smooth && weight * (-sample) == -(weight * sample) == sample * (-weight);
    assert sum == sample * ROUND_SHIFT_ONE + weight * (smooth - sample);
    var q := sum / ROUND_SHIFT_ONE;
    assert ROUND_SHIFT_ONE * q <= sum < ROUND_SHIFT_ONE * q + ROUND_SHIFT_ONE;
  }

  ghost function Power(x: nat, n: nat): nat
  {
    if n == 0 then 1 else x * Power(x, n - 1)
  }

  /** n idle slots scale a round time by at most (alpha / 1024)^n. */
  lemma {:induction false} DecayGeometric(smooth: nat, alpha: nat, n: nat)
    requires alpha <= ROUND_SHIFT_ONE
    ensures 0 <= DecayRound(smooth, alpha, n)
    ensures Times(DecayRound(smooth, alpha, n), Power(ROUND_SHIFT_ONE, n)) <= Times(smooth, Power(alpha, n))
    decreases n
  {
    if n > 0 {
      EwmaPulls(smooth, 0, alpha);
      EwmaBetween(smooth, 0, alpha);
      var next := S64Ewma(smooth, 0, alpha);
      DecayGeometric(next, alpha, n - 1);
      Rescale(DecayRound(next, alpha, n - 1), Power(ROUND_SHIFT_ONE, n - 1), next, Power(alpha, n - 1), smooth, alpha);
    }
  }

  lemma Rescale(d: nat, ones: nat, next: nat, powers: nat, smooth: nat, alpha: nat)
    requires Times(d, ones) <= Times(next, powers) && next * ROUND_SHIFT_ONE <= alpha * smooth
    ensures Times(d, ROUND_SHIFT_ONE * ones) <= Times(smooth, alpha * powers)
  {
    MulLe(next * ROUND_SHIFT_ONE, alpha * smooth, powers);
    assert d * (ROUND_SHIFT_ONE * ones) == ROUND_SHIFT_ONE * (d * ones);
    assert ROUND_SHIFT_ONE * (next * powers) == (next * ROUND_SHIFT_ONE) * powers;
    assert smooth * (alpha * powers) == (alpha * smooth) * powers;
  }

  /** div_s64 truncates towards zero. */
  function DivTrunc(a: int, b: int): int
    requires b > 0
  {
    if a >= 0 then a / b else -(-a / b)
  }

  function IdleRounds(prioLen: int, lastIdle: int, idleIntervalNs: int, now: int): int
  {
    if prioLen == 0 && idleIntervalNs > 0 then DivTrunc(now - lastIdle, idleIntervalNs) else 0
  }

  function ResetRound(s: Sched, c: Config, prio: nat, now: int): Sched
    requires Sized(s) && prio < MAX_PRIO
  {
    var iter := IdleRounds(s.prioLen[prio], s.lastIdle[prio], c.idleIntervalNs, now);
    var round := if iter > MAX_ITERATION || iter < 0 then 0 else DecayRound(s.roundTime[prio], c.roundAlpha, iter);
    s.(roundTime := s.roundTime[prio := round])
  }

  function SampleRound(s: Sched, c: Config, prio: nat, k: nat): seq<int>
    requires Sized(s) && prio < MAX_PRIO && k < MAX_QUEUES
  {
    s.roundTime[prio := S64Ewma(s.roundTime[prio], s.cls[k].lastPktTime - s.cls[k].startTime, c.roundAlpha)]
  }

  // ---------------------------------------------------------------- enqueue

  predicate Sized(s: Sched)
  {
    |s.cls| == MAX_QUEUES && |s.active| == |s.prioLen| == |s.roundTime| == |s.lastIdle| == MAX_PRIO
  }

  function Overfill(s: Sched, c: Config, k: nat, len: nat): bool
    requires Sized(s) && k < MAX_QUEUES && (c.buffer.StaticBuffer? ==> |c.buffer.limits| == MAX_QUEUES)
  {
    match c.buffer
    case SharedBuffer(limit) => s.sumLen + len > limit
    case StaticBuffer(limits) => s.cls[k].lenBytes + len > limits[k]
  }

  /** Accept packet p into class k: an empty class latches its priority and quantum and joins the tail
      of that priority's list. */
  function Accept(s: Sched, c: Config, k: nat, p: Packet, now: int): Sched
    requires Sized(s) && ConfigOk(c) && k < MAX_QUEUES && s.cls[k].prio < MAX_PRIO
  {
    var len := SkbSize(p);
    var cl := s.cls[k].(pkts := s.cls[k].pkts + [p], lenBytes := s.cls[k].lenBytes + len);
    if s.cls[k].pkts == [] then
      var prio := c.prio[k];
      s.(cls := s.cls[k := cl.(startTime := now, quantum := c.quantum[k], prio := prio, deficit := c.quantum[k])],
         active := s.active[prio := s.active[prio] + [k]],
         sumLen := s.sumLen + len,
         prioLen := s.prioLen[prio := s.prioLen[prio] + len])
    else
      s.(cls := s.cls[k := cl],
         sumLen := s.sumLen + len,
         prioLen := s.prioLen[cl.prio := s.prioLen[cl.prio] + len])
  }

  /** childAccepts is the verdict of the inner FIFO. */
  function Enqueue(s: Sched, c: Config, k: nat, p: Packet, now: int, childAccepts: bool): (Sched, Verdict)
    requires Sized(s) && ConfigOk(c) && k < MAX_QUEUES && s.cls[k].prio < MAX_PRIO
  {
    var prio := c.prio[k];
    var s0 := if s.prioLen[prio] == 0 then ResetRound(s, c, prio, now) else s;
    if Overfill(s0, c, k, SkbSize(p)) then (s0, Dropped)
    else if !childAccepts then (s0, Refused)
    else (Accept(s0, c, k, p, now), Queued)
  }

  // ---------------------------------------------------------------- dequeue

  /** The highest non-empty priority at or below i. */
  function PrioFrom(active: seq<seq<nat>>, i: nat): (prio: int)
    requires i <= |active|
    ensures prio == -1 || i <= prio < |active|
    ensures forall q :: i <= q < (if prio == -1 then |active| else prio) ==> active[q] == []
    ensures prio != -1 ==> active[prio] != []
    decreases |active| - i
  {
    if i == |active| then -1
    else if active[i] != [] then i
    else PrioFrom(active, i + 1)
  }

  predicate HasHead(s: Sched, prio: nat)
  {
    && Sized(s) && prio < MAX_PRIO && s.active[prio] != []
    && s.active[prio][0] < MAX_QUEUES && s.cls[s.active[prio][0]].pkts != []
  }

  function Head(s: Sched, prio: nat): nat
    requires HasHead(s, prio)
  {
    s.active[prio][0]
  }

  predicate HeadFits(s: Sched, prio: nat)
    requires HasHead(s, prio)
  {
    SkbSize(s.cls[Head(s, prio)].pkts[0]) <= s.cls[Head(s, prio)].deficit
  }

  function RotateHead(s: Sched, c: Config, prio: nat): Sched
    requires HasHead(s, prio) && ConfigOk(c)
  {
    var k := Head(s, prio);
    var cl := s.cls[k];
    s.(cls := s.cls[k := cl.(startTime := cl.lastPktTime, quantum := c.quantum[k],
                             deficit := if c.wrr then c.quantum[k] else cl.deficit + c.quantum[k])],
       active := s.active[prio := s.active[prio][1..] + [k]],
       roundTime := SampleRound(s, c, prio, k))
  }

  /** Send the head packet once the bucket has accepted it. */
  function SendHead(s: Sched, c: Config, prio: nat, now: int): Sched
    requires HasHead(s, prio)
  {
    var k := Head(s, prio);
    var len := SkbSize(s.cls[k].pkts[0]);
    var cost := L2tNs(c.rate, len);
    var cl := s.cls[k].(pkts := s.cls[k].pkts[1..], lenBytes := s.cls[k].lenBytes - len,
                        deficit := s.cls[k].deficit - len, lastPktTime := now + cost);
    var s1 := s.(cls := s.cls[k := cl], sumLen := s.sumLen - len,
                 prioLen := s.prioLen[prio := s.prioLen[prio] - len],
                 lastIdle := if s.prioLen[prio] - len == 0 then s.lastIdle[prio := now] else s.lastIdle,
                 bucket := Depart(s.bucket, L2tNs(c.rate, c.bucketBytes), cost, now));
    if cl.pkts == [] then
      s1.(active := s.active[prio := s.active[prio][1..]], roundTime := SampleRound(s1, c, prio, k))
    else s1
  }

  /** Send the head packet, or schedule the watchdog. */
  function Serve(s: Sched, c: Config, prio: nat, now: int): (Sched, Outcome)
    requires HasHead(s, prio)
  {
    var k := Head(s, prio);
    var p := s.cls[k].pkts[0];
    var result := TbfSchedule(SkbSize(p), c.rate, c.bucketBytes, s.bucket, now);
    if result < 0 then (s, Throttled(now - result))
    else (SendHead(s, c, prio, now), Sent(k, p, prio))
  }

  /** What the while(1) loop comes to: at most one rotation, then a service attempt. */
  function DequeueAt(s: Sched, c: Config, prio: nat, now: int): (Sched, Outcome)
    requires HasHead(s, prio) && ConfigOk(c)
    requires HeadFits(s, prio) || HasHead(RotateHead(s, c, prio), prio)
  {
    if HeadFits(s, prio) then Serve(s, c, prio, now)
    else Serve(RotateHead(s, c, prio), c, prio, now)
  }

  ghost function Dequeue(s: Sched, c: Config, now: int): (Sched, Outcome)
    requires Wf(s) && ConfigOk(c)
  {
    var prio := PrioFrom(s.active, 0);
    if prio < 0 then (s, Nothing)
    else
      ListHasHead(s, prio);
      RotationSuffices(s, c, prio);
      DequeueAt(s, c, prio, now)
  }

  // ---------------------------------------------------------------- the invariant

  /** Each priority's list holds exactly the non-empty classes latched to it, once each. */
  ghost predicate Lists(s: Sched)
  {
    && Sized(s)
    && (forall p :: 0 <= p < MAX_PRIO ==> Distinct(s.active[p]))
    && (forall p: nat, k: nat {:trigger k in s.active[p]} :: p < MAX_PRIO ==>
          (k in s.active[p] <==> k < MAX_QUEUES && s.cls[k].pkts != [] && s.cls[k].prio == p))
  }

  ghost predicate ClassOk(cl: Class)
  {
    && cl.prio < MAX_PRIO && cl.lenBytes == Bytes(cl.pkts)
    && (forall n :: 0 <= n < |cl.pkts| ==> SkbSize(cl.pkts[n]) <= MAX_PKT_BYTES)
    && (cl.pkts != [] ==> MAX_PKT_BYTES <= cl.quantum && 0 <= cl.deficit < cl.quantum + MAX_PKT_BYTES)
  }

  ghost predicate Classes(s: Sched)
  {
    forall k :: 0 <= k < |s.cls| ==> ClassOk(s.cls[k])
  }

  /** A class waiting behind the head holds at least its quantum. */
  ghost predicate Credits(s: Sched)
    requires Lists(s)
  {
    forall p, n :: 0 <= p < MAX_PRIO && 0 < n < |s.active[p]| ==>
      s.active[p][n] in s.active[p] && s.cls[s.active[p][n]].deficit >= s.cls[s.active[p][n]].quantum
  }

  ghost function LoadOf(cl: Class): Load
  {
    Load(cl.prio, cl.lenBytes)
  }

  ghost function Loads(cls: seq<Class>): seq<Load>
  {
    seq(|cls|, k requires 0 <= k < |cls| => LoadOf(cls[k]))
  }

  /** The port's and every priority's byte counts are the sums of the class counts. */
  ghost predicate Accounts(s: Sched)
  {
    Sized(s) && Balanced(Loads(s.cls), s.sumLen, s.prioLen)
  }

  ghost predicate Wf(s: Sched)
  {
    Lists(s) && Classes(s) && Credits(s) && Accounts(s)
  }

  lemma ListHasHead(s: Sched, prio: nat)
    requires Lists(s) && prio < MAX_PRIO && s.active[prio] != []
    ensures HasHead(s, prio)
    ensures s.cls[s.active[prio][0]].prio == prio
  {
    assert s.active[prio][0] in s.active[prio];
  }

  // ---------------------------------------------------------------- rotation

  lemma RotateKeepsLists(s: Sched, c: Config, prio: nat)
    requires Lists(s) && HasHead(s, prio) && ConfigOk(c)
    ensures Lists(RotateHead(s, c, prio))
  {
    DistinctTail(s.active[prio]);
    var s' := RotateHead(s, c, prio);
    forall p: nat, k: nat | p < MAX_PRIO
      ensures k in s'.active[p] <==> k < MAX_QUEUES && s'.cls[k].pkts != [] && s'.cls[k].prio == p
    {
      assert k in s'.active[p] <==> k in s.active[p];
    }
  }

  lemma AccountsUpdate(s: Sched, s': Sched, k: nat, delta: int)
    requires Accounts(s) && Sized(s') && k < MAX_QUEUES
    requires s'.cls == s.cls[k := s'.cls[k]]
    requires s'.cls[k].lenBytes == s.cls[k].lenBytes + delta
    requires s'.cls[k].prio < MAX_PRIO
    requires s'.cls[k].prio == s.cls[k].prio || s.cls[k].lenBytes == 0
    requires s'.sumLen == s.sumLen + delta
    requires s'.prioLen == s.prioLen[s'.cls[k].prio := s.prioLen[s'.cls[k].prio] + delta]
    ensures Accounts(s')
  {
    hide Balanced;
    BalancedUpdate(Loads(s.cls), k, LoadOf(s'.cls[k]), delta, s.sumLen, s.prioLen);
    assert Loads(s'.cls) == Loads(s.cls)[k := LoadOf(s'.cls[k])];
  }

  lemma RotateKeepsAccounts(s: Sched, c: Config, prio: nat)
    requires Lists(s) && Classes(s) && Accounts(s) && HasHead(s, prio) && ConfigOk(c)
    ensures Accounts(RotateHead(s, c, prio))
  {
    var k := Head(s, prio);
    var s' := RotateHead(s, c, prio);
    assert ClassOk(s.cls[k]);
    assert s.prioLen == s.prioLen[s.cls[k].prio := s.prioLen[s.cls[k].prio] + 0];
    AccountsUpdate(s, s', k, 0);
  }

  lemma RotateKeepsClasses(s: Sched, c: Config, prio: nat)
    requires Lists(s) && Classes(s) && HasHead(s, prio) && ConfigOk(c) && !HeadFits(s, prio)
    ensures Classes(RotateHead(s, c, prio))
  {
    assert ClassOk(s.cls[Head(s, prio)]);
  }

  /** After a rotation every class of the priority holds at least its quantum, the head included. */
  lemma RotateKeepsCredits(s: Sched, c: Config, prio: nat)
    requires Lists(s) && Classes(s) && Credits(s) && HasHead(s, prio) && ConfigOk(c)
    ensures Lists(RotateHead(s, c, prio)) && Credits(RotateHead(s, c, prio))
    ensures var s' := RotateHead(s, c, prio);
            HasHead(s', prio) && s'.cls[Head(s', prio)].deficit >= s'.cls[Head(s', prio)].quantum
  {
    RotateKeepsLists(s, c, prio);
    var k := Head(s, prio);
    var s' := RotateHead(s, c, prio);
    assert ClassOk(s.cls[k]);
    ListHasHead(s', prio);
    forall p, n | 0 <= p < MAX_PRIO && 0 <= n < |s'.active[p]| && (p == prio || n > 0)
      ensures s'.active[p][n] in s'.active[p] && s'.cls[s'.active[p][n]].deficit >= s'.cls[s'.active[p][n]].quantum
    {
      var x := s'.active[p][n];
      assert x in s'.active[p];
      if p != prio {
        assert s.active[p][n] in s.active[p];
      } else if n + 1 < |s.active[p]| {
        assert s.active[p][n + 1] == x;
      }
    }
  }

  /** With quanta of at least a maximum packet one rotation is always enough. */
  lemma RotationSuffices(s: Sched, c: Config, prio: nat)
    requires Wf(s) && ConfigOk(c) && HasHead(s, prio)
    ensures !HeadFits(s, prio) ==>
              var s' := RotateHead(s, c, prio); Wf(s') && HasHead(s', prio) && HeadFits(s', prio)
  {
    if !HeadFits(s, prio) {
      RotateKeepsAccounts(s, c, prio);
      RotateKeepsClasses(s, c, prio);
      RotateKeepsCredits(s, c, prio);
      var s' := RotateHead(s, c, prio);
      assert ClassOk(s'.cls[Head(s', prio)]);
    }
  }

  // ---------------------------------------------------------------- the initial state

  lemma EmptyIsWf(s: Sched)
    requires Sized(s) && s.sumLen == 0
    requires forall k :: 0 <= k < MAX_QUEUES ==> s.cls[k].pkts == [] && s.cls[k].lenBytes == 0 && s.cls[k].prio < MAX_PRIO
    requires forall p :: 0 <= p < MAX_PRIO ==> s.active[p] == [] && s.prioLen[p] == 0
    ensures Wf(s)
  {
    EmptyBalanced(Loads(s.cls), s.prioLen);
  }
}
