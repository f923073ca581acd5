/** sch_prio_dwrr: one strict-priority queue above seven deficit round robin queues that take their
    quantum when visited, behind one token bucket.  The configuration may be rewritten between calls;
    each active queue records the quantum it was counted with. */
module PrioDwrr {
  import opened ActiveOrder
  import opened KernelPackets
  import opened TokenBucket

  const DWRR_QUEUES: nat := 7
  const QUANTUM_MAX: nat := 204800  // 200 * 1024

  datatype Class = Class(pkts: seq<Packet>, lenBytes: int, deficit: int, quantum: int, active: bool, curr: bool)

  /** prioPkts is the high-priority queue; order is the active list of the others, head first. */
  datatype Sched = Sched(
    prioPkts: seq<Packet>, prioLen: int, queues: seq<Class>, order: seq<nat>,
    bucket: Bucket, sumLen: int, sumPrioLen: int, quantumSum: int)

  datatype Config = Config(quantum: seq<int>, rate: RateCfg, bucketNs: nat, buffer: BufferMode)

  datatype Outcome = SentHigh(pkt: Packet) | SentLow(queue: nat, pkt: Packet) | Throttled(wakeup: int) | Nothing

  ghost predicate ConfigOk(c: Config)
  {
    && |c.quantum| == DWRR_QUEUES && (forall k :: 0 <= k < DWRR_QUEUES ==> MAX_PKT_BYTES <= c.quantum[k] <= QUANTUM_MAX)
    && (c.buffer.StaticBuffer? ==> |c.buffer.limits| == MAX_QUEUES)
  }

  predicate Sized(s: Sched)
  {
    |s.queues| == DWRR_QUEUES
  }

  // ---------------------------------------------------------------- enqueue

  /** Queue 0 is the high-priority one; queue id is DWRR queue id - 1. */
  function Overfill(s: Sched, c: Config, id: nat, len: nat): bool
    requires Sized(s) && id < MAX_QUEUES && (c.buffer.StaticBuffer? ==> |c.buffer.limits| == MAX_QUEUES)
  {
    match c.buffer
    case SharedBuffer(limit) => s.sumLen + len > limit
    case StaticBuffer(limits) => (if id == 0 then s.prioLen else s.queues[id - 1].lenBytes) + len > limits[id]
  }

  function AcceptHigh(s: Sched, p: Packet): Sched
  {
    var len := SkbSize(p);
    s.(prioPkts := s.prioPkts + [p], prioLen := s.prioLen + len, sumLen := s.sumLen + len, sumPrioLen := s.sumPrioLen + len)
  }

  function AcceptLow(s: Sched, c: Config, k: nat, p: Packet): Sched
    requires Sized(s) && ConfigOk(c) && k < DWRR_QUEUES
  {
    var len := SkbSize(p);
    var q := s.queues[k].(pkts := s.queues[k].pkts + [p], lenBytes := s.queues[k].lenBytes + len);
    if q.active then s.(queues := s.queues[k := q], sumLen := s.sumLen + len)
    else
      s.(queues := s.queues[k := q.(deficit := 0, active := true, curr := false, quantum := c.quantum[k])],
         order := s.order + [k], sumLen := s.sumLen + len, quantumSum := s.quantumSum + c.quantum[k])
  }

  function Enqueue(s: Sched, c: Config, id: nat, p: Packet, childAccepts: bool): (Sched, Verdict)
    requires Sized(s) && ConfigOk(c) && id < MAX_QUEUES
  {
    if Overfill(s, c, id, SkbSize(p)) then (s, Dropped)
    else if !childAccepts then (s, Refused)
    else if id == 0 then (AcceptHigh(s, p), Queued)
    else (AcceptLow(s, c, id - 1, p), Queued)
  }

  // ---------------------------------------------------------------- dequeue

  predicate HasHead(s: Sched)
  {
    Sized(s) && s.order != [] && s.order[0] < DWRR_QUEUES && s.queues[s.order[0]].pkts != []
  }

  function Grant(q: Class): Class
  {
    if q.curr then q else q.(curr := true, deficit := q.deficit + q.quantum)
  }

  function GrantHead(s: Sched): Sched
    requires HasHead(s)
  {
    s.(queues := s.queues[s.order[0] := Grant(s.queues[s.order[0]])])
  }

  predicate HeadFits(s: Sched)
    requires HasHead(s)
  {
    SkbSize(s.queues[s.order[0]].pkts[0]) <= s.queues[s.order[0]].deficit
  }

  /** The head's turn is over; it records the quantum now configured. */
  function RotateHead(s: Sched, c: Config): Sched
    requires HasHead(s) && ConfigOk(c)
  {
    var k := s.order[0];
    s.(queues := s.queues[k := s.queues[k].(curr := false, quantum := c.quantum[k])],
       order := s.order[1..] + [k], quantumSum := s.quantumSum - s.queues[k].quantum + c.quantum[k])
  }

  function SendLow(s: Sched, c: Config, now: int): Sched
    requires HasHead(s)
  {
    var k := s.order[0];
    var q := s.queues[k];
    var len := SkbSize(q.pkts[0]);
    var q' := q.(pkts := q.pkts[1..], lenBytes := q.lenBytes - len, deficit := q.deficit - len);
    var s' := s.(sumLen := s.sumLen - len, bucket := Depart(s.bucket, c.bucketNs, L2tNs(c.rate, len), now));
    if q'.pkts == [] then
      s'.(queues := s.queues[k := q'.(active := false, curr := false)], order := s.order[1..],
          quantumSum := s.quantumSum - q.quantum)
    else s'.(queues := s.queues[k := q'])
  }

  /** A DWRR packet leaves only if the bucket holds strictly more than it costs. */
  function AttemptLow(s: Sched, c: Config, now: int): (Sched, Outcome)
    requires HasHead(s)
  {
    var p := s.queues[s.order[0]].pkts[0];
    var result := Result(s.bucket, c.bucketNs, L2tNs(c.rate, SkbSize(p)), now);
    if result > 0 then (SendLow(s, c, now), SentLow(s.order[0], p))
    else (s, Throttled(now - result))
  }

  /** What the while(1) loop comes to: at most one rotation. */
  function DequeueLow(s: Sched, c: Config, now: int): (Sched, Outcome)
    requires HasHead(s) && ConfigOk(c)
    requires HeadFits(GrantHead(s)) || HasHead(RotateHead(GrantHead(s), c))
  {
    if HeadFits(GrantHead(s)) then AttemptLow(GrantHead(s), c, now)
    else AttemptLow(GrantHead(RotateHead(GrantHead(s), c)), c, now)
  }

  /** A high-priority packet leaves as soon as the bucket holds what it costs. */
  function DequeueHigh(s: Sched, c: Config, now: int): (Sched, Outcome)
  {
    if s.prioPkts == [] then (s, Nothing)
    else
      var p := s.prioPkts[0];
      var len := SkbSize(p);
      var result := Result(s.bucket, c.bucketNs, L2tNs(c.rate, len), now);
      if result >= 0 then
        (s.(prioPkts := s.prioPkts[1..], prioLen := s.prioLen - len, sumLen := s.sumLen - len,
            sumPrioLen := s.sumPrioLen - len, bucket := Depart(s.bucket, c.bucketNs, L2tNs(c.rate, len), now)),
         SentHigh(p))
      else (s, Throttled(now - result))
  }

  ghost function Dequeue(s: Sched, c: Config, now: int): (Sched, Outcome)
    requires Wf(s) && ConfigOk(c)
  {
    if s.sumPrioLen > 0 then DequeueHigh(s, c, now)
    else if s.order != [] then
      RotationSuffices(s, c);
      DequeueLow(s, c, now)
    else (s, Nothing)
  }

  // ---------------------------------------------------------------- the invariant

  /** The active list holds exactly the active queues, once each, and only its head may have the turn. */
  ghost predicate Listed(s: Sched)
  {
    && Sized(s) && Distinct(s.order)
    && (forall k: nat {:trigger k in s.order} :: k in s.order <==> k < DWRR_QUEUES && s.queues[k].active)
    && (forall k :: 0 <= k < DWRR_QUEUES && s.queues[k].curr ==> s.order != [] && s.order[0] == k)
  }

  ghost predicate ClassOk(q: Class)
  {
    && q.lenBytes == Bytes(q.pkts)
    && (forall n :: 0 <= n < |q.pkts| ==> SkbSize(q.pkts[n]) <= MAX_PKT_BYTES)
    && (q.active <==> q.pkts != [])
    && (q.active ==>
          && MAX_PKT_BYTES <= q.quantum <= QUANTUM_MAX
          && 0 <= q.deficit < (if q.curr then q.quantum else 0) + MAX_PKT_BYTES)
  }

  ghost predicate Classes(s: Sched)
  {
    forall k :: 0 <= k < |s.queues| ==> ClassOk(s.queues[k])
  }

  ghost function ActiveQuantum(q: Class): int
  {
    if q.active then q.quantum else 0
  }

  ghost function ActiveQuanta(qs: seq<Class>): seq<int>
  {
    seq(|qs|, k requires 0 <= k < |qs| => ActiveQuantum(qs[k]))
  }

  ghost function Lengths(qs: seq<Class>): seq<int>
  {
    seq(|qs|, k requires 0 <= k < |qs| => qs[k].lenBytes)
  }

  ghost predicate Sums(s: Sched)
  {
    && s.quantumSum == Sum(ActiveQuanta(s.queues))
    && s.sumLen == s.sumPrioLen + Sum(Lengths(s.queues))
    && s.prioLen == s.sumPrioLen == Bytes(s.prioPkts)
  }

  ghost predicate Wf(s: Sched)
  {
    Listed(s) && Classes(s) && Sums(s)
  }

  lemma ListHasHead(s: Sched)
    requires Listed(s) && Classes(s) && s.order != []
    ensures HasHead(s) && s.queues[s.order[0]].active && ClassOk(s.queues[s.order[0]])
  {
    assert s.order[0] in s.order;
  }

  lemma SumsUpdate(qs: seq<Class>, k: nat, q: Class)
    requires k < |qs|
    ensures Sum(ActiveQuanta(qs[k := q])) == Sum(ActiveQuanta(qs)) - ActiveQuantum(qs[k]) + ActiveQuantum(q)
    ensures Sum(Lengths(qs[k := q])) == Sum(Lengths(qs)) - qs[k].lenBytes + q.lenBytes
  {
    SumUpdate(ActiveQuanta(qs), k, ActiveQuantum(q));
    SumUpdate(Lengths(qs), k, q.lenBytes);
    assert ActiveQuanta(qs[k := q]) == ActiveQuanta(qs)[k := ActiveQuantum(q)];
    assert Lengths(qs[k := q]) == Lengths(qs)[k := q.lenBytes];
  }

  // ---------------------------------------------------------------- the steps keep it

  lemma GrantKeepsWf(s: Sched)
    requires Wf(s) && s.order != []
    ensures HasHead(s) && Wf(GrantHead(s)) && HasHead(GrantHead(s)) && GrantHead(s).queues[s.order[0]].curr
    ensures !s.queues[s.order[0]].curr ==> HeadFits(GrantHead(s))
  {
    ListHasHead(s);
    SumsUpdate(s.queues, s.order[0], Grant(s.queues[s.order[0]]));
    hide ActiveQuanta, Lengths, Sum;
  }

  lemma RotateKeepsWf(s: Sched, c: Config)
    requires Wf(s) && ConfigOk(c) && HasHead(s) && !HeadFits(s)
    ensures var s' := RotateHead(s, c); Wf(s') && HasHead(s') && !s'.queues[s'.order[0]].curr
  {
    ListHasHead(s);
    DistinctTail(s.order);
    SumsUpdate(s.queues, s.order[0], RotateHead(s, c).queues[s.order[0]]);
    assert Listed(RotateHead(s, c)) && Classes(RotateHead(s, c));
    ListHasHead(RotateHead(s, c));
    hide ActiveQuanta, Lengths, Sum;
  }

  /** A queue that comes to the head by rotation takes at least a maximum packet's quantum. */
  lemma RotationSuffices(s: Sched, c: Config)
    requires Wf(s) && ConfigOk(c) && s.order != []
    ensures HasHead(s)
    ensures !HeadFits(GrantHead(s)) ==>
              var s' := RotateHead(GrantHead(s), c);
              Wf(s') && HasHead(s') && HeadFits(GrantHead(s')) && Wf(GrantHead(s')) && HasHead(GrantHead(s'))
  {
    GrantKeepsWf(s);
    if !HeadFits(GrantHead(s)) {
      RotateKeepsWf(GrantHead(s), c);
      GrantKeepsWf(RotateHead(GrantHead(s), c));
    }
  }

  // ---------------------------------------------------------------- the initial state

  predicate Empty(s: Sched)
  {
    && Sized(s) && s.prioPkts == [] && s.prioLen == s.sumLen == s.sumPrioLen == s.quantumSum == 0 && s.order == []
    && forall k :: 0 <= k < DWRR_QUEUES ==> s.queues[k].pkts == [] && s.queues[k].lenBytes == 0 && !s.queues[k].active && !s.queues[k].curr
  }

  lemma EmptyIsWf(s: Sched)
    requires Empty(s)
    ensures Wf(s)
  {
    SumOfZeros(ActiveQuanta(s.queues));
    SumOfZeros(Lengths(s.queues));
  }
}
