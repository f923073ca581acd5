/** struct prio_dwrr_sched_data and the functions that update it in place, tied to the state machine of
    PrioDwrr. */
module PrioDwrrClass {
  import opened KernelPackets
  import opened PrioDwrr
  import opened TokenBucket

  class PrioDwrrSched {
    var prioPkts: seq<Packet>
    var prioLenBytes: int
    var queues: seq<Class>
    var activeList: seq<nat>
    var tokens: int
    var timeNs: int
    var sumLenBytes: int
    var sumPrioLenBytes: int
    var quantumSum: int

    function Abs(): Sched
      reads this
    {
      Sched(prioPkts, prioLenBytes, queues, activeList, Bucket(tokens, timeNs), sumLenBytes, sumPrioLenBytes, quantumSum)
    }

    constructor (now: int)
      ensures Empty(Abs()) && Wf(Abs()) && tokens == 0 && timeNs == now
    {
      prioPkts, prioLenBytes, sumLenBytes, sumPrioLenBytes, quantumSum := [], 0, 0, 0, 0;
      queues := seq(DWRR_QUEUES, k => Class([], 0, 0, 0, false, false));
      activeList := [];
      tokens, timeNs := 0, now;
      new;
      EmptyIsWf(Abs());
    }

    /** A packet classified to queue id arrives. */
    method EnqueuePacket(c: Config, id: nat, p: Packet, childAccepts: bool) returns (verdict: Verdict)
      requires Sized(Abs()) && ConfigOk(c) && id < MAX_QUEUES
      modifies this
      ensures (Abs(), verdict) == Enqueue(old(Abs()), c, id, p, childAccepts)
    {
      var len := SkbSize(p);
      hide SkbSize;
      if Overfill(Abs(), c, id, len) {
        return Dropped;
      }
      if !childAccepts {
        return Refused;
      }
      verdict := Queued;
      if id == 0 {
        prioPkts := prioPkts + [p];
        sumLenBytes := sumLenBytes + len;
        sumPrioLenBytes := sumPrioLenBytes + len;
        prioLenBytes := prioLenBytes + len;
      } else {
        var k := id - 1;
        var q := queues[k].(pkts := queues[k].pkts + [p]);
        sumLenBytes := sumLenBytes + len;
        q := q.(lenBytes := q.lenBytes + len);
        if !q.active {
          q := q.(deficit := 0, active := true, curr := false, quantum := c.quantum[k]);
          activeList := activeList + [k];
          quantumSum := quantumSum + q.quantum;
        }
        queues := queues[k := q];
      }
    }

    /** The high-priority queue's turn. */
    method PrioQueuesDequeue(c: Config, now: int) returns (o: Outcome)
      modifies this
      ensures (Abs(), o) == DequeueHigh(old(Abs()), c, now)
    {
      if prioPkts == [] {
        return Nothing;
      }
      var p := prioPkts[0];
      var len := SkbSize(p);
      var toks := Min(now - timeNs, c.bucketNs) + tokens - L2tNs(c.rate, len);
      hide SkbSize, L2tNs;
      if toks >= 0 {
        prioPkts := prioPkts[1..];
        prioLenBytes := prioLenBytes - len;
        timeNs := now;
        sumLenBytes := sumLenBytes - len;
        sumPrioLenBytes := sumPrioLenBytes - len;
        tokens := Min(toks, c.bucketNs);
        return SentHigh(p);
      }
      return Throttled(now - toks);
    }

    /** The branch of the loop for a head that fits its deficit. */
    method SendOrThrottle(c: Config, now: int) returns (o: Outcome)
      requires HasHead(Abs())
      modifies this
      ensures (Abs(), o) == AttemptLow(old(Abs()), c, now)
    {
      var k := activeList[0];
      var q := queues[k];
      var p := q.pkts[0];
      var len := SkbSize(p);
      var toks := Min(now - timeNs, c.bucketNs) + tokens;
      var pktNs := L2tNs(c.rate, len);
      hide SkbSize, L2tNs;
      if toks > pktNs {
        q := q.(pkts := q.pkts[1..]);
        sumLenBytes := sumLenBytes - len;
        q := q.(lenBytes := q.lenBytes - len, deficit := q.deficit - len);
        if q.pkts == [] {
          q := q.(active := false, curr := false);
          activeList := activeList[1..];
          quantumSum := quantumSum - q.quantum;
        }
        queues := queues[k := q];
        timeNs := now;
        tokens := Min(toks - pktNs, c.bucketNs);
        return SentLow(k, p);
      }
      return Throttled(now + pktNs - toks);
    }

    /** The head's turn begins, unless it already has. */
    method TakeTurn()
      requires HasHead(Abs())
      modifies this`queues
      ensures Abs() == GrantHead(old(Abs()))
    {
      var k := activeList[0];
      if !queues[k].curr {
        queues := queues[k := queues[k].(curr := true, deficit := queues[k].deficit + queues[k].quantum)];
      }
      assert queues == old(queues)[k := Grant(old(queues)[k])];
    }

    /** The head's turn ends: it goes to the tail, recounted with the quantum now configured. */
    method EndTurn(c: Config)
      requires HasHead(Abs()) && ConfigOk(c)
      modifies this`queues, this`activeList, this`quantumSum
      ensures Abs() == RotateHead(old(Abs()), c)
    {
      var k := activeList[0];
      var q := queues[k].(curr := false);
      quantumSum := quantumSum - q.quantum;
      q := q.(quantum := c.quantum[k]);
      quantumSum := quantumSum + q.quantum;
      queues := queues[k := q];
      activeList := activeList[1..] + [k];
    }

    /** The DWRR queues' turn; the while(1) loop never goes round more than twice. */
    method DwrrQueuesDequeue(c: Config, now: int) returns (o: Outcome)
      requires Wf(Abs()) && ConfigOk(c) && activeList != []
      modifies this
      ensures HasHead(old(Abs()))
      ensures HeadFits(GrantHead(old(Abs()))) || HasHead(RotateHead(GrantHead(old(Abs())), c))
      ensures (Abs(), o) == DequeueLow(old(Abs()), c, now)
    {
      ghost var s0 := Abs();
      RotationSuffices(s0, c);
      ghost var s1 := RotateHead(GrantHead(s0), c);
      hide Wf, AttemptLow, SkbSize, RotateHead;
      while true
        invariant HasHead(Abs())
        invariant Abs() == s0 || (!HeadFits(GrantHead(s0)) && Abs() == s1)
        decreases if HeadFits(GrantHead(Abs())) then 0 else 1
      {
        TakeTurn();
        if SkbSize(queues[activeList[0]].pkts[0]) <= queues[activeList[0]].deficit {
          o := SendOrThrottle(c, now);
          return;
        }
        EndTurn(c);
      }
    }

    method DequeuePacket(c: Config, now: int) returns (o: Outcome)
      requires Wf(Abs()) && ConfigOk(c)
      modifies this
      ensures (Abs(), o) == Dequeue(old(Abs()), c, now)
    {
      if sumPrioLenBytes > 0 {
        o := PrioQueuesDequeue(c, now);
      } else if activeList != [] {
        o := DwrrQueuesDequeue(c, now);
      } else {
        o := Nothing;
      }
    }
  }
}
