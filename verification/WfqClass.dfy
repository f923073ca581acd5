/** struct wfq_sched_data and the functions that update it in place, with u64 tags. */
module WfqClass {
  import opened KernelPackets
  import opened TokenBucket
  import opened Wfq

  class WfqSched {
    var queues: seq<Class>
    var tokens: int
    var timeNs: int
    var sumLenBytes: int
    var prioLenBytes: seq<int>
    var virtualTime: seq<int>

    function Abs(): Sched
      reads this
    {
      Sched(queues, Bucket(tokens, timeNs), sumLenBytes, prioLenBytes, virtualTime)
    }

    constructor (nowNs: int)
      ensures Sized(Abs()) && Abs().bucket == Bucket(0, nowNs) && sumLenBytes == 0
      ensures forall k :: 0 <= k < MAX_QUEUES ==> queues[k] == Class([], 0, 0, 0)
      ensures forall p :: 0 <= p < MAX_PRIO ==> prioLenBytes[p] == 0 && virtualTime[p] == 0
    {
      queues := seq(MAX_QUEUES, k => Class([], 0, 0, 0));
      tokens := 0;
      timeNs := nowNs;
      sumLenBytes := 0;
      prioLenBytes := seq(MAX_PRIO, p => 0);
      virtualTime := seq(MAX_PRIO, p => 0);
    }

    /** The scan over the priorities, highest first. */
    method PrioSchedule() returns (prio: int)
      requires Sized(Abs())
      ensures prio == PrioFrom(prioLenBytes, 0)
    {
      for i := 0 to MAX_PRIO
        invariant PrioFrom(prioLenBytes, i) == PrioFrom(prioLenBytes, 0)
      {
        if prioLenBytes[i] > 0 {
          return i;
        }
      }
      return -1;
    }

    /** The scan over the classes for the tag that comes first on the circle. */
    method EarliestQueue(prio: nat) returns (k: int)
      requires Sized(Abs())
      ensures k == Select(Wrapped, queues, prio, 0, -1)
    {
      k := -1;
      var minTime := 0;
      for i := 0 to MAX_QUEUES
        invariant -1 <= k < i && (k >= 0 ==> minTime == queues[k].headFin)
        invariant Select(Wrapped, queues, prio, i, k) == Select(Wrapped, queues, prio, 0, -1)
      {
        if queues[i].prio != prio || queues[i].lenBytes == 0 {
          continue;
        }
        if k < 0 || WfqTimeBefore(queues[i].headFin, minTime) {
          k := i;
          minTime := queues[k].headFin;
        }
      }
    }

    method EnqueuePacket(c: Config, k: nat, p: Packet, childAccepts: bool) returns (verdict: Verdict)
      requires Sized(Abs()) && ConfigOk(c) && k < MAX_QUEUES && queues[k].prio < MAX_PRIO
      modifies this
      ensures (Abs(), verdict) == Enqueue(Wrapped, old(Abs()), c, k, p, childAccepts)
    {
      var len := SkbSize(p);
      hide SkbSize;
      if Overfill(Abs(), c, k, len) {
        return Dropped;
      }
      if !childAccepts {
        return Refused;
      }
      verdict := Queued;
      var cl := queues[k];
      cl := cl.(pkts := cl.pkts + [p]);
      if |cl.pkts| == 1 {
        var weight := c.weight[k];
        cl := cl.(prio := c.prio[k]);
        if weight > 0 {
          cl := cl.(headFin := (len / weight + virtualTime[cl.prio]) % U64);
          virtualTime := virtualTime[cl.prio := cl.headFin];
        }
      }
      sumLenBytes := sumLenBytes + len;
      cl := cl.(lenBytes := cl.lenBytes + len);
      prioLenBytes := prioLenBytes[cl.prio := prioLenBytes[cl.prio] + len];
      queues := queues[k := cl];
    }

    /** Take the head packet off class k, tag the next one and pay the bucket. */
    method SendPacket(c: Config, prio: nat, k: nat, now: int, result: int) returns (pkt: Packet)
      requires Sized(Abs()) && ConfigOk(c) && prio < MAX_PRIO && k < MAX_QUEUES && queues[k].pkts != []
      requires result == TbfSchedule(SkbSize(queues[k].pkts[0]), c.rate, c.bucketBytes, Abs().bucket, now)
      modifies this
      ensures Abs() == SendFrom(Wrapped, old(Abs()), c, prio, k, now)
      ensures pkt == old(queues)[k].pkts[0]
    {
      var cl := queues[k];
      pkt := cl.pkts[0];
      var len := SkbSize(pkt);
      hide SkbSize, L2tNs, WfqTimeBefore;
      cl := cl.(pkts := cl.pkts[1..]);
      sumLenBytes := sumLenBytes - len;
      cl := cl.(lenBytes := cl.lenBytes - len);
      prioLenBytes := prioLenBytes[prio := prioLenBytes[prio] - len];
      if cl.lenBytes > 0 {
        var weight := c.weight[k];
        if |cl.pkts| > 0 && weight > 0 {
          cl := cl.(headFin := (cl.headFin + SkbSize(cl.pkts[0]) / weight) % U64);
          if WfqTimeBefore(virtualTime[prio], cl.headFin) {
            virtualTime := virtualTime[prio := cl.headFin];
          }
        }
      }
      queues := queues[k := cl];
      timeNs := now;
      tokens := Min(result, L2tNs(c.rate, c.bucketBytes));
    }

    method DequeuePacket(c: Config, now: int) returns (o: Outcome)
      requires Sized(Abs()) && ConfigOk(c)
      modifies this
      ensures (Abs(), o) == Dequeue(Wrapped, old(Abs()), c, now)
    {
      var prio := PrioSchedule();
      if prio < 0 {
        return Nothing;
      }
      var k := EarliestQueue(prio);
      if k < 0 || |queues[k].pkts| == 0 {
        return Nothing;
      }
      var result := TbfSchedule(SkbSize(queues[k].pkts[0]), c.rate, c.bucketBytes, Bucket(tokens, timeNs), now);
      if result < 0 {
        return Throttled(now - result);
      }
      var pkt := SendPacket(c, prio, k, now, result);
      o := Sent(k, pkt, prio);
    }
  }
}
