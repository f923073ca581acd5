/** struct dwrr_sched_data and the functions that update it in place, tied to the state machine of
    KernelDwrr. */
module KernelDwrrClass {
  import opened KernelDwrr
  import opened KernelPackets
  import opened TokenBucket

  class DwrrSched {
    var queues: seq<Class>
    var active: seq<seq<nat>>
    var tokens: int
    var timeNs: int
    var sumLenBytes: int
    var prioLenBytes: seq<int>
    var roundTime: seq<int>
    var lastIdleTime: seq<int>

    function Abs(): Sched
      reads this
    {
      Sched(queues, active, Bucket(tokens, timeNs), sumLenBytes, prioLenBytes, roundTime, lastIdleTime)
    }

    constructor (nowNs: int)
      ensures Wf(Abs()) && tokens == 0 && timeNs == nowNs
      ensures forall k :: 0 <= k < MAX_QUEUES ==> queues[k].pkts == []
    {
      queues := seq(MAX_QUEUES, k => Class([], 0, 0, 0, 0, nowNs, nowNs));
      active := seq(MAX_PRIO, p => []);
      tokens := 0;
      timeNs := nowNs;
      sumLenBytes := 0;
      prioLenBytes := seq(MAX_PRIO, p => 0);
      roundTime := seq(MAX_PRIO, p => 0);
      lastIdleTime := seq(MAX_PRIO, p => nowNs);
      new;
      EmptyIsWf(Abs());
    }

    /** The scan over the priorities, highest first. */
    method PrioSchedule() returns (prio: int)
      requires Sized(Abs())
      ensures prio == PrioFrom(active, 0)
    {
      for i := 0 to MAX_PRIO
        invariant PrioFrom(active, i) == PrioFrom(active, 0)
      {
        if active[i] != [] {
          return i;
        }
      }
      return -1;
    }

    /** An arrival at an idle priority ages its round time by the idle slots since. */
    method ResetRoundTime(c: Config, prio: nat, now: int)
      requires Sized(Abs()) && prio < MAX_PRIO
      modifies this`roundTime
      ensures Abs() == ResetRound(old(Abs()), c, prio, now)
    {
      var iter := 0;
      if prioLenBytes[prio] == 0 && c.idleIntervalNs > 0 {
        iter := DivTrunc(now - lastIdleTime[prio], c.idleIntervalNs);
      }
      if iter > MAX_ITERATION || iter < 0 {
        roundTime := roundTime[prio := 0];
        return;
      }
      ghost var start := roundTime;
      for i := 0 to iter
        invariant |roundTime| == MAX_PRIO && roundTime == start[prio := roundTime[prio]]
        invariant DecayRound(roundTime[prio], c.roundAlpha, iter - i) == DecayRound(start[prio], c.roundAlpha, iter)
      {
        roundTime := roundTime[prio := S64Ewma(roundTime[prio], 0, c.roundAlpha)];
      }
    }

    /** One packet arrives for class k; childAccepts is the verdict of the class's inner FIFO. */
    method EnqueuePacket(c: Config, k: nat, p: Packet, now: int, childAccepts: bool) returns (verdict: Verdict)
      requires Sized(Abs()) && ConfigOk(c) && k < MAX_QUEUES && queues[k].prio < MAX_PRIO
      modifies this
      ensures (Abs(), verdict) == Enqueue(old(Abs()), c, k, p, now, childAccepts)
    {
      var len := SkbSize(p);
      var prio := c.prio[k];
      if prioLenBytes[prio] == 0 {
        ResetRoundTime(c, prio, now);
      }
      hide DecayRound, IdleRounds, SkbSize;
      if Overfill(Abs(), c, k, len) {
        return Dropped;
      }
      if !childAccepts {
        return Refused;
      }
      verdict := Queued;
      var cl := queues[k];
      cl := cl.(pkts := cl.pkts + [p]);
      if |cl.pkts| == 1 {
        cl := cl.(startTime := now, quantum := c.quantum[k], prio := prio, deficit := c.quantum[k]);
        active := active[prio := active[prio] + [k]];
      }
      sumLenBytes := sumLenBytes + len;
      prioLenBytes := prioLenBytes[cl.prio := prioLenBytes[cl.prio] + len];
      queues := queues[k := cl.(lenBytes := cl.lenBytes + len)];
    }

    /** Take the head packet off class k and charge for it. */
    method SendPacket(c: Config, prio: nat, now: int, result: int) returns (pkt: Packet)
      requires HasHead(Abs(), prio)
      requires result == TbfSchedule(SkbSize(queues[active[prio][0]].pkts[0]), c.rate, c.bucketBytes, Abs().bucket, now)
      modifies this
      ensures Abs() == SendHead(old(Abs()), c, prio, now)
      ensures pkt == old(queues)[old(active)[prio][0]].pkts[0]
    {
      var k := active[prio][0];
      var cl := queues[k];
      pkt := cl.pkts[0];
      var len := SkbSize(pkt);
      hide L2tNs, SkbSize, TbfSchedule, S64Ewma;
      cl := cl.(pkts := cl.pkts[1..]);
      prioLenBytes := prioLenBytes[prio := prioLenBytes[prio] - len];
      if prioLenBytes[prio] == 0 {
        lastIdleTime := lastIdleTime[prio := now];
      }
      sumLenBytes := sumLenBytes - len;
      cl := cl.(lenBytes := cl.lenBytes - len, deficit := cl.deficit - len, lastPktTime := now + L2tNs(c.rate, len));
      if |cl.pkts| == 0 {
        active := active[prio := active[prio][1..]];
        roundTime := roundTime[prio := S64Ewma(roundTime[prio], cl.lastPktTime - cl.startTime, c.roundAlpha)];
      }
      queues := queues[k := cl];
      timeNs := now;
      tokens := Min(result, L2tNs(c.rate, c.bucketBytes));
      ghost var s' := SendHead(old(Abs()), c, prio, now);
      assert queues == s'.cls;
      assert active == s'.active && roundTime == s'.roundTime;
      assert prioLenBytes == s'.prioLen && lastIdleTime == s'.lastIdle && sumLenBytes == s'.sumLen;
      assert Bucket(tokens, timeNs) == s'.bucket;
    }

    /** The head's turn ends for want of deficit. */
    method RotateClass(c: Config, prio: nat)
      requires HasHead(Abs(), prio) && ConfigOk(c)
      modifies this`queues, this`active, this`roundTime
      ensures Abs() == RotateHead(old(Abs()), c, prio)
    {
      var k := active[prio][0];
      var cl := queues[k];
      var sample := cl.lastPktTime - cl.startTime;
      roundTime := roundTime[prio := S64Ewma(roundTime[prio], sample, c.roundAlpha)];
      cl := cl.(startTime := cl.lastPktTime, quantum := c.quantum[k]);
      active := active[prio := active[prio][1..] + [k]];
      if c.wrr {
        cl := cl.(deficit := cl.quantum);
      } else {
        cl := cl.(deficit := cl.deficit + cl.quantum);
      }
      queues := queues[k := cl];
    }

    /** The while(1) loop never goes round more than twice. */
    method DequeuePacket(c: Config, now: int) returns (o: Outcome)
      requires Wf(Abs()) && ConfigOk(c)
      modifies this
      ensures (Abs(), o) == Dequeue(old(Abs()), c, now)
    {
      ghost var s0 := Abs();
      var prio := PrioSchedule();
      if prio < 0 {
        return Nothing;
      }
      ListHasHead(s0, prio);
      RotationSuffices(s0, c, prio);
      hide Wf, Lists, RotateHead, SendHead;
      while true
        invariant HasHead(s0, prio) && HasHead(Abs(), prio)
        invariant Abs() == s0 || (!HeadFits(s0, prio) && Abs() == RotateHead(s0, c, prio) && HeadFits(Abs(), prio))
        decreases if HeadFits(Abs(), prio) then 0 else 1
      {
        var k := active[prio][0];
        var len := SkbSize(queues[k].pkts[0]);
        if len <= queues[k].deficit {
          var result := TbfSchedule(len, c.rate, c.bucketBytes, Bucket(tokens, timeNs), now);
          if result < 0 {
            return Throttled(now - result);
          }
          var pkt := SendPacket(c, prio, now, result);
          return Sent(k, pkt, prio);
        }
        RotateClass(c, prio);
      }
    }
  }
}
