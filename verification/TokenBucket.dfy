/** The fixed-point rate table and the token bucket that every kernel scheduler of the
    repository shares (sch_dwrr, sch_wfq, sch_prio_dwrr carry the same text). */
module TokenBucket {
  import opened Arithmetic

  const U32: nat := 0x1_0000_0000
  const NSEC_PER_SEC: nat := 1_000_000_000
  const FIXED_SHIFT: nat := 15
  const FIXED_ONE: nat := 32768  // 1 << FIXED_SHIFT
  // nanoseconds per byte at one bit per second, in fixed point
  const RATE_UNIT: nat := 8 * NSEC_PER_SEC * FIXED_ONE
  // the slowest rate whose multiplier still fits the 32-bit field
  const MIN_RATE: nat := 61036

  datatype RateCfg = RateCfg(rateBps: nat, mult: nat, shift: nat)

  function Min(a: int, b: int): (m: int)
  {
    if a < b then a else b
  }

  /** The multiplier field is 32 bits wide, so the 64-bit quotient is truncated. */
  function PrecomputeRatedata(rateBps: nat): RateCfg
  {
    if rateBps > 0 then RateCfg(rateBps, (RATE_UNIT / rateBps) % U32, FIXED_SHIFT)
    else RateCfg(0, 1, 0)
  }

  function L2tNs(r: RateCfg, len: nat): (ns: nat)
  {
    (len * r.mult) / (if r.shift == FIXED_SHIFT then FIXED_ONE else 1)
  }

  // ---------------------------------------------------------------- rate arithmetic

  /** Length len at rate really takes len * 8e9 / rate ns.  L2tNs never overestimates it, and
      underestimates by less than 1 + len / 2^15.  Both sides are multiplied out here. */
  ghost predicate WithinRateError(rate: nat, len: nat)
    requires rate > 0
  {
    var short := len * RATE_UNIT - rate * FIXED_ONE * L2tNs(PrecomputeRatedata(rate), len);
    0 <= short < rate * (FIXED_ONE + len)
  }

  /** The multiplier survives the truncation to 32 bits exactly from 61036 bit/s upwards. */
  lemma MultiplierFits(rate: nat)
    requires rate > 0
    ensures PrecomputeRatedata(rate).mult == RATE_UNIT / rate <==> rate >= MIN_RATE
  {
    QuotientBelow(RATE_UNIT, rate, U32);
  }

  /** Splits the rounding error into the part lost by the division, by the shift and by the
      truncation of the multiplier. */
  lemma ShortfallParts(rate: nat, len: nat, q: nat, frac: nat, m: nat, t: nat, rest: nat)
    requires RATE_UNIT == rate * q + frac
    requires len * m == FIXED_ONE * t + rest
    ensures len * RATE_UNIT - rate * FIXED_ONE * t == len * frac + rate * rest + rate * len * (q - m)
  {
    assert rate * FIXED_ONE * t == rate * (FIXED_ONE * t);
    assert rate * (len * m - rest) == rate * len * m - rate * rest;
    assert len * (rate * q + frac) == rate * len * q + len * frac;
    assert rate * len * (q - m) == rate * len * q - rate * len * m;
  }

  /** The error bound holds for a rate exactly when the rate is at least 61036 bit/s: below
      that the truncated multiplier loses at least 2^17 ns per byte. */
  lemma RateErrorExact(rate: nat, len: nat)
    requires rate > 0 && len > 0
    ensures WithinRateError(rate, len) <==> rate >= MIN_RATE
  {
    MultiplierFits(rate);
    var q, frac := RATE_UNIT / rate, RATE_UNIT % rate;
    var m := q % U32;
    var t, rest := len * m / FIXED_ONE, len * m % FIXED_ONE;
    ShortfallParts(rate, len, q, frac, m, t, rest);
    if rate >= MIN_RATE {
      PartsSmall(FIXED_ONE, rate, len, frac, rest);
    } else {
      PartsLarge(rate, len, q - m);
      MulMono(0, len, 0, frac);
      MulMono(0, rate, 0, rest);
    }
  }

  lemma PartsSmall(one: nat, rate: nat, len: nat, frac: nat, rest: nat)
    requires frac < rate && rest < one && len > 0
    ensures 0 <= len * frac + rate * rest < rate * (one + len)
  {
    MulMono(len, len, frac + 1, rate);
    MulMono(rate, rate, rest, one);
    assert len * (frac + 1) == len * frac + len;
    assert rate * (one + len) == rate * one + len * rate;
  }

  lemma PartsLarge(rate: nat, len: nat, lost: nat)
    requires len > 0 && lost >= U32
    ensures rate * len * lost >= rate * (FIXED_ONE + len)
  {
    MulMono(rate, rate, 1, len);
    MulMono(rate * len, rate * len, U32, lost);
    assert rate * (FIXED_ONE + len) == rate * FIXED_ONE + rate * len;
  }

  // ---------------------------------------------------------------- the bucket

  datatype Bucket = Bucket(tokens: int, timeNs: int)

  /** What tbf_schedule returns for a packet costing pktNs: negative means refused. */
  function Result(b: Bucket, bucketNs: nat, pktNs: nat, now: int): int
  {
    Min(now - b.timeNs, bucketNs) + b.tokens - pktNs
  }

  function TbfSchedule(len: nat, r: RateCfg, bucketBytes: nat, b: Bucket, now: int): int
  {
    Result(b, L2tNs(r, bucketBytes), L2tNs(r, len), now)
  }

  /** The bucket after an accepted packet; a refused packet leaves it alone. */
  function Depart(b: Bucket, bucketNs: nat, pktNs: nat, now: int): Bucket
  {
    Bucket(Min(Result(b, bucketNs, pktNs, now), bucketNs), now)
  }

  datatype Departure = Departure(now: int, pktNs: nat)

  ghost predicate BucketValid(b: Bucket, bucketNs: nat)
  {
    0 <= b.tokens <= bucketNs
  }

  /** The bucket accepts each of these departures, one after the other. */
  ghost predicate Accepts(b: Bucket, bucketNs: nat, ds: seq<Departure>)
    decreases |ds|
  {
    ds == [] ||
    (b.timeNs <= ds[0].now && Result(b, bucketNs, ds[0].pktNs, ds[0].now) >= 0 &&
     Accepts(Depart(b, bucketNs, ds[0].pktNs, ds[0].now), bucketNs, ds[1..]))
  }

  ghost function After(b: Bucket, bucketNs: nat, ds: seq<Departure>): Bucket
    decreases |ds|
  {
    if ds == [] then b
    else After(Depart(b, bucketNs, ds[0].pktNs, ds[0].now), bucketNs, ds[1..])
  }

  ghost function Cost(ds: seq<Departure>): nat
  {
    if ds == [] then 0 else ds[0].pktNs + Cost(ds[1..])
  }

  /** Tokens are conserved up to what the cap throws away. */
  lemma {:induction false} TokensAccount(b: Bucket, bucketNs: nat, ds: seq<Departure>)
    requires BucketValid(b, bucketNs) && Accepts(b, bucketNs, ds)
    ensures BucketValid(After(b, bucketNs, ds), bucketNs)
    ensures After(b, bucketNs, ds).timeNs == if ds == [] then b.timeNs else ds[|ds| - 1].now
    ensures b.timeNs <= After(b, bucketNs, ds).timeNs
    ensures After(b, bucketNs, ds).tokens + Cost(ds) <= b.tokens + After(b, bucketNs, ds).timeNs - b.timeNs
    decreases |ds|
  {
    if ds != [] {
      TokensAccount(Depart(b, bucketNs, ds[0].pktNs, ds[0].now), bucketNs, ds[1..]);
    }
  }

  /** Conformance: consecutive departures between instants s and t cost at most
      2 * bucket + (t - s), and everything since the bucket was created at most the elapsed time. */
  lemma BurstBound(b: Bucket, bucketNs: nat, ds: seq<Departure>)
    requires BucketValid(b, bucketNs) && Accepts(b, bucketNs, ds) && ds != []
    ensures Cost(ds) <= 2 * bucketNs + (ds[|ds| - 1].now - ds[0].now)
    ensures b.tokens == 0 ==> Cost(ds) <= ds[|ds| - 1].now - b.timeNs
  {
    var b' := Depart(b, bucketNs, ds[0].pktNs, ds[0].now);
    TokensAccount(b, bucketNs, ds);
    TokensAccount(b', bucketNs, ds[1..]);
  }

  /** The factor two is real: every bucket, started empty, admits a burst of 2 * bucket at a
      single instant, because elapsed time is capped before the saved tokens are added.
      (small is the cost of any packet of at most half the bucket.) */
  lemma BurstIsTight(start: int, bucketNs: nat, small: nat)
    requires 2 * small <= bucketNs
    ensures var warmUp := [Departure(start + bucketNs, small), Departure(start + 2 * bucketNs, small)];
            var burst := [Departure(start + 3 * bucketNs, bucketNs), Departure(start + 3 * bucketNs, bucketNs)];
            Accepts(Bucket(0, start), bucketNs, warmUp + burst) && Cost(burst) == 2 * bucketNs
  {
    var b0 := Bucket(0, start);
    var w := [Departure(start + bucketNs, small), Departure(start + 2 * bucketNs, small)];
    var burst := [Departure(start + 3 * bucketNs, bucketNs), Departure(start + 3 * bucketNs, bucketNs)];
    var ds := w + burst;
    var b1 := Depart(b0, bucketNs, small, start + bucketNs);
    var b2 := Depart(b1, bucketNs, small, start + 2 * bucketNs);
    assert b2 == Bucket(bucketNs, start + 2 * bucketNs);
    var b3 := Depart(b2, bucketNs, bucketNs, start + 3 * bucketNs);
    assert b3 == Bucket(bucketNs, start + 3 * bucketNs);
    assert ds[1..] == [w[1]] + burst && ds[1..][1..] == burst;
    assert Accepts(b3, bucketNs, burst[1..]) by { assert burst[1..][1..] == []; }
    assert Accepts(b2, bucketNs, burst);
    assert Accepts(b1, bucketNs, ds[1..]);
    assert Cost(burst[1..]) == bucketNs by { assert burst[1..][1..] == []; }
  }

  /** The ordinary bound of one bucket plus the elapsed time holds of all runs that start at an instant
      exactly when what the bucket holds by then, its saved tokens and the capped elapsed time, is at
      most one bucket. */
  lemma OrdinaryBoundExact(b: Bucket, bucketNs: nat, start: int)
    requires BucketValid(b, bucketNs) && b.timeNs <= start
    ensures (forall ds: seq<Departure> :: ds != [] && ds[0].now == start && Accepts(b, bucketNs, ds) ==> WithinOrdinaryBound(ds, bucketNs))
            <==> Min(start - b.timeNs, bucketNs) + b.tokens <= bucketNs
  {
    var held := Min(start - b.timeNs, bucketNs) + b.tokens;
    if held <= bucketNs {
      forall ds: seq<Departure> | ds != [] && ds[0].now == start && Accepts(b, bucketNs, ds) ensures WithinOrdinaryBound(ds, bucketNs) {
        TokensAccount(Depart(b, bucketNs, ds[0].pktNs, start), bucketNs, ds[1..]);
      }
    } else {
      var all := [Departure(start, held)];
      assert all[1..] == [] && Accepts(b, bucketNs, all);
      assert Cost(all) == all[0].pktNs + Cost(all[1..]);
      assert !WithinOrdinaryBound(all, bucketNs);
    }
  }

  ghost predicate WithinOrdinaryBound(ds: seq<Departure>, bucketNs: nat)
    requires ds != []
  {
    Cost(ds) <= bucketNs + (ds[|ds| - 1].now - ds[0].now)
  }

  // ---------------------------------------------------------------- the watchdog

  /** A refused packet is retried at now - result.  That retry succeeds, with result exactly 0,
      precisely when the packet costs at most the bucket plus the saved tokens; any earlier retry
      is refused.  Otherwise every retry, however late, is refused. */
  lemma WatchdogExact(b: Bucket, bucketNs: nat, pktNs: nat, now: int)
    requires BucketValid(b, bucketNs) && b.timeNs <= now
    requires Result(b, bucketNs, pktNs, now) < 0
    ensures var retry := now - Result(b, bucketNs, pktNs, now);
            && (pktNs <= bucketNs + b.tokens <==> Result(b, bucketNs, pktNs, retry) == 0)
            && (pktNs <= bucketNs + b.tokens <==> exists t :: now <= t && Result(b, bucketNs, pktNs, t) >= 0)
            && (forall t :: t < retry ==> Result(b, bucketNs, pktNs, t) < 0)
  {
    var retry := now - Result(b, bucketNs, pktNs, now);
    if pktNs <= bucketNs + b.tokens {
      assert Result(b, bucketNs, pktNs, retry) == 0;
    }
  }

  /** A refused packet, retried at any instant t, is accepted exactly if t is not before the instant the
      watchdog is set for and the packet costs at most the bucket plus the saved tokens. */
  lemma RetryExact(b: Bucket, bucketNs: nat, pktNs: nat, now: int, t: int)
    requires b.timeNs <= now && Result(b, bucketNs, pktNs, now) < 0
    ensures Result(b, bucketNs, pktNs, t) >= 0
            <==> t >= now - Result(b, bucketNs, pktNs, now) && pktNs <= bucketNs + b.tokens
  {}
}
