/** When a CoDel class marks, over whole runs and in unwrapped time: not before its schedule point, and
    whenever a mark is due. */
module CoDelRuns {
  import opened CoDel

  // ---------------------------------------------------------------- the schedule

  ghost function Now(e: Event): int
  {
    Ticks(e.nowNs)
  }

  ghost function Last(points: seq<int>): int
  {
    if points == [] then 0 else points[|points| - 1]
  }

  /** The schedule points of the current or latest episode: each mark of it adds the point of the next. */
  ghost function Points(es: seq<Event>, p: Params, k: nat): seq<int>
    requires k <= |es|
  {
    if k == 0 then []
    else if !MarkedAt(es, p, k - 1) then Points(es, p, k - 1)
    else
      var step := Increment(p.interval, StateAt(es, p, k).recInvSqrt);
      if StateAt(es, p, k - 1).marking then Points(es, p, k - 1) + [Last(Points(es, p, k - 1)) + step]
      else [Now(es[k - 1]) + step]
  }

  /** The marks of the current or latest episode. */
  ghost function EpisodeMarks(es: seq<Event>, p: Params, k: nat): nat
    requires k <= |es|
  {
    if k == 0 then 0
    else if !MarkedAt(es, p, k - 1) then EpisodeMarks(es, p, k - 1)
    else if StateAt(es, p, k - 1).marking then EpisodeMarks(es, p, k - 1) + 1
    else 1
  }

  /** The points up to tick t. */
  ghost function Passed(points: seq<int>, t: int): nat
  {
    if points == [] then 0 else (if points[0] <= t then 1 else 0) + Passed(points[1..], t)
  }

  /** The stored schedule is the last point, wrapped; all others have passed at the latest dequeue, and it
      is at most an interval ahead. */
  ghost predicate OnSchedule(points: seq<int>, marks: nat, s: State, latest: int, interval: nat)
  {
    && |points| == marks
    && (points == [] ==> !s.marking)
    && (points != [] ==>
          && s.markNext == Wrap(Last(points)) && Last(points) <= latest + interval
          && forall m :: 0 <= m < |points| - 1 ==> points[m] <= latest)
  }

  ghost predicate Scheduled(es: seq<Event>, p: Params, k: nat)
    requires k <= |es|
  {
    if k == 0 then Points(es, p, k) == [] && EpisodeMarks(es, p, k) == 0 && !StateAt(es, p, k).marking
    else OnSchedule(Points(es, p, k), EpisodeMarks(es, p, k), StateAt(es, p, k), Now(es[k - 1]), p.interval)
  }

  lemma IncrementAtMost(interval: nat, rec: nat)
    ensures 0 <= Increment(interval, rec) <= interval
  {
    IncrementOf(interval, rec * U16 % U32);
  }

  lemma IncrementOf(interval: nat, scaled: nat)
    requires scaled < U32
    ensures interval * scaled / U32 <= interval
  {
    assert interval * scaled <= interval * U32;
  }

  lemma TicksMonotone(a: int, b: int)
    requires a <= b
    ensures Ticks(a) <= Ticks(b)
  {}

  /** Signed 32-bit comparison of wrapped ticks. */
  lemma WrappedDue(t: int, due: int)
    requires t - due > -(U31 as int)
    ensures TimeAfterEq(Wrap(t), Wrap(due)) ==> t >= due
    ensures t - due < U31 ==> (TimeAfterEq(Wrap(t), Wrap(due)) <==> t >= due)
  {
    WrapDifference(t, due);
    WrapNear(t - due);
    hide Wrap;
  }

  lemma WrappedAfter(t: int, due: int)
    requires -(U31 as int) < t - due < U31
    ensures TimeAfter(Wrap(t), Wrap(due)) <==> t > due
  {
    WrapDifference(t, due);
    WrapNear(t - due);
    hide Wrap;
  }

  /** What one dequeue does to the episode. */
  lemma MarkingEffect(s: State, e: Event, p: Params)
    ensures var (s', ce) := Marking(s, e, p);
            var ok := ShouldMark(s, e, p).1;
            && (ce <==> ok && (!s.marking || TimeAfterEq(Wrap(Now(e)), s.markNext)))
            && (s'.marking <==> ok)
            && (ce ==> s'.markNext == Wrap((if s.marking then s.markNext else Wrap(Now(e)))
                                           + Increment(p.interval, s'.recInvSqrt)))
            && (!ce ==> s'.markNext == s.markNext && s'.count == s.count && s'.lastcount == s.lastcount)
            && (ce && s.marking ==> s'.count == Wrap(s.count + 1) && s'.lastcount == s.lastcount)
            && (ce && !s.marking ==> s'.count == ResumeCount(s, Wrap(Now(e)), p) && s'.lastcount == s'.count)
  {
    ShouldMarkFrame(s, e, p);
    hide ShouldMark, NewtonStep, Increment, TimeAfter, TimeAfterEq, Wrap;
  }

  ghost function ResumeCount(s: State, now: nat, p: Params): nat
  {
    var delta := Wrap(s.count - s.lastcount);
    if delta > 1 && TimeAfter(Wrap(p.interval * 16), Wrap(now - s.markNext)) then delta else 1
  }

  lemma UnfoldState(es: seq<Event>, p: Params, k: nat)
    requires k < |es|
    ensures StateAt(es, p, k + 1) == Marking(StateAt(es, p, k), es[k], p).0
    ensures MarkedAt(es, p, k) == Marking(StateAt(es, p, k), es[k], p).1
  {
    hide Marking;
  }

  // ---------------------------------------------------------------- not before the schedule point

  lemma NowMonotone(es: seq<Event>, k: nat)
    requires Clocked(es) && 0 < k < |es|
    ensures Now(es[k - 1]) <= Now(es[k])
  {
    TicksMonotone(es[k - 1].nowNs, es[k].nowNs);
  }

  lemma NotEarly(es: seq<Event>, p: Params, k: nat)
    requires ParamsValid(p) && Clocked(es) && k < |es| && Scheduled(es, p, k)
    ensures Points(es, p, k) != [] ==> Now(es[k]) - Last(Points(es, p, k)) + p.interval >= 0
    ensures MarkedAt(es, p, k) && StateAt(es, p, k).marking ==> Last(Points(es, p, k)) <= Now(es[k])
  {
    UnfoldState(es, p, k);
    MarkingEffect(StateAt(es, p, k), es[k], p);
    hide Marking, ShouldMark, StateAt, Points, TimeAfterEq, Wrap;
    var points := Points(es, p, k);
    if points != [] {
      NowMonotone(es, k);
      WrappedDue(Now(es[k]), Last(points));
    }
  }

  lemma {:induction false} RunIsScheduled(es: seq<Event>, p: Params, k: nat)
    requires ParamsValid(p) && Clocked(es) && k <= |es|
    ensures Scheduled(es, p, k)
  {
    if k > 0 {
      hide Scheduled, StateAt, MarkedAt, Points, Clocked, Ticks;
      RunIsScheduled(es, p, k - 1);
      NotEarly(es, p, k - 1);
      ScheduleStep(es, p, k - 1);
    }
  }

  lemma UnfoldPoints(es: seq<Event>, p: Params, k: nat)
    requires k < |es|
    ensures var before, step := Points(es, p, k), Increment(p.interval, StateAt(es, p, k + 1).recInvSqrt);
            Points(es, p, k + 1) == if !MarkedAt(es, p, k) then before
                                    else if StateAt(es, p, k).marking then before + [Last(before) + step]
                                    else [Now(es[k]) + step]
  {
    hide MarkedAt, StateAt, Increment;
  }

  lemma EventKeepsSchedule(points: seq<int>, marks: nat, s: State, latest: int, e: Event, p: Params)
    requires OnSchedule(points, marks, s, latest, p.interval) && (points != [] ==> latest <= Now(e))
    requires Marking(s, e, p).1 && s.marking ==> Last(points) <= Now(e)
    ensures var (s', ce) := Marking(s, e, p);
            var step := Increment(p.interval, s'.recInvSqrt);
            OnSchedule(if !ce then points else if s.marking then points + [Last(points) + step] else [Now(e) + step],
                       if !ce then marks else if s.marking then marks + 1 else 1, s', Now(e), p.interval)
  {
    MarkingEffect(s, e, p);
    var s' := Marking(s, e, p).0;
    IncrementAtMost(p.interval, s'.recInvSqrt);
    WrapAdds(Last(points), Increment(p.interval, s'.recInvSqrt));
    WrapAdds(Now(e), Increment(p.interval, s'.recInvSqrt));
    hide Marking, ShouldMark, Increment, TimeAfterEq, Wrap, Ticks;
  }

  lemma ScheduleStep(es: seq<Event>, p: Params, k: nat)
    requires ParamsValid(p) && Clocked(es) && k < |es| && Scheduled(es, p, k)
    requires MarkedAt(es, p, k) && StateAt(es, p, k).marking ==> Last(Points(es, p, k)) <= Now(es[k])
    ensures Scheduled(es, p, k + 1)
  {
    UnfoldState(es, p, k);
    UnfoldPoints(es, p, k);
    UnfoldMarks(es, p, k);
    if k > 0 {
      NowMonotone(es, k);
    }
    var latest := if k == 0 then Now(es[k]) else Now(es[k - 1]);
    assert OnSchedule(Points(es, p, k), EpisodeMarks(es, p, k), StateAt(es, p, k), latest, p.interval);
    hide Marking, MarkedAt, StateAt, Points, EpisodeMarks, OnSchedule, Increment, Clocked, Ticks;
    EventKeepsSchedule(Points(es, p, k), EpisodeMarks(es, p, k), StateAt(es, p, k), latest, es[k], p);
  }

  lemma {:induction false} PassedAllBut(points: seq<int>, t: int)
    requires forall m :: 0 <= m < |points| - 1 ==> points[m] <= t
    ensures |points| <= 1 + Passed(points, t)
  {
    if points != [] {
      PassedAllBut(points[1..], t);
    }
  }

  /** A class that is already marking marks no packet before its schedule point, however often the 32-bit
      clock wrapped.  So an episode has at most one mark more than schedule points passed. */
  lemma MarksKeepSchedule(es: seq<Event>, p: Params, k: nat)
    requires ParamsValid(p) && Clocked(es) && k < |es|
    ensures MarkedAt(es, p, k) && StateAt(es, p, k).marking ==> Last(Points(es, p, k)) <= Now(es[k])
    ensures EpisodeMarks(es, p, k + 1) <= 1 + Passed(Points(es, p, k + 1), Now(es[k]))
  {
    RunIsScheduled(es, p, k);
    NotEarly(es, p, k);
    RunIsScheduled(es, p, k + 1);
    hide Points, EpisodeMarks, StateAt, MarkedAt;
    PassedAllBut(Points(es, p, k + 1), Now(es[k]));
  }

  // ---------------------------------------------------------------- whenever a mark is due

  /** Above, and by less than half the 32-bit circle. */
  ghost predicate PlainlyAbove(e: Event, p: Params)
  {
    Above(e, p) && Ticks(e.nowNs - e.stampNs) - p.target < U31
  }

  lemma AboveKeepsFirst(s: State, e: Event, p: Params)
    requires ParamsValid(p) && PlainlyAbove(e, p)
    ensures var (s', ok) := ShouldMark(s, e, p);
            && s'.firstAbove == (if s.firstAbove == 0 then Wrap(Now(e) + p.interval) else s.firstAbove)
            && (ok <==> s.firstAbove != 0 && TimeAfter(Wrap(Now(e)), s.firstAbove))
  {
    WrapAdds(Now(e), p.interval);
    var soj := Ticks(e.nowNs - e.stampNs);
    WrappedBefore(p.target, soj);
    hide TimeAfter, Wrap;
  }

  lemma WrappedBefore(target: nat, soj: int)
    requires 0 <= soj - target < U31 && target < U31
    ensures !TimeAfter(target, Wrap(soj))
  {
    WrapSubtracts(target, soj);
    WrapNear(target - soj);
    hide Wrap;
  }

  /** From dequeue j, the first above target, on: first_above_time stays what j set it to. */
  lemma {:induction false} FirstAboveStays(es: seq<Event>, p: Params, j: nat, k: nat)
    requires ParamsValid(p) && j < k <= |es| && StateAt(es, p, j).firstAbove == 0
    requires forall m :: j <= m < k ==> PlainlyAbove(es[m], p)
    requires Wrap(Now(es[j]) + p.interval) != 0
    ensures StateAt(es, p, k).firstAbove == Wrap(Now(es[j]) + p.interval)
  {
    UnfoldState(es, p, k - 1);
    MarkingFrame(StateAt(es, p, k - 1), es[k - 1], p);
    AboveKeepsFirst(StateAt(es, p, k - 1), es[k - 1], p);
    hide Marking, ShouldMark, StateAt, PlainlyAbove, Wrap, TimeAfter;
    if j + 1 < k {
      FirstAboveStays(es, p, j, k - 1);
    }
  }

  /** Marks are due, the converse of justification: from dequeue j on every dequeue is above target, by
      less than 2^31 ticks; k lies more than an interval and less than 2^31 ticks beyond it after j; and the
      sum of j's tick and the interval does not wrap to the value that stands for "unset".  Then the class
      is marking after k, and k is marked if and only if the class was not marking or its schedule point,
      less than 2^31 ticks back, has passed. */
  lemma MarkedWhenDue(es: seq<Event>, p: Params, j: nat, k: nat)
    requires ParamsValid(p) && Clocked(es) && j < k < |es| && StateAt(es, p, j).firstAbove == 0
    requires forall m :: j <= m <= k ==> PlainlyAbove(es[m], p)
    requires Wrap(Now(es[j]) + p.interval) != 0
    requires p.interval < Now(es[k]) - Now(es[j]) < p.interval + U31
    requires StateAt(es, p, k).marking ==> Now(es[k]) - Last(Points(es, p, k)) < U31
    ensures StateAt(es, p, k + 1).marking
    ensures MarkedAt(es, p, k) <==> !StateAt(es, p, k).marking || Last(Points(es, p, k)) <= Now(es[k])
  {
    RunIsScheduled(es, p, k);
    NotEarly(es, p, k);
    FirstAboveStays(es, p, j, k);
    UnfoldState(es, p, k);
    var s := StateAt(es, p, k);
    AboveKeepsFirst(s, es[k], p);
    MarkingEffect(s, es[k], p);
    WrappedAfter(Now(es[k]), Now(es[j]) + p.interval);
    hide Marking, ShouldMark, MarkedAt, PlainlyAbove, StateAt, Points, EpisodeMarks, TimeAfter, TimeAfterEq, Wrap;
    if s.marking {
      WrappedDue(Now(es[k]), Last(Points(es, p, k)));
    }
  }

  /** A dequeue below target, or with no more than one packet left, is not marked and ends the episode. */
  lemma UnmarkedBelow(es: seq<Event>, p: Params, k: nat)
    requires ParamsValid(p) && Clocked(es) && k < |es| && !Above(es[k], p)
    ensures !MarkedAt(es, p, k) && !StateAt(es, p, k + 1).marking && StateAt(es, p, k + 1).firstAbove == 0
  {
    var s := StateAt(es, p, k);
    UnfoldState(es, p, k);
    MarkingEffect(s, es[k], p);
    MarkingFrame(s, es[k], p);
    WrappedSojourn(Ticks(es[k].nowNs - es[k].stampNs), p.target);
    hide Marking, MarkedAt, StateAt, TimeAfter, TimeAfterEq, Wrap;
  }

  // ---------------------------------------------------------------- how an episode starts

  lemma UnfoldMarks(es: seq<Event>, p: Params, k: nat)
    requires k < |es|
    ensures EpisodeMarks(es, p, k + 1) == if !MarkedAt(es, p, k) then EpisodeMarks(es, p, k)
                                          else if StateAt(es, p, k).marking then EpisodeMarks(es, p, k) + 1 else 1
  {
    hide MarkedAt, StateAt;
  }

  ghost predicate Counts(s: State, marks: nat)
  {
    && 0 <= s.lastcount <= s.count < U32 && (marks == 0 ==> s.count == 0 && !s.marking)
    && s.count - s.lastcount == (if marks == 0 then 0 else marks - 1)
  }

  lemma CountStep(s: State, e: Event, p: Params, marks: nat)
    requires Counts(s, marks) && !CountOverflows(s, e, p)
    ensures var (s', ce) := Marking(s, e, p);
            Counts(s', if !ce then marks else if s.marking then marks + 1 else 1)
  {
    if s.count + 1 < U32 {
      SmallWrap(s.count + 1);
    }
    hide Marking, ShouldMark, TimeAfter, TimeAfterEq, ResumeCount, Wrap;
    MarkingEffect(s, e, p);
    ResumesBelow(s, Wrap(Now(e)), p);
  }

  lemma ResumesBelow(s: State, now: nat, p: Params)
    ensures ResumeCount(s, now, p) < U32
  {}

  lemma NothingCounted(es: seq<Event>, p: Params)
    ensures Counts(StateAt(es, p, 0), EpisodeMarks(es, p, 0))
  {}

  /** count runs ahead of lastcount by the marks of the episode after its first. */
  lemma {:induction false} CountsEpisode(es: seq<Event>, p: Params, k: nat)
    requires k <= |es| && NoOverflow(es, p, k)
    ensures Counts(StateAt(es, p, k), EpisodeMarks(es, p, k))
  {
    hide Marking, StateAt, MarkedAt, EpisodeMarks, NoOverflow, CountOverflows, Counts;
    if k == 0 {
      NothingCounted(es, p);
    } else {
      NoOverflowStep(es, p, k);
      UnfoldMarks(es, p, k - 1);
      UnfoldState(es, p, k - 1);
      CountsEpisode(es, p, k - 1);
      CountStep(StateAt(es, p, k - 1), es[k - 1], p, EpisodeMarks(es, p, k - 1));
    }
  }

  lemma WrappedLimit(d: int, limit: nat)
    requires limit < U31 && limit - U31 < d < limit + U31
    ensures TimeAfter(Wrap(limit), Wrap(d)) <==> d < limit
  {
    WrapDifference(limit, d);
    WrapNear(limit - d);
    hide Wrap;
  }

  /** The first mark of an episode takes up the rate of the latest one, less its first mark, exactly when
      that had more than two marks and its last schedule point lies less than 16 intervals back; otherwise
      it starts from one. */
  lemma ResumeExact(es: seq<Event>, p: Params, k: nat)
    requires ParamsValid(p) && Clocked(es) && k < |es| && NoOverflow(es, p, k) && 17 * p.interval < U31
    requires MarkedAt(es, p, k) && !StateAt(es, p, k).marking
    requires Points(es, p, k) != [] ==> Now(es[k]) - Last(Points(es, p, k)) < 16 * p.interval + U31
    ensures var n := EpisodeMarks(es, p, k);
            StateAt(es, p, k + 1).count
            == if n > 2 && Now(es[k]) - Last(Points(es, p, k)) < 16 * p.interval then n - 1 else 1
  {
    RunIsScheduled(es, p, k);
    NotEarly(es, p, k);
    UnfoldState(es, p, k);
    hide Marking, MarkedAt, StateAt, Points, EpisodeMarks, NoOverflow, Clocked, Counts;
    CountsEpisode(es, p, k);
    FirstMarkCount(StateAt(es, p, k), es[k], p, EpisodeMarks(es, p, k), Last(Points(es, p, k)));
  }

  lemma FirstMarkCount(s: State, e: Event, p: Params, n: nat, last: int)
    requires Counts(s, n) && Marking(s, e, p).1 && !s.marking && 17 * p.interval < U31
    requires n > 0 ==> s.markNext == Wrap(last) && 0 <= Now(e) - last + p.interval < 17 * p.interval + U31
    ensures Marking(s, e, p).0.count == if n > 2 && Now(e) - last < 16 * p.interval then n - 1 else 1
  {
    hide Marking, ShouldMark, TimeAfter, TimeAfterEq, Wrap;
    MarkingEffect(s, e, p);
    SmallWrap(s.count - s.lastcount);
    if n > 0 {
      WrapDifference(Now(e), last);
      WrappedLimit(Now(e) - last, p.interval * 16);
    }
  }

  lemma SmallWrap(x: int)
    requires 0 <= x < U32
    ensures Wrap(x) == x
  {}
}
