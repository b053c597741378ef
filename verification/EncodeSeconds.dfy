/** Encode time from the event log: an interval algorithm, proved equal to counting ticks. */
module EncodeSeconds {

  import opened Wrappers
  import opened JobStates
  import Sorting

  // ---- the log in order ---------------------------------------------------------------------

  predicate Precedes(a: Event, b: Event) { a.at < b.at || (a.at == b.at && a.id <= b.id) }

  ghost predicate Ordered(log: seq<Event>) {
    forall i, j | 0 <= i < j < |log| :: Precedes(log[i], log[j])
  }

  /** Ordered by time, then by identifier; a stable sort. */
  function Sorted(events: seq<Event>): seq<Event> { Sorting.Sort(events, Precedes) }

  lemma SortedSorts(events: seq<Event>)
    ensures Ordered(Sorted(events)) && multiset(Sorted(events)) == multiset(events)
  {
    Sorting.SortSorts(events, Precedes);
    assert Sorting.InOrder(Sorted(events), Precedes);
  }

  lemma SortedKeepsOrdered(log: seq<Event>)
    requires Ordered(log)
    ensures Sorted(log) == log
  {
    Sorting.SortKeepsOrdered(log, Precedes);
  }

  // ---- what the log says about a tick -------------------------------------------------------

  /** The unit interval from `t` to `t + 1`, in the resolution of the clock. */
  type Tick = int

  datatype Interval = Interval(start: int, end: int)

  predicate Covers(span: Interval, t: Tick) { span.start <= t < span.end }

  function Ticks(span: Interval): set<Tick> { set t | span.start <= t < span.end && Covers(span, t) }

  /** Which events move a job: those the program looks at, or all that carry a new state. */
  datatype Reading = StateEventsOnly | EveryLink

  predicate Moves(e: Event, reading: Reading) {
    e.to.Some? && (reading.EveryLink? || e.kind == StateChange)
  }

  predicate Switches(e: Event) { e.kind == Paused || e.kind == Resumed }

  /** The last moving event before position `n`. */
  function LastMove(log: seq<Event>, n: nat, reading: Reading): (last: Option<nat>)
    requires n <= |log|
    ensures last.Some? ==> last.value < n && Moves(log[last.value], reading)
    ensures forall k | (if last.Some? then last.value else -1) < k < n :: !Moves(log[k], reading)
  {
    if n == 0 then None else if Moves(log[n - 1], reading) then Some(n - 1) else LastMove(log, n - 1, reading)
  }

  /** The last pause or resume before position `n`. */
  function LastSwitch(log: seq<Event>, n: nat): (last: Option<nat>)
    requires n <= |log|
    ensures last.Some? ==> last.value < n && Switches(log[last.value])
    ensures forall k | (if last.Some? then last.value else -1) < k < n :: !Switches(log[k])
  {
    if n == 0 then None else if Switches(log[n - 1]) then Some(n - 1) else LastSwitch(log, n - 1)
  }

  /** Position `n` ends an ENCODING segment: the previous move was into ENCODING. */
  predicate EndsSegment(log: seq<Event>, n: nat, reading: Reading)
    requires n < |log|
  {
    Moves(log[n], reading) && LastMove(log, n, reading).Some? && log[LastMove(log, n, reading).value].to == Some(ENCODING)
  }

  function SegmentAt(log: seq<Event>, n: nat, reading: Reading): Interval
    requires n < |log| && EndsSegment(log, n, reading)
  {
    Interval(log[LastMove(log, n, reading).value].at, log[n].at)
  }

  /** Position `n` completes a pause: it resumes, and the previous switch was a pause. */
  predicate EndsPause(log: seq<Event>, n: nat)
    requires n < |log|
  {
    log[n].kind == Resumed && LastSwitch(log, n).Some? && log[LastSwitch(log, n).value].kind == Paused
  }

  function PauseAt(log: seq<Event>, n: nat): Interval
    requires n < |log| && EndsPause(log, n)
  {
    Interval(log[LastSwitch(log, n).value].at, log[n].at)
  }

  predicate InSegment(log: seq<Event>, n: nat, reading: Reading, t: Tick)
    requires n < |log|
  {
    EndsSegment(log, n, reading) && Covers(SegmentAt(log, n, reading), t)
  }

  predicate InPause(log: seq<Event>, n: nat, t: Tick)
    requires n < |log|
  {
    EndsPause(log, n) && Covers(PauseAt(log, n), t)
  }

  predicate EncodingAt(log: seq<Event>, t: Tick, reading: Reading) {
    exists n | 0 <= n < |log| :: InSegment(log, n, reading, t)
  }

  predicate PausedAt(log: seq<Event>, t: Tick) {
    exists n | 0 <= n < |log| :: InPause(log, n, t)
  }

  /** The ticks of the whole log. */
  function Horizon(log: seq<Event>): set<Tick> {
    if log == [] then {} else Ticks(Interval(log[0].at, Last(log).at))
  }

  /** The reference: ticks in a closed ENCODING segment and in no completed pause. */
  function EncodedTicks(log: seq<Event>, reading: Reading): set<Tick> {
    set t | t in Horizon(log) && EncodingAt(log, t, reading) && !PausedAt(log, t)
  }

  // ---- interval arithmetic ------------------------------------------------------------------

  function Max(a: int, b: int): int { if a < b then b else a }

  function Min(a: int, b: int): int { if a < b then a else b }

  function AllTicks(spans: seq<Interval>): set<Tick> {
    if spans == [] then {} else AllTicks(spans[..|spans| - 1]) + Ticks(Last(spans))
  }

  /** Intervals in order, none before its start, none overlapping the next. */
  ghost predicate Disjoint(spans: seq<Interval>) {
    && (forall k | 0 <= k < |spans| :: spans[k].start <= spans[k].end)
    && (forall j, k | 0 <= j < k < |spans| :: spans[j].end <= spans[k].start)
  }

  lemma {:induction false} TickCount(span: Interval)
    ensures |Ticks(span)| == Max(span.end - span.start, 0)
    decreases span.end - span.start
  {
    if span.start < span.end {
      var shorter := Interval(span.start, span.end - 1);
      TickCount(shorter);
      forall t ensures t in Ticks(span) <==> t in Ticks(shorter) || t == span.end - 1 {
        assert Covers(span, t) <==> Covers(shorter, t) || t == span.end - 1;
      }
      assert Ticks(span) == Ticks(shorter) + {span.end - 1};
      assert span.end - 1 !in Ticks(shorter);
    } else {
      assert Ticks(span) == {};
    }
  }

  lemma {:induction false} InAllTicks(spans: seq<Interval>, t: Tick)
    ensures t in AllTicks(spans) <==> exists k | 0 <= k < |spans| :: Covers(spans[k], t)
  {
    if spans != [] {
      var init := spans[..|spans| - 1];
      InAllTicks(init, t);
      if k :| 0 <= k < |spans| && Covers(spans[k], t) {
        assert k < |init| ==> Covers(init[k], t);
      }
      if k :| 0 <= k < |init| && Covers(init[k], t) {
        assert Covers(spans[k], t);
      }
    }
  }

  function Overlap(a: Interval, b: Interval): int { Min(a.end, b.end) - Max(a.start, b.start) }

  /** What is left of a span after subtracting every positive overlap. */
  function Net(span: Interval, pauses: seq<Interval>): int {
    if pauses == [] then span.end - span.start
    else Net(span, pauses[..|pauses| - 1]) - Max(Overlap(span, Last(pauses)), 0)
  }

  /** Subtracting disjoint pauses from a span leaves exactly the uncovered ticks, so never less
      than nothing. */
  lemma {:induction false} NetIsUncovered(span: Interval, pauses: seq<Interval>)
    requires span.start <= span.end && Disjoint(pauses)
    ensures Net(span, pauses) == |Ticks(span) - AllTicks(pauses)| >= 0
  {
    if pauses == [] {
      TickCount(span);
      assert Ticks(span) - AllTicks(pauses) == Ticks(span);
    } else {
      NetIsUncovered(span, pauses[..|pauses| - 1]);
      OnePauseMore(span, pauses);
    }
  }

  /** The last pause takes away exactly its overlap. */
  lemma OnePauseMore(span: Interval, pauses: seq<Interval>)
    requires pauses != [] && Disjoint(pauses)
    ensures |Ticks(span) - AllTicks(pauses)| == |Ticks(span) - AllTicks(pauses[..|pauses| - 1])| - Max(Overlap(span, Last(pauses)), 0)
  {
    var init, last := pauses[..|pauses| - 1], Last(pauses);
    var common := Interval(Max(span.start, last.start), Min(span.end, last.end));
    TickCount(common);
    LastIsApart(pauses);
    CommonTicks(span, last);
    var a, b, before := Ticks(span), Ticks(last), AllTicks(init);
    assert AllTicks(pauses) == before + b;
    hide Ticks, AllTicks, Disjoint;
    assert a - (before + b) == (a - before) - a * b;
    assert a * b <= a - before;
  }

  lemma CommonTicks(a: Interval, b: Interval)
    ensures Ticks(Interval(Max(a.start, b.start), Min(a.end, b.end))) == Ticks(a) * Ticks(b)
  {
    var common := Interval(Max(a.start, b.start), Min(a.end, b.end));
    forall t ensures t in Ticks(common) <==> t in Ticks(a) * Ticks(b) {
      assert Covers(common, t) <==> Covers(a, t) && Covers(b, t);
    }
  }

  lemma LastIsApart(spans: seq<Interval>)
    requires spans != [] && Disjoint(spans)
    ensures Ticks(Last(spans)) !! AllTicks(spans[..|spans| - 1])
  {
    forall t | t in AllTicks(spans[..|spans| - 1]) ensures t !in Ticks(Last(spans)) {
      InAllTicks(spans[..|spans| - 1], t);
    }
  }

  function Total(spans: seq<Interval>, pauses: seq<Interval>): int {
    if spans == [] then 0 else Total(spans[..|spans| - 1], pauses) + Net(Last(spans), pauses)
  }

  lemma {:induction false} TotalIsUncovered(spans: seq<Interval>, pauses: seq<Interval>)
    requires Disjoint(spans) && Disjoint(pauses)
    ensures Total(spans, pauses) == |AllTicks(spans) - AllTicks(pauses)|
  {
    if spans != [] {
      var init, last := spans[..|spans| - 1], Last(spans);
      TotalIsUncovered(init, pauses);
      NetIsUncovered(last, pauses);
      LastIsApart(spans);
      CountApart(AllTicks(init), Ticks(last), AllTicks(pauses));
    }
  }

  lemma CountApart(a: set<Tick>, b: set<Tick>, removed: set<Tick>)
    requires a !! b
    ensures |(a + b) - removed| == |a - removed| + |b - removed|
  {
    assert (a + b) - removed == (a - removed) + (b - removed);
  }

  lemma AllTicksGrow(spans: seq<Interval>, last: Interval)
    ensures AllTicks(spans + [last]) == AllTicks(spans) + Ticks(last)
  {
    assert (spans + [last])[..|spans|] == spans;
  }

  // ---- the two interval lists of a log ------------------------------------------------------

  function Segments(log: seq<Event>, n: nat, reading: Reading): seq<Interval>
    requires n <= |log|
  {
    if n == 0 then []
    else Segments(log, n - 1, reading) + (if EndsSegment(log, n - 1, reading) then [SegmentAt(log, n - 1, reading)] else [])
  }

  function Pauses(log: seq<Event>, n: nat): seq<Interval>
    requires n <= |log|
  {
    if n == 0 then [] else Pauses(log, n - 1) + (if EndsPause(log, n - 1) then [PauseAt(log, n - 1)] else [])
  }

  lemma {:induction false} SegmentsCover(log: seq<Event>, n: nat, reading: Reading, t: Tick)
    requires n <= |log|
    ensures t in AllTicks(Segments(log, n, reading)) <==> exists k | 0 <= k < n :: InSegment(log, k, reading, t)
  {
    if n > 0 {
      hide EndsSegment, LastMove;
      SegmentsCover(log, n - 1, reading, t);
      var before, now := Segments(log, n - 1, reading), Segments(log, n, reading);
      if EndsSegment(log, n - 1, reading) {
        AllTicksGrow(before, SegmentAt(log, n - 1, reading));
      } else {
        assert now == before;
      }
      assert t in AllTicks(now) <==> t in AllTicks(before) || InSegment(log, n - 1, reading, t);
    }
  }

  lemma {:induction false} PausesCover(log: seq<Event>, n: nat, t: Tick)
    requires n <= |log|
    ensures t in AllTicks(Pauses(log, n)) <==> exists k | 0 <= k < n :: InPause(log, k, t)
  {
    if n > 0 {
      hide EndsPause, LastSwitch;
      PausesCover(log, n - 1, t);
      var before, now := Pauses(log, n - 1), Pauses(log, n);
      if EndsPause(log, n - 1) {
        AllTicksGrow(before, PauseAt(log, n - 1));
      } else {
        assert now == before;
      }
      assert t in AllTicks(now) <==> t in AllTicks(before) || InPause(log, n - 1, t);
    }
  }

  ghost predicate EndedBy(spans: seq<Interval>, limit: int) { forall k | 0 <= k < |spans| :: spans[k].end <= limit }

  lemma EndedLater(spans: seq<Interval>, a: int, b: int)
    requires EndedBy(spans, a) && a <= b
    ensures EndedBy(spans, b)
  {
  }

  lemma NothingYet(log: seq<Event>, reading: Reading)
    ensures Segments(log, 0, reading) == [] && LastMove(log, 0, reading) == None
    ensures Pauses(log, 0) == [] && LastSwitch(log, 0) == None
    ensures Disjoint([])
  {
  }

  lemma NextSegments(log: seq<Event>, n: nat, reading: Reading)
    requires 0 < n <= |log|
    ensures var before := Segments(log, n - 1, reading);
            Segments(log, n, reading) == if EndsSegment(log, n - 1, reading) then before + [SegmentAt(log, n - 1, reading)] else before
    ensures LastMove(log, n, reading) == if Moves(log[n - 1], reading) then Some(n - 1) else LastMove(log, n - 1, reading)
  {
    assert Segments(log, n - 1, reading) + [] == Segments(log, n - 1, reading);
  }

  lemma NextPauses(log: seq<Event>, n: nat)
    requires 0 < n <= |log|
    ensures Pauses(log, n) == if EndsPause(log, n - 1) then Pauses(log, n - 1) + [PauseAt(log, n - 1)] else Pauses(log, n - 1)
    ensures LastSwitch(log, n) == if Switches(log[n - 1]) then Some(n - 1) else LastSwitch(log, n - 1)
  {
    assert Pauses(log, n - 1) + [] == Pauses(log, n - 1);
  }

  lemma InTime(log: seq<Event>, i: nat, j: nat)
    requires Ordered(log) && i < j < |log|
    ensures log[i].at <= log[j].at
  {
    assert Precedes(log[i], log[j]);
  }

  /** Segments never overlap, whatever the log holds. */
  lemma {:induction false} SegmentsAreDisjoint(log: seq<Event>, n: nat, reading: Reading)
    requires Ordered(log) && n <= |log|
    ensures Disjoint(Segments(log, n, reading))
    ensures LastMove(log, n, reading).Some? ==> EndedBy(Segments(log, n, reading), log[LastMove(log, n, reading).value].at)
    ensures LastMove(log, n, reading).None? ==> Segments(log, n, reading) == []
  {
    hide Disjoint, EndedBy, Ordered, Segments, LastMove, Precedes, Moves;
    if n == 0 {
      NothingYet(log, reading);
    } else {
      SegmentsAreDisjoint(log, n - 1, reading);
      NextSegments(log, n, reading);
      var before, last := Segments(log, n - 1, reading), LastMove(log, n - 1, reading);
      if Moves(log[n - 1], reading) && last.Some? {
        InTime(log, last.value, n - 1);
        EndedLater(before, log[last.value].at, log[n - 1].at);
        if EndsSegment(log, n - 1, reading) {
          DisjointGrows(before, SegmentAt(log, n - 1, reading));
        }
      } else {
        NoneEnded(log[n - 1].at);
      }
    }
  }

  lemma NoneEnded(limit: int)
    ensures EndedBy([], limit)
  {
  }

  lemma DisjointGrows(spans: seq<Interval>, last: Interval)
    requires Disjoint(spans) && last.start <= last.end && EndedBy(spans, last.start)
    ensures Disjoint(spans + [last]) && EndedBy(spans + [last], last.end)
  {
  }

  /** Completed pauses never overlap, whatever the log holds. */
  lemma {:induction false} PausesAreDisjoint(log: seq<Event>, n: nat)
    requires Ordered(log) && n <= |log|
    ensures Disjoint(Pauses(log, n))
    ensures LastSwitch(log, n).Some? ==> EndedBy(Pauses(log, n), log[LastSwitch(log, n).value].at)
    ensures LastSwitch(log, n).None? ==> Pauses(log, n) == []
  {
    hide Disjoint, EndedBy, Ordered, Pauses, LastSwitch, Precedes;
    if n == 0 {
      NothingYet(log, EveryLink);
    } else {
      PausesAreDisjoint(log, n - 1);
      NextPauses(log, n);
      var before, last := Pauses(log, n - 1), LastSwitch(log, n - 1);
      if Switches(log[n - 1]) && last.Some? {
        InTime(log, last.value, n - 1);
        EndedLater(before, log[last.value].at, log[n - 1].at);
        if EndsPause(log, n - 1) {
          DisjointGrows(before, PauseAt(log, n - 1));
        }
      } else {
        NoneEnded(log[n - 1].at);
      }
    }
  }

  /** The interval total is the tick count, for every log in order and either reading of it. */
  lemma TotalIsTickCount(log: seq<Event>, reading: Reading)
    requires Ordered(log)
    ensures Total(Segments(log, |log|, reading), Pauses(log, |log|)) == |EncodedTicks(log, reading)|
  {
    hide EndsSegment, EndsPause, LastMove, LastSwitch, Ordered;
    var spans, pauses := Segments(log, |log|, reading), Pauses(log, |log|);
    SegmentsAreDisjoint(log, |log|, reading);
    PausesAreDisjoint(log, |log|);
    TotalIsUncovered(spans, pauses);
    forall t ensures t in EncodedTicks(log, reading) <==> t in AllTicks(spans) - AllTicks(pauses) {
      SegmentsCover(log, |log|, reading, t);
      PausesCover(log, |log|, t);
      if EncodingAt(log, t, reading) {
        SegmentsAreWithinTheLog(log, reading, t);
      }
    }
    assert EncodedTicks(log, reading) == AllTicks(spans) - AllTicks(pauses);
  }

  lemma SegmentsAreWithinTheLog(log: seq<Event>, reading: Reading, t: Tick)
    requires Ordered(log) && EncodingAt(log, t, reading)
    ensures t in Horizon(log)
  {
    var n :| 0 <= n < |log| && InSegment(log, n, reading, t);
    var m := LastMove(log, n, reading).value;
    assert m == 0 || Precedes(log[0], log[m]);
    assert n == |log| - 1 || Precedes(log[n], Last(log));
    assert Covers(Interval(log[0].at, Last(log).at), t);
  }

  // ---- the program --------------------------------------------------------------------------

  /** Wall time in ENCODING without completed pauses, in clock ticks; `None` without a closed
      segment. */
  method EncodeSeconds(events: seq<Event>) returns (total: Option<nat>)
    ensures total.None? <==> forall n | 0 <= n < |Sorted(events)| :: !EndsSegment(Sorted(events), n, StateEventsOnly)
    ensures total.Some? ==> total.value == |EncodedTicks(Sorted(events), StateEventsOnly)|
  {
    hide EndsSegment, EndsPause, EncodedTicks, Net;
    var ordered := Sorted(events);
    SortedSorts(events);
    var intervals, pauses := Intervals(ordered);
    SegmentsExist(ordered, |ordered|, StateEventsOnly);
    if intervals == [] {
      return None;
    }
    SegmentsAreDisjoint(ordered, |ordered|, StateEventsOnly);
    PausesAreDisjoint(ordered, |ordered|);
    var sum := Sum(intervals, pauses);
    TotalIsTickCount(ordered, StateEventsOnly);
    return Some(sum);
  }

  /** The first loop: the closed segments and the completed pauses, in one pass. */
  method Intervals(ordered: seq<Event>) returns (intervals: seq<Interval>, pauses: seq<Interval>)
    ensures intervals == Segments(ordered, |ordered|, StateEventsOnly) && pauses == Pauses(ordered, |ordered|)
  {
    intervals, pauses := [], [];
    var entered: Option<int>, pausedAt: Option<int> := None, None;
    for n := 0 to |ordered|
      invariant intervals == Segments(ordered, n, StateEventsOnly) && pauses == Pauses(ordered, n)
      invariant entered == EnteredBefore(ordered, n) && pausedAt == PausedBefore(ordered, n)
    {
      var event := ordered[n];
      if event.kind == Paused {
        pausedAt := Some(event.at);
      } else if event.kind == Resumed && pausedAt.Some? {
        pauses := pauses + [Interval(pausedAt.value, event.at)];
        pausedAt := None;
      }
      if event.kind != StateChange || event.to.None? {
        continue;
      }
      if entered.Some? {
        intervals := intervals + [Interval(entered.value, event.at)];
        entered := None;
      }
      if event.to == Some(ENCODING) {
        entered := Some(event.at);
      }
    }
  }

  /** The second loop. No net span is negative, so the clamp at zero is dead code. */
  method Sum(intervals: seq<Interval>, pauses: seq<Interval>) returns (sum: nat)
    requires Disjoint(intervals) && Disjoint(pauses)
    ensures sum == Total(intervals, pauses)
  {
    hide Net, AllTicks;
    sum := 0;
    for k := 0 to |intervals|
      invariant sum == Total(intervals[..k], pauses)
    {
      var span := Remainder(intervals[k], pauses);
      NetIsUncovered(intervals[k], pauses);
      assert span >= 0;
      assert intervals[..k + 1][..k] == intervals[..k];
      sum := sum + Max(span, 0);
    }
    assert intervals[..|intervals|] == intervals;
  }

  /** The inner loop: one segment without every positive overlap. */
  method Remainder(interval: Interval, pauses: seq<Interval>) returns (span: int)
    ensures span == Net(interval, pauses)
  {
    span := interval.end - interval.start;
    for k := 0 to |pauses|
      invariant span == Net(interval, pauses[..k])
    {
      var overlap := Min(interval.end, pauses[k].end) - Max(interval.start, pauses[k].start);
      if overlap > 0 {
        span := span - overlap;
      }
      assert pauses[..k + 1][..k] == pauses[..k];
    }
    assert pauses[..|pauses|] == pauses;
  }

  /** The loop's `entered`: the time of the last move, if it was into ENCODING. */
  function EnteredBefore(log: seq<Event>, n: nat): Option<int>
    requires n <= |log|
  {
    var last := LastMove(log, n, StateEventsOnly);
    if last.Some? && log[last.value].to == Some(ENCODING) then Some(log[last.value].at) else None
  }

  /** The loop's `paused_at`: the time of the last switch, if it was a pause. */
  function PausedBefore(log: seq<Event>, n: nat): Option<int>
    requires n <= |log|
  {
    var last := LastSwitch(log, n);
    if last.Some? && log[last.value].kind == Paused then Some(log[last.value].at) else None
  }

  lemma {:induction false} SegmentsExist(log: seq<Event>, n: nat, reading: Reading)
    requires n <= |log|
    ensures Segments(log, n, reading) == [] <==> forall k | 0 <= k < n :: !EndsSegment(log, k, reading)
  {
    if n > 0 {
      SegmentsExist(log, n - 1, reading);
    }
  }

  // ---- retried segments ---------------------------------------------------------------------

  /** Only a state event ever leaves ENCODING. Every log the job database writes has this shape. */
  ghost predicate LeavesEncodingByState(log: seq<Event>) {
    forall n | 0 <= n < |log| :: EndsSegment(log, n, EveryLink) ==> log[n].kind == StateChange
  }

  /** A segment of the documented meaning that some other event opened: a retried encode. */
  predicate EndsRetriedSegment(log: seq<Event>, n: nat)
    requires n < |log|
  {
    EndsSegment(log, n, EveryLink) && log[LastMove(log, n, EveryLink).value].kind != StateChange
  }

  lemma {:induction false} LastMoveIsLater(log: seq<Event>, n: nat)
    requires n <= |log|
    ensures LastMove(log, n, StateEventsOnly).Some? ==>
              LastMove(log, n, EveryLink).Some? && LastMove(log, n, StateEventsOnly).value <= LastMove(log, n, EveryLink).value
    ensures LastMove(log, n, EveryLink).Some? && log[LastMove(log, n, EveryLink).value].kind == StateChange ==>
              LastMove(log, n, StateEventsOnly) == LastMove(log, n, EveryLink)
  {
    if n > 0 {
      LastMoveIsLater(log, n - 1);
    }
  }

  /** The next move after a state event into ENCODING is a state event, so both readings agree. */
  lemma {:induction false} NoLinkSlipsIn(log: seq<Event>, n: nat)
    requires LeavesEncodingByState(log) && n <= |log|
    requires LastMove(log, n, StateEventsOnly).Some? && log[LastMove(log, n, StateEventsOnly).value].to == Some(ENCODING)
    ensures LastMove(log, n, EveryLink) == LastMove(log, n, StateEventsOnly)
  {
    if n > 0 && !Moves(log[n - 1], StateEventsOnly) {
      NoLinkSlipsIn(log, n - 1);
      assert !EndsSegment(log, n - 1, EveryLink);
    }
  }

  /** Segment by segment: the program sees exactly the documented segments that a state event
      opened. */
  lemma ReadingsDiffer(log: seq<Event>, n: nat)
    requires LeavesEncodingByState(log) && n < |log|
    ensures EndsSegment(log, n, StateEventsOnly) <==> EndsSegment(log, n, EveryLink) && !EndsRetriedSegment(log, n)
    ensures EndsSegment(log, n, StateEventsOnly) ==> SegmentAt(log, n, StateEventsOnly) == SegmentAt(log, n, EveryLink)
  {
    LastMoveIsLater(log, n);
    if EndsSegment(log, n, StateEventsOnly) {
      NoLinkSlipsIn(log, n);
    }
  }

  lemma {:induction false} SameSegments(log: seq<Event>, n: nat)
    requires LeavesEncodingByState(log) && n <= |log|
    ensures |Segments(log, n, StateEventsOnly)| <= |Segments(log, n, EveryLink)|
    ensures Segments(log, n, StateEventsOnly) == Segments(log, n, EveryLink) <==>
            forall k | 0 <= k < n :: !EndsRetriedSegment(log, k)
    ensures |Segments(log, n, StateEventsOnly)| == |Segments(log, n, EveryLink)| ==>
              Segments(log, n, StateEventsOnly) == Segments(log, n, EveryLink)
  {
    if n > 0 {
      SameSegments(log, n - 1);
      ReadingsDiffer(log, n - 1);
    }
  }

  /** A retry into ENCODING that some later event follows. */
  predicate RetriedAndMovedOn(log: seq<Event>, r: nat)
    requires r < |log|
  {
    log[r].to == Some(ENCODING) && log[r].kind != StateChange && exists k | r < k < |log| :: Moves(log[k], EveryLink)
  }

  lemma {:induction false} FirstMoveAfter(log: seq<Event>, r: nat, k: nat) returns (n: nat)
    requires r < k < |log| && Moves(log[r], EveryLink) && Moves(log[k], EveryLink)
    ensures r < n < |log| && Moves(log[n], EveryLink) && LastMove(log, n, EveryLink) == Some(r)
    decreases k
  {
    var last := LastMove(log, k, EveryLink).value;
    if last == r {
      n := k;
    } else {
      n := FirstMoveAfter(log, r, last);
    }
  }

  /** The documentation promises every interval in ENCODING. The program delivers exactly that if
      and only if no retry into ENCODING was followed by another move. */
  lemma DocumentedIffNoRetriedEncode(log: seq<Event>)
    requires LeavesEncodingByState(log)
    ensures Segments(log, |log|, StateEventsOnly) == Segments(log, |log|, EveryLink) <==>
            forall r | 0 <= r < |log| :: !RetriedAndMovedOn(log, r)
  {
    SameSegments(log, |log|);
    if k :| 0 <= k < |log| && EndsRetriedSegment(log, k) {
      assert RetriedAndMovedOn(log, LastMove(log, k, EveryLink).value);
    }
    if r :| 0 <= r < |log| && RetriedAndMovedOn(log, r) {
      var k :| r < k < |log| && Moves(log[k], EveryLink);
      var n := FirstMoveAfter(log, r, k);
      assert EndsRetriedSegment(log, n);
    }
  }

  /** Ticks of retried segments, outside pauses. */
  function RetriedTicks(log: seq<Event>): set<Tick> {
    set t | t in Horizon(log) && !PausedAt(log, t)
            && exists n | 0 <= n < |log| :: EndsRetriedSegment(log, n) && InSegment(log, n, EveryLink, t)
  }

  lemma SegmentsAreApart(log: seq<Event>, a: nat, b: nat, t: Tick)
    requires Ordered(log) && a < |log| && b < |log| && a != b
    requires EndsSegment(log, a, EveryLink) && EndsSegment(log, b, EveryLink)
    ensures !(Covers(SegmentAt(log, a, EveryLink), t) && Covers(SegmentAt(log, b, EveryLink), t))
  {
    if a < b {
      assert a <= LastMove(log, b, EveryLink).value;
    } else {
      assert b <= LastMove(log, a, EveryLink).value;
    }
  }

  /** The time the program loses is exactly the time of the retried segments. */
  lemma LostTimeIsRetriedTime(log: seq<Event>)
    requires Ordered(log) && LeavesEncodingByState(log)
    ensures |EncodedTicks(log, EveryLink)| == |EncodedTicks(log, StateEventsOnly)| + |RetriedTicks(log)|
  {
    var documented, counted, lost := EncodedTicks(log, EveryLink), EncodedTicks(log, StateEventsOnly), RetriedTicks(log);
    forall n | 0 <= n < |log|
      ensures EndsSegment(log, n, StateEventsOnly) <==> EndsSegment(log, n, EveryLink) && !EndsRetriedSegment(log, n)
      ensures EndsSegment(log, n, StateEventsOnly) ==> SegmentAt(log, n, StateEventsOnly) == SegmentAt(log, n, EveryLink)
    {
      ReadingsDiffer(log, n);
    }
    forall t ensures t in documented <==> t in counted + lost {
      if n :| 0 <= n < |log| && InSegment(log, n, EveryLink, t) {
        assert InSegment(log, n, StateEventsOnly, t) || EndsRetriedSegment(log, n);
      }
      if n :| 0 <= n < |log| && InSegment(log, n, StateEventsOnly, t) {
        assert InSegment(log, n, EveryLink, t);
      }
    }
    assert documented == counted + lost;
    forall t ensures !(t in counted && t in lost) {
      if t in counted && t in lost {
        var a :| 0 <= a < |log| && InSegment(log, a, StateEventsOnly, t);
        var b :| 0 <= b < |log| && EndsRetriedSegment(log, b) && InSegment(log, b, EveryLink, t);
        SegmentsAreApart(log, a, b, t);
      }
    }
    assert counted !! lost;
  }

  /** A job that failed after one tick of encoding and was retried for nine more. */
  function RetriedEncode(): seq<Event> {
    [Event(1, 1, JobCreated, None, Some(QUEUED), 0), Event(2, 1, StateChange, Some(QUEUED), Some(SCANNING), 0),
     Event(3, 1, StateChange, Some(SCANNING), Some(READY), 0), Event(4, 1, StateChange, Some(READY), Some(ENCODING), 0),
     Event(5, 1, StateChange, Some(ENCODING), Some(FAILED), 1), Event(6, 1, Retry, Some(FAILED), Some(ENCODING), 2),
     Event(7, 1, StateChange, Some(ENCODING), Some(MUXING), 11)]
  }

  /** The program counts one tick, the documentation promises ten. */
  lemma RetriedEncodeIsNotCounted()
    ensures |EncodedTicks(RetriedEncode(), StateEventsOnly)| == 1 && |EncodedTicks(RetriedEncode(), EveryLink)| == 10
  {
    hide *;
    RetriedTotals();
    TotalIsTickCount(RetriedEncode(), StateEventsOnly);
    TotalIsTickCount(RetriedEncode(), EveryLink);
    RetriedPauses();
    RetriedIntervals(EveryLink);
    RetriedIntervals(StateEventsOnly);
    assert [Interval(0, 1)] + [] == [Interval(0, 1)] && [Interval(0, 1)] + [Interval(2, 11)] == [Interval(0, 1), Interval(2, 11)];
  }

  lemma RetriedTotals()
    ensures |RetriedEncode()| == 7 && Ordered(RetriedEncode())
    ensures Total([Interval(0, 1)], []) == 1 && Total([Interval(0, 1), Interval(2, 11)], []) == 10
  {
    assert [Interval(0, 1), Interval(2, 11)][..1] == [Interval(0, 1)];
  }

  lemma RetriedPauses()
    ensures Pauses(RetriedEncode(), 7) == []
  {
    var log := RetriedEncode();
    assert Pauses(log, 2) == [] && Pauses(log, 4) == [] && Pauses(log, 6) == [];
  }

  lemma RetriedMoves(reading: Reading)
    ensures var log := RetriedEncode();
            && LastMove(log, 4, reading) == Some(3) && LastMove(log, 5, reading) == Some(4)
            && LastMove(log, 6, reading) == if reading.EveryLink? then Some(5) else Some(4)
  {
  }

  lemma NoEarlySegment(log: seq<Event>, n: nat, reading: Reading)
    requires n <= |log| && forall k | 0 <= k < n - 1 :: log[k].to != Some(ENCODING)
    ensures Segments(log, n, reading) == []
  {
  }

  lemma RetriedIntervals(reading: Reading)
    ensures Segments(RetriedEncode(), 7, reading) == [Interval(0, 1)] + (if reading.EveryLink? then [Interval(2, 11)] else [])
  {
    var log := RetriedEncode();
    NoEarlySegment(log, 4, reading);
    RetriedMoves(reading);
    hide LastMove, RetriedEncode;
    assert Segments(log, 5, reading) == [Interval(0, 1)];
    assert Segments(log, 6, reading) == [Interval(0, 1)];
  }

  // ---- pauses that a cancellation ends ------------------------------------------------------

  /** What really ends a hold: a resumption or a cancellation. */
  predicate Holds(e: Event) { Switches(e) || e.kind == EventKind.Cancelled }

  function LastHold(log: seq<Event>, n: nat): (last: Option<nat>)
    requires n <= |log|
    ensures last.Some? ==> last.value < n && Holds(log[last.value])
    ensures forall k | (if last.Some? then last.value else -1) < k < n :: !Holds(log[k])
  {
    if n == 0 then None else if Holds(log[n - 1]) then Some(n - 1) else LastHold(log, n - 1)
  }

  /** Position `n` ends a real hold. */
  predicate EndsHold(log: seq<Event>, n: nat)
    requires n < |log|
  {
    Holds(log[n]) && log[n].kind != Paused && LastHold(log, n).Some? && log[LastHold(log, n).value].kind == Paused
  }

  /** Position `n` cancels a job whose last pause was never resumed. */
  predicate CancelsPaused(log: seq<Event>, n: nat)
    requires n < |log|
  {
    log[n].kind == EventKind.Cancelled && LastSwitch(log, n).Some? && log[LastSwitch(log, n).value].kind == Paused
  }

  /** Between a pause and the first cancellation of it nothing else is a switch or a cancellation. */
  lemma {:induction false} FirstCancellation(log: seq<Event>, n: nat) returns (first: nat)
    requires n < |log| && CancelsPaused(log, n)
    ensures first <= n && CancelsPaused(log, first) && LastHold(log, first) == LastSwitch(log, first)
    decreases n
  {
    var paused := LastSwitch(log, n).value;
    var last := LastHold(log, n).value;
    if last == paused {
      first := n;
    } else {
      assert paused < last && log[last].kind == EventKind.Cancelled;
      assert LastSwitch(log, last).Some? && LastSwitch(log, last).value == paused;
      first := FirstCancellation(log, last);
    }
  }

  /** The program's pauses are the real holds if and only if no paused job was cancelled: it never
      looks at cancellations, so such a pause stays open until some later resumption. */
  lemma PausesAreHoldsIffNoneWasCancelled(log: seq<Event>)
    ensures (forall n | 0 <= n < |log| :: EndsPause(log, n) <==> EndsHold(log, n)) <==>
            (forall n | 0 <= n < |log| :: !CancelsPaused(log, n))
  {
    if n :| 0 <= n < |log| && CancelsPaused(log, n) {
      var first := FirstCancellation(log, n);
      assert EndsHold(log, first) && !EndsPause(log, first);
    } else {
      forall n | 0 <= n < |log| ensures EndsPause(log, n) <==> EndsHold(log, n) {
        if EndsPause(log, n) {
          var m, h := LastSwitch(log, n).value, LastHold(log, n).value;
          assert !CancelsPaused(log, h);
          assert m == h;
        }
        if EndsHold(log, n) {
          var h := LastHold(log, n).value;
          assert LastSwitch(log, n) == Some(h);
          assert !CancelsPaused(log, n);
        }
      }
    }
  }

  /** Paused after one tick, cancelled while paused, restarted, encoded for ten more ticks, and
      resumed from a later pause that was requested while the job was idle. */
  function CancelledPause(): seq<Event> {
    [Event(1, 1, JobCreated, None, Some(QUEUED), 0), Event(2, 1, StateChange, Some(QUEUED), Some(SCANNING), 0),
     Event(3, 1, StateChange, Some(SCANNING), Some(READY), 0), Event(4, 1, StateChange, Some(READY), Some(ENCODING), 0),
     Event(5, 1, PauseRequested, None, None, 1), Event(6, 1, Paused, None, None, 1),
     Event(7, 1, StateChange, Some(ENCODING), Some(CANCELLED), 2), Event(8, 1, EventKind.Cancelled, None, None, 2),
     Event(9, 1, Restart, Some(CANCELLED), Some(QUEUED), 3), Event(10, 1, StateChange, Some(QUEUED), Some(SCANNING), 4),
     Event(11, 1, StateChange, Some(SCANNING), Some(READY), 4), Event(12, 1, StateChange, Some(READY), Some(ENCODING), 4),
     Event(13, 1, StateChange, Some(ENCODING), Some(NEEDS_REVIEW), 14), Event(14, 1, PauseRequested, None, None, 15),
     Event(15, 1, Resumed, None, None, 20)]
  }

  /** The stale pause swallows the whole second encode: one tick is counted out of eleven. */
  lemma CancelledPauseSwallowsALaterEncode()
    ensures |EncodedTicks(CancelledPause(), StateEventsOnly)| == 1 && CancelsPaused(CancelledPause(), 7)
    ensures Segments(CancelledPause(), 15, StateEventsOnly) == [Interval(0, 2), Interval(4, 14)]
  {
    hide *;
    CancelledPauseTotal();
    CancelledPauseIntervals();
    CancelledPauseIsOrdered();
    TotalIsTickCount(CancelledPause(), StateEventsOnly);
  }

  lemma {:induction false} StepByStep(log: seq<Event>, i: nat, j: nat)
    requires i < j < |log| && forall k | 0 <= k < |log| - 1 :: Precedes(log[k], log[k + 1])
    ensures Precedes(log[i], log[j])
  {
    if i + 1 < j {
      StepByStep(log, i, j - 1);
      assert Precedes(log[j - 1], log[j - 1 + 1]);
    }
  }

  lemma CancelledPauseIsOrdered()
    ensures Ordered(CancelledPause())
  {
    var log := CancelledPause();
    forall i, j | 0 <= i < j < |log| ensures Precedes(log[i], log[j]) {
      StepByStep(log, i, j);
    }
  }

  lemma CancelledPauseTotal()
    ensures Total([Interval(0, 2), Interval(4, 14)], [Interval(1, 20)]) == 1 && |CancelledPause()| == 15
  {
    assert [Interval(0, 2), Interval(4, 14)][..1] == [Interval(0, 2)];
    assert Net(Interval(0, 2), [Interval(1, 20)]) == 1 && Net(Interval(4, 14), [Interval(1, 20)]) == 0;
  }

  lemma CancelledPauseIntervals()
    ensures Segments(CancelledPause(), 15, StateEventsOnly) == [Interval(0, 2), Interval(4, 14)]
    ensures Pauses(CancelledPause(), 15) == [Interval(1, 20)]
    ensures CancelsPaused(CancelledPause(), 7)
  {
    CancelledPauseMoves();
    CancelledPauseSegments();
    CancelledPausePauses();
  }

  lemma LastMoveIs(log: seq<Event>, n: nat, m: nat)
    requires m < n <= |log| && Moves(log[m], StateEventsOnly) && forall k | m < k < n :: !Moves(log[k], StateEventsOnly)
    ensures LastMove(log, n, StateEventsOnly) == Some(m)
  {
  }

  lemma LastSwitchIs(log: seq<Event>, n: nat, m: nat)
    requires m < n <= |log| && Switches(log[m]) && forall k | m < k < n :: !Switches(log[k])
    ensures LastSwitch(log, n) == Some(m)
  {
  }

  /** Which lines move the job, and which switch it. */
  lemma CancelledPauseLines()
    ensures var log := CancelledPause();
            && |log| == 15
            && (forall k | 0 <= k < 15 :: Moves(log[k], StateEventsOnly) <==> k in {1, 2, 3, 6, 9, 10, 11, 12})
            && (forall k | 0 <= k < 15 :: Switches(log[k]) <==> k in {5, 14})
            && (forall k | 0 <= k < 15 :: log[k].to == Some(ENCODING) <==> k in {3, 11})
            && log[3].at == 0 && log[5].at == 1 && log[6].at == 2 && log[11].at == 4 && log[12].at == 14 && log[14].at == 20
            && log[5].kind == Paused && log[14].kind == Resumed
  {
  }

  lemma CancelledPauseMoves()
    ensures var log := CancelledPause();
            && |log| == 15
            && LastMove(log, 6, StateEventsOnly) == Some(3) && LastMove(log, 11, StateEventsOnly) == Some(10)
            && LastMove(log, 9, StateEventsOnly) == Some(6) && LastMove(log, 12, StateEventsOnly) == Some(11)
            && LastMove(log, 10, StateEventsOnly) == Some(9)
            && LastSwitch(log, 7) == Some(5) && LastSwitch(log, 14) == Some(5)
  {
    hide CancelledPause, Moves, Switches, LastMove, LastSwitch;
    CancelledPauseLines();
    var log := CancelledPause();
    LastMoveIs(log, 6, 3);
    LastMoveIs(log, 11, 10);
    LastMoveIs(log, 9, 6);
    LastMoveIs(log, 12, 11);
    LastMoveIs(log, 10, 9);
    LastSwitchIs(log, 7, 5);
    LastSwitchIs(log, 14, 5);
  }

  /** Nothing ends a segment between `m` and `n`. */
  lemma {:induction false} SameSegmentsUntil(log: seq<Event>, m: nat, n: nat)
    requires m <= n <= |log| && forall k | m <= k < n :: !EndsSegment(log, k, StateEventsOnly)
    ensures Segments(log, n, StateEventsOnly) == Segments(log, m, StateEventsOnly)
  {
    if m < n {
      SameSegmentsUntil(log, m, n - 1);
    }
  }

  lemma OneMoreSegment(log: seq<Event>, n: nat, m: nat)
    requires m < n < |log| && Moves(log[n], StateEventsOnly) && LastMove(log, n, StateEventsOnly) == Some(m) && log[m].to == Some(ENCODING)
    ensures Segments(log, n + 1, StateEventsOnly) == Segments(log, n, StateEventsOnly) + [Interval(log[m].at, log[n].at)]
  {
  }

  lemma CancelledPauseSegments()
    ensures Segments(CancelledPause(), 15, StateEventsOnly) == [Interval(0, 2), Interval(4, 14)]
  {
    hide CancelledPause, LastMove, Moves, Segments;
    CancelledPauseLines();
    CancelledPauseMoves();
    var log := CancelledPause();
    NoEarlySegment(log, 4, StateEventsOnly);
    SameSegmentsUntil(log, 4, 6);
    OneMoreSegment(log, 6, 3);
    SameSegmentsUntil(log, 7, 12);
    OneMoreSegment(log, 12, 11);
    SameSegmentsUntil(log, 13, 15);
  }

  lemma {:induction false} NothingResumed(log: seq<Event>, n: nat)
    requires n <= |log| && forall k | 0 <= k < n :: log[k].kind != Resumed
    ensures Pauses(log, n) == []
  {
    if n > 0 {
      NothingResumed(log, n - 1);
    }
  }

  lemma CancelledPausePauses()
    ensures Pauses(CancelledPause(), 15) == [Interval(1, 20)]
  {
    hide CancelledPause, LastSwitch;
    CancelledPauseLines();
    CancelledPauseMoves();
    var log := CancelledPause();
    NothingResumed(log, 14);
    assert EndsPause(log, 14) && PauseAt(log, 14) == Interval(1, 20);
  }
}
