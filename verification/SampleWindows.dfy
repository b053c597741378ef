/** Rounding as the program's `round`: to the nearest integer, ties to the even one. */
module Rounding {

  function RoundHalfEven(x: real): (n: int)
    ensures -0.5 <= x - n as real <= 0.5
    ensures (x - n as real == 0.5 || x - n as real == -0.5) ==> n % 2 == 0
  {
    var f := x.Floor;
    var d := x - f as real;
    if d < 0.5 then f else if d > 0.5 then f + 1 else if f % 2 == 0 then f else f + 1
  }

  /** The contract above leaves one result, and it is monotone. */
  lemma RoundingIsMonotone(x: real, y: real)
    requires x <= y
    ensures RoundHalfEven(x) <= RoundHalfEven(y)
  {
  }
}

/** The sample plan of the CRF search: equal windows spread over the body of a title. */
module SampleWindows {

  import opened Wrappers
  import opened Rounding

  datatype Window = Window(start: int, length: int)

  datatype PlanError = NoFrames | TooShort | TooShortForTwo

  function Skip(total: int): int { 3 * total / 100 }

  function Usable(total: int): int { total - 2 * Skip(total) }

  function WindowLength(rate: real, seconds: real): int {
    var frames := RoundHalfEven(rate * seconds);
    if frames < 2 then 2 else frames
  }

  function Min(a: int, b: int): int { if a < b then a else b }

  function Max(a: int, b: int): int { if a < b then b else a }

  /** Multiplication of reals under a name, so that its laws are used one at a time. */
  function Times(a: real, b: real): real { a * b }

  /** The length of `count` equal segments of the body. */
  function Segment(total: int, count: int): real
    requires count > 0
  {
    Usable(total) as real / count as real
  }

  /** How far into the body the middle of segment `k` is. */
  function Offset(total: int, count: int, k: int): real
    requires count > 0
  {
    Times(Segment(total, count), k as real + 0.5)
  }

  function Centre(total: int, count: int, k: int): real
    requires count > 0
  {
    Skip(total) as real + Offset(total, count, k)
  }

  /** What a plan must be: windows of one length, in order, apart, inside the body, each centred
      on its segment to within one frame. */
  ghost predicate Planned(windows: seq<Window>, total: int, length: int, count: int) {
    && |windows| == count
    && (forall k | 0 <= k < count ::
         && windows[k].length == length
         && Skip(total) <= windows[k].start && windows[k].start + length <= total - Skip(total)
         && 0.0 <= Centre(total, count, k) - length as real / 2.0 - windows[k].start as real < 1.0)
    && (forall k | 0 <= k < count - 1 :: windows[k].start + length <= windows[k + 1].start)
  }

  lemma {:induction false} WindowsAreApart(windows: seq<Window>, total: int, length: int, count: int, j: nat, k: nat)
    requires Planned(windows, total, length, count) && length > 0 && j < k < count
    ensures windows[j].start + windows[j].length <= windows[k].start
  {
    if j + 1 < k {
      WindowsAreApart(windows, total, length, count, j, k - 1);
    }
  }

  lemma SegmentHoldsWindow(total: int, count: int, length: int)
    requires count > 0 && length > 0 && count <= Usable(total) / length
    ensures Segment(total, count) >= length as real
  {
    WindowsFit(Usable(total), count, length);
    TimesOfIntegers(count, length);
    hide Times, Usable;
    QuotientAtLeast(Usable(total) as real, count as real, length as real);
  }

  lemma WindowsFit(usable: int, count: int, length: int)
    requires count > 0 && length > 0 && count <= usable / length
    ensures count * length <= usable
  {
    assert count * length <= usable / length * length;
    assert usable == length * (usable / length) + usable % length;
  }

  lemma TimesOfIntegers(a: int, b: int)
    ensures Times(a as real, b as real) == (a * b) as real
  {
  }

  lemma QuotientAtLeast(a: real, b: real, c: real)
    requires b > 0.0 && a >= Times(b, c)
    ensures a / b >= c
  {
    var q := a / b;
    assert a == b * q;
    assert q < c ==> b * q < b * c;
  }

  lemma TimesWithin(a: real, k: real, count: real)
    requires a > 0.0 && 0.0 <= k <= count - 1.0
    ensures a / 2.0 <= Times(a, k + 0.5) <= Times(a, count) - a / 2.0
  {
    var rest := count - 1.0 - k;
    assert a * rest >= 0.0 && a * k >= 0.0;
    assert a * (k + 0.5) == a * k + a / 2.0;
    assert a * count == a * (k + 1.0 + rest) == a * k + a + a * rest;
  }

  lemma TimesOneMore(a: real, b: real)
    ensures Times(a, b + 1.0) == Times(a, b) + a
  {
  }

  lemma SegmentsFill(total: int, count: int)
    requires count > 0
    ensures Times(Segment(total, count), count as real) == Usable(total) as real
  {
    hide Usable;
  }

  lemma OffsetIsInBody(total: int, count: int, k: int)
    requires 0 <= k < count && Segment(total, count) > 0.0
    ensures Segment(total, count) / 2.0 <= Offset(total, count, k) <= Usable(total) as real - Segment(total, count) / 2.0
  {
    hide Times, Segment, Usable;
    TimesWithin(Segment(total, count), k as real, count as real);
    SegmentsFill(total, count);
  }

  lemma OffsetsAreEven(total: int, count: int, k: int)
    requires count > 0
    ensures Offset(total, count, k + 1) == Offset(total, count, k) + Segment(total, count)
  {
    hide Times, Segment;
    assert (k + 1) as real + 0.5 == (k as real + 0.5) + 1.0;
    TimesOneMore(Segment(total, count), k as real + 0.5);
  }

  /** The exact start of a window never leaves the body, and the next one starts at least a window
      later: the clamp in the loop is dead code in exact arithmetic. */
  lemma StartIsInBody(total: int, count: int, length: int, k: int)
    requires total >= 1 && length >= 2 && 0 < count <= Usable(total) / length && 0 <= k < count
    ensures Skip(total) as real <= Centre(total, count, k) - length as real / 2.0 <= (total - Skip(total) - length) as real
    ensures Centre(total, count, k) + length as real <= Centre(total, count, k + 1)
  {
    hide Segment, Offset, Skip;
    SegmentHoldsWindow(total, count, length);
    OffsetIsInBody(total, count, k);
    OffsetsAreEven(total, count, k);
  }

  /** The plan, or the reason there is none. The title is refused exactly when it has no frames or
      its body holds fewer than two of the requested windows. */
  method PlanSampleWindows(total: int, rate: real, samples: int, seconds: real) returns (plan: Result<seq<Window>, PlanError>)
    ensures plan.Ok? <==> total >= 1 && rate > 0.0 && samples >= 2 && Usable(total) >= 2 * WindowLength(rate, seconds)
    ensures plan.Ok? ==>
              var length := WindowLength(rate, seconds);
              var count := Min(samples, Usable(total) / length);
              2 <= count <= samples && Planned(plan.value, total, length, count)
    ensures plan == Err(NoFrames) <==> total < 1 || rate <= 0.0
    ensures plan == Err(TooShort) <==> total >= 1 && rate > 0.0 && Usable(total) < WindowLength(rate, seconds)
  {
    if total < 1 || rate <= 0.0 {
      return Err(NoFrames);
    }
    var skip := 3 * total / 100;
    var usable := total - 2 * skip;
    var window := Max(2, RoundHalfEven(rate * seconds));
    if usable < window {
      return Err(TooShort);
    }
    AtLeastTwo(usable, window);
    var count := Min(samples, usable / window);
    if count < 2 {
      return Err(TooShortForTwo);
    }
    var windows := Spread(total, skip, window, count);
    return Ok(windows);
  }

  /** The loop: one window centred on each segment. */
  method Spread(total: int, skip: int, window: int, count: int) returns (windows: seq<Window>)
    requires total >= 1 && skip == Skip(total) && window >= 2 && 0 < count <= Usable(total) / window
    ensures Planned(windows, total, window, count)
  {
    hide Centre;
    windows := [];
    for index := 0 to count
      invariant |windows| == index
      invariant forall k | 0 <= k < index ::
          && windows[k].length == window
          && skip <= windows[k].start && windows[k].start + window <= total - skip
          && 0.0 <= Centre(total, count, k) - window as real / 2.0 - windows[k].start as real < 1.0
      invariant forall k | 0 <= k < index - 1 :: windows[k].start + window <= windows[k + 1].start
    {
      var centre := Centre(total, count, index);
      StartIsInBody(total, count, window, index);
      if index > 0 {
        StartIsInBody(total, count, window, index - 1);
      }
      var exact := (centre - window as real / 2.0).Floor;
      var start := Max(skip, Min(exact, total - skip - window));
      assert start == exact;
      windows := windows + [Window(start, window)];
    }
  }

  lemma AtLeastTwo(usable: int, window: int)
    requires window > 0
    ensures usable / window >= 2 <==> usable >= 2 * window
  {
    assert usable == window * (usable / window) + usable % window;
    if usable / window >= 2 {
      assert window * (usable / window) >= window * 2;
    }
    if usable / window <= 1 {
      assert window * (usable / window) <= window;
    }
  }
}
