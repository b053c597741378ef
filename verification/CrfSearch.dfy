/** The automatic CRF search: a bracketing search against an arbitrary scoring oracle. A CRF on the
    search grid is the number of its quarter steps. */
module CrfSearches {

  import opened Wrappers
  import opened Rounding
  import Sorting

  const EPSILON := 0.000000001
  const DEFAULT_SLOPE := -1.5
  const LOWEST_SLOPE := -4.0
  const HIGHEST_SLOPE := -0.3

  datatype Config = Config(target: real, minCrf: real, maxCrf: real, maxIterations: nat, tolerance: real)

  predicate Accepts(c: Config) {
    && 80.0 <= c.target <= 99.5
    && 0.1 <= c.minCrf < c.maxCrf <= 51.0
    && c.maxCrf - c.minCrf >= 0.5
    && 3 <= c.maxIterations <= 10
    && 0.1 <= c.tolerance <= 3.0
  }

  datatype Probe = Probe(crf: int, score: real)

  datatype Status = Converged | BestEffort | MaxCrfReached | TargetUnreachable

  datatype Outcome = Outcome(status: Status, chosen: Option<Probe>, probes: seq<Probe>, monotonic: bool)

  datatype Error = NonFinite | AlreadyProbed

  function Crf(steps: int): real { steps as real / 4.0 }

  function Quantize(crf: real): int { RoundHalfEven(crf * 4.0) }

  function LowBound(c: Config): int { Quantize(c.minCrf) }

  function HighBound(c: Config): int { Quantize(c.maxCrf) }

  function Min(a: int, b: int): int { if a < b then a else b }

  function Max(a: int, b: int): int { if a < b then b else a }

  lemma BoundsAreOrdered(c: Config)
    requires Accepts(c)
    ensures 0 <= LowBound(c) < HighBound(c) <= 204
  {
  }

  function Clamp(c: Config, crf: real): int { Min(HighBound(c), Max(LowBound(c), Quantize(crf))) }

  // ---- the bracket --------------------------------------------------------------------------

  function Failing(probes: seq<Probe>, target: real): (r: seq<Probe>)
    ensures forall p :: p in r <==> p in probes && p.score < target
  {
    if probes == [] then []
    else (if probes[0].score < target then [probes[0]] else []) + Failing(probes[1..], target)
  }

  function Lowest(probes: seq<Probe>): (r: Option<Probe>)
    ensures r.None? <==> probes == []
    ensures r.Some? ==> r.value in probes && forall p | p in probes :: r.value.crf <= p.crf
  {
    if probes == [] then None
    else
      var rest := Lowest(probes[1..]);
      if rest.Some? && rest.value.crf < probes[0].crf then rest else Some(probes[0])
  }

  function Highest(probes: seq<Probe>): (r: Option<Probe>)
    ensures r.None? <==> probes == []
    ensures r.Some? ==> r.value in probes && forall p | p in probes :: p.crf <= r.value.crf
  {
    if probes == [] then None
    else
      var rest := Highest(probes[1..]);
      if rest.Some? && rest.value.crf > probes[0].crf then rest else Some(probes[0])
  }

  function PassingBelow(probes: seq<Probe>, target: real, limit: Option<Probe>): (r: seq<Probe>)
    ensures forall p :: p in r <==> p in probes && p.score >= target && (limit.Some? ==> p.crf < limit.value.crf)
  {
    if probes == [] then []
    else (if probes[0].score >= target && (limit.Some? ==> probes[0].crf < limit.value.crf) then [probes[0]] else [])
         + PassingBelow(probes[1..], target, limit)
  }

  function Above(probes: seq<Probe>, limit: Option<Probe>): (r: seq<Probe>)
    ensures forall p :: p in r <==> p in probes && (limit.Some? ==> p.crf > limit.value.crf)
  {
    if probes == [] then []
    else (if limit.Some? ==> probes[0].crf > limit.value.crf then [probes[0]] else []) + Above(probes[1..], limit)
  }

  datatype Bracket = Bracket(low: Option<Probe>, high: Option<Probe>)

  function BracketOf(probes: seq<Probe>, target: real): Bracket {
    var failing := Failing(probes, target);
    var low := Highest(PassingBelow(probes, target, Lowest(failing)));
    Bracket(low, Lowest(Above(failing, low)))
  }

  // ---- the slope ----------------------------------------------------------------------------

  predicate AtMost(a: Probe, b: Probe) { a.crf <= b.crf }

  /** The probes by CRF; a stable sort. */
  function Ordered(probes: seq<Probe>): seq<Probe> { Sorting.Sort(probes, AtMost) }

  ghost predicate Ascending(probes: seq<Probe>) {
    forall i, j | 0 <= i < j < |probes| :: probes[i].crf <= probes[j].crf
  }

  lemma OrderedIsSorted(probes: seq<Probe>)
    ensures Ascending(Ordered(probes)) && multiset(Ordered(probes)) == multiset(probes)
  {
    Sorting.SortSorts(probes, AtMost);
    assert Sorting.InOrder(Ordered(probes), AtMost);
  }

  function Abs(x: real): real { if x < 0.0 then -x else x }

  /** How far the middle of a neighbouring pair of scores is from the target. */
  function Distance(ordered: seq<Probe>, k: nat, target: real): real
    requires k + 1 < |ordered|
  {
    Abs((ordered[k].score + ordered[k + 1].score) / 2.0 - target)
  }

  predicate Apart(ordered: seq<Probe>, k: nat)
    requires k + 1 < |ordered|
  {
    ordered[k].crf < ordered[k + 1].crf
  }

  /** `best` is the first neighbouring pair of the first `n` whose middle is nearest the target. */
  ghost predicate Nearest(ordered: seq<Probe>, n: nat, target: real, best: Option<nat>)
    requires n < |ordered| || (n == 0 && ordered == [])
  {
    match best
    case None => forall k | 0 <= k < n :: !Apart(ordered, k)
    case Some(b) =>
      && b < n && Apart(ordered, b)
      && (forall k | 0 <= k < n && Apart(ordered, k) :: Distance(ordered, b, target) <= Distance(ordered, k, target))
      && (forall k | 0 <= k < b && Apart(ordered, k) :: Distance(ordered, b, target) < Distance(ordered, k, target))
  }

  function PairSlope(ordered: seq<Probe>, k: nat): real
    requires k + 1 < |ordered| && Apart(ordered, k)
  {
    (ordered[k + 1].score - ordered[k].score) / (Crf(ordered[k + 1].crf) - Crf(ordered[k].crf))
  }

  function Limited(slope: real): (r: real)
    ensures LOWEST_SLOPE <= r <= HIGHEST_SLOPE
    ensures LOWEST_SLOPE <= slope <= HIGHEST_SLOPE ==> r == slope
    ensures slope < LOWEST_SLOPE ==> r == LOWEST_SLOPE
  {
    var raised := if slope < LOWEST_SLOPE then LOWEST_SLOPE else slope;
    if raised < HIGHEST_SLOPE then raised else HIGHEST_SLOPE
  }

  /** The slope around the target, from its nearest neighbouring pair; within fixed limits. */
  ghost predicate IsSlope(probes: seq<Probe>, target: real, slope: real) {
    var ordered := Ordered(probes);
    var n := if ordered == [] then 0 else |ordered| - 1;
    exists best :: Nearest(ordered, n, target, best)
                   && slope == (if best.None? then DEFAULT_SLOPE else Limited(PairSlope(ordered, best.value)))
  }

  // ---- the next probe -----------------------------------------------------------------------

  /** What the bracket decides: nothing left to do, or a target for the next probe, given the
      slope to use where only one side of the bracket is known. */
  function NextFrom(c: Config, initial: int, probes: seq<Probe>, slope: real): Option<int>
    requires Accepts(c) && LOWEST_SLOPE <= slope <= HIGHEST_SLOPE
  {
    var bracket := BracketOf(probes, c.target);
    if |probes| >= c.maxIterations then None
    else if probes == [] then Some(initial)
    else if bracket.low.Some? && bracket.low.value.score - c.target <= c.tolerance then None
    else if bracket.low.Some? && bracket.high.Some? then Between(c, bracket.low.value, bracket.high.value)
    else if bracket.low.Some? then Upward(c, bracket.low.value, -slope)
    else if bracket.high.Some? then Downward(c, bracket.high.value, -slope)
    else None
  }

  /** Interpolate inside a bracket, strictly between its ends. */
  function Between(c: Config, low: Probe, high: Probe): Option<int> {
    if high.crf - low.crf <= 1 then None
    else
      var gap := Crf(high.crf) - Crf(low.crf);
      var span := low.score - high.score;
      var fraction := if span > EPSILON then (low.score - c.target) / span else 0.5;
      var candidate := Quantize(Crf(low.crf) + fraction * gap);
      Some(Min(high.crf - 1, Max(low.crf + 1, candidate)))
  }

  function Upward(c: Config, low: Probe, slope: real): Option<int>
    requires slope > 0.0
  {
    if low.crf >= HighBound(c) then None
    else
      var candidate := Quantize(Crf(low.crf) + (low.score - c.target) / slope);
      Some(Min(HighBound(c), Max(low.crf + 1, candidate)))
  }

  function Downward(c: Config, high: Probe, slope: real): Option<int>
    requires slope > 0.0
  {
    if high.crf <= LowBound(c) then None
    else
      var candidate := Quantize(Crf(high.crf) - (c.target - high.score) / slope);
      Some(Max(LowBound(c), Min(high.crf - 1, candidate)))
  }

  /** `next` is what the search does after `probes`. */
  ghost predicate IsNext(c: Config, initial: int, probes: seq<Probe>, next: Option<int>)
    requires Accepts(c)
  {
    exists slope :: IsSlope(probes, c.target, slope) && LOWEST_SLOPE <= slope <= HIGHEST_SLOPE
                    && next == NextFrom(c, initial, probes, slope)
  }

  // ---- soundness ----------------------------------------------------------------------------

  predicate InBounds(c: Config, crf: int) { LowBound(c) <= crf <= HighBound(c) }

  predicate Distinct(probes: seq<Probe>) {
    forall i, j | 0 <= i < j < |probes| :: probes[i].crf != probes[j].crf
  }

  /** Every passing probe is strictly below every failing probe. */
  predicate Separated(probes: seq<Probe>, target: real) {
    forall p, q | p in probes && q in probes && p.score >= target && q.score < target :: p.crf < q.crf
  }

  /** What every run of the search keeps, whatever the scores. */
  predicate Sound(c: Config, probes: seq<Probe>) {
    && (forall p | p in probes :: InBounds(c, p.crf))
    && Distinct(probes) && Separated(probes, c.target)
  }

  /** The ends of the live bracket; just outside the grid where no probe bounds it. */
  function Lower(c: Config, probes: seq<Probe>): int {
    var low := BracketOf(probes, c.target).low;
    if low.Some? then low.value.crf else LowBound(c) - 1
  }

  function Upper(c: Config, probes: seq<Probe>): int {
    var high := BracketOf(probes, c.target).high;
    if high.Some? then high.value.crf else HighBound(c) + 1
  }

  /** Under separation the bracket is the best passing and the first failing probe of them all. */
  lemma BracketIsTight(c: Config, probes: seq<Probe>)
    requires Separated(probes, c.target)
    ensures var low := BracketOf(probes, c.target).low;
            && (low.None? <==> forall p | p in probes :: p.score < c.target)
            && (low.Some? ==> low.value in probes && low.value.score >= c.target)
            && (low.Some? ==> forall p | p in probes && p.score >= c.target :: p.crf <= low.value.crf)
    ensures var high := BracketOf(probes, c.target).high;
            && (high.None? <==> forall p | p in probes :: p.score >= c.target)
            && (high.Some? ==> high.value in probes && high.value.score < c.target)
            && (high.Some? ==> forall p | p in probes && p.score < c.target :: high.value.crf <= p.crf)
  {
    var failing := Failing(probes, c.target);
    var passing := PassingBelow(probes, c.target, Lowest(failing));
    assert forall p | p in probes && p.score >= c.target :: p in passing;
    var above := Above(failing, Highest(passing));
    assert forall p | p in failing :: p in above;
    if failing != [] {
      assert failing[0] in failing;
    }
    if passing != [] {
      assert passing[0] in passing;
    }
    if above != [] {
      assert above[0] in above;
    }
  }

  lemma BracketIsOpen(c: Config, probes: seq<Probe>)
    requires Accepts(c) && Sound(c, probes)
    ensures LowBound(c) - 1 <= Lower(c, probes) < Upper(c, probes) <= HighBound(c) + 1
    ensures forall p | p in probes :: p.crf <= Lower(c, probes) || p.crf >= Upper(c, probes)
    ensures forall p | p in probes :: p.score >= c.target <==> p.crf <= Lower(c, probes)
  {
    BoundsAreOrdered(c);
    BracketIsTight(c, probes);
    hide BracketOf;
  }

  /** Every proposal is a grid point inside the bounds, strictly inside the live bracket, and
      therefore never probed before. */
  lemma ProposalsAreNew(c: Config, initial: int, probes: seq<Probe>, slope: real)
    requires Accepts(c) && InBounds(c, initial) && Sound(c, probes) && LOWEST_SLOPE <= slope <= HIGHEST_SLOPE
    requires NextFrom(c, initial, probes, slope).Some?
    ensures InBounds(c, NextFrom(c, initial, probes, slope).value)
    ensures Lower(c, probes) < NextFrom(c, initial, probes, slope).value < Upper(c, probes)
    ensures forall p | p in probes :: p.crf != NextFrom(c, initial, probes, slope).value
  {
    hide Quantize, BracketOf;
    BoundsAreOrdered(c);
    BracketIsTight(c, probes);
    BracketIsOpen(c, probes);
  }

  /** The score that already meets the target closely enough: that of the greatest passing probe. */
  predicate CloseEnough(c: Config, probes: seq<Probe>) {
    exists p | p in probes :: c.target <= p.score <= c.target + c.tolerance && forall q | q in probes && q.score >= c.target :: q.crf <= p.crf
  }

  /** The search stops exactly when the budget is used up, the greatest passing probe is close enough,
      or no untried CRF is left between the ends of the bracket. */
  lemma StopsIff(c: Config, initial: int, probes: seq<Probe>, slope: real)
    requires Accepts(c) && InBounds(c, initial) && Sound(c, probes) && LOWEST_SLOPE <= slope <= HIGHEST_SLOPE
    ensures NextFrom(c, initial, probes, slope).None? <==>
            |probes| >= c.maxIterations || CloseEnough(c, probes) || Upper(c, probes) - Lower(c, probes) <= 1
  {
    hide Quantize, BracketOf;
    BoundsAreOrdered(c);
    BracketIsTight(c, probes);
    BracketIsOpen(c, probes);
    CloseMeansLow(c, probes);
    if probes != [] {
      assert probes[0] in probes;
    }
  }

  lemma CloseMeansLow(c: Config, probes: seq<Probe>)
    requires Sound(c, probes)
    ensures var low := BracketOf(probes, c.target).low;
            CloseEnough(c, probes) <==> low.Some? && low.value.score - c.target <= c.tolerance
  {
    hide BracketOf;
    BracketIsTight(c, probes);
    var low := BracketOf(probes, c.target).low;
    if CloseEnough(c, probes) {
      var p :| p in probes && c.target <= p.score <= c.target + c.tolerance && forall q | q in probes && q.score >= c.target :: q.crf <= p.crf;
      assert low.Some? && p.crf == low.value.crf;
      var i :| 0 <= i < |probes| && probes[i] == p;
      var j :| 0 <= j < |probes| && probes[j] == low.value;
      assert i == j;
    }
  }

  /** Any score at any point of the live bracket keeps the search sound, and shrinks the bracket. */
  lemma RecordKeepsSound(c: Config, probes: seq<Probe>, probe: Probe)
    requires Accepts(c) && Sound(c, probes)
    requires InBounds(c, probe.crf) && Lower(c, probes) < probe.crf < Upper(c, probes)
    ensures Sound(c, probes + [probe])
    ensures Lower(c, probes + [probe]) == if probe.score >= c.target then probe.crf else Lower(c, probes)
    ensures Upper(c, probes + [probe]) == if probe.score >= c.target then Upper(c, probes) else probe.crf
  {
    BracketIsOpen(c, probes);
    StillDistinct(probes, probe);
    StillSeparated(c, probes, probe);
    NewEnds(c, probes, probe);
    hide BracketOf, Separated, Distinct;
    assert forall p | p in probes + [probe] :: p in probes || p == probe;
  }

  lemma StillDistinct(probes: seq<Probe>, probe: Probe)
    requires Distinct(probes) && forall p | p in probes :: p.crf != probe.crf
    ensures Distinct(probes + [probe])
  {
    assert forall i | 0 <= i < |probes| :: probes[i] in probes;
  }

  lemma StillSeparated(c: Config, probes: seq<Probe>, probe: Probe)
    requires Accepts(c) && Sound(c, probes) && Lower(c, probes) < probe.crf < Upper(c, probes)
    ensures Separated(probes + [probe], c.target)
  {
    BracketIsOpen(c, probes);
    hide BracketOf, Lower, Upper;
    assert forall p | p in probes + [probe] :: p in probes || p == probe;
  }

  lemma NewEnds(c: Config, probes: seq<Probe>, probe: Probe)
    requires Accepts(c) && Separated(probes, c.target) && Separated(probes + [probe], c.target)
    requires Lower(c, probes) < probe.crf < Upper(c, probes)
    ensures Lower(c, probes + [probe]) == if probe.score >= c.target then probe.crf else Lower(c, probes)
    ensures Upper(c, probes + [probe]) == if probe.score >= c.target then Upper(c, probes) else probe.crf
  {
    hide BracketOf, Separated, Quantize;
    var more := probes + [probe];
    assert forall p | p in more :: p in probes || p == probe;
    assert forall p | p in probes :: p in more;
    assert probe in more;
    BracketIsTight(c, probes);
    BracketIsTight(c, more);
  }

  /** The probes of a run: each was proposed by the search and scored by anyone. */
  ghost predicate Reached(c: Config, initial: int, probes: seq<Probe>)
    requires Accepts(c)
  {
    forall n | 0 <= n < |probes| :: IsNext(c, initial, probes[..n], Some(probes[n].crf))
  }

  /** Soundness of every run, for any scoring at all. */
  lemma {:induction false} EveryRunIsSound(c: Config, initial: int, probes: seq<Probe>)
    requires Accepts(c) && InBounds(c, initial) && Reached(c, initial, probes)
    ensures Sound(c, probes) && |probes| <= c.maxIterations
    ensures probes != [] ==> Upper(c, probes) - Lower(c, probes) < Upper(c, probes[..|probes| - 1]) - Lower(c, probes[..|probes| - 1])
  {
    hide Sound, Lower, Upper, NextFrom, IsSlope;
    if probes == [] {
      NothingIsSound(c);
    } else {
      var n := |probes| - 1;
      assert forall k | 0 <= k < n :: probes[..n][..k] == probes[..k];
      EveryRunIsSound(c, initial, probes[..n]);
      assert IsNext(c, initial, probes[..n], Some(probes[n].crf));
      OneMoreIsSound(c, initial, probes[..n], probes[n]);
      assert probes == probes[..n] + [probes[n]];
    }
  }

  lemma NothingIsSound(c: Config)
    ensures Sound(c, [])
  {
  }

  lemma OneMoreIsSound(c: Config, initial: int, probes: seq<Probe>, probe: Probe)
    requires Accepts(c) && InBounds(c, initial) && Sound(c, probes) && IsNext(c, initial, probes, Some(probe.crf))
    ensures Sound(c, probes + [probe]) && |probes| < c.maxIterations
    ensures Upper(c, probes + [probe]) - Lower(c, probes + [probe]) < Upper(c, probes) - Lower(c, probes)
  {
    hide Sound, Lower, Upper, IsSlope;
    var slope :| LOWEST_SLOPE <= slope <= HIGHEST_SLOPE && Some(probe.crf) == NextFrom(c, initial, probes, slope);
    ProposalsAreNew(c, initial, probes, slope);
    RecordKeepsSound(c, probes, probe);
  }

  // ---- the outcome --------------------------------------------------------------------------

  predicate Monotonic(ordered: seq<Probe>) {
    forall k | 0 <= k < |ordered| - 1 :: ordered[k + 1].score <= ordered[k].score + 0.25
  }

  function OutcomeOf(c: Config, probes: seq<Probe>): Outcome {
    var low := BracketOf(probes, c.target).low;
    var ordered := Ordered(probes);
    var status :=
      if low.None? then TargetUnreachable
      else if low.value.score - c.target <= c.tolerance then Converged
      else if low.value.crf >= HighBound(c) then MaxCrfReached
      else BestEffort;
    Outcome(status, low, ordered, Monotonic(ordered))
  }

  /** The outcome is the greatest passing probe, if there is one. */
  lemma OutcomeIsGreatestPassing(c: Config, probes: seq<Probe>)
    requires Sound(c, probes)
    ensures var o := OutcomeOf(c, probes);
            && (o.chosen.None? <==> forall p | p in probes :: p.score < c.target)
            && (o.chosen.Some? ==> o.chosen.value in probes && o.chosen.value.score >= c.target)
            && (o.chosen.Some? ==> forall p | p in probes && p.score >= c.target :: p.crf <= o.chosen.value.crf)
            && (o.status == TargetUnreachable <==> o.chosen.None?)
            && multiset(o.probes) == multiset(probes) && Ascending(o.probes)
  {
    BracketIsTight(c, probes);
    OrderedIsSorted(probes);
  }

  ghost predicate NonIncreasing(oracle: int -> real) { forall a, b | a <= b :: oracle(a) >= oracle(b) }

  ghost predicate Consistent(probes: seq<Probe>, oracle: int -> real) { forall p | p in probes :: p.score == oracle(p.crf) }

  /** No grid point of the range meets the target. */
  ghost predicate Hopeless(c: Config, oracle: int -> real) { forall q | InBounds(c, q) :: oracle(q) < c.target }

  /** A search that stops by itself is optimal for a score that falls as the CRF rises: close enough
      to the target, or the greatest grid point that meets it, or proof that none does. */
  lemma StoppingIsOptimal(c: Config, initial: int, probes: seq<Probe>, slope: real, oracle: int -> real)
    requires Accepts(c) && Sound(c, probes) && LOWEST_SLOPE <= slope <= HIGHEST_SLOPE
    requires NonIncreasing(oracle) && Consistent(probes, oracle)
    requires |probes| < c.maxIterations && NextFrom(c, initial, probes, slope).None?
    ensures var o := OutcomeOf(c, probes);
            && (o.status == Converged ==> 0.0 <= o.chosen.value.score - c.target <= c.tolerance)
            && (o.status == BestEffort || o.status == MaxCrfReached ==>
                 && oracle(o.chosen.value.crf) >= c.target
                 && forall q | InBounds(c, q) && q > o.chosen.value.crf :: oracle(q) < c.target)
            && (o.status == TargetUnreachable ==> Hopeless(c, oracle))
  {
    BoundsAreOrdered(c);
    BracketIsTight(c, probes);
    if probes != [] {
      assert probes[0] in probes;
    }
    var bracket := BracketOf(probes, c.target);
    var low, high := bracket.low, bracket.high;
    hide BracketOf, Quantize, Ordered;
    if low.None? {
      assert high.value.crf <= LowBound(c);
      forall q | InBounds(c, q) ensures oracle(q) < c.target {
        assert oracle(high.value.crf) >= oracle(q);
      }
    } else if low.value.score - c.target > c.tolerance {
      forall q | InBounds(c, q) && q > low.value.crf ensures oracle(q) < c.target {
        assert high.Some? && high.value.crf <= low.value.crf + 1;
        assert oracle(high.value.crf) >= oracle(q);
      }
    }
  }

  /** Without a passing probe, the scores prove the target out of reach exactly when the lowest CRF
      was probed: otherwise some falling score agrees with every probe and still meets the target.
      A search that ran out of probes may therefore report a reachable target as unreachable. */
  lemma UnreachableIsProvedIffLowestWasProbed(c: Config, probes: seq<Probe>, sample: int -> real)
    requires Accepts(c) && Sound(c, probes) && OutcomeOf(c, probes).status == TargetUnreachable
    requires NonIncreasing(sample) && Consistent(probes, sample)
    ensures (forall oracle | NonIncreasing(oracle) && Consistent(probes, oracle) :: Hopeless(c, oracle)) <==>
            exists p :: p in probes && p.crf == LowBound(c)
  {
    hide Quantize, OutcomeOf, Distinct, Separated;
    BoundsAreOrdered(c);
    OutcomeIsGreatestPassing(c, probes);
    if p :| p in probes && p.crf == LowBound(c) {
      forall oracle | NonIncreasing(oracle) && Consistent(probes, oracle) ensures Hopeless(c, oracle) {
        assert oracle(p.crf) < c.target;
      }
    } else {
      var oracle := (q: int) => if q <= LowBound(c) && sample(q) < c.target then c.target else sample(q);
      assert NonIncreasing(oracle);
      assert Consistent(probes, oracle);
      assert oracle(LowBound(c)) >= c.target && InBounds(c, LowBound(c));
    }
  }

  /** The target is met up to CRF 12 and just missed above. */
  function JustMissed(): int -> real { (q: int) => if q <= 48 then 96.0 else 94.9 }

  function ShortBudget(): Config { Config(95.0, 12.0, 51.0, 3, 0.5) }

  function ThreeMisses(): seq<Probe> { [Probe(204, 94.9), Probe(203, 94.9), Probe(202, 94.9)] }

  /** Such a run: three probes from the top of the range, each just missing a target that the
      bottom of the range meets, and the search reports the target as unreachable. */
  lemma BudgetHidesAReachableTarget()
    ensures Accepts(ShortBudget()) && NonIncreasing(JustMissed()) && Consistent(ThreeMisses(), JustMissed())
    ensures Reached(ShortBudget(), Clamp(ShortBudget(), 51.0), ThreeMisses())
    ensures IsNext(ShortBudget(), Clamp(ShortBudget(), 51.0), ThreeMisses(), None)
    ensures OutcomeOf(ShortBudget(), ThreeMisses()).status == TargetUnreachable && !Hopeless(ShortBudget(), JustMissed())
  {
    hide OutcomeOf, Hopeless, IsNext, Quantize, RoundHalfEven;
    ThreeMissesAreReached();
    ThreeMissesHideTheTarget();
    AnySlope(ShortBudget(), Clamp(ShortBudget(), 51.0), ThreeMisses());
  }

  lemma ThreeMissesHideTheTarget()
    ensures OutcomeOf(ShortBudget(), ThreeMisses()).status == TargetUnreachable && !Hopeless(ShortBudget(), JustMissed())
  {
    var c, probes := ShortBudget(), ThreeMisses();
    assert PassingBelow(probes, c.target, Lowest(Failing(probes, c.target))) == [];
    assert JustMissed()(48) >= c.target && InBounds(c, 48);
  }

  lemma ThreeMissesAreReached()
    ensures Reached(ShortBudget(), Clamp(ShortBudget(), 51.0), ThreeMisses())
  {
    hide IsNext, BracketOf, Quantize, Clamp;
    assert |ThreeMisses()| == 3;
    FirstMiss();
    SecondMiss();
    ThirdMiss();
    assert ThreeMisses()[0].crf == 204 && ThreeMisses()[1].crf == 203 && ThreeMisses()[2].crf == 202;
  }

  lemma FirstMiss()
    ensures Clamp(ShortBudget(), 51.0) == 204
    ensures IsNext(ShortBudget(), 204, ThreeMisses()[..0], Some(204))
  {
    Sorting.SortFew(ThreeMisses()[0], ThreeMisses()[0], AtMost);
    assert Nearest([], 0, 95.0, None);
    assert IsSlope([], 95.0, DEFAULT_SLOPE);
  }

  lemma OneScore()
    ensures IsSlope(ThreeMisses()[..1], 95.0, DEFAULT_SLOPE)
  {
    var one := ThreeMisses()[..1];
    assert one == [Probe(204, 94.9)];
    Sorting.SortFew(one[0], one[0], AtMost);
    assert Nearest(one, 0, 95.0, None);
  }

  lemma TwoEqualScores()
    ensures IsSlope(ThreeMisses()[..2], 95.0, HIGHEST_SLOPE)
  {
    var probes := ThreeMisses();
    assert probes[..2] == [probes[0], probes[1]];
    Sorting.SortFew(probes[0], probes[1], AtMost);
    assert Ordered(probes[..2]) == [probes[1], probes[0]];
    assert Nearest([probes[1], probes[0]], 1, 95.0, Some(0));
  }

  lemma SecondMiss()
    ensures IsNext(ShortBudget(), 204, ThreeMisses()[..1], Some(203))
  {
    OneScore();
    hide IsSlope;
    var c, probes := ShortBudget(), ThreeMisses()[..1];
    assert Failing(probes, c.target) == probes;
    assert BracketOf(probes, c.target) == Bracket(None, Some(probes[0]));
    assert Quantize(Crf(204) - (95.0 - 94.9) / 1.5) == 204;
  }

  lemma ThirdBracket()
    ensures |ThreeMisses()[..2]| == 2 && BracketOf(ThreeMisses()[..2], 95.0) == Bracket(None, Some(Probe(203, 94.9)))
  {
    var probes := ThreeMisses()[..2];
    assert probes[1..] == [Probe(203, 94.9)];
    assert Failing(probes, 95.0) == probes;
  }

  lemma ThirdProposal()
    ensures Downward(ShortBudget(), Probe(203, 94.9), -HIGHEST_SLOPE) == Some(202)
  {
    assert Quantize(Crf(203) - (95.0 - 94.9) / 0.3) == 202;
  }

  lemma ThirdMiss()
    ensures IsNext(ShortBudget(), 204, ThreeMisses()[..2], Some(202))
  {
    hide IsSlope, BracketOf, Downward;
    TwoEqualScores();
    ThirdBracket();
    ThirdProposal();
  }

  lemma AnySlope(c: Config, initial: int, probes: seq<Probe>)
    requires Accepts(c) && |probes| >= c.maxIterations
    ensures IsNext(c, initial, probes, None)
  {
    var ordered := Ordered(probes);
    var n := if ordered == [] then 0 else |ordered| - 1;
    var best := NearestExists(ordered, n, c.target);
    var slope := if best.None? then DEFAULT_SLOPE else Limited(PairSlope(ordered, best.value));
    assert IsSlope(probes, c.target, slope);
  }

  lemma {:induction false} NearestExists(ordered: seq<Probe>, n: nat, target: real) returns (best: Option<nat>)
    requires n < |ordered| || (n == 0 && ordered == [])
    ensures Nearest(ordered, n, target, best)
  {
    if n == 0 {
      best := None;
    } else {
      best := NearestExists(ordered, n - 1, target);
      if Apart(ordered, n - 1) && (best.None? || Distance(ordered, n - 1, target) < Distance(ordered, best.value, target)) {
        best := Some(n - 1);
      }
    }
  }

  // ---- how many probes are enough -----------------------------------------------------------

  /** A whole search against a falling score. */
  ghost predicate Searched(c: Config, initial: int, probes: seq<Probe>, oracle: int -> real)
    requires Accepts(c)
  {
    && NonIncreasing(oracle) && Consistent(probes, oracle)
    && Reached(c, initial, probes) && IsNext(c, initial, probes, None)
  }

  /** No search reports a target as unreachable that some CRF of the range meets. */
  ghost predicate Reliable(c: Config, initial: int)
    requires Accepts(c)
  {
    forall probes, oracle | Searched(c, initial, probes, oracle) && OutcomeOf(c, probes).status == TargetUnreachable ::
      Hopeless(c, oracle)
  }

  lemma BracketOfMisses(c: Config, probes: seq<Probe>)
    requires Sound(c, probes) && probes != [] && forall p | p in probes :: p.score < c.target
    ensures Lower(c, probes) == LowBound(c) - 1
    ensures exists p :: p in probes && p.crf == Upper(c, probes) >= LowBound(c)
    ensures |probes| == 1 ==> Upper(c, probes) == probes[0].crf
  {
    hide BracketOf, Quantize;
    BracketIsTight(c, probes);
    assert probes[0] in probes;
  }

  lemma ReachedBefore(c: Config, initial: int, probes: seq<Probe>, n: nat)
    requires Accepts(c) && Reached(c, initial, probes) && n <= |probes|
    ensures Reached(c, initial, probes[..n])
  {
    hide IsNext;
    assert forall k | 0 <= k < n :: probes[..n][..k] == probes[..k];
  }

  /** Without a passing probe each one lies at least a step below the last. */
  lemma {:induction false} MissesDescend(c: Config, initial: int, probes: seq<Probe>)
    requires Accepts(c) && InBounds(c, initial) && Reached(c, initial, probes) && probes != []
    requires forall p | p in probes :: p.score < c.target
    ensures Lower(c, probes) == LowBound(c) - 1 && Upper(c, probes) <= initial - |probes| + 1
    ensures exists p :: p in probes && p.crf == Upper(c, probes) >= LowBound(c)
  {
    hide Reached, Quantize, Sound, Lower, Upper;
    EveryRunIsSound(c, initial, probes);
    BracketOfMisses(c, probes);
    var n := |probes| - 1;
    if n == 0 {
      FirstProbeIsInitial(c, initial, probes);
    } else {
      ReachedBefore(c, initial, probes, n);
      MissesDescend(c, initial, probes[..n]);
    }
  }

  lemma FirstProbeIsInitial(c: Config, initial: int, probes: seq<Probe>)
    requires Accepts(c) && Reached(c, initial, probes) && probes != []
    ensures probes[0].crf == initial
  {
    assert probes[..0] == [];
    assert IsNext(c, initial, probes[..0], Some(probes[0].crf));
  }

  lemma EnoughProbesFindIt(c: Config, initial: int, probes: seq<Probe>, oracle: int -> real)
    requires Accepts(c) && InBounds(c, initial) && c.maxIterations > initial - LowBound(c)
    requires Searched(c, initial, probes, oracle) && OutcomeOf(c, probes).status == TargetUnreachable
    ensures Hopeless(c, oracle)
  {
    hide Reached, NextFrom, IsSlope, Quantize, OutcomeOf, Sound, Lower, Upper, CloseEnough;
    EveryRunIsSound(c, initial, probes);
    OutcomeIsGreatestPassing(c, probes);
    var slope :| IsSlope(probes, c.target, slope) && LOWEST_SLOPE <= slope <= HIGHEST_SLOPE && None == NextFrom(c, initial, probes, slope);
    StopsIff(c, initial, probes, slope);
    NoneIsClose(c, probes);
    if probes == [] {
      NoProbesNoBracket(c);
    } else {
      MissesDescend(c, initial, probes);
      var p :| p in probes && p.crf == Upper(c, probes) >= LowBound(c);
      assert p.crf == LowBound(c);
      forall q | InBounds(c, q) ensures oracle(q) < c.target {
        assert oracle(p.crf) >= oracle(q);
      }
    }
  }

  lemma NoneIsClose(c: Config, probes: seq<Probe>)
    requires forall p | p in probes :: p.score < c.target
    ensures !CloseEnough(c, probes)
  {
  }

  lemma NoProbesNoBracket(c: Config)
    requires Accepts(c)
    ensures Upper(c, []) - Lower(c, []) > 1
  {
    BoundsAreOrdered(c);
  }

  /** Scores that just miss the target, from `initial` downwards. */
  function NearMisses(c: Config, initial: int, n: nat): (probes: seq<Probe>)
    ensures |probes| == n && forall k | 0 <= k < n :: probes[k] == Probe(initial - k, c.target - 0.01)
  {
    seq(n, k => Probe(initial - k, c.target - 0.01))
  }

  /** Half a hundredth of a step is rounded away. */
  lemma NearMissStaysNear(steps: int, slope: real)
    requires 0.3 <= slope <= 4.0
    ensures Quantize(Crf(steps) - 0.01 / slope) == steps
  {
    assert 0.0 < 0.01 / slope <= 0.04;
    assert (Crf(steps) - 0.01 / slope) * 4.0 == steps as real - 0.01 / slope * 4.0;
  }

  lemma NearMissBracket(c: Config, initial: int, n: nat)
    requires n > 0
    ensures BracketOf(NearMisses(c, initial, n), c.target) == Bracket(None, Some(Probe(initial - n + 1, c.target - 0.01)))
  {
    hide BracketOf;
    var probes := NearMisses(c, initial, n);
    BracketIsTight(c, probes);
    assert probes[n - 1] in probes;
  }

  lemma NearMissGoesOneDown(c: Config, initial: int, n: nat)
    requires Accepts(c) && n < c.maxIterations && initial - n >= LowBound(c)
    ensures IsNext(c, initial, NearMisses(c, initial, n), Some(initial - n))
  {
    hide BracketOf, Quantize, IsSlope;
    var slope := SomeSlope(NearMisses(c, initial, n), c.target);
    if n > 0 {
      NearMissBracket(c, initial, n);
      NearMissStaysNear(initial - n + 1, -slope);
    }
    assert NextFrom(c, initial, NearMisses(c, initial, n), slope) == Some(initial - n);
  }

  lemma SomeSlope(probes: seq<Probe>, target: real) returns (slope: real)
    ensures IsSlope(probes, target, slope) && LOWEST_SLOPE <= slope <= HIGHEST_SLOPE
  {
    var ordered := Ordered(probes);
    var n := if ordered == [] then 0 else |ordered| - 1;
    var best := NearestExists(ordered, n, target);
    slope := if best.None? then DEFAULT_SLOPE else Limited(PairSlope(ordered, best.value));
  }

  /** The target is met up to `last` and just missed above. */
  function MetUpTo(c: Config, last: int): int -> real { (q: int) => if q <= last then c.target else c.target - 0.01 }

  lemma TooFewProbesMissIt(c: Config, initial: int)
    requires Accepts(c) && InBounds(c, initial) && c.maxIterations <= initial - LowBound(c)
    ensures var probes, oracle := NearMisses(c, initial, c.maxIterations), MetUpTo(c, LowBound(c));
            Searched(c, initial, probes, oracle) && OutcomeOf(c, probes).status == TargetUnreachable && !Hopeless(c, oracle)
  {
    hide IsNext, BracketOf, Quantize, Ordered;
    var probes, oracle := NearMisses(c, initial, c.maxIterations), MetUpTo(c, LowBound(c));
    forall n | 0 <= n < |probes| ensures IsNext(c, initial, probes[..n], Some(probes[n].crf)) {
      assert probes[..n] == NearMisses(c, initial, n);
      NearMissGoesOneDown(c, initial, n);
    }
    AnySlope(c, initial, probes);
    NearMissBracket(c, initial, c.maxIterations);
    BoundsAreOrdered(c);
    assert InBounds(c, LowBound(c)) && oracle(LowBound(c)) >= c.target;
  }

  /** The search can be relied on exactly when its budget covers every step from the initial CRF down
      to the lowest: otherwise some falling score hides a CRF that meets the target. */
  lemma ReliableIffBudgetCoversTheWayDown(c: Config, initial: int)
    requires Accepts(c) && InBounds(c, initial)
    ensures Reliable(c, initial) <==> c.maxIterations > initial - LowBound(c)
  {
    hide OutcomeOf, Quantize, Searched, Hopeless;
    if c.maxIterations > initial - LowBound(c) {
      forall probes, oracle | Searched(c, initial, probes, oracle) && OutcomeOf(c, probes).status == TargetUnreachable
        ensures Hopeless(c, oracle)
      {
        EnoughProbesFindIt(c, initial, probes, oracle);
      }
    } else {
      TooFewProbesMissIt(c, initial);
    }
  }

  // ---- the program --------------------------------------------------------------------------

  class CrfSearch {
    const config: Config
    const initialCrf: int
    var probes: seq<Probe>

    constructor (config: Config, initial: real)
      requires Accepts(config)
      ensures this.config == config && initialCrf == Clamp(config, initial) && probes == []
      ensures InBounds(config, initialCrf)
    {
      this.config := config;
      this.initialCrf := Clamp(config, initial);
      probes := [];
      BoundsAreOrdered(config);
    }

    /** Keep a score; an unusable one or a second one for the same CRF is refused. */
    method Record(crf: int, score: Option<real>) returns (r: Result<(), Error>)
      modifies this
      ensures r == Err(NonFinite) <==> score.None?
      ensures r == Err(AlreadyProbed) <==> score.Some? && exists p :: p in old(probes) && p.crf == crf
      ensures probes == if r.Ok? then old(probes) + [Probe(crf, score.value)] else old(probes)
    {
      if score.None? {
        return Err(NonFinite);
      }
      if exists p | p in probes :: p.crf == crf {
        return Err(AlreadyProbed);
      }
      probes := probes + [Probe(crf, score.value)];
      return Ok(());
    }

    method Slope() returns (slope: real)
      ensures IsSlope(probes, config.target, slope) && LOWEST_SLOPE <= slope <= HIGHEST_SLOPE
    {
      hide PairSlope, Distance;
      var ordered := Ordered(probes);
      OrderedIsSorted(probes);
      ghost var best: Option<nat> := None;
      var found: Option<real>, bestDistance: real := None, 0.0;
      var pairs := if ordered == [] then 0 else |ordered| - 1;
      for k := 0 to pairs
        invariant Nearest(ordered, k, config.target, best)
        invariant found.Some? <==> best.Some?
        invariant best.Some? ==> found.value == PairSlope(ordered, best.value) && bestDistance == Distance(ordered, best.value, config.target)
      {
        var left, right := ordered[k], ordered[k + 1];
        if right.crf <= left.crf {
          continue;
        }
        var slope := PairSlope(ordered, k);
        var distance := Distance(ordered, k, config.target);
        if found.None? || distance < bestDistance {
          best, found, bestDistance := Some(k), Some(slope), distance;
        }
      }
      slope := if found.None? then DEFAULT_SLOPE else Limited(found.value);
    }

    /** The next CRF to probe, or `None` when the search is over. */
    method NextCrf() returns (next: Option<int>)
      requires Accepts(config)
      ensures IsNext(config, initialCrf, probes, next)
      // a proposal is new, within the bounds and strictly inside the bracket
      ensures InBounds(config, initialCrf) && Sound(config, probes) && next.Some? ==>
                && InBounds(config, next.value) && Lower(config, probes) < next.value < Upper(config, probes)
                && (forall p | p in probes :: p.crf != next.value) && |probes| < config.maxIterations
      // and there is none exactly when the search has nothing left to do
      ensures InBounds(config, initialCrf) && Sound(config, probes) ==>
                (next.None? <==> |probes| >= config.maxIterations || CloseEnough(config, probes)
                                 || Upper(config, probes) - Lower(config, probes) <= 1)
    {
      hide IsSlope, BracketOf, Quantize, Lower, Upper, Sound, CloseEnough;
      var slope := Slope();
      if InBounds(config, initialCrf) && Sound(config, probes) {
        StopsIff(config, initialCrf, probes, slope);
        if NextFrom(config, initialCrf, probes, slope).Some? {
          ProposalsAreNew(config, initialCrf, probes, slope);
        }
      }
      if |probes| >= config.maxIterations {
        return None;
      }
      if probes == [] {
        return Some(initialCrf);
      }
      var bracket := BracketOf(probes, config.target);
      var low, high := bracket.low, bracket.high;
      if low.Some? && low.value.score - config.target <= config.tolerance {
        return None;
      }
      if low.Some? && high.Some? {
        return Between(config, low.value, high.value);
      }
      if low.Some? {
        return Upward(config, low.value, -slope);
      }
      if high.Some? {
        return Downward(config, high.value, -slope);
      }
      return None;
    }

    /** The worker's loop against any scoring; `None` is a probe without a usable score. */
    method Run(scoring: int -> Option<real>) returns (r: Result<Outcome, Error>)
      requires Accepts(config) && InBounds(config, initialCrf) && probes == []
      modifies this
      ensures Reached(config, initialCrf, probes) && Sound(config, probes)
      ensures forall p | p in probes :: scoring(p.crf) == Some(p.score)
      ensures r.Err? ==> r == Err(NonFinite)
      ensures r.Ok? ==> r.value == OutcomeOf(config, probes) && IsNext(config, initialCrf, probes, None)
    {
      hide IsSlope, BracketOf, Quantize, NextFrom, Sound, OutcomeOf;
      EveryRunIsSound(config, initialCrf, probes);
      var next := NextCrf();
      while next.Some?
        invariant Reached(config, initialCrf, probes) && Sound(config, probes)
        invariant forall p | p in probes :: scoring(p.crf) == Some(p.score)
        invariant IsNext(config, initialCrf, probes, next)
        decreases config.maxIterations - |probes| + (if next.Some? then 1 else 0)
      {
        ghost var before := probes;
        FreshProposal(config, initialCrf, probes, next.value);
        var recorded := Record(next.value, scoring(next.value));
        assert recorded != Err(AlreadyProbed);
        if recorded.Err? {
          return Err(NonFinite);
        }
        assert forall n | 0 <= n < |before| :: probes[..n] == before[..n];
        assert probes[..|before|] == before;
        EveryRunIsSound(config, initialCrf, probes);
        next := NextCrf();
      }
      return Ok(OutcomeOf(config, probes));
    }
  }

  lemma FreshProposal(c: Config, initial: int, probes: seq<Probe>, next: int)
    requires Accepts(c) && InBounds(c, initial) && Sound(c, probes) && IsNext(c, initial, probes, Some(next))
    ensures InBounds(c, next) && |probes| < c.maxIterations && forall p | p in probes :: p.crf != next
  {
    var slope :| LOWEST_SLOPE <= slope <= HIGHEST_SLOPE && Some(next) == NextFrom(c, initial, probes, slope);
    ProposalsAreNew(c, initial, probes, slope);
  }
}
