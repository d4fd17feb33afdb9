/**
 `build_chronological_periods` of src/experiment_manager.py over bar positions.
 The week key of each bar is given; negative positions index from the end, as in
 Python.
 */
module ChronologicalSplit {
  import opened Common
  import opened Numbers

  datatype Period = Period(first: int, last: int)
  datatype Periods = Periods(training: Period, validation: Period, finalTest: Period, folds: seq<Period>)

  datatype Error = BadFractions | NoFinalTest | BadFolds | FewWeeks | TooShort | FoldsTooShort

  function Position(n: nat, i: int): int {
    if i < 0 then n + i else i
  }

  /** The week changes after position i. */
  predicate WeekEnd(week: seq<int>, i: int) {
    -1 <= i < |week| - 1 && week[Position(|week|, i)] != week[i + 1]
  }

  /** Positions in `range(low, high)` after which the week changes. */
  function WeekEnds(week: seq<int>, low: int, high: int): seq<int>
    decreases high - low
  {
    if high <= low then []
    else WeekEnds(week, low, high - 1) + (if WeekEnd(week, high - 1) then [high - 1] else [])
  }

  /** The last week end after the start and not after the target. */
  function LastWithin(ends: seq<int>, start: int, target: int): Option<int> {
    if ends == [] then None
    else if start < ends[|ends| - 1] <= target then Some(ends[|ends| - 1])
    else LastWithin(ends[..|ends| - 1], start, target)
  }

  function Boundary(ends: seq<int>, start: int, usable: int, fraction: real): Option<int> {
    LastWithin(ends, start, start + (usable as real * fraction).Floor - 1)
  }

  /** Where section i of `array_split` starts: the first n mod k sections are one longer. */
  function SectionStart(n: nat, k: nat, i: nat): nat
    requires 0 < k && i <= k
  {
    if i == 0 then 0 else SectionStart(n, k, i - 1) + SectionSize(n, k, i - 1)
  }

  function SectionSize(n: nat, k: nat, i: nat): nat
    requires 0 < k
  {
    if i < n % k then n / k + 1 else n / k
  }

  function Folds(first: int, n: nat, k: nat, count: nat): seq<Period>
    requires 0 < k && count <= k
  {
    if count == 0 then []
    else
      Folds(first, n, k, count - 1)
      + [Period(first + SectionStart(n, k, count - 1), first + SectionStart(n, k, count) - 1)]
  }

  /** `build_chronological_periods`. */
  function BuildPeriods(week: seq<int>, lookback: nat, train: real, validation: real, folds: int): Result<Periods, Error> {
    if !(0.0 < train < 1.0) || !(0.0 < validation < 1.0) then Err(BadFractions)
    else if train + validation >= 1.0 then Err(NoFinalTest)
    else if folds < 1 then Err(BadFolds)
    else
      var n := |week|;
      var ends := WeekEnds(week, lookback - 1, n - 1);
      if |ends| < 6 then Err(FewWeeks)
      else
        var start := ends[0];
        var usable := n - start;
        var trainingEnd := Boundary(ends, start, usable, train);
        var validationEnd := Boundary(ends, start, usable, train + validation);
        if trainingEnd.None? || validationEnd.None? then Err(TooShort)
        else if validationEnd.value - trainingEnd.value < folds then Err(FoldsTooShort)
        else Ok(Periods(
          Period(Position(n, start), Position(n, trainingEnd.value)),
          Period(trainingEnd.value + 1, validationEnd.value),
          Period(validationEnd.value + 1, n - 1),
          Folds(trainingEnd.value + 1, validationEnd.value - trainingEnd.value, folds, folds)))
  }

  // ---------------------------------------------------------------- properties

  lemma {:induction false} WeekEndsAre(week: seq<int>, low: int, high: int)
    ensures forall p :: p in WeekEnds(week, low, high) <==> low <= p < high && WeekEnd(week, p)
    ensures Increasing(WeekEnds(week, low, high))
    decreases high - low
  {
    if low < high {
      WeekEndsAre(week, low, high - 1);
      var rest := WeekEnds(week, low, high - 1);
      forall i | 0 <= i < |rest|
        ensures rest[i] < high - 1
      {
        assert rest[i] in rest;
      }
    }
  }

  lemma {:induction false} LastWithinIs(ends: seq<int>, start: int, target: int)
    requires Increasing(ends)
    ensures match LastWithin(ends, start, target)
            case Some(p) => p in ends && start < p <= target && forall q :: q in ends && start < q <= target ==> q <= p
            case None => forall q :: q in ends ==> !(start < q <= target)
  {
    if ends != [] {
      LastWithinIs(ends[..|ends| - 1], start, target);
      assert ends == ends[..|ends| - 1] + [ends[|ends| - 1]];
    }
  }

  lemma {:induction false} SectionStarts(n: nat, k: nat, i: nat)
    requires 0 < k && i <= k
    ensures SectionStart(n, k, i) == i * (n / k) + (if i <= n % k then i else n % k)
  {
    if i > 0 {
      SectionStarts(n, k, i - 1);
      assert i * (n / k) == (i - 1) * (n / k) + n / k;
    }
  }

  /** The sections end exactly at n. */
  lemma SectionsCover(n: nat, k: nat)
    requires 0 < k
    ensures SectionStart(n, k, k) == n
  {
    SectionStarts(n, k, k);
    assert n == k * (n / k) + n % k;
  }

  /** Consecutive nonempty folds from first to last, their sizes equal or one apart, longer ones first. */
  predicate Partition(folds: seq<Period>, first: int, last: int) {
    && folds != [] && folds[0].first == first && folds[|folds| - 1].last == last
    && (forall i :: 0 <= i < |folds| ==> folds[i].first <= folds[i].last)
    && (forall i :: 0 <= i < |folds| - 1 ==> folds[i + 1].first == folds[i].last + 1)
    && forall i, j :: 0 <= i < j < |folds| ==> 0 <= Size(folds[i]) - Size(folds[j]) <= 1
  }

  function Size(p: Period): int {
    p.last - p.first + 1
  }

  lemma {:induction false} FoldsAre(first: int, n: nat, k: nat, count: nat)
    requires 0 < k && count <= k
    ensures |Folds(first, n, k, count)| == count
    ensures forall i :: 0 <= i < count ==>
              Folds(first, n, k, count)[i] == Period(first + SectionStart(n, k, i), first + SectionStart(n, k, i + 1) - 1)
  {
    if count > 0 {
      FoldsAre(first, n, k, count - 1);
    }
  }

  lemma SectionSizes(n: nat, k: nat, i: nat, j: nat)
    requires 0 < k <= n && i <= j
    ensures 1 <= SectionSize(n, k, j) && 0 <= SectionSize(n, k, i) - SectionSize(n, k, j) <= 1
    ensures SectionStart(n, k, 0) == 0 && (i < k ==> SectionStart(n, k, i + 1) == SectionStart(n, k, i) + SectionSize(n, k, i))
  {
    EnoughForEach(n, k);
  }

  /** Fold i, its size and where the next one starts. */
  lemma FoldAt(first: int, n: nat, k: nat, i: nat)
    requires 0 < k <= n && i < k
    ensures var folds := Folds(first, n, k, k);
            && |folds| == k && folds[i].first == first + SectionStart(n, k, i)
            && Size(folds[i]) == SectionSize(n, k, i) && 1 <= SectionSize(n, k, i)
            && folds[i].last + 1 == first + SectionStart(n, k, i + 1)
  {
    hide Folds;
    FoldsAre(first, n, k, k);
    SectionSizes(n, k, i, i);
  }

  lemma FoldsPartition(first: int, n: nat, k: nat)
    requires 0 < k <= n
    ensures Partition(Folds(first, n, k, k), first, first + n - 1)
  {
    hide SectionStart, SectionSize, Folds;
    var folds := Folds(first, n, k, k);
    FoldAt(first, n, k, 0);
    FoldAt(first, n, k, k - 1);
    SectionSizes(n, k, 0, 0);
    SectionsCover(n, k);
    forall i | 0 <= i < k
      ensures folds[i].first <= folds[i].last
      ensures i < k - 1 ==> folds[i + 1].first == folds[i].last + 1
    {
      FoldAt(first, n, k, i);
      if i < k - 1 {
        FoldAt(first, n, k, i + 1);
      }
    }
    forall i, j | 0 <= i < j < k
      ensures 0 <= Size(folds[i]) - Size(folds[j]) <= 1
    {
      FoldAt(first, n, k, i);
      FoldAt(first, n, k, j);
      SectionSizes(n, k, i, j);
    }
  }

  lemma EnoughForEach(n: nat, k: nat)
    requires 0 < k <= n
    ensures 1 <= n / k
  {
    assert n == k * (n / k) + n % k;
    if n / k < 1 {
      assert false;
    }
  }

  predicate Nonempty(p: Period) {
    p.first <= p.last
  }

  /**
   A proper split of the bars from `first` to the last one: three nonempty,
   adjacent periods in order, the first two ending where a week ends, and folds
   that partition the middle one.
   */
  predicate Proper(week: seq<int>, p: Periods, first: int) {
    && 0 <= first < |week|
    && p.training.first == first && Nonempty(p.training)
    && p.validation.first == p.training.last + 1 && Nonempty(p.validation)
    && p.finalTest.first == p.validation.last + 1 && Nonempty(p.finalTest)
    && p.finalTest.last == |week| - 1
    && WeekEnd(week, p.training.last) && WeekEnd(week, p.validation.last)
    && Partition(p.folds, p.validation.first, p.validation.last)
  }

  /** The first usable week end, for a positive lookback. */
  ghost predicate FirstUsable(week: seq<int>, lookback: nat, first: int) {
    && lookback - 1 <= first < |week| - 1 && 0 <= first && WeekEnd(week, first)
    && forall p :: lookback - 1 <= p < first && 0 <= p ==> !WeekEnd(week, p)
  }

  lemma SplitShape(week: seq<int>, lookback: nat, train: real, validation: real, folds: int)
    requires BuildPeriods(week, lookback, train, validation, folds).Ok?
    ensures var p := BuildPeriods(week, lookback, train, validation, folds).value;
            var ends := WeekEnds(week, lookback - 1, |week| - 1);
            && |ends| >= 6 && p.training.first == Position(|week|, ends[0])
            && ends[0] < p.training.last && 0 <= p.training.last < |week| - 1 && WeekEnd(week, p.training.last)
            && p.validation == Period(p.training.last + 1, p.validation.last) && Nonempty(p.validation)
            && p.validation.last < |week| - 1 && WeekEnd(week, p.validation.last)
            && p.finalTest == Period(p.validation.last + 1, |week| - 1)
            && Partition(p.folds, p.validation.first, p.validation.last)
  {
    hide Partition, Folds, Boundary, WeekEnds, WeekEnd, Increasing;
    var n := |week|;
    var ends := WeekEnds(week, lookback - 1, n - 1);
    WeekEndsAre(week, lookback - 1, n - 1);
    var start := ends[0];
    assert start in ends;
    var usable := n - start;
    BoundaryIs(ends, start, usable, train);
    BoundaryIs(ends, start, usable, train + validation);
    var te := Boundary(ends, start, usable, train).value;
    var ve := Boundary(ends, start, usable, train + validation).value;
    FoldsPartition(te + 1, ve - te, folds);
  }

  lemma BoundaryIs(ends: seq<int>, start: int, usable: int, fraction: real)
    requires Increasing(ends)
    ensures Boundary(ends, start, usable, fraction).Some? ==>
              Boundary(ends, start, usable, fraction).value in ends && start < Boundary(ends, start, usable, fraction).value
  {
    LastWithinIs(ends, start, start + (usable as real * fraction).Floor - 1);
  }

  /**
   Whenever the function returns, the split is proper and starts at the first
   usable week end, exactly when the lookback is positive or the week does not
   change from the last bar back to the first.
   */
  lemma SplitProperExactly(week: seq<int>, lookback: nat, train: real, validation: real, folds: int)
    requires BuildPeriods(week, lookback, train, validation, folds).Ok?
    ensures var p := BuildPeriods(week, lookback, train, validation, folds).value;
            (exists first :: FirstUsable(week, lookback, first) && Proper(week, p, first))
            <==> lookback >= 1 || week[|week| - 1] == week[0]
  {
    hide BuildPeriods, WeekEnds, Partition, WeekEnd;
    SplitShape(week, lookback, train, validation, folds);
    var p := BuildPeriods(week, lookback, train, validation, folds).value;
    var ends := WeekEnds(week, lookback - 1, |week| - 1);
    WeekEndsAre(week, lookback - 1, |week| - 1);
    assert ends[0] in ends;
    LastToFirst(week);
    if ends[0] == -1 {
      assert WeekEnd(week, -1);
    } else {
      FirstIsLeast(ends);
      assert FirstUsable(week, lookback, ends[0]);
      assert Proper(week, p, ends[0]);
      assert lookback == 0 ==> -1 !in ends;
    }
  }

  /**
   When a split is returned, exactly: the fractions are proper and leave a final
   test, there is at least one fold, at least six usable weeks end, both sections
   reach a week end after the first, and validation has a bar for every fold.
   Otherwise the first of these that fails is the error.
   */
  lemma SplitReturnsExactly(week: seq<int>, lookback: nat, train: real, validation: real, folds: int)
    ensures var r := BuildPeriods(week, lookback, train, validation, folds);
            var ends := WeekEnds(week, lookback - 1, |week| - 1);
            var proper := 0.0 < train && train < 1.0 && 0.0 < validation && validation < 1.0;
            && (r == Err(BadFractions) <==> !proper)
            && (r == Err(NoFinalTest) <==> proper && 1.0 <= train + validation)
            && (r == Err(BadFolds) <==> proper && train + validation < 1.0 && folds <= 0)
            && (r == Err(FewWeeks) <==> proper && train + validation < 1.0 && 0 < folds && |ends| <= 5)
            && (proper && train + validation < 1.0 && 0 < folds && 6 <= |ends| ==>
                  var start := ends[0];
                  var first := LastWithin(ends, start, Target(week, start, train));
                  var second := LastWithin(ends, start, Target(week, start, train + validation));
                  && (r == Err(TooShort) <==> first.None? || second.None?)
                  && (r == Err(FoldsTooShort) <==> first.Some? && second.Some? && second.value - first.value < folds)
                  && (r.Ok? <==> first.Some? && second.Some? && folds <= second.value - first.value))
  {
    hide WeekEnds, LastWithin, Folds;
  }

  /**
   The failing side is real: six bars of six different weeks, lookback zero. The
   training period starts at the last bar and ends at the first.
   */
  lemma ZeroLookbackWraps()
    ensures var week := [0, 1, 2, 3, 4, 5];
            && week[|week| - 1] != week[0]
            && BuildPeriods(week, 0, 0.4, 0.3, 1) == Ok(Periods(Period(5, 0), Period(1, 2), Period(3, 5), [Period(1, 2)]))
  {
    var week := [0, 1, 2, 3, 4, 5];
    assert WeekEnds(week, -1, 0) == [-1];
    assert WeekEnds(week, -1, 1) == [-1, 0];
    assert WeekEnds(week, -1, 2) == [-1, 0, 1];
    assert WeekEnds(week, -1, 3) == [-1, 0, 1, 2];
    assert WeekEnds(week, -1, 4) == [-1, 0, 1, 2, 3];
    var ends := [-1, 0, 1, 2, 3, 4];
    assert WeekEnds(week, -1, 5) == ends;
    assert LastWithin([-1, 0], -1, 0) == Some(0);
    assert [-1, 0, 1][..2] == [-1, 0] && LastWithin([-1, 0, 1], -1, 0) == Some(0);
    assert [-1, 0, 1, 2][..3] == [-1, 0, 1] && LastWithin([-1, 0, 1, 2], -1, 0) == Some(0);
    assert LastWithin([-1, 0, 1, 2], -1, 2) == Some(2);
    assert [-1, 0, 1, 2, 3][..4] == [-1, 0, 1, 2];
    assert LastWithin([-1, 0, 1, 2, 3], -1, 0) == Some(0) && LastWithin([-1, 0, 1, 2, 3], -1, 2) == Some(2);
    assert ends[..5] == [-1, 0, 1, 2, 3];
    assert LastWithin(ends, -1, 0) == Some(0) && LastWithin(ends, -1, 2) == Some(2);
    assert (7 as real * 0.4).Floor == 2 && (7 as real * (0.4 + 0.3)).Floor == 4;
    assert Boundary(ends, -1, 7, 0.4) == Some(0) && Boundary(ends, -1, 7, 0.4 + 0.3) == Some(2);
    assert Folds(1, 2, 1, 0) == [];
    assert Folds(1, 2, 1, 1) == [Period(1, 2)] by {
      SectionsCover(2, 1);
    }
  }

  lemma LastToFirst(week: seq<int>)
    requires week != []
    ensures WeekEnd(week, -1) <==> week[|week| - 1] != week[0]
  {
  }

  lemma FirstIsLeast(ends: seq<int>)
    requires Increasing(ends) && ends != []
    ensures forall p :: p in ends ==> ends[0] <= p
  {
  }

  /** Position of the bar a fraction of the usable history reaches. */
  function Target(week: seq<int>, start: int, fraction: real): int {
    start + ((|week| - start) as real * fraction).Floor - 1
  }

  /** `end` is the latest week end after the start and within the target. */
  ghost predicate LatestWeekEnd(week: seq<int>, start: int, target: int, end: int) {
    && WeekEnd(week, end) && start < end <= target
    && forall p :: WeekEnd(week, p) && start < p <= target ==> p <= end
  }

  /** Training and validation each run to the latest week end within their share of the usable bars. */
  lemma BoundariesAreLatest(week: seq<int>, lookback: nat, train: real, validation: real, folds: int)
    requires BuildPeriods(week, lookback, train, validation, folds).Ok?
    ensures var p := BuildPeriods(week, lookback, train, validation, folds).value;
            var start := WeekEnds(week, lookback - 1, |week| - 1)[0];
            && LatestWeekEnd(week, start, Target(week, start, train), p.training.last)
            && LatestWeekEnd(week, start, Target(week, start, train + validation), p.validation.last)
  {
    hide Partition, Folds, Boundary, WeekEnds, WeekEnd, Increasing, Target;
    var ends := WeekEnds(week, lookback - 1, |week| - 1);
    WeekEndsAre(week, lookback - 1, |week| - 1);
    var start := ends[0];
    assert start in ends;
    BoundaryLatest(week, lookback, start, train);
    BoundaryLatest(week, lookback, start, train + validation);
  }

  lemma BoundaryLatest(week: seq<int>, lookback: nat, start: int, fraction: real)
    requires -1 <= start && lookback - 1 <= start
    ensures var end := Boundary(WeekEnds(week, lookback - 1, |week| - 1), start, |week| - start, fraction);
            end.Some? ==> LatestWeekEnd(week, start, Target(week, start, fraction), end.value) && 0 <= end.value
  {
    hide WeekEnds, WeekEnd, Increasing, LastWithin;
    var ends := WeekEnds(week, lookback - 1, |week| - 1);
    WeekEndsAre(week, lookback - 1, |week| - 1);
    LastWithinIs(ends, start, Target(week, start, fraction));
    forall p | WeekEnd(week, p)
      ensures p < |week| - 1
    {
      WeekEndInside(week, p);
    }
  }

  lemma WeekEndInside(week: seq<int>, p: int)
    requires WeekEnd(week, p)
    ensures -1 <= p < |week| - 1
  {
  }
}
