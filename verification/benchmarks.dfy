/**
 * Server-side helpers of nextjs-temp/src/lib/benchmarks.ts: the
 * good/average/bad classifier and the loader that reads every page file.
 */
module Benchmarks {
  import opened Wrappers
  import opened Types
  import opened Pages

  datatype Level = Good | Average | Bad

  /** Worse levels rank lower. */
  function Rank(l: Level): (n: nat)
    ensures n <= 2
    ensures l == Good <==> n == 2
    ensures l == Bad <==> n == 0
  {
    match l
    case Bad => 0
    case Average => 1
    case Good => 2
  }

  /** `getPerformanceLevel(value, thresholds, higherIsBetter = true)`. */
  function GetPerformanceLevel(value: real, thresholds: Thresholds, higherIsBetter: bool := true): Level {
    if thresholds.good.None? && thresholds.bad.None? then Average
    else if higherIsBetter then
      if thresholds.good.Some? && value >= thresholds.good.value then Good
      else if thresholds.bad.Some? && value < thresholds.bad.value then Bad
      else Average
    else
      if thresholds.good.Some? && value <= thresholds.good.value then Good
      else if thresholds.bad.Some? && value > thresholds.bad.value then Bad
      else Average
  }

  /** The value meets the `good` threshold in the given direction. */
  predicate MeetsGood(value: real, t: Thresholds, higherIsBetter: bool) {
    t.good.Some? && (if higherIsBetter then value >= t.good.value else value <= t.good.value)
  }

  /** The value is past the `bad` threshold in the given direction. */
  predicate PastBad(value: real, t: Thresholds, higherIsBetter: bool) {
    t.bad.Some? && (if higherIsBetter then value < t.bad.value else value > t.bad.value)
  }

  /**
   * The level is Good exactly when the good threshold is met, Bad exactly
   * when it is not but the bad one is passed, and Average otherwise: the
   * good test has precedence, and a missing threshold only skips its test.
   */
  lemma LevelCharacterization(value: real, t: Thresholds, higherIsBetter: bool)
    ensures GetPerformanceLevel(value, t, higherIsBetter) == Good <==> MeetsGood(value, t, higherIsBetter)
    ensures GetPerformanceLevel(value, t, higherIsBetter) == Bad
            <==> !MeetsGood(value, t, higherIsBetter) && PastBad(value, t, higherIsBetter)
    ensures GetPerformanceLevel(value, t, higherIsBetter) == Average
            <==> !MeetsGood(value, t, higherIsBetter) && !PastBad(value, t, higherIsBetter)
  {
  }

  /** With neither threshold the level is Average, whatever the value and direction. */
  lemma NoThresholdsIsAverage(value: real, higherIsBetter: bool)
    ensures GetPerformanceLevel(value, Thresholds(None, None), higherIsBetter) == Average
  {
  }

  function Negate(o: Option<real>): (r: Option<real>)
    ensures r.Some? <==> o.Some?
    ensures r.Some? ==> r.value == -o.value
  {
    if o.Some? then Some(-o.value) else None
  }

  /** Lower-is-better is higher-is-better on the negated value and thresholds. */
  lemma DirectionMirror(value: real, t: Thresholds)
    ensures GetPerformanceLevel(value, t, false)
         == GetPerformanceLevel(-value, Thresholds(Negate(t.good), Negate(t.bad)), true)
  {
  }

  /** Moving a value in the better direction never gives it a worse level. */
  lemma BetterValueNeverWorse(v: real, w: real, t: Thresholds, higherIsBetter: bool)
    requires if higherIsBetter then v <= w else w <= v
    ensures Rank(GetPerformanceLevel(v, t, higherIsBetter)) <= Rank(GetPerformanceLevel(w, t, higherIsBetter))
  {
    LevelCharacterization(v, t, higherIsBetter);
    LevelCharacterization(w, t, higherIsBetter);
  }

  /**
   * `getAllBenchmarks()`: every ".json" entry of the directory that parses,
   * in listing order; nothing when the directory does not exist (`null`).
   */
  method GetAllBenchmarks(dir: PagesDir?) returns (benchmarks: seq<BenchmarkPageData>)
    ensures dir == null ==> benchmarks == []
    ensures dir != null ==> benchmarks == ParsedRecords(JsonNames(dir.names), dir.files)
    ensures dir != null ==> |benchmarks| <= |JsonNames(dir.names)|
  {
    if dir == null {
      return [];
    }
    var files := JsonNames(dir.names);
    var contents := dir.files;
    benchmarks := [];
    for i := 0 to |files|
      invariant benchmarks == ParsedRecords(files[..i], contents)
    {
      var file := files[i];
      if file in contents && contents[file].Parsed? {
        benchmarks := benchmarks + [contents[file].data];
      }
      assert files[..i + 1][..i] == files[..i];
    }
    assert files[..|files|] == files;
  }
}
