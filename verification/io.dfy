/** The pure parts of result I/O: the file-extension choice, the
    file-name sanitiser, and the comparison of a current run against a
    baseline run with its threshold classification. */
module Io {
  import opened Wrappers
  import opened Seqs
  import opened Results

  /** Output format of a saved result file. */
  datatype OutputFormat = Json | JsonPretty | Csv

  /** The extension `save_results` gives the file it writes. */
  function Extension(format: OutputFormat): (ext: string)
    ensures ext == "csv" <==> format == Csv
    ensures ext == "json" <==> format != Csv
  {
    match format
    case Json | JsonPretty => "json"
    case Csv => "csv"
  }

  /** Characters `save_raw_results` treats as path separators. */
  const PathSeparators: set<char> := {'/', '\\', ':'}

  /** The target id as it appears in a raw-result file name: every path
      separator becomes an underscore. */
  function SanitizeId(targetId: string): (name: string)
    ensures |name| == |targetId|
    ensures forall i :: 0 <= i < |targetId| && targetId[i] !in PathSeparators ==> name[i] == targetId[i]
    ensures forall i :: 0 <= i < |targetId| && targetId[i] in PathSeparators ==> name[i] == '_'
    ensures '/' !in name && '\\' !in name && ':' !in name
  {
    ReplaceAllRemovesTargets(targetId, PathSeparators, '_');
    ReplaceAll(targetId, PathSeparators, '_')
  }

  /** Sanitising an already sanitised id changes nothing. */
  lemma SanitizeIdIdempotent(targetId: string)
    ensures SanitizeId(SanitizeId(targetId)) == SanitizeId(targetId)
  {
    ReplaceAllIdempotent(targetId, PathSeparators, '_');
  }

  /** One benchmark's durations in the baseline and the current run. */
  datatype BenchmarkComparison = BenchmarkComparison(
    targetId: string,
    baselineDurationMs: real,
    currentDurationMs: real,
    durationChangePct: real)

  /** All comparisons, in the order of the current run. */
  datatype ComparisonSummary = ComparisonSummary(comparisons: seq<BenchmarkComparison>)

  /** The ids occurring in `results`. */
  function Ids(results: seq<BenchmarkResult>): set<string>
  {
    set j | 0 <= j < |results| :: results[j].targetId
  }

  /** The baseline keyed by target id, built by inserting the entries in
      order, so that a later entry replaces an earlier one with the same
      id. */
  function BaselineIndex(baseline: seq<BenchmarkResult>): (index: map<string, BenchmarkResult>)
    ensures index.Keys == Ids(baseline)
  {
    if |baseline| == 0 then map[]
    else
      var last := baseline[|baseline| - 1];
      var init := baseline[..|baseline| - 1];
      assert Ids(baseline) == Ids(init) + {last.targetId} by {
        forall id | id in Ids(baseline) ensures id in Ids(init) + {last.targetId} {
          var j :| 0 <= j < |baseline| && baseline[j].targetId == id;
          if j < |baseline| - 1 { assert init[j] == baseline[j]; }
        }
        forall id | id in Ids(init) ensures id in Ids(baseline) {
          var j :| 0 <= j < |init| && init[j].targetId == id;
          assert baseline[j] == init[j];
        }
      }
      BaselineIndex(init)[last.targetId := last]
  }

  /** Entry `j` is the last one in `results` with its id. */
  predicate IsLastOccurrence(results: seq<BenchmarkResult>, j: int)
  {
    && 0 <= j < |results|
    && forall k :: j < k < |results| ==> results[k].targetId != results[j].targetId
  }

  /** When baseline ids repeat, the index holds the last entry for each. */
  lemma {:induction false} BaselineLastWins(baseline: seq<BenchmarkResult>, j: int)
    requires IsLastOccurrence(baseline, j)
    ensures baseline[j].targetId in BaselineIndex(baseline)
    ensures BaselineIndex(baseline)[baseline[j].targetId] == baseline[j]
  {
    var n := |baseline|;
    if j < n - 1 {
      var init := baseline[..n - 1];
      assert init[j] == baseline[j];
      assert IsLastOccurrence(init, j);
      BaselineLastWins(init, j);
      assert baseline[n - 1].targetId != baseline[j].targetId;
    }
  }

  /** Every id occurring in `results` has a last occurrence. */
  lemma {:induction false} LastOccurrenceExists(results: seq<BenchmarkResult>, id: string)
    requires id in Ids(results)
    ensures exists j :: IsLastOccurrence(results, j) && results[j].targetId == id
  {
    var n := |results|;
    if results[n - 1].targetId == id {
      assert IsLastOccurrence(results, n - 1);
    } else {
      var init := results[..n - 1];
      var k :| 0 <= k < n && results[k].targetId == id;
      assert init[k] == results[k];
      LastOccurrenceExists(init, id);
      var j :| IsLastOccurrence(init, j) && init[j].targetId == id;
      assert results[j] == init[j];
      assert IsLastOccurrence(results, j);
    }
  }

  /** Conversely, the entry the index holds for an id is the last baseline
      entry with that id. */
  lemma BaselineIndexHoldsLast(baseline: seq<BenchmarkResult>, id: string)
    requires id in Ids(baseline)
    ensures exists j :: IsLastOccurrence(baseline, j) && baseline[j].targetId == id && BaselineIndex(baseline)[id] == baseline[j]
  {
    LastOccurrenceExists(baseline, id);
    var j :| IsLastOccurrence(baseline, j) && baseline[j].targetId == id;
    BaselineLastWins(baseline, j);
  }

  /** `duration_change_pct`: the relative change in percent, or exactly
      zero when the baseline duration is not positive. */
  function ChangePct(baseMs: real, currentMs: real): (pct: real)
    ensures baseMs > 0.0 ==> pct * baseMs == (currentMs - baseMs) * 100.0
    ensures baseMs <= 0.0 ==> pct == 0.0
  {
    if baseMs > 0.0 then ((currentMs - baseMs) / baseMs) * 100.0 else 0.0
  }

  /** Against a positive baseline, "more than 5 % faster" means running
      in under 95 % of the baseline time, and "more than 5 % slower" means
      over 105 %. */
  lemma ChangePctThresholds(baseMs: real, currentMs: real)
    requires baseMs > 0.0
    ensures ChangePct(baseMs, currentMs) < -5.0 <==> currentMs < baseMs * 0.95
    ensures ChangePct(baseMs, currentMs) > 5.0 <==> currentMs > baseMs * 1.05
    ensures ChangePct(baseMs, currentMs) < 0.0 <==> currentMs < baseMs
  {
    var pct := ChangePct(baseMs, currentMs);
    assert pct * baseMs == (currentMs - baseMs) * 100.0;
    assert pct < -5.0 <==> pct * baseMs < -5.0 * baseMs;
    assert pct > 5.0 <==> pct * baseMs > 5.0 * baseMs;
    assert pct < 0.0 <==> pct * baseMs < 0.0;
  }

  /** The comparison of one current entry with its baseline entry. */
  function Compare(base: BenchmarkResult, current: BenchmarkResult): (c: BenchmarkComparison)
    ensures c.targetId == current.targetId
    ensures c.baselineDurationMs == base.metrics.durationMs
    ensures c.currentDurationMs == current.metrics.durationMs
    ensures c.durationChangePct == ChangePct(base.metrics.durationMs, current.metrics.durationMs)
  {
    BenchmarkComparison(current.targetId, base.metrics.durationMs, current.metrics.durationMs,
                        ChangePct(base.metrics.durationMs, current.metrics.durationMs))
  }

  /** The loop of `compare_results`: one comparison per current entry whose
      id is in the index, in the order of `current`. */
  function Comparisons(index: map<string, BenchmarkResult>, current: seq<BenchmarkResult>): (cs: seq<BenchmarkComparison>)
    ensures |cs| <= |current|
    ensures forall i :: 0 <= i < |cs| ==>
              && cs[i].targetId in index
              && cs[i].baselineDurationMs == index[cs[i].targetId].metrics.durationMs
              && cs[i].durationChangePct == ChangePct(cs[i].baselineDurationMs, cs[i].currentDurationMs)
  {
    if |current| == 0 then []
    else
      var last := current[|current| - 1];
      Comparisons(index, current[..|current| - 1])
        + (if last.targetId in index then [Compare(index[last.targetId], last)] else [])
  }

  /** The positions of `current` whose id is in the index, increasing. */
  function MatchedPositions(index: map<string, BenchmarkResult>, current: seq<BenchmarkResult>): (pos: seq<nat>)
    ensures forall i :: 0 <= i < |pos| ==> pos[i] < |current| && current[pos[i]].targetId in index
    ensures forall i, k :: 0 <= i < k < |pos| ==> pos[i] < pos[k]
    ensures forall j :: 0 <= j < |current| && current[j].targetId in index ==> j in pos
  {
    if |current| == 0 then []
    else
      var n := |current| - 1;
      MatchedPositions(index, current[..n]) + (if current[n].targetId in index then [n] else [])
  }

  /** Exactly the current entries with a baseline are compared, each once,
      in the order of `current`: comparison `i` is the comparison of the
      `i`-th matched position. */
  lemma {:induction false} ComparisonsFollowCurrent(index: map<string, BenchmarkResult>, current: seq<BenchmarkResult>)
    ensures
      var cs := Comparisons(index, current);
      var pos := MatchedPositions(index, current);
      && |cs| == |pos|
      && forall i :: 0 <= i < |cs| ==>
           cs[i] == Compare(index[current[pos[i]].targetId], current[pos[i]])
  {
    if |current| > 0 {
      var n := |current| - 1;
      ComparisonsFollowCurrent(index, current[..n]);
      var pos0 := MatchedPositions(index, current[..n]);
      forall i | 0 <= i < |pos0| ensures current[..n][pos0[i]] == current[pos0[i]] { }
    }
  }

  /** `compare_results`. */
  function CompareResults(baseline: seq<BenchmarkResult>, current: seq<BenchmarkResult>): (summary: ComparisonSummary)
    ensures |summary.comparisons| <= |current|
    ensures forall i :: 0 <= i < |summary.comparisons| ==> summary.comparisons[i].targetId in Ids(baseline)
  {
    ComparisonSummary(Comparisons(BaselineIndex(baseline), current))
  }

  /** The join of `compare_results`: one comparison per current entry whose
      id occurs in the baseline, each once, in the order of `current`, made
      from that entry and the baseline entry the index holds for its id. */
  lemma CompareResultsJoin(baseline: seq<BenchmarkResult>, current: seq<BenchmarkResult>)
    ensures
      var cs := CompareResults(baseline, current).comparisons;
      var index := BaselineIndex(baseline);
      var pos := MatchedPositions(index, current);
      && |cs| == |pos|
      && forall i :: 0 <= i < |cs| ==> cs[i] == Compare(index[current[pos[i]].targetId], current[pos[i]])
  {
    ComparisonsFollowCurrent(BaselineIndex(baseline), current);
  }

  /** `c` takes its baseline duration from the last baseline entry with
      its id. */
  ghost predicate FromLastBaseline(baseline: seq<BenchmarkResult>, c: BenchmarkComparison)
  {
    exists j :: IsLastOccurrence(baseline, j) && baseline[j].targetId == c.targetId
                && c.baselineDurationMs == baseline[j].metrics.durationMs
  }

  /** Every comparison takes its baseline duration from the last baseline
      entry with its id. */
  lemma CompareResultsUsesLastBaseline(baseline: seq<BenchmarkResult>, current: seq<BenchmarkResult>)
    ensures forall c :: c in CompareResults(baseline, current).comparisons ==> FromLastBaseline(baseline, c)
  {
    var index := BaselineIndex(baseline);
    var cs := Comparisons(index, current);
    forall c | c in cs
      ensures FromLastBaseline(baseline, c)
    {
      var i :| 0 <= i < |cs| && cs[i] == c;
      BaselineIndexHoldsLast(baseline, c.targetId);
      var j :| IsLastOccurrence(baseline, j) && baseline[j].targetId == c.targetId && index[c.targetId] == baseline[j];
      assert c.baselineDurationMs == baseline[j].metrics.durationMs;
    }
  }

  /** `|x|` over the reals. */
  function Abs(x: real): real
  {
    if x < 0.0 then -x else x
  }

  /** More than 5 % faster. */
  predicate IsImprovement(c: BenchmarkComparison) { c.durationChangePct < -5.0 }

  /** More than 5 % slower. */
  predicate IsRegression(c: BenchmarkComparison) { c.durationChangePct > 5.0 }

  /** Within 5 % either way. */
  predicate IsUnchanged(c: BenchmarkComparison) { Abs(c.durationChangePct) <= 5.0 }

  /** `ComparisonSummary::improvements`. */
  function Improvements(summary: ComparisonSummary): (r: seq<BenchmarkComparison>)
    ensures forall c :: c in r <==> c in summary.comparisons && c.durationChangePct < -5.0
    ensures SubsequenceOf(r, summary.comparisons)
  {
    FilterIsSubsequence(summary.comparisons, IsImprovement);
    Filter(summary.comparisons, IsImprovement)
  }

  /** `ComparisonSummary::regressions`. */
  function Regressions(summary: ComparisonSummary): (r: seq<BenchmarkComparison>)
    ensures forall c :: c in r <==> c in summary.comparisons && c.durationChangePct > 5.0
    ensures SubsequenceOf(r, summary.comparisons)
  {
    FilterIsSubsequence(summary.comparisons, IsRegression);
    Filter(summary.comparisons, IsRegression)
  }

  /** `ComparisonSummary::unchanged`. */
  function Unchanged(summary: ComparisonSummary): (r: seq<BenchmarkComparison>)
    ensures forall c :: c in r <==> c in summary.comparisons && -5.0 <= c.durationChangePct <= 5.0
    ensures SubsequenceOf(r, summary.comparisons)
  {
    FilterIsSubsequence(summary.comparisons, IsUnchanged);
    Filter(summary.comparisons, IsUnchanged)
  }

  /** Every comparison falls in exactly one of the three classes. */
  lemma ClassesExclusive(c: BenchmarkComparison)
    ensures IsImprovement(c) || IsRegression(c) || IsUnchanged(c)
    ensures !(IsImprovement(c) && IsRegression(c))
    ensures !(IsImprovement(c) && IsUnchanged(c))
    ensures !(IsRegression(c) && IsUnchanged(c))
  {
  }

  /** The three classes share the comparisons out: disjoint, and together
      as many as there are comparisons. */
  lemma ClassificationPartition(summary: ComparisonSummary)
    ensures |Improvements(summary)| + |Regressions(summary)| + |Unchanged(summary)| == |summary.comparisons|
    ensures forall c :: c in Improvements(summary) ==> c !in Regressions(summary) && c !in Unchanged(summary)
    ensures forall c :: c in Regressions(summary) ==> c !in Unchanged(summary)
  {
    forall c | c in summary.comparisons { ClassesExclusive(c); }
    FilterPartition3(summary.comparisons, IsImprovement, IsRegression, IsUnchanged);
  }

  /** A successful result with only a duration, as the crate's tests build. */
  function TestResult(id: string, durationMs: real): BenchmarkResult
  {
    SuccessResult(id, NewMetrics(durationMs))
  }

  /** Baselines 100 and 200 against currents 80 and 220 give two
      comparisons: one improvement (-20 %) and one regression (+10 %). */
  lemma CompareResultsExample()
    ensures
      var summary := CompareResults([TestResult("test1", 100.0), TestResult("test2", 200.0)],
                                    [TestResult("test1", 80.0), TestResult("test2", 220.0)]);
      && |summary.comparisons| == 2
      && |Improvements(summary)| == 1
      && |Regressions(summary)| == 1
  {
    var baseline := [TestResult("test1", 100.0), TestResult("test2", 200.0)];
    var current := [TestResult("test1", 80.0), TestResult("test2", 220.0)];
    var index := BaselineIndex(baseline);
    assert "test1" != "test2";
    assert index == map["test1" := baseline[0], "test2" := baseline[1]];
    assert current[..1] == [current[0]];
    assert current[..1][..0] == [];
    assert Comparisons(index, current[..1]) == [Compare(baseline[0], current[0])];
    var cs := Comparisons(index, current);
    assert cs == [Compare(baseline[0], current[0]), Compare(baseline[1], current[1])];
    assert cs[0].durationChangePct == -20.0;
    assert cs[1].durationChangePct == 10.0;
    var summary := ComparisonSummary(cs);
    assert Filter(cs, IsImprovement) == [cs[0]] by { assert cs[..1] == [cs[0]]; }
    assert Filter(cs, IsRegression) == [cs[1]] by { assert cs[..1] == [cs[0]]; }
  }
}
