/** The structure of the three Markdown documents the crate renders: the
    results report, the baseline comparison report and the pull-request
    comment. A document is modelled as a record of its sections (absent
    sections are `None`) holding structured rows; the exact text, number
    formatting and the generation timestamp are not modelled. */
module Markdown {
  import opened Wrappers
  import opened Seqs
  import opened Results
  import opened Io

  // ---------------------------------------------------------------------
  // Results report (`generate_report`)
  // ---------------------------------------------------------------------

  /** The status marks of the results table: ✓, ✗ and ⊘. */
  datatype StatusIcon = CheckMark | CrossMark | SkipMark

  function IconOf(status: BenchmarkStatus): StatusIcon
  {
    match status
    case Success => CheckMark
    case Failed => CrossMark
    case Skipped => SkipMark
  }

  /** Different statuses get different marks, so a row's mark tells its
      status. */
  lemma IconOfInjective(a: BenchmarkStatus, b: BenchmarkStatus)
    ensures IconOf(a) == IconOf(b) <==> a == b
  {
  }

  /** The number of results with a given status. */
  function CountSuccessful(results: seq<BenchmarkResult>): nat { |Filter(results, IsSuccessResult)| }
  function CountFailed(results: seq<BenchmarkResult>): nat { |Filter(results, IsFailedResult)| }
  function CountSkipped(results: seq<BenchmarkResult>): nat { |Filter(results, IsSkippedResult)| }

  /** Every result has exactly one status, so the three counts add up to
      the number of results. */
  lemma {:induction false} StatusCountsPartition(results: seq<BenchmarkResult>)
    ensures CountSuccessful(results) + CountFailed(results) + CountSkipped(results) == |results|
  {
    forall r | r in results
      ensures IsSuccessResult(r) || IsFailedResult(r) || IsSkippedResult(r)
    {
      StatusPredicates(r);
    }
    FilterPartition3(results, IsSuccessResult, IsFailedResult, IsSkippedResult);
  }

  /** The "Summary" section. The "Failed" and "Skipped" lines are printed
      only when their count is positive; `None` stands for a line that is
      not printed. */
  datatype SummarySection = SummarySection(
    total: nat,
    successful: nat,
    failedLine: Option<nat>,
    skippedLine: Option<nat>)

  /** The summary counts. The skipped count is computed, as in the crate,
      as `total - successful - failed`; it never goes negative and equals
      the number of skipped results. */
  function Summarize(results: seq<BenchmarkResult>): (s: SummarySection)
    ensures s.total == |results|
    ensures s.successful == CountSuccessful(results)
    ensures s.failedLine.Some? <==> CountFailed(results) > 0
    ensures s.failedLine.Some? ==> s.failedLine.value == CountFailed(results)
    ensures s.skippedLine.Some? <==> CountSkipped(results) > 0
    ensures s.skippedLine.Some? ==> s.skippedLine.value == CountSkipped(results)
  {
    var total := |results|;
    var successful := CountSuccessful(results);
    var failed := CountFailed(results);
    StatusCountsPartition(results);
    var skipped := total - successful - failed;
    SummarySection(total, successful,
                   if failed > 0 then Some(failed) else None,
                   if skipped > 0 then Some(skipped) else None)
  }

  /** One row of the "Results" table. */
  datatype ResultRow = ResultRow(
    targetId: string,
    icon: StatusIcon,
    durationMs: real,
    throughputOpsPerSec: Option<real>,
    memoryBytes: Option<U64>)

  function RowOf(r: BenchmarkResult): ResultRow
  {
    ResultRow(r.targetId, IconOf(r.status), r.metrics.durationMs,
              r.metrics.throughputOpsPerSec, r.metrics.memoryBytes)
  }

  /** The "Results" table: present exactly when there are results, one
      row per result, in input order, showing its id, mark, duration and
      its throughput and memory when present. */
  function ResultsTable(results: seq<BenchmarkResult>): (table: Option<seq<ResultRow>>)
    ensures table.Some? <==> |results| > 0
    ensures table.Some? ==> |table.value| == |results|
    ensures table.Some? ==> forall i :: 0 <= i < |results| ==>
              && table.value[i].targetId == results[i].targetId
              && table.value[i].icon == IconOf(results[i].status)
              && table.value[i].durationMs == results[i].metrics.durationMs
              && table.value[i].throughputOpsPerSec == results[i].metrics.throughputOpsPerSec
              && table.value[i].memoryBytes == results[i].metrics.memoryBytes
  {
    if |results| == 0 then None
    else Some(seq(|results|, i requires 0 <= i < |results| => RowOf(results[i])))
  }

  /** The index of the first entry of least duration. The crate sorts the
      successful results by duration with a stable sort and takes the
      first; that element is the earliest of the shortest. */
  function FirstMinIndex(rs: seq<BenchmarkResult>): (k: nat)
    requires |rs| > 0
    ensures k < |rs|
    ensures forall j :: 0 <= j < |rs| ==> rs[k].metrics.durationMs <= rs[j].metrics.durationMs
    ensures forall j :: 0 <= j < k ==> rs[j].metrics.durationMs > rs[k].metrics.durationMs
  {
    if |rs| == 1 then 0
    else
      var k := FirstMinIndex(rs[..|rs| - 1]);
      if rs[|rs| - 1].metrics.durationMs < rs[k].metrics.durationMs then |rs| - 1 else k
  }

  /** The index of the last entry of greatest duration: the last element
      of the same stable sort. */
  function LastMaxIndex(rs: seq<BenchmarkResult>): (k: nat)
    requires |rs| > 0
    ensures k < |rs|
    ensures forall j :: 0 <= j < |rs| ==> rs[k].metrics.durationMs >= rs[j].metrics.durationMs
    ensures forall j :: k < j < |rs| ==> rs[j].metrics.durationMs < rs[k].metrics.durationMs
  {
    if |rs| == 1 then 0
    else
      var k := LastMaxIndex(rs[..|rs| - 1]);
      if rs[|rs| - 1].metrics.durationMs >= rs[k].metrics.durationMs then |rs| - 1 else k
  }

  /** The durations of `rs`, in order. */
  function Durations(rs: seq<BenchmarkResult>): (ds: seq<real>)
    ensures |ds| == |rs|
    ensures forall i :: 0 <= i < |rs| ==> ds[i] == rs[i].metrics.durationMs
  {
    seq(|rs|, i requires 0 <= i < |rs| => rs[i].metrics.durationMs)
  }

  /** The "Performance Insights" section. */
  datatype Insights = Insights(fastest: BenchmarkResult, slowest: BenchmarkResult, averageMs: real)

  /** Present exactly when some result succeeded; the fastest and slowest
      are successful results bounding every successful duration, and the
      average lies between them. Among ties, the fastest is the earliest
      successful result and the slowest the latest, as the stable sort
      orders them; the average is the sum of the successful durations over
      their number. */
  function PerformanceInsights(results: seq<BenchmarkResult>): (ins: Option<Insights>)
    ensures ins.Some? <==> CountSuccessful(results) > 0
    ensures ins.Some? ==>
              var s := Filter(results, IsSuccessResult);
              && ins.value.fastest == s[FirstMinIndex(s)]
              && ins.value.slowest == s[LastMaxIndex(s)]
              && ins.value.averageMs == Mean(Durations(s))
    ensures ins.Some? ==>
              && ins.value.fastest in results && ins.value.fastest.IsSuccess()
              && ins.value.slowest in results && ins.value.slowest.IsSuccess()
    ensures ins.Some? ==> forall r :: r in results && r.IsSuccess() ==>
              ins.value.fastest.metrics.durationMs <= r.metrics.durationMs <= ins.value.slowest.metrics.durationMs
    ensures ins.Some? ==>
              ins.value.fastest.metrics.durationMs <= ins.value.averageMs <= ins.value.slowest.metrics.durationMs
  {
    var successful := Filter(results, IsSuccessResult);
    if |successful| == 0 then None else Some(InsightsOf(successful))
  }

  /** The insights of a non-empty list of successful results: the first
      shortest, the last longest and the mean duration, which lies between
      theirs. */
  function InsightsOf(successful: seq<BenchmarkResult>): (ins: Insights)
    requires |successful| > 0
    ensures ins.fastest == successful[FirstMinIndex(successful)]
    ensures ins.slowest == successful[LastMaxIndex(successful)]
    ensures ins.averageMs == Mean(Durations(successful))
    ensures ins.fastest.metrics.durationMs <= ins.averageMs <= ins.slowest.metrics.durationMs
  {
    var fastest := successful[FirstMinIndex(successful)];
    var slowest := successful[LastMaxIndex(successful)];
    var durations := Durations(successful);
    AverageBetween(durations, fastest.metrics.durationMs, slowest.metrics.durationMs);
    Insights(fastest, slowest, Mean(durations))
  }

  /** The arithmetic mean: the sum over the number of terms. */
  function Mean(ds: seq<real>): (m: real)
    requires |ds| > 0
    ensures m * |ds| as real == Sum(ds)
  {
    Sum(ds) / |ds| as real
  }

  /** The mean of terms between `lo` and `hi` is between `lo` and `hi`. */
  lemma AverageBetween(ds: seq<real>, lo: real, hi: real)
    requires |ds| > 0
    requires forall i :: 0 <= i < |ds| ==> lo <= ds[i] <= hi
    ensures lo <= Mean(ds) <= hi
  {
    var n := |ds| as real;
    SumBounds(ds, lo, hi);
    assert n * lo <= Mean(ds) * n <= n * hi;
  }

  /** One entry of the "Failed Benchmarks" section: a heading with the id
      and, when the result carries an error message, a code block. */
  datatype FailureEntry = FailureEntry(targetId: string, errorBlock: Option<string>)

  function FailureOf(r: BenchmarkResult): FailureEntry
  {
    FailureEntry(r.targetId, r.error)
  }

  /** `entry` is the failure entry of some failed result. */
  ghost predicate IsFailureEntryOf(results: seq<BenchmarkResult>, entry: FailureEntry)
  {
    exists r :: r in results && r.IsFailed() && entry == FailureOf(r)
  }

  /** Present exactly when some result failed; lists exactly the failed
      results, in input order. */
  function FailedSection(results: seq<BenchmarkResult>): (section: Option<seq<FailureEntry>>)
    ensures section.Some? <==> CountFailed(results) > 0
    ensures section.Some? ==> |section.value| == CountFailed(results)
    ensures section.Some? ==> forall r :: r in results && r.IsFailed() ==> FailureOf(r) in section.value
    ensures section.Some? ==> forall i :: 0 <= i < |section.value| ==> IsFailureEntryOf(results, section.value[i])
  {
    var failed := Filter(results, IsFailedResult);
    if |failed| == 0 then None
    else
      var entries := seq(|failed|, i requires 0 <= i < |failed| => FailureOf(failed[i]));
      assert forall r :: r in results && r.IsFailed() ==> FailureOf(r) in entries by {
        forall r | r in results && r.IsFailed() ensures FailureOf(r) in entries {
          assert IsFailedResult(r);
          var i :| 0 <= i < |failed| && failed[i] == r;
          assert entries[i] == FailureOf(r);
        }
      }
      assert forall i :: 0 <= i < |entries| ==> IsFailureEntryOf(results, entries[i]) by {
        forall i | 0 <= i < |entries|
          ensures IsFailureEntryOf(results, entries[i])
        {
          var r := failed[i];
          assert IsFailedResult(r) && r in results;
          assert entries[i] == FailureOf(r);
        }
      }
      Some(entries)
  }

  /** The failed section's entries are the failed results in input order. */
  lemma FailedSectionInOrder(results: seq<BenchmarkResult>)
    requires CountFailed(results) > 0
    ensures FailedSection(results).Some?
    ensures forall i :: 0 <= i < |FailedSection(results).value| ==>
              FailedSection(results).value[i] == FailureOf(Filter(results, IsFailedResult)[i])
    ensures SubsequenceOf(Filter(results, IsFailedResult), results)
  {
    FilterIsSubsequence(results, IsFailedResult);
  }

  /** One line of the "System Information" section. */
  datatype SystemLine =
    | RustVersionLine(version: string)
    | OsLine(os: string)
    | CpuLine(cpu: string)
    | CpuCoresLine(cores: Usize)
    | TotalMemoryLine(bytes: U64)

  /** Position of a line kind in the section. */
  function LineRank(line: SystemLine): nat
  {
    match line
    case RustVersionLine(_) => 0
    case OsLine(_) => 1
    case CpuLine(_) => 2
    case CpuCoresLine(_) => 3
    case TotalMemoryLine(_) => 4
  }

  /** The line shows an entry that `md` holds. */
  predicate ShowsEntryOf(md: BenchmarkMetadata, line: SystemLine)
  {
    match line
    case RustVersionLine(v) => md.rustVersion == Some(v)
    case OsLine(v) => md.osInfo == Some(v)
    case CpuLine(v) => md.cpuModel == Some(v)
    case CpuCoresLine(v) => md.cpuCores == Some(v)
    case TotalMemoryLine(v) => md.totalMemory == Some(v)
  }

  /** The line for entry kind `rank` when `md` holds that entry. */
  function LineFor(md: BenchmarkMetadata, rank: nat): (lines: seq<SystemLine>)
    ensures |lines| <= 1
    ensures forall line :: line in lines ==> LineRank(line) == rank && ShowsEntryOf(md, line)
  {
    if rank == 0 && md.rustVersion.Some? then [RustVersionLine(md.rustVersion.value)]
    else if rank == 1 && md.osInfo.Some? then [OsLine(md.osInfo.value)]
    else if rank == 2 && md.cpuModel.Some? then [CpuLine(md.cpuModel.value)]
    else if rank == 3 && md.cpuCores.Some? then [CpuCoresLine(md.cpuCores.value)]
    else if rank == 4 && md.totalMemory.Some? then [TotalMemoryLine(md.totalMemory.value)]
    else []
  }

  /** The lines for the entry kinds from `rank` on, in rank order. */
  function LinesFrom(md: BenchmarkMetadata, rank: nat): (lines: seq<SystemLine>)
    ensures forall line :: line in lines ==> rank <= LineRank(line) && ShowsEntryOf(md, line)
    ensures forall i, j :: 0 <= i < j < |lines| ==> LineRank(lines[i]) < LineRank(lines[j])
    decreases 5 - rank
  {
    if rank > 4 then []
    else
      var head := LineFor(md, rank);
      var tail := LinesFrom(md, rank + 1);
      assert forall j :: 0 <= j < |tail| ==> tail[j] in tail;
      head + tail
  }

  /** One line per metadata entry that is present, among the Rust version,
      OS, CPU, core count and total memory, in that order; the target
      triple, commit and custom entries are not shown. */
  function SystemLines(md: BenchmarkMetadata): (lines: seq<SystemLine>)
    ensures forall line :: line in lines ==> ShowsEntryOf(md, line)
    ensures md.rustVersion.Some? ==> RustVersionLine(md.rustVersion.value) in lines
    ensures md.osInfo.Some? ==> OsLine(md.osInfo.value) in lines
    ensures md.cpuModel.Some? ==> CpuLine(md.cpuModel.value) in lines
    ensures md.cpuCores.Some? ==> CpuCoresLine(md.cpuCores.value) in lines
    ensures md.totalMemory.Some? ==> TotalMemoryLine(md.totalMemory.value) in lines
    ensures forall i, j :: 0 <= i < j < |lines| ==> LineRank(lines[i]) < LineRank(lines[j])
  {
    LinesFrom(md, 0)
  }

  /** The "System Information" section, taken from the first result's
      metadata only; present exactly when that metadata exists. */
  function SystemSection(results: seq<BenchmarkResult>): (section: Option<seq<SystemLine>>)
    ensures section.Some? <==> |results| > 0 && results[0].metadata.Some?
    ensures section.Some? ==> section.value == SystemLines(results[0].metadata.value)
  {
    if |results| > 0 && results[0].metadata.Some? then Some(SystemLines(results[0].metadata.value))
    else None
  }

  /** The whole results report, section by section. */
  datatype Report = Report(
    summary: SummarySection,
    results: Option<seq<ResultRow>>,
    insights: Option<Insights>,
    failures: Option<seq<FailureEntry>>,
    system: Option<seq<SystemLine>>)

  /** `generate_report`. The sections agree with one another: the table
      appears exactly when the total is positive, the insights exactly
      when the successful count is, the failures exactly when the
      "Failed" summary line does. */
  function GenerateReport(results: seq<BenchmarkResult>): (report: Report)
    ensures report.summary == Summarize(results)
    ensures report.results == ResultsTable(results)
    ensures report.insights == PerformanceInsights(results)
    ensures report.failures == FailedSection(results)
    ensures report.system == SystemSection(results)
    ensures report.summary.total == |results|
    ensures report.results.Some? <==> report.summary.total > 0
    ensures report.insights.Some? <==> report.summary.successful > 0
    ensures report.failures.Some? <==> report.summary.failedLine.Some?
    ensures report.failures.Some? ==> |report.failures.value| == report.summary.failedLine.value
    ensures report.summary.successful + (if report.summary.failedLine.Some? then report.summary.failedLine.value else 0)
            + (if report.summary.skippedLine.Some? then report.summary.skippedLine.value else 0)
            == report.summary.total
  {
    StatusCountsPartition(results);
    Report(Summarize(results), ResultsTable(results), PerformanceInsights(results),
           FailedSection(results), SystemSection(results))
  }

  /** A result with only a duration and the error text the crate's report
      test uses for failed results. The test also attaches the collected
      environment metadata, which is left out here: it only adds the
      "System Information" section. */
  function ReportTestResult(id: string, durationMs: real, status: BenchmarkStatus): BenchmarkResult
  {
    BenchmarkResult(id, NewMetrics(durationMs), None, status,
                    if status == Failed then Some("Test error") else None)
  }

  /** Two successes (100 ms, 200 ms) and a failure give a total of 3,
      2 successful, a "Failed: 1" line, no "Skipped" line, and one row
      per benchmark; the fastest is test1 and the slowest test2. */
  lemma GenerateReportExample()
    ensures
      var results := [ReportTestResult("test1", 100.0, Success),
                      ReportTestResult("test2", 200.0, Success),
                      ReportTestResult("test3", 150.0, Failed)];
      var report := GenerateReport(results);
      && report.summary.total == 3
      && report.summary.successful == 2
      && report.summary.failedLine == Some(1)
      && report.summary.skippedLine.None?
      && report.results.Some?
      && report.results.value[0].targetId == "test1"
      && report.results.value[1].targetId == "test2"
      && report.results.value[2].targetId == "test3"
      && report.insights.Some?
      && report.insights.value.fastest.targetId == "test1"
      && report.insights.value.slowest.targetId == "test2"
  {
    var results := [ReportTestResult("test1", 100.0, Success),
                    ReportTestResult("test2", 200.0, Success),
                    ReportTestResult("test3", 150.0, Failed)];
    assert results[..2] == [results[0], results[1]];
    assert results[..2][..1] == [results[0]];
    assert Filter(results[..2][..1], IsSuccessResult) == [results[0]];
    assert Filter(results[..2], IsSuccessResult) == [results[0], results[1]];
    assert Filter(results, IsSuccessResult) == [results[0], results[1]];
    assert Filter(results[..2][..1], IsFailedResult) == [];
    assert Filter(results[..2], IsFailedResult) == [];
    assert Filter(results, IsFailedResult) == [results[2]];
    assert Filter(results[..2][..1], IsSkippedResult) == [];
    assert Filter(results[..2], IsSkippedResult) == [];
    assert Filter(results, IsSkippedResult) == [];
    var successful := [results[0], results[1]];
    assert successful[..1] == [results[0]];
    assert FirstMinIndex(successful) == 0;
    assert LastMaxIndex(successful) == 1;
  }

  // ---------------------------------------------------------------------
  // Text of a summary line
  // ---------------------------------------------------------------------

  /** The decimal digits of `n`, as `{}` prints an unsigned integer. */
  function Decimal(n: nat): (digits: string)
    ensures |digits| >= 1
    ensures forall i :: 0 <= i < |digits| ==> '0' <= digits[i] <= '9'
  {
    var last := ['0' + (n % 10) as char];
    if n < 10 then last else Decimal(n / 10) + last
  }

  /** `t` occurs in `s` starting at position `i`. */
  predicate OccursAt(s: string, t: string, i: int)
  {
    0 <= i <= |s| - |t| && s[i..i + |t|] == t
  }

  /** `t` occurs in `s` as a contiguous piece: Rust's `str::contains`. */
  ghost predicate Contains(s: string, t: string)
  {
    exists i :: OccursAt(s, t, i)
  }

  /** A summary line as `generate_report` and `generate_comparison_report`
      write it, up to the count: `- **<caption>:** <count>`. Most lines
      go on with a space and a mark, which the lemmas below take as a
      suffix. */
  function SummaryLineText(caption: string, count: nat): (line: string)
    ensures |line| == 8 + |caption| + |Decimal(count)|
    ensures line[..4] == "- **"
    ensures line[4..4 + |caption|] == caption
    ensures line[4 + |caption|..8 + |caption|] == ":** "
    ensures line[8 + |caption|..] == Decimal(count)
  {
    "- **" + caption + ":** " + Decimal(count)
  }

  /** The line the report holds for three results is
      `- **Total Benchmarks:** 3`, in which the bold markers separate the
      colon from the count, so `Total Benchmarks: 3` does not occur in it. */
  lemma TotalNeedleMissing()
    ensures SummaryLineText("Total Benchmarks", 3) == "- **Total Benchmarks:** 3"
    ensures !Contains(SummaryLineText("Total Benchmarks", 3), "Total Benchmarks: 3")
  {
    var line := SummaryLineText("Total Benchmarks", 3);
    var needle := "Total Benchmarks: 3";
    assert Decimal(3) == "3";
    assert line == "- **Total Benchmarks:** 3";
    forall i | 0 <= i <= |line| - |needle|
      ensures !OccursAt(line, needle, i)
    {
      if i == 4 {
        assert line[i..i + |needle|][17] == '*' != needle[17];
      } else {
        assert line[i..i + |needle|][0] == line[i] != 'T';
      }
    }
  }

  /** The report test looks for `Total Benchmarks: 3`, `Successful: 2` and
      `Failed: 1`, but for its two successes and one failure the report
      writes `- **Total Benchmarks:** 3`, `- **Successful:** 2 ✓` and
      `- **Failed:** 1 ✗`, in which the bold markers separate each colon
      from its count: no needle occurs. */
  lemma ReportTestNeedleMissing()
    ensures SummaryLineText("Total Benchmarks", 3) == "- **Total Benchmarks:** 3"
    ensures !Contains(SummaryLineText("Total Benchmarks", 3), "Total Benchmarks: 3")
    ensures Decimal(2) == "2" && Decimal(1) == "1"
    ensures !Contains(SummaryLineText("Successful", 2) + " ✓", "Successful" + ": " + Decimal(2))
    ensures !Contains(SummaryLineText("Failed", 1) + " ✗", "Failed" + ": " + Decimal(1))
  {
    TotalNeedleMissing();
    assert Decimal(2) == "2" && Decimal(1) == "1";
    NeedleMissing("Successful", 2, " ✓");
    NeedleMissing("Failed", 1, " ✗");
  }

  /** For any caption whose first character occurs nowhere else in the
      line, `<caption>: <count>` does not occur in the line written for it,
      whatever mark follows: only the caption's own first character can
      start a match, and there the bold markers stand where the needle has
      its space. */
  lemma {:induction false} NeedleMissing(caption: string, count: nat, suffix: string)
    requires |caption| > 0
    requires forall k :: 1 <= k < |caption| ==> caption[k] != caption[0]
    requires caption[0] !in "-*: " && !('0' <= caption[0] <= '9')
    requires caption[0] !in suffix
    ensures !Contains(SummaryLineText(caption, count) + suffix, caption + ": " + Decimal(count))
  {
    var line := SummaryLineText(caption, count) + suffix;
    var needle := caption + ": " + Decimal(count);
    var c := |caption|;
    var digits := Decimal(count);
    assert needle[0] == caption[0];
    assert needle[c + 1] == ' ';
    forall i | 0 <= i <= |line| - |needle|
      ensures !OccursAt(line, needle, i)
    {
      if i == 4 {
        assert line[4 + c + 1] == ":** "[1] == '*';
        assert line[i..i + |needle|][c + 1] != needle[c + 1];
      } else {
        if i < 4 {
          assert line[i] == "- **"[i];
        } else if i < 4 + c {
          assert line[i] == caption[i - 4];
        } else if i < 8 + c {
          assert line[i] == ":** "[i - 4 - c];
        } else if i < 8 + c + |digits| {
          assert line[i] == digits[i - 8 - c];
        } else {
          assert line[i] == suffix[i - 8 - c - |digits|];
        }
        assert line[i..i + |needle|][0] != needle[0];
      }
    }
  }

  /** The comparison-report test looks for `Improvements: 1` and
      `Regressions: 1`, but the lines the report holds for one of each are
      `- **Improvements:** 1 🚀` and `- **Regressions:** 1 🐌`: neither needle
      occurs. */
  lemma ComparisonTestNeedlesMissing()
    ensures Decimal(1) == "1"
    ensures !Contains(SummaryLineText("Improvements", 1) + " 🚀", "Improvements" + ": " + Decimal(1))
    ensures !Contains(SummaryLineText("Regressions", 1) + " 🐌", "Regressions" + ": " + Decimal(1))
  {
    assert Decimal(1) == "1";
    NeedleMissing("Improvements", 1, " 🚀");
    NeedleMissing("Regressions", 1, " 🐌");
  }

  /** The needle that matches what the report writes: for every caption,
      count and trailing mark, `<caption>:** <count>` occurs in the summary
      line. */
  lemma ReportTestNeedleCorrected(caption: string, count: nat, suffix: string)
    ensures Contains(SummaryLineText(caption, count) + suffix, caption + ":** " + Decimal(count))
  {
    var line := SummaryLineText(caption, count) + suffix;
    var needle := caption + ":** " + Decimal(count);
    assert line == "- **" + needle + suffix;
    assert line[4..4 + |needle|] == needle;
    assert OccursAt(line, needle, 4);
  }

  // ---------------------------------------------------------------------
  // Comparison report (`generate_comparison_report`)
  // ---------------------------------------------------------------------

  /** The change marks: 🚀 faster, 🐌 slower, ≈ roughly the same. */
  datatype ChangeIcon = Rocket | Snail | Approx

  /** The mark of a percentage change. It agrees with the improvement,
      regression and unchanged classes of the comparison summary. */
  function ChangeIconOf(pct: real): (icon: ChangeIcon)
    ensures icon == Rocket <==> pct < -5.0
    ensures icon == Snail <==> pct > 5.0
    ensures icon == Approx <==> Abs(pct) <= 5.0
  {
    if pct < -5.0 then Rocket else if pct > 5.0 then Snail else Approx
  }

  /** One row of the "Detailed Comparison" table. */
  datatype ComparisonRow = ComparisonRow(
    targetId: string,
    baselineMs: real,
    currentMs: real,
    changeMs: real,
    changePct: real,
    icon: ChangeIcon)

  /** A comparison as a table row: the absolute change is current minus
      baseline, and the mark is the comparison's class. */
  function ComparisonRowOf(c: BenchmarkComparison): (row: ComparisonRow)
    ensures row.targetId == c.targetId && row.changePct == c.durationChangePct
    ensures row.baselineMs == c.baselineDurationMs && row.currentMs == c.currentDurationMs
    ensures row.baselineMs + row.changeMs == row.currentMs
    ensures row.icon == Rocket <==> IsImprovement(c)
    ensures row.icon == Snail <==> IsRegression(c)
    ensures row.icon == Approx <==> IsUnchanged(c)
  {
    ComparisonRow(c.targetId, c.baselineDurationMs, c.currentDurationMs,
                  c.currentDurationMs - c.baselineDurationMs, c.durationChangePct,
                  ChangeIconOf(c.durationChangePct))
  }

  /** Largest percentage change first. */
  ghost predicate SortedByChangeDesc(cs: seq<BenchmarkComparison>)
  {
    forall i, j :: 0 <= i < j < |cs| ==> cs[i].durationChangePct >= cs[j].durationChangePct
  }

  /** Inserts `c` after every element whose change is at least `c`'s, so
      that among equal changes the earlier-inserted element stays first. */
  function InsertByChange(c: BenchmarkComparison, sorted: seq<BenchmarkComparison>): (r: seq<BenchmarkComparison>)
    ensures multiset(r) == multiset(sorted) + multiset{c}
  {
    if |sorted| == 0 then [c]
    else if sorted[0].durationChangePct < c.durationChangePct then [c] + sorted
    else
      assert sorted == [sorted[0]] + sorted[1..];
      [sorted[0]] + InsertByChange(c, sorted[1..])
  }

  /** Inserting an element no larger than a bound into a sequence whose
      elements are no larger than it keeps every element within the bound. */
  lemma {:induction false} InsertBounded(c: BenchmarkComparison, s: seq<BenchmarkComparison>, bound: real)
    requires forall k :: 0 <= k < |s| ==> s[k].durationChangePct <= bound
    requires c.durationChangePct <= bound
    ensures forall k :: 0 <= k < |InsertByChange(c, s)| ==> InsertByChange(c, s)[k].durationChangePct <= bound
  {
    if |s| > 0 && s[0].durationChangePct >= c.durationChangePct {
      var rest := InsertByChange(c, s[1..]);
      InsertBounded(c, s[1..], bound);
      var r := [s[0]] + rest;
      assert InsertByChange(c, s) == r;
      forall k | 0 <= k < |r|
        ensures r[k].durationChangePct <= bound
      {
        if k == 0 {
          assert r[k] == s[0];
        } else {
          assert r[k] == rest[k - 1];
          assert rest[k - 1].durationChangePct <= bound;
        }
      }
    }
  }

  /** Inserting into a sorted sequence keeps it sorted. */
  lemma {:induction false} InsertKeepsSorted(c: BenchmarkComparison, sorted: seq<BenchmarkComparison>)
    requires SortedByChangeDesc(sorted)
    ensures SortedByChangeDesc(InsertByChange(c, sorted))
  {
    if |sorted| > 0 && sorted[0].durationChangePct >= c.durationChangePct {
      var tail := sorted[1..];
      var rest := InsertByChange(c, tail);
      InsertKeepsSorted(c, tail);
      InsertBounded(c, tail, sorted[0].durationChangePct);
      var r := [sorted[0]] + rest;
      forall i, j | 0 <= i < j < |r|
        ensures r[i].durationChangePct >= r[j].durationChangePct
      {
        assert r[j] == rest[j - 1];
        if i == 0 {
          assert r[i] == sorted[0];
        } else {
          assert r[i] == rest[i - 1];
        }
      }
    }
  }

  /** The table order: a stable sort by change, largest first. */
  function SortByChangeDesc(cs: seq<BenchmarkComparison>): (r: seq<BenchmarkComparison>)
    ensures SortedByChangeDesc(r)
    ensures multiset(r) == multiset(cs)
    ensures |r| == |cs|
  {
    if |cs| == 0 then []
    else
      assert cs == cs[..|cs| - 1] + [cs[|cs| - 1]];
      InsertKeepsSorted(cs[|cs| - 1], SortByChangeDesc(cs[..|cs| - 1]));
      InsertByChange(cs[|cs| - 1], SortByChangeDesc(cs[..|cs| - 1]))
  }

  /** The comparison report, section by section. */
  datatype ComparisonReport = ComparisonReport(
    baselineName: string,
    currentName: string,
    total: nat,
    improvementCount: nat,
    regressionCount: nat,
    unchangedCount: nat,
    detailed: seq<ComparisonRow>,
    regressionSection: Option<seq<BenchmarkComparison>>,
    improvementSection: Option<seq<BenchmarkComparison>>)

  /** The "Detailed Comparison" table: one row per comparison, in the
      order of `SortByChangeDesc`, so largest change first. */
  function DetailedTable(cs: seq<BenchmarkComparison>): (rows: seq<ComparisonRow>)
    ensures |rows| == |cs|
    ensures forall i :: 0 <= i < |rows| ==> rows[i] == ComparisonRowOf(SortByChangeDesc(cs)[i])
    ensures forall i, j :: 0 <= i < j < |rows| ==> rows[i].changePct >= rows[j].changePct
  {
    var sorted := SortByChangeDesc(cs);
    seq(|sorted|, i requires 0 <= i < |sorted| => ComparisonRowOf(sorted[i]))
  }

  /** `generate_comparison_report`: the three counts are the sizes of the
      improvement, regression and unchanged classes and add up to the
      total; the table has one row per comparison, largest change first;
      each highlight section appears exactly when its class is non-empty
      and then lists that class in summary order. */
  function GenerateComparisonReport(summary: ComparisonSummary, baselineName: string, currentName: string): (report: ComparisonReport)
    ensures report.baselineName == baselineName && report.currentName == currentName
    ensures report.total == |summary.comparisons|
    ensures report.improvementCount == |Improvements(summary)|
    ensures report.regressionCount == |Regressions(summary)|
    ensures report.unchangedCount == |Unchanged(summary)|
    ensures report.improvementCount + report.regressionCount + report.unchangedCount == report.total
    ensures |report.detailed| == report.total
    ensures forall i, j :: 0 <= i < j < |report.detailed| ==> report.detailed[i].changePct >= report.detailed[j].changePct
    ensures forall i :: 0 <= i < |report.detailed| ==>
              report.detailed[i] == ComparisonRowOf(SortByChangeDesc(summary.comparisons)[i])
    ensures report.regressionSection.Some? <==> report.regressionCount > 0
    ensures report.regressionSection.Some? ==> report.regressionSection.value == Regressions(summary)
    ensures report.improvementSection.Some? <==> report.improvementCount > 0
    ensures report.improvementSection.Some? ==> report.improvementSection.value == Improvements(summary)
  {
    var improvements := Improvements(summary);
    var regressions := Regressions(summary);
    var steady := Unchanged(summary);
    ClassificationPartition(summary);
    ComparisonReport(baselineName, currentName, |summary.comparisons|,
                     |improvements|, |regressions|, |steady|,
                     DetailedTable(summary.comparisons),
                     if |regressions| > 0 then Some(regressions) else None,
                     if |improvements| > 0 then Some(improvements) else None)
  }

  /** The two comparisons of the crate's comparison-report test. */
  function ReportTestComparisons(): seq<BenchmarkComparison>
  {
    [BenchmarkComparison("test1", 100.0, 80.0, -20.0),
     BenchmarkComparison("test2", 100.0, 120.0, 20.0)]
  }

  /** Of the test's comparisons the first is the only improvement. */
  lemma ReportTestImprovements()
    ensures Filter(ReportTestComparisons(), IsImprovement) == [ReportTestComparisons()[0]]
  {
    var cs := ReportTestComparisons();
    assert cs[..1] == [cs[0]];
    assert cs[..1][..0] == [];
    assert Filter(cs[..1], IsImprovement) == [cs[0]];
  }

  /** Of the test's comparisons the second is the only regression. */
  lemma ReportTestRegressions()
    ensures Filter(ReportTestComparisons(), IsRegression) == [ReportTestComparisons()[1]]
  {
    var cs := ReportTestComparisons();
    assert cs[..1] == [cs[0]];
    assert cs[..1][..0] == [];
    assert Filter(cs[..1], IsRegression) == [];
  }

  /** The +20 % comparison sorts before the -20 % one. */
  lemma ReportTestOrder()
    ensures SortByChangeDesc(ReportTestComparisons()) == [ReportTestComparisons()[1], ReportTestComparisons()[0]]
  {
    var cs := ReportTestComparisons();
    assert cs[..1] == [cs[0]];
    assert cs[..1][..0] == [];
    assert SortByChangeDesc(cs[..1]) == [cs[0]] by {
      assert SortByChangeDesc(cs[..1]) == InsertByChange(cs[0], SortByChangeDesc([]));
    }
    assert SortByChangeDesc(cs) == InsertByChange(cs[1], [cs[0]]);
  }

  /** The crate's comparison-report test: -20 % and +20 % give one
      improvement and one regression, and the +20 % row comes first. */
  lemma ComparisonReportExample()
    ensures
      var report := GenerateComparisonReport(ComparisonSummary(ReportTestComparisons()), "baseline", "current");
      && report.improvementCount == 1
      && report.regressionCount == 1
      && report.detailed[0].targetId == "test2"
  {
    ReportTestImprovements();
    ReportTestRegressions();
    ReportTestOrder();
  }

  // ---------------------------------------------------------------------
  // Pull-request comment (`generate_pr_comment`)
  // ---------------------------------------------------------------------

  /** How many entries each highlight section of the comment shows. */
  const PrSectionLimit: nat := 5

  /** One highlight line: the id, the percentage shown (the change for a
      regression, its negation, "faster", for an improvement) and the
      two durations. */
  datatype PrEntry = PrEntry(targetId: string, shownPct: real, baselineMs: real, currentMs: real)

  /** One row of the collapsed full-results table. */
  datatype DetailRow = DetailRow(targetId: string, changePct: real)

  /** The comment, section by section. */
  datatype PrComment = PrComment(
    noSignificantChanges: bool,
    regressionSection: Option<seq<PrEntry>>,
    improvementSection: Option<seq<PrEntry>>,
    details: seq<DetailRow>)

  function RegressionEntry(c: BenchmarkComparison): PrEntry
  {
    PrEntry(c.targetId, c.durationChangePct, c.baselineDurationMs, c.currentDurationMs)
  }

  function ImprovementEntry(c: BenchmarkComparison): PrEntry
  {
    PrEntry(c.targetId, -c.durationChangePct, c.baselineDurationMs, c.currentDurationMs)
  }

  /** How many members of a class of `n` a highlight section shows. */
  function ShownCount(n: nat): nat
  {
    if n <= PrSectionLimit then n else PrSectionLimit
  }

  /** The lines of the regressions section: the first five regressions in
      summary order, each showing its change, above 5, and its two
      durations. */
  function RegressionLines(summary: ComparisonSummary): (shown: seq<PrEntry>)
    ensures var regs := Regressions(summary);
            && |shown| == ShownCount(|regs|)
            && forall i :: 0 <= i < |shown| ==>
                 && shown[i].targetId == regs[i].targetId
                 && shown[i].shownPct == regs[i].durationChangePct
                 && shown[i].shownPct > 5.0
                 && shown[i].baselineMs == regs[i].baselineDurationMs
                 && shown[i].currentMs == regs[i].currentDurationMs
  {
    var regs := Regressions(summary);
    var top := Take(regs, PrSectionLimit);
    assert forall i :: 0 <= i < |top| ==> top[i] == regs[i] && top[i] in regs;
    seq(|top|, i requires 0 <= i < |top| => RegressionEntry(top[i]))
  }

  /** The lines of the improvements section: the first five improvements in
      summary order, each showing how much faster it ran, above 5, and its
      two durations. */
  function ImprovementLines(summary: ComparisonSummary): (shown: seq<PrEntry>)
    ensures var imps := Improvements(summary);
            && |shown| == ShownCount(|imps|)
            && forall i :: 0 <= i < |shown| ==>
                 && shown[i].targetId == imps[i].targetId
                 && shown[i].shownPct == -imps[i].durationChangePct
                 && shown[i].shownPct > 5.0
                 && shown[i].baselineMs == imps[i].baselineDurationMs
                 && shown[i].currentMs == imps[i].currentDurationMs
  {
    var imps := Improvements(summary);
    var top := Take(imps, PrSectionLimit);
    assert forall i :: 0 <= i < |top| ==> top[i] == imps[i] && top[i] in imps;
    seq(|top|, i requires 0 <= i < |top| => ImprovementEntry(top[i]))
  }

  /** The rows of the collapsed table: one per comparison, in summary
      order. */
  function DetailRows(summary: ComparisonSummary): (rows: seq<DetailRow>)
    ensures |rows| == |summary.comparisons|
    ensures forall i :: 0 <= i < |rows| ==>
              rows[i].targetId == summary.comparisons[i].targetId
              && rows[i].changePct == summary.comparisons[i].durationChangePct
  {
    var cs := summary.comparisons;
    seq(|cs|, i requires 0 <= i < |cs| => DetailRow(cs[i].targetId, cs[i].durationChangePct))
  }

  /** `generate_pr_comment`: the "no significant change" line appears
      exactly when there is neither an improvement nor a regression;
      otherwise each non-empty class gets a section listing its first five
      members in summary order, every shown percentage above 5, with both
      durations; the full table has one row per comparison in summary
      order. */
  function GeneratePrComment(summary: ComparisonSummary): (comment: PrComment)
    ensures comment.noSignificantChanges <==> |Improvements(summary)| == 0 && |Regressions(summary)| == 0
    ensures comment.regressionSection.Some? <==> |Regressions(summary)| > 0
    ensures comment.improvementSection.Some? <==> |Improvements(summary)| > 0
    ensures comment.regressionSection.Some? ==>
              var regs := Regressions(summary);
              var shown := comment.regressionSection.value;
              && |shown| == ShownCount(|regs|)
              && forall i :: 0 <= i < |shown| ==>
                   && shown[i].targetId == regs[i].targetId
                   && shown[i].shownPct == regs[i].durationChangePct
                   && shown[i].shownPct > 5.0
                   && shown[i].baselineMs == regs[i].baselineDurationMs
                   && shown[i].currentMs == regs[i].currentDurationMs
    ensures comment.improvementSection.Some? ==>
              var imps := Improvements(summary);
              var shown := comment.improvementSection.value;
              && |shown| == ShownCount(|imps|)
              && forall i :: 0 <= i < |shown| ==>
                   && shown[i].targetId == imps[i].targetId
                   && shown[i].shownPct == -imps[i].durationChangePct
                   && shown[i].shownPct > 5.0
                   && shown[i].baselineMs == imps[i].baselineDurationMs
                   && shown[i].currentMs == imps[i].currentDurationMs
    ensures |comment.details| == |summary.comparisons|
    ensures forall i :: 0 <= i < |summary.comparisons| ==>
              comment.details[i] == DetailRow(summary.comparisons[i].targetId, summary.comparisons[i].durationChangePct)
  {
    var details := DetailRows(summary);
    if |Regressions(summary)| == 0 && |Improvements(summary)| == 0 then
      PrComment(true, None, None, details)
    else
      PrComment(false,
                if |Regressions(summary)| > 0 then Some(RegressionLines(summary)) else None,
                if |Improvements(summary)| > 0 then Some(ImprovementLines(summary)) else None,
                details)
  }

  /** The crate's PR-comment test: a single -10 % change produces the
      improvements section and not the "no significant change" line. */
  lemma PrCommentExample()
    ensures
      var summary := ComparisonSummary([BenchmarkComparison("test", 100.0, 90.0, -10.0)]);
      var comment := GeneratePrComment(summary);
      && !comment.noSignificantChanges
      && comment.improvementSection.Some?
      && comment.improvementSection.value == [PrEntry("test", 10.0, 100.0, 90.0)]
      && comment.regressionSection.None?
  {
    var cs := [BenchmarkComparison("test", 100.0, 90.0, -10.0)];
    assert cs[..0] == [];
    assert Filter(cs, IsImprovement) == cs;
    assert Filter(cs, IsRegression) == [];
  }
}
