# llm-registry-benchmarks in Dafny

This project models the benchmark harness of the LLM registry: the
`llm-registry-benchmarks` crate. It covers the harness's deterministic,
sequential logic:

- **Results** (`result.dfy`): the outcome of one benchmark target. This is
  the tri-state `BenchmarkStatus`, the `BenchmarkMetrics` and
  `BenchmarkMetadata` records, the `success` / `failed` / `skipped`
  constructors, the `with_*` builders and the `is_success` / `is_failed`
  tests.
- **Io** (`io.rs` → `io.dfy`): the pure parts of result I/O.
  - The file extension chosen for each output format.
  - The sanitiser that makes a target id usable in a file name.
  - `compare_results`, a keyed join of a current run against a baseline.
    It computes the percentage change, guarded against a non-positive
    baseline.
  - The `improvements` / `regressions` / `unchanged` filters, split at
    ±5 %.
- **Markdown** (`markdown.dfy`): the three documents the crate renders. These
  are the results report, the comparison report and the pull-request
  comment. Each document is a record of its sections; an absent section is
  `None`, and the sections hold structured rows rather than formatted text.
- **Adapters** (`adapters.dfy`): the seven registry adapters as one datatype.
  Each variant's constructor is the adapter's `new` and stores its
  parameters unchanged. The module also has the stable ids, the shape of
  the result every `run` returns, and the default target list.
- **Lifecycle** (`lifecycle.dfy`): a target's `execute`, which sets up, runs
  and tears down, and the suite runner `run_all_benchmarks`.

`seqs.dfy` holds the sequence helpers the model shares: an order-preserving
filter with its subsequence and three-way partition lemmas, character
replacement, `take` and sums. `wrappers.dfy` holds `Option` and a hook
outcome, `Outcome`.

Durations and percentages are Dafny `real`, and `u64` / `usize` are
integers below 2^64. A wall-clock measurement becomes a parameter: `run`
takes the measured duration as an argument. Each lifecycle hook's effect is
reduced to its outcome: setup and teardown either succeed or fail with a
message.

Some behaviours of the crate are stated as lemmas because they are easy to
miss when reading the code:

- The pull-request comment's "top 5" regressions and improvements are the
  first five in summary order, not the five largest changes.
- When baseline ids repeat, the last baseline entry wins.
- The `/` → `_` rewrite in API-request ids can make two endpoints share one
  id (`Adapters.ApiIdsCanCollide`).

## Model

| member | source | states |
|---|---|---|
| Results.StatusPredicates | crates/llm-registry-benchmarks/src/result.rs:166-173 | `is_success` and `is_failed` never both hold; both are false exactly for a skipped run |
| Results.NewMetrics | crates/llm-registry-benchmarks/src/result.rs:178-187 | new metrics carry the given duration and no optional measurement |
| Results.WithThroughput | crates/llm-registry-benchmarks/src/result.rs:190-193 | the throughput is set to the value given; every other metric field is unchanged |
| Results.WithMemory | crates/llm-registry-benchmarks/src/result.rs:196-199 | the memory is set to the value given; every other metric field is unchanged |
| Results.WithCounts | crates/llm-registry-benchmarks/src/result.rs:202-206 | both counts are set to the values given; every other metric field is unchanged |
| Results.WithCustomMetric | crates/llm-registry-benchmarks/src/result.rs:209-214 | the map exists afterwards; its keys are the old keys plus the new one; the key maps to the new value (overwriting); every other key keeps its value; no other field changes |
| Results.SuccessResult | crates/llm-registry-benchmarks/src/result.rs:110-119 | status Success (so not failed); id and metrics as given; no error and no metadata |
| Results.FailedResult | crates/llm-registry-benchmarks/src/result.rs:122-138 | status Failed; error is the message; duration 0; error count 1; every other optional metric absent; no metadata |
| Results.SkippedResult | crates/llm-registry-benchmarks/src/result.rs:141-157 | neither success nor failure; duration 0; no optional metric; no error and no metadata |
| Results.WithMetadata | crates/llm-registry-benchmarks/src/result.rs:160-163 | the metadata is attached; id, metrics, status and error are unchanged |
| Results.NewMetadata | crates/llm-registry-benchmarks/src/result.rs:219-230 | every metadata entry is absent |
| Results.BuilderChain | crates/llm-registry-benchmarks/src/result.rs:275-288 | for any values, the chain `new`, `with_throughput`, `with_memory`, `with_counts`, `with_custom_metric` yields exactly the values supplied |
| Results.BuildersCommute | crates/llm-registry-benchmarks/src/result.rs:190-206 | builders of different fields commute; a second `with_throughput` overrides the first |
| Io.Extension | crates/llm-registry-benchmarks/src/io.rs:41-44 | the extension is "csv" exactly for Csv and "json" exactly for the two JSON formats |
| Io.SanitizeId | crates/llm-registry-benchmarks/src/io.rs:83 | length is kept; each `/`, `\` and `:` becomes `_`; every other character is kept; none of the three remains |
| Io.SanitizeIdIdempotent | crates/llm-registry-benchmarks/src/io.rs:83 | sanitising a sanitised id changes nothing |
| Io.BaselineIndex | crates/llm-registry-benchmarks/src/io.rs:179-182 | the baseline map's keys are exactly the baseline's ids |
| Io.BaselineLastWins | crates/llm-registry-benchmarks/src/io.rs:179-182 | when baseline ids repeat, the map holds the last entry with each id |
| Io.BaselineIndexHoldsLast | crates/llm-registry-benchmarks/src/io.rs:179-182 | the entry the map holds for an id is the last baseline entry with that id |
| Io.ChangePct | crates/llm-registry-benchmarks/src/io.rs:188-192 | with a positive baseline, pct × base = (current − base) × 100; otherwise pct is exactly 0 |
| Io.ChangePctThresholds | crates/llm-registry-benchmarks/src/io.rs:223-236 | against a positive baseline: pct < −5 iff current < 95 % of it; pct > 5 iff current > 105 %; pct < 0 iff current is faster |
| Io.Compare | crates/llm-registry-benchmarks/src/io.rs:194-199 | a comparison carries the current id, both durations and their change percentage |
| Io.Comparisons | crates/llm-registry-benchmarks/src/io.rs:186-201 | at most one comparison per current entry; each one's id is in the baseline map and its baseline duration is the mapped entry's |
| Io.ComparisonsFollowCurrent | crates/llm-registry-benchmarks/src/io.rs:186-201 | the comparisons are exactly those of the current entries whose id has a baseline, each compared once, in current order |
| Io.CompareResults | crates/llm-registry-benchmarks/src/io.rs:173-203 | no more comparisons than current entries; every compared id occurs in the baseline |
| Io.CompareResultsJoin | crates/llm-registry-benchmarks/src/io.rs:180-203 | the summary holds one comparison per current entry whose id is in the baseline, each once, in current order, built from that entry and the indexed baseline entry |
| Io.CompareResultsUsesLastBaseline | crates/llm-registry-benchmarks/src/io.rs:179-203 | every comparison's baseline duration is that of the last baseline entry with its id |
| Io.Improvements | crates/llm-registry-benchmarks/src/io.rs:223-228 | holds exactly the comparisons with pct < −5, as an order-preserving subsequence |
| Io.Regressions | crates/llm-registry-benchmarks/src/io.rs:231-236 | holds exactly the comparisons with pct > 5, as an order-preserving subsequence |
| Io.Unchanged | crates/llm-registry-benchmarks/src/io.rs:239-244 | holds exactly the comparisons with −5 ≤ pct ≤ 5, as an order-preserving subsequence |
| Io.ClassesExclusive | crates/llm-registry-benchmarks/src/io.rs:223-244 | every comparison is in exactly one of the three classes |
| Io.ClassificationPartition | crates/llm-registry-benchmarks/src/io.rs:223-244 | the three classes are pairwise disjoint and their sizes add up to the number of comparisons |
| Io.CompareResultsExample | crates/llm-registry-benchmarks/src/io.rs:264-280 | baselines 100/200 against currents 80/220 give two comparisons, one improvement and one regression |
| Markdown.IconOfInjective | crates/llm-registry-benchmarks/src/markdown.rs:58-62 | the status mark is determined by the status and determines it |
| Markdown.StatusCountsPartition | crates/llm-registry-benchmarks/src/markdown.rs:25-28 | successful + failed + skipped = total |
| Markdown.Summarize | crates/llm-registry-benchmarks/src/markdown.rs:25-39 | the total is the number of results and the successful count is the number of successes; the "Failed" line appears iff some result failed and shows that count; likewise the "Skipped" line; the subtraction that computes the skipped count never underflows |
| Markdown.ResultsTable | crates/llm-registry-benchmarks/src/markdown.rs:44-89 | the table appears iff there are results; one row per result, in input order, with its id, status mark, duration, and its throughput and memory (each shown when present) |
| Markdown.FirstMinIndex | crates/llm-registry-benchmarks/src/markdown.rs:96-110 | the first result after a stable ascending sort by duration is the earliest of the shortest |
| Markdown.LastMaxIndex | crates/llm-registry-benchmarks/src/markdown.rs:96-119 | the last result after that sort is the latest of the longest |
| Markdown.PerformanceInsights | crates/llm-registry-benchmarks/src/markdown.rs:92-132 | insights appear iff some result succeeded; the fastest is the earliest of the shortest successful results and the slowest the latest of the longest, as the stable sort orders them; both are successful results of the input and every successful duration lies between theirs; the average is the mean of the successful durations and lies between them too |
| Markdown.InsightsOf | crates/llm-registry-benchmarks/src/markdown.rs:96-127 | for a non-empty list of successful results: first-minimum fastest, last-maximum slowest, and the mean duration, which lies between their durations |
| Markdown.Mean | crates/llm-registry-benchmarks/src/markdown.rs:123-127 | the average times the number of terms is the sum of the terms |
| Markdown.AverageBetween | crates/llm-registry-benchmarks/src/markdown.rs:123-127 | the mean of terms within [lo, hi] lies within [lo, hi] |
| Markdown.FailedSection | crates/llm-registry-benchmarks/src/markdown.rs:135-146 | the section appears iff some result failed; it has one entry per failed result, and every entry is the heading and optional error of a failed result |
| Markdown.FailedSectionInOrder | crates/llm-registry-benchmarks/src/markdown.rs:135-146 | the entries are the failed results in input order |
| Markdown.LinesFrom | crates/llm-registry-benchmarks/src/markdown.rs:154-174 | every line shows a metadata entry that is present, and the lines keep the fixed order |
| Markdown.SystemLines | crates/llm-registry-benchmarks/src/markdown.rs:154-174 | one line for each present Rust version, OS, CPU, core count and total memory, in that order, and nothing else |
| Markdown.SystemSection | crates/llm-registry-benchmarks/src/markdown.rs:150-177 | the section appears iff the first result carries metadata, and it shows that metadata only |
| Markdown.GenerateReport | crates/llm-registry-benchmarks/src/markdown.rs:12-180 | the document is made of the summary, results table, insights, failed section and system section of the same results, so each section's contract holds of the document; the sections agree: the table appears iff the total is positive; the insights iff the successful count is positive; the failures iff the "Failed" line does, with that many entries; the summary counts add up to the total |
| Markdown.GenerateReportExample | crates/llm-registry-benchmarks/src/markdown.rs:397-414 | two successes and one failure give a total of 3, 2 successful, a "Failed" line of 1, no "Skipped" line, rows test1, test2, test3, fastest test1 and slowest test2 |
| Markdown.SummaryLineText | crates/llm-registry-benchmarks/src/markdown.rs:31-38 | a summary line is `- **`, the caption, `:** ` and the decimal count, in that order |
| Markdown.NeedleMissing | crates/llm-registry-benchmarks/src/markdown.rs:31-38 | for a caption whose first character occurs nowhere else in the line, `<caption>: <count>` never occurs in the line written for that caption and count, whatever mark follows |
| Markdown.TotalNeedleMissing | crates/llm-registry-benchmarks/src/markdown.rs:31 | the summary line for three results is `- **Total Benchmarks:** 3`, which does not contain `Total Benchmarks: 3` |
| Markdown.ReportTestNeedleMissing | crates/llm-registry-benchmarks/src/markdown.rs:405-410 | none of the test's needles `Total Benchmarks: 3`, `Successful: 2`, `Failed: 1` occurs in the line the report writes for it (`- **Total Benchmarks:** 3`, `- **Successful:** 2 ✓`, `- **Failed:** 1 ✗`) |
| Markdown.ReportTestNeedleCorrected | crates/llm-registry-benchmarks/src/markdown.rs:31-38 | for every caption, count and trailing mark, `<caption>:** <count>` occurs in the summary line |
| Markdown.ComparisonTestNeedlesMissing | crates/llm-registry-benchmarks/src/markdown.rs:213-214 | the comparison report's lines for one improvement and one regression contain neither `Improvements: 1` nor `Regressions: 1` |
| Markdown.ChangeIconOf | crates/llm-registry-benchmarks/src/markdown.rs:240-246 | 🚀 iff pct < −5; 🐌 iff pct > 5; ≈ iff abs(pct) ≤ 5 |
| Markdown.ComparisonRowOf | crates/llm-registry-benchmarks/src/markdown.rs:238-258 | a row shows the comparison's id, baseline and current durations and percentage; its change is current − baseline, and its mark is the comparison's improvement, regression or unchanged class |
| Markdown.InsertByChange | crates/llm-registry-benchmarks/src/markdown.rs:231-236 | inserting adds exactly the new comparison (as a multiset) |
| Markdown.InsertBounded | crates/llm-registry-benchmarks/src/markdown.rs:231-236 | inserting a comparison within a bound into comparisons within it keeps all of them within it |
| Markdown.InsertKeepsSorted | crates/llm-registry-benchmarks/src/markdown.rs:231-236 | inserting into a list sorted by change (largest first) keeps it sorted |
| Markdown.SortByChangeDesc | crates/llm-registry-benchmarks/src/markdown.rs:231-236 | the result is sorted by change, largest first, and is a permutation of the input |
| Markdown.DetailedTable | crates/llm-registry-benchmarks/src/markdown.rs:231-258 | one row per comparison, row i showing the i-th comparison of `SortByChangeDesc`, so the percentages are non-increasing down the table |
| Markdown.GenerateComparisonReport | crates/llm-registry-benchmarks/src/markdown.rs:183-302 | the improvement, regression and unchanged counts are the sizes of those classes and add up to the total; the detailed table has one row per comparison, largest change first; each highlight section appears iff its class is non-empty and then lists that class in summary order |
| Markdown.ReportTestImprovements | crates/llm-registry-benchmarks/src/markdown.rs:416-440 | of the test's two comparisons the −20 % one is the only improvement |
| Markdown.ReportTestRegressions | crates/llm-registry-benchmarks/src/markdown.rs:416-440 | of the test's two comparisons the +20 % one is the only regression |
| Markdown.ReportTestOrder | crates/llm-registry-benchmarks/src/markdown.rs:231-236 | the test's +20 % comparison sorts before its −20 % one |
| Markdown.ComparisonReportExample | crates/llm-registry-benchmarks/src/markdown.rs:416-441 | changes of −20 % and +20 % give one improvement and one regression, and the +20 % row comes first |
| Markdown.RegressionLines | crates/llm-registry-benchmarks/src/markdown.rs:320-335 | the first min(5, n) regressions in summary order, each with its id, change above 5 and both durations |
| Markdown.ImprovementLines | crates/llm-registry-benchmarks/src/markdown.rs:337-352 | the first min(5, n) improvements in summary order, each with its id, the negated change (above 5) and both durations |
| Markdown.DetailRows | crates/llm-registry-benchmarks/src/markdown.rs:363-370 | the collapsed table has one row per comparison, in summary order, with its id and percentage |
| Markdown.GeneratePrComment | crates/llm-registry-benchmarks/src/markdown.rs:305-375 | the "no significant change" line appears iff there is neither an improvement nor a regression; each non-empty class gets a section of its first min(5, n) members in summary order, each with its id, its shown percentage (the change for a regression, the negated change for an improvement; above 5 either way) and its baseline and current durations; the full table has one row per comparison in summary order |
| Markdown.PrCommentExample | crates/llm-registry-benchmarks/src/markdown.rs:443-459 | a single −10 % change gives an improvements section showing 10 % faster and no "no significant change" line |
| Adapters.FixedIds | crates/llm-registry-benchmarks/src/adapters.rs:25-27 | the six non-API adapters have fixed ids, whatever their parameters |
| Adapters.ApiId | crates/llm-registry-benchmarks/src/adapters.rs:198-200 | the id is "api." followed by the endpoint with each `/` rewritten to `_`; its length is 4 + the endpoint's; it contains no `/` |
| Adapters.IdShape | crates/llm-registry-benchmarks/src/lib.rs:50-54 | every id contains a `.` and no `/` |
| Adapters.ApiIdsCanCollide | crates/llm-registry-benchmarks/src/adapters.rs:199 | endpoints "/a" and "_a" get the same id |
| Adapters.Throughput | crates/llm-registry-benchmarks/src/adapters.rs:45 | throughput × duration = iterations × 1000 |
| Adapters.Run | crates/llm-registry-benchmarks/src/adapters.rs:33-52 | Success with the adapter's id and the measured duration; throughput present and equal to iterations per second; success count = iterations; error count 0; no memory, custom metrics, error or metadata |
| Adapters.DefaultApiId | crates/llm-registry-benchmarks/src/adapters.rs:315 | the default API target's id is "api._api_assets" |
| Adapters.DefaultBenchmarksShape | crates/llm-registry-benchmarks/src/adapters.rs:309-319 | seven targets, whose ids are the seven expected ones, pairwise distinct |
| Adapters.ExpectedIdsDistinct | crates/llm-registry-benchmarks/src/lib.rs:50-54 | the seven default ids are pairwise distinct |
| Lifecycle.DefaultDescription | crates/llm-registry-benchmarks/src/lib.rs:57-59 | the default description is "Benchmark: " followed by the id |
| Lifecycle.Execute | crates/llm-registry-benchmarks/src/lib.rs:86-100 | a failed setup gives Failed with the id and "Setup failed: " + message, and only setup is invoked; otherwise the run's result is returned and setup, run and teardown are invoked in that order; the result is failed iff setup or the run failed |
| Lifecycle.TeardownFollowsRun | crates/llm-registry-benchmarks/src/lib.rs:93-99 | teardown is invoked iff run is, at most once, right after it; its outcome never changes the result |
| Lifecycle.DefaultExecuteIsRun | crates/llm-registry-benchmarks/src/lib.rs:74-83 | with the default setup and teardown, `execute` returns `run`'s result |
| Lifecycle.RunTargets | crates/llm-registry-benchmarks/src/lib.rs:136-160 | one result per target, in list order, each that target's `execute`, a success with its id |
| Lifecycle.RunAllBenchmarks | crates/llm-registry-benchmarks/src/lib.rs:130-163 | seven results, in default-list order: result i is what `execute` returns for the i-th default target with its measured duration, a success with the i-th expected id |

## Left out

- Wall-clock time: `measure_async`, `measure_sync` and the simulated `sleep` loops in each adapter's `run`. `run` takes the measured duration as a parameter instead.
- Adapters.Run: requires a positive duration. The crate would divide by a zero measured duration and report an infinite throughput, or NaN for zero iterations.
- The `timestamp` field of a result, and every `Utc::now()`: in report headers and in file names.
- `BenchmarkMetadata::collect`, which reads the build environment and the CPU count.
- File-system I/O: `save_results`, `save_raw_results`, `load_results`, `save_results_csv` and `list_result_files`. Only the extension choice and the id sanitiser are modelled.
- JSON (de)serialisation and the serialisation round-trip test: the serde library is not part of this model.
- IEEE-754 behaviour. This covers NaN, which would make the `partial_cmp().unwrap()` sorts panic and the three classes non-exhaustive. It also covers rounding of the percentage and `{:.2}` / `{:+.1}` formatting.
- Exact Markdown text: headings, emoji, number formatting, and the MB/GB conversions. Only section presence, rows, counts and order are modelled. The one exception is the summary-line text under "Findings".
- Markdown.SortByChangeDesc: stated as sorted and a permutation. The stability of Rust's `sort_by` (equal changes keep summary order) is built into the definition but not proved.
- Markdown.GenerateComparisonReport: the detailed-table order is stated through `SortByChangeDesc`, so it inherits that lemma's missing stability statement.
- The adapters' own `description` texts, which only format the iteration count (and, for the search and API-request targets, the query or endpoint). The default `description` is modelled.
- Logging through `tracing`, including the teardown-failure warning and the per-result log lines of `run_all_benchmarks`.
- Whether the crate compiles as written. `generate_comparison_report` clones the comparison list (markdown.rs:231), but `BenchmarkComparison` derives only `Debug` (io.rs:213). The model takes the clone to be an ordinary copy of the list.
- The command-line binary (`bin/main.rs`): argument parsing, printing, and its format-name mapping.
- The rest of the LLM registry (asset registration, dependency graphs, storage, APIs). Its source is not part of this model.

## Findings

| source | as written | input that shows it | evidently intended | confidence | as-written member | corrected member |
|---|---|---|---|---|---|---|
| crates/llm-registry-benchmarks/src/markdown.rs:408-410 | the report test looks for `Total Benchmarks: 3` (and likewise `Successful: 2`, `Failed: 1`), but the report writes the count after the bold marker, as `- **Total Benchmarks:** 3`, `- **Successful:** 2 ✓` and `- **Failed:** 1 ✗` | the test's three results (two successes, one failure): no needle occurs in its line | look for the text the report writes, `Total Benchmarks:** 3`, or write the line without the markers between the colon and the count | high for the string mismatch; not executed | Markdown.ReportTestNeedleMissing | Markdown.ReportTestNeedleCorrected |
| crates/llm-registry-benchmarks/src/markdown.rs:439-440 | the comparison-report test looks for `Improvements: 1` and `Regressions: 1`, but the report writes `- **Improvements:** 1 🚀` and `- **Regressions:** 1 🐌` (lines 213-214) | the test's −20 % and +20 % comparisons: neither needle occurs in its line | look for `Improvements:** 1` and `Regressions:** 1` | high for the string mismatch; not executed | Markdown.ComparisonTestNeedlesMissing | Markdown.ReportTestNeedleCorrected |
