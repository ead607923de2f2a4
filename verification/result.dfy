/** The result record of one benchmark run: its status, the metrics it
    collected and the optional environment metadata, with the constructors
    and builders that produce them. */
module Results {
  import opened Wrappers

  /** Rust's `u64`. */
  type U64 = x: int | 0 <= x < 0x1_0000_0000_0000_0000

  /** Rust's `usize` on a 64-bit target. */
  type Usize = x: int | 0 <= x < 0x1_0000_0000_0000_0000

  /** How a benchmark run ended. */
  datatype BenchmarkStatus = Success | Failed | Skipped

  /** What a run measured. Every measurement except the duration is
      optional; `custom` holds named extra measurements. */
  datatype BenchmarkMetrics = BenchmarkMetrics(
    durationMs: real,
    throughputOpsPerSec: Option<real>,
    memoryBytes: Option<U64>,
    successCount: Option<U64>,
    errorCount: Option<U64>,
    custom: Option<map<string, real>>)

  /** Environment the benchmark ran in; every entry is optional. */
  datatype BenchmarkMetadata = BenchmarkMetadata(
    rustVersion: Option<string>,
    targetTriple: Option<string>,
    cpuModel: Option<string>,
    cpuCores: Option<Usize>,
    totalMemory: Option<U64>,
    osInfo: Option<string>,
    gitCommit: Option<string>,
    custom: Option<map<string, string>>)

  /** The outcome of one benchmark target. The wall-clock `timestamp` of
      the original record is not modelled. */
  datatype BenchmarkResult = BenchmarkResult(
    targetId: string,
    metrics: BenchmarkMetrics,
    metadata: Option<BenchmarkMetadata>,
    status: BenchmarkStatus,
    error: Option<string>)
  {
    /** `is_success`. */
    predicate IsSuccess() { status == Success }

    /** `is_failed`. */
    predicate IsFailed() { status == Failed }
  }

  /** The three status tests as plain predicates, for use with `Filter`. */
  predicate IsSuccessResult(r: BenchmarkResult) { r.IsSuccess() }
  predicate IsFailedResult(r: BenchmarkResult) { r.IsFailed() }
  predicate IsSkippedResult(r: BenchmarkResult) { r.status == Skipped }

  /** `is_success` and `is_failed` exclude each other, and both are false
      exactly for a skipped run. */
  lemma StatusPredicates(r: BenchmarkResult)
    ensures !(r.IsSuccess() && r.IsFailed())
    ensures (!r.IsSuccess() && !r.IsFailed()) <==> r.status == Skipped
  {
  }

  /** The metric fields, used to say which fields a builder may touch. */
  datatype MetricField = Duration | Throughput | Memory | SuccessCount | ErrorCount | Custom

  /** `a` and `b` agree on every metric field outside `changed`. */
  predicate AgreeExcept(a: BenchmarkMetrics, b: BenchmarkMetrics, changed: set<MetricField>)
  {
    && (Duration !in changed ==> a.durationMs == b.durationMs)
    && (Throughput !in changed ==> a.throughputOpsPerSec == b.throughputOpsPerSec)
    && (Memory !in changed ==> a.memoryBytes == b.memoryBytes)
    && (SuccessCount !in changed ==> a.successCount == b.successCount)
    && (ErrorCount !in changed ==> a.errorCount == b.errorCount)
    && (Custom !in changed ==> a.custom == b.custom)
  }

  /** True when no optional measurement is present. */
  predicate NoOptionalMetrics(m: BenchmarkMetrics)
  {
    && m.throughputOpsPerSec.None?
    && m.memoryBytes.None?
    && m.successCount.None?
    && m.errorCount.None?
    && m.custom.None?
  }

  /** `BenchmarkMetrics::new`: only the duration. */
  function NewMetrics(durationMs: real): (m: BenchmarkMetrics)
    ensures m.durationMs == durationMs
    ensures NoOptionalMetrics(m)
  {
    BenchmarkMetrics(durationMs, None, None, None, None, None)
  }

  /** `with_throughput`. */
  function WithThroughput(m: BenchmarkMetrics, opsPerSec: real): (r: BenchmarkMetrics)
    ensures r.throughputOpsPerSec == Some(opsPerSec)
    ensures AgreeExcept(m, r, {Throughput})
  {
    m.(throughputOpsPerSec := Some(opsPerSec))
  }

  /** `with_memory`. */
  function WithMemory(m: BenchmarkMetrics, bytes: U64): (r: BenchmarkMetrics)
    ensures r.memoryBytes == Some(bytes)
    ensures AgreeExcept(m, r, {Memory})
  {
    m.(memoryBytes := Some(bytes))
  }

  /** `with_counts`: sets both operation counts. */
  function WithCounts(m: BenchmarkMetrics, success: U64, errors: U64): (r: BenchmarkMetrics)
    ensures r.successCount == Some(success) && r.errorCount == Some(errors)
    ensures AgreeExcept(m, r, {SuccessCount, ErrorCount})
  {
    m.(successCount := Some(success), errorCount := Some(errors))
  }

  /** The keys of the custom-metric map, or none when there is no map. */
  function CustomKeys(m: BenchmarkMetrics): set<string>
  {
    if m.custom.Some? then m.custom.value.Keys else {}
  }

  /** `with_custom_metric`: creates the map when absent, then inserts
      (overwriting any earlier value for the same key). */
  function WithCustomMetric(m: BenchmarkMetrics, key: string, value: real): (r: BenchmarkMetrics)
    ensures r.custom.Some? && r.custom.value.Keys == CustomKeys(m) + {key}
    ensures r.custom.value[key] == value
    ensures forall k :: k in CustomKeys(m) && k != key ==> r.custom.value[k] == m.custom.value[k]
    ensures AgreeExcept(m, r, {Custom})
  {
    var prior := if m.custom.Some? then m.custom.value else map[];
    m.(custom := Some(prior[key := value]))
  }

  /** `BenchmarkResult::success`. */
  function SuccessResult(targetId: string, metrics: BenchmarkMetrics): (r: BenchmarkResult)
    ensures r.IsSuccess() && !r.IsFailed()
    ensures r.targetId == targetId && r.metrics == metrics
    ensures r.error.None? && r.metadata.None?
  {
    BenchmarkResult(targetId, metrics, None, Success, None)
  }

  /** `BenchmarkResult::failed`: zero duration, one error counted, the
      message kept. */
  function FailedResult(targetId: string, error: string): (r: BenchmarkResult)
    ensures r.IsFailed() && !r.IsSuccess()
    ensures r.targetId == targetId && r.error == Some(error) && r.metadata.None?
    ensures r.metrics.durationMs == 0.0 && r.metrics.errorCount == Some(1)
    ensures AgreeExcept(NewMetrics(0.0), r.metrics, {ErrorCount})
  {
    BenchmarkResult(targetId, NewMetrics(0.0).(errorCount := Some(1)), None, Failed, Some(error))
  }

  /** `BenchmarkResult::skipped`: zero duration and no measurement. */
  function SkippedResult(targetId: string): (r: BenchmarkResult)
    ensures !r.IsSuccess() && !r.IsFailed()
    ensures r.targetId == targetId && r.error.None? && r.metadata.None?
    ensures r.metrics.durationMs == 0.0 && NoOptionalMetrics(r.metrics)
  {
    BenchmarkResult(targetId, NewMetrics(0.0), None, Skipped, None)
  }

  /** `with_metadata`: attaches the metadata and nothing else. */
  function WithMetadata(r: BenchmarkResult, metadata: BenchmarkMetadata): (r': BenchmarkResult)
    ensures r'.metadata == Some(metadata)
    ensures r'.targetId == r.targetId && r'.metrics == r.metrics
    ensures r'.status == r.status && r'.error == r.error
  {
    r.(metadata := Some(metadata))
  }

  /** `BenchmarkMetadata::new`: every entry absent. */
  function NewMetadata(): (md: BenchmarkMetadata)
    ensures md.rustVersion.None? && md.targetTriple.None? && md.cpuModel.None?
    ensures md.cpuCores.None? && md.totalMemory.None? && md.osInfo.None?
    ensures md.gitCommit.None? && md.custom.None?
  {
    BenchmarkMetadata(None, None, None, None, None, None, None, None)
  }

  /** A chain of builders yields exactly the values supplied to it, for
      any values (the crate's builder test uses 100, 1000, 1 MiB, 50, 2
      and "latency_p99" = 250). */
  lemma BuilderChain(d: real, t: real, mem: U64, ok: U64, errs: U64, key: string, v: real)
    ensures
      var m := WithCustomMetric(WithCounts(WithMemory(WithThroughput(NewMetrics(d), t), mem), ok, errs), key, v);
      && m.durationMs == d
      && m.throughputOpsPerSec == Some(t)
      && m.memoryBytes == Some(mem)
      && m.successCount == Some(ok)
      && m.errorCount == Some(errs)
      && m.custom == Some(map[key := v])
  {
  }

  /** Builders of different fields commute, and a later call to the same
      builder overrides the earlier one. */
  lemma BuildersCommute(m: BenchmarkMetrics, t: real, t': real, mem: U64, ok: U64, errs: U64)
    ensures WithMemory(WithThroughput(m, t), mem) == WithThroughput(WithMemory(m, mem), t)
    ensures WithCounts(WithThroughput(m, t), ok, errs) == WithThroughput(WithCounts(m, ok, errs), t)
    ensures WithCounts(WithMemory(m, mem), ok, errs) == WithMemory(WithCounts(m, ok, errs), mem)
    ensures WithThroughput(WithThroughput(m, t), t') == WithThroughput(m, t')
  {
  }
}
