/** The seven benchmark adapters for registry operations: their stable
    ids, the shape of the result their `run` returns, and the default
    target list. Each adapter's `new` is its datatype constructor, which
    stores the iteration count (and the query or endpoint) as given. */
module Adapters {
  import opened Wrappers
  import opened Seqs
  import opened Results

  /** A benchmark target and its parameters. */
  datatype Adapter =
    | DbAssetCreate(iterations: Usize)
    | DbAssetRead(iterations: Usize)
    | CacheLookup(iterations: Usize)
    | Search(query: string, iterations: Usize)
    | ApiRequest(endpoint: string, iterations: Usize)
    | EventPublish(iterations: Usize)
    | Auth(iterations: Usize)

  /** The API-request id: `"api."` followed by the endpoint with every
      `/` turned into `_`. */
  function ApiId(endpoint: string): (id: string)
    ensures |id| == 4 + |endpoint|
    ensures id[..4] == "api."
    ensures '/' !in id
    ensures forall i :: 0 <= i < |endpoint| ==> id[4 + i] == (if endpoint[i] == '/' then '_' else endpoint[i])
  {
    ReplaceAllRemovesTargets(endpoint, {'/'}, '_');
    "api." + ReplaceAll(endpoint, {'/'}, '_')
  }

  /** `id()`: a stable `category.operation` name. */
  function Id(a: Adapter): string
  {
    match a
    case DbAssetCreate(_) => "db.asset_create"
    case DbAssetRead(_) => "db.asset_read"
    case CacheLookup(_) => "cache.lookup"
    case Search(_, _) => "search.query"
    case ApiRequest(endpoint, _) => ApiId(endpoint)
    case EventPublish(_) => "event.publish"
    case Auth(_) => "auth.validate_token"
  }

  /** Apart from the API-request target, an adapter's id is a fixed string
      whatever its iteration count or query. */
  lemma FixedIds(n: Usize, query: string)
    ensures Id(DbAssetCreate(n)) == "db.asset_create"
    ensures Id(DbAssetRead(n)) == "db.asset_read"
    ensures Id(CacheLookup(n)) == "cache.lookup"
    ensures Id(Search(query, n)) == "search.query"
    ensures Id(EventPublish(n)) == "event.publish"
    ensures Id(Auth(n)) == "auth.validate_token"
  {
  }

  /** Every id has the `category.operation` form, with a `.`, and none
      contains `/`, so an id can be used as a file-name component. */
  lemma IdShape(a: Adapter)
    ensures '.' in Id(a) && '/' !in Id(a)
  {
    if a.ApiRequest? {
      assert Id(a)[3] == Id(a)[..4][3] == '.';
    }
  }

  /** The `/` rewrite loses information: endpoints that differ only in
      `/` against `_` share an id. */
  lemma ApiIdsCanCollide()
    ensures ApiId("/a") == ApiId("_a")
  {
  }

  /** `run`: every adapter reports success with its own id, the measured
      duration, a throughput of `iterations / duration` operations per
      second (duration in milliseconds), `iterations` successes and no
      errors. The duration is the measured wall-clock time, supplied as a
      parameter. */
  function Run(a: Adapter, durationMs: real): (r: BenchmarkResult)
    requires durationMs > 0.0
    ensures r.IsSuccess() && r.targetId == Id(a)
    ensures r.error.None? && r.metadata.None?
    ensures r.metrics.durationMs == durationMs
    ensures r.metrics.throughputOpsPerSec.Some?
    ensures r.metrics.throughputOpsPerSec.value * durationMs == a.iterations as real * 1000.0
    ensures r.metrics.successCount == Some(a.iterations) && r.metrics.errorCount == Some(0)
    ensures r.metrics.memoryBytes.None? && r.metrics.custom.None?
  {
    var throughput := Throughput(a.iterations, durationMs);
    var metrics := WithCounts(WithThroughput(NewMetrics(durationMs), throughput), a.iterations, 0);
    SuccessResult(Id(a), metrics)
  }

  /** Operations per second for `iterations` operations in `durationMs`
      milliseconds. */
  function Throughput(iterations: Usize, durationMs: real): (opsPerSec: real)
    requires durationMs > 0.0
    ensures opsPerSec * durationMs == iterations as real * 1000.0
  {
    var n := iterations as real;
    assert (n / durationMs) * durationMs == n;
    (n / durationMs) * 1000.0
  }

  /** `create_default_benchmarks`. */
  function DefaultBenchmarks(): seq<Adapter>
  {
    [ DbAssetCreate(100),
      DbAssetRead(100),
      CacheLookup(1000),
      Search("test query", 50),
      ApiRequest("/api/assets", 100),
      EventPublish(100),
      Auth(200) ]
  }

  /** The id of the default API-request target. */
  lemma DefaultApiId()
    ensures ApiId("/api/assets") == "api._api_assets"
  {
    var endpoint := "/api/assets";
    var r := ReplaceAll(endpoint, {'/'}, '_');
    var expected := "_api_assets";
    assert |r| == |expected| == 11;
    forall i | 0 <= i < 11
      ensures r[i] == expected[i]
    {
      if i == 0 || i == 4 {
        assert endpoint[i] in {'/'};
      } else {
        assert endpoint[i] !in {'/'} && endpoint[i] == expected[i];
      }
    }
    assert r == expected;
  }

  /** The ids of the default targets, in list order. */
  function DefaultIds(): seq<string>
  {
    seq(|DefaultBenchmarks()|, i requires 0 <= i < |DefaultBenchmarks()| => Id(DefaultBenchmarks()[i]))
  }

  /** The seven ids, as literals. */
  const ExpectedDefaultIds: seq<string> :=
    ["db.asset_create", "db.asset_read", "cache.lookup", "search.query",
     "api._api_assets", "event.publish", "auth.validate_token"]

  /** The default list has seven targets with the expected ids, pairwise
      distinct as the stable-unique-id contract of a target requires. */
  lemma DefaultBenchmarksShape()
    ensures |DefaultBenchmarks()| == 7
    ensures DefaultIds() == ExpectedDefaultIds
    ensures forall i, j :: 0 <= i < j < |DefaultIds()| ==> DefaultIds()[i] != DefaultIds()[j]
  {
    var ids := DefaultIds();
    var e := ExpectedDefaultIds;
    assert |ids| == 7 == |e|;
    assert ids[0] == e[0] by { assert ids[0] == Id(DbAssetCreate(100)); }
    assert ids[1] == e[1] by { assert ids[1] == Id(DbAssetRead(100)); }
    assert ids[2] == e[2] by { assert ids[2] == Id(CacheLookup(1000)); }
    assert ids[3] == e[3] by { assert ids[3] == Id(Search("test query", 50)); }
    assert ids[4] == e[4] by { DefaultApiId(); assert ids[4] == ApiId("/api/assets"); }
    assert ids[5] == e[5] by { assert ids[5] == Id(EventPublish(100)); }
    assert ids[6] == e[6] by { assert ids[6] == Id(Auth(200)); }
    assert ids == e;
    ExpectedIdsDistinct();
  }

  /** The seven expected ids differ pairwise: their lengths are 15, 13,
      12, 12, 15, 13, 19 and the equal-length ones differ in their first
      character. */
  lemma ExpectedIdsDistinct()
    ensures forall i, j :: 0 <= i < j < |ExpectedDefaultIds| ==> ExpectedDefaultIds[i] != ExpectedDefaultIds[j]
  {
    var e := ExpectedDefaultIds;
    forall i, j | 0 <= i < j < |e| ensures e[i] != e[j] {
      assert |e[i]| != |e[j]| || e[i][0] != e[j][0];
    }
  }
}
