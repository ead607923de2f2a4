/** The benchmark-target lifecycle and the suite runner: a target is set
    up, run and torn down, and the suite runs every default target in
    list order. The effects of a target's hooks are abstracted into their
    outcomes: `setup` and `teardown` either succeed or fail with a message,
    and `run` yields the result it would return. */
module Lifecycle {
  import opened Wrappers
  import opened Results
  import opened Adapters

  /** The default `description`. Every adapter overrides it; this is what
      any other target would report. */
  function DefaultDescription(id: string): (d: string)
    ensures |d| == 11 + |id|
    ensures d[..11] == "Benchmark: " && d[11..] == id
  {
    "Benchmark: " + id
  }

  /** The three lifecycle hooks, as invoked. */
  datatype Hook = Setup | Run | Teardown

  /** The result of `execute` together with the hooks it invoked, in
      order. */
  datatype Execution = Execution(result: BenchmarkResult, invoked: seq<Hook>)

  /** `execute`: set up; if that fails, report a failure naming the target
      and stop; otherwise run, then attempt teardown (whatever the run's
      status) and return the run's result whatever teardown's outcome. */
  function Execute(id: string, setup: Outcome, run: BenchmarkResult, teardown: Outcome): (e: Execution)
    ensures setup.Err? ==> e.result == FailedResult(id, "Setup failed: " + setup.message)
    ensures setup.Err? ==> e.invoked == [Setup]
    ensures setup.Ok? ==> e.result == run
    ensures setup.Ok? ==> e.invoked == [Setup, Run, Teardown]
    ensures e.result.IsFailed() <==> setup.Err? || run.IsFailed()
  {
    match setup
    case Err(message) => Execution(FailedResult(id, "Setup failed: " + message), [Setup])
    case Ok => Execution(run, [Setup, Run, Teardown])
  }

  /** Teardown is attempted exactly when run was, once, after it; and the
      teardown's outcome never changes the result. */
  lemma TeardownFollowsRun(id: string, setup: Outcome, run: BenchmarkResult, t1: Outcome, t2: Outcome)
    ensures var calls := Execute(id, setup, run, t1).invoked;
            (Run in calls <==> Teardown in calls)
            && (Teardown in calls ==> calls[|calls| - 1] == Teardown && calls[|calls| - 2] == Run)
            && multiset(calls)[Teardown] <= 1
    ensures Execute(id, setup, run, t1).result == Execute(id, setup, run, t2).result
  {
  }

  /** With the default hooks, which always succeed, `execute` is `run`. */
  lemma DefaultExecuteIsRun(id: string, run: BenchmarkResult)
    ensures Execute(id, Ok, run, Ok).result == run
  {
  }

  /** Executes each target with its default hooks, in list order; the
      durations are the measured times, one per target. */
  method RunTargets(targets: seq<Adapter>, durationsMs: seq<real>) returns (results: seq<BenchmarkResult>)
    requires |durationsMs| == |targets|
    requires forall i :: 0 <= i < |durationsMs| ==> durationsMs[i] > 0.0
    ensures |results| == |targets|
    ensures forall i :: 0 <= i < |targets| ==>
              results[i] == Execute(Id(targets[i]), Ok, Adapters.Run(targets[i], durationsMs[i]), Ok).result
    ensures forall i :: 0 <= i < |targets| ==> results[i].targetId == Id(targets[i]) && results[i].IsSuccess()
  {
    results := [];
    var k := 0;
    while k < |targets|
      invariant 0 <= k <= |targets|
      invariant |results| == k
      invariant forall i :: 0 <= i < k ==>
                  results[i] == Execute(Id(targets[i]), Ok, Adapters.Run(targets[i], durationsMs[i]), Ok).result
    {
      var result := Execute(Id(targets[k]), Ok, Adapters.Run(targets[k], durationsMs[k]), Ok).result;
      results := results + [result];
      k := k + 1;
    }
  }

  /** `run_all_benchmarks`: one result per default target, in list order:
      result `i` is what executing the `i`-th default target returns for its
      measured duration, a success carrying that target's id. */
  method RunAllBenchmarks(durationsMs: seq<real>) returns (results: seq<BenchmarkResult>)
    requires |durationsMs| == |DefaultBenchmarks()|
    requires forall i :: 0 <= i < |durationsMs| ==> durationsMs[i] > 0.0
    ensures |results| == 7
    ensures forall i :: 0 <= i < 7 ==>
              results[i] == Execute(Id(DefaultBenchmarks()[i]), Ok, Adapters.Run(DefaultBenchmarks()[i], durationsMs[i]), Ok).result
    ensures forall i :: 0 <= i < 7 ==> results[i].targetId == ExpectedDefaultIds[i] && results[i].IsSuccess()
  {
    DefaultBenchmarksShape();
    results := RunTargets(DefaultBenchmarks(), durationsMs);
    assert forall i :: 0 <= i < 7 ==> results[i].targetId == DefaultIds()[i];
  }
}
