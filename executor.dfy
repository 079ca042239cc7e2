/**
 * The resource-adaptive retry loop (`_run_query_with_memory_limit` in
 * rq_geo_toolkit/geoparquet_compression.py).
 *
 * A job runs in a worker under a budget (memory limit, thread count). While
 * the worker has not finished, the supervisor samples host memory usage and
 * preempts the attempt once a sample exceeds a threshold. An engine
 * out-of-memory error, or a preemption, shrinks the budget and starts a new
 * attempt; once memory is already below 1 GB the call fails for good. Any
 * other error of the job is passed on unchanged.
 *
 * The worker process, its pool and the timing of the polls are replaced by an
 * oracle: attempt number k (counting from 0) meets `oracle(k)`, which lists the
 * memory readings the supervisor takes while that attempt is still running and
 * what the worker reports if it is allowed to finish.
 *
 * Memory limits are counted in half gigabytes (`memoryHalves`): the source's
 * limits are positive whole gigabytes or 0.5.
 */
module Executor {
  import opened Wrappers

  /** MEMORY_1GB: one gibibyte, in bytes. */
  const OneGiB: nat := 1073741824

  /** The verbosity modes shared by the entry points. */
  datatype Verbosity = Silent | Transient | Verbose

  /** Memory limit in half gigabytes (1 stands for 0.5 GB) and thread limit. */
  datatype Budget = Budget(memoryHalves: nat, threads: nat)

  /** The two exceptions that make the loop shrink and retry. */
  datatype Fault = OutOfMemoryException | MemoryError

  /** What `r.get()` yields once the worker has finished. */
  datatype WorkerResult =
    | Completed
    | Raised(fault: Fault)
    | Failed(exception: string)   // any other exception, by class name

  /** One attempt as seen by the supervisor: readings taken while it runs, then its result. */
  datatype Attempt = Attempt(samples: seq<real>, result: WorkerResult)

  datatype RunError =
    | BudgetFloor                 // RuntimeError: out of memory with less than 1 GB left
    | JobFailed(exception: string) // the job's own exception, propagated
    | NoAttempt                   // RuntimeError after the loop: the start budget had no memory

  /** The retry notice: the exception met and the budget of the next attempt. */
  datatype Notice = Notice(cause: Fault, budget: Budget)

  // ---------------------------------------------------------------------
  // Start budget

  /** `ceil(total / MEMORY_1GB)`: the least whole number of GiB covering the host's memory. */
  function DefaultMemoryGb(totalBytes: nat): (gb: nat)
    ensures gb * OneGiB >= totalBytes
    ensures gb > 0 ==> (gb - 1) * OneGiB < totalBytes
  {
    (totalBytes + OneGiB - 1) / OneGiB
  }

  /**
   * A missing or zero limit (Python's `or`) is replaced by the default: the
   * host's memory rounded up to whole GiB, and the CPU count.
   */
  function InitialBudget(requestedHalves: nat, requestedThreads: nat, totalBytes: nat, cpuCount: nat): (b: Budget)
    ensures requestedHalves > 0 ==> b.memoryHalves == requestedHalves
    ensures requestedHalves == 0 ==> b.memoryHalves == 2 * DefaultMemoryGb(totalBytes)
    ensures b.memoryHalves > 0 <==> requestedHalves > 0 || totalBytes > 0
    ensures requestedThreads > 0 ==> b.threads == requestedThreads
    ensures requestedThreads == 0 ==> b.threads == cpuCount
  {
    Budget(if requestedHalves > 0 then requestedHalves else 2 * DefaultMemoryGb(totalBytes),
           if requestedThreads > 0 then requestedThreads else cpuCount)
  }

  // ---------------------------------------------------------------------
  // Preemption

  function MinReal(a: real, b: real): real
  {
    if a <= b then a else b
  }

  /**
   * The usage percentage above which an attempt is preempted: 95, unless 5%
   * of the host's memory is more than 1 GiB, in which case the threshold
   * leaves exactly 1 GiB free. Either way the memory left free at the
   * threshold is the smaller of 5% of the total and 1 GiB.
   */
  function PreemptionThreshold(totalBytes: nat): (th: real)
    ensures 95.0 <= th < 100.0
    ensures totalBytes == 0 ==> th == 95.0
    ensures totalBytes > 0 ==>
      (100.0 - th) * (totalBytes as real) == 100.0 * MinReal((totalBytes as real) * 0.05, OneGiB as real)
  {
    var total := totalBytes as real;
    var gib := OneGiB as real;
    if total * 0.05 > gib then
      var th := 100.0 * (total - gib) / total;
      assert (100.0 - th) * total == 100.0 * gib by {
        assert th * total == 100.0 * (total - gib);
      }
      assert th > 95.0 by {
        assert th * total == 100.0 * total - 100.0 * gib;
        assert 100.0 * gib < 5.0 * total;
      }
      th
    else
      95.0
  }

  /** Some reading taken while the attempt ran lies above the threshold. */
  predicate Exceeds(samples: seq<real>, threshold: real)
  {
    exists k :: 0 <= k < |samples| && samples[k] > threshold
  }

  /**
   * The polling loop: reads samples while the worker runs and stops at the
   * first one above the threshold (the source raises MemoryError there).
   * `polls` is the number of readings taken.
   */
  method Supervise(samples: seq<real>, threshold: real) returns (preempted: bool, polls: nat)
    ensures preempted <==> Exceeds(samples, threshold)
    ensures polls <= |samples|
    ensures preempted ==> 0 < polls && samples[polls - 1] > threshold
    ensures !preempted ==> polls == |samples|
    ensures forall k :: 0 <= k < polls - 1 ==> samples[k] <= threshold
  {
    preempted, polls := false, 0;
    while polls < |samples|
      invariant polls <= |samples|
      invariant forall k :: 0 <= k < polls ==> samples[k] <= threshold
    {
      var percent := samples[polls];
      polls := polls + 1;
      if percent > threshold {
        preempted := true;
        return;
      }
    }
  }

  /** What an attempt comes to: a preemption counts as MemoryError, otherwise the worker's result. */
  function Verdict(a: Attempt, threshold: real): WorkerResult
  {
    if Exceeds(a.samples, threshold) then Raised(MemoryError) else a.result
  }

  // ---------------------------------------------------------------------
  // Shrinking

  /** Memory: 1 GB becomes 0.5 GB, m GB becomes ceil(m / 2) GB. */
  function HalveMemory(halves: nat): (r: nat)
    requires halves >= 2
    ensures 1 <= r < halves
    ensures halves == 2 ==> r == 1
    // in GB, r / 2 is a whole number n with 2n >= halves / 2 > 2n - 2, i.e. n == ceil(m / 2)
    ensures halves > 2 ==> r % 2 == 0 && 2 * r >= halves > 2 * r - 4
  {
    if halves == 2 then 1 else 2 * ((halves + 3) / 4)
  }

  /** Threads: t becomes ceil(t / 2). */
  function HalveThreads(threads: nat): (r: nat)
    ensures 2 * r >= threads > 2 * r - 2
    ensures r <= threads
    ensures threads >= 1 ==> r >= 1
  {
    (threads + 1) / 2
  }

  /** The budget of the next attempt after an out-of-memory attempt. */
  function Shrink(b: Budget): Budget
    requires b.memoryHalves >= 2
  {
    Budget(HalveMemory(b.memoryHalves), HalveThreads(b.threads))
  }

  /** Each budget of the sequence had memory of at least 1 GB and was shrunk into the next. */
  ghost predicate ShrinkChain(tried: seq<Budget>)
  {
    forall k :: 0 <= k < |tried| - 1 ==> tried[k].memoryHalves >= 2 && tried[k + 1] == Shrink(tried[k])
  }

  /** The most attempts a call starting with `halves` of memory can make. */
  function AttemptCap(halves: nat): nat
  {
    if halves == 0 then 0
    else if halves == 1 then 1
    else 1 + AttemptCap(HalveMemory(halves))
  }

  /** How the call ends once the last attempt came to `verdict` under `last`. */
  function Settle(verdict: WorkerResult, last: Budget): Result<Budget, RunError>
  {
    match verdict
    case Completed => Ok(last)
    case Failed(name) => Err(JobFailed(name))
    case Raised(_) => Err(BudgetFloor)
  }

  // ---------------------------------------------------------------------
  // The loop

  /**
   * Runs the job until an attempt finishes, fails with a non-memory error,
   * or runs out of memory below 1 GB. Returns the outcome, the budgets of
   * the attempts in order (`tried`), and the retry notices printed.
   */
  method RunQueryWithMemoryLimit(
    verbosity: Verbosity, requestedHalves: nat, requestedThreads: nat,
    totalBytes: nat, cpuCount: nat, oracle: nat -> Attempt)
    returns (result: Result<Budget, RunError>, tried: seq<Budget>, notices: seq<Notice>)
    // the first attempt runs under the start budget; there is none only if that has no memory
    ensures var start := InitialBudget(requestedHalves, requestedThreads, totalBytes, cpuCount);
      (tried == [] <==> start.memoryHalves == 0) && (tried != [] ==> tried[0] == start)
    ensures tried == [] ==> result == Err(NoAttempt)
    // every attempt but the last ran out of memory, and the next one ran under the shrunk budget
    ensures ShrinkChain(tried)
    ensures forall k :: 0 <= k < |tried| - 1 ==> Verdict(oracle(k), PreemptionThreshold(totalBytes)).Raised?
    // the last attempt decides: success returns its budget, another error propagates,
    // running out of memory ends the call only below 1 GB
    ensures tried != [] ==>
      var verdict := Verdict(oracle(|tried| - 1), PreemptionThreshold(totalBytes));
      result == Settle(verdict, tried[|tried| - 1]) &&
      (verdict.Raised? ==> tried[|tried| - 1].memoryHalves < 2)
    ensures |tried| <= AttemptCap(InitialBudget(requestedHalves, requestedThreads, totalBytes, cpuCount).memoryHalves)
    // if every attempt runs out of memory, the call makes exactly AttemptCap attempts and hits the floor
    ensures (forall k :: Verdict(oracle(k), PreemptionThreshold(totalBytes)).Raised?) && tried != [] ==>
      result == Err(BudgetFloor) &&
      |tried| == AttemptCap(InitialBudget(requestedHalves, requestedThreads, totalBytes, cpuCount).memoryHalves)
    // one notice per shrink unless silent, naming the cause and the new budget
    ensures |notices| == if verbosity == Silent || tried == [] then 0 else |tried| - 1
    ensures forall k :: 0 <= k < |notices| ==>
      notices[k] == Notice(Verdict(oracle(k), PreemptionThreshold(totalBytes)).fault, tried[k + 1])
  {
    var budget := InitialBudget(requestedHalves, requestedThreads, totalBytes, cpuCount);
    ghost var start := budget;
    tried, notices := [], [];
    while budget.memoryHalves > 0
      invariant tried == [] ==> budget == start
      invariant tried != [] ==> tried[0] == start && tried[|tried| - 1].memoryHalves >= 2
      invariant tried != [] ==> budget == Shrink(tried[|tried| - 1])
      invariant ShrinkChain(tried)
      invariant forall k :: 0 <= k < |tried| ==> Verdict(oracle(k), PreemptionThreshold(totalBytes)).Raised?
      invariant |notices| == if verbosity == Silent then 0 else |tried|
      invariant forall k :: 0 <= k < |notices| - 1 ==>
        notices[k] == Notice(Verdict(oracle(k), PreemptionThreshold(totalBytes)).fault, tried[k + 1])
      invariant notices != [] ==>
        notices[|notices| - 1] == Notice(Verdict(oracle(|tried| - 1), PreemptionThreshold(totalBytes)).fault, budget)
      decreases budget.memoryHalves
    {
      var threshold := PreemptionThreshold(totalBytes);
      var verdict := RunAttempt(oracle(|tried|), threshold);
      ghost var before := tried;
      tried := tried + [budget];
      assert ShrinkChain(tried) by {
        if before != [] {
          assert tried[|before| - 1] == before[|before| - 1];
        }
      }
      match verdict
      case Completed =>
        result := Ok(budget);
        ChainLength(tried);
        return;
      case Failed(name) =>
        result := Err(JobFailed(name));
        ChainLength(tried);
        return;
      case Raised(fault) =>
        if budget.memoryHalves < 2 {
          result := Err(BudgetFloor);
          ChainLength(tried);
          return;
        }
        budget := Shrink(budget);
        if verbosity != Silent {
          notices := notices + [Notice(fault, budget)];
        }
    }
    result := Err(NoAttempt);
  }

  /** One attempt: supervise it while it runs, then take its result unless it was preempted. */
  method RunAttempt(attempt: Attempt, threshold: real) returns (verdict: WorkerResult)
    ensures verdict == Verdict(attempt, threshold)
  {
    var preempted, _ := Supervise(attempt.samples, threshold);
    if preempted {
      verdict := Raised(MemoryError);
    } else {
      verdict := attempt.result;
    }
  }

  // ---------------------------------------------------------------------
  // Properties of the budget sequence

  /** Along a shrink chain memory strictly decreases, and threads never increase and stay at least 1. */
  lemma {:induction false} ChainMonotone(tried: seq<Budget>, i: nat, j: nat)
    requires ShrinkChain(tried)
    requires i < j < |tried|
    ensures tried[j].memoryHalves < tried[i].memoryHalves
    ensures tried[j].threads <= tried[i].threads
    ensures tried[i].threads >= 1 ==> tried[j].threads >= 1
  {
    if j > i + 1 {
      ChainMonotone(tried, i, j - 1);
    }
  }

  /** Starting from whole gigabytes, every budget is whole gigabytes or 0.5 GB. */
  lemma {:induction false} ChainMemoryShape(tried: seq<Budget>, k: nat)
    requires ShrinkChain(tried)
    requires k < |tried|
    requires tried[0].memoryHalves > 0 && tried[0].memoryHalves % 2 == 0
    ensures tried[k].memoryHalves == 1 || (tried[k].memoryHalves > 0 && tried[k].memoryHalves % 2 == 0)
  {
    if k > 0 {
      ChainMemoryShape(tried, k - 1);
    }
  }

  /**
   * A shrink chain that starts with some memory is at most `AttemptCap` long,
   * and exactly that long when it ends below 1 GB.
   */
  lemma {:induction false} ChainLength(tried: seq<Budget>)
    requires ShrinkChain(tried)
    requires tried != [] && tried[0].memoryHalves > 0
    ensures |tried| <= AttemptCap(tried[0].memoryHalves)
    ensures tried[|tried| - 1].memoryHalves < 2 ==> |tried| == AttemptCap(tried[0].memoryHalves)
  {
    if |tried| > 1 {
      assert ShrinkChain(tried[1..]);
      ChainLength(tried[1..]);
    }
  }

  /** `ceil(log2 m)` for m >= 1. */
  function CeilLog2(m: nat): nat
    requires m >= 1
  {
    if m == 1 then 0 else 1 + CeilLog2((m + 1) / 2)
  }

  function Pow2(n: nat): (r: nat)
    ensures r >= 1
  {
    if n == 0 then 1 else 2 * Pow2(n - 1)
  }

  /** `CeilLog2(m)` is the least c with m <= 2^c. */
  lemma {:induction false} CeilLog2Bounds(m: nat)
    requires m >= 1
    ensures m <= Pow2(CeilLog2(m))
    ensures CeilLog2(m) > 0 ==> Pow2(CeilLog2(m) - 1) < m
  {
    if m > 1 {
      CeilLog2Bounds((m + 1) / 2);
    }
  }

  /** From m whole gigabytes the call makes at most ceil(log2 m) + 2 attempts (8 -> 4 -> 2 -> 1 -> 0.5). */
  lemma {:induction false} AttemptCapLog(m: nat)
    requires m >= 1
    ensures AttemptCap(2 * m) == CeilLog2(m) + 2
  {
    if m > 1 {
      assert HalveMemory(2 * m) == 2 * ((m + 1) / 2) by {
        if m % 2 == 0 {
          assert (2 * m + 3) / 4 == m / 2;
        } else {
          assert (2 * m + 3) / 4 == (m + 1) / 2;
        }
      }
      AttemptCapLog((m + 1) / 2);
    }
  }

  /** The run that is preempted every time on an 8 GiB host: 8 -> 4 -> 2 -> 1 -> 0.5 GB, then the floor error. */
  lemma EightGiBFloorChain(tried: seq<Budget>, cpuCount: nat)
    requires ShrinkChain(tried)
    requires tried != [] && tried[0] == InitialBudget(0, 0, 8 * OneGiB, cpuCount)
    requires tried[|tried| - 1].memoryHalves < 2
    ensures |tried| == 5
    ensures tried[0].memoryHalves == 16 && tried[1].memoryHalves == 8 && tried[2].memoryHalves == 4
    ensures tried[3].memoryHalves == 2 && tried[4].memoryHalves == 1
    ensures tried[1].threads == HalveThreads(cpuCount) && tried[4].threads == HalveThreads(HalveThreads(HalveThreads(HalveThreads(cpuCount))))
  {
    assert DefaultMemoryGb(8 * OneGiB) == 8;
    ChainLength(tried);
    assert AttemptCap(16) == 5 by {
      assert HalveMemory(16) == 8 && HalveMemory(8) == 4 && HalveMemory(4) == 2 && HalveMemory(2) == 1;
    }
  }

  /** On a 64 GiB host, 5% would be 3.2 GiB, so the threshold leaves 1 GiB: 100 * 63 / 64 percent. */
  lemma LargeHostThreshold()
    ensures PreemptionThreshold(64 * OneGiB) == 98.4375
    ensures PreemptionThreshold(8 * OneGiB) == 95.0
  {
  }
}
