/**
 * The decisions of `compress_parquet_with_duckdb` in
 * rq_geo_toolkit/geoparquet_compression.py: the input/output precondition,
 * the fast path for a file without rows, the `read_parquet` source text, and
 * which metadata is carried over; then the hand-over to the retry loop.
 *
 * Paths are taken as already resolved (`resolve().as_posix()`) strings.
 * Reading a file's footer (`pq.read_metadata`) is a parameter: `None` when
 * the read raises.
 */
module Compression {
  import opened Wrappers
  import opened Joins
  import opened SqlEscape
  import opened KvMetadata
  import Executor

  /** A single input file, or a list of them read as one source. */
  datatype InputPaths = SinglePath(path: string) | PathList(paths: seq<string>)

  /** What the footer of the input says: its row count and key/value metadata. */
  datatype Footer = Footer(numRows: nat, metadata: Metadata)

  /** What the call does: move the file, or run the rewrite query with this metadata. */
  datatype Plan =
    | RenameToOutput(source: string, target: string)
    | RunQuery(query: string, metadata: Metadata)

  /** The job handed to the worker: the query, the output path and the metadata literal. */
  datatype RewriteJob = RewriteJob(query: string, outputPath: string, metadataLiteral: string)

  datatype CompressError =
    | SameInputAndOutput               // the AssertionError of the precondition
    | FooterUnreadable                 // pq.read_metadata raised
    | QueryFailed(error: Executor.RunError)

  /** `f"'{path}'"`: the path between quotes, not escaped. */
  function QuotePath(p: string): string
  {
    [QuoteChar] + p + [QuoteChar]
  }

  function QuotePaths(ps: seq<string>): (r: seq<string>)
    ensures |r| == |ps|
  {
    seq(|ps|, i requires 0 <= i < |ps| => QuotePath(ps[i]))
  }

  /** The first argument of `read_parquet`: `'p'`, or `['p1', 'p2', ...]`. */
  function SqlInput(input: InputPaths): string
  {
    match input
    case SinglePath(p) => QuotePath(p)
    case PathList(ps) => "[" + Join(", ", QuotePaths(ps)) + "]"
  }

  /** The rewrite query: every column of every input row, without hive partitioning. */
  function ReadQuery(sqlInput: string): string
  {
    "\n    SELECT original_data.*\n    FROM read_parquet(" + sqlInput + ", hive_partitioning=false) original_data\n    "
  }

  /**
   * The decisions taken before any rewrite: a single input equal to the
   * output fails first; a single input without rows is moved to the output;
   * otherwise the query is run, with the caller's metadata if given and the
   * footer's metadata if not.
   */
  function PlanCompression(input: InputPaths, output: string, supplied: Option<Metadata>, footer: Option<Footer>)
    : (r: Result<Plan, CompressError>)
    // the assertion fails exactly for a single input equal to the output
    ensures r == Err(SameInputAndOutput) <==> input.SinglePath? && input.path == output
    // the only other failure is an unreadable footer; every remaining case moves or runs
    ensures r.Err? ==> r.error.SameInputAndOutput? || r.error.FooterUnreadable?
    ensures r.Ok? && r.value.RenameToOutput? <==>
      input.SinglePath? && input.path != output && footer.Some? && footer.value.numRows == 0
    ensures r.Ok? && r.value.RenameToOutput? ==> r.value == RenameToOutput(input.path, output)
    ensures r.Ok? && r.value.RunQuery? ==> r.value.query == ReadQuery(SqlInput(input))
    // caller-supplied metadata wins over the footer's
    ensures r.Ok? && r.value.RunQuery? && supplied.Some? ==> r.value.metadata == supplied.value
    ensures r.Ok? && r.value.RunQuery? && supplied.None? ==>
      footer.Some? && r.value.metadata == footer.value.metadata
    ensures r == Err(FooterUnreadable) <==>
      footer.None? && !(input.SinglePath? && input.path == output) && (input.SinglePath? || supplied.None?)
  {
    if input.SinglePath? && input.path == output then Err(SameInputAndOutput)
    else if input.SinglePath? && footer.None? then Err(FooterUnreadable)
    else if input.SinglePath? && footer.value.numRows == 0 then Ok(RenameToOutput(input.path, output))
    else
      var query := ReadQuery(SqlInput(input));
      if supplied.Some? then Ok(RunQuery(query, supplied.value))
      else if footer.Some? then Ok(RunQuery(query, footer.value.metadata))
      else Err(FooterUnreadable)
  }

  /**
   * The whole call: plan, then either move the file or translate the
   * metadata and run the query under the retry loop, starting from the
   * default budget (no explicit limits). `job` is what the worker is given,
   * `run` is what the retry loop returned, both `None` when it was never
   * called; `tried` lists its attempts' budgets.
   */
  method CompressParquet(
    input: InputPaths, output: string, supplied: Option<Metadata>, footer: Option<Footer>,
    verbosity: Executor.Verbosity, totalBytes: nat, cpuCount: nat, oracle: nat -> Executor.Attempt)
    returns (r: Result<string, CompressError>, job: Option<RewriteJob>,
             run: Option<Result<Executor.Budget, Executor.RunError>>, tried: seq<Executor.Budget>)
    ensures r.Ok? ==> r.value == output
    ensures run.None? ==> tried == [] && job.None?
    // the retry loop runs exactly when the plan is to run the query
    ensures run.Some? <==> PlanCompression(input, output, supplied, footer).Ok? &&
                           PlanCompression(input, output, supplied, footer).value.RunQuery?
    ensures PlanCompression(input, output, supplied, footer).Err? ==>
      r == Err(PlanCompression(input, output, supplied, footer).error)
    ensures run.None? && PlanCompression(input, output, supplied, footer).Ok? ==> r == Ok(output)
    ensures run.Some? ==> (r.Ok? <==> run.value.Ok?)
    ensures run.Some? && run.value.Err? ==> r == Err(QueryFailed(run.value.error))
    // the worker gets the planned query, the output path and the translated metadata
    ensures run.Some? ==>
      var plan := PlanCompression(input, output, supplied, footer).value;
      job == Some(RewriteJob(plan.query, output, KvLiteral(plan.metadata)))
    // the retry loop starts from the default budget and keeps its own contract
    ensures run.Some? ==>
      var start := Executor.InitialBudget(0, 0, totalBytes, cpuCount);
      var threshold := Executor.PreemptionThreshold(totalBytes);
      && Executor.ShrinkChain(tried)
      && (tried == [] <==> start.memoryHalves == 0)
      && (tried != [] ==> tried[0] == start)
      && (tried == [] ==> run.value == Err(Executor.NoAttempt))
      && (forall k :: 0 <= k < |tried| - 1 ==> Executor.Verdict(oracle(k), threshold).Raised?)
      && (tried != [] ==> run.value == Executor.Settle(Executor.Verdict(oracle(|tried| - 1), threshold), tried[|tried| - 1]))
      && (tried != [] && Executor.Verdict(oracle(|tried| - 1), threshold).Raised? ==> tried[|tried| - 1].memoryHalves < 2)
      && |tried| <= Executor.AttemptCap(start.memoryHalves)
  {
    var plan := PlanCompression(input, output, supplied, footer);
    job, run, tried := None, None, [];
    match plan
    case Err(e) =>
      r := Err(e);
    case Ok(RenameToOutput(_, target)) =>
      r := Ok(target);
    case Ok(RunQuery(query, metadata)) =>
      var literal := KvMetadataLiteral(metadata);
      job := Some(RewriteJob(query, output, literal));
      var outcome, budgets, _ := Executor.RunQueryWithMemoryLimit(verbosity, 0, 0, totalBytes, cpuCount, oracle);
      run, tried := Some(outcome), budgets;
      r := if outcome.Ok? then Ok(output) else Err(QueryFailed(outcome.error));
  }

  // ---------------------------------------------------------------------
  // Reading the source text back

  /** Reads quoted paths separated by `, ` up to the end of `s`. */
  function ParsePathList(s: string): Option<seq<string>>
    decreases |s|, 1
  {
    if s == [] then Some([])
    else
      match ParseQuoted(s)
      case None => None
      case Some(p) => AfterPath(p.0, p.1)
  }

  function AfterPath(path: string, rest: string): Option<seq<string>>
    decreases |rest|, 0
  {
    if rest == [] then Some([path])
    else if |rest| >= 2 && rest[..2] == ", " then
      match ParsePathList(rest[2..])
      case None => None
      case Some(more) => Some([path] + more)
    else None
  }

  /** Reads a `read_parquet` source: a bracketed list or one quoted path. */
  function ParseSqlInput(s: string): Option<InputPaths>
  {
    if |s| >= 2 && s[0] == '[' && s[|s| - 1] == ']' then
      match ParsePathList(s[1..|s| - 1])
      case None => None
      case Some(ps) => Some(PathList(ps))
    else
      match ParseQuoted(s)
      case None => None
      case Some(p) => if p.1 == [] then Some(SinglePath(p.0)) else None
  }

  /** A path without quotes reads back whole from its quoted form, whatever follows. */
  lemma ParseQuotePath(p: string, rest: string)
    requires CountQuotes(p) == 0
    requires rest == [] || rest[0] != QuoteChar
    ensures ParseQuoted(QuotePath(p) + rest) == Some((p, rest))
  {
    ParseQuotedEscape(p, rest);
    assert QuotePath(p) + rest == [QuoteChar] + Escape(p) + [QuoteChar] + rest;
  }

  lemma {:induction false} ParsePathListJoin(ps: seq<string>)
    requires forall i :: 0 <= i < |ps| ==> CountQuotes(ps[i]) == 0
    ensures ParsePathList(Join(", ", QuotePaths(ps))) == Some(ps)
  {
    var lits := QuotePaths(ps);
    if |ps| == 1 {
      assert Join(", ", lits) == QuotePath(ps[0]) + [];
      ParseQuotePath(ps[0], []);
      assert ps == [ps[0]];
    } else if |ps| > 1 {
      var tail := ", " + Join(", ", lits[1..]);
      assert Join(", ", lits) == QuotePath(ps[0]) + tail;
      ParseQuotePath(ps[0], tail);
      assert tail[2..] == Join(", ", lits[1..]);
      assert lits[1..] == QuotePaths(ps[1..]);
      ParsePathListJoin(ps[1..]);
      assert ps == [ps[0]] + ps[1..];
    }
  }

  /** For paths without quotes, the source text reads back as the same input. */
  lemma SqlInputRoundTrip(input: InputPaths)
    requires input.SinglePath? ==> CountQuotes(input.path) == 0
    requires input.PathList? ==> forall i :: 0 <= i < |input.paths| ==> CountQuotes(input.paths[i]) == 0
    ensures ParseSqlInput(SqlInput(input)) == Some(input)
  {
    match input
    case SinglePath(p) =>
      ParseQuotePath(p, []);
      assert QuotePath(p) + [] == QuotePath(p);
    case PathList(ps) =>
      var s := SqlInput(input);
      var body := Join(", ", QuotePaths(ps));
      assert s == "[" + body + "]";
      assert s[1..|s| - 1] == body;
      ParsePathListJoin(ps);
  }

  /** An empty list of paths renders as `[]`. */
  lemma EmptyListInput()
    ensures SqlInput(PathList([])) == "[]"
  {
  }
}
