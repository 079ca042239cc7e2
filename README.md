# rq_geo_toolkit: resource-adaptive GeoParquet rewrite, modelled in Dafny

This project models the core of `rq_geo_toolkit`'s GeoParquet compression:

- **the retry loop** `_run_query_with_memory_limit` (module `Executor`). It runs a rewrite job
  under a budget of memory (GB) and threads. While the job runs, it polls host memory and
  preempts the job once usage passes a threshold. After an engine out-of-memory error or a
  preemption it halves the budget and tries again. Below 1 GB it gives up.
- **the metadata translator** `_parquet_schema_metadata_to_duckdb_kv_metadata` (module
  `KvMetadata`). It turns footer key/value pairs into `{ 'k': 'v', ... }`.
- **the single-quote escape** `sql_escape` (module `SqlEscape`). The translator's own
  `escape_single_quotes` helper is the same function.
- **the decisions of `compress_parquet_with_duckdb`** (module `Compression`): the
  input/output precondition, the fast path for a file without rows, the `read_parquet`
  source text, and which metadata wins.
- **polygon selection and the "not geocoded" errors** of `geocode.py` (module `Geocode`).

The model replaces the parts it cannot see with parameters:

- The worker process is an oracle. Attempt `k` meets `oracle(k)`: the memory percentages
  sampled while it runs, and what the worker reports if it gets to finish.
- The host's total memory, its CPU count, the file footer read by `pq.read_metadata` and
  the geocoding service's answers are all inputs.

Memory limits are counted in half gigabytes (`memoryHalves`), because every limit the loop
produces is a whole number of GB or 0.5. The preemption threshold is exact `real`
arithmetic. `MEMORY_1GB` is taken as 1 GiB (2^30 bytes); `rq_geo_toolkit/constants.py` is
not part of this model.

What is proved, in short:

- Escaping is invertible, and its output has one extra character per quote.
- The metadata literal reads back as the same pairs, in order.
- The retry loop:
  - makes attempts under a strictly shrinking memory budget;
  - never raises thread counts, and keeps them at least 1;
  - never makes more than `ceil(log2 m) + 2` attempts from m GB;
  - reaches the fall-through error only with no memory at all;
  - returns exactly the budget that succeeded;
  - passes any other error on without retrying;
  - prints one notice per shrink unless silent.
- The threshold is at least 95% and leaves min(5% of total, 1 GiB) free.
- The polygon chosen is the most important polygonal result, with ties going to the
  earliest; none is chosen exactly when no result is polygonal.
- The input list is never changed, because Dafny sequences are values.

## Model

| member | source | states |
|---|---|---|
| `SqlEscape.Escape` | rq_geo_toolkit/duckdb.py:9-11 | the escaped text is as long as the input plus its number of quotes; text without quotes is returned unchanged |
| `SqlEscape.EscapeConcat` | rq_geo_toolkit/duckdb.py:11 | escaping works character by character: it distributes over concatenation, so characters keep their order and only quotes change |
| `SqlEscape.UnescapeEscape` | rq_geo_toolkit/duckdb.py:11 | collapsing every doubled quote of the escaped text gives back the input |
| `SqlEscape.EscapeInjective` | rq_geo_toolkit/duckdb.py:11 | two strings with the same escaped form are equal |
| `SqlEscape.ParseQuotedEscape` | rq_geo_toolkit/geoparquet_compression.py:259-266 | a quoted, escaped string reads back as the original string, when followed by anything that does not start with a quote |
| `Joins.Join` | rq_geo_toolkit/geoparquet_compression.py:268 | `", ".join` gives the empty string for no parts, the part itself for one part, and otherwise starts with the first part |
| `Joins.JoinAppend` | rq_geo_toolkit/geoparquet_compression.py:268 | joining two non-empty runs of parts is joining each run and putting exactly one separator between them |
| `KvMetadata.KvMetadataLiteral` | rq_geo_toolkit/geoparquet_compression.py:256-268 | the loop's literal is `"{ "` + the `'k': 'v'` entries (key and value escaped), in insertion order, joined by `", "` + `" }"` |
| `KvMetadata.KvLiteralRoundTrip` | rq_geo_toolkit/geoparquet_compression.py:256-268 | reading the literal back gives exactly the original pairs, in order |
| `KvMetadata.EmptyLiteral` | rq_geo_toolkit/geoparquet_compression.py:268 | no metadata gives `{  }` |
| `Executor.DefaultMemoryGb` | rq_geo_toolkit/geoparquet_compression.py:198-200 | the default limit is the least whole number of GiB that covers the host's memory |
| `Executor.InitialBudget` | rq_geo_toolkit/geoparquet_compression.py:198-201 | a missing or zero limit is replaced by that default and by the CPU count; the start memory is zero only when no limit is given and the host reports no memory |
| `Executor.PreemptionThreshold` | rq_geo_toolkit/geoparquet_compression.py:219-224 | the threshold is between 95 and 100 percent, is 95 when the host reports no memory, and otherwise leaves min(5% of total, 1 GiB) free |
| `Executor.LargeHostThreshold` | rq_geo_toolkit/geoparquet_compression.py:219-224 | 64 GiB gives 98.4375 (100 x 63 / 64); 8 GiB gives 95 |
| `Executor.Supervise` | rq_geo_toolkit/geoparquet_compression.py:225-230 | an attempt is preempted iff some sample taken while it runs exceeds the threshold; polling stops at the first such sample, and every earlier sample is within the threshold |
| `Executor.RunAttempt` | rq_geo_toolkit/geoparquet_compression.py:219-231 | an attempt's outcome is `Verdict`: a MemoryError when `Supervise` preempts it, and otherwise the worker's own result |
| `Executor.HalveMemory` | rq_geo_toolkit/geoparquet_compression.py:239-242 | 1 GB becomes 0.5 GB; m GB becomes ceil(m/2) whole GB; the result is positive and strictly smaller |
| `Executor.HalveThreads` | rq_geo_toolkit/geoparquet_compression.py:244 | t threads become ceil(t/2), never more than t, and at least 1 when t is |
| `Executor.RunQueryWithMemoryLimit` | rq_geo_toolkit/geoparquet_compression.py:190-253 | the first attempt runs under the start budget. Each attempt but the last ran out of memory, and the next one ran under the shrunk budget. The last attempt decides the outcome: success returns its own budget; another error propagates; out of memory fails only below 1 GB. The run makes at most AttemptCap attempts, exactly that many when every attempt runs out of memory, and then ends with the floor error. The fall-through error happens only when no attempt is made. One notice per shrink, unless silent, names the cause and the new budget |
| `Executor.ChainMonotone` | rq_geo_toolkit/geoparquet_compression.py:239-244 | across attempts memory strictly decreases, threads never increase, and threads stay at least 1 |
| `Executor.ChainMemoryShape` | rq_geo_toolkit/geoparquet_compression.py:198-244 | starting from whole GB, every budget is a positive whole number of GB or 0.5 GB |
| `Executor.ChainLength` | rq_geo_toolkit/geoparquet_compression.py:203-244 | the attempts number at most AttemptCap of the start memory, and exactly that many when the last is below 1 GB |
| `Executor.AttemptCapLog` | rq_geo_toolkit/geoparquet_compression.py:233-244 | from m whole GB, AttemptCap is ceil(log2 m) + 2 |
| `Executor.CeilLog2Bounds` | rq_geo_toolkit/geoparquet_compression.py:242 | CeilLog2(m) is the least c with m <= 2^c |
| `Executor.EightGiBFloorChain` | rq_geo_toolkit/geoparquet_compression.py:198-244 | on an 8 GiB host where every attempt runs out of memory, memory goes 8, 4, 2, 1, 0.5 GB and threads halve four times |
| `Compression.PlanCompression` | rq_geo_toolkit/geoparquet_compression.py:63-86 | the same-path error happens iff a single input equals the output, whatever the footer; a single input with zero rows, and only that, is moved to the output; otherwise the query reads the rendered source, with supplied metadata preferred to the footer's; a footer read that raises is an error exactly where the code reads it; no other error is possible |
| `Compression.CompressParquet` | rq_geo_toolkit/geoparquet_compression.py:63-155 | the retry loop runs exactly when the plan is to run the query, so precondition failures and the zero-row move never reach it. The job it runs is the planned query, the output path and the metadata literal of the chosen metadata. The loop starts from the default budget (no explicit limits) and keeps its whole contract: a shrinking chain, every attempt but the last out of memory, the last deciding, out of memory ending the loop only below 1 GB, and at most AttemptCap attempts. Success returns the output path, and a loop failure is passed on |
| `Compression.SqlInputRoundTrip` | rq_geo_toolkit/geoparquet_compression.py:75-79 | for paths without quotes, the `read_parquet` source text (`SqlInput`, built with `QuotePath`) reads back as the same single path or the same list of paths, in order |
| `Compression.EmptyListInput` | rq_geo_toolkit/geoparquet_compression.py:78-79 | an empty list renders as `[]` |
| `Geocode.SortByImportance` | rq_geo_toolkit/geocode.py:67 | the sorted list is a permutation of the results, in descending importance |
| `Geocode.InsertSorted` | rq_geo_toolkit/geocode.py:67 | inserting one result keeps a list sorted by descending importance |
| `Geocode.FirstPolygonal` | rq_geo_toolkit/geocode.py:67-72 | the loop returns the first polygonal element of the list (every element before it is not polygonal), or nothing exactly when no element is polygonal |
| `Geocode.BestIndexCorrect` | rq_geo_toolkit/geocode.py:64-72 | the reference choice is empty iff no result is polygonal; otherwise it is polygonal, at least as important as every polygonal result, and strictly more important than every earlier one |
| `Geocode.FirstPolygonalSorted` | rq_geo_toolkit/geocode.py:67-72 | sorting and then scanning picks exactly the reference choice (stable sort: ties go to the earlier result) |
| `Geocode.GetFirstPolygonCorrect` | rq_geo_toolkit/geocode.py:58-72 | `_get_first_polygon` (`GetFirstPolygon`) returns None iff no result is a Polygon or MultiPolygon; otherwise the geojson of the first most important polygonal result, whose type is Polygon or MultiPolygon |
| `Geocode.GeocodeText` | rq_geo_toolkit/geocode.py:42-48 | the "zero results" error is raised iff there are no results, before any polygon search; otherwise "no polygon" is raised iff no result is polygonal, and else the geojson of the first most important polygonal result is returned, a Polygon or MultiPolygon |
| `Geocode.GeocodeToGeometry` | rq_geo_toolkit/geocode.py:27-48 | a text query succeeds exactly when its single decision does, with that one polygon, and fails with that decision's error; a list query is the texts decided in order, stopping at the first error |
| `Geocode.GeocodeEachOk` | rq_geo_toolkit/geocode.py:29-30 | a list query that succeeds gives one polygon per text, in order, each the text's own result |
| `Geocode.GeocodeEachErr` | rq_geo_toolkit/geocode.py:29-30 | a list query that fails fails with the error of the first failing text, all earlier texts having succeeded |

## Left out

- The spawn pool, `apply_async`, `r.ready()`/`r.get()`, `sleep(0.5)` and the per-attempt temporary directories: these are process concurrency, timing and filesystem effects. They are replaced by the attempt oracle.
- `psutil.virtual_memory()` and `multiprocessing.cpu_count()` are parameters. The host's total memory is taken as fixed for one call, although the source reads it again before each attempt.
- `Executor.InitialBudget`: explicit limits are modelled only as non-negative multiples of 0.5 GB. A negative or otherwise fractional explicit limit is not modelled, and the only caller passes none.
- `Executor.PreemptionThreshold`: computed in exact reals; IEEE double rounding of `total * 0.05` and of the division is not modelled.
- `Executor.AttemptCapLog`: the ceil(log2 m) + 2 bound is stated for starts of whole GB. A start of 0.5 GB is covered by `AttemptCap` alone.
- The retry notice's text (`.2f` formatting, exception class name, rich printing): the notice is its cause and new budget.
- `_compress_with_memory_limit` and `set_up_duckdb_connection`: the engine connection, extensions and the `SET`/`COPY` statements belong to the engine, which the model does not include.
- `Path.mkdir`, `Path.rename` and `tempfile` in `compress_parquet_with_duckdb` and `compress_query_with_duckdb` are filesystem effects. The move is modelled as the `RenameToOutput` plan.
- `Path.resolve()`: paths are taken as already resolved strings.
- `pq.read_metadata` and `bytes.decode()` belong to a file-format library. Keys and values are text, and a failing read is `footer == None`. Decode errors and a footer with no key/value block are not modelled.
- `Compression.SqlInputRoundTrip`: paths are put into the query without escaping, as in the source, so the round trip is stated only for paths without quotes.
- For a list of inputs with no supplied metadata, the code reads the footer of the list itself (line 81). It does not read the first file's metadata. The model follows the code through the `footer` parameter. An empty list is not rejected either: it renders as `[]`.
- Geocoding: the Nominatim call is the `service` parameter. Not modelled: the sha256-named cache file and its JSON read/write, `shape`/`unary_union` (the model returns the polygons to be unioned), and results missing `importance` or `geojson`.
