/**
 * The metadata translator (`_parquet_schema_metadata_to_duckdb_kv_metadata`
 * in rq_geo_toolkit/geoparquet_compression.py): the key/value pairs of a
 * file's footer become the literal `{ 'k1': 'v1', 'k2': 'v2' }` that the
 * engine's `KV_METADATA` copy option expects.
 */
module KvMetadata {
  import opened Wrappers
  import opened SqlEscape
  import opened Joins

  /** Footer key/value metadata, already decoded to text, in insertion order. */
  type Metadata = seq<(string, string)>

  /** One `'key': 'value'` entry, key and value escaped. */
  function PairLiteral(key: string, value: string): string
  {
    [QuoteChar] + Escape(key) + "': " + [QuoteChar] + Escape(value) + [QuoteChar]
  }

  /** The entries of `m`, one per pair, in the same order. */
  function PairLiterals(m: Metadata): (r: seq<string>)
    ensures |r| == |m|
  {
    seq(|m|, i requires 0 <= i < |m| => PairLiteral(m[i].0, m[i].1))
  }

  /** The whole literal: `"{ " + ", ".join(entries) + " }"`. */
  function KvLiteral(m: Metadata): string
  {
    "{ " + Join(", ", PairLiterals(m)) + " }"
  }

  /** The loop of the source: entries appended one by one, then joined. */
  method KvMetadataLiteral(metadata: Metadata) returns (literal: string)
    ensures literal == KvLiteral(metadata)
  {
    var kvPairs: seq<string> := [];
    for i := 0 to |metadata|
      invariant kvPairs == PairLiterals(metadata[..i])
    {
      var (key, value) := metadata[i];
      var escapedKey := Escape(key);
      var escapedValue := Escape(value);
      kvPairs := kvPairs + [[QuoteChar] + escapedKey + "': " + [QuoteChar] + escapedValue + [QuoteChar]];
    }
    assert metadata[..|metadata|] == metadata;
    literal := "{ " + Join(", ", kvPairs) + " }";
  }

  /** Empty metadata gives `{  }` (two spaces). */
  lemma EmptyLiteral()
    ensures KvLiteral([]) == "{  }"
  {
  }

  // ---------------------------------------------------------------------
  // Reading a literal back: the reference parser for the engine's syntax.

  /** Reads `'k': 'v'` entries separated by `, ` up to the end of `s`. */
  function ParseEntries(s: string): Option<Metadata>
    decreases |s|, 2
  {
    match ParseQuoted(s)
    case None => None
    case Some(k) => AfterKey(k.0, k.1)
  }

  /** The rest of an entry once its key has been read. */
  function AfterKey(key: string, afterKey: string): Option<Metadata>
    decreases |afterKey|, 1
  {
    if |afterKey| < 2 || afterKey[..2] != ": " then None
    else
      match ParseQuoted(afterKey[2..])
      case None => None
      case Some(v) => Continue(key, v.0, v.1)
  }

  /** What follows a complete entry: the end, or `, ` and more entries. */
  function Continue(key: string, value: string, afterValue: string): Option<Metadata>
    decreases |afterValue|, 0
  {
    if afterValue == [] then Some([(key, value)])
    else if |afterValue| >= 2 && afterValue[..2] == ", " then
      match ParseEntries(afterValue[2..])
      case None => None
      case Some(more) => Some([(key, value)] + more)
    else None
  }

  /** Reads a whole `{ ... }` literal. */
  function ParseKvLiteral(s: string): Option<Metadata>
  {
    if |s| >= 4 && s[..2] == "{ " && s[|s| - 2..] == " }" then
      var body := s[2..|s| - 2];
      if body == [] then Some([]) else ParseEntries(body)
    else None
  }

  /** Reading the key of an entry leaves `: ` and the quoted value. */
  lemma ParseKeyStep(key: string, afterKey: string)
    requires afterKey == [] || afterKey[0] != QuoteChar
    ensures ParseEntries([QuoteChar] + Escape(key) + [QuoteChar] + afterKey) == AfterKey(key, afterKey)
  {
    ParseQuotedEscape(key, afterKey);
  }

  /** Reading the value of an entry leaves what follows the entry. */
  lemma ParseValueStep(key: string, value: string, tail: string)
    requires tail == [] || tail[0] != QuoteChar
    ensures AfterKey(key, ": " + [QuoteChar] + Escape(value) + [QuoteChar] + tail) == Continue(key, value, tail)
  {
    var afterKey := ": " + [QuoteChar] + Escape(value) + [QuoteChar] + tail;
    assert afterKey[..2] == ": ";
    assert afterKey[2..] == [QuoteChar] + Escape(value) + [QuoteChar] + tail;
    ParseQuotedEscape(value, tail);
  }

  /** One entry followed by anything that does not start with a quote. */
  lemma ParseEntriesStep(key: string, value: string, tail: string)
    requires tail == [] || tail[0] != QuoteChar
    ensures ParseEntries(PairLiteral(key, value) + tail) == Continue(key, value, tail)
  {
    var afterKey := ": " + [QuoteChar] + Escape(value) + [QuoteChar] + tail;
    assert PairLiteral(key, value) + tail == [QuoteChar] + Escape(key) + [QuoteChar] + afterKey;
    ParseKeyStep(key, afterKey);
    ParseValueStep(key, value, tail);
  }

  lemma {:induction false} ParseEntriesJoin(m: Metadata)
    requires m != []
    ensures ParseEntries(Join(", ", PairLiterals(m))) == Some(m)
  {
    var lits := PairLiterals(m);
    if |m| == 1 {
      assert Join(", ", lits) == PairLiteral(m[0].0, m[0].1) + [];
      ParseEntriesStep(m[0].0, m[0].1, []);
      assert m == [(m[0].0, m[0].1)];
    } else {
      var tail := ", " + Join(", ", lits[1..]);
      assert Join(", ", lits) == PairLiteral(m[0].0, m[0].1) + tail;
      assert tail[2..] == Join(", ", lits[1..]);
      ParseEntriesStep(m[0].0, m[0].1, tail);
      assert lits[1..] == PairLiterals(m[1..]);
      ParseEntriesJoin(m[1..]);
      assert m == [(m[0].0, m[0].1)] + m[1..];
    }
  }

  /** Round trip: the literal reads back as exactly the pairs it was built from, in order. */
  lemma KvLiteralRoundTrip(m: Metadata)
    ensures ParseKvLiteral(KvLiteral(m)) == Some(m)
  {
    var body := Join(", ", PairLiterals(m));
    var s := KvLiteral(m);
    assert s == "{ " + body + " }";
    assert s[..2] == "{ " && s[|s| - 2..] == " }";
    assert s[2..|s| - 2] == body;
    if m != [] {
      ParseEntriesJoin(m);
      assert |body| >= |PairLiterals(m)[0]| > 0;
    }
  }
}
