/**
 * Single-quote escaping for SQL string literals (`sql_escape` in
 * rq_geo_toolkit/duckdb.py, and the identical `escape_single_quotes` helper
 * of the metadata translator), together with the reader that takes a quoted
 * literal apart again. The reader is the reference against which the escape
 * is shown to be invertible.
 */
module SqlEscape {
  import opened Wrappers

  const QuoteChar: char := '\''

  /** Number of single quotes in `s`. */
  function CountQuotes(s: string): nat
  {
    if s == [] then 0 else (if s[0] == QuoteChar then 1 else 0) + CountQuotes(s[1..])
  }

  /** `value.replace("'", "''")`: every single quote doubled, every other character copied. */
  function Escape(s: string): (r: string)
    ensures |r| == |s| + CountQuotes(s)
    ensures CountQuotes(s) == 0 ==> r == s
  {
    if s == [] then []
    else (if s[0] == QuoteChar then [QuoteChar, QuoteChar] else [s[0]]) + Escape(s[1..])
  }

  /** Escaping works character by character: it distributes over concatenation. */
  lemma {:induction false} EscapeConcat(a: string, b: string)
    ensures Escape(a + b) == Escape(a) + Escape(b)
  {
    if a == [] {
      assert a + b == b;
    } else {
      assert (a + b)[1..] == a[1..] + b;
      EscapeConcat(a[1..], b);
    }
  }

  /** Collapses every doubled quote back into one quote. */
  function Unescape(s: string): string
    decreases |s|
  {
    if s == [] then []
    else if |s| >= 2 && s[0] == QuoteChar && s[1] == QuoteChar then [QuoteChar] + Unescape(s[2..])
    else [s[0]] + Unescape(s[1..])
  }

  /** Unescaping undoes escaping. */
  lemma {:induction false} UnescapeEscape(s: string)
    ensures Unescape(Escape(s)) == s
  {
    if s != [] {
      var head := if s[0] == QuoteChar then [QuoteChar, QuoteChar] else [s[0]];
      assert Escape(s) == head + Escape(s[1..]);
      UnescapeEscape(s[1..]);
      if s[0] == QuoteChar {
        assert (head + Escape(s[1..]))[2..] == Escape(s[1..]);
      } else {
        assert (head + Escape(s[1..]))[1..] == Escape(s[1..]);
      }
    }
  }

  /** Different strings never escape to the same text. */
  lemma EscapeInjective(a: string, b: string)
    requires Escape(a) == Escape(b)
    ensures a == b
  {
    UnescapeEscape(a);
    UnescapeEscape(b);
  }

  /**
   * Reads the inside of a quoted literal up to its closing quote: a doubled
   * quote stands for one quote, a lone quote ends the literal. Yields the
   * unescaped text and what follows the closing quote.
   */
  function ParseQuotedBody(s: string): (r: Option<(string, string)>)
    ensures r.Some? ==> |r.value.1| < |s|
    decreases |s|
  {
    if s == [] then None
    else if s[0] == QuoteChar then
      if |s| >= 2 && s[1] == QuoteChar then
        match ParseQuotedBody(s[2..])
        case None => None
        case Some((x, rest)) => Some(([QuoteChar] + x, rest))
      else Some(([], s[1..]))
    else
      match ParseQuotedBody(s[1..])
      case None => None
      case Some((x, rest)) => Some(([s[0]] + x, rest))
  }

  /** Reads one quoted literal `'...'` from the front of `s`. */
  function ParseQuoted(s: string): (r: Option<(string, string)>)
    ensures r.Some? ==> |r.value.1| < |s|
  {
    if s != [] && s[0] == QuoteChar then ParseQuotedBody(s[1..]) else None
  }

  lemma {:induction false} ParseQuotedBodyEscape(x: string, rest: string)
    requires rest == [] || rest[0] != QuoteChar
    ensures ParseQuotedBody(Escape(x) + [QuoteChar] + rest) == Some((x, rest))
  {
    if x == [] {
      assert Escape(x) + [QuoteChar] + rest == [QuoteChar] + rest;
    } else {
      var tail := Escape(x[1..]) + [QuoteChar] + rest;
      ParseQuotedBodyEscape(x[1..], rest);
      assert x == [x[0]] + x[1..];
      if x[0] == QuoteChar {
        var s := [QuoteChar, QuoteChar] + tail;
        assert Escape(x) + [QuoteChar] + rest == s;
        assert s[0] == QuoteChar && s[1] == QuoteChar && s[2..] == tail;
      } else {
        var s := [x[0]] + tail;
        assert Escape(x) + [QuoteChar] + rest == s;
        assert s[0] == x[0] && s[1..] == tail;
      }
    }
  }

  /**
   * A quoted, escaped literal reads back as the original text, whatever
   * follows it, provided the next character is not itself a quote.
   */
  lemma ParseQuotedEscape(x: string, rest: string)
    requires rest == [] || rest[0] != QuoteChar
    ensures ParseQuoted([QuoteChar] + Escape(x) + [QuoteChar] + rest) == Some((x, rest))
  {
    var body := Escape(x) + [QuoteChar] + rest;
    var s := [QuoteChar] + body;
    assert [QuoteChar] + Escape(x) + [QuoteChar] + rest == s;
    assert s[0] == QuoteChar && s[1..] == body;
    ParseQuotedBodyEscape(x, rest);
  }
}
