/**
 * The motivation route: it asks a text-generation service for a short quote,
 * trims it and strips one quotation mark from each end; when anything fails it
 * answers with one of seven fixed quotes, picked by a random number.
 */
module Motivation {
  import opened Wrappers
  import opened Text

  /** The route's answer, `{ quote }` with its status. */
  datatype QuoteResponse = QuoteResponse(status: nat, quote: string)

  /** The characters the clean-up regular expression strips: `"` and `'`. */
  predicate IsQuoteMark(c: char)
  {
    c == '"' || c == '\''
  }

  /**
   * `s.replace(/^["']|["']$/g, '')`: a quotation mark at the very start and one
   * at the very end are removed.  A lone quotation mark is matched once, by the
   * first alternative, and removed once.
   */
  function StripQuoteMarks(s: string): (r: string)
    ensures |s| - 2 <= |r| <= |s|
    ensures Contains(s, r)
    // the four cases of the expression, by which ends carry a mark
    ensures |s| >= 2 && IsQuoteMark(s[0]) && IsQuoteMark(s[|s| - 1]) ==> r == s[1..|s| - 1]
    ensures |s| >= 1 && IsQuoteMark(s[0]) && !(|s| >= 2 && IsQuoteMark(s[|s| - 1])) ==> r == s[1..]
    ensures |s| >= 1 && !IsQuoteMark(s[0]) && IsQuoteMark(s[|s| - 1]) ==> r == s[..|s| - 1]
    ensures (|s| == 0 || !IsQuoteMark(s[0])) && (|s| == 0 || !IsQuoteMark(s[|s| - 1])) ==> r == s
  {
    var start := if |s| > 0 && IsQuoteMark(s[0]) then 1 else 0;
    var end := if |s| > start && IsQuoteMark(s[|s| - 1]) then |s| - 1 else |s|;
    assert OccursAt(s, s[start..end], start);
    s[start..end]
  }

  /** The quote as returned: trimmed, then stripped of its outer quotation marks. */
  function CleanQuote(raw: string): (quote: string)
    ensures Contains(raw, quote)
  {
    ContainsTransitive(raw, Trim(raw), StripQuoteMarks(Trim(raw)));
    StripQuoteMarks(Trim(raw))
  }

  /** Only the ends are touched: everything strictly between them survives. */
  lemma {:induction false} InnerTextKept(s: string)
    requires |s| >= 2
    ensures Contains(StripQuoteMarks(s), s[1..|s| - 1])
  {
    var r := StripQuoteMarks(s);
    var start := if IsQuoteMark(s[0]) then 1 else 0;
    var end := if IsQuoteMark(s[|s| - 1]) then |s| - 1 else |s|;
    assert r == s[start..end];
    assert OccursAt(r, s[1..|s| - 1], 1 - start) by {
      assert r[1 - start..1 - start + |s| - 2] == s[1..|s| - 1];
    }
  }

  /** Text with no quotation mark at either end is left as it is. */
  lemma UnquotedUnchanged(s: string)
    requires s == [] || (!IsQuoteMark(s[0]) && !IsQuoteMark(s[|s| - 1]))
    ensures StripQuoteMarks(s) == s
  {
    assert s[0..|s|] == s;
  }

  /** Exactly one mark goes from each end, even when the text inside starts or ends with another. */
  lemma QuotedRoundTrip(open: char, x: string, close: char)
    requires IsQuoteMark(open) && IsQuoteMark(close)
    ensures StripQuoteMarks([open] + x + [close]) == x
  {
    var s := [open] + x + [close];
    assert s[0] == open && s[|s| - 1] == close;
    assert s[1..|s| - 1] == x;
  }

  /** A mark at the start only: that mark alone goes. */
  lemma OpeningMarkOnly(open: char, x: string)
    requires IsQuoteMark(open) && (x == [] || !IsQuoteMark(x[|x| - 1]))
    ensures StripQuoteMarks([open] + x) == x
  {
    assert ([open] + x)[1..] == x;
  }

  /** A mark at the end only: that mark alone goes. */
  lemma ClosingMarkOnly(x: string, close: char)
    requires IsQuoteMark(close) && x != [] && !IsQuoteMark(x[0])
    ensures StripQuoteMarks(x + [close]) == x
  {
    assert (x + [close])[..|x|] == x;
  }

  /** A lone quotation mark leaves nothing behind. */
  lemma LoneMarkRemoved(c: char)
    requires IsQuoteMark(c)
    ensures StripQuoteMarks([c]) == ""
  {
  }

  /** Surrounding whitespace goes first, so a quoted reply with blank lines around it is unquoted too. */
  lemma PaddedQuoteCleaned(x: string)
    requires IsTrimmed(x)
    ensures CleanQuote("\"" + x + "\"\n") == x
  {
    var inner := ['"'] + x + ['"'];
    assert "\"" + x + "\"\n" == inner + "\n";
    assert IsTrimmed(inner) by {
      assert inner[0] == '"' && inner[|inner| - 1] == '"';
    }
    TrimDropsTrailingNewline(inner);
    QuotedRoundTrip('"', x, '"');
  }

  /** The seven quotes used when generation fails. */
  const FallbackQuotes := [
    "Your only limit is you. Push harder today! \U{1F4AA}",
    "Transform your body, transform your life!",
    "Every workout counts. Make it happen!",
    "Believe in yourself and crush your goals!",
    "Strong body, strong mind, unstoppable spirit!",
    "Progress, not perfection. Keep moving forward!",
    "You are stronger than you think!"
  ]

  /** `Math.floor(r * fallbackQuotes.length)` for a random `r` in [0, 1). */
  function FallbackIndex(r: real): (i: nat)
    requires 0.0 <= r < 1.0
    ensures i < |FallbackQuotes|
    ensures i as real <= r * 7.0 < i as real + 1.0
  {
    (r * 7.0).Floor
  }

  /** Every fallback quote can be picked: the random number i/7 picks quote i. */
  lemma EveryFallbackReachable(i: nat)
    requires i < |FallbackQuotes|
    ensures 0.0 <= i as real / 7.0 < 1.0
    ensures FallbackIndex(i as real / 7.0) == i
  {
    assert (i as real / 7.0) * 7.0 == i as real;
  }

  /**
   * The route handler.  `generated` is the service's reply (None when the call
   * or reading its text throws) and `r` the value `Math.random()` would return.
   */
  function MotivationRoute(generated: Option<string>, r: real): (resp: QuoteResponse)
    requires 0.0 <= r < 1.0
    ensures resp.status == 200
    ensures generated.Some? ==> resp.quote == CleanQuote(generated.value)
    ensures generated.None? ==> resp.quote in FallbackQuotes
  {
    match generated
    case Some(raw) => QuoteResponse(200, CleanQuote(raw))
    case None => QuoteResponse(200, FallbackQuotes[FallbackIndex(r)])
  }
}
