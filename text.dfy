/**
 * The JavaScript string operations the application relies on: truthiness
 * defaults (`s || fallback`), `String.prototype.trim`, substring search,
 * `Array.prototype.join`, decimal formatting of counts, and concatenation of
 * the phrases produced for the elements of an array.
 */
module Text {
  import opened Wrappers

  /** `s || fallback` for a string `s`: the empty string is falsy. */
  function OrElse(s: string, fallback: string): string
  {
    if s == "" then fallback else s
  }

  /** Truthiness of an optional string field: present and non-empty. */
  predicate Truthy(o: Option<string>)
  {
    o.Some? && o.value != ""
  }

  /**
   * The characters `trim` removes: ECMAScript WhiteSpace (tab, vertical tab,
   * form feed, space, no-break space, byte order mark, and the Unicode space
   * separators) and LineTerminator (line feed, carriage return, line and
   * paragraph separators).
   */
  predicate IsWhitespace(c: char)
  {
    || c == '\t' || c == '\n' || c == '\U{B}' || c == '\U{C}' || c == '\r'
    || c == ' ' || c == '\U{A0}' || c == '\U{1680}'
    || ('\U{2000}' <= c <= '\U{200A}')
    || c == '\U{2028}' || c == '\U{2029}' || c == '\U{202F}' || c == '\U{205F}'
    || c == '\U{3000}' || c == '\U{FEFF}'
  }

  /** No whitespace at either end: what `trim` returns. */
  predicate IsTrimmed(s: string)
  {
    s == [] || (!IsWhitespace(s[0]) && !IsWhitespace(s[|s| - 1]))
  }

  /** Leading whitespace removed. */
  function TrimStart(s: string): (r: string)
    ensures |r| <= |s| && r == s[|s| - |r|..]
    ensures r == [] || !IsWhitespace(r[0])
    decreases |s|
  {
    if |s| > 0 && IsWhitespace(s[0]) then TrimStart(s[1..]) else s
  }

  /** Trailing whitespace removed. */
  function TrimEnd(s: string): (r: string)
    ensures |r| <= |s| && r == s[..|r|]
    ensures r == [] || !IsWhitespace(r[|r| - 1])
    decreases |s|
  {
    if |s| > 0 && IsWhitespace(s[|s| - 1]) then TrimEnd(s[..|s| - 1]) else s
  }

  /** Only whitespace is removed from the front. */
  lemma {:induction false} TrimStartDropsWhitespace(s: string, i: nat)
    requires i < |s| - |TrimStart(s)|
    ensures IsWhitespace(s[i])
    decreases |s|
  {
    if i > 0 {
      TrimStartDropsWhitespace(s[1..], i - 1);
    }
  }

  /** Only whitespace is removed from the back. */
  lemma {:induction false} TrimEndDropsWhitespace(s: string, i: nat)
    requires |TrimEnd(s)| <= i < |s|
    ensures IsWhitespace(s[i])
    decreases |s|
  {
    if i < |s| - 1 {
      TrimEndDropsWhitespace(s[..|s| - 1], i);
    }
  }

  /** `String.prototype.trim`: the infix of `s` left once whitespace is removed at both ends. */
  function Trim(s: string): (r: string)
    ensures IsTrimmed(r)
    ensures Contains(s, r)
    ensures IsTrimmed(s) ==> r == s
  {
    TrimIsTrimmed(s);
    TrimIsInfix(s);
    TrimKeepsTrimmed(s);
    TrimEnd(TrimStart(s))
  }

  lemma TrimIsTrimmed(s: string)
    ensures IsTrimmed(TrimEnd(TrimStart(s)))
  {
    var t := TrimStart(s);
    var r := TrimEnd(t);
    if r != [] {
      assert r[0] == t[0];
    }
  }

  lemma TrimIsInfix(s: string)
    ensures OccursAt(s, TrimEnd(TrimStart(s)), |s| - |TrimStart(s)|)
  {
    PrefixOfSuffix(s, TrimStart(s), TrimEnd(TrimStart(s)));
  }

  /** A prefix of a suffix of `s` occurs in `s` where the suffix starts. */
  lemma PrefixOfSuffix(s: string, t: string, r: string)
    requires |t| <= |s| && t == s[|s| - |t|..]
    requires |r| <= |t| && r == t[..|r|]
    ensures OccursAt(s, r, |s| - |t|)
  {
    var k := |s| - |t|;
    assert r == s[k..k + |r|];
  }

  lemma TrimKeepsTrimmed(s: string)
    ensures IsTrimmed(s) ==> TrimEnd(TrimStart(s)) == s
  {
    if IsTrimmed(s) && s != [] {
      assert TrimStart(s) == s;
      assert TrimEnd(s) == s;
    }
  }

  /** `s.endsWith(suffix)` */
  predicate EndsWith(s: string, suffix: string)
  {
    |suffix| <= |s| && s[|s| - |suffix|..] == suffix
  }

  /** Regrouping appended text; stated once so that callers need not argue element by element. */
  lemma AppendAssoc(a: string, b: string, c: string)
    ensures a + b + c == a + (b + c)
  {
  }

  /** Appending one more element's phrase to the concatenation of a prefix. */
  lemma ConcatSnoc<T>(xs: seq<T>, f: T -> string, j: nat)
    requires j < |xs|
    ensures Concat(xs[..j + 1], f) == Concat(xs[..j], f) + f(xs[j])
  {
    assert xs[..j + 1][..j] == xs[..j];
  }

  /** Trimming text that only gained a final newline gives the text back. */
  lemma TrimDropsTrailingNewline(x: string)
    requires IsTrimmed(x)
    ensures Trim(x + "\n") == x
  {
    var s := x + "\n";
    if x == [] {
      assert TrimStart(s) == TrimStart(s[1..]);
      assert s[1..] == [];
    } else {
      assert s[0] == x[0];
      assert TrimStart(s) == s;
      assert s[..|s| - 1] == x;
      assert TrimEnd(s) == TrimEnd(x);
    }
  }

  /** `s.includes(t)`: `t` occurs in `s` as a contiguous block. */
  ghost predicate Contains(s: string, t: string)
  {
    exists k :: OccursAt(s, t, k)
  }

  /** `t` occurs in `s` starting at index `k`. */
  predicate OccursAt(s: string, t: string, k: int)
  {
    0 <= k <= |s| - |t| && s[k..k + |t|] == t
  }

  lemma ContainsMiddle(a: string, b: string, c: string)
    ensures Contains(a + b + c, b)
  {
    assert OccursAt(a + b + c, b, |a|) by {
      assert (a + b + c)[|a|..|a| + |b|] == b;
    }
  }

  lemma ContainsTransitive(s: string, t: string, u: string)
    requires Contains(s, t) && Contains(t, u)
    ensures Contains(s, u)
  {
    var k :| OccursAt(s, t, k);
    var m :| OccursAt(t, u, m);
    assert OccursAt(s, u, k + m) by {
      forall j | 0 <= j < |u| ensures s[k + m + j] == u[j] {
        assert t[m + j] == s[k..k + |t|][m + j];
      }
    }
  }

  /** The concatenation of `f(x)` over `xs`, in order: the text a loop appends element by element. */
  function Concat<T>(xs: seq<T>, f: T -> string): string
  {
    if xs == [] then "" else Concat(xs[..|xs| - 1], f) + f(xs[|xs| - 1])
  }

  /** Concatenating the phrases of two runs of elements: `Concat` is a monoid homomorphism. */
  lemma {:induction false} ConcatAppend<T>(xs: seq<T>, ys: seq<T>, f: T -> string)
    ensures Concat(xs + ys, f) == Concat(xs, f) + Concat(ys, f)
    decreases |ys|
  {
    if ys == [] {
      assert xs + ys == xs;
    } else {
      var n := |ys| - 1;
      assert (xs + ys)[..|xs + ys| - 1] == xs + ys[..n];
      ConcatAppend(xs, ys[..n], f);
    }
  }

  /** The concatenation around one element: what comes before, its phrase, what comes after. */
  lemma ConcatAround<T>(xs: seq<T>, f: T -> string, i: nat)
    requires i < |xs|
    ensures Concat(xs, f) == Concat(xs[..i], f) + f(xs[i]) + Concat(xs[i + 1..], f)
  {
    assert xs == xs[..i + 1] + xs[i + 1..];
    ConcatAppend(xs[..i + 1], xs[i + 1..], f);
    ConcatSnoc(xs, f, i);
  }

  /** Every element's phrase appears in the concatenation. */
  lemma ConcatContains<T>(xs: seq<T>, f: T -> string, i: nat)
    requires i < |xs|
    ensures Contains(Concat(xs, f), f(xs[i]))
  {
    ConcatAround(xs, f, i);
    ContainsMiddle(Concat(xs[..i], f), f(xs[i]), Concat(xs[i + 1..], f));
  }

  /** When no element has anything to say, nothing is said. */
  lemma {:induction false} ConcatAllSilent<T>(xs: seq<T>, f: T -> string)
    requires forall i :: 0 <= i < |xs| ==> f(xs[i]) == ""
    ensures Concat(xs, f) == ""
  {
    if xs != [] {
      var init := xs[..|xs| - 1];
      assert forall i :: 0 <= i < |init| ==> f(init[i]) == "" by {
        forall i | 0 <= i < |init| ensures f(init[i]) == "" {
          assert init[i] == xs[i];
        }
      }
      ConcatAllSilent(init, f);
    }
  }

  /** An element whose phrase is empty can be dropped without changing the text. */
  lemma ConcatSkipsSilent<T>(xs: seq<T>, f: T -> string, i: nat)
    requires i < |xs| && f(xs[i]) == ""
    ensures Concat(xs, f) == Concat(xs[..i] + xs[i + 1..], f)
  {
    var pre, rest := xs[..i], xs[i + 1..];
    assert xs == (pre + [xs[i]]) + rest;
    ConcatAppend(pre + [xs[i]], rest, f);
    ConcatSnoc(xs, f, i);
    assert xs[..i + 1] == pre + [xs[i]];
    assert Concat(pre + [xs[i]], f) == Concat(pre, f);
    ConcatAppend(pre, rest, f);
  }

  /** `xs.join(sep)`. */
  function Join(xs: seq<string>, sep: string): string
  {
    if |xs| == 0 then ""
    else if |xs| == 1 then xs[0]
    else
      var init := xs[..|xs| - 1];
      assert init[0] == xs[0];
      Join(init, sep) + sep + xs[|xs| - 1]
  }

  /** Every element of the list appears in the joined string. */
  lemma {:induction false} JoinContains(xs: seq<string>, sep: string, i: nat)
    requires i < |xs|
    ensures Contains(Join(xs, sep), xs[i])
  {
    if |xs| == 1 {
      assert OccursAt(xs[0], xs[0], 0) by {
        assert xs[0][0..|xs[0]|] == xs[0];
      }
    } else {
      var init := xs[..|xs| - 1];
      var r := Join(xs, sep);
      if i < |xs| - 1 {
        JoinContains(init, sep, i);
        assert init[i] == xs[i];
        ContainsMiddle("", Join(init, sep), sep + xs[|xs| - 1]);
        assert "" + Join(init, sep) + (sep + xs[|xs| - 1]) == r;
        ContainsTransitive(r, Join(init, sep), xs[i]);
      } else {
        ContainsMiddle(Join(init, sep) + sep, xs[|xs| - 1], "");
        assert Join(init, sep) + sep + xs[|xs| - 1] + "" == r;
      }
    }
  }

  predicate IsDigit(c: char)
  {
    '0' <= c <= '9'
  }

  function DigitChar(d: nat): (c: char)
    requires d < 10
    ensures IsDigit(c) && c as int - '0' as int == d
  {
    "0123456789"[d]
  }

  /** `String(n)` for a count: the decimal digits of `n`, without leading zeros. */
  function Decimal(n: nat): (r: string)
    ensures |r| > 0 && forall i :: 0 <= i < |r| ==> IsDigit(r[i])
    ensures r[0] == '0' ==> n == 0 && r == "0"
  {
    if n < 10 then [DigitChar(n)] else Decimal(n / 10) + [DigitChar(n % 10)]
  }

  /** The number a string of decimal digits denotes. */
  function DecimalValue(s: string): nat
    requires forall i :: 0 <= i < |s| ==> IsDigit(s[i])
  {
    if s == [] then 0
    else
      assert IsDigit(s[|s| - 1]);
      DecimalValue(s[..|s| - 1]) * 10 + (s[|s| - 1] as int - '0' as int)
  }

  /** Formatting a count and reading it back gives the count. */
  lemma {:induction false} DecimalRoundTrip(n: nat)
    ensures DecimalValue(Decimal(n)) == n
  {
    if n >= 10 {
      DecimalRoundTrip(n / 10);
      var r := Decimal(n);
      assert r[..|r| - 1] == Decimal(n / 10);
    }
  }
}
