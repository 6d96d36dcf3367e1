/**
 * The pieces of JavaScript string behaviour the inquiry form and the submission
 * endpoint rely on: the `\s` and `\D` regular-expression classes, string length
 * in UTF-16 code units, `Array.prototype.join` and `split(sep)[0]`.
 * A Dafny `char` is a Unicode scalar value, so a string here is a sequence of code
 * points; where JavaScript counts UTF-16 code units the model counts them explicitly.
 */
module JsText {

  /** The characters matched by `\s` in a JavaScript regular expression
      (the WhiteSpace and LineTerminator code points of ECMAScript). */
  predicate IsWhitespace(c: char)
    ensures IsWhitespace(c) ==> c != '@' && c != '.' && !IsDigit(c)
    ensures c < '\U{0080}' ==> (IsWhitespace(c) <==> c == ' ' || '\t' <= c <= '\r')
  {
    || c == '\t' || c == '\n' || c == '\U{000B}' || c == '\U{000C}' || c == '\r' || c == ' '
    || c == '\U{00A0}' || c == '\U{1680}' || ('\U{2000}' <= c <= '\U{200A}')
    || c == '\U{2028}' || c == '\U{2029}' || c == '\U{202F}' || c == '\U{205F}'
    || c == '\U{3000}' || c == '\U{FEFF}'
  }

  /** The characters matched by `\d` (ASCII digits only: the pattern has no `u` flag). */
  predicate IsDigit(c: char) {
    '0' <= c <= '9'
  }

  predicate AllDigits(s: string) {
    forall i :: 0 <= i < |s| ==> IsDigit(s[i])
  }

  /** `s.replace(/\D/g, '')`: every character that is not a digit is dropped. */
  function DigitsOnly(s: string): (r: string)
    ensures |r| <= |s|
    ensures AllDigits(r)
  {
    if s == [] then []
    else (if IsDigit(s[0]) then [s[0]] else []) + DigitsOnly(s[1..])
  }

  /** The filter works character by character: filtering a concatenation
      concatenates the filtered parts, so the kept digits stay in their order. */
  lemma {:induction false} DigitsOnlyAppend(a: string, b: string)
    ensures DigitsOnly(a + b) == DigitsOnly(a) + DigitsOnly(b)
  {
    if a == [] {
      assert a + b == b;
    } else {
      assert (a + b)[0] == a[0];
      assert (a + b)[1..] == a[1..] + b;
      DigitsOnlyAppend(a[1..], b);
    }
  }

  /** A string is left unchanged by the filter exactly when it holds only digits;
      in particular filtering twice is filtering once. */
  lemma {:induction false} DigitsOnlyFixedPoint(s: string)
    ensures DigitsOnly(s) == s <==> AllDigits(s)
  {
    if s != [] {
      DigitsOnlyFixedPoint(s[1..]);
      if !IsDigit(s[0]) {
        assert |DigitsOnly(s)| <= |s[1..]| < |s|;
      }
    }
  }

  /** Every digit of the typed value is kept as often as it was typed, and nothing else is. */
  lemma {:induction false} DigitsOnlyCounts(s: string, c: char)
    ensures multiset(DigitsOnly(s))[c] == if IsDigit(c) then multiset(s)[c] else 0
  {
    if s != [] {
      DigitsOnlyCounts(s[1..], c);
      assert s == [s[0]] + s[1..];
      assert multiset(s) == multiset([s[0]]) + multiset(s[1..]);
    }
  }

  /** The length JavaScript reports for a string: characters outside the Basic
      Multilingual Plane take two UTF-16 code units. */
  function Utf16Length(s: string): (n: nat)
    ensures |s| <= n <= 2 * |s|
  {
    if s == [] then 0
    else (if s[0] > '\U{FFFF}' then 2 else 1) + Utf16Length(s[1..])
  }

  /** When `length >= 2` holds: two characters or more, or a single character
      written with a surrogate pair (one emoji is "long enough"). */
  lemma {:induction false} Utf16LengthAtLeastTwo(s: string)
    ensures Utf16Length(s) >= 2 <==> |s| >= 2 || (|s| == 1 && s[0] > '\U{FFFF}')
  {
    if |s| == 1 {
      assert s[1..] == [];
    }
  }

  /** `xs.join(sep)`. */
  function Join(sep: string, xs: seq<string>): (r: string)
    decreases |xs|
  {
    if |xs| == 0 then ""
    else if |xs| == 1 then xs[0]
    else xs[0] + sep + Join(sep, xs[1..])
  }

  function TotalLength(xs: seq<string>): nat {
    if xs == [] then 0 else |xs[0]| + TotalLength(xs[1..])
  }

  /** The joined line is the items plus exactly one separator between each
      neighbouring pair: n items give n - 1 separators. */
  lemma {:induction false} JoinLength(sep: string, xs: seq<string>)
    requires |xs| >= 1
    ensures |Join(sep, xs)| == TotalLength(xs) + (|xs| - 1) * |sep|
  {
    if |xs| > 1 {
      JoinLength(sep, xs[1..]);
    } else {
      assert xs[1..] == [];
    }
  }

  /** Appending an item to a non-empty list appends the separator and the item to the line. */
  lemma {:induction false} JoinSnoc(sep: string, xs: seq<string>, x: string)
    requires |xs| >= 1
    ensures Join(sep, xs + [x]) == Join(sep, xs) + sep + x
  {
    if |xs| == 1 {
      assert (xs + [x])[1..] == [x];
    } else {
      assert (xs + [x])[1..] == xs[1..] + [x];
      JoinSnoc(sep, xs[1..], x);
    }
  }

  /** `part` occurs in `s` as a contiguous piece: the containment the properties of the
      mail texts are stated with. */
  predicate Contains(s: string, part: string) {
    exists i, j | 0 <= i <= j <= |s| :: s[i..j] == part
  }

  lemma ContainsMiddle(a: string, part: string, b: string)
    ensures Contains(a + part + b, part)
  {
    var s := a + part + b;
    assert s[..|a| + |part|] == a + part;
    assert s[|a|..|a| + |part|] == part;
  }

  /** Text found in `s` is found in anything that has `s` inside it. */
  lemma ContainsWithin(a: string, s: string, b: string, part: string)
    requires Contains(s, part)
    ensures Contains(a + s + b, part)
  {
    var i, j :| 0 <= i <= j <= |s| && s[i..j] == part;
    var t := a + s + b;
    assert t[|a|..|a| + |s|] == s;
    assert t[|a| + i..|a| + j] == s[i..j];
  }

  lemma ContainsTransitive(s: string, mid: string, part: string)
    requires Contains(s, mid) && Contains(mid, part)
    ensures Contains(s, part)
  {
    var i, j :| 0 <= i <= j <= |s| && s[i..j] == mid;
    var k, l :| 0 <= k <= l <= |mid| && mid[k..l] == part;
    forall n | 0 <= n < l - k ensures s[i + k..i + l][n] == part[n] {
      assert part[n] == mid[k + n] == s[i + k + n];
    }
    assert s[i + k..i + l] == part;
  }

  /** Every item of a joined list appears in the result verbatim. */
  lemma {:induction false} JoinContains(sep: string, xs: seq<string>, i: nat)
    requires i < |xs|
    ensures Contains(Join(sep, xs), xs[i])
  {
    if |xs| == 1 {
      ContainsMiddle("", xs[0], "");
      assert "" + xs[0] + "" == xs[0];
    } else if i == 0 {
      ContainsMiddle("", xs[0], sep + Join(sep, xs[1..]));
      assert "" + xs[0] + (sep + Join(sep, xs[1..])) == Join(sep, xs);
    } else {
      JoinContains(sep, xs[1..], i - 1);
      ContainsWithin(xs[0] + sep, Join(sep, xs[1..]), "", xs[i]);
      assert xs[0] + sep + Join(sep, xs[1..]) + "" == Join(sep, xs);
    }
  }

  /** `s.split(sep)[0]` for a one-character separator: the text before the first `sep`,
      or all of `s` when it has none. The contract determines the result uniquely. */
  function BeforeFirst(s: string, sep: char): (r: string)
    ensures r <= s
    ensures sep !in r
    ensures |r| < |s| ==> s[|r|] == sep
  {
    if s == [] || s[0] == sep then []
    else [s[0]] + BeforeFirst(s[1..], sep)
  }
}
