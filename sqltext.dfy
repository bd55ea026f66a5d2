/**
 * SQL text with positional parameters: Go's `%d` rendering of a parameter
 * number, a scanner that reads back the `$n` placeholders a statement
 * contains, and statements assembled from text and parameter pieces.
 */
module SqlText {

  predicate IsDigit(c: char) { '0' <= c <= '9' }

  predicate AllDigits(s: string) { forall i :: 0 <= i < |s| ==> IsDigit(s[i]) }

  function DigitChar(d: nat): (c: char)
    requires d < 10
    ensures IsDigit(c) && c as int - '0' as int == d
  {
    ('0' as int + d) as char
  }

  /** The decimal text `fmt.Sprintf("%d", n)` produces for a natural number. */
  function Decimal(n: nat): (s: string)
    ensures |s| > 0 && AllDigits(s)
    decreases n
  {
    if n < 10 then [DigitChar(n)] else Decimal(n / 10) + [DigitChar(n % 10)]
  }

  /** The number a run of decimal digits denotes (read digit by digit, whatever the characters). */
  function DigitsValue(s: string): int
    decreases |s|
  {
    if s == [] then 0 else DigitsValue(s[..|s| - 1]) * 10 + (s[|s| - 1] as int - '0' as int)
  }

  /** Digits denote a number that is never negative. */
  lemma {:induction false} DigitsValueNatural(s: string)
    requires AllDigits(s)
    ensures DigitsValue(s) >= 0
    decreases |s|
  {
    if s != [] {
      DigitsValueNatural(s[..|s| - 1]);
    }
  }

  /** Reading back the digits `%d` wrote gives the number that was written. */
  lemma {:induction false} DecimalRoundTrip(n: nat)
    ensures DigitsValue(Decimal(n)) == n
    decreases n
  {
    if n >= 10 {
      var s := Decimal(n);
      assert s[..|s| - 1] == Decimal(n / 10);
      DecimalRoundTrip(n / 10);
    }
  }

  /** Different parameter numbers are never rendered alike. */
  lemma DecimalInjective(m: nat, n: nat)
    requires Decimal(m) == Decimal(n)
    ensures m == n
  {
    DecimalRoundTrip(m);
    DecimalRoundTrip(n);
  }

  /** The length of the longest run of digits at the start of `s`. */
  function DigitRun(s: string): (k: nat)
    ensures k <= |s|
    decreases |s|
  {
    if s == [] || !IsDigit(s[0]) then 0 else 1 + DigitRun(s[1..])
  }

  /** The run holds only digits, and whatever ends it is not one. */
  lemma {:induction false} DigitRunSpan(s: string)
    ensures AllDigits(s[..DigitRun(s)])
    ensures DigitRun(s) < |s| ==> !IsDigit(s[DigitRun(s)])
    ensures DigitRun(s) == |s| <==> AllDigits(s)
    decreases |s|
  {
    if s != [] && IsDigit(s[0]) {
      DigitRunSpan(s[1..]);
      var k := DigitRun(s[1..]);
      assert s[..1 + k] == [s[0]] + s[1..][..k];
      if AllDigits(s[1..]) {
        assert forall i :: 0 < i < |s| ==> s[i] == s[1..][i - 1];
      }
    }
  }

  /**
   * The parameter numbers of the `$n` placeholders in a statement, left to
   * right; as in PostgreSQL, a placeholder takes every digit that follows
   * its `$`.
   */
  function Placeholders(q: string): seq<int>
    decreases |q|
  {
    if q == [] then []
    else if q[0] == '$' && DigitRun(q[1..]) > 0 then
      var k := DigitRun(q[1..]);
      [DigitsValue(q[1..1 + k])] + Placeholders(q[1 + k..])
    else Placeholders(q[1..])
  }

  /** `$1`, `$2`, ..., `$n`: the placeholders a statement with n arguments must hold. */
  function Upto(n: nat): (r: seq<nat>)
    ensures |r| == n && forall i :: 0 <= i < n ==> r[i] == i + 1
  {
    seq(n, i => i + 1)
  }

  lemma UptoNext(n: nat)
    ensures Upto(n) + [n + 1] == Upto(n + 1)
  {
  }

  /** The text `$n` that `fmt.Sprintf("$%d", n)` produces. */
  function ParamText(n: nat): string { "$" + Decimal(n) }

  lemma {:induction false} PlaceholdersSkipText(t: string, rest: string)
    requires '$' !in t
    ensures Placeholders(t + rest) == Placeholders(rest)
    decreases |t|
  {
    if t != [] {
      assert (t + rest)[0] == t[0] != '$';
      var q := t + rest;
      assert q[1..] == t[1..] + rest;
      assert Placeholders(q) == Placeholders(q[1..]);
      PlaceholdersSkipText(t[1..], rest);
    } else {
      assert t + rest == rest;
    }
  }

  lemma {:induction false} DigitRunOver(d: string, rest: string)
    requires AllDigits(d)
    requires rest == [] || !IsDigit(rest[0])
    ensures DigitRun(d + rest) == |d|
    decreases |d|
  {
    if d != [] {
      assert (d + rest)[1..] == d[1..] + rest;
      DigitRunOver(d[1..], rest);
    }
  }

  /** A rendered parameter followed by a non-digit is read back as exactly that parameter. */
  lemma PlaceholdersTakeParam(n: nat, rest: string)
    requires rest == [] || !IsDigit(rest[0])
    ensures Placeholders(ParamText(n) + rest) == [n] + Placeholders(rest)
  {
    var q := ParamText(n) + rest;
    var d := Decimal(n);
    assert q[1..] == d + rest;
    DigitRunOver(d, rest);
    assert q[1..1 + |d|] == d;
    assert q[1 + |d|..] == rest;
    DecimalRoundTrip(n);
  }

  /** True when `s` cannot extend a placeholder that ends just before it. */
  predicate StartsPlain(s: string) { s == [] || !IsDigit(s[0]) }

  lemma {:induction false} DigitRunConcat(s: string, rest: string)
    requires StartsPlain(rest)
    ensures DigitRun(s + rest) == DigitRun(s)
    decreases |s|
  {
    if s == [] {
      assert s + rest == rest;
    } else {
      assert (s + rest)[0] == s[0];
      assert (s + rest)[1..] == s[1..] + rest;
      DigitRunConcat(s[1..], rest);
    }
  }

  /**
   * Placeholders are read piece by piece: joining `b` to `a` neither merges
   * nor splits a placeholder as long as `b` does not start with a digit.
   */
  lemma {:induction false} PlaceholdersConcat(a: string, b: string)
    requires StartsPlain(b)
    ensures Placeholders(a + b) == Placeholders(a) + Placeholders(b)
    decreases |a|
  {
    if a == [] {
      assert a + b == b;
    } else {
      assert (a + b)[1..] == a[1..] + b;
      DigitRunConcat(a[1..], b);
      var k := DigitRun(a[1..]);
      if a[0] == '$' && k > 0 {
        PlaceholdersConcat(a[1 + k..], b);
        ConcatParamStep(a, b, k);
      } else {
        PlaceholdersConcat(a[1..], b);
        ConcatPlainStep(a, b);
      }
    }
  }

  lemma SliceOfConcat(a: string, b: string, i: nat, j: nat)
    requires i <= j <= |a|
    ensures (a + b)[i..j] == a[i..j]
  {
  }

  lemma DropOfConcat(a: string, b: string, i: nat)
    requires i <= |a|
    ensures (a + b)[i..] == a[i..] + b
  {
  }

  /** Reading a placeholder at the head of q: its number, then what follows its digits. */
  lemma UnfoldParam(q: string, k: nat)
    requires |q| > 0 && q[0] == '$' && k == DigitRun(q[1..]) > 0
    ensures Placeholders(q) == [DigitsValue(q[1..1 + k])] + Placeholders(q[1 + k..])
  {
  }

  /** One step of PlaceholdersConcat: `a` starts with the placeholder `$` followed by k digits. */
  lemma ConcatParamStep(a: string, b: string, k: nat)
    requires |a| > 0 && a[0] == '$' && k == DigitRun(a[1..]) > 0
    requires DigitRun((a + b)[1..]) == k
    requires Placeholders(a[1 + k..] + b) == Placeholders(a[1 + k..]) + Placeholders(b)
    ensures Placeholders(a + b) == Placeholders(a) + Placeholders(b)
  {
    SliceOfConcat(a, b, 0, 1);
    SliceOfConcat(a, b, 1, 1 + k);
    DropOfConcat(a, b, 1 + k);
    UnfoldParam(a, k);
    UnfoldParam(a + b, k);
  }

  /** One step of PlaceholdersConcat: `a` does not start with a placeholder. */
  lemma ConcatPlainStep(a: string, b: string)
    requires |a| > 0 && !(a[0] == '$' && DigitRun(a[1..]) > 0)
    requires DigitRun((a + b)[1..]) == DigitRun(a[1..])
    requires Placeholders(a[1..] + b) == Placeholders(a[1..]) + Placeholders(b)
    ensures Placeholders(a + b) == Placeholders(a) + Placeholders(b)
  {
    var q := a + b;
    assert q[0] == a[0];
    assert q[1..] == a[1..] + b;
  }

  /**
   * Literal SQL text that holds no `$` and does not start with a digit, so
   * that it can follow a placeholder without extending it.
   */
  type Fragment = t: string | '$' !in t && StartsPlain(t) witness ""

  /** Literal SQL text without a `$` holds no placeholder. */
  lemma PlaceholdersOfText(t: string)
    requires '$' !in t
    ensures Placeholders(t) == []
  {
    PlaceholdersSkipText(t, []);
    assert t + [] == t;
  }

  /** The rendered parameter `$n` is read back as the single placeholder n. */
  lemma PlaceholdersOfParam(n: nat)
    ensures Placeholders(ParamText(n)) == [n]
  {
    PlaceholdersTakeParam(n, []);
    assert ParamText(n) + [] == ParamText(n);
  }

  /** Appending the rendered parameter n adds n to the placeholders read so far. */
  lemma AppendParam(s: string, n: nat)
    ensures Placeholders(s + ParamText(n)) == Placeholders(s) + [n]
  {
    PlaceholdersConcat(s, ParamText(n));
    PlaceholdersOfParam(n);
  }

  /** Appending a fragment adds no placeholder. */
  lemma AppendText(s: string, t: Fragment)
    ensures Placeholders(s + t) == Placeholders(s)
  {
    PlaceholdersConcat(s, t);
    PlaceholdersOfText(t);
  }
}
