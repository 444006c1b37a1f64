/** String operations with the JavaScript semantics the sync code relies on:
    `trim`, the `\s` class, `startsWith`/`endsWith`/`includes`, stripping a
    trailing run of slashes, `slice(0, n)`, decimal rendering of integers and
    the first `\d+` match of a string. */
module Strings {
  import opened Wrappers

  /** The characters JavaScript's `trim` removes and `\s` matches: the
      WhiteSpace and LineTerminator code points of ECMA-262. */
  predicate IsSpace(c: char) {
    var n := c as int;
    || n == 0x09 || n == 0x0A || n == 0x0B || n == 0x0C || n == 0x0D || n == 0x20
    || n == 0xA0 || n == 0x1680 || (0x2000 <= n <= 0x200A) || n == 0x2028 || n == 0x2029
    || n == 0x202F || n == 0x205F || n == 0x3000 || n == 0xFEFF
  }

  /** `\d` without the `u` flag: the ASCII digits only. */
  predicate IsDigit(c: char) {
    '0' <= c <= '9'
  }

  predicate StartsWith(s: string, prefix: string) {
    |prefix| <= |s| && s[..|prefix|] == prefix
  }

  predicate EndsWith(s: string, suffix: string) {
    |suffix| <= |s| && s[|s| - |suffix|..] == suffix
  }

  predicate Contains(s: string, sub: string) {
    exists i :: 0 <= i <= |s| - |sub| && OccursAt(s, sub, i)
  }

  predicate OccursAt(s: string, sub: string, i: int) {
    0 <= i <= |s| - |sub| && s[i..i + |sub|] == sub
  }

  /** Leading whitespace removed. */
  function TrimStart(s: string): (r: string)
    ensures |r| <= |s| && r == s[|s| - |r|..]
    ensures r != [] ==> !IsSpace(r[0])
    ensures forall i :: 0 <= i < |s| - |r| ==> IsSpace(s[i])
  {
    if s != [] && IsSpace(s[0]) then TrimStart(s[1..]) else s
  }

  /** Trailing whitespace removed. */
  function TrimEnd(s: string): (r: string)
    ensures |r| <= |s| && r == s[..|r|]
    ensures r != [] ==> !IsSpace(r[|r| - 1])
    ensures forall i :: |r| <= i < |s| ==> IsSpace(s[i])
  {
    if s != [] && IsSpace(s[|s| - 1]) then TrimEnd(s[..|s| - 1]) else s
  }

  /** `String.prototype.trim`. */
  function Trim(s: string): (r: string)
    ensures r != [] ==> !IsSpace(r[0]) && !IsSpace(r[|r| - 1])
    ensures r == [] <==> forall i :: 0 <= i < |s| ==> IsSpace(s[i])
  {
    TrimFacts(s);
    TrimEnd(TrimStart(s))
  }

  /** The trimmed string is the slice of `s` that only whitespace precedes
      and follows. */
  lemma TrimIsSlice(s: string)
    ensures exists i, j :: 0 <= i <= j <= |s| && Trim(s) == s[i..j] && TrimmedAround(s, i, j)
  {
    var t := TrimStart(s);
    var r := TrimEnd(t);
    SliceAround(s, t, r);
    assert Trim(s) == s[|s| - |t|..|s| - |t| + |r|] && TrimmedAround(s, |s| - |t|, |s| - |t| + |r|);
  }

  /** Everything of `s` outside `s[i..j]` is whitespace. */
  predicate TrimmedAround(s: string, i: nat, j: nat)
  {
    (forall k :: 0 <= k < i && k < |s| ==> IsSpace(s[k])) && (forall k :: j <= k < |s| ==> IsSpace(s[k]))
  }

  /** A prefix `r` of a suffix `t` of `s`, where what precedes `t` and what
      follows `r` in `t` is whitespace, is a slice of `s` with whitespace
      around it. */
  lemma SliceAround(s: string, t: string, r: string)
    requires |t| <= |s| && t == s[|s| - |t|..]
    requires forall k :: 0 <= k < |s| - |t| ==> IsSpace(s[k])
    requires |r| <= |t| && r == t[..|r|]
    requires forall k :: |r| <= k < |t| ==> IsSpace(t[k])
    ensures var i := |s| - |t|; r == s[i..i + |r|] && TrimmedAround(s, i, i + |r|)
  {
    var i := |s| - |t|;
    forall k | i + |r| <= k < |s|
      ensures IsSpace(s[k])
    {
      assert s[k] == t[k - i];
    }
  }

  lemma TrimFacts(s: string)
    ensures var r := TrimEnd(TrimStart(s));
      && (r != [] ==> !IsSpace(r[0]))
      && (r == [] <==> forall i :: 0 <= i < |s| ==> IsSpace(s[i]))
  {
    var t := TrimStart(s);
    var r := TrimEnd(t);
    if r != [] {
      assert r[0] == t[0];
    }
    if t != [] {
      assert !IsSpace(t[0]);
      assert !IsSpace(s[|s| - |t|]) by { assert s[|s| - |t|] == t[0]; }
    } else {
      assert forall i :: 0 <= i < |s| ==> IsSpace(s[i]);
    }
  }

  /** A string that neither starts nor ends with whitespace is its own trim. */
  lemma TrimUnchanged(s: string)
    requires s != [] ==> !IsSpace(s[0]) && !IsSpace(s[|s| - 1])
    ensures Trim(s) == s
  {
  }

  /** `s.replace(/\/+$/, '')`: the maximal run of trailing slashes removed. */
  function StripTrailingSlashes(s: string): (r: string)
    ensures |r| <= |s| && r == s[..|r|]
    ensures r != [] ==> r[|r| - 1] != '/'
    ensures forall i :: |r| <= i < |s| ==> s[i] == '/'
  {
    if s != [] && s[|s| - 1] == '/' then StripTrailingSlashes(s[..|s| - 1]) else s
  }

  function LowerAscii(c: char): char {
    if 'A' <= c <= 'Z' then (c as int + 32) as char else c
  }

  /** `prefix` matches the start of `s` ignoring ASCII case (`prefix` is
      lower-case). */
  predicate StartsWithIgnoreCase(s: string, prefix: string) {
    |prefix| <= |s| && forall i :: 0 <= i < |prefix| ==> LowerAscii(s[i]) == prefix[i]
  }

  /** The test `/^https?:\/\//i`. */
  predicate HasHttpScheme(s: string) {
    StartsWithIgnoreCase(s, "http://") || StartsWithIgnoreCase(s, "https://")
  }

  /** `s.replace(/\s+/g, ' ')`: every maximal whitespace run becomes one space. */
  function CollapseSpaces(s: string): (r: string)
    ensures forall i :: 0 <= i < |r| && IsSpace(r[i]) ==> r[i] == ' '
    ensures forall i, j :: 0 <= i && j == i + 1 && j < |r| ==> !(IsSpace(r[i]) && IsSpace(r[j]))
    ensures r != [] ==> s != [] && (IsSpace(r[0]) <==> IsSpace(s[0]))
    ensures s != [] ==> r != []
    ensures NonSpaces(r) == NonSpaces(s)
    decreases |s|
  {
    if s == [] then []
    else if IsSpace(s[0]) then
      var rest := TrimStart(s);
      assert |rest| < |s|;
      var r := [' '] + CollapseSpaces(rest);
      assert r[1..] == CollapseSpaces(rest);
      NonSpacesTrimStart(s);
      r
    else
      var r := [s[0]] + CollapseSpaces(s[1..]);
      assert r[1..] == CollapseSpaces(s[1..]);
      r
  }

  /** The non-whitespace characters of `s`, in order. */
  function NonSpaces(s: string): string
  {
    if s == [] then []
    else if IsSpace(s[0]) then NonSpaces(s[1..])
    else [s[0]] + NonSpaces(s[1..])
  }

  lemma NonSpacesTrimStart(s: string)
    ensures NonSpaces(TrimStart(s)) == NonSpaces(s)
  {
    if s != [] && IsSpace(s[0]) {
      NonSpacesTrimStart(s[1..]);
    }
  }

  /** A reference reading of `s.replace(/\s+/g, ' ')` as one left-to-right
      scan: a whitespace character is dropped when the previous one was
      whitespace too (`inRun`) and otherwise becomes `' '`; every other
      character is copied. */
  function CollapseScan(s: string, inRun: bool): string
  {
    if s == [] then []
    else if IsSpace(s[0]) then
      (if inRun then [] else [' ']) + CollapseScan(s[1..], true)
    else [s[0]] + CollapseScan(s[1..], false)
  }

  /** `CollapseSpaces` agrees with the scan on every string. */
  lemma {:induction false} CollapseMatchesScan(s: string)
    ensures CollapseSpaces(s) == CollapseScan(s, false)
    decreases |s|
  {
    if s != [] {
      if IsSpace(s[0]) {
        var rest := TrimStart(s);
        assert rest == TrimStart(s[1..]);
        ScanSkipsSpaces(s[1..]);
        ScanAfterRun(rest);
        CollapseMatchesScan(rest);
      } else {
        CollapseMatchesScan(s[1..]);
      }
    }
  }

  /** Inside a run, leading whitespace contributes nothing. */
  lemma {:induction false} ScanSkipsSpaces(s: string)
    ensures CollapseScan(s, true) == CollapseScan(TrimStart(s), true)
  {
    if s != [] && IsSpace(s[0]) {
      ScanSkipsSpaces(s[1..]);
    }
  }

  /** Once the run has ended, whether one was in progress no longer matters. */
  lemma ScanAfterRun(t: string)
    requires t != [] ==> !IsSpace(t[0])
    ensures CollapseScan(t, true) == CollapseScan(t, false)
  {
  }

  /** `s.slice(0, n)`. */
  function Take(s: string, n: nat): (r: string)
    ensures |r| <= n && |r| <= |s| && r == s[..|r|]
    ensures |s| <= n ==> r == s
    ensures |s| > n ==> |r| == n
  {
    if |s| <= n then s else s[..n]
  }

  function DigitChar(d: nat): (c: char)
    requires d < 10
    ensures IsDigit(c)
  {
    ('0' as int + d) as char
  }

  /** `String(n)` for a natural number: its decimal digits, most significant
      first, without leading zeros. */
  function NatToString(n: nat): (r: string)
    ensures r != []
    ensures forall i :: 0 <= i < |r| ==> IsDigit(r[i])
    ensures r[0] == '0' ==> n == 0 && r == "0"
  {
    if n < 10 then [DigitChar(n)] else NatToString(n / 10) + [DigitChar(n % 10)]
  }

  /** `String(i)` for an integer. */
  function IntToString(i: int): (r: string)
    ensures r != []
  {
    if i < 0 then "-" + NatToString(-i) else NatToString(i)
  }

  /** The value of a string of decimal digits (`Number` of a `\d+` match). */
  function DigitsValue(d: string): nat
    requires forall i :: 0 <= i < |d| ==> IsDigit(d[i])
  {
    if d == [] then 0
    else
      assert IsDigit(d[|d| - 1]);
      DigitsValue(d[..|d| - 1]) * 10 + (d[|d| - 1] as int - '0' as int)
  }

  /** Rendering a natural number and reading it back gives the number. */
  lemma {:induction false} DigitsValueOfNatToString(n: nat)
    ensures DigitsValue(NatToString(n)) == n
  {
    var r := NatToString(n);
    if n >= 10 {
      DigitsValueOfNatToString(n / 10);
      assert r[..|r| - 1] == NatToString(n / 10);
    }
  }

  /** Two different natural numbers render differently. */
  lemma NatToStringInjective(m: nat, n: nat)
    requires NatToString(m) == NatToString(n)
    ensures m == n
  {
    DigitsValueOfNatToString(m);
    DigitsValueOfNatToString(n);
  }

  /** The maximal run of digits at the start of `s`. */
  function LeadingDigits(s: string): (r: string)
    ensures |r| <= |s| && r == s[..|r|]
    ensures forall i :: 0 <= i < |r| ==> IsDigit(r[i])
    ensures |r| < |s| ==> !IsDigit(s[|r|])
  {
    if s != [] && IsDigit(s[0]) then [s[0]] + LeadingDigits(s[1..]) else []
  }

  /** The leftmost, longest match of `/(\d+)/`, if any. */
  function FirstDigitRun(s: string): (r: Option<string>)
    ensures r.None? <==> forall i :: 0 <= i < |s| ==> !IsDigit(s[i])
    ensures r.Some? ==> exists start :: FirstRunAt(s, start, r.value)
  {
    if s == [] then None
    else if IsDigit(s[0]) then
      var d := LeadingDigits(s);
      assert FirstRunAt(s, 0, d);
      Some(d)
    else
      var r := FirstDigitRun(s[1..]);
      assert r.Some? ==> exists start :: FirstRunAt(s, start, r.value) by {
        if r.Some? {
          var start :| FirstRunAt(s[1..], start, r.value);
          assert s[start + 1..start + 1 + |r.value|] == s[1..][start..start + |r.value|];
          assert FirstRunAt(s, start + 1, r.value);
        }
      }
      r
  }

  /** `d` is a maximal, non-empty digit run of `s` beginning at `start`, and no
      digit occurs before it. */
  ghost predicate FirstRunAt(s: string, start: int, d: string) {
    && 0 <= start && start + |d| <= |s|
    && d != [] && s[start..start + |d|] == d
    && (forall i :: 0 <= i < |d| ==> IsDigit(d[i]))
    && (forall i :: 0 <= i < start ==> !IsDigit(s[i]))
    && (start + |d| < |s| ==> !IsDigit(s[start + |d|]))
  }

  /** The digit run is the one at the first digit of the string: it is
      determined uniquely. */
  lemma FirstRunAtUnique(s: string, a: int, d: string, b: int, e: string)
    requires FirstRunAt(s, a, d) && FirstRunAt(s, b, e)
    ensures a == b && d == e
  {
    assert IsDigit(s[a]) by { assert s[a] == d[0]; }
    assert IsDigit(s[b]) by { assert s[b] == e[0]; }
  }

  /** A string of digits is its own leading digit run. */
  lemma {:induction false} LeadingDigitsOfDigits(d: string)
    requires forall i :: 0 <= i < |d| ==> IsDigit(d[i])
    ensures LeadingDigits(d) == d
  {
    if d != [] {
      LeadingDigitsOfDigits(d[1..]);
    }
  }

  /** `prefix + NatToString(n)` always parses back to `n` when `prefix` has no
      digit: the first digit run is exactly the rendered number. */
  lemma {:induction false} FirstDigitRunAfterPrefix(prefix: string, n: nat)
    requires forall i :: 0 <= i < |prefix| ==> !IsDigit(prefix[i])
    ensures FirstDigitRun(prefix + NatToString(n)) == Some(NatToString(n))
  {
    var d := NatToString(n);
    if prefix == [] {
      assert prefix + d == d;
      LeadingDigitsOfDigits(d);
    } else {
      assert (prefix + d)[1..] == prefix[1..] + d;
      FirstDigitRunAfterPrefix(prefix[1..], n);
    }
  }
}
