/**
 * The handful of Python `str` operations the CRM applies to form input:
 * `strip()`, `upper()`, `lower()`, `endswith()`, `split()` and `isdigit()`.
 * Whitespace is what `str.isspace()` accepts; case mapping is the ASCII one.
 */
module Text {

  /**
   * `str.isspace()`: tab to carriage return, the four information
   * separators U+001C..U+001F, space, U+0085, no-break space and the Unicode
   * space separators and line and paragraph separators.
   */
  predicate IsSpace(c: char)
  {
    var n := c as int;
    (9 <= n <= 13) || (28 <= n <= 32) || n == 0x85 || n == 0xA0 || n == 0x1680 ||
    (0x2000 <= n <= 0x200A) || n == 0x2028 || n == 0x2029 || n == 0x202F || n == 0x205F || n == 0x3000
  }

  /** The first index at or after `i` that is not whitespace, `|s|` when there is none. */
  function SkipStart(s: string, i: nat): (j: nat)
    requires i <= |s|
    ensures i <= j <= |s|
    decreases |s| - i
  {
    if i < |s| && IsSpace(s[i]) then SkipStart(s, i + 1) else i
  }

  /** The end of `s[lo..j]` once its trailing whitespace is dropped. */
  function SkipEnd(s: string, lo: nat, j: nat): (e: nat)
    requires lo <= j <= |s|
    ensures lo <= e <= j
    decreases j
  {
    if lo < j && IsSpace(s[j - 1]) then SkipEnd(s, lo, j - 1) else j
  }

  /** `str.strip()`: drops leading and trailing whitespace. */
  function Strip(s: string): (r: string)
    ensures |r| <= |s|
  {
    var b := SkipStart(s, 0);
    s[b..SkipEnd(s, b, |s|)]
  }

  /** A string that `strip()` empties, i.e. a falsy value after `.strip()`. */
  predicate IsBlank(s: string)
  {
    Strip(s) == []
  }

  lemma {:induction false} SkipStartSpec(s: string, i: nat)
    requires i <= |s|
    ensures var j := SkipStart(s, i);
            (j < |s| ==> !IsSpace(s[j])) && forall k :: i <= k < j ==> IsSpace(s[k])
    decreases |s| - i
  {
    if i < |s| && IsSpace(s[i]) {
      SkipStartSpec(s, i + 1);
    }
  }

  lemma {:induction false} SkipEndSpec(s: string, lo: nat, j: nat)
    requires lo <= j <= |s|
    ensures var e := SkipEnd(s, lo, j);
            (lo < e ==> !IsSpace(s[e - 1])) && forall k :: e <= k < j ==> IsSpace(s[k])
    decreases j
  {
    if lo < j && IsSpace(s[j - 1]) {
      SkipEndSpec(s, lo, j - 1);
    }
  }

  /** Skipping stops exactly at the first non-space character after a run of spaces. */
  lemma {:induction false} SkipStartAt(s: string, i: nat, stop: nat)
    requires i <= stop < |s| && !IsSpace(s[stop])
    requires forall k :: i <= k < stop ==> IsSpace(s[k])
    ensures SkipStart(s, i) == stop
    decreases stop - i
  {
    if i < stop {
      SkipStartAt(s, i + 1, stop);
    }
  }

  lemma {:induction false} SkipEndAt(s: string, lo: nat, e: nat, j: nat)
    requires lo < e <= j <= |s| && !IsSpace(s[e - 1])
    requires forall k :: e <= k < j ==> IsSpace(s[k])
    ensures SkipEnd(s, lo, j) == e
    decreases j
  {
    if e < j {
      SkipEndAt(s, lo, e, j - 1);
    }
  }

  /** A stripped string is empty or starts and ends with a non-space character. */
  lemma StripEnds(s: string)
    ensures var r := Strip(s);
            r == [] || (!IsSpace(r[0]) && !IsSpace(r[|r| - 1]))
  {
    var b := SkipStart(s, 0);
    SkipStartSpec(s, 0);
    SkipEndSpec(s, b, |s|);
  }

  lemma BlankIffAllSpace(s: string)
    ensures IsBlank(s) <==> forall i :: 0 <= i < |s| ==> IsSpace(s[i])
  {
    var b := SkipStart(s, 0);
    SkipStartSpec(s, 0);
    SkipEndSpec(s, b, |s|);
    if SkipEnd(s, b, |s|) != b {
      assert !IsSpace(s[SkipEnd(s, b, |s|) - 1]);
    }
  }

  /** A string with no padding strips to itself. */
  lemma StripUnpadded(s: string)
    requires s == [] || (!IsSpace(s[0]) && !IsSpace(s[|s| - 1]))
    ensures Strip(s) == s
  {
    if s != [] {
      SkipStartAt(s, 0, 0);
      SkipEndAt(s, 0, |s|, |s|);
    }
  }

  /** A character that is not whitespace survives `strip()`. */
  lemma StripKeeps(s: string, c: char)
    requires c in s && !IsSpace(c)
    ensures c in Strip(s)
  {
    var k :| 0 <= k < |s| && s[k] == c;
    var b := SkipStart(s, 0);
    SkipStartSpec(s, 0);
    SkipEndSpec(s, b, |s|);
    var e := SkipEnd(s, b, |s|);
    assert b <= k < e;
    assert Strip(s)[k - b] == c;
  }

  lemma StripIdempotent(s: string)
    ensures Strip(Strip(s)) == Strip(s)
  {
    StripEnds(s);
    StripUnpadded(Strip(s));
  }

  /** Strip removes exactly the padding around an unpadded core. */
  lemma StripPadding(pre: string, core: string, post: string)
    requires forall i :: 0 <= i < |pre| ==> IsSpace(pre[i])
    requires forall i :: 0 <= i < |post| ==> IsSpace(post[i])
    requires core != [] && !IsSpace(core[0]) && !IsSpace(core[|core| - 1])
    ensures Strip(pre + core + post) == core
  {
    var t := pre + core + post;
    var e := |pre| + |core|;
    assert forall k :: 0 <= k < |pre| ==> t[k] == pre[k];
    assert forall k :: e <= k < |t| ==> t[k] == post[k - e];
    assert t[|pre|] == core[0] && t[e - 1] == core[|core| - 1];
    SkipStartAt(t, 0, |pre|);
    SkipEndAt(t, |pre|, e, |t|);
    assert t[|pre|..e] == core;
  }

  function UpperChar(c: char): char
  {
    if 'a' <= c <= 'z' then (c as int - 32) as char else c
  }

  function LowerChar(c: char): char
  {
    if 'A' <= c <= 'Z' then (c as int + 32) as char else c
  }

  /** `str.upper()` on ASCII letters. */
  function Upper(s: string): (r: string)
    ensures |r| == |s| && forall i :: 0 <= i < |s| ==> r[i] == UpperChar(s[i])
  {
    seq(|s|, i requires 0 <= i < |s| => UpperChar(s[i]))
  }

  /** `str.lower()` on ASCII letters. */
  function Lower(s: string): (r: string)
    ensures |r| == |s| && forall i :: 0 <= i < |s| ==> r[i] == LowerChar(s[i])
  {
    seq(|s|, i requires 0 <= i < |s| => LowerChar(s[i]))
  }

  /** Two names that compare equal after `.lower()` on both sides. */
  predicate SameIgnoringCase(a: string, b: string)
  {
    Lower(a) == Lower(b)
  }

  lemma SameIgnoringCaseIsEquivalence(a: string, b: string, c: string)
    ensures SameIgnoringCase(a, a)
    ensures SameIgnoringCase(a, b) ==> SameIgnoringCase(b, a)
    ensures SameIgnoringCase(a, b) && SameIgnoringCase(b, c) ==> SameIgnoringCase(a, c)
  {
  }

  /** `s.endswith(suffix)`. */
  predicate EndsWith(s: string, suffix: string)
  {
    |suffix| <= |s| && s[|s| - |suffix|..] == suffix
  }

  /** `s.startswith(prefix)`. */
  predicate StartsWith(s: string, prefix: string)
  {
    |prefix| <= |s| && s[..|prefix|] == prefix
  }

  function IndexOf(s: string, c: char): (i: nat)
    requires c in s
    ensures i < |s| && s[i] == c && c !in s[..i]
  {
    if s[0] == c then 0 else 1 + IndexOf(s[1..], c)
  }

  lemma IndexOfIs(s: string, c: char, j: nat)
    requires j < |s| && s[j] == c && c !in s[..j]
    ensures c in s && IndexOf(s, c) == j
  {
    assert c in s;
  }

  /** `s.split(sep)` for a one-character separator: never empty, no part holds `sep`. */
  function Split(s: string, sep: char): (parts: seq<string>)
    ensures |parts| >= 1
    ensures forall k :: 0 <= k < |parts| ==> sep !in parts[k]
    decreases |s|
  {
    if sep !in s then [s]
    else
      var i := IndexOf(s, sep);
      [s[..i]] + Split(s[i + 1..], sep)
  }

  /** `sep.join(parts)`. */
  function Join(parts: seq<string>, sep: char): string
    requires |parts| >= 1
  {
    if |parts| == 1 then parts[0] else parts[0] + [sep] + Join(parts[1..], sep)
  }

  lemma {:induction false} JoinSplit(s: string, sep: char)
    ensures Join(Split(s, sep), sep) == s
    decreases |s|
  {
    if sep in s {
      var i := IndexOf(s, sep);
      var parts, rest := Split(s, sep), Split(s[i + 1..], sep);
      assert parts == [s[..i]] + rest;
      assert |parts| > 1 && parts[0] == s[..i] && parts[1..] == rest;
      JoinSplit(s[i + 1..], sep);
      assert Join(parts, sep) == s[..i] + [sep] + Join(rest, sep);
      assert s == s[..i] + [sep] + s[i + 1..];
    }
  }

  /** Joining puts the first separator right after the first part. */
  lemma JoinHead(parts: seq<string>, sep: char)
    requires |parts| > 1 && sep !in parts[0]
    ensures var s, n := Join(parts, sep), |parts[0]|;
            sep in s && IndexOf(s, sep) == n && s[..n] == parts[0] && s[n + 1..] == Join(parts[1..], sep)
  {
    var s, n := Join(parts, sep), |parts[0]|;
    assert s == parts[0] + [sep] + Join(parts[1..], sep);
    assert s[..n] == parts[0] && s[n] == sep;
    IndexOfIs(s, sep, n);
    assert s[n + 1..] == Join(parts[1..], sep);
  }

  lemma {:induction false} SplitJoin(parts: seq<string>, sep: char)
    requires |parts| >= 1
    requires forall k :: 0 <= k < |parts| ==> sep !in parts[k]
    ensures Split(Join(parts, sep), sep) == parts
  {
    if |parts| > 1 {
      JoinHead(parts, sep);
      var tail := parts[1..];
      forall k | 0 <= k < |tail| ensures sep !in tail[k] {
        assert tail[k] == parts[k + 1];
      }
      SplitJoin(tail, sep);
      var joined := Join(parts, sep);
      assert Split(joined, sep) == [joined[..|parts[0]|]] + Split(joined[|parts[0]| + 1..], sep);
      assert parts == [parts[0]] + tail;
    }
  }

  /** The text after the last `sep`, i.e. `s.rsplit(sep, 1)[-1]`. */
  function LastPart(s: string, sep: char): (r: string)
    ensures sep !in r && EndsWith(s, r)
    ensures sep !in s ==> r == s
    decreases |s|
  {
    if sep !in s then s
    else
      var i := IndexOf(s, sep);
      LastPart(s[i + 1..], sep)
  }

  predicate IsDigit(c: char)
  {
    '0' <= c <= '9'
  }

  /** `str.isdigit()` over ASCII digits: non-empty and digits only. */
  predicate IsDigits(s: string)
  {
    |s| > 0 && AllDigits(s)
  }

  predicate AllDigits(s: string)
  {
    forall i :: 0 <= i < |s| ==> IsDigit(s[i])
  }

  /** The lower-cased text after the last dot, "" when the name has no dot. */
  function Extension(fileName: string): (ext: string)
    ensures '.' !in fileName ==> ext == ""
  {
    if '.' in fileName then Lower(LastPart(fileName, '.')) else ""
  }

  /** A name ending in "." and a dot-free extension has that extension, lower-cased. */
  lemma {:induction false} ExtensionOfDotted(stem: string, ext: string)
    requires '.' !in ext
    ensures Extension(stem + "." + ext) == Lower(ext)
    decreases |stem|
  {
    var s := stem + "." + ext;
    assert s[|stem|] == '.';
    var i := IndexOf(s, '.');
    if i == |stem| {
      assert s[i + 1..] == ext;
    } else {
      assert i < |stem| && stem[i] == '.';
      ExtensionOfDotted(stem[i + 1..], ext);
      assert s[i + 1..] == stem[i + 1..] + "." + ext;
    }
  }
}
