/**
 * Number parsing and formatting the routes share: Python `int(...)`,
 * `Decimal(...)` through the quotes helper `_d`, and the "%06d" document codes.
 */
module Numbers {
  import opened Wrappers
  import opened Text

  function DigitValue(c: char): nat
    requires IsDigit(c)
  {
    c as int - '0' as int
  }

  function DigitChar(d: nat): (c: char)
    requires d < 10
    ensures IsDigit(c) && DigitValue(c) == d
  {
    ('0' as int + d) as char
  }

  /** The value of a run of decimal digits (0 for the empty run). */
  function DigitsValue(s: string): nat
    requires AllDigits(s)
  {
    if s == [] then 0 else DigitsValue(s[..|s| - 1]) * 10 + DigitValue(s[|s| - 1])
  }

  /** Decimal rendering of a natural number, without leading zeros. */
  function ShowNat(n: nat): (s: string)
    ensures IsDigits(s)
    ensures |s| > 1 ==> s[0] != '0'
  {
    if n < 10 then [DigitChar(n)] else ShowNat(n / 10) + [DigitChar(n % 10)]
  }

  lemma {:induction false} ShowNatValue(n: nat)
    ensures DigitsValue(ShowNat(n)) == n
  {
    if n >= 10 {
      var s := ShowNat(n);
      assert s[..|s| - 1] == ShowNat(n / 10);
      ShowNatValue(n / 10);
    }
  }

  function Zeros(k: nat): (z: string)
    ensures |z| == k && AllDigits(z)
    ensures forall i :: 0 <= i < k ==> z[i] == '0'
  {
    if k == 0 then [] else Zeros(k - 1) + ['0']
  }

  /** `int(v) if v.isdigit() else None`. */
  function DigitId(raw: string): (r: Option<nat>)
    ensures r.Some? <==> IsDigits(raw)
  {
    if IsDigits(raw) then Some(DigitsValue(raw)) else None
  }

  /** `_clean(v) or None`. */
  function OrNone(raw: string): (r: Option<string>)
    ensures r.None? <==> IsBlank(raw)
  {
    if IsBlank(raw) then None else Some(Strip(raw))
  }

  /** An id read with `isdigit()`, as the optional integer column it is stored in. */
  function OptInt(o: Option<nat>): Option<int>
  {
    if o.Some? then Some(o.value) else None
  }

  /** Python's "%06d" of a natural number: zero-padded to at least six digits. */
  function Pad6(n: nat): (s: string)
    ensures |s| >= 6 && IsDigits(s)
  {
    var d := ShowNat(n);
    if |d| >= 6 then d else Zeros(6 - |d|) + d
  }

  lemma {:induction false} LeadingZerosValue(k: nat, s: string)
    requires AllDigits(s)
    ensures AllDigits(Zeros(k) + s) && DigitsValue(Zeros(k) + s) == DigitsValue(s)
    decreases |s|
  {
    var z := Zeros(k);
    if s == [] {
      assert z + s == z;
      ZerosValue(k);
    } else {
      assert (z + s)[..|z + s| - 1] == z + s[..|s| - 1];
      LeadingZerosValue(k, s[..|s| - 1]);
    }
  }

  lemma {:induction false} ZerosValue(k: nat)
    ensures DigitsValue(Zeros(k)) == 0
  {
    if k > 0 {
      assert Zeros(k)[..k - 1] == Zeros(k - 1);
      ZerosValue(k - 1);
    }
  }

  /** Reading a padded number back gives the number: "%06d" loses nothing. */
  lemma Pad6Value(n: nat)
    ensures DigitsValue(Pad6(n)) == n
  {
    ShowNatValue(n);
    var d := ShowNat(n);
    if |d| < 6 {
      LeadingZerosValue(6 - |d|, d);
    }
  }

  /** Python's `"%0wd"` of a natural number: at least `w` digits, zero-padded. */
  function PadTo(w: nat, n: nat): (s: string)
    ensures IsDigits(s) && |s| >= w
  {
    var d := ShowNat(n);
    if |d| >= w then d else Zeros(w - |d|) + d
  }

  lemma PadToValue(w: nat, n: nat)
    ensures DigitsValue(PadTo(w, n)) == n
  {
    ShowNatValue(n);
    var d := ShowNat(n);
    if |d| < w {
      LeadingZerosValue(w - |d|, d);
    }
  }

  /** A number below 10^k needs at most k digits. */
  lemma {:induction false} ShowNatShort(n: nat, k: nat)
    requires k >= 1 && n < Pow10(k)
    ensures |ShowNat(n)| <= k
  {
    if n >= 10 {
      assert k >= 2 by {
        assert Pow10(1) == 10;
      }
      ShowNatShort(n / 10, k - 1);
    }
  }

  /** Below 10^w, the padded form has exactly w digits. */
  lemma PadToWidth(w: nat, n: nat)
    requires w >= 1 && n < Pow10(w)
    ensures |PadTo(w, n)| == w
  {
    ShowNatShort(n, w);
  }

  /** Reading a padded number back gives the number. */
  lemma ParsePadded(w: nat, n: nat)
    ensures ParseInt(PadTo(w, n)) == Some(n as int)
  {
    var s := PadTo(w, n);
    StripUnpadded(s);
    PadToValue(w, n);
  }

  /**
   * The next document code: `prefix` and the zero-padded (last id + 1), or 1
   * when the table is empty (`_quote_code_next`, `_pi_no_next`, `_invoice_no_next`).
   */
  function NextCode(prefix: string, lastId: Option<nat>): (code: string)
    ensures StartsWith(code, prefix) && IsDigits(code[|prefix|..])
    ensures |code| >= |prefix| + 6
  {
    var next := match lastId case None => 1 case Some(id) => id + 1;
    assert (prefix + Pad6(next))[|prefix|..] == Pad6(next);
    prefix + Pad6(next)
  }

  /** The number inside a generated code is one more than the last id. */
  lemma NextCodeNumber(prefix: string, lastId: Option<nat>)
    ensures DigitsValue(NextCode(prefix, lastId)[|prefix|..]) == match lastId case None => 1 case Some(id) => id + 1
  {
    var next := match lastId case None => 1 case Some(id) => id + 1;
    assert NextCode(prefix, lastId)[|prefix|..] == Pad6(next);
    Pad6Value(next);
  }

  /** Codes generated after different last ids differ. */
  lemma NextCodeInjective(prefix: string, a: Option<nat>, b: Option<nat>)
    requires a.Some? && b.Some? && a != b
    ensures NextCode(prefix, a) != NextCode(prefix, b)
  {
    NextCodeNumber(prefix, a);
    NextCodeNumber(prefix, b);
  }

  /**
   * Python `int(s)` on ASCII input: surrounding whitespace, an optional sign,
   * then at least one digit.
   */
  function ParseInt(s: string): (r: Option<int>)
    ensures IsBlank(s) ==> r == None
  {
    var t := Strip(s);
    if |t| > 0 && (t[0] == '+' || t[0] == '-') && IsDigits(t[1..]) then
      var v: int := DigitsValue(t[1..]);
      Some(if t[0] == '-' then -v else v)
    else if IsDigits(t) then Some(DigitsValue(t))
    else None
  }

  lemma ParseIntShowNat(n: nat)
    ensures ParseInt(ShowNat(n)) == Some(n)
  {
    var s := ShowNat(n);
    StripUnpadded(s);
    ShowNatValue(n);
  }

  function Pow10(k: nat): (p: nat)
    ensures p >= 1
  {
    if k == 0 then 1 else 10 * Pow10(k - 1)
  }

  /**
   * `Decimal(t)` on an already stripped string: an optional sign, digits with
   * at most one decimal point, and at least one digit.
   */
  function ParseDecimal(t: string): Option<real>
  {
    if |t| > 0 && (t[0] == '+' || t[0] == '-') then
      match ParseUnsigned(t[1..])
      case None => None
      case Some(x) => Some(if t[0] == '-' then -x else x)
    else ParseUnsigned(t)
  }

  function ParseUnsigned(t: string): (r: Option<real>)
    ensures r.Some? ==> r.value >= 0.0
  {
    if '.' in t then
      var i := IndexOf(t, '.');
      var whole, frac := t[..i], t[i + 1..];
      if AllDigits(whole) && AllDigits(frac) && |whole| + |frac| > 0 then
        Some(DigitsValue(whole) as real + DigitsValue(frac) as real / Pow10(|frac|) as real)
      else None
    else if IsDigits(t) then Some(DigitsValue(t) as real)
    else None
  }

  function RemoveCommas(s: string): (r: string)
    ensures ',' !in r && |r| <= |s|
  {
    if s == [] then [] else (if s[0] == ',' then [] else [s[0]]) + RemoveCommas(s[1..])
  }

  /** What the helper `_d` receives: nothing, a stored `Decimal`, or form text. */
  datatype Raw = Missing | Number(x: real) | Text(s: string)

  function FromOption(v: Option<real>): Raw
  {
    match v
    case None => Missing
    case Some(x) => Number(x)
  }

  /**
   * `_d(val, default)`: None, blank text and unparsable text give the
   * default; commas are dropped before parsing; a stored Decimal is itself.
   */
  function D(v: Raw, default: real): real
  {
    match v
    case Missing => default
    case Number(x) => x
    case Text(s) =>
      var t := RemoveCommas(Strip(s));
      if t == [] then default
      else match ParseDecimal(t)
        case None => default
        case Some(x) => x
  }

  /** Text that cannot begin a number: its first character is no digit, sign or point. */
  predicate StartsNonNumeric(t: string)
  {
    |t| > 0 && !IsDigit(t[0]) && t[0] != '+' && t[0] != '-' && t[0] != '.'
  }

  lemma NonNumericUnparsed(t: string)
    requires StartsNonNumeric(t)
    ensures ParseDecimal(t) == None
  {
    if '.' in t {
      var i := IndexOf(t, '.');
      assert t[..i][0] == t[0];
    }
  }

  /** `Decimal` refuses a thousands comma anywhere in the text. */
  lemma CommaUnparsed(t: string)
    requires ',' in t
    ensures ParseDecimal(t) == None
  {
    var u := if |t| > 0 && (t[0] == '+' || t[0] == '-') then t[1..] else t;
    assert ',' in u;
    var c :| 0 <= c < |u| && u[c] == ',';
    if '.' in u {
      var i := IndexOf(u, '.');
      if c < i {
        assert u[..i][c] == ',';
      } else {
        assert u[i + 1..][c - i - 1] == ',';
      }
    }
  }

  /**
   * `_d` falls back to the default for a missing value, blank text, and text
   * whose first non-space character is neither a digit, a sign, a point nor
   * a comma (the commas are dropped before `Decimal` reads it).
   */
  lemma DDefaults(s: string, default: real)
    ensures D(Missing, default) == default
    ensures IsBlank(s) ==> D(Text(s), default) == default
    ensures StartsNonNumeric(Strip(s)) && Strip(s)[0] != ',' ==> D(Text(s), default) == default
  {
    var t := Strip(s);
    if StartsNonNumeric(t) && t[0] != ',' {
      assert RemoveCommas(t)[0] == t[0];
      NonNumericUnparsed(RemoveCommas(t));
    }
  }

  lemma ParseDigits(s: string)
    requires IsDigits(s)
    ensures ParseDecimal(s) == Some(DigitsValue(s) as real)
  {
    assert '.' !in s;
    assert IsDigit(s[0]);
  }

  lemma DOfDigits(s: string, default: real)
    requires IsDigits(s)
    ensures D(Text(s), default) == DigitsValue(s) as real
  {
    StripUnpadded(s);
    NoCommaDigits(s);
    ParseDigits(s);
  }

  /** `_d` reads a rendered whole number back as that number. */
  lemma DReadsWholeNumbers(n: nat, default: real)
    ensures D(Text(ShowNat(n)), default) == n as real
  {
    DOfDigits(ShowNat(n), default);
    ShowNatValue(n);
  }

  /** `_d` ignores a thousands separator: "12,345" reads as 12345. */
  lemma DIgnoresThousandsComma(thousands: nat, rest: nat, default: real)
    requires rest < 1000
    ensures D(Text(ShowNat(thousands) + "," + Pad3(rest)), default) == (thousands * 1000 + rest) as real
  {
    var a, b := ShowNat(thousands), Pad3(rest);
    var w := a + "," + b;
    assert Strip(w) == w by {
      assert w[0] == a[0] && w[|w| - 1] == b[2];
      StripUnpadded(w);
    }
    CommasDropped(a, b);
    assert AllDigits(a + b) && DigitsValue(a + b) == thousands * 1000 + rest by {
      ShowNatValue(thousands);
      Pad3Value(rest);
      DigitsConcat(a, b);
      assert Pow10(3) == 1000;
    }
    DOfDigits(a + b, default);
    assert D(Text(a + b), default) == D(Text(w), default) by {
      StripUnpadded(a + b);
      NoCommaDigits(a + b);
    }
  }

  lemma CommasDropped(a: string, b: string)
    requires AllDigits(a) && AllDigits(b)
    ensures RemoveCommas(a + "," + b) == a + b
  {
    CommaJoin(a, b);
    NoCommaDigits(a);
    NoCommaDigits(b);
  }

  function Pad3(n: nat): (s: string)
    requires n < 1000
    ensures |s| == 3 && AllDigits(s)
  {
    [DigitChar(n / 100), DigitChar(n / 10 % 10), DigitChar(n % 10)]
  }

  lemma Pad3Value(n: nat)
    requires n < 1000
    ensures DigitsValue(Pad3(n)) == n
  {
    var s := Pad3(n);
    assert s[..2][..1] == s[..1];
    assert s[..1][..0] == [];
    assert DigitsValue(s[..1]) == n / 100;
    assert DigitsValue(s[..2]) == n / 100 * 10 + n / 10 % 10;
  }

  lemma {:induction false} DigitsConcat(a: string, b: string)
    requires AllDigits(a) && AllDigits(b)
    ensures AllDigits(a + b) && DigitsValue(a + b) == DigitsValue(a) * Pow10(|b|) + DigitsValue(b)
    decreases |b|
  {
    if b == [] {
      assert a + b == a;
    } else {
      var init, last := b[..|b| - 1], b[|b| - 1];
      assert (a + b)[..|a + b| - 1] == a + init && (a + b)[|a + b| - 1] == last;
      DigitsConcat(a, init);
      var x, p := DigitsValue(a), Pow10(|init|);
      assert Pow10(|b|) == 10 * p;
      ScaleByTen(x, p);
      assert DigitsValue(a + b) == (x * p + DigitsValue(init)) * 10 + DigitValue(last);
    }
  }

  lemma ScaleByTen(x: nat, p: nat)
    ensures x * (10 * p) == (x * p) * 10
  {
  }

  lemma {:induction false} NoCommaDigits(s: string)
    requires AllDigits(s)
    ensures RemoveCommas(s) == s
  {
    if s != [] {
      NoCommaDigits(s[1..]);
      assert s == [s[0]] + s[1..];
    }
  }

  lemma {:induction false} CommaJoin(a: string, b: string)
    requires ',' !in a
    ensures RemoveCommas(a + "," + b) == RemoveCommas(a) + RemoveCommas(b)
    decreases |a|
  {
    var s := a + "," + b;
    if a == [] {
      assert s == [','] + b;
      assert s[1..] == b;
    } else {
      assert s[0] == a[0] != ',';
      assert s[1..] == a[1..] + "," + b;
      CommaJoin(a[1..], b);
      assert RemoveCommas(s) == [a[0]] + RemoveCommas(s[1..]);
      assert RemoveCommas(a) == [a[0]] + RemoveCommas(a[1..]);
      assert [a[0]] + (RemoveCommas(a[1..]) + RemoveCommas(b)) == ([a[0]] + RemoveCommas(a[1..])) + RemoveCommas(b);
    }
  }
}
