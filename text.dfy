/**
 * The pieces of Go's `strings` and `fmt` packages that the runner relies on,
 * over strings of Unicode code points: splitting on a one-character separator,
 * joining, trimming white space, substring search and the `%d` verb of
 * `fmt.Sscanf`.
 */
module Text {

  /** White space as `unicode.IsSpace` defines it (the same table `fmt` scans with). */
  predicate IsSpace(c: char) {
    var n := c as int;
    (0x09 <= n <= 0x0D) || n == 0x20 || n == 0x85 || n == 0xA0 || n == 0x1680
    || (0x2000 <= n <= 0x200A) || n == 0x2028 || n == 0x2029 || n == 0x202F
    || n == 0x205F || n == 0x3000
  }

  predicate AllSpace(s: string) {
    forall i :: 0 <= i < |s| ==> IsSpace(s[i])
  }

  predicate IsDigit(c: char) {
    '0' <= c <= '9'
  }

  predicate AllDigits(s: string) {
    forall i :: 0 <= i < |s| ==> IsDigit(s[i])
  }

  /** Number of occurrences of `c` in `s`. */
  function CountChar(s: string, c: char): nat {
    if s == [] then 0 else (if s[0] == c then 1 else 0) + CountChar(s[1..], c)
  }

  // ---------------------------------------------------------------------------
  // strings.Join and strings.Split

  /** `strings.Join(parts, sep)`. */
  function Join(parts: seq<string>, sep: string): string {
    if |parts| == 0 then ""
    else if |parts| == 1 then parts[0]
    else parts[0] + sep + Join(parts[1..], sep)
  }

  /**
   * `strings.Split(s, string(sep))`: the pieces between the separators, in
   * order; never empty (`Split("", sep)` is `[""]`), no piece holds the
   * separator, and joining the pieces back gives `s`.
   */
  function Split(s: string, sep: char): (parts: seq<string>)
    ensures |parts| >= 1
    ensures forall k :: 0 <= k < |parts| ==> sep !in parts[k]
    ensures Join(parts, [sep]) == s
  {
    if |s| == 0 then [""]
    else
      var rest := Split(s[1..], sep);
      if s[0] == sep then
        assert Join([""] + rest, [sep]) == [sep] + Join(rest, [sep]) by {
          assert ([""] + rest)[1..] == rest;
        }
        [""] + rest
      else
        JoinConsFirst(s[0], rest, [sep]);
        [[s[0]] + rest[0]] + rest[1..]
  }

  /** Prepending a character to the first piece prepends it to the join. */
  lemma JoinConsFirst(c: char, parts: seq<string>, sep: string)
    requires |parts| >= 1
    ensures Join([[c] + parts[0]] + parts[1..], sep) == [c] + Join(parts, sep)
  {
    var q := [[c] + parts[0]] + parts[1..];
    if |parts| > 1 {
      assert q[1..] == parts[1..];
    }
  }

  /** A string without the separator is a single piece. */
  lemma {:induction false} SplitWithoutSeparator(s: string, sep: char)
    requires sep !in s
    ensures Split(s, sep) == [s]
  {
    if |s| > 0 {
      SplitWithoutSeparator(s[1..], sep);
    }
  }

  /** Splitting at a separator splits the pieces of each side apart. */
  lemma {:induction false} SplitAppend(a: string, sep: char, b: string)
    ensures Split(a + [sep] + b, sep) == Split(a, sep) + Split(b, sep)
  {
    var s := a + [sep] + b;
    if |a| == 0 {
      assert s[0] == sep && s[1..] == b;
    } else {
      assert s[0] == a[0] && s[1..] == a[1..] + [sep] + b;
      SplitAppend(a[1..], sep, b);
    }
  }

  /** Join then Split is the identity on pieces free of the separator. */
  lemma {:induction false} SplitJoin(parts: seq<string>, sep: char)
    requires |parts| >= 1
    requires forall k :: 0 <= k < |parts| ==> sep !in parts[k]
    ensures Split(Join(parts, [sep]), sep) == parts
  {
    SplitWithoutSeparator(parts[0], sep);
    if |parts| > 1 {
      SplitJoin(parts[1..], sep);
      SplitAppend(parts[0], sep, Join(parts[1..], [sep]));
      assert parts == [parts[0]] + parts[1..];
    }
  }

  /** Split yields one piece more than there are separators. */
  lemma {:induction false} SplitCount(s: string, sep: char)
    ensures |Split(s, sep)| == CountChar(s, sep) + 1
  {
    if |s| > 0 {
      SplitCount(s[1..], sep);
    }
  }

  // ---------------------------------------------------------------------------
  // strings.TrimSpace

  /** Drops the leading white space. */
  function TrimLeft(s: string): (r: string)
    ensures |r| <= |s| && r == s[|s| - |r|..]
    ensures AllSpace(s[..|s| - |r|])
    ensures r == [] || !IsSpace(r[0])
  {
    if |s| > 0 && IsSpace(s[0]) then
      var r := TrimLeft(s[1..]);
      var k := |s| - |r|;
      assert s[1..][k - 1..] == s[k..];
      assert s[..k] == [s[0]] + s[1..][..k - 1];
      r
    else s
  }

  /** Drops the trailing white space. */
  function TrimRight(s: string): (r: string)
    ensures |r| <= |s| && r == s[..|r|]
    ensures AllSpace(s[|r|..])
    ensures r == [] || !IsSpace(r[|r| - 1])
  {
    if |s| > 0 && IsSpace(s[|s| - 1]) then
      var r := TrimRight(s[..|s| - 1]);
      assert s[|r|..] == s[..|s| - 1][|r|..] + [s[|s| - 1]];
      r
    else s
  }

  /**
   * `strings.TrimSpace`: the result neither starts nor ends with white space
   * and is what is left of `s` once white space is removed at both ends.
   */
  function TrimSpace(s: string): (r: string)
    ensures |r| <= |s|
    ensures r == [] || (!IsSpace(r[0]) && !IsSpace(r[|r| - 1]))
  {
    var l := TrimLeft(s);
    var r := TrimRight(l);
    assert r != [] ==> r[0] == l[0];
    r
  }

  /** The trimmed core of a string is unique: TrimSpace(w1 + t + w2) == t. */
  lemma TrimSpaceOf(w1: string, t: string, w2: string)
    requires AllSpace(w1) && AllSpace(w2)
    requires t == [] || (!IsSpace(t[0]) && !IsSpace(t[|t| - 1]))
    ensures TrimSpace(w1 + t + w2) == t
  {
    if t == [] {
      assert w1 + t + w2 == (w1 + w2) + [];
      TrimLeftOf(w1 + w2, []);
      TrimRightOf([], []);
    } else {
      assert w1 + t + w2 == w1 + (t + w2);
      TrimLeftOf(w1, t + w2);
      TrimRightOf(t, w2);
    }
  }

  lemma {:induction false} TrimLeftOf(w: string, t: string)
    requires AllSpace(w)
    requires t == [] || !IsSpace(t[0])
    ensures TrimLeft(w + t) == t
  {
    if |w| > 0 {
      assert (w + t)[1..] == w[1..] + t;
      TrimLeftOf(w[1..], t);
    } else {
      assert w + t == t;
    }
  }

  lemma {:induction false} TrimRightOf(t: string, w: string)
    requires AllSpace(w)
    requires t == [] || !IsSpace(t[|t| - 1])
    ensures TrimRight(t + w) == t
  {
    if |w| > 0 {
      assert (t + w)[..|t + w| - 1] == t + w[..|w| - 1];
      TrimRightOf(t, w[..|w| - 1]);
    } else {
      assert t + w == t;
    }
  }

  /** Trimming twice is trimming once. */
  lemma TrimSpaceIdempotent(s: string)
    ensures TrimSpace(TrimSpace(s)) == TrimSpace(s)
  {
    var t := TrimSpace(s);
    TrimSpaceOf([], t, []);
    assert [] + t + [] == t;
  }

  // ---------------------------------------------------------------------------
  // strings.Contains

  /** `strings.Contains(s, t)`. */
  function Contains(s: string, t: string): bool {
    if t <= s then true
    else if |s| == 0 then false
    else Contains(s[1..], t)
  }

  /** Contains holds exactly when `t` occurs in `s` at some position. */
  lemma {:induction false} ContainsOccurs(s: string, t: string)
    ensures Contains(s, t) <==> exists i :: 0 <= i <= |s| && t <= s[i..]
  {
    if t <= s {
      assert s[0..] == s;
    } else if |s| > 0 {
      ContainsOccurs(s[1..], t);
      forall i | 1 <= i <= |s| ensures s[1..][i - 1..] == s[i..] { }
      if exists i :: 0 <= i <= |s| && t <= s[i..] {
        var i :| 0 <= i <= |s| && t <= s[i..];
        assert i != 0;
        assert t <= s[1..][i - 1..];
      }
    }
  }

  // ---------------------------------------------------------------------------
  // fmt.Sscanf(s, "%d", &n)

  const MinInt64: int := -0x8000_0000_0000_0000
  const MaxInt64: int := 0x7FFF_FFFF_FFFF_FFFF

  /** The white space the scanner skips before a number: a newline stops it. */
  predicate IsScanSpace(c: char) {
    IsSpace(c) && c != '\n'
  }

  predicate AllScanSpace(w: string) {
    forall i :: 0 <= i < |w| ==> IsScanSpace(w[i])
  }

  function SkipScanSpace(s: string): (r: string)
    ensures r == [] || !IsScanSpace(r[0])
  {
    if |s| > 0 && IsScanSpace(s[0]) then SkipScanSpace(s[1..]) else s
  }

  /** The text after an optional leading sign. */
  function AfterSign(t: string): string {
    if |t| > 0 && (t[0] == '-' || t[0] == '+') then t[1..] else t
  }

  /** The length of the longest run of digits that `s` starts with. */
  function DigitRun(s: string): (k: nat)
    ensures k <= |s| && AllDigits(s[..k])
    ensures k == |s| || !IsDigit(s[k])
  {
    if |s| > 0 && IsDigit(s[0]) then
      var k := 1 + DigitRun(s[1..]);
      assert s[..k] == [s[0]] + s[1..][..k - 1];
      k
    else 0
  }

  /** The value of a string of decimal digits. */
  function DigitsValue(ds: string): nat
    requires AllDigits(ds)
  {
    if ds == [] then 0
    else 10 * DigitsValue(ds[..|ds| - 1]) + (ds[|ds| - 1] as int - '0' as int)
  }

  /** The value of the run of digits that `u` starts with. */
  function LeadingNumber(u: string): nat {
    DigitsValue(u[..DigitRun(u)])
  }

  /**
   * What `fmt.Sscanf(s, "%d", &n)` leaves in an `n` that starts at 0: the
   * scanner skips white space, takes an optional sign and at least one
   * decimal digit and stops at the first non-digit; the number must fit in
   * 64 bits. When any of that fails `n` keeps its 0.
   */
  function ScanDecimal(s: string): (n: int)
    ensures MinInt64 <= n <= MaxInt64
  {
    var t := SkipScanSpace(s);
    var u := AfterSign(t);
    if DigitRun(u) == 0 then 0
    else
      var v: int := if |t| > 0 && t[0] == '-' then -(LeadingNumber(u) as int) else LeadingNumber(u);
      if MinInt64 <= v <= MaxInt64 then v else 0
  }

  /** Decimal digits of a natural number, most significant first. */
  function NatString(m: nat): (ds: string)
    ensures |ds| >= 1 && AllDigits(ds)
  {
    if m < 10 then ['0' + m as char]
    else NatString(m / 10) + ['0' + (m % 10) as char]
  }

  /** The decimal form of an integer, as `strconv.Itoa` writes it. */
  function DecimalString(n: int): string {
    if n < 0 then "-" + NatString(-n) else NatString(n)
  }

  lemma {:induction false} NatStringValue(m: nat)
    ensures DigitsValue(NatString(m)) == m
  {
    if m >= 10 {
      NatStringValue(m / 10);
      var ds := NatString(m);
      assert ds[..|ds| - 1] == NatString(m / 10);
    }
  }

  lemma {:induction false} DigitRunOf(ds: string, rest: string)
    requires AllDigits(ds)
    requires rest == [] || !IsDigit(rest[0])
    ensures DigitRun(ds + rest) == |ds|
  {
    if |ds| > 0 {
      assert (ds + rest)[1..] == ds[1..] + rest;
      DigitRunOf(ds[1..], rest);
    } else {
      assert ds + rest == rest;
    }
  }

  /** The digits of `m` followed by a non-digit read back as `m`. */
  lemma LeadingNumberOf(m: nat, rest: string)
    requires rest == [] || !IsDigit(rest[0])
    ensures DigitRun(NatString(m) + rest) >= 1
    ensures LeadingNumber(NatString(m) + rest) == m
  {
    var ds := NatString(m);
    DigitRunOf(ds, rest);
    assert (ds + rest)[..|ds|] == ds;
    NatStringValue(m);
  }

  lemma {:induction false} SkipScanSpaceOf(w: string, t: string)
    requires AllScanSpace(w)
    requires t == [] || !IsScanSpace(t[0])
    ensures SkipScanSpace(w + t) == t
  {
    if |w| > 0 {
      assert (w + t)[1..] == w[1..] + t;
      SkipScanSpaceOf(w[1..], t);
    } else {
      assert w + t == t;
    }
  }

  /**
   * Scanning reads back any 64-bit integer written in decimal, whatever
   * white space precedes it and whatever non-digit follows it.
   */
  lemma ScanDecimalRoundTrip(w: string, n: int, rest: string)
    requires AllScanSpace(w)
    requires MinInt64 <= n <= MaxInt64
    requires rest == [] || !IsDigit(rest[0])
    ensures ScanDecimal(w + DecimalString(n) + rest) == n
  {
    if n < 0 {
      ScanNegativeRoundTrip(w, n, rest);
    } else {
      ScanNonNegativeRoundTrip(w, n, rest);
    }
  }

  lemma ScanNegativeRoundTrip(w: string, n: int, rest: string)
    requires AllScanSpace(w)
    requires MinInt64 <= n < 0
    requires rest == [] || !IsDigit(rest[0])
    ensures ScanDecimal(w + DecimalString(n) + rest) == n
  {
    var m: nat := -n;
    var ds := NatString(m);
    LeadingNumberOf(m, rest);
    assert DecimalString(n) == "-" + ds;
    assert w + ("-" + ds) + rest == w + ("-" + (ds + rest));
    ScanNegative(w, ds + rest);
  }

  lemma ScanNonNegativeRoundTrip(w: string, n: int, rest: string)
    requires AllScanSpace(w)
    requires 0 <= n <= MaxInt64
    requires rest == [] || !IsDigit(rest[0])
    ensures ScanDecimal(w + DecimalString(n) + rest) == n
  {
    var ds := NatString(n);
    LeadingNumberOf(n, rest);
    assert DecimalString(n) == ds;
    assert w + ds + rest == w + (ds + rest);
    ScanUnsigned(w, ds + rest);
  }

  lemma ScanUnsigned(w: string, u: string)
    requires AllScanSpace(w)
    requires DigitRun(u) >= 1 && LeadingNumber(u) <= MaxInt64
    ensures ScanDecimal(w + u) == LeadingNumber(u)
  {
    SkipScanSpaceOf(w, u);
    assert AfterSign(u) == u;
  }

  lemma ScanNegative(w: string, u: string)
    requires AllScanSpace(w)
    requires DigitRun(u) >= 1 && MinInt64 <= -(LeadingNumber(u) as int)
    ensures ScanDecimal(w + ("-" + u)) == -(LeadingNumber(u) as int)
  {
    var t := "-" + u;
    SkipScanSpaceOf(w, t);
    assert t[0] == '-' && AfterSign(t) == u;
  }

  /**
   * When no digit follows the leading scan space and an optional sign, the
   * scan fails and leaves 0: the converse of `ScanUnsigned` and `ScanNegative`.
   */
  lemma ScanDecimalNoDigits(s: string)
    requires forall w, p, r :: s == w + p + r && AllScanSpace(w) && (p == "" || p == "+" || p == "-")
               ==> r == [] || !IsDigit(r[0])
    ensures ScanDecimal(s) == 0
  {
    var w, p := ScanPrefix(s);
    var u := AfterSign(SkipScanSpace(s));
    assert s == w + p + u;
  }

  /** Every input is the skipped scan space, then the optional sign, then the rest. */
  lemma ScanPrefix(s: string) returns (w: string, p: string)
    ensures AllScanSpace(w) && (p == "" || p == "+" || p == "-")
    ensures s == w + p + AfterSign(SkipScanSpace(s))
  {
    var t := SkipScanSpace(s);
    SkipScanSpaceSuffix(s);
    w := s[..|s| - |t|];
    var u := AfterSign(t);
    p := t[..|t| - |u|];
    assert t == p + u;
    assert s == w + t;
  }

  lemma {:induction false} SkipScanSpaceSuffix(s: string)
    ensures |SkipScanSpace(s)| <= |s| && SkipScanSpace(s) == s[|s| - |SkipScanSpace(s)|..]
    ensures AllScanSpace(s[..|s| - |SkipScanSpace(s)|])
  {
    if |s| > 0 && IsScanSpace(s[0]) {
      SkipScanSpaceSuffix(s[1..]);
      var k := |s| - |SkipScanSpace(s)|;
      assert s[..k] == [s[0]] + s[1..][..k - 1];
    }
  }
}
