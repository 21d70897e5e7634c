/** The string functions of PHP that the clients rely on, on strings as character sequences. */
module PhpStrings {
  import opened Wrappers

  /** PHP empty() on a string: both "" and "0" count as empty. */
  predicate IsEmpty(s: string) {
    s == "" || s == "0"
  }

  /** A decimal digit, as the regular expression class \d matches it. */
  predicate IsDigit(c: char) {
    '0' <= c <= '9'
  }

  predicate AllDigits(s: string) {
    forall i | 0 <= i < |s| :: IsDigit(s[i])
  }

  predicate NoDigits(s: string) {
    forall i | 0 <= i < |s| :: !IsDigit(s[i])
  }

  function DigitChar(d: nat): (c: char)
    requires d < 10
    ensures IsDigit(c) && c as int - '0' as int == d
  {
    ('0' as int + d) as char
  }

  /** The decimal form of a natural number (PHP's int-to-string conversion). */
  function NatToString(n: nat): (s: string)
    ensures |s| > 0 && AllDigits(s)
    ensures |s| > 1 ==> s[0] != '0'
  {
    if n < 10 then [DigitChar(n)] else NatToString(n / 10) + [DigitChar(n % 10)]
  }

  /** The number a sequence of decimal digits denotes (PHP's string-to-int conversion). */
  function DigitsValue(s: string): nat
    requires AllDigits(s)
  {
    if s == [] then 0 else DigitsValue(s[..|s| - 1]) * 10 + (s[|s| - 1] as int - '0' as int)
  }

  /** Reading back the decimal form of a number gives the number. */
  lemma {:induction false} DecimalRoundTrip(n: nat)
    ensures DigitsValue(NatToString(n)) == n
  {
    if n >= 10 {
      DecimalRoundTrip(n / 10);
      var s := NatToString(n);
      assert s[..|s| - 1] == NatToString(n / 10);
    }
  }

  /** The decimal form of a number is empty() exactly for zero, whose form is "0". */
  lemma ZeroIsTheOnlyEmptyDecimal(n: nat)
    ensures IsEmpty(NatToString(n)) <==> n == 0
  {
    DecimalRoundTrip(n);
    assert DigitsValue("0") == 0;
  }

  /** Length of the longest prefix made only of digits. */
  function LeadingDigits(s: string): (k: nat)
    ensures k <= |s| && AllDigits(s[..k])
    ensures k < |s| ==> !IsDigit(s[k])
  {
    if s == [] || !IsDigit(s[0]) then 0 else 1 + LeadingDigits(s[1..])
  }

  /** preg_match('/\d+/', s): the value of the first maximal run of digits, or None when s
      holds no digit at all. */
  function FirstDigitRun(s: string): (r: Option<nat>)
    ensures r.None? <==> NoDigits(s)
  {
    if s == [] then None
    else if IsDigit(s[0]) then Some(DigitsValue(s[..LeadingDigits(s)]))
    else FirstDigitRun(s[1..])
  }

  /** The run read is the first one: everything before it is digit-free, and it is read up to
      its last digit. */
  lemma {:induction false} FirstDigitRunIsFirst(s: string)
    requires !NoDigits(s)
    ensures exists i | 0 <= i < |s| ::
              && NoDigits(s[..i]) && IsDigit(s[i])
              && FirstDigitRun(s) == Some(DigitsValue(s[i..][..LeadingDigits(s[i..])]))
  {
    if IsDigit(s[0]) {
      assert s[..0] == [] && s[0..] == s;
      assert NoDigits(s[..0]);
      assert FirstDigitRun(s) == Some(DigitsValue(s[0..][..LeadingDigits(s[0..])]));
    } else {
      var t := s[1..];
      assert !NoDigits(t) by {
        var j :| 0 <= j < |s| && IsDigit(s[j]);
        assert t[j - 1] == s[j];
      }
      assert FirstDigitRun(s) == FirstDigitRun(t);
      FirstDigitRunIsFirst(t);
      var i :| 0 <= i < |t| && NoDigits(t[..i]) && IsDigit(t[i])
               && FirstDigitRun(t) == Some(DigitsValue(t[i..][..LeadingDigits(t[i..])]));
      assert s[i + 1..] == t[i..];
      assert s[i + 1] == t[i];
      var before := s[..i + 1];
      assert NoDigits(before) by {
        forall k | 0 <= k < |before|
          ensures !IsDigit(before[k])
        {
          if k > 0 {
            assert before[k] == t[..i][k - 1];
          }
        }
      }
      assert FirstDigitRun(s) == Some(DigitsValue(s[i + 1..][..LeadingDigits(s[i + 1..])]));
    }
  }

  /** A digit-free prefix is skipped and a trailing run of digits is read whole. */
  lemma {:induction false} FirstDigitRunAfterPrefix(p: string, d: string)
    requires NoDigits(p) && AllDigits(d) && d != []
    ensures FirstDigitRun(p + d) == Some(DigitsValue(d))
  {
    if p == [] {
      assert p + d == d;
      LeadingDigitsOfDigits(d);
      assert d[..|d|] == d;
    } else {
      assert (p + d)[1..] == p[1..] + d;
      FirstDigitRunAfterPrefix(p[1..], d);
    }
  }

  lemma {:induction false} LeadingDigitsOfDigits(d: string)
    requires AllDigits(d)
    ensures LeadingDigits(d) == |d|
  {
    if d != [] {
      LeadingDigitsOfDigits(d[1..]);
    }
  }

  /** implode(sep, parts). */
  function Join(sep: string, parts: seq<string>): string {
    if parts == [] then ""
    else if |parts| == 1 then parts[0]
    else Join(sep, parts[..|parts| - 1]) + sep + parts[|parts| - 1]
  }

  /** basename(path) of a resolved path: what follows the last '/'. */
  function Basename(path: string): (b: string)
    ensures '/' !in b
    ensures |b| <= |path| && path[|path| - |b|..] == b
    ensures |b| < |path| ==> path[|path| - |b| - 1] == '/'
  {
    if path == [] || path[|path| - 1] == '/' then []
    else Basename(path[..|path| - 1]) + [path[|path| - 1]]
  }
}
