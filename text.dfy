/**
  String helpers the query builders and the normaliser share: the ASCII part
  of upper-casing, the decimal test and value behind the `limit` parameter,
  prefix tests and removal of every occurrence of a pattern.
 */
module Text {

  /** Concatenation regrouped; stated once so that proofs can name the
      pieces instead of asking the solver to find the regrouping. */
  lemma {:induction false} Assoc<T>(a: seq<T>, b: seq<T>, c: seq<T>)
    ensures a + (b + c) == a + b + c
  {
  }

  /** Upper-cases one character; only ASCII letters change. */
  function UpperChar(c: char): char
  {
    if 'a' <= c <= 'z' then (c as int - 32) as char else c
  }

  /** Upper-cases a string character by character. */
  function Upper(s: string): string
  {
    seq(|s|, i requires 0 <= i < |s| => UpperChar(s[i]))
  }

  predicate StartsWith(s: string, p: string)
  {
    |p| <= |s| && s[..|p|] == p
  }

  /** True iff `p` occurs somewhere inside `s`. */
  predicate Occurs(s: string, p: string)
  {
    exists i :: 0 <= i <= |s| - |p| && StartsWith(s[i..], p)
  }

  predicate IsDigit(c: char)
  {
    '0' <= c <= '9'
  }

  /** A non-empty run of decimal digits. */
  predicate IsNumeric(s: string)
  {
    s != [] && forall i :: 0 <= i < |s| ==> IsDigit(s[i])
  }

  /** The value of a string of decimal digits, read most significant first. */
  function DigitsValue(s: string): nat
    requires forall i :: 0 <= i < |s| ==> IsDigit(s[i])
    decreases |s|
  {
    if s == [] then 0
    else DigitsValue(s[..|s| - 1]) * 10 + DigitValue(s[|s| - 1])
  }

  function DigitValue(c: char): nat
    requires IsDigit(c)
  {
    c as int - '0' as int
  }

  /** The decimal rendering of a natural number, without leading zeros. */
  function DecimalString(n: nat): (r: string)
    ensures |r| > 0 && forall i :: 0 <= i < |r| ==> IsDigit(r[i])
    decreases n
  {
    if n < 10 then [('0' as int + n) as char]
    else DecimalString(n / 10) + [('0' as int + n % 10) as char]
  }

  /** Reading back the rendering of `n` gives `n`. */
  lemma {:induction false} DecimalRoundTrip(n: nat)
    ensures IsNumeric(DecimalString(n))
    ensures DigitsValue(DecimalString(n)) == n
    decreases n
  {
    var s := DecimalString(n);
    if n >= 10 {
      DecimalRoundTrip(n / 10);
      assert s[..|s| - 1] == DecimalString(n / 10);
    }
  }

  /** Python's `s.replace(p, "")`: every non-overlapping occurrence of `p`,
      scanned left to right, is removed. */
  function RemoveAll(s: string, p: string): string
    requires p != ""
    decreases |s|
  {
    if StartsWith(s, p) then RemoveAll(s[|p|..], p)
    else if s == [] then []
    else [s[0]] + RemoveAll(s[1..], p)
  }

  /** Removing a pattern that does not occur leaves the string alone. */
  lemma {:induction false} RemoveAbsent(s: string, p: string)
    requires p != "" && !Occurs(s, p)
    ensures RemoveAll(s, p) == s
    decreases |s|
  {
    if s != [] {
      assert s[0..] == s;
      assert !Occurs(s[1..], p) by {
        forall i | 0 <= i <= |s[1..]| - |p|
          ensures !StartsWith(s[1..][i..], p)
        {
          assert s[1..][i..] == s[i + 1..];
        }
      }
      RemoveAbsent(s[1..], p);
    }
  }

  /** No 'f' directly followed by 'a' from position `i` on: a cheap witness
      that "facet_" does not occur there, which Dafny can evaluate on a
      literal. */
  predicate NoFaFrom(s: string, i: nat)
    decreases |s| - i
  {
    i + 1 >= |s| || (!(s[i] == 'f' && s[i + 1] == 'a') && NoFaFrom(s, i + 1))
  }

  lemma {:induction false} NoFaAt(s: string, i: nat, j: nat)
    requires NoFaFrom(s, i) && i <= j && j + 1 < |s|
    ensures !(s[j] == 'f' && s[j + 1] == 'a')
    decreases j - i
  {
    if i < j {
      NoFaAt(s, i + 1, j);
    }
  }

  /** A name made of the prefix "facet_" and a tail without "fa" loses exactly
      the prefix under `replace("facet_", "")`. */
  lemma {:induction false} StripFacetName(s: string)
    requires |s| >= 6 && s[..6] == "facet_" && NoFaFrom(s, 6)
    ensures RemoveAll(s, "facet_") == s[6..]
  {
    assert StartsWith(s, "facet_");
    var t := s[6..];
    forall i | 0 <= i <= |t| - 6
      ensures !StartsWith(t[i..], "facet_")
    {
      NoFaAt(s, 6, 6 + i);
      assert t[i..][0] == s[6 + i] && t[i..][1] == s[7 + i];
    }
    RemoveAbsent(t, "facet_");
  }
}
