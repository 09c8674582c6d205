/** Decimal rendering of natural numbers, as Python's f-strings do when they
    build identifiers such as `s3`, `v5` or `rhs12`. */
module Decimal {

  predicate IsDigit(c: char) {
    '0' <= c <= '9'
  }

  function DigitValue(c: char): (v: nat)
    requires IsDigit(c)
    ensures v < 10
  {
    c as int - '0' as int
  }

  /** The character of one decimal digit. */
  function DigitChar(d: nat): (c: char)
    requires d < 10
    ensures IsDigit(c) && DigitValue(c) == d
  {
    ('0' as int + d) as char
  }

  predicate AllDigits(s: string) {
    forall i :: 0 <= i < |s| ==> IsDigit(s[i])
  }

  /** `str(n)` for a non-negative integer: most significant digit first, no leading zeros. */
  function NatToString(n: nat): string {
    if n < 10 then [DigitChar(n)] else NatToString(n / 10) + [DigitChar(n % 10)]
  }

  /** The rendering is a non-empty run of digits, a single one exactly for `n < 10`. */
  lemma {:induction false} NatToStringDigits(n: nat)
    ensures 1 <= |NatToString(n)| && AllDigits(NatToString(n))
    ensures |NatToString(n)| == 1 <==> n < 10
  {
    if 10 <= n {
      NatToStringDigits(n / 10);
    }
  }

  /** The number a string of decimal digits denotes (the reading direction of `int(s)`). */
  function DecimalValue(s: string): nat
    requires AllDigits(s)
  {
    if s == [] then 0 else DecimalValue(s[..|s| - 1]) * 10 + DigitValue(s[|s| - 1])
  }

  /** Reading back the rendered digits gives the number: rendering loses nothing. */
  lemma {:induction false} DecimalValueOfNatToString(n: nat)
    ensures AllDigits(NatToString(n)) && DecimalValue(NatToString(n)) == n
  {
    NatToStringDigits(n);
    var s := NatToString(n);
    if n < 10 {
      assert s[..0] == [];
    } else {
      assert s[..|s| - 1] == NatToString(n / 10);
      DecimalValueOfNatToString(n / 10);
    }
  }

  /** Distinct numbers render as distinct strings. */
  lemma NatToStringInjective(m: nat, n: nat)
    ensures NatToString(m) == NatToString(n) ==> m == n
  {
    DecimalValueOfNatToString(m);
    DecimalValueOfNatToString(n);
  }

  /** `prefix + str(m) == prefix + str(n)` only when `m == n`. */
  lemma PrefixedInjective(prefix: string, m: nat, n: nat)
    ensures prefix + NatToString(m) == prefix + NatToString(n) ==> m == n
  {
    if prefix + NatToString(m) == prefix + NatToString(n) {
      assert NatToString(m) == (prefix + NatToString(m))[|prefix|..];
      assert NatToString(n) == (prefix + NatToString(n))[|prefix|..];
      NatToStringInjective(m, n);
    }
  }

  /** The ids `prefix + str(j)` for `1 <= j <= k`, in the order a loop
      over `j` creates them. */
  function Numbered(prefix: string, k: nat): set<string> {
    if k == 0 then {} else Numbered(prefix, k - 1) + {prefix + NatToString(k)}
  }

  /** Every numbered id is `prefix + str(j)` for some `j` in range. */
  lemma {:induction false} NumberedIndex(prefix: string, k: nat, id: string) returns (j: nat)
    requires id in Numbered(prefix, k)
    ensures 1 <= j <= k && id == prefix + NatToString(j)
  {
    if id == prefix + NatToString(k) {
      j := k;
    } else {
      j := NumberedIndex(prefix, k - 1, id);
    }
  }

  /** An id numbered beyond `k` is not among the first `k`. */
  lemma {:induction false} NumberedFresh(prefix: string, k: nat, n: nat)
    requires k < n
    ensures prefix + NatToString(n) !in Numbered(prefix, k)
  {
    if k > 0 {
      NumberedFresh(prefix, k - 1, n);
      PrefixedInjective(prefix, k, n);
    }
  }

  /** Going from `k - 1` to `k` adds exactly one new id. */
  lemma NumberedStep(prefix: string, k: nat)
    requires 1 <= k
    ensures Numbered(prefix, k) == Numbered(prefix, k - 1) + {prefix + NatToString(k)}
    ensures prefix + NatToString(k) !in Numbered(prefix, k - 1)
  {
    NumberedFresh(prefix, k - 1, k);
  }

  /** `prefix1 .. prefixk` are `k` distinct ids. */
  lemma {:induction false} NumberedCardinality(prefix: string, k: nat)
    ensures |Numbered(prefix, k)| == k
  {
    if k > 0 {
      NumberedStep(prefix, k);
      NumberedCardinality(prefix, k - 1);
    }
  }

  /** Every numbered id is the prefix followed by at least one digit and nothing else. */
  lemma NumberedShape(prefix: string, k: nat, id: string)
    requires id in Numbered(prefix, k)
    ensures |prefix| < |id| && id[..|prefix|] == prefix
    ensures forall i :: 0 <= i < |prefix| ==> id[i] == prefix[i]
    ensures forall i :: |prefix| <= i < |id| ==> IsDigit(id[i])
  {
    var j := NumberedIndex(prefix, k, id);
    NatToStringDigits(j);
    assert forall i :: |prefix| <= i < |id| ==> id[i] == NatToString(j)[i - |prefix|];
  }
}
