/** String helpers: `toLowerCase`, `includes` and the decimal rendering of a
    non-negative integer (`String(n)`), with its parser as a partner. */
module Text {

  /** `toLowerCase` of one character, over the ASCII letters. */
  function LowerChar(c: char): char
  {
    if 'A' <= c <= 'Z' then (c as int + 32) as char else c
  }

  /** `s.toLowerCase()`. */
  function Lower(s: string): (r: string)
    ensures |r| == |s|
  {
    seq(|s|, i requires 0 <= i < |s| => LowerChar(s[i]))
  }

  /** `s.includes(t)`: `t` is a prefix of `s` or of one of its suffixes. */
  predicate Contains(s: string, t: string)
    decreases |s|
  {
    t <= s || (s != [] && Contains(s[1..], t))
  }

  /** Reference reading of `includes`: `t` occurs in `s` at some position. */
  ghost predicate OccursAt(s: string, t: string, k: int)
  {
    0 <= k && k + |t| <= |s| && s[k..k + |t|] == t
  }

  /** `Contains` holds exactly when `t` occurs in `s` at some position. */
  lemma {:induction false} ContainsIffOccurs(s: string, t: string)
    ensures Contains(s, t) <==> exists k :: OccursAt(s, t, k)
    decreases |s|
  {
    if t <= s {
      assert s[0..|t|] == t;
      assert OccursAt(s, t, 0);
    } else if s != [] {
      ContainsIffOccurs(s[1..], t);
      if Contains(s[1..], t) {
        var k :| OccursAt(s[1..], t, k);
        assert s[k + 1..k + 1 + |t|] == s[1..][k..k + |t|];
        assert OccursAt(s, t, k + 1);
      }
      if exists k :: OccursAt(s, t, k) {
        var k :| OccursAt(s, t, k);
        assert k != 0;
        assert s[1..][k - 1..k - 1 + |t|] == s[k..k + |t|];
        assert OccursAt(s[1..], t, k - 1);
      }
    }
  }

  /** The search rule shared by every list view: the lower-cased `term` occurs
      in the lower-cased `field`. */
  predicate MatchesTerm(field: string, term: string)
  {
    Contains(Lower(field), Lower(term))
  }

  /** The empty search term matches every field. */
  lemma EmptyTermMatches(field: string)
    ensures MatchesTerm(field, "")
  {
  }

  // ---------------------------------------------------------------------------
  // Decimal strings

  predicate IsDigit(c: char)
  {
    '0' <= c <= '9'
  }

  predicate IsDigits(s: string)
  {
    forall i :: 0 <= i < |s| ==> IsDigit(s[i])
  }

  function DigitChar(d: nat): char
    requires d < 10
  {
    ('0' as int + d) as char
  }

  function DigitValue(c: char): nat
    requires IsDigit(c)
  {
    c as int - '0' as int
  }

  function Pow10(k: nat): (p: nat)
    ensures p >= 1
  {
    if k == 0 then 1 else 10 * Pow10(k - 1)
  }

  /** `String(n)` for a non-negative integer: its decimal digits, without leading zeros. */
  function DecimalString(n: nat): (s: string)
    ensures |s| >= 1 && IsDigits(s)
  {
    if n < 10 then [DigitChar(n)] else DecimalString(n / 10) + [DigitChar(n % 10)]
  }

  /** The value of a string of decimal digits (the partner of `DecimalString`). */
  function DecimalValue(s: string): nat
    requires IsDigits(s)
  {
    if s == [] then 0 else DecimalValue(s[..|s| - 1]) * 10 + DigitValue(s[|s| - 1])
  }

  /** Reading back the decimal rendering of `n` gives `n`. */
  lemma {:induction false} DecimalRoundTrip(n: nat)
    ensures DecimalValue(DecimalString(n)) == n
  {
    if n >= 10 {
      var s := DecimalString(n);
      DecimalRoundTrip(n / 10);
      assert s[..|s| - 1] == DecimalString(n / 10);
    }
  }

  /** A string of `k` digits denotes a value below `10^k`. */
  lemma {:induction false} DecimalValueBound(s: string)
    requires IsDigits(s)
    ensures DecimalValue(s) < Pow10(|s|)
  {
    if s != [] {
      DecimalValueBound(s[..|s| - 1]);
    }
  }

  /** The arithmetic step of `DecimalValueSplit`. */
  lemma SplitStep(vs: int, vi: int, va: int, vr: int, vt: int, d: int, p: int)
    requires vs == vi * 10 + d && vi == va * p + vr && vt == vr * 10 + d
    ensures vs == va * (p * 10) + vt
  {
    calc {
      vs;
      (va * p + vr) * 10 + d;
      { assert (va * p + vr) * 10 == va * (p * 10) + vr * 10; }
      va * (p * 10) + vt;
    }
  }

  /** The value of a non-empty digit string, from its last digit. */
  lemma DecimalValueLast(s: string)
    requires IsDigits(s) && s != []
    ensures IsDigits(s[..|s| - 1])
    ensures DecimalValue(s) == DecimalValue(s[..|s| - 1]) * 10 + DigitValue(s[|s| - 1])
  {
  }

  /** The slices `DecimalValueSplit` relates. */
  lemma SplitSlices(s: string, k: nat)
    requires 0 < k <= |s|
    ensures s[..|s| - 1][..|s| - k] == s[..|s| - k]
    ensures s[..|s| - 1][|s| - k..] == s[|s| - k..|s| - 1]
    ensures s[|s| - k..][..k - 1] == s[|s| - k..|s| - 1]
    ensures s[|s| - k..][k - 1] == s[|s| - 1]
  {
  }

  /** Splitting a digit string before its last `k` digits splits its value. */
  lemma {:induction false} DecimalValueSplit(s: string, k: nat)
    requires IsDigits(s) && k <= |s|
    ensures DecimalValue(s) == DecimalValue(s[..|s| - k]) * Pow10(k) + DecimalValue(s[|s| - k..])
  {
    if k == 0 {
      assert s[..|s|] == s;
      assert s[|s|..] == [];
    } else {
      var n := |s|;
      var init := s[..n - 1];
      var tail := s[n - k..];
      var rest := s[n - k..n - 1];
      SplitSlices(s, k);
      DecimalValueLast(s);
      DecimalValueSplit(init, k - 1);
      DecimalValueLast(tail);
      SplitStep(DecimalValue(s), DecimalValue(init), DecimalValue(s[..n - k]), DecimalValue(rest),
        DecimalValue(tail), DigitValue(s[n - 1]), Pow10(k - 1));
    }
  }

  /** Multiplying by a positive factor keeps the order of the multiplicands. */
  lemma {:induction false} MulMonotone(a: nat, b: nat, p: nat)
    requires a <= b
    ensures a * p <= b * p
    decreases b - a
  {
    if a < b {
      MulMonotone(a, b - 1, p);
      assert b * p == (b - 1) * p + p;
    }
  }

  /** `n == q * p + r` with `0 <= r < p` fixes `r` as `n % p`. */
  lemma ModUnique(n: nat, q: nat, p: nat, r: nat)
    requires p > 0 && r < p && n == q * p + r
    ensures n % p == r
  {
    var d := n / p;
    var m := n % p;
    assert d * p + m == n;
    if d > q {
      assert (q + 1) * p == q * p + p;
      MulMonotone(q + 1, d, p);
    } else if d < q {
      assert (d + 1) * p == d * p + p;
      MulMonotone(d + 1, q, p);
    }
  }

  /** The last `k` digits of a digit string denote its value modulo `10^k`. */
  lemma LastDigitsValue(s: string, k: nat)
    requires IsDigits(s) && k <= |s|
    ensures DecimalValue(s[|s| - k..]) == DecimalValue(s) % Pow10(k)
  {
    DecimalValueSplit(s, k);
    DecimalValueBound(s[|s| - k..]);
    ModUnique(DecimalValue(s), DecimalValue(s[..|s| - k]), Pow10(k), DecimalValue(s[|s| - k..]));
  }
}
