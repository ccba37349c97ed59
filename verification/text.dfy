/**
 * The string operations the command-variable scan relies on: Java's decimal
 * rendering of a non-negative int, String.contains, and the "%vN%" marker.
 */
module Text {

  predicate IsDigit(c: char) {
    '0' <= c <= '9'
  }

  predicate AllDigits(s: string) {
    forall i :: 0 <= i < |s| ==> IsDigit(s[i])
  }

  function DigitChar(d: nat): (c: char)
    requires d < 10
    ensures IsDigit(c) && (c as int) - ('0' as int) == d
  {
    (('0' as int) + d) as char
  }

  function DigitValue(c: char): (d: nat)
    requires IsDigit(c)
    ensures d < 10 && DigitChar(d) == c
  {
    (c as int) - ('0' as int)
  }

  /** Decimal rendering of n without sign or leading zeros, as Java's string concatenation of an int. */
  function DecimalString(n: nat): (s: string)
    ensures |s| >= 1 && AllDigits(s)
    ensures s[0] == '0' ==> n == 0
    decreases n
  {
    if n < 10 then [DigitChar(n)] else DecimalString(n / 10) + [DigitChar(n % 10)]
  }

  /** The number a string of decimal digits denotes; the inverse of DecimalString. */
  function DecimalValue(s: string): (n: nat)
    requires AllDigits(s)
    decreases |s|
  {
    if s == [] then 0 else DecimalValue(s[..|s| - 1]) * 10 + DigitValue(s[|s| - 1])
  }

  lemma {:induction false} DecimalRoundTrip(n: nat)
    ensures DecimalValue(DecimalString(n)) == n
    decreases n
  {
    var s := DecimalString(n);
    if n >= 10 {
      DecimalRoundTrip(n / 10);
      assert s[..|s| - 1] == DecimalString(n / 10);
    }
  }

  lemma DecimalInjective(m: nat, n: nat)
    requires DecimalString(m) == DecimalString(n)
    ensures m == n
  {
    DecimalRoundTrip(m);
    DecimalRoundTrip(n);
  }

  /** s[at..] begins with sub. */
  predicate OccursAt(s: string, sub: string, at: int) {
    0 <= at <= |s| - |sub| && s[at..at + |sub|] == sub
  }

  /** Java's String.contains. */
  predicate Contains(s: string, sub: string): (b: bool)
    ensures b ==> |sub| <= |s|
  {
    exists at :: 0 <= at <= |s| - |sub| && OccursAt(s, sub, at)
  }

  /** The marker "%v" + k + "%" that stands for the k-th interactively supplied argument. */
  function Marker(k: nat): (m: string)
    ensures |m| == |DecimalString(k)| + 3 >= 4
    ensures m[..2] == "%v" && m[|m| - 1] == '%'
  {
    "%v" + DecimalString(k) + "%"
  }

  /** A marker found at `at` has its digits at at+2.. and its closing '%' right after them. */
  lemma MarkerParts(s: string, at: int, k: nat)
    requires OccursAt(s, Marker(k), at)
    ensures at + 2 + |DecimalString(k)| < |s|
    ensures s[at + 2..at + 2 + |DecimalString(k)|] == DecimalString(k)
    ensures s[at + 2 + |DecimalString(k)|] == '%'
  {
    var m, d := Marker(k), DecimalString(k);
    var w := s[at..at + |m|];
    assert w == m == "%v" + d + "%";
    forall t | 0 <= t < |d|
      ensures s[at + 2..at + 2 + |d|][t] == d[t]
    {
      assert s[at + 2 + t] == w[2 + t];
    }
    assert s[at + 2 + |d|] == w[2 + |d|];
  }

  /** Inside the digits of a marker found at `at` there is no '%'. */
  lemma MarkerDigitAt(s: string, at: int, k: nat, n: nat)
    requires OccursAt(s, Marker(k), at)
    requires n < |DecimalString(k)|
    ensures s[at + 2 + n] != '%'
  {
    var d := DecimalString(k);
    MarkerParts(s, at, k);
    assert s[at + 2 + n] == s[at + 2..at + 2 + |d|][n] == d[n];
  }

  /** Two different markers never start at the same position of a string. */
  lemma MarkersStartApart(s: string, at: int, i: nat, j: nat)
    requires OccursAt(s, Marker(i), at) && OccursAt(s, Marker(j), at)
    ensures i == j
  {
    var di, dj := DecimalString(i), DecimalString(j);
    MarkerParts(s, at, i);
    MarkerParts(s, at, j);
    // the first '%' after "%v" ends the digits, so both markers have equally many digits
    if |di| < |dj| {
      MarkerDigitAt(s, at, j, |di|);
    } else if |dj| < |di| {
      MarkerDigitAt(s, at, i, |dj|);
    }
    DecimalInjective(i, j);
  }

  /** A set of positions inside [0, bound) has at most bound elements. */
  lemma {:induction false} PositionsBound(ps: set<int>, bound: nat)
    requires forall p :: p in ps ==> 0 <= p < bound
    ensures |ps| <= bound
    decreases bound
  {
    if bound > 0 {
      var rest := ps - {bound - 1};
      PositionsBound(rest, bound - 1);
    } else {
      assert forall p :: p !in ps;
      assert ps == {};
    }
  }
}
