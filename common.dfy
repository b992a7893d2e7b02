// Shared vocabulary of the model: optional values and error results, the
// millisecond calendar used by the booking screens, JavaScript's rounding
// rules, decimal rendering of integers, and sums and counts over sequences.

module Common {

  datatype Option<T> = None | Some(value: T)

  /** A computation that either yields a value or fails with a message (a thrown Error). */
  datatype Result<T> = Ok(value: T) | Err(error: string)
  {
    predicate IsFailure() { Err? }
  }

  function Min(a: int, b: int): (r: int)
    ensures r <= a && r <= b && (r == a || r == b)
  {
    if a <= b then a else b
  }

  function Max(a: int, b: int): (r: int)
    ensures r >= a && r >= b && (r == a || r == b)
  {
    if a >= b then a else b
  }

  function MaxReal(a: real, b: real): (r: real)
    ensures r >= a && r >= b && (r == a || r == b)
  {
    if a >= b then a else b
  }

  function MinReal(a: real, b: real): (r: real)
    ensures r <= a && r <= b && (r == a || r == b)
  {
    if a <= b then a else b
  }

  /** Clamp to [lo, hi], as `Math.max(lo, Math.min(hi, x))`. */
  function ClampReal(x: real, lo: real, hi: real): (r: real)
    requires lo <= hi
    ensures lo <= r <= hi
    ensures lo <= x <= hi ==> r == x
    ensures x < lo ==> r == lo
    ensures x > hi ==> r == hi
  {
    MaxReal(lo, MinReal(hi, x))
  }

  /** JavaScript `Math.round`: the nearest integer, halves rounded up. */
  function JsRound(x: real): (r: int)
    ensures x - 1.0 / 2.0 < r as real <= x + 1.0 / 2.0
  {
    (x + 1.0 / 2.0).Floor
  }

  /** `Math.floor(a / b)` for a positive integer divisor. */
  function FloorDiv(a: int, b: int): (q: int)
    requires b > 0
    ensures q * b <= a < q * b + b
  {
    a / b
  }

  // ----- millisecond calendar -----

  const SECOND_MS: int := 1000
  const MINUTE_MS: int := 60000
  const HOUR_MS: int := 3600000
  const DAY_MS: int := 86400000

  /** Calendar day number of an instant (days since the epoch, floored). */
  function DayOf(t: int): int
  {
    t / DAY_MS
  }

  /** First millisecond of the day containing `t` (`setHours(0, 0, 0, 0)`). */
  function DayStart(t: int): (s: int)
    ensures s <= t < s + DAY_MS
    ensures DayOf(s) == DayOf(t)
  {
    DayOf(t) * DAY_MS
  }

  /** Last millisecond of the day containing `t` (`setHours(23, 59, 59, 999)`). */
  function DayEnd(t: int): (e: int)
    ensures e == DayStart(t) + DAY_MS - 1
    ensures t <= e && DayOf(e) == DayOf(t)
  {
    DayStart(t) + DAY_MS - 1
  }

  /** Day of the week, 0 = Sunday (the epoch fell on a Thursday). */
  function Weekday(t: int): (w: int)
    ensures 0 <= w < 7
  {
    (DayOf(t) + 4) % 7
  }

  /** Two instants fall on the same calendar day exactly when one lies within the other's day. */
  lemma SameDayIffWithinDay(t: int, u: int)
    ensures DayOf(u) == DayOf(t) <==> DayStart(t) <= u <= DayEnd(t)
  {
    var d := DayOf(t);
    if DayStart(t) <= u <= DayEnd(t) {
      assert d * DAY_MS <= u < d * DAY_MS + DAY_MS;
      assert u / DAY_MS == d;
    }
  }

  // ----- decimal rendering (`String(n)` / template literals) -----

  function DigitChar(d: int): (c: char)
    requires 0 <= d < 10
    ensures '0' <= c <= '9'
  {
    ['0', '1', '2', '3', '4', '5', '6', '7', '8', '9'][d]
  }

  predicate IsDigits(s: string)
  {
    |s| > 0 && forall i :: 0 <= i < |s| ==> '0' <= s[i] <= '9'
  }

  /** Decimal digits of a natural number, most significant first, no leading zeros. */
  function NatToString(n: nat): (s: string)
    ensures IsDigits(s)
    ensures n < 10 <==> |s| == 1
  {
    if n < 10 then [DigitChar(n)] else NatToString(n / 10) + [DigitChar(n % 10)]
  }

  /** The number a string of decimal digits denotes. */
  function DigitsValue(s: string): nat
    requires forall i :: 0 <= i < |s| ==> '0' <= s[i] <= '9'
  {
    if s == [] then 0 else 10 * DigitsValue(s[..|s| - 1]) + (s[|s| - 1] - '0') as nat
  }

  /** Reading the digits back gives the number: the rendering loses nothing. */
  lemma {:induction false} NatToStringRoundTrip(n: nat)
    ensures DigitsValue(NatToString(n)) == n
  {
    var s := NatToString(n);
    if n >= 10 {
      NatToStringRoundTrip(n / 10);
      assert s[..|s| - 1] == NatToString(n / 10);
    }
  }

  /** Decimal rendering of an integer, with a leading '-' when negative. */
  function IntToString(i: int): (s: string)
    ensures |s| > 0
    ensures i >= 0 ==> IsDigits(s)
    ensures i < 0 ==> s[0] == '-' && IsDigits(s[1..])
  {
    if i >= 0 then NatToString(i) else "-" + NatToString(-i)
  }

  /** The integer an optional '-' followed by decimal digits denotes. */
  function SignedValue(s: string): int
    requires IsDigits(s) || (|s| > 0 && s[0] == '-' && IsDigits(s[1..]))
  {
    var magnitude: int := if s[0] == '-' then DigitsValue(s[1..]) else DigitsValue(s);
    if s[0] == '-' then -magnitude else magnitude
  }

  /** Reading a rendered integer back gives the integer. */
  lemma IntToStringRoundTrip(i: int)
    ensures SignedValue(IntToString(i)) == i
  {
    if i >= 0 {
      NatToStringRoundTrip(i);
    } else {
      NatToStringRoundTrip(-i);
      assert IntToString(i)[1..] == NatToString(-i);
    }
  }

  /** `padStart(2, '0')`. */
  function PadStart2(s: string): (r: string)
    ensures |s| >= 2 ==> r == s
    ensures |s| < 2 ==> |r| == 2 && r[2 - |s|..] == s && forall i :: 0 <= i < 2 - |s| ==> r[i] == '0'
  {
    if |s| >= 2 then s else if |s| == 1 then "0" + s else "00"
  }

  /** JavaScript `a % b` for a positive divisor: the remainder takes the sign of `a`. */
  function JsRem(a: int, b: int): (r: int)
    requires b > 0
    ensures a >= 0 ==> r == a % b
    ensures a < 0 ==> -b < r <= 0
  {
    if a >= 0 then a % b else -((-a) % b)
  }

  /**
   * A count of seconds as `m:ss`: `Math.floor(s / 60)`, a colon, then `s % 60` padded to two
   * digits.
   */
  function ClockText(seconds: int): (r: string)
  {
    IntToString(FloorDiv(seconds, 60)) + ":" + PadStart2(IntToString(JsRem(seconds, 60)))
  }

  /**
   * For a non-negative count, the text is the whole minutes, a colon and exactly two digits of
   * the seconds left over: any split into minutes and a remainder below 60 is the one shown.
   */
  lemma ClockTextSplits(seconds: int, minutes: nat, rest: nat)
    requires seconds >= 0 && rest < 60 && minutes * 60 + rest == seconds
    ensures ClockText(seconds) == NatToString(minutes) + ":" + PadStart2(NatToString(rest))
    ensures |PadStart2(NatToString(rest))| == 2
  {
    var q := seconds / 60;
    var m := seconds % 60;
    assert (q - minutes) * 60 == rest - m;
    assert rest < 10 ==> |NatToString(rest)| == 1;
    if rest >= 10 {
      assert NatToString(rest) == NatToString(rest / 10) + [DigitChar(rest % 10)];
    }
  }

  /** A negative count shows its sign twice: -5 seconds read "-1:-5". */
  lemma ClockTextNegative()
    ensures ClockText(-5) == "-1:-5"
  {
    assert FloorDiv(-5, 60) == -1;
    assert JsRem(-5, 60) == -5;
    assert IntToString(-1) == "-1";
    assert IntToString(-5) == "-5";
  }

  // ----- zod string checks -----

  predicate IsHexDigit(c: char)
  {
    '0' <= c <= '9' || 'a' <= c <= 'f' || 'A' <= c <= 'F'
  }

  /** `z.string().uuid()`: the 8-4-4-4-12 hexadecimal shape of a UUID. */
  predicate IsUuid(s: string)
  {
    |s| == 36 && forall i :: 0 <= i < 36 ==> (if i == 8 || i == 13 || i == 18 || i == 23 then s[i] == '-' else IsHexDigit(s[i]))
  }

  // ----- sums and counts -----

  function SumInt<T>(s: seq<T>, f: T -> int): int
  {
    if s == [] then 0 else SumInt(s[..|s| - 1], f) + f(s[|s| - 1])
  }

  function SumReal<T>(s: seq<T>, f: T -> real): real
  {
    if s == [] then 0.0 else SumReal(s[..|s| - 1], f) + f(s[|s| - 1])
  }

  function CountWhere<T>(s: seq<T>, p: T -> bool): (n: nat)
    ensures n <= |s|
  {
    if s == [] then 0 else CountWhere(s[..|s| - 1], p) + (if p(s[|s| - 1]) then 1 else 0)
  }

  function Filter<T>(s: seq<T>, p: T -> bool): (r: seq<T>)
    ensures |r| == CountWhere(s, p)
    ensures forall x :: x in r ==> x in s && p(x)
    ensures forall x :: x in s && p(x) ==> x in r
  {
    if s == [] then [] else Filter(s[..|s| - 1], p) + (if p(s[|s| - 1]) then [s[|s| - 1]] else [])
  }

  /** A one-element sequence keeps its element exactly when it satisfies the predicate. */
  lemma FilterSingle<T>(x: T, p: T -> bool)
    ensures Filter([x], p) == if p(x) then [x] else []
  {
    assert [x][..0] == [];
  }

  lemma {:induction false} SumIntAppend<T>(a: seq<T>, b: seq<T>, f: T -> int)
    ensures SumInt(a + b, f) == SumInt(a, f) + SumInt(b, f)
    decreases |b|
  {
    if b == [] {
      assert a + b == a;
    } else {
      assert (a + b)[..|a + b| - 1] == a + b[..|b| - 1];
      SumIntAppend(a, b[..|b| - 1], f);
    }
  }

  lemma {:induction false} SumRealAppend<T>(a: seq<T>, b: seq<T>, f: T -> real)
    ensures SumReal(a + b, f) == SumReal(a, f) + SumReal(b, f)
    decreases |b|
  {
    if b == [] {
      assert a + b == a;
    } else {
      assert (a + b)[..|a + b| - 1] == a + b[..|b| - 1];
      SumRealAppend(a, b[..|b| - 1], f);
    }
  }

  lemma {:induction false} CountWhereAppend<T>(a: seq<T>, b: seq<T>, p: T -> bool)
    ensures CountWhere(a + b, p) == CountWhere(a, p) + CountWhere(b, p)
    decreases |b|
  {
    if b == [] {
      assert a + b == a;
    } else {
      assert (a + b)[..|a + b| - 1] == a + b[..|b| - 1];
      CountWhereAppend(a, b[..|b| - 1], p);
    }
  }

  lemma {:induction false} FilterAppend<T>(a: seq<T>, b: seq<T>, p: T -> bool)
    ensures Filter(a + b, p) == Filter(a, p) + Filter(b, p)
    decreases |b|
  {
    if b == [] {
      assert a + b == a;
    } else {
      assert (a + b)[..|a + b| - 1] == a + b[..|b| - 1];
      FilterAppend(a, b[..|b| - 1], p);
    }
  }

  /** Filtering with two predicates that agree on every element gives the same list. */
  lemma {:induction false} FilterCongruent<T>(s: seq<T>, p: T -> bool, q: T -> bool)
    requires forall x :: x in s ==> p(x) == q(x)
    ensures Filter(s, p) == Filter(s, q)
  {
    if s != [] {
      FilterCongruent(s[..|s| - 1], p, q);
    }
  }

  /** A sum of non-negative terms is non-negative. */
  lemma {:induction false} SumIntNonNegative<T>(s: seq<T>, f: T -> int)
    requires forall x :: x in s ==> f(x) >= 0
    ensures SumInt(s, f) >= 0
  {
    if s != [] {
      SumIntNonNegative(s[..|s| - 1], f);
    }
  }

  /** A sum of terms each within [lo, hi] lies within [n * lo, n * hi]. */
  lemma {:induction false} SumIntBounds<T>(s: seq<T>, f: T -> int, lo: int, hi: int)
    requires forall x :: x in s ==> lo <= f(x) <= hi
    ensures |s| * lo <= SumInt(s, f) <= |s| * hi
  {
    if s != [] {
      SumIntBounds(s[..|s| - 1], f, lo, hi);
      assert s[|s| - 1] in s;
    }
  }

  /** A sum of non-negative terms is positive exactly when one of its terms is. */
  lemma {:induction false} SumIntPositiveIff<T>(s: seq<T>, f: T -> int)
    requires forall x :: x in s ==> f(x) >= 0
    ensures SumInt(s, f) > 0 <==> exists x :: x in s && f(x) > 0
  {
    if s != [] {
      var p := s[..|s| - 1];
      var last := s[|s| - 1];
      SumIntPositiveIff(p, f);
      SumIntNonNegative(p, f);
      assert forall x :: x in s <==> x in p || x == last;
    }
  }

  /** A sum of terms each within [lo, hi] lies within [n * lo, n * hi]. */
  lemma {:induction false} SumRealBounds<T>(s: seq<T>, f: T -> real, lo: real, hi: real)
    requires forall x :: x in s ==> lo <= f(x) <= hi
    ensures |s| as real * lo <= SumReal(s, f) <= |s| as real * hi
  {
    if s != [] {
      var n := (|s| - 1) as real;
      SumRealBounds(s[..|s| - 1], f, lo, hi);
      assert s[|s| - 1] in s;
      assert |s| as real * lo == n * lo + lo && |s| as real * hi == n * hi + hi;
    }
  }

  /** The mean of `f` over a non-empty sequence lies within bounds every element meets. */
  lemma {:induction false} MeanBounds<T>(s: seq<T>, f: T -> real, lo: real, hi: real)
    requires s != []
    requires forall x :: x in s ==> lo <= f(x) <= hi
    ensures lo <= SumReal(s, f) / |s| as real <= hi
  {
    SumRealBounds(s, f, lo, hi);
    QuotientWithin(SumReal(s, f), |s| as real, lo, hi);
  }

  /** A quotient of naturals with a positive divisor is 0 exactly when the dividend is. */
  lemma {:induction false} QuotientZeroIff(a: nat, b: nat)
    requires b > 0
    ensures a as real / b as real == 0.0 <==> a == 0
  {
    assert a as real / b as real * b as real == a as real;
  }

  /** A total between n * lo and n * hi, divided by n > 0, lies between lo and hi. */
  lemma {:induction false} QuotientWithin(total: real, n: real, lo: real, hi: real)
    requires n > 0.0 && n * lo <= total <= n * hi
    ensures lo <= total / n <= hi
  {
    assert total / n * n == total;
  }

  predicate NoDuplicates<T(==)>(s: seq<T>)
  {
    forall i, j :: 0 <= i < j < |s| ==> s[i] != s[j]
  }

  /** Dropping the last element keeps the rest distinct, and the last element is not among them. */
  lemma {:induction false} NoDuplicatesInit<T>(s: seq<T>)
    requires s != [] && NoDuplicates(s)
    ensures NoDuplicates(s[..|s| - 1]) && s[|s| - 1] !in s[..|s| - 1]
  {
    var q := s[..|s| - 1];
    forall i | 0 <= i < |q| ensures q[i] != s[|s| - 1] {
      assert q[i] == s[i];
    }
  }

  /** The elements in order of first appearance, each once (`Array.from(new Set(s))`). */
  function Distinct<T(==, !new)>(s: seq<T>): (r: seq<T>)
    ensures NoDuplicates(r)
    ensures forall x :: x in r <==> x in s
  {
    if s == [] then []
    else
      var prev := Distinct(s[..|s| - 1]);
      var x := s[|s| - 1];
      assert forall y :: y in s <==> y in s[..|s| - 1] || y == x;
      if x in prev then prev else prev + [x]
  }

  /** A subset is no larger than its superset. */
  lemma {:induction false} SubsetCardinality<T>(a: set<T>, b: set<T>)
    requires a <= b
    ensures |a| <= |b|
    decreases |b|
  {
    if a != {} {
      var x :| x in a;
      SubsetCardinality(a - {x}, b - {x});
    }
  }

  /** The elements of a sequence are no more numerous than its positions. */
  lemma {:induction false} ElementsCardinality<T>(s: seq<T>)
    ensures |set x | x in s| <= |s|
  {
    if s != [] {
      var p := s[..|s| - 1];
      ElementsCardinality(p);
      assert (set x | x in s) == (set x | x in p) + {s[|s| - 1]} by {
        forall x | x in s ensures x in p || x == s[|s| - 1] {
          var i :| 0 <= i < |s| && s[i] == x;
          if i < |s| - 1 { assert p[i] == x; }
        }
      }
    }
  }

  /** Sums of pointwise-equal terms are equal. */
  lemma {:induction false} SumIntCongruent<T>(s: seq<T>, f: T -> int, g: T -> int)
    requires forall x :: x in s ==> f(x) == g(x)
    ensures SumInt(s, f) == SumInt(s, g)
  {
    if s != [] {
      SumIntCongruent(s[..|s| - 1], f, g);
      assert s[|s| - 1] in s;
    }
  }

  /** A sum of pointwise sums splits into two sums. */
  lemma {:induction false} SumIntPointwiseAdd<T>(s: seq<T>, f: T -> int, g: T -> int, h: T -> int)
    requires forall x :: x in s ==> h(x) == f(x) + g(x)
    ensures SumInt(s, h) == SumInt(s, f) + SumInt(s, g)
  {
    if s != [] {
      SumIntPointwiseAdd(s[..|s| - 1], f, g, h);
      assert s[|s| - 1] in s;
    }
  }

  /** Over distinct keys, a term that is `v` at `x` and 0 elsewhere sums to `v`. */
  lemma {:induction false} SumIntSingle<T>(keys: seq<T>, x: T, h: T -> int, v: int)
    requires NoDuplicates(keys) && x in keys
    requires forall k :: k in keys ==> h(k) == (if k == x then v else 0)
    ensures SumInt(keys, h) == v
  {
    var p := keys[..|keys| - 1];
    var last := keys[|keys| - 1];
    assert keys == p + [last];
    if last == x {
      assert x !in p;
      SumIntZero(p, h);
    } else {
      SumIntSingle(p, x, h, v);
    }
  }

  lemma {:induction false} SumIntZero<T>(s: seq<T>, h: T -> int)
    requires forall k :: k in s ==> h(k) == 0
    ensures SumInt(s, h) == 0
  {
    if s != [] {
      SumIntZero(s[..|s| - 1], h);
      assert s[|s| - 1] in s;
    }
  }

  /**
   * Regrouping: summing `g` over a sequence equals summing, over distinct keys
   * that cover it, each key's multiplicity times `g` of the key.
   */
  lemma {:induction false} SumRegroup<T>(w: seq<T>, keys: seq<T>, g: T -> int, h: T -> int)
    requires NoDuplicates(keys) && forall x :: x in w ==> x in keys
    requires forall k :: k in keys ==> h(k) == multiset(w)[k] * g(k)
    ensures SumInt(w, g) == SumInt(keys, h)
  {
    if w == [] {
      SumIntZero(keys, h);
    } else {
      var p := w[..|w| - 1];
      var x := w[|w| - 1];
      assert w == p + [x];
      assert forall y :: y in p ==> y in w;
      var hp := k => multiset(p)[k] * g(k);
      SumRegroup(p, keys, g, hp);
      RegroupSnoc(p, x, keys, g, h, hp);
    }
  }

  lemma RegroupSnoc<T>(p: seq<T>, x: T, keys: seq<T>, g: T -> int, h: T -> int, hp: T -> int)
    requires NoDuplicates(keys) && x in keys
    requires forall k :: k in keys ==> h(k) == multiset(p + [x])[k] * g(k)
    requires forall k :: hp(k) == multiset(p)[k] * g(k)
    requires SumInt(p, g) == SumInt(keys, hp)
    ensures SumInt(p + [x], g) == SumInt(keys, h)
  {
    assert (p + [x])[..|p|] == p;
    var e := k => if k == x then g(x) else 0;
    RegroupStep(p, x, keys, g, h, hp, e);
    SumIntPointwiseAdd(keys, hp, e, h);
    SumIntSingle(keys, x, e, g(x));
  }

  lemma {:induction false} RegroupStep<T>(p: seq<T>, x: T, keys: seq<T>, g: T -> int, h: T -> int, hp: T -> int, e: T -> int)
    requires forall k :: k in keys ==> h(k) == multiset(p + [x])[k] * g(k)
    requires forall k :: hp(k) == multiset(p)[k] * g(k)
    requires forall k :: e(k) == if k == x then g(x) else 0
    ensures forall k :: k in keys ==> h(k) == hp(k) + e(k)
  {
    forall k | k in keys ensures h(k) == hp(k) + e(k) {
      MultiplicityOfAppend(p, x, k, g(k));
    }
  }

  lemma MultiplicityOfAppend<T>(p: seq<T>, x: T, k: T, c: int)
    ensures multiset(p + [x])[k] * c == multiset(p)[k] * c + (if k == x then c else 0)
  {
    assert multiset(p + [x]) == multiset(p) + multiset{x};
    var m := multiset(p)[k];
    if k == x {
      assert multiset(p + [x])[k] == m + 1;
      assert (m + 1) * c == m * c + c;
    }
  }

  /** Counting is summing an indicator. */
  lemma {:induction false} CountWhereAsSum<T>(s: seq<T>, p: T -> bool, h: T -> int)
    requires forall x :: x in s ==> h(x) == (if p(x) then 1 else 0)
    ensures CountWhere(s, p) == SumInt(s, h)
  {
    if s != [] {
      CountWhereAsSum(s[..|s| - 1], p, h);
      assert s[|s| - 1] in s;
    }
  }

  /** Over distinct elements, the count of those satisfying `p` is the size of the set `t` of them. */
  lemma {:induction false} CountWhereDistinct<T>(s: seq<T>, p: T -> bool, t: set<T>)
    requires NoDuplicates(s)
    requires forall x :: x in t <==> x in s && p(x)
    ensures CountWhere(s, p) == |t|
  {
    if s == [] {
      assert t == {};
    } else {
      var q := s[..|s| - 1];
      var last := s[|s| - 1];
      NoDuplicatesInit(s);
      assert forall x :: x in s <==> x in q || x == last;
      if p(last) {
        CountWhereDistinct(q, p, t - {last});
      } else {
        CountWhereDistinct(q, p, t);
      }
    }
  }

  /** No element satisfies `p` exactly when the count is 0. */
  lemma {:induction false} CountWhereZero<T>(s: seq<T>, p: T -> bool)
    ensures CountWhere(s, p) == 0 <==> forall i :: 0 <= i < |s| ==> !p(s[i])
  {
    if s != [] {
      CountWhereZero(s[..|s| - 1], p);
      assert s == s[..|s| - 1] + [s[|s| - 1]];
    }
  }

  /** Every element satisfies `p` exactly when the count is the length. */
  lemma {:induction false} CountWhereAll<T>(s: seq<T>, p: T -> bool)
    ensures CountWhere(s, p) == |s| <==> forall i :: 0 <= i < |s| ==> p(s[i])
  {
    if s != [] {
      CountWhereAll(s[..|s| - 1], p);
      assert s == s[..|s| - 1] + [s[|s| - 1]];
    }
  }

  /** Filtering one more element of a prefix appends it when it qualifies. */
  lemma FilterPrefixStep<T>(s: seq<T>, i: nat, p: T -> bool)
    requires i < |s|
    ensures Filter(s[..i + 1], p) == Filter(s[..i], p) + (if p(s[i]) then [s[i]] else [])
  {
    assert s[..i + 1][..i] == s[..i];
  }

  /** Counting one more element of a prefix adds one when it qualifies. */
  lemma CountWherePrefixStep<T>(s: seq<T>, i: nat, p: T -> bool)
    requires i < |s|
    ensures CountWhere(s[..i + 1], p) == CountWhere(s[..i], p) + (if p(s[i]) then 1 else 0)
  {
    assert s[..i + 1][..i] == s[..i];
  }

  /** Summing one more element of a prefix adds its term. */
  lemma SumIntPrefixStep<T>(s: seq<T>, i: nat, f: T -> int)
    requires i < |s|
    ensures SumInt(s[..i + 1], f) == SumInt(s[..i], f) + f(s[i])
  {
    assert s[..i + 1][..i] == s[..i];
  }

  /** Summing one more element of a prefix adds its term. */
  lemma SumRealPrefixStep<T>(s: seq<T>, i: nat, f: T -> real)
    requires i < |s|
    ensures SumReal(s[..i + 1], f) == SumReal(s[..i], f) + f(s[i])
  {
    assert s[..i + 1][..i] == s[..i];
  }

  /** A count over a positive total, as a ratio, lies in [0, 1]; it is 0 or 1 exactly at the ends. */
  lemma RatioInUnit(a: nat, b: nat)
    requires 0 < b && a <= b
    ensures 0.0 <= a as real / b as real <= 1.0
    ensures a as real / b as real == 0.0 <==> a == 0
    ensures a as real / b as real == 1.0 <==> a == b
  {
    var q := a as real / b as real;
    assert q * b as real == a as real;
  }
}
