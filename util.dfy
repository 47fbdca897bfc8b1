/** Small helpers shared by the whole model: an optional value, the ordinal
    order of strings the sorted libraries are kept in, sums of volumes, the
    float operations the plugin relies on, and decimal formatting of counters. */
module Util {

  datatype Option<+T> = None | Some(value: T) {
    function GetOr(default: T): T {
      match this
      case Some(v) => v
      case None => default
    }
  }

  /** A value that may be positive infinity, as a float quotient can be. */
  datatype Extended = Finite(value: real) | PositiveInfinity

  // ---------------------------------------------------------------------
  // Ordinal string order, standing in for the culture-sensitive default
  // comparer that orders the keys of the sorted libraries
  // ---------------------------------------------------------------------

  predicate Less(a: string, b: string)
    decreases |a|
  {
    if |a| == 0 then |b| > 0
    else if |b| == 0 then false
    else if a[0] < b[0] then true
    else if b[0] < a[0] then false
    else Less(a[1..], b[1..])
  }

  lemma {:induction false} LessIrreflexive(a: string)
    ensures !Less(a, a)
    decreases |a|
  {
    if |a| > 0 {
      LessIrreflexive(a[1..]);
    }
  }

  lemma {:induction false} LessTransitive(a: string, b: string, c: string)
    requires Less(a, b) && Less(b, c)
    ensures Less(a, c)
    decreases |a|
  {
    if |a| > 0 && |b| > 0 && |c| > 0 && a[0] == b[0] && b[0] == c[0] {
      LessTransitive(a[1..], b[1..], c[1..]);
    }
  }

  lemma {:induction false} LessTotal(a: string, b: string)
    requires a != b
    ensures Less(a, b) || Less(b, a)
    decreases |a|
  {
    if |a| > 0 && |b| > 0 && a[0] == b[0] {
      assert a == [a[0]] + a[1..] && b == [b[0]] + b[1..];
      LessTotal(a[1..], b[1..]);
    }
  }

  lemma {:induction false} LessAsymmetric(a: string, b: string)
    requires Less(a, b)
    ensures !Less(b, a)
  {
    if Less(b, a) {
      LessTransitive(a, b, a);
      LessIrreflexive(a);
    }
  }

  // ---------------------------------------------------------------------
  // Sums (the left folds `Aggregate(0f, (v, t) => v + ...)`)
  // ---------------------------------------------------------------------

  function Sum(xs: seq<real>): real
  {
    if |xs| == 0 then 0.0 else Sum(xs[..|xs| - 1]) + xs[|xs| - 1]
  }

  lemma {:induction false} SumAppend(xs: seq<real>, ys: seq<real>)
    ensures Sum(xs + ys) == Sum(xs) + Sum(ys)
    decreases |ys|
  {
    if |ys| > 0 {
      assert (xs + ys)[..|xs + ys| - 1] == xs + ys[..|ys| - 1];
      SumAppend(xs, ys[..|ys| - 1]);
    } else {
      assert xs + ys == xs;
    }
  }

  lemma SumSingle(x: real)
    ensures Sum([x]) == x
  {
    assert [x][..0] == [];
  }

  lemma {:induction false} SumCons(x: real, xs: seq<real>)
    ensures Sum([x] + xs) == x + Sum(xs)
  {
    SumAppend([x], xs);
    SumSingle(x);
  }

  /** Replacing one element changes the sum by the difference. */
  lemma {:induction false} SumUpdate(xs: seq<real>, i: nat, x: real)
    requires i < |xs|
    ensures Sum(xs[i := x]) == Sum(xs) - xs[i] + x
  {
    assert xs == xs[..i] + [xs[i]] + xs[i + 1..];
    assert xs[i := x] == xs[..i] + [x] + xs[i + 1..];
    SumAppend(xs[..i] + [xs[i]], xs[i + 1..]);
    SumAppend(xs[..i], [xs[i]]);
    SumAppend(xs[..i] + [x], xs[i + 1..]);
    SumAppend(xs[..i], [x]);
    SumSingle(x);
    SumSingle(xs[i]);
  }

  /** Every element multiplied by `k`. */
  function ScaleAll(xs: seq<real>, k: real): (r: seq<real>)
    ensures |r| == |xs| && forall i :: 0 <= i < |xs| ==> r[i] == xs[i] * k
  {
    seq(|xs|, i requires 0 <= i < |xs| => xs[i] * k)
  }

  /** Scaling every element scales the sum. */
  lemma {:induction false} SumScaleAll(xs: seq<real>, k: real)
    ensures Sum(ScaleAll(xs, k)) == Sum(xs) * k
    decreases |xs|
  {
    if |xs| > 0 {
      var n := |xs|;
      var init := ScaleAll(xs, k)[..n - 1];
      assert forall i :: 0 <= i < n - 1 ==> init[i] == xs[..n - 1][i] * k;
      assert init == ScaleAll(xs[..n - 1], k);
      SumScaleAll(xs[..n - 1], k);
      assert Sum(xs) * k == Sum(xs[..n - 1]) * k + xs[n - 1] * k;
    }
  }

  /** Removing one element lowers the sum by that element. */
  lemma {:induction false} SumRemove(xs: seq<real>, i: nat)
    requires i < |xs|
    ensures Sum(xs[..i] + xs[i + 1..]) == Sum(xs) - xs[i]
  {
    assert xs == xs[..i] + [xs[i]] + xs[i + 1..];
    SumAppend(xs[..i] + [xs[i]], xs[i + 1..]);
    SumAppend(xs[..i], [xs[i]]);
    SumAppend(xs[..i], xs[i + 1..]);
    SumSingle(xs[i]);
  }

  /** `List.Remove`: drop the first occurrence of `x`, if any. */
  function RemoveFirst<T(==)>(s: seq<T>, x: T): seq<T>
  {
    if |s| == 0 then []
    else if s[0] == x then s[1..]
    else [s[0]] + RemoveFirst(s[1..], x)
  }

  /** What `RemoveFirst` removes: one copy of `x` when there is one, and
      nothing else. */
  lemma RemoveFirstSpec<T>(s: seq<T>, x: T)
    ensures x !in s ==> RemoveFirst(s, x) == s
    ensures x in s ==> |RemoveFirst(s, x)| == |s| - 1
    ensures multiset(RemoveFirst(s, x)) == multiset(s) - multiset{x}
    ensures forall y :: y in RemoveFirst(s, x) ==> y in s
  {
    RemoveFirstAbsent(s, x);
    RemoveFirstMultiset(s, x);
    var r := RemoveFirst(s, x);
    assert |multiset(r)| == |r| && |multiset(s)| == |s|;
    forall y | y in r
      ensures y in s
    {
      assert y in multiset(r);
    }
  }

  lemma {:induction false} RemoveFirstAbsent<T>(s: seq<T>, x: T)
    ensures x !in s ==> RemoveFirst(s, x) == s
  {
    if |s| > 0 && x !in s {
      assert x !in s[1..];
      RemoveFirstAbsent(s[1..], x);
      assert s == [s[0]] + s[1..];
    }
  }

  lemma {:induction false} RemoveFirstMultiset<T>(s: seq<T>, x: T)
    ensures multiset(RemoveFirst(s, x)) == multiset(s) - multiset{x}
  {
    if |s| > 0 {
      assert s == [s[0]] + s[1..];
      assert multiset(s) == multiset{s[0]} + multiset(s[1..]);
      if s[0] != x {
        RemoveFirstMultiset(s[1..], x);
        assert multiset(RemoveFirst(s, x)) == multiset{s[0]} + multiset(RemoveFirst(s[1..], x));
      }
    }
  }

  /** Removing one element keeps every other. */
  lemma {:induction false} RemoveFirstKeeps<T>(s: seq<T>, x: T, y: T)
    requires y in s && y != x
    ensures y in RemoveFirst(s, x)
  {
    RemoveFirstSpec(s, x);
    assert multiset(s)[y] > 0;
    assert multiset(RemoveFirst(s, x))[y] == multiset(s)[y];
  }

  /** Sequences are equal when they agree at every position. */
  lemma SameElements<T>(a: seq<T>, b: seq<T>)
    requires |a| == |b| && forall i :: 0 <= i < |a| ==> a[i] == b[i]
    ensures a == b
  {
  }

  /** Flooring a non-negative real at 0 leaves it unchanged. */
  lemma MaxOfNonNegative(a: real)
    requires 0.0 <= a
    ensures Max(a, 0.0) == a
  {
  }

  /** A product of non-negative reals is non-negative. */
  lemma MulNonNegative(a: real, b: real)
    requires 0.0 <= a && 0.0 <= b
    ensures 0.0 <= a * b
  {
  }

  /** No element occurs twice: the last one is not among the earlier ones,
      which are free of duplicates themselves. */
  predicate NoDuplicates<T(==)>(s: seq<T>)
    decreases |s|
  {
    |s| == 0 || (s[|s| - 1] !in s[..|s| - 1] && NoDuplicates(s[..|s| - 1]))
  }

  /** Without duplicates, any two positions hold different elements. */
  lemma {:induction false} DistinctPairs<T>(s: seq<T>)
    requires NoDuplicates(s)
    ensures forall i, j :: 0 <= i < j < |s| ==> s[i] != s[j]
    decreases |s|
  {
    if |s| > 0 {
      var n := |s| - 1;
      DistinctPairs(s[..n]);
      assert forall i :: 0 <= i < n ==> s[..n][i] == s[i];
    }
  }

  /** Pairwise different elements make a list without duplicates. */
  lemma {:induction false} DistinctFromPairs<T>(s: seq<T>)
    requires forall i, j :: 0 <= i < j < |s| ==> s[i] != s[j]
    ensures NoDuplicates(s)
    decreases |s|
  {
    if |s| > 0 {
      var n := |s| - 1;
      assert forall i :: 0 <= i < n ==> s[..n][i] == s[i];
      DistinctFromPairs(s[..n]);
    }
  }

  /** A new element may go last. */
  lemma AppendDistinct<T>(s: seq<T>, x: T)
    requires NoDuplicates(s) && x !in s
    ensures NoDuplicates(s + [x])
  {
    assert (s + [x])[..|s|] == s;
  }

  /** In a list without duplicates each element has one position. */
  lemma Positions<T>(s: seq<T>) returns (pos: map<T, nat>)
    requires NoDuplicates(s)
    ensures forall i :: 0 <= i < |s| ==> s[i] in pos && pos[s[i]] == i
  {
    DistinctPairs(s);
    pos := map i | 0 <= i < |s| :: s[i] := i;
  }

  /** Removing an element from a list without duplicates leaves no copy of
      it and keeps the rest free of duplicates. */
  lemma {:induction false} RemoveFirstDistinct<T>(s: seq<T>, x: T)
    requires NoDuplicates(s)
    ensures x !in RemoveFirst(s, x)
    ensures NoDuplicates(RemoveFirst(s, x))
  {
    if |s| > 0 {
      TailDistinct(s);
      if s[0] != x {
        var rest := RemoveFirst(s[1..], x);
        RemoveFirstDistinct(s[1..], x);
        RemoveFirstSpec(s[1..], x);
        ConsDistinct(s[0], rest);
      }
    }
  }

  /** The tail of a list without duplicates has none and lacks the head. */
  lemma TailDistinct<T>(s: seq<T>)
    requires NoDuplicates(s) && |s| > 0
    ensures NoDuplicates(s[1..]) && s[0] !in s[1..]
  {
    DistinctPairs(s);
    assert forall i :: 0 <= i < |s| - 1 ==> s[1..][i] == s[i + 1];
    DistinctFromPairs(s[1..]);
  }

  /** A new head in front of a list without duplicates adds none. */
  lemma ConsDistinct<T>(h: T, rest: seq<T>)
    requires NoDuplicates(rest) && h !in rest
    ensures NoDuplicates([h] + rest)
  {
    DistinctPairs(rest);
    forall i, j | 0 <= i < j < |[h] + rest|
      ensures ([h] + rest)[i] != ([h] + rest)[j]
    {
      if i == 0 { assert rest[j - 1] in rest; }
    }
    DistinctFromPairs([h] + rest);
  }

  /** Removing the first occurrence at position `i` cuts the list there. */
  lemma {:induction false} RemoveFirstAt<T>(s: seq<T>, x: T, i: nat)
    requires i < |s| && s[i] == x && x !in s[..i]
    ensures RemoveFirst(s, x) == s[..i] + s[i + 1..]
  {
    if i > 0 {
      assert s[1..][..i - 1] == s[1..i];
      assert x !in s[1..][..i - 1];
      RemoveFirstAt(s[1..], x, i - 1);
      assert s[1..][i - 1 + 1..] == s[i + 1..];
      assert [s[0]] + s[1..i] == s[..i];
    }
  }

  // ---------------------------------------------------------------------
  // Float operations
  // ---------------------------------------------------------------------

  /** A quotient; a zero divisor, for which the float code yields an
      infinity or NaN, gives 0 in the model. */
  function Ratio(a: real, b: real): (r: real)
    ensures b != 0.0 ==> r * b == a
    ensures b == 0.0 ==> r == 0.0
  {
    if b == 0.0 then 0.0 else a / b
  }

  /** Scaling the dividend scales the quotient. */
  lemma RatioScale(a: real, b: real, k: real)
    ensures Ratio(a * k, b) == k * Ratio(a * 1.0, b)
  {
    if b != 0.0 {
      assert a * k / b == k * (a / b);
    }
  }

  function Min(a: real, b: real): (r: real)
    ensures r <= a && r <= b && (r == a || r == b)
  {
    if a <= b then a else b
  }

  function Max(a: real, b: real): (r: real)
    ensures r >= a && r >= b && (r == a || r == b)
  {
    if a >= b then a else b
  }

  /** `Utils.Clamp(x, low, high)`: the lower bound is checked first. */
  function Clamp(x: real, low: real, high: real): (r: real)
    ensures low <= high ==> low <= r <= high
    ensures low <= x <= high ==> r == x
    ensures x < low ==> r == low
  {
    if x < low then low else if x > high then high else x
  }

  /** `Mathf.Clamp01`. */
  function Clamp01(x: real): (r: real)
    ensures 0.0 <= r <= 1.0
    ensures 0.0 <= x <= 1.0 ==> r == x
  {
    Clamp(x, 0.0, 1.0)
  }

  // ---------------------------------------------------------------------
  // Decimal formatting of a counter (`string.Concat(name, " ", index)`)
  // ---------------------------------------------------------------------

  function Digit(d: nat): char
    requires d < 10
  {
    "0123456789"[d]
  }

  function NatToString(n: nat): (s: string)
    ensures |s| >= 1
  {
    if n < 10 then [Digit(n)] else NatToString(n / 10) + [Digit(n % 10)]
  }

  lemma DigitInjective(a: nat, b: nat)
    requires a < 10 && b < 10 && Digit(a) == Digit(b)
    ensures a == b
  {
  }

  lemma {:induction false} NatToStringShort(n: nat)
    ensures |NatToString(n)| == 1 <==> n < 10
  {
    if n >= 10 {
      assert |NatToString(n)| == |NatToString(n / 10)| + 1;
    }
  }

  lemma {:induction false} NatToStringInjective(a: nat, b: nat)
    requires NatToString(a) == NatToString(b)
    ensures a == b
    decreases a
  {
    var s := NatToString(a);
    NatToStringShort(a);
    NatToStringShort(b);
    if a < 10 {
      DigitInjective(a, b);
    } else {
      assert s[|s| - 1] == Digit(a % 10) && s[|s| - 1] == Digit(b % 10);
      DigitInjective(a % 10, b % 10);
      assert NatToString(a / 10) == s[..|s| - 1] == NatToString(b / 10);
      NatToStringInjective(a / 10, b / 10);
    }
  }

  /** The i-th alternative of a taken name: `"base i"`. */
  function NumberedName(base: string, i: nat): (s: string)
    ensures |s| > |base| + 1
  {
    base + " " + NatToString(i)
  }

  lemma NumberedNameInjective(base: string, i: nat, j: nat)
    requires NumberedName(base, i) == NumberedName(base, j)
    ensures i == j
  {
    var s := NumberedName(base, i);
    assert NatToString(i) == s[|base| + 1..] == NatToString(j);
    NatToStringInjective(i, j);
  }

  // ---------------------------------------------------------------------
  // Counting
  // ---------------------------------------------------------------------

  lemma {:induction false} SubsetCard<T>(a: set<T>, b: set<T>)
    requires a <= b
    ensures |a| <= |b|
  {
    if a != {} {
      var x :| x in a;
      SubsetCard(a - {x}, b - {x});
    }
  }

  /** A sequence has at most as many distinct elements as positions. */
  lemma {:induction false} DistinctElements<T>(s: seq<T>)
    ensures |set x | x in s| <= |s|
  {
    if |s| > 0 {
      var n := |s|;
      var init := s[..n - 1];
      DistinctElements(init);
      assert (set x | x in s) == (set x | x in init) + {s[n - 1]};
    }
  }

  /** The names "base 1" to "base n" are n different names. */
  lemma {:induction false} NumberedNamesCount(base: string, n: nat)
    ensures |set j | 1 <= j <= n :: NumberedName(base, j)| == n
  {
    if n > 0 {
      NumberedNamesCount(base, n - 1);
      var prev := set j | 1 <= j <= n - 1 :: NumberedName(base, j);
      var all := set j | 1 <= j <= n :: NumberedName(base, j);
      NumberedNameNew(base, n);
      assert all == prev + {NumberedName(base, n)};
    }
  }

  /** "base n" is none of "base 1" to "base n-1". */
  lemma NumberedNameNew(base: string, n: nat)
    ensures NumberedName(base, n) !in set j | 1 <= j < n :: NumberedName(base, j)
  {
    forall j | 1 <= j < n
      ensures NumberedName(base, j) != NumberedName(base, n)
    {
      if NumberedName(base, j) == NumberedName(base, n) {
        NumberedNameInjective(base, j, n);
      }
    }
  }
}
