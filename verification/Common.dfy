/** Small shared vocabulary: optional values, string order and stable sorting. */
module Common {
  datatype Option<+T> = None | Some(value: T)

  /** The macro events the engine knows. */
  datatype EventType = UsCpi | Fomc | UsNfp

  function Token(t: EventType): string {
    match t
    case UsCpi => "us_cpi"
    case Fomc => "fomc"
    case UsNfp => "us_nfp"
  }

  function Max(a: int, b: int): int { if a < b then b else a }

  function MinReal(a: real, b: real): real { if b < a then b else a }

  function MaxReal(a: real, b: real): real { if a < b then b else a }

  function Abs(x: real): real { if x < 0.0 then -x else x }

  function Clamp(value: real, low: real, high: real): real {
    MaxReal(low, MinReal(high, value))
  }
}

/** The few facts of real arithmetic that the solver has to be pointed to. */
module RealFacts {
  lemma ProductNonNegative(a: real, b: real)
    requires a >= 0.0 && b >= 0.0
    ensures a * b >= 0.0
  {}

  lemma EqualFactors(c: real, a: real, b: real)
    requires a == b
    ensures c * a == c * b
  {}

  lemma ProductMonotone(a: real, b: real, c: real)
    requires a <= b && c >= 0.0
    ensures a * c <= b * c
  {
    ProductNonNegative(b - a, c);
  }

  lemma Cancel(a: real, b: real, c: real)
    requires c > 0.0 && a * c <= b * c
    ensures a <= b
  {}

  lemma DivideBack(a: real, p: real)
    requires p != 0.0
    ensures (a * p) / p == a
  {}

  lemma QuotientScales(c: real, x: real, p: real)
    requires p != 0.0
    ensures (c * x) / p == c * (x / p)
  {
    var q := x / p;
    assert q * p == x;
    assert (c * q) * p == c * x;
    DivideBack(c * q, p);
  }

  lemma QuotientCancels(c: real, a: real, b: real)
    requires c != 0.0 && b != 0.0
    ensures c * b != 0.0 && (c * a) / (c * b) == a / b
  {
    var q := a / b;
    assert q * b == a;
    assert q * (c * b) == c * a;
    DivideBack(q, c * b);
  }

  lemma QuotientMonotone(a: real, b: real, n: real)
    requires a <= b && n > 0.0
    ensures a / n <= b / n
  {
    assert (a / n) * n == a && (b / n) * n == b;
    Cancel(a / n, b / n, n);
  }

  lemma QuotientBounds(x: real, n: real, low: real, high: real)
    requires n > 0.0 && low * n <= x <= high * n
    ensures low <= x / n <= high
  {
    assert (x / n) * n == x;
    Cancel(low, x / n, n);
    Cancel(x / n, high, n);
  }
}

/** Lexicographic order on strings by code point, the order of every string sort key in the engine. */
module TextOrder {
  predicate Leq(a: string, b: string) {
    a == [] || (b != [] && (a[0] < b[0] || (a[0] == b[0] && Leq(a[1..], b[1..]))))
  }

  lemma {:induction false} Total(a: string, b: string)
    ensures Leq(a, b) || Leq(b, a)
  {
    if a != [] && b != [] && a[0] == b[0] {
      Total(a[1..], b[1..]);
    }
  }

  lemma {:induction false} Antisymmetric(a: string, b: string)
    requires Leq(a, b) && Leq(b, a)
    ensures a == b
  {
    if a != [] {
      Antisymmetric(a[1..], b[1..]);
      assert a == [a[0]] + a[1..] && b == [b[0]] + b[1..];
    }
  }

  lemma {:induction false} Transitive(a: string, b: string, c: string)
    requires Leq(a, b) && Leq(b, c)
    ensures Leq(a, c)
  {
    if a != [] && a[0] == b[0] == c[0] {
      Transitive(a[1..], b[1..], c[1..]);
    }
  }
}

/** Stable insertion sort as a model of `sorted`, and the uniqueness of what it returns. */
module Sorting {
  ghost predicate TotalPreorder<T(!new)>(leq: (T, T) -> bool) {
    && (forall a, b :: leq(a, b) || leq(b, a))
    && (forall a, b, c :: leq(a, b) && leq(b, c) ==> leq(a, c))
  }

  ghost predicate Sorted<T>(leq: (T, T) -> bool, s: seq<T>) {
    forall i, j :: 0 <= i < j < |s| ==> leq(s[i], s[j])
  }

  /** No two different elements of `s` tie under `leq`: the sort keys identify the elements. */
  ghost predicate DistinctKeys<T>(leq: (T, T) -> bool, s: seq<T>) {
    forall x, y :: x in s && y in s && leq(x, y) && leq(y, x) ==> x == y
  }

  function Insert<T>(leq: (T, T) -> bool, x: T, s: seq<T>): seq<T> {
    if s == [] then [x]
    else if leq(x, s[0]) then [x] + s
    else [s[0]] + Insert(leq, x, s[1..])
  }

  function Sort<T>(leq: (T, T) -> bool, s: seq<T>): seq<T> {
    if s == [] then [] else Insert(leq, s[0], Sort(leq, s[1..]))
  }

  lemma {:induction false} InsertPermutes<T>(leq: (T, T) -> bool, x: T, s: seq<T>)
    ensures multiset(Insert(leq, x, s)) == multiset(s) + multiset{x}
  {
    if s != [] && !leq(x, s[0]) {
      InsertPermutes(leq, x, s[1..]);
      assert s == [s[0]] + s[1..];
    }
  }

  lemma {:induction false} SortPermutes<T>(leq: (T, T) -> bool, s: seq<T>)
    ensures multiset(Sort(leq, s)) == multiset(s)
    ensures |Sort(leq, s)| == |s|
  {
    if s != [] {
      SortPermutes(leq, s[1..]);
      InsertPermutes(leq, s[0], Sort(leq, s[1..]));
      assert s == [s[0]] + s[1..];
    }
    assert |multiset(Sort(leq, s))| == |Sort(leq, s)|;
  }

  lemma {:induction false} InsertSorts<T(!new)>(leq: (T, T) -> bool, x: T, s: seq<T>)
    requires TotalPreorder(leq) && Sorted(leq, s)
    ensures Sorted(leq, Insert(leq, x, s))
  {
    if s != [] && !leq(x, s[0]) {
      InsertSorts(leq, x, s[1..]);
      InsertPermutes(leq, x, s[1..]);
      var rest := Insert(leq, x, s[1..]);
      forall j | 0 <= j < |rest| ensures leq(s[0], rest[j]) {
        assert rest[j] in multiset(rest);
      }
    } else if s != [] {
      forall j | 0 <= j < |s| ensures leq(x, s[j]) {
        assert j == 0 || leq(s[0], s[j]);
      }
    }
  }

  lemma {:induction false} SortSorts<T(!new)>(leq: (T, T) -> bool, s: seq<T>)
    requires TotalPreorder(leq)
    ensures Sorted(leq, Sort(leq, s))
  {
    if s != [] {
      SortSorts(leq, s[1..]);
      InsertSorts(leq, s[0], Sort(leq, s[1..]));
    }
  }

  lemma FirstIsLeast<T(!new)>(leq: (T, T) -> bool, s: seq<T>, x: T)
    requires TotalPreorder(leq) && Sorted(leq, s) && x in s
    ensures leq(s[0], x)
  {
    var k :| 0 <= k < |s| && s[k] == x;
    assert leq(s[0], s[0]);
  }

  lemma RestOfMultiset<T>(a: seq<T>, b: seq<T>)
    requires a != [] && b != [] && a[0] == b[0] && multiset(a) == multiset(b)
    ensures multiset(a[1..]) == multiset(b[1..])
  {
    assert a == [a[0]] + a[1..] && b == [b[0]] + b[1..];
    assert multiset(a[1..]) == multiset(a) - multiset{a[0]};
    assert multiset(b[1..]) == multiset(b) - multiset{b[0]};
  }

  /** Two sorted arrangements of the same elements coincide when the keys identify the elements. */
  lemma {:induction false} SortedIsUnique<T(!new)>(leq: (T, T) -> bool, a: seq<T>, b: seq<T>)
    requires TotalPreorder(leq) && Sorted(leq, a) && Sorted(leq, b)
    requires multiset(a) == multiset(b) && DistinctKeys(leq, a)
    ensures a == b
  {
    assert |a| == |multiset(a)| == |multiset(b)| == |b|;
    if a != [] {
      HeadsAgree(leq, a, b);
      RestOfMultiset(a, b);
      SortedIsUnique(leq, a[1..], b[1..]);
      assert a == [a[0]] + a[1..] && b == [b[0]] + b[1..];
    }
  }

  lemma HeadsAgree<T(!new)>(leq: (T, T) -> bool, a: seq<T>, b: seq<T>)
    requires TotalPreorder(leq) && Sorted(leq, a) && Sorted(leq, b)
    requires a != [] && b != [] && multiset(a) == multiset(b) && DistinctKeys(leq, a)
    ensures a[0] == b[0]
  {
    assert a[0] in multiset(b) && b[0] in multiset(a);
    FirstIsLeast(leq, a, b[0]);
    FirstIsLeast(leq, b, a[0]);
  }

  /** Sorting forgets the order of its input when the keys identify the elements. */
  lemma SortForgetsOrder<T(!new)>(leq: (T, T) -> bool, a: seq<T>, b: seq<T>)
    requires TotalPreorder(leq) && multiset(a) == multiset(b) && DistinctKeys(leq, a)
    ensures Sort(leq, a) == Sort(leq, b)
  {
    SortPermutes(leq, a);
    SortPermutes(leq, b);
    SortSorts(leq, a);
    SortSorts(leq, b);
    forall x, y | x in Sort(leq, a) && y in Sort(leq, a) && leq(x, y) && leq(y, x) ensures x == y {
      assert x in multiset(a) && y in multiset(a);
    }
    SortedIsUnique(leq, Sort(leq, a), Sort(leq, b));
  }

  /** The first element of `s` that none exceeds, as `max` picks it. */
  function Best<T>(leq: (T, T) -> bool, s: seq<T>): T
    requires s != []
  {
    if |s| == 1 then s[0]
    else
      var best := Best(leq, s[..|s| - 1]);
      if leq(s[|s| - 1], best) then best else s[|s| - 1]
  }

  lemma {:induction false} BestIsMaximal<T(!new)>(leq: (T, T) -> bool, s: seq<T>)
    requires TotalPreorder(leq) && s != []
    ensures Best(leq, s) in s
    ensures forall i :: 0 <= i < |s| ==> leq(s[i], Best(leq, s))
  {
    if |s| > 1 {
      var front := s[..|s| - 1];
      BestIsMaximal(leq, front);
      forall i | 0 <= i < |s| ensures leq(s[i], Best(leq, s)) {
        if i < |front| {
          assert leq(front[i], Best(leq, front));
        }
      }
    }
  }

  lemma BestForgetsOrder<T(!new)>(leq: (T, T) -> bool, a: seq<T>, b: seq<T>)
    requires TotalPreorder(leq) && a != [] && b != [] && multiset(a) == multiset(b) && DistinctKeys(leq, a)
    ensures Best(leq, a) == Best(leq, b)
  {
    BestIsMaximal(leq, a);
    BestIsMaximal(leq, b);
    var x, y := Best(leq, a), Best(leq, b);
    assert y in multiset(a) && x in multiset(b);
    var i :| 0 <= i < |a| && a[i] == y;
    var j :| 0 <= j < |b| && b[j] == x;
    assert leq(y, x) && leq(x, y);
  }

  /** The key tells the positions of `s` apart. */
  ghost predicate DistinctBy<T, K>(key: T -> K, s: seq<T>) {
    forall i, j :: 0 <= i < j < |s| ==> key(s[i]) != key(s[j])
  }

  lemma {:induction false} AtMostOnce<T, K>(key: T -> K, s: seq<T>, x: T)
    requires DistinctBy(key, s)
    ensures multiset(s)[x] <= 1
  {
    if s != [] {
      assert s == [s[0]] + s[1..];
      AtMostOnce(key, s[1..], x);
      if s[0] == x {
        assert x !in s[1..];
      }
    }
  }

  lemma TwicePresent<T>(s: seq<T>, i: nat, j: nat)
    requires i < j < |s| && s[i] == s[j]
    ensures multiset(s)[s[i]] >= 2
  {
    assert s == s[..i] + [s[i]] + s[i + 1..j] + [s[j]] + s[j + 1..];
  }

  /** Rearranging keeps the keys distinct. */
  lemma DistinctUnderPermutation<T, K>(key: T -> K, a: seq<T>, b: seq<T>)
    requires DistinctBy(key, a) && multiset(a) == multiset(b)
    ensures DistinctBy(key, b)
  {
    forall i, j | 0 <= i < j < |b| ensures key(b[i]) != key(b[j]) {
      if key(b[i]) == key(b[j]) {
        assert b[i] in multiset(a) && b[j] in multiset(a);
        var k :| 0 <= k < |a| && a[k] == b[i];
        var l :| 0 <= l < |a| && a[l] == b[j];
        assert k == l;
        TwicePresent(b, i, j);
        AtMostOnce(key, a, b[i]);
      }
    }
  }
}

/** Totals over a sequence, and their independence from its order. */
module Folds {
  function SumOf<T>(f: T -> real, s: seq<T>): real {
    if s == [] then 0.0 else f(s[0]) + SumOf(f, s[1..])
  }

  function CountOf<T>(p: T -> bool, s: seq<T>): (n: nat)
    ensures n <= |s|
  {
    if s == [] then 0 else (if p(s[0]) then 1 else 0) + CountOf(p, s[1..])
  }

  function Keep<T>(p: T -> bool, s: seq<T>): seq<T> {
    if s == [] then [] else (if p(s[0]) then [s[0]] else []) + Keep(p, s[1..])
  }

  function Each<T, U>(f: T -> U, s: seq<T>): (out: seq<U>)
    ensures |out| == |s|
    ensures forall i :: 0 <= i < |s| ==> out[i] == f(s[i])
  {
    seq(|s|, i requires 0 <= i < |s| => f(s[i]))
  }

  lemma {:induction false} SumOfConcat<T>(f: T -> real, a: seq<T>, b: seq<T>)
    ensures SumOf(f, a + b) == SumOf(f, a) + SumOf(f, b)
  {
    if a == [] {
      assert a + b == b;
    } else {
      SumOfConcat(f, a[1..], b);
      assert (a + b)[1..] == a[1..] + b;
    }
  }

  lemma {:induction false} CountOfConcat<T>(p: T -> bool, a: seq<T>, b: seq<T>)
    ensures CountOf(p, a + b) == CountOf(p, a) + CountOf(p, b)
  {
    if a == [] {
      assert a + b == b;
    } else {
      CountOfConcat(p, a[1..], b);
      assert (a + b)[1..] == a[1..] + b;
    }
  }

  /** Where the first element of `a` sits in a rearrangement `b` of it, and what is left there. */
  lemma Extract<T>(a: seq<T>, b: seq<T>) returns (k: nat)
    requires a != [] && multiset(a) == multiset(b)
    ensures k < |b| && b[k] == a[0] && b == b[..k] + [b[k]] + b[k + 1..]
    ensures multiset(b[..k] + b[k + 1..]) == multiset(a[1..])
  {
    assert a[0] in multiset(b);
    k :| 0 <= k < |b| && b[k] == a[0];
    assert b == b[..k] + [b[k]] + b[k + 1..];
    assert multiset(b) == multiset(b[..k] + b[k + 1..]) + multiset{b[k]};
    assert multiset(a) == multiset(a[1..]) + multiset{a[0]} by {
      assert a == [a[0]] + a[1..];
    }
    assert multiset(b[..k] + b[k + 1..]) == multiset(b) - multiset{b[k]};
  }

  lemma {:induction false} SumForgetsOrder<T>(f: T -> real, a: seq<T>, b: seq<T>)
    requires multiset(a) == multiset(b)
    ensures SumOf(f, a) == SumOf(f, b)
  {
    assert |a| == |multiset(a)| && |b| == |multiset(b)|;
    if a != [] {
      var k := Extract(a, b);
      SumForgetsOrder(f, a[1..], b[..k] + b[k + 1..]);
      SumOfConcat(f, b[..k], b[k + 1..]);
      SumOfConcat(f, b[..k] + [b[k]], b[k + 1..]);
      SumOfConcat(f, b[..k], [b[k]]);
    }
  }

  lemma {:induction false} CountForgetsOrder<T>(p: T -> bool, a: seq<T>, b: seq<T>)
    requires multiset(a) == multiset(b)
    ensures CountOf(p, a) == CountOf(p, b)
  {
    assert |a| == |multiset(a)| && |b| == |multiset(b)|;
    if a != [] {
      var k := Extract(a, b);
      CountForgetsOrder(p, a[1..], b[..k] + b[k + 1..]);
      CountOfConcat(p, b[..k], b[k + 1..]);
      CountOfConcat(p, b[..k] + [b[k]], b[k + 1..]);
      CountOfConcat(p, b[..k], [b[k]]);
    }
  }

  lemma {:induction false} KeepConcat<T>(p: T -> bool, a: seq<T>, b: seq<T>)
    ensures Keep(p, a + b) == Keep(p, a) + Keep(p, b)
  {
    if a == [] {
      assert a + b == b;
    } else {
      KeepConcat(p, a[1..], b);
      assert (a + b)[1..] == a[1..] + b && (a + b)[0] == a[0];
      var first := if p(a[0]) then [a[0]] else [];
      assert first + (Keep(p, a[1..]) + Keep(p, b)) == first + Keep(p, a[1..]) + Keep(p, b);
    }
  }

  lemma {:induction false} KeepForgetsOrder<T>(p: T -> bool, a: seq<T>, b: seq<T>)
    requires multiset(a) == multiset(b)
    ensures multiset(Keep(p, a)) == multiset(Keep(p, b))
  {
    assert |a| == |multiset(a)| && |b| == |multiset(b)|;
    if a != [] {
      var k := Extract(a, b);
      KeepForgetsOrder(p, a[1..], b[..k] + b[k + 1..]);
      KeepConcat(p, b[..k], b[k + 1..]);
      KeepConcat(p, b[..k] + [b[k]], b[k + 1..]);
      KeepConcat(p, b[..k], [b[k]]);
    }
  }

  lemma {:induction false} EachForgetsOrder<T, U>(f: T -> U, a: seq<T>, b: seq<T>)
    requires multiset(a) == multiset(b)
    ensures multiset(Each(f, a)) == multiset(Each(f, b))
  {
    assert |a| == |multiset(a)| && |b| == |multiset(b)|;
    if a == [] {
      assert Each(f, a) == Each(f, b);
    } else {
      var k := Extract(a, b);
      EachForgetsOrder(f, a[1..], b[..k] + b[k + 1..]);
      assert Each(f, a) == [f(a[0])] + Each(f, a[1..]);
      assert Each(f, b[..k] + b[k + 1..]) == Each(f, b[..k]) + Each(f, b[k + 1..]);
      assert Each(f, b) == Each(f, b[..k]) + [f(b[k])] + Each(f, b[k + 1..]);
    }
  }

  lemma {:induction false} KeepKept<T>(p: T -> bool, s: seq<T>)
    ensures forall x :: x in Keep(p, s) <==> x in s && p(x)
    ensures forall i :: 0 <= i < |Keep(p, s)| ==> p(Keep(p, s)[i])
    ensures |Keep(p, s)| == CountOf(p, s)
  {
    if s != [] {
      KeepKept(p, s[1..]);
      assert s == [s[0]] + s[1..];
    }
  }

  lemma {:induction false} KeepAll<T>(p: T -> bool, s: seq<T>)
    requires forall i :: 0 <= i < |s| ==> p(s[i])
    ensures Keep(p, s) == s
  {
    if s != [] {
      KeepAll(p, s[1..]);
    }
  }

  lemma SomeMember<T>(s: seq<T>)
    ensures s == [] || exists x :: x in s
  {
    if s != [] {
      assert s[0] in s;
    }
  }

  lemma KeepIsIdempotent<T>(p: T -> bool, s: seq<T>)
    ensures Keep(p, Keep(p, s)) == Keep(p, s)
  {
    KeepKept(p, s);
    KeepAll(p, Keep(p, s));
  }

  lemma {:induction false} SumOfBounds<T>(f: T -> real, s: seq<T>, low: real, high: real)
    requires forall i :: 0 <= i < |s| ==> low <= f(s[i]) <= high
    ensures low * |s| as real <= SumOf(f, s) <= high * |s| as real
  {
    if s != [] {
      SumOfBounds(f, s[1..], low, high);
      var n := |s[1..]| as real;
      assert |s| as real == n + 1.0;
      assert low * (n + 1.0) == low * n + low && high * (n + 1.0) == high * n + high;
    }
  }
}
