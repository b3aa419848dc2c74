/** Small shared vocabulary: options, results, sums over sequences. */
module Prelude {

  datatype Option<+T> = None | Some(value: T) {
    predicate IsFailure() {
      None?
    }

    function PropagateFailure<U>(): Option<U>
      requires None?
    {
      None
    }

    function Extract(): T
      requires Some?
    {
      value
    }
  }

  datatype Result<+T, +E> = Ok(value: T) | Err(error: E)

  /** The largest magnitude of money the application accepts, in pence. */
  const MAX_MONEY_PENCE: int := 1_000_000_000_000

  ghost predicate Distinct<T>(s: seq<T>) {
    forall i, j :: 0 <= i < j < |s| ==> s[i] != s[j]
  }

  /** True when no value occurs twice. */
  predicate AllDifferent<T(==)>(s: seq<T>)
    ensures AllDifferent(s) <==> Distinct(s)
  {
    forall i, j :: 0 <= i < j < |s| ==> s[i] != s[j]
  }

  function Map<T, U>(s: seq<T>, f: T -> U): (r: seq<U>)
    ensures |r| == |s|
    ensures forall i :: 0 <= i < |s| ==> r[i] == f(s[i])
  {
    seq(|s|, i requires 0 <= i < |s| => f(s[i]))
  }

  /** How many elements satisfy a predicate. */
  function CountIf<T>(s: seq<T>, keep: T -> bool): nat {
    if s == [] then 0 else CountIf(s[..|s| - 1], keep) + if keep(s[|s| - 1]) then 1 else 0
  }

  lemma {:induction false} CountIfMore<T>(s: seq<T>, x: T, keep: T -> bool)
    ensures CountIf(s + [x], keep) == CountIf(s, keep) + if keep(x) then 1 else 0
  {
    assert (s + [x])[..|s|] == s;
  }

  lemma {:induction false} CountIfOrdered<T>(s: seq<T>, some: T -> bool, more: T -> bool)
    requires forall x :: x in s && some(x) ==> more(x)
    ensures CountIf(s, some) <= CountIf(s, more)
    ensures CountIf(s, some) == CountIf(s, more) <==> forall x :: x in s && more(x) ==> some(x)
    decreases |s|
  {
    if s != [] {
      var n := |s| - 1;
      assert s == s[..n] + [s[n]];
      CountIfOrdered(s[..n], some, more);
    }
  }

  lemma {:induction false} CountIfNone<T>(s: seq<T>, keep: T -> bool)
    ensures CountIf(s, keep) <= |s|
    ensures CountIf(s, keep) == 0 <==> forall x :: x in s ==> !keep(x)
    ensures CountIf(s, keep) == |s| <==> forall x :: x in s ==> keep(x)
    decreases |s|
  {
    if s != [] {
      var n := |s| - 1;
      assert s == s[..n] + [s[n]];
      CountIfNone(s[..n], keep);
    }
  }

  function SumBy<T>(s: seq<T>, f: T -> int): int {
    if s == [] then 0 else f(s[0]) + SumBy(s[1..], f)
  }

  lemma {:induction false} SumByAppend<T>(a: seq<T>, b: seq<T>, f: T -> int)
    ensures SumBy(a + b, f) == SumBy(a, f) + SumBy(b, f)
  {
    if a == [] {
      assert a + b == b;
    } else {
      assert (a + b)[0] == a[0] && (a + b)[1..] == a[1..] + b;
      SumByAppend(a[1..], b, f);
    }
  }

  lemma SumByNext<T>(s: seq<T>, i: nat, f: T -> int)
    requires i < |s|
    ensures SumBy(s[..i + 1], f) == SumBy(s[..i], f) + f(s[i])
  {
    assert s[..i + 1] == s[..i] + [s[i]];
    SumByAppend(s[..i], [s[i]], f);
  }

  lemma {:induction false} SumBySplit<T>(s: seq<T>, k: nat, f: T -> int)
    requires k < |s|
    ensures SumBy(s, f) == SumBy(s[..k], f) + f(s[k]) + SumBy(s[k + 1..], f)
  {
    assert s == s[..k] + ([s[k]] + s[k + 1..]);
    SumByAppend(s[..k], [s[k]] + s[k + 1..], f);
    assert ([s[k]] + s[k + 1..])[1..] == s[k + 1..];
  }

  /** A sum depends on the values summed, not on their order. */
  lemma {:induction false} SumByPermuted<T>(a: seq<T>, b: seq<T>, f: T -> int)
    requires multiset(a) == multiset(b)
    ensures SumBy(a, f) == SumBy(b, f)
  {
    if a == [] {
      assert |b| == |multiset(b)| == 0;
    } else {
      var k := RemoveHead(a, b);
      var rest := b[..k] + b[k + 1..];
      SumByPermuted(a[1..], rest, f);
      SumByAppend(b[..k], b[k + 1..], f);
      SumBySplit(b, k, f);
    }
  }

  lemma {:induction false} SumByAgree<T>(s: seq<T>, f: T -> int, g: T -> int)
    requires forall x :: x in s ==> f(x) == g(x)
    ensures SumBy(s, f) == SumBy(s, g)
  {
    if s != [] {
      SumByAgree(s[1..], f, g);
    }
  }

  lemma MapAppend<T, U>(a: seq<T>, b: seq<T>, f: T -> U)
    ensures Map(a + b, f) == Map(a, f) + Map(b, f)
  {
  }

  lemma TakeOut<T>(s: seq<T>, k: nat)
    requires k < |s|
    ensures s == s[..k] + [s[k]] + s[k + 1..]
    ensures multiset(s) == multiset{s[k]} + multiset(s[..k] + s[k + 1..])
  {
    assert s == s[..k] + [s[k]] + s[k + 1..];
  }

  lemma SameRest<T>(x: T, p: multiset<T>, q: multiset<T>)
    requires multiset{x} + p == multiset{x} + q
    ensures p == q
  {
    assert p == multiset{x} + p - multiset{x};
    assert q == multiset{x} + q - multiset{x};
  }

  lemma TakeHead<T>(s: seq<T>)
    requires s != []
    ensures multiset(s) == multiset{s[0]} + multiset(s[1..])
  {
    assert s == [s[0]] + s[1..];
  }

  /** Removing one occurrence of a value that another arrangement starts with. */
  lemma RemoveHead<T>(a: seq<T>, b: seq<T>) returns (k: nat)
    requires a != [] && multiset(a) == multiset(b)
    ensures k < |b| && b[k] == a[0]
    ensures b == b[..k] + [b[k]] + b[k + 1..]
    ensures multiset(a[1..]) == multiset(b[..k] + b[k + 1..])
  {
    assert a[0] in multiset(b);
    k :| 0 <= k < |b| && b[k] == a[0];
    TakeOut(b, k);
    TakeHead(a);
    SameRest(a[0], multiset(a[1..]), multiset(b[..k] + b[k + 1..]));
  }

  lemma {:induction false} MapPermuted<T, U>(a: seq<T>, b: seq<T>, f: T -> U)
    requires multiset(a) == multiset(b)
    ensures multiset(Map(a, f)) == multiset(Map(b, f))
  {
    if a == [] {
      assert |b| == |multiset(b)| == 0;
    } else {
      var k := RemoveHead(a, b);
      MapPermuted(a[1..], b[..k] + b[k + 1..], f);
      MapAppend(b[..k], b[k + 1..], f);
      assert Map(a, f) == [f(a[0])] + Map(a[1..], f);
      assert Map(b, f) == Map(b[..k], f) + [f(b[k])] + Map(b[k + 1..], f);
    }
  }

  /** Multiplying by a nonnegative number keeps the order. */
  lemma MulKeepsOrder(d: int, x: int, y: int)
    requires d >= 0
    ensures x <= y ==> d * x <= d * y
  {
  }

  lemma CountTwo<T>(s: seq<T>, i: nat, j: nat)
    requires i < j < |s| && s[i] == s[j]
    ensures multiset(s)[s[i]] >= 2
  {
    assert s == s[..i] + [s[i]] + s[i + 1..j] + [s[j]] + s[j + 1..];
  }

  lemma {:induction false} FindTwo<T>(s: seq<T>, x: T) returns (i: nat, j: nat)
    requires multiset(s)[x] >= 2
    ensures i < j < |s| && s[i] == x && s[j] == x
  {
    assert s == [s[0]] + s[1..];
    if s[0] == x {
      assert x in multiset(s[1..]);
      var k :| 0 <= k < |s[1..]| && s[1..][k] == x;
      i, j := 0, k + 1;
    } else {
      i, j := FindTwo(s[1..], x);
      i, j := i + 1, j + 1;
    }
  }

  lemma MembersPermuted<T>(a: seq<T>, b: seq<T>)
    requires multiset(a) == multiset(b)
    ensures |a| == |b| && forall x :: x in a <==> x in b
  {
    assert |a| == |multiset(a)| == |multiset(b)| == |b|;
    assert forall x :: x in a <==> x in multiset(a);
    assert forall x :: x in b <==> x in multiset(b);
  }

  lemma DistinctPermuted<T>(a: seq<T>, b: seq<T>)
    requires Distinct(a) && multiset(a) == multiset(b)
    ensures Distinct(b)
  {
    forall i, j | 0 <= i < j < |b|
      ensures b[i] != b[j]
    {
      if b[i] == b[j] {
        CountTwo(b, i, j);
        var m, n := FindTwo(a, b[i]);
      }
    }
  }

  /** Applies a partial function to every element; None when it fails on one of them. */
  function MapAll<T, U>(s: seq<T>, f: T -> Option<U>): Option<seq<U>> {
    if s == [] then Some([])
    else
      var first :- f(s[0]);
      var rest :- MapAll(s[1..], f);
      Some([first] + rest)
  }

  lemma MapAllOne<T, U>(x: T, f: T -> Option<U>)
    ensures MapAll([x], f) == if f(x).Some? then Some([f(x).value]) else None
  {
    assert [x][1..] == [];
    assert f(x).Some? ==> [f(x).value] + [] == [f(x).value];
  }

  lemma {:induction false} MapAllAppend<T, U>(a: seq<T>, b: seq<T>, f: T -> Option<U>)
    ensures MapAll(a + b, f) ==
            if MapAll(a, f).Some? && MapAll(b, f).Some?
            then Some(MapAll(a, f).value + MapAll(b, f).value) else None
  {
    if a == [] {
      assert a + b == b;
      assert MapAll(b, f).Some? ==> [] + MapAll(b, f).value == MapAll(b, f).value;
    } else {
      assert (a + b)[0] == a[0] && (a + b)[1..] == a[1..] + b;
      MapAllAppend(a[1..], b, f);
      if f(a[0]).Some? && MapAll(a[1..], f).Some? && MapAll(b, f).Some? {
        assert [f(a[0]).value] + (MapAll(a[1..], f).value + MapAll(b, f).value)
            == [f(a[0]).value] + MapAll(a[1..], f).value + MapAll(b, f).value;
      }
    }
  }

  /** What a successful application to every element means, element by element. */
  lemma {:induction false} MapAllAt<T, U>(s: seq<T>, f: T -> Option<U>)
    ensures MapAll(s, f).Some? <==> forall i :: 0 <= i < |s| ==> f(s[i]).Some?
    ensures MapAll(s, f).Some? ==>
              |MapAll(s, f).value| == |s| && forall i :: 0 <= i < |s| ==> f(s[i]) == Some(MapAll(s, f).value[i])
  {
    if s != [] {
      MapAllAt(s[1..], f);
      assert forall i :: 0 <= i < |s| - 1 ==> s[1..][i] == s[i + 1];
      if MapAll(s, f).Some? {
        forall i | 0 <= i < |s|
          ensures f(s[i]) == Some(MapAll(s, f).value[i])
        {
          if i > 0 { assert s[i] == s[1..][i - 1]; }
        }
      }
    }
  }

  // ----- exact sums -----

  function SumReal<T>(s: seq<T>, f: T -> real): real {
    if s == [] then 0.0 else f(s[0]) + SumReal(s[1..], f)
  }

  lemma {:induction false} SumRealAppend<T>(a: seq<T>, b: seq<T>, f: T -> real)
    ensures SumReal(a + b, f) == SumReal(a, f) + SumReal(b, f)
  {
    if a == [] {
      assert a + b == b;
    } else {
      assert (a + b)[0] == a[0] && (a + b)[1..] == a[1..] + b;
      SumRealAppend(a[1..], b, f);
    }
  }

  lemma SumRealOne<T>(x: T, f: T -> real)
    ensures SumReal([x], f) == f(x)
  {
    assert [x][1..] == [];
  }

  lemma {:induction false} SumRealAgree<T>(s: seq<T>, f: T -> real, g: T -> real)
    requires forall x :: x in s ==> f(x) == g(x)
    ensures SumReal(s, f) == SumReal(s, g)
  {
    if s != [] {
      SumRealAgree(s[1..], f, g);
    }
  }

  lemma {:induction false} SumRealAdd<T>(s: seq<T>, f: T -> real, g: T -> real, h: T -> real)
    requires forall x :: x in s ==> h(x) == f(x) + g(x)
    ensures SumReal(s, h) == SumReal(s, f) + SumReal(s, g)
  {
    if s != [] {
      SumRealAdd(s[1..], f, g, h);
    }
  }

  lemma {:induction false} SumRealScale<T>(s: seq<T>, k: real, f: T -> real, g: T -> real)
    requires forall x :: x in s ==> g(x) == k * f(x)
    ensures SumReal(s, g) == k * SumReal(s, f)
  {
    if s != [] {
      SumRealScale(s[1..], k, f, g);
      assert k * (f(s[0]) + SumReal(s[1..], f)) == k * f(s[0]) + k * SumReal(s[1..], f);
    }
  }

  lemma {:induction false} SumRealMap<T, U>(s: seq<T>, f: T -> U, g: U -> real, h: T -> real)
    requires forall x :: x in s ==> g(f(x)) == h(x)
    ensures SumReal(Map(s, f), g) == SumReal(s, h)
  {
    if s != [] {
      assert Map(s, f)[1..] == Map(s[1..], f);
      assert s[0] in s && forall x :: x in s[1..] ==> x in s;
      SumRealMap(s[1..], f, g, h);
    }
  }

  lemma {:induction false} SumRealNonneg<T>(s: seq<T>, f: T -> real)
    requires forall x :: x in s ==> f(x) >= 0.0
    ensures SumReal(s, f) >= 0.0
    ensures forall x :: x in s ==> f(x) <= SumReal(s, f)
  {
    if s != [] {
      assert forall x :: x in s[1..] ==> x in s;
      SumRealNonneg(s[1..], f);
      assert forall x :: x in s ==> x == s[0] || x in s[1..];
    }
  }

  lemma SumRealUpdate<T>(s: seq<T>, k: nat, x: T, f: T -> real)
    requires k < |s|
    ensures SumReal(s[k := x], f) == SumReal(s, f) - f(s[k]) + f(x)
  {
    var t := s[k := x];
    assert s == s[..k] + ([s[k]] + s[k + 1..]);
    assert t == s[..k] + ([x] + s[k + 1..]);
    SumRealAppend(s[..k], [s[k]] + s[k + 1..], f);
    SumRealAppend([s[k]], s[k + 1..], f);
    SumRealAppend(s[..k], [x] + s[k + 1..], f);
    SumRealAppend([x], s[k + 1..], f);
    SumRealOne(s[k], f);
    SumRealOne(x, f);
  }

  function Filter<T(!new)>(s: seq<T>, p: T -> bool): (r: seq<T>)
    ensures forall x :: x in r <==> x in s && p(x)
  {
    if s == [] then []
    else if p(s[0]) then [s[0]] + Filter(s[1..], p)
    else Filter(s[1..], p)
  }

  lemma {:induction false} FilterAppend<T(!new)>(a: seq<T>, b: seq<T>, p: T -> bool)
    ensures Filter(a + b, p) == Filter(a, p) + Filter(b, p)
  {
    if a == [] {
      assert a + b == b;
    } else {
      assert (a + b)[0] == a[0] && (a + b)[1..] == a[1..] + b;
      FilterAppend(a[1..], b, p);
    }
  }

  lemma {:induction false} FilterPermuted<T(!new)>(a: seq<T>, b: seq<T>, p: T -> bool)
    requires multiset(a) == multiset(b)
    ensures multiset(Filter(a, p)) == multiset(Filter(b, p))
  {
    if a == [] {
      assert |b| == |multiset(b)| == 0;
    } else {
      var k := RemoveHead(a, b);
      FilterPermuted(a[1..], b[..k] + b[k + 1..], p);
      FilterAppend(b[..k], b[k + 1..], p);
      FilterAppend(b[..k], [b[k]] + b[k + 1..], p);
      assert ([b[k]] + b[k + 1..])[1..] == b[k + 1..];
      assert b == b[..k] + ([b[k]] + b[k + 1..]);
    }
  }

  lemma {:induction false} DistinctCount<T>(s: seq<T>, x: T)
    requires Distinct(s)
    ensures multiset(s)[x] == if x in s then 1 else 0
  {
    if x in s {
      assert x in multiset(s);
      if multiset(s)[x] >= 2 {
        var i, j := FindTwo(s, x);
      }
    } else {
      assert x !in multiset(s);
    }
  }

  /** Two arrangements without repetition of the same elements are permutations of each other. */
  lemma DistinctSameElements<T>(a: seq<T>, b: seq<T>)
    requires Distinct(a) && Distinct(b) && forall x :: x in a <==> x in b
    ensures multiset(a) == multiset(b)
  {
    forall x
      ensures multiset(a)[x] == multiset(b)[x]
    {
      DistinctCount(a, x);
      DistinctCount(b, x);
    }
  }
}
