/** The stable library sort the repository relies on, and what fixes its result. */
module Sorting {
  import opened Prelude

  ghost predicate TotalPreorder<T(!new)>(le: (T, T) -> bool) {
    && (forall x, y :: le(x, y) || le(y, x))
    && (forall x, y, z :: le(x, y) && le(y, z) ==> le(x, z))
  }

  ghost predicate Sorted<T>(s: seq<T>, le: (T, T) -> bool) {
    forall i, j :: 0 <= i < j < |s| ==> le(s[i], s[j])
  }

  /** No two different elements of the sequence tie. */
  ghost predicate TieFree<T>(s: seq<T>, le: (T, T) -> bool) {
    forall x, y :: x in s && y in s && le(x, y) && le(y, x) ==> x == y
  }

  lemma SortedAt<T>(s: seq<T>, le: (T, T) -> bool, i: nat, j: nat)
    requires Sorted(s, le) && i < j < |s|
    ensures le(s[i], s[j])
  {
  }

  function Insert<T>(x: T, s: seq<T>, le: (T, T) -> bool): seq<T> {
    if s == [] || le(x, s[0]) then [x] + s else [s[0]] + Insert(x, s[1..], le)
  }

  /** Stable: an element is placed before the later ones it ties with. */
  function Sort<T>(s: seq<T>, le: (T, T) -> bool): seq<T> {
    if s == [] then [] else Insert(s[0], Sort(s[1..], le), le)
  }

  lemma {:induction false} InsertPermutes<T>(x: T, s: seq<T>, le: (T, T) -> bool)
    ensures multiset(Insert(x, s, le)) == multiset{x} + multiset(s)
  {
    if s != [] && !le(x, s[0]) {
      InsertPermutes(x, s[1..], le);
      assert s == [s[0]] + s[1..];
    }
  }

  lemma {:induction false} SortPermutes<T>(s: seq<T>, le: (T, T) -> bool)
    ensures multiset(Sort(s, le)) == multiset(s)
    ensures |Sort(s, le)| == |s|
  {
    if s != [] {
      SortPermutes(s[1..], le);
      InsertPermutes(s[0], Sort(s[1..], le), le);
      assert s == [s[0]] + s[1..];
    }
    assert |multiset(Sort(s, le))| == |multiset(s)|;
  }

  lemma {:induction false} InsertSorted<T(!new)>(x: T, s: seq<T>, le: (T, T) -> bool)
    requires TotalPreorder(le) && Sorted(s, le)
    ensures Sorted(Insert(x, s, le), le)
  {
    if s != [] && !le(x, s[0]) {
      InsertSorted(x, s[1..], le);
      InsertPermutes(x, s[1..], le);
      var rest := Insert(x, s[1..], le);
      forall j | 0 <= j < |rest|
        ensures le(s[0], rest[j])
      {
        assert rest[j] in multiset(rest);
        assert rest[j] == x || rest[j] in s[1..];
      }
    }
  }

  lemma {:induction false} SortSorts<T(!new)>(s: seq<T>, le: (T, T) -> bool)
    requires TotalPreorder(le)
    ensures Sorted(Sort(s, le), le)
  {
    if s != [] {
      SortSorts(s[1..], le);
      InsertSorted(s[0], Sort(s[1..], le), le);
    }
  }

  lemma HeadsAgree<T(!new)>(a: seq<T>, b: seq<T>, le: (T, T) -> bool)
    requires Sorted(a, le) && Sorted(b, le)
    requires a != [] && b != [] && a[0] in b && b[0] in a
    requires TieFree(a, le)
    ensures a[0] == b[0]
  {
    var i :| 0 <= i < |b| && b[i] == a[0];
    var j :| 0 <= j < |a| && a[j] == b[0];
    if i != 0 && j != 0 {
      assert le(b[0], b[i]) && le(a[0], a[j]);
    }
  }

  lemma TailMultiset<T>(a: seq<T>)
    requires a != []
    ensures multiset(a[1..]) == multiset(a) - multiset{a[0]}
  {
    assert a == [a[0]] + a[1..];
  }

  /** Two sorted arrangements of the same tie-free values are the same sequence. */
  lemma {:induction false} SortedUnique<T(!new)>(a: seq<T>, b: seq<T>, le: (T, T) -> bool)
    requires Sorted(a, le) && Sorted(b, le)
    requires multiset(a) == multiset(b)
    requires TieFree(a, le)
    ensures a == b
  {
    assert |a| == |multiset(a)| == |multiset(b)| == |b|;
    if a != [] {
      assert a[0] in multiset(b) && b[0] in multiset(a);
      HeadsAgree(a, b, le);
      TailMultiset(a);
      TailMultiset(b);
      SortedUnique(a[1..], b[1..], le);
    }
  }

  /** Sorting forgets the arrival order of tie-free values. */
  lemma {:induction false} SortForgetsOrder<T(!new)>(a: seq<T>, b: seq<T>, le: (T, T) -> bool)
    requires TotalPreorder(le)
    requires multiset(a) == multiset(b)
    requires TieFree(a, le)
    ensures Sort(a, le) == Sort(b, le)
  {
    SortPermutes(a, le);
    SortPermutes(b, le);
    SortSorts(a, le);
    SortSorts(b, le);
    forall x, y | x in Sort(a, le) && y in Sort(a, le) && le(x, y) && le(y, x)
      ensures x == y
    {
      assert x in multiset(Sort(a, le)) && y in multiset(Sort(a, le));
    }
    SortedUnique(Sort(a, le), Sort(b, le), le);
  }

  /** Two values that do not tie (or are equal) may be inserted in either order. */
  lemma {:induction false} InsertCommutes<T(!new)>(x: T, y: T, s: seq<T>, le: (T, T) -> bool)
    requires TotalPreorder(le) && (le(x, y) && le(y, x) ==> x == y)
    ensures Insert(x, Insert(y, s, le), le) == Insert(y, Insert(x, s, le), le)
  {
    if x != y && s != [] {
      var first := s[0];
      InsertCommutes(x, y, s[1..], le);
      assert ([x] + s)[1..] == s && ([y] + s)[1..] == s;
      if !le(x, first) && !le(y, first) {
        assert ([first] + Insert(x, s[1..], le))[1..] == Insert(x, s[1..], le);
        assert ([first] + Insert(y, s[1..], le))[1..] == Insert(y, s[1..], le);
      } else if le(x, first) && !le(y, first) {
        assert ([first] + Insert(y, s[1..], le))[1..] == Insert(y, s[1..], le);
      } else if le(y, first) && !le(x, first) {
        assert ([first] + Insert(x, s[1..], le))[1..] == Insert(x, s[1..], le);
      }
    } else if s == [] {
      assert ([x] + s)[1..] == [] && ([y] + s)[1..] == [];
    }
  }

  lemma {:induction false} SortPulls<T(!new)>(pre: seq<T>, x: T, rest: seq<T>, le: (T, T) -> bool)
    requires TotalPreorder(le) && forall y :: y in pre && le(x, y) && le(y, x) ==> x == y
    ensures Sort(pre + [x] + rest, le) == Insert(x, Sort(pre + rest, le), le)
  {
    if pre == [] {
      assert pre + [x] + rest == [x] + rest && pre + rest == rest;
      assert ([x] + rest)[1..] == rest;
    } else {
      assert (pre + [x] + rest)[1..] == pre[1..] + [x] + rest;
      assert (pre + rest)[1..] == pre[1..] + rest;
      assert pre[0] in pre;
      SortPulls(pre[1..], x, rest, le);
      InsertCommutes(x, pre[0], Sort(pre[1..] + rest, le), le);
    }
  }

  /** A tie-free front part may be permuted before a stable sort, even if it ties with the rest. */
  lemma {:induction false} SortForgetsFront<T(!new)>(a: seq<T>, b: seq<T>, rest: seq<T>, le: (T, T) -> bool)
    requires TotalPreorder(le) && multiset(a) == multiset(b) && TieFree(a, le)
    ensures Sort(a + rest, le) == Sort(b + rest, le)
    decreases |a|
  {
    if a == [] {
      assert |b| == |multiset(b)| == 0;
    } else {
      var k := RemoveHead(a, b);
      assert (a + rest)[0] == a[0] && (a + rest)[1..] == a[1..] + rest;
      SortForgetsFront(a[1..], b[..k] + b[k + 1..], rest, le);
      assert b[..k] + b[k + 1..] + rest == b[..k] + (b[k + 1..] + rest);
      assert b + rest == b[..k] + [b[k]] + (b[k + 1..] + rest);
      forall y | y in b[..k]
        ensures y in a
      {
        assert y in multiset(b);
      }
      SortPulls(b[..k], b[k], b[k + 1..] + rest, le);
    }
  }

  lemma {:induction false} InsertMap<T, U>(x: T, s: seq<T>, f: T -> U, le: (T, T) -> bool, le': (U, U) -> bool)
    requires forall y :: y in s ==> le(x, y) == le'(f(x), f(y))
    ensures Insert(f(x), Map(s, f), le') == Map(Insert(x, s, le), f)
  {
    if s != [] && !le(x, s[0]) {
      assert Map(s, f)[1..] == Map(s[1..], f);
      InsertMap(x, s[1..], f, le, le');
      assert Map([s[0]] + Insert(x, s[1..], le), f) == [f(s[0])] + Map(Insert(x, s[1..], le), f);
    } else {
      assert Map([x] + s, f) == [f(x)] + Map(s, f);
    }
  }

  /** Sorting commutes with a mapping that keeps the order. */
  lemma {:induction false} SortMap<T, U>(s: seq<T>, f: T -> U, le: (T, T) -> bool, le': (U, U) -> bool)
    requires forall x, y :: x in s && y in s ==> le(x, y) == le'(f(x), f(y))
    ensures Sort(Map(s, f), le') == Map(Sort(s, le), f)
  {
    if s != [] {
      assert Map(s, f)[1..] == Map(s[1..], f);
      SortMap(s[1..], f, le, le');
      SortPermutes(s[1..], le);
      forall y | y in Sort(s[1..], le)
        ensures y in s
      {
        assert y in multiset(s[1..]);
      }
      InsertMap(s[0], Sort(s[1..], le), f, le, le');
    }
  }

  lemma {:induction false} InsertTogether<T(!new)>(x: T, y: T, s: seq<T>, t: seq<T>, alike: (T, T) -> bool, le: (T, T) -> bool)
    requires alike(x, y) && |s| == |t| && forall i :: 0 <= i < |s| ==> alike(s[i], t[i])
    requires forall a, b, c, d :: alike(a, b) && alike(c, d) ==> le(a, c) == le(b, d)
    ensures |Insert(x, s, le)| == |Insert(y, t, le)|
    ensures forall i :: 0 <= i < |Insert(x, s, le)| ==> alike(Insert(x, s, le)[i], Insert(y, t, le)[i])
  {
    if s != [] {
      assert alike(s[0], t[0]) && le(x, s[0]) == le(y, t[0]);
      InsertTogether(x, y, s[1..], t[1..], alike, le);
    }
  }

  /** Sorting keeps two lists alike, element by element, when the order cannot tell them apart. */
  lemma {:induction false} SortTogether<T(!new)>(s: seq<T>, t: seq<T>, alike: (T, T) -> bool, le: (T, T) -> bool)
    requires |s| == |t| && forall i :: 0 <= i < |s| ==> alike(s[i], t[i])
    requires forall a, b, c, d :: alike(a, b) && alike(c, d) ==> le(a, c) == le(b, d)
    ensures |Sort(s, le)| == |Sort(t, le)|
    ensures forall i :: 0 <= i < |Sort(s, le)| ==> alike(Sort(s, le)[i], Sort(t, le)[i])
  {
    if s != [] {
      SortTogether(s[1..], t[1..], alike, le);
      InsertTogether(s[0], t[0], Sort(s[1..], le), Sort(t[1..], le), alike, le);
    }
  }
}
