// Stable sorting by a strict weak order, and the string order of compareStrings.
module Orders {

  ghost predicate StrictWeak<T(!new)>(less: (T, T) -> bool) {
    && (forall a, b :: less(a, b) ==> !less(b, a))
    && (forall a, b, c :: !less(a, b) && !less(b, c) ==> !less(a, c))
  }

  /** Distinct elements of `s` are ordered one way or the other. */
  ghost predicate Separates<T(!new)>(less: (T, T) -> bool, s: seq<T>) {
    forall a, b :: a in s && b in s && a != b ==> less(a, b) || less(b, a)
  }

  ghost predicate Sorted<T(!new)>(less: (T, T) -> bool, s: seq<T>) {
    forall i, j | 0 <= i < j < |s| :: !less(s[j], s[i])
  }

  /** Insert after every element that is not greater: later equals stay later. */
  function Insert<T>(less: (T, T) -> bool, x: T, s: seq<T>): (r: seq<T>)
    ensures multiset(r) == multiset(s) + multiset{x}
    ensures |r| == |s| + 1
  {
    if s == [] then [x]
    else if less(x, s[0]) then [x] + s
    else
      assert s == [s[0]] + s[1..];
      [s[0]] + Insert(less, x, s[1..])
  }

  function Sort<T>(less: (T, T) -> bool, s: seq<T>): (r: seq<T>)
    ensures multiset(r) == multiset(s)
    ensures |r| == |s|
  {
    if s == [] then []
    else
      assert s == s[..|s| - 1] + [s[|s| - 1]];
      Insert(less, s[|s| - 1], Sort(less, s[..|s| - 1]))
  }

  lemma {:induction false} Pick<T>(s: set<T>) returns (x: T)
    requires s != {}
    ensures x in s
  {
    x :| x in s;
  }

  lemma {:induction false} SameElements<T>(s: seq<T>, t: seq<T>)
    requires multiset(s) == multiset(t)
    ensures |s| == |t|
    ensures forall x :: x in s <==> x in t
  {
    assert |s| == |multiset(s)| && |t| == |multiset(t)|;
    forall x ensures x in s <==> x in t {
      assert x in s <==> x in multiset(s);
      assert x in t <==> x in multiset(t);
    }
  }

  lemma {:induction false} InsertSorted<T(!new)>(less: (T, T) -> bool, x: T, s: seq<T>)
    requires StrictWeak(less) && Sorted(less, s)
    ensures Sorted(less, Insert(less, x, s))
  {
    if s != [] && !less(x, s[0]) {
      InsertSorted(less, x, s[1..]);
      var tail := Insert(less, x, s[1..]);
      SameElements(tail, s[1..] + [x]);
      forall j | 0 <= j < |tail| ensures !less(tail[j], s[0]) {
        assert tail[j] in s[1..] + [x];
      }
    }
  }

  lemma {:induction false} SortSorted<T(!new)>(less: (T, T) -> bool, s: seq<T>)
    requires StrictWeak(less)
    ensures Sorted(less, Sort(less, s))
  {
    if s == [] {
    } else {
      SortSorted(less, s[..|s| - 1]);
      InsertSorted(less, s[|s| - 1], Sort(less, s[..|s| - 1]));
    }
  }

  lemma {:induction false} InsertLast<T(!new)>(less: (T, T) -> bool, x: T, s: seq<T>)
    requires forall i | 0 <= i < |s| :: !less(x, s[i])
    ensures Insert(less, x, s) == s + [x]
  {
    if s == [] {
    } else {
      InsertLast(less, x, s[1..]);
    }
  }

  /** Sorting leaves a sorted sequence alone. */
  lemma {:induction false} SortFixpoint<T(!new)>(less: (T, T) -> bool, s: seq<T>)
    requires Sorted(less, s)
    ensures Sort(less, s) == s
  {
    if s == [] {
    } else {
      var front := s[..|s| - 1];
      SortFixpoint(less, front);
      InsertLast(less, s[|s| - 1], front);
    }
  }

  lemma {:induction false} LastSame<T(!new)>(less: (T, T) -> bool, s: seq<T>, t: seq<T>)
    requires Sorted(less, s) && Sorted(less, t)
    requires multiset(s) == multiset(t)
    requires Separates(less, s)
    requires s != []
    ensures |s| == |t| && s[|s| - 1] == t[|t| - 1]
  {
    SameElements(s, t);
    var x, y := s[|s| - 1], t[|t| - 1];
    assert x in t && y in s;
    var i :| 0 <= i < |t| && t[i] == x;
    var j :| 0 <= j < |s| && s[j] == y;
    if i < |t| - 1 && j < |s| - 1 {
      assert !less(y, x) && !less(x, y);
    }
  }

  lemma {:induction false} SortedPrefix<T(!new)>(less: (T, T) -> bool, s: seq<T>, n: nat)
    requires n <= |s|
    ensures Sorted(less, s) ==> Sorted(less, s[..n])
    ensures Separates(less, s) ==> Separates(less, s[..n])
  {
    assert forall x | x in s[..n] :: x in s;
  }

  lemma {:induction false} DropLast<T>(s: seq<T>)
    requires s != []
    ensures multiset(s[..|s| - 1]) == multiset(s) - multiset{s[|s| - 1]}
  {
    assert s == s[..|s| - 1] + [s[|s| - 1]];
  }

  lemma {:induction false} FirstIsAt<T>(s: seq<T>, t: seq<T>) returns (j: nat)
    requires s != [] && multiset(s) == multiset(t)
    ensures j < |t| && t[j] == s[0]
  {
    SameElements(s, t);
    assert s[0] in t;
    j :| 0 <= j < |t| && t[j] == s[0];
  }

  lemma {:induction false} Without<T>(s: seq<T>, i: nat)
    requires i < |s|
    ensures multiset(s[..i] + s[i + 1..]) == multiset(s) - multiset{s[i]}
  {
    assert s == s[..i] + [s[i]] + s[i + 1..];
  }

  lemma {:induction false} RestsAgree<T>(s: seq<T>, i: nat, t: seq<T>, j: nat)
    requires multiset(s) == multiset(t) && i < |s| && j < |t| && s[i] == t[j]
    ensures multiset(s[..i] + s[i + 1..]) == multiset(t[..j] + t[j + 1..])
    ensures |s[..i] + s[i + 1..]| < |s|
  {
    Without(s, i);
    Without(t, j);
  }

  function Map<A, B>(f: A -> B, s: seq<A>): (r: seq<B>)
    ensures |r| == |s| && forall i | 0 <= i < |s| :: r[i] == f(s[i])
  {
    seq(|s|, i requires 0 <= i < |s| => f(s[i]))
  }

  lemma {:induction false} MapWithout<A, B>(f: A -> B, s: seq<A>, i: nat)
    requires i < |s|
    ensures multiset(Map(f, s[..i] + s[i + 1..])) == multiset(Map(f, s)) - multiset{f(s[i])}
    ensures f(s[i]) in multiset(Map(f, s))
  {
    Without(Map(f, s), i);
    assert Map(f, s)[i] in Map(f, s);
    assert Map(f, s[..i] + s[i + 1..]) == Map(f, s)[..i] + Map(f, s)[i + 1..];
  }

  lemma {:induction false} PutBack<T>(a: multiset<T>, b: multiset<T>, x: T)
    requires x in a && x in b && a - multiset{x} == b - multiset{x}
    ensures a == b
  {
    assert a == (a - multiset{x}) + multiset{x} && b == (b - multiset{x}) + multiset{x};
  }

  lemma {:induction false} MapTogether<A, B>(f: A -> B, s: seq<A>, i: nat, t: seq<A>, j: nat)
    requires i < |s| && j < |t| && s[i] == t[j]
    requires multiset(Map(f, s[..i] + s[i + 1..])) == multiset(Map(f, t[..j] + t[j + 1..]))
    ensures multiset(Map(f, s)) == multiset(Map(f, t))
  {
    MapWithout(f, s, i);
    MapWithout(f, t, j);
    PutBack(multiset(Map(f, s)), multiset(Map(f, t)), f(s[i]));
  }

  /** A function applied throughout keeps permutations. */
  lemma {:induction false} MapPermute<A, B>(f: A -> B, s: seq<A>, t: seq<A>)
    requires multiset(s) == multiset(t)
    ensures multiset(Map(f, s)) == multiset(Map(f, t))
    decreases |s|
  {
    if s == [] {
      SameElements(s, t);
    } else {
      var j := FirstIsAt(s, t);
      RestsAgree(s, 0, t, j);
      MapPermute(f, s[..0] + s[1..], t[..j] + t[j + 1..]);
      MapTogether(f, s, 0, t, j);
    }
  }

  /** Two sorted arrangements of the same separated elements are the same. */
  lemma {:induction false} SortedUnique<T(!new)>(less: (T, T) -> bool, s: seq<T>, t: seq<T>)
    requires Sorted(less, s) && Sorted(less, t)
    requires multiset(s) == multiset(t)
    requires Separates(less, s)
    ensures s == t
    decreases |s|
  {
    if s == [] {
      assert |multiset(t)| == 0;
    } else {
      LastSame(less, s, t);
      var n := |s| - 1;
      SortedPrefix(less, s, n);
      SortedPrefix(less, t, n);
      DropLast(s);
      DropLast(t);
      SortedUnique(less, s[..n], t[..n]);
      assert s == s[..n] + [s[n]] && t == t[..n] + [t[n]];
    }
  }

  /** The arrival order of separated elements does not matter. */
  lemma {:induction false} SortPermutation<T(!new)>(less: (T, T) -> bool, s: seq<T>, t: seq<T>)
    requires StrictWeak(less) && Separates(less, s)
    requires multiset(s) == multiset(t)
    ensures Sort(less, s) == Sort(less, t)
  {
    SortSorted(less, s);
    SortSorted(less, t);
    SameElements(s, Sort(less, s));
    SortedUnique(less, Sort(less, s), Sort(less, t));
  }

  /** Comparing by a key inherits the order of the keys. */
  lemma {:induction false} KeyedWeak<T(!new), K(!new)>(less: (K, K) -> bool, key: T -> K, keyed: (T, T) -> bool)
    requires StrictWeak(less)
    requires forall a, b :: keyed(a, b) == less(key(a), key(b))
    ensures StrictWeak(keyed)
  {
  }

  /** compareStrings(a, b) < 0: lexicographic by code unit. */
  predicate StrLess(a: string, b: string) {
    b != [] && (a == [] || a[0] < b[0] || (a[0] == b[0] && StrLess(a[1..], b[1..])))
  }

  lemma {:induction false} StrTotal(a: string, b: string)
    ensures a == b || StrLess(a, b) || StrLess(b, a)
    ensures !(StrLess(a, b) && StrLess(b, a))
  {
    if a != [] && b != [] {
      StrTotal(a[1..], b[1..]);
      assert a == [a[0]] + a[1..] && b == [b[0]] + b[1..];
    }
  }

  lemma {:induction false} StrTrans(a: string, b: string, c: string)
    requires StrLess(a, b) && StrLess(b, c)
    ensures StrLess(a, c)
  {
    if a != [] && a[0] == b[0] == c[0] {
      StrTrans(a[1..], b[1..], c[1..]);
    }
  }

  lemma {:induction false} StrStrictWeak()
    ensures StrictWeak(StrLess)
  {
    forall a, b | StrLess(a, b) ensures !StrLess(b, a) { StrTotal(a, b); }
    forall a, b, c | !StrLess(a, b) && !StrLess(b, c) ensures !StrLess(a, c) {
      StrTotal(a, b);
      StrTotal(b, c);
      if StrLess(a, c) && StrLess(b, a) && StrLess(c, b) { StrTrans(c, b, a); StrTotal(a, c); }
    }
  }

  /** `a.key - b.key || compareStrings(a.id, b.id)`. */
  predicate IntThenStr(a: (int, string), b: (int, string)) {
    a.0 < b.0 || (a.0 == b.0 && StrLess(a.1, b.1))
  }

  predicate RealThenStr(a: (real, string), b: (real, string)) {
    a.0 < b.0 || (a.0 == b.0 && StrLess(a.1, b.1))
  }

  lemma {:induction false} IntThenStrWeak()
    ensures StrictWeak(IntThenStr)
    ensures forall a, b :: a != b ==> IntThenStr(a, b) || IntThenStr(b, a)
  {
    StrStrictWeak();
    forall a: (int, string), b: (int, string) | a != b ensures IntThenStr(a, b) || IntThenStr(b, a) { StrTotal(a.1, b.1); }
  }
}
