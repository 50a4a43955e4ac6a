/** The byte-wise string order of Go's sort package, and sorting by a string key. */
module Sorting {

  predicate StrLe(a: string, b: string) {
    a == "" || (b != "" && (a[0] < b[0] || (a[0] == b[0] && StrLe(a[1..], b[1..]))))
  }

  /** The order is that of the first place where the two differ; a prefix comes first. */
  lemma {:induction false} StrLeExactly(a: string, b: string)
    ensures StrLe(a, b) <==> a <= b || exists n: nat :: n < |a| && n < |b| && a[..n] == b[..n] && a[n] < b[n]
  {
    if a != "" && b != "" {
      if a[0] == b[0] {
        StrLeExactly(a[1..], b[1..]);
        assert a == [a[0]] + a[1..] && b == [b[0]] + b[1..];
        if n: nat :| n < |a[1..]| && n < |b[1..]| && a[1..][..n] == b[1..][..n] && a[1..][n] < b[1..][n] {
          assert a[..n + 1] == [a[0]] + a[1..][..n] && b[..n + 1] == [b[0]] + b[1..][..n];
          assert a[n + 1] < b[n + 1];
        }
        if n: nat :| n < |a| && n < |b| && a[..n] == b[..n] && a[n] < b[n] {
          assert n > 0;
          assert a[1..][..n - 1] == a[..n][1..] && b[1..][..n - 1] == b[..n][1..];
          assert a[1..][n - 1] < b[1..][n - 1];
        }
      } else {
        assert a[..0] == b[..0];
        assert !(a <= b);
        assert forall n: nat :: 0 < n < |a| && n < |b| ==> a[..n][0] != b[..n][0];
      }
    }
  }

  lemma {:induction false} StrLeTotal(a: string, b: string)
    ensures StrLe(a, b) || StrLe(b, a)
    ensures StrLe(a, a)
  {
    if a != "" {
      StrLeTotal(a[1..], a[1..]);
      if b != "" {
        StrLeTotal(a[1..], b[1..]);
      }
    }
  }

  lemma {:induction false} StrLeAntisymmetric(a: string, b: string)
    requires StrLe(a, b) && StrLe(b, a)
    ensures a == b
  {
    if a != "" {
      StrLeAntisymmetric(a[1..], b[1..]);
      assert a == [a[0]] + a[1..] && b == [b[0]] + b[1..];
    }
  }

  lemma {:induction false} StrLeTransitive(a: string, b: string, c: string)
    requires StrLe(a, b) && StrLe(b, c)
    ensures StrLe(a, c)
  {
    if a != "" && a[0] == b[0] == c[0] {
      StrLeTransitive(a[1..], b[1..], c[1..]);
    }
  }

  ghost predicate SortedBy<T>(xs: seq<T>, key: T -> string) {
    forall i, j :: 0 <= i < j < |xs| ==> StrLe(key(xs[i]), key(xs[j]))
  }

  /** Position at which x keeps a sorted prefix sorted. */
  method InsertionPoint<T>(xs: seq<T>, key: T -> string, x: T) returns (k: nat)
    requires SortedBy(xs, key)
    ensures k <= |xs|
    ensures forall i :: 0 <= i < k ==> StrLe(key(xs[i]), key(x))
    ensures forall i :: k <= i < |xs| ==> StrLe(key(x), key(xs[i]))
  {
    k := |xs|;
    while k > 0 && !StrLe(key(xs[k - 1]), key(x))
      invariant k <= |xs|
      invariant forall i :: k <= i < |xs| ==> StrLe(key(x), key(xs[i]))
    {
      StrLeTotal(key(xs[k - 1]), key(x));
      k := k - 1;
    }
    if k > 0 {
      forall i | 0 <= i < k ensures StrLe(key(xs[i]), key(x)) {
        if i < k - 1 {
          StrLeTransitive(key(xs[i]), key(xs[k - 1]), key(x));
        }
      }
    }
  }

  lemma InsertCounts<T>(xs: seq<T>, x: T, k: nat)
    requires k <= |xs|
    ensures multiset(xs[..k] + [x] + xs[k..]) == multiset(xs) + multiset{x}
  {
    assert xs == xs[..k] + xs[k..];
  }

  lemma InsertKeepsSorted<T>(xs: seq<T>, key: T -> string, x: T, k: nat)
    requires SortedBy(xs, key) && k <= |xs|
    requires forall i :: 0 <= i < k ==> StrLe(key(xs[i]), key(x))
    requires forall i :: k <= i < |xs| ==> StrLe(key(x), key(xs[i]))
    ensures SortedBy(xs[..k] + [x] + xs[k..], key)
  {
    hide StrLe;
    var ys := xs[..k] + [x] + xs[k..];
    forall i, j | 0 <= i < j < |ys| ensures StrLe(key(ys[i]), key(ys[j])) {
      var i' := if i < k then i else i - 1;
      var j' := if j < k then j else j - 1;
      assert i != k ==> ys[i] == xs[i'];
      assert j != k ==> ys[j] == xs[j'];
    }
  }

  method SortBy<T>(xs: seq<T>, key: T -> string) returns (ys: seq<T>)
    ensures SortedBy(ys, key) && multiset(ys) == multiset(xs)
  {
    hide StrLe;
    ys := [];
    for n := 0 to |xs|
      invariant SortedBy(ys, key) && multiset(ys) == multiset(xs[..n])
    {
      var k := InsertionPoint(ys, key, xs[n]);
      InsertKeepsSorted(ys, key, xs[n], k);
      InsertCounts(ys, xs[n], k);
      assert xs[..n + 1] == xs[..n] + [xs[n]];
      ys := ys[..k] + [xs[n]] + ys[k..];
    }
    assert xs[..|xs|] == xs;
  }

  lemma SamePermutation<T>(xs: seq<T>, ys: seq<T>)
    requires multiset(xs) == multiset(ys)
    ensures forall x :: x in xs <==> x in ys
  {
    assert forall x :: x in xs <==> x in multiset(xs);
    assert forall x :: x in ys <==> x in multiset(ys);
  }

  lemma DistinctPermutation<T>(xs: seq<T>, ys: seq<T>)
    requires multiset(xs) == multiset(ys)
    requires forall i, j :: 0 <= i < j < |xs| ==> xs[i] != xs[j]
    ensures forall i, j :: 0 <= i < j < |ys| ==> ys[i] != ys[j]
  {
    OnceEach(xs);
    forall i, j | 0 <= i < j < |ys| ensures ys[i] != ys[j] {
      TwiceCounts(ys, i, j);
    }
  }

  lemma {:induction false} OnceEach<T>(xs: seq<T>)
    requires forall i, j :: 0 <= i < j < |xs| ==> xs[i] != xs[j]
    ensures forall x :: multiset(xs)[x] <= 1
  {
    if xs != [] {
      var init, last := xs[..|xs| - 1], xs[|xs| - 1];
      OnceEach(init);
      assert xs == init + [last];
      assert last !in init;
    }
  }

  lemma TwiceCounts<T>(ys: seq<T>, i: nat, j: nat)
    requires i < j < |ys|
    ensures ys[i] == ys[j] ==> multiset(ys)[ys[i]] >= 2
  {
    if ys[i] == ys[j] {
      assert ys == ys[..i] + [ys[i]] + ys[i + 1..j] + [ys[j]] + ys[j + 1..];
    }
  }

  ghost predicate StrictlySorted(xs: seq<string>) {
    forall i, j :: 0 <= i < j < |xs| ==> StrLe(xs[i], xs[j]) && xs[i] != xs[j]
  }

  /** A strictly sorted list is determined by the strings in it. */
  lemma {:induction false} StrictlySortedUnique(xs: seq<string>, ys: seq<string>)
    requires StrictlySorted(xs) && StrictlySorted(ys)
    requires forall s :: s in xs <==> s in ys
    ensures xs == ys
  {
    hide StrLe;
    assert xs != [] ==> xs[0] in xs && xs[0] in ys;
    assert ys != [] ==> ys[0] in ys && ys[0] in xs;
    if xs != [] {
      var i :| 0 <= i < |ys| && ys[i] == xs[0];
      var j :| 0 <= j < |xs| && xs[j] == ys[0];
      if i > 0 && j > 0 {
        StrLeAntisymmetric(xs[0], ys[0]);
      }
      assert xs[0] == ys[0];
      forall s ensures s in xs[1..] <==> s in ys[1..] {
        assert s in xs <==> s == xs[0] || s in xs[1..];
        assert s in ys <==> s == ys[0] || s in ys[1..];
      }
      StrictlySortedUnique(xs[1..], ys[1..]);
      assert xs == [xs[0]] + xs[1..] && ys == [ys[0]] + ys[1..];
    }
  }
}
