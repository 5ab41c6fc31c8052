/** Facts about finite sets and sequences that several modules need. */
module Collections {
  function Indices(n: nat): (r: set<nat>)
    ensures forall j: nat :: j in r <==> j < n
    ensures |r| == n
  {
    if n == 0 then {} else Indices(n - 1) + {n - 1}
  }

  lemma {:induction false} Smaller(a: set<nat>, b: set<nat>)
    requires a <= b
    ensures |a| <= |b|
  {
    assert b == a + (b - a);
  }

  /** The numbers from `lo` up to, not including, `hi`. */
  function Range(lo: nat, hi: nat): (r: set<nat>)
    requires lo <= hi
    ensures forall x: nat :: x in r <==> lo <= x < hi
    ensures |r| == hi - lo
  {
    Smaller(Indices(lo), Indices(hi));
    assert Indices(hi) == (Indices(hi) - Indices(lo)) + Indices(lo);
    Indices(hi) - Indices(lo)
  }

  /** A number that is not taken. */
  lemma {:induction false} NewId(ids: set<nat>) returns (q: nat)
    ensures q !in ids
  {
    if Indices(|ids| + 1) <= ids {
      Smaller(Indices(|ids| + 1), ids);
      assert false;
    } else {
      q :| q in Indices(|ids| + 1) && q !in ids;
    }
  }

  ghost predicate Distinct<T(!new)>(s: seq<T>) {
    forall i, j | 0 <= i < j < |s| :: s[i] != s[j]
  }

  lemma {:induction false} ConcatLast<T>(s: seq<T>, x: T)
    ensures (s + [x])[..|s|] == s && (s + [x])[|s|] == x
  {}

  lemma {:induction false} TakeNext<T>(s: seq<T>, k: nat)
    requires k < |s|
    ensures s[..k + 1] == s[..k] + [s[k]]
  {}

  lemma {:induction false} DropNext<T>(s: seq<T>, k: nat)
    requires k < |s|
    ensures s[k..] == [s[k]] + s[k + 1..]
  {}

  function Without<T>(s: seq<T>, k: nat): seq<T>
    requires k < |s|
  {
    s[..k] + s[k + 1..]
  }

  lemma {:induction false} WithoutMultiset<T>(s: seq<T>, k: nat)
    requires k < |s|
    ensures multiset(s) == multiset(Without(s, k)) + multiset{s[k]}
  {
    assert s == s[..k] + ([s[k]] + s[k + 1..]);
  }

  /** Where a permutation keeps the element at `i`, and that the rest is a permutation of the rest. */
  lemma {:induction false} SameElement<T>(a: seq<T>, b: seq<T>, i: nat) returns (k: nat)
    requires multiset(a) == multiset(b) && i < |a|
    ensures k < |b| && b[k] == a[i] && multiset(Without(a, i)) == multiset(Without(b, k))
  {
    assert a[i] in multiset(a);
    k :| 0 <= k < |b| && b[k] == a[i];
    WithoutMultiset(a, i);
    WithoutMultiset(b, k);
    assert multiset(Without(a, i)) == multiset(a) - multiset{a[i]} == multiset(Without(b, k));
  }

  lemma {:induction false} DistinctConcat<T(!new)>(a: seq<T>, b: seq<T>)
    requires Distinct(a) && Distinct(b) && forall x | x in a :: x !in b
    ensures Distinct(a + b)
  {
    forall i, j | 0 <= i < j < |a + b| ensures (a + b)[i] != (a + b)[j] {
      if i < |a| <= j {
        assert a[i] in a && b[j - |a|] in b;
      }
    }
  }

  lemma {:induction false} DistinctMultiset<T(!new)>(s: seq<T>)
    requires Distinct(s)
    ensures forall x :: multiset(s)[x] == if x in s then 1 else 0
  {
    if s != [] {
      DistinctMultiset(s[1..]);
      assert s == [s[0]] + s[1..];
      assert s[0] !in s[1..];
    }
  }

  lemma {:induction false} SameMembers<T(!new)>(a: seq<T>, b: seq<T>)
    requires Distinct(a) && Distinct(b) && forall x :: x in a <==> x in b
    ensures multiset(a) == multiset(b)
  {
    DistinctMultiset(a);
    DistinctMultiset(b);
  }

  lemma {:induction false} DistinctFromCounts<T(!new)>(r: seq<T>)
    requires forall x :: multiset(r)[x] <= 1
    ensures Distinct(r)
  {
    forall i, j | 0 <= i < j < |r| ensures r[i] != r[j] {
      var x := r[j];
      assert r == r[..j] + ([x] + r[j + 1..]);
      assert multiset(r) == multiset(r[..j]) + multiset{x} + multiset(r[j + 1..]);
      assert multiset(r)[x] <= 1;
      assert x !in multiset(r[..j]);
      assert r[..j][i] == r[i];
    }
  }
}
