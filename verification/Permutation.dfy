/**
 The two permutations and the mask that hide which records of two datasets are linked.

 Linked records are sent to the same random position, all other records to the positions that
 are left, and the mask says which positions hold links. Shuffling, and listing a set, are
 arbitrary choices here; the results hold for all of them.
 */
module Permutation {
  import opened Collections
  import opened Wrappers

  // ----- Groups -----

  datatype Record = Record(dataset: nat, index: nat)

  predicate Precedes(x: Record, y: Record) {
    x.dataset < y.dataset || (x.dataset == y.dataset && x.index <= y.index)
  }

  /** The record index of the smaller record of a group of two. */
  function Left(g: seq<Record>): nat
    requires |g| == 2
  {
    if Precedes(g[0], g[1]) then g[0].index else g[1].index
  }

  function Right(g: seq<Record>): nat
    requires |g| == 2
  {
    if Precedes(g[0], g[1]) then g[1].index else g[0].index
  }

  /**
   The group links record `i` for the first permutation to record `j` for the second: the one of the
   lower dataset goes first, and of two records of one dataset the one with the lower index.
   */
  ghost predicate Links(g: seq<Record>, i: nat, j: nat) {
    exists c, d | c < d || (c == d && i <= j) ::
      g == [Record(c, i), Record(d, j)] || g == [Record(d, j), Record(c, i)]
  }

  lemma {:induction false} LinksIff(g: seq<Record>, i: nat, j: nat)
    requires |g| == 2
    ensures Links(g, i, j) <==> Left(g) == i && Right(g) == j
  {
    var c, d := if Precedes(g[0], g[1]) then g[0].dataset else g[1].dataset,
                if Precedes(g[0], g[1]) then g[1].dataset else g[0].dataset;
    if Left(g) == i && Right(g) == j {
      assert g == [Record(c, i), Record(d, j)] || g == [Record(d, j), Record(c, i)];
    }
  }

  /** Some group links record `i` to record `j`. */
  ghost predicate LinkedBySome(groups: seq<seq<Record>>, i: nat, j: nat) {
    exists g | g in groups :: Links(g, i, j)
  }

  predicate Pairs(groups: seq<seq<Record>>) {
    forall g | g in groups :: |g| == 2
  }

  function Lefts(groups: seq<seq<Record>>): seq<nat>
    requires Pairs(groups)
  {
    seq(|groups|, i requires 0 <= i < |groups| => Left(groups[i]))
  }

  function Rights(groups: seq<seq<Record>>): seq<nat>
    requires Pairs(groups)
  {
    seq(|groups|, i requires 0 <= i < |groups| => Right(groups[i]))
  }

  /** No index occurs twice, and all are indices of a list of length `n`. */
  ghost predicate OneToOne(xs: seq<nat>, n: nat) {
    Distinct(xs) && forall x | x in xs :: x < n
  }

  /**
   The groups link indices below `n1` and indices below `n2` one to one. Dataset numbers only decide
   which record of a group sorts first, as in the program: two records of one dataset are a link, too.
   */
  ghost predicate Matching(groups: seq<seq<Record>>, n1: nat, n2: nat) {
    Pairs(groups) && OneToOne(Lefts(groups), n1) && OneToOne(Rights(groups), n2)
  }

  // ----- Counting -----

  function Elements(xs: seq<nat>): (r: set<nat>)
    ensures forall x :: x in r <==> x in xs
  {
    set x | x in xs
  }

  /** A list has as many elements below `n` as its length exactly if it is one-to-one into `0..n`. */
  lemma {:induction false} CountOneToOne(xs: seq<nat>, n: nat)
    ensures |Elements(xs) * Indices(n)| <= |xs|
    ensures |Elements(xs) * Indices(n)| == |xs| <==> OneToOne(xs, n)
  {
    if xs == [] {
      assert Elements(xs) == {};
    } else {
      var rest, x := xs[..|xs| - 1], xs[|xs| - 1];
      assert xs == rest + [x];
      CountOneToOne(rest, n);
      CountElement(rest, x, n);
      if x < n && x !in rest {
        OneToOneNext(rest, x, n);
      } else {
        NotOneToOne(rest, x, n);
      }
    }
  }

  lemma {:induction false} CountElement(rest: seq<nat>, x: nat, n: nat)
    ensures |Elements(rest + [x]) * Indices(n)| == |Elements(rest) * Indices(n)| + if x < n && x !in rest then 1 else 0
  {
    var before, after := Elements(rest) * Indices(n), Elements(rest + [x]) * Indices(n);
    if x < n && x !in rest {
      assert after == before + {x};
    } else {
      assert after == before;
    }
  }

  lemma {:induction false} NotOneToOne(rest: seq<nat>, x: nat, n: nat)
    requires x >= n || x in rest
    ensures !OneToOne(rest + [x], n)
  {
    var xs := rest + [x];
    assert x in xs;
    if x in rest {
      var i :| 0 <= i < |rest| && rest[i] == x;
      assert xs[i] == xs[|rest|];
    }
  }

  lemma {:induction false} OneToOneNext(rest: seq<nat>, x: nat, n: nat)
    requires x < n && x !in rest
    ensures OneToOne(rest + [x], n) <==> OneToOne(rest, n)
  {
    var xs := rest + [x];
    if OneToOne(rest, n) {
      assert forall i | 0 <= i < |rest| :: xs[i] == rest[i] && rest[i] in rest;
    }
    if OneToOne(xs, n) {
      assert forall i | 0 <= i < |rest| :: xs[i] == rest[i];
      forall y | y in rest ensures y < n {
        assert y in xs;
      }
    }
  }

  /**
   Pigeonhole: a list that is one-to-one into `0..n` is no longer than `n`, and hits everything if
   it is that long.
   */
  lemma {:induction false} Pigeonhole(xs: seq<nat>, n: nat)
    requires OneToOne(xs, n)
    ensures |xs| <= n
    ensures |xs| == n ==> forall x: nat :: x in xs <==> x < n
  {
    CountOneToOne(xs, n);
    var hit := Elements(xs) * Indices(n);
    Smaller(hit, Indices(n));
    if |xs| == n {
      assert Indices(n) == hit + (Indices(n) - hit);
      assert Indices(n) - hit == {};
      forall x: nat | x < n ensures x in xs {
        assert x in Indices(n);
      }
    }
  }

  // ----- Arbitrary orders -----

  /** Swap each element with an arbitrary one before it. */
  method Shuffle(s: seq<nat>) returns (r: seq<nat>)
    ensures multiset(r) == multiset(s)
  {
    r := s;
    var i := |r|;
    while i > 1
      invariant 0 <= i <= |r|
      invariant multiset(r) == multiset(s)
    {
      i := i - 1;
      var j :| 0 <= j <= i;
      r := r[i := r[j]][j := r[i]];
    }
  }

  /** The elements of a set, in an arbitrary order. */
  method ListOf(s: set<nat>) returns (r: seq<nat>)
    ensures Distinct(r) && |r| == |s| && forall x :: x in r <==> x in s
  {
    r := [];
    var rest := s;
    while rest != {}
      invariant rest <= s && Distinct(r) && |r| + |rest| == |s|
      invariant forall x :: x in r <==> x in s - rest
    {
      var x :| x in rest;
      DistinctConcat(r, [x]);
      r := r + [x];
      rest := rest - {x};
    }
  }

  /** The elements of a set in a random order. */
  method ShuffledListOf(s: set<nat>) returns (r: seq<nat>)
    ensures Distinct(r) && |r| == |s| && forall x :: x in r <==> x in s
  {
    var l := ListOf(s);
    r := Shuffle(l);
    SameElements(l, r);
  }

  lemma {:induction false} SameElements(s: seq<nat>, r: seq<nat>)
    requires Distinct(s) && multiset(r) == multiset(s)
    ensures Distinct(r) && |r| == |s| && forall x :: x in r <==> x in s
  {
    DistinctMultiset(s);
    assert |multiset(r)| == |r| && |multiset(s)| == |s|;
    forall x ensures x in r <==> x in s {
      assert x in multiset(r) <==> x in multiset(s);
    }
    DistinctFromCounts(r);
  }

  // ----- Creating the permutations -----

  datatype Permuted = Permuted(a: seq<nat>, b: seq<nat>, mask: seq<nat>)

  /** The index `xs[j]` is sent to `free[j]`. An index that occurs again is overwritten. */
  ghost predicate Assigned(xs: seq<nat>, free: seq<nat>, m: map<nat, nat>) {
    && |xs| <= |free| && m.Keys == Elements(xs)
    && (Distinct(xs) ==> forall j | 0 <= j < |xs| :: m[xs[j]] == free[j])
  }

  lemma {:induction false} AssignNext(xs: seq<nat>, free: seq<nat>, m: map<nat, nat>, x: nat)
    requires Assigned(xs, free, m) && |xs| < |free|
    ensures Assigned(xs + [x], free, m[x := free[|xs|]])
  {
    var ys := xs + [x];
    assert Elements(ys) == Elements(xs) + {x};
    assert forall j | 0 <= j < |xs| :: ys[j] == xs[j];
    if Distinct(ys) {
      assert Distinct(xs);
      assert forall j | 0 <= j < |xs| :: ys[j] != ys[|xs|];
    }
  }

  ghost predicate Extends(start: map<nat, nat>, m: map<nat, nat>) {
    forall i | i in start :: i in m && m[i] == start[i]
  }

  ghost predicate NewFrom(start: map<nat, nat>, m: map<nat, nat>, values: seq<nat>) {
    forall i | i in m && i !in start :: m[i] in values
  }

  ghost predicate NewDistinct(start: map<nat, nat>, m: map<nat, nat>) {
    forall i, j | i in m && i !in start && j in m && j !in start && i != j :: m[i] != m[j]
  }

  /** All indices below `n` have a value; those that had none got different ones of the given values. */
  ghost predicate Filled(start: map<nat, nat>, values: seq<nat>, n: nat, m: map<nat, nat>) {
    && (forall i: nat :: i in m <==> i in start || i < n)
    && Extends(start, m) && NewFrom(start, m, values) && NewDistinct(start, m)
  }

  /** How many indices below `n` have a value. */
  function Present(m: map<nat, nat>, n: nat): nat {
    if n == 0 then 0 else Present(m, n - 1) + if n - 1 in m then 1 else 0
  }

  lemma {:induction false} CountOneMore(keys: set<nat>, s: set<nat>, x: nat)
    requires x !in s
    ensures |keys * (s + {x})| == |keys * s| + if x in keys then 1 else 0
  {
    assert keys * (s + {x}) == if x in keys then keys * s + {x} else keys * s;
  }

  lemma {:induction false} PresentIsCount(m: map<nat, nat>, n: nat)
    ensures Present(m, n) == |m.Keys * Indices(n)|
  {
    if n == 0 {
      NoneBelowZero(m.Keys);
    } else {
      PresentIsCount(m, n - 1);
      CountOneMore(m.Keys, Indices(n - 1), n - 1);
    }
  }

  lemma {:induction false} NoneBelowZero(keys: set<nat>)
    ensures |keys * Indices(0)| == 0
  {
    assert keys * {} == {};
  }

  lemma {:induction false} NoneLeft(m: map<nat, nat>, i: nat, n: nat)
    requires i < n && i !in m
    ensures Present(m, n) < Present(m, i) + n - i
  {
    if i + 1 < n {
      NoneLeft(m, i, n - 1);
    }
  }

  lemma {:induction false} NewNext(start: map<nat, nat>, m: map<nat, nat>, used: seq<nat>, i: nat, x: nat)
    requires NewFrom(start, m, used) && NewDistinct(start, m) && i !in m && x !in used
    ensures NewFrom(start, m[i := x], [x] + used) && NewDistinct(start, m[i := x])
  {
    assert x in [x] + used && forall y | y in used :: y in [x] + used;
    var m' := m[i := x];
    forall k, l | k in m' && k !in start && l in m' && l !in start && k != l ensures m'[k] != m'[l] {
      assert k != i ==> m[k] in used;
      assert l != i ==> m[l] in used;
    }
  }

  lemma {:induction false} FillNext(start: map<nat, nat>, used: seq<nat>, i: nat, m: map<nat, nat>, x: nat)
    requires Filled(start, used, i, m) && i !in m && x !in used
    ensures Filled(start, [x] + used, i + 1, m[i := x])
  {
    NewNext(start, m, used, i, x);
  }

  /** Give each index that has no value yet the last of the given values; there may be too few. */
  method FillIn(start: map<nat, nat>, values: seq<nat>, n: nat) returns (r: Option<map<nat, nat>>)
    requires Distinct(values)
    ensures r.Some? <==> n <= |values| + Present(start, n)
    ensures r.Some? ==> Filled(start, values, n, r.value)
  {
    var m: map<nat, nat>, rest := start, values;
    for i := 0 to n
      invariant rest <= values && |values| == |rest| + i - Present(start, i)
      invariant Filled(start, values[|rest|..], i, m)
    {
      if i !in m {
        if rest == [] {
          NoneLeft(start, i, n);
          return None;
        }
        var last := |rest| - 1;
        DropNext(values, last);
        FillNext(start, values[|rest|..], i, m, rest[last]);
        m := m[i := rest[last]];
        rest := rest[..last];
      }
    }
    UsedAreValues(start, values, |rest|, n, m);
    return Some(m);
  }

  lemma {:induction false} UsedAreValues(start: map<nat, nat>, values: seq<nat>, k: nat, n: nat, m: map<nat, nat>)
    requires k <= |values| && Filled(start, values[k..], n, m)
    ensures Filled(start, values, n, m)
  {
    assert forall x | x in values[k..] :: x in values;
  }

  /** The values of the mapping in the order of its keys, which have to be the first numbers. */
  function ConvertMappingToList<T>(m: map<nat, T>): (r: Option<seq<T>>)
    ensures r.Some? <==> m.Keys == Indices(|m|)
    ensures r.Some? ==> |r.value| == |m| && forall i | 0 <= i < |m| :: i in m && r.value[i] == m[i]
  {
    KeysInOrder(m);
    if forall i | 0 <= i < |m| :: i in m then Some(seq(|m|, i requires 0 <= i < |m| && i in m => m[i])) else None
  }

  lemma {:induction false} KeysInOrder<T>(m: map<nat, T>)
    ensures m.Keys == Indices(|m|) <==> forall i | 0 <= i < |m| :: i in m
  {
    if forall i | 0 <= i < |m| :: i in m {
      var keys := Indices(|m|);
      assert keys <= m.Keys;
      assert m.Keys == keys + (m.Keys - keys);
      assert |m.Keys| == |m|;
    }
  }

  /** What remains for the records that are not linked. */
  ghost predicate LeftOver(values: seq<nat>, free: seq<nat>, used: nat, n: nat) {
    && used <= |free| <= n && Distinct(values) && |values| == n - used
    && forall x :: x in values <==> x in free[used..] || |free| <= x < n
  }

  lemma {:induction false} FilledBelow(xs: seq<nat>, free: seq<nat>, start: map<nat, nat>, values: seq<nat>, n: nat,
                                       m: map<nat, nat>, i: nat)
    requires OneToOne(free, |free|) && Assigned(xs, free, start) && LeftOver(values, free, |xs|, n)
    requires OneToOne(xs, n) && Filled(start, values, n, m) && i in m
    ensures m[i] < n
  {
    if i in start {
      var k :| 0 <= k < |xs| && xs[k] == i;
      assert m[i] == free[k] && free[k] in free;
    } else if m[i] in free[|xs|..] {
      var k :| 0 <= k < |free[|xs|..]| && free[|xs|..][k] == m[i];
      assert free[|xs| + k] in free;
    }
  }

  lemma {:induction false} FilledKeys(xs: seq<nat>, start: map<nat, nat>, values: seq<nat>, n: nat, m: map<nat, nat>)
    requires start.Keys == Elements(xs) && OneToOne(xs, n) && Filled(start, values, n, m)
    ensures m.Keys == Indices(n) && |m| == n
  {
    assert forall i :: i in m.Keys <==> i in Indices(n);
    assert |m.Keys| == |m|;
  }

  lemma {:induction false} FilledOneToOne(xs: seq<nat>, free: seq<nat>, start: map<nat, nat>, values: seq<nat>,
                                          n: nat, m: map<nat, nat>, p: seq<nat>)
    requires OneToOne(free, |free|) && Assigned(xs, free, start) && LeftOver(values, free, |xs|, n)
    requires OneToOne(xs, n) && Filled(start, values, n, m)
    requires |p| == n && m.Keys == Indices(n) && forall i | 0 <= i < n :: p[i] == m[i]
    ensures OneToOne(p, n) && forall k | 0 <= k < |xs| :: xs[k] < n && p[xs[k]] == free[k]
  {
    forall i | 0 <= i < n ensures p[i] < n {
      FilledBelow(xs, free, start, values, n, m, i);
    }
    forall i, j | 0 <= i < j < n ensures p[i] != p[j] {
      if i in start {
        StartValue(xs, free, values, n, m, i, j, start);
      } else if j in start {
        StartValue(xs, free, values, n, m, j, i, start);
      } else {
        assert m[i] != m[j];
      }
    }
    forall k | 0 <= k < |xs| ensures xs[k] < n && p[xs[k]] == free[k] {
      assert xs[k] in xs;
    }
  }

  /** The value of a linked index differs from all other values. */
  lemma {:induction false} StartValue(xs: seq<nat>, free: seq<nat>, values: seq<nat>, n: nat, m: map<nat, nat>,
                                      i: nat, j: nat, start: map<nat, nat>)
    requires OneToOne(free, |free|) && Assigned(xs, free, start) && LeftOver(values, free, |xs|, n)
    requires OneToOne(xs, n) && Filled(start, values, n, m)
    requires i in start && j in m && i != j
    ensures m[i] != m[j]
  {
    var k :| 0 <= k < |xs| && xs[k] == i;
    assert m[i] == free[k] && free[k] in free;
    if j in start {
      var l :| 0 <= l < |xs| && xs[l] == j;
      assert m[j] == free[l];
    } else if m[j] in free[|xs|..] {
      var l :| 0 <= l < |free[|xs|..]| && free[|xs|..][l] == m[j];
      assert m[j] == free[|xs| + l];
    }
  }

  /** Where the mask has a one: the positions taken by linked records. */
  ghost predicate Marks(mask: map<nat, bool>, free: seq<nat>, used: nat) {
    && mask.Keys == Indices(|free|) && used <= |free|
    && forall p | p in mask :: mask[p] <==> p in free[..used]
  }

  lemma {:induction false} MarkNext(mask: map<nat, bool>, free: seq<nat>, used: nat)
    requires OneToOne(free, |free|) && Marks(mask, free, used) && used < |free|
    ensures Marks(mask[free[used] := true], free, used + 1)
  {
    assert free[used] in free;
    assert free[..used + 1] == free[..used] + [free[used]];
    assert mask[free[used] := true].Keys == mask.Keys;
  }

  /** The linked records have the positions `free[..k]`, and the mask marks them. */
  ghost predicate Linked(groups: seq<seq<Record>>, free: seq<nat>, a: map<nat, nat>, b: map<nat, nat>,
                         mask: map<nat, bool>) {
    Pairs(groups) && Assigned(Lefts(groups), free, a) && Assigned(Rights(groups), free, b)
        && Marks(mask, free, |groups|)
  }

  lemma {:induction false} LinkNext(groups: seq<seq<Record>>, g: seq<Record>, free: seq<nat>, a: map<nat, nat>,
                                    b: map<nat, nat>, mask: map<nat, bool>)
    requires Linked(groups, free, a, b, mask) && |g| == 2 && |groups| < |free| && OneToOne(free, |free|)
    ensures Linked(groups + [g], free, a[Left(g) := free[|groups|]], b[Right(g) := free[|groups|]],
        mask[free[|groups|] := true])
  {
    PairsNext(groups, g);
    AssignNext(Lefts(groups), free, a, Left(g));
    AssignNext(Rights(groups), free, b, Right(g));
    MarkNext(mask, free, |groups|);
  }

  lemma {:induction false} PairsNext(groups: seq<seq<Record>>, g: seq<Record>)
    requires Pairs(groups) && |g| == 2
    ensures Pairs(groups + [g])
    ensures Lefts(groups + [g]) == Lefts(groups) + [Left(g)] && Rights(groups + [g]) == Rights(groups) + [Right(g)]
  {}

  /** The positions that no linked record has taken, and those beyond the smaller dataset. */
  method Remaining(free: seq<nat>, used: nat, n: nat) returns (values: seq<nat>)
    requires OneToOne(free, |free|) && used <= |free| <= n
    ensures LeftOver(values, free, used, n)
  {
    var unused := Elements(free[used..]);
    values := ShuffledListOf(Range(|free|, n) + unused);
    UnusedCount(free, used);
    assert Range(|free|, n) !! unused by {
      assert forall x | x in free[used..] :: x in free;
    }
  }

  lemma {:induction false} UnusedCount(free: seq<nat>, used: nat)
    requires Distinct(free) && used <= |free|
    ensures |Elements(free[used..])| == |free| - used
    decreases |free| - used
  {
    if used == |free| {
      assert Elements(free[used..]) == {};
    } else {
      UnusedCount(free, used + 1);
      assert free[used..] == [free[used]] + free[used + 1..];
      assert Elements(free[used..]) == {free[used]} + Elements(free[used + 1..]);
    }
  }

  /** The numbers below `n` in a random order. */
  method ShuffledRange(n: nat) returns (free: seq<nat>)
    ensures |free| == n && OneToOne(free, n)
  {
    var inOrder := seq(n, i requires 0 <= i < n => i);
    free := Shuffle(inOrder);
    SameElements(inOrder, free);
  }

  /**
   Both lists are permutations, linked records get the same position below the size of the smaller
   dataset, and the mask has a one exactly where linked records are.
   */
  ghost predicate Hides(groups: seq<seq<Record>>, n1: nat, n2: nat, r: Permuted)
    requires Matching(groups, n1, n2)
  {
    && |r.a| == n1 && OneToOne(r.a, n1) && |r.b| == n2 && OneToOne(r.b, n2)
    && |r.mask| <= n1 && |r.mask| <= n2 && (|r.mask| == n1 || |r.mask| == n2)
    && Together(Lefts(groups), Rights(groups), r)
    && forall p | 0 <= p < |r.mask| :: r.mask[p] == if Hosts(Lefts(groups), r.a, p) then 1 else 0
  }

  ghost predicate Hosts(xs: seq<nat>, perm: seq<nat>, p: nat) {
    exists k | 0 <= k < |xs| && xs[k] < |perm| :: perm[xs[k]] == p
  }

  ghost predicate Together(ls: seq<nat>, rs: seq<nat>, r: Permuted) {
    && |ls| == |rs| && forall k | 0 <= k < |ls| ::
      ls[k] < |r.a| && rs[k] < |r.b| && r.a[ls[k]] == r.b[rs[k]] < |r.mask|
  }

  /** Send the records of each group to the next free position, and mark it. */
  method PlaceLinked(groups: seq<seq<Record>>, free: seq<nat>)
    returns (ok: bool, a: map<nat, nat>, b: map<nat, nat>, mask: map<nat, bool>)
    requires OneToOne(free, |free|)
    ensures ok <==> Pairs(groups) && |groups| <= |free|
    ensures ok ==> Linked(groups, free, a, b, mask)
  {
    a, b, mask := map[], map[], map p | p in Indices(|free|) :: false;
    for k := 0 to |groups|
      invariant k <= |free| && Linked(groups[..k], free, a, b, mask)
    {
      if |groups[k]| != 2 || k == |free| {
        assert groups[k] in groups;
        return false, a, b, mask;
      }
      LinkNext(groups[..k], groups[k], free, a, b, mask);
      TakeNext(groups, k);
      a := a[Left(groups[k]) := free[k]];
      b := b[Right(groups[k]) := free[k]];
      mask := mask[free[k] := true];
    }
    assert groups[..|groups|] == groups;
    ok := true;
  }

  /** Send the records that are not linked to the remaining positions, which may not suffice. */
  method PlaceOthers(ghost xs: seq<nat>, free: seq<nat>, used: nat, start: map<nat, nat>,
                     n: nat) returns (r: Option<seq<nat>>)
    requires OneToOne(free, |free|) && Assigned(xs, free, start) && used == |xs| <= |free| <= n
    ensures r.Some? <==> OneToOne(xs, n)
    ensures r.Some? ==> |r.value| == n && OneToOne(r.value, n)
    ensures r.Some? ==> forall k | 0 <= k < |xs| :: xs[k] < n && r.value[xs[k]] == free[k]
  {
    var rest := Remaining(free, used, n);
    EnoughLeft(xs, start, n);
    var full := FillIn(start, rest, n);
    if full.None? {
      return None;
    }
    FilledKeys(xs, start, rest, n, full.value);
    r := ConvertMappingToList(full.value);
    FilledOneToOne(xs, free, start, rest, n, full.value, r.value);
  }

  /** The mask as a list of zeros and ones. */
  method MaskBits(mask: map<nat, bool>, n: nat) returns (bits: seq<nat>)
    requires mask.Keys == Indices(n)
    ensures |bits| == n && forall p | 0 <= p < n :: bits[p] == if mask[p] then 1 else 0
  {
    var asNumbers := map p | p in mask :: if mask[p] then 1 else 0;
    assert asNumbers.Keys == mask.Keys && |asNumbers| == |asNumbers.Keys|;
    var list := ConvertMappingToList(asNumbers);
    bits := list.value;
  }

  /**
   Create the permutations and the mask. Whatever the shuffles, this succeeds if and only if the
   groups link records of the two datasets one to one: then no list runs out of positions, and
   otherwise one does, or a group does not have two members.
   */
  method PermuteMappingData(groups: seq<seq<Record>>, n1: nat, n2: nat) returns (r: Option<Permuted>)
    ensures r.Some? <==> Matching(groups, n1, n2)
    ensures r.Some? ==> Hides(groups, n1, n2, r.value)
    ensures r.Some? ==> LinksShare(groups, n1, n2, r.value)
  {
    var smaller := if n1 <= n2 then n1 else n2;
    var free := ShuffledRange(smaller);
    var ok, a, b, mask := PlaceLinked(groups, free);
    if !ok {
      TooManyGroups(groups, n1, n2);
      return None;
    }
    var permA := PlaceOthers(Lefts(groups), free, |groups|, a, n1);
    if permA.None? {
      return None;
    }
    var permB := PlaceOthers(Rights(groups), free, |groups|, b, n2);
    if permB.None? {
      return None;
    }
    var bits := MaskBits(mask, smaller);
    var result := Permuted(permA.value, permB.value, bits);
    MaskHosts(Lefts(groups), free, mask, result);
    TogetherFree(Lefts(groups), Rights(groups), free, result);
    LinkedShare(groups, n1, n2, result);
    return Some(result);
  }

  /**
   The two records of each group, in whichever order, are sent to one position: that of the lower
   dataset by the first permutation, the other one by the second.
   */
  ghost predicate LinksShare(groups: seq<seq<Record>>, n1: nat, n2: nat, r: Permuted) {
    forall g, c: nat, i: nat, d: nat, j: nat
      | g in groups && (g == [Record(c, i), Record(d, j)] || g == [Record(d, j), Record(c, i)])
        && (c < d || (c == d && i <= j)) ::
      i < n1 == |r.a| && j < n2 == |r.b| && r.a[i] == r.b[j] < |r.mask|
  }

  lemma {:induction false} LinkedShare(groups: seq<seq<Record>>, n1: nat, n2: nat, r: Permuted)
    requires Pairs(groups) && Together(Lefts(groups), Rights(groups), r) && |r.a| == n1 && |r.b| == n2
    ensures LinksShare(groups, n1, n2, r)
  {
    forall g, c: nat, i: nat, d: nat, j: nat
      | g in groups && (g == [Record(c, i), Record(d, j)] || g == [Record(d, j), Record(c, i)])
        && (c < d || (c == d && i <= j))
      ensures i < n1 && j < n2 && r.a[i] == r.b[j] < |r.mask|
    {
      LinksIff(g, i, j);
      var k :| 0 <= k < |groups| && groups[k] == g;
      assert Lefts(groups)[k] == i && Rights(groups)[k] == j;
    }
  }

  /** What `Matching` says of the groups: each links two records, and no record is linked twice. */
  lemma {:induction false} MatchingIff(groups: seq<seq<Record>>, n1: nat, n2: nat)
    ensures Matching(groups, n1, n2) <==>
              (forall g | g in groups :: |g| == 2) && LinksFit(groups, n1, n2) && LinkedOnce(groups)
  {
    if Pairs(groups) {
      if Matching(groups, n1, n2) {
        MatchingLinks(groups, n1, n2);
      }
      if LinksFit(groups, n1, n2) && LinkedOnce(groups) {
        LinksMatch(groups, n1, n2);
      }
    }
  }

  /** Only records of the two datasets are linked. */
  ghost predicate LinksFit(groups: seq<seq<Record>>, n1: nat, n2: nat) {
    forall g, i: nat, j: nat | g in groups && Links(g, i, j) :: i < n1 && j < n2
  }

  /** Two groups do not share a record. */
  ghost predicate LinkedOnce(groups: seq<seq<Record>>) {
    forall k, l, i: nat, j: nat, i': nat, j': nat | 0 <= k < l < |groups| && Links(groups[k], i, j)
        && Links(groups[l], i', j') ::
      i != i' && j != j'
  }

  lemma {:induction false} MatchingLinks(groups: seq<seq<Record>>, n1: nat, n2: nat)
    requires Matching(groups, n1, n2)
    ensures LinksFit(groups, n1, n2) && LinkedOnce(groups)
  {
    forall g, i: nat, j: nat | g in groups && Links(g, i, j) ensures i < n1 && j < n2 {
      LinksIff(g, i, j);
      var k :| 0 <= k < |groups| && groups[k] == g;
      assert Lefts(groups)[k] == i && Rights(groups)[k] == j;
      assert i in Lefts(groups) && j in Rights(groups);
    }
    forall k, l, i: nat, j: nat, i': nat, j': nat | 0 <= k < l < |groups| && Links(groups[k], i, j)
        && Links(groups[l], i', j')
      ensures i != i' && j != j'
    {
      LinksIff(groups[k], i, j);
      LinksIff(groups[l], i', j');
      assert Lefts(groups)[k] == i && Lefts(groups)[l] == i' && Rights(groups)[k] == j && Rights(groups)[l] == j';
    }
  }

  lemma {:induction false} LinksMatch(groups: seq<seq<Record>>, n1: nat, n2: nat)
    requires Pairs(groups) && LinksFit(groups, n1, n2) && LinkedOnce(groups)
    ensures Matching(groups, n1, n2)
  {
    forall k | 0 <= k < |groups|
      ensures groups[k] in groups && Links(groups[k], Lefts(groups)[k], Rights(groups)[k])
    {
      LinksIff(groups[k], Left(groups[k]), Right(groups[k]));
    }
  }

  lemma {:induction false} TogetherFree(ls: seq<nat>, rs: seq<nat>, free: seq<nat>, r: Permuted)
    requires OneToOne(free, |free|) && |ls| == |rs| <= |free| == |r.mask|
    requires forall k | 0 <= k < |ls| :: ls[k] < |r.a| && r.a[ls[k]] == free[k]
    requires forall k | 0 <= k < |rs| :: rs[k] < |r.b| && r.b[rs[k]] == free[k]
    ensures Together(ls, rs, r)
  {
    forall k | 0 <= k < |ls| ensures r.a[ls[k]] == r.b[rs[k]] < |r.mask| {
      assert free[k] in free;
    }
  }

  lemma {:induction false} TooManyGroups(groups: seq<seq<Record>>, n1: nat, n2: nat)
    requires !Pairs(groups) || |groups| > n1 || |groups| > n2
    ensures !Matching(groups, n1, n2)
  {
    if Matching(groups, n1, n2) {
      Pigeonhole(Lefts(groups), n1);
      Pigeonhole(Rights(groups), n2);
    }
  }

  /** As many positions are left as there are indices without one, exactly if no index was overwritten or too large. */
  lemma {:induction false} EnoughLeft(xs: seq<nat>, m: map<nat, nat>, n: nat)
    requires m.Keys == Elements(xs) && |xs| <= n
    ensures n <= (n - |xs|) + Present(m, n) <==> OneToOne(xs, n)
  {
    PresentIsCount(m, n);
    CountOneToOne(xs, n);
  }

  lemma {:induction false} MaskHosts(xs: seq<nat>, free: seq<nat>, mask: map<nat, bool>, r: Permuted)
    requires OneToOne(free, |free|) && Marks(mask, free, |xs|) && |r.mask| == |free|
    requires forall p | 0 <= p < |r.mask| :: p in mask && r.mask[p] == if mask[p] then 1 else 0
    requires forall k | 0 <= k < |xs| :: xs[k] < |r.a| && r.a[xs[k]] == free[k]
    ensures forall p | 0 <= p < |r.mask| :: r.mask[p] == if Hosts(xs, r.a, p) then 1 else 0
  {
    forall p | 0 <= p < |r.mask| ensures mask[p] <==> Hosts(xs, r.a, p) {
      if p in free[..|xs|] {
        var k :| 0 <= k < |xs| && free[..|xs|][k] == p;
        assert r.a[xs[k]] == p;
      }
      if Hosts(xs, r.a, p) {
        var k :| 0 <= k < |xs| && xs[k] < |r.a| && r.a[xs[k]] == p;
        assert free[..|xs|][k] == p;
      }
    }
  }

  // ----- Reading the permutations and the mask -----

  /** Put each item at its new position. */
  method ApplyPermutation(items: array<nat>, permutation: seq<nat>) returns (permItems: array<nat>)
    requires |permutation| == items.Length && OneToOne(permutation, items.Length)
    ensures fresh(permItems) && permItems.Length == items.Length
    ensures forall i | 0 <= i < items.Length :: permutation[i] in permutation && permItems[permutation[i]] == items[i]
  {
    permItems := new nat[items.Length](i requires 0 <= i < items.Length reads items => items[i]);
    for i := 0 to items.Length
      invariant forall j | 0 <= j < i :: permutation[j] in permutation && permItems[permutation[j]] == items[j]
    {
      assert permutation[i] in permutation;
      permItems[permutation[i]] := items[i];
    }
  }

  ghost predicate Inverse(p: seq<nat>, q: seq<nat>) {
    |q| == |p| && forall i | 0 <= i < |p| :: p[i] < |q| && q[p[i]] == i
  }

  /** What is at each position, from where each record goes. */
  method InverseOfPermutation(permutation: seq<nat>) returns (inverse: seq<nat>)
    requires OneToOne(permutation, |permutation|)
    ensures Inverse(permutation, inverse)
  {
    var inOrder := new nat[|permutation|](i => i);
    var permItems := ApplyPermutation(inOrder, permutation);
    inverse := permItems[..];
    assert forall i | 0 <= i < |permutation| :: permutation[i] in permutation;
  }

  /** An inverse undoes the permutation from both sides. */
  lemma {:induction false} InverseTwice(p: seq<nat>, q: seq<nat>)
    requires OneToOne(p, |p|) && Inverse(p, q)
    ensures Inverse(q, p) && OneToOne(q, |q|)
  {
    Pigeonhole(p, |p|);
    forall i | 0 <= i < |q| ensures q[i] < |p| && p[q[i]] == i {
      assert i in p;
      var k :| 0 <= k < |p| && p[k] == i;
      assert q[p[k]] == k;
    }
  }

  /** Records `x` and `y` form a group. */
  ghost predicate Linking(ls: seq<nat>, rs: seq<nat>, x: nat, y: nat) {
    |ls| == |rs| && exists k | 0 <= k < |ls| :: ls[k] == x && rs[k] == y
  }

  /** The linked records in the list of groups. */
  lemma {:induction false} LinkingIff(groups: seq<seq<Record>>, i: nat, j: nat)
    requires Pairs(groups)
    ensures Linking(Lefts(groups), Rights(groups), i, j) <==> LinkedBySome(groups, i, j)
    ensures i in Lefts(groups) <==> exists y :: LinkedBySome(groups, i, y)
    ensures j in Rights(groups) <==> exists x :: LinkedBySome(groups, x, j)
  {
    forall k | 0 <= k < |groups| ensures LinkedBySome(groups, Lefts(groups)[k], Rights(groups)[k]) {
      assert groups[k] in groups;
      LinksIff(groups[k], Left(groups[k]), Right(groups[k]));
    }
    forall x, y | LinkedBySome(groups, x, y) ensures Linking(Lefts(groups), Rights(groups), x, y) {
      var g :| g in groups && Links(g, x, y);
      LinksIff(g, x, y);
      var k :| 0 <= k < |groups| && groups[k] == g;
      assert Lefts(groups)[k] == x && Rights(groups)[k] == y;
    }
  }

  /**
   What the recipients of the permutations and of the mask find. At each position of the smaller
   size, the mask is one if and only if some group links the two records there; if it is zero, no
   group links either of them to any record. Beyond that size there are only such records.
   */
  lemma {:induction false} MaskTellsLinks(groups: seq<seq<Record>>, n1: nat, n2: nat, r: Permuted, ia: seq<nat>,
                                          ib: seq<nat>, p: nat)
    requires Matching(groups, n1, n2) && Hides(groups, n1, n2, r) && Inverse(r.a, ia) && Inverse(r.b, ib)
    ensures p < |r.mask| ==> (r.mask[p] == 1 <==> LinkedBySome(groups, ia[p], ib[p]))
    ensures p < |r.mask| && r.mask[p] != 1 ==>
              r.mask[p] == 0 && forall x :: !LinkedBySome(groups, ia[p], x) && !LinkedBySome(groups, x, ib[p])
    ensures |r.mask| <= p < n1 ==> forall j :: !LinkedBySome(groups, ia[p], j)
    ensures |r.mask| <= p < n2 ==> forall i :: !LinkedBySome(groups, i, ib[p])
  {
    MaskTellsIndices(groups, n1, n2, r, ia, ib, p);
    var i, j := if p < n1 then ia[p] else 0, if p < n2 then ib[p] else 0;
    LinkingIff(groups, i, j);
  }

  lemma {:induction false} MaskTellsIndices(groups: seq<seq<Record>>, n1: nat, n2: nat, r: Permuted, ia: seq<nat>,
                                          ib: seq<nat>, p: nat)
    requires Matching(groups, n1, n2) && Hides(groups, n1, n2, r) && Inverse(r.a, ia) && Inverse(r.b, ib)
    ensures p < |r.mask| ==> (r.mask[p] == 1 <==> Linking(Lefts(groups), Rights(groups), ia[p], ib[p]))
    ensures p < |r.mask| && r.mask[p] != 1 ==> r.mask[p] == 0 && ia[p] !in Lefts(groups) && ib[p] !in Rights(groups)
    ensures |r.mask| <= p < n1 ==> ia[p] !in Lefts(groups)
    ensures |r.mask| <= p < n2 ==> ib[p] !in Rights(groups)
  {
    InverseTwice(r.a, ia);
    InverseTwice(r.b, ib);
    var ls, rs := Lefts(groups), Rights(groups);
    if p < n1 && ia[p] in ls {
      var k :| 0 <= k < |ls| && ls[k] == ia[p];
      assert r.a[ls[k]] == p;
      assert r.a[ls[k]] == r.b[rs[k]] < |r.mask|;
    }
    if p < n2 && ib[p] in rs {
      var k :| 0 <= k < |rs| && rs[k] == ib[p];
      assert r.b[rs[k]] == p;
      assert r.a[ls[k]] == r.b[rs[k]] < |r.mask|;
    }
    if p < |r.mask| && Hosts(ls, r.a, p) {
      var k :| 0 <= k < |ls| && ls[k] < |r.a| && r.a[ls[k]] == p;
      assert r.a[ls[k]] == r.b[rs[k]] < |r.mask|;
      assert ia[p] == ls[k] && ib[p] == rs[k];
    }
  }

  function Ones(mask: seq<nat>): nat {
    if mask == [] then 0 else Ones(mask[..|mask| - 1]) + if mask[|mask| - 1] == 1 then 1 else 0
  }

  lemma {:induction false} OnesAre(mask: seq<nat>, where: set<nat>)
    requires forall p | p in where :: p < |mask|
    requires forall p: nat | p < |mask| :: mask[p] == 1 <==> p in where
    ensures Ones(mask) == |where|
  {
    if mask == [] {
      assert where == {};
    } else {
      var last := |mask| - 1;
      OnesAre(mask[..last], where - {last});
      if last in where {
        assert where == (where - {last}) + {last};
      } else {
        assert where == where - {last};
      }
    }
  }

  /** The positions of the linked records. */
  function Positions(xs: seq<nat>, perm: seq<nat>): (where: seq<nat>)
    requires OneToOne(xs, |perm|)
    ensures |where| == |xs| && forall k | 0 <= k < |xs| :: xs[k] < |perm| && where[k] == perm[xs[k]]
  {
    assert forall k | 0 <= k < |xs| :: xs[k] in xs;
    seq(|xs|, k requires 0 <= k < |xs| && xs[k] < |perm| => perm[xs[k]])
  }

  lemma {:induction false} PositionsHost(xs: seq<nat>, perm: seq<nat>, p: nat)
    requires OneToOne(xs, |perm|)
    ensures p in Positions(xs, perm) <==> Hosts(xs, perm, p)
  {
    var where := Positions(xs, perm);
    if Hosts(xs, perm, p) {
      var k :| 0 <= k < |xs| && xs[k] < |perm| && perm[xs[k]] == p;
      assert where[k] == p;
    }
    if p in where {
      var k :| 0 <= k < |where| && where[k] == p;
      assert perm[xs[k]] == p;
    }
  }

  lemma {:induction false} PositionsOneToOne(xs: seq<nat>, perm: seq<nat>, n: nat)
    requires OneToOne(xs, |perm|) && OneToOne(perm, |perm|) && forall k | 0 <= k < |xs| ::
        xs[k] < |perm| && perm[xs[k]] < n
    ensures OneToOne(Positions(xs, perm), n)
  {
    var where := Positions(xs, perm);
    forall i, j | 0 <= i < j < |where| ensures where[i] != where[j] {
      assert xs[i] != xs[j];
    }
  }

  /** The mask has as many ones as there are groups. */
  lemma {:induction false} OneForEachGroup(groups: seq<seq<Record>>, n1: nat, n2: nat, r: Permuted)
    requires Matching(groups, n1, n2) && Hides(groups, n1, n2, r)
    ensures Ones(r.mask) == |groups|
  {
    var where := Positions(Lefts(groups), r.a);
    assert Together(Lefts(groups), Rights(groups), r);
    PositionsOneToOne(Lefts(groups), r.a, |r.mask|);
    forall p: nat | p < |r.mask| ensures r.mask[p] == 1 <==> p in Elements(where) {
      PositionsHost(Lefts(groups), r.a, p);
    }
    CountOneToOne(where, |r.mask|);
    assert Elements(where) * Indices(|r.mask|) == Elements(where);
    OnesAre(r.mask, Elements(where));
  }
}
