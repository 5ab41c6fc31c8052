/**
 The cost of merging result files two at a time.

 Merging files that record `m` and `n` candidate pairs costs `m + n`. A complete merge
 order of a collection of files is a binary tree whose leaves are the files; its cost is
 the total weight of its inner nodes. This module states the greedy rule that the
 aggregation loop follows as a function on multisets of sizes, and proves that no merge
 order of the same files costs less.
 */
module MergeCost {

  /** A merge order: which two (already merged) files are combined, all the way up. */
  datatype Order = File(size: nat) | Merge(first: Order, second: Order)

  function Weight(t: Order): nat {
    match t
    case File(n) => n
    case Merge(l, r) => Weight(l) + Weight(r)
  }

  function Cost(t: Order): nat {
    match t
    case File(_) => 0
    case Merge(l, r) => Cost(l) + Cost(r) + Weight(t)
  }

  function Files(t: Order): multiset<nat> {
    match t
    case File(n) => multiset{n}
    case Merge(l, r) => Files(l) + Files(r)
  }

  /** No file lies deeper than `d`. */
  predicate Fits(t: Order, d: nat) {
    match t
    case File(_) => true
    case Merge(l, r) => 0 < d && Fits(l, d - 1) && Fits(r, d - 1)
  }

  /** `size` paid once for each of `levels` levels; kept recursive so that proofs stay linear. */
  function Paid(size: nat, levels: nat): nat {
    if levels == 0 then 0 else size + Paid(size, levels - 1)
  }

  lemma {:induction false} PaidIsAdditive(x: nat, y: nat, levels: nat)
    ensures Paid(x + y, levels) == Paid(x, levels) + Paid(y, levels)
  {
    if levels > 0 {
      PaidIsAdditive(x, y, levels - 1);
    }
  }

  lemma {:induction false} PaidDifference(x: nat, y: nat, levels: nat)
    requires x <= y
    ensures Paid(y - x, levels) + Paid(x, levels) == Paid(y, levels)
  {
    var z := y - x;
    PaidIsAdditive(z, x, levels);
    assert z + x == y;
  }

  // ----- The greedy rule -----

  ghost predicate IsLeast(x: nat, sizes: multiset<nat>) {
    x in sizes && forall y :: y in sizes ==> x <= y
  }

  /** `x` and `y` are the two smallest of `sizes`, and `rest` is what is left without them. */
  ghost predicate TwoLeast(sizes: multiset<nat>, rest: multiset<nat>, x: nat, y: nat) {
    sizes == (rest + multiset{y}) + multiset{x} && IsLeast(x, sizes) && IsLeast(y, rest + multiset{y})
  }

  /** `cost` is what the cheapest way of merging files of these sizes into one file costs. */
  ghost predicate IsCheapest(sizes: multiset<nat>, cost: nat) {
    && (forall t :: Files(t) == sizes ==> cost <= Cost(t))
    && (exists t :: Files(t) == sizes && Cost(t) == cost)
  }

  lemma {:induction false} Cancel(a: multiset<nat>, b: multiset<nat>, z: nat)
    requires a + multiset{z} == b + multiset{z}
    ensures a == b
  {
    assert a == (a + multiset{z}) - multiset{z};
    assert b == (b + multiset{z}) - multiset{z};
  }

  lemma {:induction false} InFirstPart(a: multiset<nat>, q: nat, x: nat)
    requires x in a + multiset{q} && (x == q ==> x in a)
    ensures x in a
  {}

  lemma {:induction false} Exchange(a: multiset<nat>, b: multiset<nat>, z: nat)
    ensures (a + b) + multiset{z} == (a + multiset{z}) + b
  {}

  // ----- Orders with one position singled out -----

  datatype Context = Hole | InFirst(c: Context, second: Order) | InSecond(first: Order, c: Context)

  function Plug(c: Context, t: Order): Order {
    match c
    case Hole => t
    case InFirst(c', r) => Merge(Plug(c', t), r)
    case InSecond(l, c') => Merge(l, Plug(c', t))
  }

  function Depth(c: Context): nat {
    match c
    case Hole => 0
    case InFirst(c', _) => 1 + Depth(c')
    case InSecond(_, c') => 1 + Depth(c')
  }

  /** No file beside the hole lies deeper than `d`. */
  predicate Within(c: Context, d: nat) {
    match c
    case Hole => true
    case InFirst(c', r) => 0 < d && Fits(r, d - 1) && Within(c', d - 1)
    case InSecond(l, c') => 0 < d && Fits(l, d - 1) && Within(c', d - 1)
  }

  function Around(c: Context): multiset<nat> {
    match c
    case Hole => multiset{}
    case InFirst(c', r) => Around(c') + Files(r)
    case InSecond(l, c') => Files(l) + Around(c')
  }

  function WeightAround(c: Context): nat {
    match c
    case Hole => 0
    case InFirst(c', r) => WeightAround(c') + Weight(r)
    case InSecond(l, c') => Weight(l) + WeightAround(c')
  }

  function CostAround(c: Context): nat {
    match c
    case Hole => 0
    case InFirst(c', r) => CostAround(c') + Cost(r) + WeightAround(c)
    case InSecond(l, c') => Cost(l) + CostAround(c') + WeightAround(c)
  }

  lemma {:induction false} PlugFiles(c: Context, t: Order)
    ensures Files(Plug(c, t)) == Around(c) + Files(t)
  {
    match c
    case Hole =>
    case InFirst(c', r) => PlugFiles(c', t);
    case InSecond(l, c') => PlugFiles(c', t);
  }

  /** What stands in the hole is paid for once per level above it. */
  lemma {:induction false} PlugCost(c: Context, t: Order)
    ensures Weight(Plug(c, t)) == WeightAround(c) + Weight(t)
    ensures Cost(Plug(c, t)) == CostAround(c) + Cost(t) + Paid(Weight(t), Depth(c))
  {
    match c
    case Hole =>
    case InFirst(c', r) =>
      PlugCost(c', t);
    case InSecond(l, c') =>
      PlugCost(c', t);
  }

  /** Every order of two or more files has two files merged directly at the greatest depth. */
  lemma {:induction false} DeepestPair(t: Order) returns (c: Context, a: nat, b: nat)
    requires t.Merge?
    ensures t == Plug(c, Merge(File(a), File(b)))
    ensures Within(c, Depth(c) + 1) && Fits(t, Depth(c) + 1)
  {
    var Merge(l, r) := t;
    if l.File? && r.File? {
      c, a, b := Hole, l.size, r.size;
    } else if l.File? {
      c, a, b := DeepestPair(r);
      c := InSecond(l, c);
    } else if r.File? {
      c, a, b := DeepestPair(l);
      c := InFirst(c, r);
    } else {
      var c1, a1, b1 := DeepestPair(l);
      var c2, a2, b2 := DeepestPair(r);
      if Depth(c1) < Depth(c2) {
        FitsMonotone(l, Depth(c1) + 1, Depth(c2) + 1);
        c, a, b := InSecond(l, c2), a2, b2;
      } else {
        FitsMonotone(r, Depth(c2) + 1, Depth(c1) + 1);
        c, a, b := InFirst(c1, r), a1, b1;
      }
    }
  }

  lemma {:induction false} FitsMonotone(t: Order, d: nat, e: nat)
    requires Fits(t, d) && d <= e
    ensures Fits(t, e)
  {
    if t.Merge? {
      FitsMonotone(t.first, d - 1, e - 1);
      FitsMonotone(t.second, d - 1, e - 1);
    }
  }

  lemma {:induction false} Beside(a: multiset<nat>, a': multiset<nat>, b: multiset<nat>, u: multiset<nat>,
                                  v: multiset<nat>)
    requires a' + u == a + v
    ensures (a' + b) + u == (a + b) + v
    ensures (b + a') + u == (b + a) + v
  {
    assert (a' + b) + u == (a' + u) + b;
    assert (a + b) + v == (a + v) + b;
    assert (b + a') + u == (a' + u) + b;
    assert (b + a) + v == (a + v) + b;
  }

  /** Replace one file of size `z` by a larger one; each level pays at most the difference. */
  lemma {:induction false} Enlarge(t: Order, z: nat, v: nat, d: nat) returns (t': Order)
    requires z in Files(t) && z <= v && Fits(t, d)
    ensures Files(t') + multiset{z} == Files(t) + multiset{v}
    ensures Weight(t') == Weight(t) + (v - z) && Fits(t', d)
    ensures Cost(t') <= Cost(t) + Paid(v - z, d)
  {
    match t
    case File(_) =>
      t' := File(v);
    case Merge(l, r) =>
      if z in Files(l) {
        var l' := Enlarge(l, z, v, d - 1);
        Beside(Files(l), Files(l'), Files(r), multiset{z}, multiset{v});
        t' := Merge(l', r);
      } else {
        var r' := Enlarge(r, z, v, d - 1);
        Beside(Files(r), Files(r'), Files(l), multiset{z}, multiset{v});
        t' := Merge(l, r');
      }
  }

  /** The same for a file beside the hole. */
  lemma {:induction false} EnlargeAround(c: Context, z: nat, v: nat, d: nat) returns (c': Context)
    requires z in Around(c) && z <= v && Within(c, d)
    ensures Around(c') + multiset{z} == Around(c) + multiset{v}
    ensures WeightAround(c') == WeightAround(c) + (v - z)
    ensures Depth(c') == Depth(c) && Within(c', d)
    ensures CostAround(c') <= CostAround(c) + Paid(v - z, d)
  {
    var s, c1 := if c.InFirst? then c.second else c.first, c.c;
    if z in Files(s) {
      var s' := Enlarge(s, z, v, d - 1);
      Beside(Files(s), Files(s'), Around(c1), multiset{z}, multiset{v});
      c' := if c.InFirst? then InFirst(c1, s') else InSecond(s', c1);
    } else {
      var c1' := EnlargeAround(c1, z, v, d - 1);
      Beside(Around(c1), Around(c1'), Files(s), multiset{z}, multiset{v});
      c' := if c.InFirst? then InFirst(c1', s) else InSecond(s, c1');
    }
  }

  /** Trade the file `v`, standing in the hole, for a file `z` no larger from outside. */
  lemma {:induction false} Trade(c: Context, z: nat, v: nat, d: nat) returns (c': Context)
    requires z in Around(c) + multiset{v} && z <= v && Within(c, d)
    ensures Around(c') + multiset{z} == Around(c) + multiset{v}
    ensures Depth(c') == Depth(c) && Within(c', d)
    ensures CostAround(c') + Paid(z, d) <= CostAround(c) + Paid(v, d)
  {
    if z == v {
      c' := c;
    } else {
      InFirstPart(Around(c), v, z);
      c' := EnlargeAround(c, z, v, d);
      PaidDifference(z, v, d);
    }
  }

  // ----- Optimality -----

  /** Any order can be rearranged, at no extra cost, to merge the two smallest files first. */
  lemma {:induction false} SmallestFirst(t: Order, rest: multiset<nat>, x: nat, y: nat) returns (t': Order)
    requires t.Merge? && TwoLeast(Files(t), rest, x, y)
    ensures Files(t') == rest + multiset{x + y}
    ensures x + y + Cost(t') <= Cost(t)
  {
    var c, a, b := DeepestPair(t);
    PlugFiles(c, Merge(File(a), File(b)));
    PlugPairCost(c, a, b, Depth(c));
    var c' := TradeBoth(c, Files(t), rest, a, b, x, y, Depth(c) + 1);
    t' := PlugSum(c', rest, x + y, x, y, Depth(c));
  }

  lemma {:induction false} PlugPairCost(c: Context, a: nat, b: nat, d: nat)
    requires d == Depth(c)
    ensures Cost(Plug(c, Merge(File(a), File(b)))) == CostAround(c) + Paid(a, d + 1) + Paid(b, d + 1)
  {
    PlugCost(c, Merge(File(a), File(b)));
    PaidIsAdditive(a, b, d);
  }

  lemma {:induction false} PlugSum(c: Context, rest: multiset<nat>, n: nat, x: nat, y: nat, d: nat) returns (t: Order)
    requires n == x + y && Around(c) == rest && d == Depth(c)
    ensures Files(t) == rest + multiset{n}
    ensures Cost(t) + x + y == CostAround(c) + Paid(x, d + 1) + Paid(y, d + 1)
  {
    t := Plug(c, File(n));
    PlugFiles(c, File(n));
    PlugSumCost(c, n, x, y, d);
  }

  lemma {:induction false} PlugSumCost(c: Context, n: nat, x: nat, y: nat, d: nat)
    requires n == x + y && d == Depth(c)
    ensures Cost(Plug(c, File(n))) + x + y == CostAround(c) + Paid(x, d + 1) + Paid(y, d + 1)
  {
    PlugCost(c, File(n));
    PaidIsAdditive(x, y, d);
  }

  /** Bring the two smallest files into the deepest pair, sending `a` and `b` outside. */
  lemma {:induction false} TradeBoth(c: Context, sizes: multiset<nat>, rest: multiset<nat>,
                                     a: nat, b: nat, x: nat, y: nat, d: nat) returns (c': Context)
    requires sizes == Around(c) + (multiset{a} + multiset{b}) && Within(c, d)
    requires TwoLeast(sizes, rest, x, y)
    ensures Around(c') == rest && Depth(c') == Depth(c)
    ensures CostAround(c') + Paid(x, d) + Paid(y, d) <= CostAround(c) + Paid(a, d) + Paid(b, d)
  {
    if x == b {
      c' := TradeInTurn(c, sizes, rest, b, a, x, y, d);
    } else {
      c' := TradeInTurn(c, sizes, rest, a, b, x, y, d);
    }
  }

  lemma {:induction false} TradeInTurn(c: Context, sizes: multiset<nat>, rest: multiset<nat>,
                                       p: nat, q: nat, x: nat, y: nat, d: nat) returns (c': Context)
    requires sizes == (Around(c) + multiset{p}) + multiset{q} && Within(c, d) && (x == q ==> x == p)
    requires TwoLeast(sizes, rest, x, y)
    ensures Around(c') == rest && Depth(c') == Depth(c)
    ensures CostAround(c') + Paid(x, d) + Paid(y, d) <= CostAround(c) + Paid(p, d) + Paid(q, d)
  {
    InFirstPart(Around(c) + multiset{p}, q, x);
    assert p in sizes;
    var c1 := Trade(c, x, p, d);
    Regroup(sizes, Around(c), Around(c1), rest + multiset{y}, p, q, x);
    assert q in rest + multiset{y};
    c' := Trade(c1, y, q, d);
    Cancel(Around(c'), rest, y);
  }

  lemma {:induction false} Regroup(sizes: multiset<nat>, a: multiset<nat>, a': multiset<nat>, b: multiset<nat>,
                                   p: nat, q: nat, x: nat)
    requires sizes == (a + multiset{p}) + multiset{q} && sizes == b + multiset{x}
    requires a' + multiset{x} == a + multiset{p}
    ensures a' + multiset{q} == b
  {
    Exchange(a', multiset{q}, x);
    Cancel(a' + multiset{q}, b, x);
  }

  /** Undo one merge inside an order: split a file of size `z` into two. */
  lemma {:induction false} Split(t: Order, z: nat, x: nat, y: nat) returns (t': Order)
    requires z in Files(t) && z == x + y
    ensures Files(t') + multiset{z} == Files(t) + (multiset{x} + multiset{y})
    ensures Weight(t') == Weight(t)
    ensures Cost(t') == Cost(t) + z
  {
    match t
    case File(_) =>
      t' := Merge(File(x), File(y));
    case Merge(l, r) =>
      if z in Files(l) {
        var l' := Split(l, z, x, y);
        Beside(Files(l), Files(l'), Files(r), multiset{z}, multiset{x} + multiset{y});
        t' := Merge(l', r);
      } else {
        var r' := Split(r, z, x, y);
        Beside(Files(r), Files(r'), Files(l), multiset{z}, multiset{x} + multiset{y});
        t' := Merge(l, r');
      }
  }

  lemma {:induction false} NotOneFile(t: Order, rest: multiset<nat>, x: nat, y: nat)
    requires Files(t) == (rest + multiset{y}) + multiset{x}
    ensures t.Merge?
  {
    assert |(rest + multiset{y}) + multiset{x}| >= 2;
  }

  /** Splitting the merged file again turns an order of the rest into an order of all files. */
  lemma {:induction false} MergedFirst(t: Order, sizes: multiset<nat>, rest: multiset<nat>, x: nat,
                                       y: nat) returns (t': Order)
    requires sizes == (rest + multiset{y}) + multiset{x} && Files(t) == rest + multiset{x + y}
    ensures Files(t') == sizes && Cost(t') == Cost(t) + x + y
  {
    t' := Split(t, x + y, x, y);
    assert (rest + multiset{x + y}) + (multiset{x} + multiset{y}) == sizes + multiset{x + y};
    Cancel(Files(t'), sizes, x + y);
  }

  /** Merging the two smallest files first is part of a cheapest way to merge all of them. */
  lemma {:induction false} MergeTwoSmallest(sizes: multiset<nat>, rest: multiset<nat>, x: nat, y: nat, cost: nat)
    requires TwoLeast(sizes, rest, x, y) && IsCheapest(rest + multiset{x + y}, cost)
    ensures IsCheapest(sizes, x + y + cost)
  {
    forall t | Files(t) == sizes ensures x + y + cost <= Cost(t) {
      NotOneFile(t, rest, x, y);
      var t' := SmallestFirst(t, rest, x, y);
    }
    var t :| Files(t) == rest + multiset{x + y} && Cost(t) == cost;
    var t' := MergedFirst(t, sizes, rest, x, y);
  }

  /** Whatever finishing from `sizes` costs at least, `cost` more is what all of it costs at least. */
  ghost predicate Spent(initial: multiset<nat>, sizes: multiset<nat>, cost: nat) {
    forall c :: IsCheapest(sizes, c) ==> IsCheapest(initial, cost + c)
  }

  /** Merging the two smallest sizes costs their sum. */
  lemma {:induction false} SpentStep(initial: multiset<nat>, sizes: multiset<nat>, cost: nat, rest: multiset<nat>,
                                     x: nat, y: nat,
                                     sizes': multiset<nat>, cost': nat)
    requires Spent(initial, sizes, cost) && TwoLeast(sizes, rest, x, y)
    requires sizes' == rest + multiset{x + y} && cost' == cost + x + y
    ensures Spent(initial, sizes', cost')
  {
    forall c: nat | IsCheapest(sizes', c) ensures IsCheapest(initial, cost' + c) {
      MergeTwoSmallest(sizes, rest, x, y, c);
      assert IsCheapest(initial, cost + (x + y + c));
    }
  }

  lemma {:induction false} NothingToMerge(n: nat)
    ensures IsCheapest(multiset{n}, 0)
  {
    assert Files(File(n)) == multiset{n} && Cost(File(n)) == 0;
  }
}
