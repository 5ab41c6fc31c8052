/**
 The generator of test datasets with prescribed overlaps.

 Every non-empty group of datasets is given a target: how many records all of its members
 share. The generator visits the groups from the largest to the smallest, and tops up each
 intersection with fresh records. It gives up when an intersection is already too large. The
 theorem is that it then had to: either the result meets every target, or no family of
 datasets does.
 */
module OverlapGenerator {
  import opened Collections
  import opened Wrappers

  /** Datasets are sets of record numbers. */
  type Family = seq<set<nat>>

  predicate IsGroup(group: set<nat>, n: nat) {
    group != {} && group <= Indices(n)
  }

  /** The records that all datasets of the group have in common. */
  ghost function Shared(f: Family, group: set<nat>): (r: set<nat>)
    requires IsGroup(group, |f|)
    ensures forall x :: x in r <==> forall j | j in group :: x in f[j]
  {
    var some :| some in group;
    set x | x in f[some] && forall j | j in group :: x in f[j]
  }

  ghost predicate Meets(f: Family, target: set<nat> -> int) {
    forall group | IsGroup(group, |f|) :: |Shared(f, group)| == target(group)
  }

  // ----- Counting by inclusion and exclusion -----

  /** Records shared by the group that some dataset of `others` holds too. */
  ghost function SharedWithAny(f: Family, group: set<nat>, others: set<nat>): (r: set<nat>)
    requires IsGroup(group, |f|) && others <= Indices(|f|)
  {
    set x | x in Shared(f, group) && exists j | j in others :: x in f[j]
  }

  lemma {:induction false} UnionSize(a: set<nat>, b: set<nat>)
    ensures |a + b| + |a * b| == |a| + |b|
  {}

  lemma {:induction false} SplitOff(f: Family, group: set<nat>, others: set<nat>, j: nat)
    requires IsGroup(group, |f|) && others <= Indices(|f|) && j in others
    ensures IsGroup(group + {j}, |f|)
    ensures |SharedWithAny(f, group, others)| + |SharedWithAny(f, group + {j}, others - {j})|
         == |SharedWithAny(f, group, others - {j})| + |Shared(f, group + {j})|
  {
    var a, b := SharedWithAny(f, group, others - {j}), Shared(f, group + {j});
    assert SharedWithAny(f, group, others) == a + b;
    assert SharedWithAny(f, group + {j}, others - {j}) == a * b;
    UnionSize(a, b);
  }

  /** Two families agree on every group that properly contains `group`. */
  ghost predicate AgreeAbove(f: Family, g: Family, group: set<nat>) {
    |f| == |g| && forall h | IsGroup(h, |f|) && group < h :: |Shared(f, h)| == |Shared(g, h)|
  }

  /** How many shared records lie in further datasets is determined by the larger groups. */
  lemma {:induction false} SharedWithAnyDetermined(f: Family, g: Family, group: set<nat>, others: set<nat>)
    requires IsGroup(group, |f|) && others <= Indices(|f|) && others !! group && AgreeAbove(f, g, group)
    ensures |SharedWithAny(f, group, others)| == |SharedWithAny(g, group, others)|
    decreases |others|
  {
    if others == {} {
      assert SharedWithAny(f, group, others) == {} == SharedWithAny(g, group, others);
    } else {
      var j :| j in others;
      SplitOff(f, group, others, j);
      SplitOff(g, group, others, j);
      SharedWithAnyDetermined(f, g, group, others - {j});
      SharedWithAnyDetermined(f, g, group + {j}, others - {j});
    }
  }

  // ----- The state of the generator -----

  /** The datasets that hold record `x`. */
  ghost function Holders(f: Family, x: nat): (r: set<nat>)
    ensures forall j: nat :: j in r <==> j < |f| && x in f[j]
  {
    set j | j in Indices(|f|) && x in f[j]
  }

  ghost predicate OnTarget(f: Family, target: set<nat> -> int, done: set<set<nat>>) {
    forall g | g in done :: IsGroup(g, |f|) && |Shared(f, g)| == target(g)
  }

  /** Every group larger than one in `done` is in `done` too. */
  ghost predicate Closed(n: nat, done: set<set<nat>>) {
    forall g, h | g in done && IsGroup(h, n) && g <= h :: h in done
  }

  /** Each record made so far, numbered below `next`, belongs to exactly one group in `done`. */
  ghost predicate Recorded(f: Family, done: set<set<nat>>, next: nat) {
    forall x: nat | Holders(f, x) != {} :: x < next && Holders(f, x) in done
  }

  ghost predicate Progress(f: Family, target: set<nat> -> int, done: set<set<nat>>, next: nat) {
    OnTarget(f, target, done) && Closed(|f|, done) && Recorded(f, done, next)
  }

  /** A group is ready when only larger groups have been dealt with, and all of those. */
  ghost predicate Ready(group: set<nat>, n: nat, done: set<set<nat>>) {
    IsGroup(group, n) && group !in done && forall h | IsGroup(h, n) && group < h :: h in done
  }

  /** The datasets of the group with more records. */
  function Extended(f: Family, group: set<nat>, records: set<nat>): (f': Family)
    ensures |f'| == |f|
    ensures forall j: nat | j < |f| :: f'[j] == if j in group then f[j] + records else f[j]
  {
    seq(|f|, j requires 0 <= j < |f| => if j in group then f[j] + records else f[j])
  }

  lemma {:induction false} ExtendedHolders(f: Family, group: set<nat>, records: set<nat>, next: nat, x: nat)
    requires IsGroup(group, |f|) && forall r | r in records :: next <= r
    requires Holders(f, x) != {} ==> x < next
    ensures Holders(Extended(f, group, records), x) == if x in records then group else Holders(f, x)
  {}

  lemma {:induction false} ExtendedShared(f: Family, group: set<nat>, records: set<nat>, h: set<nat>)
    requires IsGroup(group, |f|) && IsGroup(h, |f|)
    requires forall x, j: nat | x in records && j < |f| :: x !in f[j]
    ensures Shared(Extended(f, group, records), h) == if h <= group then Shared(f, h) + records else Shared(f, h)
  {
    var f' := Extended(f, group, records);
    if h <= group {
      var some :| some in h;
      assert forall x :: x in Shared(f', h) <==> x in Shared(f, h) || x in records;
    } else {
      var outside :| outside in h && outside !in group;
      assert forall x | x in Shared(f', h) :: x in f'[outside];
      forall x ensures x in Shared(f', h) <==> x in Shared(f, h) {
        if x in Shared(f', h) {
          assert x in f[outside] && x !in records;
        }
      }
    }
  }

  lemma {:induction false} FreshRecords(f: Family, done: set<set<nat>>, next: nat, records: set<nat>)
    requires Recorded(f, done, next) && forall x | x in records :: next <= x
    ensures forall x, j: nat | x in records && j < |f| :: x !in f[j]
  {
    forall x, j: nat | x in records && j < |f| ensures x !in f[j] {
      assert x in f[j] ==> j in Holders(f, x);
    }
  }

  /** Topping up a ready group meets its target and disturbs no group dealt with before. */
  lemma {:induction false} TopUp(f: Family, target: set<nat> -> int, done: set<set<nat>>, next: nat,
                                 group: set<nat>, records: set<nat>, next': nat)
    requires Progress(f, target, done, next) && Ready(group, |f|, done)
    requires forall x | x in records :: next <= x < next'
    requires |Shared(f, group)| + |records| == target(group) && next <= next'
    ensures Progress(Extended(f, group, records), target, done + {group}, next')
  {
    FreshRecords(f, done, next, records);
    TargetsMet(f, target, done, next, group, records);
    RecordsKept(f, done, next, group, records, next');
    ClosedKept(|f|, done, group);
  }

  lemma {:induction false} ClosedKept(n: nat, done: set<set<nat>>, group: set<nat>)
    requires Closed(n, done) && Ready(group, n, done)
    ensures Closed(n, done + {group})
  {
    forall g, h | g in done + {group} && IsGroup(h, n) && g <= h ensures h in done + {group} {
      if g == group && h != group {
        assert group < h;
      }
    }
  }

  lemma {:induction false} RecordsKept(f: Family, done: set<set<nat>>, next: nat, group: set<nat>, records: set<nat>,
                                       next': nat)
    requires Recorded(f, done, next) && IsGroup(group, |f|) && next <= next'
    requires forall x | x in records :: next <= x < next'
    ensures Recorded(Extended(f, group, records), done + {group}, next')
  {
    var f' := Extended(f, group, records);
    forall x: nat | Holders(f', x) != {} ensures x < next' && Holders(f', x) in done + {group} {
      ExtendedHolders(f, group, records, next, x);
    }
  }

  lemma {:induction false} TargetsMet(f: Family, target: set<nat> -> int, done: set<set<nat>>, next: nat,
                                      group: set<nat>, records: set<nat>)
    requires Progress(f, target, done, next) && Ready(group, |f|, done)
    requires forall x, j: nat | x in records && j < |f| :: x !in f[j]
    requires |Shared(f, group)| + |records| == target(group)
    ensures OnTarget(Extended(f, group, records), target, done + {group})
  {
    forall h | h in done + {group} ensures IsGroup(h, |f|) && |Shared(Extended(f, group, records), h)| == target(h) {
      ExtendedShared(f, group, records, h);
      if h == group {
        var some :| some in group;
        assert Shared(f, group) !! records;
      }
    }
  }

  lemma {:induction false} HeldElsewhere(f: Family,
                                         target: set<nat> -> int, done: set<set<nat>>, next: nat, group: set<nat>,
                                         x: nat)
    requires Progress(f, target, done, next) && Ready(group, |f|, done) && x in Shared(f, group)
    ensures x in SharedWithAny(f, group, Indices(|f|) - group)
  {
    var some :| some in group;
    assert some in Holders(f, x) && group <= Holders(f, x);
    var j := FurtherMember(group, Holders(f, x));
  }

  lemma {:induction false} FurtherMember(a: set<nat>, b: set<nat>) returns (j: nat)
    requires a <= b && a != b
    ensures j in b && j !in a
  {
    assert b == a + (b - a);
    j :| j in b - a;
  }

  /** Every shared record lies in a further dataset, so a family that agrees above shares as many. */
  lemma {:induction false} SharesAsMany(f: Family, target: set<nat> -> int, done: set<set<nat>>, next: nat,
                                        group: set<nat>, g: Family)
    requires Progress(f, target, done, next) && Ready(group, |f|, done) && AgreeAbove(f, g, group)
    ensures |Shared(f, group)| <= |Shared(g, group)|
  {
    var others := Indices(|f|) - group;
    forall x | x in Shared(f, group) ensures x in SharedWithAny(f, group, others) {
      HeldElsewhere(f, target, done, next, group, x);
    }
    Smaller(Shared(f, group), SharedWithAny(f, group, others));
    SharedWithAnyDetermined(f, g, group, others);
    Smaller(SharedWithAny(g, group, others), Shared(g, group));
  }

  /** When an intersection is already too large, no family at all meets the targets. */
  lemma {:induction false} TooLarge(f: Family, target: set<nat> -> int, done: set<set<nat>>, next: nat,
                                    group: set<nat>, g: Family)
    requires Progress(f, target, done, next) && Ready(group, |f|, done)
    requires target(group) < |Shared(f, group)| && |g| == |f|
    ensures !Meets(g, target)
  {
    if Meets(g, target) {
      SharesAsMany(f, target, done, next, group, g);
    }
  }

  // ----- The generator -----

  /** The groups of a given size. */
  function GroupsOfSize(n: nat, size: nat): (r: set<set<nat>>)
    ensures forall g :: g in r <==> g <= Indices(n) && |g| == size
  {
    set g | g <= Indices(n) && |g| == size
  }

  /** Count what the members of the group share, by intersecting them one after the other. */
  method Intersection(f: Family, group: set<nat>) returns (r: set<nat>)
    requires IsGroup(group, |f|)
    ensures r == Shared(f, group)
  {
    var j :| j in group;
    var rest := group - {j};
    r := f[j];
    while rest != {}
      invariant rest <= group && j in group - rest
      invariant forall x :: x in r <==> forall k | k in group - rest :: x in f[k]
    {
      var k :| k in rest;
      r := r * f[k];
      rest := rest - {k};
    }
  }

  /** The groups larger than `size` have been dealt with. */
  ghost predicate DownTo(n: nat, done: set<set<nat>>, size: nat) {
    forall g | IsGroup(g, n) :: g in done <==> size < |g|
  }

  ghost predicate Impossible(n: nat, target: set<nat> -> int) {
    forall g: Family | |g| == n :: !Meets(g, target)
  }

  /** Deal with one group: give up, or top it up with fresh records. */
  method VisitGroup(f: Family, target: set<nat> -> int, ghost done: set<set<nat>>, next: nat, group: set<nat>)
    returns (r: Option<Family>, next': nat)
    requires Progress(f, target, done, next) && Ready(group, |f|, done)
    ensures r.Some? ==> |r.value| == |f| && Progress(r.value, target, done + {group}, next')
    ensures r.None? ==> Impossible(|f|, target)
  {
    var recordsN := target(group);
    var current := Intersection(f, group);
    if recordsN < |current| {
      forall g: Family | |g| == |f| ensures !Meets(g, target) {
        TooLarge(f, target, done, next, group, g);
      }
      return None, next;
    }
    next' := next + recordsN - |current|;
    TopUp(f, target, done, next, group, Range(next, next'), next');
    return Some(Extended(f, group, Range(next, next'))), next';
  }

  /**
   Generate `n` datasets that meet the targets, visiting the groups of each size in any order.
   `None` stands for the error raised when the targets cannot be met.
   */
  method Generate(n: nat, target: set<nat> -> int) returns (r: Option<Family>)
    ensures r.Some? ==> |r.value| == n && Meets(r.value, target)
    ensures r.None? ==> Impossible(n, target)
  {
    r := Some(seq(n, _ => {}));
    var next: nat, size: nat := 0, n;
    ghost var done: set<set<nat>> := {};
    forall g | IsGroup(g, n) ensures 0 < |g| <= n {
      Smaller(g, Indices(n));
    }
    while size > 0
      invariant r.Some? && |r.value| == n && Progress(r.value, target, done, next) && DownTo(n, done, size)
    {
      var todo := GroupsOfSize(n, size);
      while todo != {}
        invariant r.Some? && |r.value| == n && Progress(r.value, target, done, next)
        invariant todo <= GroupsOfSize(n, size)
        invariant forall g | IsGroup(g, n) :: g in done <==> size < |g| || (|g| == size && g !in todo)
      {
        var group :| group in todo;
        NextIsReady(n, done, size, todo, group);
        r, next := VisitGroup(r.value, target, done, next, group);
        if r.None? {
          return;
        }
        todo, done := todo - {group}, done + {group};
      }
      size := size - 1;
    }
  }

  lemma {:induction false} NextIsReady(n: nat, done: set<set<nat>>, size: nat, todo: set<set<nat>>, group: set<nat>)
    requires forall g | IsGroup(g, n) :: g in done <==> size < |g| || (|g| == size && g !in todo)
    requires group in todo && todo <= GroupsOfSize(n, size) && 0 < size
    requires forall g | g in done :: IsGroup(g, n)
    ensures Ready(group, n, done)
  {
    forall h | IsGroup(h, n) && group < h ensures h in done {
      assert h == group + (h - group);
      Smaller(group, h);
    }
  }

  // ----- The targets of the test data -----

  function Power(x: real, n: nat): real {
    if n == 0 then 1.0 else x * Power(x, n - 1)
  }

  /** Conversion to a whole number cuts off what follows the point. */
  function Truncated(x: real): int {
    if x >= 0.0 then x.Floor else -(-x).Floor
  }

  /** The size of the smallest dataset of a group. */
  function SmallestOf(sizes: seq<nat>, group: set<nat>): (m: nat)
    ensures group * Indices(|sizes|) != {} ==> exists j | j in group && j < |sizes| :: m == sizes[j]
    ensures forall j: nat | j in group && j < |sizes| :: m <= sizes[j]
  {
    if sizes == [] then 0
    else
      var last := |sizes| - 1;
      var others := SmallestOf(sizes[..last], group);
      if last !in group then others
      else if group * Indices(last) == {} || sizes[last] <= others then sizes[last]
      else others
  }

  /** The overlap applied so many times to a size. */
  function Portion(overlap: real, times: nat, size: nat): int {
    Truncated(Power(overlap, times) * size as real)
  }

  /** How many records a group is to share: the overlap, once for each further member, of the smallest dataset. */
  function RecordsToShare(sizes: seq<nat>, overlap: real, group: set<nat>): int {
    if group == {} then 0 else Portion(overlap, |group| - 1, SmallestOf(sizes, group))
  }

  // ----- What the targets mean -----

  lemma {:induction false} PowerOfOne(x: real)
    ensures Power(x, 0) == 1.0 && Power(x, 1) == x
  {
    assert Power(x, 0) == 1.0;
  }

  lemma {:induction false} PowerOfSum(x: real, m: nat, n: nat)
    ensures Power(x, m + n) == Power(x, m) * Power(x, n)
  {
    if m > 0 {
      PowerOfSum(x, m - 1, n);
      Associate(x, Power(x, m - 1), Power(x, n));
    }
  }

  lemma {:induction false} Associate(x: real, y: real, z: real)
    ensures x * (y * z) == (x * y) * z
  {}

  /** What remains of a number when all that follows the point is cut off. */
  ghost predicate WholePart(x: real, m: int) {
    if x >= 0.0 then m as real <= x < m as real + 1.0 else m as real - 1.0 < x <= m as real
  }

  ghost predicate IsSmallest(sizes: seq<nat>, group: set<nat>, d: nat) {
    d in group && d < |sizes| && forall j: nat | j in group && j < |sizes| :: sizes[d] <= sizes[j]
  }

  /**
   Every group of datasets shares as many records as the smallest of them has, times the overlap for
   each of the others, cut off to a whole number.
   */
  ghost predicate Overlapping(f: Family, sizes: seq<nat>, overlap: real) {
    |f| == |sizes| && forall group, d: nat | IsGroup(group, |f|) && IsSmallest(sizes, group, d) ::
      SharesPortion(f, group, overlap, sizes[d])
  }

  ghost predicate SharesPortion(f: Family, group: set<nat>, overlap: real, size: nat)
    requires IsGroup(group, |f|)
  {
    WholePart(Power(overlap, |group| - 1) * size as real, |Shared(f, group)|)
  }

  lemma {:induction false} SmallestExists(sizes: seq<nat>, group: set<nat>) returns (d: nat)
    requires IsGroup(group, |sizes|)
    ensures IsSmallest(sizes, group, d) && sizes[d] == SmallestOf(sizes, group)
  {
    assert group * Indices(|sizes|) == group;
    var m := SmallestOf(sizes, group);
    d :| d in group && d < |sizes| && m == sizes[d];
  }

  lemma {:induction false} TruncatedIsWhole(x: real, m: int)
    ensures WholePart(x, m) <==> m == Truncated(x)
  {}

  lemma {:induction false} SmallestIs(sizes: seq<nat>, group: set<nat>, d: nat)
    requires IsGroup(group, |sizes|) && IsSmallest(sizes, group, d)
    ensures SmallestOf(sizes, group) == sizes[d]
  {
    var e := SmallestExists(sizes, group);
  }

  lemma {:induction false} SharesTarget(f: Family, sizes: seq<nat>, overlap: real, group: set<nat>, d: nat)
    requires IsGroup(group, |f|) && |f| == |sizes| && IsSmallest(sizes, group, d)
    ensures SharesPortion(f, group, overlap, sizes[d]) <==> |Shared(f, group)| == RecordsToShare(sizes, overlap, group)
  {
    SmallestIs(sizes, group, d);
    TruncatedIsWhole(Power(overlap, |group| - 1) * sizes[d] as real, |Shared(f, group)|);
  }

  /** Meeting the targets is to overlap in this way. */
  lemma {:induction false} MeetsIffOverlapping(f: Family, sizes: seq<nat>, overlap: real)
    requires |f| == |sizes|
    ensures Meets(f, TargetFor(sizes, overlap)) <==> Overlapping(f, sizes, overlap)
  {
    forall group, d: nat | IsGroup(group, |f|) && IsSmallest(sizes, group, d)
      ensures SharesPortion(f, group, overlap, sizes[d])
         <==> |Shared(f, group)| == TargetFor(sizes, overlap)(group)
    {
      SharesTarget(f, sizes, overlap, group, d);
    }
    forall group | IsGroup(group, |f|) ensures exists d :: IsSmallest(sizes, group, d) {
      var d := SmallestExists(sizes, group);
    }
  }

  function TargetFor(sizes: seq<nat>, overlap: real): set<nat> -> int {
    group => RecordsToShare(sizes, overlap, group)
  }

  function Least(x: nat, y: nat): nat {
    if x <= y then x else y
  }

  /**
   Generate datasets of the given sizes with the given overlap, or raise an error because there
   are none. The result has the sizes asked for, and any two or more datasets share their overlap.
   */
  method GenerateOverlappingData(sizes: seq<nat>, overlap: real) returns (r: Option<Family>)
    ensures r.None? <==> forall f :: !Overlapping(f, sizes, overlap)
    ensures r.Some? ==> Overlapping(r.value, sizes, overlap)
    ensures r.Some? ==> forall d | 0 <= d < |sizes| :: |r.value[d]| == sizes[d]
    ensures r.Some? ==> forall c, d | 0 <= c < d < |sizes| ::
              WholePart(overlap * Least(sizes[c], sizes[d]) as real, |r.value[c] * r.value[d]|)
  {
    r := Generate(|sizes|, TargetFor(sizes, overlap));
    forall f: Family | |f| == |sizes|
      ensures Meets(f, TargetFor(sizes, overlap)) <==> Overlapping(f, sizes, overlap)
    {
      MeetsIffOverlapping(f, sizes, overlap);
    }
    if r.Some? {
      forall d | 0 <= d < |sizes| ensures |r.value[d]| == sizes[d] {
        OneDataset(r.value, sizes, overlap, d);
      }
      forall c, d | 0 <= c < d < |sizes|
        ensures WholePart(overlap * Least(sizes[c], sizes[d]) as real, |r.value[c] * r.value[d]|)
      {
        TwoDatasets(r.value, sizes, overlap, c, d);
        LowPortions(overlap, Least(sizes[c], sizes[d]));
        TruncatedIsWhole(overlap * Least(sizes[c], sizes[d]) as real, |r.value[c] * r.value[d]|);
      }
    }
  }

  lemma {:induction false} MetBy(f: Family, sizes: seq<nat>, overlap: real, group: set<nat>)
    requires Meets(f, TargetFor(sizes, overlap)) && IsGroup(group, |f|)
    ensures |Shared(f, group)| == RecordsToShare(sizes, overlap, group)
  {
    assert |Shared(f, group)| == TargetFor(sizes, overlap)(group);
  }

  lemma {:induction false} LowPortions(overlap: real, size: nat)
    ensures Portion(overlap, 0, size) == size
    ensures Portion(overlap, 1, size) == Truncated(overlap * size as real)
  {
    assert Power(overlap, 0) == 1.0;
    assert Power(overlap, 1) == overlap;
  }

  lemma {:induction false} OneDataset(f: Family, sizes: seq<nat>, overlap: real, d: nat)
    requires |f| == |sizes| && d < |sizes| && Meets(f, TargetFor(sizes, overlap))
    ensures |f[d]| == sizes[d]
  {
    MetBy(f, sizes, overlap, {d});
    assert Shared(f, {d}) == f[d];
    SmallestOfTwo(sizes, d, d);
    assert {d, d} == {d};
    LowPortions(overlap, sizes[d]);
  }

  lemma {:induction false} SmallestOfTwo(sizes: seq<nat>, c: nat, d: nat)
    requires c <= d < |sizes|
    ensures SmallestOf(sizes, {c, d}) == Least(sizes[c], sizes[d])
  {
    var m := SmallestOf(sizes, {c, d});
    assert c in {c, d} * Indices(|sizes|);
    assert m <= sizes[c] && m <= sizes[d];
  }

  lemma {:induction false} TwoDatasets(f: Family, sizes: seq<nat>, overlap: real, c: nat, d: nat)
    requires |f| == |sizes| && c < d < |sizes| && Meets(f, TargetFor(sizes, overlap))
    ensures |f[c] * f[d]| == Portion(overlap, 1, Least(sizes[c], sizes[d]))
  {
    SharedByTwo(f, c, d);
    MetBy(f, sizes, overlap, {c, d});
    RecordsOfTwo(sizes, overlap, c, d);
  }

  lemma {:induction false} PairSize(c: nat, d: nat)
    requires c != d
    ensures |{c, d}| == 2 && {c, d} != {}
  {}

  lemma {:induction false} RecordsOfTwo(sizes: seq<nat>, overlap: real, c: nat, d: nat)
    requires c < d < |sizes|
    ensures RecordsToShare(sizes, overlap, {c, d}) == Portion(overlap, 1, Least(sizes[c], sizes[d]))
  {
    PairSize(c, d);
    SmallestOfTwo(sizes, c, d);
  }

  lemma {:induction false} SharedByTwo(f: Family, c: nat, d: nat)
    requires c < d < |f|
    ensures IsGroup({c, d}, |f|) && Shared(f, {c, d}) == f[c] * f[d]
  {
    assert IsGroup({c, d}, |f|);
    forall x ensures x in Shared(f, {c, d}) <==> x in f[c] * f[d] {
      assert c in {c, d} && d in {c, d};
    }
  }
}
