/**
 The number of comparisons of a project, computed in two ways: by the packages of a run, which
 go through pairs of providers and then blocks, and by the figure shown to users, which goes
 through blocks and then pairs of counts. Both are the same number.
 */
module ComparisonTotals {
  import opened Collections
  import opened WorkPackages
  import opened Coverage

  // ----- Sums -----

  function Sum(s: seq<nat>): nat {
    if s == [] then 0 else s[0] + Sum(s[1..])
  }

  function SumOfSquares(s: seq<nat>): nat {
    if s == [] then 0 else s[0] * s[0] + SumOfSquares(s[1..])
  }

  /** The sum of the products of all pairs of positions. */
  function PairSum(s: seq<nat>): nat {
    if s == [] then 0 else s[0] * Sum(s[1..]) + PairSum(s[1..])
  }

  lemma {:induction false} PairSumFormula(s: seq<nat>)
    ensures 2 * PairSum(s) + SumOfSquares(s) == Sum(s) * Sum(s)
  {
    if s != [] {
      PairSumFormula(s[1..]);
      Binomial(s[0], Sum(s[1..]), PairSum(s[1..]), SumOfSquares(s[1..]));
    }
  }

  lemma {:induction false} Binomial(x: nat, r: nat, p: nat, q: nat)
    requires 2 * p + q == r * r
    ensures 2 * (x * r + p) + (x * x + q) == (x + r) * (x + r)
  {
    assert (x + r) * (x + r) == x * (x + r) + r * (x + r);
  }

  lemma {:induction false} SumWithout(s: seq<nat>, k: nat)
    requires k < |s|
    ensures Sum(s) == s[k] + Sum(Without(s, k))
    ensures SumOfSquares(s) == s[k] * s[k] + SumOfSquares(Without(s, k))
  {
    if k == 0 {
      assert Without(s, 0) == s[1..];
    } else {
      SumWithout(s[1..], k - 1);
      assert Without(s, k) == [s[0]] + Without(s[1..], k - 1);
    }
  }

  lemma {:induction false} SumsOfPermutation(s: seq<nat>, t: seq<nat>)
    requires multiset(s) == multiset(t)
    ensures Sum(s) == Sum(t) && SumOfSquares(s) == SumOfSquares(t)
  {
    if s == [] {
      assert |multiset(t)| == 0;
    } else {
      var k := SameElement(s, t, 0);
      assert Without(s, 0) == s[1..];
      SumsOfPermutation(s[1..], Without(t, k));
      SumWithout(t, k);
    }
  }

  /** The order in which the counts of a block are collected does not matter. */
  lemma {:induction false} PairSumOfPermutation(s: seq<nat>, t: seq<nat>)
    requires multiset(s) == multiset(t)
    ensures PairSum(s) == PairSum(t)
  {
    SumsOfPermutation(s, t);
    PairSumFormula(s);
    PairSumFormula(t);
  }

  // ----- The figure shown to users -----

  /** One result row of the query: a block name and the counts of the providers that have it. */
  datatype Row = Row(name: string, counts: seq<nat>)

  function TotalOf(rows: seq<Row>): nat {
    if rows == [] then 0 else PairSum(rows[0].counts) + TotalOf(rows[1..])
  }

  method SumProducts(x: nat, s: seq<nat>) returns (total: nat)
    ensures total == x * Sum(s)
  {
    total := 0;
    for j := 0 to |s|
      invariant total + x * Sum(s[j..]) == x * Sum(s)
    {
      assert s[j..][1..] == s[j + 1..];
      Distribute(x, s[j], Sum(s[j + 1..]));
      total := total + x * s[j];
    }
    assert s[|s|..] == [];
  }

  /** Add up the products of all pairs of counts. */
  method SumPairs(counts: seq<nat>) returns (total: nat)
    ensures total == PairSum(counts)
  {
    total := 0;
    for i := 0 to |counts|
      invariant total + PairSum(counts[i..]) == PairSum(counts)
    {
      assert counts[i..][1..] == counts[i + 1..];
      var products := SumProducts(counts[i], counts[i + 1..]);
      total := total + products;
    }
    assert counts[|counts|..] == [];
  }

  method GetTotalComparisons(rows: seq<Row>) returns (total: nat)
    ensures total == TotalOf(rows)
  {
    total := 0;
    for n := 0 to |rows|
      invariant total + TotalOf(rows[n..]) == TotalOf(rows)
    {
      assert rows[n..][1..] == rows[n + 1..];
      var inBlock := SumPairs(rows[n].counts);
      total := total + inBlock;
    }
    assert rows[|rows|..] == [];
  }

  /** The counts of a block name, over a list of providers. */
  function CountsOf(md: Metadata, name: string, ds: seq<nat>): seq<nat> {
    if ds == [] then []
    else
      (if ds[0] in md.sizes && name in md.sizes[ds[0]] then [md.sizes[ds[0]][name]] else [])
      + CountsOf(md, name, ds[1..])
  }

  ghost predicate ListsAllNames(md: Metadata, rows: seq<Row>)
    requires md.Valid()
  {
    forall d, name | d in md.dps && name in md.sizes[d] :: exists r | r in rows :: r.name == name
  }

  /** The rows group the block sizes of all providers of the project by block name. */
  ghost predicate GroupedByName(md: Metadata, rows: seq<Row>)
    requires md.Valid()
  {
    && (forall i, j | 0 <= i < j < |rows| :: rows[i].name != rows[j].name)
    && (forall r | r in rows :: multiset(r.counts) == multiset(CountsOf(md, r.name, md.dps)))
    && ListsAllNames(md, rows)
  }

  // ----- The packages -----

  lemma {:induction false} ComparisonsConcat(a: seq<Chunk>, b: seq<Chunk>)
    ensures Comparisons(a + b) == Comparisons(a) + Comparisons(b)
  {
    if b == [] {
      assert a + b == a;
    } else {
      assert (a + b)[..|a + b| - 1] == a + b[..|b| - 1];
      ComparisonsConcat(a, b[..|b| - 1]);
    }
  }

  function PackagesTotal(packages: seq<Package>): nat {
    if packages == [] then 0 else PackagesTotal(packages[..|packages| - 1]) + Comparisons(packages[|packages| - 1])
  }

  lemma {:induction false} FlattenTotal(packages: seq<Package>)
    ensures Comparisons(Flatten(packages)) == PackagesTotal(packages)
  {
    if packages != [] {
      FlattenTotal(packages[..|packages| - 1]);
      ComparisonsConcat(Flatten(packages[..|packages| - 1]), packages[|packages| - 1]);
    }
  }

  // Counting the cells of a tiling, row by row.

  function RowCount(ts: seq<Tile>, x: nat, n: nat): nat {
    if n == 0 then 0 else RowCount(ts, x, n - 1) + CoverCount(ts, x, n - 1)
  }

  function CellCount(ts: seq<Tile>, m: nat, n: nat): nat {
    if m == 0 then 0 else CellCount(ts, m - 1, n) + RowCount(ts, m - 1, n)
  }

  lemma {:induction false} RowOfOnes(ts: seq<Tile>, x: nat, n: nat)
    requires forall y: nat | y < n :: CoverCount(ts, x, y) == 1
    ensures RowCount(ts, x, n) == n
  {
    if n > 0 {
      RowOfOnes(ts, x, n - 1);
    }
  }

  lemma {:induction false} CellsOfOnes(ts: seq<Tile>, m: nat, n: nat)
    requires forall x: nat, y: nat | x < m && y < n :: CoverCount(ts, x, y) == 1
    ensures CellCount(ts, m, n) == m * n
  {
    if m > 0 {
      CellsOfOnes(ts, m - 1, n);
      RowOfOnes(ts, m - 1, n);
      assert m * n == (m - 1) * n + n;
    }
  }

  function Clip(lo: nat, hi: nat, n: nat): nat {
    if n <= lo then 0 else if n <= hi then n - lo else if lo <= hi then hi - lo else 0
  }

  lemma {:induction false} RowNext(ts: seq<Tile>, t: Tile, x: nat, n: nat)
    requires t.lo2 < t.hi2
    ensures RowCount(ts + [t], x, n) == RowCount(ts, x, n) + if t.lo1 <= x < t.hi1 then Clip(t.lo2, t.hi2, n) else 0
  {
    if n > 0 {
      RowNext(ts, t, x, n - 1);
      ConcatLast(ts, t);
    }
  }

  lemma {:induction false} CellsNext(ts: seq<Tile>, t: Tile, m: nat, n: nat)
    requires t.lo1 < t.hi1 && t.lo2 < t.hi2
    ensures CellCount(ts + [t], m, n) == CellCount(ts, m, n) + Clip(t.lo1, t.hi1, m) * Clip(t.lo2, t.hi2, n)
  {
    if m > 0 {
      CellsNext(ts, t, m - 1, n);
      RowNext(ts, t, m - 1, n);
      var w := Clip(t.lo2, t.hi2, n);
      assert (Clip(t.lo1, t.hi1, m - 1) + 1) * w == Clip(t.lo1, t.hi1, m - 1) * w + w;
    }
  }

  lemma {:induction false} NoCells(m: nat, n: nat)
    ensures CellCount([], m, n) == 0 && forall x: nat :: RowCount([], x, n) == 0
  {
    forall x: nat ensures RowCount([], x, n) == 0 {
      NoRow(x, n);
    }
    if m > 0 {
      NoCells(m - 1, n);
    }
  }

  lemma {:induction false} NoRow(x: nat, n: nat)
    ensures RowCount([], x, n) == 0
  {
    if n > 0 {
      NoRow(x, n - 1);
    }
  }

  lemma {:induction false} TilesArea(md: Metadata, b: CommonBlock, ts: seq<Tile>, m: nat, n: nat)
    requires md.Known(b) && forall t | t in ts :: TileFits(t, m, n)
    ensures Comparisons(TileChunks(md, b, ts)) == CellCount(ts, m, n)
  {
    if ts == [] {
      NoCells(m, n);
    } else {
      var init, t := ts[..|ts| - 1], ts[|ts| - 1];
      TilesArea(md, b, init, m, n);
      assert ts == init + [t] && t in ts && TileFits(t, m, n);
      CellsNext(init, t, m, n);
      ConcatLast(TileChunks(md, b, init), MakeChunk(md, b, t));
    }
  }

  /** However a block is chunked, its chunks add up to the product of the two block sizes. */
  lemma {:induction false} BlockTotal(md: Metadata, aim: nat, split: (nat, nat) -> seq<Tile>, b: CommonBlock)
    requires md.Known(b) && ExactSplitter(split, aim)
    ensures Comparisons(ChunksFor(md, aim, split, b)) == BlockArea(md, b)
  {
    if BlockArea(md, b) > aim {
      var ts := split(md.Size1(b), md.Size2(b));
      TilesArea(md, b, ts, md.Size1(b), md.Size2(b));
      CellsOfOnes(ts, md.Size1(b), md.Size2(b));
    } else {
      FullArea(md, b);
      assert [FullChunk(md, b)][..0] == [];
    }
  }

  // ----- Adding up all blocks -----

  ghost function Weight(md: Metadata, b: CommonBlock): nat {
    if md.Known(b) then BlockArea(md, b) else 0
  }

  ghost function AreaSum(md: Metadata, blocks: seq<CommonBlock>): nat {
    if blocks == [] then 0 else AreaSum(md, blocks[..|blocks| - 1]) + Weight(md, blocks[|blocks| - 1])
  }

  lemma {:induction false} AreaSumConcat(md: Metadata, a: seq<CommonBlock>, b: seq<CommonBlock>)
    ensures AreaSum(md, a + b) == AreaSum(md, a) + AreaSum(md, b)
  {
    if b == [] {
      assert a + b == a;
    } else {
      assert (a + b)[..|a + b| - 1] == a + b[..|b| - 1];
      AreaSumConcat(md, a, b[..|b| - 1]);
    }
  }

  lemma {:induction false} AreaSumOne(md: Metadata, b: CommonBlock)
    ensures AreaSum(md, [b]) == Weight(md, b)
  {
    assert [b][..0] == [];
  }

  lemma {:induction false} AreaSumWithout(md: Metadata, a: seq<CommonBlock>, k: nat)
    requires k < |a|
    ensures AreaSum(md, a) == AreaSum(md, Without(a, k)) + Weight(md, a[k])
  {
    assert a == a[..k] + ([a[k]] + a[k + 1..]);
    AreaSumConcat(md, a[..k], [a[k]] + a[k + 1..]);
    AreaSumConcat(md, [a[k]], a[k + 1..]);
    AreaSumConcat(md, a[..k], a[k + 1..]);
    AreaSumOne(md, a[k]);
  }

  lemma {:induction false} AreaSumOfPermutation(md: Metadata, a: seq<CommonBlock>, b: seq<CommonBlock>)
    requires multiset(a) == multiset(b)
    ensures AreaSum(md, a) == AreaSum(md, b)
  {
    if a == [] {
      assert |multiset(b)| == 0;
    } else {
      var last := |a| - 1;
      var k := SameElement(a, b, last);
      AreaSumOfPermutation(md, Without(a, last), Without(b, k));
      AreaSumWithout(md, a, last);
      AreaSumWithout(md, b, k);
    }
  }

  lemma {:induction false} ChunksTotal(md: Metadata, aim: nat, split: (nat, nat) -> seq<Tile>, blocks: seq<CommonBlock>)
    requires AllKnown(md, blocks) && ExactSplitter(split, aim)
    ensures Comparisons(AllChunks(md, aim, split, blocks)) == AreaSum(md, blocks)
  {
    if blocks != [] {
      var init, b := blocks[..|blocks| - 1], blocks[|blocks| - 1];
      ChunksTotal(md, aim, split, init);
      BlockTotal(md, aim, split, b);
      ComparisonsConcat(AllChunks(md, aim, split, init), ChunksFor(md, aim, split, b));
    }
  }

  // The same blocks, listed by name and then by pair of providers.

  predicate Has(md: Metadata, d: nat, name: string) {
    d in md.sizes && name in md.sizes[d]
  }

  function PairsWith(md: Metadata, name: string, d: nat, ds: seq<nat>): seq<CommonBlock> {
    if ds == [] then []
    else (if Has(md, ds[0], name) then [CommonBlock(name, d, ds[0])] else []) + PairsWith(md, name, d, ds[1..])
  }

  function PairsOf(md: Metadata, name: string, ds: seq<nat>): seq<CommonBlock> {
    if ds == [] then []
    else (if Has(md, ds[0], name) then PairsWith(md, name, ds[0], ds[1..]) else []) + PairsOf(md, name, ds[1..])
  }

  function ByName(md: Metadata, rows: seq<Row>): seq<CommonBlock> {
    if rows == [] then [] else PairsOf(md, rows[0].name, md.dps) + ByName(md, rows[1..])
  }

  lemma {:induction false} PairsWithTotal(md: Metadata, name: string, d: nat, ds: seq<nat>)
    requires md.Valid() && d in md.dps && Has(md, d, name) && forall e | e in ds :: e in md.dps
    ensures AreaSum(md, PairsWith(md, name, d, ds)) == md.sizes[d][name] * Sum(CountsOf(md, name, ds))
  {
    if ds != [] {
      PairsWithTotal(md, name, d, ds[1..]);
      if Has(md, ds[0], name) {
        var b := CommonBlock(name, d, ds[0]);
        AreaSumConcat(md, [b], PairsWith(md, name, d, ds[1..]));
        AreaSumOne(md, b);
        SumFirst(md.sizes[ds[0]][name], CountsOf(md, name, ds[1..]));
        Distribute(md.sizes[d][name], md.sizes[ds[0]][name], Sum(CountsOf(md, name, ds[1..])));
      } else {
        assert [] + PairsWith(md, name, d, ds[1..]) == PairsWith(md, name, d, ds[1..]);
        assert [] + CountsOf(md, name, ds[1..]) == CountsOf(md, name, ds[1..]);
      }
    }
  }

  lemma {:induction false} Distribute(a: nat, b: nat, c: nat)
    ensures a * (b + c) == a * b + a * c
  {}

  lemma {:induction false} SumFirst(x: nat, s: seq<nat>)
    ensures Sum([x] + s) == x + Sum(s) && PairSum([x] + s) == x * Sum(s) + PairSum(s)
  {
    assert ([x] + s)[1..] == s;
  }

  lemma {:induction false} PairsOfTotal(md: Metadata, name: string, ds: seq<nat>)
    requires md.Valid() && forall e | e in ds :: e in md.dps
    ensures AreaSum(md, PairsOf(md, name, ds)) == PairSum(CountsOf(md, name, ds))
  {
    if ds != [] {
      PairsOfTotal(md, name, ds[1..]);
      if Has(md, ds[0], name) {
        AreaSumConcat(md, PairsWith(md, name, ds[0], ds[1..]), PairsOf(md, name, ds[1..]));
        PairsWithTotal(md, name, ds[0], ds[1..]);
        SumFirst(md.sizes[ds[0]][name], CountsOf(md, name, ds[1..]));
      } else {
        assert [] + PairsOf(md, name, ds[1..]) == PairsOf(md, name, ds[1..]);
        assert [] + CountsOf(md, name, ds[1..]) == CountsOf(md, name, ds[1..]);
      }
    }
  }

  lemma {:induction false} ByNameTotal(md: Metadata, rows: seq<Row>)
    requires md.Valid() && forall r | r in rows :: multiset(r.counts) == multiset(CountsOf(md, r.name, md.dps))
    ensures AreaSum(md, ByName(md, rows)) == TotalOf(rows)
  {
    if rows != [] {
      ByNameTotal(md, rows[1..]);
      AreaSumConcat(md, PairsOf(md, rows[0].name, md.dps), ByName(md, rows[1..]));
      PairsOfTotal(md, rows[0].name, md.dps);
      PairSumOfPermutation(rows[0].counts, CountsOf(md, rows[0].name, md.dps));
    }
  }

  // Both lists hold each common block once.

  lemma {:induction false} PairsWithMembers(md: Metadata, name: string, d: nat, ds: seq<nat>)
    requires Distinct(ds)
    ensures Distinct(PairsWith(md, name, d, ds))
    ensures forall b :: b in PairsWith(md, name, d, ds) <==>
        b.name == name && b.dp1 == d && b.dp2 in ds && Has(md, b.dp2, name)
  {
    if ds != [] {
      PairsWithMembers(md, name, d, ds[1..]);
      var first := if Has(md, ds[0], name) then [CommonBlock(name, d, ds[0])] else [];
      assert ds[0] !in ds[1..];
      DistinctConcat(first, PairsWith(md, name, d, ds[1..]));
    }
  }

  /** `b` pairs an earlier with a later provider of the list, and both have the block. */
  ghost predicate PairedIn(md: Metadata, name: string, ds: seq<nat>, b: CommonBlock) {
    && b.name == name && Has(md, b.dp1, name) && Has(md, b.dp2, name)
    && exists i, j | 0 <= i < j < |ds| :: ds[i] == b.dp1 && ds[j] == b.dp2
  }

  lemma {:induction false} PairedFirst(md: Metadata, name: string, ds: seq<nat>, b: CommonBlock)
    requires ds != []
    ensures PairedIn(md, name, ds, b) <==>
      (b.name == name && Has(md, ds[0], name) && b.dp1 == ds[0] && b.dp2 in ds[1..] && Has(md, b.dp2, name))
      || PairedIn(md, name, ds[1..], b)
  {
    if PairedIn(md, name, ds[1..], b) {
      var i, j :| 0 <= i < j < |ds[1..]| && ds[1..][i] == b.dp1 && ds[1..][j] == b.dp2;
      assert ds[i + 1] == b.dp1 && ds[j + 1] == b.dp2;
    }
    if PairedIn(md, name, ds, b) {
      var i, j :| 0 <= i < j < |ds| && ds[i] == b.dp1 && ds[j] == b.dp2;
      assert ds[1..][j - 1] == b.dp2;
      if i > 0 {
        assert ds[1..][i - 1] == b.dp1;
      }
    }
    if b.dp1 == ds[0] && b.dp2 in ds[1..] {
      var j :| 0 <= j < |ds[1..]| && ds[1..][j] == b.dp2;
      assert ds[0] == b.dp1 && ds[j + 1] == b.dp2;
    }
  }

  lemma {:induction false} PairsOfMembers(md: Metadata, name: string, ds: seq<nat>)
    requires Distinct(ds)
    ensures Distinct(PairsOf(md, name, ds))
    ensures forall b :: b in PairsOf(md, name, ds) <==> PairedIn(md, name, ds, b)
  {
    if ds != [] {
      PairsOfMembers(md, name, ds[1..]);
      PairsWithMembers(md, name, ds[0], ds[1..]);
      var first := if Has(md, ds[0], name) then PairsWith(md, name, ds[0], ds[1..]) else [];
      forall b ensures b in PairsOf(md, name, ds) <==> PairedIn(md, name, ds, b) {
        PairedFirst(md, name, ds, b);
      }
      assert ds[0] !in ds[1..];
      DistinctConcat(first, PairsOf(md, name, ds[1..]));
    }
  }

  lemma {:induction false} ByNameMembers(md: Metadata, rows: seq<Row>)
    requires md.Valid() && forall i, j | 0 <= i < j < |rows| :: rows[i].name != rows[j].name
    ensures Distinct(ByName(md, rows))
    ensures forall b :: b in ByName(md, rows) <==>
        (exists r | r in rows :: r.name == b.name) && PairedIn(md, b.name, md.dps, b)
  {
    if rows != [] {
      ByNameMembers(md, rows[1..]);
      PairsOfMembers(md, rows[0].name, md.dps);
      DistinctConcat(PairsOf(md, rows[0].name, md.dps), ByName(md, rows[1..]));
      assert rows == [rows[0]] + rows[1..];
    }
  }

  /**
   The comparisons of all packages of a run add up to the total shown to users, however blocks
   are enumerated and counts collected, and however large blocks are tiled.
   */
  lemma {:induction false} ComparisonsAreConserved(md: Metadata, aim: nat, split: (nat, nat) -> seq<Tile>,
                                                   blocks: seq<CommonBlock>, packages: seq<Package>, rows: seq<Row>)
    requires md.Valid() && ExactSplitter(split, aim) && GroupedByName(md, rows)
    requires AllKnown(md, blocks) && Distinct(blocks) && forall b :: b in blocks <==> IsCommon(md, b)
    requires Flatten(packages) == AllChunks(md, aim, split, blocks)
    ensures PackagesTotal(packages) == TotalOf(rows)
  {
    FlattenTotal(packages);
    ChunksTotal(md, aim, split, blocks);
    ByNameTotal(md, rows);
    SameBlocks(md, blocks, rows);
    SameMembers(blocks, ByName(md, rows));
    AreaSumOfPermutation(md, blocks, ByName(md, rows));
  }

  lemma {:induction false} SameBlocks(md: Metadata, blocks: seq<CommonBlock>, rows: seq<Row>)
    requires md.Valid() && GroupedByName(md, rows)
    requires forall b :: b in blocks <==> IsCommon(md, b)
    ensures Distinct(ByName(md, rows)) && forall b :: b in blocks <==> b in ByName(md, rows)
  {
    ByNameMembers(md, rows);
    forall b ensures b in blocks <==> b in ByName(md, rows) {
      CommonIsListed(md, rows, b);
    }
  }

  lemma {:induction false} CommonIsListed(md: Metadata, rows: seq<Row>, b: CommonBlock)
    requires md.Valid() && ListsAllNames(md, rows)
    ensures IsCommon(md, b) <==> (exists r | r in rows :: r.name == b.name) && PairedIn(md, b.name, md.dps, b)
  {
    if IsCommon(md, b) {
      var i, j :| 0 <= i < j < |md.dps| && md.dps[i] == b.dp1 && md.dps[j] == b.dp2 && b.name in md.sizes[b.dp1]
          && b.name in md.sizes[b.dp2];
      assert b.dp1 in md.dps;
    }
    if PairedIn(md, b.name, md.dps, b) {
      var i, j :| 0 <= i < j < |md.dps| && md.dps[i] == b.dp1 && md.dps[j] == b.dp2;
      assert IsCommon(md, b);
    }
  }

  // ----- How full packages are -----

  lemma {:induction false} NextFit(aim: nat, packages: seq<Package>)
    requires AllCrowded(aim, packages) && packages != []
    requires forall p | p in packages :: |p| < MAX_CHUNKS_PER_PACKAGE
    ensures (|packages| - 1) * aim + Comparisons(packages[|packages| - 1]) <= 2 * PackagesTotal(packages)
  {
    var init, last := packages[..|packages| - 1], packages[|packages| - 1];
    if init != [] {
      forall k | 0 <= k < |init| - 1 ensures Crowded(aim, init[k], init[k + 1]) {
        assert Crowded(aim, packages[k], packages[k + 1]);
      }
      NextFit(aim, init);
      assert Crowded(aim, packages[|packages| - 2], last);
      assert packages[|packages| - 2] in packages;
      AreaOfFirst(last);
      NextFitStep(|init| - 1, aim, PackagesTotal(init), Comparisons(init[|init| - 1]), Comparisons(last));
    }
  }

  lemma {:induction false} NextFitStep(k: nat, aim: nat, total: nat, c: nat, d: nat)
    requires k * aim + c <= 2 * total && c + d > aim
    ensures (k + 1) * aim + d <= 2 * (total + d)
  {
    assert (k + 1) * aim == k * aim + aim;
  }

  lemma {:induction false} AreaOfFirst(p: Package)
    requires |p| > 0
    ensures Area(p[0]) <= Comparisons(p)
  {
    if |p| > 1 {
      AreaOfFirst(p[..|p| - 1]);
    }
  }

  /** When no block is oversized and no package reaches the chunk limit, packages are half full on average. */
  lemma {:induction false} PackageBound(md: Metadata, blocks: seq<CommonBlock>, aim: nat, packages: seq<Package>)
    requires AllKnown(md, blocks) && NoneOversized(md, aim, blocks)
    requires AllCrowded(aim, packages) && forall p | p in packages :: |p| < MAX_CHUNKS_PER_PACKAGE
    ensures (|packages| - 1) * aim <= 2 * PackagesTotal(packages)
  {
    if packages != [] {
      NextFit(aim, packages);
    }
  }
}
