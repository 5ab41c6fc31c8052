/**
 Splitting the comparisons of a run into work packages.

 Blocks that two data providers have in common are compared in full. Small blocks are bundled
 into packages, large ones are split into tiles by an external library of which only the
 contract is used: the tiles are not empty and cover the rectangle of comparisons exactly.
 */
module WorkPackages {
  import opened Collections

  const MAX_CHUNKS_PER_PACKAGE := 100000

  /** One block name that two data providers share. */
  datatype CommonBlock = CommonBlock(name: string, dp1: nat, dp2: nat)

  /** A range of the encodings that one provider has in one block. */
  datatype Side = Side(dp: nat, dataset: nat, block: nat, lo: nat, hi: nat)

  datatype Chunk = Chunk(left: Side, right: Side)

  type Package = seq<Chunk>

  datatype Tile = Tile(lo1: nat, hi1: nat, lo2: nat, hi2: nat)

  /** What is known of the providers: block sizes and block identifiers by name. */
  datatype Metadata = Metadata(dps: seq<nat>, sizes: map<nat, map<string, nat>>, lookups: map<nat, map<string, nat>>) {

    /** Provider identifiers are distinct, and both tables come from the same rows. */
    ghost predicate Valid() {
      && (forall i, j | 0 <= i < j < |dps| :: dps[i] != dps[j])
      && (forall d | d in dps :: d in sizes && d in lookups && lookups[d].Keys == sizes[d].Keys)
    }

    ghost predicate Known(b: CommonBlock) {
      && b.dp1 in dps && b.dp2 in dps
      && b.dp1 in sizes && b.dp2 in sizes && b.name in sizes[b.dp1] && b.name in sizes[b.dp2]
      && b.dp1 in lookups && b.dp2 in lookups && b.name in lookups[b.dp1] && b.name in lookups[b.dp2]
    }

    function Size1(b: CommonBlock): nat
      requires Known(b)
    {
      sizes[b.dp1][b.name]
    }

    function Size2(b: CommonBlock): nat
      requires Known(b)
    {
      sizes[b.dp2][b.name]
    }

    /** The position of a provider in the project. */
    function DatasetIndex(d: nat): (i: nat)
      requires d in dps
      ensures i < |dps| && dps[i] == d
    {
      LastIndex(dps, d)
    }
  }

  function LastIndex(s: seq<nat>, d: nat): (i: nat)
    requires d in s
    ensures i < |s| && s[i] == d && forall j | i < j < |s| :: s[j] != d
  {
    if s[|s| - 1] == d then |s| - 1 else LastIndex(s[..|s| - 1], d)
  }

  // ----- Common blocks -----

  ghost predicate IsCommon(md: Metadata, b: CommonBlock)
    requires md.Valid()
  {
    exists i, j | 0 <= i < j < |md.dps| ::
      md.dps[i] == b.dp1 && md.dps[j] == b.dp2 && b.name in md.sizes[b.dp1] && b.name in md.sizes[b.dp2]
  }

  /** All block names shared by two providers, for every pair of providers in project order. */
  method GetCommonBlocks(md: Metadata) returns (blocks: seq<CommonBlock>)
    requires md.Valid()
    ensures Distinct(blocks)
    ensures forall b :: b in blocks <==> IsCommon(md, b)
  {
    blocks := [];
    var n := |md.dps|;
    for i := 0 to n
      invariant Distinct(blocks)
      invariant forall b :: b in blocks <==> CommonBefore(md, b, i, 0)
    {
      for j := i + 1 to n
        invariant Distinct(blocks)
        invariant forall b :: b in blocks <==> CommonBefore(md, b, i, j)
      {
        var d1, d2 := md.dps[i], md.dps[j];
        var names := md.sizes[d1].Keys * md.sizes[d2].Keys;
        var todo := names;
        while todo != {}
          invariant todo <= names && Distinct(blocks)
          invariant forall b :: b in blocks <==>
            CommonBefore(md, b, i, j) || (b.dp1 == d1 && b.dp2 == d2 && b.name in names - todo)
        {
          var name :| name in todo;
          blocks := blocks + [CommonBlock(name, d1, d2)];
          todo := todo - {name};
        }
      }
    }
  }

  /** Shared by a pair of providers that comes before positions `i`, `j`. */
  ghost predicate CommonBefore(md: Metadata, b: CommonBlock, i: nat, j: nat)
    requires md.Valid()
  {
    exists k, l | 0 <= k < l < |md.dps| && (k < i || (k == i && l < j)) ::
      md.dps[k] == b.dp1 && md.dps[l] == b.dp2 && b.name in md.sizes[b.dp1] && b.name in md.sizes[b.dp2]
  }

  // ----- Packages -----

  /** Each side says at which position of the project its provider is, by which results are told apart. */
  predicate Labelled(dps: seq<nat>, c: Chunk) {
    && c.left.dataset < |dps| && dps[c.left.dataset] == c.left.dp
    && c.right.dataset < |dps| && dps[c.right.dataset] == c.right.dp
  }

  ghost predicate AllLabelled(dps: seq<nat>, cs: seq<Chunk>) {
    forall c | c in cs :: Labelled(dps, c)
  }

  /** The identifiers that turn two ranges into a chunk of a common block. */
  function MakeChunk(md: Metadata, b: CommonBlock, t: Tile): Chunk
    requires md.Known(b)
  {
    Chunk(Side(b.dp1, md.DatasetIndex(b.dp1), md.lookups[b.dp1][b.name], t.lo1, t.hi1),
          Side(b.dp2, md.DatasetIndex(b.dp2), md.lookups[b.dp2][b.name], t.lo2, t.hi2))
  }

  /** The chunk that compares a common block in full. */
  function FullChunk(md: Metadata, b: CommonBlock): Chunk
    requires md.Known(b)
  {
    MakeChunk(md, b, Tile(0, md.Size1(b), 0, md.Size2(b)))
  }

  function Comparisons(p: Package): nat {
    if p == [] then 0 else Comparisons(p[..|p| - 1]) + Area(p[|p| - 1])
  }

  function Area(c: Chunk): nat {
    if c.left.lo <= c.left.hi && c.right.lo <= c.right.hi
    then (c.left.hi - c.left.lo) * (c.right.hi - c.right.lo) else 0
  }

  function BlockArea(md: Metadata, b: CommonBlock): nat
    requires md.Known(b)
  {
    md.Size1(b) * md.Size2(b)
  }

  function TileChunks(md: Metadata, b: CommonBlock, ts: seq<Tile>): (cs: seq<Chunk>)
    requires md.Known(b)
    ensures |cs| == |ts|
  {
    if ts == [] then [] else TileChunks(md, b, ts[..|ts| - 1]) + [MakeChunk(md, b, ts[|ts| - 1])]
  }

  /** The chunks of one block: itself, or the tiles it is split into when it is too large. */
  function ChunksFor(md: Metadata, aim: nat, split: (nat, nat) -> seq<Tile>, b: CommonBlock): seq<Chunk>
    requires md.Known(b)
  {
    if BlockArea(md, b) > aim then TileChunks(md, b, split(md.Size1(b), md.Size2(b))) else [FullChunk(md, b)]
  }

  ghost predicate AllKnown(md: Metadata, blocks: seq<CommonBlock>) {
    forall b | b in blocks :: md.Known(b)
  }

  function AllChunks(md: Metadata, aim: nat, split: (nat, nat) -> seq<Tile>, blocks: seq<CommonBlock>): seq<Chunk>
    requires AllKnown(md, blocks)
  {
    if blocks == [] then []
    else AllChunks(md, aim, split, blocks[..|blocks| - 1]) + ChunksFor(md, aim, split, blocks[|blocks| - 1])
  }

  function Flatten(packages: seq<Package>): seq<Chunk> {
    if packages == [] then [] else Flatten(packages[..|packages| - 1]) + packages[|packages| - 1]
  }

  /** Every chunk of the package compares some common block in full. */
  ghost predicate AllFull(md: Metadata, blocks: seq<CommonBlock>, p: Package)
    requires AllKnown(md, blocks)
  {
    forall c | c in p :: exists b | b in blocks :: c == FullChunk(md, b)
  }

  /** A package is a bundle of full blocks within the limits, or a single tile of an oversized block. */
  ghost predicate WellPacked(md: Metadata, aim: nat, blocks: seq<CommonBlock>, p: Package)
    requires AllKnown(md, blocks)
  {
    && 0 < |p| <= MAX_CHUNKS_PER_PACKAGE
    && (|p| == 1 || (AllFull(md, blocks, p) && Comparisons(p) <= aim))
    && (Comparisons(p) <= aim || exists b | b in blocks :: BlockArea(md, b) > aim)
  }

  /** A package was closed only because the next chunk would not fit in it any more. */
  ghost predicate Crowded(aim: nat, p: Package, q: Package) {
    |q| > 0 && (|p| == MAX_CHUNKS_PER_PACKAGE || Comparisons(p) + Area(q[0]) > aim)
  }

  ghost predicate AllCrowded(aim: nat, packages: seq<Package>) {
    forall k | 0 <= k < |packages| - 1 :: Crowded(aim, packages[k], packages[k + 1])
  }

  ghost predicate NoneOversized(md: Metadata, aim: nat, blocks: seq<CommonBlock>)
    requires AllKnown(md, blocks)
  {
    forall b | b in blocks :: BlockArea(md, b) <= aim
  }

  ghost predicate AllWellPacked(md: Metadata, aim: nat, blocks: seq<CommonBlock>, packages: seq<Package>)
    requires AllKnown(md, blocks)
  {
    forall p | p in packages :: WellPacked(md, aim, blocks, p)
  }

  /** The package being filled. */
  ghost predicate Filling(md: Metadata, aim: nat, blocks: seq<CommonBlock>, cur: Package)
    requires AllKnown(md, blocks)
  {
    Comparisons(cur) <= aim && |cur| <= MAX_CHUNKS_PER_PACKAGE && AllFull(md, blocks, cur)
  }

  /** Only a lack of room has closed packages so far. */
  ghost predicate Tight(aim: nat, packages: seq<Package>, cur: Package) {
    if cur == [] then packages == [] else AllCrowded(aim, packages + [cur])
  }

  lemma {:induction false} FullArea(md: Metadata, b: CommonBlock)
    requires md.Known(b)
    ensures Area(FullChunk(md, b)) == BlockArea(md, b)
  {}

  lemma {:induction false} Bundle(md: Metadata, aim: nat, blocks: seq<CommonBlock>, packages: seq<Package>,
                                  cur: Package, b: CommonBlock)
    requires AllKnown(md, blocks) && b in blocks && Filling(md, aim, blocks, cur)
    requires Comparisons(cur) + BlockArea(md, b) <= aim && |cur| < MAX_CHUNKS_PER_PACKAGE
    ensures Filling(md, aim, blocks, cur + [FullChunk(md, b)])
    ensures Comparisons(cur + [FullChunk(md, b)]) == Comparisons(cur) + BlockArea(md, b)
    ensures Tight(aim, packages, cur) ==> Tight(aim, packages, cur + [FullChunk(md, b)])
  {
    ConcatLast(cur, FullChunk(md, b));
    FullArea(md, b);
    if Tight(aim, packages, cur) && cur != [] {
      var before, after := packages + [cur], packages + [cur + [FullChunk(md, b)]];
      forall k | 0 <= k < |after| - 1 ensures Crowded(aim, after[k], after[k + 1]) {
        assert Crowded(aim, before[k], before[k + 1]);
      }
    }
  }

  lemma {:induction false} CloseFull(md: Metadata, aim: nat, blocks: seq<CommonBlock>, packages: seq<Package>,
                                     cur: Package, b: CommonBlock)
    requires AllKnown(md, blocks) && b in blocks && Filling(md, aim, blocks, cur) && BlockArea(md, b) <= aim
    requires Comparisons(cur) + BlockArea(md, b) > aim || |cur| == MAX_CHUNKS_PER_PACKAGE
    ensures |cur| > 0 && WellPacked(md, aim, blocks, cur)
    ensures Filling(md, aim, blocks, [FullChunk(md, b)]) && Comparisons([FullChunk(md, b)]) == BlockArea(md, b)
    ensures Tight(aim, packages, cur) ==> Tight(aim, packages + [cur], [FullChunk(md, b)])
  {
    var chunk := FullChunk(md, b);
    FullArea(md, b);
    assert [chunk][..0] == [] && [chunk][0] == chunk;
    if Tight(aim, packages, cur) {
      var before, after := packages + [cur], packages + [cur] + [[chunk]];
      forall k | 0 <= k < |after| - 1 ensures Crowded(aim, after[k], after[k + 1]) {
        if k < |packages| {
          assert Crowded(aim, before[k], before[k + 1]);
        }
      }
    }
  }

  lemma {:induction false} NextBlock(md: Metadata, aim: nat,
                                     split: (nat, nat) -> seq<Tile>, blocks: seq<CommonBlock>, n: nat)
    requires AllKnown(md, blocks) && n < |blocks|
    ensures AllKnown(md, blocks[..n]) && AllKnown(md, blocks[..n + 1]) && blocks[n] in blocks
    ensures AllChunks(md, aim, split, blocks[..n + 1])
         == AllChunks(md, aim, split, blocks[..n]) + ChunksFor(md, aim, split, blocks[n])
  {
    assert blocks[..n + 1] == blocks[..n] + [blocks[n]];
    ConcatLast(blocks[..n], blocks[n]);
  }

  lemma {:induction false} FlattenLast(packages: seq<Package>, p: Package)
    ensures Flatten(packages + [p]) == Flatten(packages) + p
  {
    ConcatLast(packages, p);
  }

  /** The packages so far, and the one being filled. */
  ghost predicate Packing(md: Metadata, aim: nat, blocks: seq<CommonBlock>, packages: seq<Package>, cur: Package,
                          curComparisons: nat)
    requires AllKnown(md, blocks)
  {
    && AllWellPacked(md, aim, blocks, packages) && Filling(md, aim, blocks, cur) && curComparisons == Comparisons(cur)
    && (NoneOversized(md, aim, blocks) ==> Tight(aim, packages, cur))
  }

  lemma {:induction false} PackHere(md: Metadata, aim: nat, blocks: seq<CommonBlock>, packages: seq<Package>,
                                    cur: Package, n: nat, b: CommonBlock)
    requires AllKnown(md, blocks) && Packing(md, aim, blocks, packages, cur, n) && b in blocks
    requires n + BlockArea(md, b) <= aim && |cur| < MAX_CHUNKS_PER_PACKAGE
    ensures Packing(md, aim, blocks, packages, cur + [FullChunk(md, b)], n + BlockArea(md, b))
    ensures Flatten(packages) + (cur + [FullChunk(md, b)]) == (Flatten(packages) + cur) + [FullChunk(md, b)]
  {
    Bundle(md, aim, blocks, packages, cur, b);
  }

  lemma {:induction false} PackNext(md: Metadata, aim: nat, blocks: seq<CommonBlock>, packages: seq<Package>,
                                    cur: Package, n: nat, b: CommonBlock)
    requires AllKnown(md, blocks) && Packing(md, aim, blocks, packages, cur, n) && b in blocks
        && BlockArea(md, b) <= aim
    requires n + BlockArea(md, b) > aim || |cur| == MAX_CHUNKS_PER_PACKAGE
    ensures Packing(md, aim, blocks, packages + [cur], [FullChunk(md, b)], BlockArea(md, b))
    ensures Flatten(packages + [cur]) + [FullChunk(md, b)] == (Flatten(packages) + cur) + [FullChunk(md, b)]
  {
    CloseFull(md, aim, blocks, packages, cur, b);
    FlattenLast(packages, cur);
  }

  /** Close the package being filled, if there is anything in it. */
  method Close(md: Metadata, aim: nat, ghost blocks: seq<CommonBlock>, packages: seq<Package>,
               cur: Package) returns (packages': seq<Package>)
    requires AllKnown(md, blocks) && Packing(md, aim, blocks, packages, cur, Comparisons(cur))
    ensures Flatten(packages') == Flatten(packages) + cur
    ensures AllWellPacked(md, aim, blocks, packages')
    ensures NoneOversized(md, aim, blocks) ==> AllCrowded(aim, packages')
  {
    packages' := packages;
    if |cur| > 0 {
      FlattenLast(packages, cur);
      packages' := packages' + [cur];
    }
  }

  /** The package compares one tile of the block: these ranges of what the two providers have in it. */
  ghost predicate ComparesTile(md: Metadata, b: CommonBlock, t: Tile, p: Package)
    requires md.Known(b)
  {
    && |p| == 1 && AllLabelled(md.dps, p) && p[0].left.dp == b.dp1 && p[0].right.dp == b.dp2
    && p[0].left.block == md.lookups[b.dp1][b.name] && p[0].right.block == md.lookups[b.dp2][b.name]
    && p[0].left.lo == t.lo1 && p[0].left.hi == t.hi1 && p[0].right.lo == t.lo2 && p[0].right.hi == t.hi2
  }

  /** One package for each tile of an oversized block. */
  method SplitBlock(md: Metadata, aim: nat, ghost blocks: seq<CommonBlock>, b: CommonBlock, tiles: seq<Tile>,
                    packages: seq<Package>)
    returns (packages': seq<Package>)
    requires AllKnown(md, blocks) && b in blocks && BlockArea(md, b) > aim && AllWellPacked(md, aim, blocks, packages)
    ensures Flatten(packages') == Flatten(packages) + TileChunks(md, b, tiles)
    ensures AllWellPacked(md, aim, blocks, packages')
    ensures |packages'| == |packages| + |tiles| && packages <= packages'
    ensures forall k | 0 <= k < |tiles| :: ComparesTile(md, b, tiles[k], packages'[|packages| + k])
  {
    packages' := packages;
    for k := 0 to |tiles|
      invariant Flatten(packages') == Flatten(packages) + TileChunks(md, b, tiles[..k])
      invariant AllWellPacked(md, aim, blocks, packages')
      invariant |packages'| == |packages| + k && packages <= packages'
      invariant forall j | 0 <= j < k :: ComparesTile(md, b, tiles[j], packages'[|packages| + j])
    {
      assert tiles[..k + 1] == tiles[..k] + [tiles[k]];
      packages' := packages' + [[MakeChunk(md, b, tiles[k])]];
    }
    assert tiles[..|tiles|] == tiles;
  }

  lemma {:induction false} TilesAreLabelled(md: Metadata, b: CommonBlock, ts: seq<Tile>)
    requires md.Known(b)
    ensures AllLabelled(md.dps, TileChunks(md, b, ts))
  {
    if ts != [] {
      TilesAreLabelled(md, b, ts[..|ts| - 1]);
    }
  }

  lemma {:induction false} ChunksAreLabelled(md: Metadata, aim: nat, split: (nat, nat) -> seq<Tile>,
                                             blocks: seq<CommonBlock>)
    requires AllKnown(md, blocks)
    ensures AllLabelled(md.dps, AllChunks(md, aim, split, blocks))
  {
    if blocks != [] {
      var last := blocks[|blocks| - 1];
      assert last in blocks;
      ChunksAreLabelled(md, aim, split, blocks[..|blocks| - 1]);
      TilesAreLabelled(md, last, split(md.Size1(last), md.Size2(last)));
    }
  }

  lemma {:induction false} FlattenMember(packages: seq<Package>, p: Package, c: Chunk)
    requires p in packages && c in p
    ensures c in Flatten(packages)
  {
    var last := |packages| - 1;
    if packages[last] != p {
      FlattenMember(packages[..last], p, c);
    }
  }

  /** Bundle small blocks, split large ones; `split` is the external splitter for the given aim. */
  method CreateWorkPackages(md: Metadata, blocks: seq<CommonBlock>, aim: nat, split: (nat, nat) -> seq<Tile>)
    returns (packages: seq<Package>)
    requires AllKnown(md, blocks)
    ensures Flatten(packages) == AllChunks(md, aim, split, blocks)
    ensures AllWellPacked(md, aim, blocks, packages)
    ensures NoneOversized(md, aim, blocks) ==> AllCrowded(aim, packages)
    ensures forall p | p in packages :: AllLabelled(md.dps, p) && 0 < |p| <= 100000
  {
    packages := [];
    var curPackage: Package, curComparisons: nat := [], 0;
    for n := 0 to |blocks|
      invariant Flatten(packages) + curPackage == AllChunks(md, aim, split, blocks[..n])
      invariant Packing(md, aim, blocks, packages, curPackage, curComparisons)
    {
      var b := blocks[n];
      NextBlock(md, aim, split, blocks, n);
      if BlockArea(md, b) > aim {
        packages := Close(md, aim, blocks, packages, curPackage);
        curPackage, curComparisons := [], 0;
        packages := SplitBlock(md, aim, blocks, b, split(md.Size1(b), md.Size2(b)), packages);
        assert Flatten(packages) + [] == Flatten(packages);
      } else if curComparisons + BlockArea(md, b) <= aim && |curPackage| < MAX_CHUNKS_PER_PACKAGE {
        PackHere(md, aim, blocks, packages, curPackage, curComparisons, b);
        curPackage := curPackage + [FullChunk(md, b)];
        curComparisons := curComparisons + BlockArea(md, b);
      } else {
        PackNext(md, aim, blocks, packages, curPackage, curComparisons, b);
        packages := packages + [curPackage];
        curPackage, curComparisons := [FullChunk(md, b)], BlockArea(md, b);
      }
    }
    assert blocks[..|blocks|] == blocks;
    packages := Close(md, aim, blocks, packages, curPackage);
    ChunksAreLabelled(md, aim, split, blocks);
    forall p, c | p in packages && c in p ensures Labelled(md.dps, c) {
      FlattenMember(packages, p, c);
    }
    assert forall p | p in packages :: WellPacked(md, aim, blocks, p);
  }
}
