/**
 What the packages of a run add up to: which entities are compared, how often, and how many
 comparisons there are in all.
 */
module Coverage {
  import opened Collections
  import opened WorkPackages

  // ----- The contract of the external splitter -----

  predicate InTile(t: Tile, x: nat, y: nat) {
    t.lo1 <= x < t.hi1 && t.lo2 <= y < t.hi2
  }

  function CoverCount(ts: seq<Tile>, x: nat, y: nat): nat {
    if ts == [] then 0
    else CoverCount(ts[..|ts| - 1], x, y) + if InTile(ts[|ts| - 1], x, y) then 1 else 0
  }

  predicate TileFits(t: Tile, m: nat, n: nat) {
    t.lo1 < t.hi1 <= m && t.lo2 < t.hi2 <= n
  }

  /** The tiles are not empty, lie in the `m` by `n` rectangle, and cover each cell once. */
  ghost predicate Tiling(ts: seq<Tile>, m: nat, n: nat) {
    && (forall t | t in ts :: TileFits(t, m, n))
    && (forall x: nat, y: nat | x < m && y < n :: CoverCount(ts, x, y) == 1)
  }

  ghost predicate ExactSplitter(split: (nat, nat) -> seq<Tile>, aim: nat) {
    forall m: nat, n: nat | m * n > aim :: Tiling(split(m, n), m, n)
  }

  // ----- Which entities are compared -----

  /** The entities of each block, in the order in which ranges count them. */
  type Roster = map<nat, seq<nat>>

  ghost predicate RosterOf(md: Metadata, roster: Roster)
    requires md.Valid()
  {
    forall d, name | d in md.dps && name in md.sizes[d] ::
      md.lookups[d][name] in roster && |roster[md.lookups[d][name]]| == md.sizes[d][name]
      && Distinct(roster[md.lookups[d][name]])
  }

  ghost predicate InRange(roster: Roster, s: Side, e: nat) {
    s.block in roster && exists k | s.lo <= k < s.hi && k < |roster[s.block]| :: roster[s.block][k] == e
  }

  /** The chunk compares entity `e` of provider `d1` with entity `f` of provider `d2`. */
  ghost predicate Compares(roster: Roster, c: Chunk, d1: nat, e: nat, d2: nat, f: nat) {
    c.left.dp == d1 && c.right.dp == d2 && InRange(roster, c.left, e) && InRange(roster, c.right, f)
  }

  /** How often a list of chunks compares the two entities. */
  ghost function TimesCompared(roster: Roster, cs: seq<Chunk>, d1: nat, e: nat, d2: nat, f: nat): nat {
    if cs == [] then 0
    else TimesCompared(roster, cs[..|cs| - 1], d1, e, d2, f)
         + (if Compares(roster, cs[|cs| - 1], d1, e, d2, f) then 1 else 0)
  }

  lemma {:induction false} TimesComparedConcat(roster: Roster, a: seq<Chunk>, b: seq<Chunk>, d1: nat, e: nat, d2: nat,
                                               f: nat)
    ensures TimesCompared(roster, a + b, d1, e, d2, f)
         == TimesCompared(roster, a, d1, e, d2, f) + TimesCompared(roster, b, d1, e, d2, f)
  {
    if b == [] {
      assert a + b == a;
    } else {
      assert (a + b)[..|a + b| - 1] == a + b[..|b| - 1];
      TimesComparedConcat(roster, a, b[..|b| - 1], d1, e, d2, f);
    }
  }

  /** Both entities are in the block, on their own sides. */
  ghost predicate Shares(md: Metadata, roster: Roster, b: CommonBlock, d1: nat, e: nat, d2: nat, f: nat)
    requires md.Valid() && RosterOf(md, roster) && md.Known(b)
  {
    && b.dp1 == d1 && b.dp2 == d2
    && e in roster[md.lookups[b.dp1][b.name]] && f in roster[md.lookups[b.dp2][b.name]]
  }

  lemma {:induction false} TileCompares(md: Metadata, roster: Roster, b: CommonBlock, t: Tile,
                                        x: nat, y: nat, d1: nat, e: nat, d2: nat, f: nat)
    requires md.Valid() && RosterOf(md, roster) && md.Known(b) && Shares(md, roster, b, d1, e, d2, f)
    requires x < md.Size1(b) && roster[md.lookups[b.dp1][b.name]][x] == e
    requires y < md.Size2(b) && roster[md.lookups[b.dp2][b.name]][y] == f
    ensures Compares(roster, MakeChunk(md, b, t), d1, e, d2, f) <==> InTile(t, x, y)
  {}

  lemma {:induction false} TilesCompare(md: Metadata, roster: Roster, b: CommonBlock, ts: seq<Tile>,
                                        x: nat, y: nat, d1: nat, e: nat, d2: nat, f: nat)
    requires md.Valid() && RosterOf(md, roster) && md.Known(b) && Shares(md, roster, b, d1, e, d2, f)
    requires x < md.Size1(b) && roster[md.lookups[b.dp1][b.name]][x] == e
    requires y < md.Size2(b) && roster[md.lookups[b.dp2][b.name]][y] == f
    ensures TimesCompared(roster, TileChunks(md, b, ts), d1, e, d2, f) == CoverCount(ts, x, y)
  {
    if ts != [] {
      TilesCompare(md, roster, b, ts[..|ts| - 1], x, y, d1, e, d2, f);
      TileCompares(md, roster, b, ts[|ts| - 1], x, y, d1, e, d2, f);
      ConcatLast(TileChunks(md, b, ts[..|ts| - 1]), MakeChunk(md, b, ts[|ts| - 1]));
    }
  }

  lemma {:induction false} TilesIgnore(md: Metadata, roster: Roster, b: CommonBlock, ts: seq<Tile>,
                                       d1: nat, e: nat, d2: nat, f: nat)
    requires md.Valid() && RosterOf(md, roster) && md.Known(b) && !Shares(md, roster, b, d1, e, d2, f)
    ensures TimesCompared(roster, TileChunks(md, b, ts), d1, e, d2, f) == 0
  {
    if ts != [] {
      TilesIgnore(md, roster, b, ts[..|ts| - 1], d1, e, d2, f);
      ConcatLast(TileChunks(md, b, ts[..|ts| - 1]), MakeChunk(md, b, ts[|ts| - 1]));
    }
  }

  /** A block compares two entities once if it holds both, and not at all otherwise. */
  lemma {:induction false} BlockCompares(md: Metadata, roster: Roster, aim: nat,
                                         split: (nat, nat) -> seq<Tile>, b: CommonBlock,
                                         d1: nat, e: nat, d2: nat, f: nat)
    requires md.Valid() && RosterOf(md, roster) && md.Known(b) && ExactSplitter(split, aim)
    ensures TimesCompared(roster, ChunksFor(md, aim, split, b), d1, e, d2, f)
         == if Shares(md, roster, b, d1, e, d2, f) then 1 else 0
  {
    var whole := Tile(0, md.Size1(b), 0, md.Size2(b));
    var ts := if BlockArea(md, b) > aim then split(md.Size1(b), md.Size2(b)) else [whole];
    assert ChunksFor(md, aim, split, b) == TileChunks(md, b, ts) by {
      assert [whole][..0] == [];
      assert TileChunks(md, b, [whole]) == [FullChunk(md, b)];
    }
    if Shares(md, roster, b, d1, e, d2, f) {
      var x: nat :| x < md.Size1(b) && roster[md.lookups[b.dp1][b.name]][x] == e;
      var y: nat :| y < md.Size2(b) && roster[md.lookups[b.dp2][b.name]][y] == f;
      TilesCompare(md, roster, b, ts, x, y, d1, e, d2, f);
      assert [whole][..0] == [];
      assert CoverCount([whole], x, y) == 1;
    } else {
      TilesIgnore(md, roster, b, ts, d1, e, d2, f);
    }
  }

  /** The common blocks among a list that hold both entities. */
  ghost function SharedAmong(md: Metadata, roster: Roster, blocks: seq<CommonBlock>, d1: nat, e: nat, d2: nat,
                             f: nat): set<CommonBlock>
    requires md.Valid() && RosterOf(md, roster) && AllKnown(md, blocks)
  {
    set b | b in blocks && Shares(md, roster, b, d1, e, d2, f)
  }

  lemma {:induction false} BlocksCompare(md: Metadata, roster: Roster, aim: nat,
                                         split: (nat, nat) -> seq<Tile>, blocks: seq<CommonBlock>,
                                         d1: nat, e: nat, d2: nat, f: nat)
    requires md.Valid() && RosterOf(md, roster) && AllKnown(md, blocks) && Distinct(blocks) && ExactSplitter(split, aim)
    ensures TimesCompared(roster, AllChunks(md, aim, split, blocks), d1, e, d2, f)
         == |SharedAmong(md, roster, blocks, d1, e, d2, f)|
  {
    if blocks == [] {
      assert SharedAmong(md, roster, blocks, d1, e, d2, f) == {};
    } else {
      var init, b := blocks[..|blocks| - 1], blocks[|blocks| - 1];
      BlocksCompare(md, roster, aim, split, init, d1, e, d2, f);
      BlockCompares(md, roster, aim, split, b, d1, e, d2, f);
      TimesComparedConcat(roster, AllChunks(md, aim, split, init), ChunksFor(md, aim, split, b), d1, e, d2, f);
      SharedAmongNext(md, roster, blocks, init, b, d1, e, d2, f);
    }
  }

  lemma {:induction false} SharedAmongNext(md: Metadata, roster: Roster, blocks: seq<CommonBlock>,
                                           init: seq<CommonBlock>, b: CommonBlock,
                                           d1: nat, e: nat, d2: nat, f: nat)
    requires md.Valid() && RosterOf(md, roster) && AllKnown(md, blocks) && Distinct(blocks) && blocks == init + [b]
    ensures AllKnown(md, init) && md.Known(b)
    ensures |SharedAmong(md, roster, blocks, d1, e, d2, f)|
         == |SharedAmong(md, roster, init, d1, e, d2, f)| + if Shares(md, roster, b, d1, e, d2, f) then 1 else 0
  {
    assert forall c :: c in blocks <==> c in init || c == b;
    forall k | 0 <= k < |init| ensures init[k] != b {
      assert blocks[k] == init[k] && blocks[|init|] == b;
    }
    assert SharedAmong(md, roster, blocks, d1, e, d2, f)
        == SharedAmong(md, roster, init, d1, e, d2, f) + if Shares(md, roster, b, d1, e, d2, f) then {b} else {};
  }

  /** The block names under which both providers list the two entities. */
  ghost function SharedNames(md: Metadata, roster: Roster, d1: nat, e: nat, d2: nat, f: nat): set<string>
    requires md.Valid() && RosterOf(md, roster) && d1 in md.dps && d2 in md.dps
  {
    set name | name in md.sizes[d1] && name in md.sizes[d2]
            && e in roster[md.lookups[d1][name]] && f in roster[md.lookups[d2][name]]
  }

  lemma {:induction false} NamedBlocks(names: set<string>, d1: nat, d2: nat)
    ensures |set name | name in names :: CommonBlock(name, d1, d2)| == |names|
  {
    if names != {} {
      var n :| n in names;
      NamedBlocks(names - {n}, d1, d2);
      assert (set name | name in names :: CommonBlock(name, d1, d2))
          == (set name | name in names - {n} :: CommonBlock(name, d1, d2)) + {CommonBlock(n, d1, d2)};
    }
  }

  /**
   Over all packages, two entities of different providers are compared exactly once for each
   block name they share when their providers stand in project order, and never otherwise.
   */
  lemma {:induction false} ComparedOncePerSharedBlock(
      md: Metadata, roster: Roster, aim: nat, split: (nat, nat) -> seq<Tile>, blocks: seq<CommonBlock>,
      packages: seq<Package>, i: nat, e: nat, j: nat, f: nat)
    requires md.Valid() && RosterOf(md, roster) && ExactSplitter(split, aim)
    requires Distinct(blocks) && (forall b :: b in blocks <==> IsCommon(md, b)) && AllKnown(md, blocks)
    requires Flatten(packages) == AllChunks(md, aim, split, blocks)
    requires i < |md.dps| && j < |md.dps|
    ensures TimesCompared(roster, Flatten(packages), md.dps[i], e, md.dps[j], f)
         == if i < j then |SharedNames(md, roster, md.dps[i], e, md.dps[j], f)| else 0
  {
    var d1, d2 := md.dps[i], md.dps[j];
    BlocksCompare(md, roster, aim, split, blocks, d1, e, d2, f);
    var shared := SharedAmong(md, roster, blocks, d1, e, d2, f);
    if i < j {
      var names := SharedNames(md, roster, d1, e, d2, f);
      NamedBlocks(names, d1, d2);
      forall name | name in names ensures CommonBlock(name, d1, d2) in shared {
        assert IsCommon(md, CommonBlock(name, d1, d2));
      }
      assert shared == set name | name in names :: CommonBlock(name, d1, d2);
    } else {
      assert shared == {};
    }
  }
}
