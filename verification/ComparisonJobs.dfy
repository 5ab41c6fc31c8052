/**
 The comparisons of a run from start to end: common blocks become packages, each package is
 fetched and compared, and the comparisons that are counted on the way add up to the total.
 */
module ComparisonJobs {
  import opened BlockQueries
  import opened Collections
  import opened ComparisonTotals
  import opened Coverage
  import opened EncodingStore
  import opened Fetch
  import opened ProjectUploads
  import opened UploadCounts
  import opened WorkPackages
  import opened Wrappers

  // ----- Creating the packages -----

  /** The packages of a run, and what they hold between them. */
  ghost predicate IsSchedule(md: Metadata, aim: nat,
                             split: (nat, nat) -> seq<Tile>, blocks: seq<CommonBlock>, packages: seq<Package>) {
    && md.Valid() && ExactSplitter(split, aim)
    && Distinct(blocks) && (forall b :: b in blocks <==> IsCommon(md, b)) && AllKnown(md, blocks)
    && Flatten(packages) == AllChunks(md, aim, split, blocks) && AllWellPacked(md, aim, blocks, packages)
  }

  lemma {:induction false} CommonBlocksAreKnown(md: Metadata, blocks: seq<CommonBlock>)
    requires md.Valid() && forall b :: b in blocks <==> IsCommon(md, b)
    ensures AllKnown(md, blocks)
  {
    forall b | b in blocks ensures md.Known(b) {
      assert IsCommon(md, b);
    }
  }

  /**
   Bundle the common blocks of all providers into packages. A chord of a single task would not
   handle errors, so another task is added then, which is not one of the packages.
   */
  method CreateComparisonJobs(md: Metadata, aim: nat, split: (nat, nat) -> seq<Tile>)
    returns (packages: seq<Package>, ghost blocks: seq<CommonBlock>)
    requires md.Valid() && ExactSplitter(split, aim)
    ensures IsSchedule(md, aim, split, blocks, packages)
    ensures NoneOversized(md, aim, blocks) ==> AllCrowded(aim, packages)
    ensures forall p | p in packages :: AllLabelled(md.dps, p)
  {
    var common := GetCommonBlocks(md);
    CommonBlocksAreKnown(md, common);
    packages := CreateWorkPackages(md, common, aim, split);
    blocks := common;
  }

  // ----- The packages can be fetched -----

  /** The chunk is a full block, or a tile of an oversized one. */
  ghost predicate ComesFrom(md: Metadata, aim: nat, split: (nat, nat) -> seq<Tile>, b: CommonBlock, c: Chunk)
    requires md.Known(b)
  {
    if BlockArea(md, b) > aim then exists t | t in split(md.Size1(b), md.Size2(b)) :: c == MakeChunk(md, b, t)
    else c == FullChunk(md, b)
  }

  lemma {:induction false} ChunkOfTiles(md: Metadata, b: CommonBlock, ts: seq<Tile>, c: Chunk)
    requires md.Known(b) && c in TileChunks(md, b, ts)
    ensures exists t | t in ts :: c == MakeChunk(md, b, t)
  {
    var init, last := ts[..|ts| - 1], ts[|ts| - 1];
    if c in TileChunks(md, b, init) {
      ChunkOfTiles(md, b, init, c);
      var t :| t in init && c == MakeChunk(md, b, t);
      assert t in ts;
    } else {
      assert last in ts;
    }
  }

  lemma {:induction false} ChunkOfBlocks(md: Metadata, aim: nat,
                                         split: (nat, nat) -> seq<Tile>, blocks: seq<CommonBlock>, c: Chunk)
    requires AllKnown(md, blocks) && c in AllChunks(md, aim, split, blocks)
    ensures exists b | b in blocks :: ComesFrom(md, aim, split, b, c)
  {
    var init, last := blocks[..|blocks| - 1], blocks[|blocks| - 1];
    assert last in blocks;
    if c in AllChunks(md, aim, split, init) {
      ChunkOfBlocks(md, aim, split, init, c);
      var b :| b in init && ComesFrom(md, aim, split, b, c);
      assert b in blocks;
    } else if BlockArea(md, last) > aim {
      ChunkOfTiles(md, last, split(md.Size1(last), md.Size2(last)), c);
      assert ComesFrom(md, aim, split, last, c);
    } else {
      assert ComesFrom(md, aim, split, last, c);
    }
  }

  lemma {:induction false} BothCounted(md: Metadata, db: Database, b: CommonBlock)
    requires md.Valid() && Describes(md, db) && md.Known(b)
    ensures Counts(md, db, b.dp1, b.name) && Counts(md, db, b.dp2, b.name)
  {}

  lemma {:induction false} ChunkIsFetchable(md: Metadata, db: Database, aim: nat,
                                            split: (nat, nat) -> seq<Tile>, b: CommonBlock, c: Chunk)
    requires md.Valid() && Describes(md, db) && md.Known(b) && ExactSplitter(split, aim)
        && ComesFrom(md, aim, split, b, c)
    ensures Fetchable(db, c.left) && Fetchable(db, c.right)
  {
    BothCounted(md, db, b);
    if BlockArea(md, b) > aim {
      var t :| t in split(md.Size1(b), md.Size2(b)) && c == MakeChunk(md, b, t);
      assert Tiling(split(md.Size1(b), md.Size2(b)), md.Size1(b), md.Size2(b));
      assert TileFits(t, md.Size1(b), md.Size2(b));
    }
  }

  /** What the scheduler and the fetcher share without saying so: every package suits the path that will fetch it. */
  lemma {:induction false} PackagesAreFetchable(md: Metadata, db: Database, aim: nat, split: (nat, nat) -> seq<Tile>,
                                                blocks: seq<CommonBlock>, packages: seq<Package>, p: Package)
    requires IsSchedule(md, aim, split, blocks, packages) && Describes(md, db) && p in packages
    ensures FetchablePackage(db, p)
  {
    assert WellPacked(md, aim, blocks, p);
    forall c | c in p ensures Fetchable(db, c.left) && Fetchable(db, c.right) {
      FlattenMember(packages, p, c);
      ChunkOfBlocks(md, aim, split, blocks, c);
      var b :| b in blocks && ComesFrom(md, aim, split, b, c);
      ChunkIsFetchable(md, db, aim, split, b, c);
    }
    if |p| > 1 {
      forall c | c in p ensures FullRange(db, c.left) && FullRange(db, c.right) {
        var b :| b in blocks && c == FullChunk(md, b);
        BothCounted(md, db, b);
      }
    }
  }

  // ----- Comparing the packages -----

  /** The chunks were fetched, with what their ranges stand for. */
  ghost predicate AllDelivered(db: Database, cs: seq<Chunk>, ds: seq<(Delivery, Delivery)>) {
    |ds| == |cs| && forall i | 0 <= i < |cs| :: ChunkDelivered(db, cs[i], ds[i])
  }

  ghost predicate ChunkDelivered(db: Database, c: Chunk, d: (Delivery, Delivery)) {
    && c.left.lo <= c.left.hi <= |InBlock(db, c.left)| && IsDelivered(db, c.left, d.0)
    && c.right.lo <= c.right.hi <= |InBlock(db, c.right)| && IsDelivered(db, c.right, d.1)
  }

  /** Fetch a package and count the comparisons of its chunks. */
  method ComparePackage(db: Database, package: Package, size: nat)
    returns (numComparisons: nat, data: seq<(Delivery, Delivery)>)
    requires Sound(db, size) && FetchablePackage(db, package)
    ensures numComparisons == Comparisons(package) && AllDelivered(db, package, data)
  {
    var fetched := FetchPackage(db, package, size);
    data := fetched.value;
    numComparisons := 0;
    for i := 0 to |package|
      invariant numComparisons == Comparisons(package[..i])
      invariant forall k | 0 <= k < i :: ChunkDelivered(db, package[k], data[k])
    {
      var size1, size2 := |data[i].0.encodings|, |data[i].1.encodings|;
      assert package[i] in package;
      assert Fetchable(db, package[i].left) && Fetchable(db, package[i].right);
      assert size1 == package[i].left.hi - package[i].left.lo && size2 == package[i].right.hi - package[i].right.lo;
      assert size1 > 0 && size2 > 0;
      assert package[..i + 1] == package[..i] + [package[i]];
      ConcatLast(package[..i], package[i]);
      numComparisons := numComparisons + size1 * size2;
    }
    assert package[..|package|] == package;
  }

  lemma {:induction false} FlattenNext(packages: seq<Package>, i: nat)
    requires i < |packages|
    ensures Flatten(packages[..i + 1]) == Flatten(packages[..i]) + packages[i]
    ensures PackagesTotal(packages[..i + 1]) == PackagesTotal(packages[..i]) + Comparisons(packages[i])
  {
    TakeNext(packages, i);
    ConcatLast(packages[..i], packages[i]);
  }

  lemma {:induction false} MoreDelivered(db: Database, cs: seq<Chunk>, ds: seq<(Delivery, Delivery)>,
                                         cs': seq<Chunk>, ds': seq<(Delivery, Delivery)>)
    requires AllDelivered(db, cs, ds) && AllDelivered(db, cs', ds')
    ensures AllDelivered(db, cs + cs', ds + ds')
  {}

  /**
   Compare all packages of a run, counting progress. The counter ends at the total that is shown
   to users, which is computed from other rows and in another order.
   */
  method CompareAll(db: Database, packages: seq<Package>, size: nat, ghost md: Metadata, ghost aim: nat,
                    ghost split: (nat, nat) -> seq<Tile>, ghost blocks: seq<CommonBlock>, ghost rows: seq<Row>)
    returns (progress: nat, data: seq<(Delivery, Delivery)>)
    requires IsSchedule(md, aim, split, blocks, packages) && Sound(db, size) && Describes(md, db)
        && GroupedByName(md, rows)
    ensures progress == TotalOf(rows) && AllDelivered(db, Flatten(packages), data)
  {
    progress, data := 0, [];
    for i := 0 to |packages|
      invariant progress == PackagesTotal(packages[..i]) && AllDelivered(db, Flatten(packages[..i]), data)
    {
      assert packages[i] in packages;
      PackagesAreFetchable(md, db, aim, split, blocks, packages, packages[i]);
      var counted, fetched := ComparePackage(db, packages[i], size);
      FlattenNext(packages, i);
      MoreDelivered(db, Flatten(packages[..i]), data, packages[i], fetched);
      progress, data := progress + counted, data + fetched;
    }
    assert packages[..|packages|] == packages;
    ComparisonsAreConserved(md, aim, split, blocks, packages, rows);
  }

  // ----- Which entities are compared -----

  /** The entities that a fetched side delivers are those that its range stands for. */
  lemma {:induction false} DeliveredIsInRange(db: Database, roster: Roster, s: Side, d: Delivery, e: nat)
    requires s.block in roster && roster[s.block] == InBlock(db, s)
    requires s.lo <= s.hi <= |InBlock(db, s)| && IsDelivered(db, s, d)
    ensures e in d.ids <==> InRange(roster, s, e)
  {
    if InRange(roster, s, e) {
      var k :| s.lo <= k < s.hi && k < |roster[s.block]| && roster[s.block][k] == e;
      assert d.ids[k - s.lo] == e;
    }
    if e in d.ids {
      var k :| 0 <= k < |d.ids| && d.ids[k] == e;
      assert roster[s.block][s.lo + k] == e;
    }
  }

  /** The uploads put the entity into the block. */
  ghost predicate Listed(db: Database, d: nat, block: nat, e: nat) {
    exists r | r in db.rows :: Selects(d, Some(block), r) && r.entity == e
  }

  /** Block ids are primary keys, so a block id alone says which entities are meant. */
  ghost predicate RosterOfStored(md: Metadata, db: Database, roster: Roster)
    requires md.Valid()
  {
    forall d, name | d in md.dps && name in md.sizes[d] ::
      md.lookups[d][name] in roster && roster[md.lookups[d][name]] == Members(db.rows, d, Some(md.lookups[d][name]))
  }

  /** The block names under which both entities were uploaded. */
  ghost function NamesInCommon(md: Metadata, db: Database, d1: nat, e: nat, d2: nat, f: nat): set<string>
    requires md.Valid() && d1 in md.dps && d2 in md.dps
  {
    set name | name in md.sizes[d1] && name in md.sizes[d2]
            && Listed(db, d1, md.lookups[d1][name], e) && Listed(db, d2, md.lookups[d2][name], f)
  }

  /**
   In terms of what was uploaded: over all packages, an entity of an earlier provider and one of a
   later provider are compared once for each block name under which both were uploaded; in the
   other order, or with the same provider twice, they are never compared.
   */
  lemma {:induction false} UploadedPairsAreComparedOnce(md: Metadata, db: Database, roster: Roster, aim: nat,
                                                        split: (nat, nat) -> seq<Tile>,
                                                        blocks: seq<CommonBlock>, packages: seq<Package>, i: nat,
                                                        e: nat, j: nat, f: nat)
    requires IsSchedule(md, aim, split, blocks, packages) && Describes(md, db) && RosterOfStored(md, db, roster)
    requires i < |md.dps| && j < |md.dps|
    ensures TimesCompared(roster, Flatten(packages), md.dps[i], e, md.dps[j], f)
         == if i < j then |NamesInCommon(md, db, md.dps[i], e, md.dps[j], f)| else 0
  {
    var d1, d2 := md.dps[i], md.dps[j];
    forall d, name | d in md.dps && name in md.sizes[d]
      ensures md.lookups[d][name] in roster && |roster[md.lookups[d][name]]| == md.sizes[d][name]
          && Distinct(roster[md.lookups[d][name]]) {
      assert Counts(md, db, d, name);
    }
    ComparedOncePerSharedBlock(md, roster, aim, split, blocks, packages, i, e, j, f);
    forall name | name in md.sizes[d1] && name in md.sizes[d2]
      ensures e in roster[md.lookups[d1][name]] <==> Listed(db, d1, md.lookups[d1][name], e)
      ensures f in roster[md.lookups[d2][name]] <==> Listed(db, d2, md.lookups[d2][name], f) {
      MembersAreSorted(db.rows, d1, Some(md.lookups[d1][name]));
      MembersAreSorted(db.rows, d2, Some(md.lookups[d2][name]));
    }
    assert SharedNames(md, roster, d1, e, d2, f) == NamesInCommon(md, db, d1, e, d2, f);
  }

  // ----- Which fetched entities are compared -----

  /** How often an entity of one provider is delivered beside one of another. */
  ghost function TimesDelivered(cs: seq<Chunk>, ds: seq<(Delivery, Delivery)>, d1: nat, e: nat, d2: nat, f: nat): nat
    requires |ds| == |cs|
  {
    if cs == [] then 0
    else
      var last := |cs| - 1;
      TimesDelivered(cs[..last], ds[..last], d1, e, d2, f)
      + if cs[last].left.dp == d1 && cs[last].right.dp == d2 && e in ds[last].0.ids && f in ds[last].1.ids then 1 else 0
  }

  ghost function BlockIds(md: Metadata): set<nat>
    requires md.Valid()
  {
    set d, name | d in md.dps && name in md.lookups[d] :: md.lookups[d][name]
  }

  ghost function OwnerOf(md: Metadata, block: nat): nat
    requires md.Valid() && block in BlockIds(md)
  {
    var d, name :| d in md.dps && name in md.lookups[d] && md.lookups[d][name] == block;
    d
  }

  /** The stored entities of each block. */
  ghost function StoredRoster(md: Metadata, db: Database): (roster: Roster)
    requires md.Valid()
  {
    map block | block in BlockIds(md) :: Members(db.rows, OwnerOf(md, block), Some(block))
  }

  lemma {:induction false} RosterIsStored(md: Metadata, db: Database)
    requires md.Valid() && UniqueIds(md)
    ensures RosterOfStored(md, db, StoredRoster(md, db))
  {
    forall d, name | d in md.dps && name in md.sizes[d]
      ensures md.lookups[d][name] in BlockIds(md) && OwnerOf(md, md.lookups[d][name]) == d
    {
      assert name in md.lookups[d];
    }
  }

  lemma {:induction false} SidesAreStored(md: Metadata, db: Database, aim: nat, split: (nat, nat) -> seq<Tile>,
                                          b: CommonBlock, c: Chunk)
    requires md.Valid() && UniqueIds(md) && md.Known(b) && ComesFrom(md, aim, split, b, c)
    ensures var roster := StoredRoster(md, db);
            && c.left.block in roster && roster[c.left.block] == InBlock(db, c.left)
            && c.right.block in roster && roster[c.right.block] == InBlock(db, c.right)
  {
    RosterIsStored(md, db);
    assert b.dp1 in md.dps && b.name in md.sizes[b.dp1] && b.dp2 in md.dps && b.name in md.sizes[b.dp2];
  }

  ghost predicate SidesStored(db: Database, roster: Roster, c: Chunk) {
    && c.left.block in roster && roster[c.left.block] == InBlock(db, c.left)
    && c.right.block in roster && roster[c.right.block] == InBlock(db, c.right)
  }

  /** What is delivered is what the ranges stand for, chunk by chunk. */
  lemma {:induction false} DeliveredIsCompared(db: Database, roster: Roster, cs: seq<Chunk>,
                                               ds: seq<(Delivery, Delivery)>,
                                               d1: nat, e: nat, d2: nat, f: nat)
    requires AllDelivered(db, cs, ds) && forall c | c in cs :: SidesStored(db, roster, c)
    ensures TimesDelivered(cs, ds, d1, e, d2, f) == TimesCompared(roster, cs, d1, e, d2, f)
  {
    if cs != [] {
      var last := |cs| - 1;
      DeliveredIsCompared(db, roster, cs[..last], ds[..last], d1, e, d2, f);
      assert SidesStored(db, roster, cs[last]) && ChunkDelivered(db, cs[last], ds[last]);
      DeliveredIsInRange(db, roster, cs[last].left, ds[last].0, e);
      DeliveredIsInRange(db, roster, cs[last].right, ds[last].1, f);
    }
  }

  /**
   Over all chunks that are fetched for a run, an entity of an earlier provider and one of a later
   provider are delivered to be compared once for each block name under which both were stored.
   */
  lemma {:induction false} FetchedPairsAreComparedOnce(md: Metadata, db: Database, aim: nat,
                                                       split: (nat, nat) -> seq<Tile>, blocks: seq<CommonBlock>,
                                                       packages: seq<Package>, ds: seq<(Delivery, Delivery)>,
                                                       i: nat, e: nat, j: nat, f: nat)
    requires IsSchedule(md, aim, split, blocks, packages) && Describes(md, db) && UniqueIds(md)
    requires AllDelivered(db, Flatten(packages), ds) && i < |md.dps| && j < |md.dps|
    ensures TimesDelivered(Flatten(packages), ds, md.dps[i], e, md.dps[j], f)
         == if i < j then |NamesInCommon(md, db, md.dps[i], e, md.dps[j], f)| else 0
  {
    var roster := StoredRoster(md, db);
    RosterIsStored(md, db);
    forall c | c in Flatten(packages) ensures SidesStored(db, roster, c) {
      ChunkOfBlocks(md, aim, split, blocks, c);
      var b :| b in blocks && ComesFrom(md, aim, split, b, c);
      SidesAreStored(md, db, aim, split, b, c);
    }
    DeliveredIsCompared(db, roster, Flatten(packages), ds, md.dps[i], e, md.dps[j], f);
    UploadedPairsAreComparedOnce(md, db, roster, aim, split, blocks, packages, i, e, j, f);
  }

  /** The hashed block names that two uploads list for these entities. */
  ghost function NamesListed(first: seq<Entry>, e: nat, second: seq<Entry>, f: nat): set<string> {
    set name | name in BlockNames(first) && name in BlockNames(second) && Lists(first, e, name)
        && Lists(second, f, name)
  }

  lemma {:induction false} StoredIsListed(rows: seq<BlockRow>, blocks: seq<BlockMeta>, uploads: map<nat, seq<Entry>>,
                                          hash: string -> string, d: nat, name: string, e: nat)
    requires Matches(rows, blocks, uploads, hash, d) && name in LookupOf(blocks, d)
    ensures (exists r | r in rows :: Selects(d, Some(LookupOf(blocks, d)[name]), r) && r.entity == e)
       <==> Lists(Hashed(uploads[d], hash), e, name)
  {
    var block := LookupOf(blocks, d)[name];
    assert CountMatches(rows, d, block, name, EncodingStore.CountsOf(blocks, d), Hashed(uploads[d], hash));
    MembersAreSorted(rows, d, Some(block));
  }

  lemma {:induction false} CommonIsListed(db: Database, blocks: seq<BlockMeta>, dps: seq<nat>,
                                          uploads: map<nat, seq<Entry>>,
                                          hash: string -> string, d1: nat, e: nat, d2: nat, f: nat)
    requires MetadataOf(blocks, dps).Valid() && d1 in dps && d2 in dps
    requires Matches(db.rows, blocks, uploads, hash, d1) && Matches(db.rows, blocks, uploads, hash, d2)
    ensures NamesInCommon(MetadataOf(blocks, dps), db, d1, e, d2, f)
         == NamesListed(Hashed(uploads[d1], hash), e, Hashed(uploads[d2], hash), f)
  {
    var md := MetadataOf(blocks, dps);
    forall name | name in md.sizes[d1] && name in md.sizes[d2]
      ensures Listed(db, d1, md.lookups[d1][name], e) <==> Lists(Hashed(uploads[d1], hash), e, name)
      ensures Listed(db, d2, md.lookups[d2][name], f) <==> Lists(Hashed(uploads[d2], hash), f, name)
    {
      StoredIsListed(db.rows, blocks, uploads, hash, d1, name, e);
      StoredIsListed(db.rows, blocks, uploads, hash, d2, name, f);
    }
  }

  /**
   From uploads to comparisons: when each provider has uploaded once and no entity lists a block
   twice, the run delivers two entities to be compared exactly once for each hashed block name that
   the uploads list for both, the earlier provider first, and never otherwise.
   */
  lemma {:induction false} ProjectPairsAreComparedOnce(
      db: Database, stored: seq<BlockMeta>, dps: seq<nat>, uploads: map<nat, seq<Entry>>,
      hash: string -> string, size: nat,
      aim: nat, split: (nat, nat) -> seq<Tile>, blocks: seq<CommonBlock>, packages: seq<Package>,
      ds: seq<(Delivery, Delivery)>, i: nat, e: nat, j: nat, f: nat)
    requires (forall d | d in dps :: d in uploads) && ProjectStored(db, stored, dps, uploads, hash, size)
    requires NoneTwice(dps, uploads, hash) && IsSchedule(MetadataOf(stored, dps), aim, split, blocks, packages)
    requires AllDelivered(db, Flatten(packages), ds) && i < |dps| && j < |dps|
    ensures TimesDelivered(Flatten(packages), ds, dps[i], e, dps[j], f)
         == if i < j then |NamesListed(Hashed(uploads[dps[i]], hash), e, Hashed(uploads[dps[j]], hash), f)| else 0
  {
    var md := MetadataOf(stored, dps);
    FetchedPairsAreComparedOnce(md, db, aim, split, blocks, packages, ds, i, e, j, f);
    assert Matches(db.rows, stored, uploads, hash, dps[i]) && Matches(db.rows, stored, uploads, hash, dps[j]);
    CommonIsListed(db, stored, dps, uploads, hash, dps[i], e, dps[j], f);
  }

  // ----- A whole run -----

  /** The two entities are delivered to be compared once for each name that their uploads list for both. */
  ghost predicate PairOnce(dps: seq<nat>, uploads: map<nat, seq<Entry>>, hash: string -> string, cs: seq<Chunk>,
                           ds: seq<(Delivery, Delivery)>, i: nat, e: nat, j: nat, f: nat)
    requires |ds| == |cs| && i < |dps| && j < |dps| && forall d | d in dps :: d in uploads
  {
    TimesDelivered(cs, ds, dps[i], e, dps[j], f)
    == if i < j then |NamesListed(Hashed(uploads[dps[i]], hash), e, Hashed(uploads[dps[j]], hash), f)| else 0
  }

  ghost predicate AllPairsOnce(dps: seq<nat>, uploads: map<nat, seq<Entry>>, hash: string -> string, cs: seq<Chunk>,
                               ds: seq<(Delivery, Delivery)>)
    requires forall d | d in dps :: d in uploads
  {
    && |ds| == |cs|
    && forall i: nat, e: nat, j: nat, f: nat | i < |dps| && j < |dps| ::
         PairOnce(dps, uploads, hash, cs, ds, i, e, j, f)
  }

  lemma {:induction false} AllPairsAreComparedOnce(
      db: Database, stored: seq<BlockMeta>, dps: seq<nat>, uploads: map<nat, seq<Entry>>,
      hash: string -> string, size: nat,
      aim: nat, split: (nat, nat) -> seq<Tile>, blocks: seq<CommonBlock>, packages: seq<Package>,
      ds: seq<(Delivery, Delivery)>)
    requires (forall d | d in dps :: d in uploads) && ProjectStored(db, stored, dps, uploads, hash, size)
    requires NoneTwice(dps, uploads, hash) && IsSchedule(MetadataOf(stored, dps), aim, split, blocks, packages)
    requires AllDelivered(db, Flatten(packages), ds)
    ensures AllPairsOnce(dps, uploads, hash, Flatten(packages), ds)
  {
    forall i: nat, e: nat, j: nat, f: nat | i < |dps| && j < |dps|
      ensures PairOnce(dps, uploads, hash, Flatten(packages), ds, i, e, j, f)
    {
      ProjectPairsAreComparedOnce(db, stored, dps, uploads, hash, size, aim, split, blocks, packages, ds, i, e, j, f);
    }
  }

  /** Which names the providers have, and their counts. */
  method GroupByName(md: Metadata) returns (rows: seq<Row>)
    requires md.Valid()
    ensures GroupedByName(md, rows)
  {
    var todo := set d, name | d in md.dps && name in md.sizes[d] :: name;
    ghost var all := todo;
    rows := [];
    while todo != {}
      invariant todo <= all && forall i, j | 0 <= i < j < |rows| :: rows[i].name != rows[j].name
      invariant forall r | r in rows ::
                  r.name in all - todo && r.counts == ComparisonTotals.CountsOf(md, r.name, md.dps)
      invariant forall name | name in all - todo :: NameIn(rows, name)
    {
      var name :| name in todo;
      ghost var before := rows;
      rows := rows + [Row(name, ComparisonTotals.CountsOf(md, name, md.dps))];
      todo := todo - {name};
      forall n | n in all - todo ensures NameIn(rows, n) {
        if n == name {
          assert rows[|before|].name == name;
        } else {
          assert NameIn(before, n);
          var r :| r in before && r.name == n;
          assert r in rows;
        }
      }
    }
    forall d, name | d in md.dps && name in md.sizes[d] ensures exists r | r in rows :: r.name == name {
      assert name in all && NameIn(rows, name);
    }
  }

  ghost predicate NameIn(rows: seq<Row>, name: string) {
    exists r | r in rows :: r.name == name
  }

  /**
   A run from the uploads of all providers to the comparisons: every upload is stored, every package
   is fetched, the comparisons counted on the way are the total that is shown to users, and any two
   entities are compared exactly once for each hashed block name that their uploads list for both,
   under the positions that their providers have in the project.
   */
  method LinkUploads(dps: seq<nat>, uploads: map<nat, seq<Entry>>, hash: string -> string, size: nat, atOnce: bool,
                     aim: nat, split: (nat, nat) -> seq<Tile>)
    returns (packages: seq<Package>, total: nat, progress: nat, data: seq<(Delivery, Delivery)>)
    requires Distinct(dps) && AllPackable(dps, uploads, size)
    requires ProjectUploads.BlockTotal(dps, uploads, hash) <= LAST_BLOCK
    requires NoneTwice(dps, uploads, hash) && ExactSplitter(split, aim)
    ensures progress == total && AllPairsOnce(dps, uploads, hash, Flatten(packages), data)
    ensures forall p | p in packages :: AllLabelled(dps, p)
  {
    var t, ok := UploadAll(dps, uploads, hash, size, atOnce);
    var md, db := MetadataOf(t.blocks, dps), t.Snapshot();
    ghost var blocks;
    packages, blocks := CreateComparisonJobs(md, aim, split);
    var rows := GroupByName(md);
    total := GetTotalComparisons(rows);
    progress, data := CompareAll(db, packages, size, md, aim, split, blocks, rows);
    AllPairsAreComparedOnce(db, t.blocks, dps, uploads, hash, size, aim, split, blocks, packages, data);
  }
}
