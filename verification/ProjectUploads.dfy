/**
 The tables of a project after each of its providers has uploaded: what the block metadata says
 about the rows that are stored, and that fetching finds the record of every row.
 */
module ProjectUploads {
  import opened BlockQueries
  import opened Bytes
  import opened Collections
  import opened EncodingStore
  import opened UploadCounts
  import opened WorkPackages
  import opened Wrappers

  // ----- What the scheduler reads -----

  /** The block metadata of these providers. */
  function MetadataOf(blocks: seq<BlockMeta>, dps: seq<nat>): Metadata {
    Metadata(dps, map d | d in dps :: CountsOf(blocks, d), map d | d in dps :: LookupOf(blocks, d))
  }

  /** The block metadata describes the rows that are stored. */
  ghost predicate Describes(md: Metadata, db: Database)
    requires md.Valid()
  {
    forall d, name | d in md.dps && name in md.sizes[d] :: Counts(md, db, d, name)
  }

  /** The block has a proper id, and its count is the number of its entities, which are distinct. */
  ghost predicate Counts(md: Metadata, db: Database, d: nat, name: string)
    requires d in md.sizes && name in md.sizes[d] && d in md.lookups && name in md.lookups[d]
  {
    var own := Members(db.rows, d, Some(md.lookups[d][name]));
    md.lookups[d][name] != 0 && |own| == md.sizes[d][name] > 0 && Distinct(own)
  }

  /** A block id says which provider and which name is meant. */
  ghost predicate UniqueIds(md: Metadata)
    requires md.Valid()
  {
    forall d, m, e, n | d in md.dps && m in md.lookups[d] && e in md.dps && n in md.lookups[e] ::
      md.lookups[d][m] == md.lookups[e][n] ==> d == e && m == n
  }

  lemma {:induction false} MetadataIsValid(blocks: seq<BlockMeta>, next: nat, dps: seq<nat>)
    requires KeyedBlocks(blocks, next) && Distinct(dps)
    ensures MetadataOf(blocks, dps).Valid() && UniqueIds(MetadataOf(blocks, dps))
  {
    var md := MetadataOf(blocks, dps);
    forall d | d in dps ensures md.lookups[d].Keys == md.sizes[d].Keys {
      SameNames(blocks, d);
    }
    forall d, m, e, n | d in md.dps && m in md.lookups[d] && e in md.dps && n in md.lookups[e]
      ensures md.lookups[d][m] == md.lookups[e][n] ==> d == e && m == n
    {
      IdsAreUnique(blocks, next, d, m, e, n);
    }
  }

  // ----- After one upload each -----

  ghost predicate Matches(rows: seq<BlockRow>, blocks: seq<BlockMeta>, uploads: map<nat, seq<Entry>>,
                          hash: string -> string, d: nat) {
    && d in uploads && LookupOf(blocks, d).Keys == BlockNames(Hashed(uploads[d], hash))
    && CountsMatch(rows, d, LookupOf(blocks, d), CountsOf(blocks, d), Hashed(uploads[d], hash))
  }

  /** These providers have uploaded, and no other has. */
  ghost predicate HaveUploaded(rows: seq<BlockRow>, blocks: seq<BlockMeta>, dps: seq<nat>,
                               uploads: map<nat, seq<Entry>>,
                               hash: string -> string) {
    && (forall d | d in dps :: Matches(rows, blocks, uploads, hash, d))
    && forall d: nat | d !in dps :: SameMetadata([], blocks, d)
  }

  lemma {:induction false} UploadKeepsOthers(before: Database, after: Database, blocks0: seq<BlockMeta>,
                                             blocks: seq<BlockMeta>, uploads: map<nat, seq<Entry>>,
                                             hash: string -> string,
                                             dp: nat, ids: map<string, nat>, sizes: map<string, nat>, d: nat)
    requires dp in uploads && d != dp && Matches(before.rows, blocks0, uploads, hash, d)
    requires Uploaded(before, after, blocks0, blocks, dp, ids, sizes, Hashed(uploads[dp], hash))
    ensures Matches(after.rows, blocks, uploads, hash, d)
  {
    assert SameMetadata(blocks0, blocks, d);
    var lookup, counts, stored := LookupOf(blocks, d), CountsOf(blocks, d), Hashed(uploads[d], hash);
    forall n | n in lookup ensures CountMatches(after.rows, d, lookup[n], n, counts, stored) {
      assert CountMatches(before.rows, d, lookup[n], n, counts, stored);
      assert Members(after.rows, d, Some(lookup[n])) == Members(before.rows, d, Some(lookup[n]));
    }
  }

  lemma {:induction false} OnlyThose(m: map<string, nat>)
    ensures map[] + m == m
  {}

  /** The metadata of a provider that had none is what was recorded. */
  lemma {:induction false} OwnMetadata(blocks0: seq<BlockMeta>, blocks: seq<BlockMeta>, dp: nat, ids: map<string, nat>,
                                       sizes: map<string, nat>)
    requires SameMetadata([], blocks0, dp) && Recorded(blocks0, blocks, dp, ids, sizes)
    ensures LookupOf(blocks, dp) == ids && CountsOf(blocks, dp) == sizes
  {
    OnlyThose(ids);
    OnlyThose(sizes);
  }

  lemma {:induction false} OwnUpload(rows: seq<BlockRow>, blocks: seq<BlockMeta>, uploads: map<nat, seq<Entry>>,
                                     hash: string -> string, dp: nat, ids: map<string, nat>, sizes: map<string, nat>)
    requires dp in uploads && LookupOf(blocks, dp) == ids && CountsOf(blocks, dp) == sizes
    requires CountsMatch(rows, dp, ids, sizes, Hashed(uploads[dp], hash))
    requires sizes.Keys == BlockNames(Hashed(uploads[dp], hash))
    ensures Matches(rows, blocks, uploads, hash, dp)
  {}

  lemma {:induction false} OthersHaveNone(blocks0: seq<BlockMeta>, blocks: seq<BlockMeta>, dp: nat,
                                          ids: map<string, nat>,
                                          sizes: map<string, nat>, d: nat)
    requires SameMetadata([], blocks0, d) && Recorded(blocks0, blocks, dp, ids, sizes) && d != dp
    ensures SameMetadata([], blocks, d)
  {
    assert SameMetadata(blocks0, blocks, d);
  }

  lemma {:induction false} OneMoreUpload(before: Database, after: Database, blocks0: seq<BlockMeta>,
                                         blocks: seq<BlockMeta>,
                                         dps: seq<nat>, uploads: map<nat, seq<Entry>>, hash: string -> string,
                                         dp: nat, ids: map<string, nat>, sizes: map<string, nat>)
    requires dp in uploads && dp !in dps && HaveUploaded(before.rows, blocks0, dps, uploads, hash)
    requires Uploaded(before, after, blocks0, blocks, dp, ids, sizes, Hashed(uploads[dp], hash))
    requires sizes.Keys == BlockNames(Hashed(uploads[dp], hash))
    ensures HaveUploaded(after.rows, blocks, dps + [dp], uploads, hash)
  {
    forall d | d in dps + [dp] ensures Matches(after.rows, blocks, uploads, hash, d) {
      if d in dps {
        UploadKeepsOthers(before, after, blocks0, blocks, uploads, hash, dp, ids, sizes, d);
      } else {
        OwnMetadata(blocks0, blocks, dp, ids, sizes);
        OwnUpload(after.rows, blocks, uploads, hash, dp, ids, sizes);
      }
    }
    forall d: nat | d !in dps + [dp] ensures SameMetadata([], blocks, d) {
      OthersHaveNone(blocks0, blocks, dp, ids, sizes, d);
    }
  }

  // ----- Whether entities list blocks twice -----

  /** No entity of any upload lists a block twice, after block names are hashed. */
  ghost predicate NoneTwice(dps: seq<nat>, uploads: map<nat, seq<Entry>>, hash: string -> string)
    requires forall d | d in dps :: d in uploads
  {
    forall d | d in dps :: forall e | e in Hashed(uploads[d], hash) :: Distinct(e.blocks)
  }

  lemma {:induction false} OccurrencesInMultiset(blocks: seq<string>, name: string)
    ensures OccurrencesIn(blocks, name) == multiset(blocks)[name]
  {
    if blocks != [] {
      OccurrencesInMultiset(blocks[..|blocks| - 1], name);
      assert blocks == blocks[..|blocks| - 1] + [blocks[|blocks| - 1]];
    }
  }

  predicate AtMostOne(blocks: seq<string>, name: string) {
    OccurrencesIn(blocks, name) <= 1
  }

  lemma {:induction false} DistinctIff(blocks: seq<string>)
    ensures Distinct(blocks) <==> forall name | name in blocks :: AtMostOne(blocks, name)
  {
    if Distinct(blocks) {
      DistinctMultiset(blocks);
      forall name | name in blocks ensures AtMostOne(blocks, name) {
        OccurrencesInMultiset(blocks, name);
      }
    }
    if forall name | name in blocks :: AtMostOne(blocks, name) {
      forall name ensures multiset(blocks)[name] <= 1 {
        OccurrencesInMultiset(blocks, name);
        assert name in blocks ==> AtMostOne(blocks, name);
      }
      DistinctFromCounts(blocks);
    }
  }

  lemma {:induction false} DistinctIffListedOnce(entries: seq<Entry>)
    ensures (forall e | e in entries :: Distinct(e.blocks)) <==>
            forall name | name in BlockNames(entries) :: ListedOnce(entries, name)
  {
    if forall e | e in entries :: Distinct(e.blocks) {
      forall e, name | e in entries ensures OccurrencesIn(e.blocks, name) <= 1 {
        DistinctIff(e.blocks);
        OccursWhenListed(e.blocks, name);
        assert name in e.blocks ==> AtMostOne(e.blocks, name);
      }
    }
    if forall name | name in BlockNames(entries) :: ListedOnce(entries, name) {
      forall e | e in entries ensures Distinct(e.blocks) {
        forall name | name in e.blocks ensures AtMostOne(e.blocks, name) {
          assert name in BlockNames(entries) && ListedOnce(entries, name);
        }
        DistinctIff(e.blocks);
      }
    }
  }

  lemma {:induction false} UploadIsDescribed(rows: seq<BlockRow>, encodings: map<nat, seq<Byte>>,
                                             blocks: seq<BlockMeta>,
                                             dps: seq<nat>, uploads: map<nat, seq<Entry>>,
                                             hash: string -> string, d: nat)
    requires MetadataOf(blocks, dps).Valid() && d in dps && Matches(rows, blocks, uploads, hash, d)
    ensures var md := MetadataOf(blocks, dps);
            && md.sizes[d].Keys == BlockNames(Hashed(uploads[d], hash))
            && forall n | n in md.sizes[d] ::
                 Counts(md, Database(rows, encodings), d, n) <==> ListedOnce(Hashed(uploads[d], hash), n)
  {
    var stored := Hashed(uploads[d], hash);
    forall n | n in CountsOf(blocks, d)
      ensures Counts(MetadataOf(blocks, dps), Database(rows, encodings), d, n) <==> ListedOnce(stored, n)
    {
      assert CountMatches(rows, d, LookupOf(blocks, d)[n], n, CountsOf(blocks, d), stored);
    }
  }

  /**
   After one upload by each provider, the metadata describes the stored rows if and only if no entity
   lists a block twice. The schema does not forbid it, and the upload counts it twice.
   */
  lemma {:induction false} UploadsAreDescribed(db: Database, blocks: seq<BlockMeta>, dps: seq<nat>,
                                               uploads: map<nat, seq<Entry>>, hash: string -> string)
    requires MetadataOf(blocks, dps).Valid() && HaveUploaded(db.rows, blocks, dps, uploads, hash)
    ensures Describes(MetadataOf(blocks, dps), db) <==> NoneTwice(dps, uploads, hash)
  {
    var md := MetadataOf(blocks, dps);
    forall d | d in dps
      ensures (forall n | n in md.sizes[d] :: Counts(md, db, d, n))
         <==> forall e | e in Hashed(uploads[d], hash) :: Distinct(e.blocks)
    {
      assert Matches(db.rows, blocks, uploads, hash, d);
      UploadIsDescribed(db.rows, db.encodings, blocks, dps, uploads, hash, d);
      DistinctIffListedOnce(Hashed(uploads[d], hash));
    }
  }

  // ----- Encoding ids -----

  /** The records have ids below 2^32, and no two of them the same. */
  ghost predicate Packable(entries: seq<Entry>, size: nat) {
    AllPacked(entries, size) && forall i, j | 0 <= i < j < |entries| :: entries[i].id != entries[j].id
  }

  ghost predicate AllPackable(dps: seq<nat>, uploads: map<nat, seq<Entry>>, size: nat) {
    4 + size < Capacity(4) && forall d | d in dps :: d in uploads && Packable(uploads[d], size)
  }

  /** The encoding ids that are taken belong to these providers. */
  ghost predicate TakenBy(encodings: map<nat, seq<Byte>>, dps: seq<nat>) {
    forall k | k in encodings :: exists d, e: nat | d in dps && e < ID_RANGE :: k == EncodingId(d, e)
  }

  lemma {:induction false} NewProviderIsFresh(encodings: map<nat, seq<Byte>>, dps: seq<nat>, dp: nat,
                                              entries: seq<Entry>,
                                              size: nat)
    requires TakenBy(encodings, dps) && dp !in dps && Packable(entries, size)
    ensures AllFresh(encodings, dp, entries)
  {
    forall e | e in entries ensures EncodingId(dp, e.id) !in encodings {
      assert Packed(e, size);
      if EncodingId(dp, e.id) in encodings {
        var d, f: nat :| d in dps && f < ID_RANGE && EncodingId(dp, e.id) == EncodingId(d, f);
        EncodingIdsKeepOrder(dp, e.id, d, f);
      }
    }
  }

  lemma {:induction false} StillTakenBy(encodings: map<nat, seq<Byte>>, dps: seq<nat>, dp: nat, entries: seq<Entry>,
                                        size: nat, hash: string -> string)
    requires TakenBy(encodings, dps) && Packable(entries, size)
    ensures TakenBy(EncodingsWith(encodings, dp, Hashed(entries, hash)), dps + [dp])
  {
    var stored := Hashed(entries, hash);
    var after := EncodingsWith(encodings, dp, stored);
    EncodingsWithKeys(encodings, dp, stored);
    HashedIsPacked(entries, hash, size);
    forall k | k in after ensures exists d, e: nat | d in dps + [dp] && e < ID_RANGE :: k == EncodingId(d, e) {
      if k in encodings {
        var d, e: nat :| d in dps && e < ID_RANGE && k == EncodingId(d, e);
        assert d in dps + [dp];
      } else {
        var e :| e in stored && EncodingId(dp, e.id) == k;
        assert Packed(e, size) && dp in dps + [dp];
      }
    }
  }

  // ----- All uploads of a project -----

  /** How many block ids the uploads take. */
  ghost function BlockTotal(dps: seq<nat>, uploads: map<nat, seq<Entry>>, hash: string -> string): nat
    requires forall d | d in dps :: d in uploads
  {
    if dps == [] then 0
    else BlockTotal(dps[..|dps| - 1], uploads, hash) + |BlockNames(Hashed(uploads[dps[|dps| - 1]], hash))|
  }

  lemma {:induction false} BlockTotalGrows(dps: seq<nat>, uploads: map<nat, seq<Entry>>, hash: string -> string, i: nat)
    requires (forall d | d in dps :: d in uploads) && i <= |dps|
    ensures BlockTotal(dps[..i], uploads, hash) <= BlockTotal(dps, uploads, hash)
    decreases |dps|
  {
    var last := |dps| - 1;
    if i <= last {
      BlockTotalGrows(dps[..last], uploads, hash, i);
      assert dps[..last][..i] == dps[..i];
    } else {
      assert dps[..i] == dps;
    }
  }

  /** Where the uploads of a project stand when these providers have uploaded. */
  ghost predicate Progressing(db: Database, blocks: seq<BlockMeta>, next: nat, dps: seq<nat>,
                              uploads: map<nat, seq<Entry>>, hash: string -> string, size: nat)
    requires forall d | d in dps :: d in uploads
  {
    && HaveUploaded(db.rows, blocks, dps, uploads, hash) && next == 1 + BlockTotal(dps, uploads, hash)
    && (AllPackable(dps, uploads, size) ==> Sound(db, size) && TakenBy(db.encodings, dps))
  }

  lemma {:induction false} NextProgress(before: Database, after: Database, blocks0: seq<BlockMeta>,
                                        blocks: seq<BlockMeta>,
                                        first: nat, next: nat, dps: seq<nat>, uploads: map<nat, seq<Entry>>,
                                        hash: string -> string, size: nat, dp: nat, ids: map<string, nat>,
                                        sizes: map<string, nat>)
    requires (forall d | d in dps :: d in uploads) && dp in uploads && dp !in dps
    requires Progressing(before, blocks0, first, dps, uploads, hash, size)
    requires Uploaded(before, after, blocks0, blocks, dp, ids, sizes, Hashed(uploads[dp], hash))
    requires sizes.Keys == BlockNames(Hashed(uploads[dp], hash)) && next == first + |sizes|
    requires Sound(before, size) && AllPacked(uploads[dp], size) ==> Sound(after, size)
    ensures forall d | d in dps + [dp] :: d in uploads
    ensures Progressing(after, blocks, next, dps + [dp], uploads, hash, size)
  {
    OneMoreUpload(before, after, blocks0, blocks, dps, uploads, hash, dp, ids, sizes);
    ConcatLast(dps, dp);
    assert |sizes| == |sizes.Keys|;
    if AllPackable(dps + [dp], uploads, size) {
      assert forall d | d in dps :: d in dps + [dp];
      assert dp in dps + [dp];
      StillTakenBy(before.encodings, dps, dp, uploads[dp], size, hash);
    }
  }

  /** The next upload has fresh encoding ids, and block ids are left for it. */
  lemma {:induction false} NextSucceeds(db: Database, blocks: seq<BlockMeta>, next: nat, dps: seq<nat>, i: nat,
                                        uploads: map<nat, seq<Entry>>, hash: string -> string, size: nat)
    requires Distinct(dps) && i < |dps| && (forall d | d in dps :: d in uploads)
    requires Progressing(db, blocks, next, dps[..i], uploads, hash, size)
    requires AllPackable(dps, uploads, size) && BlockTotal(dps, uploads, hash) <= LAST_BLOCK
    ensures AllFresh(db.encodings, dps[i], uploads[dps[i]])
    ensures next + |BlockNames(Hashed(uploads[dps[i]], hash))| <= LAST_BLOCK + 1
  {
    assert forall d | d in dps[..i] :: d in dps;
    NewProviderIsFresh(db.encodings, dps[..i], dps[i], uploads[dps[i]], size);
    BlockTotalGrows(dps, uploads, hash, i + 1);
    TakeNext(dps, i);
    ConcatLast(dps[..i], dps[i]);
  }

  /**
   What one upload by each provider of a project makes of empty tables: block ids are unique, the
   metadata describes the rows if and only if no entity lists a block twice, and fetching finds the
   record of every row.
   */
  ghost predicate ProjectStored(db: Database, blocks: seq<BlockMeta>, dps: seq<nat>, uploads: map<nat, seq<Entry>>,
                                hash: string -> string, size: nat)
    requires forall d | d in dps :: d in uploads
  {
    var md := MetadataOf(blocks, dps);
    && md.Valid() && UniqueIds(md) && HaveUploaded(db.rows, blocks, dps, uploads, hash)
    && (Describes(md, db) <==> NoneTwice(dps, uploads, hash)) && (AllPackable(dps, uploads, size) ==> Sound(db, size))
  }

  lemma {:induction false} AllHaveUploaded(db: Database, blocks: seq<BlockMeta>, next: nat, dps: seq<nat>,
                                           uploads: map<nat, seq<Entry>>, hash: string -> string, size: nat)
    requires Distinct(dps) && forall d | d in dps :: d in uploads
    requires Progressing(db, blocks, next, dps, uploads, hash, size) && KeyedBlocks(blocks, next)
    ensures ProjectStored(db, blocks, dps, uploads, hash, size)
  {
    MetadataIsValid(blocks, next, dps);
    UploadsAreDescribed(db, blocks, dps, uploads, hash);
  }

  /**
   One upload by each provider of a project, into empty tables. All succeed if records are packed
   with ids below 2^32 and block ids do not run out.
   */
  method UploadAll(dps: seq<nat>, uploads: map<nat, seq<Entry>>, hash: string -> string, size: nat, atOnce: bool)
    returns (t: Tables, ok: bool)
    requires Distinct(dps) && forall d | d in dps :: d in uploads
    ensures t.Valid()
    ensures AllPackable(dps, uploads, size) && BlockTotal(dps, uploads, hash) <= LAST_BLOCK ==> ok
    ensures ok ==> ProjectStored(t.Snapshot(), t.blocks, dps, uploads, hash, size)
  {
    t := new Tables();
    for i := 0 to |dps|
      invariant t.Valid() && fresh(t)
      invariant Progressing(t.Snapshot(), t.blocks, t.nextBlock, dps[..i], uploads, hash, size)
    {
      ghost var before, blocks0, first := t.Snapshot(), t.blocks, t.nextBlock;
      if AllPackable(dps, uploads, size) && BlockTotal(dps, uploads, hash) <= LAST_BLOCK {
        NextSucceeds(before, blocks0, first, dps, i, uploads, hash, size);
      }
      ghost var ids, sizes;
      ok, ids, sizes := Upload(t, dps[i], uploads[dps[i]], hash, size, atOnce);
      if !ok {
        return;
      }
      NextProgress(before, t.Snapshot(), blocks0, t.blocks, first, t.nextBlock, dps[..i], uploads, hash, size, dps[i],
          ids, sizes);
      TakeNext(dps, i);
    }
    assert dps[..|dps|] == dps;
    AllHaveUploaded(t.Snapshot(), t.blocks, t.nextBlock, dps, uploads, hash, size);
    ok := true;
  }
}
