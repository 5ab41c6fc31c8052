/**
 The block counts of an upload, which are taken before anything is stored, and what they say
 about the rows that are stored afterwards.
 */
module UploadCounts {
  import opened BlockQueries
  import opened Bytes
  import opened Collections
  import opened EncodingStore
  import opened Wrappers

  // ----- Counting -----

  function OccurrencesIn(blocks: seq<string>, name: string): nat {
    if blocks == [] then 0
    else OccurrencesIn(blocks[..|blocks| - 1], name) + if blocks[|blocks| - 1] == name then 1 else 0
  }

  /** How often a block name is listed in an upload. */
  function Occurrences(entries: seq<Entry>, name: string): nat {
    if entries == [] then 0
    else Occurrences(entries[..|entries| - 1], name) + OccurrencesIn(entries[|entries| - 1].blocks, name)
  }

  function HashNames(blocks: seq<string>, hash: string -> string): seq<string> {
    seq(|blocks|, i requires 0 <= i < |blocks| => hash(blocks[i]))
  }

  /** The entries as they are stored, with hashed block names. */
  function Hashed(entries: seq<Entry>, hash: string -> string): seq<Entry> {
    seq(|entries|, i requires 0 <= i < |entries| => entries[i].(blocks := HashNames(entries[i].blocks, hash)))
  }

  /** The sizes are those of the names that occur. */
  ghost predicate Tallies(sizes: map<string, nat>, entries: seq<Entry>, last: seq<string>) {
    && (forall n :: n in sizes <==> Occurrences(entries, n) + OccurrencesIn(last, n) > 0)
    && forall n | n in sizes :: sizes[n] == Occurrences(entries, n) + OccurrencesIn(last, n)
  }

  lemma {:induction false} TallyNext(sizes: map<string, nat>, entries: seq<Entry>, last: seq<string>, h: string)
    requires Tallies(sizes, entries, last)
    ensures Tallies(sizes[h := (if h in sizes then sizes[h] else 0) + 1], entries, last + [h])
  {
    ConcatLast(last, h);
  }

  lemma {:induction false} TallyEntry(sizes: map<string, nat>, entries: seq<Entry>, e: Entry)
    requires Tallies(sizes, entries, e.blocks)
    ensures Tallies(sizes, entries + [e], [])
  {
    ConcatLast(entries, e);
  }

  /** Hash the block names of all entries and count each of them. */
  method CountBlocks(entries: seq<Entry>, hash: string -> string) returns (sizes: map<string, nat>)
    ensures Tallies(sizes, Hashed(entries, hash), [])
  {
    sizes := map[];
    ghost var stored := Hashed(entries, hash);
    for i := 0 to |entries|
      invariant Tallies(sizes, stored[..i], [])
    {
      var blocks := entries[i].blocks;
      for j := 0 to |blocks|
        invariant Tallies(sizes, stored[..i], stored[i].blocks[..j])
      {
        var name := hash(blocks[j]);
        TallyNext(sizes, stored[..i], stored[i].blocks[..j], name);
        assert stored[i].blocks[..j + 1] == stored[i].blocks[..j] + [name];
        sizes := sizes[name := (if name in sizes then sizes[name] else 0) + 1];
      }
      assert stored[i].blocks[..|blocks|] == stored[i].blocks;
      TallyEntry(sizes, stored[..i], stored[i]);
      assert stored[..i + 1] == stored[..i] + [stored[i]];
    }
    assert stored[..|entries|] == stored;
  }

  lemma {:induction false} OccursWhenListed(blocks: seq<string>, name: string)
    ensures OccurrencesIn(blocks, name) > 0 <==> name in blocks
  {
    if blocks != [] {
      OccursWhenListed(blocks[..|blocks| - 1], name);
      assert blocks == blocks[..|blocks| - 1] + [blocks[|blocks| - 1]];
    }
  }

  /** Every name that an entry lists has been counted, so that storing finds an id for it. */
  lemma {:induction false} CountedNamesAreKnown(entries: seq<Entry>, e: Entry, name: string)
    requires e in entries && name in e.blocks
    ensures Occurrences(entries, name) > 0
  {
    var init, last := entries[..|entries| - 1], entries[|entries| - 1];
    if e == last {
      OccursWhenListed(e.blocks, name);
    } else {
      CountedNamesAreKnown(init, e, name);
    }
  }

  // ----- Counts and rows -----

  /** Rows of one entity in one block. */
  function RowsOf(rows: seq<BlockRow>, dp: nat, block: nat, e: nat): nat {
    if rows == [] then 0
    else RowsOf(rows[..|rows| - 1], dp, block, e)
         + if rows[|rows| - 1].dp == dp && rows[|rows| - 1].block == block && rows[|rows| - 1].entity == e then 1 else 0
  }

  /** Rows of all entities in one block. */
  function RowsIn(rows: seq<BlockRow>, dp: nat, block: nat): nat {
    if rows == [] then 0
    else RowsIn(rows[..|rows| - 1], dp, block)
         + if rows[|rows| - 1].dp == dp && rows[|rows| - 1].block == block then 1 else 0
  }

  lemma {:induction false} RowsConcat(a: seq<BlockRow>, b: seq<BlockRow>, dp: nat, block: nat, e: nat)
    ensures RowsOf(a + b, dp, block, e) == RowsOf(a, dp, block, e) + RowsOf(b, dp, block, e)
    ensures RowsIn(a + b, dp, block) == RowsIn(a, dp, block) + RowsIn(b, dp, block)
  {
    if b == [] {
      assert a + b == a;
    } else {
      assert (a + b)[..|a + b| - 1] == a + b[..|b| - 1];
      RowsConcat(a, b[..|b| - 1], dp, block, e);
    }
  }

  lemma {:induction false} EntityRowsCount(dp: nat, id: nat, blocks: seq<string>, lookup: map<string, nat>,
                                           name: string, e: nat)
    requires name in lookup && OneIdEach(lookup, 0)
    ensures RowsIn(EntityRows(dp, id, blocks, lookup), dp, lookup[name]) == OccurrencesIn(blocks, name)
    ensures RowsOf(EntityRows(dp, id, blocks, lookup), dp, lookup[name], e)
         == if e == id then OccurrencesIn(blocks, name) else 0
  {
    if blocks != [] {
      var init, last := blocks[..|blocks| - 1], blocks[|blocks| - 1];
      EntityRowsCount(dp, id, init, lookup, name, e);
      if last in lookup {
        ConcatLast(EntityRows(dp, id, init, lookup), BlockRow(dp, id, EncodingId(dp, id), lookup[last]));
      } else {
        assert EntityRows(dp, id, blocks, lookup) == EntityRows(dp, id, init, lookup);
      }
    }
  }

  /** How often the entity lists the block. */
  function OccurrencesFor(entries: seq<Entry>, id: nat, name: string): nat {
    if entries == [] then 0
    else OccurrencesFor(entries[..|entries| - 1], id, name)
         + if entries[|entries| - 1].id == id then OccurrencesIn(entries[|entries| - 1].blocks, name) else 0
  }

  /** The rows of a block are as many as its name occurs in the upload, overall and for each entity. */
  lemma {:induction false} RowsForCount(dp: nat, entries: seq<Entry>, lookup: map<string, nat>, name: string, e: nat)
    requires name in lookup && OneIdEach(lookup, 0)
    ensures RowsIn(RowsFor(dp, entries, lookup), dp, lookup[name]) == Occurrences(entries, name)
    ensures RowsOf(RowsFor(dp, entries, lookup), dp, lookup[name], e) == OccurrencesFor(entries, e, name)
  {
    if entries != [] {
      var init, last := entries[..|entries| - 1], entries[|entries| - 1];
      RowsForCount(dp, init, lookup, name, e);
      EntityRowsCount(dp, last.id, last.blocks, lookup, name, e);
      RowsConcat(RowsFor(dp, init, lookup), EntityRows(dp, last.id, last.blocks, lookup), dp, lookup[name], e);
    }
  }

  lemma {:induction false} NoRowsYet(rows: seq<BlockRow>, dp: nat, block: nat, e: nat)
    requires forall r | r in rows :: r.block != block
    ensures RowsIn(rows, dp, block) == 0 && RowsOf(rows, dp, block, e) == 0
  {
    if rows != [] {
      NoRowsYet(rows[..|rows| - 1], dp, block, e);
    }
  }

  // ----- Counts and what queries deliver -----

  lemma {:induction false} InsertNatCounts(x: nat, s: seq<nat>)
    ensures multiset(InsertNat(x, s)) == multiset(s) + multiset{x}
  {
    if s == [] || x <= s[0] {
      assert InsertNat(x, s) == [x] + s;
    } else {
      InsertNatCounts(x, s[1..]);
      assert s == [s[0]] + s[1..];
    }
  }

  /** The list of entities of a block holds each of them as often as it has rows there. */
  lemma {:induction false} MembersCount(rows: seq<BlockRow>, dp: nat, block: nat, e: nat)
    ensures multiset(Members(rows, dp, Some(block)))[e] == RowsOf(rows, dp, block, e)
    ensures |Members(rows, dp, Some(block))| == RowsIn(rows, dp, block)
  {
    if rows != [] {
      var own := Members(rows[1..], dp, Some(block));
      MembersCount(rows[1..], dp, block, e);
      RowsConcat([rows[0]], rows[1..], dp, block, e);
      assert rows == [rows[0]] + rows[1..];
      assert [rows[0]][..0] == [];
      InsertNatCounts(rows[0].entity, own);
      assert |multiset(InsertNat(rows[0].entity, own))| == |InsertNat(rows[0].entity, own)| && |multiset(own)| == |own|;
    }
  }

  predicate AtMostOneRow(rows: seq<BlockRow>, dp: nat, block: nat, e: nat) {
    RowsOf(rows, dp, block, e) <= 1
  }

  lemma {:induction false} MembersDistinct(rows: seq<BlockRow>, dp: nat, block: nat)
    ensures Distinct(Members(rows, dp, Some(block))) <==> forall e: nat :: AtMostOneRow(rows, dp, block, e)
  {
    var own := Members(rows, dp, Some(block));
    var all: multiset<nat> := multiset(own);
    if Distinct(own) {
      DistinctMultiset(own);
      forall e: nat ensures AtMostOneRow(rows, dp, block, e) {
        MembersCount(rows, dp, block, e);
        assert all[e] <= 1;
      }
    }
    if forall e: nat :: AtMostOneRow(rows, dp, block, e) {
      forall e: nat ensures all[e] <= 1 {
        MembersCount(rows, dp, block, e);
        assert AtMostOneRow(rows, dp, block, e);
      }
      DistinctFromCounts(own);
    }
  }

  lemma {:induction false} OccurrencesForId(entries: seq<Entry>, id: nat, name: string)
    requires forall i, j | 0 <= i < j < |entries| :: entries[i].id != entries[j].id
    ensures forall e | e in entries && e.id == id :: OccurrencesFor(entries, id, name) == OccurrencesIn(e.blocks, name)
    ensures (forall e | e in entries :: e.id != id) ==> OccurrencesFor(entries, id, name) == 0
  {
    if entries != [] {
      var init, last := entries[..|entries| - 1], entries[|entries| - 1];
      OccurrencesForId(init, id, name);
      assert entries == init + [last];
      if last.id == id {
        forall e | e in init ensures e.id != id {
          var i :| 0 <= i < |init| && init[i] == e;
          assert entries[i] == e;
        }
      }
    }
  }

  /** No entity lists the name twice. */
  ghost predicate ListedOnce(entries: seq<Entry>, name: string) {
    forall e | e in entries :: OccurrencesIn(e.blocks, name) <= 1
  }

  predicate AtMostOnce(entries: seq<Entry>, id: nat, name: string) {
    OccurrencesFor(entries, id, name) <= 1
  }

  lemma {:induction false} ListedOnceIff(entries: seq<Entry>, name: string)
    requires forall i, j | 0 <= i < j < |entries| :: entries[i].id != entries[j].id
    ensures ListedOnce(entries, name) <==> forall id: nat :: AtMostOnce(entries, id, name)
  {
    if ListedOnce(entries, name) {
      forall id: nat ensures AtMostOnce(entries, id, name) {
        OccurrencesForId(entries, id, name);
        if exists e :: e in entries && e.id == id {
          var e :| e in entries && e.id == id;
          assert OccurrencesIn(e.blocks, name) <= 1;
        }
      }
    }
    if forall id: nat :: AtMostOnce(entries, id, name) {
      forall e | e in entries ensures OccurrencesIn(e.blocks, name) <= 1 {
        OccurrencesForId(entries, e.id, name);
        assert AtMostOnce(entries, e.id, name);
      }
    }
  }

  /** The entity was uploaded under this block name. */
  ghost predicate Lists(entries: seq<Entry>, id: nat, name: string) {
    exists e | e in entries :: e.id == id && name in e.blocks
  }

  lemma {:induction false} OccursForListed(entries: seq<Entry>, id: nat, name: string)
    ensures OccurrencesFor(entries, id, name) > 0 <==> Lists(entries, id, name)
  {
    if entries != [] {
      var init, last := entries[..|entries| - 1], entries[|entries| - 1];
      OccursForListed(init, id, name);
      OccursWhenListed(last.blocks, name);
      assert entries == init + [last];
    }
  }

  /** The entities of the stored block are those that list its name. */
  lemma {:induction false} StoredMembers(rows: seq<BlockRow>, dp: nat, entries: seq<Entry>, lookup: map<string, nat>,
                                         name: string, e: nat)
    requires name in lookup && OneIdEach(lookup, 0) && forall r | r in rows :: r.block != lookup[name]
    ensures e in Members(rows + RowsFor(dp, entries, lookup), dp, Some(lookup[name])) <==> Lists(entries, e, name)
  {
    var block, added := lookup[name], RowsFor(dp, entries, lookup);
    RowsForCount(dp, entries, lookup, name, e);
    RowsConcat(rows, added, dp, block, e);
    NoRowsYet(rows, dp, block, e);
    MembersCount(rows + added, dp, block, e);
    OccursForListed(entries, e, name);
    assert e in Members(rows + added, dp, Some(block)) <==> multiset(Members(rows + added, dp, Some(block)))[e] > 0;
  }

  /** What the rows stored for a new provider say about each of its blocks. */
  lemma {:induction false} StoredBlocks(rows: seq<BlockRow>, dp: nat, entries: seq<Entry>, lookup: map<string, nat>,
                                        name: string)
    requires name in lookup && OneIdEach(lookup, 0) && forall r | r in rows :: r.block != lookup[name]
    requires forall i, j | 0 <= i < j < |entries| :: entries[i].id != entries[j].id
    ensures var own := Members(rows + RowsFor(dp, entries, lookup), dp, Some(lookup[name]));
      |own| == Occurrences(entries, name) && (Distinct(own) <==> ListedOnce(entries, name))
  {
    var block, added := lookup[name], RowsFor(dp, entries, lookup);
    forall e: nat ensures AtMostOneRow(rows + added, dp, block, e) <==> AtMostOnce(entries, e, name) {
      RowsForCount(dp, entries, lookup, name, e);
      RowsConcat(rows, added, dp, block, e);
      NoRowsYet(rows, dp, block, e);
    }
    RowsForCount(dp, entries, lookup, name, 0);
    RowsConcat(rows, added, dp, block, 0);
    NoRowsYet(rows, dp, block, 0);
    MembersCount(rows + added, dp, block, 0);
    MembersDistinct(rows + added, dp, block);
    ListedOnceIff(entries, name);
  }

  // ----- What an upload keeps -----

  lemma {:induction false} RowsForMembers(dp: nat, entries: seq<Entry>, lookup: map<string, nat>, r: BlockRow)
    requires r in RowsFor(dp, entries, lookup)
    ensures r.dp == dp && r.encodingId == EncodingId(dp, r.entity)
    ensures exists n | n in lookup :: lookup[n] == r.block
    ensures exists e | e in entries :: e.id == r.entity
  {
    var init, last := entries[..|entries| - 1], entries[|entries| - 1];
    if r in RowsFor(dp, init, lookup) {
      RowsForMembers(dp, init, lookup, r);
      var e :| e in init && e.id == r.entity;
      assert e in entries;
    } else {
      EntityRowsMembers(dp, last.id, last.blocks, lookup, r);
    }
  }

  lemma {:induction false} EntityRowsMembers(dp: nat, id: nat, blocks: seq<string>, lookup: map<string, nat>,
                                             r: BlockRow)
    requires r in EntityRows(dp, id, blocks, lookup)
    ensures r.dp == dp && r.entity == id && r.encodingId == EncodingId(dp, id)
    ensures exists n | n in lookup :: lookup[n] == r.block
  {
    var init, last := blocks[..|blocks| - 1], blocks[|blocks| - 1];
    if r in EntityRows(dp, id, init, lookup) {
      EntityRowsMembers(dp, id, init, lookup, r);
    } else {
      assert last in lookup && lookup[last] == r.block;
    }
  }

  /** Rows of one provider leave the blocks of the others as they are. */
  lemma {:induction false} OtherProvidersUnchanged(rows: seq<BlockRow>, added: seq<BlockRow>, dp: nat, block: nat)
    requires forall r | r in added :: r.dp != dp
    ensures Members(rows + added, dp, Some(block)) == Members(rows, dp, Some(block))
  {
    if rows == [] {
      assert rows + added == added;
      NoMembers(added, dp, block);
    } else {
      assert (rows + added)[1..] == rows[1..] + added;
      OtherProvidersUnchanged(rows[1..], added, dp, block);
    }
  }

  lemma {:induction false} NoMembers(rows: seq<BlockRow>, dp: nat, block: nat)
    requires forall r | r in rows :: r.dp != dp
    ensures Members(rows, dp, Some(block)) == []
  {
    if rows != [] {
      NoMembers(rows[1..], dp, block);
    }
  }

  /** The record of the entry holds its id, and an encoding of the given size. */
  predicate Packed(e: Entry, size: nat) {
    e.id < ID_RANGE && |e.data| == 4 + size && FromBigEndian(e.data[..4]) == e.id
  }

  ghost predicate AllPacked(entries: seq<Entry>, size: nat) {
    forall e | e in entries :: Packed(e, size)
  }

  lemma {:induction false} EncodingsKept(encodings: map<nat, seq<Byte>>, dp: nat, entries: seq<Entry>)
    requires AllFresh(encodings, dp, entries)
    ensures forall k | k in encodings ::
        k in EncodingsWith(encodings, dp, entries) && EncodingsWith(encodings, dp, entries)[k] == encodings[k]
    ensures forall e | e in entries ::
              EncodingId(dp, e.id) in EncodingsWith(encodings, dp, entries)
                  && EncodingsWith(encodings, dp, entries)[EncodingId(dp, e.id)] == e.data
  {
    if entries != [] {
      var init, last := entries[..|entries| - 1], entries[|entries| - 1];
      assert entries == init + [last];
      EncodingsKept(encodings, dp, init);
      forall e | e in init ensures e.id != last.id {
        var i :| 0 <= i < |init| && init[i] == e;
        assert entries[i] == e;
      }
    }
  }

  /** An upload of packed records keeps the tables such that fetching finds the record of every row. */
  lemma {:induction false} UploadKeepsSound(db: Database, size: nat, dp: nat, entries: seq<Entry>,
                                            lookup: map<string, nat>)
    requires Sound(db, size) && AllFresh(db.encodings, dp, entries)
    requires AllPacked(entries, size) && forall n | n in lookup :: lookup[n] < Capacity(4)
    ensures Sound(Database(db.rows + RowsFor(dp, entries, lookup), EncodingsWith(db.encodings, dp, entries)), size)
  {
    var encodings := EncodingsWith(db.encodings, dp, entries);
    EncodingsKept(db.encodings, dp, entries);
    forall r | r in db.rows + RowsFor(dp, entries, lookup) ensures SoundRow(encodings, size, r) {
      if r in db.rows {
        assert SoundRow(db.encodings, size, r);
      } else {
        RowsForMembers(dp, entries, lookup, r);
        var e :| e in entries && e.id == r.entity;
        assert Packed(e, size);
      }
    }
  }

  // ----- An upload -----

  /**
   Each count is the number of stored rows, which are those of the entities that list the block, and
   an entity has one of them unless it lists the block twice.
   */
  ghost predicate CountsMatch(rows: seq<BlockRow>, dp: nat, lookup: map<string, nat>, counts: map<string, nat>,
                              entries: seq<Entry>) {
    counts.Keys == lookup.Keys && forall n | n in lookup :: CountMatches(rows, dp, lookup[n], n, counts, entries)
  }

  ghost predicate CountMatches(rows: seq<BlockRow>, dp: nat, block: nat, name: string, counts: map<string, nat>,
                               entries: seq<Entry>) {
    var own := Members(rows, dp, Some(block));
    && block > 0 && name in counts && |own| == counts[name] > 0 && counts[name] == Occurrences(entries, name)
    && (Distinct(own) <==> ListedOnce(entries, name)) && forall e: nat :: e in own <==> Lists(entries, e, name)
  }

  ghost function BlockNames(entries: seq<Entry>): set<string> {
    set e, n | e in entries && n in e.blocks :: n
  }

  /** What the blocks of other providers look like is unchanged. */
  ghost predicate OthersUnchanged(before: seq<BlockRow>, after: seq<BlockRow>, dp: nat) {
    forall d, b: nat | d != dp :: Members(after, d, Some(b)) == Members(before, d, Some(b))
  }

  /** What an upload without an error has stored, given the ids of its blocks. */
  ghost predicate Uploaded(before: Database, after: Database, blocks0: seq<BlockMeta>, blocks: seq<BlockMeta>,
                           dp: nat, ids: map<string, nat>, sizes: map<string, nat>, stored: seq<Entry>) {
    && after.rows == before.rows + RowsFor(dp, stored, LookupOf(blocks, dp))
    && after.encodings == EncodingsWith(before.encodings, dp, stored)
    && Recorded(blocks0, blocks, dp, ids, sizes) && CountsMatch(after.rows, dp, ids, sizes, stored)
    && OthersUnchanged(before.rows, after.rows, dp)
  }

  /** Record the counts, then store the entries, in one transaction or in two. */
  method StoreCounted(t: Tables, dp: nat, stored: seq<Entry>, sizes: map<string, nat>, encodingSize: nat, atOnce: bool)
    returns (ok: bool, ghost ids: map<string, nat>)
    requires t.Valid() && Tallies(sizes, stored, [])
    modifies t
    ensures t.Valid()
    ensures ok <==> AllFresh(old(t.encodings), dp, stored) && old(t.nextBlock) + |sizes| <= LAST_BLOCK + 1
    ensures ok ==> t.nextBlock == old(t.nextBlock) + |sizes|
    ensures ok ==> Uploaded(old(t.Snapshot()), t.Snapshot(), old(t.blocks), t.blocks, dp, ids, sizes, stored)
    ensures !ok ==> t.Snapshot() == old(t.Snapshot())
    ensures !ok ==> t.blocks == old(t.blocks) || (!atOnce && Recorded(old(t.blocks), t.blocks, dp, ids, sizes))
  {
    ghost var before, blocks0, first := t.Snapshot(), t.blocks, t.nextBlock;
    var saved := t.blocks;
    ok, ids := t.InsertBlockingMetadata(dp, sizes);
    IdsBelow(before.rows, blocks0, first, t.nextBlock, ids);
    if !ok {
      return;
    }
    AllCounted(sizes, stored, LookupOf(t.blocks, dp));
    ok := t.StoreEncodings(dp, stored, encodingSize);
    if ok {
      UploadedRows(before, blocks0, t.blocks, t.nextBlock, dp, stored, ids, sizes);
    } else if atOnce {
      t.blocks := saved;
    }
  }

  /**
   Count the blocks, record the counts, then store the entries, in one transaction or in two.
   Storing finds an id for every block, so it succeeds unless an encoding id is taken or block ids
   run out; then what was counted is what is stored, even if a former attempt of the provider has
   left metadata behind. Nothing changes for other providers, and fetching finds what was stored.
   */
  method Upload(t: Tables, dp: nat, entries: seq<Entry>, hash: string -> string, encodingSize: nat, atOnce: bool)
    returns (ok: bool, ghost ids: map<string, nat>, ghost sizes: map<string, nat>)
    requires t.Valid()
    modifies t
    ensures t.Valid() && sizes.Keys == BlockNames(Hashed(entries, hash))
    ensures ok <==> AllFresh(old(t.encodings), dp, entries) && old(t.nextBlock) + |sizes| <= LAST_BLOCK + 1
    ensures ok ==> t.nextBlock == old(t.nextBlock) + |sizes|
    ensures ok ==> Uploaded(old(t.Snapshot()), t.Snapshot(), old(t.blocks), t.blocks, dp, ids, sizes,
        Hashed(entries, hash))
    ensures ok && Sound(old(t.Snapshot()), encodingSize) && AllPacked(entries, encodingSize) ==>
              Sound(t.Snapshot(), encodingSize)
    ensures !ok ==> t.Snapshot() == old(t.Snapshot())
    ensures !ok ==> t.blocks == old(t.blocks) || (!atOnce && Recorded(old(t.blocks), t.blocks, dp, ids, sizes))
  {
    var tallies := CountBlocks(entries, hash);
    var stored := Hashed(entries, hash);
    TalliedNames(tallies, stored);
    HashedIsFresh(t.encodings, dp, entries, hash);
    sizes := tallies;
    ghost var before := t.Snapshot();
    ok, ids := StoreCounted(t, dp, stored, tallies, encodingSize, atOnce);
    if ok && Sound(before, encodingSize) && AllPacked(entries, encodingSize) {
      HashedIsPacked(entries, hash, encodingSize);
      KeyedLookup(t.blocks, t.nextBlock, dp);
      UploadKeepsSound(before, encodingSize, dp, stored, LookupOf(t.blocks, dp));
    }
  }

  ghost predicate RowsBefore(rows: seq<BlockRow>, ids: map<string, nat>, next: nat) {
    (forall r | r in rows :: r.block < next) && forall r, n | r in rows && n in ids :: r.block < ids[n]
  }

  /** What was stored before has smaller ids. */
  lemma {:induction false} IdsBelow(rows: seq<BlockRow>, blocks: seq<BlockMeta>, first: nat, next: nat,
                                    ids: map<string, nat>)
    requires KeyedBlocks(blocks, first) && (forall r | r in rows :: r.block < first) && first <= next
    ensures KeyedBlocks(blocks, next) && (OneIdEach(ids, first) ==> RowsBefore(rows, ids, next))
    ensures forall r | r in rows :: r.block < next
  {}

  /** What storing the entries makes of the tables once their blocks are recorded. */
  lemma {:induction false} UploadedRows(before: Database, blocks0: seq<BlockMeta>, blocks: seq<BlockMeta>, next: nat,
                                        dp: nat, stored: seq<Entry>, ids: map<string, nat>, sizes: map<string, nat>)
    requires KeyedBlocks(blocks, next) && Recorded(blocks0, blocks, dp, ids, sizes) && ids.Keys == sizes.Keys
    requires RowsBefore(before.rows, ids, next)
    requires Tallies(sizes, stored, []) && AllFresh(before.encodings, dp, stored)
    ensures var rows := before.rows + RowsFor(dp, stored, LookupOf(blocks, dp));
            && (forall r | r in rows :: r.block < next)
            && Uploaded(before, Database(rows, EncodingsWith(before.encodings, dp, stored)), blocks0, blocks, dp, ids,
                sizes, stored)
  {
    var lookup := LookupOf(blocks, dp);
    KeyedLookup(blocks, next, dp);
    RowsBelow(before.rows, dp, stored, lookup, next);
    StoredCounts(before.rows, dp, stored, lookup, ids, sizes);
    RowsOfOthers(before.rows, dp, stored, lookup);
  }

  lemma {:induction false} TalliedNames(sizes: map<string, nat>, stored: seq<Entry>)
    requires Tallies(sizes, stored, [])
    ensures sizes.Keys == BlockNames(stored)
  {
    forall n ensures n in sizes <==> n in BlockNames(stored) {
      OccursIffListed(stored, n);
    }
  }

  lemma {:induction false} OccursIffListed(entries: seq<Entry>, name: string)
    ensures Occurrences(entries, name) > 0 <==> name in BlockNames(entries)
  {
    if name in BlockNames(entries) {
      var e :| e in entries && name in e.blocks;
      CountedNamesAreKnown(entries, e, name);
    } else {
      NeverOccurs(entries, name);
    }
  }

  lemma {:induction false} NeverOccurs(entries: seq<Entry>, name: string)
    requires forall e | e in entries :: name !in e.blocks
    ensures Occurrences(entries, name) == 0
  {
    if entries != [] {
      OccursWhenListed(entries[|entries| - 1].blocks, name);
      NeverOccurs(entries[..|entries| - 1], name);
    }
  }

  lemma {:induction false} KeyedLookup(blocks: seq<BlockMeta>, next: nat, dp: nat)
    requires KeyedBlocks(blocks, next)
    ensures OneIdEach(LookupOf(blocks, dp), 1) && forall n | n in LookupOf(blocks, dp) :: LookupOf(blocks, dp)[n] < next
  {
    var lookup := LookupOf(blocks, dp);
    forall m, n | m in lookup && n in lookup ensures 0 < lookup[m] < next && (m != n ==> lookup[m] != lookup[n]) {
      IdsAreUnique(blocks, next, dp, m, dp, n);
    }
  }

  lemma {:induction false} RowsBelow(rows: seq<BlockRow>, dp: nat, stored: seq<Entry>, lookup: map<string, nat>,
                                     next: nat)
    requires (forall r | r in rows :: r.block < next) && forall n | n in lookup :: lookup[n] < next
    ensures forall r | r in rows + RowsFor(dp, stored, lookup) :: r.block < next
  {
    forall r | r in RowsFor(dp, stored, lookup) ensures r.block < next {
      RowsForMembers(dp, stored, lookup, r);
    }
  }

  lemma {:induction false} RowsOfOthers(rows: seq<BlockRow>, dp: nat, stored: seq<Entry>, lookup: map<string, nat>)
    ensures OthersUnchanged(rows, rows + RowsFor(dp, stored, lookup), dp)
  {
    var added := RowsFor(dp, stored, lookup);
    forall r | r in added ensures r.dp == dp {
      RowsForMembers(dp, stored, lookup, r);
    }
    forall d, b: nat | d != dp ensures Members(rows + added, d, Some(b)) == Members(rows, d, Some(b)) {
      OtherProvidersUnchanged(rows, added, d, b);
    }
  }

  /** Blocks with new ids have as many rows as were counted. */
  lemma {:induction false} StoredCounts(rows: seq<BlockRow>, dp: nat, stored: seq<Entry>, lookup: map<string, nat>,
                                        ids: map<string, nat>, sizes: map<string, nat>)
    requires OneIdEach(lookup, 1) && ids.Keys == sizes.Keys && Tallies(sizes, stored, [])
    requires forall n | n in ids :: n in lookup && lookup[n] == ids[n] && forall r | r in rows :: r.block < ids[n]
    requires forall i, j | 0 <= i < j < |stored| :: stored[i].id != stored[j].id
    ensures CountsMatch(rows + RowsFor(dp, stored, lookup), dp, ids, sizes, stored)
  {
    forall n | n in ids ensures CountMatches(rows + RowsFor(dp, stored, lookup), dp, ids[n], n, sizes, stored) {
      StoredBlocks(rows, dp, stored, lookup, n);
      forall e: nat
        ensures e in Members(rows + RowsFor(dp, stored, lookup), dp, Some(ids[n])) <==> Lists(stored, e, n)
      {
        StoredMembers(rows, dp, stored, lookup, n, e);
      }
    }
  }

  lemma {:induction false} HashedIsPacked(entries: seq<Entry>, hash: string -> string, size: nat)
    requires AllPacked(entries, size)
    ensures AllPacked(Hashed(entries, hash), size)
  {
    var stored := Hashed(entries, hash);
    forall e | e in stored ensures Packed(e, size) {
      var i :| 0 <= i < |stored| && stored[i] == e;
      assert Packed(entries[i], size);
    }
  }

  lemma {:induction false} HashedIsFresh(encodings: map<nat, seq<Byte>>, dp: nat, entries: seq<Entry>,
                                         hash: string -> string)
    ensures AllFresh(encodings, dp, Hashed(entries, hash)) <==> AllFresh(encodings, dp, entries)
  {
    var stored := Hashed(entries, hash);
    if AllFresh(encodings, dp, entries) {
      forall e | e in stored ensures EncodingId(dp, e.id) !in encodings {
        var i :| 0 <= i < |stored| && stored[i] == e;
        assert entries[i] in entries;
      }
    }
    if AllFresh(encodings, dp, stored) {
      forall e | e in entries ensures EncodingId(dp, e.id) !in encodings {
        var i :| 0 <= i < |entries| && entries[i] == e;
        assert stored[i] in stored;
      }
      forall i, j | 0 <= i < j < |entries| ensures entries[i].id != entries[j].id {
        assert stored[i].id != stored[j].id;
      }
    }
  }

  lemma {:induction false} AllCounted(sizes: map<string, nat>, stored: seq<Entry>, lookup: map<string, nat>)
    requires Tallies(sizes, stored, []) && sizes.Keys <= lookup.Keys
    ensures AllNamed(stored, lookup)
  {
    forall e, n | e in stored && n in e.blocks ensures n in lookup {
      CountedNamesAreKnown(stored, e, n);
    }
  }
}
