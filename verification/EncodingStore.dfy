/**
 Storing the encodings of an upload: in batches, each entity under its encoding id and once more
 for each of its blocks, next to block counts that are computed separately.
 */
module EncodingStore {
  import opened BlockQueries
  import opened Bytes
  import opened Collections
  import opened Wrappers

  /** An entity of an upload, with its packed record and the names of its blocks. */
  datatype Entry = Entry(id: nat, data: seq<Byte>, blocks: seq<string>)

  // ----- Batches -----

  const TRANSACTION_SIZE: nat := 104857600
  const BLOCKS_PER_RECORD: nat := 50

  /** How many encodings are estimated to fit a transaction, rounded up: at least one. */
  function EstimateGroupSize(encodingSize: nat): (n: nat)
    ensures n > 0
    ensures (n - 1) * (50 * 64 + encodingSize + 4) < 100 * 1024 * 1024 <= n * (50 * 64 + encodingSize + 4)
  {
    var each := BLOCKS_PER_RECORD * 64 + encodingSize + 4;
    RoundedUp(TRANSACTION_SIZE, each);
    (TRANSACTION_SIZE + each - 1) / each
  }

  lemma {:induction false} RoundedUp(total: nat, each: nat)
    requires total > 0 && each > 0
    ensures var n := (total + each - 1) / each; n > 0 && n * each >= total && (n - 1) * each < total
  {
    var n, r := (total + each - 1) / each, (total + each - 1) % each;
    assert total + each - 1 == n * each + r;
    assert (n - 1) * each == n * each - each;
  }

  /** The items of a group, without those that fill it up. */
  function Present<T>(group: seq<Option<T>>): seq<T> {
    if group == [] then []
    else Present(group[..|group| - 1]) + if group[|group| - 1].Some? then [group[|group| - 1].value] else []
  }

  function AllPresent<T>(groups: seq<seq<Option<T>>>): seq<T> {
    if groups == [] then [] else AllPresent(groups[..|groups| - 1]) + Present(groups[|groups| - 1])
  }

  lemma {:induction false} PresentNext<T>(group: seq<Option<T>>, x: Option<T>)
    ensures Present(group + [x]) == Present(group) + if x.Some? then [x.value] else []
  {
    ConcatLast(group, x);
  }

  /** Take the next `n` items, or as many as there are, filled up to `n`. */
  method NextGroup<T>(items: seq<T>, start: nat, n: nat) returns (group: seq<Option<T>>, next: nat)
    requires start <= |items|
    ensures |group| == n && next == (if start + n <= |items| then start + n else |items|)
    ensures Present(group) == items[start..next]
  {
    group, next := [], start;
    for k := 0 to n
      invariant |group| == k && next == (if start + k <= |items| then start + k else |items|)
      invariant Present(group) == items[start..next]
    {
      if next < |items| {
        PresentNext(group, Some(items[next]));
        group := group + [Some(items[next])];
        next := next + 1;
      } else {
        PresentNext(group, None);
        group := group + [None];
      }
    }
  }

  /** All groups have the same length, and only the last one may be filled up. */
  ghost predicate EvenGroups<T>(groups: seq<seq<Option<T>>>, n: nat) {
    && (forall i | 0 <= i < |groups| :: |groups[i]| == n && Present(groups[i]) != [])
    && (forall i | 0 <= i < |groups| - 1 :: |Present(groups[i])| == n)
  }

  /** Groups of the same length that hold all items in order; the last one is filled up. */
  method Grouper<T>(items: seq<T>, n: nat) returns (groups: seq<seq<Option<T>>>)
    requires n > 0
    ensures AllPresent(groups) == items && EvenGroups(groups, n)
  {
    groups := [];
    var start: nat := 0;
    while start < |items|
      invariant start <= |items| && AllPresent(groups) == items[..start] && EvenGroups(groups, n)
      invariant start < |items| && groups != [] ==> |Present(groups[|groups| - 1])| == n
    {
      var group, next := NextGroup(items, start, n);
      ConcatLast(groups, group);
      groups := groups + [group];
      start := next;
    }
  }

  /** The three columns of the entries of a group. */
  method Transpose(group: seq<Option<Entry>>) returns (a: seq<nat>, b: seq<seq<Byte>>, c: seq<seq<string>>)
    ensures |a| == |b| == |c| && Zipped(a, b, c) == Present(group)
  {
    a, b, c := [], [], [];
    for i := 0 to |group|
      invariant |a| == |b| == |c| && Zipped(a, b, c) == Present(group[..i])
    {
      assert group[..i + 1][..i] == group[..i];
      if group[i].Some? {
        var e := group[i].value;
        ZippedNext(a, b, c, e);
        a, b, c := a + [e.id], b + [e.data], c + [e.blocks];
      }
    }
    assert group[..|group|] == group;
  }

  function Zipped(ids: seq<nat>, encodings: seq<seq<Byte>>, blocks: seq<seq<string>>): seq<Entry>
    requires |ids| == |encodings| == |blocks|
  {
    seq(|ids|, i requires 0 <= i < |ids| => Entry(ids[i], encodings[i], blocks[i]))
  }

  lemma {:induction false} ZippedNext(a: seq<nat>, b: seq<seq<Byte>>, c: seq<seq<string>>, e: Entry)
    requires |a| == |b| == |c|
    ensures Zipped(a + [e.id], b + [e.data], c + [e.blocks]) == Zipped(a, b, c) + [e]
  {}

  // ----- What is inserted -----

  /** One row for each block name of an entity. */
  function EntityRows(dp: nat, id: nat, blocks: seq<string>, lookup: map<string, nat>): seq<BlockRow> {
    if blocks == [] then []
    else
      EntityRows(dp, id, blocks[..|blocks| - 1], lookup)
      + if blocks[|blocks| - 1] in lookup
        then [BlockRow(dp, id, EncodingId(dp, id), lookup[blocks[|blocks| - 1]])]
        else []
  }

  function RowsFor(dp: nat, entries: seq<Entry>, lookup: map<string, nat>): seq<BlockRow> {
    if entries == [] then []
    else
      var e := entries[|entries| - 1];
      RowsFor(dp, entries[..|entries| - 1], lookup) + EntityRows(dp, e.id, e.blocks, lookup)
  }

  function EncodingsWith(encodings: map<nat, seq<Byte>>, dp: nat, entries: seq<Entry>): map<nat, seq<Byte>> {
    if entries == [] then encodings
    else
      var e := entries[|entries| - 1];
      EncodingsWith(encodings, dp, entries[..|entries| - 1])[EncodingId(dp, e.id) := e.data]
  }

  /** Every block name has an id. */
  predicate AllNamed(entries: seq<Entry>, lookup: map<string, nat>) {
    forall e | e in entries :: forall n | n in e.blocks :: n in lookup
  }

  /** No encoding id is taken, and no two entries have the same. */
  predicate AllFresh(encodings: map<nat, seq<Byte>>, dp: nat, entries: seq<Entry>) {
    && (forall e | e in entries :: EncodingId(dp, e.id) !in encodings)
    && forall i, j | 0 <= i < j < |entries| :: entries[i].id != entries[j].id
  }

  lemma {:induction false} RowsForLast(dp: nat, init: seq<Entry>, e: Entry, lookup: map<string, nat>)
    ensures RowsFor(dp, init + [e], lookup) == RowsFor(dp, init, lookup) + EntityRows(dp, e.id, e.blocks, lookup)
  {
    ConcatLast(init, e);
  }

  lemma {:induction false} RowsForConcat(dp: nat, a: seq<Entry>, b: seq<Entry>, lookup: map<string, nat>)
    ensures RowsFor(dp, a + b, lookup) == RowsFor(dp, a, lookup) + RowsFor(dp, b, lookup)
  {
    if b == [] {
      assert a + b == a;
    } else {
      var init, e := b[..|b| - 1], b[|b| - 1];
      assert a + b == (a + init) + [e] && b == init + [e];
      RowsForConcat(dp, a, init, lookup);
      RowsForLast(dp, a + init, e, lookup);
      RowsForLast(dp, init, e, lookup);
    }
  }

  lemma {:induction false} EncodingsWithConcat(encodings: map<nat, seq<Byte>>, dp: nat, a: seq<Entry>, b: seq<Entry>)
    ensures EncodingsWith(encodings, dp, a + b) == EncodingsWith(EncodingsWith(encodings, dp, a), dp, b)
  {
    if b == [] {
      assert a + b == a;
    } else {
      assert (a + b)[..|a + b| - 1] == a + b[..|b| - 1];
      EncodingsWithConcat(encodings, dp, a, b[..|b| - 1]);
    }
  }

  lemma {:induction false} EncodingsWithKeys(encodings: map<nat, seq<Byte>>, dp: nat, entries: seq<Entry>)
    ensures forall k :: k in EncodingsWith(encodings, dp, entries) <==>
              k in encodings || exists e | e in entries :: EncodingId(dp, e.id) == k
  {
    if entries != [] {
      var init, last := entries[..|entries| - 1], entries[|entries| - 1];
      EncodingsWithKeys(encodings, dp, init);
      assert entries == init + [last];
    }
  }

  lemma {:induction false} AllFreshConcat(encodings: map<nat, seq<Byte>>, dp: nat, a: seq<Entry>, b: seq<Entry>)
    ensures AllFresh(encodings, dp, a + b) <==>
        AllFresh(encodings, dp, a) && AllFresh(EncodingsWith(encodings, dp, a), dp, b)
  {
    EncodingsWithKeys(encodings, dp, a);
    var all := a + b;
    if AllFresh(encodings, dp, all) {
      forall e | e in a ensures e in all {}
      forall i, j | 0 <= i < j < |a| ensures a[i].id != a[j].id {
        assert all[i] == a[i] && all[j] == a[j];
      }
      forall i, j | 0 <= i < j < |b| ensures b[i].id != b[j].id {
        assert all[|a| + i] == b[i] && all[|a| + j] == b[j];
      }
      forall e | e in b ensures EncodingId(dp, e.id) !in EncodingsWith(encodings, dp, a) {
        assert e in all;
        var j :| 0 <= j < |b| && b[j] == e;
        forall f | f in a ensures EncodingId(dp, f.id) != EncodingId(dp, e.id) {
          var i :| 0 <= i < |a| && a[i] == f;
          assert all[i] == f && all[|a| + j] == e;
        }
      }
    }
    if AllFresh(encodings, dp, a) && AllFresh(EncodingsWith(encodings, dp, a), dp, b) {
      forall i, j | 0 <= i < j < |all| ensures all[i].id != all[j].id {
        if i < |a| <= j {
          assert all[i] in a && all[j] in b;
        }
      }
    }
  }

  /** Add a record for each entity; an id that is taken violates the primary key. */
  method PutEncodings(encodings: map<nat, seq<Byte>>, dp: nat, entries: seq<Entry>) returns (ok: bool,
                      after: map<nat, seq<Byte>>)
    ensures ok <==> AllFresh(encodings, dp, entries)
    ensures ok ==> after == EncodingsWith(encodings, dp, entries)
  {
    after := encodings;
    for i := 0 to |entries|
      invariant AllFresh(encodings, dp, entries[..i]) && after == EncodingsWith(encodings, dp, entries[..i])
    {
      var e := entries[i];
      TakeNext(entries, i);
      AllFreshConcat(encodings, dp, entries[..i], [e]);
      EncodingsWithConcat(encodings, dp, entries[..i], [e]);
      if EncodingId(dp, e.id) in after {
        assert !AllFresh(after, dp, [e]) by { assert e in [e]; }
        AllFreshConcat(encodings, dp, entries[..i + 1], entries[i + 1..]);
        assert entries == entries[..i + 1] + entries[i + 1..];
        return false, encodings;
      }
      assert [e][..0] == [];
      after := after[EncodingId(dp, e.id) := e.data];
    }
    assert entries[..|entries|] == entries;
    ok := true;
  }

  /** The rows of one entity; a name without an id is an error. */
  method PutBlocks(dp: nat, e: Entry, lookup: map<string, nat>) returns (ok: bool, rows: seq<BlockRow>)
    ensures ok <==> AllNamed([e], lookup)
    ensures ok ==> rows == EntityRows(dp, e.id, e.blocks, lookup)
  {
    rows := [];
    for i := 0 to |e.blocks|
      invariant rows == EntityRows(dp, e.id, e.blocks[..i], lookup) && forall j | 0 <= j < i :: e.blocks[j] in lookup
    {
      if e.blocks[i] !in lookup {
        assert e in [e] && e.blocks[i] in e.blocks;
        return false, [];
      }
      assert e.blocks[..i + 1][..i] == e.blocks[..i];
      rows := rows + [BlockRow(dp, e.id, EncodingId(dp, e.id), lookup[e.blocks[i]])];
    }
    assert e.blocks[..|e.blocks|] == e.blocks;
    ok := true;
  }

  method PutAllBlocks(dp: nat, entries: seq<Entry>, lookup: map<string, nat>) returns (ok: bool, rows: seq<BlockRow>)
    ensures ok <==> AllNamed(entries, lookup)
    ensures ok ==> rows == RowsFor(dp, entries, lookup)
  {
    rows := [];
    for i := 0 to |entries|
      invariant rows == RowsFor(dp, entries[..i], lookup) && AllNamed(entries[..i], lookup)
    {
      var e := entries[i];
      var fine, own := PutBlocks(dp, e, lookup);
      TakeNext(entries, i);
      if !fine {
        assert e in entries;
        assert exists n | n in e.blocks :: n !in lookup;
        return false, [];
      }
      assert entries[..i + 1][..i] == entries[..i];
      assert e in [e];
      rows := rows + own;
    }
    assert entries[..|entries|] == entries;
    ok := true;
  }

  // ----- Block metadata -----

  /** A block of a provider, with the number of encodings that the provider has listed in it. */
  datatype BlockMeta = BlockMeta(dp: nat, name: string, id: nat, count: nat)

  /** Block ids are given out in turn, from one, as long as they fit into 31 bits. */
  const LAST_BLOCK: nat := 0x7fff_ffff

  /** The ids of the blocks of a provider; a name that was recorded again has its last id. */
  function LookupOf(blocks: seq<BlockMeta>, dp: nat): map<string, nat> {
    if blocks == [] then map[]
    else
      var b := blocks[|blocks| - 1];
      if b.dp == dp then LookupOf(blocks[..|blocks| - 1], dp)[b.name := b.id]
      else LookupOf(blocks[..|blocks| - 1], dp)
  }

  function CountsOf(blocks: seq<BlockMeta>, dp: nat): map<string, nat> {
    if blocks == [] then map[]
    else
      var b := blocks[|blocks| - 1];
      if b.dp == dp then CountsOf(blocks[..|blocks| - 1], dp)[b.name := b.count]
      else CountsOf(blocks[..|blocks| - 1], dp)
  }

  /** Distinct ids, none of which is less than `least`. */
  ghost predicate OneIdEach(ids: map<string, nat>, least: nat) {
    && (forall n | n in ids :: ids[n] >= least)
    && forall m, n | m in ids && n in ids && m != n :: ids[m] != ids[n]
  }

  /** The names were recorded with these ids and counts, for one provider only. */
  ghost predicate Recorded(before: seq<BlockMeta>, after: seq<BlockMeta>, dp: nat, ids: map<string, nat>,
                           sizes: map<string, nat>) {
    && LookupOf(after, dp) == LookupOf(before, dp) + ids && CountsOf(after, dp) == CountsOf(before, dp) + sizes
    && forall d: nat | d != dp :: SameMetadata(before, after, d)
  }

  predicate SameMetadata(before: seq<BlockMeta>, after: seq<BlockMeta>, d: nat) {
    LookupOf(after, d) == LookupOf(before, d) && CountsOf(after, d) == CountsOf(before, d)
  }

  lemma {:induction false} RecordOne(before: seq<BlockMeta>, blocks: seq<BlockMeta>, dp: nat, ids: map<string, nat>,
                                     sizes: map<string, nat>, name: string, id: nat, count: nat)
    requires Recorded(before, blocks, dp, ids, sizes)
    ensures Recorded(before, blocks + [BlockMeta(dp, name, id, count)], dp, ids[name := id], sizes[name := count])
  {
    var b := BlockMeta(dp, name, id, count);
    ConcatLast(blocks, b);
    forall d: nat | d != dp ensures SameMetadata(before, blocks + [b], d) {
      assert SameMetadata(before, blocks, d);
    }
  }

  /** All names but those still to do have got an id, in turn from `first`. */
  ghost predicate Named(sizes: map<string, nat>, todo: set<string>, ids: map<string, nat>, done: map<string, nat>,
                        first: nat, next: nat) {
    && todo <= sizes.Keys && ids.Keys == done.Keys == sizes.Keys - todo && (forall n | n in done :: done[n] == sizes[n])
    && first <= next && next + |todo| == first + |sizes|
    && OneIdEach(ids, first) && forall n | n in ids :: ids[n] < next
  }

  lemma {:induction false} NameOne(sizes: map<string, nat>, todo: set<string>, ids: map<string, nat>,
                                   done: map<string, nat>, first: nat, next: nat, name: string)
    requires Named(sizes, todo, ids, done, first, next) && name in todo
    ensures Named(sizes, todo - {name}, ids[name := next], done[name := sizes[name]], first, next + 1)
  {}

  /** And these are recorded. */
  ghost predicate Recording(before: seq<BlockMeta>, blocks: seq<BlockMeta>, dp: nat, sizes: map<string, nat>,
                            todo: set<string>, ids: map<string, nat>, done: map<string, nat>, first: nat, next: nat) {
    Named(sizes, todo, ids, done, first, next) && Recorded(before, blocks, dp, ids, done)
  }

  lemma {:induction false} RecordNext(before: seq<BlockMeta>, blocks: seq<BlockMeta>, dp: nat, sizes: map<string, nat>,
                                      todo: set<string>, ids: map<string, nat>, done: map<string, nat>,
                                      first: nat, next: nat, name: string)
    requires Recording(before, blocks, dp, sizes, todo, ids, done, first, next) && name in todo
    ensures Recording(before, blocks + [BlockMeta(dp, name, next, sizes[name])], dp, sizes, todo - {name},
                      ids[name := next], done[name := sizes[name]], first, next + 1)
  {
    RecordOne(before, blocks, dp, ids, done, name, next, sizes[name]);
    NameOne(sizes, todo, ids, done, first, next, name);
  }

  lemma {:induction false} RecordNone(blocks: seq<BlockMeta>, dp: nat, sizes: map<string, nat>, first: nat)
    ensures Recording(blocks, blocks, dp, sizes, sizes.Keys, map[], map[], first, first)
  {}

  lemma {:induction false} RecordedAll(before: seq<BlockMeta>, blocks: seq<BlockMeta>, dp: nat, sizes: map<string, nat>,
                                       ids: map<string, nat>, done: map<string, nat>, first: nat, next: nat)
    requires Recording(before, blocks, dp, sizes, {}, ids, done, first, next)
    ensures ids.Keys == sizes.Keys && OneIdEach(ids, first) && Recorded(before, blocks, dp, ids, sizes)
    ensures next == first + |sizes|
  {
    assert done == sizes;
  }

  /** Ids are primary keys, and lie below the next one. */
  ghost predicate KeyedBlocks(blocks: seq<BlockMeta>, next: nat) {
    && (forall i | 0 <= i < |blocks| :: 0 < blocks[i].id < next)
    && forall i, j | 0 <= i < j < |blocks| :: blocks[i].id != blocks[j].id
  }

  /** Name, id and count come from one row. */
  lemma {:induction false} MetadataRow(blocks: seq<BlockMeta>, dp: nat, name: string) returns (i: nat)
    requires name in LookupOf(blocks, dp)
    ensures i < |blocks| && blocks[i].dp == dp && blocks[i].name == name && blocks[i].id == LookupOf(blocks, dp)[name]
    ensures name in CountsOf(blocks, dp) && blocks[i].count == CountsOf(blocks, dp)[name]
  {
    i := |blocks| - 1;
    if blocks[i].dp != dp || blocks[i].name != name {
      i := MetadataRow(blocks[..i], dp, name);
    }
  }

  lemma {:induction false} SameNames(blocks: seq<BlockMeta>, dp: nat)
    ensures LookupOf(blocks, dp).Keys == CountsOf(blocks, dp).Keys
  {
    if blocks != [] {
      SameNames(blocks[..|blocks| - 1], dp);
    }
  }

  /** A block id says which provider and which name is meant. */
  lemma {:induction false} IdsAreUnique(blocks: seq<BlockMeta>, next: nat, d: nat, m: string, e: nat, n: string)
    requires KeyedBlocks(blocks, next) && m in LookupOf(blocks, d) && n in LookupOf(blocks, e)
    ensures 0 < LookupOf(blocks, d)[m] < next
    ensures LookupOf(blocks, d)[m] == LookupOf(blocks, e)[n] <==> d == e && m == n
  {
    var i := MetadataRow(blocks, d, m);
    var j := MetadataRow(blocks, e, n);
  }

  // ----- The tables -----

  class Tables {
    var rows: seq<BlockRow>
    var encodings: map<nat, seq<Byte>>
    var blocks: seq<BlockMeta>
    var nextBlock: nat

    constructor ()
      ensures Valid() && rows == [] && encodings == map[] && blocks == [] && nextBlock == 1
    {
      rows, encodings, blocks, nextBlock := [], map[], [], 1;
    }

    ghost predicate Valid()
      reads this
    {
      && 0 < nextBlock <= LAST_BLOCK + 1
      && KeyedBlocks(blocks, nextBlock) && forall r | r in rows :: r.block < nextBlock
    }

    /** What the queries see. */
    function Snapshot(): Database
      reads this
    {
      Database(rows, encodings)
    }

    /** Add a row, with the next id. */
    method InsertBlock(dp: nat, name: string, count: nat)
      requires Valid() && nextBlock <= LAST_BLOCK
      modifies `blocks, `nextBlock
      ensures Valid() && nextBlock == old(nextBlock) + 1
      ensures blocks == old(blocks) + [BlockMeta(dp, name, old(nextBlock), count)]
    {
      blocks := blocks + [BlockMeta(dp, name, nextBlock, count)];
      nextBlock := nextBlock + 1;
    }

    /** Add a row for each block name, with the number of encodings in the block, as long as there are ids. */
    method InsertBlockingMetadata(dp: nat, sizes: map<string, nat>) returns (ok: bool, ghost ids: map<string, nat>)
      requires Valid()
      modifies `blocks, `nextBlock
      ensures Valid() && (ok <==> old(nextBlock) + |sizes| <= LAST_BLOCK + 1)
      ensures nextBlock == if ok then old(nextBlock) + |sizes| else LAST_BLOCK + 1
      ensures ok ==> ids.Keys == sizes.Keys && OneIdEach(ids, old(nextBlock))
      ensures ok ==> Recorded(old(blocks), blocks, dp, ids, sizes)
      ensures !ok ==> blocks == old(blocks)
    {
      ids := map[];
      var saved, todo := blocks, sizes.Keys;
      ghost var done: map<string, nat> := map[];
      ghost var first := nextBlock;
      RecordNone(blocks, dp, sizes, first);
      while todo != {}
        invariant Valid() && first == old(nextBlock) && saved == old(blocks)
        invariant Recording(saved, blocks, dp, sizes, todo, ids, done, first, nextBlock)
      {
        if nextBlock > LAST_BLOCK {
          blocks := saved;
          assert |todo| > 0;
          return false, map[];
        }
        var name :| name in todo;
        RecordNext(saved, blocks, dp, sizes, todo, ids, done, first, nextBlock, name);
        ids, done := ids[name := nextBlock], done[name := sizes[name]];
        InsertBlock(dp, name, sizes[name]);
        todo := todo - {name};
      }
      RecordedAll(saved, blocks, dp, sizes, ids, done, first, nextBlock);
      ok := true;
    }

    /** Insert one batch, or nothing. */
    method InsertEncodingsIntoBlocks(dp: nat, blockNames: seq<seq<string>>, ids: seq<nat>,
                                     records: seq<seq<Byte>>) returns (ok: bool)
      requires |blockNames| == |ids| == |records|
      modifies `rows, `encodings
      ensures var entries := Zipped(ids, records, blockNames); var lookup := LookupOf(blocks, dp);
        (ok <==> AllFresh(old(encodings), dp, entries) && AllNamed(entries, lookup)) &&
        (if ok
         then (rows == old(rows) + RowsFor(dp, entries, lookup)
               && encodings == EncodingsWith(old(encodings), dp, entries))
         else rows == old(rows) && encodings == old(encodings))
    {
      var entries := Zipped(ids, records, blockNames);
      var fresh_, after := PutEncodings(encodings, dp, entries);
      if !fresh_ {
        return false;
      }
      var named, added := PutAllBlocks(dp, entries, LookupOf(blocks, dp));
      if !named {
        return false;
      }
      encodings := after;
      rows := rows + added;
      ok := true;
    }

    /** Insert all entries batch by batch in one transaction, which fails as a whole. */
    method StoreEncodings(dp: nat, entries: seq<Entry>, encodingSize: nat) returns (ok: bool)
      modifies `rows, `encodings
      ensures var lookup := LookupOf(blocks, dp);
        (ok <==> AllFresh(old(encodings), dp, entries) && AllNamed(entries, lookup)) &&
        (if ok
         then (rows == old(rows) + RowsFor(dp, entries, lookup)
               && encodings == EncodingsWith(old(encodings), dp, entries))
         else rows == old(rows) && encodings == old(encodings))
    {
      var savedRows, savedEncodings := rows, encodings;
      var groups := Grouper(entries, EstimateGroupSize(encodingSize));
      for i := 0 to |groups|
        invariant Inserted(savedRows, savedEncodings, rows, encodings, dp, AllPresent(groups[..i]),
            LookupOf(blocks, dp))
      {
        assert groups[..i + 1][..i] == groups[..i];
        var ids, records, names := Transpose(groups[i]);
        ghost var done, batch := AllPresent(groups[..i]), Present(groups[i]);
        BatchNext(savedRows, savedEncodings, rows, encodings, dp, done, batch, LookupOf(blocks, dp));
        var fine := InsertEncodingsIntoBlocks(dp, names, ids, records);
        if !fine {
          GroupsBefore(groups, i);
          BatchFails(savedEncodings, dp, done, batch, entries, LookupOf(blocks, dp));
          rows, encodings := savedRows, savedEncodings;
          return false;
        }
      }
      assert groups[..|groups|] == groups;
      ok := true;
    }
  }

  /** The tables after the entries have been inserted without an error. */
  ghost predicate Inserted(rows0: seq<BlockRow>, encodings0: map<nat, seq<Byte>>, rows: seq<BlockRow>,
                           encodings: map<nat, seq<Byte>>,
                           dp: nat, entries: seq<Entry>, lookup: map<string, nat>) {
    && AllFresh(encodings0, dp, entries) && AllNamed(entries, lookup)
    && rows == rows0 + RowsFor(dp, entries, lookup) && encodings == EncodingsWith(encodings0, dp, entries)
  }

  lemma {:induction false} BatchNext(rows0: seq<BlockRow>, encodings0: map<nat, seq<Byte>>, rows: seq<BlockRow>,
                                     encodings: map<nat, seq<Byte>>,
                                     dp: nat, done: seq<Entry>, batch: seq<Entry>, lookup: map<string, nat>)
    requires Inserted(rows0, encodings0, rows, encodings, dp, done, lookup)
    ensures AllFresh(encodings, dp, batch) && AllNamed(batch, lookup) ==>
              Inserted(rows0, encodings0, rows + RowsFor(dp, batch, lookup), EncodingsWith(encodings, dp, batch), dp,
                  done + batch, lookup)
    ensures AllFresh(encodings0, dp, done + batch) && AllNamed(done + batch, lookup) ==>
        AllFresh(encodings, dp, batch) && AllNamed(batch, lookup)
  {
    AllFreshConcat(encodings0, dp, done, batch);
    EncodingsWithConcat(encodings0, dp, done, batch);
    RowsForConcat(dp, done, batch, lookup);
    assert forall e | e in batch :: e in done + batch;
  }

  lemma {:induction false} BatchFails(encodings0: map<nat, seq<Byte>>, dp: nat, done: seq<Entry>, batch: seq<Entry>,
                                      entries: seq<Entry>, lookup: map<string, nat>)
    requires done + batch <= entries
    requires !(AllFresh(encodings0, dp, done + batch) && AllNamed(done + batch, lookup))
    ensures !(AllFresh(encodings0, dp, entries) && AllNamed(entries, lookup))
  {
    var rest := entries[|done + batch|..];
    assert entries == (done + batch) + rest;
    AllFreshConcat(encodings0, dp, done + batch, rest);
    assert forall e | e in done + batch :: e in entries;
  }

  lemma {:induction false} GroupsBefore<T>(groups: seq<seq<Option<T>>>, i: nat)
    requires i < |groups|
    ensures AllPresent(groups[..i]) + Present(groups[i]) <= AllPresent(groups)
    decreases |groups|
  {
    var last := |groups| - 1;
    if i < last {
      GroupsBefore(groups[..last], i);
      assert groups[..last][..i] == groups[..i];
    }
  }
}
