/**
 Fetching the encodings that a package compares, on either of two paths.

 A package with one chunk asks for a range of a block, in two queries. A package with several
 chunks asks for whole blocks in one query for each provider, and ignores ranges. Both deliver
 the entities of the block in ascending order, each with its own encoding.
 */
module Fetch {
  import opened BlockQueries
  import opened Bytes
  import opened Collections
  import opened CopyFormat
  import opened RecordFormat
  import opened WorkPackages
  import opened Wrappers

  /** The entities of one side of a chunk, and their encodings. */
  datatype Delivery = Delivery(ids: seq<nat>, encodings: seq<seq<Byte>>)

  // ----- What is to be delivered -----

  function EncodingOf(encodings: map<nat, seq<Byte>>, dp: nat, e: nat): seq<Byte> {
    if EncodingId(dp, e) in encodings then CopyFormat.Drop(encodings[EncodingId(dp, e)], ID_SIZE) else []
  }

  function Deliver(db: Database, dp: nat, entities: seq<nat>): Delivery {
    Delivery(entities, seq(|entities|, i requires 0 <= i < |entities| => EncodingOf(db.encodings, dp, entities[i])))
  }

  function InBlock(db: Database, s: Side): seq<nat> {
    Members(db.rows, s.dp, Some(s.block))
  }

  /** The part of a list that an offset and a limit select. */
  function Page(s: seq<nat>, offset: nat, limit: nat): (page: seq<nat>)
    ensures |page| <= limit && |page| <= |s|
    ensures |page| < limit ==> (if offset < |s| then offset + |page| == |s| else page == [])
    ensures forall i | 0 <= i < |page| :: offset + i < |s| && page[i] == s[offset + i]
  {
    if offset >= |s| then []
    else if offset + limit <= |s| then s[offset..offset + limit]
    else s[offset..]
  }

  /** A block id of zero counts as no block id. */
  function EncodingBlockIds(db: Database, dp: nat, block: nat, offset: nat, limit: nat): seq<nat> {
    Page(Members(db.rows, dp, if block != 0 then Some(block) else None), offset, limit)
  }

  lemma {:induction false} InsertNatLength(x: nat, s: seq<nat>)
    ensures |InsertNat(x, s)| == |s| + 1
  {
    if s != [] && x > s[0] {
      InsertNatLength(x, s[1..]);
    }
  }

  lemma {:induction false} NotMoreThanRows(rows: seq<BlockRow>, dp: nat, block: Option<nat>)
    ensures |Members(rows, dp, block)| <= |rows|
  {
    if rows != [] {
      NotMoreThanRows(rows[1..], dp, block);
      InsertNatLength(rows[0].entity, Members(rows[1..], dp, block));
    }
  }

  /** The whole answer: the entities with a row in the block, or, for block id zero, in any block. */
  lemma {:induction false} AllEncodingBlockIds(db: Database, dp: nat, block: nat, limit: nat)
    requires |db.rows| <= limit
    ensures Ascending(EncodingBlockIds(db, dp, block, 0, limit))
    ensures forall e :: e in EncodingBlockIds(db, dp, block, 0, limit) <==>
              exists r | r in db.rows :: r.dp == dp && (block != 0 ==> r.block == block) && r.entity == e
  {
    var chosen := if block != 0 then Some(block) else None;
    NotMoreThanRows(db.rows, dp, chosen);
    MembersAreSorted(db.rows, dp, chosen);
    assert EncodingBlockIds(db, dp, block, 0, limit) == Members(db.rows, dp, chosen);
  }

  // ----- Queries answered in binary -----

  /** Run a query whose rows the database copies out in its binary format. */
  method ExecuteInBinary(answer: seq<seq<Field>>) returns (rows: seq<Row>)
    requires AllEncodable(answer)
    ensures rows == Unwrapped(answer)
  {
    var stream := new Stream(Encode(answer));
    ParseEncodedAlone(answer);
    var parsed := ParseStream(stream);
    rows := parsed.rows;
  }

  lemma {:induction false} FourBytes()
    ensures Capacity(4) == ID_RANGE && Capacity(2) == 65536
  {
    assert Capacity(0) == 1 && Capacity(1) == 256 && Capacity(2) == 65536 && Capacity(3) == 16777216;
  }

  /** The records of some entities, as the database sends them. */
  method GetChunkOfEncodings(db: Database, dp: nat, entities: seq<nat>) returns (records: seq<seq<Byte>>)
    requires forall r | r in ChunkOfEncodings(db, dp, entities) :: |r| < Capacity(4)
    ensures records == ChunkOfEncodings(db, dp, entities)
  {
    var found := ChunkOfEncodings(db, dp, entities);
    var answer := seq(|found|, i requires 0 <= i < |found| => [found[i]]);
    forall r | r in answer ensures Encodable(r) {
      var i :| 0 <= i < |answer| && answer[i] == r;
      assert found[i] in found;
    }
    var rows := ExecuteInBinary(answer);
    records := seq(|rows|, i requires 0 <= i < |rows| && rows[i].Single? => rows[i].value);
  }

  /** The fields of a row of the join. */
  function ValueFields(v: Value): seq<Field> {
    [BigEndian(v.block, 4), BigEndian(v.entity, 4), v.data]
  }

  predicate Fitting(v: Value) {
    v.block < Capacity(4) && v.entity < Capacity(4) && |v.data| < Capacity(4)
  }

  lemma {:induction false} FittingIsEncodable(v: Value)
    requires Fitting(v)
    ensures Encodable(ValueFields(v))
    ensures FromBigEndian(ValueFields(v)[0]) == v.block && FromBigEndian(ValueFields(v)[1]) == v.entity
  {
    FourBytes();
    NumberRoundTrip(v.block, 4);
    NumberRoundTrip(v.entity, 4);
  }

  /** The rows of several blocks, as the database sends them. */
  method GetEncodingsOfMultipleBlocks(db: Database, dp: nat, blocks: set<nat>) returns (values: seq<Value>)
    requires forall v | v in MultipleBlocks(db.encodings, db.rows, dp, blocks) :: Fitting(v)
    ensures values == MultipleBlocks(db.encodings, db.rows, dp, blocks)
  {
    var found := MultipleBlocks(db.encodings, db.rows, dp, blocks);
    var answer := seq(|found|, i requires 0 <= i < |found| => ValueFields(found[i]));
    forall r | r in answer ensures Encodable(r) {
      var i :| 0 <= i < |answer| && answer[i] == r;
      assert found[i] in found;
      FittingIsEncodable(found[i]);
    }
    var rows := ExecuteInBinary(answer);
    values := [];
    for i := 0 to |rows|
      invariant values == found[..i]
    {
      assert found[i] in found;
      FittingIsEncodable(found[i]);
      var fields := rows[i].values;
      values := values + [Value(FromBigEndian(fields[0]), FromBigEndian(fields[1]), fields[2])];
    }
  }

  // ----- A range of one block -----

  lemma {:induction false} PageOfMembers(db: Database, size: nat, s: Side)
    requires Sound(db, size) && s.lo <= s.hi
    ensures var page := EncodingBlockIds(db, s.dp, s.block, s.lo, s.hi - s.lo);
      Ascending(page) && forall e | e in page :: SoundRow(db.encodings, size, BlockRow(s.dp, e, EncodingId(s.dp, e), 0))
  {
    var block := if s.block != 0 then Some(s.block) else None;
    MembersAreSorted(db.rows, s.dp, block);
    MembersHaveRecords(db.encodings, size, db.rows, s.dp, block);
    var page := EncodingBlockIds(db, s.dp, s.block, s.lo, s.hi - s.lo);
    assert forall e | e in page :: e in Members(db.rows, s.dp, block);
  }

  /** The records of a range unpack to its entities and their encodings. */
  lemma {:induction false} PageUnpacks(db: Database, size: nat, s: Side, page: seq<nat>)
    requires Sound(db, size) && s.lo <= s.hi && page == EncodingBlockIds(db, s.dp, s.block, s.lo, s.hi - s.lo)
    ensures var found := ChunkOfEncodings(db, s.dp, page);
      |found| == |Ordered(page)| && forall i | 0 <= i < |found| ::
        |found[i]| == 4 + size && Unpack(found[i], size) ==
            Some(Filter(Ordered(page)[i], EncodingOf(db.encodings, s.dp, Ordered(page)[i])))
  {
    var ids, found := Ordered(page), ChunkOfEncodings(db, s.dp, page);
    PageOfMembers(db, size, s);
    OrderedElements(page);
    ChunkDelivers(db, s.dp, page);
    forall i | 0 <= i < |ids|
      ensures |found[i]| == 4 + size
          && Unpack(found[i], size) == Some(Filter(ids[i], EncodingOf(db.encodings, s.dp, ids[i]))) {
      assert ids[i] in page;
      assert SoundRow(db.encodings, size, BlockRow(s.dp, ids[i], EncodingId(s.dp, ids[i]), 0));
    }
  }

  /** Separate lists of ids and of encodings. */
  function Unzip(filters: seq<Filter>): Delivery {
    Delivery(seq(|filters|, i requires 0 <= i < |filters| => filters[i].id),
             seq(|filters|, i requires 0 <= i < |filters| => filters[i].encoding))
  }

  /** The entities of a range with their encodings, each of them once; an empty range is an error. */
  method GetEncodingChunk(db: Database, s: Side, size: nat) returns (r: Option<Delivery>)
    requires Sound(db, size) && s.lo <= s.hi
    ensures var page := EncodingBlockIds(db, s.dp, s.block, s.lo, s.hi - s.lo);
      r == if page == [] then None else Some(Deliver(db, s.dp, Ordered(page)))
  {
    var page := EncodingBlockIds(db, s.dp, s.block, s.lo, s.hi - s.lo);
    if page == [] {
      return None;
    }
    PageUnpacks(db, size, s, page);
    var records := GetChunkOfEncodings(db, s.dp, page);
    var filters := UnpackFilters(records, None, size);
    r := Some(Unzip(filters.value));
    assert r.value.ids == Ordered(page);
    assert r.value.encodings == Deliver(db, s.dp, Ordered(page)).encodings;
  }

  // ----- Whole blocks of several chunks -----

  function Collected(values: seq<Value>): Delivery {
    Delivery(seq(|values|, i requires 0 <= i < |values| => values[i].entity),
             seq(|values|, i requires 0 <= i < |values| => CopyFormat.Drop(values[i].data, ID_SIZE)))
  }

  lemma {:induction false} CollectedNext(values: seq<Value>, v: Value)
    ensures Collected(values + [v]) ==
        Delivery(Collected(values).ids + [v.entity], Collected(values).encodings + [CopyFormat.Drop(v.data, ID_SIZE)])
  {}

  /** The blocks before position `n` that are complete, `b` being the block of the value before it. */
  ghost predicate Grouped(values: seq<Value>, n: nat, b: nat, groups: map<nat, Delivery>)
    requires n <= |values|
  {
    && (forall c :: c in groups <==> c != b && OfBlock(values[..n], c) != [])
    && forall c | c in groups :: groups[c] == Collected(OfBlock(values[..n], c))
  }

  lemma {:induction false} OfBlockNext(values: seq<Value>, n: nat, b: nat)
    requires n < |values|
    ensures OfBlock(values[..n + 1], b) == OfBlock(values[..n], b) + if values[n].block == b then [values[n]] else []
  {
    assert values[..n + 1][..n] == values[..n];
  }

  lemma {:induction false} SameBlockNext(values: seq<Value>, n: nat, b: nat, groups: map<nat, Delivery>)
    requires n < |values| && Grouped(values, n, b, groups) && values[n].block == b
    ensures Grouped(values, n + 1, b, groups)
  {
    forall c | c != b ensures OfBlock(values[..n + 1], c) == OfBlock(values[..n], c) {
      OfBlockNext(values, n, c);
    }
  }

  lemma {:induction false} NoneOfBlock(values: seq<Value>, b: nat)
    requires forall v | v in values :: v.block != b
    ensures OfBlock(values, b) == []
  {
    if values != [] {
      NoneOfBlock(values[..|values| - 1], b);
    }
  }

  /** In ordered values, a block that differs from the one before has not occurred yet. */
  lemma {:induction false} NewBlock(values: seq<Value>, n: nat)
    requires 0 < n < |values| && InOrder(values) && values[n - 1].block != values[n].block
    ensures OfBlock(values[..n], values[n].block) == []
  {
    var b := values[n].block;
    forall v | v in values[..n] ensures v.block != b {
      var i :| 0 <= i < n && values[i] == v;
      assert i < n - 1 ==> NotAfter(values[i], values[n - 1]);
      assert NotAfter(values[n - 1], values[n]);
    }
    NoneOfBlock(values[..n], b);
  }

  lemma {:induction false} LastBlock(values: seq<Value>, n: nat)
    requires 0 < n <= |values|
    ensures OfBlock(values[..n], values[n - 1].block) != []
  {
    OfBlockNext(values, n - 1, values[n - 1].block);
  }

  /** Up to position `n`, the groups are complete but for the current one. */
  ghost predicate Collecting(values: seq<Value>, n: nat, b: nat, current: Delivery, groups: map<nat, Delivery>) {
    && 0 < n <= |values| && values[n - 1].block == b && Grouped(values, n, b, groups)
    && current == Collected(OfBlock(values[..n], b))
  }

  lemma {:induction false} OtherBlockNext(values: seq<Value>, n: nat, b: nat, current: Delivery,
                                          groups: map<nat, Delivery>)
    requires n < |values| && Collecting(values, n, b, current, groups) && InOrder(values) && values[n].block != b
    ensures Grouped(values, n + 1, values[n].block, groups[b := current])
  {
    NewBlock(values, n);
    LastBlock(values, n);
    forall c | c != values[n].block ensures OfBlock(values[..n + 1], c) == OfBlock(values[..n], c) {
      OfBlockNext(values, n, c);
    }
  }

  /** One more value, which is appended to the current group or starts another. */
  lemma {:induction false} CollectNext(values: seq<Value>, n: nat, b: nat, current: Delivery,
                                       groups: map<nat, Delivery>)
    requires n < |values| && Collecting(values, n, b, current, groups) && InOrder(values)
    ensures var v, code := values[n], CopyFormat.Drop(values[n].data, ID_SIZE);
      if v.block == b then Collecting(values, n + 1, b, Delivery(current.ids + [v.entity], current.encodings + [code]),
          groups)
      else Collecting(values, n + 1, v.block, Delivery([v.entity], [code]), groups[b := current])
  {
    var v := values[n];
    OfBlockNext(values, n, v.block);
    CollectedNext(OfBlock(values[..n], v.block), v);
    if v.block == b {
      SameBlockNext(values, n, b, groups);
    } else {
      OtherBlockNext(values, n, b, current, groups);
      NewBlock(values, n);
      assert Collected([]) == Delivery([], []);
    }
  }

  /** At the end the current group is complete, too. */
  lemma {:induction false} CollectedAll(values: seq<Value>, b: nat, current: Delivery, groups: map<nat, Delivery>)
    requires Collecting(values, |values|, b, current, groups)
    ensures var all := groups[b := current];
      (forall c :: c in all <==> OfBlock(values, c) != []) && forall c | c in all ::
          all[c] == Collected(OfBlock(values, c))
  {
    assert values[..|values|] == values;
    LastBlock(values, |values|);
  }

  lemma {:induction false} CollectFirst(values: seq<Value>)
    requires values != []
    ensures Collecting(values, 1, values[0].block,
        Delivery([values[0].entity], [CopyFormat.Drop(values[0].data, ID_SIZE)]), map[])
  {
    assert values[..1][..0] == [];
  }

  /**
   Collect consecutive values of the same block. Fails if there are no values at all, or if one
   of them is not a record.
   */
  method BlockValues(values: seq<Value>, size: nat) returns (r: Option<map<nat, Delivery>>)
    requires InOrder(values)
    ensures r.Some? <==> values != [] && forall v | v in values :: |v.data| == ID_SIZE + size
    ensures r.Some? ==> forall b :: b in r.value <==> OfBlock(values, b) != []
    ensures r.Some? ==> forall b | b in r.value :: r.value[b] == Collected(OfBlock(values, b))
  {
    if values == [] {
      return None;
    }
    var first := Unpack(values[0].data, size);
    if first.None? {
      assert values[0] in values;
      return None;
    }
    var groups: map<nat, Delivery> := map[];
    var block, current := values[0].block, Delivery([values[0].entity], [first.value.encoding]);
    CollectFirst(values);
    for i := 1 to |values|
      invariant Collecting(values, i, block, current, groups)
      invariant forall j | 0 <= j < i :: |values[j].data| == ID_SIZE + size
    {
      var v := values[i];
      var record := Unpack(v.data, size);
      if record.None? {
        assert v in values;
        return None;
      }
      CollectNext(values, i, block, current, groups);
      if v.block == block {
        current := Delivery(current.ids + [v.entity], current.encodings + [record.value.encoding]);
      } else {
        groups := groups[block := current];
        block, current := v.block, Delivery([v.entity], [record.value.encoding]);
      }
    }
    CollectedAll(values, block, current, groups);
    return Some(groups[block := current]);
  }

  /** Everything in the block that a side of a chunk is about. */
  function DeliverBlock(db: Database, dp: nat, block: nat): Delivery {
    Deliver(db, dp, Members(db.rows, dp, Some(block)))
  }

  lemma {:induction false} JoinDelivers(db: Database, size: nat, dp: nat, blocks: set<nat>, b: nat)
    requires Sound(db, size)
    ensures var own := OfBlock(MultipleBlocks(db.encodings, db.rows, dp, blocks), b);
      (own != [] <==> b in blocks && Members(db.rows, dp, Some(b)) != [])
          && (own != [] ==> Collected(own) == DeliverBlock(db, dp, b))
  {
    MultipleBlocksDeliver(db.encodings, size, db.rows, dp, blocks, b);
  }

  lemma {:induction false} JoinFits(encodings: map<nat, seq<Byte>>, size: nat, rows: seq<BlockRow>, dp: nat,
                                    blocks: set<nat>)
    requires 4 + size < Capacity(4) && forall r | r in rows :: SoundRow(encodings, size, r)
    ensures forall v | v in MultipleBlocks(encodings, rows, dp, blocks) :: Fitting(v) && |v.data| == ID_SIZE + size
    ensures InOrder(MultipleBlocks(encodings, rows, dp, blocks))
  {
    if rows != [] {
      JoinFits(encodings, size, rows[1..], dp, blocks);
      FourBytes();
      var r := rows[0];
      assert SoundRow(encodings, size, r);
      InsertValueOrders(Value(r.block, r.entity, encodings[r.encodingId]),
          MultipleBlocks(encodings, rows[1..], dp, blocks));
    }
  }

  /** All blocks of one provider: an error if there is nothing in any of them. */
  method FetchBlocks(db: Database, dp: nat, blocks: set<nat>, size: nat) returns (r: Option<map<nat, Delivery>>)
    requires Sound(db, size)
    ensures r.Some? <==> exists b | b in blocks :: Members(db.rows, dp, Some(b)) != []
    ensures r.Some? ==> forall b :: b in r.value <==> b in blocks && Members(db.rows, dp, Some(b)) != []
    ensures r.Some? ==> forall b | b in r.value :: r.value[b] == DeliverBlock(db, dp, b)
  {
    ghost var found := MultipleBlocks(db.encodings, db.rows, dp, blocks);
    JoinFits(db.encodings, size, db.rows, dp, blocks);
    forall b: nat ensures (OfBlock(found, b) != [] <==> b in blocks && Members(db.rows, dp, Some(b)) != [])
                && (OfBlock(found, b) != [] ==> Collected(OfBlock(found, b)) == DeliverBlock(db, dp, b)) {
      JoinDelivers(db, size, dp, blocks, b);
    }
    SomeBlock(found);
    var values := GetEncodingsOfMultipleBlocks(db, dp, blocks);
    r := BlockValues(values, size);
  }

  lemma {:induction false} SomeBlock(values: seq<Value>)
    ensures values != [] <==> exists b :: OfBlock(values, b) != []
  {
    if values != [] {
      LastBlock(values, |values|);
      assert values[..|values|] == values;
    }
  }

  // ----- A package of several chunks -----

  /** A side of one of the chunks is about this block of this provider. */
  ghost predicate Wanted(package: Package, dp: nat, block: nat) {
    exists c | c in package ::
        (c.left.dp == dp && c.left.block == block) || (c.right.dp == dp && c.right.block == block)
  }

  function AddBlock(blocksOf: map<nat, set<nat>>, s: Side): map<nat, set<nat>> {
    blocksOf[s.dp := (if s.dp in blocksOf then blocksOf[s.dp] else {}) + {s.block}]
  }

  ghost predicate Gathered(package: Package, blocksOf: map<nat, set<nat>>) {
    && (forall dp, b: nat :: (dp in blocksOf && b in blocksOf[dp]) <==> Wanted(package, dp, b))
    && forall dp | dp in blocksOf :: blocksOf[dp] != {}
  }

  lemma {:induction false} GatherNext(package: Package, c: Chunk, blocksOf: map<nat, set<nat>>)
    requires Gathered(package, blocksOf)
    ensures Gathered(package + [c], AddBlock(AddBlock(blocksOf, c.left), c.right))
  {
    var after := AddBlock(AddBlock(blocksOf, c.left), c.right);
    forall dp: nat, b: nat ensures (dp in after && b in after[dp]) <==> Wanted(package + [c], dp, b) {
      var here := (c.left.dp == dp && c.left.block == b) || (c.right.dp == dp && c.right.block == b);
      assert Wanted(package + [c], dp, b) <==> (Wanted(package, dp, b) || here);
    }
  }

  method GatherBlocks(package: Package) returns (blocksOf: map<nat, set<nat>>)
    ensures Gathered(package, blocksOf)
  {
    blocksOf := map[];
    for i := 0 to |package|
      invariant Gathered(package[..i], blocksOf)
    {
      GatherNext(package[..i], package[i], blocksOf);
      assert package[..i + 1] == package[..i] + [package[i]];
      blocksOf := AddBlock(AddBlock(blocksOf, package[i].left), package[i].right);
    }
    assert package[..|package|] == package;
  }

  ghost predicate HasBoth(db: Database, c: Chunk) {
    InBlock(db, c.left) != [] && InBlock(db, c.right) != []
  }

  /** No side is about an empty block. */
  ghost predicate NoneEmpty(db: Database, package: Package) {
    forall c | c in package :: HasBoth(db, c)
  }

  ghost predicate Found(db: Database, blocksOf: map<nat, set<nat>>, dps: set<nat>, found: map<(nat, nat), Delivery>) {
    && (forall dp, b: nat :: (dp, b) in found <==>
        dp in dps && dp in blocksOf && b in blocksOf[dp] && Members(db.rows, dp, Some(b)) != [])
    && forall dp, b: nat | (dp, b) in found :: found[(dp, b)] == DeliverBlock(db, dp, b)
  }

  lemma {:induction false} FoundNext(db: Database, blocksOf: map<nat, set<nat>>, dps: set<nat>,
                                     found: map<(nat, nat), Delivery>, dp: nat, own: map<nat, Delivery>)
    requires Found(db, blocksOf, dps, found) && dp in blocksOf
    requires forall b :: b in own <==> b in blocksOf[dp] && Members(db.rows, dp, Some(b)) != []
    requires forall b | b in own :: own[b] == DeliverBlock(db, dp, b)
    ensures Found(db, blocksOf, dps + {dp}, found + map b | b in own :: (dp, b) := own[b])
  {}

  /** The blocks of all providers, by provider and block. */
  method FetchAll(db: Database, blocksOf: map<nat, set<nat>>, size: nat) returns (r: Option<map<(nat, nat), Delivery>>)
    requires Sound(db, size)
    ensures r.Some? ==> Found(db, blocksOf, blocksOf.Keys, r.value)
    ensures r.None? ==> exists dp | dp in blocksOf :: forall b | b in blocksOf[dp] ::
        Members(db.rows, dp, Some(b)) == []
  {
    var found: map<(nat, nat), Delivery>, todo := map[], blocksOf.Keys;
    while todo != {}
      invariant todo <= blocksOf.Keys && Found(db, blocksOf, blocksOf.Keys - todo, found)
    {
      var dp :| dp in todo;
      var own := FetchBlocks(db, dp, blocksOf[dp], size);
      if own.None? {
        return None;
      }
      FoundNext(db, blocksOf, blocksOf.Keys - todo, found, dp, own.value);
      assert blocksOf.Keys - todo + {dp} == blocksOf.Keys - (todo - {dp});
      found := found + map b | b in own.value :: (dp, b) := own.value[b];
      todo := todo - {dp};
    }
    assert blocksOf.Keys - todo == blocksOf.Keys;
    return Some(found);
  }

  /** What is to be found for both sides of a chunk. */
  ghost predicate IsFilled(db: Database, c: Chunk, d: (Delivery, Delivery)) {
    d.0 == DeliverBlock(db, c.left.dp, c.left.block) && d.1 == DeliverBlock(db, c.right.dp, c.right.block)
  }

  lemma {:induction false} LookUp(db: Database, package: Package, blocksOf: map<nat, set<nat>>,
                                  found: map<(nat, nat), Delivery>, c: Chunk)
    requires Gathered(package, blocksOf) && Found(db, blocksOf, blocksOf.Keys, found) && c in package
    ensures var left, right := (c.left.dp, c.left.block), (c.right.dp, c.right.block);
      (left in found && right in found <==> HasBoth(db, c))
          && (HasBoth(db, c) ==> IsFilled(db, c, (found[left], found[right])))
  {
    assert Wanted(package, c.left.dp, c.left.block) && Wanted(package, c.right.dp, c.right.block);
  }

  /** Look up both sides of each chunk; a missing block is an error. */
  method FillChunks(ghost db: Database, package: Package, ghost blocksOf: map<nat, set<nat>>,
                    found: map<(nat, nat), Delivery>)
    returns (r: Option<seq<(Delivery, Delivery)>>)
    requires Gathered(package, blocksOf) && Found(db, blocksOf, blocksOf.Keys, found)
    ensures r.Some? <==> NoneEmpty(db, package)
    ensures r.Some? ==> |r.value| == |package| && forall i | 0 <= i < |package| :: IsFilled(db, package[i], r.value[i])
  {
    var filled: seq<(Delivery, Delivery)> := [];
    for i := 0 to |package|
      invariant |filled| == i && forall j | 0 <= j < i :: HasBoth(db, package[j]) && IsFilled(db, package[j], filled[j])
    {
      var left, right := (package[i].left.dp, package[i].left.block), (package[i].right.dp, package[i].right.block);
      LookUp(db, package, blocksOf, found, package[i]);
      if left !in found || right !in found {
        return None;
      }
      filled := filled + [(found[left], found[right])];
    }
    return Some(filled);
  }

  /** Whole blocks for all chunks of a package; an error if one of the blocks is empty. */
  method GetEncodingChunks(db: Database, package: Package, size: nat) returns (r: Option<seq<(Delivery, Delivery)>>)
    requires Sound(db, size)
    ensures r.Some? <==> NoneEmpty(db, package)
    ensures r.Some? ==> |r.value| == |package| && forall i | 0 <= i < |package| :: IsFilled(db, package[i], r.value[i])
  {
    var blocksOf := GatherBlocks(package);
    var found := FetchAll(db, blocksOf, size);
    if found.None? {
      EmptyProvider(db, package, blocksOf);
      return None;
    }
    r := FillChunks(db, package, blocksOf, found.value);
  }

  lemma {:induction false} EmptyProvider(db: Database, package: Package, blocksOf: map<nat, set<nat>>)
    requires Gathered(package, blocksOf)
    requires exists dp | dp in blocksOf :: forall b | b in blocksOf[dp] :: Members(db.rows, dp, Some(b)) == []
    ensures !NoneEmpty(db, package)
  {
    var dp :| dp in blocksOf && forall b | b in blocksOf[dp] :: Members(db.rows, dp, Some(b)) == [];
    var b :| b in blocksOf[dp];
    assert Wanted(package, dp, b);
    var c :| c in package && ((c.left.dp == dp && c.left.block == b) || (c.right.dp == dp && c.right.block == b));
    assert !HasBoth(db, c);
  }

  // ----- The choice of the path -----

  /** What the side of a chunk is about: the entities in its range, each with its own encoding. */
  ghost predicate IsDelivered(db: Database, s: Side, d: Delivery)
    requires s.lo <= s.hi <= |InBlock(db, s)|
  {
    d == Deliver(db, s.dp, InBlock(db, s)[s.lo..s.hi])
  }

  /** The range lies in a block with a proper id, in which no entity is listed twice. */
  ghost predicate Fetchable(db: Database, s: Side) {
    s.block != 0 && s.lo < s.hi <= |InBlock(db, s)| && Distinct(InBlock(db, s))
  }

  ghost predicate FullRange(db: Database, s: Side) {
    s.lo == 0 && s.hi == |InBlock(db, s)|
  }

  /** A package as the scheduler creates it: of several chunks, all cover their blocks in full. */
  ghost predicate FetchablePackage(db: Database, package: Package) {
    && package != []
    && (forall c | c in package :: Fetchable(db, c.left) && Fetchable(db, c.right))
    && (|package| > 1 ==> forall c | c in package :: FullRange(db, c.left) && FullRange(db, c.right))
  }

  lemma {:induction false} AscendingIsStrict(s: seq<nat>)
    requires Ascending(s)
    ensures StrictlyAscending(s) <==> Distinct(s)
  {}

  /** The path for a range delivers it as it is if and only if no entity is listed twice in it. */
  lemma {:induction false} RangeIsDelivered(db: Database, size: nat, s: Side)
    requires Sound(db, size) && s.block != 0 && s.lo < s.hi <= |InBlock(db, s)|
    ensures var page := EncodingBlockIds(db, s.dp, s.block, s.lo, s.hi - s.lo);
      page == InBlock(db, s)[s.lo..s.hi] && (IsDelivered(db, s, Deliver(db, s.dp, Ordered(page))) <==> Distinct(page))
  {
    var page := EncodingBlockIds(db, s.dp, s.block, s.lo, s.hi - s.lo);
    PageOfMembers(db, size, s);
    AscendingIsStrict(page);
    OrderedIffStrict(page);
  }

  /** The path for whole blocks delivers a range if and only if the range is the whole block. */
  lemma {:induction false} BlockIsDelivered(db: Database, s: Side)
    requires s.lo <= s.hi <= |InBlock(db, s)|
    ensures IsDelivered(db, s, DeliverBlock(db, s.dp, s.block)) <==> FullRange(db, s)
  {
    var all := InBlock(db, s);
    assert all[0..|all|] == all;
    assert |all[s.lo..s.hi]| == s.hi - s.lo;
  }

  /**
   Fetch the encodings of a package on the path that its number of chunks decides: for every
   package of the scheduler, each side of each chunk gets the entities of its range in ascending
   order, each with its own encoding.
   */
  method FetchPackage(db: Database, package: Package, size: nat) returns (r: Option<seq<(Delivery, Delivery)>>)
    requires Sound(db, size) && FetchablePackage(db, package)
    ensures r.Some? && |r.value| == |package|
    ensures forall i | 0 <= i < |package| ::
              package[i] in package && IsDelivered(db, package[i].left, r.value[i].0)
                  && IsDelivered(db, package[i].right, r.value[i].1)
  {
    forall i | 0 <= i < |package|
      ensures package[i] in package && Fetchable(db, package[i].left) && Fetchable(db, package[i].right)
    {}
    if |package| > 1 {
      r := GetEncodingChunks(db, package, size);
      forall i | 0 <= i < |package|
        ensures IsDelivered(db, package[i].left, r.value[i].0) && IsDelivered(db, package[i].right, r.value[i].1) {
        BlockIsDelivered(db, package[i].left);
        BlockIsDelivered(db, package[i].right);
      }
    } else {
      var c := package[0];
      var left := GetEncodingChunk(db, c.left, size);
      if left.None? {
        return None;
      }
      var right := GetEncodingChunk(db, c.right, size);
      if right.None? {
        return None;
      }
      DistinctRange(InBlock(db, c.left), c.left.lo, c.left.hi);
      DistinctRange(InBlock(db, c.right), c.right.lo, c.right.hi);
      RangeIsDelivered(db, size, c.left);
      RangeIsDelivered(db, size, c.right);
      r := Some([(left.value, right.value)]);
    }
  }

  lemma {:induction false} DistinctRange(s: seq<nat>, lo: nat, hi: nat)
    requires Distinct(s) && lo <= hi <= |s|
    ensures Distinct(s[lo..hi])
  {}
}
