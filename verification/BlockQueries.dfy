/**
 The tables that hold encodings and say which blocks they are in, and the queries on them.

 A query is a function of the tables. Where it asks for an order, rows are inserted one by one
 into an ordered list; the tables themselves are in no particular order.
 */
module BlockQueries {
  import opened Bytes
  import opened Wrappers

  /** One entity of a provider in one block. */
  datatype BlockRow = BlockRow(dp: nat, entity: nat, encodingId: nat, block: nat)

  datatype Database = Database(rows: seq<BlockRow>, encodings: map<nat, seq<Byte>>)

  // ----- Encoding identifiers -----

  const ID_RANGE: nat := 0x1_0000_0000

  function EncodingId(dp: nat, entity: nat): nat {
    dp * ID_RANGE + entity
  }

  /** Below 2^32, entity ids of all providers get distinct encoding ids, in the same order for one provider. */
  lemma {:induction false} EncodingIdsKeepOrder(dp: nat, e: nat, dp': nat, e': nat)
    requires e < ID_RANGE && e' < ID_RANGE
    ensures EncodingId(dp, e) / 0x1_0000_0000 == dp && EncodingId(dp, e) % 0x1_0000_0000 == e
    ensures EncodingId(dp, e) == EncodingId(dp', e') <==> dp == dp' && e == e'
    ensures EncodingId(dp, e) < EncodingId(dp', e') <==> dp < dp' || (dp == dp' && e < e')
  {
    assert EncodingId(dp, e) / ID_RANGE == dp && EncodingId(dp', e') / ID_RANGE == dp';
  }

  /** From 2^32 on, an entity gets the encoding id of an entity of another provider. */
  lemma {:induction false} LargeEntitiesCollide(dp: nat, e: nat)
    ensures e >= ID_RANGE <==> exists dp', e': nat | dp' > dp :: EncodingId(dp, e) == EncodingId(dp', e')
  {
    if e >= ID_RANGE {
      assert EncodingId(dp, e) == EncodingId(dp + 1, e - ID_RANGE);
    }
  }

  // ----- Entities of a block, in ascending order -----

  function InsertNat(x: nat, s: seq<nat>): seq<nat> {
    if s == [] || x <= s[0] then [x] + s else [s[0]] + InsertNat(x, s[1..])
  }

  predicate Selects(dp: nat, block: Option<nat>, r: BlockRow) {
    r.dp == dp && (block.None? || r.block == block.value)
  }

  /** The entities of a provider, all or those in one block. */
  function Members(rows: seq<BlockRow>, dp: nat, block: Option<nat>): seq<nat> {
    if rows == [] then []
    else if Selects(dp, block, rows[0]) then InsertNat(rows[0].entity, Members(rows[1..], dp, block))
    else Members(rows[1..], dp, block)
  }

  predicate Ascending(s: seq<nat>) {
    forall i, j | 0 <= i < j < |s| :: s[i] <= s[j]
  }

  predicate StrictlyAscending(s: seq<nat>) {
    forall i, j | 0 <= i < j < |s| :: s[i] < s[j]
  }

  lemma {:induction false} InsertNatSorts(x: nat, s: seq<nat>)
    requires Ascending(s)
    ensures Ascending(InsertNat(x, s)) && |InsertNat(x, s)| == |s| + 1
    ensures forall y :: y in InsertNat(x, s) <==> y == x || y in s
  {
    if s != [] && x > s[0] {
      InsertNatSorts(x, s[1..]);
      var r := InsertNat(x, s[1..]);
      assert s == [s[0]] + s[1..];
      forall i | 0 <= i < |r| ensures s[0] <= r[i] {
        assert r[i] in r;
      }
    }
  }

  /** What the list of entities of a block is: those that have a row there, in ascending order. */
  lemma {:induction false} MembersAreSorted(rows: seq<BlockRow>, dp: nat, block: Option<nat>)
    ensures Ascending(Members(rows, dp, block))
    ensures forall e :: e in Members(rows, dp, block) <==>
              exists r | r in rows :: Selects(dp, block, r) && r.entity == e
    ensures forall e :: e in Members(rows, dp, block) <==>
              exists r | r in rows :: r.dp == dp && (block.Some? ==> r.block == block.value) && r.entity == e
  {
    if rows != [] {
      MembersAreSorted(rows[1..], dp, block);
      if Selects(dp, block, rows[0]) {
        InsertNatSorts(rows[0].entity, Members(rows[1..], dp, block));
      }
      forall e
        ensures e in Members(rows, dp, block) <==> exists r | r in rows :: Selects(dp, block, r) && r.entity == e
      {
        MemberRows(rows, dp, block, e);
      }
    }
    assert forall r :: Selects(dp, block, r) <==> r.dp == dp && (block.Some? ==> r.block == block.value);
  }

  /** The rows of an entity are the first row, if it is one, and those further down. */
  lemma {:induction false} MemberRows(rows: seq<BlockRow>, dp: nat, block: Option<nat>, e: nat)
    requires rows != []
    ensures (exists r | r in rows :: Selects(dp, block, r) && r.entity == e)
       <==> (Selects(dp, block, rows[0]) && rows[0].entity == e)
            || exists r | r in rows[1..] :: Selects(dp, block, r) && r.entity == e
  {
    assert rows == [rows[0]] + rows[1..];
  }

  // ----- Encodings of given entities -----

  function ComputeEncodingIds(entities: seq<nat>, dp: nat): seq<nat> {
    seq(|entities|, i requires 0 <= i < |entities| => EncodingId(dp, entities[i]))
  }

  /** Insert a number unless it is there. */
  function InsertNew(x: nat, s: seq<nat>): seq<nat> {
    if s == [] || x < s[0] then [x] + s
    else if x == s[0] then s
    else [s[0]] + InsertNew(x, s[1..])
  }

  /** The set of given numbers in ascending order. */
  function Ordered(ids: seq<nat>): seq<nat> {
    if ids == [] then [] else InsertNew(ids[0], Ordered(ids[1..]))
  }

  function Records(encodings: map<nat, seq<Byte>>, ids: seq<nat>): seq<seq<Byte>> {
    if ids == [] then []
    else (if ids[0] in encodings then [encodings[ids[0]]] else []) + Records(encodings, ids[1..])
  }

  /** The records with one of the given ids, in the order of the ids. */
  function ChunkOfEncodings(db: Database, dp: nat, entities: seq<nat>): seq<seq<Byte>> {
    Records(db.encodings, Ordered(ComputeEncodingIds(entities, dp)))
  }

  lemma {:induction false} OrderedAlready(ids: seq<nat>)
    requires StrictlyAscending(ids)
    ensures Ordered(ids) == ids
  {
    if ids != [] {
      OrderedAlready(ids[1..]);
      assert ids == [ids[0]] + ids[1..];
    }
  }

  lemma {:induction false} InsertNewOrders(x: nat, s: seq<nat>)
    requires StrictlyAscending(s)
    ensures StrictlyAscending(InsertNew(x, s)) && forall y :: y in InsertNew(x, s) <==> y == x || y in s
  {
    if s != [] && x > s[0] {
      InsertNewOrders(x, s[1..]);
      var r := InsertNew(x, s[1..]);
      assert s == [s[0]] + s[1..];
      forall i | 0 <= i < |r| ensures s[0] < r[i] {
        assert r[i] in r;
      }
    }
  }

  lemma {:induction false} OrderedElements(ids: seq<nat>)
    ensures StrictlyAscending(Ordered(ids)) && forall x :: x in Ordered(ids) <==> x in ids
  {
    if ids != [] {
      OrderedElements(ids[1..]);
      InsertNewOrders(ids[0], Ordered(ids[1..]));
      assert ids == [ids[0]] + ids[1..];
    }
  }

  /** Ordering leaves exactly those lists unchanged that ascend strictly. */
  lemma {:induction false} OrderedIffStrict(ids: seq<nat>)
    ensures Ordered(ids) == ids <==> StrictlyAscending(ids)
  {
    OrderedElements(ids);
    if StrictlyAscending(ids) {
      OrderedAlready(ids);
    }
  }

  // ----- Encodings of several blocks -----

  datatype Value = Value(block: nat, entity: nat, data: seq<Byte>)

  predicate NotAfter(v: Value, w: Value) {
    v.block < w.block || (v.block == w.block && v.entity <= w.entity)
  }

  function InsertValue(v: Value, s: seq<Value>): seq<Value> {
    if s == [] || NotAfter(v, s[0]) then [v] + s else [s[0]] + InsertValue(v, s[1..])
  }

  /** The rows of these blocks joined with their records, by block and then by entity. */
  function MultipleBlocks(encodings: map<nat, seq<Byte>>, rows: seq<BlockRow>, dp: nat, blocks: set<nat>): seq<Value> {
    if rows == [] then []
    else
      var others := MultipleBlocks(encodings, rows[1..], dp, blocks);
      var r := rows[0];
      if r.dp == dp && r.block in blocks && r.encodingId in encodings
      then InsertValue(Value(r.block, r.entity, encodings[r.encodingId]), others)
      else others
  }

  predicate InOrder(s: seq<Value>) {
    forall i, j | 0 <= i < j < |s| :: NotAfter(s[i], s[j])
  }

  /** The values of one block. */
  function OfBlock(s: seq<Value>, b: nat): seq<Value> {
    if s == [] then []
    else OfBlock(s[..|s| - 1], b) + if s[|s| - 1].block == b then [s[|s| - 1]] else []
  }

  lemma {:induction false} OfBlockConcat(s: seq<Value>, t: seq<Value>, b: nat)
    ensures OfBlock(s + t, b) == OfBlock(s, b) + OfBlock(t, b)
  {
    if t == [] {
      assert s + t == s;
    } else {
      OfBlockConcat(s, t[..|t| - 1], b);
      assert (s + t)[..|s + t| - 1] == s + t[..|t| - 1];
    }
  }

  lemma {:induction false} OfBlockFirst(s: seq<Value>, b: nat)
    requires s != []
    ensures OfBlock(s, b) == (if s[0].block == b then [s[0]] else []) + OfBlock(s[1..], b)
  {
    OfBlockConcat([s[0]], s[1..], b);
    assert s == [s[0]] + s[1..];
    assert [s[0]][..0] == [];
  }

  lemma {:induction false} InsertValueOrders(v: Value, s: seq<Value>)
    requires InOrder(s)
    ensures InOrder(InsertValue(v, s)) && forall w :: w in InsertValue(v, s) <==> w == v || w in s
  {
    if s != [] && !NotAfter(v, s[0]) {
      InsertValueOrders(v, s[1..]);
      var r := InsertValue(v, s[1..]);
      assert s == [s[0]] + s[1..];
      forall i | 0 <= i < |r| ensures NotAfter(s[0], r[i]) {
        assert r[i] in r;
      }
    }
  }

  // ----- The rows that uploads store -----

  /** The record of each row is there, holds the id of the row's entity, and has the right size. */
  ghost predicate Sound(db: Database, size: nat) {
    && 4 + size < Capacity(4)
    && forall r | r in db.rows :: SoundRow(db.encodings, size, r)
  }

  predicate SoundRow(encodings: map<nat, seq<Byte>>, size: nat, r: BlockRow) {
    && r.entity < ID_RANGE && r.block < Capacity(4) && r.encodingId == EncodingId(r.dp, r.entity)
    && r.encodingId in encodings && |encodings[r.encodingId]| == 4 + size
    && FromBigEndian(encodings[r.encodingId][..4]) == r.entity
  }

  ghost predicate HaveRecords(encodings: map<nat, seq<Byte>>, dp: nat, entities: seq<nat>) {
    forall e | e in entities :: EncodingId(dp, e) in encodings
  }

  /** The values of the given entities of a provider, in one block. */
  function ValuesOf(encodings: map<nat, seq<Byte>>, dp: nat, b: nat, entities: seq<nat>): seq<Value>
    requires HaveRecords(encodings, dp, entities)
  {
    seq(|entities|, i requires 0 <= i < |entities| =>
      assert entities[i] in entities; Value(b, entities[i], encodings[EncodingId(dp, entities[i])]))
  }

  lemma {:induction false} OfBlockMembers(s: seq<Value>, b: nat)
    ensures forall w :: w in OfBlock(s, b) <==> w in s && w.block == b
  {
    if s != [] {
      var init, last := s[..|s| - 1], s[|s| - 1];
      OfBlockMembers(init, b);
      assert s == init + [last];
    }
  }

  lemma {:induction false} InsertElsewhere(v: Value, s: seq<Value>, b: nat)
    requires v.block != b
    ensures OfBlock(InsertValue(v, s), b) == OfBlock(s, b)
  {
    OfBlockFirst(InsertValue(v, s), b);
    if s == [] || NotAfter(v, s[0]) {
      assert InsertValue(v, s)[1..] == s;
    } else {
      OfBlockFirst(s, b);
      InsertElsewhere(v, s[1..], b);
      assert InsertValue(v, s)[1..] == InsertValue(v, s[1..]);
    }
  }

  lemma {:induction false} InsertWithin(v: Value, s: seq<Value>)
    requires InOrder(s)
    ensures OfBlock(InsertValue(v, s), v.block) == InsertValue(v, OfBlock(s, v.block))
  {
    var r := InsertValue(v, s);
    OfBlockFirst(r, v.block);
    if s == [] || NotAfter(v, s[0]) {
      assert r[1..] == s;
      OfBlockMembers(s, v.block);
      var own := OfBlock(s, v.block);
      if own != [] {
        assert own[0] in own;
        assert NotAfter(v, own[0]);
      }
      assert InsertValue(v, own) == [v] + own;
    } else {
      assert r[1..] == InsertValue(v, s[1..]);
      OfBlockFirst(s, v.block);
      InsertWithin(v, s[1..]);
      if s[0].block == v.block {
        InsertBefore(v, s[0], OfBlock(s[1..], v.block));
      } else {
        assert [] + OfBlock(s[1..], v.block) == OfBlock(s[1..], v.block);
        assert [] + OfBlock(r[1..], v.block) == OfBlock(r[1..], v.block);
      }
    }
  }

  lemma {:induction false} InsertBefore(v: Value, w: Value, s: seq<Value>)
    requires !NotAfter(v, w)
    ensures InsertValue(v, [w] + s) == [w] + InsertValue(v, s)
  {
    assert ([w] + s)[1..] == s;
  }

  lemma {:induction false} InsertEntity(encodings: map<nat, seq<Byte>>, dp: nat, b: nat, e: nat, ids: seq<nat>)
    requires EncodingId(dp, e) in encodings && HaveRecords(encodings, dp, ids)
    ensures HaveRecords(encodings, dp, InsertNat(e, ids))
    ensures ValuesOf(encodings, dp, b, InsertNat(e, ids))
         == InsertValue(Value(b, e, encodings[EncodingId(dp, e)]), ValuesOf(encodings, dp, b, ids))
  {
    if ids != [] && e > ids[0] {
      InsertEntity(encodings, dp, b, e, ids[1..]);
      assert ids[0] in ids;
      assert ValuesOf(encodings, dp, b, ids)[1..] == ValuesOf(encodings, dp, b, ids[1..]);
    }
  }

  lemma {:induction false} MembersHaveRecords(encodings: map<nat, seq<Byte>>, size: nat, rows: seq<BlockRow>, dp: nat,
                                              block: Option<nat>)
    requires forall r | r in rows :: SoundRow(encodings, size, r)
    ensures forall e | e in Members(rows, dp, block) :: SoundRow(encodings, size, BlockRow(dp, e, EncodingId(dp, e), 0))
  {
    MembersAreSorted(rows, dp, block);
  }

  /** What the join delivers for each block: the entities of the block, in order, with their records. */
  lemma {:induction false} MultipleBlocksDeliver(encodings: map<nat, seq<Byte>>, size: nat, rows: seq<BlockRow>,
                                                 dp: nat, blocks: set<nat>, b: nat)
    requires forall r | r in rows :: SoundRow(encodings, size, r)
    ensures InOrder(MultipleBlocks(encodings, rows, dp, blocks))
    ensures var values := MultipleBlocks(encodings, rows, dp, blocks);
      forall i, j | 0 <= i < j < |values| ::
        || values[i].block < values[j].block
        || (values[i].block == values[j].block && values[i].entity <= values[j].entity)
    ensures HaveRecords(encodings, dp, Members(rows, dp, Some(b)))
    ensures OfBlock(MultipleBlocks(encodings, rows, dp, blocks), b)
         == if b in blocks then ValuesOf(encodings, dp, b, Members(rows, dp, Some(b))) else []
  {
    MembersHaveRecords(encodings, size, rows, dp, Some(b));
    if rows != [] {
      var r := rows[0];
      assert SoundRow(encodings, size, r);
      MultipleBlocksDeliver(encodings, size, rows[1..], dp, blocks, b);
      if r.dp == dp && r.block in blocks {
        var v := Value(r.block, r.entity, encodings[r.encodingId]);
        var others := MultipleBlocks(encodings, rows[1..], dp, blocks);
        InsertValueOrders(v, others);
        if r.block == b {
          InsertWithin(v, others);
          InsertEntity(encodings, dp, b, r.entity, Members(rows[1..], dp, Some(b)));
        } else {
          InsertElsewhere(v, others, b);
        }
      }
    }
  }

  lemma {:induction false} InsertNewEncodingId(dp: nat, e: nat, s: seq<nat>)
    ensures InsertNew(EncodingId(dp, e), ComputeEncodingIds(s, dp)) == ComputeEncodingIds(InsertNew(e, s), dp)
  {
    if s != [] && e > s[0] {
      InsertNewEncodingId(dp, e, s[1..]);
      assert ComputeEncodingIds(s, dp)[1..] == ComputeEncodingIds(s[1..], dp);
    }
  }

  /** Ordering encoding ids orders entities. */
  lemma {:induction false} OrderedEncodingIds(dp: nat, entities: seq<nat>)
    ensures Ordered(ComputeEncodingIds(entities, dp)) == ComputeEncodingIds(Ordered(entities), dp)
  {
    if entities == [] {
      assert ComputeEncodingIds(entities, dp) == [];
    } else {
      OrderedEncodingIds(dp, entities[1..]);
      InsertNewEncodingId(dp, entities[0], Ordered(entities[1..]));
      assert ComputeEncodingIds(entities, dp)[1..] == ComputeEncodingIds(entities[1..], dp);
    }
  }

  /** What the query for given entities delivers: the record of each of them once, in ascending order. */
  lemma {:induction false} ChunkDelivers(db: Database, dp: nat, entities: seq<nat>)
    requires HaveRecords(db.encodings, dp, entities)
    ensures |ChunkOfEncodings(db, dp, entities)| == |Ordered(entities)|
    ensures HaveRecords(db.encodings, dp, Ordered(entities))
    ensures forall i | 0 <= i < |Ordered(entities)| ::
              Ordered(entities)[i] in Ordered(entities)
                  && ChunkOfEncodings(db, dp, entities)[i] == db.encodings[EncodingId(dp, Ordered(entities)[i])]
  {
    OrderedElements(entities);
    OrderedEncodingIds(dp, entities);
    var ids := ComputeEncodingIds(Ordered(entities), dp);
    forall i | 0 <= i < |ids| ensures ids[i] in db.encodings {
      assert Ordered(entities)[i] in entities;
    }
    RecordsOfAll(db.encodings, ids);
  }

  lemma {:induction false} RecordsOfAll(encodings: map<nat, seq<Byte>>, ids: seq<nat>)
    requires forall i | 0 <= i < |ids| :: ids[i] in encodings
    ensures |Records(encodings, ids)| == |ids|
    ensures forall i | 0 <= i < |ids| :: Records(encodings, ids)[i] == encodings[ids[i]]
  {
    if ids != [] {
      RecordsOfAll(encodings, ids[1..]);
    }
  }
}
