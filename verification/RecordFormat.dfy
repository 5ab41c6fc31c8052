/** The packed records in which encodings are stored: the entity id, and a fixed number of bytes. */
module RecordFormat {
  import opened Bytes
  import opened Wrappers

  datatype Filter = Filter(id: nat, encoding: seq<Byte>)

  const ID_SIZE: nat := 4

  function Zeros(n: nat): (s: seq<Byte>)
    ensures |s| == n
  {
    seq(n, i => 0)
  }

  /** A field of `size` bytes holds longer strings cut off, and shorter ones filled up with zeros. */
  function Fit(encoding: seq<Byte>, size: nat): (s: seq<Byte>)
    ensures |s| == size
    ensures s == encoding <==> |encoding| == size
  {
    if size <= |encoding| then encoding[..size] else encoding + Zeros(size - |encoding|)
  }

  /** Fails if the id is too large. */
  function Pack(f: Filter, size: nat): (data: Option<seq<Byte>>)
    ensures data.Some? <==> f.id < Capacity(ID_SIZE)
    ensures data.Some? ==> |data.value| == ID_SIZE + size
  {
    if f.id < Capacity(ID_SIZE) then Some(BigEndian(f.id, ID_SIZE) + Fit(f.encoding, size)) else None
  }

  /** Fails unless the data has the right length. */
  function Unpack(data: seq<Byte>, size: nat): Option<Filter> {
    if |data| == ID_SIZE + size then Some(Filter(FromBigEndian(data[..ID_SIZE]), data[ID_SIZE..])) else None
  }

  /**
   A packed record is read back with the same id, and with the same encoding if and only if that has
   the right size.
   */
  lemma {:induction false} UnpackPacked(f: Filter, size: nat)
    requires f.id < Capacity(ID_SIZE)
    ensures Unpack(Pack(f, size).value, size) == Some(Filter(f.id, Fit(f.encoding, size)))
    ensures Unpack(Pack(f, size).value, size) == Some(f) <==> |f.encoding| == size
  {
    NumberRoundTrip(f.id, ID_SIZE);
    var data := Pack(f, size).value;
    assert data[..ID_SIZE] == BigEndian(f.id, ID_SIZE);
    assert data[ID_SIZE..] == Fit(f.encoding, size);
  }

  /** Nothing but the packing of a filter unpacks to it. */
  lemma {:induction false} PackUnpacked(data: seq<Byte>, size: nat)
    requires Unpack(data, size).Some?
    ensures Pack(Unpack(data, size).value, size) == Some(data)
  {
    BytesRoundTrip(data[..ID_SIZE]);
    assert data == data[..ID_SIZE] + data[ID_SIZE..];
  }

  /** The four bytes of the id, the high one first, and the encoding, cut off or filled up with zeros. */
  ghost predicate IsPacking(f: Filter, size: nat, data: seq<Byte>) {
    && |data| == 4 + size
    && f.id == ((data[0] as int * 256 + data[1] as int) * 256 + data[2] as int) * 256 + data[3] as int
    && forall k | 0 <= k < size :: data[4 + k] == if k < |f.encoding| then f.encoding[k] else 0
  }

  lemma {:induction false} UnpackedIsPacking(f: Filter, size: nat, data: seq<Byte>)
    requires Unpack(data, size) == Some(Filter(f.id, Fit(f.encoding, size)))
    ensures IsPacking(f, size, data)
  {
    FourBytes(data[..4]);
    forall k | 0 <= k < size ensures data[4 + k] == if k < |f.encoding| then f.encoding[k] else 0 {
      assert data[4..][k] == Fit(f.encoding, size)[k];
    }
  }

  method PackFilters(filters: seq<Filter>, size: nat) returns (packed: Option<seq<seq<Byte>>>)
    ensures packed.Some? <==> forall f | f in filters :: f.id < 0x1_0000_0000
    ensures packed.Some? ==> |packed.value| == |filters|
    ensures packed.Some? ==> forall i | 0 <= i < |filters| :: IsPacking(filters[i], size, packed.value[i])
    ensures packed.Some? ==> forall i | 0 <= i < |filters| ::
              Unpack(packed.value[i], size) == Some(Filter(filters[i].id, Fit(filters[i].encoding, size)))
  {
    var records: seq<seq<Byte>> := [];
    assert Capacity(0) == 1 && Capacity(1) == 256 && Capacity(2) == 65536 && Capacity(3) == 16777216;
    for i := 0 to |filters|
      invariant |records| == i && forall j | 0 <= j < i :: filters[j].id < Capacity(ID_SIZE)
      invariant forall j | 0 <= j < i ::
          Unpack(records[j], size) == Some(Filter(filters[j].id, Fit(filters[j].encoding, size)))
      invariant forall j | 0 <= j < i :: IsPacking(filters[j], size, records[j])
    {
      var data := Pack(filters[i], size);
      if data.None? {
        assert filters[i] in filters;
        return None;
      }
      UnpackPacked(filters[i], size);
      UnpackedIsPacking(filters[i], size, data.value);
      records := records + [data.value];
    }
    return Some(records);
  }

  /** All of the first `k` items have the length of a record. */
  predicate Readable(items: seq<seq<Byte>>, k: nat, size: nat) {
    forall i | 0 <= i < k && i < |items| :: |items[i]| == ID_SIZE + size
  }

  /** The length of `k` records. */
  function Length(k: nat, size: nat): nat {
    k * (ID_SIZE + size)
  }

  /** Reading stops after `k` items: at the end, or as soon as the limit is reached. */
  predicate StopsAfter(items: nat, limit: Option<nat>, size: nat, k: nat) {
    && k <= items
    && (k < items ==> limit.Some? && k > 0 && Length(k, size) >= limit.value)
    && (limit.Some? ==> forall j: nat | 0 < j < k :: Length(j, size) < limit.value)
  }

  /** These filters were read from the first items. */
  ghost predicate ArePackings(filters: seq<Filter>, items: seq<seq<Byte>>, size: nat)
    requires |filters| <= |items|
  {
    forall i | 0 <= i < |filters| :: IsPacking(filters[i], size, items[i]) && |filters[i].encoding| == size
  }

  lemma {:induction false} UnpackedArePackings(filters: seq<Filter>, items: seq<seq<Byte>>, size: nat)
    requires |filters| <= |items| && forall i | 0 <= i < |filters| :: Some(filters[i]) == Unpack(items[i], size)
    ensures ArePackings(filters, items, size)
  {
    forall i | 0 <= i < |filters|
      ensures IsPacking(filters[i], size, items[i]) && |filters[i].encoding| == size
    {
      UnpackedIsPacking(filters[i], size, items[i]);
    }
  }

  /** Unpack items until the limit is reached; one of the wrong length is an error. */
  method UnpackFilters(items: seq<seq<Byte>>, limit: Option<nat>, size: nat) returns (filters: Option<seq<Filter>>)
    ensures filters.Some? ==>
        StopsAfter(|items|, limit, size, |filters.value|) && Readable(items, |filters.value|, size)
    ensures filters.Some? ==> forall i | 0 <= i < |filters.value| :: Some(filters.value[i]) == Unpack(items[i], size)
    ensures filters.Some? ==> |filters.value| <= |items| && ArePackings(filters.value, items, size)
    ensures filters.None? ==> exists k: nat :: StopsAfter(|items|, limit, size, k) && !Readable(items, k, size)
    ensures limit.None? ==>
              (filters.Some? <==> Readable(items, |items|, size)) && (filters.Some? ==> |filters.value| == |items|)
  {
    var read: seq<Filter> := [];
    var consumed := 0;
    for i := 0 to |items|
      invariant |read| == i && consumed == Length(i, size) && Readable(items, i, size)
      invariant forall j | 0 <= j < i :: Some(read[j]) == Unpack(items[j], size)
      invariant limit.Some? ==> forall j: nat | 0 < j <= i :: Length(j, size) < limit.value
    {
      var f := Unpack(items[i], size);
      if f.None? {
        SomewhereItStops(|items|, limit, size, i);
        return None;
      }
      read := read + [f.value];
      consumed := consumed + ID_SIZE + size;
      assert consumed == Length(i + 1, size);
      if limit.Some? && consumed >= limit.value {
        break;
      }
    }
    UnpackedArePackings(read, items, size);
    return Some(read);
  }

  /** Reading that has not stopped before item `i` stops somewhere after it. */
  lemma {:induction false} SomewhereItStops(items: nat, limit: Option<nat>, size: nat, i: nat)
    requires i < items && (limit.Some? ==> forall j: nat | 0 < j <= i :: Length(j, size) < limit.value)
    ensures exists k: nat :: StopsAfter(items, limit, size, k) && k > i
    decreases items - i
  {
    var k := i + 1;
    if k == items || (limit.Some? && Length(k, size) >= limit.value) {
      assert StopsAfter(items, limit, size, k);
    } else {
      SomewhereItStops(items, limit, size, k);
    }
  }
}
