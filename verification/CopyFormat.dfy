/**
 The parser of the binary format in which the database copies out the rows of a query.

 The parser reads from a stream that ends at some point. What it does when a row is cut off is
 part of the model: reading past the end yields fewer bytes, and a number without bytes is zero.
 */
module CopyFormat {
  import opened Bytes
  import opened Wrappers

  type Field = seq<Byte>

  /** A row with a single field is passed on as that field. */
  datatype Row = Single(value: Field) | Multiple(values: seq<Field>)

  /** The rows up to the trailer and the bytes after it; or a wrong header; or rows without end. */
  datatype Parsed = Ended(rows: seq<Row>, rest: seq<Byte>) | Rejected | Endless

  const SIGNATURE: seq<Byte> := [0x50, 0x47, 0x43, 0x4f, 0x50, 0x59, 0x0a, 0xff, 0x0d, 0x0a, 0, 0, 0, 0, 0]
  const NO_EXTENSION: seq<Byte> := [0, 0, 0, 0]
  const TRAILER: nat := 65535

  // ----- Parsing -----

  /** What reading `k` bytes yields. */
  function Take(s: seq<Byte>, k: nat): seq<Byte> {
    if k <= |s| then s[..k] else s
  }

  /** What is left after reading `k` bytes. */
  function Drop(s: seq<Byte>, k: nat): seq<Byte> {
    if k <= |s| then s[k..] else []
  }

  datatype Fields = Fields(values: seq<Field>, rest: seq<Byte>)

  /** Four bytes give the size of a field, and that many bytes follow, or as many as there are. */
  function ReadField(s: seq<Byte>): (r: Fields)
    ensures |r.rest| <= |s|
  {
    var size := FromBigEndian(Take(s, 4));
    Fields([Take(Drop(s, 4), size)], Drop(Drop(s, 4), size))
  }

  function ReadFields(s: seq<Byte>, n: nat): (r: Fields)
    ensures |r.rest| <= |s| && |r.values| == n
  {
    if n == 0 then Fields([], s)
    else
      var before := ReadFields(s, n - 1);
      var last := ReadField(before.rest);
      Fields(before.values + last.values, last.rest)
  }

  function Unwrap(fields: seq<Field>): Row {
    if |fields| == 1 then Single(fields[0]) else Multiple(fields)
  }

  function After(rows: seq<Row>, p: Parsed): Parsed {
    if p.Ended? then Ended(rows + p.rows, p.rest) else p
  }

  /** At the end of the stream, rows without fields follow for ever. */
  function ParseRows(s: seq<Byte>): (p: Parsed)
    ensures !p.Rejected?
    decreases |s|
  {
    var n := FromBigEndian(Take(s, 2));
    if s == [] then Endless
    else if n == TRAILER then Ended([], Drop(s, 2))
    else
      var fields := ReadFields(Drop(s, 2), n);
      After([Unwrap(fields.values)], ParseRows(fields.rest))
  }

  function Parse(s: seq<Byte>): Parsed {
    if Take(s, 15) != SIGNATURE || Take(Drop(s, 15), 4) != NO_EXTENSION then Rejected
    else ParseRows(Drop(Drop(s, 15), 4))
  }

  // ----- Encoding -----

  function EncodeField(f: Field): seq<Byte> {
    BigEndian(|f|, 4) + f
  }

  function EncodeFields(fields: seq<Field>): seq<Byte> {
    if fields == [] then [] else EncodeFields(fields[..|fields| - 1]) + EncodeField(fields[|fields| - 1])
  }

  function EncodeRow(fields: seq<Field>): seq<Byte> {
    BigEndian(|fields|, 2) + EncodeFields(fields)
  }

  function EncodeRows(rows: seq<seq<Field>>): seq<Byte> {
    if rows == [] then [0xff, 0xff] else EncodeRow(rows[0]) + EncodeRows(rows[1..])
  }

  /** The format described under "Binary Format" in the documentation of the COPY command. */
  function Encode(rows: seq<seq<Field>>): seq<Byte> {
    SIGNATURE + NO_EXTENSION + EncodeRows(rows)
  }

  /** Fields that are not null and whose size fits its four bytes, and not too many of them. */
  predicate Encodable(fields: seq<Field>) {
    |fields| < TRAILER && forall f | f in fields :: |f| < Capacity(4)
  }

  predicate AllEncodable(rows: seq<seq<Field>>) {
    forall r | r in rows :: Encodable(r)
  }

  function Unwrapped(rows: seq<seq<Field>>): seq<Row> {
    seq(|rows|, i requires 0 <= i < |rows| => Unwrap(rows[i]))
  }

  // ----- Round trips -----

  lemma {:induction false} TakeDrop(a: seq<Byte>, b: seq<Byte>)
    ensures Take(a + b, |a|) == a && Drop(a + b, |a|) == b
  {}

  lemma {:induction false} Regroup(a: seq<Byte>, b: seq<Byte>, c: seq<Byte>)
    ensures (a + b) + c == a + (b + c)
  {}

  lemma {:induction false} ReadEncodedField(f: Field, more: seq<Byte>)
    requires |f| < Capacity(4)
    ensures ReadField(EncodeField(f) + more) == Fields([f], more)
  {
    NumberRoundTrip(|f|, 4);
    Regroup(BigEndian(|f|, 4), f, more);
    TakeDrop(BigEndian(|f|, 4), f + more);
    TakeDrop(f, more);
  }

  lemma {:induction false} ReadOneMore(s: seq<Byte>, init: seq<Field>, f: Field, middle: seq<Byte>, more: seq<Byte>)
    requires ReadFields(s, |init|) == Fields(init, middle) && ReadField(middle) == Fields([f], more)
    ensures ReadFields(s, |init| + 1) == Fields(init + [f], more)
  {}

  lemma {:induction false} EncodeOneMore(init: seq<Field>, f: Field, more: seq<Byte>)
    ensures EncodeFields(init + [f]) + more == EncodeFields(init) + (EncodeField(f) + more)
  {
    assert (init + [f])[..|init|] == init;
    Regroup(EncodeFields(init), EncodeField(f), more);
  }

  lemma {:induction false} ReadEncodedFields(fields: seq<Field>, more: seq<Byte>)
    requires forall i | 0 <= i < |fields| :: |fields[i]| < Capacity(4)
    ensures ReadFields(EncodeFields(fields) + more, |fields|) == Fields(fields, more)
  {
    if fields == [] {
      assert EncodeFields(fields) + more == more;
    } else {
      var n := |fields| - 1;
      ReadEncodedFields(fields[..n], EncodeField(fields[n]) + more);
      ReadEncodedNext(fields[..n], fields[n], more);
      assert fields[..n] + [fields[n]] == fields;
    }
  }

  lemma {:induction false} ReadEncodedNext(init: seq<Field>, f: Field, more: seq<Byte>)
    requires |f| < Capacity(4)
    requires ReadFields(EncodeFields(init) + (EncodeField(f) + more), |init|) == Fields(init, EncodeField(f) + more)
    ensures ReadFields(EncodeFields(init + [f]) + more, |init| + 1) == Fields(init + [f], more)
  {
    ReadEncodedField(f, more);
    EncodeOneMore(init, f, more);
    ReadOneMore(EncodeFields(init + [f]) + more, init, f, EncodeField(f) + more, more);
  }

  lemma {:induction false} ParseEncodedRow(fields: seq<Field>, more: seq<Byte>)
    requires Encodable(fields)
    ensures ParseRows(EncodeRow(fields) + more) == After([Unwrap(fields)], ParseRows(more))
  {
    var head := BigEndian(|fields|, 2);
    NumberRoundTrip(|fields|, 2);
    Regroup(head, EncodeFields(fields), more);
    TakeDrop(head, EncodeFields(fields) + more);
    ReadEncodedFields(fields, more);
  }

  lemma {:induction false} ParseTrailer(more: seq<Byte>)
    ensures ParseRows([0xff, 0xff] + more) == Ended([], more)
  {
    TakeDrop([0xff, 0xff], more);
    assert [0xff, 0xff][..1] == [0xff] && [0xff][..0] == [];
    assert FromBigEndian([0xff]) == 0xff;
    assert FromBigEndian([0xff, 0xff]) == TRAILER;
  }

  lemma {:induction false} ParseEncodedRows(rows: seq<seq<Field>>, more: seq<Byte>)
    requires AllEncodable(rows)
    ensures ParseRows(EncodeRows(rows) + more) == Ended(Unwrapped(rows), more)
  {
    if rows == [] {
      ParseTrailer(more);
      assert Unwrapped(rows) == [];
    } else {
      Regroup(EncodeRow(rows[0]), EncodeRows(rows[1..]), more);
      ParseEncodedRow(rows[0], EncodeRows(rows[1..]) + more);
      ParseEncodedRows(rows[1..], more);
      assert Unwrapped(rows) == [Unwrap(rows[0])] + Unwrapped(rows[1..]);
    }
  }

  /** What was encoded is parsed again, and what follows the trailer is left unread. */
  lemma {:induction false} ParseEncoded(rows: seq<seq<Field>>, more: seq<Byte>)
    requires AllEncodable(rows)
    ensures Parse(Encode(rows) + more) == Ended(Unwrapped(rows), more)
  {
    var body := EncodeRows(rows) + more;
    assert Encode(rows) + more == SIGNATURE + (NO_EXTENSION + body);
    TakeDrop(SIGNATURE, NO_EXTENSION + body);
    TakeDrop(NO_EXTENSION, body);
    ParseEncodedRows(rows, more);
  }

  lemma {:induction false} ParseEncodedAlone(rows: seq<seq<Field>>)
    requires AllEncodable(rows)
    ensures Parse(Encode(rows)) == Ended(Unwrapped(rows), [])
  {
    ParseEncoded(rows, []);
    assert Encode(rows) + [] == Encode(rows);
  }

  // ----- When parsing ends -----

  lemma {:induction false} InThreeParts(s: seq<Byte>, i: nat, j: nat)
    requires i <= j <= |s|
    ensures s == (s[..i] + s[i..j]) + s[j..]
  {}

  lemma {:induction false} WholeField(s: seq<Byte>, size: nat)
    requires size == FromBigEndian(Take(s, 4)) && ReadField(s).rest != []
    ensures |s| >= 4 + size && Take(s, 4) == s[..4]
    ensures ReadField(s) == Fields([s[4..4 + size]], s[4 + size..]) && |s[4..4 + size]| == size
  {
    assert Drop(Drop(s, 4), size) != [];
    assert s[4..][..size] == s[4..4 + size] && s[4..][size..] == s[4 + size..];
  }

  lemma {:induction false} FieldWasEncoded(s: seq<Byte>)
    requires ReadField(s).rest != []
    ensures var r := ReadField(s); |r.values[0]| < Capacity(4) && s == EncodeField(r.values[0]) + r.rest
  {
    var size := FromBigEndian(Take(s, 4));
    WholeField(s, size);
    BytesRoundTrip(s[..4]);
    InThreeParts(s, 4, 4 + size);
    assert EncodeField(s[4..4 + size]) == s[..4] + s[4..4 + size];
  }

  /** If there are bytes left after some fields, then no field was cut off. */
  lemma {:induction false} FieldsWereEncoded(s: seq<Byte>, n: nat)
    requires ReadFields(s, n).rest != []
    ensures var r := ReadFields(s, n);
      s == EncodeFields(r.values) + r.rest && forall i | 0 <= i < n :: |r.values[i]| < Capacity(4)
  {
    if n == 0 {
      assert s == EncodeFields([]) + s;
    } else {
      var before := ReadFields(s, n - 1);
      var last := ReadField(before.rest);
      FieldsWereEncoded(s, n - 1);
      FieldWasEncoded(before.rest);
      EncodeOneMore(before.values, last.values[0], last.rest);
      assert [last.values[0]] == last.values;
    }
  }

  lemma {:induction false} RowWasEncoded(s: seq<Byte>) returns (fields: seq<Field>, rest: seq<Byte>)
    requires ParseRows(s).Ended? && FromBigEndian(Take(s, 2)) != TRAILER
    ensures Encodable(fields) && s == EncodeRow(fields) + rest && |rest| < |s|
    ensures ParseRows(s) == After([Unwrap(fields)], ParseRows(rest)) && ParseRows(rest).Ended?
  {
    var n := FromBigEndian(Take(s, 2));
    var r := ReadFields(Drop(s, 2), n);
    fields, rest := r.values, r.rest;
    FieldsWereEncoded(Drop(s, 2), n);
    BytesRoundTrip(s[..2]);
    forall f | f in fields ensures |f| < Capacity(4) {
      var i :| 0 <= i < |fields| && fields[i] == f;
    }
    assert s == s[..2] + (EncodeFields(fields) + rest);
    Regroup(s[..2], EncodeFields(fields), rest);
  }

  lemma {:induction false} TrailerWasThere(s: seq<Byte>)
    requires FromBigEndian(Take(s, 2)) == TRAILER
    ensures |s| >= 2 && s == [0xff, 0xff] + Drop(s, 2)
  {
    BytesRoundTrip(Take(s, 2));
    assert Capacity(1) == 256;
    assert BigEndian(255, 1) == [0xff];
    assert BigEndian(TRAILER, 2) == [0xff, 0xff];
  }

  lemma {:induction false} RowBefore(fields: seq<Field>, others: seq<seq<Field>>, more: seq<Byte>)
    ensures EncodeRows([fields] + others) + more == EncodeRow(fields) + (EncodeRows(others) + more)
    ensures Unwrapped([fields] + others) == [Unwrap(fields)] + Unwrapped(others)
  {
    assert ([fields] + others)[1..] == others;
    Regroup(EncodeRow(fields), EncodeRows(others), more);
  }

  /** If rows were parsed up to a trailer, then the stream starts with the encoding of these rows. */
  lemma {:induction false} EndedRowsWereEncoded(s: seq<Byte>) returns (rows: seq<seq<Field>>)
    requires ParseRows(s).Ended?
    ensures AllEncodable(rows) && s == EncodeRows(rows) + ParseRows(s).rest && ParseRows(s).rows == Unwrapped(rows)
    decreases |s|
  {
    if FromBigEndian(Take(s, 2)) == TRAILER {
      rows := [];
      TrailerWasThere(s);
      assert Unwrapped(rows) == [];
    } else {
      var fields, rest := RowWasEncoded(s);
      var others := EndedRowsWereEncoded(rest);
      rows := [fields] + others;
      RowBefore(fields, others, ParseRows(rest).rest);
    }
  }

  lemma {:induction false} HeaderWasThere(s: seq<Byte>)
    requires !Parse(s).Rejected?
    ensures |s| >= 19 && s == (SIGNATURE + NO_EXTENSION) + s[19..] && Parse(s) == ParseRows(s[19..])
  {
    assert |Take(s, 15)| == 15 && |Take(Drop(s, 15), 4)| == 4;
    assert s == s[..15] + s[15..19] + s[19..];
  }

  /** A stream is parsed if and only if it starts with these nineteen bytes. */
  lemma {:induction false} HeaderIff(s: seq<Byte>)
    ensures var header: seq<Byte> := [0x50, 0x47, 0x43, 0x4f, 0x50, 0x59, 0x0a, 0xff, 0x0d, 0x0a,
                                      0, 0, 0, 0, 0, 0, 0, 0, 0];
            !Parse(s).Rejected? <==> header <= s
  {
    var header: seq<Byte> := [0x50, 0x47, 0x43, 0x4f, 0x50, 0x59, 0x0a, 0xff, 0x0d, 0x0a, 0, 0, 0, 0, 0, 0, 0, 0, 0];
    assert SIGNATURE + NO_EXTENSION == header;
    if !Parse(s).Rejected? {
      HeaderWasThere(s);
    }
    if header <= s {
      var rest := s[19..];
      assert s == SIGNATURE + (NO_EXTENSION + rest);
      TakeDrop(SIGNATURE, NO_EXTENSION + rest);
      TakeDrop(NO_EXTENSION, rest);
    }
  }

  lemma {:induction false} EndedWasEncoded(s: seq<Byte>) returns (rows: seq<seq<Field>>)
    requires Parse(s).Ended?
    ensures AllEncodable(rows) && s == Encode(rows) + Parse(s).rest && Parse(s).rows == Unwrapped(rows)
  {
    HeaderWasThere(s);
    rows := EndedRowsWereEncoded(s[19..]);
    Regroup(SIGNATURE + NO_EXTENSION, EncodeRows(rows), ParseRows(s[19..]).rest);
  }

  /** The parser comes to an end if and only if the stream starts with a complete encoding of some rows. */
  lemma {:induction false} EndsOnEncodings(s: seq<Byte>)
    ensures Parse(s).Ended? <==> exists rows :: AllEncodable(rows) && Encode(rows) <= s
  {
    if Parse(s).Ended? {
      var rows := EndedWasEncoded(s);
      assert Encode(rows) <= s;
    }
    if rows :| AllEncodable(rows) && Encode(rows) <= s {
      ParseEncoded(rows, s[|Encode(rows)|..]);
      assert s == Encode(rows) + s[|Encode(rows)|..];
    }
  }

  /** No encoding is a proper prefix of another. */
  lemma {:induction false} NoProperPrefix(rows: seq<seq<Field>>, others: seq<seq<Field>>)
    requires AllEncodable(rows) && AllEncodable(others) && Encode(others) <= Encode(rows)
    ensures Encode(others) == Encode(rows)
  {
    var more := Encode(rows)[|Encode(others)|..];
    ParseEncodedAlone(rows);
    ParseEncoded(others, more);
    InThreeParts(Encode(rows), 0, |Encode(others)|);
    assert Encode(rows) == Encode(others) + more;
  }

  lemma {:induction false} HeaderCutOff(body: seq<Byte>, k: nat)
    requires k <= 19 + |body|
    ensures Parse((SIGNATURE + NO_EXTENSION + body)[..k]).Rejected? <==> k < 19
  {
    var whole := SIGNATURE + NO_EXTENSION + body;
    if k < 15 {
      assert |Take(whole[..k], 15)| != 15;
    } else if k < 19 {
      assert |Take(Drop(whole[..k], 15), 4)| != 4;
    } else {
      assert Take(whole[..k], 15) == SIGNATURE && Take(Drop(whole[..k], 15), 4) == NO_EXTENSION;
    }
  }

  lemma {:induction false} CutOffDoesNotEnd(rows: seq<seq<Field>>, cut: seq<Byte>)
    requires AllEncodable(rows) && cut < Encode(rows)
    ensures !Parse(cut).Ended?
  {
    if Parse(cut).Ended? {
      var others := EndedWasEncoded(cut);
      PrefixOfPrefix(Encode(others), Parse(cut).rest, cut, Encode(rows));
      NoProperPrefix(rows, others);
    }
  }

  lemma {:induction false} PrefixOfPrefix(a: seq<Byte>, b: seq<Byte>, cut: seq<Byte>, whole: seq<Byte>)
    requires cut == a + b && cut < whole
    ensures a < whole
  {}

  /** An encoding that is cut off anywhere after its header makes the parser yield rows for ever. */
  lemma {:induction false} CutOffNeverEnds(rows: seq<seq<Field>>, k: nat)
    requires AllEncodable(rows) && k < |Encode(rows)|
    ensures Parse(Encode(rows)[..k]) == if k < 19 then Rejected else Endless
  {
    HeaderCutOff(EncodeRows(rows), k);
    CutOffDoesNotEnd(rows, Encode(rows)[..k]);
  }

  // ----- The parser as it advances a stream -----

  /** A stream of bytes and the position up to which it has been read. */
  class Stream {
    const data: seq<Byte>
    var pos: nat

    ghost predicate Valid()
      reads this
    {
      pos <= |data|
    }

    /** The bytes that have not been read. */
    ghost function Unread(): seq<Byte>
      requires Valid()
      reads this
    {
      data[pos..]
    }

    constructor (data: seq<Byte>)
      ensures Valid() && this.data == data && Unread() == data
    {
      this.data := data;
      pos := 0;
    }

    method Rewind()
      modifies this
      ensures Valid() && Unread() == data
    {
      pos := 0;
    }

    method Read(k: nat) returns (bytes: seq<Byte>)
      requires Valid()
      modifies this
      ensures Valid() && bytes == Take(old(Unread()), k) && Unread() == Drop(old(Unread()), k)
    {
      var end := if pos + k <= |data| then pos + k else |data|;
      bytes := data[pos..end];
      pos := end;
    }
  }

  method ReadValues(stream: Stream, n: nat) returns (values: seq<Field>)
    requires stream.Valid()
    modifies stream
    ensures stream.Valid() && Fields(values, stream.Unread()) == ReadFields(old(stream.Unread()), n)
  {
    values := [];
    for i := 0 to n
      invariant stream.Valid() && Fields(values, stream.Unread()) == ReadFields(old(stream.Unread()), i)
    {
      var size := stream.Read(4);
      var value := stream.Read(FromBigEndian(size));
      values := values + [value];
    }
  }

  /** The fields of a row. */
  function FieldsOf(row: Row): seq<Field> {
    match row
    case Single(value) => [value]
    case Multiple(values) => values
  }

  /**
   Two bytes, the high one first, say how many fields the next row has, or that there is none; then
   the first field, if there is one, starts with its size in four bytes.
   */
  ghost predicate StartsRow(s: seq<Byte>, row: Option<Row>)
    requires |s| >= 2
  {
    var n := 256 * (s[0] as int) + s[1] as int;
    && (row.None? <==> n == 65535)
    && (row.Some? ==> |FieldsOf(row.value)| == n && (row.value.Single? <==> n == 1))
    && (row.Some? && n > 0 && |s| >= 6 ==> StartsField(s, FieldsOf(row.value)[0]))
  }

  ghost predicate StartsField(s: seq<Byte>, field: Field)
    requires |s| >= 6
  {
    var size := ((s[2] as int * 256 + s[3] as int) * 256 + s[4] as int) * 256 + s[5] as int;
    field == if 6 + size <= |s| then s[6..6 + size] else s[6..]
  }

  lemma {:induction false} FieldStarts(s: seq<Byte>, n: nat)
    requires |s| >= 6 && n > 0
    ensures StartsField(s, ReadFields(s[2..], n).values[0])
  {
    FirstField(s[2..], n);
    var size := Long(s[2], s[3], s[4], s[5]);
    assert s[2..][4..] == s[6..];
    if 6 + size <= |s| {
      assert s[6..][..size] == s[6..6 + size];
    }
  }

  lemma {:induction false} FirstField(s: seq<Byte>, n: nat)
    requires n > 0 && |s| >= 4
    ensures ReadFields(s, n).values[0] == Take(s[4..], Long(s[0], s[1], s[2], s[3]))
  {
    if n > 1 {
      FirstField(s, n - 1);
    } else {
      FieldIsRead(s);
    }
  }

  /** Every field is read like this: its size in four bytes, the high one first, and that many bytes. */
  lemma {:induction false} FieldIsRead(s: seq<Byte>)
    ensures |s| >= 4 ==> var size := Long(s[0], s[1], s[2], s[3]);
              ReadField(s) == Fields([Take(s[4..], size)], Drop(s[4..], size))
    ensures |s| < 4 ==> ReadField(s) == Fields([[]], [])
  {
    if |s| >= 4 {
      FourBytes(s[..4]);
    }
  }

  lemma {:induction false} CountIsRead(s: seq<Byte>)
    requires |s| >= 2
    ensures FromBigEndian(Take(s, 2)) == Short(s[0], s[1])
  {
    TwoBytes(s[..2]);
  }

  /** Every row is parsed like this: the number of its fields in two bytes, the high one first, and its fields. */
  lemma {:induction false} RowIsParsed(s: seq<Byte>)
    requires |s| >= 2
    ensures Short(s[0], s[1]) == 65535 ==> ParseRows(s) == Ended([], s[2..])
    ensures Short(s[0], s[1]) != 65535 ==>
              var fields := ReadFields(s[2..], Short(s[0], s[1]));
              ParseRows(s) == After([Unwrap(fields.values)], ParseRows(fields.rest))
  {
    CountIsRead(s);
  }

  lemma {:induction false} RowStarts(s: seq<Byte>, values: seq<Field>)
    requires |s| >= 2 && FromBigEndian(Take(s, 2)) != TRAILER
    requires values == ReadFields(s[2..], FromBigEndian(Take(s, 2))).values
    ensures StartsRow(s, Some(Unwrap(values)))
  {
    CountIsRead(s);
    if |values| > 0 && |s| >= 6 {
      FieldStarts(s, |values|);
    }
  }

  lemma {:induction false} NoRowStarts(s: seq<Byte>)
    requires FromBigEndian(Take(s, 2)) == TRAILER
    ensures |s| >= 2 && StartsRow(s, None)
  {
    TrailerWasThere(s);
    CountIsRead(s);
  }

  /**
   One step of the generator: the next row, or none at the trailer. A step that yields a row reads
   something, unless the stream is at its end: then it yields a row without fields and stays there.
   */
  method NextRow(stream: Stream) returns (row: Option<Row>)
    requires stream.Valid()
    modifies stream
    ensures stream.Valid()
    ensures row.None? ==> ParseRows(old(stream.Unread())) == Ended([], stream.Unread())
    ensures row.Some? ==> ParseRows(old(stream.Unread())) == After([row.value], ParseRows(stream.Unread()))
    ensures old(stream.Unread()) != [] ==> |stream.Unread()| < |old(stream.Unread())|
    ensures old(stream.Unread()) == [] ==> row == Some(Multiple([])) && stream.Unread() == []
    ensures |old(stream.Unread())| >= 2 ==> StartsRow(old(stream.Unread()), row)
  {
    ghost var s := stream.Unread();
    var count := stream.Read(2);
    var n := FromBigEndian(count);
    if n == TRAILER {
      NoRowStarts(s);
      return None;
    }
    var values := ReadValues(stream, n);
    if s == [] {
      assert n == 0;
    } else if |s| >= 2 {
      RowStarts(s, values);
    }
    return Some(if n == 1 then Single(values[0]) else Multiple(values));
  }

  lemma {:induction false} AfterBoth(rows: seq<Row>, more: seq<Row>, p: Parsed)
    ensures After(rows, After(more, p)) == After(rows + more, p)
  {
    if p.Ended? {
      assert rows + (more + p.rows) == (rows + more) + p.rows;
    }
  }

  /** The header is read first, and nothing else is looked at if it is wrong. */
  method ReadHeader(stream: Stream) returns (ok: bool)
    requires stream.Valid()
    modifies stream
    ensures stream.Valid() && (ok <==> !Parse(stream.data).Rejected?)
    ensures ok ==> Parse(stream.data) == ParseRows(stream.Unread())
  {
    stream.Rewind();
    var signature := stream.Read(15);
    if signature != SIGNATURE {
      return false;
    }
    var extension := stream.Read(4);
    ok := extension == NO_EXTENSION;
  }

  /** All rows of a stream. Where the parser would go on for ever, this reports that it does. */
  method ParseStream(stream: Stream) returns (p: Parsed)
    requires stream.Valid()
    modifies stream
    ensures stream.Valid() && p == Parse(stream.data)
    ensures p.Ended? ==> stream.Unread() == p.rest
  {
    var ok := ReadHeader(stream);
    if !ok {
      return Rejected;
    }
    var rows: seq<Row> := [];
    while stream.pos < |stream.data|
      invariant stream.Valid() && Parse(stream.data) == After(rows, ParseRows(stream.Unread()))
      decreases |stream.data| - stream.pos
    {
      var row := NextRow(stream);
      if row.None? {
        assert rows + [] == rows;
        return Ended(rows, stream.data[stream.pos..]);
      }
      AfterBoth(rows, [row.value], ParseRows(stream.Unread()));
      rows := rows + [row.value];
    }
    return Endless;
  }
}
