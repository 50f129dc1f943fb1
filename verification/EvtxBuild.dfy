/** The builder of one-chunk fixtures, and that the validator accepts what it builds. */
module EvtxBuild {
  import opened Common
  import opened Bytes
  import opened Evtx

  const FILETIME := 134049168000000000

  /** The size of a record around a body: header, trailing length, rounded up to eight bytes. */
  function RecordSize(body: nat): nat {
    (24 + body + 4 + 7) / 8 * 8
  }

  function Record(body: seq<Byte>, id: nat): (s: seq<Byte>)
    ensures |s| == RecordSize(|body|)
  {
    var size := RecordSize(|body|);
    Four(Pack(4, MAGIC), Pack(4, size), Pack(8, id), Pack(8, FILETIME))
    + Four(body, Zeros(size - 28 - |body|), Pack(4, size), [])
  }

  /** Where record i starts, for bodies that may depend on the record's id and place. */
  function Position<E>(events: seq<E>, body: (E, nat, nat) -> seq<Byte>, i: nat): nat
    requires i <= |events|
  {
    if i == 0 then RECORDS_AT
    else
      var before := Position(events, body, i - 1);
      before + RecordSize(|body(events[i - 1], i, before)|)
  }

  function ChunkFields(n: nat, last: nat, free: nat, sum: U32): (s: seq<Byte>)
    ensures |s| == 48
  {
    Four(Pack(8, 1), Pack(8, n), Pack(8, 1), Pack(8, n))
    + Four(Pack(4, 128), Pack(4, last), Pack(4, free), Pack(4, sum))
  }

  function FileFields(n: nat): (s: seq<Byte>)
    ensures |s| == 36
  {
    Four(Pack(8, 0), Pack(8, 0), Pack(8, n + 1), Pack(4, 128))
    + Four(Pack(2, 1), Pack(2, 3), Pack(2, 4096), Pack(2, 1))
  }

  // ---------------------------------------------------------------- reading back

  lemma SubField(c: seq<Byte>, at: nat, part: seq<Byte>, offset: nat, width: nat)
    requires at + |part| <= |c| && c[at..at + |part|] == part && offset + width <= |part|
    ensures Field(c, at + offset, width) == LittleEndian(part[offset..offset + width])
  {
    SliceOfSlice(c, at, at + |part|, offset, offset + width);
  }

  lemma Ranges()
    ensures Range(2) == 0x1_0000 && Range(4) == 0x1_0000_0000 && Range(8) == 0x1_0000_0000_0000_0000
  {
    assert Range(2) == 0x1_0000;
    assert Range(4) == 256 * (256 * Range(2));
    assert Range(6) == 256 * (256 * Range(4));
    assert Range(8) == 256 * (256 * Range(6));
  }

  lemma RecordFields(body: seq<Byte>, id: nat)
    ensures
      var s, size := Record(body, id), RecordSize(|body|);
      && |s| == size >= 32
      && s[0..4] == Pack(4, MAGIC) && s[4..8] == Pack(4, size) && s[8..16] == Pack(8, id)
      && s[24..24 + |body|] == body && s[size - 4..size] == Pack(4, size)
  {
    hide Pack, Four;
    var size := RecordSize(|body|);
    var head := Four(Pack(4, MAGIC), Pack(4, size), Pack(8, id), Pack(8, FILETIME));
    var tail := Four(body, Zeros(size - 28 - |body|), Pack(4, size), []);
    FourParts(Pack(4, MAGIC), Pack(4, size), Pack(8, id), Pack(8, FILETIME));
    FourParts(body, Zeros(size - 28 - |body|), Pack(4, size), []);
    SliceLeft(head, tail, 0, 4);
    SliceLeft(head, tail, 4, 8);
    SliceLeft(head, tail, 8, 16);
    SliceRight(head, tail, 24, 24 + |body|);
    SliceRight(head, tail, size - 4, size);
  }

  lemma RecordReadsBack(c: seq<Byte>, at: nat, end: nat, body: seq<Byte>, id: nat)
    requires at + RecordSize(|body|) <= end <= |c| <= CHUNK && id < CHUNK
    requires c[at..at + RecordSize(|body|)] == Record(body, id)
    ensures RecordAt(c, at, end) && LengthAt(c, at) == RecordSize(|body|) && IdAt(c, at) == id
  {
    hide Record, Pack, LittleEndian, Range;
    var s, size := Record(body, id), RecordSize(|body|);
    RecordFields(body, id);
    Ranges();
    SubField(c, at, s, 0, 4);
    SubField(c, at, s, 4, 4);
    SubField(c, at, s, 8, 8);
    SubField(c, at, s, size - 4, 4);
    PackRoundTrip(4, MAGIC);
    PackRoundTrip(4, size);
    PackRoundTrip(8, id);
  }

  lemma ChunkFieldsRead(n: nat, last: nat, free: nat, sum: U32)
    ensures
      var s := ChunkFields(n, last, free, sum);
      && s[0..8] == Pack(8, 1) && s[8..16] == Pack(8, n) && s[16..24] == Pack(8, 1) && s[24..32] == Pack(8, n)
      && s[32..36] == Pack(4, 128) && s[36..40] == Pack(4, last) && s[40..44] == Pack(4, free)
      && s[44..48] == Pack(4, sum)
  {
    hide Pack, Four;
    FourParts(Pack(8, 1), Pack(8, n), Pack(8, 1), Pack(8, n));
    FourParts(Pack(4, 128), Pack(4, last), Pack(4, free), Pack(4, sum));
    var x := Four(Pack(8, 1), Pack(8, n), Pack(8, 1), Pack(8, n));
    var y := Four(Pack(4, 128), Pack(4, last), Pack(4, free), Pack(4, sum));
    SliceLeft(x, y, 0, 8);
    SliceLeft(x, y, 8, 16);
    SliceLeft(x, y, 16, 24);
    SliceLeft(x, y, 24, 32);
    SliceRight(x, y, 32, 36);
    SliceRight(x, y, 36, 40);
    SliceRight(x, y, 40, 44);
    SliceRight(x, y, 44, 48);
  }

  lemma FileFieldsRead(n: nat)
    ensures
      var s := FileFields(n);
      && s[0..8] == Pack(8, 0) && s[8..16] == Pack(8, 0) && s[16..24] == Pack(8, n + 1) && s[24..28] == Pack(4, 128)
      && s[28..30] == Pack(2, 1) && s[30..32] == Pack(2, 3) && s[32..34] == Pack(2, 4096) && s[34..36] == Pack(2, 1)
  {
    hide Pack, Four;
    FourParts(Pack(8, 0), Pack(8, 0), Pack(8, n + 1), Pack(4, 128));
    FourParts(Pack(2, 1), Pack(2, 3), Pack(2, 4096), Pack(2, 1));
    var x := Four(Pack(8, 0), Pack(8, 0), Pack(8, n + 1), Pack(4, 128));
    var y := Four(Pack(2, 1), Pack(2, 3), Pack(2, 4096), Pack(2, 1));
    SliceLeft(x, y, 0, 8);
    SliceLeft(x, y, 8, 16);
    SliceLeft(x, y, 16, 24);
    SliceLeft(x, y, 24, 28);
    SliceRight(x, y, 28, 30);
    SliceRight(x, y, 30, 32);
    SliceRight(x, y, 32, 34);
    SliceRight(x, y, 34, 36);
  }

  /** The chunk header reads back as what was packed. */
  lemma ChunkReadsBack(c: seq<Byte>, n: nat, last: nat, free: nat, sum: U32)
    requires |c| == CHUNK && c[8..56] == ChunkFields(n, last, free, sum)
    requires n < CHUNK && last <= CHUNK && free <= CHUNK
    ensures Field(c, 8, 8) == 1 && Field(c, 16, 8) == n && Field(c, 24, 8) == 1 && Field(c, 32, 8) == n
    ensures Field(c, 40, 4) == 128 && LastOffset(c) == last && Free(c) == free && Field(c, 52, 4) == sum
  {
    hide ChunkFields, Pack, LittleEndian, Range;
    var s := ChunkFields(n, last, free, sum);
    ChunkFieldsRead(n, last, free, sum);
    Ranges();
    SubField(c, 8, s, 0, 8);
    SubField(c, 8, s, 8, 8);
    SubField(c, 8, s, 16, 8);
    SubField(c, 8, s, 24, 8);
    SubField(c, 8, s, 32, 4);
    SubField(c, 8, s, 36, 4);
    SubField(c, 8, s, 40, 4);
    SubField(c, 8, s, 44, 4);
    PackRoundTrip(8, 1);
    PackRoundTrip(8, n);
    PackRoundTrip(4, 128);
    PackRoundTrip(4, last);
    PackRoundTrip(4, free);
    PackRoundTrip(4, sum);
  }

  lemma FileReadsBack(raw: seq<Byte>, n: nat)
    requires |raw| >= FILE_HEADER && raw[8..44] == FileFields(n) && n < CHUNK
    ensures Field(raw, 8, 8) == 0 && Field(raw, 16, 8) == 0 && Field(raw, 24, 8) == n + 1
    ensures Field(raw, 32, 4) == 128 && Field(raw, 36, 2) == 1 && Field(raw, 38, 2) == 3
    ensures Field(raw, 40, 2) == 4096 && Field(raw, 42, 2) == 1
  {
    hide FileFields, Pack, LittleEndian, Range;
    var s := FileFields(n);
    FileFieldsRead(n);
    Ranges();
    SubField(raw, 8, s, 0, 8);
    SubField(raw, 8, s, 8, 8);
    SubField(raw, 8, s, 16, 8);
    SubField(raw, 8, s, 24, 4);
    SubField(raw, 8, s, 28, 2);
    SubField(raw, 8, s, 30, 2);
    SubField(raw, 8, s, 32, 2);
    SubField(raw, 8, s, 34, 2);
    PackRoundTrip(8, 0);
    PackRoundTrip(8, n + 1);
    PackRoundTrip(4, 128);
    PackRoundTrip(2, 1);
    PackRoundTrip(2, 3);
    PackRoundTrip(2, 4096);
  }

  // ---------------------------------------------------------------- tiling

  /** The records that the builder places: ids from one, at consecutive positions. */
  function Placed<E>(events: seq<E>, body: (E, nat, nat) -> seq<Byte>, n: nat): (recs: seq<Rec>)
    requires n <= |events|
    ensures |recs| == n
    ensures forall i :: 0 <= i < n ==> recs[i] == Rec(Position(events, body, i), i + 1)
  {
    seq(n, i requires 0 <= i < n => Rec(Position(events, body, i), i + 1))
  }

  ghost predicate Written<E>(c: seq<Byte>, events: seq<E>, body: (E, nat, nat) -> seq<Byte>, i: nat)
    requires i < |events|
  {
    var at, next := Position(events, body, i), Position(events, body, i + 1);
    next <= |c| && c[at..next] == Record(body(events[i], i + 1, at), i + 1)
  }

  lemma {:induction false} PositionsGrow<E>(events: seq<E>, body: (E, nat, nat) -> seq<Byte>, i: nat, j: nat)
    requires i <= j <= |events|
    ensures RECORDS_AT + 32 * i <= Position(events, body, i)
    ensures Position(events, body, i) + 32 * (j - i) <= Position(events, body, j)
    decreases j
  {
    if i < j {
      PositionsGrow(events, body, i, j - 1);
    } else if i > 0 {
      PositionsGrow(events, body, i - 1, i - 1);
    }
  }

  lemma FirstPosition<E>(events: seq<E>, body: (E, nat, nat) -> seq<Byte>)
    ensures Position(events, body, 0) == RECORDS_AT
  {
  }

  lemma NextPosition<E>(events: seq<E>, body: (E, nat, nat) -> seq<Byte>, i: nat)
    requires i < |events|
    ensures
      var at := Position(events, body, i);
      Position(events, body, i + 1) == at + RecordSize(|body(events[i], i + 1, at)|)
  {
  }

  lemma WrittenTiles<E>(c: seq<Byte>, events: seq<E>, body: (E, nat, nat) -> seq<Byte>)
    requires |c| == CHUNK && Position(events, body, |events|) <= CHUNK
    requires forall i :: 0 <= i < |events| ==> Written(c, events, body, i)
    ensures Tiles(c, RECORDS_AT, Position(events, body, |events|), Placed(events, body, |events|))
  {
    hide Record, RecordAt, LengthAt, IdAt, Placed, Position, RecordSize;
    var n := |events|;
    var end, recs := Position(events, body, n), Placed(events, body, n);
    assert Position(events, body, 0) == RECORDS_AT by {
      FirstPosition(events, body);
    }
    forall i | 0 <= i < n ensures TileAt(c, end, recs, i) {
      var at := Position(events, body, i);
      assert Written(c, events, body, i);
      NextPosition(events, body, i);
      PositionsGrow(events, body, i, n);
      PositionsGrow(events, body, i + 1, n);
      RecordReadsBack(c, at, end, body(events[i], i + 1, at), i + 1);
    }
  }

  // ---------------------------------------------------------------- the built file

  ghost predicate ChunkBuilt<E>(c: seq<Byte>, events: seq<E>, body: (E, nat, nat) -> seq<Byte>, crc: seq<Byte> -> U32) {
    var n := |events|;
    var free := Position(events, body, n);
    && |c| == CHUNK && RECORDS_AT <= free <= CHUNK
    && c[..8] == CHUNK_SIGNATURE
    && c[8..56] == ChunkFields(n, LastPosition(events, body), free, crc(c[RECORDS_AT..free]))
    && c[124..128] == Pack(4, crc(c[..120] + c[128..512]))
    && forall i :: 0 <= i < n ==> Written(c, events, body, i)
  }

  function LastPosition<E>(events: seq<E>, body: (E, nat, nat) -> seq<Byte>): nat {
    if events == [] then RECORDS_AT else Position(events, body, |events| - 1)
  }

  ghost predicate HeaderBuilt(h: seq<Byte>, n: nat, crc: seq<Byte> -> U32) {
    && |h| == FILE_HEADER
    && h[..8] == FILE_SIGNATURE
    && h[8..44] == FileFields(n)
    && (forall i :: 44 <= i < 124 ==> h[i] == 0)
    && h[124..128] == Pack(4, crc(h[..120]))
  }

  /** Writes the records and both headers in place; fails when the records do not fit one chunk. */
  method Build<E>(events: seq<E>, body: (E, nat, nat) -> seq<Byte>, crc: seq<Byte> -> U32)
    returns (r: Option<seq<Byte>>)
    ensures r.None? <==> Position(events, body, |events|) > CHUNK
    ensures r.Some? ==>
      && |r.value| == FILE_HEADER + CHUNK
      && HeaderBuilt(r.value[..FILE_HEADER], |events|, crc)
      && ChunkBuilt(r.value[FILE_HEADER..], events, body, crc)
  {
    var chunk, position, last := WriteRecords(events, body);
    if position > CHUNK {
      return None;
    }
    PositionsGrow(events, body, 0, |events|);
    chunk := WriteChunkHeader(chunk, events, body, crc, last, position);
    var header := WriteFileHeader(|events|, crc);
    SliceLeft(header, chunk, 0, FILE_HEADER);
    SliceRight(header, chunk, FILE_HEADER, FILE_HEADER + CHUNK);
    assert (header + chunk)[..FILE_HEADER] == header && (header + chunk)[FILE_HEADER..] == chunk;
    return Some(header + chunk);
  }

  /** The record loop; the buffer only grows past one chunk when the fixture is about to be refused. */
  method WriteRecords<E>(events: seq<E>, body: (E, nat, nat) -> seq<Byte>)
    returns (chunk: seq<Byte>, position: nat, last: nat)
    ensures position == Position(events, body, |events|) && last == LastPosition(events, body)
    ensures position <= CHUNK ==> |chunk| == CHUNK
    ensures position <= |chunk| && |chunk| >= CHUNK && chunk[..8] == CHUNK_SIGNATURE
    ensures forall i :: 0 <= i < |events| ==> Written(chunk, events, body, i)
  {
    hide Record, RecordSize;
    chunk := Splice(Zeros(CHUNK), 0, CHUNK_SIGNATURE);
    position, last := RECORDS_AT, RECORDS_AT;
    for i := 0 to |events|
      invariant position == Position(events, body, i) >= RECORDS_AT
      invariant last == if i == 0 then RECORDS_AT else Position(events, body, i - 1)
      invariant position <= CHUNK ==> |chunk| == CHUNK
      invariant position <= |chunk| && |chunk| >= CHUNK && chunk[..8] == CHUNK_SIGNATURE
      invariant forall j :: 0 <= j < i ==> Written(chunk, events, body, j)
    {
      var entry := Record(body(events[i], i + 1, position), i + 1);
      var after := Splice(chunk, position, entry);
      NextPosition(events, body, i);
      SpliceWritten(chunk, position, entry);
      forall j | 0 <= j < i + 1 ensures Written(after, events, body, j) {
        if j < i {
          assert Written(chunk, events, body, j);
          PositionsGrow(events, body, j, j + 1);
          PositionsGrow(events, body, j + 1, i);
          StillWritten(chunk, after, events, body, j, position);
        }
      }
      chunk := after;
      last := position;
      position := position + |entry|;
    }
  }

  lemma StillWritten<E>(c: seq<Byte>, d: seq<Byte>, events: seq<E>, body: (E, nat, nat) -> seq<Byte>, i: nat, upTo: nat)
    requires i < |events| && Written(c, events, body, i)
    requires RECORDS_AT <= Position(events, body, i) <= Position(events, body, i + 1) <= upTo <= |c| && upTo <= |d|
    requires forall k :: RECORDS_AT <= k < upTo ==> d[k] == c[k]
    ensures Written(d, events, body, i)
  {
    hide Record, Position;
    var at, next := Position(events, body, i), Position(events, body, i + 1);
    assert d[at..next] == c[at..next];
  }

  method WriteChunkHeader<E>(
    records: seq<Byte>, events: seq<E>, body: (E, nat, nat) -> seq<Byte>, crc: seq<Byte> -> U32, last: nat, free: nat)
    returns (c: seq<Byte>)
    requires |records| == CHUNK && records[..8] == CHUNK_SIGNATURE
    requires RECORDS_AT <= free == Position(events, body, |events|) <= CHUNK && last == LastPosition(events, body)
    requires forall i :: 0 <= i < |events| ==> Written(records, events, body, i)
    ensures ChunkBuilt(c, events, body, crc)
  {
    hide ChunkFields, Pack, Position, Splice;
    var fields := ChunkFields(|events|, last, free, crc(records[RECORDS_AT..free]));
    c := Splice(records, 8, fields);
    SpliceWritten(records, 8, fields);
    SpliceElsewhere(records, 8, fields, 0, 8);
    SpliceElsewhere(records, 8, fields, RECORDS_AT, free);
    SpliceElsewhere(records, 8, fields, RECORDS_AT, CHUNK);
    var sum := Pack(4, crc(c[..120] + c[128..512]));
    var d := Splice(c, 124, sum);
    SpliceWritten(c, 124, sum);
    SpliceElsewhere(c, 124, sum, 0, 8);
    SpliceElsewhere(c, 124, sum, 8, 56);
    SpliceElsewhere(c, 124, sum, 0, 120);
    SpliceElsewhere(c, 124, sum, 128, 512);
    SpliceElsewhere(c, 124, sum, RECORDS_AT, free);
    forall i | 0 <= i < |events| ensures Written(d, events, body, i) {
      assert Written(records, events, body, i);
      PositionsGrow(events, body, i, i + 1);
      PositionsGrow(events, body, i + 1, |events|);
      StillWritten(records, d, events, body, i, free);
    }
    c := d;
  }

  method WriteFileHeader(n: nat, crc: seq<Byte> -> U32) returns (h: seq<Byte>)
    ensures HeaderBuilt(h, n, crc)
  {
    hide FileFields, Pack;
    h := Splice(Zeros(FILE_HEADER), 0, FILE_SIGNATURE);
    h := Splice(h, 8, FileFields(n));
    var sum := Pack(4, crc(h[..120]));
    ghost var before := h;
    h := Splice(h, 124, sum);
    assert h[..120] == before[..120];
  }

  // ---------------------------------------------------------------- acceptance

  lemma BuiltChunkHasLayout<E>(c: seq<Byte>, events: seq<E>, body: (E, nat, nat) -> seq<Byte>, crc: seq<Byte> -> U32)
    requires ChunkBuilt(c, events, body, crc)
    ensures |c| == CHUNK
    ensures events == [] ==> !ChunkHead(c, crc)
    ensures events != [] ==> ChunkLayout(c, crc, Placed(events, body, |events|))
  {
    hide ChunkFields, Pack, Position, Placed, LittleEndian, Range, Tiles, Written;
    var n := |events|;
    var free, last := Position(events, body, n), LastPosition(events, body);
    PositionsGrow(events, body, 0, n);
    FirstPosition(events, body);
    if n > 0 {
      PositionsGrow(events, body, n - 1, n);
      PositionsGrow(events, body, 0, n - 1);
    }
    ChunkReadsBack(c, n, last, free, crc(c[RECORDS_AT..free]));
    Ranges();
    SubField(c, 124, Pack(4, crc(c[..120] + c[128..512])), 0, 4);
    PackRoundTrip(4, crc(c[..120] + c[128..512]));
    WrittenTiles(c, events, body);
  }

  lemma BuiltHeaderHasLayout(raw: seq<Byte>, n: nat, crc: seq<Byte> -> U32)
    requires |raw| == FILE_HEADER + CHUNK && HeaderBuilt(raw[..FILE_HEADER], n, crc) && n < CHUNK
    ensures FileHead(raw, crc) && ChunkCount(raw) == 1 && Field(raw, 24, 8) == n + 1
  {
    hide FileFields, Pack, LittleEndian, Range;
    var h := raw[..FILE_HEADER];
    assert raw[8..44] == h[8..44] && raw[..8] == h[..8] && raw[..120] == h[..120] && raw[124..128] == h[124..128];
    FileReadsBack(raw, n);
    ZerosAreZero(raw[120..124]);
    Ranges();
    SubField(raw, 124, Pack(4, crc(raw[..120])), 0, 4);
    PackRoundTrip(4, crc(raw[..120]));
  }

  /** A built file has a layout exactly when it has events and no more than the limit, and then this one only. */
  lemma BuiltFileHasLayout<E>(
    raw: seq<Byte>, events: seq<E>, body: (E, nat, nat) -> seq<Byte>, crc: seq<Byte> -> U32, maxRecords: nat)
    requires |raw| == FILE_HEADER + CHUNK
    requires HeaderBuilt(raw[..FILE_HEADER], |events|, crc) && ChunkBuilt(raw[FILE_HEADER..], events, body, crc)
    ensures events != [] && |events| <= maxRecords ==>
      Layout(raw, crc, maxRecords, [Placed(events, body, |events|)])
    ensures forall parts :: Layout(raw, crc, maxRecords, parts) ==>
      && events != [] && |events| <= maxRecords
      && parts == [Placed(events, body, |events|)]
  {
    hide HeaderBuilt, ChunkBuilt, ChunkLayout, Placed, Position, FileHead, Increasing;
    var n, c, recs := |events|, raw[FILE_HEADER..], Placed(events, body, |events|);
    EventsFit(c, events, body, crc);
    BuiltHeaderHasLayout(raw, n, crc);
    BuiltChunkHasLayout(c, events, body, crc);
    assert ChunkAt(raw, 0) == c;
    ConcatenatedOne(recs, 0);
    PlacedIncreases(events, body);
    forall parts | Layout(raw, crc, maxRecords, parts)
      ensures events != [] && |events| <= maxRecords && parts == [recs]
    {
      assert ChunkLayout(ChunkAt(raw, 0), crc, parts[0]);
      HeadOfLayout(c, crc, parts[0]);
      OneLayoutPerChunk(c, crc, recs, parts[0]);
      assert parts == [parts[0]];
    }
  }

  lemma HeadOfLayout(c: seq<Byte>, crc: seq<Byte> -> U32, recs: seq<Rec>)
    requires |c| == CHUNK && ChunkLayout(c, crc, recs)
    ensures ChunkHead(c, crc)
  {
  }

  lemma EventsFit<E>(c: seq<Byte>, events: seq<E>, body: (E, nat, nat) -> seq<Byte>, crc: seq<Byte> -> U32)
    requires ChunkBuilt(c, events, body, crc)
    ensures |events| < CHUNK
  {
    PositionsGrow(events, body, 0, |events|);
  }

  lemma PlacedIncreases<E>(events: seq<E>, body: (E, nat, nat) -> seq<Byte>)
    ensures Increasing(InChunk(Placed(events, body, |events|), 0))
  {
  }

  /** Building and then validating: accepted exactly when the events fit, with ids 1..n where they were placed. */
  method BuildThenValidate<E>(
    events: seq<E>, body: (E, nat, nat) -> seq<Byte>, crc: seq<Byte> -> U32, maxRecords: nat)
    returns (frames: Option<seq<Frame>>)
    ensures frames.Some? <==> 0 < |events| <= maxRecords && Position(events, body, |events|) <= CHUNK
    ensures frames.Some? ==>
      && |frames.value| == |events|
      && forall i :: 0 <= i < |events| ==> frames.value[i] == Frame(i + 1, 0, Position(events, body, i))
  {
    hide HeaderBuilt, ChunkBuilt, Layout, Position;
    var built := Build(events, body, crc);
    if built.None? {
      return None;
    }
    BuiltFileHasLayout(built.value, events, body, crc, maxRecords);
    frames := ValidateEvtx(built.value, crc, maxRecords);
    ConcatenatedOne(Placed(events, body, |events|), 0);
  }
}
