/** Framing of clean EVTX exports: the accepted layout, and the validator that decides it. */
module Evtx {
  import opened Common
  import opened Bytes

  const MAX_BYTES := 8 * 1024 * 1024
  const FILE_HEADER := 4096
  const CHUNK := 65536
  const RECORDS_AT := 512
  const MAGIC := 0x2A2A

  /** The eight bytes of "ElfFile" and "ElfChnk", zero-terminated. */
  const FILE_SIGNATURE: seq<Byte> := [0x45, 0x6C, 0x66, 0x46, 0x69, 0x6C, 0x65, 0]
  const CHUNK_SIGNATURE: seq<Byte> := [0x45, 0x6C, 0x66, 0x43, 0x68, 0x6E, 0x6B, 0]

  /** A record inside a chunk, and a record of the file. */
  datatype Rec = Rec(offset: nat, id: nat)
  datatype Frame = Frame(id: nat, chunk: nat, offset: nat)

  // ---------------------------------------------------------------- layout

  predicate FileHead(raw: seq<Byte>, crc: seq<Byte> -> U32) {
    && FILE_HEADER <= |raw| <= MAX_BYTES && (|raw| - FILE_HEADER) % CHUNK == 0
    && raw[..8] == FILE_SIGNATURE
    && ((Field(raw, 38, 2) == 3 && Field(raw, 36, 2) == 1) || (Field(raw, 38, 2) == 3 && Field(raw, 36, 2) == 2))
    && Field(raw, 32, 4) == 128 && Field(raw, 40, 2) == 4096
    && Field(raw, 120, 4) == 0 && Field(raw, 8, 8) == 0
    && crc(raw[..120]) == Field(raw, 124, 4)
    && Field(raw, 42, 2) > 0
    && Field(raw, 42, 2) == (|raw| - FILE_HEADER) / CHUNK
    && Field(raw, 16, 8) == Field(raw, 42, 2) - 1
  }

  function ChunkCount(raw: seq<Byte>): nat
    requires |raw| >= FILE_HEADER
  {
    (|raw| - FILE_HEADER) / CHUNK
  }

  function ChunkAt(raw: seq<Byte>, k: nat): (c: seq<Byte>)
    requires |raw| >= FILE_HEADER && k < ChunkCount(raw)
    ensures |c| == CHUNK
  {
    raw[FILE_HEADER + k * CHUNK..FILE_HEADER + (k + 1) * CHUNK]
  }

  function LastOffset(c: seq<Byte>): nat
    requires |c| == CHUNK
  {
    Field(c, 44, 4)
  }

  function Free(c: seq<Byte>): nat
    requires |c| == CHUNK
  {
    Field(c, 48, 4)
  }

  predicate ChunkHead(c: seq<Byte>, crc: seq<Byte> -> U32)
    requires |c| == CHUNK
  {
    && c[..8] == CHUNK_SIGNATURE
    && Field(c, 40, 4) == 128
    && RECORDS_AT <= LastOffset(c) < Free(c) <= CHUNK
    && crc(c[RECORDS_AT..Free(c)]) == Field(c, 52, 4)
    && crc(c[..120] + c[128..512]) == Field(c, 124, 4)
  }

  function LengthAt(c: seq<Byte>, offset: nat): nat
    requires offset + 28 <= |c|
  {
    Field(c, offset + 4, 4)
  }

  function IdAt(c: seq<Byte>, offset: nat): nat
    requires offset + 28 <= |c|
  {
    Field(c, offset + 8, 8)
  }

  /** A whole record starts at offset and ends no later than end. */
  predicate RecordAt(c: seq<Byte>, offset: nat, end: nat)
    requires end <= |c|
  {
    && offset + 28 <= end
    && Field(c, offset, 4) == MAGIC
    && LengthAt(c, offset) >= 32 && LengthAt(c, offset) % 8 == 0
    && offset + LengthAt(c, offset) <= end
    && Field(c, offset + LengthAt(c, offset) - 4, 4) == LengthAt(c, offset)
  }

  /** Record i is as its bytes say and ends where the next one starts, the last one at the end. */
  ghost predicate TileAt(c: seq<Byte>, end: nat, recs: seq<Rec>, i: nat)
    requires end <= |c| && i < |recs|
  {
    && RecordAt(c, recs[i].offset, end)
    && recs[i].id == IdAt(c, recs[i].offset)
    && recs[i].offset + LengthAt(c, recs[i].offset) == if i + 1 < |recs| then recs[i + 1].offset else end
  }

  /** The records cover the bytes from start to end with no gap and no overlap. */
  ghost predicate Tiles(c: seq<Byte>, start: nat, end: nat, recs: seq<Rec>)
    requires end <= |c|
  {
    && (if recs == [] then start == end else recs[0].offset == start)
    && forall i :: 0 <= i < |recs| ==> TileAt(c, end, recs, i)
  }

  /** What the chunk header claims about its records. */
  predicate ChunkTail(c: seq<Byte>, recs: seq<Rec>)
    requires |c| == CHUNK
  {
    && |recs| > 0
    && recs[|recs| - 1].offset == LastOffset(c)
    && Field(c, 16, 8) >= Field(c, 8, 8) && Field(c, 16, 8) - Field(c, 8, 8) + 1 == |recs|
    && Field(c, 24, 8) == recs[0].id
    && Field(c, 32, 8) == recs[|recs| - 1].id
  }

  ghost predicate ChunkLayout(c: seq<Byte>, crc: seq<Byte> -> U32, recs: seq<Rec>)
    requires |c| == CHUNK
  {
    ChunkHead(c, crc) && Tiles(c, RECORDS_AT, Free(c), recs) && ChunkTail(c, recs)
  }

  function InChunk(recs: seq<Rec>, k: nat): (fs: seq<Frame>)
    ensures |fs| == |recs|
    ensures forall i :: 0 <= i < |recs| ==> fs[i] == Frame(recs[i].id, k, recs[i].offset)
  {
    seq(|recs|, i requires 0 <= i < |recs| => Frame(recs[i].id, k, recs[i].offset))
  }

  /** The frames of consecutive chunks, from chunk k on. */
  function Concatenated(parts: seq<seq<Rec>>, k: nat): seq<Frame> {
    if parts == [] then [] else InChunk(parts[0], k) + Concatenated(parts[1..], k + 1)
  }

  /** The id of the frame before position i, or zero. */
  function LastIdBefore(frames: seq<Frame>, i: nat): nat
    requires i <= |frames|
  {
    if i == 0 then 0 else frames[i - 1].id
  }

  /** Record ids start above zero and strictly increase across the whole file. */
  ghost predicate Increasing(frames: seq<Frame>) {
    forall i {:trigger frames[i]} :: 0 <= i < |frames| ==> frames[i].id > LastIdBefore(frames, i)
  }

  /** The declared layout: parts lists the records of each chunk. */
  ghost predicate Layout(raw: seq<Byte>, crc: seq<Byte> -> U32, maxRecords: nat, parts: seq<seq<Rec>>) {
    && FileHead(raw, crc)
    && |parts| == ChunkCount(raw)
    && (forall k :: 0 <= k < |parts| ==> ChunkLayout(ChunkAt(raw, k), crc, parts[k]))
    && var frames := Concatenated(parts, 0);
       && |frames| <= maxRecords
       && Increasing(frames)
       && frames != []
       && Field(raw, 24, 8) == frames[|frames| - 1].id + 1
  }

  // ---------------------------------------------------------------- scanning one chunk

  /** Reading records one after another. */
  function Scan(c: seq<Byte>, offset: nat, end: nat): Option<seq<Rec>>
    requires offset <= end <= |c|
    decreases end - offset
  {
    if offset == end then Some([])
    else if !RecordAt(c, offset, end) then None
    else
      match Scan(c, offset + LengthAt(c, offset), end)
      case None => None
      case Some(rest) => Some([Rec(offset, IdAt(c, offset))] + rest)
  }

  /** Scanning finds exactly the tiling, if there is one. */
  lemma ScanIsTiling(c: seq<Byte>, offset: nat, end: nat, recs: seq<Rec>)
    requires offset <= end <= |c|
    ensures Scan(c, offset, end) == Some(recs) <==> Tiles(c, offset, end, recs)
  {
    if Tiles(c, offset, end, recs) {
      TilingIsScanned(c, offset, end, recs);
    }
    if Scan(c, offset, end) == Some(recs) {
      ScannedIsTiling(c, offset, end, recs);
    }
  }

  lemma TilesBehind(c: seq<Byte>, end: nat, recs: seq<Rec>)
    requires end <= |c| && recs != [] && Tiles(c, recs[0].offset, end, recs)
    ensures RecordAt(c, recs[0].offset, end)
    ensures Tiles(c, recs[0].offset + LengthAt(c, recs[0].offset), end, recs[1..])
  {
    hide RecordAt;
    var rest := recs[1..];
    assert TileAt(c, end, recs, 0);
    RecordFits(c, recs[0].offset, end);
    forall i | 0 <= i < |rest| ensures TileAt(c, end, rest, i) {
      assert TileAt(c, end, recs, i + 1);
    }
  }

  lemma RecordFits(c: seq<Byte>, offset: nat, end: nat)
    requires end <= |c| && RecordAt(c, offset, end)
    ensures offset + 28 <= end && offset < offset + LengthAt(c, offset) <= end
  {
  }

  lemma {:induction false} TilingIsScanned(c: seq<Byte>, offset: nat, end: nat, recs: seq<Rec>)
    requires offset <= end <= |c| && Tiles(c, offset, end, recs)
    ensures Scan(c, offset, end) == Some(recs)
    decreases |recs|
  {
    hide RecordAt;
    if recs != [] {
      assert TileAt(c, end, recs, 0);
      TilesBehind(c, end, recs);
      RecordFits(c, offset, end);
      TilingIsScanned(c, offset + LengthAt(c, offset), end, recs[1..]);
      assert recs == [recs[0]] + recs[1..];
    }
  }

  lemma {:induction false} ScannedIsTiling(c: seq<Byte>, offset: nat, end: nat, recs: seq<Rec>)
    requires offset <= end <= |c| && Scan(c, offset, end) == Some(recs)
    ensures Tiles(c, offset, end, recs)
    decreases end - offset
  {
    if offset < end {
      var next := offset + LengthAt(c, offset);
      var rest := Scan(c, next, end).value;
      assert recs == [Rec(offset, IdAt(c, offset))] + rest;
      ScannedIsTiling(c, next, end, rest);
      forall i | 0 <= i < |recs| ensures TileAt(c, end, recs, i) {
        if i > 0 {
          assert TileAt(c, end, rest, i - 1);
        }
      }
    }
  }

  /** A chunk has at most one layout. */
  lemma OneLayoutPerChunk(c: seq<Byte>, crc: seq<Byte> -> U32, recs: seq<Rec>, others: seq<Rec>)
    requires |c| == CHUNK && ChunkLayout(c, crc, recs) && ChunkLayout(c, crc, others)
    ensures recs == others
  {
    ScanIsTiling(c, RECORDS_AT, Free(c), recs);
    ScanIsTiling(c, RECORDS_AT, Free(c), others);
  }

  function IdBefore(previous: nat, recs: seq<Rec>, i: nat): nat
    requires i <= |recs|
  {
    if i == 0 then previous else recs[i - 1].id
  }

  /** The ids of the records strictly increase, starting above a given id. */
  ghost predicate Above(previous: nat, recs: seq<Rec>) {
    forall i {:trigger recs[i]} :: 0 <= i < |recs| ==> recs[i].id > IdBefore(previous, recs, i)
  }

  lemma AbovePrefix(previous: nat, recs: seq<Rec>, more: seq<Rec>)
    requires Above(previous, recs + more)
    ensures Above(previous, recs)
    ensures more != [] ==> more[0].id > IdBefore(previous, recs, |recs|)
  {
    var all := recs + more;
    forall i | 0 <= i < |recs| ensures recs[i].id > IdBefore(previous, recs, i) {
      assert all[i].id > IdBefore(previous, all, i);
    }
    if more != [] {
      assert all[|recs|].id > IdBefore(previous, all, |recs|);
    }
  }

  lemma AboveExtends(previous: nat, recs: seq<Rec>, next: Rec)
    requires Above(previous, recs) && next.id > IdBefore(previous, recs, |recs|)
    ensures Above(previous, recs + [next])
  {
    var all := recs + [next];
    forall i | 0 <= i < |all| ensures all[i].id > IdBefore(previous, all, i) {
      if i < |recs| {
        assert recs[i].id > IdBefore(previous, recs, i);
      }
    }
  }

  /** One chunk: its records, unless no list of records is both its layout and within room and order. */
  method ScanChunk(c: seq<Byte>, crc: seq<Byte> -> U32, room: nat, previous: nat) returns (r: Option<seq<Rec>>)
    requires |c| == CHUNK
    ensures r.Some? ==> ChunkLayout(c, crc, r.value) && |r.value| <= room && Above(previous, r.value)
    ensures r.None? ==> forall recs :: ChunkLayout(c, crc, recs) ==> !(|recs| <= room && Above(previous, recs))
  {
    hide RecordAt, Above;
    if !ChunkHead(c, crc) {
      return None;
    }
    var free := Free(c);
    var recs: seq<Rec> := [];
    var offset, observedLast, previousId := RECORDS_AT, 0, previous;
    NothingYet(previous, Scan(c, RECORDS_AT, free));
    while offset < free
      invariant RECORDS_AT <= offset <= free
      invariant Scan(c, RECORDS_AT, free) == Prepend(recs, Scan(c, offset, free))
      invariant |recs| <= room && Above(previous, recs)
      invariant previousId == IdBefore(previous, recs, |recs|)
      invariant observedLast == if recs == [] then 0 else recs[|recs| - 1].offset
      invariant offset > RECORDS_AT ==> recs != []
      decreases free - offset
    {
      if |recs| >= room {
        NoRoom(c, crc, recs, offset, room);
        return None;
      }
      if !RecordAt(c, offset, free) {
        NoScanNoLayout(c, crc);
        return None;
      }
      RecordHasLength(c, offset, free);
      var next := Rec(offset, IdAt(c, offset));
      if next.id <= previousId {
        OutOfOrder(c, crc, recs, offset, previous);
        return None;
      }
      AboveExtends(previous, recs, next);
      PrependOne(recs, next, Scan(c, offset + LengthAt(c, offset), free));
      recs := recs + [next];
      previousId := next.id;
      observedLast, offset := offset, offset + LengthAt(c, offset);
    }
    assert recs + [] == recs;
    ScanIsTiling(c, RECORDS_AT, free, recs);
    if observedLast != LastOffset(c) || !ChunkTail(c, recs) {
      TailDecides(c, crc, recs);
      return None;
    }
    return Some(recs);
  }

  function Prepend(recs: seq<Rec>, rest: Option<seq<Rec>>): Option<seq<Rec>> {
    match rest
    case None => None
    case Some(more) => Some(recs + more)
  }

  lemma PrependOne(recs: seq<Rec>, next: Rec, rest: Option<seq<Rec>>)
    ensures Prepend(recs, Prepend([next], rest)) == Prepend(recs + [next], rest)
  {
    if rest.Some? {
      assert recs + ([next] + rest.value) == recs + [next] + rest.value;
    }
  }

  lemma NothingYet(previous: nat, rest: Option<seq<Rec>>)
    ensures Above(previous, []) && Prepend([], rest) == rest
  {
    if rest.Some? {
      assert [] + rest.value == rest.value;
    }
  }

  lemma RecordHasLength(c: seq<Byte>, offset: nat, end: nat)
    requires end <= |c| && RecordAt(c, offset, end)
    ensures offset + 28 <= end && offset < offset + LengthAt(c, offset) <= end
    ensures Scan(c, offset, end) == Prepend([Rec(offset, IdAt(c, offset))], Scan(c, offset + LengthAt(c, offset), end))
  {
  }

  lemma LayoutIsScan(c: seq<Byte>, crc: seq<Byte> -> U32, recs: seq<Rec>)
    requires |c| == CHUNK && ChunkLayout(c, crc, recs)
    ensures RECORDS_AT < Free(c) <= |c| && Scan(c, RECORDS_AT, Free(c)) == Some(recs)
  {
    ScanIsTiling(c, RECORDS_AT, Free(c), recs);
  }

  lemma NoScanNoLayout(c: seq<Byte>, crc: seq<Byte> -> U32)
    requires |c| == CHUNK && ChunkHead(c, crc) && Scan(c, RECORDS_AT, Free(c)) == None
    ensures forall recs :: !ChunkLayout(c, crc, recs)
  {
    forall recs | ChunkLayout(c, crc, recs) ensures false {
      LayoutIsScan(c, crc, recs);
    }
  }

  lemma ScanMore(c: seq<Byte>, offset: nat, end: nat)
    requires offset < end <= |c|
    ensures Scan(c, offset, end) != Some([])
    ensures Scan(c, offset, end).Some? ==>
      offset + 28 <= end && Scan(c, offset, end).value[0].id == IdAt(c, offset)
  {
  }

  lemma NoRoom(c: seq<Byte>, crc: seq<Byte> -> U32, got: seq<Rec>, offset: nat, room: nat)
    requires |c| == CHUNK && ChunkHead(c, crc) && RECORDS_AT <= offset < Free(c)
    requires Scan(c, RECORDS_AT, Free(c)) == Prepend(got, Scan(c, offset, Free(c))) && |got| >= room
    ensures forall recs :: ChunkLayout(c, crc, recs) ==> |recs| > room
  {
    forall recs | ChunkLayout(c, crc, recs) ensures |recs| > room {
      LayoutIsScan(c, crc, recs);
      ScanMore(c, offset, Free(c));
    }
  }

  lemma OutOfOrder(c: seq<Byte>, crc: seq<Byte> -> U32, got: seq<Rec>, offset: nat, previous: nat)
    requires |c| == CHUNK && ChunkHead(c, crc) && RECORDS_AT <= offset && offset + 28 <= Free(c)
    requires Scan(c, RECORDS_AT, Free(c)) == Prepend(got, Scan(c, offset, Free(c)))
    requires IdAt(c, offset) <= IdBefore(previous, got, |got|)
    ensures forall recs :: ChunkLayout(c, crc, recs) ==> !Above(previous, recs)
  {
    forall recs | ChunkLayout(c, crc, recs) ensures !Above(previous, recs) {
      LayoutIsScan(c, crc, recs);
      ScanMore(c, offset, Free(c));
      if Above(previous, recs) {
        AbovePrefix(previous, got, Scan(c, offset, Free(c)).value);
      }
    }
  }

  lemma TailDecides(c: seq<Byte>, crc: seq<Byte> -> U32, recs: seq<Rec>)
    requires |c| == CHUNK && ChunkHead(c, crc) && Tiles(c, RECORDS_AT, Free(c), recs) && !ChunkTail(c, recs)
    ensures forall others :: !ChunkLayout(c, crc, others)
  {
    forall others | ChunkLayout(c, crc, others) ensures false {
      ScanIsTiling(c, RECORDS_AT, Free(c), recs);
      ScanIsTiling(c, RECORDS_AT, Free(c), others);
    }
  }

  // ---------------------------------------------------------------- the file

  lemma {:induction false} ConcatenatedSplit(first: seq<seq<Rec>>, second: seq<seq<Rec>>, k: nat)
    ensures Concatenated(first + second, k) == Concatenated(first, k) + Concatenated(second, k + |first|)
  {
    if first == [] {
      assert first + second == second;
    } else {
      assert (first + second)[1..] == first[1..] + second;
      ConcatenatedSplit(first[1..], second, k + 1);
    }
  }

  lemma ConcatenatedOne(recs: seq<Rec>, k: nat)
    ensures Concatenated([recs], k) == InChunk(recs, k)
  {
    assert Concatenated([], k + 1) == [];
  }

  lemma {:induction false} ConcatenatedCons(recs: seq<Rec>, rest: seq<seq<Rec>>, k: nat)
    ensures Concatenated([recs] + rest, k) == InChunk(recs, k) + Concatenated(rest, k + 1)
  {
    assert ([recs] + rest)[1..] == rest;
  }

  lemma Reassociate(x: seq<Frame>, y: seq<Frame>, z: seq<Frame>)
    ensures x + (y + z) == x + y + z
  {
  }

  lemma {:induction false} ConcatenatedAround(done: seq<seq<Rec>>, recs: seq<Rec>, rest: seq<seq<Rec>>)
    ensures Concatenated(done + ([recs] + rest), 0)
         == Concatenated(done, 0) + InChunk(recs, |done|) + Concatenated(rest, |done| + 1)
  {
    hide Concatenated, InChunk;
    ConcatenatedSplit(done, [recs] + rest, 0);
    ConcatenatedCons(recs, rest, |done|);
    Reassociate(Concatenated(done, 0), InChunk(recs, |done|), Concatenated(rest, |done| + 1));
  }

  lemma IncreasingPrefix(frames: seq<Frame>, more: seq<Frame>)
    requires Increasing(frames + more)
    ensures Increasing(frames)
  {
    var all := frames + more;
    forall i | 0 <= i < |frames| ensures frames[i].id > LastIdBefore(frames, i) {
      assert all[i].id > LastIdBefore(all, i);
    }
  }

  lemma IncreasingSuffix(frames: seq<Frame>, recs: seq<Rec>, k: nat)
    requires Increasing(frames + InChunk(recs, k))
    ensures Above(LastIdBefore(frames, |frames|), recs)
  {
    var part, n := InChunk(recs, k), |frames|;
    var all := frames + part;
    forall i | 0 <= i < |recs| ensures recs[i].id > IdBefore(LastIdBefore(frames, n), recs, i) {
      assert all[n + i].id > LastIdBefore(all, n + i);
      assert all[n + i] == part[i];
      if i > 0 {
        assert all[n + i - 1] == part[i - 1];
      }
    }
  }

  lemma IncreasingExtends(frames: seq<Frame>, recs: seq<Rec>, k: nat)
    requires Increasing(frames) && Above(LastIdBefore(frames, |frames|), recs)
    ensures Increasing(frames + InChunk(recs, k))
  {
    var all := frames + InChunk(recs, k);
    forall i | 0 <= i < |all| ensures all[i].id > LastIdBefore(all, i) {
      if i < |frames| {
        assert frames[i].id > LastIdBefore(frames, i);
      } else {
        assert recs[i - |frames|].id > IdBefore(LastIdBefore(frames, |frames|), recs, i - |frames|);
      }
    }
  }

  /** The chunks before k have these records. */
  ghost predicate LaidOut(raw: seq<Byte>, crc: seq<Byte> -> U32, done: seq<seq<Rec>>)
    requires |raw| >= FILE_HEADER && |done| <= ChunkCount(raw)
  {
    forall k :: 0 <= k < |done| ==> ChunkLayout(ChunkAt(raw, k), crc, done[k])
  }

  /** Any layout of the file continues what the first chunks have shown. */
  lemma LayoutContinues(
    raw: seq<Byte>, crc: seq<Byte> -> U32, maxRecords: nat, done: seq<seq<Rec>>, parts: seq<seq<Rec>>)
    requires |raw| >= FILE_HEADER && |done| < ChunkCount(raw) && LaidOut(raw, crc, done)
    requires Layout(raw, crc, maxRecords, parts)
    ensures
      var frames, recs := Concatenated(done, 0), parts[|done|];
      && ChunkLayout(ChunkAt(raw, |done|), crc, recs)
      && |frames| + |recs| <= maxRecords
      && Above(LastIdBefore(frames, |frames|), recs)
  {
    hide ChunkLayout, Increasing, Above, FileHead;
    var n := |done|;
    SamePrefix(raw, crc, done, parts);
    var frames, more := Concatenated(done, 0), Concatenated(parts[n + 1..], n + 1);
    assert parts == done + ([parts[n]] + parts[n + 1..]);
    ConcatenatedAround(done, parts[n], parts[n + 1..]);
    IncreasingPrefix(frames + InChunk(parts[n], n), more);
    IncreasingSuffix(frames, parts[n], n);
  }

  lemma SamePrefix(raw: seq<Byte>, crc: seq<Byte> -> U32, done: seq<seq<Rec>>, parts: seq<seq<Rec>>)
    requires |raw| >= FILE_HEADER && |done| <= |parts| <= ChunkCount(raw)
    requires LaidOut(raw, crc, done) && LaidOut(raw, crc, parts)
    ensures parts[..|done|] == done
    ensures |parts| == |done| ==> parts == done
  {
    hide ChunkLayout;
    forall k | 0 <= k < |done| ensures parts[k] == done[k] {
      OneLayoutPerChunk(ChunkAt(raw, k), crc, done[k], parts[k]);
    }
  }

  /** Accepts exactly the files that have the declared layout, and returns its frames in order. */
  method ValidateEvtx(raw: seq<Byte>, crc: seq<Byte> -> U32, maxRecords: nat) returns (r: Option<seq<Frame>>)
    ensures r.Some? ==> exists parts :: Layout(raw, crc, maxRecords, parts) && r.value == Concatenated(parts, 0)
    ensures r.None? ==> forall parts :: !Layout(raw, crc, maxRecords, parts)
  {
    hide ChunkLayout, Increasing, Above;
    if !FileHead(raw, crc) {
      return None;
    }
    var chunks := (|raw| - FILE_HEADER) / CHUNK;
    var records: seq<Frame> := [];
    var previousId := 0;
    ghost var done: seq<seq<Rec>> := [];
    NoFrames();
    for k := 0 to chunks
      invariant |done| == k && LaidOut(raw, crc, done)
      invariant records == Concatenated(done, 0)
      invariant |records| <= maxRecords && Increasing(records)
      invariant previousId == LastIdBefore(records, |records|)
      invariant k > 0 ==> records != []
    {
      var found := ScanChunk(ChunkAt(raw, k), crc, maxRecords - |records|, previousId);
      if found.None? {
        forall parts | Layout(raw, crc, maxRecords, parts) ensures false {
          LayoutContinues(raw, crc, maxRecords, done, parts);
        }
        return None;
      }
      var recs := found.value;
      LayoutHasRecords(ChunkAt(raw, k), crc, recs);
      IncreasingExtends(records, recs, k);
      ConcatenatedSplit(done, [recs], 0);
      ConcatenatedOne(recs, k);
      records := records + InChunk(recs, k);
      previousId := recs[|recs| - 1].id;
      done := done + [recs];
    }
    if Field(raw, 24, 8) != previousId + 1 {
      forall parts | Layout(raw, crc, maxRecords, parts) ensures false {
        SamePrefix(raw, crc, done, parts);
      }
      return None;
    }
    assert Layout(raw, crc, maxRecords, done);
    return Some(records);
  }

  lemma NoFrames()
    ensures Increasing([])
  {
  }

  lemma LayoutHasRecords(c: seq<Byte>, crc: seq<Byte> -> U32, recs: seq<Rec>)
    requires |c| == CHUNK && ChunkLayout(c, crc, recs)
    ensures recs != []
  {
  }
}
