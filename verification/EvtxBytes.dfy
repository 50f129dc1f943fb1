/** The accepted layout, byte by byte: what an accepted file, chunk and record look like on disk. */
module EvtxBytes {
  import opened Bytes
  import opened Evtx
  import opened EvtxBuild

  // ---------------------------------------------------------------- fields and bytes

  /** Packing what was read gives the bytes back. */
  lemma {:induction false} ReadRoundTrip(s: seq<Byte>)
    ensures LittleEndian(s) < Range(|s|) && Pack(|s|, LittleEndian(s)) == s
  {
    if s != [] {
      ReadRoundTrip(s[1..]);
      assert LittleEndian(s) % 256 == s[0] && LittleEndian(s) / 256 == LittleEndian(s[1..]);
      assert s == [s[0]] + s[1..];
    }
  }

  /** A field has a value exactly when its bytes are that value packed. */
  lemma FieldInBytes(s: seq<Byte>, offset: nat, width: nat, x: nat)
    requires offset + width <= |s|
    ensures Field(s, offset, width) == x <==> x < Range(width) && s[offset..offset + width] == Pack(width, x)
  {
    ReadRoundTrip(s[offset..offset + width]);
    if x < Range(width) {
      PackRoundTrip(width, x);
    }
  }

  lemma SmallPacks()
    ensures Pack(2, 1) == [1, 0] && Pack(2, 2) == [2, 0] && Pack(2, 3) == [3, 0] && Pack(2, 4096) == [0, 16]
    ensures Pack(4, 128) == [128, 0, 0, 0] && Pack(4, 0) == [0, 0, 0, 0] && Pack(4, 0x2A2A) == [0x2A, 0x2A, 0, 0]
    ensures Pack(8, 0) == [0, 0, 0, 0, 0, 0, 0, 0]
  {
  }

  // ---------------------------------------------------------------- the file header

  /** The file is a header block and n chunks, no more than eight mebibytes in all. */
  ghost predicate Chunks(raw: seq<Byte>, n: nat) {
    0 < n && |raw| == 4096 + 65536 * n && |raw| <= 8388608
  }

  /** "ElfFile", no first chunk number, the last one, sizes, format 3.1 or 3.2, clean, n chunks, and the checksum. */
  ghost predicate HeaderBytes(raw: seq<Byte>, crc: seq<Byte> -> U32, n: nat)
    requires Chunks(raw, n)
  {
    && raw[..8] == [0x45, 0x6C, 0x66, 0x46, 0x69, 0x6C, 0x65, 0]
    && raw[8..16] == [0, 0, 0, 0, 0, 0, 0, 0]
    && raw[16..24] == Pack(8, n - 1)
    && raw[32..36] == [128, 0, 0, 0]
    && (raw[36..38] == [1, 0] || raw[36..38] == [2, 0]) && raw[38..40] == [3, 0]
    && raw[40..42] == [0, 16]
    && raw[42..44] == Pack(2, n)
    && raw[120..124] == [0, 0, 0, 0]
    && raw[124..128] == Pack(4, crc(raw[..120]))
  }

  /** An accepted header, byte by byte. */
  lemma HeaderInBytes(raw: seq<Byte>, crc: seq<Byte> -> U32)
    ensures FileHead(raw, crc) <==> exists n: nat :: Chunks(raw, n) && HeaderBytes(raw, crc, n)
  {
    hide FileHead, Field, Pack, HeaderBytes;
    if FileHead(raw, crc) {
      HeadIsChunks(raw, crc);
      HeaderOf(raw, crc, (|raw| - 4096) / 65536);
    }
    if n: nat :| Chunks(raw, n) {
      HeaderOf(raw, crc, n);
      assert n == (|raw| - 4096) / 65536;
    }
  }

  lemma HeadIsChunks(raw: seq<Byte>, crc: seq<Byte> -> U32)
    requires FileHead(raw, crc)
    ensures Chunks(raw, (|raw| - 4096) / 65536)
  {
  }

  lemma HeaderOf(raw: seq<Byte>, crc: seq<Byte> -> U32, n: nat)
    requires Chunks(raw, n)
    ensures FileHead(raw, crc) <==> HeaderBytes(raw, crc, n)
  {
    hide Field, Pack, Range;
    Ranges();
    SmallPacks();
    FieldInBytes(raw, 8, 8, 0);
    FieldInBytes(raw, 16, 8, n - 1);
    FieldInBytes(raw, 32, 4, 128);
    FieldInBytes(raw, 36, 2, 1);
    FieldInBytes(raw, 36, 2, 2);
    FieldInBytes(raw, 38, 2, 3);
    FieldInBytes(raw, 40, 2, 4096);
    FieldInBytes(raw, 42, 2, n);
    FieldInBytes(raw, 120, 4, 0);
    FieldInBytes(raw, 124, 4, crc(raw[..120]));
  }

  // ---------------------------------------------------------------- chunks

  /** The end of the record area, where its last record ends. */
  ghost predicate AreaEnds(end: nat) {
    512 < end <= 65536
  }

  /**
   "ElfChnk", how many records the chunk numbers, the ids of the first and the last, where the last one starts and
   ends, and the checksums of the records and of the header.
   */
  ghost predicate ChunkBytes(c: seq<Byte>, crc: seq<Byte> -> U32, recs: seq<Rec>, end: nat)
    requires |c| == 65536 && AreaEnds(end) && recs != []
  {
    && c[..8] == [0x45, 0x6C, 0x66, 0x43, 0x68, 0x6E, 0x6B, 0]
    && LittleEndian(c[16..24]) == LittleEndian(c[8..16]) + |recs| - 1
    && c[24..32] == Pack(8, recs[0].id)
    && c[32..40] == Pack(8, recs[|recs| - 1].id)
    && c[40..44] == [128, 0, 0, 0]
    && c[44..48] == Pack(4, recs[|recs| - 1].offset)
    && c[48..52] == Pack(4, end)
    && c[52..56] == Pack(4, crc(c[512..end]))
    && c[124..128] == Pack(4, crc(c[..120] + c[128..512]))
  }

  /** An accepted chunk, byte by byte. */
  lemma ChunkInBytes(c: seq<Byte>, crc: seq<Byte> -> U32, recs: seq<Rec>)
    requires |c| == 65536
    ensures ChunkLayout(c, crc, recs) <==>
      exists end: nat :: AreaEnds(end) && Tiles(c, 512, end, recs) && recs != [] && ChunkBytes(c, crc, recs, end)
  {
    hide ChunkLayout, ChunkBytes, Tiles;
    if ChunkLayout(c, crc, recs) {
      LayoutEnds(c, crc, recs);
      ChunkOf(c, crc, recs, Free(c));
    }
    if end: nat :| AreaEnds(end) && Tiles(c, 512, end, recs) && recs != [] && ChunkBytes(c, crc, recs, end) {
      ChunkOf(c, crc, recs, end);
    }
  }

  lemma LayoutEnds(c: seq<Byte>, crc: seq<Byte> -> U32, recs: seq<Rec>)
    requires |c| == 65536 && ChunkLayout(c, crc, recs)
    ensures AreaEnds(Free(c)) && Tiles(c, 512, Free(c), recs) && recs != []
  {
    hide Field, Tiles;
  }

  lemma RecordStarts(c: seq<Byte>, end: nat, recs: seq<Rec>)
    requires |c| == 65536 && AreaEnds(end) && Tiles(c, 512, end, recs) && recs != []
    ensures 512 <= recs[|recs| - 1].offset < end
    ensures recs[0].id < Range(8) && recs[|recs| - 1].id < Range(8)
  {
    hide RecordAt;
    var last := |recs| - 1;
    assert TileAt(c, end, recs, 0) && TileAt(c, end, recs, last);
    TileFacts(c, end, recs, 0);
    TileFacts(c, end, recs, last);
    OffsetsGrow(c, end, recs, last);
  }

  lemma TileFacts(c: seq<Byte>, end: nat, recs: seq<Rec>, i: nat)
    requires end <= |c| && i < |recs| && TileAt(c, end, recs, i)
    ensures recs[i].offset + 32 <= end && recs[i].id < Range(8) && LengthAt(c, recs[i].offset) >= 32
  {
    ReadRoundTrip(c[recs[i].offset + 8..recs[i].offset + 16]);
  }

  lemma {:induction false} OffsetsGrow(c: seq<Byte>, end: nat, recs: seq<Rec>, i: nat)
    requires end <= |c| && i < |recs| && Tiles(c, 512, end, recs)
    ensures recs[i].offset >= 512
  {
    if i > 0 {
      OffsetsGrow(c, end, recs, i - 1);
      assert TileAt(c, end, recs, i - 1);
    }
  }

  lemma ChunkOf(c: seq<Byte>, crc: seq<Byte> -> U32, recs: seq<Rec>, end: nat)
    requires |c| == 65536 && AreaEnds(end) && Tiles(c, 512, end, recs) && recs != []
    ensures ChunkLayout(c, crc, recs) && Free(c) == end <==> ChunkBytes(c, crc, recs, end)
  {
    hide Pack, Range, Tiles, LittleEndian;
    Ranges();
    SmallPacks();
    RecordStarts(c, end, recs);
    FieldInBytes(c, 24, 8, recs[0].id);
    FieldInBytes(c, 32, 8, recs[|recs| - 1].id);
    FieldInBytes(c, 40, 4, 128);
    FieldInBytes(c, 44, 4, recs[|recs| - 1].offset);
    FieldInBytes(c, 48, 4, end);
    FieldInBytes(c, 52, 4, crc(c[512..end]));
    FieldInBytes(c, 124, 4, crc(c[..120] + c[128..512]));
  }

  // ---------------------------------------------------------------- the file

  /**
   A file is laid out exactly when its header and its chunks are, its records are no more than allowed, their ids rise
   from above zero, and the header's next id is one more than the last.
   */
  lemma LayoutInBytes(raw: seq<Byte>, crc: seq<Byte> -> U32, maxRecords: nat, parts: seq<seq<Rec>>)
    requires FileHead(raw, crc) && |parts| == (|raw| - 4096) / 65536
    ensures Layout(raw, crc, maxRecords, parts) <==>
      && (forall k :: 0 <= k < |parts| ==> ChunkLayout(ChunkAt(raw, k), crc, parts[k]))
      && var frames := Concatenated(parts, 0);
         && 0 < |frames| <= maxRecords
         && frames[0].id > 0
         && (forall i :: 0 < i < |frames| ==> frames[i - 1].id < frames[i].id)
         && frames[|frames| - 1].id + 1 < Range(8)
         && raw[24..32] == Pack(8, frames[|frames| - 1].id + 1)
  {
    hide FileHead, ChunkLayout, Pack, Range, Field, Concatenated, ChunkAt, Increasing;
    HeadIsChunks(raw, crc);
    var frames := Concatenated(parts, 0);
    IncreasingIs(frames);
    if frames != [] {
      FieldInBytes(raw, 24, 8, frames[|frames| - 1].id + 1);
    }
  }

  lemma IncreasingIs(frames: seq<Frame>)
    ensures Increasing(frames) <==>
      (frames != [] ==> frames[0].id > 0) && forall i :: 0 < i < |frames| ==> frames[i - 1].id < frames[i].id
  {
    if Increasing(frames) {
      forall i | 0 < i < |frames| ensures frames[i - 1].id < frames[i].id {
        assert frames[i].id > LastIdBefore(frames, i);
      }
    }
  }

  // ---------------------------------------------------------------- records

  /** A record, byte by byte: its magic, its size twice, at least 32 and a multiple of eight, and room for all of it. */
  lemma RecordInBytes(c: seq<Byte>, at: nat, end: nat, size: nat)
    requires end <= |c| && at + size <= end && 32 <= size && size % 8 == 0
    ensures RecordAt(c, at, end) && LengthAt(c, at) == size <==>
      && size < Range(4)
      && c[at..at + 4] == [0x2A, 0x2A, 0, 0]
      && c[at + 4..at + 8] == Pack(4, size)
      && c[at + size - 4..at + size] == Pack(4, size)
  {
    hide Pack, Range;
    Ranges();
    SmallPacks();
    FieldInBytes(c, at, 4, 0x2A2A);
    FieldInBytes(c, at + 4, 4, size);
    FieldInBytes(c, at + size - 4, 4, size);
  }

  /** No other sizes occur, and the id is the eight bytes behind the size. */
  lemma RecordSizes(c: seq<Byte>, at: nat, end: nat)
    requires end <= |c| && RecordAt(c, at, end)
    ensures at + LengthAt(c, at) <= end && 32 <= LengthAt(c, at) && LengthAt(c, at) % 8 == 0
    ensures c[at + 8..at + 16] == Pack(8, IdAt(c, at))
  {
    ReadRoundTrip(c[at + 8..at + 16]);
  }

  /** A built record is as long as its body and framing, rounded up to a multiple of eight. */
  lemma RecordSizeIsLeast(body: nat)
    ensures RecordSize(body) % 8 == 0 && body + 28 <= RecordSize(body) < body + 36
  {
  }
}
