/** The memory-mapped blob reader: the whole file is one immutable byte
    region, sliced with bounds checks. Building its index walks the same
    frames as the cursor reader but insists that every body lies inside the
    file. A sequential copy of the reader serves the parallel API. */
module Mmap {
  import opened Wrappers
  import opened Ints
  import opened Blobs
  import opened Indexed

  /** A mapping is addressed with `usize` offsets and cannot take up the
      whole address space. */
  predicate Mappable(data: seq<byte>) {
    |data| < USIZE_LIMIT - 1
  }

  /** `MmapData::get_slice`: the bytes `[offset, offset + len)` of the region,
      or an error naming the request when it does not lie inside. */
  function GetSlice(data: seq<byte>, offset: usize, len: usize): (r: Result<seq<byte>, BlobError>)
    requires Mappable(data)
    ensures r.Failure? <==> offset + len > |data|
    ensures r.Failure? ==> r.error == InvalidFormat(SliceOutOfBounds(offset, len, |data|))
    ensures r.Success? ==> r.value == data[offset .. offset + len]
  {
    if SaturatingAdd(offset, len) > |data| then
      Failure(InvalidFormat(SliceOutOfBounds(offset, len, |data|)))
    else if |data| == 0 then
      // An empty file is not mapped at all; only the empty slice is asked of it.
      Success([])
    else
      Success(data[offset .. offset + len])
  }

  /** `MmapData::get_bytes`: a copy of the same slice. */
  function GetBytes(data: seq<byte>, offset: usize, len: usize): (r: Result<seq<byte>, BlobError>)
    requires Mappable(data)
    ensures r == GetSlice(data, offset, len)
  {
    match GetSlice(data, offset, len)
    case Failure(e) => Failure(e)
    case Success(slice) => Success(slice)
  }

  /** An empty mapping serves exactly one slice, the empty one. */
  lemma EmptyMapping(offset: usize, len: usize)
    ensures GetSlice([], offset, len) == if offset == 0 && len == 0 then Success([])
      else Failure(InvalidFormat(SliceOutOfBounds(offset, len, 0)))
  {
  }

  /** The body length declared by the 4-byte prefix read through `get_slice`. */
  function PrefixAt(data: seq<byte>, offset: nat): (n: u32)
    requires Mappable(data) && offset + 4 <= |data|
    ensures n == LengthAt(data, offset)
  {
    var bytes := GetSlice(data, offset, 4).value;
    FromBeBytes(bytes[0], bytes[1], bytes[2], bytes[3])
  }

  /** `MmapBlobReader::read_blob_header_at_offset`: nothing when no full prefix
      remains, an error when the declared body runs past the end of the file. */
  function MappedHeaderAt(data: seq<byte>, offset: nat): (r: Result<Option<(BlobHeader, u32)>, BlobError>)
    requires Mappable(data)
    ensures r == Success(None) <==> offset + 4 > |data|
    ensures r.Failure? <==> offset + 4 <= |data| && offset + 4 + LengthAt(data, offset) > |data|
    ensures r.Failure? ==> r.error == InvalidFormat(BlobBeyondEnd(offset))
    ensures r.Success? && r.value.Some? ==>
      r.value.value == (NewHeader(OSMData, LengthAt(data, offset)), LengthAt(data, offset))
  {
    if offset + 4 > |data| then Success(None)
    else
      var size := PrefixAt(data, offset);
      if offset + 4 + size > |data| then Failure(InvalidFormat(BlobBeyondEnd(offset)))
      else Success(Some((NewHeader(OSMData, size), size)))
  }

  /** `MmapBlobReader::read_blob_at_offset`. */
  function MappedBlobAt(data: seq<byte>, offset: nat): (r: Result<Option<Blob>, BlobError>)
    requires Mappable(data)
    ensures r == Success(None) <==> offset + 4 > |data|
    ensures offset + 4 <= |data| ==>
      var n := LengthAt(data, offset);
      && (offset + 4 + n > |data| ==> r == Failure(InvalidFormat(BlobBeyondEnd(offset))))
      && (offset + 4 + n <= |data| && n > MAX_BLOB_MESSAGE_SIZE ==>
            r == Failure(MessageTooLarge(n, MAX_BLOB_MESSAGE_SIZE)))
      && (offset + 4 + n <= |data| && n <= MAX_BLOB_MESSAGE_SIZE ==>
            && r.Success? && r.value.Some?
            && r.value.value.data == Raw(data[offset + 4 .. offset + 4 + n])
            && BlobTypeOf(r.value.value) == OSMData && OffsetOf(r.value.value) == offset)
  {
    if offset + 4 > |data| then Success(None)
    else
      var size := PrefixAt(data, offset);
      if offset + 4 + size > |data| then Failure(InvalidFormat(BlobBeyondEnd(offset)))
      else
        match GetBytes(data, offset + 4, size)
        case Success(body) =>
          match NewRawChecked(OSMData, body, offset)
          case Failure(e) => Failure(e)
          case Success(b) => Success(Some(b))
  }

  /** `MmapBlobReader::read_blob_by_index`. */
  function MappedBlobByIndex(data: seq<byte>, entries: seq<BlobIndex>, index: nat): (r: Result<Option<Blob>, BlobError>)
    requires Mappable(data)
    ensures index >= |entries| ==> r == Failure(InvalidFormat(IndexOutOfRange(index)))
    ensures index < |entries| ==> r == MappedBlobAt(data, entries[index].offset)
  {
    if index >= |entries| then Failure(InvalidFormat(IndexOutOfRange(index)))
    else MappedBlobAt(data, entries[index].offset)
  }

  /** The two readers read a frame the same way; they differ only in the error
      for a body that runs past the end of the file. */
  lemma MappedAgreesWithCursor(data: seq<byte>, offset: nat)
    requires Mappable(data)
    ensures MappedBlobAt(data, offset) ==
      if offset + 4 <= |data| && offset + 4 + LengthAt(data, offset) > |data|
      then Failure(InvalidFormat(BlobBeyondEnd(offset)))
      else CursorBlobAt(data, offset)
  {
  }

  /** The read result for each entry, in index order. */
  function MappedReadings(data: seq<byte>, entries: seq<BlobIndex>): (rs: seq<Result<Option<Blob>, BlobError>>)
    requires Mappable(data)
    ensures |rs| == |entries|
    ensures forall i :: 0 <= i < |entries| ==> rs[i] == MappedBlobAt(data, entries[i].offset)
  {
    seq(|entries|, i requires 0 <= i < |entries| => MappedBlobAt(data, entries[i].offset))
  }

  /** `entries` in front of a successful walk; a failed walk stays failed. */
  function Prepend(entries: seq<BlobIndex>, r: Result<seq<BlobIndex>, BlobError>): Result<seq<BlobIndex>, BlobError> {
    match r
    case Success(rest) => Success(entries + rest)
    case Failure(e) => Failure(e)
  }

  lemma PrependNothing(r: Result<seq<BlobIndex>, BlobError>)
    ensures Prepend([], r) == r
  {
    if r.Success? {
      assert [] + r.value == r.value;
    }
  }

  lemma PrependAppend(entries: seq<BlobIndex>, e: BlobIndex, r: Result<seq<BlobIndex>, BlobError>)
    ensures Prepend(entries, Prepend([e], r)) == Prepend(entries + [e], r)
  {
    if r.Success? {
      assert entries + ([e] + r.value) == (entries + [e]) + r.value;
    }
  }

  /** The frame walk of `build_index` from `offset`: it stops at the end of the
      file or when no full prefix remains, and fails at the first frame whose
      body runs past the end. */
  function MappedScan(data: seq<byte>, offset: nat): Result<seq<BlobIndex>, BlobError>
    requires Mappable(data)
    decreases |data| - offset
  {
    if offset >= |data| then Success([])
    else
      match MappedHeaderAt(data, offset)
      case Failure(e) => Failure(e)
      case Success(None) => Success([])
      case Success(Some((header, size))) =>
        Prepend([BlobIndex(offset, size, header.blobType, None, ZERO_COUNTS)],
                 MappedScan(data, offset + 4 + size))
  }

  /** One step of the mapped walk from a frame whose body fits. */
  lemma MappedScanStep(data: seq<byte>, offset: nat, header: BlobHeader, size: u32)
    requires Mappable(data) && offset < |data|
    requires MappedHeaderAt(data, offset) == Success(Some((header, size)))
    ensures MappedScan(data, offset) ==
      Prepend([BlobIndex(offset, size, header.blobType, None, ZERO_COUNTS)], MappedScan(data, offset + 4 + size))
  {
  }

  /** The state of `build_index` after walking to `cur`: the entries so far
      in front of the walk from `cur` make up the whole walk, and the header
      entry is the last header among them. */
  ghost predicate MappedWalked(data: seq<byte>, es: seq<BlobIndex>, header: Option<BlobIndex>, cur: nat)
    requires Mappable(data)
  {
    MappedScan(data, 0) == Prepend(es, MappedScan(data, cur)) && header == LastHeader(es)
  }

  /** Recording the frame at `cur` and moving past its body keeps the walk state. */
  lemma MappedWalkStep(data: seq<byte>, es: seq<BlobIndex>, header: Option<BlobIndex>, cur: nat,
                       h: BlobHeader, size: u32, e: BlobIndex, header': Option<BlobIndex>)
    requires Mappable(data) && cur < |data| && MappedWalked(data, es, header, cur)
    requires MappedHeaderAt(data, cur) == Success(Some((h, size)))
    requires e == BlobIndex(cur, size, h.blobType, None, ZERO_COUNTS)
    requires header' == if e.blobType.OSMHeader? then Some(e) else header
    ensures MappedWalked(data, es + [e], header', cur + 4 + size)
  {
    MappedScanStep(data, cur, h, size);
    PrependAppend(es, e, MappedScan(data, cur + 4 + size));
    assert (es + [e])[..|es + [e]| - 1] == es;
  }

  /** Every body of the entries lies inside the data. */
  predicate BodiesFit(data: seq<byte>, es: seq<BlobIndex>) {
    forall i :: 0 <= i < |es| ==> EndOf(es[i]) <= |data|
  }

  /** Bodies fit for a list exactly when the first one and the rest do. */
  lemma BodiesFitCons(data: seq<byte>, e: BlobIndex, rest: seq<BlobIndex>)
    ensures BodiesFit(data, [e] + rest) <==> EndOf(e) <= |data| && BodiesFit(data, rest)
  {
    var es := [e] + rest;
    if EndOf(e) <= |data| && BodiesFit(data, rest) {
      forall i | 0 <= i < |es| ensures EndOf(es[i]) <= |data| {
        if i > 0 { assert es[i] == rest[i - 1]; }
      }
    }
    if BodiesFit(data, es) {
      assert es[0] == e;
      forall i | 0 <= i < |rest| ensures EndOf(rest[i]) <= |data| {
        assert rest[i] == es[i + 1];
      }
    }
  }

  /** The mapped walk at a frame whose body fits records it and goes on after it. */
  lemma MappedScanFits(data: seq<byte>, offset: nat)
    requires Mappable(data) && offset + 4 <= |data| && offset + 4 + LengthAt(data, offset) <= |data|
    ensures MappedScan(data, offset) ==
      Prepend([EntryAt(data, offset)], MappedScan(data, offset + 4 + LengthAt(data, offset)))
  {
  }

  /** The mapped walk at a frame whose body runs past the end fails there. */
  lemma MappedScanOverflows(data: seq<byte>, offset: nat)
    requires Mappable(data) && offset + 4 <= |data| && offset + 4 + LengthAt(data, offset) > |data|
    ensures MappedScan(data, offset) == Failure(InvalidFormat(BlobBeyondEnd(offset)))
  {
  }

  /** The agreement between the two walks from `offset`, as stated below. */
  ghost predicate ScansAgree(data: seq<byte>, offset: nat)
    requires Mappable(data)
  {
    && (MappedScan(data, offset).Success? <==> BodiesFit(data, ScanEntries(data, offset)))
    && (MappedScan(data, offset).Success? ==> MappedScan(data, offset).value == ScanEntries(data, offset))
    && (MappedScan(data, offset).Failure? ==>
          && |ScanEntries(data, offset)| > 0
          && MappedScan(data, offset).error ==
               InvalidFormat(BlobBeyondEnd(ScanEntries(data, offset)[|ScanEntries(data, offset)| - 1].offset)))
  }

  /** Agreement carries back over a frame whose body fits. */
  lemma ScansAgreeStep(data: seq<byte>, offset: nat)
    requires Mappable(data) && offset + 4 <= |data| && offset + 4 + LengthAt(data, offset) <= |data|
    requires ScansAgree(data, offset + 4 + LengthAt(data, offset))
    ensures ScansAgree(data, offset)
  {
    var e := EntryAt(data, offset);
    var next := offset + 4 + e.size;
    var rest := ScanEntries(data, next);
    assert ScanEntries(data, offset) == [e] + rest;
    BodiesFitCons(data, e, rest);
    MappedScanFits(data, offset);
    if MappedScan(data, next).Failure? {
      assert ([e] + rest)[|[e] + rest| - 1] == rest[|rest| - 1];
    }
  }

  /** The two index builders agree: the mapped walk succeeds exactly when every
      frame the cursor walk finds fits in the file, and then both produce the
      same entries; otherwise it fails at the cursor walk's last entry, the
      only one that can overrun the file. */
  lemma {:induction false} MappedScanMatchesCursorScan(data: seq<byte>, offset: nat)
    requires Mappable(data)
    ensures MappedScan(data, offset).Success? <==> BodiesFit(data, ScanEntries(data, offset))
    ensures MappedScan(data, offset).Success? ==> MappedScan(data, offset).value == ScanEntries(data, offset)
    ensures MappedScan(data, offset).Failure? ==>
      && |ScanEntries(data, offset)| > 0
      && MappedScan(data, offset).error ==
           InvalidFormat(BlobBeyondEnd(ScanEntries(data, offset)[|ScanEntries(data, offset)| - 1].offset))
    decreases |data| - offset
  {
    if offset + 4 <= |data| {
      var e := EntryAt(data, offset);
      var next := offset + 4 + e.size;
      if next <= |data| {
        MappedScanMatchesCursorScan(data, next);
        ScansAgreeStep(data, offset);
      } else {
        var rest := ScanEntries(data, next);
        assert ScanEntries(data, offset) == [e] + rest;
        BodiesFitCons(data, e, rest);
        MappedScanOverflows(data, offset);
        assert rest == [];
        assert ([e] + rest)[0] == e;
      }
    }
  }

  /** After a successful mapped walk from 0 every body fits and what is left
      after the last one is too short to hold a length prefix. */
  lemma MappedScanCoversFile(data: seq<byte>)
    requires Mappable(data) && MappedScan(data, 0).Success?
    ensures var es := MappedScan(data, 0).value;
      && BodiesFit(data, es)
      && |data| - (if es == [] then 0 else EndOf(es[|es| - 1])) < 4
  {
    MappedScanMatchesCursorScan(data, 0);
    ScanEntriesTile(data, 0);
  }

  /** What an index built by the mapped walk reports: it is the cursor
      index, so there is no header blob, every entry counts as a data blob
      with no elements, every entry is relevant to any id range and no filter
      streams anything. */
  lemma MappedIndexSummary(data: seq<byte>, f: ElementFilter, minId: i64, maxId: i64, k: nat)
    requires Mappable(data) && MappedScan(data, 0).Success?
    ensures var es := MappedScan(data, 0).value;
      && LastHeader(es) == None
      && StatisticsOf(es) == IndexStatistics(|es|, 0, |es|, 0, 0, 0, 0, 0)
      && FindRelevant(es, minId, maxId) == seq(|es|, i => i)
      && NextMatch(es, MappedReadings(data, es), f, k).0 == None
  {
    var es := MappedScan(data, 0).value;
    MappedScanMatchesCursorScan(data, 0);
    ScanEntriesArePlainData(data, 0);
    NoHeaderAmongData(es);
    StatisticsOfPlainData(es);
    FindRelevantWithoutRanges(es, minId, maxId);
    NothingStreamedFromPlainData(es, MappedReadings(data, es), f, k);
  }

  /** An empty file maps to an empty index with all-zero statistics. */
  lemma EmptyFileIndex()
    ensures MappedScan([], 0) == Success([])
    ensures StatisticsOf([]) == IndexStatistics(0, 0, 0, 0, 0, 0, 0, 0)
    ensures LastHeader([]) == None
  {
  }

  /** A file holding one frame of 100 zero bytes is 104 bytes long, indexes as
      one data entry at offset 0, and reading that entry gives a raw blob of
      100 bytes. */
  lemma HundredByteFrame()
    ensures var data := ToBeBytes(100) + seq(100, _ => 0);
      && |data| == 104
      && MappedScan(data, 0) == Success([BlobIndex(0, 100, OSMData, None, ZERO_COUNTS)])
      && MappedBlobByIndex(data, [BlobIndex(0, 100, OSMData, None, ZERO_COUNTS)], 0).Success?
      && MappedBlobByIndex(data, [BlobIndex(0, 100, OSMData, None, ZERO_COUNTS)], 0).value.Some?
      && BlobRawSize(MappedBlobByIndex(data, [BlobIndex(0, 100, OSMData, None, ZERO_COUNTS)], 0).value.value) == 100
  {
    var data := ToBeBytes(100) + seq(100, _ => 0);
    assert data[0] == 0 && data[1] == 0 && data[2] == 0 && data[3] == 100;
    assert LengthAt(data, 0) == 100;
    assert MappedScan(data, 104) == Success([]);
    MappedScanFits(data, 0);
    assert [BlobIndex(0, 100, OSMData, None, ZERO_COUNTS)] + [] == [BlobIndex(0, 100, OSMData, None, ZERO_COUNTS)];
  }

  /** `ParallelMmapBlobReader::read_blob_at_offset`: no extent check of its
      own; an overrunning body is caught by `get_bytes`. */
  function ParallelBlobAt(data: seq<byte>, offset: nat): (r: Result<Option<Blob>, BlobError>)
    requires Mappable(data)
    ensures r == Success(None) <==> offset + 4 > |data|
    ensures offset + 4 <= |data| && offset + 4 + LengthAt(data, offset) > |data| ==>
      r == Failure(InvalidFormat(SliceOutOfBounds(offset + 4, LengthAt(data, offset), |data|)))
  {
    if offset + 4 > |data| then Success(None)
    else
      var size := PrefixAt(data, offset);
      match GetBytes(data, offset + 4, size)
      case Failure(e) => Failure(e)
      case Success(body) =>
        match NewRawChecked(OSMData, body, offset)
        case Failure(e) => Failure(e)
        case Success(b) => Success(Some(b))
  }

  /** The parallel reader reads like the mapped one; only the error for a
      body past the end of the file is worded as a slice out of bounds. */
  lemma ParallelAgreesWithMapped(data: seq<byte>, offset: nat)
    requires Mappable(data)
    ensures ParallelBlobAt(data, offset) ==
      if offset + 4 <= |data| && offset + 4 + LengthAt(data, offset) > |data|
      then Failure(InvalidFormat(SliceOutOfBounds(offset + 4, LengthAt(data, offset), |data|)))
      else MappedBlobAt(data, offset)
  {
  }

  /** A sequential stand-in for the shareable reader: the same region and a
      copy of the index. */
  datatype ParallelMmapBlobReader = ParallelMmapBlobReader(mmap: seq<byte>, blobIndex: seq<BlobIndex>, fileSize: nat)

  function ParallelBlobByIndex(p: ParallelMmapBlobReader, index: nat): (r: Result<Option<Blob>, BlobError>)
    requires Mappable(p.mmap)
    ensures index >= |p.blobIndex| ==> r == Failure(InvalidFormat(IndexOutOfRange(index)))
    ensures index < |p.blobIndex| ==> r == ParallelBlobAt(p.mmap, p.blobIndex[index].offset)
  {
    if index >= |p.blobIndex| then Failure(InvalidFormat(IndexOutOfRange(index)))
    else ParallelBlobAt(p.mmap, p.blobIndex[index].offset)
  }

  function ParallelBlobCount(p: ParallelMmapBlobReader): nat {
    |p.blobIndex|
  }

  /** On an index built by the mapped reader the parallel reader returns
      exactly what the mapped reader returns, for every position. */
  lemma ParallelReadsLikeMapped(data: seq<byte>, index: nat)
    requires Mappable(data) && MappedScan(data, 0).Success?
    ensures var es := MappedScan(data, 0).value;
      ParallelBlobByIndex(ParallelMmapBlobReader(data, es, |data|), index) == MappedBlobByIndex(data, es, index)
  {
    var es := MappedScan(data, 0).value;
    MappedScanMatchesCursorScan(data, 0);
    ScanEntriesTile(data, 0);
    if index < |es| {
      var e := es[index];
      assert e == EntryAt(data, e.offset) && EndOf(e) <= |data|;
      ParallelAgreesWithMapped(data, e.offset);
    }
  }

  class MmapBlobReader {
    const mmap: seq<byte>
    const fileSize: nat
    var blobIndex: seq<BlobIndex>
    var headerBlob: Option<BlobIndex>

    ghost predicate Valid() {
      Mappable(mmap) && fileSize == |mmap|
    }

    constructor Init(contents: seq<byte>)
      requires Mappable(contents)
      ensures Valid() && mmap == contents
      ensures blobIndex == [] && headerBlob == None
    {
      mmap := contents;
      fileSize := |contents|;
      blobIndex := [];
      headerBlob := None;
    }

    /** `from_file`: maps the file's contents and indexes it; fails when a
      frame's body runs past the end of the file. */
    static method FromFile(contents: seq<byte>) returns (r: Result<MmapBlobReader, BlobError>)
      requires Mappable(contents)
      ensures r.Success? <==> MappedScan(contents, 0).Success?
      ensures r.Failure? ==> r.error == MappedScan(contents, 0).error
      ensures r.Success? ==>
        && fresh(r.value) && r.value.Valid() && r.value.mmap == contents
        && r.value.blobIndex == MappedScan(contents, 0).value
        && r.value.headerBlob == LastHeader(r.value.blobIndex)
      ensures r.Success? ==> r.value.Built()
    {
      var reader := new MmapBlobReader.Init(contents);
      var o := reader.BuildIndex();
      match o
      case Fail(e) =>
        return Failure(e);
      case Pass =>
        return Success(reader);
    }

    method BuildIndex() returns (o: Outcome<BlobError>)
      requires Valid() && blobIndex == [] && headerBlob == None
      modifies this
      ensures o.Pass? <==> MappedScan(mmap, 0).Success?
      ensures o.Fail? ==> o.error == MappedScan(mmap, 0).error
      ensures o.Pass? ==> blobIndex == MappedScan(mmap, 0).value && headerBlob == LastHeader(blobIndex)
    {
      var cur: nat := 0;
      var entries: seq<BlobIndex> := [];
      var lastHeader: Option<BlobIndex> := None;
      PrependNothing(MappedScan(mmap, 0));
      while cur < fileSize
        invariant MappedWalked(mmap, entries, lastHeader, cur)
        decreases fileSize - cur
      {
        var r := MappedHeaderAt(mmap, cur);
        match r
        case Failure(e) =>
          assert MappedScan(mmap, cur) == Failure(e);
          blobIndex, headerBlob := entries, lastHeader;
          return Fail(e);
        case Success(None) =>
          assert MappedScan(mmap, cur) == Success([]);
          break;
        case Success(Some((header, size))) =>
          var entry := BlobIndex(cur, size, header.blobType, None, ZERO_COUNTS);
          var header' := if entry.blobType.OSMHeader? then Some(entry) else lastHeader;
          MappedWalkStep(mmap, entries, lastHeader, cur, header, size, entry, header');
          lastHeader := header';
          entries := entries + [entry];
          cur := cur + 4 + size;
      }
      assert MappedScan(mmap, cur) == Success([]);
      assert entries + [] == entries;
      blobIndex, headerBlob := entries, lastHeader;
      return Pass;
    }

    /** The reader holds the index `from_file` builds. */
    ghost predicate Built()
      reads this
    {
      && Valid() && MappedScan(mmap, 0).Success?
      && blobIndex == MappedScan(mmap, 0).value && headerBlob == LastHeader(blobIndex)
    }

    /** A built reader counts the frames the cursor walk finds; none exactly
        when the file is shorter than one length prefix. */
    function BlobCount(): (n: nat)
      reads this
      ensures Built() ==> n == |ScanEntries(mmap, 0)| && (n == 0 <==> |mmap| < 4)
    {
      BuiltIndexFacts(this);
      |blobIndex|
    }

    function GetBlobIndex(index: nat): (r: Option<BlobIndex>)
      reads this
      ensures r.Some? <==> index < |blobIndex|
      ensures r.Some? ==> r.value == blobIndex[index]
      ensures Built() && r.Some? ==> EndOf(r.value) <= |mmap|
    {
      BuiltIndexFacts(this);
      if index < |blobIndex| then Some(blobIndex[index]) else None
    }

    /** Headers are never parsed, so a built reader has no header blob. */
    function HeaderBlob(): (r: Option<BlobIndex>)
      reads this
      ensures Built() ==> r == None
    {
      BuiltIndexFacts(this);
      headerBlob
    }

    function ReadBlobAtOffset(offset: nat): (r: Result<Option<Blob>, BlobError>)
      requires Valid()
      ensures r == MappedBlobAt(mmap, offset)
    {
      MappedBlobAt(mmap, offset)
    }

    function ReadBlobByIndex(index: nat): (r: Result<Option<Blob>, BlobError>)
      requires Valid()
      reads this
      ensures r == MappedBlobByIndex(mmap, blobIndex, index)
    {
      MappedBlobByIndex(mmap, blobIndex, index)
    }

    method StreamFiltered(filter: ElementFilter) returns (it: MmapFilteredBlobIterator)
      ensures fresh(it) && it.reader == this && it.filter == filter && it.currentIndex == 0
    {
      it := new MmapFilteredBlobIterator(this, filter);
    }

    method Statistics() returns (stats: IndexStatistics)
      ensures stats == StatisticsOf(blobIndex)
    {
      stats := ComputeStatistics(blobIndex);
    }

    function FindBlobsForIdRange(minId: i64, maxId: i64): (r: seq<nat>)
      reads this
      ensures forall i: nat :: i in r <==> i < |blobIndex| && MayOverlap(blobIndex[i], minId, maxId)
      ensures forall j, k :: 0 <= j < k < |r| ==> r[j] < r[k]
    {
      FindRelevant(blobIndex, minId, maxId)
    }

    /** `ParallelMmapBlobReader::from_reader`. */
    function ToParallel(): (p: ParallelMmapBlobReader)
      reads this
      ensures p.mmap == mmap && p.blobIndex == blobIndex && p.fileSize == fileSize
      ensures ParallelBlobCount(p) == BlobCount()
    {
      ParallelMmapBlobReader(mmap, blobIndex, fileSize)
    }
  }

  /** What a built reader's index is: the cursor walk, every body inside the
      file, and no header blob. */
  lemma BuiltIndexFacts(r: MmapBlobReader)
    ensures r.Built() ==>
      && r.blobIndex == ScanEntries(r.mmap, 0)
      && BodiesFit(r.mmap, r.blobIndex)
      && r.headerBlob == None
  {
    if r.Built() {
      MappedScanMatchesCursorScan(r.mmap, 0);
      MappedIndexSummary(r.mmap, DefaultFilter(), 0, 0, 0);
    }
  }

  /** A reader made by `FromFile` and its parallel copy read alike: at every
      position `ToParallel()` returns what the reader itself returns. */
  lemma ToParallelReadsLikeReader(r: MmapBlobReader, index: nat)
    requires r.Valid() && MappedScan(r.mmap, 0).Success? && r.blobIndex == MappedScan(r.mmap, 0).value
    ensures ParallelBlobByIndex(r.ToParallel(), index) == r.ReadBlobByIndex(index)
  {
    ParallelReadsLikeMapped(r.mmap, index);
  }

  class MmapFilteredBlobIterator {
    const reader: MmapBlobReader
    const filter: ElementFilter
    var currentIndex: nat

    constructor (reader: MmapBlobReader, filter: ElementFilter)
      ensures this.reader == reader && this.filter == filter && currentIndex == 0
    {
      this.reader := reader;
      this.filter := filter;
      currentIndex := 0;
    }

    method Next() returns (item: Option<Result<Blob, BlobError>>)
      requires reader.Valid()
      modifies this
      ensures (item, currentIndex) ==
        NextMatch(reader.blobIndex, MappedReadings(reader.mmap, reader.blobIndex), filter, old(currentIndex))
    {
      ghost var rs := MappedReadings(reader.mmap, reader.blobIndex);
      while currentIndex < |reader.blobIndex|
        invariant NextMatch(reader.blobIndex, rs, filter, old(currentIndex)) ==
                  NextMatch(reader.blobIndex, rs, filter, currentIndex)
        decreases |reader.blobIndex| - currentIndex
      {
        var entry := reader.blobIndex[currentIndex];
        currentIndex := currentIndex + 1;
        if ShouldInclude(filter, entry) {
          match reader.ReadBlobByIndex(currentIndex - 1)
          case Success(Some(b)) =>
            return Some(Success(b));
          case Success(None) =>
          case Failure(e) =>
            return Some(Failure(e));
        }
      }
      return None;
    }
  }
}
