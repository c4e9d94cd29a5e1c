/** Random access and filtered streaming over a stream of length-prefixed
    blobs read through a seekable cursor. Each frame is a 4-byte big-endian
    body length followed by that many body bytes; the next frame starts
    right after the body. Building the index walks the frames from offset 0.
    The module also holds the index entry, filter and statistics values that
    the memory-mapped reader shares. */
module Indexed {
  import opened Wrappers
  import opened Ints
  import opened Blobs

  // ---------------------------------------------------------------------
  // Index entries, filters and statistics

  datatype ElementCounts = ElementCounts(nodes: u32, ways: u32, relations: u32, changesets: u32)

  const ZERO_COUNTS: ElementCounts := ElementCounts(0, 0, 0, 0)

  /** One frame of the file: where it starts, the body length its prefix
      declares, its type, and what is known of its contents. */
  datatype BlobIndex = BlobIndex(
    offset: nat,
    size: u32,
    blobType: BlobType,
    idRange: Option<(i64, i64)>,
    elementCounts: ElementCounts)

  /** First byte after the frame's declared body. */
  function EndOf(e: BlobIndex): nat {
    e.offset + 4 + e.size
  }

  datatype ElementFilter = ElementFilter(
    includeNodes: bool,
    includeWays: bool,
    includeRelations: bool,
    includeChangesets: bool,
    idRanges: seq<(i64, i64)>,
    tagFilters: map<string, Option<string>>,
    resolveDependencies: bool)

  /** Nodes, ways and relations, no changesets, no ranges, no tags. */
  function DefaultFilter(): (f: ElementFilter)
    ensures f.includeNodes && f.includeWays && f.includeRelations && !f.includeChangesets
    ensures f.idRanges == [] && f.tagFilters == map[] && !f.resolveDependencies
  {
    ElementFilter(true, true, true, false, [], map[], false)
  }

  function All(): (f: ElementFilter)
    ensures f == DefaultFilter()
  {
    DefaultFilter()
  }

  function NodesOnly(): (f: ElementFilter)
    ensures f.includeNodes && !f.includeWays && !f.includeRelations && !f.includeChangesets
    ensures f.(includeWays := true, includeRelations := true) == DefaultFilter()
  {
    DefaultFilter().(includeNodes := true, includeWays := false, includeRelations := false, includeChangesets := false)
  }

  /** Ways, plus the nodes they reference when dependencies are resolved. */
  function WaysOnly(resolveDependencies: bool): (f: ElementFilter)
    ensures f.includeWays && !f.includeRelations && !f.includeChangesets
    ensures f.includeNodes == resolveDependencies && f.resolveDependencies == resolveDependencies
    ensures f.idRanges == [] && f.tagFilters == map[]
  {
    DefaultFilter().(includeNodes := resolveDependencies, includeWays := true, includeRelations := false,
                     includeChangesets := false, resolveDependencies := resolveDependencies)
  }

  /** Appends an id range; nothing else changes. */
  function WithIdRange(f: ElementFilter, minId: i64, maxId: i64): (g: ElementFilter)
    ensures |g.idRanges| == |f.idRanges| + 1 && g.idRanges[|f.idRanges|] == (minId, maxId)
    ensures g.idRanges[..|f.idRanges|] == f.idRanges
    ensures g.(idRanges := f.idRanges) == f
  {
    f.(idRanges := f.idRanges + [(minId, maxId)])
  }

  /** Requires `key` with any value; replaces an earlier filter on `key`. */
  function WithTagKey(f: ElementFilter, key: string): (g: ElementFilter)
    ensures key in g.tagFilters && g.tagFilters[key] == None
    ensures forall k :: k != key ==> (k in g.tagFilters <==> k in f.tagFilters)
    ensures forall k :: k != key && k in f.tagFilters ==> g.tagFilters[k] == f.tagFilters[k]
    ensures g.(tagFilters := f.tagFilters) == f
  {
    f.(tagFilters := f.tagFilters[key := None])
  }

  /** Requires `key` with exactly `value`; replaces an earlier filter on `key`. */
  function WithTag(f: ElementFilter, key: string, value: string): (g: ElementFilter)
    ensures key in g.tagFilters && g.tagFilters[key] == Some(value)
    ensures forall k :: k != key ==> (k in g.tagFilters <==> k in f.tagFilters)
    ensures forall k :: k != key && k in f.tagFilters ==> g.tagFilters[k] == f.tagFilters[k]
    ensures g.(tagFilters := f.tagFilters) == f
  {
    f.(tagFilters := f.tagFilters[key := Some(value)])
  }

  /** Whether the streaming iterators hand out the blob of an entry: headers
      always, unknown blobs never, data blobs when one of the requested element
      kinds occurs in them. Id ranges and tag filters are not consulted. */
  function ShouldInclude(f: ElementFilter, e: BlobIndex): (b: bool)
    ensures e.blobType.OSMHeader? ==> b
    ensures e.blobType.Unknown? ==> !b
    ensures e.elementCounts == ZERO_COUNTS ==> (b <==> e.blobType.OSMHeader?)
  {
    match e.blobType
    case OSMHeader => true
    case OSMData =>
      || (f.includeNodes && e.elementCounts.nodes > 0)
      || (f.includeWays && e.elementCounts.ways > 0)
      || (f.includeRelations && e.elementCounts.relations > 0)
      || (f.includeChangesets && e.elementCounts.changesets > 0)
    case Unknown(_) => false
  }

  /** What each preset filter selects. */
  lemma PresetSelections(e: BlobIndex, resolve: bool)
    ensures ShouldInclude(NodesOnly(), e) <==>
      e.blobType.OSMHeader? || (e.blobType.OSMData? && e.elementCounts.nodes > 0)
    ensures ShouldInclude(WaysOnly(resolve), e) <==>
      || e.blobType.OSMHeader?
      || (e.blobType.OSMData? && (e.elementCounts.ways > 0 || (resolve && e.elementCounts.nodes > 0)))
    ensures ShouldInclude(All(), e) <==>
      || e.blobType.OSMHeader?
      || (e.blobType.OSMData? &&
          (e.elementCounts.nodes > 0 || e.elementCounts.ways > 0 || e.elementCounts.relations > 0))
  {
  }

  /** Adding id ranges or tag filters never changes which blobs are streamed. */
  lemma BuildersKeepSelection(f: ElementFilter, e: BlobIndex, lo: i64, hi: i64, key: string, value: string)
    ensures ShouldInclude(WithIdRange(f, lo, hi), e) == ShouldInclude(f, e)
    ensures ShouldInclude(WithTagKey(f, key), e) == ShouldInclude(f, e)
    ensures ShouldInclude(WithTag(f, key, value), e) == ShouldInclude(f, e)
  {
  }

  /** For one key, the last tag filter written is the one kept. */
  lemma LastTagWriteWins(f: ElementFilter, key: string, value: string)
    ensures WithTag(WithTagKey(f, key), key, value).tagFilters[key] == Some(value)
    ensures WithTagKey(WithTag(f, key, value), key).tagFilters[key] == None
    ensures WithTag(WithTagKey(f, key), key, value) == WithTag(f, key, value)
  {
  }

  datatype IndexStatistics = IndexStatistics(
    totalBlobs: nat,
    headerBlobs: nat,
    dataBlobs: nat,
    unknownBlobs: nat,
    totalNodes: nat,
    totalWays: nat,
    totalRelations: nat,
    totalChangesets: nat)

  const ZERO_STATS: IndexStatistics := IndexStatistics(0, 0, 0, 0, 0, 0, 0, 0)

  /** The per-entry update of the statistics loop. */
  function AddEntry(s: IndexStatistics, e: BlobIndex): IndexStatistics {
    var t := match e.blobType
      case OSMHeader => s.(headerBlobs := s.headerBlobs + 1)
      case OSMData => s.(dataBlobs := s.dataBlobs + 1)
      case Unknown(_) => s.(unknownBlobs := s.unknownBlobs + 1);
    t.(totalNodes := t.totalNodes + e.elementCounts.nodes,
       totalWays := t.totalWays + e.elementCounts.ways,
       totalRelations := t.totalRelations + e.elementCounts.relations,
       totalChangesets := t.totalChangesets + e.elementCounts.changesets)
  }

  /** The counters after visiting `es` in order; every entry is counted under
      exactly one type. */
  function Tally(es: seq<BlobIndex>): (s: IndexStatistics)
    ensures s.totalBlobs == 0
    ensures s.headerBlobs + s.dataBlobs + s.unknownBlobs == |es|
  {
    if es == [] then ZERO_STATS else AddEntry(Tally(es[..|es| - 1]), es[|es| - 1])
  }

  function StatisticsOf(es: seq<BlobIndex>): (s: IndexStatistics)
    ensures s.totalBlobs == |es| == s.headerBlobs + s.dataBlobs + s.unknownBlobs
  {
    Tally(es).(totalBlobs := |es|)
  }

  /** Fieldwise sum of two sets of counters. */
  function Merge(a: IndexStatistics, b: IndexStatistics): IndexStatistics {
    IndexStatistics(
      a.totalBlobs + b.totalBlobs, a.headerBlobs + b.headerBlobs, a.dataBlobs + b.dataBlobs,
      a.unknownBlobs + b.unknownBlobs, a.totalNodes + b.totalNodes, a.totalWays + b.totalWays,
      a.totalRelations + b.totalRelations, a.totalChangesets + b.totalChangesets)
  }

  /** Counting a concatenation is counting its parts and adding up, so the
      totals do not depend on how the index is split. */
  lemma {:induction false} TallyAppend(a: seq<BlobIndex>, b: seq<BlobIndex>)
    ensures Tally(a + b) == Merge(Tally(a), Tally(b))
    decreases |b|
  {
    if b == [] {
      assert a + b == a;
      MergeZero(Tally(a));
    } else {
      var b' := b[..|b| - 1];
      var e := b[|b| - 1];
      calc {
        Tally(a + b);
        { assert (a + b)[..|a + b| - 1] == a + b'; assert (a + b)[|a + b| - 1] == e; }
        AddEntry(Tally(a + b'), e);
        { TallyAppend(a, b'); }
        AddEntry(Merge(Tally(a), Tally(b')), e);
        { AddEntryMerge(Tally(a), Tally(b'), e); }
        Merge(Tally(a), AddEntry(Tally(b'), e));
      }
    }
  }

  lemma MergeZero(x: IndexStatistics)
    ensures Merge(x, ZERO_STATS) == x
  {
  }

  lemma AddEntryMerge(x: IndexStatistics, y: IndexStatistics, e: BlobIndex)
    ensures AddEntry(Merge(x, y), e) == Merge(x, AddEntry(y, e))
  {
  }

  /** An index whose entries are all data blobs with no known contents has
      only data blobs and zero element totals. */
  lemma {:induction false} StatisticsOfPlainData(es: seq<BlobIndex>)
    requires forall i :: 0 <= i < |es| ==> es[i].blobType == OSMData && es[i].elementCounts == ZERO_COUNTS
    ensures StatisticsOf(es) == IndexStatistics(|es|, 0, |es|, 0, 0, 0, 0, 0)
  {
    if es != [] {
      StatisticsOfPlainData(es[..|es| - 1]);
    }
  }

  /** The statistics loop: one pass over the entries, then the total. */
  method ComputeStatistics(entries: seq<BlobIndex>) returns (stats: IndexStatistics)
    ensures stats == StatisticsOf(entries)
  {
    stats := ZERO_STATS;
    for i := 0 to |entries|
      invariant stats == Tally(entries[..i])
    {
      var e := entries[i];
      match e.blobType {
        case OSMHeader => stats := stats.(headerBlobs := stats.headerBlobs + 1);
        case OSMData => stats := stats.(dataBlobs := stats.dataBlobs + 1);
        case Unknown(_) => stats := stats.(unknownBlobs := stats.unknownBlobs + 1);
      }
      stats := stats.(totalNodes := stats.totalNodes + e.elementCounts.nodes,
                      totalWays := stats.totalWays + e.elementCounts.ways,
                      totalRelations := stats.totalRelations + e.elementCounts.relations,
                      totalChangesets := stats.totalChangesets + e.elementCounts.changesets);
      assert entries[..i + 1][..i] == entries[..i];
    }
    assert entries[..|entries|] == entries;
    stats := stats.(totalBlobs := |entries|);
  }

  /** Whether an entry may hold ids in `[minId, maxId]`: entries without a
      known range are kept to be safe. */
  predicate MayOverlap(e: BlobIndex, minId: i64, maxId: i64) {
    match e.idRange
    case None => true
    case Some(r) => r.0 <= maxId && r.1 >= minId
  }

  /** The positions of the entries that may hold ids in the range, ascending. */
  function FindRelevant(es: seq<BlobIndex>, minId: i64, maxId: i64): (r: seq<nat>)
    ensures forall i: nat :: i in r <==> i < |es| && MayOverlap(es[i], minId, maxId)
    ensures forall j, k :: 0 <= j < k < |r| ==> r[j] < r[k]
    ensures forall j :: 0 <= j < |r| ==> r[j] < |es|
  {
    if es == [] then []
    else
      var rest := FindRelevant(es[..|es| - 1], minId, maxId);
      if MayOverlap(es[|es| - 1], minId, maxId) then
        rest + [|es| - 1]
      else rest
  }

  /** Without any known id range every entry is relevant. */
  lemma {:induction false} FindRelevantWithoutRanges(es: seq<BlobIndex>, minId: i64, maxId: i64)
    requires forall i :: 0 <= i < |es| ==> es[i].idRange == None
    ensures FindRelevant(es, minId, maxId) == seq(|es|, i => i)
  {
    if es != [] {
      FindRelevantWithoutRanges(es[..|es| - 1], minId, maxId);
    }
  }

  // ---------------------------------------------------------------------
  // The frame walk over a byte source

  /** The body length declared by the prefix at `o`. */
  function LengthAt(source: seq<byte>, o: nat): u32
    requires o + 4 <= |source|
  {
    FromBeBytes(source[o], source[o + 1], source[o + 2], source[o + 3])
  }

  /** The index entry made for the frame at `o`: headers are not parsed, so
      it is always a data blob with no known id range or counts. */
  function EntryAt(source: seq<byte>, o: nat): (e: BlobIndex)
    requires o + 4 <= |source|
    ensures e.offset == o && e.size == LengthAt(source, o)
  {
    BlobIndex(o, LengthAt(source, o), OSMData, None, ZERO_COUNTS)
  }

  /** The entries the cursor index finds from `offset` on: a frame starts
      wherever a full length prefix can be read, whether or not its body fits. */
  function ScanEntries(source: seq<byte>, offset: nat): seq<BlobIndex>
    decreases |source| - offset
  {
    if offset + 4 > |source| then []
    else [EntryAt(source, offset)] + ScanEntries(source, offset + 4 + LengthAt(source, offset))
  }

  /** `es` tiles `source` from `offset`: each entry is the frame read at its
      offset, the first starts at `offset`, each next one right after the body
      of the previous one, and after the last no full prefix remains. */
  ghost predicate Tiles(source: seq<byte>, offset: nat, es: seq<BlobIndex>) {
    && (forall i :: 0 <= i < |es| ==> es[i].offset + 4 <= |source| && es[i] == EntryAt(source, es[i].offset))
    && (|es| > 0 ==> es[0].offset == offset)
    && (forall i, j :: 0 <= i && j == i + 1 && j < |es| ==> es[j].offset == EndOf(es[i]))
    && (if es == [] then offset else EndOf(es[|es| - 1])) + 4 > |source|
  }

  /** The cursor index tiles the source. */
  lemma {:induction false} ScanEntriesTile(source: seq<byte>, offset: nat)
    ensures Tiles(source, offset, ScanEntries(source, offset))
    decreases |source| - offset
  {
    if offset + 4 <= |source| {
      var next := offset + 4 + LengthAt(source, offset);
      var rest := ScanEntries(source, next);
      var es := ScanEntries(source, offset);
      ScanEntriesTile(source, next);
      assert es == [EntryAt(source, offset)] + rest;
      forall i, j | 0 <= i && j == i + 1 && j < |es|
        ensures es[j].offset == EndOf(es[i])
      {
        if i > 0 {
          assert es[i] == rest[i - 1] && es[j] == rest[j - 1];
        }
      }
    }
  }

  /** Entry offsets strictly increase along the index. */
  lemma {:induction false} ScanOffsetsIncrease(source: seq<byte>, offset: nat, i: nat, j: nat)
    requires i < j < |ScanEntries(source, offset)|
    ensures ScanEntries(source, offset)[i].offset < ScanEntries(source, offset)[j].offset
    decreases j - i
  {
    var es := ScanEntries(source, offset);
    ScanEntriesTile(source, offset);
    if j > i + 1 {
      ScanOffsetsIncrease(source, offset, i, j - 1);
    }
    assert es[j].offset == EndOf(es[j - 1]);
  }

  /** Only the last entry can overrun the source: every earlier body is
      followed by another full prefix. */
  lemma ScanOnlyLastMayOverrun(source: seq<byte>, offset: nat)
    ensures var es := ScanEntries(source, offset);
      forall i :: 0 <= i < |es| - 1 ==> EndOf(es[i]) + 4 <= |source|
  {
    var es := ScanEntries(source, offset);
    ScanEntriesTile(source, offset);
    forall i | 0 <= i < |es| - 1
      ensures EndOf(es[i]) + 4 <= |source|
    {
      assert es[i + 1].offset == EndOf(es[i]);
    }
  }

  /** An empty source has no entries; so has any source shorter than a prefix. */
  lemma ScanShortSource(source: seq<byte>)
    requires |source| < 4
    ensures ScanEntries(source, 0) == []
  {
  }

  /** The most recent header entry, as the index keeps it. */
  function LastHeader(es: seq<BlobIndex>): Option<BlobIndex> {
    if es == [] then None
    else if es[|es| - 1].blobType.OSMHeader? then Some(es[|es| - 1])
    else LastHeader(es[..|es| - 1])
  }

  /** Headers are never parsed, so no index built by a frame walk records
      a header blob. */
  lemma {:induction false} NoHeaderAmongData(es: seq<BlobIndex>)
    requires forall i :: 0 <= i < |es| ==> es[i].blobType == OSMData
    ensures LastHeader(es) == None
  {
    if es != [] {
      NoHeaderAmongData(es[..|es| - 1]);
    }
  }

  /** `m` maps the offset of each entry to its position, and nothing else. */
  ghost predicate IndexesOffsets(m: map<nat, nat>, es: seq<BlobIndex>) {
    && (forall o :: o in m ==> m[o] < |es| && es[m[o]].offset == o)
    && (forall i :: 0 <= i < |es| ==> es[i].offset in m && m[es[i].offset] == i)
  }

  /** Recording one more entry whose offset is beyond all earlier ones keeps
      the offset map exact. */
  lemma IndexOffsetsAppend(m: map<nat, nat>, es: seq<BlobIndex>, e: BlobIndex)
    requires IndexesOffsets(m, es)
    requires forall i :: 0 <= i < |es| ==> es[i].offset < e.offset
    ensures IndexesOffsets(m[e.offset := |es|], es + [e])
  {
    var m', es' := m[e.offset := |es|], es + [e];
    forall o | o in m'
      ensures m'[o] < |es'| && es'[m'[o]].offset == o
    {
      if o != e.offset {
        assert es'[m[o]] == es[m[o]];
      }
    }
    forall i | 0 <= i < |es'|
      ensures es'[i].offset in m' && m'[es'[i].offset] == i
    {
      if i < |es| {
        assert es'[i] == es[i];
      }
    }
  }

  /** One step of the frame walk: the frame at `cur` is followed by the walk
      from the end of its body. */
  lemma ScanStep(source: seq<byte>, done: seq<BlobIndex>, cur: nat)
    requires cur + 4 <= |source|
    ensures done + ScanEntries(source, cur) ==
      (done + [EntryAt(source, cur)]) + ScanEntries(source, cur + 4 + LengthAt(source, cur))
  {
  }

  /** The state of `build_index` after walking to `cur`: the entries so far
      followed by the walk from `cur` make up the whole walk, the header entry
      is the last header among them, and the map finds each by its offset. */
  ghost predicate Walked(source: seq<byte>, es: seq<BlobIndex>, header: Option<BlobIndex>, m: map<nat, nat>, cur: nat) {
    && ScanEntries(source, 0) == es + ScanEntries(source, cur)
    && header == LastHeader(es)
    && IndexesOffsets(m, es)
    && (forall i :: 0 <= i < |es| ==> es[i].offset < cur)
  }

  /** Recording the frame at `cur` and moving past its body keeps `Walked`. */
  lemma WalkStep(source: seq<byte>, es: seq<BlobIndex>, header: Option<BlobIndex>, m: map<nat, nat>, cur: nat,
                 e: BlobIndex, header': Option<BlobIndex>)
    requires Walked(source, es, header, m, cur) && cur + 4 <= |source|
    requires e == EntryAt(source, cur)
    requires header' == if e.blobType.OSMHeader? then Some(e) else header
    ensures Walked(source, es + [e], header', m[cur := |es|], cur + 4 + e.size)
  {
    IndexOffsetsAppend(m, es, e);
    ScanStep(source, es, cur);
    assert (es + [e])[..|es + [e]| - 1] == es;
  }

  /** What `read_blob_header_at_offset` returns: the declared length, or
      nothing when a prefix can no longer be read. */
  function CursorHeaderAt(source: seq<byte>, offset: nat): (r: Result<Option<(BlobHeader, u32)>, BlobError>)
    ensures r.Success?
    ensures r.value.None? <==> offset + 4 > |source|
    ensures r.value.Some? ==>
      r.value.value == (NewHeader(OSMData, LengthAt(source, offset)), LengthAt(source, offset))
  {
    if offset + 4 > |source| then Success(None)
    else
      var n := LengthAt(source, offset);
      Success(Some((NewHeader(OSMData, n), n)))
  }

  /** What `read_blob_at_offset` returns through the cursor. */
  function CursorBlobAt(source: seq<byte>, offset: nat): (r: Result<Option<Blob>, BlobError>)
    ensures r == Success(None) <==> offset + 4 > |source|
    ensures offset + 4 <= |source| ==>
      var n := LengthAt(source, offset);
      && (offset + 4 + n > |source| ==> r == Failure(Io(UnexpectedEof)))
      && (offset + 4 + n <= |source| && n > MAX_BLOB_MESSAGE_SIZE ==>
            r == Failure(MessageTooLarge(n, MAX_BLOB_MESSAGE_SIZE)))
      && (offset + 4 + n <= |source| && n <= MAX_BLOB_MESSAGE_SIZE ==>
            && r.Success? && r.value.Some?
            && r.value.value.data == Raw(source[offset + 4 .. offset + 4 + n])
            && BlobTypeOf(r.value.value) == OSMData && OffsetOf(r.value.value) == offset)
  {
    if offset + 4 > |source| then Success(None)
    else
      var n := LengthAt(source, offset);
      if offset + 4 + n > |source| then Failure(Io(UnexpectedEof))
      else
        match NewRawChecked(OSMData, source[offset + 4 .. offset + 4 + n], offset)
        case Failure(e) => Failure(e)
        case Success(b) => Success(Some(b))
  }

  /** What `read_blob_by_index` returns through the cursor. */
  function CursorBlobByIndex(source: seq<byte>, entries: seq<BlobIndex>, index: nat): (r: Result<Option<Blob>, BlobError>)
    ensures index >= |entries| ==> r == Failure(InvalidFormat(IndexOutOfRange(index)))
    ensures index < |entries| ==> r == CursorBlobAt(source, entries[index].offset)
  {
    if index >= |entries| then Failure(InvalidFormat(IndexOutOfRange(index)))
    else CursorBlobAt(source, entries[index].offset)
  }

  /** A kept entry whose body overruns the source fails only when it is read. */
  lemma OverrunFailsOnRead(source: seq<byte>, i: nat)
    requires i < |ScanEntries(source, 0)|
    ensures var e := ScanEntries(source, 0)[i];
      CursorBlobAt(source, e.offset) == Failure(Io(UnexpectedEof)) <==> EndOf(e) > |source|
  {
    ScanEntriesTile(source, 0);
  }

  /** The read result for each entry, in index order. */
  function Readings(source: seq<byte>, entries: seq<BlobIndex>): (rs: seq<Result<Option<Blob>, BlobError>>)
    ensures |rs| == |entries|
    ensures forall i :: 0 <= i < |entries| ==> rs[i] == CursorBlobAt(source, entries[i].offset)
  {
    seq(|entries|, i requires 0 <= i < |entries| => CursorBlobAt(source, entries[i].offset))
  }

  // ---------------------------------------------------------------------
  // Filtered streaming

  /** One call of the iterator's `next` from position `k`, given the read
      result of every entry: the item it returns and the position it leaves. */
  function NextMatch(entries: seq<BlobIndex>, readings: seq<Result<Option<Blob>, BlobError>>,
                     f: ElementFilter, k: nat): (Option<Result<Blob, BlobError>>, nat)
    requires |readings| == |entries|
    decreases |entries| - k
  {
    if k >= |entries| then (None, k)
    else if ShouldInclude(f, entries[k]) then
      match readings[k]
      case Success(Some(b)) => (Some(Success(b)), k + 1)
      case Success(None) => NextMatch(entries, readings, f, k + 1)
      case Failure(e) => (Some(Failure(e)), k + 1)
    else NextMatch(entries, readings, f, k + 1)
  }

  /** What one call of `next` promises: it never moves backwards; when it
      yields nothing it has run off the end and every selected entry it
      passed was unreadable as a blob; when it yields an item, that item is
      the read result of the selected entry just before the new position,
      and every selected entry skipped on the way read as nothing. */
  lemma {:induction false} NextMatchSpec(entries: seq<BlobIndex>, readings: seq<Result<Option<Blob>, BlobError>>,
                                         f: ElementFilter, k: nat)
    requires |readings| == |entries|
    ensures var r := NextMatch(entries, readings, f, k); k <= r.1
    ensures var r := NextMatch(entries, readings, f, k);
      r.0.None? ==>
        && r.1 == (if k < |entries| then |entries| else k)
        && forall j :: k <= j < |entries| && ShouldInclude(f, entries[j]) ==> readings[j] == Success(None)
    ensures var r := NextMatch(entries, readings, f, k);
      r.0.Some? ==>
        && k < r.1 <= |entries|
        && ShouldInclude(f, entries[r.1 - 1])
        && (match readings[r.1 - 1]
            case Success(Some(b)) => r.0.value == Success(b)
            case Success(None) => false
            case Failure(e) => r.0.value == Failure(e))
        && forall j :: k <= j < r.1 - 1 && ShouldInclude(f, entries[j]) ==> readings[j] == Success(None)
    decreases |entries| - k
  {
    if k < |entries| {
      NextMatchSpec(entries, readings, f, k + 1);
    }
  }

  /** Over an index built by a frame walk no filter selects anything: all
      entries are data blobs with zero counts, so the stream is empty. */
  lemma {:induction false} NothingStreamedFromPlainData(
    entries: seq<BlobIndex>, readings: seq<Result<Option<Blob>, BlobError>>, f: ElementFilter, k: nat)
    requires |readings| == |entries|
    requires forall i :: 0 <= i < |entries| ==> entries[i].blobType == OSMData && entries[i].elementCounts == ZERO_COUNTS
    ensures NextMatch(entries, readings, f, k).0 == None
    decreases |entries| - k
  {
    if k < |entries| {
      assert !ShouldInclude(f, entries[k]);
      NothingStreamedFromPlainData(entries, readings, f, k + 1);
    }
  }

  /** Every entry is a data blob with no known id range and zero counts. */
  predicate PlainData(es: seq<BlobIndex>) {
    forall i :: 0 <= i < |es| ==>
      es[i].blobType == OSMData && es[i].idRange == None && es[i].elementCounts == ZERO_COUNTS
  }

  /** Every entry of the frame walk is a data blob with no known id range
      and zero element counts, since headers are never parsed. */
  lemma ScanEntriesArePlainData(source: seq<byte>, offset: nat)
    ensures PlainData(ScanEntries(source, offset))
  {
    ScanEntriesTile(source, offset);
  }

  /** What an index built by the frame walk reports: no header blob, every
      entry counted as a data blob with no elements, every entry relevant to
      any id range, and no filter streaming anything. */
  lemma WalkedIndexSummary(source: seq<byte>, f: ElementFilter, minId: i64, maxId: i64, k: nat)
    ensures var es := ScanEntries(source, 0);
      && LastHeader(es) == None
      && StatisticsOf(es) == IndexStatistics(|es|, 0, |es|, 0, 0, 0, 0, 0)
      && FindRelevant(es, minId, maxId) == seq(|es|, i => i)
      && NextMatch(es, Readings(source, es), f, k).0 == None
  {
    var es := ScanEntries(source, 0);
    ScanEntriesArePlainData(source, 0);
    NoHeaderAmongData(es);
    StatisticsOfPlainData(es);
    FindRelevantWithoutRanges(es, minId, maxId);
    NothingStreamedFromPlainData(es, Readings(source, es), f, k);
  }

  // ---------------------------------------------------------------------
  // The reader

  /** An indexed reader over an in-memory source with a cursor position. */
  class IndexedReader {
    const source: seq<byte>
    var pos: nat
    var blobIndex: seq<BlobIndex>
    var headerBlob: Option<BlobIndex>
    var offsetToIndex: map<nat, nat>

    /** The index is the frame walk of the whole source. */
    ghost predicate Indexed()
      reads this
    {
      && blobIndex == ScanEntries(source, 0)
      && headerBlob == LastHeader(blobIndex)
      && IndexesOffsets(offsetToIndex, blobIndex)
    }

    constructor (source: seq<byte>)
      ensures this.source == source
      ensures Indexed()
    {
      this.source := source;
      pos := 0;
      blobIndex := [];
      headerBlob := None;
      offsetToIndex := map[];
      new;
      BuildIndex();
    }

    /** `seek(SeekFrom::Start(offset))`: a cursor may be placed anywhere. */
    method Seek(offset: nat)
      modifies this`pos
      ensures pos == offset
    {
      pos := offset;
    }

    /** `read_exact` on the cursor: `n` bytes from the position, or an
      end-of-file error that leaves the cursor at the end. */
    method ReadExact(n: nat) returns (r: Result<seq<byte>, IoErrorKind>)
      modifies this`pos
      ensures r.Success? <==> n == 0 || old(pos) + n <= |source|
      ensures r.Success? ==>
        && r.value == (if n == 0 then [] else source[old(pos) .. old(pos) + n])
        && pos == old(pos) + n
      ensures r.Failure? ==> pos == |source|
    {
      if n == 0 {
        return Success([]);
      }
      if pos + n <= |source| {
        r := Success(source[pos .. pos + n]);
        pos := pos + n;
      } else {
        r := Failure(UnexpectedEof);
        pos := |source|;
      }
    }

    method ReadBlobHeaderAtOffset(offset: nat) returns (r: Result<Option<(BlobHeader, u32)>, BlobError>)
      modifies this`pos
      ensures r == CursorHeaderAt(source, offset)
    {
      Seek(offset);
      var prefix := ReadExact(4);
      match prefix
      case Failure(UnexpectedEof) =>
        return Success(None);
      case Success(bytes) =>
        var size := FromBeBytes(bytes[0], bytes[1], bytes[2], bytes[3]);
        return Success(Some((NewHeader(OSMData, size), size)));
    }

    /** Walks the frames from offset 0 until no full prefix remains, recording
      every frame and its position by offset. */
    method BuildIndex()
      requires blobIndex == [] && headerBlob == None && offsetToIndex == map[]
      modifies this
      ensures Indexed()
    {
      Seek(0);
      var cur: nat := 0;
      var entries: seq<BlobIndex> := [];
      var lastHeader: Option<BlobIndex> := None;
      var offsets: map<nat, nat> := map[];
      assert ScanEntries(source, 0) == entries + ScanEntries(source, cur);
      while true
        invariant Walked(source, entries, lastHeader, offsets, cur)
        decreases |source| - cur
      {
        var r := ReadBlobHeaderAtOffset(cur);
        // The in-memory cursor only reports end of file, which the header
        // read maps to `None`; the logged-error branch cannot arise.
        match r
        case Success(None) =>
          assert entries + ScanEntries(source, cur) == entries;
          break;
        case Success(Some((header, size))) =>
          var entry := BlobIndex(cur, size, header.blobType, None, ZERO_COUNTS);
          var header' := if entry.blobType.OSMHeader? then Some(entry) else lastHeader;
          WalkStep(source, entries, lastHeader, offsets, cur, entry, header');
          lastHeader := header';
          offsets := offsets[cur := |entries|];
          entries := entries + [entry];
          cur := cur + 4 + size;
      }
      blobIndex, headerBlob, offsetToIndex := entries, lastHeader, offsets;
    }

    /** Headers are never parsed, so an indexed reader has no header blob. */
    function HeaderBlob(): (r: Option<BlobIndex>)
      reads this
      ensures Indexed() ==> r == LastHeader(blobIndex) && r == None
    {
      WalkedIndexSummary(source, DefaultFilter(), 0, 0, 0);
      headerBlob
    }

    /** The number of frames the walk found; none exactly when the source is
        shorter than one length prefix. */
    function BlobCount(): (n: nat)
      reads this
      ensures Indexed() ==> n == |ScanEntries(source, 0)| && (n == 0 <==> |source| < 4)
    {
      |blobIndex|
    }

    /** The entry at a position, which the offset map finds back by its offset. */
    function GetBlobIndex(index: nat): (r: Option<BlobIndex>)
      reads this
      ensures r.Some? <==> index < BlobCount()
      ensures r.Some? ==> r.value == blobIndex[index]
      ensures Indexed() && r.Some? ==> r.value.offset in offsetToIndex && offsetToIndex[r.value.offset] == index
    {
      if index < |blobIndex| then Some(blobIndex[index]) else None
    }

    method ReadBlobAtOffset(offset: nat) returns (r: Result<Option<Blob>, BlobError>)
      modifies this`pos
      ensures r == CursorBlobAt(source, offset)
    {
      Seek(offset);
      var prefix := ReadExact(4);
      match prefix
      case Failure(UnexpectedEof) =>
        return Success(None);
      case Success(bytes) =>
        var size := FromBeBytes(bytes[0], bytes[1], bytes[2], bytes[3]);
        assert size == LengthAt(source, offset);
        var body := ReadExact(size);
        match body
        case Failure(e) =>
          assert offset + 4 + size > |source| && e == UnexpectedEof;
          return Failure(Io(e));
        case Success(data) =>
          match NewRawChecked(OSMData, data, offset)
          case Failure(e) =>
            return Failure(e);
          case Success(b) =>
            return Success(Some(b));
    }

    method ReadBlobByIndex(index: nat) returns (r: Result<Option<Blob>, BlobError>)
      modifies this`pos
      ensures r == CursorBlobByIndex(source, blobIndex, index)
    {
      if index >= |blobIndex| {
        return Failure(InvalidFormat(IndexOutOfRange(index)));
      }
      r := ReadBlobAtOffset(blobIndex[index].offset);
    }

    method StreamFiltered(filter: ElementFilter) returns (it: FilteredBlobIterator)
      ensures fresh(it) && it.reader == this && it.filter == filter && it.currentIndex == 0
    {
      it := new FilteredBlobIterator(this, filter);
    }

    method Statistics() returns (stats: IndexStatistics)
      ensures stats == StatisticsOf(blobIndex)
    {
      stats := ComputeStatistics(blobIndex);
    }

    function FindBlobsForIdRange(minId: i64, maxId: i64): (r: seq<nat>)
      reads this
      ensures forall i: nat :: i in r <==> i < |blobIndex| && MayOverlap(blobIndex[i], minId, maxId)
      ensures forall j, k :: 0 <= j < k < |r| ==> r[j] < r[k]
    {
      FindRelevant(blobIndex, minId, maxId)
    }
  }

  /** Streams the blobs of the entries a filter selects, in index order. */
  class FilteredBlobIterator {
    const reader: IndexedReader
    const filter: ElementFilter
    var currentIndex: nat

    constructor (reader: IndexedReader, filter: ElementFilter)
      ensures this.reader == reader && this.filter == filter && currentIndex == 0
    {
      this.reader := reader;
      this.filter := filter;
      currentIndex := 0;
    }

    method Next() returns (item: Option<Result<Blob, BlobError>>)
      modifies this, reader`pos
      ensures (item, currentIndex) ==
        NextMatch(reader.blobIndex, Readings(reader.source, reader.blobIndex), filter, old(currentIndex))
    {
      ghost var rs := Readings(reader.source, reader.blobIndex);
      while currentIndex < |reader.blobIndex|
        invariant rs == Readings(reader.source, reader.blobIndex)
        invariant NextMatch(reader.blobIndex, rs, filter, old(currentIndex)) ==
                  NextMatch(reader.blobIndex, rs, filter, currentIndex)
        decreases |reader.blobIndex| - currentIndex
      {
        var entry := reader.blobIndex[currentIndex];
        currentIndex := currentIndex + 1;
        if ShouldInclude(filter, entry) {
          var r := reader.ReadBlobByIndex(currentIndex - 1);
          match r
          case Success(Some(b)) =>
            return Some(Success(b));
          case Success(None) =>
          case Failure(e) =>
            return Some(Failure(e));
        }
      }
      return None;
    }
  }
}
