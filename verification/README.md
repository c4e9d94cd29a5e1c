# osm-pbf: blob framing, indexing and streaming

This project models the reading layer of the `osm-pbf` Rust crate. An OSM PBF file is a run of frames. Each frame is a 4-byte big-endian body length followed by that many body bytes, and the next frame starts right after the body. The crate has two index builders over such a file:

- a memory-mapped reader (`MmapBlobReader`), which rejects a frame whose body runs past the end of the file;
- a cursor-based reader (`IndexedReader`), which keeps such a frame and fails only when it is read.

On top of the index sit:

- per-entry reads;
- id-range lookup;
- index statistics;
- filtered blob iterators;
- the high-level `Reader`, whose passes count blobs, read errors and elements and hand every element to a processor.

The model also covers the small value types the crate defines:

- blob types and sizes;
- the string table;
- primitive-block defaults;
- the validated replication fields of the header block;
- nanodegree angles.

Element decoding is a placeholder in the crate: every blob yields no elements, and blob headers are never parsed, so every index entry is a data blob. The model follows that code. The passes are stated for an arbitrary extractor, and the placeholder is one instance of it.

Modules, one per source file, plus two helper modules:

| file | module | source |
|---|---|---|
| wrappers.dfy | Wrappers | `Option`, `Result`, `Result<(), E>` |
| ints.dfy | Ints | Rust integer widths, `as u32`, `u32::from_be_bytes` |
| blob.dfy | Blobs | src/io/blob.rs |
| indexed_reader.dfy | Indexed | src/io/indexed_reader.rs |
| mmap_blob.dfy | Mmap | src/io/mmap_blob.rs |
| reader.dfy | Readers | src/io/reader.rs |
| string_table.dfy | StringTables | src/blocks/string_table.rs |
| primitive_block.dfy | PrimitiveBlocks | src/blocks/primitives/*.rs |
| header_block.dfy | HeaderBlocks | src/blocks/header_block.rs |
| nano_degree.dfy | NanoDegrees | src/blocks/nano_degree.rs |

The code that changes state is imperative Dafny:

- `IndexedReader` is a class with a cursor `pos` and the index fields. `Seek`, `ReadExact`, the reads and `BuildIndex` are methods.
- `MmapBlobReader` is a class whose `BuildIndex` loop fills the index.
- Both filtered iterators are classes with a `currentIndex`.
- `StringTable.AddString` appends in place.
- The `Reader` passes are loops over the blob indices.

Each method is proved against a specification function: `ScanEntries` and `MappedScan` for the two frame walks, `NextMatch` for one `next` call, `PassOver`/`PassResult` for a pass, `StatisticsOf` for the statistics loop, and `FoldMap` for `par_map_reduce`. The lemmas state what the crate promises about those functions.

## Model

| member | source | states |
|---|---|---|
| Ints.AsU32 | src/io/blob.rs:137-144 | `n as u32` keeps `n` below 2^32 and is `n` minus a multiple of 2^32 in general |
| Ints.FromBeBytesOfToBeBytes | src/io/mmap_blob.rs:221-224 | decoding the big-endian encoding of a `u32` length gives the length back |
| Ints.ToBeBytesOfFromBeBytes | src/io/indexed_reader.rs:190 | every 4-byte prefix is the encoding of the length it decodes to |
| Blobs.FromStr | src/io/blob.rs:46-56 | parsing never fails; the result is `Unknown` exactly for strings other than the two standard names, and writing it back gives the input string |
| Blobs.AsStr | src/io/blob.rs:60-66 | a canonical type writes `OSMHeader` or `OSMData` exactly when it is that standard type |
| Blobs.FromStrAsStr | src/io/blob.rs:49-66 | writing a type and parsing it back gives the same type exactly when it is not `Unknown("OSMHeader")` or `Unknown("OSMData")` |
| Blobs.NewHeader | src/io/blob.rs:82-88 | the header carries the given type and size and no index data |
| Blobs.ValidateHeaderSize | src/io/blob.rs:91-99 | passes exactly when the header size is at most 65536, else fails with `HeaderTooLarge(size, 65536)` |
| Blobs.RawSize | src/io/blob.rs:137-144 | a raw payload reports its length cast with `as u32`, which is the length itself below 2^32; a compressed payload reports its stored uncompressed size |
| Blobs.IsCompressed | src/io/blob.rs:147-149 | only a raw payload is uncompressed, and a compressed one reports the uncompressed size it declares |
| Blobs.ValidateDataSize | src/io/blob.rs:152-161 | passes exactly when the reported size is at most 33554432, else fails with `MessageTooLarge(size, 33554432)` |
| Blobs.NewRaw | src/io/blob.rs:166-178 | as written: succeeds exactly when the length cast to `u32` is at most 32 MiB; the blob is raw and uncompressed, keeps type and offset, and stored size equals raw size equals that cast length |
| Blobs.NewRawAcceptsOversizedPayload | src/io/blob.rs:139 | a payload of 2^32 bytes, far over 32 MiB, is accepted by `NewRaw` and reports a raw size of 0 |
| Blobs.NewRawChecked | src/io/blob.rs:166-178 | as intended: succeeds exactly when the payload length is at most 32 MiB, with stored size equal to raw size equal to the length; else `MessageTooLarge(length, 33554432)` |
| Blobs.NewRawCheckedAgrees | src/io/blob.rs:166-178 | for every payload shorter than 2^32 bytes the corrected and the as-written constructor give the same result |
| Blobs.NewZlib | src/io/blob.rs:181-193 | succeeds exactly when the declared raw size is at most 32 MiB, whatever the compressed length; stored size is the compressed length, raw size the argument, and the blob is compressed |
| Indexed.DefaultFilter | src/io/indexed_reader.rs:49-61 | nodes, ways and relations but not changesets; no ranges, no tags, no dependency resolution |
| Indexed.All | src/io/indexed_reader.rs:65-67 | the same filter as the default |
| Indexed.NodesOnly | src/io/indexed_reader.rs:70-78 | only nodes are included; everything else is as in the default |
| Indexed.WaysOnly | src/io/indexed_reader.rs:81-90 | ways are included, nodes exactly when dependencies are resolved, and `resolve_dependencies` is the argument |
| Indexed.WithIdRange | src/io/indexed_reader.rs:93-96 | the pair is appended after the existing ranges and no other field changes |
| Indexed.WithTagKey | src/io/indexed_reader.rs:99-102 | the key maps to "any value"; other keys and all other fields are unchanged |
| Indexed.WithTag | src/io/indexed_reader.rs:105-108 | the key maps to the value; other keys and all other fields are unchanged |
| Indexed.ShouldInclude | src/io/indexed_reader.rs:329-342 | headers are always streamed and unknown blobs never; an entry with zero element counts is streamed exactly when it is a header |
| Indexed.PresetSelections | src/io/indexed_reader.rs:329-342 | which entries each preset filter streams: headers always, data blobs when a requested kind has a nonzero count |
| Indexed.BuildersKeepSelection | src/io/indexed_reader.rs:93-108 | adding id ranges or tag filters never changes which entries are streamed |
| Indexed.LastTagWriteWins | src/io/indexed_reader.rs:99-108 | for one key the later tag filter replaces the earlier one |
| Indexed.Tally | src/io/indexed_reader.rs:265-276 | every visited entry is counted under exactly one blob type |
| Indexed.StatisticsOf | src/io/indexed_reader.rs:261-279 | the total equals the number of entries and the sum of header, data and unknown counts |
| Indexed.TallyAppend | src/io/indexed_reader.rs:265-276 | counting a concatenation is counting its parts and adding the counters |
| Indexed.MergeZero | src/io/indexed_reader.rs:261-279 | all-zero statistics are neutral for the fieldwise sum |
| Indexed.AddEntryMerge | src/io/indexed_reader.rs:265-276 | counting one more entry commutes with adding earlier counters |
| Indexed.StatisticsOfPlainData | src/io/indexed_reader.rs:261-279 | an index of data entries with zero counts reports all of them as data blobs and no elements |
| Indexed.ComputeStatistics | src/io/indexed_reader.rs:261-279 | the statistics loop computes `StatisticsOf` the entries |
| Indexed.FindRelevant | src/io/indexed_reader.rs:282-300 | ascending positions, containing exactly the entries whose id range is unknown or overlaps `[min, max]` |
| Indexed.FindRelevantWithoutRanges | src/io/indexed_reader.rs:282-300 | with no known ranges every position is returned, in order |
| Indexed.EntryAt | src/io/indexed_reader.rs:145-151 | the entry for a frame holds its offset and the length its prefix declares |
| Indexed.ScanEntriesTile | src/io/indexed_reader.rs:138-176 | the cursor walk tiles the source: the first entry is at the start offset, each next one starts right after the previous body, every entry is the frame read at its offset, and after the last entry fewer than 4 bytes remain |
| Indexed.ScanOffsetsIncrease | src/io/indexed_reader.rs:164 | entry offsets strictly increase |
| Indexed.ScanOnlyLastMayOverrun | src/io/indexed_reader.rs:179-200 | the body check is absent, but only the last entry can overrun the source |
| Indexed.ScanShortSource | src/io/indexed_reader.rs:400-407 | a source shorter than one prefix, the empty one included, has no entries |
| Indexed.NoHeaderAmongData | src/io/indexed_reader.rs:154-156 | an index of data entries records no header blob |
| Indexed.IndexOffsetsAppend | src/io/indexed_reader.rs:159-161 | recording an entry beyond all earlier offsets keeps the offset map exact |
| Indexed.ScanStep | src/io/indexed_reader.rs:145-164 | the walk from a frame is that frame's entry followed by the walk from the end of its body |
| Indexed.WalkStep | src/io/indexed_reader.rs:144-164 | one loop step of `build_index` keeps the walk state: the entries so far followed by the walk from the new offset make up the whole walk, and the header and offset map stay exact |
| Indexed.CursorHeaderAt | src/io/indexed_reader.rs:179-200 | nothing when fewer than 4 bytes remain, otherwise a data header with the declared length; never an error on an in-memory source |
| Indexed.CursorBlobAt | src/io/indexed_reader.rs:227-253 | nothing when fewer than 4 bytes remain; an end-of-file I/O error when the body is short; `MessageTooLarge` over 32 MiB; otherwise a raw data blob of exactly the body bytes at that offset |
| Indexed.CursorBlobByIndex | src/io/indexed_reader.rs:218-224 | an out-of-range index fails with `InvalidFormat`; otherwise the read at the entry's offset |
| Indexed.OverrunFailsOnRead | src/io/indexed_reader.rs:241-242 | a kept entry fails with end of file when read exactly when its body overruns the source |
| Indexed.Readings | src/io/indexed_reader.rs:218-224 | the read result of every entry, in index order |
| Indexed.NextMatchSpec | src/io/indexed_reader.rs:323-354 | one `next` call never moves back; when it yields an item, that item is the read result of the selected entry just before the new position, and every selected entry it skipped read as nothing; when it yields nothing it is at the end and no selected entry from the start position holds a blob or an error |
| Indexed.NothingStreamedFromPlainData | src/io/indexed_reader.rs:329-342 | over data entries with zero counts no filter streams anything |
| Indexed.ScanEntriesArePlainData | src/io/indexed_reader.rs:145-151 | every entry of the walk is a data blob with no id range and zero counts |
| Indexed.WalkedIndexSummary | src/io/indexed_reader.rs:145-156 | an index built by the walk has no header blob, reports every entry as a data blob with no elements, treats every entry as relevant to any id range and streams nothing for any filter |
| Indexed.IndexedReader.constructor | src/io/indexed_reader.rs:125-135 | the new reader's index is the frame walk of the source, with the last header and an exact offset-to-position map |
| Indexed.IndexedReader.Seek | src/io/indexed_reader.rs:228 | the cursor moves to the given offset |
| Indexed.IndexedReader.ReadExact | src/io/indexed_reader.rs:232-242 | reads exactly `n` bytes from the cursor and advances it, or fails with end of file and leaves the cursor at the end |
| Indexed.IndexedReader.ReadBlobHeaderAtOffset | src/io/indexed_reader.rs:179-200 | returns `CursorHeaderAt` of the offset |
| Indexed.IndexedReader.BuildIndex | src/io/indexed_reader.rs:138-176 | afterwards the index is the frame walk from 0, the header entry is the last header in it, and `offset_to_index` maps exactly the entry offsets to their positions |
| Indexed.IndexedReader.HeaderBlob | src/io/indexed_reader.rs:203-205 | on an indexed reader, the last header of the index, which is none since headers are never parsed |
| Indexed.IndexedReader.BlobCount | src/io/indexed_reader.rs:208-210 | on an indexed reader, the number of frames the walk finds; zero exactly when the source is shorter than one length prefix |
| Indexed.IndexedReader.GetBlobIndex | src/io/indexed_reader.rs:213-215 | `Some` exactly below the blob count, holding the entry at that position, which the offset map finds back by its offset |
| Indexed.IndexedReader.ReadBlobAtOffset | src/io/indexed_reader.rs:227-253 | returns `CursorBlobAt` of the offset |
| Indexed.IndexedReader.ReadBlobByIndex | src/io/indexed_reader.rs:218-224 | returns `CursorBlobByIndex` of the index |
| Indexed.IndexedReader.StreamFiltered | src/io/indexed_reader.rs:256-258 | a fresh iterator over this reader and filter, at position 0 |
| Indexed.IndexedReader.Statistics | src/io/indexed_reader.rs:261-279 | returns `StatisticsOf` the index |
| Indexed.IndexedReader.FindBlobsForIdRange | src/io/indexed_reader.rs:282-300 | ascending positions of exactly the index entries that may overlap the range |
| Indexed.FilteredBlobIterator.constructor | src/io/indexed_reader.rs:311-317 | starts at position 0 with the given reader and filter |
| Indexed.FilteredBlobIterator.Next | src/io/indexed_reader.rs:323-354 | the item returned and the new position are `NextMatch` from the old position over the reader's read results |
| Mmap.GetSlice | src/io/mmap_blob.rs:104-118 | fails with `SliceOutOfBounds(offset, len, size)` exactly when `offset + len` exceeds the mapping; otherwise returns exactly the bytes `[offset, offset + len)` |
| Mmap.GetBytes | src/io/mmap_blob.rs:121-126 | the same result as `GetSlice` |
| Mmap.EmptyMapping | src/io/mmap_blob.rs:108-110 | an empty mapping serves only the empty slice at 0 |
| Mmap.PrefixAt | src/io/mmap_blob.rs:221-224 | the length read through `get_slice` is the big-endian value of the 4 bytes |
| Mmap.MappedHeaderAt | src/io/mmap_blob.rs:215-238 | nothing exactly when fewer than 4 bytes remain; `BlobBeyondEnd(offset)` exactly when the declared body runs past the end; otherwise a data header with the declared length |
| Mmap.MappedBlobAt | src/io/mmap_blob.rs:258-285 | nothing when fewer than 4 bytes remain; `BlobBeyondEnd` for an overrunning body; `MessageTooLarge` over 32 MiB; otherwise a raw data blob of exactly the body bytes at that offset |
| Mmap.MappedBlobByIndex | src/io/mmap_blob.rs:288-295 | an out-of-range index fails with `InvalidFormat`; otherwise the read at the entry's offset |
| Mmap.MappedAgreesWithCursor | src/io/mmap_blob.rs:258-285 | the two readers read a frame alike and differ only in the error for a body past the end |
| Mmap.MappedReadings | src/io/mmap_blob.rs:288-295 | the mapped read result of every entry, in index order |
| Mmap.PrependNothing | src/io/mmap_blob.rs:183-212 | prepending no entries leaves a walk result unchanged |
| Mmap.PrependAppend | src/io/mmap_blob.rs:201 | prepending entries and then one more is prepending the longer list |
| Mmap.MappedScanStep | src/io/mmap_blob.rs:188-204 | at a frame that fits, the mapped walk records it and continues after its body |
| Mmap.MappedWalkStep | src/io/mmap_blob.rs:188-204 | one loop step of the mapped `build_index` keeps the walk state |
| Mmap.BodiesFitCons | src/io/mmap_blob.rs:227-231 | the bodies of a list fit exactly when the first one and those of the rest fit |
| Mmap.MappedScanFits | src/io/mmap_blob.rs:188-204 | at a frame whose body fits, the walk records the frame's entry and continues after it |
| Mmap.MappedScanOverflows | src/io/mmap_blob.rs:227-231 | at a frame whose body runs past the end, the walk fails with `BlobBeyondEnd` of its offset |
| Mmap.ScansAgreeStep | src/io/mmap_blob.rs:183-212 | agreement of the two walks carries back over a frame that fits |
| Mmap.MappedScanMatchesCursorScan | src/io/mmap_blob.rs:183-212 | the mapped walk succeeds exactly when every body of the cursor walk fits, and then yields the same entries; otherwise it fails with `BlobBeyondEnd` at the cursor walk's last entry |
| Mmap.MappedScanCoversFile | src/io/mmap_blob.rs:186 | after a successful mapped walk every body fits and fewer than 4 bytes follow the last one |
| Mmap.MappedIndexSummary | src/io/mmap_blob.rs:189-200 | a successful mapped index has no header blob, reports every entry as a data blob with no elements, treats every entry as relevant to any id range and streams nothing for any filter |
| Mmap.EmptyFileIndex | src/io/mmap_blob.rs:485-492 | an empty file indexes to no entries, all-zero statistics and no header |
| Mmap.HundredByteFrame | src/io/mmap_blob.rs:495-516 | a file of one 100-byte frame is 104 bytes long, has one entry at offset 0, and reading it gives a blob of raw size 100 |
| Mmap.ParallelBlobAt | src/io/mmap_blob.rs:451-470 | nothing when fewer than 4 bytes remain; an overrunning body fails in `get_bytes` with `SliceOutOfBounds` |
| Mmap.ParallelAgreesWithMapped | src/io/mmap_blob.rs:451-470 | the parallel read equals the mapped one except for the wording of the overrun error |
| Mmap.ParallelBlobByIndex | src/io/mmap_blob.rs:441-448 | an out-of-range index fails with `InvalidFormat`; otherwise the read at the entry's offset |
| Mmap.ParallelReadsLikeMapped | src/io/mmap_blob.rs:424-475 | on a mapped index the parallel reader returns what the mapped reader returns at every position |
| Mmap.MmapBlobReader.Init | src/io/mmap_blob.rs:170-176 | a reader over the contents, with an empty index and no header |
| Mmap.MmapBlobReader.FromFile | src/io/mmap_blob.rs:166-180 | succeeds exactly when the mapped walk does, with its error otherwise; a new reader's index is the walk and its header the last header in it, so the reader is built |
| Mmap.MmapBlobReader.BuildIndex | src/io/mmap_blob.rs:183-212 | passes exactly when `MappedScan` from 0 succeeds, fails with its error otherwise, and on success the index is the walk |
| Mmap.BuiltIndexFacts | src/io/mmap_blob.rs:183-212 | a reader holding the index `from_file` builds holds the cursor walk's entries, every body inside the file, and no header blob |
| Mmap.MmapBlobReader.BlobCount | src/io/mmap_blob.rs:241-243 | a built reader counts the frames the cursor walk finds; zero exactly when the file is shorter than one length prefix |
| Mmap.MmapBlobReader.GetBlobIndex | src/io/mmap_blob.rs:246-248 | `Some` exactly below the blob count, holding the entry at that position, whose body lies inside the file on a built reader |
| Mmap.MmapBlobReader.HeaderBlob | src/io/mmap_blob.rs:251-253 | a built reader has no header blob, since headers are never parsed |
| Mmap.MmapBlobReader.ReadBlobAtOffset | src/io/mmap_blob.rs:258-285 | returns `MappedBlobAt` of the offset |
| Mmap.MmapBlobReader.ReadBlobByIndex | src/io/mmap_blob.rs:288-295 | returns `MappedBlobByIndex` of the index |
| Mmap.MmapBlobReader.StreamFiltered | src/io/mmap_blob.rs:298-300 | a fresh iterator over this reader and filter, at position 0 |
| Mmap.MmapBlobReader.Statistics | src/io/mmap_blob.rs:303-321 | returns `StatisticsOf` the index |
| Mmap.MmapBlobReader.FindBlobsForIdRange | src/io/mmap_blob.rs:324-342 | ascending positions of exactly the index entries that may overlap the range |
| Mmap.MmapBlobReader.ToParallel | src/io/mmap_blob.rs:432-438 | the parallel reader carries this reader's mapping, index and file size, so it holds as many entries |
| Mmap.ToParallelReadsLikeReader | src/io/mmap_blob.rs:432-448 | for a reader whose index is the mapped walk, as `FromFile` leaves it, the parallel copy returns what the reader returns at every position |
| Mmap.MmapFilteredBlobIterator.constructor | src/io/mmap_blob.rs:374-380 | starts at position 0 with the given reader and filter |
| Mmap.MmapFilteredBlobIterator.Next | src/io/mmap_blob.rs:386-417 | the item returned and the new position are `NextMatch` from the old position over the mapped read results |
| Readers.DefaultParallelConfig | src/io/reader.rs:32-40 | all threads, chunks of 100, order not preserved |
| Readers.PlusAssoc | src/io/reader.rs:110-134 | adding counters is associative |
| Readers.PlusZero | src/io/reader.rs:44-52 | all-zero counters are neutral |
| Readers.KindTotalsCount | src/io/reader.rs:126-134 | each element counts once in the total and once under its kind, and counts no blob or error |
| Readers.ExtractElementsFromBlob | src/io/reader.rs:322-332 | every blob yields no elements |
| Readers.PassTotalsBounds | src/io/reader.rs:110-121 | a pass counts at most one blob or read error per index, and its element counters are those of the emitted elements |
| Readers.ReadingTotalsCount | src/io/reader.rs:110-134 | one read result counts at most one blob or error, plus its elements |
| Readers.FoldProcessorAppend | src/io/reader.rs:126-137 | folding the processor over a concatenation folds over the first part and continues with the second, unless the first part failed |
| Readers.FeedMatchesFold | src/io/reader.rs:126-137 | feeding elements counts exactly those elements and leaves the processor fold's state, or aborts with the fold's first error |
| Readers.StepMatchesTotals | src/io/reader.rs:110-138 | a running step adds `ReadingTotals` and its state is the fold over the blob's elements |
| Readers.StepBlobMatchesTotals | src/io/reader.rs:119-138 | the same for a blob that was read |
| Readers.PassMatchesTotals | src/io/reader.rs:108-141 | a pass that did not abort has counted exactly `PassTotals`, and its state is the processor fold over all emitted elements |
| Readers.StepMatchesFold | src/io/reader.rs:110-138 | with an extractor that never fails, a step continues exactly when the fold over its elements succeeds, and stops with the fold's error otherwise |
| Readers.StepBlobMatchesFold | src/io/reader.rs:119-138 | the same for a blob that was read |
| Readers.PassMatchesFold | src/io/reader.rs:108-141 | with an extractor that never fails, a pass is exactly the processor fold over the emitted elements: the totals and the final state, or the processor's first error |
| Readers.PassResultMatchesFold | src/io/reader.rs:101-141 | the value `for_each` returns is `Ok((PassTotals, fold state))`, or the processor's first error |
| Readers.PassResultMatchesTotals | src/io/reader.rs:101-141 | a successful pass returns `PassTotals` and the fold state; blobs plus errors are at most the blob count, and elements equal the sum of the four kinds |
| Readers.FeedAbortPersists | src/io/reader.rs:136 | once feeding aborts, the rest of the blob's elements change nothing |
| Readers.PassAbortPersists | src/io/reader.rs:122-124 | once a pass aborts, the remaining blobs change nothing |
| Readers.PlaceholderPass | src/io/reader.rs:322-332 | with the placeholder extraction a pass counts the blobs read and the read errors, emits nothing and returns the processor's initial state |
| Readers.FilteredPassLikePlain | src/io/reader.rs:335-339 | filtered extraction ignores the filter, so a filtered pass equals the plain one |
| Readers.CollectsInOrder | src/io/reader.rs:223-231 | a collecting processor ends with exactly the emitted elements, in order |
| Readers.TallyMatchesKinds | src/io/reader.rs:345-362 | the counting processor ends with the per-kind counts of the emitted elements |
| Readers.KindCountsSum | src/io/reader.rs:345-362 | the four per-kind counts add up to the number of elements |
| Readers.FoldMapSplits | src/io/reader.rs:292-301 | with an associative reduce and its unit, the fold over a concatenation reduces the folds over its parts |
| Readers.ReduceMapped | src/io/reader.rs:293-301 | the loop computes the left fold of `reduce_fn` over the mapped elements |
| Readers.ProcessReading | src/io/reader.rs:110-138 | the loop body for one blob index computes `StepBlob` |
| Readers.FeedLoop | src/io/reader.rs:126-137 | the element loop computes `FeedElements` |
| Readers.Reader.constructor | src/io/reader.rs:73-76 | the new reader holds a fresh, fully indexed reader over the source |
| Readers.Reader.RunPass | src/io/reader.rs:101-141 | the pass loop returns `PassResult` over the read results of every indexed blob, in index order |
| Readers.Reader.ForEach | src/io/reader.rs:101-141 | `for_each` returns the pass result, which with the placeholder extraction is the read counts and the initial state |
| Readers.Reader.ForEachFiltered | src/io/reader.rs:165-205 | `for_each_filtered` returns the filtered pass result, which equals the plain one and the concrete read counts |
| Readers.Reader.CollectFiltered | src/io/reader.rs:223-231 | the collected elements are exactly the emitted ones in order, with the pass totals; with the placeholder, no elements |
| Readers.Reader.CollectAllElements | src/io/reader.rs:305-314 | returns exactly the emitted elements in order |
| Readers.Reader.ParMapReduce | src/io/reader.rs:264-302 | the result is the left fold of `reduce_fn` over `map_fn` of every emitted element, starting from `identity()`; with the placeholder, `identity()` |
| Readers.Reader.CountElements | src/io/reader.rs:345-362 | the four counts are the per-kind counts of the emitted elements; with the placeholder, all zero |
| Readers.Reader.Nodes | src/io/reader.rs:365-379 | the pass with the nodes-only filter and the lifted node processor |
| Readers.Reader.Ways | src/io/reader.rs:382-396 | the pass with the ways filter and the lifted way processor |
| Readers.Reader.Statistics | src/io/reader.rs:317-319 | the index statistics of the underlying reader |
| StringTables.StringTable.constructor | src/blocks/string_table.rs:12-16 | the table is `[""]`, of length 1 and empty |
| StringTables.StringTable.AddString | src/blocks/string_table.rs:19-22 | appends at the end, returns the previous length, the new string is found there, and a valid table stays valid and is no longer empty |
| StringTables.StringTable.GetString | src/blocks/string_table.rs:25-27 | `Some(s[i])` exactly when `i` is below the length |
| StringTables.StringTable.GetStringOrEmpty | src/blocks/string_table.rs:30-36 | the empty string at position 0 or beyond the end, otherwise `s[i]` |
| StringTables.StringTable.Len | src/blocks/string_table.rs:39-41 | the number of stored strings, at least one on a valid table |
| StringTables.StringTable.IsEmpty | src/blocks/string_table.rs:44-46 | true exactly when nothing beyond the reserved entry is stored |
| StringTables.GetStringOrEmptyAgrees | src/blocks/string_table.rs:76-83 | on a valid table `get_string_or_empty` is `get_string` with a missing string read as "" |
| PrimitiveBlocks.DefaultGranularity | src/blocks/primitives/block.rs:29-36 | 100 |
| PrimitiveBlocks.DefaultDateGranularity | src/blocks/primitives/block.rs:31-40 | 1000 |
| PrimitiveBlocks.DefaultBlock | src/blocks/primitives/block.rs:43-54 | a fresh string table holding only "", no groups, default granularities and zero offsets |
| HeaderBlocks.NewTimestamp | src/blocks/header_block.rs:39-50 | `Some` exactly for non-negative seconds, and `as_secs` gives them back |
| HeaderBlocks.NewSequenceNumber | src/blocks/header_block.rs:59-70 | `Some` exactly for non-negative numbers, and `as_seq` gives them back |
| HeaderBlocks.ReplicationBoundaries | src/blocks/header_block.rs:420-447 | 0 and `i64::MAX` are accepted and -1 is rejected, for both fields |
| HeaderBlocks.CountAcceptedIsNonNegativePart | src/blocks/header_block.rs:59-65 | over a range, exactly its non-negative values are accepted |
| HeaderBlocks.HalfOfSymmetricRangeAccepted | src/blocks/header_block.rs:309-328 | of -500000..500000, 500000 values are accepted and 500000 rejected |
| HeaderBlocks.DefaultHeaderBlock | src/blocks/header_block.rs:5-21 | no features, empty program and source, and no replication data |
| NanoDegrees.New | src/blocks/nano_degree.rs:8-15 | within ±1e9 the value is kept unchanged; outside, the call is not allowed |
| NanoDegrees.RangeInclusive | src/blocks/nano_degree.rs:9-12 | both bounds are inside the range and one past either bound is outside |
| NanoDegrees.RawConstructorUnchecked | src/blocks/nano_degree.rs:4 | the public field holds values `New` would reject, such as -180e9 |

The remaining accessors are direct field reads and carry no contract of their own: `Blobs.BlobTypeOf`, `Blobs.OffsetOf`, `Blobs.CompressedSize`, `Blobs.BlobRawSize`, `Blobs.BlobIsCompressed` (src/io/blob.rs:196-218, used in the constructors' contracts), `Mmap.ParallelBlobCount` (src/io/mmap_blob.rs:473-475, used in `ToParallel`'s contract), and `HeaderBlocks.AsSecs`/`HeaderBlocks.AsSeq` (src/blocks/header_block.rs:48-50, 68-70, whose round trip the constructors' contracts state).

## Findings

| source | as written | input that shows it | evidently intended | confidence | as-written member | corrected member |
|---|---|---|---|---|---|---|
| src/io/blob.rs:139 | `Blob::new_raw` and `raw_size` cast the payload length with `as u32` before the 32 MiB check, so the check sees the length modulo 2^32 | a raw payload of exactly 2^32 bytes: the cast gives 0, the check passes, and the blob reports stored and raw size 0 | reject every payload longer than 32 MiB, and report its real length | not executed | Blobs.NewRawAcceptsOversizedPayload | Blobs.NewRawChecked |

Both readers build their blobs with `NewRawChecked`. `Blobs.NewRawCheckedAgrees` shows it equals `NewRaw` for every payload shorter than 2^32 bytes, which includes every body a 4-byte length prefix can describe.

## Left out

- The `mmap`/`munmap` machinery, raw pointers, `Drop` and the `Send`/`Sync` impls (src/io/mmap_blob.rs:37-147): the mapped region is an immutable byte sequence. `File::open`, `metadata` and `MmapBlobReader::open` are I/O; `file_size` is the region's length.
- `IndexedReader::new`'s error result: an in-memory cursor only fails with end of file, which the header read turns into "no more frames". So the constructor always succeeds and the logged-error branch of `build_index` (src/io/indexed_reader.rs:167-171) cannot be reached. Non-EOF I/O errors of other `Read + Seek` sources are left out, and so is `eprintln!` logging.
- Mmap.Mappable: a mapping is assumed shorter than `usize::MAX - 1` bytes; the `as usize` casts and the u64 offset sum are not checked for overflow.
- Offsets and all counters are unbounded naturals: the u64 wrap-around of offsets and of `ProcessingStats`/`IndexStatistics` counters is not modelled, because no reachable input of an in-memory file comes near it.
- Readers.Reader.ParMapReduce: ignores `config`, so the Rayon global thread-pool setup (src/io/reader.rs:277-282) is not modelled. The model never returns the `InvalidFormat("Failed to configure thread pool: …")` error that `build_global` raises, for instance when a global pool already exists, because that depends on process-wide state outside the reader.
- The `Arc` sharing of `ParallelMmapBlobReader`: the parallel reader is a plain value and its reads are sequential functions.
- Processors are Rust closures that mutate captured state. They are modelled as functions from a state and an element to a new state or an error, and the pass threads that state. What a closure does to the world outside its captures is not modelled.
- Element extraction: the crate decodes nothing, so `Readers.ExtractElementsFromBlob` returns no elements. Decompression is not modelled either: the Zlib/Lzma/Bzip2 variants are tagged sizes. Delta decoding, dense nodes and string-table lookup of tags are not modelled, and neither is the protobuf header parse the code leaves out.
- Readers.Reader.Nodes and Readers.Reader.Ways: the Rust wrappers ignore elements of other kinds inside the closure; the model lifts a node or way processor into an element processor that passes other kinds through unchanged.
- `NanoDegree::to_degrees`/`from_degrees` and the `From` impls use floating point and are left out.
- Serde derives and `Cow` lifetimes are left out; strings are plain sequences of characters.
- The record types of src/blocks/primitives (node, way, relation, changeset, dense nodes, info, group, member type) appear only as the datatypes `OsmElement` and `PrimitiveBlock` need; nothing reads or writes their fields.
- PrimitiveBlocks.DefaultBlock: the block holds a reference to its string table, so two blocks could share one table, whereas in Rust each block owns its table. This aliasing is not excluded by the model.
- StringTables.StringTable.AddString: the table length after `k` calls is `k + 1`. This follows from the postcondition `s == old(s) + [x]` by induction over the calls and is not stated as a separate member, since a lemma cannot call a method.
- `get_raw_slice` and `supports_parallel_access` (src/io/mmap_blob.rs:349-363) are one-line delegations and are not modelled separately; `GetSlice` covers the first.
