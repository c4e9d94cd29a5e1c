/** The file header block and its validated replication fields. */
module HeaderBlocks {
  import opened Wrappers
  import opened Ints
  import opened NanoDegrees

  /** Replication timestamp in seconds since the epoch; never negative when
      made with `NewTimestamp`. */
  datatype OsmosisReplicationTimestamp = OsmosisReplicationTimestamp(secs: i64)

  function NewTimestamp(secs: i64): (r: Option<OsmosisReplicationTimestamp>)
    ensures r.Some? <==> secs >= 0
    ensures r.Some? ==> AsSecs(r.value) == secs
  {
    if secs >= 0 then Some(OsmosisReplicationTimestamp(secs)) else None
  }

  function AsSecs(t: OsmosisReplicationTimestamp): i64 {
    t.secs
  }

  /** Replication sequence number; never negative when made with
      `NewSequenceNumber`. */
  datatype OsmosisSequenceNumber = OsmosisSequenceNumber(seqNo: i64)

  function NewSequenceNumber(seqNo: i64): (r: Option<OsmosisSequenceNumber>)
    ensures r.Some? <==> seqNo >= 0
    ensures r.Some? ==> AsSeq(r.value) == seqNo
  {
    if seqNo >= 0 then Some(OsmosisSequenceNumber(seqNo)) else None
  }

  function AsSeq(n: OsmosisSequenceNumber): i64 {
    n.seqNo
  }

  /** The boundary values: 0 and the largest `i64` are accepted, -1 is not. */
  lemma ReplicationBoundaries()
    ensures NewTimestamp(0).Some? && NewTimestamp(0x7FFF_FFFF_FFFF_FFFF).Some? && NewTimestamp(-1).None?
    ensures NewSequenceNumber(0).Some? && NewSequenceNumber(0x7FFF_FFFF_FFFF_FFFF).Some?
    ensures NewSequenceNumber(-1).None?
  {
  }

  /** How many of the values `lo, lo + 1, ..., hi - 1` are accepted as
      sequence numbers. */
  function CountAccepted(lo: i64, hi: i64): nat
    decreases hi - lo
  {
    if lo >= hi then 0
    else (if NewSequenceNumber(lo).Some? then 1 else 0) + CountAccepted(lo + 1, hi)
  }

  /** Exactly the non-negative values of a range are accepted. */
  lemma {:induction false} CountAcceptedIsNonNegativePart(lo: i64, hi: i64)
    requires lo <= hi
    ensures CountAccepted(lo, hi) == if hi <= 0 then 0 else if lo >= 0 then hi - lo else hi
    decreases hi - lo
  {
    if lo < hi {
      CountAcceptedIsNonNegativePart(lo + 1, hi);
    }
  }

  /** Of the million values from -500000 up to 499999, half are accepted and
      half rejected. */
  lemma HalfOfSymmetricRangeAccepted()
    ensures CountAccepted(-500_000, 500_000) == 500_000
    ensures (500_000 - -500_000) - CountAccepted(-500_000, 500_000) == 500_000
  {
    CountAcceptedIsNonNegativePart(-500_000, 500_000);
  }

  /** The header's bounding box, in nanodegrees. */
  datatype HeaderBBox = HeaderBBox(minLon: NanoDegree, maxLon: NanoDegree, minLat: NanoDegree, maxLat: NanoDegree)

  datatype HeaderBlock = HeaderBlock(
    requiredFeatures: seq<string>,
    optionalFeatures: seq<string>,
    writingProgram: string,
    source: string,
    osmosisReplicationTimestamp: Option<OsmosisReplicationTimestamp>,
    osmosisReplicationSequenceNumber: Option<OsmosisSequenceNumber>,
    osmosisReplicationBaseUrl: Option<string>)

  /** `HeaderBlock::default`: no features, empty strings, no replication data. */
  function DefaultHeaderBlock(): (h: HeaderBlock)
    ensures h.requiredFeatures == [] && h.optionalFeatures == []
    ensures h.writingProgram == "" && h.source == ""
    ensures h.osmosisReplicationTimestamp.None? && h.osmosisReplicationSequenceNumber.None?
    ensures h.osmosisReplicationBaseUrl.None?
  {
    HeaderBlock([], [], "", "", None, None, None)
  }
}
