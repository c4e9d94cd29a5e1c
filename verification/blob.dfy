/** Blobs: the framing unit of an OSM PBF file. A blob has a header (its
    type and the size of its stored payload) and a payload that is either
    raw or compressed with a recorded uncompressed size. Construction
    enforces the format's 32 MiB bound on uncompressed payloads. */
module Blobs {
  import opened Wrappers
  import opened Ints

  /** Largest accepted serialized blob header (64 KiB). */
  const MAX_BLOB_HEADER_SIZE: nat := 65_536
  /** Largest accepted uncompressed blob payload (32 MiB). */
  const MAX_BLOB_MESSAGE_SIZE: nat := 33_554_432

  /** The only I/O failure an in-memory reader can meet. */
  datatype IoErrorKind = UnexpectedEof

  /** Why a blob stream is malformed; the Rust code carries these as
      formatted messages, the model keeps the numbers they mention. */
  datatype FormatReason =
    | SliceOutOfBounds(offset: nat, len: nat, fileSize: nat)
    | BlobBeyondEnd(offset: nat)
    | IndexOutOfRange(index: nat)

  datatype BlobError =
    | Io(kind: IoErrorKind)
    | HeaderTooLarge(size: nat, max: nat)
    | MessageTooLarge(size: nat, max: nat)
    | InvalidFormat(reason: FormatReason)
    | Compression(message: string)
    | UnknownType(name: string)

  datatype BlobType = OSMHeader | OSMData | Unknown(name: string)

  /** Parsing a type identifier never fails: anything that is not one of the
      two standard identifiers becomes `Unknown` and keeps its text. */
  function FromStr(s: string): (t: BlobType)
    ensures AsStr(t) == s
    ensures t.Unknown? <==> s != "OSMHeader" && s != "OSMData"
  {
    if s == "OSMHeader" then OSMHeader
    else if s == "OSMData" then OSMData
    else Unknown(s)
  }

  /** The identifier written for a blob type: a canonical type writes one of
      the two standard identifiers exactly when it is that standard type. */
  function AsStr(t: BlobType): (r: string)
    ensures Canonical(t) ==> (r == "OSMHeader" <==> t.OSMHeader?) && (r == "OSMData" <==> t.OSMData?)
  {
    match t
    case OSMHeader => "OSMHeader"
    case OSMData => "OSMData"
    case Unknown(s) => s
  }

  /** A blob type that does not disguise a standard one as `Unknown`. */
  predicate Canonical(t: BlobType) {
    t != Unknown("OSMHeader") && t != Unknown("OSMData")
  }

  /** Writing a canonical type and parsing it back gives the same type, and
      only canonical types survive that round trip. */
  lemma FromStrAsStr(t: BlobType)
    ensures FromStr(AsStr(t)) == t <==> Canonical(t)
  {
    if t.Unknown? && !Canonical(t) {
      assert FromStr(AsStr(t)) != t;
    }
  }

  datatype BlobHeader = BlobHeader(blobType: BlobType, datasize: u32, indexdata: Option<seq<byte>>)

  /** A header with no index data. */
  function NewHeader(t: BlobType, datasize: u32): (h: BlobHeader)
    ensures h.blobType == t && h.datasize == datasize && h.indexdata == None
  {
    BlobHeader(t, datasize, None)
  }

  /** Rejects a serialized header longer than 64 KiB. */
  function ValidateHeaderSize(h: BlobHeader, headerSize: usize): (o: Outcome<BlobError>)
    ensures o.Pass? <==> headerSize <= MAX_BLOB_HEADER_SIZE
    ensures o.Fail? ==> o.error == HeaderTooLarge(headerSize, MAX_BLOB_HEADER_SIZE)
  {
    if headerSize > MAX_BLOB_HEADER_SIZE then Fail(HeaderTooLarge(headerSize, MAX_BLOB_HEADER_SIZE))
    else Pass
  }

  datatype BlobData =
    | Raw(bytes: seq<byte>)
    | ZlibData(compressed: seq<byte>, rawSize: u32)
    | LzmaData(compressed: seq<byte>, rawSize: u32)
    | Bzip2Data(compressed: seq<byte>, rawSize: u32)

  /** The uncompressed size as a `u32`. For a raw payload this is its length
      cast with `as u32`, so a payload of 4 GiB or more is reported modulo 2^32. */
  function RawSize(d: BlobData): (r: u32)
    ensures d.Raw? ==> r == AsU32(|d.bytes|)
    ensures d.Raw? && |d.bytes| < U32_LIMIT ==> r == |d.bytes|
    ensures !d.Raw? ==> r == d.rawSize
  {
    match d
    case Raw(bytes) => AsU32(|bytes|)
    case ZlibData(_, n) => n
    case LzmaData(_, n) => n
    case Bzip2Data(_, n) => n
  }

  /** Only a raw payload is uncompressed; a compressed one reports the
      uncompressed size it declares. */
  function IsCompressed(d: BlobData): (b: bool)
    ensures !b <==> d.Raw?
    ensures b ==> RawSize(d) == d.rawSize
  {
    !d.Raw?
  }

  /** Rejects a payload whose reported uncompressed size exceeds 32 MiB. */
  function ValidateDataSize(d: BlobData): (o: Outcome<BlobError>)
    ensures o.Pass? <==> RawSize(d) <= MAX_BLOB_MESSAGE_SIZE
    ensures o.Fail? ==> o.error == MessageTooLarge(RawSize(d), MAX_BLOB_MESSAGE_SIZE)
  {
    var size := RawSize(d);
    if size > MAX_BLOB_MESSAGE_SIZE then Fail(MessageTooLarge(size, MAX_BLOB_MESSAGE_SIZE))
    else Pass
  }

  /** A blob and the byte offset in the file where its frame starts. */
  datatype Blob = Blob(header: BlobHeader, data: BlobData, offset: nat)

  function BlobTypeOf(b: Blob): BlobType { b.header.blobType }
  function OffsetOf(b: Blob): nat { b.offset }
  function CompressedSize(b: Blob): u32 { b.header.datasize }
  function BlobRawSize(b: Blob): u32 { RawSize(b.data) }
  function BlobIsCompressed(b: Blob): bool { IsCompressed(b.data) }

  /** `Blob::new_raw` as written: the header size and the validated size are
      both the payload length cast with `as u32`. */
  function NewRaw(t: BlobType, data: seq<byte>, offset: nat): (r: Result<Blob, BlobError>)
    ensures r.Success? <==> AsU32(|data|) <= MAX_BLOB_MESSAGE_SIZE
    ensures r.Success? ==>
      && r.value.data == Raw(data)
      && BlobTypeOf(r.value) == t && OffsetOf(r.value) == offset
      && CompressedSize(r.value) == BlobRawSize(r.value) == AsU32(|data|)
      && !BlobIsCompressed(r.value)
    ensures r.Failure? ==> r.error == MessageTooLarge(AsU32(|data|), MAX_BLOB_MESSAGE_SIZE)
  {
    var header := NewHeader(t, AsU32(|data|));
    var blobData := Raw(data);
    match ValidateDataSize(blobData)
    case Fail(e) => Failure(e)
    case Pass => Success(Blob(header, blobData, offset))
  }

  /** The size check of `NewRaw` can be passed by a payload far above the
      32 MiB bound: one of exactly 4 GiB is accepted, and its blob reports
      both a stored and an uncompressed size of 0. */
  lemma NewRawAcceptsOversizedPayload()
    ensures exists data: seq<byte> ::
      && |data| > MAX_BLOB_MESSAGE_SIZE
      && NewRaw(OSMData, data, 0).Success?
      && BlobRawSize(NewRaw(OSMData, data, 0).value) == 0
  {
    var data: seq<byte> := seq(U32_LIMIT, _ => 0);
    assert AsU32(|data|) == 0;
    assert NewRaw(OSMData, data, 0).Success?;
  }

  /** `Blob::new_raw` as intended: the bound applies to the real payload length. */
  function NewRawChecked(t: BlobType, data: seq<byte>, offset: nat): (r: Result<Blob, BlobError>)
    ensures r.Success? <==> |data| <= MAX_BLOB_MESSAGE_SIZE
    ensures r.Success? ==>
      && r.value.data == Raw(data)
      && BlobTypeOf(r.value) == t && OffsetOf(r.value) == offset
      && CompressedSize(r.value) == BlobRawSize(r.value) == |data|
      && !BlobIsCompressed(r.value)
    ensures r.Failure? ==> r.error == MessageTooLarge(|data|, MAX_BLOB_MESSAGE_SIZE)
  {
    if |data| > MAX_BLOB_MESSAGE_SIZE then Failure(MessageTooLarge(|data|, MAX_BLOB_MESSAGE_SIZE))
    else Success(Blob(NewHeader(t, |data|), Raw(data), offset))
  }

  /** For every payload whose length fits a `u32` (in particular every payload a
      length-prefixed frame can describe) the two constructors agree. */
  lemma NewRawCheckedAgrees(t: BlobType, data: seq<byte>, offset: nat)
    requires |data| < U32_LIMIT
    ensures NewRawChecked(t, data, offset) == NewRaw(t, data, offset)
  {
  }

  /** `Blob::new_zlib`: the header records the compressed length, the size
      bound applies to the declared uncompressed size only. */
  function NewZlib(t: BlobType, compressed: seq<byte>, rawSize: u32, offset: nat): (r: Result<Blob, BlobError>)
    ensures r.Success? <==> rawSize <= MAX_BLOB_MESSAGE_SIZE
    ensures r.Success? ==>
      && r.value.data == ZlibData(compressed, rawSize)
      && BlobTypeOf(r.value) == t && OffsetOf(r.value) == offset
      && CompressedSize(r.value) == AsU32(|compressed|)
      && BlobRawSize(r.value) == rawSize
      && BlobIsCompressed(r.value)
    ensures r.Failure? ==> r.error == MessageTooLarge(rawSize, MAX_BLOB_MESSAGE_SIZE)
  {
    var header := NewHeader(t, AsU32(|compressed|));
    var blobData := ZlibData(compressed, rawSize);
    match ValidateDataSize(blobData)
    case Fail(e) => Failure(e)
    case Pass => Success(Blob(header, blobData, offset))
  }
}
