/** The element records of a primitive block and the block itself. They are
    plain records here: nothing in the library decodes them yet. */
module PrimitiveBlocks {
  import opened Wrappers
  import opened Ints
  import opened StringTables

  datatype Info = Info(version: i32, timestamp: i64, changeset: i64, uid: i32, userSid: u32, visible: bool)

  datatype Node = Node(id: i64, keys: seq<u32>, vals: seq<u32>, info: Option<Info>, lat: i64, lon: i64)

  datatype Way = Way(id: i64, keys: seq<u32>, vals: seq<u32>, info: Option<Info>, refs: seq<i64>)

  /** The kind of a relation member (encoded as 0, 1, 2). */
  datatype MemberType = NodeMember | WayMember | RelationMember

  datatype Relation = Relation(
    id: i64, keys: seq<u32>, vals: seq<u32>, info: Option<Info>,
    rolesSid: seq<i32>, memids: seq<i64>, types: seq<MemberType>)

  datatype ChangeSet = ChangeSet(id: i64, keys: seq<u32>, vals: seq<u32>, info: Option<Info>)

  datatype DenseInfo = DenseInfo(
    version: seq<i32>, timestamp: seq<i64>, changeset: seq<i64>,
    uid: seq<i32>, userSid: seq<i32>, visible: seq<bool>)

  datatype DenseNodes = DenseNodes(
    id: seq<i64>, denseinfo: Option<DenseInfo>, lat: seq<i64>, lon: seq<i64>, keysVals: seq<i32>)

  datatype PrimitiveGroup = PrimitiveGroup(
    nodes: seq<Node>, dense: Option<DenseNodes>, ways: seq<Way>,
    relations: seq<Relation>, changesets: seq<ChangeSet>)

  /** A block: its string table, its groups, and the scales that coordinates
      and timestamps are stored in. */
  datatype PrimitiveBlock = PrimitiveBlock(
    stringtable: StringTable,
    primitivegroup: seq<PrimitiveGroup>,
    granularity: i32,
    latOffset: i64,
    lonOffset: i64,
    dateGranularity: i32)

  /** Coordinates are stored in units of 100 nanodegrees unless a block says otherwise. */
  const DEFAULT_GRANULARITY: i32 := 100
  /** Timestamps are stored in milliseconds unless a block says otherwise. */
  const DEFAULT_DATE_GRANULARITY: i32 := 1000

  function DefaultGranularity(): (g: i32)
    ensures g == DEFAULT_GRANULARITY == 100
  {
    DEFAULT_GRANULARITY
  }

  function DefaultDateGranularity(): (g: i32)
    ensures g == DEFAULT_DATE_GRANULARITY == 1000
  {
    DEFAULT_DATE_GRANULARITY
  }

  /** `PrimitiveBlock::default`: a fresh table holding only the reserved
      empty string, no groups, default scales and no offsets. */
  method DefaultBlock() returns (b: PrimitiveBlock)
    ensures fresh(b.stringtable) && b.stringtable.Valid() && b.stringtable.s == [""]
    ensures b.primitivegroup == []
    ensures b.granularity == DefaultGranularity() && b.dateGranularity == DefaultDateGranularity()
    ensures b.latOffset == 0 && b.lonOffset == 0
  {
    var table := new StringTable();
    b := PrimitiveBlock(table, [], DEFAULT_GRANULARITY, 0, 0, DEFAULT_DATE_GRANULARITY);
  }
}
