/** The high-level reader: passes over every indexed blob in order, extracts
    the elements of each, counts what it saw and hands each element to a
    caller-supplied processor. Element extraction is still a placeholder that
    yields no elements, so a pass over any file emits nothing; the pass itself
    is modelled for an arbitrary extractor and the placeholder is one
    instance of it.

    The Rust processors are closures that mutate captured variables; here a
    processor threads an explicit state `S` and returns the new one. */
module Readers {
  import opened Wrappers
  import opened Ints
  import opened Blobs
  import opened Indexed
  import PrimitiveBlocks

  datatype OsmElement =
    | Node(node: PrimitiveBlocks.Node)
    | Way(way: PrimitiveBlocks.Way)
    | Relation(relation: PrimitiveBlocks.Relation)
    | ChangeSet(changeset: PrimitiveBlocks.ChangeSet)

  datatype ParallelConfig = ParallelConfig(numThreads: Option<nat>, chunkSize: nat, preserveOrder: bool)

  /** All cores, chunks of 100 elements, order not preserved. */
  function DefaultParallelConfig(): (c: ParallelConfig)
    ensures c.numThreads.None? && c.chunkSize == 100 && !c.preserveOrder
  {
    ParallelConfig(None, 100, false)
  }

  datatype ProcessingStats = ProcessingStats(
    blobsProcessed: nat,
    elementsProcessed: nat,
    nodesProcessed: nat,
    waysProcessed: nat,
    relationsProcessed: nat,
    changesetsProcessed: nat,
    errorsEncountered: nat)

  /** `ProcessingStats::default`. */
  const ZERO_PROCESSING: ProcessingStats := ProcessingStats(0, 0, 0, 0, 0, 0, 0)
  /** One blob read, one read error. */
  const ONE_BLOB: ProcessingStats := ProcessingStats(1, 0, 0, 0, 0, 0, 0)
  const ONE_ERROR: ProcessingStats := ProcessingStats(0, 0, 0, 0, 0, 0, 1)

  /** Field-wise sum of two sets of counters. */
  function Plus(a: ProcessingStats, b: ProcessingStats): ProcessingStats {
    ProcessingStats(
      a.blobsProcessed + b.blobsProcessed,
      a.elementsProcessed + b.elementsProcessed,
      a.nodesProcessed + b.nodesProcessed,
      a.waysProcessed + b.waysProcessed,
      a.relationsProcessed + b.relationsProcessed,
      a.changesetsProcessed + b.changesetsProcessed,
      a.errorsEncountered + b.errorsEncountered)
  }

  lemma PlusAssoc(a: ProcessingStats, b: ProcessingStats, c: ProcessingStats)
    ensures Plus(Plus(a, b), c) == Plus(a, Plus(b, c))
  {
  }

  lemma PlusZero(a: ProcessingStats)
    ensures Plus(a, ZERO_PROCESSING) == a && Plus(ZERO_PROCESSING, a) == a
  {
  }

  /** The element counters add up: every counted element has exactly one kind. */
  predicate KindsBalanced(st: ProcessingStats) {
    st.elementsProcessed == st.nodesProcessed + st.waysProcessed + st.relationsProcessed + st.changesetsProcessed
  }

  /** What counting one element adds: one to its kind and one to the total. */
  function KindOf(e: OsmElement): ProcessingStats {
    match e
    case Node(_) => ProcessingStats(0, 1, 1, 0, 0, 0, 0)
    case Way(_) => ProcessingStats(0, 1, 0, 1, 0, 0, 0)
    case Relation(_) => ProcessingStats(0, 1, 0, 0, 1, 0, 0)
    case ChangeSet(_) => ProcessingStats(0, 1, 0, 0, 0, 1, 0)
  }

  /** The counting step of the inner loop of a pass. */
  function CountKind(st: ProcessingStats, e: OsmElement): ProcessingStats {
    Plus(st, KindOf(e))
  }

  /** The element counters contributed by a sequence of elements. */
  function KindTotals(es: seq<OsmElement>): ProcessingStats {
    if es == [] then ZERO_PROCESSING
    else Plus(KindTotals(es[..|es| - 1]), KindOf(es[|es| - 1]))
  }

  /** Every element is counted once in the total and once under its kind;
      no blob or error is counted. */
  lemma {:induction false} KindTotalsCount(es: seq<OsmElement>)
    ensures var t := KindTotals(es);
      && t.elementsProcessed == |es| && KindsBalanced(t)
      && t.blobsProcessed == 0 && t.errorsEncountered == 0
  {
    if es != [] {
      KindTotalsCount(es[..|es| - 1]);
    }
  }

  // ---------------------------------------------------------------------
  // Extraction

  type Reading = Result<Option<Blob>, BlobError>
  type Extractor = Blob -> Result<seq<OsmElement>, BlobError>

  /** The current element extraction: decoding is not implemented and every
      blob yields no elements. */
  function ExtractElementsFromBlob(blob: Blob): (r: Result<seq<OsmElement>, BlobError>)
    ensures r == Success([])
  {
    Success([])
  }

  /** Filtered extraction ignores the filter and extracts as above. */
  function ExtractFilteredElementsFromBlob(blob: Blob, filter: ElementFilter): Result<seq<OsmElement>, BlobError> {
    ExtractElementsFromBlob(blob)
  }

  function FilteredExtractor(filter: ElementFilter): Extractor {
    b => ExtractFilteredElementsFromBlob(b, filter)
  }

  // ---------------------------------------------------------------------
  // The pass as a function of the read results

  datatype PassState<S> = Running(stats: ProcessingStats, state: S) | Aborted(error: BlobError)

  /** One element: count it, then hand it to the processor; a processor error
      aborts the pass. */
  function FeedOne<S>(st: PassState<S>, e: OsmElement, processor: (S, OsmElement) -> Result<S, BlobError>): PassState<S> {
    match st
    case Aborted(_) => st
    case Running(stats, s) =>
      match processor(s, e)
      case Failure(err) => Aborted(err)
      case Success(s') => Running(CountKind(stats, e), s')
  }

  function FeedElements<S>(st: PassState<S>, es: seq<OsmElement>, processor: (S, OsmElement) -> Result<S, BlobError>): PassState<S> {
    if es == [] then st
    else FeedOne(FeedElements(st, es[..|es| - 1], processor), es[|es| - 1], processor)
  }

  /** One blob index: a read error is counted and skipped, a missing blob is
      skipped, a blob is counted and its elements fed; an extraction error
      aborts the pass. */
  function StepBlob<S>(st: PassState<S>, reading: Reading, extract: Extractor,
                       processor: (S, OsmElement) -> Result<S, BlobError>): PassState<S> {
    match st
    case Aborted(_) => st
    case Running(stats, s) =>
      match reading
      case Failure(_) => Running(stats.(errorsEncountered := stats.errorsEncountered + 1), s)
      case Success(None) => st
      case Success(Some(blob)) =>
        match extract(blob)
        case Failure(err) => Aborted(err)
        case Success(es) => FeedElements(Running(stats.(blobsProcessed := stats.blobsProcessed + 1), s), es, processor)
  }

  function PassOver<S>(rs: seq<Reading>, extract: Extractor, st: PassState<S>,
                       processor: (S, OsmElement) -> Result<S, BlobError>): PassState<S> {
    if rs == [] then st
    else StepBlob(PassOver(rs[..|rs| - 1], extract, st, processor), rs[|rs| - 1], extract, processor)
  }

  /** The value a pass returns: its counters and the processor's final
      state, or the error that stopped it. */
  function PassResult<S>(rs: seq<Reading>, extract: Extractor, s0: S,
                         processor: (S, OsmElement) -> Result<S, BlobError>): Result<(ProcessingStats, S), BlobError> {
    match PassOver(rs, extract, Running(ZERO_PROCESSING, s0), processor)
    case Running(stats, s) => Success((stats, s))
    case Aborted(err) => Failure(err)
  }

  // ---------------------------------------------------------------------
  // Reference definitions: what a pass counts and emits

  /** The elements a read result contributes. */
  function ReadingElements(r: Reading, extract: Extractor): seq<OsmElement> {
    match r
    case Success(Some(blob)) => (match extract(blob) case Success(es) => es case Failure(_) => [])
    case _ => []
  }

  /** All elements a pass emits, in order. */
  function Emitted(rs: seq<Reading>, extract: Extractor): seq<OsmElement> {
    if rs == [] then []
    else Emitted(rs[..|rs| - 1], extract) + ReadingElements(rs[|rs| - 1], extract)
  }

  /** What one read result adds to the counters. */
  function ReadingTotals(r: Reading, extract: Extractor): ProcessingStats {
    match r
    case Failure(_) => ONE_ERROR
    case Success(None) => ZERO_PROCESSING
    case Success(Some(_)) => Plus(ONE_BLOB, KindTotals(ReadingElements(r, extract)))
  }

  /** The counters of a whole pass: each blob read counts once, each read
      error once, and the element counters are those of the emitted elements. */
  function PassTotals(rs: seq<Reading>, extract: Extractor): ProcessingStats {
    if rs == [] then ZERO_PROCESSING
    else Plus(PassTotals(rs[..|rs| - 1], extract), ReadingTotals(rs[|rs| - 1], extract))
  }

  /** A pass counts at most one blob or one error per index, and its element
      counters are those of the emitted elements. */
  lemma {:induction false} PassTotalsBounds(rs: seq<Reading>, extract: Extractor)
    ensures var t := PassTotals(rs, extract);
      && t.blobsProcessed + t.errorsEncountered <= |rs|
      && t.elementsProcessed == |Emitted(rs, extract)|
      && KindsBalanced(t)
  {
    if rs != [] {
      PassTotalsBounds(rs[..|rs| - 1], extract);
      ReadingTotalsCount(rs[|rs| - 1], extract);
    }
  }

  lemma ReadingTotalsCount(r: Reading, extract: Extractor)
    ensures var t := ReadingTotals(r, extract);
      && t.blobsProcessed + t.errorsEncountered <= 1
      && t.elementsProcessed == |ReadingElements(r, extract)|
      && KindsBalanced(t)
  {
    match r
    case Failure(_) =>
    case Success(None) =>
    case Success(Some(blob)) =>
      var es := ReadingElements(r, extract);
      KindTotalsCount(es);
      var k := KindTotals(es);
      assert ReadingTotals(r, extract) == Plus(ONE_BLOB, k);
  }

  /** The processor applied to each element in turn, stopping at its first error. */
  function FoldProcessor<S>(s0: S, es: seq<OsmElement>, processor: (S, OsmElement) -> Result<S, BlobError>): Result<S, BlobError> {
    if es == [] then Success(s0)
    else
      match FoldProcessor(s0, es[..|es| - 1], processor)
      case Failure(err) => Failure(err)
      case Success(s) => processor(s, es[|es| - 1])
  }

  lemma {:induction false} FoldProcessorAppend<S>(s0: S, a: seq<OsmElement>, b: seq<OsmElement>,
                                                  processor: (S, OsmElement) -> Result<S, BlobError>)
    ensures FoldProcessor(s0, a + b, processor) ==
      match FoldProcessor(s0, a, processor)
      case Failure(err) => Failure(err)
      case Success(s) => FoldProcessor(s, b, processor)
    decreases |b|
  {
    if b == [] {
      assert a + b == a;
    } else {
      assert (a + b)[..|a + b| - 1] == a + b[..|b| - 1];
      FoldProcessorAppend(s0, a, b[..|b| - 1], processor);
    }
  }

  /** Feeding elements to a running pass counts exactly those elements and
      leaves the state the processor fold gives, or aborts with the fold's
      first error. */
  lemma {:induction false} FeedMatchesFold<S>(stats: ProcessingStats, s0: S, es: seq<OsmElement>,
                                              processor: (S, OsmElement) -> Result<S, BlobError>)
    ensures FeedElements(Running(stats, s0), es, processor) ==
      match FoldProcessor(s0, es, processor)
      case Success(s) => Running(Plus(stats, KindTotals(es)), s)
      case Failure(err) => Aborted(err)
  {
    if es != [] {
      var init, e := es[..|es| - 1], es[|es| - 1];
      FeedMatchesFold(stats, s0, init, processor);
      match FoldProcessor(s0, init, processor)
      case Failure(err) =>
      case Success(s) =>
        assert FeedElements(Running(stats, s0), init, processor) == Running(Plus(stats, KindTotals(init)), s);
        assert KindTotals(es) == Plus(KindTotals(init), KindOf(e));
        PlusAssoc(stats, KindTotals(init), KindOf(e));
    } else {
      PlusZero(stats);
    }
  }

  /** One read result on a running pass adds `ReadingTotals` to the counters
      and folds the processor over the elements it contributes. */
  lemma StepMatchesTotals<S>(stats: ProcessingStats, s0: S, r: Reading, extract: Extractor,
                             processor: (S, OsmElement) -> Result<S, BlobError>)
    ensures var q := StepBlob(Running(stats, s0), r, extract, processor);
      q.Running? ==>
        && q.stats == Plus(stats, ReadingTotals(r, extract))
        && FoldProcessor(s0, ReadingElements(r, extract), processor) == Success(q.state)
  {
    match r
    case Failure(_) =>
      assert ReadingElements(r, extract) == [];
      assert stats.(errorsEncountered := stats.errorsEncountered + 1) == Plus(stats, ONE_ERROR);
    case Success(None) =>
      assert ReadingElements(r, extract) == [];
      PlusZero(stats);
    case Success(Some(blob)) =>
      StepBlobMatchesTotals(stats, s0, blob, extract, processor);
  }

  lemma StepBlobMatchesTotals<S>(stats: ProcessingStats, s0: S, blob: Blob, extract: Extractor,
                                 processor: (S, OsmElement) -> Result<S, BlobError>)
    ensures var q := StepBlob(Running(stats, s0), Success(Some(blob)), extract, processor);
      q.Running? ==>
        && q.stats == Plus(stats, ReadingTotals(Success(Some(blob)), extract))
        && FoldProcessor(s0, ReadingElements(Success(Some(blob)), extract), processor) == Success(q.state)
  {
    if extract(blob).Success? {
      var es := extract(blob).value;
      var counted := stats.(blobsProcessed := stats.blobsProcessed + 1);
      assert counted == Plus(stats, ONE_BLOB);
      assert ReadingElements(Success(Some(blob)), extract) == es;
      FeedMatchesFold(counted, s0, es, processor);
      PlusAssoc(stats, ONE_BLOB, KindTotals(es));
    }
  }

  /** A pass that has not aborted has counted exactly `PassTotals` on top of
      its starting counters, and its state is the processor fold over
      exactly the emitted elements. */
  lemma {:induction false} PassMatchesTotals<S>(rs: seq<Reading>, extract: Extractor, stats: ProcessingStats, s0: S,
                                                processor: (S, OsmElement) -> Result<S, BlobError>)
    ensures var p := PassOver(rs, extract, Running(stats, s0), processor);
      p.Running? ==>
        && p.stats == Plus(stats, PassTotals(rs, extract))
        && FoldProcessor(s0, Emitted(rs, extract), processor) == Success(p.state)
  {
    if rs != [] {
      var init, last := rs[..|rs| - 1], rs[|rs| - 1];
      PassMatchesTotals(init, extract, stats, s0, processor);
      var p := PassOver(init, extract, Running(stats, s0), processor);
      if p.Running? {
        StepMatchesTotals(p.stats, p.state, last, extract, processor);
        FoldProcessorAppend(s0, Emitted(init, extract), ReadingElements(last, extract), processor);
        PlusAssoc(stats, PassTotals(init, extract), ReadingTotals(last, extract));
      }
    } else {
      PlusZero(stats);
    }
  }

  /** With an extractor that never fails, one read result on a running pass
      either adds `ReadingTotals` and continues from the processor fold over
      its elements, or stops with the fold's first error. */
  lemma StepMatchesFold<S>(stats: ProcessingStats, s0: S, r: Reading, extract: Extractor,
                           processor: (S, OsmElement) -> Result<S, BlobError>)
    requires forall b :: extract(b).Success?
    ensures StepBlob(Running(stats, s0), r, extract, processor) ==
      match FoldProcessor(s0, ReadingElements(r, extract), processor)
      case Success(s) => Running(Plus(stats, ReadingTotals(r, extract)), s)
      case Failure(err) => Aborted(err)
  {
    match r
    case Failure(_) =>
      assert ReadingElements(r, extract) == [];
      assert stats.(errorsEncountered := stats.errorsEncountered + 1) == Plus(stats, ONE_ERROR);
    case Success(None) =>
      assert ReadingElements(r, extract) == [];
      PlusZero(stats);
    case Success(Some(blob)) =>
      StepBlobMatchesFold(stats, s0, blob, extract, processor);
  }

  lemma StepBlobMatchesFold<S>(stats: ProcessingStats, s0: S, blob: Blob, extract: Extractor,
                               processor: (S, OsmElement) -> Result<S, BlobError>)
    requires extract(blob).Success?
    ensures StepBlob(Running(stats, s0), Success(Some(blob)), extract, processor) ==
      match FoldProcessor(s0, extract(blob).value, processor)
      case Success(s) => Running(Plus(stats, Plus(ONE_BLOB, KindTotals(extract(blob).value))), s)
      case Failure(err) => Aborted(err)
  {
    var es := extract(blob).value;
    var counted := stats.(blobsProcessed := stats.blobsProcessed + 1);
    assert counted == Plus(stats, ONE_BLOB);
    FeedMatchesFold(counted, s0, es, processor);
    PlusAssoc(stats, ONE_BLOB, KindTotals(es));
  }

  /** With an extractor that never fails, a pass is exactly the processor fold
      over the emitted elements: it ends with `PassTotals` added to the
      counters and the fold's final state, or with the fold's first error. */
  lemma {:induction false} PassMatchesFold<S>(rs: seq<Reading>, extract: Extractor, stats: ProcessingStats, s0: S,
                                              processor: (S, OsmElement) -> Result<S, BlobError>)
    requires forall b :: extract(b).Success?
    ensures PassOver(rs, extract, Running(stats, s0), processor) ==
      match FoldProcessor(s0, Emitted(rs, extract), processor)
      case Success(s) => Running(Plus(stats, PassTotals(rs, extract)), s)
      case Failure(err) => Aborted(err)
  {
    if rs == [] {
      PlusZero(stats);
    } else {
      var init, last := rs[..|rs| - 1], rs[|rs| - 1];
      PassMatchesFold(init, extract, stats, s0, processor);
      FoldProcessorAppend(s0, Emitted(init, extract), ReadingElements(last, extract), processor);
      match FoldProcessor(s0, Emitted(init, extract), processor)
      case Failure(err) =>
      case Success(s) =>
        StepMatchesFold(Plus(stats, PassTotals(init, extract)), s, last, extract, processor);
        PlusAssoc(stats, PassTotals(init, extract), ReadingTotals(last, extract));
    }
  }

  /** The value of a pass whose extractor never fails: the totals and the
      fold's final state, or the processor's first error. */
  lemma PassResultMatchesFold<S>(rs: seq<Reading>, extract: Extractor, s0: S,
                                 processor: (S, OsmElement) -> Result<S, BlobError>)
    requires forall b :: extract(b).Success?
    ensures PassResult(rs, extract, s0, processor) ==
      match FoldProcessor(s0, Emitted(rs, extract), processor)
      case Success(s) => Success((PassTotals(rs, extract), s))
      case Failure(err) => Failure(err)
  {
    PassMatchesFold(rs, extract, ZERO_PROCESSING, s0, processor);
    PlusZero(PassTotals(rs, extract));
  }

  /** The value a successful pass returns, stated without the pass. */
  lemma PassResultMatchesTotals<S>(rs: seq<Reading>, extract: Extractor, s0: S,
                                   processor: (S, OsmElement) -> Result<S, BlobError>)
    ensures var r := PassResult(rs, extract, s0, processor);
      r.Success? ==>
        && r.value.0 == PassTotals(rs, extract)
        && FoldProcessor(s0, Emitted(rs, extract), processor) == Success(r.value.1)
        && r.value.0.blobsProcessed + r.value.0.errorsEncountered <= |rs|
        && r.value.0.elementsProcessed == |Emitted(rs, extract)|
        && KindsBalanced(r.value.0)
  {
    PassMatchesTotals(rs, extract, ZERO_PROCESSING, s0, processor);
    PlusZero(PassTotals(rs, extract));
    PassTotalsBounds(rs, extract);
  }

  lemma {:induction false} FeedAbortPersists<S>(st: PassState<S>, es: seq<OsmElement>, k: nat,
                                                processor: (S, OsmElement) -> Result<S, BlobError>)
    requires k <= |es|
    requires FeedElements(st, es[..k], processor).Aborted?
    ensures FeedElements(st, es, processor) == FeedElements(st, es[..k], processor)
    decreases |es| - k
  {
    if k == |es| {
      assert es[..k] == es;
    } else {
      assert es[..k + 1][..k] == es[..k];
      FeedAbortPersists(st, es, k + 1, processor);
    }
  }

  lemma {:induction false} PassAbortPersists<S>(rs: seq<Reading>, extract: Extractor, st: PassState<S>, k: nat,
                                                processor: (S, OsmElement) -> Result<S, BlobError>)
    requires k <= |rs|
    requires PassOver(rs[..k], extract, st, processor).Aborted?
    ensures PassOver(rs, extract, st, processor) == PassOver(rs[..k], extract, st, processor)
    decreases |rs| - k
  {
    if k == |rs| {
      assert rs[..k] == rs;
    } else {
      assert rs[..k + 1][..k] == rs[..k];
      PassAbortPersists(rs, extract, st, k + 1, processor);
    }
  }

  // ---------------------------------------------------------------------
  // Facts about the current extractor

  function PresentCount(rs: seq<Reading>): nat {
    if rs == [] then 0 else PresentCount(rs[..|rs| - 1]) + (if rs[|rs| - 1].Success? && rs[|rs| - 1].value.Some? then 1 else 0)
  }

  function FailedCount(rs: seq<Reading>): nat {
    if rs == [] then 0 else FailedCount(rs[..|rs| - 1]) + (if rs[|rs| - 1].Failure? then 1 else 0)
  }

  /** The counters of a pass that emits no elements: blobs read and read errors. */
  function ReadTotals(rs: seq<Reading>): ProcessingStats {
    ZERO_PROCESSING.(blobsProcessed := PresentCount(rs), errorsEncountered := FailedCount(rs))
  }

  /** With the current extractor a pass never fails and never calls the
      processor: it returns the number of blobs read, the number of read
      errors, zero elements and the processor's initial state. */
  lemma {:induction false} PlaceholderPass<S>(rs: seq<Reading>, s0: S,
                                              processor: (S, OsmElement) -> Result<S, BlobError>)
    ensures PassOver(rs, ExtractElementsFromBlob, Running(ZERO_PROCESSING, s0), processor) == Running(ReadTotals(rs), s0)
    ensures PassResult(rs, ExtractElementsFromBlob, s0, processor) == Success((ReadTotals(rs), s0))
    ensures Emitted(rs, ExtractElementsFromBlob) == []
  {
    if rs != [] {
      PlaceholderPass(rs[..|rs| - 1], s0, processor);
    }
  }

  /** Filtered extraction and plain extraction give the same pass. */
  lemma {:induction false} FilteredPassLikePlain<S>(rs: seq<Reading>, filter: ElementFilter, st: PassState<S>,
                                                    processor: (S, OsmElement) -> Result<S, BlobError>)
    ensures PassOver(rs, FilteredExtractor(filter), st, processor) == PassOver(rs, ExtractElementsFromBlob, st, processor)
    ensures Emitted(rs, FilteredExtractor(filter)) == Emitted(rs, ExtractElementsFromBlob)
  {
    if rs != [] {
      FilteredPassLikePlain(rs[..|rs| - 1], filter, st, processor);
    }
  }

  // ---------------------------------------------------------------------
  // Processors of the convenience methods

  /** Appends every element to the collected list. */
  function PushElement(acc: seq<OsmElement>, e: OsmElement): Result<seq<OsmElement>, BlobError> {
    Success(acc + [e])
  }

  lemma {:induction false} CollectsInOrder(acc: seq<OsmElement>, es: seq<OsmElement>)
    ensures FoldProcessor(acc, es, PushElement) == Success(acc + es)
  {
    if es != [] {
      var init, e := es[..|es| - 1], es[|es| - 1];
      CollectsInOrder(acc, init);
      assert FoldProcessor(acc, es, PushElement) == PushElement(acc + init, e);
      assert acc + es == (acc + init) + [e];
    } else {
      assert acc + es == acc;
    }
  }

  /** Counts nodes, ways, relations and changesets. */
  function TallyKind(c: (nat, nat, nat, nat), e: OsmElement): Result<(nat, nat, nat, nat), BlobError> {
    match e
    case Node(_) => Success((c.0 + 1, c.1, c.2, c.3))
    case Way(_) => Success((c.0, c.1 + 1, c.2, c.3))
    case Relation(_) => Success((c.0, c.1, c.2 + 1, c.3))
    case ChangeSet(_) => Success((c.0, c.1, c.2, c.3 + 1))
  }

  function KindCounts(es: seq<OsmElement>): (nat, nat, nat, nat) {
    var t := KindTotals(es);
    (t.nodesProcessed, t.waysProcessed, t.relationsProcessed, t.changesetsProcessed)
  }

  /** The processor of `count_elements` keeps the same four counts as the pass. */
  lemma {:induction false} TallyMatchesKinds(es: seq<OsmElement>)
    ensures FoldProcessor((0, 0, 0, 0), es, TallyKind) == Success(KindCounts(es))
  {
    if es != [] {
      var init, e := es[..|es| - 1], es[|es| - 1];
      TallyMatchesKinds(init);
      assert FoldProcessor((0, 0, 0, 0), es, TallyKind) == TallyKind(KindCounts(init), e);
      var t := KindTotals(init);
      assert KindTotals(es) == Plus(t, KindOf(e));
      match e
      case Node(_) => assert KindCounts(es) == (t.nodesProcessed + 1, t.waysProcessed, t.relationsProcessed, t.changesetsProcessed);
      case Way(_) => assert KindCounts(es) == (t.nodesProcessed, t.waysProcessed + 1, t.relationsProcessed, t.changesetsProcessed);
      case Relation(_) => assert KindCounts(es) == (t.nodesProcessed, t.waysProcessed, t.relationsProcessed + 1, t.changesetsProcessed);
      case ChangeSet(_) => assert KindCounts(es) == (t.nodesProcessed, t.waysProcessed, t.relationsProcessed, t.changesetsProcessed + 1);
    }
  }

  /** The four counts add up to the number of elements. */
  lemma KindCountsSum(es: seq<OsmElement>)
    ensures var c := KindCounts(es); c.0 + c.1 + c.2 + c.3 == |es|
  {
    KindTotalsCount(es);
  }

  /** Hands node elements to a node processor and skips the rest. */
  function LiftNodes<S>(p: (S, PrimitiveBlocks.Node) -> Result<S, BlobError>): (S, OsmElement) -> Result<S, BlobError> {
    (s: S, e: OsmElement) => if e.Node? then p(s, e.node) else Success(s)
  }

  /** Hands way elements to a way processor and skips the rest. */
  function LiftWays<S>(p: (S, PrimitiveBlocks.Way) -> Result<S, BlobError>): (S, OsmElement) -> Result<S, BlobError> {
    (s: S, e: OsmElement) => if e.Way? then p(s, e.way) else Success(s)
  }

  /** The fold of `par_map_reduce`: starts from `acc` and combines the
      mapped elements from left to right. */
  function FoldMap<T>(acc: T, es: seq<OsmElement>, mapFn: OsmElement -> T, reduceFn: (T, T) -> T): T {
    if es == [] then acc
    else reduceFn(FoldMap(acc, es[..|es| - 1], mapFn, reduceFn), mapFn(es[|es| - 1]))
  }

  ghost predicate Associative<T(!new)>(reduceFn: (T, T) -> T) {
    forall x, y, z :: reduceFn(reduceFn(x, y), z) == reduceFn(x, reduceFn(y, z))
  }

  ghost predicate IsUnit<T(!new)>(u: T, reduceFn: (T, T) -> T) {
    forall x :: reduceFn(u, x) == x && reduceFn(x, u) == x
  }

  /** When the reduction is associative with the identity as unit, the
      sequential fold over a concatenation is the reduction of the folds of
      the two parts, so splitting the elements among workers would not change
      the result. */
  lemma {:induction false} FoldMapSplits<T(!new)>(u: T, a: seq<OsmElement>, b: seq<OsmElement>,
                                            mapFn: OsmElement -> T, reduceFn: (T, T) -> T)
    requires Associative(reduceFn) && IsUnit(u, reduceFn)
    ensures FoldMap(u, a + b, mapFn, reduceFn) == reduceFn(FoldMap(u, a, mapFn, reduceFn), FoldMap(u, b, mapFn, reduceFn))
    decreases |b|
  {
    if b == [] {
      assert a + b == a;
    } else {
      var b' := b[..|b| - 1];
      assert (a + b)[..|a + b| - 1] == a + b';
      FoldMapSplits(u, a, b', mapFn, reduceFn);
    }
  }

  /** The reduction loop of `par_map_reduce`. */
  method ReduceMapped<T>(acc: T, all: seq<OsmElement>, mapFn: OsmElement -> T, reduceFn: (T, T) -> T) returns (result: T)
    ensures result == FoldMap(acc, all, mapFn, reduceFn)
  {
    result := acc;
    for i := 0 to |all|
      invariant result == FoldMap(acc, all[..i], mapFn, reduceFn)
    {
      assert all[..i + 1][..i] == all[..i];
      result := reduceFn(result, mapFn(all[i]));
    }
    assert all[..|all|] == all;
  }

  // ---------------------------------------------------------------------
  // The reader

  /** The body of a pass for one blob index: a read error is counted and
      skipped, a missing blob skipped, and a blob counted, extracted and its
      elements fed to the processor; an extraction error stops the pass. */
  method ProcessReading<S>(stats: ProcessingStats, state: S, reading: Reading, extract: Extractor,
                           processor: (S, OsmElement) -> Result<S, BlobError>)
    returns (st: PassState<S>)
    ensures st == StepBlob(Running(stats, state), reading, extract, processor)
  {
    match reading {
      case Failure(_) =>
        return Running(stats.(errorsEncountered := stats.errorsEncountered + 1), state);
      case Success(None) =>
        return Running(stats, state);
      case Success(Some(blob)) =>
        var extracted := extract(blob);
        match extracted {
          case Failure(err) =>
            return Aborted(err);
          case Success(elements) =>
            st := FeedLoop(stats.(blobsProcessed := stats.blobsProcessed + 1), state, elements, processor);
        }
    }
  }

  /** The element loop of a pass over one blob: counts each element by kind
      and hands it to the processor, stopping at the first processor error. */
  method FeedLoop<S>(stats: ProcessingStats, state: S, elements: seq<OsmElement>,
                     processor: (S, OsmElement) -> Result<S, BlobError>)
    returns (st: PassState<S>)
    ensures st == FeedElements(Running(stats, state), elements, processor)
  {
    var counted := stats;
    var current := state;
    for j := 0 to |elements|
      invariant FeedElements(Running(stats, state), elements[..j], processor) == Running(counted, current)
    {
      assert elements[..j + 1][..j] == elements[..j];
      counted := CountKind(counted, elements[j]);
      var processed := processor(current, elements[j]);
      match processed {
        case Failure(err) =>
          FeedAbortPersists(Running(stats, state), elements, j + 1, processor);
          return Aborted(err);
        case Success(s') =>
          current := s';
      }
    }
    assert elements[..|elements|] == elements;
    return Running(counted, current);
  }

  /** A reader over an in-memory source, built on an indexed reader. */
  class Reader {
    const indexed: IndexedReader

    /** `Reader::new`: indexes the source. */
    constructor (source: seq<byte>)
      ensures fresh(indexed) && indexed.source == source && indexed.Indexed()
    {
      indexed := new IndexedReader(source);
    }

    /** The read results of all indexed blobs, in index order. */
    ghost function AllReadings(): seq<Reading>
      reads this, indexed
    {
      Readings(indexed.source, indexed.blobIndex)
    }

    /** The loop shared by `for_each` and `for_each_filtered`: reads every
      indexed blob in order, counts read errors and skips them, counts and
      extracts every blob, and counts and processes every element; an
      extraction or processor error ends the pass. */
    method RunPass<S>(extract: Extractor, s0: S, processor: (S, OsmElement) -> Result<S, BlobError>)
      returns (r: Result<(ProcessingStats, S), BlobError>)
      modifies indexed`pos
      ensures r == PassResult(AllReadings(), extract, s0, processor)
    {
      ghost var rs := AllReadings();
      var stats := ZERO_PROCESSING;
      var state := s0;
      var n := indexed.BlobCount();
      for i := 0 to n
        invariant rs == AllReadings() && n == |rs|
        invariant PassOver(rs[..i], extract, Running(ZERO_PROCESSING, s0), processor) == Running(stats, state)
      {
        var reading := indexed.ReadBlobByIndex(i);
        assert rs[..i + 1][..i] == rs[..i];
        var st := ProcessReading(stats, state, reading, extract, processor);
        match st {
          case Aborted(err) =>
            PassAbortPersists(rs, extract, Running(ZERO_PROCESSING, s0), i + 1, processor);
            return Failure(err);
          case Running(stats', state') =>
            stats, state := stats', state';
        }
      }
      assert rs[..n] == rs;
      r := Success((stats, state));
    }

    /** `for_each`: with the current extractor every blob yields nothing, so
      the pass reports the blobs read and the read errors and leaves the
      processor's state untouched. */
    method ForEach<S>(s0: S, processor: (S, OsmElement) -> Result<S, BlobError>)
      returns (r: Result<(ProcessingStats, S), BlobError>)
      modifies indexed`pos
      ensures r == PassResult(AllReadings(), ExtractElementsFromBlob, s0, processor)
      ensures r == Success((ReadTotals(AllReadings()), s0))
    {
      r := RunPass(ExtractElementsFromBlob, s0, processor);
      PlaceholderPass(AllReadings(), s0, processor);
    }

    /** `for_each_filtered`: the same pass with filtered extraction, which
      ignores the filter. */
    method ForEachFiltered<S>(filter: ElementFilter, s0: S, processor: (S, OsmElement) -> Result<S, BlobError>)
      returns (r: Result<(ProcessingStats, S), BlobError>)
      modifies indexed`pos
      ensures r == PassResult(AllReadings(), FilteredExtractor(filter), s0, processor)
      ensures r == PassResult(AllReadings(), ExtractElementsFromBlob, s0, processor)
      ensures r == Success((ReadTotals(AllReadings()), s0))
    {
      r := RunPass(FilteredExtractor(filter), s0, processor);
      FilteredPassLikePlain(AllReadings(), filter, Running(ZERO_PROCESSING, s0), processor);
      PlaceholderPass(AllReadings(), s0, processor);
    }

    /** `collect_filtered`: the emitted elements in order, with the stats. */
    method CollectFiltered(filter: ElementFilter) returns (r: Result<(seq<OsmElement>, ProcessingStats), BlobError>)
      modifies indexed`pos
      ensures r == Success((Emitted(AllReadings(), FilteredExtractor(filter)), PassTotals(AllReadings(), FilteredExtractor(filter))))
      ensures r.Success? ==> r.value.0 == [] && r.value.1 == ReadTotals(AllReadings())
    {
      var pass := ForEachFiltered(filter, [], PushElement);
      ghost var rs := AllReadings();
      PassResultMatchesTotals(rs, FilteredExtractor(filter), [], PushElement);
      CollectsInOrder([], Emitted(rs, FilteredExtractor(filter)));
      FilteredPassLikePlain(rs, filter, Running(ZERO_PROCESSING, []), PushElement);
      PlaceholderPass(rs, [], PushElement);
      match pass {
        case Success((stats, elements)) =>
          r := Success((elements, stats));
      }
    }

    /** `collect_all_elements`: every emitted element, in order. */
    method CollectAllElements() returns (r: Result<seq<OsmElement>, BlobError>)
      modifies indexed`pos
      ensures r == Success(Emitted(AllReadings(), ExtractElementsFromBlob))
    {
      var pass := ForEach([], PushElement);
      ghost var rs := AllReadings();
      PassResultMatchesTotals(rs, ExtractElementsFromBlob, [], PushElement);
      CollectsInOrder([], Emitted(rs, ExtractElementsFromBlob));
      PlaceholderPass(rs, [], PushElement);
      match pass {
        case Success((_, elements)) =>
          r := Success(elements);
      }
    }

    /** `par_map_reduce`, which runs sequentially: the left fold of the
      reduction over the mapped elements, from the identity. The initial
      value is ignored. */
    method ParMapReduce<T>(config: ParallelConfig, mapFn: OsmElement -> T, identity: () -> T,
                           reduceFn: (T, T) -> T, initial: T) returns (r: Result<T, BlobError>)
      modifies indexed`pos
      ensures r == Success(FoldMap(identity(), Emitted(AllReadings(), ExtractElementsFromBlob), mapFn, reduceFn))
      ensures r == Success(identity())
    {
      var start := identity();
      var collected := CollectAllElements();
      match collected {
        case Success(all) =>
          var result := ReduceMapped(start, all, mapFn, reduceFn);
          r := Success(result);
      }
      PlaceholderPass(AllReadings(), [], PushElement);
    }

    /** `count_elements`: nodes, ways, relations and changesets among the
      emitted elements. */
    method CountElements() returns (r: Result<(nat, nat, nat, nat), BlobError>)
      modifies indexed`pos
      ensures r == Success(KindCounts(Emitted(AllReadings(), ExtractElementsFromBlob)))
      ensures r == Success((0, 0, 0, 0))
    {
      var pass := ForEach((0, 0, 0, 0), TallyKind);
      ghost var rs := AllReadings();
      PassResultMatchesTotals(rs, ExtractElementsFromBlob, (0, 0, 0, 0), TallyKind);
      TallyMatchesKinds(Emitted(rs, ExtractElementsFromBlob));
      PlaceholderPass(rs, (0, 0, 0, 0), TallyKind);
      match pass {
        case Success((_, counts)) =>
          r := Success(counts);
      }
    }

    /** `nodes`: a nodes-only filtered pass handing nodes to `processor`. */
    method Nodes<S>(s0: S, processor: (S, PrimitiveBlocks.Node) -> Result<S, BlobError>)
      returns (r: Result<(ProcessingStats, S), BlobError>)
      modifies indexed`pos
      ensures r == PassResult(AllReadings(), FilteredExtractor(NodesOnly()), s0, LiftNodes(processor))
      ensures r == Success((ReadTotals(AllReadings()), s0))
    {
      r := ForEachFiltered(NodesOnly(), s0, LiftNodes(processor));
    }

    /** `ways`: a ways-only filtered pass handing ways to `processor`. */
    method Ways<S>(resolveDependencies: bool, s0: S, processor: (S, PrimitiveBlocks.Way) -> Result<S, BlobError>)
      returns (r: Result<(ProcessingStats, S), BlobError>)
      modifies indexed`pos
      ensures r == PassResult(AllReadings(), FilteredExtractor(WaysOnly(resolveDependencies)), s0, LiftWays(processor))
      ensures r == Success((ReadTotals(AllReadings()), s0))
    {
      r := ForEachFiltered(WaysOnly(resolveDependencies), s0, LiftWays(processor));
    }

    /** `statistics`: the index statistics of the underlying reader. */
    method Statistics() returns (stats: IndexStatistics)
      ensures stats == StatisticsOf(indexed.blobIndex)
    {
      stats := indexed.Statistics();
    }
  }
}
