/**
 * IngestHvacDataFromS3 (internal/domain/services/data_loader.go; the line
 * numbers below refer to that file): check the array envelope, decode the elements one by
 * one, route each reading to the buffer of its monthly collection, dispatch a
 * buffer as soon as it holds MaxBatchSize readings, flush what is left, and
 * turn the insert failures and the closing token into one outcome.
 *
 * The insert goroutines run sequentially here: a dispatch calls the sink at
 * once, and its outcome is the sink's answer for the dispatch's position in
 * the dispatch log.
 */
module Ingest {

  import opened Wrappers
  import opened Records
  import opened Naming
  import opened Batching
  import opened Channels

  /** The capacity of the error channel. */
  const ErrorChannelBufferSize: nat := 5

  datatype SinkResult = Inserted | SinkFailed(reason: string)

  /** One call of InsertMany, with the answer the sink gave to it. */
  datatype Dispatched = Dispatched(collection: string, batch: seq<Record>, finalFlush: bool, outcome: SinkResult)

  datatype IngestError =
    | TransportFailed
    | StartTokenUnreadable
    | NotAnArray(found: Token)
    | InsertFailed(collection: string, finalFlush: bool, reason: string)
    | IngestionFailed(cause: Option<IngestError>)
    | EndTokenUnreadable
    | NotClosed(found: Token)

  /** Ingested carries the number of readings decoded (it is only logged by the source). */
  datatype IngestResult = Ingested(processed: nat) | Failed(error: IngestError)

  type Buffers = map<string, seq<Record>>

  function NameOf(r: Record): string {
    CollectionName(r.timestamp)
  }

  /** A missing collection reads as an empty buffer, as a nil slice does in Go. */
  function Get(buffers: Buffers, c: string): seq<Record> {
    if c in buffers then buffers[c] else []
  }

  // ---------------------------------------------------------------------------
  // Reference definitions: what the pipeline should produce from its input

  /** The readings the decoder yields, in source order; undecodable elements are skipped. */
  function DecodedRecords(elems: seq<Element>): seq<Record>
    decreases |elems|
  {
    if |elems| == 0 then []
    else
      var e := elems[|elems| - 1];
      DecodedRecords(elems[..|elems| - 1]) + if e.Decodes? then [e.record] else []
  }

  /** The number of elements that fail to decode and are skipped. */
  function Skipped(elems: seq<Element>): nat
    decreases |elems|
  {
    if |elems| == 0 then 0
    else Skipped(elems[..|elems| - 1]) + if elems[|elems| - 1].Undecodable? then 1 else 0
  }

  /** The readings, in source order, that belong to collection c. */
  function Routed(recs: seq<Record>, c: string): seq<Record>
    decreases |recs|
  {
    if |recs| == 0 then []
    else
      var r := recs[|recs| - 1];
      Routed(recs[..|recs| - 1], c) + if NameOf(r) == c then [r] else []
  }

  /** The batches inserted into collection c, in dispatch order. */
  function BatchesTo(log: seq<Dispatched>, c: string): seq<seq<Record>>
    decreases |log|
  {
    if |log| == 0 then []
    else
      var d := log[|log| - 1];
      BatchesTo(log[..|log| - 1], c) + if d.collection == c then [d.batch] else []
  }

  /** Every reading handed to the sink, batch after batch. */
  function AllDispatched(log: seq<Dispatched>): seq<Record>
    decreases |log|
  {
    if |log| == 0 then [] else AllDispatched(log[..|log| - 1]) + log[|log| - 1].batch
  }

  function ErrorOf(d: Dispatched): IngestError
    requires d.outcome.SinkFailed?
  {
    InsertFailed(d.collection, d.finalFlush, d.outcome.reason)
  }

  /** The errors the insert goroutines try to send, in dispatch order. */
  function Failures(log: seq<Dispatched>): seq<IngestError>
    decreases |log|
  {
    if |log| == 0 then []
    else
      var d := log[|log| - 1];
      Failures(log[..|log| - 1]) + if d.outcome.SinkFailed? then [ErrorOf(d)] else []
  }

  /** What a channel of capacity ErrorChannelBufferSize keeps of those errors. */
  function Retained(errs: seq<IngestError>): seq<IngestError> {
    if |errs| <= ErrorChannelBufferSize then errs else errs[..ErrorChannelBufferSize]
  }

  predicate HasFailure(log: seq<Dispatched>) {
    exists j | 0 <= j < |log| :: log[j].outcome.SinkFailed?
  }

  /** Every buffer in the map is non-empty, below the threshold, and holds only its own collection. */
  predicate Accumulating(buffers: Buffers) {
    forall c | c in buffers ::
      && 1 <= |buffers[c]| < MaxBatchSize
      && forall r | r in buffers[c] :: NameOf(r) == c
  }

  /** A mid-stream batch is exactly MaxBatchSize; a flushed one is non-empty and shorter. */
  predicate SoundDispatch(d: Dispatched) {
    && 1 <= |d.batch| <= MaxBatchSize
    && (d.finalFlush <==> |d.batch| < MaxBatchSize)
    && forall r | r in d.batch :: NameOf(r) == d.collection
  }

  predicate Full(buffers: Buffers, c: string) {
    c in buffers && |buffers[c]| >= MaxBatchSize
  }

  function FullKeys(buffers: Buffers): set<string> {
    set c | c in buffers && Full(buffers, c)
  }

  predicate ChannelTracks(ch: BoundedChannel<IngestError>, log: seq<Dispatched>)
    reads ch
  {
    && ch.capacity == ErrorChannelBufferSize
    && !ch.closed
    && ch.buffer == Retained(Failures(log))
  }

  predicate Opens(source: Source) {
    source.Body? && source.doc.first == TokenOk(ArrayOpen)
  }

  /** Lines 36-50: the stream must open and its first token must be '['. */
  function StartCheck(source: Source): (err: Option<IngestError>)
    ensures err.None? <==> Opens(source)
  {
    if source.Unavailable? then Some(TransportFailed)
    else match source.doc.first
      case TokenErr => Some(StartTokenUnreadable)
      case TokenOk(t) => if t == ArrayOpen then None else Some(NotAnArray(t))
  }

  /** Lines 131-140: the token after the last element must be ']'. */
  function CloseCheck(last: TokenRead, processed: nat): IngestResult {
    match last
    case TokenErr => Failed(EndTokenUnreadable)
    case TokenOk(t) => if t == ArrayClose then Ingested(processed) else Failed(NotClosed(t))
  }

  /** The outcome once all inserts are done: a received insert error wins, else the closing token decides. */
  function Conclude(r: SelectResult<IngestError>, last: TokenRead, processed: nat): IngestResult {
    match r
    case Received(Some(e)) => Failed(IngestionFailed(Some(e)))
    case _ => CloseCheck(last, processed)
  }

  /**
   * Lines 125-129 as written: any received value, including the zero value
   * of a closed and drained channel, is returned as an error.
   */
  function ConcludeAsWritten(r: SelectResult<IngestError>, last: TokenRead, processed: nat): IngestResult {
    match r
    case Received(v) => Failed(IngestionFailed(v))
    case WouldBlock => CloseCheck(last, processed)
  }

  // ---------------------------------------------------------------------------
  // Properties of the reference definitions

  /** Every element is either counted as processed or skipped, never both. */
  lemma {:induction false} DecodedPlusSkipped(elems: seq<Element>)
    ensures |DecodedRecords(elems)| + Skipped(elems) == |elems|
    decreases |elems|
  {
    if |elems| > 0 {
      DecodedPlusSkipped(elems[..|elems| - 1]);
    }
  }

  /** One undecodable element between two readings: two processed, one skipped. */
  lemma SkippedElementScenario(a: Record, b: Record)
    ensures DecodedRecords([Decodes(a), Undecodable, Decodes(b)]) == [a, b]
    ensures Skipped([Decodes(a), Undecodable, Decodes(b)]) == 1
  {
    var elems := [Decodes(a), Undecodable, Decodes(b)];
    assert elems[..2] == [Decodes(a), Undecodable];
    assert elems[..2][..1] == [Decodes(a)];
    assert [Decodes(a)][..0] == [];
    assert DecodedRecords([Decodes(a)]) == [a];
    assert DecodedRecords(elems[..2]) == [a] + [];
    assert DecodedRecords(elems) == [a] + [] + [b];
    assert Skipped([Decodes(a)]) == 0;
    assert Skipped(elems[..2]) == 1;
  }

  /** The collection names of January and February 2024. */
  lemma NamesOf2024(a: Record, b: Record)
    requires a.timestamp == Timestamp(2024, 1) && b.timestamp == Timestamp(2024, 2)
    ensures NameOf(a) == "hvac_readings_2024_01" && NameOf(b) == "hvac_readings_2024_02"
  {
    CollectionNameLayout(a.timestamp);
    CollectionNameLayout(b.timestamp);
    assert FourDigits(2024) == "2024";
    assert [Digit(0), Digit(1)] == "01";
    assert [Digit(0), Digit(2)] == "02";
  }

  /** Readings of January and February 2024 go to two collections, one flushed batch each. */
  lemma TwoMonthsScenario(a: Record, b: Record)
    requires a.timestamp == Timestamp(2024, 1) && b.timestamp == Timestamp(2024, 2)
    ensures NameOf(a) == "hvac_readings_2024_01" && NameOf(b) == "hvac_readings_2024_02"
    ensures Batches(Routed([a, b], NameOf(a))) == [[a]]
    ensures Batches(Routed([a, b], NameOf(b))) == [[b]]
  {
    NamesOf2024(a, b);
    assert NameOf(a) != NameOf(b) by {
      assert NameOf(a)[20] != NameOf(b)[20];
    }
    RoutedAppend([a], b, NameOf(a));
    RoutedAppend([a], b, NameOf(b));
    RoutedAppend([], a, NameOf(a));
    RoutedAppend([], a, NameOf(b));
    assert [a, b] == [a] + [b] && [a] == [] + [a];
    assert Routed([a, b], NameOf(a)) == [a];
    assert Routed([a, b], NameOf(b)) == [b];
  }

  lemma LogAppend(log: seq<Dispatched>, d: Dispatched)
    ensures BatchesTo(log + [d], d.collection) == BatchesTo(log, d.collection) + [d.batch]
    ensures forall c | c != d.collection :: BatchesTo(log + [d], c) == BatchesTo(log, c)
    ensures AllDispatched(log + [d]) == AllDispatched(log) + d.batch
    ensures d.outcome.SinkFailed? ==> Failures(log + [d]) == Failures(log) + [ErrorOf(d)]
    ensures d.outcome.Inserted? ==> Failures(log + [d]) == Failures(log)
  {
    assert (log + [d])[..|log|] == log;
    forall c | c != d.collection ensures BatchesTo(log + [d], c) == BatchesTo(log, c) {
      assert BatchesTo(log, c) + [] == BatchesTo(log, c);
    }
    assert Failures(log) + [] == Failures(log);
  }

  lemma RoutedAppend(recs: seq<Record>, r: Record, c: string)
    ensures NameOf(r) == c ==> Routed(recs + [r], c) == Routed(recs, c) + [r]
    ensures NameOf(r) != c ==> Routed(recs + [r], c) == Routed(recs, c)
  {
    assert (recs + [r])[..|recs|] == recs;
    assert Routed(recs, c) + [] == Routed(recs, c);
  }

  /** A bounded channel keeps the first ErrorChannelBufferSize errors and drops later ones. */
  lemma RetainedAppend(errs: seq<IngestError>, e: IngestError)
    ensures Retained(errs + [e]) == if |Retained(errs)| < ErrorChannelBufferSize then Retained(errs) + [e] else Retained(errs)
  {
    if |errs| > ErrorChannelBufferSize {
      assert (errs + [e])[..ErrorChannelBufferSize] == errs[..ErrorChannelBufferSize];
    }
  }

  /** The goroutines send at least one error exactly when some insert failed. */
  lemma {:induction false} FailuresIffFailure(log: seq<Dispatched>)
    ensures |Failures(log)| > 0 <==> HasFailure(log)
    decreases |log|
  {
    if |log| > 0 {
      var init := log[..|log| - 1];
      FailuresIffFailure(init);
      if HasFailure(init) {
        var j :| 0 <= j < |init| && init[j].outcome.SinkFailed?;
        assert log[j] == init[j];
      }
      if HasFailure(log) && !log[|log| - 1].outcome.SinkFailed? {
        var j :| 0 <= j < |log| && log[j].outcome.SinkFailed?;
        assert init[j] == log[j];
      }
    }
  }

  /** The first error sent is the one of the earliest failed dispatch. */
  lemma {:induction false} FirstFailure(log: seq<Dispatched>)
    requires HasFailure(log)
    ensures |Failures(log)| > 0
    ensures exists j | 0 <= j < |log| ::
      && log[j].outcome.SinkFailed?
      && Failures(log)[0] == ErrorOf(log[j])
      && forall k | 0 <= k < j :: !log[k].outcome.SinkFailed?
    decreases |log|
  {
    var init := log[..|log| - 1];
    FailuresIffFailure(init);
    if HasFailure(init) {
      FirstFailure(init);
      var j :| 0 <= j < |init| && init[j].outcome.SinkFailed? && Failures(init)[0] == ErrorOf(init[j])
        && forall k | 0 <= k < j :: !init[k].outcome.SinkFailed?;
      assert log[j] == init[j];
      assert forall k | 0 <= k < j :: log[k] == init[k];
    } else {
      var j := |log| - 1;
      assert forall k | 0 <= k < j :: log[k] == init[k];
      assert log[j].outcome.SinkFailed?;
    }
  }

  /** Every reading routed to c belongs to c, and routing keeps every copy of a reading. */
  lemma {:induction false} RoutedCount(recs: seq<Record>, r: Record)
    ensures multiset(Routed(recs, NameOf(r)))[r] == multiset(recs)[r]
    decreases |recs|
  {
    if |recs| > 0 {
      var init := recs[..|recs| - 1];
      RoutedCount(init, r);
      assert recs == init + [recs[|recs| - 1]];
    }
  }

  lemma {:induction false} RoutedMembers(recs: seq<Record>, c: string)
    ensures forall r | r in Routed(recs, c) :: NameOf(r) == c
    decreases |recs|
  {
    if |recs| > 0 {
      RoutedMembers(recs[..|recs| - 1], c);
    }
  }

  /** In a log whose batches hold only their own collection, a reading occurs as often overall as in its collection's batches. */
  lemma {:induction false} DispatchedCount(log: seq<Dispatched>, r: Record)
    requires forall j | 0 <= j < |log| :: SoundDispatch(log[j])
    ensures multiset(AllDispatched(log))[r] == multiset(Flatten(BatchesTo(log, NameOf(r))))[r]
    decreases |log|
  {
    if |log| > 0 {
      var c := NameOf(r);
      var init := log[..|log| - 1];
      var d := log[|log| - 1];
      assert log == init + [d];
      LogAppend(init, d);
      DispatchedCount(init, r);
      var before := Flatten(BatchesTo(init, c));
      assert multiset(AllDispatched(log))[r] == multiset(AllDispatched(init))[r] + multiset(d.batch)[r];
      if d.collection == c {
        FlattenAppend(BatchesTo(init, c), [d.batch]);
        assert Flatten([d.batch]) == d.batch by { assert [d.batch][..0] == []; }
        assert Flatten(BatchesTo(log, c)) == before + d.batch;
      } else {
        assert SoundDispatch(d);
        assert multiset(d.batch)[r] == 0;
        assert BatchesTo(log, c) == BatchesTo(init, c);
      }
    }
  }

  /** Per-collection batching that covers each collection exactly conserves every reading globally. */
  lemma Conservation(log: seq<Dispatched>, recs: seq<Record>)
    requires forall j | 0 <= j < |log| :: SoundDispatch(log[j])
    requires forall c :: BatchesTo(log, c) == Batches(Routed(recs, c))
    ensures multiset(AllDispatched(log)) == multiset(recs)
    ensures |AllDispatched(log)| == |recs|
  {
    forall r ensures multiset(AllDispatched(log))[r] == multiset(recs)[r] {
      DispatchedCount(log, r);
      BatchesConserve(Routed(recs, NameOf(r)));
      RoutedCount(recs, r);
    }
    assert multiset(AllDispatched(log)) == multiset(recs);
    assert |multiset(AllDispatched(log))| == |multiset(recs)|;
  }

  /** As written, a pipeline that got past the opening token can never succeed. */
  lemma AsWrittenNeverSucceeds(buffer: seq<IngestError>, last: TokenRead, processed: nat)
    ensures ConcludeAsWritten(SelectReceive(buffer, true), last, processed).Failed?
  {
  }

  /** The smallest witness: "[]" with a successful close yields an error as written and success once corrected. */
  lemma EmptyArrayWitness()
    ensures ConcludeAsWritten(SelectReceive([], true), TokenOk(ArrayClose), 0) == Failed(IngestionFailed(None))
    ensures Conclude(SelectReceive([], true), TokenOk(ArrayClose), 0) == Ingested(0)
  {
  }

  /** Corrected, an insert error is reported exactly when one was sent; otherwise the closing token decides. */
  lemma ConcludeDecides(buffer: seq<IngestError>, last: TokenRead, processed: nat)
    ensures Conclude(SelectReceive(buffer, true), last, processed)
      == if |buffer| > 0 then Failed(IngestionFailed(Some(buffer[0]))) else CloseCheck(last, processed)
    ensures CloseCheck(last, processed) == Ingested(processed) <==> last == TokenOk(ArrayClose)
  {
  }

  // ---------------------------------------------------------------------------
  // The pipeline

  /** Lines 75-92 and 102-117: start one insert and send its error, if any, without blocking. */
  method DispatchBatch(ch: BoundedChannel<IngestError>, collection: string, batch: seq<Record>,
                       finalFlush: bool, log: seq<Dispatched>, sink: nat -> SinkResult)
    returns (log': seq<Dispatched>)
    requires ChannelTracks(ch, log)
    modifies ch
    ensures ChannelTracks(ch, log')
    ensures log' == log + [Dispatched(collection, batch, finalFlush, sink(|log|))]
  {
    var outcome := sink(|log|);
    var d := Dispatched(collection, batch, finalFlush, outcome);
    log' := log + [d];
    LogAppend(log, d);
    if outcome.SinkFailed? {
      RetainedAppend(Failures(log), ErrorOf(d));
      var _ := ch.TrySend(ErrorOf(d));
    }
  }

  /** The collections a run of dispatches went to. */
  function CollectionsOf(sent: seq<Dispatched>): set<string> {
    set d | d in sent :: d.collection
  }

  /** Every dispatch of the scan so far is a whole full buffer the scan has already reached, sent mid-stream. */
  predicate ScanSound(buffers: Buffers, pending: set<string>, sent: seq<Dispatched>) {
    forall d | d in sent ::
      && d.collection !in pending
      && Full(buffers, d.collection)
      && d.batch == buffers[d.collection]
      && !d.finalFlush
  }

  /** The j-th dispatch of the scan got the sink's answer for position base + j. */
  predicate ScanOutcomes(base: nat, sent: seq<Dispatched>, sink: nat -> SinkResult) {
    forall j | 0 <= j < |sent| :: sent[j].outcome == sink(base + j)
  }

  /** The scan has dispatched each full buffer it has reached exactly once. */
  predicate ScanCovers(buffers: Buffers, pending: set<string>, sent: seq<Dispatched>) {
    && CollectionsOf(sent) == FullKeys(buffers) - pending
    && |sent| == |FullKeys(buffers) - pending|
  }

  /**
   * What scanning the buffers has dispatched so far, `pending` being the
   * collections the scan has not reached yet and `base` the number of
   * dispatches before the scan: each full buffer already reached, once, in
   * scan order, as a mid-stream batch.
   */
  predicate Scanned(buffers: Buffers, pending: set<string>, base: nat, sent: seq<Dispatched>,
                    sink: nat -> SinkResult)
  {
    ScanSound(buffers, pending, sent) && ScanOutcomes(base, sent, sink) && ScanCovers(buffers, pending, sent)
  }

  lemma ScanSoundStep(buffers: Buffers, pending: set<string>, sent: seq<Dispatched>, d: Dispatched)
    requires ScanSound(buffers, pending, sent)
    requires d.collection in pending && Full(buffers, d.collection) && d.batch == buffers[d.collection] && !d.finalFlush
    ensures ScanSound(buffers, pending - {d.collection}, sent + [d])
  {
    forall x | x in sent + [d] ensures x in sent || x == d { }
  }

  lemma ScanOutcomesStep(base: nat, sent: seq<Dispatched>, sink: nat -> SinkResult, d: Dispatched)
    requires ScanOutcomes(base, sent, sink)
    requires d.outcome == sink(base + |sent|)
    ensures ScanOutcomes(base, sent + [d], sink)
  {
    forall j | 0 <= j < |sent| + 1 ensures (sent + [d])[j].outcome == sink(base + j) {
      if j < |sent| { assert (sent + [d])[j] == sent[j]; }
    }
  }

  lemma ScanCoversStep(buffers: Buffers, pending: set<string>, sent: seq<Dispatched>, d: Dispatched)
    requires ScanCovers(buffers, pending, sent)
    requires d.collection in pending && Full(buffers, d.collection)
    ensures ScanCovers(buffers, pending - {d.collection}, sent + [d])
  {
    var k := d.collection;
    assert CollectionsOf(sent + [d]) == CollectionsOf(sent) + {k} by {
      forall x | x in sent + [d] ensures x in sent || x == d { }
    }
    assert k !in FullKeys(buffers) - pending;
    assert FullKeys(buffers) - (pending - {k}) == (FullKeys(buffers) - pending) + {k};
  }

  lemma ScanDispatches(buffers: Buffers, pending: set<string>, base: nat, sent: seq<Dispatched>,
                       sink: nat -> SinkResult, k: string)
    requires Scanned(buffers, pending, base, sent, sink)
    requires k in pending && Full(buffers, k)
    ensures Scanned(buffers, pending - {k}, base, sent + [Dispatched(k, buffers[k], false, sink(base + |sent|))], sink)
  {
    var d := Dispatched(k, buffers[k], false, sink(base + |sent|));
    ScanSoundStep(buffers, pending, sent, d);
    ScanOutcomesStep(base, sent, sink, d);
    ScanCoversStep(buffers, pending, sent, d);
  }

  lemma ScanSkips(buffers: Buffers, pending: set<string>, base: nat, sent: seq<Dispatched>,
                  sink: nat -> SinkResult, k: string)
    requires Scanned(buffers, pending, base, sent, sink)
    requires k in pending && !Full(buffers, k)
    ensures Scanned(buffers, pending - {k}, base, sent, sink)
  {
    assert FullKeys(buffers) - (pending - {k}) == FullKeys(buffers) - pending;
  }

  /** The buffers the scan keeps: those it has not reached yet and those below the threshold. */
  function Unscanned(buffers: Buffers, pending: set<string>): Buffers {
    map c | c in buffers && (c in pending || !Full(buffers, c)) :: buffers[c]
  }

  lemma UnscannedStep(buffers: Buffers, pending: set<string>, k: string)
    requires k in pending
    ensures Full(buffers, k) ==> Unscanned(buffers, pending) - {k} == Unscanned(buffers, pending - {k})
    ensures !Full(buffers, k) ==> Unscanned(buffers, pending) == Unscanned(buffers, pending - {k})
  {
  }

  /** One step of the scan at lines 73-96: dispatch and remove collection k if its buffer is full. */
  method ScanOne(ch: BoundedChannel<IngestError>, buffers: Buffers, keys: set<string>, k: string,
                 rest: Buffers, log: seq<Dispatched>, log': seq<Dispatched>, ghost sent: seq<Dispatched>,
                 sink: nat -> SinkResult)
    returns (rest': Buffers, log'': seq<Dispatched>, ghost sent': seq<Dispatched>)
    requires k in keys && keys <= buffers.Keys
    requires ChannelTracks(ch, log')
    requires rest == Unscanned(buffers, keys)
    requires log' == log + sent
    requires Scanned(buffers, keys, |log|, sent, sink)
    modifies ch
    ensures ChannelTracks(ch, log'')
    ensures rest' == Unscanned(buffers, keys - {k})
    ensures log'' == log + sent'
    ensures Scanned(buffers, keys - {k}, |log|, sent', sink)
  {
    var batch := rest[k];
    UnscannedStep(buffers, keys, k);
    if |batch| >= MaxBatchSize {
      ScanDispatches(buffers, keys, |log|, sent, sink, k);
      log'' := DispatchBatch(ch, k, batch, false, log', sink);
      sent' := sent + [Dispatched(k, batch, false, sink(|log'|))];
      rest' := rest - {k};
    } else {
      ScanSkips(buffers, keys, |log|, sent, sink, k);
      rest', log'', sent' := rest, log', sent;
    }
  }

  /**
   * Lines 73-97: dispatch and remove every buffer that has reached
   * MaxBatchSize. The new dispatches go to the full collections, one each,
   * in an order the model leaves open, as Go's map iteration does.
   */
  method DispatchFull(ch: BoundedChannel<IngestError>, buffers: Buffers, log: seq<Dispatched>, sink: nat -> SinkResult)
    returns (rest: Buffers, log': seq<Dispatched>)
    requires ChannelTracks(ch, log)
    modifies ch
    ensures ChannelTracks(ch, log')
    ensures forall c :: c in rest <==> c in buffers && !Full(buffers, c)
    ensures forall c | c in rest :: rest[c] == buffers[c]
    ensures |log| <= |log'| && log'[..|log|] == log
    ensures Scanned(buffers, {}, |log|, log'[|log|..], sink)
  {
    var keys := buffers.Keys;
    rest, log' := buffers, log;
    ghost var sent: seq<Dispatched> := [];
    assert FullKeys(buffers) - keys == {};
    assert CollectionsOf(sent) == {};
    assert rest == Unscanned(buffers, keys);
    while keys != {}
      invariant keys <= buffers.Keys
      invariant ChannelTracks(ch, log')
      invariant rest == Unscanned(buffers, keys)
      invariant log' == log + sent
      invariant Scanned(buffers, keys, |log|, sent, sink)
      decreases keys
    {
      var k :| k in keys;
      rest, log', sent := ScanOne(ch, buffers, keys, k, rest, log, log', sent, sink);
      keys := keys - {k};
    }
    assert log'[|log|..] == sent;
  }

  /** The scan dispatches exactly the one full buffer. */
  lemma ScannedOne(buffers: Buffers, base: nat, sent: seq<Dispatched>, sink: nat -> SinkResult, c: string)
    requires Scanned(buffers, {}, base, sent, sink)
    requires FullKeys(buffers) == {c}
    ensures sent == [Dispatched(c, buffers[c], false, sink(base))]
  {
    assert |sent| == 1;
    assert sent[0] in sent;
    assert sent[0].collection in CollectionsOf(sent);
  }

  /** With no full buffer the scan dispatches nothing. */
  lemma ScannedNone(buffers: Buffers, base: nat, sent: seq<Dispatched>, sink: nat -> SinkResult)
    requires Scanned(buffers, {}, base, sent, sink)
    requires FullKeys(buffers) == {}
    ensures sent == []
  {
  }

  /** Appending a reading of collection c below the threshold keeps every buffer accumulating. */
  lemma AccumulatingGrow(buffers: Buffers, rec: Record)
    requires Accumulating(buffers)
    requires |Get(buffers, NameOf(rec))| + 1 < MaxBatchSize
    ensures Accumulating(buffers[NameOf(rec) := Get(buffers, NameOf(rec)) + [rec]])
  {
    var c := NameOf(rec);
    var grown := Get(buffers, c) + [rec];
    forall r | r in grown ensures NameOf(r) == c {
      if r != rec { assert r in Get(buffers, c); }
    }
  }

  /** Lines 68-97: append a reading to its own collection's buffer, then dispatch it if that made it full. */
  method Accumulate(ch: BoundedChannel<IngestError>, buffers: Buffers, log: seq<Dispatched>,
                    rec: Record, sink: nat -> SinkResult)
    returns (buffers': Buffers, log': seq<Dispatched>)
    requires Accumulating(buffers)
    requires ChannelTracks(ch, log)
    modifies ch
    ensures Accumulating(buffers')
    ensures ChannelTracks(ch, log')
    ensures var c := NameOf(rec); var grown := Get(buffers, c) + [rec];
      if |grown| == MaxBatchSize then
        buffers' == buffers - {c} && log' == log + [Dispatched(c, grown, false, sink(|log|))]
      else
        buffers' == buffers[c := grown] && log' == log
  {
    var c := NameOf(rec);
    var grown := Get(buffers, c) + [rec];
    var appended := buffers[c := grown];
    buffers', log' := DispatchFull(ch, appended, log, sink);
    if |grown| == MaxBatchSize {
      assert FullKeys(appended) == {c};
      ScannedOne(appended, |log|, log'[|log|..], sink, c);
      assert log' == log'[..|log|] + log'[|log|..];
      assert buffers' == buffers - {c};
    } else {
      assert FullKeys(appended) == {};
      ScannedNone(appended, |log|, log'[|log|..], sink);
      assert log' == log'[..|log|] + log'[|log|..];
      assert buffers' == appended;
      AccumulatingGrow(buffers, rec);
    }
  }

  /** Every dispatch of the record loop is a sound mid-stream batch with the sink's answer for its position. */
  predicate MidStream(log: seq<Dispatched>, sink: nat -> SinkResult) {
    forall j | 0 <= j < |log| :: SoundDispatch(log[j]) && !log[j].finalFlush && log[j].outcome == sink(j)
  }

  /**
   * The state of the record loop after the readings recs: each collection
   * has had its full batches dispatched, in order, and holds its leftover.
   */
  ghost predicate Summarises(buffers: Buffers, log: seq<Dispatched>, recs: seq<Record>, sink: nat -> SinkResult) {
    && Accumulating(buffers)
    && (forall c :: BatchesTo(log, c) == FullBatches(Routed(recs, c)))
    && (forall c :: Get(buffers, c) == Leftover(Routed(recs, c)))
    && MidStream(log, sink)
  }

  /** A reading that leaves its collection below the threshold only extends that buffer. */
  lemma SummaryGrows(buffers: Buffers, log: seq<Dispatched>, seen: seq<Record>, rec: Record, sink: nat -> SinkResult)
    requires Summarises(buffers, log, seen, sink)
    requires |Get(buffers, NameOf(rec))| + 1 < MaxBatchSize
    ensures Summarises(buffers[NameOf(rec) := Get(buffers, NameOf(rec)) + [rec]], log, seen + [rec], sink)
  {
    var c := NameOf(rec);
    var buffers' := buffers[c := Get(buffers, c) + [rec]];
    AccumulatingGrow(buffers, rec);
    forall k
      ensures BatchesTo(log, k) == FullBatches(Routed(seen + [rec], k))
      ensures Get(buffers', k) == Leftover(Routed(seen + [rec], k))
    {
      GrownRoutingAt(buffers, log, seen, rec, k);
    }
  }

  /** The batch a filling reading completes holds only readings of its collection. */
  lemma FilledBatchSound(buffers: Buffers, rec: Record, sink: nat -> SinkResult, log: seq<Dispatched>)
    requires Accumulating(buffers)
    requires |Get(buffers, NameOf(rec))| + 1 == MaxBatchSize
    requires MidStream(log, sink)
    ensures MidStream(log + [Dispatched(NameOf(rec), Get(buffers, NameOf(rec)) + [rec], false, sink(|log|))], sink)
  {
    var c := NameOf(rec);
    var grown := Get(buffers, c) + [rec];
    var d := Dispatched(c, grown, false, sink(|log|));
    forall r | r in grown ensures NameOf(r) == c {
      if r != rec { assert r in Get(buffers, c); }
    }
    assert SoundDispatch(d);
    var log' := log + [d];
    forall j | 0 <= j < |log'| ensures SoundDispatch(log'[j]) && !log'[j].finalFlush && log'[j].outcome == sink(j) {
      if j < |log| { assert log'[j] == log[j]; } else { assert log'[j] == d; }
    }
  }

  /** How a filling reading moves collection k's batches and leftover. */
  lemma FilledRoutingAt(buffers: Buffers, log: seq<Dispatched>, seen: seq<Record>, rec: Record, d: Dispatched, k: string)
    requires d.collection == NameOf(rec) && d.batch == Get(buffers, NameOf(rec)) + [rec]
    requires |Get(buffers, NameOf(rec))| + 1 == MaxBatchSize
    requires BatchesTo(log, k) == FullBatches(Routed(seen, k))
    requires Get(buffers, k) == Leftover(Routed(seen, k))
    ensures BatchesTo(log + [d], k) == FullBatches(Routed(seen + [rec], k))
    ensures Get(buffers - {NameOf(rec)}, k) == Leftover(Routed(seen + [rec], k))
  {
    LogAppend(log, d);
    RoutedAppend(seen, rec, k);
    if k == NameOf(rec) {
      AppendStep(Routed(seen, k), rec);
    }
  }

  /** How a growing reading moves collection k's batches and leftover. */
  lemma GrownRoutingAt(buffers: Buffers, log: seq<Dispatched>, seen: seq<Record>, rec: Record, k: string)
    requires |Get(buffers, NameOf(rec))| + 1 < MaxBatchSize
    requires BatchesTo(log, k) == FullBatches(Routed(seen, k))
    requires Get(buffers, k) == Leftover(Routed(seen, k))
    ensures BatchesTo(log, k) == FullBatches(Routed(seen + [rec], k))
    ensures Get(buffers[NameOf(rec) := Get(buffers, NameOf(rec)) + [rec]], k) == Leftover(Routed(seen + [rec], k))
  {
    RoutedAppend(seen, rec, k);
    if k == NameOf(rec) {
      AppendStep(Routed(seen, k), rec);
    }
  }

  /** A reading that brings its collection to the threshold dispatches that buffer as one batch. */
  lemma SummaryFills(buffers: Buffers, log: seq<Dispatched>, seen: seq<Record>, rec: Record, sink: nat -> SinkResult)
    requires Summarises(buffers, log, seen, sink)
    requires |Get(buffers, NameOf(rec))| + 1 == MaxBatchSize
    ensures var c := NameOf(rec);
      Summarises(buffers - {c}, log + [Dispatched(c, Get(buffers, c) + [rec], false, sink(|log|))], seen + [rec], sink)
  {
    var c := NameOf(rec);
    var d := Dispatched(c, Get(buffers, c) + [rec], false, sink(|log|));
    forall k
      ensures BatchesTo(log + [d], k) == FullBatches(Routed(seen + [rec], k))
      ensures Get(buffers - {c}, k) == Leftover(Routed(seen + [rec], k))
    {
      FilledRoutingAt(buffers, log, seen, rec, d, k);
    }
    FilledBatchSound(buffers, rec, sink, log);
  }

  /** Lines 66-97 for one decoded reading: the summary moves on by exactly that reading. */
  method Handle(ch: BoundedChannel<IngestError>, buffers: Buffers, log: seq<Dispatched>,
                ghost seen: seq<Record>, rec: Record, sink: nat -> SinkResult)
    returns (buffers': Buffers, log': seq<Dispatched>)
    requires Summarises(buffers, log, seen, sink)
    requires ChannelTracks(ch, log)
    modifies ch
    ensures Summarises(buffers', log', seen + [rec], sink)
    ensures ChannelTracks(ch, log')
  {
    buffers', log' := Accumulate(ch, buffers, log, rec, sink);
    if |Get(buffers, NameOf(rec))| + 1 == MaxBatchSize {
      SummaryFills(buffers, log, seen, rec, sink);
    } else {
      SummaryGrows(buffers, log, seen, rec, sink);
    }
  }

  lemma DecodedStep(elems: seq<Element>, i: nat)
    requires i < |elems|
    ensures elems[i].Decodes? ==> DecodedRecords(elems[..i + 1]) == DecodedRecords(elems[..i]) + [elems[i].record]
    ensures elems[i].Undecodable? ==> DecodedRecords(elems[..i + 1]) == DecodedRecords(elems[..i])
  {
    assert elems[..i + 1][..i] == elems[..i];
    assert DecodedRecords(elems[..i]) + [] == DecodedRecords(elems[..i]);
  }

  /** Lines 58-98: the record loop. */
  method Consume(ch: BoundedChannel<IngestError>, elems: seq<Element>, sink: nat -> SinkResult)
    returns (processed: nat, buffers: Buffers, log: seq<Dispatched>)
    requires ChannelTracks(ch, [])
    modifies ch
    ensures ChannelTracks(ch, log)
    ensures processed == |DecodedRecords(elems)|
    ensures Summarises(buffers, log, DecodedRecords(elems), sink)
  {
    processed, buffers, log := 0, map[], [];
    var i := 0;
    while i < |elems|
      invariant 0 <= i <= |elems|
      invariant ChannelTracks(ch, log)
      invariant processed == |DecodedRecords(elems[..i])|
      invariant Summarises(buffers, log, DecodedRecords(elems[..i]), sink)
    {
      ghost var seen := DecodedRecords(elems[..i]);
      DecodedStep(elems, i);
      if elems[i].Decodes? {
        var rec := elems[i].record;
        processed := processed + 1;
        buffers, log := Handle(ch, buffers, log, seen, rec, sink);
      }
      i := i + 1;
    }
    assert elems[..|elems|] == elems;
  }

  /** Collection c's buffer is non-empty and the flush has already reached it. */
  predicate FlushedColl(buffers: Buffers, pending: set<string>, c: string) {
    c in buffers && c !in pending && |buffers[c]| > 0
  }

  /** Each collection gained one batch, its buffer, exactly when the flush reached its non-empty buffer. */
  ghost predicate FlushedBatches(buffers: Buffers, pending: set<string>, log: seq<Dispatched>, log': seq<Dispatched>) {
    && (forall c | FlushedColl(buffers, pending, c) :: BatchesTo(log', c) == BatchesTo(log, c) + [buffers[c]])
    && (forall c | !FlushedColl(buffers, pending, c) :: BatchesTo(log', c) == BatchesTo(log, c))
  }

  /** The dispatches after position |log| are final batches holding whole buffers. */
  predicate FlushedFinal(buffers: Buffers, log: seq<Dispatched>, log': seq<Dispatched>, sink: nat -> SinkResult) {
    forall j | |log| <= j < |log'| ::
      && log'[j].collection in buffers
      && log'[j] == Dispatched(log'[j].collection, buffers[log'[j].collection], true, sink(j))
  }

  /**
   * What the final flush has dispatched so far, `pending` being the
   * collections it has not reached yet: each non-empty buffer already
   * reached, once, as a final batch, after the earlier dispatches.
   */
  ghost predicate Flushed(buffers: Buffers, pending: set<string>, log: seq<Dispatched>, log': seq<Dispatched>,
                    sink: nat -> SinkResult)
  {
    && |log| <= |log'| && log'[..|log|] == log
    && FlushedBatches(buffers, pending, log, log')
    && FlushedFinal(buffers, log, log', sink)
  }

  /** How flushing collection d.collection moves collection c's batches. */
  lemma FlushedAt(buffers: Buffers, pending: set<string>, log: seq<Dispatched>, log': seq<Dispatched>,
                  d: Dispatched, c: string)
    requires d.collection in pending && d.collection in buffers && d.batch == buffers[d.collection]
    requires |buffers[d.collection]| > 0
    requires FlushedColl(buffers, pending, c) ==> BatchesTo(log', c) == BatchesTo(log, c) + [buffers[c]]
    requires !FlushedColl(buffers, pending, c) ==> BatchesTo(log', c) == BatchesTo(log, c)
    ensures FlushedColl(buffers, pending - {d.collection}, c) ==> BatchesTo(log' + [d], c) == BatchesTo(log, c) + [buffers[c]]
    ensures !FlushedColl(buffers, pending - {d.collection}, c) ==> BatchesTo(log' + [d], c) == BatchesTo(log, c)
  {
    LogAppend(log', d);
  }

  lemma FlushedBatchesStep(buffers: Buffers, pending: set<string>, log: seq<Dispatched>, log': seq<Dispatched>,
                           d: Dispatched)
    requires d.collection in pending && d.collection in buffers && d.batch == buffers[d.collection]
    requires |buffers[d.collection]| > 0
    requires FlushedBatches(buffers, pending, log, log')
    ensures FlushedBatches(buffers, pending - {d.collection}, log, log' + [d])
  {
    forall c ensures
      && (FlushedColl(buffers, pending - {d.collection}, c) ==> BatchesTo(log' + [d], c) == BatchesTo(log, c) + [buffers[c]])
      && (!FlushedColl(buffers, pending - {d.collection}, c) ==> BatchesTo(log' + [d], c) == BatchesTo(log, c))
    {
      FlushedAt(buffers, pending, log, log', d, c);
    }
  }

  lemma FlushedFinalStep(buffers: Buffers, log: seq<Dispatched>, log': seq<Dispatched>, sink: nat -> SinkResult,
                         k: string)
    requires |log| <= |log'|
    requires k in buffers
    requires FlushedFinal(buffers, log, log', sink)
    ensures FlushedFinal(buffers, log, log' + [Dispatched(k, buffers[k], true, sink(|log'|))], sink)
  {
    var d := Dispatched(k, buffers[k], true, sink(|log'|));
    var log'' := log' + [d];
    forall j | |log| <= j < |log''|
      ensures log''[j].collection in buffers
      ensures log''[j] == Dispatched(log''[j].collection, buffers[log''[j].collection], true, sink(j))
    {
      if j < |log'| { assert log''[j] == log'[j]; } else { assert log''[j] == d; }
    }
  }

  /** Flushing the non-empty buffer of a pending collection k records it as flushed. */
  lemma FlushDispatches(buffers: Buffers, pending: set<string>, k: string,
                        log: seq<Dispatched>, log': seq<Dispatched>, sink: nat -> SinkResult)
    requires k in pending && k in buffers && |buffers[k]| > 0
    requires Flushed(buffers, pending, log, log', sink)
    ensures Flushed(buffers, pending - {k}, log, log' + [Dispatched(k, buffers[k], true, sink(|log'|))], sink)
  {
    var d := Dispatched(k, buffers[k], true, sink(|log'|));
    assert (log' + [d])[..|log|] == log'[..|log|];
    FlushedBatchesStep(buffers, pending, log, log', d);
    FlushedFinalStep(buffers, log, log', sink, k);
  }

  /** One step of lines 100-118: dispatch collection k's buffer as a final batch unless it is empty. */
  method FlushOne(ch: BoundedChannel<IngestError>, buffers: Buffers, pending: set<string>, k: string,
                  log: seq<Dispatched>, log': seq<Dispatched>, sink: nat -> SinkResult)
    returns (log'': seq<Dispatched>)
    requires k in pending && pending <= buffers.Keys
    requires ChannelTracks(ch, log')
    requires Flushed(buffers, pending, log, log', sink)
    modifies ch
    ensures ChannelTracks(ch, log'')
    ensures Flushed(buffers, pending - {k}, log, log'', sink)
  {
    var batch := buffers[k];
    if |batch| > 0 {
      FlushDispatches(buffers, pending, k, log, log', sink);
      log'' := DispatchBatch(ch, k, batch, true, log', sink);
    } else {
      log'' := log';
    }
  }

  /** Lines 100-119: dispatch every non-empty buffer left once the elements are exhausted. */
  method FlushAll(ch: BoundedChannel<IngestError>, buffers: Buffers, log: seq<Dispatched>, sink: nat -> SinkResult)
    returns (log': seq<Dispatched>)
    requires ChannelTracks(ch, log)
    modifies ch
    ensures ChannelTracks(ch, log')
    ensures Flushed(buffers, {}, log, log', sink)
  {
    var keys := buffers.Keys;
    log' := log;
    assert log'[..|log|] == log;
    while keys != {}
      invariant keys <= buffers.Keys
      invariant ChannelTracks(ch, log')
      invariant Flushed(buffers, keys, log, log', sink)
      decreases keys
    {
      var k :| k in keys;
      log' := FlushOne(ch, buffers, keys, k, log, log', sink);
      keys := keys - {k};
    }
  }

  /** Lines 52-119: the record loop followed by the final flush. */
  method StreamAndFlush(ch: BoundedChannel<IngestError>, elems: seq<Element>, sink: nat -> SinkResult)
    returns (processed: nat, log: seq<Dispatched>)
    requires ChannelTracks(ch, [])
    modifies ch
    ensures ChannelTracks(ch, log)
    ensures processed == |DecodedRecords(elems)|
    ensures forall c :: BatchesTo(log, c) == Batches(Routed(DecodedRecords(elems), c))
    ensures forall j | 0 <= j < |log| :: SoundDispatch(log[j]) && log[j].outcome == sink(j)
    ensures multiset(AllDispatched(log)) == multiset(DecodedRecords(elems))
    ensures |AllDispatched(log)| == processed
  {
    var buffers, midLog;
    processed, buffers, midLog := Consume(ch, elems, sink);
    log := FlushAll(ch, buffers, midLog, sink);
    ghost var recs := DecodedRecords(elems);
    forall c ensures BatchesTo(log, c) == Batches(Routed(recs, c)) {
      if c in buffers {
        assert |buffers[c]| > 0;
      }
    }
    forall j | 0 <= j < |log| ensures SoundDispatch(log[j]) && log[j].outcome == sink(j) {
      if j < |midLog| {
        assert log[j] == midLog[j];
      }
    }
    Conservation(log, recs);
  }

  /**
   * IngestHvacDataFromS3 with the error check the code evidently intends:
   * the first insert error wins, otherwise the closing token decides.
   */
  method Ingest(source: Source, sink: nat -> SinkResult) returns (result: IngestResult, log: seq<Dispatched>)
    ensures !Opens(source) ==> log == [] && result == Failed(StartCheck(source).value)
    ensures Opens(source) ==>
      var recs := DecodedRecords(source.doc.elements);
      && (forall c :: BatchesTo(log, c) == Batches(Routed(recs, c)))
      && (forall j | 0 <= j < |log| :: SoundDispatch(log[j]) && log[j].outcome == sink(j))
      && multiset(AllDispatched(log)) == multiset(recs)
      && (HasFailure(log) <==> |Failures(log)| > 0)
      && (HasFailure(log) ==> result == Failed(IngestionFailed(Some(Failures(log)[0]))))
      && (!HasFailure(log) ==> result == CloseCheck(source.doc.last, |recs|))
  {
    var startError := StartCheck(source);
    if startError.Some? {
      return Failed(startError.value), [];
    }
    var ch := new BoundedChannel<IngestError>(ErrorChannelBufferSize);
    var processed;
    processed, log := StreamAndFlush(ch, source.doc.elements, sink);
    ch.Close();
    var received := ch.TryReceive();
    result := Conclude(received, source.doc.last, processed);
    FailuresIffFailure(log);
  }

  /** IngestHvacDataFromS3 as written: after the flush it reports an error whatever happened. */
  method IngestAsWritten(source: Source, sink: nat -> SinkResult) returns (result: IngestResult, log: seq<Dispatched>)
    ensures !Opens(source) ==> log == [] && result == Failed(StartCheck(source).value)
    ensures Opens(source) ==>
      && (HasFailure(log) <==> |Failures(log)| > 0)
      && result == Failed(IngestionFailed(if HasFailure(log) then Some(Failures(log)[0]) else None))
  {
    var startError := StartCheck(source);
    if startError.Some? {
      return Failed(startError.value), [];
    }
    var ch := new BoundedChannel<IngestError>(ErrorChannelBufferSize);
    var processed;
    processed, log := StreamAndFlush(ch, source.doc.elements, sink);
    ch.Close();
    var received := ch.TryReceive();
    result := ConcludeAsWritten(received, source.doc.last, processed);
    FailuresIffFailure(log);
  }
}
