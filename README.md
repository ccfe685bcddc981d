# HVAC data loader: streaming ingest pipeline, modelled in Dafny

This project models `IngestHvacDataFromS3` and `getMonthlyCollectionName` from
`internal/domain/services/data_loader.go`. These are the parts of the HVAC data
loader that carry logic. Together they:

- read a JSON array of sensor readings from an object-store stream;
- skip elements that are well-formed JSON but do not unmarshal into a reading;
- route each reading to the buffer of its monthly MongoDB collection
  (`hvac_readings_YYYY_MM`);
- send a buffer to the repository's `InsertMany` in a goroutine as soon as it
  holds `MaxBatchSize` (1000) readings, and flush what is left at the end;
- keep insert errors in a buffered channel of capacity
  `ErrorChannelBufferSize` (5);
- turn those errors and the closing `]` into one result.

Files:

- `records.dfy` (module `Records`): a reading, reduced to its timestamp
  (year, month) and an opaque payload. Also the array elements the decoder
  yields (`Decodes(record)` or `Undecodable`), the JSON tokens the envelope
  checks look at, and a source object (`Unavailable`, or a `Document` made of
  the first token, the elements and the token after them).
- `naming.dfy` (module `Naming`): `CollectionName`, which is
  `getMonthlyCollectionName`. Go's layout `"2006_01"` pads the year with zeros
  to at least four digits and the month to exactly two.
- `batching.dfy` (module `Batching`): the reference definition of how one
  collection's readings are cut into batches. `FullBatches` are the mid-stream
  batches. `Leftover` is what the final flush sends.
- `channels.dfy` (module `Channels`): the buffered Go channel as the code uses
  it. A `select` with a `default` case sends without blocking. The channel can
  be closed, and a `select` can receive without blocking.
- `ingest.dfy` (module `Ingest`): the pipeline as methods. `DispatchBatch` is
  one goroutine start. `DispatchFull` is the scan over the map. `Accumulate`,
  `Consume`, `FlushAll`, `StreamAndFlush`, `Ingest` and `IngestAsWritten` are
  the larger steps. The module also holds reference functions over the
  dispatch log (`BatchesTo`, `AllDispatched`, `Failures`, `Retained`) and the
  lemmas that tie the two together.

The goroutines are run one after another. Each dispatch is appended to a
dispatch log together with the sink's answer for that position. The answer
comes from a function `sink: nat -> SinkResult` that the caller passes in.
The closed channel is read only after every dispatch, which is where
`wg.Wait()` stands in the source. Go does not fix the order in which it walks
a map, and the model does not fix it either (`:|` picks the next key). No
contract fixes the order across collections. Most contracts speak per
collection (`BatchesTo(log, c)`) or by multiset. The ones that mention log
positions, such as the first failure, hold for whichever order `:|` picks.

## Model

| member | source | states |
|---|---|---|
| Naming.CollectionNameLayout | internal/domain/services/data_loader.go:143-145 | for years 0..9999 the name is `hvac_readings_`, the 4 zero-padded year digits, `_` and the 2 zero-padded month digits: 21 characters |
| Naming.YearFourDigits | internal/domain/services/data_loader.go:144 | a year below 10000 is written with exactly four digits, with leading zeros |
| Naming.MonthTwoDigits | internal/domain/services/data_loader.go:144 | the month is always written with exactly two digits |
| Naming.ZeroPaddedDenotes | internal/domain/services/data_loader.go:144 | a padded field is all digits, at least as wide as asked, and denotes the number it formats |
| Naming.CollectionNameRoundTrip | internal/domain/services/data_loader.go:143-145 | parsing a collection name gives back the timestamp's year and month |
| Naming.CollectionNameInjective | internal/domain/services/data_loader.go:143-145 | two timestamps share a collection only if they have the same year and month |
| Batching.SplitConserves | internal/domain/services/data_loader.go:70-96 | the full batches followed by the leftover are exactly one collection's readings, in source order |
| Batching.SplitSizes | internal/domain/services/data_loader.go:70-96 | there are n / 1000 full batches of exactly 1000 readings each; the leftover holds n % 1000 readings |
| Batching.AppendStep | internal/domain/services/data_loader.go:70-96 | one more reading either completes a full batch (the buffer held 999) or extends the leftover |
| Batching.BatchesConserve | internal/domain/services/data_loader.go:70-119 | a collection's batches, mid-stream then final, concatenate to its readings in source order |
| Batching.BatchesSized | internal/domain/services/data_loader.go:70-119 | a collection gets ceil(n / 1000) batches; none is empty or larger than 1000, and only the last can be short |
| Batching.TwentyFiveHundredRecords | internal/domain/services/data_loader.go:70-119 | 2500 readings of one month go out as batches of 1000, 1000 and 500 |
| Channels.ClosedChannelIsAlwaysReady | internal/domain/services/data_loader.go:123-129 | a receive on a closed channel can always proceed; it yields a value exactly when the buffer is non-empty |
| Channels.BoundedChannel.constructor | internal/domain/services/data_loader.go:53 | a new channel has the given capacity, is empty and is open |
| Channels.BoundedChannel.TrySend | internal/domain/services/data_loader.go:84-87 | the send succeeds exactly when the buffer has room; the value is then appended, otherwise it is dropped |
| Channels.BoundedChannel.Close | internal/domain/services/data_loader.go:123 | closing keeps the buffered values |
| Channels.BoundedChannel.TryReceive | internal/domain/services/data_loader.go:125-129 | the `select` takes the oldest value, or the zero value of a closed and drained channel, or `default` only on an open empty channel |
| Ingest.StartCheck | internal/domain/services/data_loader.go:36-50 | no error exactly when the stream opens and its first token is `[` |
| Ingest.DecodedPlusSkipped | internal/domain/services/data_loader.go:58-66 | every element is either counted in `recordsProcessed` or skipped |
| Ingest.SkippedElementScenario | internal/domain/services/data_loader.go:60-66 | one bad element between two readings gives two processed readings and one skip |
| Ingest.TwoMonthsScenario | internal/domain/services/data_loader.go:68-119 | readings of 2024-01 and 2024-02 go to `hvac_readings_2024_01` and `hvac_readings_2024_02`, one flushed batch each |
| Ingest.RetainedAppend | internal/domain/services/data_loader.go:84-87 | the channel keeps the first five errors and drops later ones |
| Ingest.FailuresIffFailure | internal/domain/services/data_loader.go:82-112 | the goroutines send at least one error exactly when some insert failed |
| Ingest.FirstFailure | internal/domain/services/data_loader.go:84-127 | the first error in the channel is the one from the earliest failed insert |
| Ingest.RoutedCount | internal/domain/services/data_loader.go:68-70 | routing by collection name keeps every copy of every reading in its own collection |
| Ingest.RoutedMembers | internal/domain/services/data_loader.go:68-70 | every reading routed to a collection has that collection's name |
| Ingest.DispatchedCount | internal/domain/services/data_loader.go:79-117 | if every batch holds only its own collection's readings, a reading occurs as often in the whole log as in its own collection's batches |
| Ingest.Conservation | internal/domain/services/data_loader.go:66-119 | batching each collection as specified dispatches exactly the decoded readings, none lost or duplicated, and their total equals their count |
| Ingest.AsWrittenNeverSucceeds | internal/domain/services/data_loader.go:123-140 | as written, once the opening token is accepted the outcome is always an error |
| Ingest.EmptyArrayWitness | internal/domain/services/data_loader.go:123-140 | for `[]`, the code as written returns an error and the corrected code returns success |
| Ingest.ConcludeDecides | internal/domain/services/data_loader.go:121-140 | corrected: a buffered insert error wins; otherwise the result is success exactly when the closing token is `]` |
| Ingest.DispatchBatch | internal/domain/services/data_loader.go:75-92 | appends the dispatch with the sink's answer to the log; the channel keeps tracking the retained errors |
| Ingest.DispatchFull | internal/domain/services/data_loader.go:73-97 | every full buffer is sent once, whole, as a mid-stream batch and removed; the other buffers stay unchanged |
| Ingest.AccumulatingGrow | internal/domain/services/data_loader.go:70 | appending below the threshold keeps every buffer non-empty, below 1000 and in one collection |
| Ingest.Accumulate | internal/domain/services/data_loader.go:68-97 | the reading is appended to its own collection's buffer only; at 1000 that buffer is sent and deleted; all buffers stay between 1 and 999 readings |
| Ingest.SummaryGrows | internal/domain/services/data_loader.go:66-70 | a reading below the threshold moves every collection's state on by exactly that reading |
| Ingest.SummaryFills | internal/domain/services/data_loader.go:66-96 | a reading that fills its buffer dispatches it as the next full batch of its collection |
| Ingest.Handle | internal/domain/services/data_loader.go:66-97 | after one more decoded reading, the sent batches and the buffers match the reference split of the readings so far |
| Ingest.Consume | internal/domain/services/data_loader.go:58-98 | after the loop, `recordsProcessed` counts the decoded readings, each collection's full batches were sent in order, and each buffer holds its leftover |
| Ingest.FlushAll | internal/domain/services/data_loader.go:100-119 | every non-empty buffer is sent exactly once as a final batch, and no empty batch is sent |
| Ingest.StreamAndFlush | internal/domain/services/data_loader.go:52-119 | each collection receives exactly `Batches` of its readings; every batch is non-empty, at most 1000 and of one collection; the dispatched readings are the decoded ones |
| Ingest.Ingest | internal/domain/services/data_loader.go:33-140 | corrected outcome: a bad start dispatches nothing and fails; otherwise conservation holds, an insert failure gives an error carrying the first failure, and with no failure the closing token decides |
| Ingest.IngestAsWritten | internal/domain/services/data_loader.go:33-140 | as written: a bad start fails as above; otherwise the result is always `IngestionFailed`, with the first insert error or with none |

## Findings

| source | as written | input that shows it | evidently intended | confidence | as-written member | corrected member |
|---|---|---|---|---|---|---|
| internal/domain/services/data_loader.go:123-129 | `close(errorChannel)` runs before `select { case err = <-errorChannel: return ...; default: }`. A receive on a closed channel is always ready, so the `default` branch is never taken. With no insert error the receive yields a nil error, and the function returns `fmt.Errorf("...: %w", nil)`, a non-nil error. The closing-token check and the success return are unreachable. | the array `[]` (or any well-formed array whose inserts all succeed) | return an error only when an insert error was buffered; otherwise check the closing `]` and succeed | high, not executed | Ingest.IngestAsWritten, Ingest.AsWrittenNeverSucceeds, Ingest.EmptyArrayWitness | Ingest.Ingest, Ingest.ConcludeDecides |

The code and the intended behaviour disagree here. `IngestAsWritten` follows
the code. `Ingest` uses the receive's ok flag, so a drained channel counts as
"no error", and it is the version the rest of the model's outcome properties
describe.

## Left out

- Opening the S3 object and its failure are a parameter: `Source` is
  `Unavailable` or a `Body`. The AWS calls are not part of this model.
- `encoding/json` is not modelled. The decoder is represented by what it
  yields: the first token, the elements, each of which decodes or not, and the
  token read after `decoder.More()` turns false.
- `Undecodable` stands only for an element that is well-formed JSON but fails
  to unmarshal, such as a wrong field type or a timestamp that does not
  parse. A syntax error inside an element, a missing comma between elements,
  or a stream cut off inside an element is not modelled. In those cases
  `Decode` keeps its error without advancing, `decoder.More()` keeps
  returning true, and the loop at
  `internal/domain/services/data_loader.go` lines 58-64 repeats `continue`
  without end instead of skipping the element. The model does not capture
  this non-termination.
- The MongoDB sink is a function from dispatch position to `Inserted` or
  `SinkFailed`. Driver behaviour, contexts and timeouts are not modelled.
- Goroutines, `sync.WaitGroup` and concurrent sends are run one after another.
  Which of several concurrent insert errors reaches the channel first is
  nondeterministic in Go, so it is not captured.
- Ingest.Ingest: says that the reported error is the first failure in dispatch
  order. In Go it is whichever failing goroutine sent first. Only "an error
  exactly when some insert failed" carries over.
- A reading is reduced to its timestamp's year and month plus an opaque
  payload. The float, string and boolean fields are never inspected.
  Time zones and negative years are not modelled.
- `Ingested` carries the processed count, which the source only logs. The
  error values stand for the `fmt.Errorf` messages, whose text is not
  modelled.
- Logging is not modelled.
- The Lambda entry point, environment variables, the S3 writer, the entity
  struct and the repository interface are not part of this model.
