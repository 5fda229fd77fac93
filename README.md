# PLC tag writer service — a Dafny model

The service is a small HTTP front end to an Allen-Bradley controller. A client
posts a JSON list of objects, and each (key, value) pair becomes one tag
write. A global `is_connected` flag tracks whether the driver session is up.
Four variants of the service are modelled:

- `examples/g4.py` (pylogix) flattens the payload and writes every pair in one
  batch, with up to three attempts and a one-second sleep after each failed
  attempt. It also serves reads of a list of tags.
- `examples/g2.py` (pylogix) splits the pairs into batches of 50. Each batch
  is written with up to three attempts, and the service answers 207 with the
  success and failure counts when a batch failed.
- `examples/g1.py` (pylogix) writes batches of 50 once each and answers 500 as
  soon as a batch is seen to fail.
- `examples/gemini.py` (pycomm) walks the payload key by key. Numbers go
  through `write_tag` with type REAL or INT. Strings go through
  `write_string` followed, on success, by a five-second pause and a
  `read_string` check. Every key that does not end the request is followed
  by a one-second sleep.

## How the model is built

- **The driver** (`driver.dfy`). The driver is a class whose only state is
  `log`, the sequence of calls made to it. What the controller does is a
  fixed `Oracle`: the call at log position `q` raises exactly when `q` is in
  `oracle.raises`, and a read at `q` yields `oracle.reading(q)`. Sleeps are
  logged and never raise.
- **Handler specifications.** Each handler is a pure specification function
  of (raising positions `F`, start position `p`, flag, body). It returns an
  `Outcome`: the HTTP reply, the new flag and the exact calls made.
- **Imperative methods.** Each handler is also an imperative method over the
  driver object. Its `ensures` ties the reply, the flag and the new log to
  that function.
- **Properties.** What the source promises is proved as lemmas about the
  functions: the status codes, the order of writes, retry counts, batch
  sizes and what a healthy transport produces.
- **Batch planning** (`planner.dfy`). The batching
  `[ops[i:i + 50] for i in range(0, len(ops), 50)]` is a sequence
  comprehension over Python-style slices.
- **Concurrency.** The thread pools of g2 and g1 are modelled as running the
  submitted batches one after the other. The tallies are proved not to depend
  on completion order.

Behaviours of the code worth knowing before reading the table:

- `close_connection` (g4.py:161-171, g2.py:102-112, g1.py:63-72) answers 500
  and keeps the flag up when `Close` raises, so the next close tries again
  (`Connection.CloseRetriesAfterFailure`); a second close after a successful
  one answers 200 without a call (`Connection.CloseTwice`).
- gemini.py:62-68 has no `try` around its close, so a raising close reaches
  the framework, which answers 500, and the flag stays up.
- g1.py:35-38 raises the flag without calling `Open` (`G1.InsertOnlyWrites`).

## Model

| member | source | states |
|---|---|---|
| Driver.Plc.constructor | examples/g4.py:18 | transport definition: a fresh pylogix driver has made no call |
| Driver.Plc.Open | examples/g4.py:85 | transport definition: `plc.Open()` is logged and raises exactly when the oracle says so |
| Driver.Plc.Close | examples/g4.py:165 | transport definition: `plc.Close()` is logged and raises exactly when the oracle says so |
| Driver.Plc.Write | examples/g4.py:58 | transport definition: `plc.Write(key, text)` is logged and raises exactly when the oracle says so |
| Driver.Plc.Read | examples/g4.py:71 | transport definition: `plc.Read(tag)` is logged and yields the oracle's value, or None when it raises |
| Driver.Plc.Sleep | examples/g4.py:62 | transport definition: `time.sleep(1)` is logged and never raises |
| Driver.Clx.constructor | examples/gemini.py:11 | transport definition: a fresh pycomm driver has made no call |
| Driver.Clx.Open | examples/gemini.py:21 | transport definition: `c.open(address)` is logged and raises exactly when the oracle says so |
| Driver.Clx.Close | examples/gemini.py:65 | transport definition: `c.close()` is logged and raises exactly when the oracle says so |
| Driver.Clx.ForwardOpen | examples/gemini.py:25 | transport definition: `c.forward_open()` is logged and raises exactly when the oracle says so |
| Driver.Clx.WriteTag | examples/gemini.py:36 | transport definition: `c.write_tag(key, value, type)` is logged and raises exactly when the oracle says so |
| Driver.Clx.WriteString | examples/gemini.py:42 | transport definition: `c.write_string(key, value)` is logged and raises exactly when the oracle says so |
| Driver.Clx.ReadString | examples/gemini.py:49 | transport definition: `c.read_string(key)` is logged and raises exactly when the oracle says so |
| Driver.Clx.Sleep | examples/gemini.py:54 | transport definition: `sleep(n)` is logged and never raises |
| Values.PyStr | examples/g4.py:58 | definition of the text `str(value)` gives a JSON value; properties proved in Values.IntTextRoundTrip, Values.IntTextInjective |
| Values.IntTextRoundTrip | examples/g4.py:58 | the text `str(value)` sends for an integer reads back as that integer |
| Values.IntTextInjective | examples/g4.py:58 | distinct integers are written as distinct texts |
| Payload.Truthy | examples/g4.py:103 | definition of `not data_list`; used in G4.InsertStatus, G4.InsertRejectsEmptyPayload, G2.InsertStatus |
| Payload.Flatten | examples/g4.py:106 | definition of the flattening comprehension over the whole body; properties proved in Payload.FlattenItems, Payload.FlattenLength, Payload.FlattenOrder |
| Payload.FlattenItems | examples/g4.py:106 | the comprehension yields pairs exactly when every element of the body is an object (otherwise it raises) |
| Payload.FlattenLength | examples/g4.py:106 | the flattened list holds as many pairs as all objects have keys together |
| Payload.FlattenOrder | examples/g4.py:106 | key j of element i sits at position offset(i) + j: elements keep list order, keys keep the order `.items()` yields them |
| Payload.FlattenEmptyRecords | examples/g2.py:66 | a body of empty objects flattens to no pairs |
| Planner.PySlice | examples/g2.py:73 | definition of Python's `s[i:j]` with clamped bounds; properties proved in Planner.BatchesConcat, Planner.BatchesSizes |
| Planner.BatchCount | examples/g2.py:74 | definition of the number of values `range(0, n, size)` yields; properties proved in Planner.BatchesCount |
| Planner.Batches | examples/g2.py:73-74 | definition of the batch list; properties proved in Planner.BatchesConcat, Planner.BatchesSizes, Planner.BatchesCount |
| Planner.BatchesConcat | examples/g2.py:73-74 | joining the planned batches gives back the flattened list, in order |
| Planner.BatchesSizes | examples/g2.py:73-74 | every batch holds 1 to 50 pairs, and every batch but the last holds exactly 50 |
| Planner.BatchesCount | examples/g2.py:73-74 | the number of batches is ceil(len / 50), and it is zero exactly for an empty list |
| Writer.WriteCalls | examples/g4.py:57-58 | definition of one full pass `plc.Write(key, str(value))` over a batch; one call per pair; properties proved in Writer.WriteCallsAt |
| Writer.WriteAttempt | examples/g4.py:56-60 | definition of one attempt, ending at the first raising write; properties proved in Writer.WriteAttemptMeaning |
| Writer.WriteCallsAt | examples/g4.py:57-58 | write i of a pass is `Write(key_i, str(value_i))`, one per pair, in batch order |
| Writer.WriteAttemptMeaning | examples/g4.py:56-60 | an attempt succeeds iff none of its writes raises; a failed attempt ends at the first raising write |
| Writer.Retry | examples/g4.py:54-63 | at most `max` attempts; success needs at least one, failure uses all of them |
| Writer.RetrySleeps | examples/g4.py:60-62 | one sleep follows every failed attempt, the last one included |
| Writer.RetryEndsWithFullPass | examples/g4.py:57-59 | success means the last calls were one complete pass over the batch |
| Writer.RetryAllSucceed | examples/g4.py:55-59 | when no write raises, one attempt, exactly len(batch) writes and no sleep |
| Writer.RetryAlwaysFails | examples/g2.py:28-37 | when each of the 2·`max` calls from the start position raises, failure after exactly `max` attempts, each one first write and a sleep |
| Writer.RetryFailsOnceThenSucceeds | examples/g2.py:28-37 | one raising first write followed by a clean transport gives success on the second attempt |
| Writer.RetryRestartsFromFirst | examples/g4.py:55-58 | every attempt, the retries included, starts again from the batch's first pair |
| Writer.Execute | examples/g1.py:21-28 | definition of how one batch is written, once (`batch_write`) or with retries (`batch_write_with_retry`); properties proved in Writer.ExecuteClear, G1.OnceOnlyWrites |
| Writer.RunBatches | examples/g2.py:72-80 | every submitted batch yields exactly one outcome |
| Writer.ExecuteClear | examples/g1.py:21-28 | a batch with no raising write succeeds under either write policy, with exactly its writes |
| Writer.RunBatchesNeverRaising | examples/g2.py:72-80 | with a transport that never raises, every batch succeeds and the calls are the writes of all pairs in order |
| Writer.BatchWrite | examples/g1.py:21-28 | `batch_write` returns True iff no write raised, and its writes stop at the first raise |
| Writer.RetryOnce | examples/g4.py:55-62 | one pass of the retry loop: returns True after a clean attempt, otherwise sleeps and leaves the rest to the remaining attempts |
| Writer.BatchWriteWithRetry | examples/g4.py:54-63 | `batch_write_with_retry` answers and logs exactly what `Retry` describes |
| Writer.RunBatch | examples/g2.py:73 | writes one batch under the given policy, as `Execute` describes |
| Writer.RunNext | examples/g2.py:72-80 | one submitted batch runs and its outcome is appended |
| Writer.RunAll | examples/g2.py:72-80 | all batches run in submission order, with the outcomes and calls of `RunBatches` |
| Writer.ReadOutcome | examples/g4.py:69-76 | definition of one read's entry: the value read, or None when the read raised; used in Writer.ReadLastWins |
| Writer.ReadResults | examples/g4.py:66-77 | definition of the dictionary `batch_read` builds; properties proved in Writer.ReadKeys, Writer.ReadLastWins |
| Writer.ReadKeys | examples/g4.py:66-77 | the result has exactly one key per requested tag |
| Writer.ReadLastWins | examples/g4.py:68-76 | a tag's entry is its last read's value, or None when that read raised |
| Writer.ReadCalls | examples/g4.py:68-76 | definition of the calls `batch_read` makes, one `plc.Read(tag)` per tag in order; used in Writer.BatchRead, G4.HandleRead |
| Writer.BatchRead | examples/g4.py:66-77 | `batch_read` reads every tag in order, a failed read does not stop later ones, and the result is `ReadResults` |
| Connection.Ensure | examples/g4.py:80-91 | definition of the connection check: the flag ends up iff it was up or Open did not raise; Open is called only when the flag was down |
| Connection.Closing | examples/g4.py:161-171 | definition of the close handler: 200 with the flag down, or 500 with the flag still up exactly when Close raised; Close is called only when the flag was up |
| Connection.CloseTwice | examples/g4.py:161-171 | a second close after a successful one makes no call and answers 200 again |
| Connection.CloseRetriesAfterFailure | examples/g4.py:164-171 | after a failed Close the flag stays up, so the next close calls Close again |
| Connection.CloseThenEnsure | examples/g4.py:80-91 | after a successful close, the next request re-opens the connection |
| Connection.Link.constructor | examples/g4.py:20 | the flag starts up (assumed connected) |
| Connection.Link.EnsureConnection | examples/g4.py:80-91 | `ensure_plc_connection` changes the flag and the log as `Ensure` describes and returns the new flag |
| Connection.Link.CloseConnection | examples/g4.py:161-171 | `close_connection` changes the flag and the log as `Closing` describes (the same code is in g2.py and g1.py) |
| G4.Accept | examples/g4.py:102-118 | definition of the insert handler once connected; properties proved in G4.AcceptSuccessWritesEverything, G4.AcceptSleeps |
| G4.HandleInsert | examples/g4.py:96-122 | definition of the insert handler; properties proved in G4.InsertConnectsFirst, G4.InsertRejectsEmptyPayload, G4.InsertStatus, G4.InsertSuccessWritesEverything, G4.InsertSleeps, G4.InsertHealthyTransport |
| G4.InsertConnectsFirst | examples/g4.py:99-100 | when the connection cannot be re-established the answer is 500 for every payload, with the single failed Open |
| G4.InsertRejectsEmptyPayload | examples/g4.py:102-104 | a falsy body is answered 400 without any write |
| G4.InsertStatus | examples/g4.py:96-122 | the status is 200, 400 or 500; 200 iff connected, truthy, every element an object and a retry succeeded; 400 iff connected and falsy |
| G4.AcceptSuccessWritesEverything | examples/g4.py:106-118 | once connected, a 200 means the last calls were a full pass over all flattened pairs |
| G4.InsertSuccessWritesEverything | examples/g4.py:96-118 | a 200 means the request's last calls were a full pass over all flattened pairs |
| G4.AcceptSleeps | examples/g4.py:109-115 | once connected, at most three sleeps, and exactly three when the writes failed |
| G4.InsertSleeps | examples/g4.py:96-118 | at most three sleeps per request, and exactly three for a write failure |
| G4.InsertHealthyTransport | examples/g4.py:106-118 | with no raising write, each pair is written once in flattened order and the answer is 200 |
| G4.AcceptData | examples/g4.py:102-118 | the body after the connection check replies and logs as `Accept` describes |
| G4.InsertData | examples/g4.py:96-122 | `insert_data_to_plc` replies, sets the flag and logs as `HandleInsert` describes |
| G4.HandleRead | examples/g4.py:127-157 | the read endpoint answers 200, 400 or 500 |
| G4.ReadStatus | examples/g4.py:130-157 | 200 iff connected and tags were given; 400 iff connected and no tags; no read happens unless the answer is 200 |
| G4.ReadAnswersEveryTag | examples/g4.py:138-154 | a 200 carries one entry per requested tag, no other key, and each entry is the tag's last read |
| G4.ReadData | examples/g4.py:127-157 | `read_data_from_plc` replies, sets the flag and logs as `HandleRead` describes |
| G2.Count | examples/g2.py:76-80 | definition of a tally counter, at most the number of outcomes; properties proved in G2.CountIsMultiplicity, G2.CountsCover, G2.CountsIgnoreOrder, G2.CountFailures |
| G2.CountIsMultiplicity | examples/g2.py:76-80 | the success or failure count is the multiplicity of that outcome |
| G2.CountsCover | examples/g2.py:76-80 | successes plus failures is the number of batches |
| G2.CountsIgnoreOrder | examples/g2.py:76 | any completion order that is a permutation of the submitted batches gives the same counts |
| G2.CountFailures | examples/g2.py:85 | the failure count is positive iff some batch failed |
| G2.Tally | examples/g2.py:76-80 | the loop over completed futures computes both counts |
| G2.Verdict | examples/g2.py:85-93 | definition of the reply chosen from the two counts; properties proved in G2.AnswerMeaning |
| G2.Answer | examples/g2.py:76-93 | definition of the reply for the collected outcomes; properties proved in G2.AnswerMeaning |
| G2.Accept | examples/g2.py:62-93 | definition of the insert handler once connected; properties proved in G2.InsertStatus, G2.InsertCounts |
| G2.HandleInsert | examples/g2.py:56-97 | definition of the insert handler; properties proved in G2.InsertStatus, G2.InsertCounts, G2.InsertEmptyRecords, G2.InsertHealthyTransport |
| G2.InsertStatus | examples/g2.py:56-97 | the status is 200, 207, 400 or 500; 400 iff connected and the body falsy; 500 iff the reconnect failed or a truthy body cannot be flattened; the flag is what the connection check left |
| G2.WriteBatches | examples/g2.py:72-74 | one outcome per planned batch of 50 |
| G2.AnswerMeaning | examples/g2.py:85-93 | 207 iff some batch failed, with both counts adding up to the number of batches; otherwise 200 |
| G2.InsertCounts | examples/g2.py:66-93 | for an accepted payload, 207 iff one of the ceil(len / 50) batches failed, and the counts cover every batch |
| G2.InsertEmptyRecords | examples/g2.py:63-93 | a body of empty objects writes nothing and answers 200 |
| G2.InsertHealthyTransport | examples/g2.py:66-93 | with a transport that never raises, each pair is written once in flattened order and the answer is 200 |
| G2.WriteAndTally | examples/g2.py:68-90 | writes the batches and answers from the tally |
| G2.AcceptData | examples/g2.py:62-93 | the body after the connection check replies and logs as `Accept` describes |
| G2.InsertData | examples/g2.py:56-97 | `insert_data_to_plc` replies, sets the flag and logs as `HandleInsert` describes |
| G1.WriteBatches | examples/g1.py:44-46 | one outcome per planned batch of 50 |
| G1.HandleInsert | examples/g1.py:33-58 | the flag is up after every request |
| G1.OnceOnlyWrites | examples/g1.py:21-28 | without retries every call is a write: no open, no sleep |
| G1.OnceWritesAtMostOnce | examples/g1.py:21-28 | without retries no more writes are made than there are pairs |
| G1.InsertOnlyWrites | examples/g1.py:33-58 | the handler never opens the connection, makes only writes, at most one per pair, and leaves the flag up |
| G1.InsertStatus | examples/g1.py:40-58 | the status is 200 or 500; 200 iff the body flattens and every batch succeeded |
| G1.InsertEmptyOrScalar | examples/g1.py:40-56 | an empty list is not refused (200, no call); a body that cannot be iterated gives 500 with no call |
| G1.InsertHealthyTransport | examples/g1.py:40-56 | with a transport that never raises, each pair is written once in flattened order and the answer is 200 |
| G1.FirstFailure | examples/g1.py:48-50 | the loop over completed futures finds a failure iff some batch failed |
| G1.FailureIgnoresOrder | examples/g1.py:48-50 | whether a failure is found does not depend on completion order |
| G1.WriteAll | examples/g1.py:43-56 | writes every batch once and answers 500 iff one failed |
| G1.InsertData | examples/g1.py:33-58 | `insert_data_to_plc` replies, sets the flag and logs as `HandleInsert` describes |
| Gemini.NumericType | examples/gemini.py:34-35 | definition of the type chosen for `write_tag`: REAL iff the value is a float; INT iff it is an int or a bool (a bool is an int to `isinstance`) |
| Gemini.WriteField | examples/gemini.py:33-54 | definition of one key's dispatch and calls; properties proved in Gemini.FieldOutcomes, Gemini.FieldWritesItsTag, Gemini.FieldSleepsOnce |
| Gemini.WriteFields | examples/gemini.py:32-54 | definition of the walk over one object's keys; properties proved in Gemini.FieldsWriteInOrder, Gemini.FieldsSleepPerKey, Gemini.StringsNeverAbort, Gemini.FieldsNeverOpen |
| Gemini.WriteItem | examples/gemini.py:31-32 | definition of one element of the body: an object is walked, anything else ends the request |
| Gemini.WriteItems | examples/gemini.py:31-54 | definition of the walk over the body; properties proved in Gemini.ItemsWriteInOrder, Gemini.ItemsSleepPerKey, Gemini.ItemsNeverOpen |
| Gemini.Accept | examples/gemini.py:25-59 | definition of the insert handler once connected; properties proved in Gemini.InsertStatus, Gemini.InsertSuccess |
| Gemini.HandleInsert | examples/gemini.py:16-59 | definition of the insert handler; properties proved in Gemini.InsertConnection, Gemini.InsertStatus, Gemini.InsertSuccess |
| Gemini.FieldOutcomes | examples/gemini.py:34-54 | a string never ends the request and ends with the sleep; a number ends it iff its `write_tag` raises; any other value ends it before any call |
| Gemini.FieldWritesItsTag | examples/gemini.py:34-42 | a key that does not end the request makes exactly one write, to its own tag |
| Gemini.FieldsWriteInOrder | examples/gemini.py:32-54 | a walk over an object that does not end the request writes its keys in the order `.items()` yields them |
| Gemini.ItemsWriteInOrder | examples/gemini.py:31-54 | a walk over the body that does not end the request writes every key of every element, in flattened order |
| Gemini.LeadingPairs | examples/gemini.py:31-32 | definition of the pairs a walk can reach: those of the objects before the first element that is not one; used in Gemini.ItemsWritePrefix, Gemini.InsertWritesPrefix |
| Gemini.FieldsWritePrefix | examples/gemini.py:32-54 | whether or not the walk over an object is cut short, the tags it wrote are a prefix of its keys in the order `.items()` yields them |
| Gemini.ItemsWritePrefixAborted | examples/gemini.py:31-54 | a walk whose first object is cut short writes a prefix of that object's keys and nothing after them |
| Gemini.ItemsWritePrefixThrough | examples/gemini.py:31-54 | a walk whose first object goes through writes all its keys, then what the rest of the walk writes |
| Gemini.ItemsWritePrefix | examples/gemini.py:31-54 | whether or not the walk over the body is cut short, the tags it wrote are a prefix of the reachable keys, in flattened order |
| Gemini.AcceptWritesPrefix | examples/gemini.py:25-59 | once connected, `forward_open` writes nothing and the request writes a prefix of the reachable keys; a body that cannot be iterated writes nothing |
| Gemini.InsertWritesPrefix | examples/gemini.py:16-59 | every request, whatever its answer, writes a prefix of the reachable keys in flattened order, and nothing for a body that cannot be iterated |
| Gemini.FieldSleepsOnce | examples/gemini.py:54 | a key that does not end the request sleeps one second exactly once |
| Gemini.FieldsSleepPerKey | examples/gemini.py:32-54 | a completed walk over an object sleeps once per key |
| Gemini.ItemsSleepPerKey | examples/gemini.py:31-54 | a completed walk over the body sleeps once per key |
| Gemini.StringsNeverAbort | examples/gemini.py:37-53 | keys whose values are all strings are all attempted, whatever the driver does |
| Gemini.FieldsNeverOpen | examples/gemini.py:32-54 | walking an object never opens the connection |
| Gemini.ItemsNeverOpen | examples/gemini.py:31-54 | walking the body never opens the connection |
| Gemini.InsertConnection | examples/gemini.py:20-25 | Open is called at most once and only when the flag was down; a raising Open gives 500 with the flag down; otherwise `forward_open` comes next |
| Gemini.InsertStatus | examples/gemini.py:16-59 | the status is 200 or 500; 200 iff connected, `forward_open` went through, the body is iterable and the walk was not ended; a 500 has still written a prefix of the reachable keys, in order |
| Gemini.InsertSuccess | examples/gemini.py:31-56 | a 200 wrote every key of the payload in flattened order and slept once per key |
| Gemini.WriteValue | examples/gemini.py:33-54 | one key's dispatch and calls, as `WriteField` describes |
| Gemini.NextField | examples/gemini.py:32-54 | one step of the loop over an object's keys |
| Gemini.WriteRecord | examples/gemini.py:32-54 | the loop over an object's keys, as `WriteFields` describes |
| Gemini.WriteElement | examples/gemini.py:31-32 | one element of the body: an object is walked, anything else ends the request |
| Gemini.NextItem | examples/gemini.py:31-54 | one step of the loop over the body's elements |
| Gemini.WriteAll | examples/gemini.py:31-54 | the loop over the body, as `WriteItems` describes |
| Gemini.ClxLink.constructor | examples/gemini.py:11-12 | the flag starts down |
| Gemini.ClxLink.Connect | examples/gemini.py:20-23 | Open only while the flag is down, and the flag is raised only once Open returned |
| Gemini.ClxLink.CloseConnection | examples/gemini.py:62-68 | close only while the flag is up; a raising close escapes (the framework answers 500) and leaves the flag up |
| Gemini.AcceptData | examples/gemini.py:25-59 | `forward_open` and the walk reply and log as `Accept` describes |
| Gemini.InsertData | examples/gemini.py:16-59 | `insert_data_to_plc` replies, sets the flag and logs as `HandleInsert` describes |

## Left out

- The HTTP layer is not modelled: routing, CORS, JSON parsing and message texts. The body arrives already parsed as `Json` or `TagsPayload`. Only status codes are modelled, plus the two counts of the 207 reply and the data map of a read.
- The `/ping` and `/pingWifi` endpoints are not modelled. They run a subprocess and do not touch the controller.
- Logging, `print`, `time.time()` and the elapsed time in replies are not modelled: they are I/O and clocks.
- Sleeps are modelled as logged calls. Only their number and position are proved; their duration has no effect in the model.
- Driver internals are not modelled. That covers the wire protocol, `IPAddress` assignment, what pylogix's `Response` holds and what `read_string` returns. An oracle decides which calls raise and what reads return. A pycomm `open` that returns False without raising counts as success, as it does in the source.
- Thread-pool concurrency in g2.py and g1.py is not modelled. Batches run one after the other in submission order, and no writes from different threads interleave on the shared driver. Completion order is covered by `G2.CountsIgnoreOrder` and `G1.FailureIgnoresOrder`. In g1.py the early `return` still waits for every batch when the `with` block exits, so the model runs every batch.
- UTF-8 `encode`/`decode` in gemini.py is not modelled: a key or string value is passed through unchanged. A Python 2 `str()` or `encode` that raises on non-ASCII text is not modelled either.
- Floats and compound values keep only the text `str()` prints for them. Python's float formatting is not modelled.
- Gemini.NumericType: every JSON integer is treated as `int`. Under Python 2, an integer beyond the machine word is a `long`, which takes the string path and makes `.encode` raise.
- Under Python 2 (g2.py, and gemini.py read as Python 2) `dict.items()` yields a dict's keys in hash order, not in the order they appear in the JSON text. The model takes whatever order `.items()` yields as given, and "flattened order" means that order.
- G4.HandleRead: a `tags` list holding unhashable values (lists, objects) is not modelled, since `results[tag]` would raise there.
- G4.HandleRead: the `results is None` check at g4.py:151-152 is not modelled. `batch_read` always returns a dictionary, so that branch can never run.
