# Spam detection pipeline: dispatch, retry and bookkeeping

A Dafny model of the work-dispatch core of an actor-based spam detector
written in Rust, together with its Python accuracy script. The model covers
the following parts.

- **The email reader** (`src/email_reader.rs`).
  - It keeps a backlog of `(path, tries)` entries. It rotates the backlog in
    place, hands one file at a time to a prediction worker and prefetches
    another.
  - It applies a retry policy when the worker's completion handler reports
    back: a `2 << tries` ms back-off, and a ceiling of five tries past which
    the failed path is not re-enqueued.
- **The completion handler** (`src/state.rs`). It turns a success, retry,
  abort or inactivity timeout into a `CompletionStatus` for a fixed number of
  tries.
- **The file reader pool** (`src/files.rs`). It takes its workers in
  round-robin order and sits in front of a path-to-bytes cache (5000 entries,
  120 s). Prefetches only fill that cache.
- **The prediction service** (`src/service.rs`, `src/model.rs`).
  - A content hash is written as eight little-endian bytes and suffixed with
    `"prediction"` to form the prediction-cache key (10 entries, 60 s).
  - A cache hit answers at once. Anything else goes through feature
    extraction and then the model.
  - The model's HTTP answer must be exactly `"T"` or `"F"`.
  - The Python service is started on a random port in [10000, 16000) and is
    probed at most 15 times, with doubling waits.
- **The feature extractor** (`src/extraction.rs`). It has a 50 ms deadline,
  and a `timed_out` flag makes the timeout report fire once and suppresses
  later successes.
- **The driver** (`src/main.rs`):
  - the training label parser;
  - the duplicate-path count;
  - the per-path result tally that decides when the run is over.
- **The accuracy script** (`model_service/service/check_accuracy.py`): the
  label and prediction files read as Python reads them, and the
  hits/misses/missed count.

**How the actor system is modelled**
- A message one actor sends another is appended to an outbox field:
  - `EmailReader.toPool` and `toWorkers`;
  - `FileReaderPool.sentReads`;
  - `FeatureExtractor.delivered`.
- A callback's argument becomes a parameter:
  - the cache's answer;
  - the extractor's result;
  - the model's answer;
  - a health probe's outcome.
- Every object whose fields the source updates is a class whose methods
  state the new state. Where the source is pure, the model uses functions.
- The feature extractor is specified by an event-replay function (`Step`,
  `Replay`), and its methods are proved to perform exactly one `Step`.
- A panic becomes `None` (driver, Python model start-up) or an explicit
  outcome (`FileReader.NoWorker`).

**Behaviour of the code as written that the model keeps**
- The backlog never shrinks. `request_next_file` pushes the popped entry
  back, so a finished file stays in the backlog, and so does a file whose
  retries passed the ceiling: the ceiling stops one chain of re-enqueued
  entries, not the attempts on the file (see Findings).
- `retry_file_by_path` adds a second entry for a path rather than updating
  the first.
- Nothing calls `PredictionCache::set`, so a worker's prediction cache never
  answers (`Service.FirstRequestPredicts`).
- The `timed_out` flag is only set by the timeout. An extractor that reports
  its features and then reaches its deadline also reports the timeout error,
  so the service answers that email twice
  (`Service.SuccessThenDeadlineAnswersTwice`).
- The driver's stopping test adds the number of distinct paths with a
  success to the number of distinct paths with an abort. A path that was
  both retried to success and aborted is therefore counted twice.

## Model

| member | source | states |
|---|---|---|
| State.CompletionHandler.ReportSuccess | src/state.rs:42-44 | `success` reports `Success` |
| State.CompletionHandler.ReportRetry | src/state.rs:46-48 | `retry` reports `Retry` with one more than the handler's tries |
| State.CompletionHandler.ReportAbort | src/state.rs:50-52 | `abort` reports `Abort` |
| State.CompletionHandler.OnTimeout | src/state.rs:67-69 | the inactivity timeout reports the same status as an explicit `retry` |
| State.CarriedTries | src/state.rs:29-36 | only `Retry` carries a count (non-negative exactly for `Retry`), and it is that count |
| State.RetryReportsAgree | src/state.rs:58-69 | `tries` is fixed at construction: any sequence of retry and timeout reports all carry `Retry(tries + 1)` |
| LruTimeCache.Empty | src/files.rs:95 | a new cache has the configured capacity and time to live, satisfies the cache invariant and holds no key |
| LruTimeCache.Expire | src/model.rs:191 | keeps exactly the live entries, unchanged, and keeps the invariant |
| LruTimeCache.Get | src/model.rs:191 | a lookup yields the stored value iff the key is live, otherwise `None` (never an error); afterwards exactly the live entries remain, unchanged |
| LruTimeCache.Insert | src/files.rs:64-66 | last write wins for the key, stamped with the insertion time; every other surviving entry was live and is unchanged; a live entry is lost only when a new key meets a full cache, and then it is the least recently used one; the size stays within capacity |
| LruTimeCache.PutThenGet | src/model.rs:185-198 | a value put is read back until its time to live has passed |
| LruTimeCache.GetAfterExpiry | src/model.rs:207-211 | once its time to live has passed, a value is no longer visible |
| FileReader.FileReaderPool.constructor | src/files.rs:87-97 | the pool cycles over the given workers from the first, with an empty 5000-entry, 120 s cache and no reads sent |
| FileReader.FileReaderPool.NextWorker | src/files.rs:48 | the k-th call takes worker `k mod n`; the cycle advances by one |
| FileReader.FileReaderPool.ReadFile | src/files.rs:45-62 | a worker is taken on every call; a live cached path answers with the cached bytes and sends no read; a miss sends exactly one read for the caller to the taken worker; no workers is the panic outcome and changes nothing |
| FileReader.FileReaderPool.CacheFile | src/files.rs:64-66 | the cache becomes the insertion of the bytes under the path (last write wins) |
| FileReader.FileReaderPool.Prefetch | src/files.rs:68-81 | always sends one read, not for a caller, to the next worker, whatever the cache holds; no workers is the panic outcome (`sent` is false) and changes nothing |
| FileReader.FileReaderPool.CompleteRead | src/files.rs:54-59 | a worker's answer is cached through `cache_file`, and is handed to the caller only for a `read_file` request |
| FileReader.CycleStep | src/files.rs:94 | one step of `cycle()` keeps the cursor equal to the call count modulo the worker count |
| FileReader.PrefetchThenRead | src/files.rs:57-78 | after a prefetch's answer is cached, a `read_file` of that path within 120 s is a hit with those bytes and sends no further read |
| FileReader.PrefetchAll | src/files.rs:68-81 | successive prefetches on a fresh pool go to workers 0, 1, ... in cycle: the i-th to worker `i mod n` |
| EmailReader.EmailReader.constructor | src/email_reader.rs:181-203 | an empty backlog, workers keyed by their ids, nothing sent |
| EmailReader.EmailReader.FetchNext | src/email_reader.rs:71-80 | the head moves to the tail and exactly that path is prefetched; an empty backlog is left alone and nothing is sent |
| EmailReader.EmailReader.RequestNextFile | src/email_reader.rs:44-69 | the backlog becomes the pop/`fetch_next`/push-back rotation of the old one, with the same length and entries; the pool receives the prefetch of the old second entry, if any, then a read of the old head carrying its tries; an empty backlog sends nothing |
| EmailReader.EmailReader.RetryFileByPath | src/email_reader.rs:83-88 | appends the `(path, tries)` entry and runs `request_next_file`: the backlog gains exactly that entry |
| EmailReader.EmailReader.SendWorkById | src/email_reader.rs:128-135 | an unknown worker id asks nothing; a known one gets one prediction request for the bytes, supervised with the entry's tries |
| EmailReader.EmailReader.Start | src/email_reader.rs:165-176 | appends an entry with no tries for each `.eml` path, in walk order, keeping existing entries |
| EmailReader.EmailReader.OnMessage | src/email_reader.rs:103-118 | a completion message runs `request_next_file` or `retry_file_by_path`: the new backlog and the reads sent to the pool are those of that operation, and a backlog within the retry ceiling stays within it |
| EmailReader.RequestKeepsEntries | src/email_reader.rs:45-57 | `request_next_file` keeps the backlog's length and multiset of entries; with two or more entries the old second and the old head end up last |
| EmailReader.RequestRotatesThree | src/email_reader.rs:45-57 | `[A, B, C]` becomes `[C, B, A]` |
| EmailReader.RequestMessages | src/email_reader.rs:45-79 | an empty backlog sends nothing; otherwise the old second entry is prefetched (only if there is one), then the old head is read for worker `id` with its tries |
| EmailReader.RetryAddsOneEntry | src/email_reader.rs:83-88 | a retry grows the backlog by exactly one entry and loses none, not even an older entry for the same path |
| EmailReader.RequestKeepsTriesBounded | src/email_reader.rs:45-57 | rotation keeps every entry within the retry ceiling |
| EmailReader.PrefetchMissesNextDispatch | src/email_reader.rs:56-79 | with three or more entries the prefetched path is the old second entry while the next call pops the old third one |
| EmailReader.ThreeEntriesStarveSecond | src/email_reader.rs:44-80 | a three-entry backlog alternates between `[A, B, C]` and `[C, B, A]`, so `B` is never dispatched |
| EmailReader.IntendedRequestBacklog | src/email_reader.rs:44-80 | the corrected rotation keeps the backlog's length |
| EmailReader.IntendedRotatesByK | src/email_reader.rs:44-80 | under the corrected rotation, k requests rotate the backlog by k |
| EmailReader.IntendedRequestIsFair | src/email_reader.rs:44-80 | under the corrected rotation, request k dispatches entry k, and each request prefetches exactly the entry the next one dispatches |
| EmailReader.CompletionDecision | src/email_reader.rs:103-118 | success and abort ask for the next file at once; `Retry(t)` first waits `2 << t` ms, then re-enqueues the same path with `t` iff `t <= 5` and otherwise asks for the next file |
| EmailReader.WorkOutcome | src/email_reader.rs:141-162 | `Ok` reports success; an unrecoverable error aborts; every other error kind retries, with one more try |
| EmailReader.Chain | src/email_reader.rs:96-123 | along one chain of re-enqueued entries, the handlers report no more often than there are outcomes, and the chain ends on `Retry` only past the ceiling |
| EmailReader.ChainIsBounded | src/email_reader.rs:107-117 | from `tries <= 5`, the closure re-enqueues at most `5 - tries` entries along one chain, so its handlers report at most `6 - tries` times |
| EmailReader.AlwaysRecoverableChainEnds | src/email_reader.rs:107-117 | a chain whose reports are all recoverable failures stops re-enqueuing after `6 - tries` reports, at `Retry(6)` |
| EmailReader.FailuresThenSuccess | src/email_reader.rs:104-117 | along one chain, n recoverable failures within the ceiling and then a success end the chain in success on its report n + 1 |
| EmailReader.FourFailuresThenSuccess | src/email_reader.rs:104-117 | along one chain, four failures then a success end it in success on its fifth report |
| EmailReader.SixFailuresThenSuccess | src/email_reader.rs:107-117 | along one chain, six failures end it at `Retry(6)`: no seventh entry is re-enqueued |
| EmailReader.Requeued | src/email_reader.rs:83-118 | after an outcome the backlog gains the entry with one more try exactly when the report is a retry below the ceiling, and is otherwise unchanged |
| EmailReader.AsWrittenLifecycle | src/email_reader.rs:44-118 | one worker's loop as written dispatches the current entry and at most one entry per outcome |
| EmailReader.AsWrittenLoneFileNeverDropped | src/email_reader.rs:44-118 | as written, a lone file is dispatched again after every outcome, whatever the outcomes, and its first entry `(path, 0)` stays queued |
| EmailReader.AsWrittenSixFailuresThenSuccess | src/email_reader.rs:44-118 | as written, six recoverable failures then a success: the file is dispatched eight times, the failed `(path, 0)` goes out again at once, and `(path, 0)` is still queued |
| EmailReader.IntendedLifecycle | src/email_reader.rs:44-118 | corrected: no push-back and `fetch_next` as a peek, so an entry leaves the backlog when dispatched; the loop dispatches at most one entry per outcome |
| EmailReader.IntendedSuccessesInOrder | src/email_reader.rs:44-118 | corrected: when every file succeeds, the backlog is dispatched in order, one entry per outcome |
| EmailReader.IntendedLoneFileFollowsChain | src/email_reader.rs:103-118 | corrected: a lone file is dispatched once per report of its chain, and the backlog is empty once the chain ends |
| EmailReader.IntendedAttemptsBounded | src/email_reader.rs:107-117 | corrected: a lone file is dispatched at most six times, whatever its outcomes |
| EmailReader.IntendedFourFailuresThenSuccess | src/email_reader.rs:104-117 | corrected: four failures then a success take five dispatches and leave the backlog empty |
| EmailReader.IntendedSixFailuresThenSuccess | src/email_reader.rs:107-117 | corrected: six failures leave the backlog empty after six dispatches; there is no seventh |
| EmailReader.FileName | src/email_reader.rs:172 | a path's file name is its longest suffix with no `/`: all of the path, or what follows its last `/` |
| EmailReader.NewEntriesFromPaths | src/email_reader.rs:165-175 | the walk's `.eml` paths become entries with no tries, drawn from the walk |
| EmailReader.PolicyKeepsTriesBounded | src/email_reader.rs:103-118 | entries added by `start` and re-enqueues made by the policy keep every backlog entry at five tries or fewer |
| Shifts.TwoShl | src/email_reader.rs:110 | `2 << n` is `2^(n+1)` |
| Shifts.SumTwoShlClosed | src/model.rs:127-128 | the waits `2 << 0` to `2 << (n-1)` add up to `2^(n+1) - 2` |
| Extraction.RunExtract | src/extraction.rs:101-136 | a parse error is reported unchanged and the analyser is not asked; otherwise the analyser gets the body, or "" when there is none; its error is reported unchanged and its analysis is sent back as `set_sentiment` |
| Extraction.FeatureExtractor.constructor | src/extraction.rs:166-180 | a new extractor has an empty builder, is not timed out and has reported nothing |
| Extraction.FeatureExtractor.Build | src/extraction.rs:17-20 | the builder yields features exactly when the sentiment is set, carrying it |
| Extraction.FeatureExtractor.IsComplete | src/extraction.rs:202-204 | complete iff the sentiment analysis is set |
| Extraction.FeatureExtractor.Extract | src/extraction.rs:101-136 | an error is reported at once; an analysis comes back as a message and changes nothing yet |
| Extraction.FeatureExtractor.SetSentiment | src/extraction.rs:138-150 | records the analysis and, unless timed out, reports the features built from it |
| Extraction.FeatureExtractor.OnTimeout | src/extraction.rs:183-191 | the first call sets the flag and reports the timeout error once; later calls change nothing |
| Extraction.ReplayAppend | src/extraction.rs:97-204 | replaying two runs of events in turn is replaying their concatenation |
| Extraction.TimeoutFiresOnce | src/extraction.rs:183-191 | after any events, the extractor has timed out iff a deadline passed, and the timeout callback ran exactly then, at most once |
| Extraction.TimeoutFiresOnceFromStart | src/extraction.rs:37-49 | from a new extractor the timeout callback runs at most once, and exactly when its deadline passed |
| Extraction.NoSuccessAfterTimeout | src/extraction.rs:143-149 | after a timeout, reports already made stay, every later report is an error, and the callback does not run again |
| Extraction.LateAnalysisIsDropped | src/extraction.rs:143-149 | an analysis that arrives after the deadline is never reported as a success |
| Extraction.AnalysisBeforeDeadline | src/extraction.rs:138-149 | before the deadline an analysis is reported as `Ok` features carrying exactly it |
| Extraction.SuccessThenDeadline | src/extraction.rs:143-149 | a success followed by the deadline reports the features and then the timeout error |
| Model.CacheKey | src/model.rs:185-186 | the key is the hash followed by the ten bytes of `"prediction"` |
| Model.CacheKeyInjective | src/model.rs:185-196 | different hashes never share a key |
| Model.PredictionCache.constructor | src/model.rs:203-213 | an empty cache of 10 entries and 60 s |
| Model.PredictionCache.Get | src/model.rs:184-192 | always `Ok`; it holds a prediction iff the hash's key is live; the cache changes only by the lookup |
| Model.PredictionCache.Set | src/model.rs:194-199 | stores the prediction under the hash's key |
| Model.SetThenGet | src/model.rs:184-199 | `set(h, v)` then `get(h)` within 60 s yields `Ok(Some(v))` |
| Model.LookupInFreshCache | src/model.rs:191 | a lookup in a new cache yields `Ok(None)`, not an error |
| Model.ParseResponse | src/model.rs:95-101 | `"T"` gives `Ok(true)`, `"F"` gives `Ok(false)`, each only for that body; anything else is the untagged parse error |
| Model.ServiceBody | model_service/service/prediction_service.py:37 | the service answers one character |
| Model.ServiceRoundTrip | model_service/service/prediction_service.py:37 | the client reads back exactly the label the service predicted |
| Model.PredictResponse | src/model.rs:84-105 | a failed send is a recoverable error naming the failure; a response is parsed; success needs a response of `"T"` or `"F"`, and only a failed send is recoverable |
| Model.HealthCheck | src/model.rs:126-142 | at most 15 probes, each preceded by a `2 << i` ms wait; all probes before the last failed; up iff some probe among the 15 succeeded, and then the last one did; the waits total at most 65534 ms |
| Model.HealthCheckWaitBound | src/model.rs:127-128 | waits of `2 << i` before each of at most 15 probes total at most 65534 ms |
| Model.ShiftWaitsSum | src/model.rs:127-128 | waits of `2 << i` before each probe `i` add up to the closed-form sum of the shifts |
| Model.PortFromDraw | src/model.rs:115 | the port lies in [10000, 16000) |
| Model.StartPythonModel | src/model.rs:110-152 | start-up succeeds iff the spawn succeeded and some health probe did, and then yields the drawn port |
| Service.EncodeLE64 | src/service.rs:72-73 | the hash is written as exactly eight bytes |
| Service.DecodeEncode | src/service.rs:68-75 | reading the eight bytes back gives the hash |
| Service.EncodeDecode | src/service.rs:72-73 | every eight bytes are the encoding of the number they spell, so the encoding is onto |
| Service.HashEmail | src/service.rs:68-75 | eight bytes whose little-endian reading is the email's hash |
| Service.HashKeyInjective | src/service.rs:68-75 | two emails share a key iff their hashes are equal; equal contents give equal keys |
| Service.Predict | src/service.rs:52-66 | an extraction error goes to the caller unchanged and the model is not asked; features go to the model, whose answer is the caller's |
| Service.PredictWithCache | src/service.rs:33-50 | a cached prediction is the answer and extraction never starts; no prediction or a failed lookup falls through to `predict` with the same email |
| Service.ServeRequest | src/service.rs:33-50 | the lookup is the only change to the cache (no write); a live key answers with its prediction, anything else is `predict`'s run |
| Service.FirstRequestPredicts | src/service.rs:33-50 | against a new cache every request goes through extraction |
| Service.SuccessThenDeadlineAnswersTwice | src/service.rs:56-65 | an extractor that reports features and then times out makes the service answer twice: the model's prediction, then the timeout error |
| Driver.Split | src/main.rs:190 | splitting yields at least one piece, and no piece contains the separator |
| Driver.JoinSplit | src/main.rs:190 | joining the pieces with the separator gives the text back |
| Driver.SplitJoin | src/main.rs:190 | pieces free of the separator are found again by splitting their join |
| Driver.ParseLabelLine | src/main.rs:192-207 | an empty line is skipped and only an empty one; a label's name contains no space |
| Driver.ParseFormat | src/main.rs:196-206 | a line `"0 name"` reads as spam and `"1 name"` as not spam, for that name |
| Driver.ParsedLineStartsWithLabel | src/main.rs:196-206 | a line read as a label starts with that score and name, followed by the end of the line or a space |
| Driver.LastLabelWins | src/main.rs:207 | a name is in the label map iff some line labels it, and the last such line wins |
| Driver.BadLinePanics | src/main.rs:197-206 | a bad score or a missing name on any line makes the parse panic |
| Driver.TruthValues | src/main.rs:185-210 | the loop over the label file builds the label map of its "\n"-separated lines, or panics |
| Driver.CountPaths | src/main.rs:233-252 | counts every path handed out; each path's count is its number of occurrences, and a path is reported duplicated iff it occurs more than once |
| Driver.BucketOf | src/main.rs:259-287 | `Ok` goes to the ok tally, an unrecoverable error to aborted, every other error kind to retry |
| Driver.BucketMatchesCompletion | src/main.rs:259-287 | the tally and the email reader's reaction agree: ok is success, aborted is abort, retry is retry |
| Driver.PathsIn | src/main.rs:259-287 | a tally holds no more results than arrived |
| Driver.CountsAreOccurrences | src/main.rs:259-287 | a path's count in a tally is its number of results in that bucket |
| Driver.EveryResultCountedOnce | src/main.rs:259-287 | every result is counted in exactly one of the three tallies |
| Driver.Tally | src/main.rs:254-297 | the loop tallies the results in arrival order and stops right after the first one that makes the distinct ok paths plus distinct aborted paths equal the number of paths handed out |
| Accuracy.PyLines | model_service/service/check_accuracy.py:5 | iteration yields no empty line |
| Accuracy.PyLinesSpellText | model_service/service/check_accuracy.py:5 | the lines spell the text |
| Accuracy.PyLinesBreakAtNewlines | model_service/service/check_accuracy.py:5 | every line but the last ends in "\n" and none holds another |
| Accuracy.TerminatedTextTerminatedLines | model_service/service/check_accuracy.py:21 | in a text ending in "\n", every line ends in "\n" |
| Accuracy.PySlice | model_service/service/check_accuracy.py:9 | a slice has Python's clamped, end-relative bounds and the characters between them |
| Accuracy.LStrip | model_service/service/check_accuracy.py:9 | drops exactly the leading whitespace |
| Accuracy.RStrip | model_service/service/check_accuracy.py:9 | drops exactly the trailing whitespace |
| Accuracy.Strip | model_service/service/check_accuracy.py:9 | the result is a middle part of the string with only whitespace before and after it, and it neither starts nor ends with whitespace |
| Accuracy.FillLastWins | model_service/service/check_accuracy.py:14 | filling a dictionary pair by pair, a key's value is the one of its last pair |
| Accuracy.FillFromPairs | model_service/service/check_accuracy.py:32 | every key of the filled dictionary comes, with its value, from one of the pairs |
| Accuracy.Parsed | model_service/service/check_accuracy.py:5-13 | one parsed entry per line, in order |
| Accuracy.TruthEntry | model_service/service/check_accuracy.py:8-13 | a non-empty line's label is spam iff its first character is not "1" |
| Accuracy.LoadTruth | model_service/service/check_accuracy.py:1-16 | the loop builds the label dictionary of the file's lines |
| Accuracy.TruthLastLineWins | model_service/service/check_accuracy.py:14 | the last line naming a file decides its label |
| Accuracy.PredictionEntryAsWritten | model_service/service/check_accuracy.py:25-31 | a prediction is true iff `line[29:]` is exactly "true" |
| Accuracy.PredictionEntry | model_service/service/check_accuracy.py:25-31 | corrected: a prediction is true iff `line[29:]` stripped is "true" |
| Accuracy.PredictionsAsWritten | model_service/service/check_accuracy.py:18-34 | the loop builds the prediction dictionary as the script has it |
| Accuracy.Predictions | model_service/service/check_accuracy.py:18-34 | the loop builds the prediction dictionary with the corrected comparison |
| Accuracy.TerminatedLineReadsFalse | model_service/service/check_accuracy.py:26-31 | as written, a line ending in "\n" is never a true prediction |
| Accuracy.AsWrittenAllFalse | model_service/service/check_accuracy.py:18-34 | as written, a prediction file ending in "\n" records every prediction as false |
| Accuracy.AllFalse | model_service/service/check_accuracy.py:18-34 | as written, lines that all end in "\n" give only false predictions |
| Accuracy.TrueLineWithTerminator | model_service/service/check_accuracy.py:26-31 | the line `<29 characters>true\n` is false as written and true as corrected |
| Accuracy.Partition | model_service/service/check_accuracy.py:49-57 | three sets that sort every labelled file by its prediction are the hits, misses and missed files, and together count every labelled file |
| Accuracy.Score | model_service/service/check_accuracy.py:47-59 | hits count the files whose prediction equals the label, misses those whose prediction differs, missed those with none; the three add up to the number of labelled files |

## Left out

- Actor plumbing is not modelled: the system, message routing, `kill`, `on_error` re-routing and the inactivity timers themselves, including their durations (30 s for a completion handler, 50 ms for a feature extractor). A timeout is an explicit call (`OnTimeout`) or event (`DeadlinePassed`).
- ChainIsBounded: bounds the re-enqueues along one chain only. As written, the attempts on a file are not bounded, because every dispatched entry stays in the backlog (`AsWrittenLoneFileNeverDropped`); the bound on attempts holds for the corrected lifecycle (`IntendedAttemptsBounded`).
- FailuresThenSuccess: counts the reports along one chain, not the dispatches of the file. As written, the dispatch after a retry is the backlog's head, which need not be the re-enqueued entry; the dispatch count is stated for the corrected lifecycle (`IntendedFourFailuresThenSuccess`).
- FourFailuresThenSuccess: the same restriction to one chain as `FailuresThenSuccess`.
- SixFailuresThenSuccess: the same restriction to one chain. As written, the file is dispatched a seventh time (`AsWrittenSixFailuresThenSuccess`).
- The lifecycle functions (`AsWrittenLifecycle`, `IntendedLifecycle`) follow one worker. With several workers, the dispatches of different workers interleave, and that interleaving is not modelled.
- `Model.ServiceBody`: the predicted label is taken to be a Python `bool`, so its text is "True" or "False". The service answers with the first character of `str(label)`, and the training labels come from an untyped CSV column; another label type would give another first character.
- `Accuracy.PyLines`: the text is the file's contents after Python's universal-newline translation, so "\r\n" and "\r" have already become "\n".
- Sleeps are not modelled: `thread::sleep` becomes the delay it would wait (`Decision.sleepMs`, `HealthCheck`'s `waits`). The parallel training loop is not modelled either.
- File-system reads, the label and prediction files' opening, and the `WalkDir` walk are left out. Their results are parameters: bytes, text, and a list of paths.
- `EmailReader.EmailReader.Start`: the walk's directory and file-type filter are left out. Only the `.eml` extension filter is modelled, over the paths it yields.
- The HTTP client, the child process and its `Drop` kill are left out. A send is a `SendOutcome`, a health probe a function of its number, and the spawn a boolean.
- `Model.PortFromDraw`: the random number generator is a parameter, `draw`.
- Sentiment analysis, mail parsing and the float query string are foreign code. They are parameters: an analyser function and a parsed body, which may be missing.
- XxHash is a parameter, `hasher`, so nothing is assumed about its distribution.
- `Service.HashEmail`: byte i's value `(h >> 8i) & 0xFF` is stated through the little-endian decode round trip rather than as a per-byte formula over a symbolic index.
- `LruTimeCache`: the cache library's internals are abstracted. It is modelled as a key-to-(value, insertion time) map with a recency order. An entry expires a fixed time after its insertion, and a lookup does not extend it.
- `random_panic!`/`random_latency!` fault injection in the prediction cache is left out.
- `EmailReader.BackoffMs`: `2 << tries` is unbounded here, while the source's `u64` shift would overflow from 63 tries on. The ceiling keeps tries at 6 or less, so that case is unreachable.
- `State.CompletionHandler.ReportRetry`: `tries + 1` is unbounded here, while the source's `usize` could overflow. That is unreachable for the same reason.
- The training path (`train`, `get_workers`, `gen_worker`) and feature storage are left out.
- `add_file`, which the driver calls, is not part of this model; the driver's tally takes the results in arrival order as its input.
- Python dictionary iteration order does not matter to the counts and is not modelled. Neither is the printing of unpredicted files (they are the `missed` count).

## Findings

| source | as written | input that shows it | evidently intended | confidence | as-written member | corrected member |
|---|---|---|---|---|---|---|
| src/email_reader.rs:44-80 | `request_next_file` pops the head, then `fetch_next` pops the new head and pushes it to the tail, then the popped head is pushed back: the backlog rotates by two and the prefetch is for an entry that is not dispatched next | backlog `[A, B, C]`: every call leaves `[C, B, A]` or `[A, B, C]`, so `B` is prefetched but never dispatched | `fetch_next` peeks at the new head without moving it, so the backlog rotates by one, each entry is dispatched in turn and each prefetch is for the next dispatch | medium, not executed | EmailReader.ThreeEntriesStarveSecond | EmailReader.IntendedRequestIsFair |
| src/email_reader.rs:44-88 | `request_next_file` pushes every entry it dispatches back onto the backlog, and a retry appends a new entry and then dispatches the backlog's head; no entry ever leaves, so the retry ceiling never stops a file from being dispatched | a lone file whose predictions fail recoverably six times and then succeed: it is dispatched a seventh and an eighth time, and `(path, 0)` is still queued | an entry leaves the backlog when it is dispatched and comes back only as the retry entry, so a file that keeps failing is dispatched at most six times | medium, not executed | EmailReader.AsWrittenSixFailuresThenSuccess | EmailReader.IntendedAttemptsBounded |
| model_service/service/check_accuracy.py:26-31 | `line[29:]` keeps the line's "\n", so only an unterminated last line can compare equal to "true" | the line of 29 characters followed by `true\n` is recorded as false; a file ending in "\n" records no true prediction | the value is compared once its terminator is stripped | medium, not executed | Accuracy.AsWrittenAllFalse | Accuracy.Predictions |

The first correction keeps the push-back and turns `fetch_next` into a peek
at the new head, so the backlog rotates by one. The second correction builds
on the first: it also drops the push-back, after which each entry is
dispatched once, in backlog order (`EmailReader.IntendedLifecycle`).
Dropping the push-back alone, with `fetch_next` still moving the new head to
the tail, would dispatch `[A, B, C]` as A, C, B.
