/**
 * The email reader of src/email_reader.rs: the backlog of `(path, tries)`
 * entries, the dispatch of one entry to a prediction worker, and the retry
 * policy applied when that worker reports back.
 *
 * The backlog is a linked list the reader rotates in place: `request_next_file`
 * pops the head, lets `fetch_next` move the new head to the tail and prefetch
 * it, then pushes the popped entry back at the tail. Entries are never removed.
 * Messages the reader sends to the file reader pool and to the prediction
 * workers are recorded, in order, in `toPool` and `toWorkers`.
 */
module EmailReader {
  import opened Errors
  import opened State
  import Shifts

  type Path = string
  type WorkerId = string

  /** A backlog entry: a file and the number of tries it has had. */
  datatype Entry = Entry(path: Path, tries: nat)

  /** A completion report with more tries than this is not re-enqueued. */
  const MAX_TRIES: nat := 5

  /** Messages to the file reader pool: a read whose bytes go to a worker, or a prefetch. */
  datatype PoolRequest =
    | ReadFor(path: Path, worker: WorkerId, tries: nat)
    | PrefetchPath(path: Path)

  /** A prediction request to the worker `worker`, supervised by a handler with `tries`. */
  datatype WorkRequest = Predict(worker: WorkerId, work: Bytes, tries: nat)

  /** Messages the completion closure sends back to the reader. */
  datatype ReaderMsg =
    | RequestNextFile(id: WorkerId)
    | RetryFileByPath(id: WorkerId, path: Path, tries: nat)

  /** What the completion closure does: sleep `sleepMs`, then send `next`. */
  datatype Decision = Decision(sleepMs: nat, next: ReaderMsg)

  // ---------------------------------------------------------------------------
  // The backlog, as values

  /** `fetch_next` on the backlog: the head goes to the tail. */
  function FetchNextBacklog(b: seq<Entry>): seq<Entry>
  {
    if b == [] then [] else b[1..] + [b[0]]
  }

  /** `fetch_next`'s messages: a prefetch of the head it moved, if any. */
  function FetchNextRequests(b: seq<Entry>): seq<PoolRequest>
  {
    if b == [] then [] else [PrefetchPath(b[0].path)]
  }

  /** `request_next_file` on the backlog: pop, `fetch_next`, push the popped entry back. */
  function RequestBacklog(b: seq<Entry>): seq<Entry>
  {
    if b == [] then [] else FetchNextBacklog(b[1..]) + [b[0]]
  }

  /** `request_next_file`'s messages: `fetch_next`'s prefetch, then the read of the popped entry. */
  function RequestRequests(b: seq<Entry>, id: WorkerId): seq<PoolRequest>
  {
    if b == [] then [] else FetchNextRequests(b[1..]) + [ReadFor(b[0].path, id, b[0].tries)]
  }

  /** Every backlog entry is within the retry ceiling. */
  predicate TriesBounded(b: seq<Entry>)
  {
    forall e :: e in b ==> e.tries <= MAX_TRIES
  }

  /**
   * `request_next_file` keeps the backlog's length and entries; with two or
   * more entries the old second entry and the popped head end up last.
   */
  lemma RequestKeepsEntries(b: seq<Entry>)
    ensures |RequestBacklog(b)| == |b|
    ensures multiset(RequestBacklog(b)) == multiset(b)
    ensures |b| >= 2 ==> RequestBacklog(b) == b[2..] + [b[1], b[0]]
    ensures |b| == 1 ==> RequestBacklog(b) == b
  {
    if |b| >= 2 {
      calc {
        multiset(RequestBacklog(b));
        multiset(b[2..] + [b[1]] + [b[0]]);
        multiset(b[2..]) + multiset{b[1]} + multiset{b[0]};
        { assert b == [b[0]] + [b[1]] + b[2..]; }
        multiset(b);
      }
    }
  }

  /** `[A, B, C]` becomes `[C, B, A]`. */
  lemma RequestRotatesThree(a: Entry, b: Entry, c: Entry)
    ensures RequestBacklog([a, b, c]) == [c, b, a]
  {
  }

  /**
   * The messages of one `request_next_file`: none on an empty backlog; else a
   * prefetch of the entry that was second (only if there was one), then one
   * read of the popped head for worker `id`, carrying that entry's tries.
   */
  lemma RequestMessages(b: seq<Entry>, id: WorkerId)
    ensures b == [] ==> RequestRequests(b, id) == [] && RequestBacklog(b) == []
    ensures |b| == 1 ==> RequestRequests(b, id) == [ReadFor(b[0].path, id, b[0].tries)]
    ensures |b| >= 2 ==> RequestRequests(b, id) == [PrefetchPath(b[1].path), ReadFor(b[0].path, id, b[0].tries)]
  {
  }

  /**
   * `retry_file_by_path` appends one entry and then runs `request_next_file`:
   * the backlog grows by exactly that entry and loses none, not even older
   * entries for the same path.
   */
  lemma {:induction false} RetryAddsOneEntry(b: seq<Entry>, e: Entry)
    ensures |RequestBacklog(b + [e])| == |b| + 1
    ensures multiset(RequestBacklog(b + [e])) == multiset(b) + multiset{e}
    ensures forall x :: x in b ==> x in RequestBacklog(b + [e])
  {
    RequestKeepsEntries(b + [e]);
    assert multiset(b + [e]) == multiset(b) + multiset{e};
    forall x | x in b ensures x in RequestBacklog(b + [e]) {
      assert x in multiset(b + [e]);
      assert x in multiset(RequestBacklog(b + [e]));
    }
  }

  /** Rotation keeps the retry ceiling of every entry. */
  lemma {:induction false} RequestKeepsTriesBounded(b: seq<Entry>)
    requires TriesBounded(b)
    ensures TriesBounded(RequestBacklog(b))
  {
    RequestKeepsEntries(b);
    forall e | e in RequestBacklog(b) ensures e.tries <= MAX_TRIES {
      assert e in multiset(RequestBacklog(b));
      assert e in multiset(b);
    }
  }

  // ---------------------------------------------------------------------------
  // Repeated requests: which entries get dispatched

  /** The backlog after `k` calls of `request_next_file` and no retries. */
  function AfterRequests(b: seq<Entry>, k: nat): seq<Entry>
  {
    if k == 0 then b else RequestBacklog(AfterRequests(b, k - 1))
  }

  /**
   * As written, the prefetched entry is not the next one dispatched: with
   * three or more entries the next call pops the old third entry, while the
   * prefetch was for the old second one.
   */
  lemma PrefetchMissesNextDispatch(b: seq<Entry>, id: WorkerId)
    requires |b| >= 3
    ensures RequestRequests(b, id)[0] == PrefetchPath(b[1].path)
    ensures RequestBacklog(b)[0] == b[2]
  {
  }

  /**
   * As written, a backlog of three entries `[A, B, C]` alternates between
   * `[A, B, C]` and `[C, B, A]`, so `B` is never popped and never sent to a
   * worker, however many requests are made.
   */
  lemma {:induction false} ThreeEntriesStarveSecond(a: Entry, b: Entry, c: Entry, k: nat)
    requires b != a && b != c
    ensures AfterRequests([a, b, c], k) == [a, b, c] || AfterRequests([a, b, c], k) == [c, b, a]
    ensures AfterRequests([a, b, c], k)[0] != b
  {
    if k > 0 {
      ThreeEntriesStarveSecond(a, b, c, k - 1);
    }
  }

  /**
   * The evidently intended `request_next_file`: pop the head, prefetch the
   * entry now at the head without moving it (a peek), push the popped entry
   * back. The backlog rotates by one.
   */
  function IntendedRequestBacklog(b: seq<Entry>): (r: seq<Entry>)
    ensures |r| == |b|
  {
    if b == [] then [] else b[1..] + [b[0]]
  }

  function IntendedRequestRequests(b: seq<Entry>, id: WorkerId): seq<PoolRequest>
  {
    if b == [] then []
    else (if |b| >= 2 then [PrefetchPath(b[1].path)] else []) + [ReadFor(b[0].path, id, b[0].tries)]
  }

  function IntendedAfterRequests(b: seq<Entry>, k: nat): (r: seq<Entry>)
    ensures |r| == |b|
  {
    if k == 0 then b else IntendedRequestBacklog(IntendedAfterRequests(b, k - 1))
  }

  /** With the intended rotation, `k` requests rotate the backlog by `k`. */
  lemma {:induction false} IntendedRotatesByK(b: seq<Entry>, k: nat)
    requires k <= |b|
    ensures IntendedAfterRequests(b, k) == b[k..] + b[..k]
  {
    if k > 0 {
      IntendedRotatesByK(b, k - 1);
      var prev := b[k - 1..] + b[..k - 1];
      assert prev[0] == b[k - 1];
      assert prev[1..] == b[k..] + b[..k - 1];
      assert b[..k - 1] + [b[k - 1]] == b[..k];
    }
  }

  /**
   * With the intended rotation, `|b|` successive requests dispatch every
   * entry exactly once, in backlog order, and each request prefetches the
   * very entry the next request dispatches.
   */
  lemma {:induction false} IntendedRequestIsFair(b: seq<Entry>, id: WorkerId, k: nat)
    requires k < |b|
    ensures IntendedAfterRequests(b, k)[0] == b[k]
    ensures |b| >= 2 ==>
              IntendedRequestRequests(IntendedAfterRequests(b, k), id)[0]
                == PrefetchPath(IntendedAfterRequests(b, k + 1)[0].path)
  {
    IntendedRotatesByK(b, k);
    var cur := IntendedAfterRequests(b, k);
    assert cur[0] == b[k];
    assert IntendedAfterRequests(b, k + 1) == IntendedRequestBacklog(cur);
    assert |cur| == |b|;
  }

  // ---------------------------------------------------------------------------
  // The completion policy

  /** The back-off before acting on `Retry(tries)`: `2 << tries` milliseconds. */
  function BackoffMs(tries: nat): nat
  {
    Shifts.TwoShl(tries)
  }

  /**
   * The closure `gen_completion_handler` gives each handler: success and abort
   * ask for the next file at once; a retry always sleeps `2 << tries` ms, then
   * past the ceiling asks for the next file, and otherwise re-enqueues the
   * path with the new count.
   */
  function CompletionDecision(id: WorkerId, path: Path, status: CompletionStatus): (d: Decision)
    ensures d.next.id == id
    ensures d.next.RetryFileByPath? <==> status.Retry? && status.tries <= MAX_TRIES
    ensures d.next.RetryFileByPath? ==> d.next.path == path && d.next.tries == status.tries
    ensures status.Retry? ==> d.sleepMs == BackoffMs(status.tries)
    ensures !status.Retry? ==> d.sleepMs == 0
  {
    match status
    case Success => Decision(0, RequestNextFile(id))
    case Abort => Decision(0, RequestNextFile(id))
    case Retry(t) =>
      Decision(BackoffMs(t), if t > MAX_TRIES then RequestNextFile(id) else RetryFileByPath(id, path, t))
  }

  /**
   * The callback `send_work_by_id` gives the worker: the prediction outcome
   * becomes a report to the handler. Only `Ok` is a success and only an
   * unrecoverable error aborts; every other error kind is retried.
   */
  function WorkOutcome(h: CompletionHandler, p: Result<bool>): (s: CompletionStatus)
    ensures s == Success <==> p.Ok?
    ensures s == Abort <==> p.Err? && p.error.UnrecoverableError?
    ensures s.Retry? <==> p.Err? && !p.error.UnrecoverableError?
    ensures s.Retry? ==> s.tries == h.tries + 1
  {
    match p
    case Ok(_) => h.ReportSuccess()
    case Err(e) =>
      match e
      case RecoverableError(_) => h.ReportRetry()
      case UnrecoverableError(_) => h.ReportAbort()
      case _ => h.ReportRetry()
  }

  /** How a chain of attempts ended: how many were made, and the last status. */
  datatype ChainEnd = ChainEnd(attempts: nat, last: Option<CompletionStatus>)

  /**
   * The closure's decisions along one chain of re-enqueued entries: the
   * handler of the entry `(path, tries)` gets the prediction outcome
   * `outcomes[0]`; if the closure re-enqueues, the handler of the new entry
   * gets `outcomes[1]`, and so on. The chain stops when the closure asks for
   * the next file instead; `last` is `None` if the outcomes ran out first.
   * This follows the re-enqueued entries only: where the reader dispatches
   * them, and what else it dispatches meanwhile, is the lifecycle below.
   */
  function Chain(id: WorkerId, path: Path, tries: nat, outcomes: seq<Result<bool>>): (r: ChainEnd)
    ensures r.attempts <= |outcomes|
    ensures r.last.Some? ==> r.attempts >= 1
    ensures r.last.Some? && r.last.value.Retry? ==> r.last.value.tries > MAX_TRIES
    decreases |outcomes|
  {
    if outcomes == [] then ChainEnd(0, None)
    else
      var s := WorkOutcome(CompletionHandler(tries), outcomes[0]);
      var d := CompletionDecision(id, path, s);
      if d.next.RetryFileByPath? then
        var rest := Chain(id, path, d.next.tries, outcomes[1..]);
        ChainEnd(rest.attempts + 1, rest.last)
      else
        ChainEnd(1, Some(s))
  }

  /**
   * The retry ceiling, for one chain: from `tries <= 5`, the handlers along
   * the chain report at most `6 - tries` times, so the closure re-enqueues at
   * most `5 - tries` new entries; a chain still going when the outcomes run
   * out has reported at most `5 - tries` times.
   */
  lemma {:induction false} ChainIsBounded(id: WorkerId, path: Path, tries: nat, outcomes: seq<Result<bool>>)
    requires tries <= MAX_TRIES
    ensures Chain(id, path, tries, outcomes).attempts <= MAX_TRIES + 1 - tries
    ensures Chain(id, path, tries, outcomes).last.None? ==> Chain(id, path, tries, outcomes).attempts <= MAX_TRIES - tries
    decreases |outcomes|
  {
    if outcomes != [] {
      var s := WorkOutcome(CompletionHandler(tries), outcomes[0]);
      var d := CompletionDecision(id, path, s);
      if d.next.RetryFileByPath? {
        ChainIsBounded(id, path, d.next.tries, outcomes[1..]);
      }
    }
  }

  predicate AllRecoverable(outcomes: seq<Result<bool>>)
  {
    forall i :: 0 <= i < |outcomes| ==> outcomes[i].Err? && outcomes[i].error.RecoverableError?
  }

  /**
   * A chain whose every report is a recoverable failure stops re-enqueuing
   * once the count passes the ceiling: after `6 - tries` reports, at
   * `Retry(6)`, whatever follows.
   */
  lemma {:induction false} AlwaysRecoverableChainEnds(id: WorkerId, path: Path, tries: nat,
                                                        outcomes: seq<Result<bool>>)
    requires tries <= MAX_TRIES
    requires |outcomes| >= MAX_TRIES + 1 - tries
    requires AllRecoverable(outcomes[..MAX_TRIES + 1 - tries])
    ensures Chain(id, path, tries, outcomes) == ChainEnd(MAX_TRIES + 1 - tries, Some(Retry(MAX_TRIES + 1)))
    decreases |outcomes|
  {
    assert outcomes[0] == outcomes[..MAX_TRIES + 1 - tries][0];
    if tries < MAX_TRIES {
      assert outcomes[1..][..MAX_TRIES + 1 - (tries + 1)] == outcomes[..MAX_TRIES + 1 - tries][1..];
      AlwaysRecoverableChainEnds(id, path, tries + 1, outcomes[1..]);
    }
  }

  /**
   * A chain whose first `n` reports are recoverable failures and whose next
   * is a success ends in success on its `n + 1`-th report, as long as the `n`
   * failures stay within the ceiling.
   */
  lemma {:induction false} FailuresThenSuccess(id: WorkerId, path: Path, tries: nat, n: nat,
                                               outcomes: seq<Result<bool>>)
    requires tries + n <= MAX_TRIES
    requires |outcomes| > n && AllRecoverable(outcomes[..n]) && outcomes[n].Ok?
    ensures Chain(id, path, tries, outcomes) == ChainEnd(n + 1, Some(Success))
    decreases n
  {
    if n > 0 {
      assert outcomes[0] == outcomes[..n][0];
      assert outcomes[1..][..n - 1] == outcomes[..n][1..];
      FailuresThenSuccess(id, path, tries + 1, n - 1, outcomes[1..]);
    }
  }

  /** Four recoverable failures then a success: the chain ends in success on its fifth report. */
  lemma FourFailuresThenSuccess(id: WorkerId, path: Path, why: string)
    ensures var f := Err(RecoverableError(why));
            Chain(id, path, 0, [f, f, f, f, Ok(true)]) == ChainEnd(5, Some(Success))
  {
    var f: Result<bool> := Err(RecoverableError(why));
    FailuresThenSuccess(id, path, 0, 4, [f, f, f, f, Ok(true)]);
  }

  /** Six recoverable failures then a success: the chain stops at `Retry(6)` before a seventh report. */
  lemma SixFailuresThenSuccess(id: WorkerId, path: Path, why: string)
    ensures var f := Err(RecoverableError(why));
            Chain(id, path, 0, [f, f, f, f, f, f, Ok(true)]) == ChainEnd(6, Some(Retry(6)))
  {
    var f: Result<bool> := Err(RecoverableError(why));
    var fs := [f, f, f, f, f, f, Ok(true)];
    AlwaysRecoverableChainEnds(id, path, 0, fs);
  }

  // ---------------------------------------------------------------------------
  // The backlog's lifecycle under one worker

  /** Where a run ends: the backlog, and every entry dispatched to the worker, in order. */
  datatype Run = Run(backlog: seq<Entry>, dispatched: seq<Entry>)

  /**
   * The backlog once the closure of `current`'s handler has acted on the
   * prediction `outcome`, before the request that follows: the retry path
   * appends the entry with the new count, every other path appends nothing.
   */
  function Requeued(b: seq<Entry>, id: WorkerId, current: Entry, outcome: Result<bool>): (q: seq<Entry>)
    ensures q == b || q == b + [Entry(current.path, current.tries + 1)]
    ensures q != b <==> WorkOutcome(CompletionHandler(current.tries), outcome).Retry? && current.tries < MAX_TRIES
  {
    var d := CompletionDecision(id, current.path, WorkOutcome(CompletionHandler(current.tries), outcome));
    if d.next.RetryFileByPath? then b + [Entry(d.next.path, d.next.tries)] else b
  }

  /**
   * One worker's loop as written: `current` has just been dispatched and `b`
   * is the backlog its `request_next_file` left. The handler of `current`
   * gets `outcomes[0]`; the closure's message runs `retry_file_by_path` or
   * `request_next_file`, and either way the head of the backlog is dispatched
   * next and pushed back, and so on. A request on an empty backlog
   * dispatches nothing, which ends the run.
   */
  function AsWrittenLifecycle(id: WorkerId, b: seq<Entry>, current: Entry, outcomes: seq<Result<bool>>): (r: Run)
    ensures 1 <= |r.dispatched| <= |outcomes| + 1 && r.dispatched[0] == current
    decreases |outcomes|
  {
    if outcomes == [] then Run(b, [current])
    else
      var queued := Requeued(b, id, current, outcomes[0]);
      if queued == [] then Run([], [current])
      else
        var rest := AsWrittenLifecycle(id, RequestBacklog(queued), queued[0], outcomes[1..]);
        Run(rest.backlog, [current] + rest.dispatched)
  }

  /** The reader as written, from the backlog `b` and a first `request_next_file`. */
  function AsWrittenRun(id: WorkerId, b: seq<Entry>, outcomes: seq<Result<bool>>): (r: Run)
    ensures b == [] <==> r.dispatched == []
    ensures b != [] ==> r.dispatched[0] == b[0]
  {
    if b == [] then Run([], []) else AsWrittenLifecycle(id, RequestBacklog(b), b[0], outcomes)
  }

  /** Every entry of a one-path backlog keeps that path through a rotation. */
  lemma OnePathRequest(path: Path, b: seq<Entry>)
    requires forall e :: e in b ==> e.path == path
    ensures forall e :: e in RequestBacklog(b) ==> e.path == path
    ensures forall e :: e in b ==> e in RequestBacklog(b)
  {
    RequestKeepsEntries(b);
    forall e | e in RequestBacklog(b) ensures e.path == path {
      assert e in multiset(RequestBacklog(b));
    }
    forall e | e in b ensures e in RequestBacklog(b) {
      assert e in multiset(b);
    }
  }

  lemma {:induction false} OnePathLifecycle(id: WorkerId, path: Path, b: seq<Entry>, current: Entry,
                                            outcomes: seq<Result<bool>>)
    requires Entry(path, 0) in b
    requires current.path == path && forall e :: e in b ==> e.path == path
    ensures var r := AsWrittenLifecycle(id, b, current, outcomes);
            && |r.dispatched| == |outcomes| + 1
            && (forall e :: e in r.dispatched ==> e.path == path)
            && Entry(path, 0) in r.backlog
    decreases |outcomes|
  {
    if outcomes != [] {
      var queued := Requeued(b, id, current, outcomes[0]);
      assert queued[..|b|] == b;
      assert Entry(path, 0) in queued;
      OnePathRequest(path, queued);
      OnePathLifecycle(id, path, RequestBacklog(queued), queued[0], outcomes[1..]);
    }
  }

  /**
   * As written, a backlog of one file never lets go of it: whatever the
   * outcomes, recoverable failures past the ceiling included, the file is
   * dispatched again after every one of them, and its first entry
   * `(path, 0)` stays queued.
   */
  lemma AsWrittenLoneFileNeverDropped(id: WorkerId, path: Path, outcomes: seq<Result<bool>>)
    ensures var r := AsWrittenRun(id, [Entry(path, 0)], outcomes);
            && |r.dispatched| == |outcomes| + 1
            && (forall e :: e in r.dispatched ==> e.path == path)
            && Entry(path, 0) in r.backlog
  {
    assert RequestBacklog([Entry(path, 0)]) == [Entry(path, 0)];
    OnePathLifecycle(id, path, [Entry(path, 0)], Entry(path, 0), outcomes);
  }

  /**
   * One step of the loop as written: `outcome` for `current` leaves the
   * backlog `queued`, whose head is dispatched next and whose rotation is
   * `next`.
   */
  lemma AsWrittenStep(id: WorkerId, b: seq<Entry>, current: Entry, outcomes: seq<Result<bool>>,
                      queued: seq<Entry>, head: Entry, next: seq<Entry>, rest: seq<Result<bool>>)
    requires outcomes != [] && rest == outcomes[1..]
    requires queued == Requeued(b, id, current, outcomes[0]) && queued != []
    requires head == queued[0] && next == RequestBacklog(queued)
    ensures AsWrittenLifecycle(id, b, current, outcomes).dispatched
            == [current] + AsWrittenLifecycle(id, next, head, rest).dispatched
    ensures AsWrittenLifecycle(id, b, current, outcomes).backlog == AsWrittenLifecycle(id, next, head, rest).backlog
  {
  }

  /** A recoverable failure of an entry below the ceiling appends its retry entry. */
  lemma FailureRequeues(b: seq<Entry>, id: WorkerId, current: Entry, why: string)
    requires current.tries < MAX_TRIES
    ensures Requeued(b, id, current, Err(RecoverableError(why))) == b + [Entry(current.path, current.tries + 1)]
  {
  }

  /**
   * As written, six recoverable failures then a success: the lone file is
   * dispatched eight times, a seventh time after the sixth failure; the
   * entry that failed first, `(path, 0)`, goes out again straight away with
   * its old count and is still queued at the end.
   */
  lemma AsWrittenSixFailuresThenSuccess(id: WorkerId, path: Path, why: string)
    ensures var f := Err(RecoverableError(why));
            var r := AsWrittenRun(id, [Entry(path, 0)], [f, f, f, f, f, f, Ok(true)]);
            && |r.dispatched| == 8
            && (forall e :: e in r.dispatched ==> e.path == path)
            && r.dispatched[1] == Entry(path, 0)
            && Entry(path, 0) in r.backlog
  {
    var f: Result<bool> := Err(RecoverableError(why));
    var e0 := Entry(path, 0);
    var outcomes := [f, f, f, f, f, f, Ok(true)];
    AsWrittenLoneFileNeverDropped(id, path, outcomes);
    FailureRequeues([e0], id, e0, why);
    AsWrittenStep(id, [e0], e0, outcomes, [e0, Entry(path, 1)], e0, RequestBacklog([e0, Entry(path, 1)]), outcomes[1..]);
    assert RequestBacklog([e0]) == [e0];
  }

  /**
   * The evidently intended lifecycle: `request_next_file` dispatches the
   * head without pushing it back, and `fetch_next` only peeks at the new
   * head instead of moving it to the tail. So an entry leaves the backlog
   * when it is dispatched, returns only as the entry the closure
   * re-enqueues, and the backlog is dispatched in order. Dropping the
   * push-back alone, with `fetch_next` still moving the new head to the
   * tail, would dispatch `[A, B, C]` as A, C, B.
   */
  function IntendedLifecycle(id: WorkerId, b: seq<Entry>, current: Entry, outcomes: seq<Result<bool>>): (r: Run)
    ensures 1 <= |r.dispatched| <= |outcomes| + 1 && r.dispatched[0] == current
    decreases |outcomes|
  {
    if outcomes == [] then Run(b, [current])
    else
      var queued := Requeued(b, id, current, outcomes[0]);
      if queued == [] then Run([], [current])
      else
        var rest := IntendedLifecycle(id, queued[1..], queued[0], outcomes[1..]);
        Run(rest.backlog, [current] + rest.dispatched)
  }

  /**
   * With the intended lifecycle, files that all succeed are dispatched in
   * backlog order, one per outcome, until the backlog runs out.
   */
  lemma {:induction false} IntendedSuccessesInOrder(id: WorkerId, b: seq<Entry>, current: Entry,
                                                    outcomes: seq<Result<bool>>)
    requires forall i :: 0 <= i < |outcomes| ==> outcomes[i] == Ok(true)
    ensures var n := if |outcomes| < |b| then |outcomes| else |b|;
            IntendedLifecycle(id, b, current, outcomes).dispatched == [current] + b[..n]
    decreases |outcomes|
  {
    if outcomes != [] && b != [] {
      assert Requeued(b, id, current, outcomes[0]) == b;
      IntendedSuccessesInOrder(id, b[1..], b[0], outcomes[1..]);
      var n := if |outcomes| - 1 < |b| - 1 then |outcomes| - 1 else |b| - 1;
      assert [b[0]] + b[1..][..n] == b[..n + 1];
    } else if outcomes != [] {
      assert Requeued(b, id, current, outcomes[0]) == b;
    }
  }

  /** The intended reader, from the backlog `b` and a first request. */
  function IntendedRun(id: WorkerId, b: seq<Entry>, outcomes: seq<Result<bool>>): (r: Run)
    ensures b == [] <==> r.dispatched == []
    ensures b != [] ==> r.dispatched[0] == b[0]
  {
    if b == [] then Run([], []) else IntendedLifecycle(id, b[1..], b[0], outcomes)
  }

  /**
   * With the intended lifecycle a lone file is dispatched along exactly its
   * chain: once per report of the chain, plus the pending dispatch if the
   * outcomes run out first; once the chain ends, the backlog is empty.
   */
  lemma {:induction false} IntendedLoneFileFollowsChain(id: WorkerId, path: Path, tries: nat,
                                                        outcomes: seq<Result<bool>>)
    ensures var r := IntendedLifecycle(id, [], Entry(path, tries), outcomes);
            var c := Chain(id, path, tries, outcomes);
            && |r.dispatched| == c.attempts + (if c.last.None? then 1 else 0)
            && (forall e :: e in r.dispatched ==> e.path == path)
            && (c.last.Some? ==> r.backlog == [])
    decreases |outcomes|
  {
    if outcomes != [] {
      var queued := Requeued([], id, Entry(path, tries), outcomes[0]);
      if queued != [] {
        IntendedLoneFileFollowsChain(id, path, tries + 1, outcomes[1..]);
      }
    }
  }

  /**
   * The retry ceiling of the completion closure (its `tries > 5` test,
   * after which it reports "aborting after {} tries"), for the intended
   * lifecycle: a lone file is dispatched at most six times, whatever its
   * outcomes.
   */
  lemma IntendedAttemptsBounded(id: WorkerId, path: Path, outcomes: seq<Result<bool>>)
    ensures |IntendedRun(id, [Entry(path, 0)], outcomes).dispatched| <= MAX_TRIES + 1
  {
    IntendedLoneFileFollowsChain(id, path, 0, outcomes);
    ChainIsBounded(id, path, 0, outcomes);
  }

  /** Intended: four recoverable failures then a success take five dispatches, and the file is done. */
  lemma IntendedFourFailuresThenSuccess(id: WorkerId, path: Path, why: string)
    ensures var f := Err(RecoverableError(why));
            var r := IntendedRun(id, [Entry(path, 0)], [f, f, f, f, Ok(true)]);
            |r.dispatched| == 5 && r.backlog == []
  {
    var f: Result<bool> := Err(RecoverableError(why));
    IntendedLoneFileFollowsChain(id, path, 0, [f, f, f, f, Ok(true)]);
    FourFailuresThenSuccess(id, path, why);
  }

  /** Intended: after six recoverable failures the file is dropped; there is no seventh dispatch. */
  lemma IntendedSixFailuresThenSuccess(id: WorkerId, path: Path, why: string)
    ensures var f := Err(RecoverableError(why));
            var r := IntendedRun(id, [Entry(path, 0)], [f, f, f, f, f, f, Ok(true)]);
            |r.dispatched| == 6 && r.backlog == []
  {
    var f: Result<bool> := Err(RecoverableError(why));
    IntendedLoneFileFollowsChain(id, path, 0, [f, f, f, f, f, f, Ok(true)]);
    SixFailuresThenSuccess(id, path, why);
  }

  // ---------------------------------------------------------------------------
  // `start`: the walk's `.eml` files enter the backlog with no tries

  /** The last component of a path: everything after its last `/`. */
  function FileName(p: Path): (r: Path)
    ensures '/' !in r && |r| <= |p| && p[|p| - |r|..] == r
    ensures |r| == |p| || p[|p| - |r| - 1] == '/'
  {
    if p == [] then []
    else if p[|p| - 1] == '/' then []
    else
      var r := FileName(p[..|p| - 1]) + [p[|p| - 1]];
      assert p[..|p| - 1][|p| - 1 - (|r| - 1)..] == p[|p| - |r|..|p| - 1];
      r
  }

  /**
   * `p.extension() == Some("eml")`: the file name ends in `.eml` with at least
   * one character before that dot (a name like `.eml` has no extension).
   */
  predicate HasEmlExtension(p: Path)
  {
    var name := FileName(p);
    |name| >= 5 && name[|name| - 4..] == ".eml"
  }

  /** The entries `start` adds for the walk's files `paths`, in walk order. */
  function NewEntries(paths: seq<Path>): (r: seq<Entry>)
    ensures |r| <= |paths|
  {
    if paths == [] then []
    else
      var last := paths[|paths| - 1];
      var rest := NewEntries(paths[..|paths| - 1]);
      rest + Admitted(last)
  }

  /** The entry a walked path contributes: one with no tries if it is an email file, else none. */
  function Admitted(p: Path): (r: seq<Entry>)
    ensures r == [] || r == [Entry(p, 0)]
    ensures r != [] <==> HasEmlExtension(p)
  {
    if HasEmlExtension(p) then [Entry(p, 0)] else []
  }

  /** Every new entry is an untried email file from the listing. */
  lemma {:induction false} NewEntriesFromPaths(paths: seq<Path>)
    ensures forall e :: e in NewEntries(paths) ==> e.tries == 0 && HasEmlExtension(e.path) && e.path in paths
  {
    if paths != [] {
      NewEntriesFromPaths(paths[..|paths| - 1]);
      assert forall x :: x in paths[..|paths| - 1] ==> x in paths;
    }
  }

  lemma AppendAssociates<T>(a: seq<T>, b: seq<T>, c: seq<T>)
    ensures a + b + c == a + (b + c)
  {
  }

  /** Listing one more path adds its entry, if it is an email file. */
  lemma NewEntriesStep(paths: seq<Path>, i: nat)
    requires i < |paths|
    ensures NewEntries(paths[..i + 1]) == NewEntries(paths[..i]) + Admitted(paths[i])
  {
    assert paths[..i + 1][..i] == paths[..i];
  }

  // ---------------------------------------------------------------------------
  // The reader

  class EmailReader {
    var fileNames: seq<Entry>
    /** The ids of the prediction workers (the keys of the worker map). */
    const workers: set<WorkerId>
    var toPool: seq<PoolRequest>
    var toWorkers: seq<WorkRequest>

    /** `EmailReader::new`: workers keyed by id, an empty backlog. */
    constructor (workerIds: seq<WorkerId>)
      ensures fileNames == [] && toPool == [] && toWorkers == []
      ensures workers == set w | w in workerIds
    {
      fileNames := [];
      workers := set w | w in workerIds;
      toPool := [];
      toWorkers := [];
    }

    /** `fetch_next`: move the head to the tail and prefetch it; nothing on an empty backlog. */
    method FetchNext()
      modifies this`fileNames, this`toPool
      ensures fileNames == FetchNextBacklog(old(fileNames))
      ensures toPool == old(toPool) + FetchNextRequests(old(fileNames))
    {
      if fileNames == [] {
        return;
      }
      var head := fileNames[0];
      fileNames := fileNames[1..];
      fileNames := fileNames + [head];
      toPool := toPool + [PrefetchPath(head.path)];
    }

    /**
     * `request_next_file`: nothing on an empty backlog; otherwise pop the
     * head, `fetch_next`, push the popped entry back and ask the pool to read
     * it for worker `id`.
     */
    method RequestNextFile(id: WorkerId)
      modifies this`fileNames, this`toPool
      ensures fileNames == RequestBacklog(old(fileNames))
      ensures toPool == old(toPool) + RequestRequests(old(fileNames), id)
      ensures |fileNames| == |old(fileNames)| && multiset(fileNames) == multiset(old(fileNames))
    {
      RequestKeepsEntries(fileNames);
      if fileNames == [] {
        return;
      }
      var head := fileNames[0];
      fileNames := fileNames[1..];
      FetchNext();
      fileNames := fileNames + [head];
      toPool := toPool + [ReadFor(head.path, id, head.tries)];
    }

    /** `retry_file_by_path`: append `(path, tries)`, then `request_next_file` for `id`. */
    method RetryFileByPath(id: WorkerId, path: Path, tries: nat)
      modifies this`fileNames, this`toPool
      ensures fileNames == RequestBacklog(old(fileNames) + [Entry(path, tries)])
      ensures toPool == old(toPool) + RequestRequests(old(fileNames) + [Entry(path, tries)], id)
      ensures multiset(fileNames) == multiset(old(fileNames)) + multiset{Entry(path, tries)}
    {
      RetryAddsOneEntry(fileNames, Entry(path, tries));
      fileNames := fileNames + [Entry(path, tries)];
      RequestNextFile(id);
    }

    /**
     * `send_work_by_id`: an unknown worker id sends nothing; a known one is
     * asked to predict on the bytes, supervised by a handler with `tries`.
     */
    method SendWorkById(work: Bytes, id: WorkerId, tries: nat)
      modifies this`toWorkers
      ensures toWorkers == old(toWorkers) + (if id in workers then [Predict(id, work, tries)] else [])
    {
      if id !in workers {
        return;
      }
      toWorkers := toWorkers + [Predict(id, work, tries)];
    }

    /** `start`: append an entry with no tries for every `.eml` file of the walk, in walk order. */
    method Start(paths: seq<Path>)
      modifies this`fileNames
      ensures fileNames == old(fileNames) + NewEntries(paths)
    {
      var i := 0;
      while i < |paths|
        invariant 0 <= i <= |paths|
        invariant fileNames == old(fileNames) + NewEntries(paths[..i])
      {
        NewEntriesStep(paths, i);
        AppendAssociates(old(fileNames), NewEntries(paths[..i]), Admitted(paths[i]));
        fileNames := fileNames + Admitted(paths[i]);
        i := i + 1;
      }
      assert paths[..|paths|] == paths;
    }

    /**
     * The reader's handling of a message from a completion closure. Every
     * re-enqueue the policy produces is within the ceiling, so the backlog's
     * entries stay within it.
     */
    method OnMessage(msg: ReaderMsg)
      modifies this`fileNames, this`toPool
      ensures msg.RequestNextFile? ==> fileNames == RequestBacklog(old(fileNames))
      ensures msg.RequestNextFile? ==> toPool == old(toPool) + RequestRequests(old(fileNames), msg.id)
      ensures msg.RetryFileByPath? ==>
                fileNames == RequestBacklog(old(fileNames) + [Entry(msg.path, msg.tries)])
      ensures msg.RetryFileByPath? ==>
                toPool == old(toPool) + RequestRequests(old(fileNames) + [Entry(msg.path, msg.tries)], msg.id)
      ensures (TriesBounded(old(fileNames)) && (msg.RetryFileByPath? ==> msg.tries <= MAX_TRIES))
                ==> TriesBounded(fileNames)
    {
      ghost var before := fileNames;
      match msg
      case RequestNextFile(id) =>
        RequestNextFile(id);
        if TriesBounded(before) { RequestKeepsTriesBounded(before); }
      case RetryFileByPath(id, path, tries) =>
        RetryFileByPath(id, path, tries);
        if TriesBounded(before) && tries <= MAX_TRIES {
          assert TriesBounded(before + [Entry(path, tries)]);
          RequestKeepsTriesBounded(before + [Entry(path, tries)]);
        }
    }
  }

  /**
   * The backlog stays within the retry ceiling: `start` adds entries with no
   * tries, and any message a handler's closure sends keeps the bound.
   */
  lemma {:induction false} PolicyKeepsTriesBounded(b: seq<Entry>, id: WorkerId, path: Path,
                                                   h: CompletionHandler, p: Result<bool>)
    requires TriesBounded(b)
    ensures TriesBounded(b + NewEntries([path]))
    ensures var d := CompletionDecision(id, path, WorkOutcome(h, p));
            d.next.RetryFileByPath? ==> TriesBounded(b + [Entry(d.next.path, d.next.tries)])
  {
  }
}
