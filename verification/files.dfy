/**
 * The file reader pool of src/files.rs: a fixed list of file-reading workers
 * used in round-robin order, in front of a path-to-bytes cache (capacity
 * 5000, entries expire 120 s after insertion). `read_file` answers from the
 * cache when it can and otherwise asks the next worker; `prefetch` always asks
 * the next worker and only fills the cache with the answer.
 *
 * Requests to workers are asynchronous messages; the pool records them in
 * `sentReads`, in order. A worker's answer comes back through `CompleteRead`,
 * which is the completion closure the pool attached to that request.
 */
module FileReader {
  import opened Errors
  import LruTimeCache

  type Path = string

  const FILE_CACHE_CAPACITY: nat := 5000
  const FILE_CACHE_TTL_MS: nat := 120_000

  /** A read sent to worker number `worker`; `forCaller` is false for a prefetch. */
  datatype WorkerRead = WorkerRead(worker: nat, path: Path, forCaller: bool)

  /** What `read_file` did: no worker to take (the source panics), a cache hit, or a read sent. */
  datatype ReadOutcome = NoWorker | Hit(bytes: Bytes) | Dispatched(worker: nat)

  class FileReaderPool {
    /** The number of workers the pool cycles through. */
    const workerCount: nat
    /** The position of the `workers.cycle()` iterator: the worker the next call takes. */
    var cursor: nat
    /** How many calls have taken a worker so far. */
    ghost var calls: nat
    var cache: LruTimeCache.Cache<Path, Bytes>
    /** Every read sent to a worker, oldest first. */
    var sentReads: seq<WorkerRead>

    ghost predicate Valid()
      reads this
    {
      && LruTimeCache.Valid(cache)
      && cache.capacity == FILE_CACHE_CAPACITY && cache.ttl == FILE_CACHE_TTL_MS
      && (workerCount == 0 ==> cursor == 0 && calls == 0)
      && (workerCount > 0 ==> cursor == calls % workerCount)
    }

    /** `FileReaderPool::new`: a cycle over `workers` workers and an empty cache. */
    constructor (workers: nat)
      ensures Valid()
      ensures workerCount == workers && cursor == 0 && calls == 0 && sentReads == []
      ensures forall p :: p !in cache.entries
    {
      workerCount := workers;
      cursor := 0;
      calls := 0;
      cache := LruTimeCache.Empty(FILE_CACHE_CAPACITY, FILE_CACHE_TTL_MS);
      sentReads := [];
    }

    /**
     * `workers.next()`: the worker for this call is `calls % workerCount`;
     * the cycle moves on by one.
     */
    method NextWorker() returns (w: nat)
      requires Valid() && workerCount > 0
      modifies this`cursor, this`calls
      ensures Valid()
      ensures w == old(calls) % workerCount && w < workerCount
      ensures calls == old(calls) + 1
    {
      w := cursor;
      CycleStep(calls, workerCount);
      cursor := if cursor + 1 == workerCount then 0 else cursor + 1;
      calls := calls + 1;
    }

    /**
     * `read_file`: a worker is taken on every call, hit or miss. On a hit the
     * cached bytes go to the caller and no read is sent; on a miss one read
     * for the caller is sent to that worker.
     */
    method ReadFile(path: Path, now: nat) returns (r: ReadOutcome)
      requires Valid()
      modifies this`cursor, this`calls, this`cache, this`sentReads
      ensures Valid()
      ensures workerCount == 0 ==> r == NoWorker && cache == old(cache) && sentReads == old(sentReads) && calls == old(calls)
      ensures workerCount > 0 ==>
                && calls == old(calls) + 1
                && cache == LruTimeCache.Get(old(cache), path, now).1
                && (LruTimeCache.Live(old(cache), path, now) ==>
                      r == Hit(old(cache).entries[path].value) && sentReads == old(sentReads))
                && (!LruTimeCache.Live(old(cache), path, now) ==>
                      r == Dispatched(old(calls) % workerCount)
                      && sentReads == old(sentReads) + [WorkerRead(old(calls) % workerCount, path, true)])
    {
      if workerCount == 0 {
        return NoWorker;
      }
      var worker := NextWorker();
      assert cache == old(cache) && sentReads == old(sentReads);
      var lookup := LruTimeCache.Get(cache, path, now);
      cache := lookup.1;
      if lookup.0.Some? {
        assert LruTimeCache.Live(old(cache), path, now);
        r := Hit(lookup.0.value);
      } else {
        sentReads := sentReads + [WorkerRead(worker, path, true)];
        r := Dispatched(worker);
      }
    }

    /** `cache_file`: store the bytes for the path; last write wins. */
    method CacheFile(path: Path, bytes: Bytes, now: nat)
      requires Valid()
      modifies this`cache
      ensures Valid()
      ensures cache == LruTimeCache.Insert(old(cache), path, bytes, now)
    {
      cache := LruTimeCache.Insert(cache, path, bytes, now);
    }

    /**
     * `prefetch`: always sends a read to the next worker, whatever the cache
     * holds, and never answers a caller. With no workers the source panics;
     * here that is `sent == false`, with nothing changed.
     */
    method Prefetch(path: Path) returns (sent: bool)
      requires Valid()
      modifies this`cursor, this`calls, this`sentReads
      ensures Valid()
      ensures sent == (workerCount > 0)
      ensures !sent ==> sentReads == old(sentReads) && calls == old(calls)
      ensures sent ==> calls == old(calls) + 1
                       && sentReads == old(sentReads) + [WorkerRead(old(calls) % workerCount, path, false)]
    {
      if workerCount == 0 {
        return false;
      }
      var worker := NextWorker();
      sentReads := sentReads + [WorkerRead(worker, path, false)];
      sent := true;
    }

    /**
     * A worker's answer to one of the reads: the bytes are cached through
     * `cache_file` in both cases, and handed to the caller only for a
     * `read_file` request.
     */
    method CompleteRead(request: WorkerRead, bytes: Bytes, now: nat) returns (handed: Option<Bytes>)
      requires Valid()
      modifies this`cache
      ensures Valid()
      ensures cache == LruTimeCache.Insert(old(cache), request.path, bytes, now)
      ensures handed == if request.forCaller then Some(bytes) else None
    {
      CacheFile(request.path, bytes, now);
      handed := if request.forCaller then Some(bytes) else None;
    }
  }

  /** One step of the worker cycle keeps `cursor == calls % n`. */
  lemma CycleStep(calls: nat, n: nat)
    requires n > 0
    ensures (calls + 1) % n == if calls % n + 1 == n then 0 else calls % n + 1
  {
    var q, c := calls / n, calls % n;
    assert calls == q * n + c;
    if c + 1 == n {
      ModUnique(calls + 1, n, q + 1, 0);
    } else {
      ModUnique(calls + 1, n, q, c + 1);
    }
  }

  /** `y % n` is the remainder of any division of `y` by `n`. */
  lemma ModUnique(y: int, n: int, a: int, r: int)
    requires n > 0 && 0 <= r < n && y == a * n + r
    ensures y % n == r
  {
    var d := y / n - a;
    assert y == (y / n) * n + y % n;
    assert n * d == r - y % n by {
      assert (y / n) * n == n * (y / n);
      assert n * d == n * (y / n) - n * a;
    }
    MulBounds(n, d);
  }

  lemma {:induction false} MulBounds(n: int, d: int)
    requires n > 0
    ensures d >= 1 ==> n * d >= n
    ensures d <= -1 ==> n * d <= -n
    decreases if d < 0 then -d else d
  {
    if d > 1 { MulBounds(n, d - 1); assert n * d == n * (d - 1) + n; }
    if d < -1 { MulBounds(n, d + 1); assert n * d == n * (d + 1) - n; }
  }

  /**
   * A prefetched file is served from the cache: after the prefetch's answer
   * is cached, a `read_file` of the same path within the time to live is a
   * hit with those bytes and sends no read.
   */
  method PrefetchThenRead(workers: nat, path: Path, bytes: Bytes, t: nat, t': nat)
    returns (sent: bool, r: ReadOutcome, sentAfter: nat)
    requires workers > 0 && t <= t' < t + FILE_CACHE_TTL_MS
    ensures sent && r == Hit(bytes) && sentAfter == 1
  {
    var pool := new FileReaderPool(workers);
    sent := pool.Prefetch(path);
    var handed := pool.CompleteRead(pool.sentReads[0], bytes, t);
    r := pool.ReadFile(path, t');
    sentAfter := |pool.sentReads|;
  }

  /**
   * Round robin: `k` successive prefetches on a fresh pool go to workers
   * 0, 1, ..., in cycle, the i-th to worker `i % workers`.
   */
  method PrefetchAll(workers: nat, paths: seq<Path>) returns (sent: seq<WorkerRead>)
    requires workers > 0
    ensures |sent| == |paths|
    ensures forall i :: 0 <= i < |paths| ==> sent[i] == WorkerRead(i % workers, paths[i], false)
  {
    var pool := new FileReaderPool(workers);
    var i := 0;
    while i < |paths|
      invariant 0 <= i <= |paths|
      invariant pool.Valid() && pool.workerCount == workers && pool.calls == i
      invariant |pool.sentReads| == i
      invariant forall j :: 0 <= j < i ==> pool.sentReads[j] == WorkerRead(j % workers, paths[j], false)
    {
      var _ := pool.Prefetch(paths[i]);
      i := i + 1;
    }
    sent := pool.sentReads;
  }
}
