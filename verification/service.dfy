/**
 * The spam detection service of src/service.rs. For an email it asks the
 * prediction cache about the email's content hash; a cached prediction is the
 * answer, and anything else (no prediction, or a failed lookup) sends the
 * email through feature extraction and then the model. Errors travel to the
 * caller unchanged. The service itself keeps no state and never writes to the
 * cache.
 *
 * The content hash is XxHash-64 of the email's bytes, written out as eight
 * little-endian bytes. The hash function itself is a parameter, `hasher`.
 */
module Service {
  import opened Errors
  import LruTimeCache
  import Extraction
  import Model

  /** `LittleEndian::write_u64`: the eight bytes of `h`, least significant first. */
  function EncodeLE64(h: bv64): (b: Bytes)
    ensures |b| == 8
  {
    [(h & 0xFF) as bv8, ((h >> 8) & 0xFF) as bv8, ((h >> 16) & 0xFF) as bv8, ((h >> 24) & 0xFF) as bv8,
     ((h >> 32) & 0xFF) as bv8, ((h >> 40) & 0xFF) as bv8, ((h >> 48) & 0xFF) as bv8, ((h >> 56) & 0xFF) as bv8]
  }

  /** `LittleEndian::read_u64`: the number eight bytes spell, least significant byte first. */
  function DecodeLE64(b: Bytes): bv64
    requires |b| == 8
  {
    (b[0] as bv64) | (b[1] as bv64 << 8) | (b[2] as bv64 << 16) | (b[3] as bv64 << 24)
    | (b[4] as bv64 << 32) | (b[5] as bv64 << 40) | (b[6] as bv64 << 48) | (b[7] as bv64 << 56)
  }

  /** Decoding an encoded hash gives the hash back. */
  lemma DecodeEncode(h: bv64)
    ensures DecodeLE64(EncodeLE64(h)) == h
  {
  }

  /** Encoding the number eight bytes spell gives the bytes back. */
  lemma EncodeDecode(b: Bytes)
    requires |b| == 8
    ensures EncodeLE64(DecodeLE64(b)) == b
  {
  }

  /**
   * `hash_email`: the content hash written as eight little-endian bytes;
   * reading them back gives the hash.
   */
  function HashEmail(hasher: Bytes -> bv64, email: Bytes): (key: Bytes)
    ensures |key| == 8
    ensures DecodeLE64(key) == hasher(email)
  {
    DecodeEncode(hasher(email));
    EncodeLE64(hasher(email))
  }

  /** Keys are equal exactly when the 64-bit hashes are. */
  lemma HashKeyInjective(hasher: Bytes -> bv64, e1: Bytes, e2: Bytes)
    ensures HashEmail(hasher, e1) == HashEmail(hasher, e2) <==> hasher(e1) == hasher(e2)
  {
  }

  /** What the service did for one email, and what the caller was told. */
  datatype ServiceRun = ServiceRun(
    extractionStarted: bool,         // `predict` was entered
    modelAsked: Option<Extraction.Features>,
    answer: Result<bool>)

  /**
   * `predict`, for one result of the extractor: features go to the model
   * with the caller's callback; an error goes to the caller unchanged and the
   * model is not asked.
   */
  function Predict(extracted: Result<Extraction.Features>, model: Extraction.Features -> Result<bool>): (r: ServiceRun)
    ensures r.extractionStarted
    ensures extracted.Err? ==> r.modelAsked == None && r.answer == Err(extracted.error)
    ensures extracted.Ok? ==> r.modelAsked == Some(extracted.value) && r.answer == model(extracted.value)
  {
    match extracted
    case Err(e) => ServiceRun(true, None, Err(e))
    case Ok(features) => ServiceRun(true, Some(features), model(features))
  }

  /**
   * `predict_with_cache`, given the cache's answer: a cached prediction is
   * the answer and nothing else runs; no prediction or a failed lookup falls
   * through to `predict` with the same email and callback.
   */
  function PredictWithCache(cached: Result<Option<bool>>, extracted: Result<Extraction.Features>,
                            model: Extraction.Features -> Result<bool>): (r: ServiceRun)
    ensures cached.Ok? && cached.value.Some? ==> r == ServiceRun(false, None, Ok(cached.value.value))
    ensures !(cached.Ok? && cached.value.Some?) ==> r == Predict(extracted, model)
    ensures r.extractionStarted <==> !(cached.Ok? && cached.value.Some?)
  {
    match cached
    case Ok(Some(hit)) => ServiceRun(false, None, Ok(hit))
    case _ => Predict(extracted, model)
  }

  /**
   * One request against the worker's prediction cache: the lookup is the only
   * thing done to the cache, and a live prediction for the same content
   * answers without extraction.
   */
  method ServeRequest(cache: Model.PredictionCache, hasher: Bytes -> bv64, email: Bytes, now: nat,
                      extracted: Result<Extraction.Features>, model: Extraction.Features -> Result<bool>)
    returns (run: ServiceRun)
    requires cache.Valid()
    modifies cache
    ensures cache.Valid()
    ensures var key := Model.CacheKey(HashEmail(hasher, email));
            && cache.cache == LruTimeCache.Get(old(cache.cache), key, now).1
            && (LruTimeCache.Live(old(cache.cache), key, now) ==>
                  run == ServiceRun(false, None, Ok(old(cache.cache).entries[key].value)))
            && (!LruTimeCache.Live(old(cache.cache), key, now) ==> run == Predict(extracted, model))
  {
    var hash := HashEmail(hasher, email);
    var cached := cache.Get(hash, now);
    run := PredictWithCache(cached, extracted, model);
  }

  /** Since nothing stores predictions, a worker's fresh cache never short-circuits. */
  method FirstRequestPredicts(hasher: Bytes -> bv64, email: Bytes, now: nat,
                              extracted: Result<Extraction.Features>, model: Extraction.Features -> Result<bool>)
    returns (run: ServiceRun)
    ensures run == Predict(extracted, model)
    ensures run.extractionStarted
  {
    var cache := new Model.PredictionCache();
    run := ServeRequest(cache, hasher, email, now, extracted, model);
  }

  /**
   * Every result the extractor delivers reaches `predict`'s continuation: an
   * extractor that reports features and then times out makes the service
   * answer twice, first with the model's prediction, then with the timeout.
   */
  lemma SuccessThenDeadlineAnswersTwice(a: Extraction.SentimentFeatures, model: Extraction.Features -> Result<bool>)
    ensures var delivered := Extraction.Replay(Extraction.INITIAL,
                                               [Extraction.AnalysisArrived(a), Extraction.DeadlinePassed]).delivered;
            && |delivered| == 2
            && Predict(delivered[0], model).answer == model(Extraction.Features(a))
            && Predict(delivered[1], model).answer == Err(RecoverableError("FeatureExtractor timed out"))
  {
    Extraction.SuccessThenDeadline(a);
  }
}
