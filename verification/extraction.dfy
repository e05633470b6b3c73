/**
 * Feature extraction (src/extraction.rs). For every email the manager starts a
 * fresh `FeatureExtractor` with a 50 ms inactivity deadline. The extractor
 * asks the mail parser for the parsed email, hands its body to the sentiment
 * analyser, and, when the analysis comes back as a message to itself, builds
 * the `Features` and reports them. A `timed_out` flag guards the reporting:
 * the timeout reports a recoverable error once, and an analysis that arrives
 * after it is no longer reported.
 *
 * The extractor's reports all go to the one result callback `res`; the model
 * records them, in order, in `delivered`.
 */
module Extraction {
  import opened Errors

  /** The analyser's three scores, carried through unchanged. */
  datatype SentimentFeatures = SentimentFeatures(positive: real, negative: real, score: real)

  /** `Features`: the sentiment analysis is its only field. */
  datatype Features = Features(sentimentAnalysis: SentimentFeatures)

  /** A parsed email; its body may fail to decode. */
  datatype ParsedMail = ParsedMail(body: Option<string>)

  /** What the manager's timeout callback reports. */
  const TIMED_OUT: Result<Features> := Err(RecoverableError("FeatureExtractor timed out"))

  /** `get_body().unwrap_or("")`: the text given to the analyser. */
  function BodyText(mail: ParsedMail): string
  {
    match mail.body
    case Some(text) => text
    case None => ""
  }

  /** How `extract` ends: an error reported straight to `res`, or a `set_sentiment` message to itself. */
  datatype Continuation = Fail(error: ErrorKind) | SetSentimentMsg(analysis: SentimentFeatures)

  /** One run of `extract`: the text the analyser was asked about (None: not asked) and how it ended. */
  datatype ExtractRun = ExtractRun(analysed: Option<string>, next: Continuation)

  /**
   * `extract`, given the parser's answer and the analyser as a function. A
   * parse error is passed on unchanged and the analyser is never asked; the
   * analyser sees the body, or "" when there is none; its error is passed on
   * unchanged; its analysis is sent to the extractor itself.
   */
  function RunExtract(parsed: Result<ParsedMail>, analyse: string -> Result<SentimentFeatures>): (r: ExtractRun)
    ensures parsed.Err? ==> r == ExtractRun(None, Fail(parsed.error))
    ensures parsed.Ok? ==>
              var text := BodyText(parsed.value);
              && r.analysed == Some(text)
              && (parsed.value.body.None? ==> text == "")
              && (analyse(text).Err? ==> r.next == Fail(analyse(text).error))
              && (analyse(text).Ok? ==> r.next == SetSentimentMsg(analyse(text).value))
  {
    match parsed
    case Err(e) => ExtractRun(None, Fail(e))
    case Ok(mail) =>
      var text := BodyText(mail);
      match analyse(text)
      case Err(e) => ExtractRun(Some(text), Fail(e))
      case Ok(a) => ExtractRun(Some(text), SetSentimentMsg(a))
  }

  /** Something that happens to an extractor. */
  datatype Event =
    | AnalysisArrived(analysis: SentimentFeatures) // its `set_sentiment` message is handled
    | Failed(error: ErrorKind)                     // an `extract` continuation reports an error
    | DeadlinePassed                                // the actor calls `on_timeout`

  /**
   * What can be observed of an extractor: its builder's one field, the
   * `timed_out` flag, everything reported to `res`, and how often the
   * timeout callback ran.
   */
  datatype ExtractorState = ExtractorState(
    sentiment: Option<SentimentFeatures>,
    timedOut: bool,
    delivered: seq<Result<Features>>,
    timeoutCallbacks: nat)

  /** `FeatureExtractor::new`: an empty builder, not timed out, nothing reported. */
  const INITIAL: ExtractorState := ExtractorState(None, false, [], 0)

  /** The effect of one event. */
  function Step(s: ExtractorState, e: Event): ExtractorState
  {
    match e
    case AnalysisArrived(a) =>
      // the builder is complete as soon as its one field is set
      var recorded := s.(sentiment := Some(a));
      if s.timedOut then recorded else recorded.(delivered := s.delivered + [Ok(Features(a))])
    case Failed(err) =>
      s.(delivered := s.delivered + [Err(err)])
    case DeadlinePassed =>
      if s.timedOut then s
      else s.(timedOut := true, timeoutCallbacks := s.timeoutCallbacks + 1, delivered := s.delivered + [TIMED_OUT])
  }

  /** The state after the events, in order. */
  function Replay(s: ExtractorState, events: seq<Event>): ExtractorState
    decreases |events|
  {
    if events == [] then s else Replay(Step(s, events[0]), events[1..])
  }

  lemma {:induction false} ReplayAppend(s: ExtractorState, xs: seq<Event>, ys: seq<Event>)
    ensures Replay(s, xs + ys) == Replay(Replay(s, xs), ys)
    decreases |xs|
  {
    if xs != [] {
      assert (xs + ys)[1..] == xs[1..] + ys;
      ReplayAppend(Step(s, xs[0]), xs[1..], ys);
    } else {
      assert xs + ys == ys;
    }
  }

  /** Keeps the flag and the callback count in step: the callback ran once iff the flag is set. */
  ghost predicate Guarded(s: ExtractorState)
  {
    s.timeoutCallbacks == if s.timedOut then 1 else 0
  }

  /**
   * The timeout callback runs at most once: after any events the extractor
   * has timed out iff a deadline passed, and the callback ran exactly then.
   */
  lemma {:induction false} TimeoutFiresOnce(s: ExtractorState, events: seq<Event>)
    requires Guarded(s)
    ensures Guarded(Replay(s, events))
    ensures Replay(s, events).timedOut <==> s.timedOut || DeadlinePassed in events
    decreases |events|
  {
    if events != [] {
      TimeoutFiresOnce(Step(s, events[0]), events[1..]);
      assert events == [events[0]] + events[1..];
    }
  }

  lemma TimeoutFiresOnceFromStart(events: seq<Event>)
    ensures Replay(INITIAL, events).timeoutCallbacks <= 1
    ensures Replay(INITIAL, events).timeoutCallbacks == 1 <==> DeadlinePassed in events
  {
    TimeoutFiresOnce(INITIAL, events);
  }

  /**
   * After a timeout nothing succeeds any more: reports already made stay,
   * every later report is an error, and the callback does not run again.
   */
  lemma {:induction false} NoSuccessAfterTimeout(s: ExtractorState, events: seq<Event>)
    requires s.timedOut
    ensures var r := Replay(s, events);
            && r.timedOut
            && r.timeoutCallbacks == s.timeoutCallbacks
            && |s.delivered| <= |r.delivered|
            && r.delivered[..|s.delivered|] == s.delivered
            && forall i :: |s.delivered| <= i < |r.delivered| ==> r.delivered[i].Err?
    decreases |events|
  {
    if events != [] {
      var s' := Step(s, events[0]);
      assert s'.timedOut && s'.timeoutCallbacks == s.timeoutCallbacks;
      assert |s.delivered| <= |s'.delivered| && s'.delivered[..|s.delivered|] == s.delivered;
      assert forall i :: |s.delivered| <= i < |s'.delivered| ==> s'.delivered[i].Err?;
      NoSuccessAfterTimeout(s', events[1..]);
      var r := Replay(s', events[1..]);
      assert r.delivered[..|s'.delivered|] == s'.delivered;
      assert r.delivered[..|s.delivered|] == s'.delivered[..|s.delivered|];
    }
  }

  /** The same, for an extractor that met its deadline somewhere in `before`. */
  lemma LateAnalysisIsDropped(before: seq<Event>, after: seq<Event>)
    requires DeadlinePassed in before
    ensures var early := Replay(INITIAL, before).delivered;
            var all := Replay(INITIAL, before + after).delivered;
            && |early| <= |all|
            && all[..|early|] == early
            && forall i :: |early| <= i < |all| ==> all[i].Err?
  {
    TimeoutFiresOnce(INITIAL, before);
    ReplayAppend(INITIAL, before, after);
    NoSuccessAfterTimeout(Replay(INITIAL, before), after);
  }

  /**
   * Before its deadline the extractor reports each analysis that reaches it
   * as `Ok` features carrying exactly that analysis.
   */
  lemma AnalysisBeforeDeadline(s: ExtractorState, a: SentimentFeatures)
    requires !s.timedOut
    ensures Step(s, AnalysisArrived(a)).delivered == s.delivered + [Ok(Features(a))]
    ensures Step(s, AnalysisArrived(a)).sentiment == Some(a)
  {
  }

  /**
   * The flag is only set by the timeout, so a deadline that passes after a
   * successful report still reports the timeout error to the same callback.
   */
  lemma SuccessThenDeadline(a: SentimentFeatures)
    ensures Replay(INITIAL, [AnalysisArrived(a), DeadlinePassed]).delivered == [Ok(Features(a)), TIMED_OUT]
  {
    var events := [AnalysisArrived(a), DeadlinePassed];
    var reported := Step(INITIAL, AnalysisArrived(a));
    assert reported.delivered == [Ok(Features(a))];
    assert events[1..] == [DeadlinePassed];
    assert Replay(INITIAL, events) == Replay(reported, [DeadlinePassed]);
    assert [DeadlinePassed][1..] == [];
    assert Replay(reported, [DeadlinePassed]) == Step(reported, DeadlinePassed);
  }

  /** The extractor actor's state; its methods are the `Step`s. */
  class FeatureExtractor {
    /** The `FeaturesBuilder`'s only field. */
    var sentiment: Option<SentimentFeatures>
    var timedOut: bool
    /** Everything passed to `res`, oldest first. */
    var delivered: seq<Result<Features>>
    /** How often the manager's timeout callback ran. */
    var timeoutCallbacks: nat

    function State(): ExtractorState
      reads this
    {
      ExtractorState(sentiment, timedOut, delivered, timeoutCallbacks)
    }

    constructor ()
      ensures State() == INITIAL
    {
      sentiment := None;
      timedOut := false;
      delivered := [];
      timeoutCallbacks := 0;
    }

    /** `features.build()`: features exactly when every field is set. */
    function Build(): (r: Option<Features>)
      reads this
      ensures r.Some? <==> sentiment.Some?
      ensures r.Some? ==> r.value.sentimentAnalysis == sentiment.value
    {
      match sentiment
      case Some(a) => Some(Features(a))
      case None => None
    }

    /** `is_complete`: the build succeeds, which is when the sentiment is set. */
    predicate IsComplete()
      reads this
      ensures IsComplete() <==> sentiment.Some?
    {
      Build().Some?
    }

    /** `extract`: errors are reported at once; an analysis comes back as a message (returned). */
    method Extract(parsed: Result<ParsedMail>, analyse: string -> Result<SentimentFeatures>)
      returns (message: Option<SentimentFeatures>)
      modifies this`delivered
      ensures var run := RunExtract(parsed, analyse);
              && (run.next.Fail? ==> message == None && State() == Step(old(State()), Failed(run.next.error)))
              && (run.next.SetSentimentMsg? ==> message == Some(run.next.analysis) && State() == old(State()))
    {
      var run := RunExtract(parsed, analyse);
      match run.next
      case Fail(e) =>
        delivered := delivered + [Err(e)];
        message := None;
      case SetSentimentMsg(a) =>
        message := Some(a);
    }

    /** `set_sentiment`: record the analysis and, unless timed out, report the built features. */
    method SetSentiment(analysis: SentimentFeatures)
      modifies this`sentiment, this`delivered
      ensures State() == Step(old(State()), AnalysisArrived(analysis))
    {
      sentiment := Some(analysis);
      if IsComplete() && !timedOut {
        delivered := delivered + [Ok(Build().value)];
      }
    }

    /** `on_timeout`: the first call sets the flag and runs the timeout callback; later calls do nothing. */
    method OnTimeout()
      modifies this`timedOut, this`timeoutCallbacks, this`delivered
      ensures State() == Step(old(State()), DeadlinePassed)
    {
      if !timedOut {
        timedOut := true;
        timeoutCallbacks := timeoutCallbacks + 1;
        delivered := delivered + [TIMED_OUT];
      }
    }
  }
}
