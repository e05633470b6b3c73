/**
 * The driver in src/main.rs: the parser for the training label file, the
 * duplicate-path count over the emails handed to the email reader, and the
 * tally of per-path prediction results that decides when the run is over.
 *
 * A panic of the driver is modelled as `None`. The files and the channel are
 * not modelled: the label file is its text, and the channel is the sequence
 * of `(path, prediction)` pairs in the order they arrive.
 */
module Driver {
  import opened Errors
  import State
  import EmailReader

  type Path = string

  // ---------------------------------------------------------------------
  // `str::split` on a one-character separator

  /** The pieces between the separators, empty ones included; never no piece. */
  function Split(s: string, sep: char): (pieces: seq<string>)
    ensures |pieces| >= 1
    ensures forall i :: 0 <= i < |pieces| ==> sep !in pieces[i]
    decreases |s|
  {
    if s == [] then [""]
    else
      var rest := Split(s[1..], sep);
      if s[0] == sep then [""] + rest
      else
        assert sep !in [s[0]] + rest[0];
        [[s[0]] + rest[0]] + rest[1..]
  }

  /** The pieces with the separator between each two. */
  function Join(pieces: seq<string>, sep: char): string
    requires |pieces| >= 1
    decreases |pieces|
  {
    if |pieces| == 1 then pieces[0] else pieces[0] + [sep] + Join(pieces[1..], sep)
  }

  /** Splitting loses nothing: joining the pieces gives the text back. */
  lemma {:induction false} JoinSplit(s: string, sep: char)
    ensures Join(Split(s, sep), sep) == s
    decreases |s|
  {
    if s != [] {
      var rest := Split(s[1..], sep);
      JoinSplit(s[1..], sep);
      if s[0] == sep {
        assert ([""] + rest)[1..] == rest;
      } else {
        var pieces := [[s[0]] + rest[0]] + rest[1..];
        if |rest| == 1 {
          assert Join(pieces, sep) == [s[0]] + rest[0];
        } else {
          assert pieces[1..] == rest[1..];
          assert Join(rest, sep) == rest[0] + [sep] + Join(rest[1..], sep);
        }
        assert s == [s[0]] + s[1..];
      }
    }
  }

  lemma {:induction false} SplitNoSeparator(s: string, sep: char)
    requires sep !in s
    ensures Split(s, sep) == [s]
    decreases |s|
  {
    if s != [] {
      SplitNoSeparator(s[1..], sep);
      assert s == [s[0]] + s[1..];
    }
  }

  lemma {:induction false} SplitAtSeparator(a: string, b: string, sep: char)
    requires sep !in a
    ensures Split(a + [sep] + b, sep) == [a] + Split(b, sep)
    decreases |a|
  {
    var s := a + [sep] + b;
    if a == [] {
      assert s[0] == sep && s[1..] == b;
    } else {
      assert s[1..] == a[1..] + [sep] + b;
      SplitAtSeparator(a[1..], b, sep);
      assert s[0] == a[0] && a == [a[0]] + a[1..];
    }
  }

  /** Pieces free of the separator are found again by splitting their join. */
  lemma {:induction false} SplitJoin(pieces: seq<string>, sep: char)
    requires |pieces| >= 1
    requires forall i :: 0 <= i < |pieces| ==> sep !in pieces[i]
    ensures Split(Join(pieces, sep), sep) == pieces
    decreases |pieces|
  {
    if |pieces| == 1 {
      SplitNoSeparator(pieces[0], sep);
    } else {
      SplitJoin(pieces[1..], sep);
      SplitAtSeparator(pieces[0], Join(pieces[1..], sep), sep);
      assert pieces == [pieces[0]] + pieces[1..];
    }
  }

  // ---------------------------------------------------------------------
  // `truth_values`: the label file

  /** How `truth_values` treats one line. */
  datatype LineOutcome =
    | Blank                            // skipped
    | Labelled(name: string, spam: bool)
    | BadScore(score: string)          // panics with "bad parse"
    | MissingName                      // panics on the missing second token

  /**
   * One line: its first space-separated token is "0" (spam) or "1" (not
   * spam), its second the email's file name.
   */
  function ParseLabelLine(line: string): (r: LineOutcome)
    ensures r.Blank? <==> line == ""
    ensures r.Labelled? ==> ' ' !in r.name
  {
    if line == [] then Blank
    else
      var tokens := Split(line, ' ');
      var score := tokens[0];
      if score != "0" && score != "1" then BadScore(score)
      else if |tokens| < 2 then MissingName
      else Labelled(tokens[1], score == "0")
  }

  /** A line of the label file as written: the score, a space, the file name. */
  function FormatLabel(name: string, spam: bool): string
  {
    (if spam then "0" else "1") + " " + name
  }

  /** A label line written for a name without spaces reads back as that name and label. */
  lemma ParseFormat(name: string, spam: bool)
    requires ' ' !in name
    ensures ParseLabelLine(FormatLabel(name, spam)) == Labelled(name, spam)
  {
    var score := if spam then "0" else "1";
    assert FormatLabel(name, spam) == Join([score, name], ' ');
    SplitJoin([score, name], ' ');
  }

  /**
   * Every line read as a label starts with that label written out, and
   * whatever follows it starts with a space.
   */
  lemma ParsedLineStartsWithLabel(line: string)
    requires ParseLabelLine(line).Labelled?
    ensures var written := FormatLabel(ParseLabelLine(line).name, ParseLabelLine(line).spam);
            && |written| <= |line|
            && line[..|written|] == written
            && (|written| < |line| ==> line[|written|] == ' ')
  {
    var tokens := Split(line, ' ');
    JoinSplit(line, ' ');
    var written := FormatLabel(tokens[1], tokens[0] == "0");
    assert written == tokens[0] + " " + tokens[1];
    if |tokens| == 2 {
      assert line == written;
    } else {
      assert Join(tokens[1..], ' ') == tokens[1] + " " + Join(tokens[2..], ' ');
      assert line == written + " " + Join(tokens[2..], ' ');
    }
  }

  /** The label map after the lines, in order; `None` when a line panics. */
  function TruthMap(lines: seq<string>): Option<map<string, bool>>
  {
    if lines == [] then Some(map[])
    else
      match TruthMap(lines[..|lines| - 1])
      case None => None
      case Some(m) =>
        match ParseLabelLine(lines[|lines| - 1])
        case Blank => Some(m)
        case Labelled(name, spam) => Some(m[name := spam])
        case _ => None
  }

  /** The label of the last line that names `name`, if any. */
  function LastLabel(lines: seq<string>, name: string): Option<bool>
  {
    if lines == [] then None
    else
      var last := ParseLabelLine(lines[|lines| - 1]);
      if last.Labelled? && last.name == name then Some(last.spam)
      else LastLabel(lines[..|lines| - 1], name)
  }

  /** A name is in the map iff some line labels it, and the last such line wins. */
  lemma {:induction false} LastLabelWins(lines: seq<string>, name: string)
    requires TruthMap(lines).Some?
    ensures name in TruthMap(lines).value <==> LastLabel(lines, name).Some?
    ensures name in TruthMap(lines).value ==> TruthMap(lines).value[name] == LastLabel(lines, name).value
  {
    if lines != [] {
      LastLabelWins(lines[..|lines| - 1], name);
    }
  }

  /** A single bad line anywhere makes the whole parse panic. */
  lemma {:induction false} BadLinePanics(lines: seq<string>, i: nat)
    requires i < |lines|
    requires ParseLabelLine(lines[i]).BadScore? || ParseLabelLine(lines[i]).MissingName?
    ensures TruthMap(lines) == None
  {
    if i < |lines| - 1 {
      assert lines[..|lines| - 1][i] == lines[i];
      BadLinePanics(lines[..|lines| - 1], i);
    }
  }

  /** `truth_values`: split the label file on "\n" and read every line into the map. */
  method TruthValues(content: string) returns (r: Option<map<string, bool>>)
    ensures r == TruthMap(Split(content, '\n'))
  {
    var lines := Split(content, '\n');
    var m: map<string, bool> := map[];
    var i := 0;
    while i < |lines|
      invariant 0 <= i <= |lines|
      invariant TruthMap(lines[..i]) == Some(m)
    {
      assert lines[..i + 1][..i] == lines[..i];
      var line := lines[i];
      assert lines[..i + 1][i] == line;
      match ParseLabelLine(line) {
        case Blank =>
        case Labelled(name, spam) =>
          m := m[name := spam];
        case BadScore(_) =>
          BadLinePanics(lines, i);
          return None;
        case MissingName =>
          BadLinePanics(lines, i);
          return None;
      }
      i := i + 1;
    }
    assert lines[..i] == lines;
    r := Some(m);
  }

  // ---------------------------------------------------------------------
  // `predict`: duplicate paths and the result tally

  /** `path_dups`: how often each path was handed out; the paths counted twice or more. */
  method CountPaths(paths: seq<Path>) returns (pathCount: nat, dups: map<Path, nat>, duplicated: set<Path>)
    ensures pathCount == |paths|
    ensures forall p :: p in dups <==> p in paths
    ensures forall p :: p in dups ==> dups[p] == multiset(paths)[p]
    ensures forall p :: p in duplicated <==> multiset(paths)[p] > 1
  {
    pathCount := 0;
    dups := map[];
    var i := 0;
    while i < |paths|
      invariant 0 <= i <= |paths|
      invariant pathCount == i
      invariant forall p :: p in dups <==> p in paths[..i]
      invariant forall p :: p in dups ==> dups[p] == multiset(paths[..i])[p]
    {
      assert paths[..i + 1] == paths[..i] + [paths[i]];
      pathCount := pathCount + 1;
      var p := paths[i];
      dups := dups[p := if p in dups then dups[p] + 1 else 1];
      i := i + 1;
    }
    assert paths[..i] == paths;
    duplicated := {};
    var pending := dups.Keys;
    while pending != {}
      invariant pending <= dups.Keys
      invariant forall p :: p in duplicated <==> p in dups.Keys - pending && dups[p] > 1
      decreases pending
    {
      var p :| p in pending;
      if dups[p] > 1 {
        duplicated := duplicated + {p};
      }
      pending := pending - {p};
    }
  }

  /** The three tallies a prediction result can go into. */
  datatype Bucket = OkBucket | AbortedBucket | RetryBucket

  /** `Ok` is a success, an unrecoverable error an abort, every other error a retry. */
  function BucketOf(prediction: Result<bool>): (b: Bucket)
    ensures b == OkBucket <==> prediction.Ok?
    ensures b == AbortedBucket <==> prediction.Err? && prediction.error.UnrecoverableError?
    ensures b == RetryBucket <==> prediction.Err? && !prediction.error.UnrecoverableError?
  {
    match prediction
    case Ok(_) => OkBucket
    case Err(e) =>
      match e
      case RecoverableError(_) => RetryBucket
      case UnrecoverableError(_) => AbortedBucket
      case Msg(_) => RetryBucket
      case _ => RetryBucket
  }

  /** The driver's tally and the email reader's reaction agree on every result. */
  lemma BucketMatchesCompletion(h: State.CompletionHandler, prediction: Result<bool>)
    ensures BucketOf(prediction) == OkBucket <==> EmailReader.WorkOutcome(h, prediction) == State.Success
    ensures BucketOf(prediction) == AbortedBucket <==> EmailReader.WorkOutcome(h, prediction) == State.Abort
    ensures BucketOf(prediction) == RetryBucket <==> EmailReader.WorkOutcome(h, prediction).Retry?
  {
  }

  /** The per-path count of the results that went into `bucket`. */
  function Counts(results: seq<(Path, Result<bool>)>, bucket: Bucket): map<Path, nat>
  {
    if results == [] then map[]
    else
      var m := Counts(results[..|results| - 1], bucket);
      var (path, prediction) := results[|results| - 1];
      if BucketOf(prediction) == bucket then Bump(m, path) else m
  }

  /** One more result for `path`. */
  function Bump(m: map<Path, nat>, path: Path): map<Path, nat>
  {
    m[path := if path in m then m[path] + 1 else 1]
  }

  /** Taking one more result changes only the count of its own bucket. */
  lemma CountsStep(results: seq<(Path, Result<bool>)>, i: nat, bucket: Bucket)
    requires i < |results|
    ensures Counts(results[..i + 1], bucket)
            == if BucketOf(results[i].1) == bucket then Bump(Counts(results[..i], bucket), results[i].0)
               else Counts(results[..i], bucket)
  {
    assert results[..i + 1][..i] == results[..i];
  }

  /** The paths of the results that went into `bucket`, in order. */
  function PathsIn(results: seq<(Path, Result<bool>)>, bucket: Bucket): (paths: seq<Path>)
    ensures |paths| <= |results|
  {
    if results == [] then []
    else
      var rest := PathsIn(results[..|results| - 1], bucket);
      var (path, prediction) := results[|results| - 1];
      if BucketOf(prediction) == bucket then rest + [path] else rest
  }

  /** A path's count in a bucket is the number of its results in that bucket. */
  lemma {:induction false} CountsAreOccurrences(results: seq<(Path, Result<bool>)>, bucket: Bucket, p: Path)
    ensures p in Counts(results, bucket) <==> p in PathsIn(results, bucket)
    ensures p in Counts(results, bucket) ==> Counts(results, bucket)[p] == multiset(PathsIn(results, bucket))[p]
  {
    if results != [] {
      CountsAreOccurrences(results[..|results| - 1], bucket, p);
    }
  }

  /** Every result is counted in exactly one bucket. */
  lemma {:induction false} EveryResultCountedOnce(results: seq<(Path, Result<bool>)>)
    ensures |PathsIn(results, OkBucket)| + |PathsIn(results, AbortedBucket)| + |PathsIn(results, RetryBucket)| == |results|
  {
    if results != [] {
      EveryResultCountedOnce(results[..|results| - 1]);
    }
  }

  /** The stopping test: as many paths with a success or an abort as paths handed out. */
  predicate Done(results: seq<(Path, Result<bool>)>, pathCount: nat)
  {
    |Counts(results, OkBucket)| + |Counts(results, AbortedBucket)| == pathCount
  }

  /**
   * The result loop: tally each result as it arrives, and stop right after
   * the first result that makes the stopping test hold (it is not checked
   * before the first result). `consumed` is how many results were taken.
   */
  method Tally(results: seq<(Path, Result<bool>)>, pathCount: nat)
    returns (okCount: map<Path, nat>, aborted: map<Path, nat>, retryCount: map<Path, nat>, consumed: nat)
    ensures consumed <= |results|
    ensures results != [] ==> consumed >= 1
    ensures okCount == Counts(results[..consumed], OkBucket)
    ensures aborted == Counts(results[..consumed], AbortedBucket)
    ensures retryCount == Counts(results[..consumed], RetryBucket)
    ensures consumed < |results| ==> Done(results[..consumed], pathCount)
    ensures forall j :: 1 <= j < consumed ==> !Done(results[..j], pathCount)
  {
    okCount, aborted, retryCount := map[], map[], map[];
    consumed := 0;
    while consumed < |results|
      invariant 0 <= consumed <= |results|
      invariant okCount == Counts(results[..consumed], OkBucket)
      invariant aborted == Counts(results[..consumed], AbortedBucket)
      invariant retryCount == Counts(results[..consumed], RetryBucket)
      invariant forall j :: 1 <= j <= consumed ==> !Done(results[..j], pathCount)
    {
      var (path, prediction) := results[consumed];
      CountsStep(results, consumed, OkBucket);
      CountsStep(results, consumed, AbortedBucket);
      CountsStep(results, consumed, RetryBucket);
      match BucketOf(prediction) {
        case OkBucket =>
          okCount := Bump(okCount, path);
        case AbortedBucket =>
          aborted := Bump(aborted, path);
        case RetryBucket =>
          retryCount := Bump(retryCount, path);
      }
      consumed := consumed + 1;
      if |okCount| + |aborted| == pathCount {
        return;
      }
    }
    assert results[..consumed] == results;
  }
}
