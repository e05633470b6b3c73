/**
 * The accuracy check of model_service/service/check_accuracy.py: it reads
 * the training labels and the recorded predictions into two dictionaries
 * keyed by file name and counts, over the labelled files, the predictions
 * that agree with the label, those that disagree, and the files with no
 * prediction at all.
 *
 * A file is its text after Python's newline translation, iterated line by
 * line as Python does: every line keeps its "\n" terminator, and only the
 * last line may lack one. Slicing and `strip()` follow Python's rules.
 */
module Accuracy {

  // ---------------------------------------------------------------------
  // Python's text-file iteration, slicing and `strip()`

  /** The lines `for line in f` yields: each ends in "\n", except perhaps the last. */
  function PyLines(text: string): (lines: seq<string>)
    ensures forall i :: 0 <= i < |lines| ==> lines[i] != ""
    decreases |text|
  {
    if text == [] then []
    else
      var rest := PyLines(text[1..]);
      if text[0] == '\n' || rest == [] then [[text[0]]] + rest
      else [[text[0]] + rest[0]] + rest[1..]
  }

  function Concat(lines: seq<string>): string
  {
    if lines == [] then [] else lines[0] + Concat(lines[1..])
  }

  /** Iteration loses nothing: the lines spell the text. */
  lemma {:induction false} PyLinesSpellText(text: string)
    ensures Concat(PyLines(text)) == text
    decreases |text|
  {
    if text != [] {
      var rest := PyLines(text[1..]);
      PyLinesSpellText(text[1..]);
      var lines := PyLines(text);
      if text[0] == '\n' || rest == [] {
        assert lines[1..] == rest;
      } else {
        assert lines[1..] == rest[1..];
        assert Concat(rest) == rest[0] + Concat(rest[1..]);
      }
      assert text == [text[0]] + text[1..];
    }
  }

  /** Iteration splits only after a "\n": every line but the last ends in one, and no line holds another. */
  lemma {:induction false} PyLinesBreakAtNewlines(text: string)
    ensures forall i :: 0 <= i < |PyLines(text)| - 1 ==> PyLines(text)[i][|PyLines(text)[i]| - 1] == '\n'
    ensures forall i, j :: 0 <= i < |PyLines(text)| && 0 <= j < |PyLines(text)[i]| - 1 ==> PyLines(text)[i][j] != '\n'
    decreases |text|
  {
    if text != [] {
      var rest := PyLines(text[1..]);
      PyLinesBreakAtNewlines(text[1..]);
      var lines := PyLines(text);
      if text[0] == '\n' || rest == [] {
        assert lines[1..] == rest;
      } else {
        assert forall i :: 1 <= i < |lines| ==> lines[i] == rest[i];
        forall j | 0 <= j < |lines[0]| - 1
          ensures lines[0][j] != '\n'
        {
          if j > 0 {
            assert lines[0][j] == rest[0][j - 1];
          }
        }
      }
    }
  }

  /** A text that ends in "\n" has every line ending in "\n". */
  lemma {:induction false} TerminatedTextTerminatedLines(text: string)
    requires text != [] && text[|text| - 1] == '\n'
    ensures forall i :: 0 <= i < |PyLines(text)| ==> PyLines(text)[i][|PyLines(text)[i]| - 1] == '\n'
    decreases |text|
  {
    var rest := PyLines(text[1..]);
    var lines := PyLines(text);
    if |text| == 1 {
      assert lines == ["\n"];
    } else {
      TerminatedTextTerminatedLines(text[1..]);
      assert rest != [] by {
        PyLinesSpellText(text[1..]);
      }
      if text[0] != '\n' {
        assert lines[0] == [text[0]] + rest[0];
        assert forall i :: 1 <= i < |lines| ==> lines[i] == rest[i];
      } else {
        assert forall i :: 1 <= i < |lines| ==> lines[i] == rest[i - 1];
      }
    }
  }

  /** A Python slice bound: negative counts from the end, and it is clamped to the string. */
  function PyIndex(i: int, len: nat): (k: nat)
    ensures k <= len
  {
    if i < 0 then (if len + i < 0 then 0 else len + i)
    else if i > len then len
    else i
  }

  /** `s[lo:hi]`; `s[lo:]` is `PySlice(s, lo, |s|)`. */
  function PySlice(s: string, lo: int, hi: int): (r: string)
    ensures |r| == if PyIndex(lo, |s|) < PyIndex(hi, |s|) then PyIndex(hi, |s|) - PyIndex(lo, |s|) else 0
    ensures forall k :: 0 <= k < |r| ==> r[k] == s[PyIndex(lo, |s|) + k]
  {
    var a := PyIndex(lo, |s|);
    var b := PyIndex(hi, |s|);
    if a < b then s[a..b] else []
  }

  /** What `str.isspace` accepts. */
  predicate IsPySpace(c: char)
  {
    || c in {' ', '\t', '\n', '\r', '\U{000B}', '\U{000C}', '\U{001C}', '\U{001D}', '\U{001E}', '\U{001F}'}
    || c in {'\U{0085}', '\U{00A0}', '\U{1680}', '\U{2028}', '\U{2029}', '\U{202F}', '\U{205F}', '\U{3000}'}
    || '\U{2000}' <= c <= '\U{200A}'
  }

  /** The string without its leading whitespace. */
  function LStrip(s: string): (r: string)
    ensures |r| <= |s| && r == s[|s| - |r|..]
    ensures r == [] || !IsPySpace(r[0])
    ensures forall i :: 0 <= i < |s| - |r| ==> IsPySpace(s[i])
    decreases |s|
  {
    if s != [] && IsPySpace(s[0]) then LStrip(s[1..]) else s
  }

  /** The string without its trailing whitespace. */
  function RStrip(s: string): (r: string)
    ensures |r| <= |s| && r == s[..|r|]
    ensures r == [] || !IsPySpace(r[|r| - 1])
    ensures forall i :: |r| <= i < |s| ==> IsPySpace(s[i])
    decreases |s|
  {
    if s != [] && IsPySpace(s[|s| - 1]) then RStrip(s[..|s| - 1]) else s
  }

  /** `str.strip()`: a middle part of the string, with only whitespace cut on either side. */
  function Strip(s: string): (r: string)
    ensures |r| <= |s|
    ensures r == [] || (!IsPySpace(r[0]) && !IsPySpace(r[|r| - 1]))
    ensures exists a :: WhitespaceAround(s, a, r)
  {
    var left := LStrip(s);
    var r := RStrip(left);
    StripInside(s, left, r);
    r
  }

  /**
   * A suffix `left` of `s` after leading whitespace, cut to a prefix `r` before trailing
   * whitespace, is a middle part of `s` with whitespace around it.
   */
  lemma StripInside(s: string, left: string, r: string)
    requires |left| <= |s| && left == s[|s| - |left|..]
    requires forall i :: 0 <= i < |s| - |left| ==> IsPySpace(s[i])
    requires left == [] || !IsPySpace(left[0])
    requires |r| <= |left| && r == left[..|r|]
    requires forall i :: |r| <= i < |left| ==> IsPySpace(left[i])
    ensures r == [] || !IsPySpace(r[0])
    ensures WhitespaceAround(s, |s| - |left|, r)
  {
    var a := |s| - |left|;
    assert r != [] ==> r[0] == left[0];
    assert r == s[a..a + |r|];
    forall i | 0 <= i < |s| && (i < a || a + |r| <= i)
      ensures IsPySpace(s[i])
    {
      if a + |r| <= i {
        assert s[i] == left[i - a];
      }
    }
  }

  /** `s` is `r`, found at offset `a`, with only whitespace before and after it. */
  predicate WhitespaceAround(s: string, a: int, r: string)
  {
    && 0 <= a <= |s| - |r|
    && r == s[a..a + |r|]
    && forall i :: 0 <= i < |s| && (i < a || a + |r| <= i) ==> IsPySpace(s[i])
  }

  // ---------------------------------------------------------------------
  // Dictionaries filled line by line

  /** A dictionary filled with `(key, value)` pairs in order: a later pair for a key overwrites. */
  function Fill(entries: seq<(string, bool)>): map<string, bool>
  {
    if entries == [] then map[]
    else
      var last := entries[|entries| - 1];
      Fill(entries[..|entries| - 1])[last.0 := last.1]
  }

  lemma FillStep(entries: seq<(string, bool)>, e: (string, bool))
    ensures Fill(entries + [e]) == Fill(entries)[e.0 := e.1]
  {
    assert (entries + [e])[..|entries|] == entries;
  }

  /** A key's value is the one of the last pair for it. */
  lemma {:induction false} FillLastWins(entries: seq<(string, bool)>, i: nat)
    requires i < |entries|
    requires forall k :: i < k < |entries| ==> entries[k].0 != entries[i].0
    ensures entries[i].0 in Fill(entries) && Fill(entries)[entries[i].0] == entries[i].1
  {
    if i < |entries| - 1 {
      var prefix := entries[..|entries| - 1];
      assert prefix[i] == entries[i];
      FillLastWins(prefix, i);
    }
  }

  /** Every key present comes from some pair, and carries that pair's value. */
  lemma {:induction false} FillFromPairs(entries: seq<(string, bool)>, key: string)
    requires key in Fill(entries)
    ensures exists k :: 0 <= k < |entries| && entries[k] == (key, Fill(entries)[key])
  {
    var last := entries[|entries| - 1];
    var prefix := entries[..|entries| - 1];
    if key != last.0 {
      FillFromPairs(prefix, key);
      var k :| 0 <= k < |prefix| && prefix[k] == (key, Fill(prefix)[key]);
      assert entries[k] == prefix[k];
    } else {
      assert entries[|entries| - 1] == (key, Fill(entries)[key]);
    }
  }

  /** The pairs `parse` gives for the lines, one per line, in order. */
  function Parsed(lines: seq<string>, parse: string -> (string, bool)): (entries: seq<(string, bool)>)
    ensures |entries| == |lines|
    ensures forall k {:trigger entries[k]} :: 0 <= k < |lines| ==> entries[k] == parse(lines[k])
  {
    if lines == [] then []
    else Parsed(lines[..|lines| - 1], parse) + [parse(lines[|lines| - 1])]
  }

  /** The dictionary after one more line is the one before with that line's pair set. */
  lemma ParsedFillStep(lines: seq<string>, i: nat, parse: string -> (string, bool))
    requires i < |lines|
    ensures var entry := parse(lines[i]);
            Fill(Parsed(lines[..i + 1], parse)) == Fill(Parsed(lines[..i], parse))[entry.0 := entry.1]
  {
    assert lines[..i + 1][..i] == lines[..i];
    FillStep(Parsed(lines[..i], parse), parse(lines[i]));
  }

  // ---------------------------------------------------------------------
  // `load_truth`

  /**
   * One label line: "1" first means not spam, anything else spam; the name is
   * `line[1:-1].strip()`. (Lines are never empty, so `line[:1]` is `line[0]`.)
   */
  function TruthEntry(line: string): (entry: (string, bool))
    ensures line != [] ==> (entry.1 <==> line[0] != '1')
  {
    (Strip(PySlice(line, 1, -1)), PySlice(line, 0, 1) != "1")
  }

  /** The label dictionary after the lines. */
  function TruthDict(lines: seq<string>): map<string, bool>
  {
    Fill(Parsed(lines, TruthEntry))
  }

  /** `load_truth` over the label file's text. */
  method LoadTruth(text: string) returns (truthMap: map<string, bool>)
    ensures truthMap == TruthDict(PyLines(text))
  {
    var lines := PyLines(text);
    truthMap := map[];
    var i := 0;
    while i < |lines|
      invariant 0 <= i <= |lines|
      invariant truthMap == TruthDict(lines[..i])
    {
      var line := lines[i];
      if line != [] {
        var truth := line[0];
        var email := Strip(PySlice(line, 1, -1));
        ParsedFillStep(lines, i, TruthEntry);
        assert TruthEntry(line) == (email, truth != '1');
        truthMap := truthMap[email := truth != '1'];
      }
      i := i + 1;
    }
    assert lines[..i] == lines;
  }

  /** The name a line sets is the one of the last line naming it. */
  lemma TruthLastLineWins(lines: seq<string>, i: nat)
    requires i < |lines|
    requires forall k :: i < k < |lines| ==> TruthEntry(lines[k]).0 != TruthEntry(lines[i]).0
    ensures TruthEntry(lines[i]).0 in TruthDict(lines)
    ensures TruthDict(lines)[TruthEntry(lines[i]).0] == TruthEntry(lines[i]).1
  {
    FillLastWins(Parsed(lines, TruthEntry), i);
  }

  // ---------------------------------------------------------------------
  // `predictions`

  /** One prediction line: the name is `line[12:27].strip()`, the value whether `line[29:]` is exactly "true". */
  function PredictionEntryAsWritten(line: string): (entry: (string, bool))
    ensures entry.1 <==> PySlice(line, 29, |line|) == "true"
  {
    (Strip(PySlice(line, 12, 27)), PySlice(line, 29, |line|) == "true")
  }

  /** As intended: the value is "true" once the line's terminator and surrounding blanks are cut. */
  function PredictionEntry(line: string): (entry: (string, bool))
    ensures entry.1 <==> Strip(PySlice(line, 29, |line|)) == "true"
  {
    (Strip(PySlice(line, 12, 27)), Strip(PySlice(line, 29, |line|)) == "true")
  }

  /** How a prediction line is read: as the script has it, or as intended. */
  function PredictionParser(intended: bool): string -> (string, bool)
  {
    if intended then PredictionEntry else PredictionEntryAsWritten
  }

  function PredictionDict(lines: seq<string>, intended: bool): map<string, bool>
  {
    Fill(Parsed(lines, PredictionParser(intended)))
  }

  /** `predictions` as the script has it. */
  method PredictionsAsWritten(text: string) returns (predMap: map<string, bool>)
    ensures predMap == PredictionDict(PyLines(text), false)
  {
    var lines := PyLines(text);
    predMap := map[];
    var i := 0;
    while i < |lines|
      invariant 0 <= i <= |lines|
      invariant predMap == PredictionDict(lines[..i], false)
    {
      var line := lines[i];
      ParsedFillStep(lines, i, PredictionParser(false));
      if line != [] {
        var name := Strip(PySlice(line, 12, 27));
        var truth := PySlice(line, 29, |line|);
        predMap := predMap[name := truth == "true"];
      }
      i := i + 1;
    }
    assert lines[..i] == lines;
  }

  /** `predictions` with the value compared without its line terminator. */
  method Predictions(text: string) returns (predMap: map<string, bool>)
    ensures predMap == PredictionDict(PyLines(text), true)
  {
    var lines := PyLines(text);
    predMap := map[];
    var i := 0;
    while i < |lines|
      invariant 0 <= i <= |lines|
      invariant predMap == PredictionDict(lines[..i], true)
    {
      var line := lines[i];
      ParsedFillStep(lines, i, PredictionParser(true));
      if line != [] {
        var name := Strip(PySlice(line, 12, 27));
        var truth := Strip(PySlice(line, 29, |line|));
        predMap := predMap[name := truth == "true"];
      }
      i := i + 1;
    }
    assert lines[..i] == lines;
  }

  /** A line ending in "\n" is never read as a true prediction by the script as written. */
  lemma TerminatedLineReadsFalse(line: string)
    requires line != [] && line[|line| - 1] == '\n'
    ensures !PredictionEntryAsWritten(line).1
  {
    var tail := PySlice(line, 29, |line|);
    if tail != [] {
      assert tail[|tail| - 1] == '\n';
    }
  }

  /**
   * So on a prediction file whose last line is terminated, as text files
   * are, every prediction the script records is false.
   */
  lemma {:induction false} AsWrittenAllFalse(text: string)
    requires text != [] && text[|text| - 1] == '\n'
    ensures forall name :: name in PredictionDict(PyLines(text), false) ==> !PredictionDict(PyLines(text), false)[name]
  {
    TerminatedTextTerminatedLines(text);
    AllFalse(PyLines(text));
  }

  lemma AllFalse(lines: seq<string>)
    requires forall i :: 0 <= i < |lines| ==> lines[i] != [] && lines[i][|lines[i]| - 1] == '\n'
    ensures forall name :: name in PredictionDict(lines, false) ==> !PredictionDict(lines, false)[name]
  {
    var entries := Parsed(lines, PredictionParser(false));
    forall name | name in Fill(entries)
      ensures !Fill(entries)[name]
    {
      FillFromPairs(entries, name);
      var k :| 0 <= k < |entries| && entries[k] == (name, Fill(entries)[name]);
      TerminatedLineReadsFalse(lines[k]);
    }
  }

  /** The concrete case: a "true" line with its terminator, as written and as intended. */
  lemma TrueLineWithTerminator(prefix: string)
    requires |prefix| == 29
    ensures !PredictionEntryAsWritten(prefix + "true\n").1
    ensures PredictionEntry(prefix + "true\n").1
  {
    var line := prefix + "true\n";
    var tail := "true\n";
    assert line[29..] == tail;
    assert PySlice(line, 29, |line|) == tail;
    assert !IsPySpace('t') && !IsPySpace('e') && IsPySpace('\n');
    assert LStrip(tail) == tail;
    assert tail[..|tail| - 1] == "true";
    assert RStrip(tail) == RStrip("true");
    assert RStrip("true") == "true";
  }

  // ---------------------------------------------------------------------
  // The tally in `__main__`

  ghost function HitNames(truthMap: map<string, bool>, predMap: map<string, bool>): set<string>
  {
    set k | k in truthMap && k in predMap && predMap[k] == truthMap[k]
  }

  ghost function MissNames(truthMap: map<string, bool>, predMap: map<string, bool>): set<string>
  {
    set k | k in truthMap && k in predMap && predMap[k] != truthMap[k]
  }

  ghost function MissedNames(truthMap: map<string, bool>, predMap: map<string, bool>): set<string>
  {
    set k | k in truthMap && k !in predMap
  }

  /** Three sets that sort every labelled file by its prediction are the hit, miss and missed names. */
  lemma Partition(truthMap: map<string, bool>, predMap: map<string, bool>,
                  hitSet: set<string>, missSet: set<string>, missedSet: set<string>)
    requires forall k :: k in hitSet ==> k in truthMap && k in predMap && predMap[k] == truthMap[k]
    requires forall k :: k in missSet ==> k in truthMap && k in predMap && predMap[k] != truthMap[k]
    requires forall k :: k in missedSet ==> k in truthMap && k !in predMap
    requires forall k :: k in truthMap ==> k in hitSet || k in missSet || k in missedSet
    ensures hitSet == HitNames(truthMap, predMap)
    ensures missSet == MissNames(truthMap, predMap)
    ensures missedSet == MissedNames(truthMap, predMap)
    ensures |hitSet| + |missSet| + |missedSet| == |truthMap|
  {
    assert hitSet !! missSet;
    var judged := hitSet + missSet;
    assert |judged| == |hitSet| + |missSet|;
    assert judged !! missedSet;
    assert |judged + missedSet| == |judged| + |missedSet|;
    assert judged + missedSet == truthMap.Keys;
  }

  /**
   * The hits/misses loop over the labelled files: a prediction equal to the
   * label is a hit, a different one a miss, and a file with none is reported
   * as missed. Every labelled file lands in exactly one of the three.
   */
  method Score(truthMap: map<string, bool>, predMap: map<string, bool>) returns (hits: nat, misses: nat, missed: nat)
    ensures hits == |HitNames(truthMap, predMap)|
    ensures misses == |MissNames(truthMap, predMap)|
    ensures missed == |MissedNames(truthMap, predMap)|
    ensures hits + misses + missed == |truthMap|
  {
    hits, misses, missed := 0, 0, 0;
    ghost var hitSet, missSet, missedSet: set<string> := {}, {}, {};
    var pending := truthMap.Keys;
    while pending != {}
      invariant pending <= truthMap.Keys
      invariant hitSet !! pending && missSet !! pending && missedSet !! pending
      invariant forall k :: k in truthMap ==> k in pending || k in hitSet || k in missSet || k in missedSet
      invariant forall k :: k in hitSet ==> k in truthMap && k in predMap && predMap[k] == truthMap[k]
      invariant forall k :: k in missSet ==> k in truthMap && k in predMap && predMap[k] != truthMap[k]
      invariant forall k :: k in missedSet ==> k in truthMap && k !in predMap
      invariant hits == |hitSet| && misses == |missSet| && missed == |missedSet|
      decreases pending
    {
      var file :| file in pending;
      if file in predMap {
        if predMap[file] == truthMap[file] {
          hitSet := hitSet + {file};
          hits := hits + 1;
        } else {
          missSet := missSet + {file};
          misses := misses + 1;
        }
      } else {
        missedSet := missedSet + {file};
        missed := missed + 1;
      }
      pending := pending - {file};
    }
    Partition(truthMap, predMap, hitSet, missSet, missedSet);
  }
}
