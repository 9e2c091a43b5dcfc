/** The fact lines of the analysis logs and the token arithmetic the
    plotting scripts use to read them: a line is cut at `->`, a segment is
    stripped and cut at single spaces, and one token is taken, then read by
    `float()`. */
module LogFields {
  import opened Wrappers
  import opened PyStr
  import opened PyNum

  const Arrow := "->"

  /** `line.split("->")[seg].strip().split(" ")[k]`, with Python's
      IndexError for a segment or token that is not there. */
  function Token(line: string, seg: int, k: int): Result<string, PyError>
  {
    var part :- At(Split(line, Arrow), seg);
    At(Split(Strip(part), " "), k)
  }

  /** Where a value sits on its line: the segment, the token, and whether
      its last character (a unit letter) is cut off with `[:-1]`. */
  datatype Field = Field(seg: nat, index: nat, dropLast: bool)

  /** The value of one field of a line: the token, trimmed when asked,
      read by `float()`. */
  function Reading(line: string, f: Field): Result<real, PyError>
  {
    var token :- Token(line, f.seg, f.index);
    ParseFloat(if f.dropLast then DropLast(token) else token)
  }

  /** The readings of one field over lines, in line order; the first line
      that cannot be read gives its error. */
  function ReadAll(lines: seq<string>, f: Field): (r: Result<seq<real>, PyError>)
    ensures r.Ok? ==> |r.value| == |lines|
    decreases |lines|
  {
    if lines == [] then Ok([])
    else
      var before :- ReadAll(lines[..|lines| - 1], f);
      var v :- Reading(lines[|lines| - 1], f);
      Ok(before + [v])
  }

  /** Reading all lines succeeds exactly when every line can be read, and
      then the i-th reading is that of the i-th line. */
  lemma {:induction false} ReadAllSpec(lines: seq<string>, f: Field)
    ensures ReadAll(lines, f).Ok? <==> forall i :: 0 <= i < |lines| ==> Reading(lines[i], f).Ok?
    ensures ReadAll(lines, f).Ok? ==>
      forall i :: 0 <= i < |lines| ==> ReadAll(lines, f).value[i] == Reading(lines[i], f).value
    decreases |lines|
  {
    if lines != [] {
      var init := lines[..|lines| - 1];
      ReadAllSpec(init, f);
      ReadAllSnoc(init, lines[|lines| - 1], f);
      assert init + [lines[|lines| - 1]] == lines;
    }
  }

  /** Reading one more line appends its reading. */
  lemma ReadAllSnoc(lines: seq<string>, line: string, f: Field)
    ensures ReadAll(lines + [line], f).Ok? <==> ReadAll(lines, f).Ok? && Reading(line, f).Ok?
    ensures ReadAll(lines + [line], f).Ok? ==>
      ReadAll(lines + [line], f).value == ReadAll(lines, f).value + [Reading(line, f).value]
  {
    assert (lines + [line])[..|lines|] == lines;
  }

  // ---------------------------------------------------------------------
  // `for line in file:` with a body that may raise
  // ---------------------------------------------------------------------

  /** The loop over the lines of a log: the body turns the state and a
      line into the next state or an exception; the first exception ends
      the loop. */
  function Scan<S>(lines: seq<string>, start: S, step: (S, string) -> Result<S, PyError>): Result<S, PyError>
    decreases |lines|
  {
    if lines == [] then Ok(start)
    else
      var s :- Scan(lines[..|lines| - 1], start, step);
      step(s, lines[|lines| - 1])
  }

  /** One more turn of the loop continues from where the first `i` lines
      left it. */
  lemma ScanSnoc<S>(lines: seq<string>, i: nat, start: S, step: (S, string) -> Result<S, PyError>)
    requires i < |lines|
    ensures Scan(lines[..i], start, step).Ok? ==>
      Scan(lines[..i + 1], start, step) == step(Scan(lines[..i], start, step).value, lines[i])
    ensures Scan(lines[..i], start, step).Err? ==> Scan(lines[..i + 1], start, step) == Scan(lines[..i], start, step)
  {
    assert lines[..i + 1][..i] == lines[..i];
  }

  /** An exception among the first `n` lines is the exception of the
      whole loop. */
  lemma {:induction false} ScanFailureFinal<S>(lines: seq<string>, n: nat, start: S, step: (S, string) -> Result<S, PyError>)
    requires n <= |lines|
    ensures Scan(lines[..n], start, step).Err? ==> Scan(lines, start, step) == Scan(lines[..n], start, step)
    decreases |lines| - n
  {
    if n < |lines| {
      ScanFailureFinal(lines, n + 1, start, step);
      ScanSnoc(lines, n, start, step);
    } else {
      assert lines[..n] == lines;
    }
  }

  /** When whether the body raises depends on the line alone, the loop
      finishes exactly when every line passes. */
  lemma {:induction false} ScanOk<S>(lines: seq<string>, start: S, step: (S, string) -> Result<S, PyError>, ok: string -> bool)
    requires forall s, line :: step(s, line).Ok? <==> ok(line)
    ensures Scan(lines, start, step).Ok? <==> forall i :: 0 <= i < |lines| ==> ok(lines[i])
    decreases |lines|
  {
    if lines != [] {
      var init := lines[..|lines| - 1];
      var line := lines[|lines| - 1];
      ScanOk(init, start, step, ok);
      assert lines == init + [line];
      if Scan(init, start, step).Ok? {
        var s := Scan(init, start, step).value;
        assert Scan(lines, start, step) == step(s, line);
        assert step(s, line).Ok? <==> ok(line);
      }
    }
  }

  /** The lines `select` picks, in order. */
  function Filter(lines: seq<string>, select: string -> bool): seq<string>
    decreases |lines|
  {
    if lines == [] then []
    else Filter(lines[..|lines| - 1], select) + (if select(lines[|lines| - 1]) then [lines[|lines| - 1]] else [])
  }

  /** A list the body appends to, one reading of field `f` for each line
      `select` picks and nothing for the others, ends up as the readings of
      the picked lines in file order. */
  lemma {:induction false} ScanColumn<S>(lines: seq<string>, start: S, step: (S, string) -> Result<S, PyError>,
                                         get: S -> seq<real>, select: string -> bool, f: Field)
    requires get(start) == []
    requires forall s, line :: step(s, line).Ok? && select(line) ==> Reading(line, f).Ok?
    requires forall s, line :: step(s, line).Ok? ==>
      get(step(s, line).value) == get(s) + (if select(line) then [Reading(line, f).value] else [])
    ensures Scan(lines, start, step).Ok? ==> ReadAll(Filter(lines, select), f) == Ok(get(Scan(lines, start, step).value))
    decreases |lines|
  {
    if lines != [] {
      var init := lines[..|lines| - 1];
      var line := lines[|lines| - 1];
      ScanColumn(init, start, step, get, select, f);
      if Scan(lines, start, step).Ok? {
        var s := Scan(init, start, step).value;
        assert Scan(lines, start, step) == step(s, line);
        ScanColumnStep(Filter(init, select), line, f, get(s), get(step(s, line).value), select(line));
      }
    }
  }

  /** The step of ScanColumn on the lists alone. */
  lemma ScanColumnStep(picked: seq<string>, line: string, f: Field, before: seq<real>, after: seq<real>, selected: bool)
    requires ReadAll(picked, f) == Ok(before)
    requires selected ==> Reading(line, f).Ok?
    requires after == before + (if selected then [Reading(line, f).value] else [])
    ensures ReadAll(picked + (if selected then [line] else []), f) == Ok(after)
  {
    if selected {
      ReadAllSnoc(picked, line, f);
    } else {
      assert picked + [] == picked && before + [] == before;
    }
  }

  // ---------------------------------------------------------------------
  // The documented fact-line grammar
  // ---------------------------------------------------------------------

  /** A word of a fact line: non-empty, no whitespace, and no `>` (so no
      arrow inside it). */
  predicate IsWord(w: string)
  {
    |w| > 0 && forall i :: 0 <= i < |w| ==> !IsSpace(w[i]) && w[i] != '>'
  }

  predicate AreWords(ws: seq<string>)
  {
    |ws| > 0 && forall k :: 0 <= k < |ws| ==> IsWord(ws[k])
  }

  /** Every segment is a non-empty run of words. */
  predicate AreSegments(segs: seq<seq<string>>)
  {
    |segs| > 0 && forall i :: 0 <= i < |segs| ==> AreWords(segs[i])
  }

  /** The words of each segment joined by single spaces. */
  function Phrases(segs: seq<seq<string>>): (ps: seq<string>)
    requires AreSegments(segs)
    ensures |ps| == |segs|
    ensures forall i :: 0 <= i < |segs| ==> ps[i] == Join(segs[i], " ")
    decreases |segs|
  {
    if |segs| == 1 then [Join(segs[0], " ")] else [Join(segs[0], " ")] + Phrases(segs[1..])
  }

  /** `Frequency: 100 MHz -> Power: 1.2 W`: the segments separated by
      ` -> `, the words of a segment by single spaces, and the newline
      `readlines()` keeps at the end. */
  function FactLine(segs: seq<seq<string>>): string
    requires AreSegments(segs)
  {
    Join(Phrases(segs), " " + Arrow + " ") + "\n"
  }

  /** The token arithmetic recovers the words of a fact line: token `k` of
      segment `seg` is the k-th word of that segment, and a segment or token
      past the end raises IndexError. */
  lemma FactLineTokens(segs: seq<seq<string>>, seg: nat, k: nat)
    requires AreSegments(segs)
    ensures seg < |segs| && k < |segs[seg]| ==> Token(FactLine(segs), seg, k) == Ok(segs[seg][k])
    ensures seg < |segs| && k >= |segs[seg]| ==> Token(FactLine(segs), seg, k) == Err(IndexError)
    ensures seg >= |segs| ==> Token(FactLine(segs), seg, k) == Err(IndexError)
  {
    var ps := Phrases(segs);
    forall i | 0 <= i < |ps|
      ensures Trimmed(ps[i]) && ps[i] != [] && forall j :: 0 <= j < |ps[i]| ==> ps[i][j] != '>'
    {
      WordsJoin(segs[i]);
    }
    PhraseSegments("", ps);
    assert "" + Join(ps, " " + Arrow + " ") + "\n" == FactLine(segs);
    if seg < |segs| {
      WordsSplit(segs[seg]);
    }
  }

  /** The reading of a field of a fact line is `float()` of the word the
      field names, its last character dropped when the field asks; a field
      past the end of the line raises IndexError. */
  lemma FactLineReading(segs: seq<seq<string>>, f: Field)
    requires AreSegments(segs)
    ensures f.seg < |segs| && f.index < |segs[f.seg]| ==>
      Reading(FactLine(segs), f) ==
        ParseFloat(if f.dropLast then DropLast(segs[f.seg][f.index]) else segs[f.seg][f.index])
    ensures f.seg >= |segs| || f.index >= |segs[f.seg]| ==> Reading(FactLine(segs), f) == Err(IndexError)
  {
    FactLineTokens(segs, f.seg, f.index);
  }

  /** Cutting `pre + p0 -> p1 -> ... -> pn + newline` at the arrows gives
      one piece per phrase, and each piece strips to its phrase. */
  lemma {:induction false} PhraseSegments(pre: string, ps: seq<string>)
    requires |ps| > 0 && AllSpace(pre)
    requires forall i :: 0 <= i < |ps| ==> Trimmed(ps[i]) && ps[i] != []
    requires forall i :: 0 <= i < |ps| ==> forall j :: 0 <= j < |ps[i]| ==> ps[i][j] != '>'
    ensures |Split(pre + Join(ps, " " + Arrow + " ") + "\n", Arrow)| == |ps|
    ensures forall i :: 0 <= i < |ps| ==> Strip(Split(pre + Join(ps, " " + Arrow + " ") + "\n", Arrow)[i]) == ps[i]
    decreases |ps|
  {
    var p := ps[0];
    if |ps| == 1 {
      var line := pre + p + "\n";
      assert pre + Join(ps, " " + Arrow + " ") + "\n" == line;
      NoArrow(line);
      SplitSingle(line, Arrow);
      StripPadded(pre, p, "\n");
    } else {
      var rest := Join(ps[1..], " " + Arrow + " ");
      var left := pre + p + " ";
      var right := " " + rest + "\n";
      assert pre + Join(ps, " " + Arrow + " ") + "\n" == left + Arrow + right;
      NoArrow(left + Arrow[..1]);
      SplitConcat(left, Arrow, right);
      PhraseSegments(" ", ps[1..]);
      StripPadded(pre, p, " ");
    }
  }

  /** Text without `>` holds no arrow. */
  lemma NoArrow(s: string)
    requires forall i :: 0 <= i < |s| ==> s[i] != '>'
    ensures !Contains(s, Arrow)
  {
    if Contains(s, Arrow) {
      ContainsNeedsChar(s, Arrow, 1);
    }
  }

  /** The words joined by single spaces: no `>`, and no whitespace at
      either end. */
  lemma {:induction false} WordsJoin(ws: seq<string>)
    requires AreWords(ws)
    ensures forall i :: 0 <= i < |Join(ws, " ")| ==> Join(ws, " ")[i] != '>'
    ensures Join(ws, " ") != [] && Trimmed(Join(ws, " "))
    decreases |ws|
  {
    if |ws| > 1 {
      WordsJoin(ws[1..]);
      var rest := Join(ws[1..], " ");
      var j := ws[0] + " " + rest;
      assert j[0] == ws[0][0];
      assert j[|j| - 1] == rest[|rest| - 1];
      assert forall i :: 0 <= i < |j| ==> j[i] == (if i < |ws[0]| then ws[0][i] else if i == |ws[0]| then ' ' else rest[i - |ws[0]| - 1]);
    }
  }

  /** Cutting the joined words at single spaces gives the words back. */
  lemma WordsSplit(ws: seq<string>)
    requires AreWords(ws)
    ensures Split(Join(ws, " "), " ") == ws
  {
    assert forall k, i :: 0 <= k < |ws| && 0 <= i < |ws[k]| ==> ws[k][i] != ' ' by {
      forall k, i | 0 <= k < |ws| && 0 <= i < |ws[k]|
        ensures ws[k][i] != ' '
      {
        assert IsWord(ws[k]);
      }
    }
    SplitJoinChar(ws, ' ');
  }
}
