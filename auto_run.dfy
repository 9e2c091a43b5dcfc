/** The sweep driver: for each queue size it creates a log, rewrites the
    `QUEUE_SIZE` parameter of the Verilog source and the `set log_file`
    line of the TCL script, and runs the synthesis tool; from the second
    size on it first scans the previous size's log for the LUT utilization.
    Files are sequences of lines (each keeping its newline, as `readlines`
    gives them); the logs are a map from file name to lines; the tool is an
    opaque function from the two files and the logs to the logs it leaves. */
module AutoRun {
  import opened Wrappers
  import opened PyStr
  import opened PyNum
  import opened AnalysisLogs

  // ---------------------------------------------------------------------
  // Text the driver writes
  // ---------------------------------------------------------------------

  const QueueSizeMarker := "parameter QUEUE_SIZE"
  const TclMarker := "set log_file"
  const LutMarker := "LUTs Util%"
  const LogDir := "zhou_2020_hwpq.logs/"
  const UtilizationLimit := 50.0
  /** The size the design has before the sweep; its log is written first. */
  const BaselineSize := 4
  const QueueSizes: seq<nat> := [8, 16, 32, 64, 128, 256, 512, 1024, 2048, 4096]

  /** The Verilog line that sets the queue size to `size`. */
  function QueueSizeLine(size: nat): string
  {
    "    " + QueueSizeMarker + " = " + NatToString(size) + ",  // Number of slots in each queue\n"
  }

  /** The TCL line that points the tool at the log of `size`. */
  function TclLine(size: nat): string
  {
    TclMarker + " \"" + LogDir + LogName(size) + "\"\n"
  }

  /** The two lines a fresh log for `size` holds. */
  function LogHeader(size: nat): seq<string>
  {
    ["Log for QUEUE_SIZE = " + NatToString(size) + "\n", "\n"]
  }

  /** The replacement line still carries the marker it replaced. */
  lemma QueueSizeLineMarked(size: nat)
    ensures Contains(QueueSizeLine(size), QueueSizeMarker)
  {
    var tail := " = " + NatToString(size) + ",  // Number of slots in each queue\n";
    assert QueueSizeLine(size) == "    " + QueueSizeMarker + tail;
    ContainsSelf(QueueSizeMarker);
    ContainsInContext("    ", QueueSizeMarker, tail, QueueSizeMarker);
  }

  lemma TclLineMarked(size: nat)
    ensures Contains(TclLine(size), TclMarker)
  {
    var tail := " \"" + LogDir + LogName(size) + "\"\n";
    assert TclLine(size) == "" + TclMarker + tail;
    ContainsSelf(TclMarker);
    ContainsInContext("", TclMarker, tail, TclMarker);
  }

  // ---------------------------------------------------------------------
  // update_queue_size: every marked line is replaced
  // ---------------------------------------------------------------------

  function RewriteLine(line: string, size: nat): string
  {
    if Contains(line, QueueSizeMarker) then QueueSizeLine(size) else line
  }

  /** The Verilog file after `update_queue_size(path, size)`. */
  function QueueSizeRewrite(lines: seq<string>, size: nat): seq<string>
    decreases |lines|
  {
    if lines == [] then [] else [RewriteLine(lines[0], size)] + QueueSizeRewrite(lines[1..], size)
  }

  /** Line by line: the count is kept, every line holding the marker
      (not only the first) becomes the line for `size`, and every other
      line is kept as it is. */
  lemma {:induction false} QueueSizeRewriteLines(lines: seq<string>, size: nat)
    ensures |QueueSizeRewrite(lines, size)| == |lines|
    ensures forall j :: 0 <= j < |lines| ==>
      QueueSizeRewrite(lines, size)[j] == if Contains(lines[j], QueueSizeMarker) then QueueSizeLine(size) else lines[j]
    decreases |lines|
  {
    if lines != [] {
      var r := QueueSizeRewrite(lines, size);
      QueueSizeRewriteLines(lines[1..], size);
      forall j | 1 <= j < |lines|
        ensures r[j] == RewriteLine(lines[j], size)
      {
        assert r[j] == QueueSizeRewrite(lines[1..], size)[j - 1];
      }
    }
  }

  /** A later rewrite overrides an earlier one: what the file holds after
      a run of rewrites depends only on the last size. */
  lemma QueueSizeRewriteLastWins(lines: seq<string>, a: nat, b: nat)
    ensures QueueSizeRewrite(QueueSizeRewrite(lines, a), b) == QueueSizeRewrite(lines, b)
  {
    var once := QueueSizeRewrite(lines, a);
    QueueSizeRewriteLines(lines, a);
    QueueSizeRewriteLines(once, b);
    QueueSizeRewriteLines(lines, b);
    QueueSizeLineMarked(a);
  }

  /** Rewriting twice with the same size is rewriting once. */
  lemma QueueSizeRewriteIdempotent(lines: seq<string>, size: nat)
    ensures QueueSizeRewrite(QueueSizeRewrite(lines, size), size) == QueueSizeRewrite(lines, size)
  {
    QueueSizeRewriteLastWins(lines, size, size);
  }

  /** The lines holding the marker are the same before and after. */
  lemma QueueSizeRewriteKeepsMarkers(lines: seq<string>, size: nat)
    ensures |QueueSizeRewrite(lines, size)| == |lines|
    ensures forall j :: 0 <= j < |lines| ==>
      (Contains(QueueSizeRewrite(lines, size)[j], QueueSizeMarker) <==> Contains(lines[j], QueueSizeMarker))
  {
    QueueSizeRewriteLines(lines, size);
    QueueSizeLineMarked(size);
  }

  // ---------------------------------------------------------------------
  // The TCL rewrite: only the first `set log_file` line is replaced
  // ---------------------------------------------------------------------

  /** The index of the first line containing `marker`, if any. */
  function FirstMatch(lines: seq<string>, marker: string): (r: Option<nat>)
    ensures r.Some? ==> r.value < |lines| && Contains(lines[r.value], marker)
    ensures r.Some? ==> forall k :: 0 <= k < r.value ==> !Contains(lines[k], marker)
    ensures r.None? ==> forall k :: 0 <= k < |lines| ==> !Contains(lines[k], marker)
    decreases |lines|
  {
    if lines == [] then None
    else if Contains(lines[0], marker) then Some(0)
    else match FirstMatch(lines[1..], marker)
      case None => None
      case Some(k) => Some(k + 1)
  }

  /** The TCL script after the `log_file_updated` loop of the driver: the
      first line holding `set log_file` is replaced, and the rest is copied. */
  function TclRewrite(lines: seq<string>, size: nat): seq<string>
    decreases |lines|
  {
    if lines == [] then []
    else if Contains(lines[0], TclMarker) then [TclLine(size)] + lines[1..]
    else [lines[0]] + TclRewrite(lines[1..], size)
  }

  /** The rewrite is an update of the script at its first match, if any. */
  lemma {:induction false} TclRewriteAtFirstMatch(lines: seq<string>, size: nat)
    ensures FirstMatch(lines, TclMarker).None? ==> TclRewrite(lines, size) == lines
    ensures FirstMatch(lines, TclMarker).Some? ==>
      TclRewrite(lines, size) == lines[FirstMatch(lines, TclMarker).value := TclLine(size)]
    decreases |lines|
  {
    if lines != [] && !Contains(lines[0], TclMarker) {
      TclRewriteAtFirstMatch(lines[1..], size);
      TclRewriteSkip(lines, size);
    } else if lines != [] {
      assert [TclLine(size)] + lines[1..] == lines[0 := TclLine(size)];
    }
  }

  /** The inductive step past a line without the marker: the rewrite of the
      rest, shifted by one, is the rewrite of the whole. */
  lemma TclRewriteSkip(lines: seq<string>, size: nat)
    requires lines != [] && !Contains(lines[0], TclMarker)
    requires FirstMatch(lines[1..], TclMarker).None? ==> TclRewrite(lines[1..], size) == lines[1..]
    requires FirstMatch(lines[1..], TclMarker).Some? ==>
      TclRewrite(lines[1..], size) == lines[1..][FirstMatch(lines[1..], TclMarker).value := TclLine(size)]
    ensures FirstMatch(lines, TclMarker).None? ==> TclRewrite(lines, size) == lines
    ensures FirstMatch(lines, TclMarker).Some? ==>
      TclRewrite(lines, size) == lines[FirstMatch(lines, TclMarker).value := TclLine(size)]
  {
    var m := FirstMatch(lines[1..], TclMarker);
    if m.Some? {
      assert [lines[0]] + lines[1..][m.value := TclLine(size)] == lines[m.value + 1 := TclLine(size)];
    } else {
      assert [lines[0]] + lines[1..] == lines;
    }
  }

  /** The line count is kept; a line changes only if it is the first one
      holding `set log_file`, and that line becomes the new log line;
      without such a line the script is left as it is. */
  lemma TclRewriteFirstOnly(lines: seq<string>, size: nat)
    ensures |TclRewrite(lines, size)| == |lines|
    ensures forall j :: 0 <= j < |lines| && TclRewrite(lines, size)[j] != lines[j] ==>
      Contains(lines[j], TclMarker) && forall k :: 0 <= k < j ==> !Contains(lines[k], TclMarker)
    ensures forall j :: 0 <= j < |lines| && Contains(lines[j], TclMarker) ==>
      (forall k :: 0 <= k < j ==> !Contains(lines[k], TclMarker)) ==> TclRewrite(lines, size)[j] == TclLine(size)
    ensures (forall j :: 0 <= j < |lines| ==> !Contains(lines[j], TclMarker)) ==> TclRewrite(lines, size) == lines
  {
    TclRewriteAtFirstMatch(lines, size);
    var m := FirstMatch(lines, TclMarker);
  }

  /** A later TCL rewrite overrides an earlier one, since the new line still
      holds `set log_file` and no earlier line does. */
  lemma TclRewriteLastWins(lines: seq<string>, a: nat, b: nat)
    ensures TclRewrite(TclRewrite(lines, a), b) == TclRewrite(lines, b)
  {
    TclRewriteAtFirstMatch(lines, a);
    TclRewriteAtFirstMatch(lines, b);
    var m := FirstMatch(lines, TclMarker);
    if m.Some? {
      var once := lines[m.value := TclLine(a)];
      TclLineMarked(a);
      FirstMatchAgain(once, m.value);
      TclRewriteAtFirstMatch(once, b);
    } else {
      TclRewriteAtFirstMatch(lines, b);
    }
  }

  /** A line holding the marker with none before it is the first match. */
  lemma FirstMatchAgain(lines: seq<string>, j: nat)
    requires j < |lines| && Contains(lines[j], TclMarker)
    requires forall k :: 0 <= k < j ==> !Contains(lines[k], TclMarker)
    ensures FirstMatch(lines, TclMarker) == Some(j)
  {
    var m := FirstMatch(lines, TclMarker);
  }

  /** Lines copied one by one, with the line at the first match replaced,
      are the TCL rewrite. */
  lemma TclRewriteWritten(lines: seq<string>, size: nat, written: seq<string>)
    requires |written| == |lines|
    requires forall j :: 0 <= j < |lines| ==>
      written[j] == if FirstMatch(lines, TclMarker) == Some(j) then TclLine(size) else lines[j]
    ensures written == TclRewrite(lines, size)
  {
    TclRewriteAtFirstMatch(lines, size);
  }

  /** The loop of the TCL rewrite: the first line holding `set log_file`
      is pointed at the log of `size`; a flag keeps later such lines as
      they are. */
  method TclFlagPass(lines: seq<string>, size: nat) returns (written: seq<string>)
    ensures written == TclRewrite(lines, size)
  {
    ghost var first := FirstMatch(lines, TclMarker);
    written := [];
    var logFileUpdated := false;
    for i := 0 to |lines|
      invariant |written| == i
      invariant logFileUpdated <==> first.Some? && first.value < i
      invariant forall j :: 0 <= j < i ==> written[j] == if first == Some(j) then TclLine(size) else lines[j]
    {
      var line := lines[i];
      if Contains(line, TclMarker) && !logFileUpdated {
        line := TclLine(size);
        logFileUpdated := true;
      }
      written := written + [line];
    }
    TclRewriteWritten(lines, size, written);
  }

  // ---------------------------------------------------------------------
  // The utilization gate
  // ---------------------------------------------------------------------

  /** The utilization on a `LUTs Util%` line: the third `:`-field,
      stripped, up to its first space, read by `float()`. */
  function LutUtilization(line: string): Result<real, PyError>
  {
    var field :- At(Split(line, ":"), 2);
    ParseFloat(Split(Strip(field), " ")[0])
  }

  /** The scan of one log: the first `LUTs Util%` line whose utilization
      exceeds the limit stops it (`Some`); a line that cannot be read
      raises; reaching the end gives `None`. */
  function GateScan(lines: seq<string>): Result<Option<real>, PyError>
    decreases |lines|
  {
    if lines == [] then Ok(None)
    else if !Contains(lines[0], LutMarker) then GateScan(lines[1..])
    else match LutUtilization(lines[0])
      case Err(e) => Err(e)
      case Ok(u) => if u > UtilizationLimit then Ok(Some(u)) else GateScan(lines[1..])
  }

  /** On a line `A:B: V %` plus its newline (the utilization line of a log, whose
      first two fields end at the colons after `Frequency` and `Util%`) the
      gate reads `float(V)`: the percentage, not another word. */
  lemma LutUtilizationOfLine(a: string, b: string, v: string)
    requires forall i :: 0 <= i < |a| ==> a[i] != ':'
    requires forall i :: 0 <= i < |b| ==> b[i] != ':'
    requires |v| > 0 && forall i :: 0 <= i < |v| ==> v[i] != ':' && !IsSpace(v[i])
    ensures LutUtilization(a + ":" + b + ":" + (" " + v + " %\n")) == ParseFloat(v)
  {
    ThirdField(a, b, v);
    FirstWordOfField(v);
  }

  /** The third `:`-field of `A:B: V %` is ` V %` with its newline. */
  lemma ThirdField(a: string, b: string, v: string)
    requires forall i :: 0 <= i < |a| ==> a[i] != ':'
    requires forall i :: 0 <= i < |b| ==> b[i] != ':'
    requires forall i :: 0 <= i < |v| ==> v[i] != ':'
    ensures |Split(a + ":" + b + ":" + (" " + v + " %\n"), ":")| == 3
    ensures Split(a + ":" + b + ":" + (" " + v + " %\n"), ":")[2] == " " + v + " %\n"
  {
    var tail := " " + v + " %\n";
    assert a + ":" + b + ":" + tail == a + [':'] + (b + [':'] + tail);
    SplitAtChar(a, ':', b + [':'] + tail);
    SplitAtChar(b, ':', tail);
    assert forall i :: 0 <= i < |tail| ==> tail[i] != ':' by {
      assert forall i :: 0 <= i < |tail| ==>
        tail[i] == if i == 0 then ' ' else if i <= |v| then v[i - 1] else " %\n"[i - 1 - |v|];
    }
    CharFree(tail, ':');
    SplitSingle(tail, [':']);
  }

  /** The field ` V %` with its newline, stripped and cut at spaces,
      starts with `V`. */
  lemma FirstWordOfField(v: string)
    requires |v| > 0 && forall i :: 0 <= i < |v| ==> !IsSpace(v[i])
    ensures Split(Strip(" " + v + " %\n"), " ")[0] == v
  {
    assert " " + v + " %\n" == " " + (v + " %") + "\n";
    StripPadded(" ", v + " %", "\n");
    assert forall i :: 0 <= i < |v| ==> v[i] != ' ';
    assert v + " %" == v + [' '] + "%";
    SplitAtChar(v, ' ', "%");
  }

  /** The gate on a log whose one utilization line reads 55.2 fires with
      55.2; on one that reads 42.0 it does not. */
  lemma GateOnUtilizationLine(a: string, b: string)
    requires forall i :: 0 <= i < |a| ==> a[i] != ':'
    requires forall i :: 0 <= i < |b| ==> b[i] != ':'
    requires Contains(b, LutMarker)
    ensures GateScan([a + ":" + b + ":" + " 55.2 %\n"]) == Ok(Some(55.2))
    ensures GateScan([a + ":" + b + ":" + " 42.0 %\n"]) == Ok(None)
  {
    GateFires(a, b);
    GateQuiet(a, b);
  }

  lemma GateFires(a: string, b: string)
    requires forall i :: 0 <= i < |a| ==> a[i] != ':'
    requires forall i :: 0 <= i < |b| ==> b[i] != ':'
    requires Contains(b, LutMarker)
    ensures GateScan([a + ":" + b + ":" + " 55.2 %\n"]) == Ok(Some(55.2))
  {
    Numeral("55", "2", 55.2, " 55.2 %\n");
    GateOnNumeral(a, b, "55", "2", 55.2);
  }

  lemma GateQuiet(a: string, b: string)
    requires forall i :: 0 <= i < |a| ==> a[i] != ':'
    requires forall i :: 0 <= i < |b| ==> b[i] != ':'
    requires Contains(b, LutMarker)
    ensures GateScan([a + ":" + b + ":" + " 42.0 %\n"]) == Ok(None)
  {
    Numeral("42", "0", 42.0, " 42.0 %\n");
    GateOnNumeral(a, b, "42", "0", 42.0);
  }

  /** A two-digit whole part and a one-digit fraction, with the value and
      the percentage field they make. */
  lemma Numeral(i: string, f: string, u: real, field: string)
    requires |i| == 2 && |f| == 1 && AllDigits(i) && AllDigits(f)
    requires u == (DigitValue(i[0]) * 10 + DigitValue(i[1])) as real + DigitValue(f[0]) as real / 10.0
    requires field == [' ', i[0], i[1], '.', f[0], ' ', '%', '\n']
    ensures |i| > 0 && AllDigits(i) && |f| > 0 && AllDigits(f)
    ensures DigitsValue(i) as real + FractionValue(f) == u
    ensures " " + (i + "." + f) + " %\n" == field
  {
    assert i[..1][..0] == [] && f[..0] == [];
    assert DigitsValue(i[..1]) == DigitValue(i[0]);
    assert DigitsValue(i) == DigitValue(i[0]) * 10 + DigitValue(i[1]);
    assert DigitsValue(f) == DigitValue(f[0]);
    assert FractionValue(f) == DigitValue(f[0]) as real / 10.0;
  }

  /** The gate on a log of one utilization line with the numeral `I.F`
      of value `u`. */
  lemma GateOnNumeral(a: string, b: string, i: string, f: string, u: real)
    requires forall k :: 0 <= k < |a| ==> a[k] != ':'
    requires forall k :: 0 <= k < |b| ==> b[k] != ':'
    requires Contains(b, LutMarker)
    requires |i| > 0 && AllDigits(i) && |f| > 0 && AllDigits(f) && DigitsValue(i) as real + FractionValue(f) == u
    ensures GateScan([a + ":" + b + ":" + (" " + (i + "." + f) + " %\n")]) ==
      if u > UtilizationLimit then Ok(Some(u)) else Ok(None)
  {
    var tail := " " + (i + "." + f) + " %\n";
    ReadsPercentage(a, b, i, f);
    MarkedLine(a, b, tail);
    GateVerdict(a + ":" + b + ":" + tail, u);
  }

  /** The gate on a log of one marked line reading `u` fires exactly when
      `u` is over the limit. */
  lemma GateVerdict(line: string, u: real)
    requires Contains(line, LutMarker) && LutUtilization(line).Ok? && LutUtilization(line).value == u
    ensures GateScan([line]) == if u > UtilizationLimit then Ok(Some(u)) else Ok(None)
  {
    assert [line][1..] == [];
  }

  /** A utilization line with the numeral `I.F` reads `I + F / 10^|F|`. */
  lemma ReadsPercentage(a: string, b: string, i: string, f: string)
    requires forall k :: 0 <= k < |a| ==> a[k] != ':'
    requires forall k :: 0 <= k < |b| ==> b[k] != ':'
    requires |i| > 0 && AllDigits(i) && |f| > 0 && AllDigits(f)
    ensures LutUtilization(a + ":" + b + ":" + (" " + (i + "." + f) + " %\n")).Ok?
    ensures LutUtilization(a + ":" + b + ":" + (" " + (i + "." + f) + " %\n")).value ==
      DigitsValue(i) as real + FractionValue(f)
  {
    var v := i + "." + f;
    NumeralWord(i, f);
    LutUtilizationOfLine(a, b, v);
    ParseFloatDecimal(i, f);
  }

  /** The line keeps the marker its second field holds. */
  lemma MarkedLine(a: string, b: string, t: string)
    requires Contains(b, LutMarker)
    ensures Contains(a + ":" + b + ":" + t, LutMarker)
  {
    ContainsInContext(a + ":", b, ":" + t, LutMarker);
    assert a + ":" + b + ":" + t == (a + ":") + b + (":" + t);
  }

  /** A decimal numeral holds no colon and no whitespace. */
  lemma NumeralWord(i: string, f: string)
    requires AllDigits(i) && AllDigits(f)
    ensures forall k :: 0 <= k < |i + "." + f| ==> (i + "." + f)[k] != ':' && !IsSpace((i + "." + f)[k])
  {
    var v := i + "." + f;
    assert forall k :: 0 <= k < |v| ==> v[k] == if k < |i| then i[k] else if k == |i| then '.' else f[k - |i| - 1];
  }

  /** A marked line the gate reads without stopping. */
  predicate UnderLimit(line: string)
  {
    LutUtilization(line).Ok? && LutUtilization(line).value <= UtilizationLimit
  }

  /** Every marked line reads at or under the limit. */
  predicate ReadsUnderLimit(lines: seq<string>)
  {
    forall j :: 0 <= j < |lines| && Contains(lines[j], LutMarker) ==> UnderLimit(lines[j])
  }

  /** What the scan reports on the marked line that stops it. */
  function StopVerdict(line: string): Result<Option<real>, PyError>
  {
    match LutUtilization(line)
    case Err(e) => Err(e)
    case Ok(u) => Ok(Some(u))
  }

  /** The scan, stated over the lines: it gives `None` exactly when every
      marked line reads at or under the limit; otherwise it reports the
      first marked line that does not (its error, or its utilization). */
  lemma {:induction false} GateScanSpec(lines: seq<string>)
    ensures GateScan(lines) == Ok(None) <==> ReadsUnderLimit(lines)
    ensures GateScan(lines) != Ok(None) ==>
      exists j :: 0 <= j < |lines| && Contains(lines[j], LutMarker) && !UnderLimit(lines[j]) &&
        ReadsUnderLimit(lines[..j]) && GateScan(lines) == StopVerdict(lines[j])
    decreases |lines|
  {
    if lines != [] {
      var rest := lines[1..];
      GateScanSpec(rest);
      if Contains(lines[0], LutMarker) && !UnderLimit(lines[0]) {
        assert lines[..0] == [];
        assert GateScan(lines) == StopVerdict(lines[0]);
      } else {
        assert GateScan(lines) == GateScan(rest);
        ReadsUnderLimitShift(lines);
        if GateScan(rest) != Ok(None) {
          var j :| 0 <= j < |rest| && Contains(rest[j], LutMarker) && !UnderLimit(rest[j]) &&
            ReadsUnderLimit(rest[..j]) && GateScan(rest) == StopVerdict(rest[j]);
          assert rest[j] == lines[j + 1];
        }
      }
    }
  }

  /** Past a first line the gate reads without stopping, the scan of the
      rest decides, at every cut point. */
  lemma ReadsUnderLimitShift(lines: seq<string>)
    requires lines != [] && (Contains(lines[0], LutMarker) ==> UnderLimit(lines[0]))
    ensures ReadsUnderLimit(lines) <==> ReadsUnderLimit(lines[1..])
    ensures forall j :: 0 <= j < |lines| - 1 && ReadsUnderLimit(lines[1..][..j]) ==> ReadsUnderLimit(lines[..j + 1])
  {
    forall j | 0 <= j < |lines| - 1 && ReadsUnderLimit(lines[1..][..j])
      ensures ReadsUnderLimit(lines[..j + 1])
    {
      var prefix := lines[..j + 1];
      forall k | 0 <= k < |prefix| && Contains(prefix[k], LutMarker)
        ensures UnderLimit(prefix[k])
      {
        if k > 0 {
          assert prefix[k] == lines[1..][..j][k - 1];
        }
      }
    }
    if ReadsUnderLimit(lines[1..]) {
      forall k | 0 <= k < |lines| && Contains(lines[k], LutMarker)
        ensures UnderLimit(lines[k])
      {
        if k > 0 {
          assert lines[k] == lines[1..][k - 1];
        }
      }
    }
  }

  // ---------------------------------------------------------------------
  // The sweep, as a function of the files it starts from
  // ---------------------------------------------------------------------

  /** The effects the driver has on the world, in order. */
  datatype Effect =
    | LogCreated(size: nat)
    | VerilogRewritten(size: nat)
    | TclRewritten(size: nat)
    | ToolInvoked
    | UtilizationWarning(utilization: real)

  /** The synthesis tool: given the Verilog source, the TCL script and the
      logs, the logs it leaves behind. */
  type Tool = (seq<string>, seq<string>, map<string, seq<string>>) -> map<string, seq<string>>

  /** Everything the driver reads or writes, and the effects so far. */
  datatype Files = Files(verilog: seq<string>, tcl: seq<string>, logs: map<string, seq<string>>, effects: seq<Effect>)

  /** How a sweep ends: all sizes done, stopped by the gate, or an uncaught
      exception. */
  datatype Outcome = Finished | Stopped(utilization: real) | Crashed(error: PyError)

  datatype Run = Run(files: Files, outcome: Outcome)

  /** Opening and scanning the log of the previous size `prev`. */
  function Gate(logs: map<string, seq<string>>, prev: nat): Result<Option<real>, PyError>
  {
    if LogName(prev) in logs then GateScan(logs[LogName(prev)]) else Err(FileNotFoundError)
  }

  /** The gate of iteration `i`: none for the first size. */
  function GateAt(logs: map<string, seq<string>>, sizes: seq<nat>, i: nat): Result<Option<real>, PyError>
    requires i < |sizes|
  {
    if i >= 1 then Gate(logs, sizes[i - 1]) else Ok(None)
  }

  function Warning(found: Option<real>): seq<Effect>
  {
    if found.Some? then [UtilizationWarning(found.value)] else []
  }

  /** The effects of running one size, in the order the driver has them. */
  function Block(size: nat): seq<Effect>
  {
    [LogCreated(size), VerilogRewritten(size), TclRewritten(size), ToolInvoked]
  }

  /** The work done for one size once the gate has passed: create its log,
      rewrite both files, run the tool. */
  function Perform(f: Files, size: nat, tool: Tool): Files
  {
    var logs := f.logs[LogName(size) := LogHeader(size)];
    var verilog := QueueSizeRewrite(f.verilog, size);
    var tcl := TclRewrite(f.tcl, size);
    Files(verilog, tcl, tool(verilog, tcl, logs), f.effects + Block(size))
  }

  /** Iteration `i` of the sweep as the driver has it: a warning from the
      gate is recorded, and the size is run all the same. */
  function Iteration(f: Files, sizes: seq<nat>, i: nat, tool: Tool): Run
    requires i < |sizes|
  {
    var gate := GateAt(f.logs, sizes, i);
    if gate.Err? then Run(f, Crashed(gate.error))
    else Run(Perform(f.(effects := f.effects + Warning(gate.value)), sizes[i], tool), Finished)
  }

  /** The first `n` iterations of the sweep over `sizes`. */
  function Sweep(f: Files, sizes: seq<nat>, n: nat, tool: Tool): Run
    requires n <= |sizes|
  {
    if n == 0 then Run(f, Finished)
    else
      var before := Sweep(f, sizes, n - 1, tool);
      if before.outcome.Finished? then Iteration(before.files, sizes, n - 1, tool) else before
  }

  /** Erasing the analysis logs of the log directory. */
  function WithoutAnalysisLogs(logs: map<string, seq<string>>): map<string, seq<string>>
  {
    map name | name in logs && !IsAnalysisLog(name) :: logs[name]
  }

  /** The baseline: a log for the initial size, then one tool run. */
  function Baseline(f: Files, tool: Tool): Files
  {
    var logs := f.logs[LogName(BaselineSize) := LogHeader(BaselineSize)];
    Files(f.verilog, f.tcl, tool(f.verilog, f.tcl, logs), f.effects + [LogCreated(BaselineSize), ToolInvoked])
  }

  /** The whole script: erase old logs, run the baseline, sweep. */
  function Experiment(f: Files, tool: Tool): Run
  {
    var cleared := f.(logs := WithoutAnalysisLogs(f.logs));
    Sweep(Baseline(cleared, tool), QueueSizes, |QueueSizes|, tool)
  }

  // ---------------------------------------------------------------------
  // What the sweep does
  // ---------------------------------------------------------------------

  /** The effects with the warnings taken out. */
  function Skeleton(effects: seq<Effect>): (r: seq<Effect>)
    ensures |r| <= |effects|
  {
    if effects == [] then []
    else (if effects[0].UtilizationWarning? then [] else [effects[0]]) + Skeleton(effects[1..])
  }

  /** The blocks of the given sizes, one after another. */
  function Blocks(sizes: seq<nat>): seq<Effect>
  {
    if sizes == [] then [] else Blocks(sizes[..|sizes| - 1]) + Block(sizes[|sizes| - 1])
  }

  /** How many times the tool was run. */
  function ToolRuns(effects: seq<Effect>): nat
  {
    if effects == [] then 0 else (if effects[0] == ToolInvoked then 1 else 0) + ToolRuns(effects[1..])
  }

  lemma {:induction false} SkeletonAppend(a: seq<Effect>, b: seq<Effect>)
    ensures Skeleton(a + b) == Skeleton(a) + Skeleton(b)
    decreases |a|
  {
    if a == [] {
      assert a + b == b;
    } else {
      assert (a + b)[1..] == a[1..] + b;
      SkeletonAppend(a[1..], b);
    }
  }

  lemma {:induction false} ToolRunsAppend(a: seq<Effect>, b: seq<Effect>)
    ensures ToolRuns(a + b) == ToolRuns(a) + ToolRuns(b)
    decreases |a|
  {
    if a == [] {
      assert a + b == b;
    } else {
      assert (a + b)[1..] == a[1..] + b;
      ToolRunsAppend(a[1..], b);
    }
  }

  /** Taking the warnings out leaves the tool runs as they were. */
  lemma {:induction false} ToolRunsSkeleton(effects: seq<Effect>)
    ensures ToolRuns(Skeleton(effects)) == ToolRuns(effects)
    decreases |effects|
  {
    if effects != [] {
      var head := if effects[0].UtilizationWarning? then [] else [effects[0]];
      ToolRunsSkeleton(effects[1..]);
      ToolRunsAppend(head, Skeleton(effects[1..]));
    }
  }

  /** Each block runs the tool once. */
  lemma {:induction false} ToolRunsBlocks(sizes: seq<nat>)
    ensures ToolRuns(Blocks(sizes)) == |sizes|
    decreases |sizes|
  {
    if sizes != [] {
      var size := sizes[|sizes| - 1];
      ToolRunsBlocks(sizes[..|sizes| - 1]);
      ToolRunsAppend(Blocks(sizes[..|sizes| - 1]), Block(size));
      BlockShape(size);
    }
  }

  /** A block holds no warning and one tool run. */
  lemma BlockShape(size: nat)
    ensures Skeleton(Block(size)) == Block(size)
    ensures ToolRuns(Block(size)) == 1
    ensures WarningsOverLimit(Block(size))
  {
    var b3: seq<Effect> := [ToolInvoked];
    var b2 := [TclRewritten(size)] + b3;
    var b1 := [VerilogRewritten(size)] + b2;
    var b := [LogCreated(size)] + b1;
    assert b3[1..] == [] && b2[1..] == b3 && b1[1..] == b2 && b[1..] == b1;
    assert Skeleton(b3) == b3 && ToolRuns(b3) == 1;
    assert Skeleton(b2) == b2 && ToolRuns(b2) == 1;
    assert Skeleton(b1) == b1 && ToolRuns(b1) == 1;
    assert WarningsOverLimit(b3) && WarningsOverLimit(b2) && WarningsOverLimit(b1);
    assert Block(size) == b;
  }

  lemma BlocksSnoc(sizes: seq<nat>, n: nat)
    requires 0 < n <= |sizes|
    ensures Blocks(sizes[..n]) == Blocks(sizes[..n - 1]) + Block(sizes[n - 1])
  {
    assert sizes[..n][..n - 1] == sizes[..n - 1];
  }

  lemma SkeletonOfIteration(effects: seq<Effect>, found: Option<real>, size: nat)
    ensures Skeleton(effects + Warning(found) + Block(size)) == Skeleton(effects) + Block(size)
  {
    SkeletonAppend(effects + Warning(found), Block(size));
    SkeletonAppend(effects, Warning(found));
    BlockShape(size);
    if found.Some? {
      assert Warning(found)[1..] == [];
    }
  }

  /** A sweep that finishes has run every size, in order, each as one block
      of effects (log created, Verilog rewritten, TCL rewritten, tool run),
      with only warnings in between. */
  lemma {:induction false} SweepEffects(f: Files, sizes: seq<nat>, n: nat, tool: Tool)
    requires n <= |sizes|
    ensures Sweep(f, sizes, n, tool).outcome.Finished? ==>
      Skeleton(Sweep(f, sizes, n, tool).files.effects) == Skeleton(f.effects) + Blocks(sizes[..n])
    decreases n
  {
    if n > 0 {
      SweepEffects(f, sizes, n - 1, tool);
      SweepEffectsStep(f, sizes, n, tool);
    }
  }

  lemma SweepEffectsStep(f: Files, sizes: seq<nat>, n: nat, tool: Tool)
    requires 0 < n <= |sizes|
    requires Sweep(f, sizes, n - 1, tool).outcome.Finished? ==>
      Skeleton(Sweep(f, sizes, n - 1, tool).files.effects) == Skeleton(f.effects) + Blocks(sizes[..n - 1])
    ensures Sweep(f, sizes, n, tool).outcome.Finished? ==>
      Skeleton(Sweep(f, sizes, n, tool).files.effects) == Skeleton(f.effects) + Blocks(sizes[..n])
  {
    var before := Sweep(f, sizes, n - 1, tool);
    var after := Sweep(f, sizes, n, tool);
    if before.outcome.Finished? && after.outcome.Finished? {
      assert after == Iteration(before.files, sizes, n - 1, tool);
      IterationSkeleton(before.files, sizes, n - 1, tool);
      BlocksStep(Skeleton(f.effects), before.files.effects, Sweep(f, sizes, n, tool).files.effects, sizes, n);
    }
  }

  /** The sequence algebra of one step of SweepEffects. */
  lemma BlocksStep(s: seq<Effect>, before: seq<Effect>, after: seq<Effect>, sizes: seq<nat>, n: nat)
    requires 0 < n <= |sizes|
    requires Skeleton(before) == s + Blocks(sizes[..n - 1])
    requires Skeleton(after) == Skeleton(before) + Block(sizes[n - 1])
    ensures Skeleton(after) == s + Blocks(sizes[..n])
  {
    BlocksSnoc(sizes, n);
    var b, c := Blocks(sizes[..n - 1]), Block(sizes[n - 1]);
    assert (s + b) + c == s + (b + c);
  }

  /** An iteration that completes adds, warnings aside, the block of its
      size. */
  lemma IterationSkeleton(f: Files, sizes: seq<nat>, i: nat, tool: Tool)
    requires i < |sizes|
    ensures Iteration(f, sizes, i, tool).outcome.Finished? ==>
      Skeleton(Iteration(f, sizes, i, tool).files.effects) == Skeleton(f.effects) + Block(sizes[i])
  {
    var gate := GateAt(f.logs, sizes, i);
    if gate.Ok? {
      SkeletonOfIteration(f.effects, gate.value, sizes[i]);
    }
  }

  /** A sweep that finishes has run the tool once per size. */
  lemma SweepToolRuns(f: Files, sizes: seq<nat>, n: nat, tool: Tool)
    requires n <= |sizes|
    ensures Sweep(f, sizes, n, tool).outcome.Finished? ==>
      ToolRuns(Sweep(f, sizes, n, tool).files.effects) == ToolRuns(f.effects) + n
  {
    var r := Sweep(f, sizes, n, tool);
    if r.outcome.Finished? {
      SweepEffects(f, sizes, n, tool);
      ToolRunsSkeleton(r.files.effects);
      ToolRunsSkeleton(f.effects);
      ToolRunsAppend(Skeleton(f.effects), Blocks(sizes[..n]));
      ToolRunsBlocks(sizes[..n]);
    }
  }

  /** After a finished sweep the Verilog source and the TCL script are
      those of the last size, as if rewritten once from the start, and the
      tool was last run on exactly those files. */
  lemma {:induction false} SweepLastSize(f: Files, sizes: seq<nat>, n: nat, tool: Tool)
    requires 0 < n <= |sizes|
    ensures Sweep(f, sizes, n, tool).outcome.Finished? ==>
      Sweep(f, sizes, n, tool).files.verilog == QueueSizeRewrite(f.verilog, sizes[n - 1]) &&
      Sweep(f, sizes, n, tool).files.tcl == TclRewrite(f.tcl, sizes[n - 1])
    decreases n
  {
    if n > 1 && Sweep(f, sizes, n - 1, tool).outcome.Finished? {
      SweepLastSize(f, sizes, n - 1, tool);
      QueueSizeRewriteLastWins(f.verilog, sizes[n - 2], sizes[n - 1]);
      TclRewriteLastWins(f.tcl, sizes[n - 2], sizes[n - 1]);
    }
  }

  /** Every warning among `effects` reports a utilization over the limit. */
  predicate WarningsOverLimit(effects: seq<Effect>)
    decreases |effects|
  {
    effects == [] ||
    ((effects[0].UtilizationWarning? ==> effects[0].utilization > UtilizationLimit) && WarningsOverLimit(effects[1..]))
  }

  /** Every warning the sweep records reports a utilization over the limit. */
  lemma {:induction false} SweepWarnings(f: Files, sizes: seq<nat>, n: nat, tool: Tool)
    requires n <= |sizes|
    requires WarningsOverLimit(f.effects)
    ensures WarningsOverLimit(Sweep(f, sizes, n, tool).files.effects)
    decreases n
  {
    if n > 0 {
      var before := Sweep(f, sizes, n - 1, tool);
      SweepWarnings(f, sizes, n - 1, tool);
      if before.outcome.Finished? {
        IterationWarnings(before.files, sizes, n - 1, tool);
      }
    }
  }

  lemma IterationWarnings(f: Files, sizes: seq<nat>, i: nat, tool: Tool)
    requires i < |sizes| && WarningsOverLimit(f.effects)
    ensures WarningsOverLimit(Iteration(f, sizes, i, tool).files.effects)
  {
    var gate := GateAt(f.logs, sizes, i);
    if gate.Ok? {
      GateOver(f.logs, sizes, i);
      WarningsAfterIteration(f.effects, gate.value, sizes[i]);
    }
  }

  lemma WarningsAfterIteration(effects: seq<Effect>, found: Option<real>, size: nat)
    requires WarningsOverLimit(effects)
    requires found.Some? ==> found.value > UtilizationLimit
    ensures WarningsOverLimit(effects + Warning(found) + Block(size))
  {
    var b := Block(size);
    assert WarningsOverLimit(b) by {
      BlockShape(size);
    }
    WarningsOverLimitAppend(effects, Warning(found));
    WarningsOverLimitAppend(effects + Warning(found), b);
  }

  lemma {:induction false} WarningsOverLimitAppend(a: seq<Effect>, b: seq<Effect>)
    requires WarningsOverLimit(a) && WarningsOverLimit(b)
    ensures WarningsOverLimit(a + b)
    decreases |a|
  {
    if a == [] {
      assert a + b == b;
    } else {
      assert (a + b)[1..] == a[1..] + b;
      WarningsOverLimitAppend(a[1..], b);
    }
  }

  /** A utilization the gate reports is over the limit. */
  lemma GateOver(logs: map<string, seq<string>>, sizes: seq<nat>, i: nat)
    requires i < |sizes|
    ensures GateAt(logs, sizes, i).Ok? && GateAt(logs, sizes, i).value.Some? ==>
      GateAt(logs, sizes, i).value.value > UtilizationLimit
  {
    if i >= 1 && LogName(sizes[i - 1]) in logs {
      var lines := logs[LogName(sizes[i - 1])];
      GateScanSpec(lines);
      if GateScan(lines).Ok? && GateScan(lines).value.Some? {
        var j :| 0 <= j < |lines| && Contains(lines[j], LutMarker) && !UnderLimit(lines[j]) &&
          ReadsUnderLimit(lines[..j]) && GateScan(lines) == StopVerdict(lines[j]);
      }
    }
  }

  /** The gate of iteration `i` reads nothing but the log of the previous
      size, and the first size has no gate. */
  lemma GateReadsPreviousLog(a: map<string, seq<string>>, b: map<string, seq<string>>, sizes: seq<nat>, i: nat)
    requires i < |sizes|
    requires i >= 1 ==> (LogName(sizes[i - 1]) in a <==> LogName(sizes[i - 1]) in b)
    requires i >= 1 && LogName(sizes[i - 1]) in a ==> a[LogName(sizes[i - 1])] == b[LogName(sizes[i - 1])]
    ensures GateAt(a, sizes, i) == GateAt(b, sizes, i)
    ensures i == 0 ==> GateAt(a, sizes, i) == Ok(None)
  {
  }

  /** One more iteration of a sweep that has not stopped. */
  lemma SweepStep(f: Files, sizes: seq<nat>, i: nat, tool: Tool)
    requires i < |sizes| && Sweep(f, sizes, i, tool).outcome.Finished?
    ensures Sweep(f, sizes, i + 1, tool) == Iteration(Sweep(f, sizes, i, tool).files, sizes, i, tool)
  {
  }

  /** Once the sweep stops, later iterations change nothing. */
  lemma {:induction false} SweepStaysStopped(f: Files, sizes: seq<nat>, k: nat, n: nat, tool: Tool)
    requires k <= n <= |sizes|
    requires !Sweep(f, sizes, k, tool).outcome.Finished?
    ensures Sweep(f, sizes, n, tool) == Sweep(f, sizes, k, tool)
    decreases n
  {
    if n > k {
      SweepStaysStopped(f, sizes, k, n - 1, tool);
    }
  }

  /** The driver never stops early: its only outcomes are finishing and an
      exception. */
  lemma {:induction false} SweepNeverStops(f: Files, sizes: seq<nat>, n: nat, tool: Tool)
    requires n <= |sizes|
    ensures !Sweep(f, sizes, n, tool).outcome.Stopped?
    decreases n
  {
    if n > 0 {
      SweepNeverStops(f, sizes, n - 1, tool);
    }
  }

  /** The whole script, when it finishes: the baseline log and tool run,
      then one block per size in list order, so the tool runs once more
      than there are sizes. */
  lemma ExperimentEffects(f: Files, tool: Tool)
    ensures Experiment(f, tool).outcome.Finished? ==>
      Skeleton(Experiment(f, tool).files.effects) ==
        Skeleton(f.effects) + [LogCreated(BaselineSize), ToolInvoked] + Blocks(QueueSizes)
    ensures Experiment(f, tool).outcome.Finished? ==>
      ToolRuns(Experiment(f, tool).files.effects) == ToolRuns(f.effects) + 1 + |QueueSizes|
  {
    var cleared := f.(logs := WithoutAnalysisLogs(f.logs));
    var base := Baseline(cleared, tool);
    var head: seq<Effect> := [LogCreated(BaselineSize), ToolInvoked];
    assert Skeleton(head) == head && ToolRuns(head) == 1 by {
      assert head[1..] == [ToolInvoked] && head[1..][1..] == [];
      assert ToolRuns(head[1..]) == 1;
    }
    SkeletonAppend(f.effects, head);
    ToolRunsAppend(f.effects, head);
    SweepEffects(base, QueueSizes, |QueueSizes|, tool);
    SweepToolRuns(base, QueueSizes, |QueueSizes|, tool);
    assert QueueSizes[..|QueueSizes|] == QueueSizes;
  }

  // ---------------------------------------------------------------------
  // The gate as its diagnostic describes it
  // ---------------------------------------------------------------------

  /** As the driver is written, a warning does not end the sweep: the
      size is still run in full after the diagnostic that says the script
      is exiting. */
  lemma WarningDoesNotStop(f: Files, sizes: seq<nat>, i: nat, tool: Tool, u: real)
    requires i < |sizes| && GateAt(f.logs, sizes, i) == Ok(Some(u))
    ensures Iteration(f, sizes, i, tool).outcome == Finished
    ensures Iteration(f, sizes, i, tool).files.effects == f.effects + [UtilizationWarning(u)] + Block(sizes[i])
    ensures ToolRuns(Iteration(f, sizes, i, tool).files.effects) == ToolRuns(f.effects) + 1
  {
    var w: seq<Effect> := [UtilizationWarning(u)];
    assert ToolRuns(w) == 0 by {
      assert w[1..] == [];
    }
    BlockShape(sizes[i]);
    ToolRunsAppend(f.effects, w);
    ToolRunsAppend(f.effects + w, Block(sizes[i]));
  }

  /** A sweep that finishes after `n` sizes also finished after each
      earlier count, and its trace extends the earlier traces. */
  lemma {:induction false} SweepEffectsGrow(f: Files, sizes: seq<nat>, k: nat, n: nat, tool: Tool)
    requires k <= n <= |sizes|
    requires Sweep(f, sizes, n, tool).outcome.Finished?
    ensures Sweep(f, sizes, k, tool).outcome.Finished?
    ensures Sweep(f, sizes, k, tool).files.effects <= Sweep(f, sizes, n, tool).files.effects
    decreases n
  {
    if k < n {
      var before := Sweep(f, sizes, n - 1, tool);
      SweepEffectsGrow(f, sizes, k, n - 1, tool);
      var gate := GateAt(before.files.logs, sizes, n - 1);
      assert Sweep(f, sizes, n, tool).files.effects == before.files.effects + Warning(gate.value) + Block(sizes[n - 1]);
    }
  }

  /** As the driver is written, a sweep whose gate fires at size `i` runs
      on: the size is run in full after the warning, right after the
      effects of the earlier sizes, and the sweep has not stopped. */
  lemma SweepWarningStep(f: Files, sizes: seq<nat>, i: nat, tool: Tool, u: real)
    requires i < |sizes|
    requires Sweep(f, sizes, i, tool).outcome.Finished?
    requires GateAt(Sweep(f, sizes, i, tool).files.logs, sizes, i) == Ok(Some(u))
    ensures Sweep(f, sizes, i + 1, tool).outcome.Finished?
    ensures Sweep(f, sizes, i + 1, tool).files.effects ==
      Sweep(f, sizes, i, tool).files.effects + [UtilizationWarning(u)] + Block(sizes[i])
  {
    SweepStep(f, sizes, i, tool);
    WarningDoesNotStop(Sweep(f, sizes, i, tool).files, sizes, i, tool, u);
  }

  /** Iteration `i` with the gate ending the sweep, as the diagnostic
      "Exiting script." says it should. */
  function GatedIteration(f: Files, sizes: seq<nat>, i: nat, tool: Tool): Run
    requires i < |sizes|
  {
    var gate := GateAt(f.logs, sizes, i);
    if gate.Err? then Run(f, Crashed(gate.error))
    else if gate.value.Some? then Run(f.(effects := f.effects + Warning(gate.value)), Stopped(gate.value.value))
    else Run(Perform(f, sizes[i], tool), Finished)
  }

  /** The first `n` iterations of the sweep with the gate ending it. */
  function GatedSweep(f: Files, sizes: seq<nat>, n: nat, tool: Tool): Run
    requires n <= |sizes|
  {
    if n == 0 then Run(f, Finished)
    else
      var before := GatedSweep(f, sizes, n - 1, tool);
      if before.outcome.Finished? then GatedIteration(before.files, sizes, n - 1, tool) else before
  }

  /** With the gate ending the sweep, a warning is the last effect: the
      tool is not run again after it, and the reported utilization is over
      the limit. */
  lemma {:induction false} GatedSweepStops(f: Files, sizes: seq<nat>, n: nat, tool: Tool)
    requires n <= |sizes|
    ensures GatedSweep(f, sizes, n, tool).outcome.Stopped? ==>
      var r := GatedSweep(f, sizes, n, tool);
      |r.files.effects| > 0 && r.files.effects[|r.files.effects| - 1] == UtilizationWarning(r.outcome.utilization) &&
      r.outcome.utilization > UtilizationLimit
    decreases n
  {
    if n > 0 {
      var before := GatedSweep(f, sizes, n - 1, tool);
      GatedSweepStops(f, sizes, n - 1, tool);
      if before.outcome.Finished? {
        GatedIterationStops(before.files, sizes, n - 1, tool);
      }
    }
  }

  lemma GatedIterationStops(f: Files, sizes: seq<nat>, i: nat, tool: Tool)
    requires i < |sizes|
    ensures GatedIteration(f, sizes, i, tool).outcome.Stopped? ==>
      var r := GatedIteration(f, sizes, i, tool);
      |r.files.effects| > 0 && r.files.effects[|r.files.effects| - 1] == UtilizationWarning(r.outcome.utilization) &&
      r.outcome.utilization > UtilizationLimit
  {
    GateOver(f.logs, sizes, i);
  }

  /** Where the gate does not fire, the corrected sweep is the sweep as
      written. */
  lemma {:induction false} GatedSweepAgrees(f: Files, sizes: seq<nat>, n: nat, tool: Tool)
    requires n <= |sizes|
    ensures !GatedSweep(f, sizes, n, tool).outcome.Stopped? ==> GatedSweep(f, sizes, n, tool) == Sweep(f, sizes, n, tool)
    decreases n
  {
    if n > 0 && !GatedSweep(f, sizes, n, tool).outcome.Stopped? {
      var before := GatedSweep(f, sizes, n - 1, tool);
      GatedSweepAgrees(f, sizes, n - 1, tool);
      if before.outcome.Finished? {
        var files := before.files;
        var gate := GateAt(files.logs, sizes, n - 1);
        if gate.Ok? {
          assert files.(effects := files.effects + Warning(gate.value)) == files;
        }
      }
    }
  }

  // ---------------------------------------------------------------------
  // The driver, step by step
  // ---------------------------------------------------------------------

  /** The world the driver changes: the Verilog source, the TCL script,
      the log directory, and the effects so far. */
  class Workspace {
    var verilog: seq<string>
    var tcl: seq<string>
    var logs: map<string, seq<string>>
    var effects: seq<Effect>

    constructor(verilog: seq<string>, tcl: seq<string>, logs: map<string, seq<string>>)
      ensures Snapshot() == Files(verilog, tcl, logs, [])
    {
      this.verilog := verilog;
      this.tcl := tcl;
      this.logs := logs;
      this.effects := [];
    }

    function Snapshot(): Files
      reads this
    {
      Files(verilog, tcl, logs, effects)
    }

    /** Erases every `pq_analysis_*.txt` file of the log directory and
        nothing else. */
    method ClearAnalysisLogs()
      modifies this
      ensures Snapshot() == old(Snapshot()).(logs := WithoutAnalysisLogs(old(logs)))
    {
      var names := logs.Keys;
      while names != {}
        invariant names <= old(logs).Keys
        invariant verilog == old(verilog) && tcl == old(tcl) && effects == old(effects)
        invariant logs == map name | name in old(logs) && (name in names || !IsAnalysisLog(name)) :: old(logs)[name]
        decreases names
      {
        var name :| name in names;
        if IsAnalysisLog(name) {
          logs := logs - {name};
        }
        names := names - {name};
      }
    }

    /** Creates (or truncates) the log of `size` with its two header lines. */
    method CreateLog(size: nat)
      modifies this
      ensures Snapshot() == old(Snapshot()).(logs := old(logs)[LogName(size) := LogHeader(size)],
                                             effects := old(effects) + [LogCreated(size)])
    {
      logs := logs[LogName(size) := LogHeader(size)];
      effects := effects + [LogCreated(size)];
    }

    /** `update_queue_size`: every line holding `parameter QUEUE_SIZE` is
        replaced by the line for `size`; the others are written back. */
    method UpdateQueueSize(size: nat)
      modifies this
      ensures Snapshot() == old(Snapshot()).(verilog := QueueSizeRewrite(old(verilog), size),
                                             effects := old(effects) + [VerilogRewritten(size)])
    {
      var lines := verilog;
      var written: seq<string> := [];
      for i := 0 to |lines|
        invariant |written| == i
        invariant forall j :: 0 <= j < i ==> written[j] == RewriteLine(lines[j], size)
      {
        var line := lines[i];
        if Contains(line, QueueSizeMarker) {
          line := QueueSizeLine(size);
        }
        written := written + [line];
      }
      QueueSizeRewriteLines(lines, size);
      verilog := written;
      effects := effects + [VerilogRewritten(size)];
    }

    /** The TCL rewrite: the script is read, passed through the flag loop
        and written back. */
    method RewriteTcl(size: nat)
      modifies this
      ensures Snapshot() == old(Snapshot()).(tcl := TclRewrite(old(tcl), size),
                                             effects := old(effects) + [TclRewritten(size)])
    {
      var written := TclFlagPass(tcl, size);
      tcl := written;
      effects := effects + [TclRewritten(size)];
    }

    /** One run of the synthesis tool on the current files. */
    method InvokeTool(tool: Tool)
      modifies this
      ensures Snapshot() == old(Snapshot()).(logs := tool(old(verilog), old(tcl), old(logs)),
                                             effects := old(effects) + [ToolInvoked])
    {
      logs := tool(verilog, tcl, logs);
      effects := effects + [ToolInvoked];
    }

    /** The gate: opens the log of the previous size and scans it; the
        first `LUTs Util%` line over the limit is reported and ends the
        scan (and only the scan). */
    method CheckPreviousLog(prev: nat) returns (error: Option<PyError>)
      modifies this
      ensures Gate(old(logs), prev).Err? ==> error == Some(Gate(old(logs), prev).error) && Snapshot() == old(Snapshot())
      ensures Gate(old(logs), prev).Ok? ==>
        error == None && Snapshot() == old(Snapshot()).(effects := old(effects) + Warning(Gate(old(logs), prev).value))
    {
      var name := LogName(prev);
      if name !in logs {
        return Some(FileNotFoundError);
      }
      var lines := logs[name];
      error := None;
      for i := 0 to |lines|
        invariant GateScan(lines[i..]) == GateScan(lines)
        invariant Snapshot() == old(Snapshot())
      {
        var line := lines[i];
        assert lines[i..][1..] == lines[i + 1..];
        if Contains(line, LutMarker) {
          var utilization := LutUtilization(line);
          if utilization.Err? {
            return Some(utilization.error);
          }
          if utilization.value > UtilizationLimit {
            effects := effects + [UtilizationWarning(utilization.value)];
            return;
          }
        }
      }
    }

    /** One size of the sweep: from the second size on, the gate; then
        the log, both rewrites and a tool run for the size. */
    method RunIteration(sizes: seq<nat>, i: nat, tool: Tool) returns (outcome: Outcome)
      requires i < |sizes|
      modifies this
      ensures Run(Snapshot(), outcome) == Iteration(old(Snapshot()), sizes, i, tool)
    {
      ghost var gate := GateAt(logs, sizes, i);
      if i >= 1 {
        var error := CheckPreviousLog(sizes[i - 1]);
        if error.Some? {
          return Crashed(error.value);
        }
      }
      assert Snapshot() == old(Snapshot()).(effects := old(effects) + Warning(gate.value));
      ghost var warned := Snapshot();
      CreateLog(sizes[i]);
      UpdateQueueSize(sizes[i]);
      RewriteTcl(sizes[i]);
      InvokeTool(tool);
      assert effects == warned.effects + Block(sizes[i]);
      outcome := Finished;
    }

    /** The sweep over `sizes`, size by size, until the end or the first
        exception. */
    method RunSweep(sizes: seq<nat>, tool: Tool) returns (outcome: Outcome)
      modifies this
      ensures Run(Snapshot(), outcome) == Sweep(old(Snapshot()), sizes, |sizes|, tool)
    {
      ghost var start := Snapshot();
      outcome := Finished;
      for i := 0 to |sizes|
        invariant Sweep(start, sizes, i, tool) == Run(Snapshot(), Finished)
      {
        SweepStep(start, sizes, i, tool);
        var step := RunIteration(sizes, i, tool);
        if !step.Finished? {
          outcome := step;
          SweepStaysStopped(start, sizes, i + 1, |sizes|, tool);
          return;
        }
      }
    }

    /** The whole script: erase the old logs, create the baseline log, run
        the tool once, then sweep the fixed list of sizes. */
    method RunExperiment(tool: Tool) returns (outcome: Outcome)
      modifies this
      ensures Run(Snapshot(), outcome) == Experiment(old(Snapshot()), tool)
    {
      ClearAnalysisLogs();
      CreateLog(BaselineSize);
      InvokeTool(tool);
      ghost var base := Snapshot();
      assert base == Baseline(old(Snapshot()).(logs := WithoutAnalysisLogs(old(logs))), tool) by {
        assert effects == old(effects) + [LogCreated(BaselineSize), ToolInvoked];
      }
      outcome := RunSweep(QueueSizes, tool);
    }
  }
}
