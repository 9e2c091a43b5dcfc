/** `parse_data_from_file` of the frequency-sweep plotting script: one pass
    over the lines of an analysis log, an if/elif chain choosing what a line
    reports, and the readings appended to nine lists. */
module Plotting {
  import opened Wrappers
  import opened PyStr
  import opened PyNum
  import opened LogFields

  /** What a line reports, in the order the chain tries them. */
  datatype LineKind =
    | SynthesisLine | ImplementationLine | PowerLine | WnsLine
    | SliceLutsLine | SliceRegistersLine | AchievedFrequencyLine | QueueSizeLine

  /** The substring that selects each branch (besides `Frequency`). */
  function Label(k: LineKind): string
  {
    match k
    case SynthesisLine => "Synthesis"
    case ImplementationLine => "Implementation"
    case PowerLine => "Power"
    case WnsLine => "WNS"
    case SliceLutsLine => "Used Slice LUTs"
    case SliceRegistersLine => "Used Slice Registers"
    case AchievedFrequencyLine => "Achieved Frequency"
    case QueueSizeLine => "Queue Size"
  }

  /** The position of each branch in the chain. */
  function Rank(k: LineKind): nat
  {
    match k
    case SynthesisLine => 0
    case ImplementationLine => 1
    case PowerLine => 2
    case WnsLine => 3
    case SliceLutsLine => 4
    case SliceRegistersLine => 5
    case AchievedFrequencyLine => 6
    case QueueSizeLine => 7
  }

  /** The if/elif chain: a line holding `Frequency` goes to the first
      branch whose label it holds; any other line goes nowhere. */
  function Classify(line: string): Option<LineKind>
  {
    if Contains(line, "Frequency") && Contains(line, "Synthesis") then Some(SynthesisLine)
    else if Contains(line, "Frequency") && Contains(line, "Implementation") then Some(ImplementationLine)
    else if Contains(line, "Frequency") && Contains(line, "Power") then Some(PowerLine)
    else if Contains(line, "Frequency") && Contains(line, "WNS") then Some(WnsLine)
    else if Contains(line, "Frequency") && Contains(line, "Used Slice LUTs") then Some(SliceLutsLine)
    else if Contains(line, "Frequency") && Contains(line, "Used Slice Registers") then Some(SliceRegistersLine)
    else if Contains(line, "Frequency") && Contains(line, "Achieved Frequency") then Some(AchievedFrequencyLine)
    else if Contains(line, "Frequency") && Contains(line, "Queue Size") then Some(QueueSizeLine)
    else None
  }

  /** The chain picks the first label in chain order that the line holds,
      provided it holds `Frequency`; a line holding no label, or not
      `Frequency`, is of no kind. */
  lemma ClassifyFirstMatch(line: string)
    ensures Classify(line).Some? ==> Contains(line, "Frequency") && Contains(line, Label(Classify(line).value))
    ensures Classify(line).Some? ==> forall k :: Rank(k) < Rank(Classify(line).value) ==> !Contains(line, Label(k))
    ensures Classify(line).None? <==> !Contains(line, "Frequency") || forall k :: !Contains(line, Label(k))
  {
  }

  /** The nine lists the function returns, in its return order. */
  datatype PlotData = PlotData(
    frequencies: seq<real>,
    synthesisTimes: seq<real>,
    implementationTimes: seq<real>,
    powerValues: seq<real>,
    wnsValues: seq<real>,
    usedSliceLuts: seq<real>,
    usedSliceRegisters: seq<real>,
    achievedFrequencies: seq<real>,
    queueSizes: seq<real>)

  const Empty := PlotData([], [], [], [], [], [], [], [], [])

  /** One line of the loop: a synthesis line takes both its tokens, then
      converts both; every other branch takes one token of the text after
      the first arrow, converts it and appends it to its list. */
  function Step(d: PlotData, line: string): Result<PlotData, PyError>
  {
    match Classify(line)
    case None => Ok(d)
    case Some(SynthesisLine) =>
      var freqPart :- Token(line, 0, 1);
      var synthPart :- Token(line, 1, 1);
      var freq :- ParseFloat(freqPart);
      var synth :- ParseFloat(synthPart);
      Ok(d.(frequencies := d.frequencies + [freq], synthesisTimes := d.synthesisTimes + [synth]))
    case Some(kind) =>
      var v :- Reading(line, Source(Target(kind)));
      Ok(Append(d, Target(kind), v))
  }

  /** The whole loop: the lines in order, stopping at the first exception. */
  function Parse(lines: seq<string>): Result<PlotData, PyError>
  {
    Scan(lines, Empty, Step)
  }

  /** Reading a log: a missing file raises FileNotFoundError. */
  function ParseFile(files: map<string, seq<string>>, path: string): Result<PlotData, PyError>
  {
    if path !in files then Err(FileNotFoundError) else Parse(files[path])
  }

  // ---------------------------------------------------------------------
  // The lists as images of the lines
  // ---------------------------------------------------------------------

  /** The returned lists, named. */
  datatype Column =
    | Frequencies | SynthesisTimes | ImplementationTimes | PowerValues | WnsValues
    | UsedSliceLuts | UsedSliceRegisters | AchievedFrequencies | QueueSizes

  function Get(d: PlotData, c: Column): seq<real>
  {
    match c
    case Frequencies => d.frequencies
    case SynthesisTimes => d.synthesisTimes
    case ImplementationTimes => d.implementationTimes
    case PowerValues => d.powerValues
    case WnsValues => d.wnsValues
    case UsedSliceLuts => d.usedSliceLuts
    case UsedSliceRegisters => d.usedSliceRegisters
    case AchievedFrequencies => d.achievedFrequencies
    case QueueSizes => d.queueSizes
  }

  /** The lines each list is read from. */
  function Kind(c: Column): LineKind
  {
    match c
    case Frequencies => SynthesisLine
    case SynthesisTimes => SynthesisLine
    case ImplementationTimes => ImplementationLine
    case PowerValues => PowerLine
    case WnsValues => WnsLine
    case UsedSliceLuts => SliceLutsLine
    case UsedSliceRegisters => SliceRegistersLine
    case AchievedFrequencies => AchievedFrequencyLine
    case QueueSizes => QueueSizeLine
  }

  /** Where on its line each list's value sits: the frequency is token 1
      before the first arrow; durations, power and slack token 1 after it;
      the resource counts token 3; achieved frequency and queue size
      token 2. */
  function Source(c: Column): Field
  {
    match c
    case Frequencies => Field(0, 1, false)
    case SynthesisTimes | ImplementationTimes | PowerValues | WnsValues => Field(1, 1, false)
    case UsedSliceLuts | UsedSliceRegisters => Field(1, 3, false)
    case AchievedFrequencies | QueueSizes => Field(1, 2, false)
  }

  /** The list a branch appends to (for the synthesis branch, the second
      of its two). */
  function Target(k: LineKind): (c: Column)
    ensures Kind(c) == k && c != Frequencies
  {
    match k
    case SynthesisLine => SynthesisTimes
    case ImplementationLine => ImplementationTimes
    case PowerLine => PowerValues
    case WnsLine => WnsValues
    case SliceLutsLine => UsedSliceLuts
    case SliceRegistersLine => UsedSliceRegisters
    case AchievedFrequencyLine => AchievedFrequencies
    case QueueSizeLine => QueueSizes
  }

  /** `lst.append(v)` on one of the lists; the others stay as they are. */
  function Append(d: PlotData, c: Column, v: real): (r: PlotData)
    ensures forall e :: Get(r, e) == Get(d, e) + (if e == c then [v] else [])
  {
    match c
    case Frequencies => d.(frequencies := d.frequencies + [v])
    case SynthesisTimes => d.(synthesisTimes := d.synthesisTimes + [v])
    case ImplementationTimes => d.(implementationTimes := d.implementationTimes + [v])
    case PowerValues => d.(powerValues := d.powerValues + [v])
    case WnsValues => d.(wnsValues := d.wnsValues + [v])
    case UsedSliceLuts => d.(usedSliceLuts := d.usedSliceLuts + [v])
    case UsedSliceRegisters => d.(usedSliceRegisters := d.usedSliceRegisters + [v])
    case AchievedFrequencies => d.(achievedFrequencies := d.achievedFrequencies + [v])
    case QueueSizes => d.(queueSizes := d.queueSizes + [v])
  }

  /** The lines of one kind, in file order. */
  function Selected(lines: seq<string>, k: LineKind): seq<string>
  {
    Filter(lines, line => Classify(line) == Some(k))
  }

  /** Every reading a line of its kind calls for succeeds. */
  predicate LineOk(line: string)
  {
    forall c :: Classify(line) == Some(Kind(c)) ==> Reading(line, Source(c)).Ok?
  }

  /** A list other than the frequencies is the one its kind's branch
      appends to. */
  lemma TargetKind(c: Column)
    ensures c != Frequencies ==> Target(Kind(c)) == c
  {
  }

  /** One line changes a list only if the line is of that list's kind,
      and then by appending the reading of the list's field, which must
      succeed. */
  lemma StepColumn(d: PlotData, line: string, c: Column)
    ensures Step(d, line).Ok? && Classify(line) == Some(Kind(c)) ==> Reading(line, Source(c)).Ok?
    ensures Step(d, line).Ok? ==>
      Get(Step(d, line).value, c) ==
        Get(d, c) + (if Classify(line) == Some(Kind(c)) then [Reading(line, Source(c)).value] else [])
  {
    TargetKind(c);
    if Classify(line) == Some(SynthesisLine) {
      StepSynthesis(d, line);
    }
  }

  /** A line raises exactly when one of the readings of its kind fails;
      the lists built so far play no part. */
  lemma StepOk(d: PlotData, line: string)
    ensures Step(d, line).Ok? <==> LineOk(line)
  {
    forall c {
      StepColumn(d, line, c);
    }
    if Classify(line).Some? {
      var k := Classify(line).value;
      assert Kind(Target(k)) == k;
      if k == SynthesisLine {
        StepSynthesis(d, line);
        assert Kind(Frequencies) == k;
      }
    }
  }

  /** A line without `Frequency`, or without any label of the chain,
      changes nothing. */
  lemma StepIgnores(d: PlotData, line: string)
    requires !Contains(line, "Frequency") || forall k :: !Contains(line, Label(k))
    ensures Step(d, line) == Ok(d)
  {
    ClassifyFirstMatch(line);
  }

  /** A synthesis line appends its frequency and its synthesis time. A
      missing arrow or token raises IndexError before any conversion; with
      both tokens present, the only error left is ValueError from
      `float()`. */
  lemma StepSynthesis(d: PlotData, line: string)
    requires Classify(line) == Some(SynthesisLine)
    ensures Step(d, line).Ok? <==>
      Reading(line, Source(Frequencies)).Ok? && Reading(line, Source(SynthesisTimes)).Ok?
    ensures Step(d, line).Ok? ==>
      Step(d, line).value == d.(frequencies := d.frequencies + [Reading(line, Source(Frequencies)).value],
                                synthesisTimes := d.synthesisTimes + [Reading(line, Source(SynthesisTimes)).value])
    ensures Token(line, 0, 1).Err? || Token(line, 1, 1).Err? ==> Step(d, line) == Err(IndexError)
    ensures Token(line, 0, 1).Ok? && Token(line, 1, 1).Ok? && Step(d, line).Err? ==> Step(d, line) == Err(ValueError)
  {
  }

  /** The parse returns normally exactly when every line of a kind can be
      read: lines of no kind (among them every line without `Frequency`)
      cannot make it raise. */
  lemma ParseOk(lines: seq<string>)
    ensures Parse(lines).Ok? <==> forall i :: 0 <= i < |lines| ==> LineOk(lines[i])
  {
    forall d, line {
      StepOk(d, line);
    }
    ScanOk(lines, Empty, Step, LineOk);
  }

  /** Each list is `float()` of its field over the lines of its kind, in
      file order: the order-preserving image of those lines, with nothing
      from any other line. */
  lemma ParseColumns(lines: seq<string>)
    ensures Parse(lines).Ok? ==>
      forall c :: ReadAll(Selected(lines, Kind(c)), Source(c)) == Ok(Get(Parse(lines).value, c))
  {
    forall c {
      ParseColumn(lines, c);
    }
  }

  lemma ParseColumn(lines: seq<string>, c: Column)
    ensures Parse(lines).Ok? ==> ReadAll(Selected(lines, Kind(c)), Source(c)) == Ok(Get(Parse(lines).value, c))
  {
    forall d, line {
      StepColumn(d, line, c);
    }
    ScanColumn(lines, Empty, Step, d => Get(d, c), line => Classify(line) == Some(Kind(c)), Source(c));
  }

  /** On normal return there are as many frequencies as synthesis times:
      one of each per synthesis line. */
  lemma ParseLengths(lines: seq<string>)
    ensures Parse(lines).Ok? ==>
      |Parse(lines).value.frequencies| == |Parse(lines).value.synthesisTimes| == |Selected(lines, SynthesisLine)|
  {
    ParseColumns(lines);
    if Parse(lines).Ok? {
      assert ReadAll(Selected(lines, SynthesisLine), Source(Frequencies)) == Ok(Get(Parse(lines).value, Frequencies));
      assert ReadAll(Selected(lines, SynthesisLine), Source(SynthesisTimes)) == Ok(Get(Parse(lines).value, SynthesisTimes));
    }
  }

  /** `parse_data_from_file`: the lists grow as the loop runs; the first
      failing token or conversion ends the function. */
  method ParseDataFromFile(files: map<string, seq<string>>, path: string) returns (r: Result<PlotData, PyError>)
    ensures r == ParseFile(files, path)
  {
    if path !in files {
      return Err(FileNotFoundError);
    }
    var lines := files[path];
    var data := Empty;
    for i := 0 to |lines|
      invariant Parse(lines[..i]) == Ok(data)
    {
      ScanSnoc(lines, i, Empty, Step);
      ScanFailureFinal(lines, i + 1, Empty, Step);
      data :- Step(data, lines[i]);
    }
    assert lines[..|lines|] == lines;
    return Ok(data);
  }
}
