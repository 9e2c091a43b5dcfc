/** The achieved-frequency plotting script: `parse_achieved_frequencies`,
    which pairs each requested frequency with the frequency the tool
    achieved, and the module-level pass over the log directory that sorts
    the entries by the number in their names, keeps the analysis logs and
    fills the `all_data` dictionary. */
module AchievedFrequencyPlotting {
  import opened Wrappers
  import opened PyStr
  import opened PyNum
  import opened LogFields
  import opened AnalysisLogs

  // ---------------------------------------------------------------------
  // parse_achieved_frequencies
  // ---------------------------------------------------------------------

  /** The two lists the function returns. */
  datatype Series = Series(frequencies: seq<real>, achievedFrequencies: seq<real>)

  const NoSeries := Series([], [])

  /** The one branch of the loop. */
  predicate IsAchievedLine(line: string)
  {
    Contains(line, "Frequency") && Contains(line, "Achieved Frequency")
  }

  /** The requested frequency: token 1 before the first arrow. */
  const RequestedField := Field(0, 1, false)

  /** The achieved frequency: token 2 after the first arrow. */
  const AchievedField := Field(1, 2, false)

  /** One line of the loop: an achieved-frequency line takes both tokens,
      then converts both, and appends one value to each list. */
  function Step(s: Series, line: string): Result<Series, PyError>
  {
    if !IsAchievedLine(line) then Ok(s)
    else
      var freqPart :- Token(line, 0, 1);
      var achievedPart :- Token(line, 1, 2);
      var freq :- ParseFloat(freqPart);
      var achieved :- ParseFloat(achievedPart);
      Ok(Series(s.frequencies + [freq], s.achievedFrequencies + [achieved]))
  }

  /** The whole loop: the lines in order, stopping at the first exception. */
  function Parse(lines: seq<string>): Result<Series, PyError>
  {
    Scan(lines, NoSeries, Step)
  }

  /** Reading a log: a missing file raises FileNotFoundError. */
  function ParseFile(files: map<string, seq<string>>, path: string): Result<Series, PyError>
  {
    if path !in files then Err(FileNotFoundError) else Parse(files[path])
  }

  /** Both fields of an achieved-frequency line can be read. */
  predicate LineOk(line: string)
  {
    IsAchievedLine(line) ==> Reading(line, RequestedField).Ok? && Reading(line, AchievedField).Ok?
  }

  /** `Achieved Frequency` contains `Frequency`: the first test of the
      branch adds nothing to the second. */
  lemma AchievedHoldsFrequency(line: string)
    ensures IsAchievedLine(line) <==> Contains(line, "Achieved Frequency")
  {
    if Contains(line, "Achieved Frequency") {
      ContainsIff(line, "Achieved Frequency");
      var i: nat :| OccursAt(line, "Achieved Frequency", i);
      assert line[i + 9..i + 18] == line[i..i + 18][9..18];
      ContainsAt(line, "Frequency", i + 9);
    }
  }

  /** One line raises exactly when it is an achieved-frequency line with
      a field that cannot be read; otherwise it appends the two readings of
      an achieved-frequency line and leaves any other line out. */
  lemma StepReads(s: Series, line: string)
    ensures Step(s, line).Ok? <==> LineOk(line)
    ensures Step(s, line).Ok? ==>
      Step(s, line).value ==
        if IsAchievedLine(line) then
          Series(s.frequencies + [Reading(line, RequestedField).value],
                 s.achievedFrequencies + [Reading(line, AchievedField).value])
        else s
  {
  }

  /** The parse returns normally exactly when every achieved-frequency
      line can be read. */
  lemma ParseOk(lines: seq<string>)
    ensures Parse(lines).Ok? <==> forall i :: 0 <= i < |lines| ==> LineOk(lines[i])
  {
    forall s, line {
      StepReads(s, line);
    }
    ScanOk(lines, NoSeries, Step, LineOk);
  }

  /** Each list is the reading of its field over the achieved-frequency
      lines, in file order. */
  lemma ParseSeries(lines: seq<string>)
    ensures Parse(lines).Ok? ==>
      ReadAll(Filter(lines, IsAchievedLine), RequestedField) == Ok(Parse(lines).value.frequencies)
    ensures Parse(lines).Ok? ==>
      ReadAll(Filter(lines, IsAchievedLine), AchievedField) == Ok(Parse(lines).value.achievedFrequencies)
  {
    forall s, line {
      StepReads(s, line);
    }
    ScanColumn(lines, NoSeries, Step, (s: Series) => s.frequencies, IsAchievedLine, RequestedField);
    ScanColumn(lines, NoSeries, Step, (s: Series) => s.achievedFrequencies, IsAchievedLine, AchievedField);
  }

  /** On normal return the two lists have one entry per achieved-frequency
      line and pair up by index: entry `i` of each comes from the same
      line. */
  lemma ParsePairs(lines: seq<string>)
    ensures Parse(lines).Ok? ==>
      |Parse(lines).value.frequencies| == |Parse(lines).value.achievedFrequencies| == |Filter(lines, IsAchievedLine)|
    ensures Parse(lines).Ok? ==>
      forall i :: 0 <= i < |Filter(lines, IsAchievedLine)| ==>
        Reading(Filter(lines, IsAchievedLine)[i], RequestedField) == Ok(Parse(lines).value.frequencies[i]) &&
        Reading(Filter(lines, IsAchievedLine)[i], AchievedField) == Ok(Parse(lines).value.achievedFrequencies[i])
  {
    ParseSeries(lines);
    var picked := Filter(lines, IsAchievedLine);
    ReadAllSpec(picked, RequestedField);
    ReadAllSpec(picked, AchievedField);
  }

  /** `parse_achieved_frequencies`: the two lists grow as the loop runs;
      the first failing token or conversion ends the function. */
  method ParseAchievedFrequencies(files: map<string, seq<string>>, path: string) returns (r: Result<Series, PyError>)
    ensures r == ParseFile(files, path)
  {
    if path !in files {
      return Err(FileNotFoundError);
    }
    var lines := files[path];
    var frequencies, achievedFrequencies := [], [];
    for i := 0 to |lines|
      invariant Parse(lines[..i]) == Ok(Series(frequencies, achievedFrequencies))
    {
      ScanSnoc(lines, i, NoSeries, Step);
      ScanFailureFinal(lines, i + 1, NoSeries, Step);
      var line := lines[i];
      if Contains(line, "Frequency") && Contains(line, "Achieved Frequency") {
        var freqPart :- Token(line, 0, 1);
        var achievedPart :- Token(line, 1, 2);
        var freq :- ParseFloat(freqPart);
        var achieved :- ParseFloat(achievedPart);
        frequencies := frequencies + [freq];
        achievedFrequencies := achievedFrequencies + [achieved];
      }
    }
    assert lines[..|lines|] == lines;
    return Ok(Series(frequencies, achievedFrequencies));
  }

  // ---------------------------------------------------------------------
  // The sort key: `int(x.split("_")[-1].split(".")[0])`
  // ---------------------------------------------------------------------

  /** The text between the last `_` and the first `.` after it (the whole
      last `_`-field when it has no `.`). */
  function KeyText(name: string): string
  {
    var parts := Split(name, "_");
    Split(parts[|parts| - 1], ".")[0]
  }

  /** The sort key: `int()` of the key text, ValueError when it is not an
      integer numeral. */
  function SortKey(name: string): Result<int, PyError>
  {
    ParseInt(KeyText(name))
  }

  /** The log the sweep driver writes for size `n` has key text `f"{n}"`
      and sort key `n`. */
  lemma SortKeyOfLog(n: nat)
    ensures KeyText(LogName(n)) == NatToString(n)
    ensures SortKey(LogName(n)) == Ok(n as int)
  {
    var d := NatToString(n);
    assert LogName(n) == "pq" + "_" + "analysis" + "_" + (d + "." + "txt");
    StemKey("pq" + "_" + "analysis", d, "txt");
    ParseIntOfNat(n);
  }

  /** The key text of `prefix_stem.ext` is the stem, whatever the prefix,
      when neither the stem nor the extension holds `_` and the stem holds
      no `.`. */
  lemma StemKey(prefix: string, stem: string, ext: string)
    requires forall i :: 0 <= i < |stem| ==> stem[i] != '_' && stem[i] != '.'
    requires forall i :: 0 <= i < |ext| ==> ext[i] != '_'
    ensures KeyText(prefix + "_" + (stem + "." + ext)) == stem
  {
    var tail := stem + "." + ext;
    assert forall i :: 0 <= i < |tail| ==> tail[i] != '_' by {
      assert forall i :: 0 <= i < |tail| ==> tail[i] == if i < |stem| then stem[i] else if i == |stem| then '.' else ext[i - |stem| - 1];
    }
    LastField(prefix, '_', tail);
    assert prefix + ['_'] + tail == prefix + "_" + tail;
    SplitAtChar(stem, '.', ext);
    assert stem + ['.'] + ext == tail;
  }

  /** The key text of `stem.ext` is the stem when the name holds no `_`
      and the stem no `.`. */
  lemma PlainKey(stem: string, ext: string)
    requires forall i :: 0 <= i < |stem| ==> stem[i] != '_' && stem[i] != '.'
    requires forall i :: 0 <= i < |ext| ==> ext[i] != '_'
    ensures KeyText(stem + "." + ext) == stem
  {
    var name := stem + "." + ext;
    assert forall i :: 0 <= i < |name| ==> name[i] != '_' by {
      assert forall i :: 0 <= i < |name| ==> name[i] == if i < |stem| then stem[i] else if i == |stem| then '.' else ext[i - |stem| - 1];
    }
    CharFree(name, '_');
    SplitSingle(name, "_");
    SplitAtChar(stem, '.', ext);
    assert stem + ['.'] + ext == name;
  }

  /** The last field of `a` + `c` + `b`, cut at `c`, is `b` when `b` does
      not hold `c`; there are at least two fields. */
  lemma {:induction false} LastField(a: string, c: char, b: string)
    requires forall i :: 0 <= i < |b| ==> b[i] != c
    ensures |Split(a + [c] + b, [c])| >= 2
    ensures Split(a + [c] + b, [c])[|Split(a + [c] + b, [c])| - 1] == b
    decreases |a|
  {
    var s := a + [c] + b;
    if a == [] {
      assert s[..1] == [c] && s[1..] == b;
      CharFree(b, c);
      SplitSingle(b, [c]);
    } else {
      LastField(a[1..], c, b);
      assert s[1..] == a[1..] + [c] + b;
      assert s[..1] == [a[0]];
    }
  }

  /** Text that starts with a letter other than a digit or a sign, and
      ends in no whitespace, is not an integer numeral. */
  lemma NotNumeral(s: string)
    requires |s| > 0 && !IsDigit(s[0]) && s[0] != '+' && s[0] != '-' && !IsSpace(s[0]) && !IsSpace(s[|s| - 1])
    ensures ParseInt(s) == Err(ValueError)
  {
    StripTrimmed(s);
  }

  /** A name with no number after its last `_` has no sort key, whether or
      not it is an analysis log: `notes.txt` is one such name. */
  lemma NotesHasNoKey()
    ensures !IsAnalysisLog("notes.txt")
    ensures SortKey("notes.txt") == Err(ValueError)
  {
    PlainKey("notes", "txt");
    assert "notes" + "." + "txt" == "notes.txt";
    NotNumeral("notes");
  }

  // ---------------------------------------------------------------------
  // `sorted(os.listdir(log_dir), key=...)`
  // ---------------------------------------------------------------------

  /** A directory entry with its sort key. */
  datatype Entry = Entry(key: int, name: string)

  /** `sorted` computes every key before it orders anything: the first
      name without a key raises the key function's exception. */
  function Decorate(names: seq<string>, key: string -> Result<int, PyError>): (r: Result<seq<Entry>, PyError>)
    ensures r.Ok? ==> |r.value| == |names|
    decreases |names|
  {
    if names == [] then Ok([])
    else
      var entries :- Decorate(names[..|names| - 1], key);
      var k :- key(names[|names| - 1]);
      Ok(entries + [Entry(k, names[|names| - 1])])
  }

  /** Every name has a sort key. */
  predicate AllKeyed(names: seq<string>)
  {
    forall i :: 0 <= i < |names| ==> SortKey(names[i]).Ok?
  }

  /** The keys are computed exactly when every name has one; otherwise
      the error is one the key function raised. */
  lemma {:induction false} DecorateOk(names: seq<string>, key: string -> Result<int, PyError>, e: PyError)
    requires forall name :: key(name).Err? ==> key(name).error == e
    ensures Decorate(names, key).Ok? <==> forall i :: 0 <= i < |names| ==> key(names[i]).Ok?
    ensures Decorate(names, key).Err? ==> Decorate(names, key).error == e
    decreases |names|
  {
    if names != [] {
      var init := names[..|names| - 1];
      DecorateOk(init, key, e);
      DecorateSnoc(names, key);
      assert forall i :: 0 <= i < |init| ==> init[i] == names[i];
    }
  }

  /** Entry `i` is name `i` with its key. */
  lemma {:induction false} DecorateEntries(names: seq<string>, key: string -> Result<int, PyError>)
    ensures Decorate(names, key).Ok? ==>
      forall i :: 0 <= i < |names| ==> key(names[i]).Ok? && Decorate(names, key).value[i] == Entry(key(names[i]).value, names[i])
    decreases |names|
  {
    if names != [] && Decorate(names, key).Ok? {
      var init := names[..|names| - 1];
      DecorateEntries(init, key);
      DecorateSnoc(names, key);
      var es := Decorate(names, key).value;
      forall i | 0 <= i < |names|
        ensures key(names[i]).Ok? && es[i] == Entry(key(names[i]).value, names[i])
      {
        if i < |init| {
          assert es[i] == Decorate(init, key).value[i] && init[i] == names[i];
        }
      }
    }
  }

  /** One more name: its key is computed after those of the names before
      it. */
  lemma DecorateSnoc(names: seq<string>, key: string -> Result<int, PyError>)
    requires names != []
    ensures Decorate(names, key).Ok? <==> Decorate(names[..|names| - 1], key).Ok? && key(names[|names| - 1]).Ok?
    ensures Decorate(names, key).Ok? ==>
      Decorate(names, key).value ==
        Decorate(names[..|names| - 1], key).value + [Entry(key(names[|names| - 1]).value, names[|names| - 1])]
    ensures Decorate(names, key).Err? && Decorate(names[..|names| - 1], key).Err? ==>
      Decorate(names, key).error == Decorate(names[..|names| - 1], key).error
    ensures Decorate(names, key).Err? && Decorate(names[..|names| - 1], key).Ok? ==>
      Decorate(names, key).error == key(names[|names| - 1]).error
  {
  }

  function Names(es: seq<Entry>): (ns: seq<string>)
    ensures |ns| == |es| && forall i :: 0 <= i < |es| ==> ns[i] == es[i].name
  {
    seq(|es|, i requires 0 <= i < |es| => es[i].name)
  }

  predicate SortedByKey(es: seq<Entry>)
  {
    forall i, j :: 0 <= i < j < |es| ==> es[i].key <= es[j].key
  }

  /** The entries with key `k`, in order. */
  function WithKey(es: seq<Entry>, k: int): seq<Entry>
    decreases |es|
  {
    if es == [] then []
    else WithKey(es[..|es| - 1], k) + (if es[|es| - 1].key == k then [es[|es| - 1]] else [])
  }

  /** Places `x` after every entry whose key is not larger than its own. */
  function Insert(s: seq<Entry>, x: Entry): seq<Entry>
    decreases |s|
  {
    if s == [] || s[|s| - 1].key <= x.key then s + [x]
    else Insert(s[..|s| - 1], x) + [s[|s| - 1]]
  }

  /** A stable sort by key (Python's `sorted` is stable). */
  function Sort(es: seq<Entry>): seq<Entry>
    decreases |es|
  {
    if es == [] then [] else Insert(Sort(es[..|es| - 1]), es[|es| - 1])
  }

  /** Inserting adds exactly `x`. */
  lemma {:induction false} InsertPermutes(s: seq<Entry>, x: Entry)
    ensures multiset(Insert(s, x)) == multiset(s) + multiset{x}
    decreases |s|
  {
    if s != [] && s[|s| - 1].key > x.key {
      var init, last := s[..|s| - 1], s[|s| - 1];
      InsertPermutes(init, x);
      assert s == init + [last];
    }
  }

  /** Inserting adds exactly the name of `x` to the names. */
  lemma {:induction false} InsertNames(s: seq<Entry>, x: Entry)
    ensures multiset(Names(Insert(s, x))) == multiset(Names(s)) + multiset{x.name}
    decreases |s|
  {
    if s == [] || s[|s| - 1].key <= x.key {
      NamesSnoc(s, x);
    } else {
      var init, last := s[..|s| - 1], s[|s| - 1];
      InsertNames(init, x);
      NamesSnoc(init, last);
      NamesSnoc(Insert(init, x), last);
      assert s == init + [last];
    }
  }

  lemma NamesSnoc(es: seq<Entry>, e: Entry)
    ensures Names(es + [e]) == Names(es) + [e.name]
  {
  }

  /** Inserting into a sorted sequence keeps it sorted. */
  lemma {:induction false} InsertSorted(s: seq<Entry>, x: Entry)
    requires SortedByKey(s)
    ensures SortedByKey(Insert(s, x))
    decreases |s|
  {
    if s != [] && s[|s| - 1].key > x.key {
      var init, last := s[..|s| - 1], s[|s| - 1];
      InsertSorted(init, x);
      InsertPermutes(init, x);
      var t := Insert(init, x);
      forall i | 0 <= i < |t|
        ensures t[i].key <= last.key
      {
        assert t[i] in multiset(t);
      }
    }
  }

  /** Inserting `x` puts it after the entries of its own key that were
      already there: among entries with any one key the order is kept. */
  lemma {:induction false} InsertStable(s: seq<Entry>, x: Entry, k: int)
    ensures WithKey(Insert(s, x), k) == WithKey(s, k) + (if x.key == k then [x] else [])
    decreases |s|
  {
    if s == [] || s[|s| - 1].key <= x.key {
      WithKeySnoc(s, x, k);
    } else {
      var init, last := s[..|s| - 1], s[|s| - 1];
      var xs: seq<Entry> := if x.key == k then [x] else [];
      var ls: seq<Entry> := if last.key == k then [last] else [];
      InsertStable(init, x, k);
      WithKeySnoc(Insert(init, x), last, k);
      WithKeySnoc(init, last, k);
      assert init + [last] == s;
      SwapEmpty(WithKey(init, k), xs, ls);
    }
  }

  /** At most one of two sequences is non-empty: their order does not
      matter. */
  lemma SwapEmpty(a: seq<Entry>, xs: seq<Entry>, ls: seq<Entry>)
    requires xs == [] || ls == []
    ensures a + xs + ls == a + ls + xs
  {
    if xs == [] {
      assert a + xs == a && ls + xs == ls;
    } else {
      assert a + ls == a && xs + ls == xs;
    }
  }

  lemma WithKeySnoc(es: seq<Entry>, e: Entry, k: int)
    ensures WithKey(es + [e], k) == WithKey(es, k) + (if e.key == k then [e] else [])
  {
    assert (es + [e])[..|es|] == es;
  }

  /** The sort orders by key. */
  lemma {:induction false} SortSorted(es: seq<Entry>)
    ensures SortedByKey(Sort(es))
    decreases |es|
  {
    if es != [] {
      SortSorted(es[..|es| - 1]);
      InsertSorted(Sort(es[..|es| - 1]), es[|es| - 1]);
    }
  }

  /** The sort keeps every entry. */
  lemma {:induction false} SortPermutes(es: seq<Entry>)
    ensures multiset(Sort(es)) == multiset(es)
    decreases |es|
  {
    if es != [] {
      var init, last := es[..|es| - 1], es[|es| - 1];
      SortPermutes(init);
      InsertPermutes(Sort(init), last);
      assert es == init + [last];
    }
  }

  /** The sort keeps every name. */
  lemma {:induction false} SortNames(es: seq<Entry>)
    ensures multiset(Names(Sort(es))) == multiset(Names(es))
    decreases |es|
  {
    if es != [] {
      var init, last := es[..|es| - 1], es[|es| - 1];
      SortNames(init);
      InsertNames(Sort(init), last);
      NamesSnoc(init, last);
      assert es == init + [last];
    }
  }

  /** The sort is stable: the entries of any one key keep their order. */
  lemma {:induction false} SortStable(es: seq<Entry>, k: int)
    ensures WithKey(Sort(es), k) == WithKey(es, k)
    decreases |es|
  {
    if es != [] {
      var init, last := es[..|es| - 1], es[|es| - 1];
      SortStable(init, k);
      InsertStable(Sort(init), last, k);
    }
  }

  /** The directory listing in the order the loop visits it. */
  function SortedListing(names: seq<string>): Result<seq<string>, PyError>
  {
    var entries :- Decorate(names, SortKey);
    Ok(Names(Sort(entries)))
  }

  /** The names with sort key `k`, in order. */
  function NamesWithKey(names: seq<string>, k: int): seq<string>
    decreases |names|
  {
    if names == [] then []
    else
      NamesWithKey(names[..|names| - 1], k) +
        (if SortKey(names[|names| - 1]) == Ok(k) then [names[|names| - 1]] else [])
  }

  /** Every entry carries its name's key. */
  predicate Decorated(es: seq<Entry>)
  {
    forall i :: 0 <= i < |es| ==> SortKey(es[i].name) == Ok(es[i].key)
  }

  /** The names of the entries with key `k` are the names with key `k`. */
  lemma {:induction false} NamesOfKey(es: seq<Entry>, k: int)
    requires Decorated(es)
    ensures Names(WithKey(es, k)) == NamesWithKey(Names(es), k)
    decreases |es|
  {
    if es != [] {
      var init, last := es[..|es| - 1], es[|es| - 1];
      NamesOfKey(init, k);
      assert Names(es)[..|es| - 1] == Names(init);
      assert Names(WithKey(init, k) + (if last.key == k then [last] else [])) ==
        Names(WithKey(init, k)) + (if last.key == k then [last.name] else []);
    }
  }

  /** The listing is sorted exactly when every name has a key (otherwise
      ValueError, even for names the loop would skip); it is then a
      permutation of the directory in non-decreasing key order, and names
      with equal keys keep their directory order. */
  lemma SortedListingSpec(names: seq<string>)
    ensures SortedListing(names).Ok? <==> AllKeyed(names)
    ensures SortedListing(names).Err? ==> SortedListing(names).error == ValueError
    ensures SortedListing(names).Ok? ==> multiset(SortedListing(names).value) == multiset(names)
    ensures SortedListing(names).Ok? ==>
      forall i, j :: 0 <= i < j < |SortedListing(names).value| ==>
        SortKey(SortedListing(names).value[i]).Ok? && SortKey(SortedListing(names).value[j]).Ok? &&
        SortKey(SortedListing(names).value[i]).value <= SortKey(SortedListing(names).value[j]).value
    ensures SortedListing(names).Ok? ==>
      forall k :: NamesWithKey(SortedListing(names).value, k) == NamesWithKey(names, k)
  {
    forall name
      ensures SortKey(name).Err? ==> SortKey(name).error == ValueError
    {
    }
    DecorateOk(names, SortKey, ValueError);
    DecorateEntries(names, SortKey);
    if Decorate(names, SortKey).Ok? {
      var es := Decorate(names, SortKey).value;
      var sorted := Sort(es);
      assert Names(es) == names;
      SortSorted(es);
      SortPermutes(es);
      SortNames(es);
      assert Decorated(es);
      forall i | 0 <= i < |sorted|
        ensures SortKey(sorted[i].name) == Ok(sorted[i].key)
      {
        assert sorted[i] in multiset(es);
      }
      forall k
        ensures NamesWithKey(Names(sorted), k) == NamesWithKey(names, k)
      {
        SortStable(es, k);
        NamesOfKey(es, k);
        NamesOfKey(sorted, k);
      }
    }
  }

  // ---------------------------------------------------------------------
  // The loop that fills `all_data`
  // ---------------------------------------------------------------------

  /** A Python dictionary: its entries in insertion order, each key once. */
  type Dict = seq<(string, Series)>

  function Keys(d: Dict): (ks: seq<string>)
    ensures |ks| == |d| && forall i :: 0 <= i < |d| ==> ks[i] == d[i].0
  {
    seq(|d|, i requires 0 <= i < |d| => d[i].0)
  }

  predicate DistinctKeys(d: Dict)
  {
    forall i, j :: 0 <= i < j < |d| ==> d[i].0 != d[j].0
  }

  /** `d[k]`, None for a missing key. */
  function Lookup(d: Dict, k: string): Option<Series>
    decreases |d|
  {
    if d == [] then None else if d[0].0 == k then Some(d[0].1) else Lookup(d[1..], k)
  }

  /** `d[k] = v`: a key already there keeps its place and takes the new
      value; a new key goes at the end. */
  function Store(d: Dict, k: string, v: Series): Dict
    decreases |d|
  {
    if d == [] then [(k, v)]
    else if d[0].0 == k then [(k, v)] + d[1..]
    else [d[0]] + Store(d[1..], k, v)
  }

  /** Storing adds the key at the end only when it is new. */
  lemma {:induction false} StoreKeys(d: Dict, k: string, v: Series)
    ensures Keys(Store(d, k, v)) == if k in Keys(d) then Keys(d) else Keys(d) + [k]
    decreases |d|
  {
    if d != [] {
      KeysCons(d[0], d[1..]);
      assert [d[0]] + d[1..] == d;
      if d[0].0 != k {
        StoreKeys(d[1..], k, v);
        KeysCons(d[0], Store(d[1..], k, v));
      } else {
        KeysCons((k, v), d[1..]);
      }
    }
  }

  lemma KeysCons(e: (string, Series), d: Dict)
    ensures Keys([e] + d) == [e.0] + Keys(d)
  {
  }

  /** Storing changes the value of that key alone. */
  lemma {:induction false} StoreLookup(d: Dict, k: string, v: Series, j: string)
    ensures Lookup(Store(d, k, v), j) == if j == k then Some(v) else Lookup(d, j)
    decreases |d|
  {
    if d != [] && d[0].0 != k {
      StoreLookup(d[1..], k, v, j);
      assert Store(d, k, v)[1..] == Store(d[1..], k, v);
    } else if d != [] {
      assert Store(d, k, v)[1..] == d[1..];
    }
  }

  /** Storing keeps the keys distinct. */
  lemma StoreDistinct(d: Dict, k: string, v: Series)
    requires DistinctKeys(d)
    ensures DistinctKeys(Store(d, k, v))
  {
    StoreKeys(d, k, v);
    var e := Store(d, k, v);
    forall i, j | 0 <= i < j < |e|
      ensures e[i].0 != e[j].0
    {
      assert e[i].0 == Keys(e)[i] && e[j].0 == Keys(e)[j];
    }
  }

  /** One turn of the loop: an analysis log is parsed and stored under its
      key text; any other entry is passed over. */
  function CollectStep(files: map<string, seq<string>>, d: Dict, name: string): Result<Dict, PyError>
  {
    if IsAnalysisLog(name) then
      var series :- ParseFile(files, name);
      Ok(Store(d, KeyText(name), series))
    else Ok(d)
  }

  function Collector(files: map<string, seq<string>>): (Dict, string) -> Result<Dict, PyError>
  {
    (d, name) => CollectStep(files, d, name)
  }

  /** The module-level pass: sort the listing, then visit it in order. */
  function AllData(names: seq<string>, files: map<string, seq<string>>): Result<Dict, PyError>
  {
    var sorted :- SortedListing(names);
    Scan(sorted, [], Collector(files))
  }

  /** The key an entry is stored under: its key text when it is an
      analysis log, none otherwise. */
  function LogKey(name: string): Option<string>
  {
    if IsAnalysisLog(name) then Some(KeyText(name)) else None
  }

  /** The keys of `names`, each once, in the order of their first
      occurrence. */
  function FirstKeys(names: seq<string>, keyOf: string -> Option<string>): seq<string>
    decreases |names|
  {
    if names == [] then []
    else
      var keys := FirstKeys(names[..|names| - 1], keyOf);
      match keyOf(names[|names| - 1])
      case Some(k) => if k in keys then keys else keys + [k]
      case None => keys
  }

  /** The last of `names` with key `key`. */
  function LastWith(names: seq<string>, keyOf: string -> Option<string>, key: string): Option<string>
    decreases |names|
  {
    if names == [] then None
    else if keyOf(names[|names| - 1]) == Some(key) then Some(names[|names| - 1])
    else LastWith(names[..|names| - 1], keyOf, key)
  }

  /** One more name: the loop continues from the state the names before
      it left. */
  lemma CollectSnoc(names: seq<string>, files: map<string, seq<string>>)
    requires names != []
    ensures Scan(names, [], Collector(files)).Ok? ==>
      Scan(names[..|names| - 1], [], Collector(files)).Ok? &&
      Scan(names, [], Collector(files)) ==
        CollectStep(files, Scan(names[..|names| - 1], [], Collector(files)).value, names[|names| - 1])
  {
  }

  /** The loop finishes exactly when every analysis log it meets can be
      read and parsed. */
  lemma CollectOk(names: seq<string>, files: map<string, seq<string>>)
    ensures Scan(names, [], Collector(files)).Ok? <==> LogsParse(names, files)
  {
    var ok := name => IsAnalysisLog(name) ==> ParseFile(files, name).Ok?;
    forall d, name
      ensures Collector(files)(d, name).Ok? <==> ok(name)
    {
    }
    ScanOk(names, [], Collector(files), ok);
  }

  /** On normal return the dictionary's keys are the key texts of the
      analysis logs, each once, in the order of their first log; other
      entries add nothing. */
  lemma {:induction false} CollectKeys(names: seq<string>, files: map<string, seq<string>>)
    ensures Scan(names, [], Collector(files)).Ok? ==>
      Keys(Scan(names, [], Collector(files)).value) == FirstKeys(names, LogKey) &&
      DistinctKeys(Scan(names, [], Collector(files)).value)
    decreases |names|
  {
    if names != [] && Scan(names, [], Collector(files)).Ok? {
      var init, name := names[..|names| - 1], names[|names| - 1];
      CollectSnoc(names, files);
      CollectKeys(init, files);
      var d := Scan(init, [], Collector(files)).value;
      if IsAnalysisLog(name) {
        StoreKeys(d, KeyText(name), ParseFile(files, name).value);
        StoreDistinct(d, KeyText(name), ParseFile(files, name).value);
      }
    }
  }

  /** On normal return the value under each key is the parse of the last
      analysis log with that key text: a later log with the same key text
      overwrites an earlier one. */
  lemma {:induction false} CollectLookup(names: seq<string>, files: map<string, seq<string>>, key: string)
    ensures Scan(names, [], Collector(files)).Ok? && LastWith(names, LogKey, key).None? ==>
      Lookup(Scan(names, [], Collector(files)).value, key).None?
    ensures Scan(names, [], Collector(files)).Ok? && LastWith(names, LogKey, key).Some? ==>
      Lookup(Scan(names, [], Collector(files)).value, key).Some? &&
      ParseFile(files, LastWith(names, LogKey, key).value) == Ok(Lookup(Scan(names, [], Collector(files)).value, key).value)
    decreases |names|
  {
    if names != [] && Scan(names, [], Collector(files)).Ok? {
      var init, name := names[..|names| - 1], names[|names| - 1];
      CollectSnoc(names, files);
      CollectLookup(init, files, key);
      var d := Scan(init, [], Collector(files)).value;
      if IsAnalysisLog(name) {
        StoreLookup(d, KeyText(name), ParseFile(files, name).value, key);
      }
    }
  }

  /** A key is among the first keys exactly when some entry has it. */
  lemma {:induction false} FirstKeysMembers(names: seq<string>, keyOf: string -> Option<string>, key: string)
    ensures key in FirstKeys(names, keyOf) <==> exists i :: 0 <= i < |names| && keyOf(names[i]) == Some(key)
    decreases |names|
  {
    if names != [] {
      var init := names[..|names| - 1];
      FirstKeysMembers(init, keyOf, key);
      assert forall i :: 0 <= i < |init| ==> init[i] == names[i];
    }
  }

  /** Every analysis log among `names` can be read and parsed. */
  predicate LogsParse(names: seq<string>, files: map<string, seq<string>>)
  {
    forall i :: 0 <= i < |names| ==> IsAnalysisLog(names[i]) ==> ParseFile(files, names[i]).Ok?
  }

  /** The module-level pass finishes exactly when every directory entry has
      a sort key (a name the filter would skip included) and every analysis
      log parses; a name without a key raises ValueError before any log is
      read. */
  lemma AllDataOk(names: seq<string>, files: map<string, seq<string>>)
    ensures AllData(names, files).Ok? <==> AllKeyed(names) && LogsParse(names, files)
    ensures !AllKeyed(names) ==> AllData(names, files) == Err(ValueError)
  {
    SortedListingSpec(names);
    if SortedListing(names).Ok? {
      var sorted := SortedListing(names).value;
      CollectOk(sorted, files);
      SameMembersParse(sorted, names, files);
    }
  }

  /** Whether every analysis log parses depends only on which names are
      listed, not on their order. */
  lemma SameMembersParse(a: seq<string>, b: seq<string>, files: map<string, seq<string>>)
    requires multiset(a) == multiset(b)
    ensures LogsParse(a, files) <==> LogsParse(b, files)
  {
    if LogsParse(a, files) {
      forall i | 0 <= i < |b| && IsAnalysisLog(b[i])
        ensures ParseFile(files, b[i]).Ok?
      {
        assert b[i] in multiset(b);
        var j :| 0 <= j < |a| && a[j] == b[i];
      }
    }
    if LogsParse(b, files) {
      forall i | 0 <= i < |a| && IsAnalysisLog(a[i])
        ensures ParseFile(files, a[i]).Ok?
      {
        assert a[i] in multiset(a);
        var j :| 0 <= j < |b| && b[j] == a[i];
      }
    }
  }

  /** On normal return the dictionary holds one key per key text of an
      analysis log in the directory, in the order the sorted listing first
      meets them, each with the data of the last such log in that order. */
  lemma AllDataContents(names: seq<string>, files: map<string, seq<string>>, key: string)
    ensures AllData(names, files).Ok? ==>
      SortedListing(names).Ok? &&
      Keys(AllData(names, files).value) == FirstKeys(SortedListing(names).value, LogKey) &&
      DistinctKeys(AllData(names, files).value)
    ensures AllData(names, files).Ok? ==>
      (key in Keys(AllData(names, files).value) <==> exists i :: 0 <= i < |names| && LogKey(names[i]) == Some(key))
    ensures AllData(names, files).Ok? && LastWith(SortedListing(names).value, LogKey, key).Some? ==>
      Lookup(AllData(names, files).value, key).Some? &&
      ParseFile(files, LastWith(SortedListing(names).value, LogKey, key).value) == Ok(Lookup(AllData(names, files).value, key).value)
  {
    if AllData(names, files).Ok? {
      var sorted := SortedListing(names).value;
      SortedListingSpec(names);
      CollectKeys(sorted, files);
      CollectLookup(sorted, files, key);
      FirstKeysMembers(sorted, LogKey, key);
      forall i | 0 <= i < |names|
        ensures names[i] in sorted
      {
        assert names[i] in multiset(names);
      }
      forall i | 0 <= i < |sorted|
        ensures sorted[i] in names
      {
        assert sorted[i] in multiset(sorted);
      }
    }
  }

  /** The module-level loop: sort the listing, then store the two lists of
      every analysis log under its key text. */
  method CollectAllData(names: seq<string>, files: map<string, seq<string>>) returns (r: Result<Dict, PyError>)
    ensures r == AllData(names, files)
  {
    var sorted :- SortedListing(names);
    var allData: Dict := [];
    for i := 0 to |sorted|
      invariant Scan(sorted[..i], [], Collector(files)) == Ok(allData)
    {
      ScanSnoc(sorted, i, [], Collector(files));
      ScanFailureFinal(sorted, i + 1, [], Collector(files));
      var fileName := sorted[i];
      if StartsWith(fileName, LogPrefix) && EndsWith(fileName, LogSuffix) {
        var queueSize := KeyText(fileName);
        var series :- ParseAchievedFrequencies(files, fileName);
        allData := Store(allData, queueSize, series);
      }
    }
    assert sorted[..|sorted|] == sorted;
    return Ok(allData);
  }
}
