# zhou_2020_hwpq sweep driver and log readers, in Dafny

The repository synthesises a hardware priority queue at a range of queue
sizes and plots what the synthesis tool reports. This project models the
Python that does the work:

- **The sweep driver** (`auto_run.py`):
  - erases the old `pq_analysis_*.txt` logs;
  - writes a log for the baseline size 4 and runs the tool once;
  - then, for each size in `[8, 16, …, 4096]`:
    - from the second size on, scans the previous size's log for the
      `LUTs Util%` line (the utilization gate);
    - creates the size's log;
    - rewrites every `parameter QUEUE_SIZE` line of the Verilog source;
    - rewrites the first `set log_file` line of the TCL script;
    - runs the tool again.
- **The three log readers** (`parse_data_from_file` of `plotting.py` and of
  `queue_size_plotting.py`, `parse_achieved_frequencies`). Each is a single
  pass over the lines of a log, through an if/elif chain on substrings:
  - the line is cut at `->`;
  - one segment is stripped and cut at single spaces;
  - one token is converted with `float()` and appended to a list.
- **The module-level pass of `achieved_frequency_plotting.py`**:
  - it sorts the directory listing by the number after the last `_`;
  - it keeps the analysis logs;
  - it stores each log's two lists in a dictionary keyed by that number's text.

Modules:

| file | module | what it holds |
|---|---|---|
| wrappers.dfy | Wrappers | `Option`, `Result`, the Python exceptions that can escape (`IndexError`, `ValueError`, `FileNotFoundError`) |
| pystr.dfy | PyStr | Python's `in`, `str.split(sep)` (empty fields kept), `str.strip()` (Python's whitespace set), `startswith`/`endswith`, list indexing with negative indices, `[:-1]` |
| pynum.dfy | PyNum | `int()` and `float()` on ASCII decimal text, the decimal text of a natural number |
| analysis_logs.dfy | AnalysisLogs | the log name `pq_analysis_<n>.txt` and the prefix/suffix filter |
| auto_run.dfy | AutoRun | the driver: pure reference functions (`QueueSizeRewrite`, `TclRewrite`, `GateScan`, `Iteration`, `Sweep`, `Experiment`) and the `Workspace` class whose methods update the Verilog lines, the TCL lines, the log directory and an effect trace in place |
| log_fields.dfy | LogFields | the token arithmetic shared by the readers (`Token`, `Reading`), the generic loop `Scan` that stops at the first exception, and the grammar of a well-formed fact line (`FactLine`) |
| plotting.dfy | Plotting | the nine-list reader |
| queue_size_plotting.dfy | QueueSizePlotting | the seven-list reader with `[:-1]` |
| achieved_frequency_plotting.dfy | AchievedFrequencyPlotting | the two-list reader, the sort key, the sort, the dictionary fill |

Each reader is specified twice:
- **As its loop.** `Step` handles one line and `Parse` scans the lines, stopping at the first exception. The `ParseDataFromFile` and `ParseAchievedFrequencies` methods carry the loop itself, one `Step` per line.
- **As an independent reference.** Every returned list equals `ReadAll(Selected(lines, kind), field)`: the reading of one field over the lines of that branch's kind, in file order.

The lemmas connect the two descriptions. They also state:
- when a parse raises, and which exception;
- which lines are ignored;
- that the chain picks the first label in order.

The driver follows the same pattern. Each `Workspace` method is proved to
leave exactly the state that the matching reference function computes. The
lemmas about those functions give:
- the count of tool runs;
- the order of the effects;
- what the rewrites do to each line;
- that the gate never stops the sweep.

## Model

| member | source | states |
|---|---|---|
| AnalysisLogs.LogNameIsAnalysisLog | auto_run.py:40-43 | every log the driver names `pq_analysis_<n>.txt` passes the erase filter (prefix `pq_analysis_`, suffix `.txt`), so a later run erases it |
| AnalysisLogs.LogNameInjective | auto_run.py:79 | distinct queue sizes get distinct log files |
| AutoRun.QueueSizeLineMarked | auto_run.py:29 | the replacement Verilog line still contains `parameter QUEUE_SIZE` |
| AutoRun.QueueSizeRewriteLines | auto_run.py:27-30 | `update_queue_size` keeps the number of lines; line j becomes the new parameter line exactly when it contains the marker, otherwise it is unchanged |
| AutoRun.QueueSizeRewriteKeepsMarkers | auto_run.py:27-30 | the lines holding the marker are the same before and after the rewrite |
| AutoRun.QueueSizeRewriteLastWins | auto_run.py:20-30 | rewriting to a and then to b equals rewriting straight to b |
| AutoRun.QueueSizeRewriteIdempotent | auto_run.py:20-30 | rewriting twice to the same size is the same as rewriting once |
| AutoRun.TclLineMarked | auto_run.py:95-97 | the new TCL line still contains `set log_file` |
| AutoRun.FirstMatch | auto_run.py:94 | the index found holds the marker and no earlier line does; none is found only when no line holds it |
| AutoRun.TclRewriteAtFirstMatch | auto_run.py:91-99 | the TCL rewrite replaces exactly the first line holding `set log_file` by the new line and leaves the file unchanged when there is none |
| AutoRun.TclRewriteFirstOnly | auto_run.py:92-99 | the length is kept; a changed line is the first marked line; the first marked line becomes the new line; without a marked line nothing changes |
| AutoRun.TclRewriteLastWins | auto_run.py:87-99 | rewriting for size a and then b equals rewriting for b |
| AutoRun.GateScanSpec | auto_run.py:69-76 | the scan of a log reports nothing exactly when every `LUTs Util%` line parses to at most 50.0. Otherwise it reports the first marked line that is not under the limit: its utilization if it parses, its exception if not |
| AutoRun.LutUtilizationOfLine | auto_run.py:71 | on a line `A:B: V %` whose first two fields hold no colon, the gate reads `float(V)`: the word before the percent sign in the third `:`-field |
| AutoRun.GateOnNumeral | auto_run.py:69-76 | on a log of one `LUTs Util%` line with the numeral `I.F`, the gate reports that value exactly when it is above 50.0, and nothing otherwise |
| AutoRun.GateOnUtilizationLine | auto_run.py:69-76 | a log whose utilization line reads ` 55.2 %` makes the gate fire with 55.2; one that reads ` 42.0 %` lets it pass |
| AutoRun.GateOver | auto_run.py:72 | a utilization the gate reports is above 50.0 |
| AutoRun.GateReadsPreviousLog | auto_run.py:59-66 | the gate of iteration i depends only on the log of size i-1 and is empty for i = 0 |
| AutoRun.SweepStep | auto_run.py:57 | a sweep of i+1 sizes is the sweep of i sizes followed by iteration i |
| AutoRun.SweepStaysStopped | auto_run.py:65-71 | once an exception ends the sweep, later sizes change nothing |
| AutoRun.SweepNeverStops | auto_run.py:72-76 | as written, the sweep ends only by finishing or by an exception, never by the gate. This follows from the shape of `Iteration`, which has no stopping outcome; the behaviour after a firing gate is stated by `SweepWarningStep` |
| AutoRun.SweepWarningStep | auto_run.py:57-102 | when the gate fires at size i, the sweep has not stopped after that size: its trace is the earlier trace, the warning, then the full block of size i (log, both rewrites, tool run) |
| AutoRun.SweepEffectsGrow | auto_run.py:57-102 | a sweep that finishes after n sizes also finished after each earlier count, and its effect trace extends each earlier trace |
| AutoRun.WarningDoesNotStop | auto_run.py:72-76 | an iteration whose gate finds a utilization above 50% prints the warning and still creates the log, rewrites both files and runs the tool |
| AutoRun.SweepEffects | auto_run.py:57-102 | a finished sweep's effects, warnings aside, are create log, rewrite Verilog, rewrite TCL, run tool, for each size in order |
| AutoRun.SweepToolRuns | auto_run.py:57-102 | a finished sweep of n sizes runs the tool n more times |
| AutoRun.SweepLastSize | auto_run.py:84-99 | after a finished sweep both files are set to the last size |
| AutoRun.SweepWarnings | auto_run.py:72-75 | every warning a sweep emits reports a utilization above 50.0 |
| AutoRun.ExperimentEffects | auto_run.py:33-102 | the whole script, when it finishes: baseline log, one tool run, then the per-size effects for the ten sizes, 11 tool runs in all |
| AutoRun.GatedSweepStops | auto_run.py:72-76 | corrected sweep: when it stops at the gate, its last effect is the warning for a utilization above 50.0 |
| AutoRun.GatedSweepAgrees | auto_run.py:57-102 | the corrected sweep agrees with the code as written on every run where the gate never fires |
| AutoRun.Workspace.ClearAnalysisLogs | auto_run.py:38-43 | removes exactly the analysis logs from the directory, nothing else changes |
| AutoRun.Workspace.CreateLog | auto_run.py:78-82 | writes the two header lines into the size's log and records it |
| AutoRun.Workspace.UpdateQueueSize | auto_run.py:20-30 | the Verilog file becomes `QueueSizeRewrite` of its old lines |
| AutoRun.TclFlagPass | auto_run.py:91-99 | the `log_file_updated` loop writes exactly `TclRewrite` of the lines it read: the first line holding `set log_file` replaced, every other line copied |
| AutoRun.Workspace.RewriteTcl | auto_run.py:87-99 | the TCL file becomes `TclRewrite` of its old lines (first match only, via the `log_file_updated` flag) and the rewrite is recorded |
| AutoRun.Workspace.InvokeTool | auto_run.py:5-17 | the logs become what the tool leaves; one tool run is recorded |
| AutoRun.Workspace.CheckPreviousLog | auto_run.py:59-76 | missing previous log: FileNotFoundError; a bad marked line: its exception; otherwise the gate's warning, if any, is recorded and the method returns normally |
| AutoRun.Workspace.RunIteration | auto_run.py:57-102 | one size leaves the state `Iteration` computes |
| AutoRun.Workspace.RunSweep | auto_run.py:57-102 | the loop leaves the state `Sweep` computes |
| AutoRun.Workspace.RunExperiment | auto_run.py:33-102 | `main()` leaves the state `Experiment` computes |
| LogFields.ReadAllSpec | plotting.py:48-49 | reading a field over lines succeeds exactly when every line's reading does, and then gives those readings in order |
| LogFields.ScanOk | plotting.py:40-67 | a loop that stops at the first exception finishes exactly when every line's own check passes |
| LogFields.ScanFailureFinal | plotting.py:40-67 | once a prefix of the lines has raised, the whole loop raises the same exception |
| LogFields.ScanColumn | plotting.py:40-67 | a list that a loop appends to, one reading per selected line, equals the reading of that field over the selected lines |
| LogFields.FactLineTokens | plotting.py:43-44 | on a well-formed fact line (words joined by spaces, segments by ` -> `), token k of segment s is the k-th word of that segment; it is IndexError when the word or segment is missing |
| LogFields.FactLineReading | plotting.py:43-45 | on a well-formed fact line a field reads `float()` of its word (trimmed by `[:-1]` where asked), or raises IndexError |
| LogFields.PhraseSegments | plotting.py:43 | splitting a joined fact line at `->` gives one piece per segment, each stripping back to its phrase |
| LogFields.WordsSplit | plotting.py:43 | splitting words joined by single spaces gives the words back |
| PyStr.SplitJoin | plotting.py:43 | `sep.join(s.split(sep)) == s` |
| PyStr.SplitSingle | plotting.py:43 | `split` gives a single field exactly when the separator does not occur, and that field is the whole string |
| PyStr.StripSpec | plotting.py:43 | `strip()` removes whitespace only and leaves no whitespace at either end |
| PyStr.StripIdempotent | plotting.py:43 | stripping twice is stripping once |
| PyNum.NatToStringValue | auto_run.py:79 | the decimal text of a size reads back to the size |
| PyNum.ParseIntOfNat | achieved_frequency_plotting.py:43 | `int()` of a size's decimal text is the size |
| PyNum.ParseFloatDecimal | plotting.py:45 | `float("i.f")` is the integer part plus the fraction |
| PyNum.ParseFloatNegate | plotting.py:54-55 | a leading minus (negative slack) negates the value and fails exactly when the unsigned text fails |
| PyNum.NotFloat | queue_size_plotting.py:61-62 | text with no point starting with neither digit nor sign makes `float()` raise ValueError |
| Plotting.ClassifyFirstMatch | plotting.py:42-67 | a line goes to the first branch, in chain order, whose label it holds, provided it holds `Frequency`. It goes to no branch exactly when it lacks `Frequency` or every label |
| Plotting.Append | plotting.py:45-67 | `append` grows exactly the named list by the value |
| Plotting.StepSynthesis | plotting.py:42-46 | a synthesis line appends its frequency (token 1 before the arrow) and its synthesis time (token 1 after) to the two lists. A missing arrow or token raises IndexError before any conversion; with both tokens present the only error left is ValueError from `float()` |
| Plotting.StepColumn | plotting.py:42-67 | after one line, each list grows by that line's reading exactly when the line's kind feeds that list; otherwise it is unchanged |
| Plotting.StepOk | plotting.py:42-67 | one line raises exactly when some reading its branch takes fails |
| Plotting.StepIgnores | plotting.py:42-67 | a line without `Frequency` or without any label leaves the lists unchanged |
| Plotting.ParseOk | plotting.py:40-67 | the function returns normally exactly when every line's readings succeed |
| Plotting.ParseColumns | plotting.py:40-79 | each of the nine lists is the reading of its field over the lines of its kind, in file order |
| Plotting.ParseColumn | plotting.py:40-79 | the same, for one list |
| Plotting.ParseLengths | plotting.py:42-46 | the frequency and synthesis lists have one entry per synthesis line |
| Plotting.ParseDataFromFile | plotting.py:4-79 | the loop returns what `ParseFile` specifies, FileNotFoundError for a missing file |
| QueueSizePlotting.ClassifyFirstMatch | queue_size_plotting.py:46-65 | the six-branch chain picks the first label held, provided the line holds `Frequency` |
| QueueSizePlotting.Append | queue_size_plotting.py:49-65 | `append` grows exactly the named list |
| QueueSizePlotting.StepSynthesis | queue_size_plotting.py:46-50 | a synthesis line appends its frequency and `float()` of token 1 after the arrow with its last character cut. A missing arrow or token raises IndexError before any conversion; with both tokens present the only error left is ValueError |
| QueueSizePlotting.StepColumn | queue_size_plotting.py:46-65 | after one line each list grows by the line's reading exactly when its kind feeds that list |
| QueueSizePlotting.StepOk | queue_size_plotting.py:46-65 | one line raises exactly when a reading of its branch fails |
| QueueSizePlotting.StepIgnores | queue_size_plotting.py:46-65 | a line of no branch (the `Slice Registers Util%` line among them) changes nothing |
| QueueSizePlotting.ParseOk | queue_size_plotting.py:44-65 | the function returns normally exactly when every line's readings succeed |
| QueueSizePlotting.ParseColumns | queue_size_plotting.py:44-75 | each of the seven lists is its field's reading over the lines of its kind |
| QueueSizePlotting.ParseColumn | queue_size_plotting.py:44-75 | the same, for one list |
| QueueSizePlotting.ParseLengths | queue_size_plotting.py:46-50 | one frequency and one synthesis entry per synthesis line |
| QueueSizePlotting.SynthesisReadsMinutes | queue_size_plotting.py:46-50 | on the documented line `Frequency: X MHz -> Synthesis: Ym Zs -> Ws` the synthesis value is `float(Y)`, the minutes |
| QueueSizePlotting.DurationSecondsRead | queue_size_plotting.py:9 | on that line, reading both duration tokens gives 60·Y + Z seconds |
| QueueSizePlotting.LutsReadsLabel | queue_size_plotting.py:60-62 | on the documented line `Frequency: X MHz -> Slice LUTs Util%: Y %`, token 2 is `Util%:`, so the branch raises ValueError |
| QueueSizePlotting.LutsValueRead | queue_size_plotting.py:13 | token 3 of that line reads the percentage Y |
| QueueSizePlotting.ParseDataFromFile | queue_size_plotting.py:4-75 | the loop returns what `ParseFile` specifies |
| AchievedFrequencyPlotting.AchievedHoldsFrequency | achieved_frequency_plotting.py:26 | the two-substring test is the same as holding `Achieved Frequency` |
| AchievedFrequencyPlotting.StepReads | achieved_frequency_plotting.py:26-30 | an achieved-frequency line appends its requested and achieved frequency, or raises; other lines change nothing |
| AchievedFrequencyPlotting.ParseOk | achieved_frequency_plotting.py:24-30 | the function returns normally exactly when every achieved-frequency line reads both fields |
| AchievedFrequencyPlotting.ParseSeries | achieved_frequency_plotting.py:24-32 | each list is its field's reading over the achieved-frequency lines |
| AchievedFrequencyPlotting.ParsePairs | achieved_frequency_plotting.py:26-32 | the two lists have one entry per achieved-frequency line, entry i of each coming from the same line |
| AchievedFrequencyPlotting.ParseAchievedFrequencies | achieved_frequency_plotting.py:5-32 | the loop returns what `ParseFile` specifies |
| AchievedFrequencyPlotting.StemKey | achieved_frequency_plotting.py:43 | the key text of `prefix_stem.ext` (stem and ext free of `_` and `.`) is the stem |
| AchievedFrequencyPlotting.SortKeyOfLog | achieved_frequency_plotting.py:43-46 | the key text of `pq_analysis_<n>.txt` is the decimal text of n, and the sort key is n |
| AchievedFrequencyPlotting.NotesHasNoKey | achieved_frequency_plotting.py:42-45 | a listed file such as `notes.txt` is skipped by the filter, yet its key raises ValueError during the sort |
| AchievedFrequencyPlotting.DecorateOk | achieved_frequency_plotting.py:42-44 | computing the keys succeeds exactly when every name has one, and otherwise raises the key's exception |
| AchievedFrequencyPlotting.InsertPermutes | achieved_frequency_plotting.py:42-44 | inserting adds exactly the entry |
| AchievedFrequencyPlotting.InsertSorted | achieved_frequency_plotting.py:42-44 | inserting into a key-sorted list keeps it sorted |
| AchievedFrequencyPlotting.InsertStable | achieved_frequency_plotting.py:42-44 | inserting puts the entry after every entry with its key |
| AchievedFrequencyPlotting.SortSorted | achieved_frequency_plotting.py:42-44 | the sort yields non-decreasing keys |
| AchievedFrequencyPlotting.SortPermutes | achieved_frequency_plotting.py:42-44 | the sort is a permutation |
| AchievedFrequencyPlotting.SortStable | achieved_frequency_plotting.py:42-44 | entries with equal keys keep their order (Python's sort is stable) |
| AchievedFrequencyPlotting.SortedListingSpec | achieved_frequency_plotting.py:42-44 | `sorted(listdir, key=…)` succeeds exactly when every name has a key, else ValueError. It then gives a permutation of the listing in non-decreasing key order, with names of equal key in listing order |
| AchievedFrequencyPlotting.StoreKeys | achieved_frequency_plotting.py:49 | assigning to a dict keeps the key order and appends a new key at the end |
| AchievedFrequencyPlotting.StoreLookup | achieved_frequency_plotting.py:49 | after the assignment the key maps to the new value and every other key to its old one |
| AchievedFrequencyPlotting.StoreDistinct | achieved_frequency_plotting.py:49 | the dict never holds a key twice |
| AchievedFrequencyPlotting.CollectOk | achieved_frequency_plotting.py:45-49 | the filling loop finishes exactly when every analysis log it visits exists and parses |
| AchievedFrequencyPlotting.CollectKeys | achieved_frequency_plotting.py:45-49 | the keys are the key texts of the analysis logs, each once, in first-visit order |
| AchievedFrequencyPlotting.CollectLookup | achieved_frequency_plotting.py:45-49 | each key holds the parse of the last analysis log with that key text; a key of no log is absent |
| AchievedFrequencyPlotting.AllDataOk | achieved_frequency_plotting.py:39-49 | the module-level pass finishes exactly when every listed name has a sort key and every analysis log parses; a name without a key raises ValueError |
| AchievedFrequencyPlotting.AllDataContents | achieved_frequency_plotting.py:39-54 | the keys of `all_data` are the key texts of the analysis logs in the directory, each once, in sorted first-visit order. Each key holds the data of the last such log in that order |
| AchievedFrequencyPlotting.CollectAllData | achieved_frequency_plotting.py:39-49 | the loop returns what `AllData` specifies |

## Left out

- The synthesis tool itself (the `vivado` subprocess, auto_run.py:5-17): it is a function parameter `tool` from the Verilog lines, the TCL lines and the logs to the logs it leaves, plus a `ToolInvoked` effect. Its exit status is not read by the source and is not modelled.
- File I/O: files are sequences of lines, each keeping its newline as `readlines` gives them. The log directory is a map from file name to lines, and the Verilog and TCL files are fields of `Workspace`. `os.path.join` and the directory prefix are not modelled: the readers' `files` map is keyed by the name they open.
- The log directory is assumed to exist (`os.listdir` raising on a missing directory is not modelled). The order of `os.listdir` is an input.
- The `print` of the gate (auto_run.py:73-75) is a `UtilizationWarning` effect. All `matplotlib` plotting is left out, since it draws and does not compute.
- The hard-coded top-level plotting code of `plotting.py` and `queue_size_plotting.py` after `parse_data_from_file` is left out: it only plots the lists.
- `float()` is modelled on ASCII decimal text with an optional sign and point. Exponents, `inf`/`nan`, underscores and non-ASCII digits are not modelled (such text reads as ValueError), and values are exact reals, not IEEE doubles.
- `int()` likewise takes ASCII digits with an optional sign and surrounding whitespace.
- AchievedFrequencyPlotting.Sort: Python's Timsort is modelled by a stable insertion sort. Both produce the unique stable sorted order, which `SortedListingSpec` states.
- Python dictionaries are sequences of key/value pairs in insertion order.
- AutoRun.Workspace.ClearAnalysisLogs: the erase loop visits the names in set order rather than `os.listdir` order. The result does not depend on the order.

Where the docstrings and the code disagree, the model follows the code:

- The `queue_size_plotting.py` docstring promises eight lists, including the Slice Registers utilisation (lines 6 and 22). The code returns seven (lines 67-75), and a `Slice Registers Util%` line falls through the chain (`QueueSizePlotting.StepIgnores`).
- The `plotting.py` docstring promises five lists (line 19). The code returns nine (lines 69-79).

## Findings

| source | as written | input that shows it | evidently intended | confidence | as-written member | corrected member |
|---|---|---|---|---|---|---|
| auto_run.py:72-76 | `break` leaves only the scan of the previous log, so the size is still processed and the sweep continues | previous log line `Frequency: 100 MHz -> Slice LUTs Util%: 55.2 %` reads 55.2, yet the tool runs again for the size | stop the sweep, as the printed "Exiting script." says | high, not executed | AutoRun.WarningDoesNotStop | AutoRun.GatedSweepStops |
| queue_size_plotting.py:60-62 | token 2 after the arrow is read | `Frequency: 100 MHz -> Slice LUTs Util%: 12.5 %`, whose token 2 is `Util%:`, raises ValueError | token 3, the percentage | medium, not executed | QueueSizePlotting.LutsReadsLabel | QueueSizePlotting.LutsValueRead |
| queue_size_plotting.py:46-50 | token `Ym` with its last letter cut is read as the synthesis time; the implementation branch (line 52) cuts its token the same way | `Frequency: 100 MHz -> Synthesis: 1m 30s -> 90s` gives 1.0 | the time in seconds (docstring line 24), here 90.0 | medium, not executed | QueueSizePlotting.SynthesisReadsMinutes | QueueSizePlotting.DurationSecondsRead |

The model of the code follows the code as written: `Sweep`, `Source` and the
readers' `Step` functions keep these behaviours. The corrected definitions
sit beside them:
- `GatedSweep` is the sweep that stops at the gate.
- `LutsValueField` is the field the percentage occupies.
- `DurationSeconds` is the duration in seconds.

The lemmas in the last column prove the intended property of each corrected
definition.
