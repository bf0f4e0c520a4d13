# RAMPT pipeline-step core in Dafny

RAMPT runs mass-spectrometry data through a pipeline of steps: conversion with msconvert, feature finding with mzmine, annotation with SIRIUS and GNPS, then analysis and a summary table. Every step is a `Pipe_Step`. The external tools, the GNPS web service and the pandas tables do the heavy work. What is modelled here is the deterministic bookkeeping around them:

- which inputs a step accepts and which run style it chooses;
- how scheduled inputs are paired with outputs and arguments;
- the progress lists a step keeps;
- the command lines it builds and the file names it derives;
- how it searches directories for its inputs.

## Modules

The project has one Dafny module per source file of the core. Two shared modules support them:

- `Wrappers`: `Option`, `Result`, and Python's truthiness of an optional string;
- `Text`: the string and `posixpath` operations the code relies on.

Besides these, `StepValues` holds the Python values a step sees, with dicts as ordered entry sequences, and `Sequences` holds element-type-independent sequence facts.

### Base classes

- `StepConfig` covers `get_value`/`set_value` and `Step_Configuration` (rampt/steps/general.py). `get_value` and `set_value` in source/steps/general.py behave the same way and are covered by the same members; there, a missing attribute raises `ValueError` directly instead of through the logger.
- `PipeSteps` covers the newer `Pipe_Step`:
  - the six parallel progress lists as a class;
  - the helpers over argument dicts;
  - run-style validation and choice;
  - the scheduling loop of `run`.
- `LegacySteps` covers the older `Pipe_Step` of source/steps/general.py, whose `run` pads the outputs and pairs them with inputs by position.

### Per-step modules

- `MSConvert` and `LegacyConversion`: the msconvert step and the older `File_Converter`.
- `Analysis` and `LegacyAnalysis`: the analysis step; `SlotSearch` is the walk-and-slot file discovery shared by the older analysis and summary steps.
- `Summary` and `LegacySummary`: the summary step.
- `Gnps`, `Sirius` and `MZmine`: the annotation and feature-finding steps.

### Helpers

- `Helpers`: the string and file helpers of source/helpers/general.py.
- `Logging`: `TeeStream`, `capture_and_log` and `Logger`.
- `OpenMs`: the file-name handling of the OpenMS helper.
- `Statistics`: test choice and star notation.
- `SetupDeps`: `get_package_raw` of the frozen-build setup script.
- `Installer`: the page navigation and download choice of the installer.

### How the environment is modelled

Filesystem facts are inputs:

- which paths are files or directories;
- directory listings;
- `os.walk` order;
- the lines of a file.

Other abstractions:

- Regular-expression matching is a predicate `matches(pattern, subject)` passed in.
- `os.path.join` is either `Text.PathJoin` (POSIX) or, where a descent is parameterised, a `join` function that stands for it.
- An exception the source raises is an `Err` value naming its Python type.
- The classes that update fields in place are Dafny classes with `modifies` clauses: the progress lists of both step base classes, the converter, the logger, the tee stream, the directory set of `make_new_dir`, and the installer.

## Model

| member | source | states |
|---|---|---|
| Helpers.SliceBound | source/helpers/general.py:66 | a bound of `s[range]` lies within the string: missing bounds default, negative ones count from the end, and the result is clamped to the length |
| Helpers.ChangeCaseStr | source/helpers/general.py:52-78 | fails with `ValueError` exactly when the conversion is neither `upper` nor `lower`; otherwise keeps the length, leaves every character outside the slice as it was and upper- or lower-cases every character inside it |
| Helpers.SpliceAt | source/helpers/general.py:76 | the slice assignment `str_list[range] = selection` with an equally long selection keeps the length, puts the selection at the slice and keeps everything else |
| Helpers.OpenLastLineWithContent | source/helpers/general.py:102-119 | returns the first line, counting from the end, that holds a non-space character, and every later line is blank; fails with `ValueError` only when every line within reach is blank |
| Helpers.Disk.MakeNewDir | source/helpers/general.py:35-47 | succeeds exactly when the path is already a directory or can be created; reports `True` exactly when it created it; the directory set then holds the path, and an `OSError` leaves it unchanged |
| Logging.Stream.Tee | rampt/helpers/logging.py:36-44 | a tee stream forwards to the stream it wraps and starts with an empty log |
| Logging.Stream.Write | rampt/helpers/logging.py:46-54 | `TeeStream.write` appends the data to its log and to the original stream's log |
| Logging.CaptureAndLog | rampt/helpers/logging.py:63-102 | everything the function writes reaches the original streams in order; on a return, the result is passed on, the original streams are back in place and the log file (when a path is given) holds `out:` and `err:` sections with the captured writes; on a raise, the error propagates, no log file is written and the tee streams stay installed |
| Logging.Logger.constructor | rampt/helpers/logging.py:106-113 | without a path: no log file and empty output; with one: the absolute path is kept and the first message announces the log file |
| Logging.Logger.FirstLog | rampt/helpers/logging.py:111 | the announcing message of a fresh logger is recorded in `out`, written to the log file after a newline and printed |
| Logging.Logger.ToDict | rampt/helpers/logging.py:115-121 | the record holds exactly `out`, `err` and the log-file path |
| Logging.Logger.WriteLogFile | rampt/helpers/logging.py:131-136 | appends a newline and the output to the log file when there is one, and writes nothing otherwise |
| Logging.Logger.ToOut | rampt/helpers/logging.py:123-125 | `out` grows by exactly the output, which also goes to the log file |
| Logging.Logger.ToErr | rampt/helpers/logging.py:127-129 | `err` grows by exactly the output, which also goes to the log file |
| Logging.Logger.Log | rampt/helpers/logging.py:138-165 | the message is always recorded in `out` and the log file, and printed exactly when the verbosity reaches the minimum |
| Logging.Logger.Warn | rampt/helpers/logging.py:167-177 | the message is recorded in `out` and the log file and issued as a warning |
| Logging.Logger.Fail | rampt/helpers/logging.py:179-201 | the message is recorded in `err` and the log file; the error is raised when asked, and returned otherwise |
| OpenMs.ReadExperiment | rampt/helpers/openms.py:48-81 | `.mzML`/`.MzML` get the mzML reader and exactly those; `.mzXML`/`.MzXML` get the mzXML reader and exactly those; `.tsv`, `.csv` and `.txt` get the table reader exactly when the path is not an experiment; `ValueError` is raised exactly when none of the seven endings is present |
| OpenMs.EndingsDisjoint | rampt/helpers/openms.py:62-67 | no path ends in both an mzML and an mzXML ending, so the order of the dispatch does not matter |
| OpenMs.ReadExperimentAgreesWithCheck | rampt/helpers/openms.py:32-67 | `check_ending_experiment` holds exactly for the paths that get an mzML or mzXML reader |
| OpenMs.LoadName | rampt/helpers/openms.py:145-172 | fails with `ValueError` exactly for a loaded experiment with neither a file path nor an alternative name |
| OpenMs.LoadNameDropsLastPart | rampt/helpers/openms.py:164-165 | a name made of dot-free parts loses its last part and its dots |
| OpenMs.LoadNameWithoutDot | rampt/helpers/openms.py:164-165 | a name without any `.` gives the empty name |
| OpenMs.SelectFiles | rampt/helpers/openms.py:125-137 | keeps exactly the listing entries with the given ending, or with an experiment ending when none is given |
| OpenMs.LoadExperimentPaths | rampt/helpers/openms.py:125-137 | one path per selected entry, in listing order, each joined to the directory |
| OpenMs.LoadNamesInDir | rampt/helpers/openms.py:189-201 | one name per selected entry, in listing order, each its `load_name` |
| OpenMs.NamesMatchPaths | rampt/helpers/openms.py:125-201 | the name reported for an entry equals the name of the path `load_experiments` reports for it |
| OpenMs.NatToString | rampt/helpers/openms.py:207 | `str(i)` is never empty |
| OpenMs.NatToStringDecimal | rampt/helpers/openms.py:207 | `str(i)` is the decimal numeral of `i`: digits only, no leading zero unless `i` is 0, and it reads back as `i` |
| OpenMs.LoadNamesOfList | rampt/helpers/openms.py:202-209 | an empty list fails on `experiments[0]` with `IndexError`; otherwise one name per experiment |
| OpenMs.LoadNamesFrom | rampt/helpers/openms.py:203-209 | the names from position `i` on, one per experiment |
| OpenMs.LoadNamesFromAt | rampt/helpers/openms.py:203-209 | each name is the `load_name` of the experiment at its position, with the position as alternative name for loaded experiments |
| OpenMs.LoadNamesFromCons | rampt/helpers/openms.py:203-209 | the names from `i` are the name at `i` followed by the names from `i + 1` |
| OpenMs.LoadedListNeverFails | rampt/helpers/openms.py:205-209 | a list whose first entry is a loaded experiment never fails: every experiment has at least its position as name |
| OpenMs.LoadedFromNeverFails | rampt/helpers/openms.py:205-209 | the names of loaded experiments with position names never fail |
| OpenMs.SampleAndPolarity | rampt/helpers/openms.py:237-238 | the sample is the `_`-parts of the name without the last one |
| OpenMs.SampleAndPolarityRoundTrip | rampt/helpers/openms.py:237-238 | a name written as `_`-free sample parts and a tag parses back to those parts and the tag's polarity (`pos` 1, `neg` -1, otherwise none) |
| Statistics.ChooseTest | rampt/steps/analysis/statistics.py:14-29 | one of the four tests; a t-test exactly when the Shapiro-Wilk p-value exceeds 0.05, and a paired test (paired t-test or signed-rank) exactly when `paired` |
| Statistics.ChooseTestDeterminesInputs | rampt/steps/analysis/statistics.py:17-27 | the decision table is one-to-one: the chosen test determines the pairing and the normality verdict |
| Statistics.PValToStar | rampt/steps/analysis/statistics.py:68-86 | one of the five notations; `ns` exactly when p >= 0.05, four stars exactly below 1e-4, at least three below 1e-3, at least two below 1e-2 |
| Statistics.PValToStarMonotone | rampt/steps/analysis/statistics.py:77-86 | a smaller p-value never gets fewer stars |
| SetupDeps.RawName | statics/builders/cx_freeze/setup.py:24-30 | the longest prefix free of `<`, `>` and `=`: a prefix, free of them, and stopped by one or by the end |
| SetupDeps.GetPackageRaw | statics/builders/cx_freeze/setup.py:24-30 | the character loop returns that raw name |
| SetupDeps.RawNameUnique | statics/builders/cx_freeze/setup.py:24-30 | any prefix with those three properties is the raw name |
| SetupDeps.RawNameUnconstrained | statics/builders/cx_freeze/setup.py:24-30 | a dependency without a version constraint is its own package name |
| SetupDeps.RawNameIdempotent | statics/builders/cx_freeze/setup.py:24-30 | taking the package name twice changes nothing |
| Installer.InstallerApp.constructor | rampt/installer.py:119-164 | starts on the license page, not accepted, nothing installed, buttons in their page state |
| Installer.InstallerApp.LoadPage | rampt/installer.py:166-178 | "Previous" is enabled exactly off the first page, and "Next" reads "Install" exactly on the last page |
| Installer.InstallerApp.NextPage | rampt/installer.py:180-189 | the license page is left only once accepted; below the last page it advances by one; on the last page it starts the installation and stays |
| Installer.InstallerApp.PreviousPage | rampt/installer.py:191-195 | steps back by one unless on the first page |
| Installer.UrlKey | rampt/installer.py:265-273 | `mac` exactly when the system name mentions mac; a Windows key exactly when it mentions windows and not mac, `win64` exactly when the architecture also mentions 64; `linux` otherwise |
| Installer.ComponentUrl | rampt/installer.py:264-273 | the URL is the table's entry for that key, and missing exactly when the table has none |
| StepConfig.GetValue | rampt/steps/general.py:39-64 | on a dict: the stored value when the key is present and `None` when it is absent, whatever the default; on anything else: the attribute when it exists and is not `None`, otherwise the default |
| StepConfig.GetValueStrict | rampt/steps/general.py:21-36 | on a dict: the stored value, or `None` for a missing key; on anything else: the attribute, and `AttributeError` exactly when there is none |
| StepConfig.GetValueIgnoresDefaultOnDict | rampt/steps/general.py:53-55 | an absent key of a dict gives `None`, not the default |
| StepConfig.SetValue | rampt/steps/general.py:67-98 | succeeds exactly for a dict, an object that already has the key, or `add_key`; then the key holds the new value and every other key is kept; otherwise `ValueError` and nothing changes |
| StepConfig.SetThenGet | rampt/steps/general.py:32-98 | what `set_value` stores `get_value` reads back (on an object unless it is `None`), and other keys of a dict read as before |
| StepConfig.ComposeRegex | rampt/steps/general.py:191-199 | no regex exactly when no part is set |
| StepConfig.ComposeRegexShape | rampt/steps/general.py:191-199 | a prefix anchors the start with `^{prefix}.*`; otherwise a suffix ends it with `.*{suffix}$`; otherwise a `contains` ends it with `.*{contains}.*`; the pattern always occurs in it |
| StepConfig.AddContains | rampt/steps/general.py:194-195 | starts with the pattern, ends with `.*{contains}.*` when `contains` is set, and is empty only when both are |
| StepConfig.AddSuffix | rampt/steps/general.py:196-197 | starts with what came before, ends with `.*{suffix}$` when the suffix is set, and is unchanged otherwise |
| StepConfig.AddPrefix | rampt/steps/general.py:198-199 | ends with what came before, starts with `^{prefix}.*` when the prefix is set, and is unchanged otherwise |
| StepConfig.ComposeRegexOrder | rampt/steps/general.py:191-199 | the prefix wraps whatever the other parts built; a suffix alone gives `.*{suffix}$`; `contains` is added as the alternative `{pattern}\|.*{contains}.*` |
| StepConfig.FillPatternsSpec | rampt/steps/general.py:205-213 | filling keeps every key and adds the listed ones; a listed key holds the regex and any other key its old value; an empty regex changes nothing |
| StepConfig.StepConfiguration.constructor | rampt/steps/general.py:106-164 | the parts and tables are stored, and every key of the given pattern table is refilled with the composed regex when there is one |
| StepConfig.StepConfiguration.UpdatePattern | rampt/steps/general.py:177-203 | each part falls back to the configured one, and the composed regex is stored under the key unless it is empty, in which case the table is unchanged |
| StepConfig.StepConfiguration.UpdatePatterns | rampt/steps/general.py:205-213 | the loop leaves the table that filling every listed key with the configured regex gives |
| StepConfig.StepConfiguration.ConstructFullRegex | rampt/steps/general.py:215-225 | `(?=P)(?=M)` when both regexes are set, whichever one is set otherwise, and `None` exactly when neither is |
| StepConfig.DictRepresentation | rampt/steps/general.py:228-261 | a `None` attribute stands for the step itself; a list, a dict, an instance or a function gives a representation with the value's shape that is plain data; anything else has no `__dict__` and raises `AttributeError` |
| StepConfig.RepresentMirrors | rampt/steps/general.py:231-261 | the representation keeps every key at every level, in order, and the length of every list, copies primitive leaves and puts `True` exactly where a callable without `__dict__` was |
| StepConfig.RepresentPlain | rampt/steps/general.py:231-261 | the representation holds no instance and no callable |
| StepConfig.RepresentPlainFixed | rampt/steps/general.py:231-261 | plain data is its own representation |
| StepConfig.RepresentIdempotent | rampt/steps/general.py:231-261 | representing twice changes nothing |
| StepConfig.FunctionsBecomeDicts | rampt/steps/general.py:235-241 | because `__dict__` is checked before `callable`, a Python function becomes a dict (`{}` for a plain one), never `True` |
| PipeSteps.Store | rampt/steps/general.py:464-500 | the six progress lists stay aligned and free of repeats; the combination is appended only when it was not processed before |
| PipeSteps.StoreThenAt | rampt/steps/general.py:487-500 | what was stored is what the combination records afterwards, and every other processed combination keeps its record |
| PipeSteps.StoreIdempotent | rampt/steps/general.py:487-493 | storing the same record twice is storing it once |
| PipeSteps.StoreAll | rampt/steps/general.py:464-500 | storing records in turn keeps the progress aligned |
| PipeSteps.StoreAllKeeps | rampt/steps/general.py:487-500 | storing never forgets a processed combination |
| PipeSteps.StoreAllStores | rampt/steps/general.py:464-500 | after storing records in turn, the combination of each of them is among the processed ones |
| PipeSteps.StoreAllSnoc | rampt/steps/general.py:464-500 | storing one more record is one more `store_progress` |
| PipeSteps.RunLoop | rampt/steps/general.py:819-839 | the progress after the loop of `run` stays aligned, whether or not a distribution raised |
| PipeSteps.RunStep | rampt/steps/general.py:820-839 | one turn of the loop keeps the progress aligned |
| PipeSteps.RunLoopSnoc | rampt/steps/general.py:819-839 | the loop over a longer schedule is one more turn after the loop over the shorter one |
| PipeSteps.RunLoopFailed | rampt/steps/general.py:819-839 | once a prefix of the schedule has raised, the rest of the schedule changes nothing: the error propagates out of the loop |
| PipeSteps.RunLoopFailure | rampt/steps/general.py:831-833 | a loop that raised did so in the last combination it distributed, with that combination's error |
| PipeSteps.RunLoopKeeps | rampt/steps/general.py:819-839 | the loop never forgets a processed combination |
| PipeSteps.RunSkipsProcessed | rampt/steps/general.py:822-823 | without `overwrite`, no combination processed before the loop starts is distributed again |
| PipeSteps.RunOverwriteDispatchesAll | rampt/steps/general.py:819-839 | with `overwrite`, a loop that does not raise distributes every scheduled combination, in schedule order |
| PipeSteps.RunCovers | rampt/steps/general.py:819-839 | when the loop does not raise, every scheduled combination is distributed or was already processed, and is processed after the loop |
| PipeSteps.ExtractStandard | rampt/steps/general.py:616-637 | `ValueError` exactly when there are no arguments; one argument gives its standard value, more give a list with one entry per argument |
| PipeSteps.ExtractOptional | rampt/steps/general.py:639-659 | `ValueError` exactly when no keys are given; the dict form maps exactly the listed keys to the dictionary's value or `None`; one key gives its value or `None`; several give the list of the optionals' values |
| PipeSteps.OptionalsLookup | rampt/steps/general.py:648 | a listed key maps to the dictionary's value or `None`, and an unlisted key is absent |
| PipeSteps.OptionalsLookupAll | rampt/steps/general.py:648 | every key at once: a listed key maps to the dictionary's value or `None`, any other key is absent |
| PipeSteps.OptionalsKeys | rampt/steps/general.py:648 | with distinct keys, the optionals hold exactly the keys given, in order |
| PipeSteps.OptionalsDistinctKeys | rampt/steps/general.py:656-659 | with distinct keys, the list form has one value per key, in key order, each the dictionary's value or `None` |
| PipeSteps.ExtractOptionalRepeatedKey | rampt/steps/general.py:648-659 | a repeated key collapses into one dict entry, so `[k, k]` gives a one-element list |
| PipeSteps.FillFromLookup | rampt/steps/general.py:609-612 | a missing replacement key receives the standard value; every other key keeps its value or absence |
| PipeSteps.FillFromNoop | rampt/steps/general.py:609-612 | when every replacement key is present, nothing changes |
| PipeSteps.FillStandardsPresent | rampt/steps/general.py:606-614 | with the standard key present, every replacement key ends up present, with its own value or the standard one; other keys are untouched |
| PipeSteps.FillStandardsIdempotent | rampt/steps/general.py:606-614 | filling twice is filling once |
| PipeSteps.WithOutPath | rampt/steps/general.py:805-817 | a combination with an out path is kept; one without gets `{"standard": d}`, where `defaultOut` gives `d`, and keeps every other key; it raises exactly when it is not a dict, or lacks an out path and either lacks `in_paths` (`KeyError`) or `defaultOut` raises |
| PipeSteps.OutPathFiller | rampt/steps/general.py:805-817 | the step the fill loop takes on every combination is `WithOutPath` with the given default |
| PipeSteps.StandardInAsWritten | rampt/steps/general.py:807-812 | as written: `standard_in` not in `in_paths` gives the first truthy flattened input; in `in_paths` gives item `0` of the standard `extract_standard` takes; a value that cannot be searched raises `TypeError` |
| PipeSteps.StandardIn | rampt/steps/general.py:807-812 | in the corrected reading: a standard path string is taken whole, a list of them gives its first (`IndexError` when empty), a string `in_paths` holding `standard_in` is taken whole; the other cases as written |
| PipeSteps.StandardInAgrees | rampt/steps/general.py:807-812 | both readings agree when the standard is a list of paths or `standard_in` is not among the inputs |
| PipeSteps.StandardInFirstChar | rampt/steps/general.py:807-812 | `{"standard": "/data/in"}`: as written the standard input is `/`, in the corrected reading `/data/in` |
| PipeSteps.DefaultOut | rampt/steps/general.py:807-817 | the default out path is the error of choosing the standard input, or `locate` of the chosen one |
| PipeSteps.FillOutPaths | rampt/steps/general.py:804-817 | the fill loop keeps the schedule's length, and a failure sits at a position of the schedule |
| PipeSteps.FillOutPathsFilled | rampt/steps/general.py:804-817 | when the fill loop succeeds, every combination is the step's result on the original one |
| PipeSteps.FillOutPathsFailed | rampt/steps/general.py:804-817 | when the fill loop raises, the step failed with that error at that position, the combinations before it are filled and the rest are left as they were |
| PipeSteps.FillSnoc | rampt/steps/general.py:804-817 | one more turn after a prefix that filled either fills the next combination or fails at it |
| PipeSteps.FillFailedRest | rampt/steps/general.py:804-817 | after a failed prefix, the rest of the schedule is left as it was |
| PipeSteps.ValidStyles | rampt/steps/general.py:662-695 | no more styles are reported than there are rules |
| PipeSteps.ValidStylesAppend | rampt/steps/general.py:676-694 | checking two lists of rules reports the styles of the first, then those of the second |
| PipeSteps.ValidStylesExactly | rampt/steps/general.py:676-694 | a style is reported exactly when some rule of that style holds for the io |
| PipeSteps.ComboValid | rampt/steps/general.py:678-692 | the loops report valid exactly when every required io entry is present and in it every required key is present and accepted by its validator |
| PipeSteps.CheckIoCombos | rampt/steps/general.py:677-694 | the loop reports the styles whose rule holds, in order |
| PipeSteps.ChooseRunner | rampt/steps/general.py:716-750 | a truthy run style decides, and succeeds exactly when it names `nested`, `directory` or `single`; otherwise nested steps run nested, a directory input as a directory and anything else single; the nested runner is chosen only for those reasons |
| PipeSteps.StandardKey | rampt/steps/general.py:712-713 | without `data_ids`, or with a key other than `standard`, the given key is used; otherwise the first id listed under `standard`, and `IndexError` exactly when that list is empty |
| PipeSteps.RunnerFor | rampt/steps/general.py:712-750 | a combination without `in_paths` raises `KeyError`, whatever run style it names; without a truthy `run_style`, a nested step runs nested, and a flat one hands its standard input to `os.path.isdir`: a directory runs as a directory, another path single, and an input that is not a path (a list, a dict, `None`) raises `TypeError`; a truthy `run_style` picks the style of that name, and any other name raises `ValueError` |
| PipeSteps.IsDir | rampt/steps/general.py:719 | `os.path.isdir` answers for a path (string, or integer descriptor) and raises `TypeError` for anything else |
| PipeSteps.Flags | rampt/steps/general.py:769 | one `--key "value"` flag per keyword argument, in order |
| PipeSteps.JoinNonEmptyPair | rampt/steps/general.py:763-773 | joining two parts with `filter(None, ...)` drops an empty one and puts one space between two non-empty ones |
| PipeSteps.LinkAdditionalArgs | rampt/steps/general.py:752-775 | the popped arguments (else the step's own) come first, then the flags, with one space between them only when both are non-empty |
| PipeSteps.FirstWorkingFrom | rampt/steps/general.py:391-394 | the index found lies in range, no earlier candidate from the start passes the check, and the one found does |
| PipeSteps.FirstExec | rampt/steps/general.py:390-399 | `None` exactly when no candidate passes the check; otherwise the first one that does |
| PipeSteps.Pending | rampt/steps/general.py:552-557 | the pending positions are in range, hold a future and increase |
| PipeSteps.PendingComplete | rampt/steps/general.py:554-557 | every position holding a future is pending |
| PipeSteps.WriteBack | rampt/steps/general.py:562-566 | writing responses back keeps the combinations, futures and log paths |
| PipeSteps.WriteOne | rampt/steps/general.py:563-566 | one response changes the outs, errs and results of its position only |
| PipeSteps.WriteResponses | rampt/steps/general.py:552-566 | the loop writes the first responses, in pending order, to the positions `list.index` finds |
| PipeSteps.WriteBackLeavesOthers | rampt/steps/general.py:562-566 | a position without a pending future keeps its outs, errs and results |
| PipeSteps.WriteBackWrites | rampt/steps/general.py:562-566 | the `k`-th pending position ends up with the `k`-th response |
| PipeSteps.ComputeRecord | rampt/steps/general.py:511-546 | the record is stored under the `in_out` argument; with several workers it holds a delayed call (of `execute_verbose_command` with `cmd` for a command line) and `None` results; with one it holds items 0, 1 and 2 of the response, `None` where missing |
| PipeSteps.Invoke | rampt/steps/general.py:511-532 | one `compute` call raises exactly when one worker calls a list (`TypeError`) or gets an empty response (`IndexError`); otherwise it stores the record `ComputeRecord` describes |
| PipeSteps.PipeStep.constructor | rampt/steps/general.py:337-362 | the settings are stored and the schedule, the common executables and all progress are empty |
| PipeSteps.PipeStep.StoreProgress | rampt/steps/general.py:464-500 | the progress becomes `Store` of the old progress and stays aligned |
| PipeSteps.PipeStep.ResetProgress | rampt/steps/general.py:502-508 | all progress is empty |
| PipeSteps.PipeStep.Compute | rampt/steps/general.py:511-546 | with one worker, a list of step functions raises `TypeError` and an empty response `IndexError`, exactly then, and nothing changes; otherwise the computed record is stored |
| PipeSteps.PipeStep.ComputeFutures | rampt/steps/general.py:548-566 | each computed response is written back to the combination of its pending future, in order |
| PipeSteps.PipeStep.CheckExecs | rampt/steps/general.py:381-399 | the first of the given path and the common executables that passes the check, and `None` exactly when none does |
| PipeSteps.PipeStep.CheckIo | rampt/steps/general.py:662-695 | the styles whose rules hold, in `valid_runs` order, falling back to the step's own rules when none are given |
| PipeSteps.PipeStep.StoreRecords | rampt/steps/general.py:464-500 | the progress after storing the records in turn |
| PipeSteps.PipeStep.Visit | rampt/steps/general.py:820-839 | a combination is distributed exactly when it was not processed or the step overwrites; then its records are stored, or its error is raised and nothing is stored |
| PipeSteps.PipeStep.FillMissingOutPaths | rampt/steps/general.py:804-817 | the schedule afterwards is `FillOutPaths` of the schedule before, and an error is reported exactly when the fill failed |
| PipeSteps.PipeStep.Run | rampt/steps/general.py:778-854 | the schedule is extended and its out paths filled in with `DefaultOut` (the corrected standard input of the "## Findings" row on rampt/steps/general.py:807-810); a fill error is raised with the partly filled schedule kept and no progress stored; otherwise the progress is `RunLoop` of the old one, and the schedule is cleared and the processed combinations returned exactly when the loop did not raise, while an error keeps the schedule |
| PipeSteps.PipeStep.DistributeAll | rampt/steps/general.py:819-839 | the progress, the distributed combinations and the error after the loop are those of `RunLoop` |
| LegacySteps.LabelOf | source/steps/general.py:335-336 | a path is its own label; a dict gives its `"label"` entry, and `KeyError` exactly when it has none |
| LegacySteps.Dirnames | source/steps/general.py:325 | `TypeError` exactly when some input is a dict; otherwise the directory of every input, in order |
| LegacySteps.PadOuts | source/steps/general.py:324-330 | fails exactly when there are no outputs and some input is a dict; with outputs, they are kept and padded with the last one up to the number of inputs; without, the inputs' directories are used |
| LegacySteps.Zip | source/steps/general.py:334 | the pairs are the inputs and outputs at the same position, up to the shorter list, and one per input when the outputs are at least as many |
| LegacySteps.ArgsAt | source/steps/general.py:351-356 | every keyword argument is passed, under the same key and in the same order |
| LegacySteps.ArgsAtAsWritten | source/steps/general.py:351-356 | the loop as written keeps the keys, and its only failure is `IndexError` |
| LegacySteps.ArgsAtAgrees | source/steps/general.py:351-356 | when nothing was scheduled before the call, the loop as written passes exactly what the corrected loop does |
| LegacySteps.ArgsAtPreScheduled | source/steps/general.py:351-356 | one input already scheduled, then `run([b], k=[x])`: the loop as written raises `IndexError` on the pair of `b`, while the corrected loop passes `[x]` whole |
| LegacySteps.Dispatch | source/steps/general.py:359-364 | the call works on the given input path: `compute_nested` for a nested step, else `compute_directory` for a directory, else `compute` |
| LegacySteps.Store | source/steps/general.py:241-252 | the five lists stay aligned |
| LegacySteps.StoreSpec | source/steps/general.py:241-252 | the input's first position holds the new record, every other position keeps its record, and the lists grow by one exactly when the input is new |
| LegacySteps.StoreDistinct | source/steps/general.py:241-252 | storing keeps the processed inputs free of repeats |
| LegacySteps.StoreAll | source/steps/general.py:241-252 | storing records in turn keeps the lists aligned |
| LegacySteps.StoreAllKeeps | source/steps/general.py:241-252 | storing never forgets a processed input |
| LegacySteps.MergeAllSpec | source/steps/general.py:255-261 | merging keeps the lists aligned, and merging other steps gives the step's own inputs followed by each source's, in order |
| LegacySteps.AppendAssoc | source/steps/general.py:255-261 | extending list by list is extending once by their concatenation |
| LegacySteps.LegacyStep | source/steps/general.py:334-364 | one turn of the loop keeps the lists aligned |
| LegacySteps.LegacyLoop | source/steps/general.py:334-367 | the loop keeps the lists aligned |
| LegacySteps.LegacyLoopSnoc | source/steps/general.py:334-367 | the loop over one more pair is one more turn |
| LegacySteps.LegacyLoopKeeps | source/steps/general.py:334-367 | the loop never forgets a processed input |
| LegacySteps.LegacyLoopCalls | source/steps/general.py:338-364 | at most one call per pair, each the one the step's configuration picks for its input; without `overwrite` no input processed before is computed again |
| LegacySteps.LegacyOverwriteCallsAll | source/steps/general.py:334-364 | with `overwrite` and a label on every dict, every pair is computed, in order, without failure |
| LegacySteps.LegacyLoopFailed | source/steps/general.py:334-367 | after the first error, the remaining pairs change nothing |
| LegacySteps.LegacyPipeStep.constructor | source/steps/general.py:162-199 | the settings are stored and the schedule and progress are empty |
| LegacySteps.LegacyPipeStep.StoreProgress | source/steps/general.py:226-252 | the progress becomes `Store` of the old progress |
| LegacySteps.LegacyPipeStep.MergeProgress | source/steps/general.py:255-261 | the progress becomes the merge of the old progress with each step's lists as they were before the merge |
| LegacySteps.LegacyPipeStep.Visit | source/steps/general.py:334-364 | one turn of the loop changes the progress as `LegacyStep` says |
| LegacySteps.LegacyPipeStep.DistributeAll | source/steps/general.py:334-367 | the progress, the calls and the failure after the loop are those of `LegacyLoop` |
| LegacySteps.LegacyPipeStep.Run | source/steps/general.py:303-380 | in the corrected reading of the argument split (Findings, first row): the schedule is extended and the outputs defaulted and padded; a padding error or a loop error is returned and keeps the schedule; on success the schedule is cleared and the processed outputs are returned |
| MSConvert.MandatoryAccepts | rampt/steps/conversion/msconv_pipe.py:104-128 | the mandatory pattern accepts a Thermo `.raw` file and an `.mzML` file |
| MSConvert.MandatoryRejects | rampt/steps/conversion/msconv_pipe.py:104-128 | the mandatory pattern rejects a `.txt` file, since no valid format ends in `t` |
| MSConvert.NoFormatEndsInT | rampt/steps/conversion/msconv_pipe.py:104-119 | no valid format ends in `t` |
| MSConvert.TargetFormat | rampt/steps/conversion/msconv_pipe.py:181-184 | the stored format starts with `.` and is as long as the dotted format |
| MSConvert.Dotted | rampt/steps/conversion/msconv_pipe.py:181 | the format starts with `.` |
| MSConvert.TargetFormatSpec | rampt/steps/conversion/msconv_pipe.py:181-184 | the first three characters of the dotted format are kept and the rest upper-cased; normalising twice is normalising once |
| MSConvert.TargetFormatExamples | rampt/steps/conversion/msconv_pipe.py:181-184 | `mzxml` becomes `.mzXML` and `mzML` becomes `.mzML` |
| MSConvert.OutValid | rampt/steps/conversion/msconv_pipe.py:201-206 | the output is kept (not redone) exactly when the step does not overwrite and the output is complete: a file at least as large as the threshold whose last line with content is a closing tag; the check raises exactly when such a file has no line with content |
| MSConvert.SelectForConversion | rampt/steps/conversion/msconv_pipe.py:187-208 | the input is valid exactly when the user pattern and the mandatory pattern accept it at the same position; the output is valid exactly when the step overwrites or the output is incomplete; the pair fails exactly when the output check fails |
| MSConvert.InValidHasFormat | rampt/steps/general.py:215-225 | an input the combined lookahead regex accepts ends in a valid format |
| MSConvert.InValidDefaultPattern | rampt/steps/conversion/msconv_pipe.py:125-129 | with the default user pattern `.*`, which matches at the start, an input is valid exactly when it ends in a valid format |
| MSConvert.SamePositionRequired | rampt/steps/general.py:215-225 | both lookaheads must hold at one position: `a.mzML` with user pattern `mzML` is rejected though each pattern alone finds a match |
| MSConvert.OutFileNameReplacesEnding | rampt/steps/conversion/msconv_pipe.py:237-239 | a base name `stem.ext` gives `stem` followed by the target format |
| MSConvert.OutFileNameExample | rampt/steps/conversion/msconv_pipe.py:237-239 | `minimal_file.mzML` converted to `.mzXML` is written as `minimal_file.mzXML` |
| MSConvert.OutFileNameOfName | rampt/steps/conversion/msconv_pipe.py:237-239 | a plain file name `stem.ext` gives `stem` followed by the target format |
| MSConvert.Command | rampt/steps/conversion/msconv_pipe.py:241-244 | the command is the quoted executable, the format flag without its dot, `-e` with the format, `--64`, the quoted output directory and output file name, the quoted input and the additional arguments, in that order and with those separators |
| MSConvert.PlanAllFails | rampt/steps/conversion/msconv_pipe.py:226-262 | `run_single` fails exactly when the output check of some input raises |
| MSConvert.PlanStepFails | rampt/steps/conversion/msconv_pipe.py:227-262 | one turn fails exactly when the loop had failed or the input's output check raises |
| MSConvert.PlanAllOuts | rampt/steps/conversion/msconv_pipe.py:223-262 | otherwise `ins` lists every input, and `outs` and `step_functions` hold one entry per input: its output file and `execute_verbose_command` when it is converted, `None` in both when not |
| MSConvert.PlanAllCommands | rampt/steps/conversion/msconv_pipe.py:234-252 | `cmds` holds the commands of the converted inputs only, in input order |
| MSConvert.RunSingle | rampt/steps/conversion/msconv_pipe.py:223-272 | in the corrected reading that computes one call per converted input: a failed output check returns its error and computes nothing; otherwise the progress afterwards is each intended call's record stored in turn, and the method fails exactly when one of those calls raises |
| MSConvert.ListCallRaises | rampt/steps/conversion/msconv_pipe.py:263-272 | as written with one worker, the final `compute` calls the list of step functions and raises `TypeError` whenever the loop got through |
| MSConvert.ListCallDelayed | rampt/steps/conversion/msconv_pipe.py:263-272 | as written with more workers, the list itself is delayed as one call over the lists of all inputs, stored under one `in_out` of lists |
| MSConvert.AcceptedInputs | rampt/steps/conversion/msconv_pipe.py:226-262 | the converted inputs are inputs that pass both checks |
| MSConvert.AcceptedInputsSnoc | rampt/steps/conversion/msconv_pipe.py:227-262 | one more input adds it to the converted ones exactly when it passes |
| MSConvert.AcceptedInputsCover | rampt/steps/conversion/msconv_pipe.py:226-262 | every input that passes both checks is among the converted ones |
| MSConvert.AcceptedInputsCommands | rampt/steps/conversion/msconv_pipe.py:234-252 | the collected commands are the commands of the converted inputs, one each, in order |
| MSConvert.CallsCommands | rampt/steps/conversion/msconv_pipe.py:234-272 | the intended calls run exactly the commands `cmds` collects, in order, and every converted input has its call, naming that input and its output in `in_out` |
| MSConvert.ComputeCalls | rampt/steps/general.py:511-546 | calls made in turn: each stored record is what its call gives, and a failure is the error of the first call that raised, after which none is made |
| MSConvert.ComputeCallsSnoc | rampt/steps/general.py:511-546 | one more call after a clean run stores its record or ends with its error |
| MSConvert.ComputeCallsFailed | rampt/steps/general.py:511-546 | after a call has raised, the remaining calls change nothing |
| MSConvert.ComputeAll | rampt/steps/general.py:511-546 | computing the calls on a step leaves the progress of `ComputeCalls`' records stored in turn and reports its failure |
| MSConvert.RunSingleConvertsAccepted | rampt/steps/conversion/msconv_pipe.py:223-272 | in the corrected reading, when the calls are delayed or every command responds, no call raises and every converted input is recorded with its output |
| MSConvert.PlanAllSnoc | rampt/steps/conversion/msconv_pipe.py:227-262 | the loop over one more input is one more turn |
| MSConvert.PlanAllFailed | rampt/steps/conversion/msconv_pipe.py:227-262 | after the first error, the remaining inputs change nothing |
| MSConvert.MainSchedule | rampt/steps/conversion/msconv_pipe.py:56-66 | the input directory is scheduled as raw data and the output directory as converted data, with `run_style` present, and `nested`, exactly when `nested` is set |
| MSConvert.NewRunner | rampt/steps/conversion/msconv_pipe.py:120-184 | the runner's format is the normalised one and starts with `.`; raw data carries the mandatory pattern and the catch-all user pattern |
| LegacyConversion.CheckEntry | source/conversion/msconv_pipe.py:101-121 | the input is valid exactly when each set suffix, prefix and substring test holds; the output is valid exactly when the converter overwrites or the output is incomplete; the pair fails exactly when the last-line read raises |
| LegacyConversion.LegacyTargetFormatSpec | source/conversion/msconv_pipe.py:135-136 | the format flag holds no `.`, keeps the first two characters of the dot-free format and upper-cases the rest |
| LegacyConversion.LegacyTargetFormatLower | source/conversion/msconv_pipe.py:135-136 | `mzxml` gives `mzXML` |
| LegacyConversion.LegacyTargetFormatDotted | source/conversion/msconv_pipe.py:135-136 | `.mzML` gives `mzML` |
| LegacyConversion.LegacyCommand | source/conversion/msconv_pipe.py:138 | the command is `msconvert --{format} --64 -o {out} {in} ` followed by the additional arguments joined by spaces |
| LegacyConversion.FileConverter.constructor | source/conversion/msconv_pipe.py:62-97 | the base `Pipe_Step.__init__` (source/helpers/classes.py, lines 10-27) keeps the log flag as `save_out`, the additional arguments and the verbosity, and starts empty progress lists; the converter's own settings hold the values given |
| LegacyConversion.FileConverter.ConvertFile | source/conversion/msconv_pipe.py:124-145 | in the corrected reading that reads the stored log flag: the command is built from the normalised format and run with the verbosity and, when the flag is set, `msconv_log.txt` in the output directory as log; one entry is appended to each of the four lists: the input, the output path and the command's output and error |
| LegacyConversion.LogPathAsWritten | source/conversion/msconv_pipe.py:140-141 | as written the log path reads `save_log`: `AttributeError` exactly when the converter has no such attribute, otherwise a path exactly when the flag is set |
| LegacyConversion.LogFlagMissing | source/conversion/msconv_pipe.py:141 | the converter's attributes hold `save_out` but no `save_log`, so every `convert_file` raises `AttributeError` before the shell is called |
| LegacyConversion.LogPath | source/conversion/msconv_pipe.py:140-141 | a log path exactly when the stored flag is set, and it ends in `msconv_log.txt` |
| LegacyConversion.LogPathAgrees | source/conversion/msconv_pipe.py:140-141 | where the flag can be read, the written and the intended log path agree |
| Analysis.Classify | rampt/steps/analysis/analysis_pipe.py:172-204 | a column is classified exactly when its name holds a peak keyword and its dtype is numeric; it is positive exactly when a positive keyword occurs, negative when only a negative one does, and unknown otherwise |
| Analysis.ModeColumnsMember | rampt/steps/analysis/analysis_pipe.py:172-204 | a name is listed under a mode exactly when some column of that name is classified in that mode |
| Analysis.ModeColumnsPartition | rampt/steps/analysis/analysis_pipe.py:172-204 | every classified column is listed in exactly one mode |
| Analysis.GroupOfAppend | rampt/steps/analysis/analysis_pipe.py:206 | looking a mode up in the result asks the earlier groups first |
| Analysis.PeakColumnsLookup | rampt/steps/analysis/analysis_pipe.py:171-206 | the result lists each mode that has columns, with exactly those columns, and no mode without columns |
| Analysis.PeakColumnsOrdered | rampt/steps/analysis/analysis_pipe.py:171-206 | every listed mode has columns, and the modes come in the order positive, negative, unknown |
| Analysis.SearchCheckPeakInfo | rampt/steps/analysis/analysis_pipe.py:150-206 | the loop over the columns gives `PeakColumns`, the grouping described above |
| Analysis.Select | rampt/steps/analysis/analysis_pipe.py:214 | the selection holds the values of the given columns, in the given order |
| Analysis.AssignSelect | rampt/steps/analysis/analysis_pipe.py:214-217 | writing back what was selected leaves the table as it was |
| Analysis.ZScore | rampt/steps/analysis/analysis_pipe.py:209-217 | fewer than two columns give a warning and the selected columns; two or more give no warning |
| Analysis.WrapInput | rampt/steps/analysis/analysis_pipe.py:291-292 | a dict is used as it is; anything else is wrapped as the only entry, under `summary_paths` |
| Analysis.FirstMatch | rampt/steps/analysis/analysis_pipe.py:301-304 | the entry found is accepted by the pattern; when none is found, no entry is |
| Analysis.FindEntry | rampt/steps/analysis/analysis_pipe.py:301-304 | the scan stops at an entry the pattern accepts, and finds none only when the pattern accepts no entry |
| Analysis.MatchOne | rampt/steps/analysis/analysis_pipe.py:295-304 | handling one input entry keeps the keys of the matched paths |
| Analysis.MatchFromKeys | rampt/steps/analysis/analysis_pipe.py:294-304 | the matched paths keep the keys they started with: only values are replaced |
| Analysis.MatchEntry | rampt/steps/analysis/analysis_pipe.py:295-304 | the loop body for one entry, with its inner scan, does what `MatchOne` describes |
| Analysis.MatchInPaths | rampt/steps/analysis/analysis_pipe.py:294-304 | the outer loop gives `MatchFrom` over the input paths |
| Analysis.RunDirectory | rampt/steps/analysis/analysis_pipe.py:280-312 | an error while matching is raised; matched paths go to a single run with the same keys as the wrapped input; nothing is found only for an empty input dict |
| LegacyAnalysis.SearchTestsDisjoint | source/steps/analysis/analysis_pipe.py:107-122 | no file name passes two of the seven tests, and each test accepts some name |
| LegacyAnalysis.SearchFiles | source/steps/analysis/analysis_pipe.py:76-125 | each of the seven results is the preset path when it is set, else the first file of the walk passing that slot's test, else `None` |
| SlotSearch.Pairs | source/steps/analysis/summary_pipe.py:142-143 | one pair per file of a directory, each with its root, in order |
| SlotSearch.FirstOpen | source/steps/analysis/summary_pipe.py:144-158 | the branch taken is an empty slot whose test the file passes, and every earlier branch is filled or rejects the file; no branch is taken exactly when every one is filled or rejects it |
| SlotSearch.Place | source/steps/analysis/summary_pipe.py:144-158 | offering a file keeps the number of slots |
| SlotSearch.Fill | source/steps/analysis/summary_pipe.py:142-158 | offering files in turn keeps the number of slots |
| SlotSearch.PlaceChangesOne | source/steps/analysis/summary_pipe.py:144-158 | a file fills at most one slot, and never one already filled |
| SlotSearch.FillKeepsFilled | source/steps/analysis/summary_pipe.py:142-158 | a slot filled before the search keeps its path to the end |
| SlotSearch.FirstFound | source/steps/analysis/summary_pipe.py:142-158 | the position found holds a file the test accepts; none is found only when no file is accepted |
| SlotSearch.MatchedNonEmpty | source/steps/analysis/summary_pipe.py:144-158 | a file name a test accepts is not empty |
| SlotSearch.JoinFilled | source/steps/analysis/summary_pipe.py:145 | a root joined with a file name is a set path |
| SlotSearch.FillFirstMatch | source/steps/analysis/summary_pipe.py:142-158 | with disjoint tests, an empty slot ends with the first file of the walk that passes its test, joined to its root, and stays empty when there is none |
| SlotSearch.SearchOutcome | source/steps/analysis/summary_pipe.py:142-158 | with disjoint tests, every slot ends as the preset when set, else the first accepted file, else the preset |
| SlotSearch.FilesSnoc | source/steps/analysis/summary_pipe.py:142-143 | the files of a longer walk are those of the shorter one followed by the next directory's |
| SlotSearch.FillAppend | source/steps/analysis/summary_pipe.py:142-158 | offering two runs of files in turn is offering their concatenation |
| SlotSearch.PairsSnoc | source/steps/analysis/summary_pipe.py:143 | the pairs of one more file end with that file |
| SlotSearch.SearchDirectory | source/steps/analysis/summary_pipe.py:143-158 | the inner loop leaves the slots `Fill` gives for the directory's files |
| SlotSearch.Search | source/steps/analysis/summary_pipe.py:142-158 | the nested loops leave the slots `Fill` gives for all files of the walk |
| SlotSearch.SearchDisjoint | source/steps/analysis/summary_pipe.py:142-158 | with disjoint tests, every slot ends with its own outcome |
| SlotSearch.DifferDisjoint | source/steps/analysis/summary_pipe.py:144-158 | two different exact names, or an exact name and a suffix it does not end in, accept no common file |
| SlotSearch.PairwiseDisjoint | source/steps/analysis/summary_pipe.py:144-158 | tests that differ pairwise accept no common file |
| LegacySummary.AnnotationTestsDisjoint | source/steps/analysis/summary_pipe.py:144-158 | no file name passes two of the six annotation tests, and each accepts only non-empty names |
| LegacySummary.SearchQuantificationFile | source/steps/analysis/summary_pipe.py:89-109 | a set preset is returned; otherwise the first file of the walk ending in `_quant.csv`, and the preset when there is none |
| LegacySummary.SearchAnnotationFiles | source/steps/analysis/summary_pipe.py:112-166 | a dict with exactly the six keys, each holding the preset when set, else the first file of the walk with that name (or suffix), else the preset |
| Summary.OrderedAnnotations | rampt/steps/analysis/summary_pipe.py:242 | every input id after the quantification, six of them |
| Summary.OrderedAnnotationsSpec | rampt/steps/analysis/summary_pipe.py:97-106 | the annotation order leaves out the quantification, repeats no id and holds only input ids |
| Summary.MainSchedule | rampt/steps/analysis/summary_pipe.py:52-68 | both input directories and the output are scheduled under their ids, with `run_style` present, as `nested`, exactly when the nested flag is set |
| Summary.QuantificationColumnsShorter | rampt/steps/analysis/summary_pipe.py:268 | the columns stay as many and no name grows |
| Summary.ReplaceShorter | rampt/steps/analysis/summary_pipe.py:268 | removing text never lengthens a string |
| Summary.QuantificationColumnName | rampt/steps/analysis/summary_pipe.py:268 | a name without `row ` is kept, and `row ` before such a name is removed |
| Summary.MissingCharNotContained | rampt/steps/analysis/summary_pipe.py:268 | text missing one character of the pattern does not contain it |
| Summary.QuantificationColumnOf | rampt/steps/analysis/summary_pipe.py:268 | `row ` before a name lacking one of its characters is removed |
| Summary.QuantificationColumnsExample | rampt/steps/analysis/summary_pipe.py:268 | `row ID`, `row m/z` and `row retention time` become `ID`, `m/z` and `retention time` |
| Summary.CanopusColumns | rampt/steps/analysis/summary_pipe.py:298-306 | a column is kept exactly when it is the feature id, or an `NPC` or `ClassyFire` column that does not end in `all classifications` |
| Summary.CanopusName | rampt/steps/analysis/summary_pipe.py:310-313 | a column holding `#` is renamed `Sirius_{kind}_{tool}_{label}`, the tool being the text before its first `#` |
| Summary.CanopusLabelPlain | rampt/steps/analysis/summary_pipe.py:312 | a lower-case name without blanks or `probability` keeps its label |
| Summary.CanopusNameOf | rampt/steps/analysis/summary_pipe.py:310-313 | a column `{tool}#{name}` with no `#` in the tool is renamed after its tool and name |
| Summary.CanopusNameExample | rampt/steps/analysis/summary_pipe.py:310-313 | `NPC#pathway` of the formula summary becomes `Sirius_formula_NPC_pathway` |
| Summary.CanopusRenames | rampt/steps/analysis/summary_pipe.py:308-314 | the rename dict covers exactly the feature id and the columns holding `#`, each with its canopus name |
| Summary.RenameColumns | rampt/steps/analysis/summary_pipe.py:315 | a column in the rename dict gets its new name, the others keep theirs, in order |
| Summary.SelectRename | rampt/steps/analysis/summary_pipe.py:287-294 | `KeyError` exactly when a selected column is missing; otherwise the new names, in the given order |
| Summary.CanopusTable | rampt/steps/analysis/summary_pipe.py:296-315 | the kept columns, each renamed, in order |
| Summary.AddAnnotationAsWritten | rampt/steps/analysis/summary_pipe.py:281-399 | a type without a branch raises `UnboundLocalError` at the `astype`; a table that succeeds holds `ID` |
| Summary.AddAnnotation | rampt/steps/analysis/summary_pipe.py:281-399 | a type without a branch is skipped, exactly those; a table that is added holds `ID` |
| Summary.AddAnnotationAgrees | rampt/steps/analysis/summary_pipe.py:284-391 | for every type the step orders, both readings succeed together and add the same table |
| Summary.AddAnnotationUnknownType | rampt/steps/analysis/summary_pipe.py:392-397 | the `quantification` type raises as written and is skipped as intended |
| Summary.FormulaIdentificationsColumns | rampt/steps/analysis/summary_pipe.py:285-294 | the formula identifications add exactly `ID`, `Sirius_formula` and `Sirius_formula_confidence`, and raise `KeyError` when a source column is missing |
| Summary.CanopusTableColumns | rampt/steps/analysis/summary_pipe.py:296-315 | a canopus table keeps its feature id as `ID`, and every other column comes from an `NPC` or `ClassyFire` column that is not an `all classifications` one |
| Summary.AddAnnotations | rampt/steps/analysis/summary_pipe.py:401-419 | the loops add the ordered files whose path is set, in the order of `ordered_annotations`, each with the first path given for it |
| Summary.OrderedFilesFailed | rampt/steps/analysis/summary_pipe.py:405-408 | once a prefix of the order fails, the whole order does |
| Summary.OrderedFilesSpec | rampt/steps/analysis/summary_pipe.py:405-408 | every ordered file has a key of the order that was given, with the first path given for it |
| Summary.OrderedFilesComplete | rampt/steps/analysis/summary_pipe.py:405-408 | every given annotation of the order is among the ordered files |
| Summary.AppliedSpec | rampt/steps/analysis/summary_pipe.py:411-417 | the annotations added are exactly the ordered ones whose path is truthy |
| Summary.OutFile | rampt/steps/analysis/summary_pipe.py:465-466 | a directory output gets `summary.tsv` inside it; any other output path is used as it is |
| Gnps.PatternKeysDistinct | rampt/steps/annotation/gnps_pipe.py:80-86 | the five pattern keys are distinct |
| Gnps.PatternKeysArePatterns | rampt/steps/annotation/gnps_pipe.py:80-86 | the pattern ids are exactly the keys of the pattern table |
| Gnps.FullRegex | rampt/steps/general.py:215-225 | an id of neither table has no regex; an id only of the pattern table gets its pattern |
| Gnps.MatchPath | rampt/steps/general.py:401-417 | a path matches exactly when the id has a full regex and the search finds it; only an id of one of the tables can match |
| Gnps.AsWrittenNeverMatches | rampt/steps/annotation/gnps_pipe.py:353 | passing the regex text where an id is expected matches nothing, whatever the regex engine answers |
| Gnps.MatchesSearchesPattern | rampt/steps/annotation/gnps_pipe.py:80-86 | under a pattern id, the intended scan is the search for that id's regex |
| Gnps.FirstIndex | rampt/steps/annotation/gnps_pipe.py:111 | the position found holds the character and no earlier one does; none is found only when the text lacks it |
| Gnps.LastIndex | rampt/steps/annotation/gnps_pipe.py:111 | the position found holds the character and no later one does; none is found only when the text lacks it |
| Gnps.JsonSpan | rampt/steps/annotation/gnps_pipe.py:111 | the search succeeds exactly when some `{` comes before some `}`, and otherwise subscripting its `None` raises `TypeError` |
| Gnps.JsonSpanOfResponse | rampt/steps/annotation/gnps_pipe.py:111 | text without `{` before a `{...}` response gives the whole response |
| Gnps.FirstHit | rampt/steps/annotation/gnps_pipe.py:109-110 | the line found contains the query and no earlier line does; none is found only when no line does |
| Gnps.QueryResponse | rampt/steps/annotation/gnps_pipe.py:109-116 | `ValueError` exactly when no line contains the query |
| Gnps.QueryResponseFirst | rampt/steps/annotation/gnps_pipe.py:109-112 | the response comes from the first line containing the query, with the query removed, whatever follows |
| Gnps.QueryResponseIterator | rampt/steps/annotation/gnps_pipe.py:98-116 | the loop that returns at the first hit gives `QueryResponse` |
| Gnps.ExtractTaskInfo | rampt/steps/annotation/gnps_pipe.py:118-134 | a directory stands for its `mzmine_log.txt`; an existing file is searched line by line; anything else is split on newlines and searched as log text |
| Gnps.LogTextResponse | rampt/steps/annotation/gnps_pipe.py:134 | log text whose single line carries the query and a response is one line |
| Gnps.TaskId | rampt/steps/annotation/gnps_pipe.py:154-160 | the task id is returned exactly when the status is `Success` and the id is present; another status raises `ValueError`, a missing key `KeyError` |
| Gnps.CheckTaskFinished | rampt/steps/annotation/gnps_pipe.py:136-173 | a truthy response is used as given, otherwise the one read from the log, whose error propagates; the finished flag is the polling outcome for the task id |
| Gnps.UploadKey | rampt/steps/annotation/gnps_pipe.py:192 | an upload name holds no `_` |
| Gnps.LastProvider | rampt/steps/annotation/gnps_pipe.py:192 | the entry found gives the upload name and no later one does; none is found only when no entry does |
| Gnps.UploadFilesLookup | rampt/steps/annotation/gnps_pipe.py:192 | an upload name holds the last truthy path with that name, and is absent when there is none |
| Gnps.UploadKeysPlain | rampt/steps/annotation/gnps_pipe.py:192 | every upload name is free of `_` |
| Gnps.SubmitFiles | rampt/steps/annotation/gnps_pipe.py:190-198 | the upload goes ahead exactly when the files hold `featurems2` and `featurequantification`; otherwise `ValueError` |
| Gnps.UploadKeySplit | rampt/steps/annotation/gnps_pipe.py:192 | a name with one `_` loses it |
| Gnps.SplitFeatureMs2 | rampt/steps/annotation/gnps_pipe.py:266 | `feature_ms2` is `feature` and `ms2` around one `_` |
| Gnps.SplitFeatureQuantification | rampt/steps/annotation/gnps_pipe.py:267 | `feature_quantification` is `feature` and `quantification` around one `_` |
| Gnps.SplitAdditionalPairs | rampt/steps/annotation/gnps_pipe.py:268 | `additional_pairs` is `additional` and `pairs` around one `_` |
| Gnps.SplitSampleMetadata | rampt/steps/annotation/gnps_pipe.py:269 | `sample_metadata` is `sample` and `metadata` around one `_` |
| Gnps.ResubmitUploadKeys | rampt/steps/annotation/gnps_pipe.py:263-272 | the four optional inputs upload as `featurems2`, `featurequantification`, `additionalpairs` and `samplemetadata` |
| Gnps.ResubmitAccepted | rampt/steps/annotation/gnps_pipe.py:263-273 | an own submission whose first two keys upload as the spectra and the quantification goes ahead exactly when the input gives truthy paths for those two |
| Gnps.OptionalsOfDistinct | rampt/steps/general.py:648 | with distinct keys, the optionals hold one entry per key, in order, with the input's value or `None` |
| Gnps.OnlyProvider | rampt/steps/annotation/gnps_pipe.py:192 | an upload name only one entry can give is present exactly when that entry is truthy |
| Gnps.ResubmitKeysAccepted | rampt/steps/annotation/gnps_pipe.py:257-273 | the resubmission goes ahead exactly when `feature_ms2` and `feature_quantification` are given truthy paths |
| Gnps.RunnerName | rampt/steps/annotation/gnps_pipe.py:296-307 | `nested` exactly for a nested step; a flat step without input paths raises `KeyError`; the name is always one of the three run styles, and the only errors are `KeyError` and `TypeError`; an input that is not a dict names `single` or raises `TypeError`, and a path string names `single` exactly when no pattern key is a substring of it |
| Gnps.RunnerNamePlainString | rampt/steps/annotation/gnps_pipe.py:296-308 | `/data` runs single; `x/mzmine_log.txt` raises `TypeError` |
| Gnps.DistributeAsWritten | rampt/steps/annotation/gnps_pipe.py:296-308 | as written, a distribution succeeds only when the combination has `in_paths`, no `correct_runner` and, unless nested, `in_path`, and then names the run `RunnerName` names; a combination that already holds `correct_runner` raises `TypeError` |
| Gnps.DictChoice | rampt/steps/annotation/gnps_pipe.py:300-306 | a dict of inputs gives `TypeError`, a directory run or a single run |
| Gnps.PlainChoice | rampt/steps/annotation/gnps_pipe.py:300-306 | any other input gives a single run or `TypeError` |
| Gnps.FromRun | rampt/steps/general.py:831-833 | `run` hands every combination over with `correct_runner` among the keyword arguments, and the combination's other keys unchanged |
| Gnps.RunDistributionFails | rampt/steps/annotation/gnps_pipe.py:308 | as written, no combination `run` hands to the GNPS step is distributed |
| Gnps.Distribute | rampt/steps/annotation/gnps_pipe.py:296-308 | in the corrected reading, the GNPS step's own runner choice is distributed: one of the three run styles, nested for a nested step |
| Gnps.DistributeFromRun | rampt/steps/general.py:831-833 | in the corrected reading, the run style and keyword arguments `run` adds do not change the distribution of a combination |
| Gnps.InPathKeyError | rampt/steps/general.py:712-714 | `{"in_path": "/data", "out_path": "/out"}`: as written `KeyError`, while the runner choice alone names `single` |
| Gnps.OptionalsAnyTruthy | rampt/steps/annotation/gnps_pipe.py:301-306 | over distinct keys, some optional is truthy with a property exactly when the dict holds a truthy value with it under some key |
| Gnps.RunnerNameDirectory | rampt/steps/annotation/gnps_pipe.py:296-307 | a flat step with a dict of inputs raises `TypeError` exactly when a truthy input under a pattern key is not a path; otherwise it runs as a directory exactly when such an input is a directory, and single otherwise |
| Gnps.Pop | rampt/steps/annotation/gnps_pipe.py:343 | the key is gone and every other key keeps its value |
| Gnps.ExpandedLookup | rampt/steps/annotation/gnps_pipe.py:339-343 | every pattern key is present with its own path or the standard one, `standard` is gone, and every other key keeps its path |
| Gnps.ExpandStandard | rampt/steps/annotation/gnps_pipe.py:339-343 | the loop writing into the input dict gives `Expanded` |
| Gnps.MatchEntry | rampt/steps/annotation/gnps_pipe.py:347-355 | a turn that succeeds records what the entry contributes (a file path, or the first accepted directory entry) and leaves the other keys |
| Gnps.FileInputRaises | rampt/steps/annotation/gnps_pipe.py:349-352 | a file that cannot be listed raises as written and is recorded as intended |
| Gnps.MatchAllLast | rampt/steps/annotation/gnps_pipe.py:347-355 | the last turn sets the last entry's key when it contributes and leaves every other key |
| Gnps.MatchAllAbsent | rampt/steps/annotation/gnps_pipe.py:346-355 | a key of no input entry is never matched |
| Gnps.MatchAllAt | rampt/steps/annotation/gnps_pipe.py:346-355 | when the loop completes, each input key holds what its entry contributes |
| Gnps.MatchEntryStep | rampt/steps/annotation/gnps_pipe.py:348-355 | the turn with its scan that breaks at the first match gives `MatchEntry` |
| Gnps.MatchInPaths | rampt/steps/annotation/gnps_pipe.py:346-355 | the matching loop gives `MatchAll` |
| Gnps.MatchAllStops | rampt/steps/annotation/gnps_pipe.py:346-355 | a raise in a prefix of the loop is the outcome of the whole loop |
| Gnps.AsWrittenMatchesNothing | rampt/steps/annotation/gnps_pipe.py:346-364 | as written, inputs that are all directories match nothing, so the run ends in `ValueError` or an earlier raise |
| Gnps.FeatureMs2Found | rampt/steps/annotation/gnps_pipe.py:350-355 | a `feature_ms2` directory holding `x_fbmn.mgf` yields that file in the intended scan and nothing as written |
| Gnps.SingleOutPath | rampt/steps/annotation/gnps_pipe.py:322-323 | a directory output gets `fbmn_all_db_annotations.json` inside it; any other is used as it is |
| Gnps.StandardInputLost | rampt/steps/annotation/gnps_pipe.py:336-343 | as written, a dict holding `standard` is replaced by that path before the special case; the corrected input fills every missing pattern key with it |
| Gnps.RunDirectory | rampt/steps/annotation/gnps_pipe.py:332-364 | in the corrected reading (file inputs taken as they are, the standard dict kept, each directory scanned with the file type as pattern id): a non-dict input raises; a matching error is raised; no match raises `ValueError`; otherwise the matched paths go to `run_single` with `fbmn_all_db_annotations.json` inside the output directory |
| Sirius.DropConfigWord | rampt/steps/annotation/sirius_pipe.py:174 | a leading word `config` is removed, and text without it is kept whole |
| Sirius.ExtractConfig | rampt/steps/annotation/sirius_pipe.py:162-175 | `ValueError` exactly for a directory without `sirius_config.txt`; a directory stands for that file, a file for its contents without a leading `config`, anything else for itself; the result is stripped |
| Sirius.ExtractConfigStable | rampt/steps/annotation/sirius_pipe.py:209-214 | extracting an inline configuration a second time, as `run_single` does, changes nothing |
| Sirius.NewRunner | rampt/steps/annotation/sirius_pipe.py:66-160 | it fails exactly when the configuration cannot be extracted; an empty executable means `sirius`; the stored configuration is the extracted one; spectra and configuration both have mandatory and search patterns |
| Sirius.ProjectspaceOf | rampt/steps/annotation/sirius_pipe.py:207-208 | the projectspace passed, else the runner's own when set, else the output path |
| Sirius.ConfigOf | rampt/steps/annotation/sirius_pipe.py:209-210 | a configuration passed and non-empty wins over the runner's own |
| Sirius.Command | rampt/steps/annotation/sirius_pipe.py:216-219 | the command is the quoted executable, `--project` with `projectspace.sirius` inside the projectspace, `--input` with the quoted input, `config` with the configuration, `write-summaries --output` with the quoted output and the additional arguments, in that order |
| Sirius.SingleCommand | rampt/steps/annotation/sirius_pipe.py:204-219 | it fails exactly when the chosen configuration cannot be extracted; otherwise it is the command for the projectspace and configuration the fallbacks choose |
| Sirius.SingleCommandDefaults | rampt/steps/annotation/sirius_pipe.py:207-219 | without a configuration or projectspace passed or stored, a run uses the stored inline configuration and puts the project inside the output directory |
| Sirius.LastMatch | rampt/steps/annotation/sirius_pipe.py:284-286 | the position found matches and no later one does; none is found only when no name matches |
| Sirius.FindLast | rampt/steps/annotation/sirius_pipe.py:284-286 | the scan whose every match overwrites the previous one finds `LastMatch` |
| Sirius.Wrap | rampt/steps/annotation/sirius_pipe.py:259-260 | a dict is used as given; any other input is filed under `processed_data_paths` |
| Sirius.PlainInput | rampt/steps/annotation/sirius_pipe.py:259-267 | a plain path is searched as the spectra directory and kept as the standard |
| Sirius.ConfigSearch | rampt/steps/annotation/sirius_pipe.py:269-273 | a configuration given is kept; otherwise the input directory is listed and its last configuration file is taken; only the listing can raise |
| Sirius.ConfigSearchRaises | rampt/steps/annotation/sirius_pipe.py:270-273 | with no configuration anywhere, listing the input dict as written raises `TypeError`, where listing the input directory finds its `sirius_config.txt` |
| Sirius.SpectraMatch | rampt/steps/annotation/sirius_pipe.py:276-286 | only the spectra key changes, every key stays, and without a spectra entry nothing changes |
| Sirius.SpectraMatchFound | rampt/steps/annotation/sirius_pipe.py:284-286 | the spectra entry becomes the last matching name of its directory, or stays as it was when none matches |
| Sirius.DirectoryPlan | rampt/steps/annotation/sirius_pipe.py:253-300 | in the corrected reading that lists the input directory for the configuration (Findings, fifth row): a run gets the output path and projectspace passed, and no run is made exactly when there are no inputs |
| Sirius.PlainInputRuns | rampt/steps/annotation/sirius_pipe.py:259-290 | in the corrected reading that lists the input directory for the configuration (Findings, fifth row): a plain input path always leads to a run |
| Sirius.SearchConfig | rampt/steps/annotation/sirius_pipe.py:269-273 | in the corrected reading that lists the input directory for the configuration (Findings, fifth row): the configuration loop gives `ConfigSearch` |
| Sirius.MatchSpectra | rampt/steps/annotation/sirius_pipe.py:276-286 | the loop over the inputs, which searches only the spectra key, gives `SpectraMatch` |
| Sirius.MatchSpectraAt | rampt/steps/annotation/sirius_pipe.py:279-286 | the search of the spectra entry (the file itself, then the last matching name of its listing) gives `SpectraMatch` |
| Sirius.RunDirectory | rampt/steps/annotation/sirius_pipe.py:253-300 | in the corrected reading that lists the input directory for the configuration (Findings, fifth row): the method gives `DirectoryPlan` |
| Sirius.InputsWellFormed | rampt/steps/annotation/sirius_pipe.py:259-267 | the inputs searched have distinct keys whenever the dict passed has |
| Sirius.FileCalls | rampt/steps/annotation/sirius_pipe.py:326-328 | one run of the directory per spectra file, and some run exactly when some file matches |
| Sirius.Descend | rampt/steps/annotation/sirius_pipe.py:331-332 | with a projectspace on entry, a subdirectory gets it extended by the subdirectory's name; otherwise the current one is kept |
| Sirius.KwAt | rampt/steps/annotation/sirius_pipe.py:330-332 | after the first `n` subdirectories the keyword projectspace is the last one's extension, and untouched before any |
| Sirius.VisitSubdirsHas | rampt/steps/annotation/sirius_pipe.py:330-338 | a run made inside a subdirectory is a run of the whole descent |
| Sirius.SubdirProjectspace | rampt/steps/annotation/sirius_pipe.py:326-338 | with a projectspace set, a subdirectory's spectra are run with the projectspace extended by that subdirectory's name |
| Sirius.NoProjectspace | rampt/steps/annotation/sirius_pipe.py:321-338 | without a projectspace, every run is made without one |
| Sirius.NoProjectspaceSubdirs | rampt/steps/annotation/sirius_pipe.py:330-338 | without a projectspace, every run inside the subdirectories is made without one |
| Sirius.NestedLeaksWith | rampt/steps/annotation/sirius_pipe.py:323-338 | as written, a second input directory is run with the first one's projectspace extended by its subdirectory; the intended run uses the projectspace passed |
| Sirius.JoinExtends | rampt/steps/annotation/sirius_pipe.py:332 | `ps` joined with `x` differs from `ps` |
| Sirius.NestedLeaks | rampt/steps/annotation/sirius_pipe.py:323-338 | the instance with directories `a` (holding `x`) and `b`: as written the run in `b` gets `ps/x`, where it should get `ps` |
| Sirius.VisitTree | rampt/steps/annotation/sirius_pipe.py:324-338 | the descent of one directory gives `Visit`, and leaves `KwAt` of all subdirectories in the keyword arguments |
| Sirius.RunNested | rampt/steps/annotation/sirius_pipe.py:302-338 | every input directory is descended from the projectspace passed, giving `Nested` |
| MZmine.MandatoryPattern | rampt/steps/feature_finding/mzmine_pipe.py:97 | the input pattern is `.*\.(` and `)$` around the valid formats joined by `|` |
| MZmine.MandatoryPatternFormats | rampt/steps/feature_finding/mzmine_pipe.py:97 | the alternatives of the pattern are exactly the valid formats, when none of them holds a `|` |
| MZmine.Login | rampt/steps/feature_finding/mzmine_pipe.py:110-122 | `--user {user}` exactly when a user is given; otherwise `--login-console` exactly when the login argument mentions `console` in any case, and `--login` exactly when it does not |
| MZmine.LoginDefault | rampt/steps/feature_finding/mzmine_pipe.py:68-122 | with the default login argument and no user, mzmine prompts for a login |
| MZmine.NewRunner | rampt/steps/feature_finding/mzmine_pipe.py:64-122 | the executable given is kept when it works, otherwise the first working common one, and none exactly when no candidate works; the login flag, the name `mzmine`, the batch, the formats and the mandatory pattern for `in` are set |
| MZmine.FirstWorkingShift | rampt/steps/feature_finding/mzmine_pipe.py:104-105 | searching the candidates behind the given executable is searching the common executables |
| MZmine.ExecText | rampt/steps/feature_finding/mzmine_pipe.py:145 | a missing executable reads `None` in the command |
| MZmine.BatchOf | rampt/steps/feature_finding/mzmine_pipe.py:142 | the batch passed when set, else the runner's own |
| MZmine.BatchOfStable | rampt/steps/feature_finding/mzmine_pipe.py:142 | passing the batch the fallback chose changes nothing |
| MZmine.Command | rampt/steps/feature_finding/mzmine_pipe.py:142-145 | the command is the quoted executable, the login, `--batch` with the quoted batch (the run's own or the runner's), `--input` and `--output` with the quoted paths, and the additional arguments joined by spaces |
| MZmine.CommandBatchFallback | rampt/steps/feature_finding/mzmine_pipe.py:142-145 | a run without a batch of its own is the run with the runner's batch |
| MZmine.MainExec | rampt/steps/feature_finding/mzmine_pipe.py:39-40 | `main` runs `mzmine` when no executable is given, and the one given otherwise |
| MZmine.MainArgs | rampt/steps/feature_finding/mzmine_pipe.py:36-37 | the `mzmine_arguments` given when there are any, else the unknown command-line arguments |
| MZmine.MainRunner | rampt/steps/feature_finding/mzmine_pipe.py:42-51 | the runner keeps the batch, the nesting, the formats and the arguments `main` chose |
| MZmine.MainRunnerDefaults | rampt/steps/feature_finding/mzmine_pipe.py:39-51 | without an executable and with a working `mzmine`, `main` runs `mzmine`, logged in as the user given or prompting for a login |
| MZmine.MainSchedule | rampt/steps/feature_finding/mzmine_pipe.py:52-55 | the schedule holds `in` and `out`, each a dict of the standard path |

## Left out

- External processes: `execute_verbose_command` and the msconvert, mzmine and SIRIUS runs are foreign binaries. Only the command strings are modelled; an `execute` parameter stands for running one.
- Network: GNPS `fetch_results`, the HTTP `post` of `submit_to_gnps` and the status polling. The polling outcome and the decoded JSON are parameters. The installer's download, extraction and hashing are left out too.
- Concurrency: dask scheduling, the worker pool and the futures lists are left out. `compute_futures` is modelled as a sequential write-back.
- Dataframes and floating point: the pandas merges, sorts and CSV files of the summary and analysis steps, and the z-score computation itself (only its size guard is modelled). A table is represented by its column names.
- The regular-expression engine: matching is a predicate parameter.
- GUI: the taipy pages and the tkinter widgets; the installer model keeps only the page and button state.
- Logging side effects: `save_log` files, verbosity-gated messages and printing are left out of the steps. The `Logging` module models the logger itself.
- `get_if_dict`, `to_list`, `extend_list` and `get_directory`: rampt/helpers/general.py is not part of this model. `extend_list` is taken to be list concatenation and `get_if_dict` to be a dict lookup by the step's data ids.
- LegacySteps.LegacyPipeStep.Run and LegacyConversion.FileConverter: the older package imports `extend_list`, `compute_scheduled`, `ic` and `execute_verbose_command` from source/helpers/general.py, which defines none of them. As written, source/conversion/msconv_pipe.py fails at its import (line 15), and the older `run` raises `AttributeError` at its first `extend_list` call (source/steps/general.py:319). The model takes these helpers to be what the newer package's helpers of the same names do.
- LegacyConversion.FileConverter.constructor: the default of `additional_args` is `...` (Ellipsis), and `" ".join` of it raises `TypeError` in `convert_file`. The model takes the additional arguments as a list of strings, as `main` always passes them.
- MSConvert.NewRunner: `main` passes `pattern`, `suffix`, `prefix` and `contains` through `**kwargs`, and `__init__` hands them to `self.update` (rampt/steps/conversion/msconv_pipe.py:43-54, 177-178). That update is not modelled, so the user pattern is the catch-all default.
- PipeSteps.IsDir: an `os.PathLike` object is a path to `os.path.isdir`; objects are not modelled as paths.
- `Step_Configuration.update` (rampt/steps/general.py:167-175) is not modelled.
- `MZmine_Runner.check_attributes`, `run_directory` and `run_nested` are not modelled: the last two call a `match_file_name` that no longer exists.
- `main` of the SIRIUS step (rampt/steps/annotation/sirius_pipe.py:16-58) is not modelled: it only reads arguments and hands them to the runner. Argument reading in the other `main` functions is covered only where the model lists it.
- `MSconvert_Runner.run_directory` and `run_nested` are left out; they only walk directories and call `run_single`.
- The older `compute_futures`, `compute_directory` and `compute_nested` of source/steps/general.py are left out. `LegacySteps` records which of the three compute methods each pair is handed to.
- `os.makedirs` of output directories is not modelled as a filesystem change.
- PipeSteps.PipeStep.Run: the final `compute_futures` call after the loop (rampt/steps/general.py:841-843) is not part of its contract; `PipeSteps.PipeStep.ComputeFutures` models that write-back.
- PipeSteps.WithOutPath, PipeSteps.DefaultOut and PipeSteps.PipeStep.Run: two parts of the default out path are parameters. `firstTruthy` stands for `next(filter(None, flatten_values(in_paths)))`, because `flatten_values` is not part of this model; its `StopIteration` is whatever error it returns. `locate` stands for `abspath(join(get_directory(p), "..", out_folder))`, which reads the file system (is `p` a directory?) and the working directory. `WithOutPath` itself takes any default.
- PipeSteps.PipeStep.Run: `distribute_scheduled` is a parameter `distribute` giving, per combination, the records its runner stores or the error it raises (a missing `in_paths`, an unknown run style, a failing runner); progress a runner stores before it raises is not modelled. `PipeSteps.RunnerFor` and `PipeSteps.ChooseRunner` model the runner choice itself.
- PipeSteps.Store, PipeSteps.PipeStep.StoreProgress, PipeSteps.PipeStep.Visit, PipeSteps.RunStep and PipeSteps.RunSkipsProcessed: a combination is compared with the processed ones as an ordered entry list, while Python's dict `==` ignores key order, so the same dict written with its keys in another order counts here as a different combination (stored again and not skipped).
- LegacySteps.LegacyPipeStep.Run, PipeSteps.PipeStep.Run, LegacyConversion.FileConverter.ConvertFile, MSConvert.RunSingle, Gnps.Distribute, Gnps.RunDirectory, Sirius.DirectoryPlan, Sirius.RunDirectory, Sirius.SearchConfig, Sirius.PlainInputRuns and Sirius.RunNested model the program as evidently intended, not as written; the "## Findings" rows name the as-written member beside each corrected one.
- Helpers.ChangeCaseStr, Text.UpperChar and Text.LowerChar: case mapping is ASCII only. Python's `str.upper` and `str.lower` are Unicode-aware and can change the length (`"ß".upper() == "SS"`), so "keeps the length" holds here only. `MSConvert.TargetFormat`, `MZmine.Login`, the keyword tests of `Analysis` and `Summary.CanopusLabel` share this restriction. The `SupportsIndex` selection of `ChangeCaseStr` is modelled as a step-less slice `start:stop` only; an integer index (`s[i]`, with its `IndexError` out of range) and a stepped slice are not modelled.
- Logging.CaptureAndLog and Logging.Stream.Tee: a capture nested inside another (standard output already a tee stream) is not modelled; a write would then be forwarded down the whole chain of tee streams, and the model forwards one level only. The function's writes are taken as all of its standard-output writes followed by all of its standard-error writes; when both streams are the same, the interleaving the source keeps cannot be expressed.
- MZmine.NewRunner: extra keyword arguments (`self.update(kwargs)`) are not modelled.
- Sirius.NewRunner: extra keyword arguments (`self.update(kwargs)`) and the `valid_runs` table are not modelled.
- The duplicated copies of `OpenMS_File_Handler`, `p_val_to_star`, `extract_config` and the GNPS log lookup in the older package are covered by the models of their newer versions.

## Findings

| source | as written | input that shows it | evidently intended | confidence | as-written member | corrected member |
|---|---|---|---|---|---|---|
| source/steps/general.py:351-356 | a list argument is split per pair when its length equals the number of paths passed to this `run`, but it is indexed by the position among all scheduled pairs | one input left on the schedule, then `run(in_paths=[b], k=[x])`: the pair of `b` is turn 1 and `k[1]` raises `IndexError` | compare the list length with the number of scheduled inputs | not executed | LegacySteps.ArgsAtPreScheduled | LegacySteps.ArgsAt |
| rampt/steps/analysis/summary_pipe.py:392-397 | a type without a branch only logs a warning (`logger.warn`, "Skipping."), then reaches `df.astype` with `df` unbound | `add_annotation("quantification", ...)` raises `UnboundLocalError` | an unknown type is skipped after the warning is logged | not executed | Summary.AddAnnotationUnknownType | Summary.AddAnnotation |
| rampt/steps/annotation/gnps_pipe.py:348-355 | a file input is recorded and then listed with `os.listdir` like a directory, since the file branch neither breaks nor continues | `run_directory` with `feature_ms2` set to an existing file raises `NotADirectoryError` | a file input is taken as it is | not executed | Gnps.FileInputRaises | Gnps.MatchEntry |
| rampt/steps/annotation/gnps_pipe.py:336-343 | `extract_standard` replaces a dict holding `standard` by that path before the special case for `standard`, so the loop over `in_path.items()` runs on a string | `run_directory(in_path={"standard": d}, ...)` raises `AttributeError` | fill every pattern key from the standard path | not executed | Gnps.StandardInputLost | Gnps.ExpandedLookup |
| rampt/steps/annotation/sirius_pipe.py:269-273 | with no configuration, `os.listdir` is called on the input dict | `run_directory` with no configuration passed or stored raises `TypeError` | list the input directory and take its configuration file | not executed | Sirius.ConfigSearchRaises | Sirius.ConfigSearch |
| rampt/steps/annotation/sirius_pipe.py:330-338 | the projectspace set for a subdirectory stays in `kwargs` for the next input directory | input directories `a` (holding `x`) and `b` with projectspace `ps`: the run in `b` gets `ps/x` | every input directory starts from the projectspace passed | not executed | Sirius.NestedLeaks | Sirius.RunNested |
| source/conversion/msconv_pipe.py:140-141 | `convert_file` reads `self.save_log` for the log path, but the base `__init__` stores the flag as `save_out` and nothing sets `save_log` | any `convert_file` call raises `AttributeError` after the command is built, and no file is converted or recorded | read the stored flag `save_out` | not executed | LegacyConversion.LogFlagMissing | LegacyConversion.FileConverter.ConvertFile |
| rampt/steps/annotation/gnps_pipe.py:353 | the directory scan passes the regex text `self.patterns[file_type]` to `match_path`, which looks its argument up as a pattern id; no id is a regex text, so nothing ever matches | `run_directory` with `feature_ms2` set to a directory holding `x_fbmn.mgf` raises `ValueError` | pass the file type as the pattern id | not executed | Gnps.AsWrittenMatchesNothing | Gnps.FeatureMs2Found |
| rampt/steps/general.py:807-810 | with `standard_in` among the inputs, `run` takes item `0` of what `extract_standard` returns; for a single keyword that is the standard path itself, so a path string yields its first character | a combination `{"in_paths": {"standard": "/data/in"}}` without out path: the standard input becomes `/`, and the out folder is placed beside `/` | take the standard path whole, and the first path only when the standard is a list | not executed | PipeSteps.StandardInFirstChar | PipeSteps.StandardIn |
| rampt/steps/general.py:714 | the GNPS step keys its combinations and runs by `in_path` and reads `scheduled_io["in_path"]` to choose the runner, but the base `distribute_scheduled` it calls reads `scheduled_io["in_paths"]` first (and `run` reads `in_paths` for its log message) | a flat GNPS step scheduled with `{"in_path": "/data", "out_path": "/out"}` raises `KeyError` | the GNPS combination is distributed by its `in_path` to the run its runner choice names | not executed | Gnps.InPathKeyError | Gnps.RunnerName |
| rampt/steps/conversion/msconv_pipe.py:263-272 | after the loop, `compute` is called once with the list `step_functions` as the step function and the lists of commands, inputs and outputs as arguments | with one worker, `run_single` on an input whose output checks pass raises `TypeError` (a list is not callable), and nothing is converted; with more, the list is delayed and fails when the futures are computed | compute one call per converted input, with its own command and `in_out` | not executed | MSConvert.ListCallRaises | MSConvert.RunSingle |
| rampt/steps/annotation/gnps_pipe.py:308 | the GNPS `distribute_scheduled` calls the base one with `correct_runner=` and the keyword arguments it was given, which already hold `correct_runner` whenever `run` is the caller (rampt/steps/general.py:831-833) | any combination `run` schedules, e.g. `{"in_path": "/data", "in_paths": "/data", "out_path": "/out"}` on a flat step, raises `TypeError` (multiple values for `correct_runner`) | replace the run style handed in by the step's own choice | not executed | Gnps.RunDistributionFails | Gnps.Distribute |
