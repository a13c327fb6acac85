# MultiDexExecTask, modelled in Dafny

This project models `MultiDexExecTask`, the Ant task in the Android build tools
that runs `dx` over a build's compiled classes and libraries. `dx` is the
converter to the Dalvik bytecode format. It can split its output across several
archives ("multi-dex"). The model covers three parts of the task:

- **The option fields and their setters.** `MultiDexTask.MultiDexExecTask` is a
  class with the same fields as the Java class. Each setter may modify only the
  one field it sets, so the frame itself says that nothing else changes. A Java
  `null` string is `None`.
- **Input collection.** `CollectInputs` has the same nested loops as `execute`.
  It is proved to return `CollectedInputs`, which is defined in the
  `InputCollection` module:
  - every entry of every nested `<path>`, in declaration order;
  - then every file of every nested `<fileset>`, in iteration order;
  - with no deduplication.
- **The dx argument vector.** `BuildDxArgs` appends tokens step by step, as
  `runDx` does. It is proved to return `DxCommandLine.DxArgs`. The lemmas in
  `DxCommandLine` pin down every token by its position:
  - `--dex` comes first.
  - Then come the optional `--no-locals`, `--verbose` and `--force-jumbo`, in
    that order.
  - Then come `--output` and the output directory, as two tokens.
  - Then comes the multi-dex group: `--multi-dex`, the single token
    `--main-dex-list=<list>`, then `--minimal-main-dex`.
  - Last come the inputs' absolute paths, in input order.

  Tokens are compared by position, never by value, because the output
  directory or an input path may itself spell a flag.
- **The skip/rebuild sequence.** `Execute` returns an outcome and a trace of the
  outside calls it makes, in order. The trace can contain:
  - loading the dependency file;
  - asking whether the dependencies changed;
  - running dx with an argument vector;
  - writing the dependency file.

  The run is skipped, with neither dx nor the dependency file, iff the
  dependency file loads and reports no change. Otherwise the argument vector is
  built. If it cannot be built, the run fails before dx and writes no
  dependency file: the main-dex list is unset in multi-dex mode
  (`MainDexListUnset`), or the output directory is unset (`OutputUnset`). When
  the vector is built, dx runs with it. Then the dependency file
  `<output><separator>multidex.d` is written, but only when dx succeeds.
  `MultiDexTask.RunOutcome` and `MultiDexTask.RunTrace` give the outcome and
  the exact trace, and `MultiDexTask.RunSequencing` proves the ordering
  properties about them.

The task inherits part of its behaviour from `SingleDependencyTask`, and it also
uses some platform calls. These are fields of `MultiDexTask.Environment`:

- the file separator;
- `File.getAbsolutePath`;
- the results of `initDependencies` and `dependenciesHaveChanged`;
- whether `dx` exits with status zero.

The model does not define how any of them behave.

Some behaviours of `execute` are easy to miss, and the model keeps them:

- **Duplicates are kept.** An input reachable both through a `<path>` and
  through a `<fileset>` is collected twice (`InputCollection.DuplicatesKept`).
- **An unset main-dex list is an error.** In multi-dex mode the code
  dereferences the main-dex list at line 202, before dx runs. A list that was
  never set therefore does not get skipped: the model reports it as
  `MainDexListUnset`, and neither dx nor the dependency file runs. An empty
  list does skip `--main-dex-list=` and `--minimal-main-dex`.
- **A null output directory is rendered as `null`.** The output directory is
  concatenated into the dependency-file path the way Java concatenates strings,
  so a null one gives `null/multidex.d`. A null output directory can therefore
  still be up to date.
- **Missing explicit inputs are not checked.** `execute` never checks that a
  listed input exists. The `<path>` expansion belongs to Ant.

## Model

| member | source | states |
|---|---|---|
| `DxCommandLine.DxArgs` | src/com/android/ant/MultiDexExecTask.java:182-217 | The build fails with `MainDexListUnset` iff multi-dex is on and the main-dex list was never set. It fails with `OutputUnset` iff that is not the case and the output directory is null. Otherwise the vector starts with `--dex` and ends with exactly the inputs' absolute paths. |
| `DxCommandLine.ArgsLayout` | src/com/android/ant/MultiDexExecTask.java:182-217 | A built vector has length PrefixLength + number of inputs, where PrefixLength is computed from the flags independently of the tokens. `--dex` is at index 0. `--output` sits directly after the leading flags, and the output directory directly follows it. Input k sits at PrefixLength + k. |
| `DxCommandLine.LeadingFlagsInArgs` | src/com/android/ant/MultiDexExecTask.java:184-194 | Between `--dex` and `--output`, each of `--no-locals`, `--verbose` and `--force-jumbo` appears iff its option is set. Nothing else appears there. Their ranks strictly increase, so each appears at most once and in that order. |
| `DxCommandLine.MultiDexGroupInArgs` | src/com/android/ant/MultiDexExecTask.java:199-209 | The group between the output directory and the first input is empty iff multi-dex is off. `--multi-dex` is in it iff multi-dex is on, and then it comes first. The single token `--main-dex-list=<list>` comes second iff the list is non-empty. `--minimal-main-dex` is present iff the list is non-empty and minimal-main-dex is set, and then it directly follows the list token. |
| `DxCommandLine.SingleDexIgnoresMainDexOptions` | src/com/android/ant/MultiDexExecTask.java:199-209 | With multi-dex off, the main-dex list (even an unset one) and minimal-main-dex have no effect on the result. |
| `DxCommandLine.ExampleMultiDexCommandLine` | src/com/android/ant/MultiDexExecTask.java:182-217 | Multi-dex with list `main.txt`, minimal main dex, output `/out` and two inputs gives exactly `--dex --output /out --multi-dex --main-dex-list=main.txt --minimal-main-dex /a.class /b.class`. |
| `InputCollection.CollectedOrder` | src/com/android/ant/MultiDexExecTask.java:130-149 | The collected inputs hold one element per `<path>` entry and per `<fileset>` file. The `<path>` files come first, in order, and the `<fileset>` files follow. |
| `InputCollection.CollectedMembership` | src/com/android/ant/MultiDexExecTask.java:130-149 | A file is collected iff some `<path>` lists its path or some `<fileset>` yields it. |
| `InputCollection.DuplicatesKept` | src/com/android/ant/MultiDexExecTask.java:130-149 | A file reachable both through a `<path>` and through a `<fileset>` occurs at least twice: nothing is deduplicated. |
| `InputCollection.FlattenSplit` | src/com/android/ant/MultiDexExecTask.java:140-149 | The files of each `<fileset>` stay contiguous and in iteration order. The files of earlier elements come before them and those of later elements after them. |
| `InputCollection.FlattenMembership` | src/com/android/ant/MultiDexExecTask.java:140-149 | An element is in the concatenation of the `<fileset>` contents iff it is in one of them. |
| `InputCollection.PathFilesAsGroups` | src/com/android/ant/MultiDexExecTask.java:131-138 | The `<path>` inputs are the files of each `<path>` element, concatenated in declaration order. |
| `InputCollection.PathFilesSplit` | src/com/android/ant/MultiDexExecTask.java:131-138 | The entries of each `<path>` stay contiguous and in order. The entries of earlier elements come before them and those of later elements after them. |
| `InputCollection.PathFilesMembership` | src/com/android/ant/MultiDexExecTask.java:131-138 | A file made from path `s` is among the `<path>` inputs iff some `<path>` element lists `s`. |
| `MultiDexTask.DependencyFilePath` | src/com/android/ant/MultiDexExecTask.java:152 | The dependency file path is the output directory (`null` when unset, as Java concatenation renders it), then the separator, then `multidex.d`. |
| `MultiDexTask.MultiDexExecTask.constructor` | src/com/android/ant/MultiDexExecTask.java:36-45 | A new task has every string unset, every flag false and no nested elements. |
| `MultiDexTask.MultiDexExecTask.SetExecutable` | src/com/android/ant/MultiDexExecTask.java:52-54 | Sets the executable and changes nothing else. |
| `MultiDexTask.MultiDexExecTask.SetVerbose` | src/com/android/ant/MultiDexExecTask.java:60-62 | Sets `verbose` and changes nothing else. |
| `MultiDexTask.MultiDexExecTask.SetOutput` | src/com/android/ant/MultiDexExecTask.java:68-70 | Sets the output directory and changes nothing else. |
| `MultiDexTask.MultiDexExecTask.SetMultiDex` | src/com/android/ant/MultiDexExecTask.java:72-74 | Sets `multiDex` and changes nothing else. |
| `MultiDexTask.MultiDexExecTask.SetNoLocals` | src/com/android/ant/MultiDexExecTask.java:80-82 | Sets `noLocals` and changes nothing else. |
| `MultiDexTask.MultiDexExecTask.SetForceJumbo` | src/com/android/ant/MultiDexExecTask.java:84-86 | Sets `forceJumbo` and changes nothing else. |
| `MultiDexTask.MultiDexExecTask.SetMainDexList` | src/com/android/ant/MultiDexExecTask.java:88-90 | Sets the main-dex list (possibly to the empty string) and changes nothing else. |
| `MultiDexTask.MultiDexExecTask.SetMinimalMainDex` | src/com/android/ant/MultiDexExecTask.java:92-94 | Sets `minimalMainDex` and changes nothing else. |
| `MultiDexTask.MultiDexExecTask.AddPath` | src/com/android/ant/MultiDexExecTask.java:99-108 | Appends one `<path>` element after those already declared. |
| `MultiDexTask.MultiDexExecTask.AddFileSet` | src/com/android/ant/MultiDexExecTask.java:113-123 | Appends one `<fileset>` element after those already declared. |
| `MultiDexTask.MultiDexExecTask.CollectInputs` | src/com/android/ant/MultiDexExecTask.java:130-149 | The nested loops return exactly `CollectedInputs`: all `<path>` entries, then all `<fileset>` files. |
| `MultiDexTask.MultiDexExecTask.BuildDxArgs` | src/com/android/ant/MultiDexExecTask.java:174-217 | Appending step by step yields exactly `DxArgs` for the task's options, the given output directory and the inputs' absolute paths, including both error cases. |
| `MultiDexTask.MultiDexExecTask.AppendInputPaths` | src/com/android/ant/MultiDexExecTask.java:211-217 | The loop over the inputs appends their absolute paths, one token each, in input order. |
| `MultiDexTask.MultiDexExecTask.Execute` | src/com/android/ant/MultiDexExecTask.java:127-171 | The outcome is exactly `RunOutcome` and the trace is exactly `RunTrace`, given the environment's answers. So: the dependency file is loaded first, at `DependencyFilePath`, with the collected inputs. The change query happens iff that load succeeds. The outcome is `UpToDate` iff the load succeeds and nothing changed, and then neither dx runs nor the dependency file is written. A bad argument vector fails before dx. Otherwise dx runs with exactly `DxArgs`. The run is `Converted` iff dx succeeds, and `Failed(DxFailed)` iff dx exits non-zero. When converted, the last two events are running dx and then writing the dependency file. A failed run never writes it, and every write directly follows a dx run. |
| `MultiDexTask.RunSequencing` | src/com/android/ant/MultiDexExecTask.java:152-170 | For every combination of answers, the run's trace loads the dependency file first and queries for changes iff the load succeeded. A skipped run is `UpToDate` and neither runs dx nor writes the dependency file. A run without an argument vector fails before dx. dx runs at most once, and exactly when the run is neither skipped nor missing its vector. `Converted` and `Failed(DxFailed)` split the runs where dx runs by its exit status. The dependency file is written at most once, only by a converted run, as its last event and directly after dx. |

## Left out

- Spawning the dx process through Ant's `ExecTask` is not modelled, and neither are its fail-on-error handling or the task name `dx` (lines 175-180, 220, 223-226). The model records the argument vector handed over, and the exit status is an input.
- Console output is not modelled (lines 134, 145, 159, 164, 214).
- `SingleDependencyTask` is not part of this model. Its `initDependencies` and `dependenciesHaveChanged` are answers of the environment, and `generateDependencyFile` is a trace event. Nothing is assumed about timestamps, sizes or the dependency file's format. That includes the idempotence of two unchanged runs, which depends on that code.
- Expanding an Ant `Path` or `FileSet` is not modelled. A `<path>` is given as the entries it lists and a `<fileset>` as the files it yields. Because they are taken as final when they are added, later changes to a nested element are not modelled.
- A Java null list of nested elements is modelled as an empty sequence, because `execute` treats the two alike.
- `java.io.File` is its path string. Any normalisation by `File` is not modelled, and `getAbsolutePath` is an input.
- MultiDexTask.MultiDexExecTask.SetExecutable: takes the string that `TaskHelper.checkSinglePath` returns; that helper and its rejection of multi-element paths are foreign.
- MultiDexTask.MultiDexExecTask.SetOutput: takes the string that `TaskHelper.checkSinglePath` returns, for the same reason.
- MultiDexTask.MultiDexExecTask.BuildDxArgs: a null output directory is an `OutputUnset` failure, after the input loop, where the vector is handed over. What the executor would do with a null argument is outside this model.
- `getInputPaths` (line 155) is taken as the identity: the model hands the list of files itself to the dependency check and to the dependency file, where the code hands over the `InputPath` list built from it. Nothing is lost, because the dependency answers may be any function of those files.
- MultiDexTask.MultiDexExecTask.Execute: a null executable is handed to dx as `None` (line 178). Ant's `ExecTask` refuses to run without an executable. In the model that refusal is `dxSucceeds` answering false, and the model does not force that answer, so a run with no executable can still be `Converted`.
- Atomic writing and error handling for the dependency file are not modelled. They belong to `generateDependencyFile`, outside this model.
