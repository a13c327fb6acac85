/**
 * The Ant task that runs `dx` over the compiled classes and libraries of a
 * build, skipping the run when the dependency file says nothing changed.
 *
 * The task's attributes are fields that Ant sets one by one through the
 * setters before calling `Execute`. What the task gets from outside (the
 * file separator, absolute paths, the dependency check it inherits and the
 * exit status of `dx`) is passed in as an `Environment`, and everything the
 * task does to the outside world is recorded, in order, as a trace of events.
 */
module MultiDexTask {
  import opened Common
  import opened DxCommandLine
  import opened InputCollection

  /** The name of the dependency file, inside the output directory. */
  const DependencyFileName := "multidex.d"

  /** What the task learns from outside; each field stands for a call it does not own. */
  datatype Environment = Environment(
    separator: string,                              // File.separator
    absolutePath: File -> string,                   // File.getAbsolutePath
    initDependencies: (string, seq<File>) -> bool,  // inherited: loads the dependency file for these inputs
    dependenciesHaveChanged: bool,                  // inherited: asked only after a successful load
    dxSucceeds: (Option<string>, seq<string>) -> bool)  // whether dx exits with status zero

  /** The calls the task makes that are visible outside it, in the order made. */
  datatype Event =
    | InitDependencies(depFile: string, inputs: seq<File>)
    | CheckDependenciesChanged
    | RunDx(executable: Option<string>, args: seq<string>)
    | GenerateDependencyFile(depFile: string, inputs: seq<File>, output: Option<string>)

  datatype Failure = BadArguments(error: DxError) | DxFailed

  datatype Outcome = UpToDate | Converted | Failed(failure: Failure)

  /** Java's rendering of a possibly null string in a concatenation. */
  function JavaString(s: Option<string>): string {
    if s.Some? then s.value else "null"
  }

  /** Where the dependency file lives: the output directory, the separator, then `multidex.d`. */
  function DependencyFilePath(output: Option<string>, separator: string): (p: string)
    ensures |p| == |JavaString(output)| + |separator| + |DependencyFileName|
    ensures p[..|JavaString(output)|] == JavaString(output)
    ensures p[|JavaString(output)|..|JavaString(output)| + |separator|] == separator
    ensures p[|p| - |DependencyFileName|..] == DependencyFileName
  {
    JavaString(output) + separator + DependencyFileName
  }

  /** The absolute path of each input, one per input, in input order. */
  function AbsolutePaths(inputs: seq<File>, absolutePath: File -> string): (r: seq<string>)
    ensures |r| == |inputs|
    ensures forall k :: 0 <= k < |inputs| ==> r[k] == absolutePath(inputs[k])
  {
    seq(|inputs|, k requires 0 <= k < |inputs| => absolutePath(inputs[k]))
  }

  lemma AbsolutePathsSnoc(inputs: seq<File>, i: nat, absolutePath: File -> string)
    requires i < |inputs|
    ensures AbsolutePaths(inputs[..i + 1], absolutePath) == AbsolutePaths(inputs[..i], absolutePath) + [absolutePath(inputs[i])]
  {
  }

  lemma OptionPrefixSplit(o: DexOptions, output: string, head: seq<string>)
    requires o.multiDex ==> o.mainDexList.Some?
    requires head == [DexFlag] + LeadingFlags(o) + [OutputFlag] + [output]
    ensures head + MultiDexGroup(o) == OptionPrefix(o, output)
  {
  }

  predicate NoDxRun(trace: seq<Event>) {
    forall e :: e in trace ==> !e.RunDx?
  }

  predicate NoDependencyFileWritten(trace: seq<Event>) {
    forall e :: e in trace ==> !e.GenerateDependencyFile?
  }

  /**
   * The outcome of one run, from the answers it gets: whether the dependency
   * check says the run can be skipped, the argument vector (or why there is
   * none), and whether dx succeeds.
   */
  function RunOutcome(skip: bool, command: Result<seq<string>, DxError>, dxSucceeds: bool): Outcome {
    if skip then UpToDate
    else if command.Err? then Failed(BadArguments(command.error))
    else if dxSucceeds then Converted
    else Failed(DxFailed)
  }

  /**
   * The calls one run makes, in order: load the dependency file; ask whether
   * anything changed only if it loaded; unless skipped or without an argument
   * vector, run dx, and write the dependency file only if dx succeeded.
   */
  function RunTrace(depFile: string, inputs: seq<File>, loaded: bool, skip: bool,
                    command: Result<seq<string>, DxError>, executable: Option<string>,
                    dxSucceeds: bool, output: Option<string>): seq<Event>
  {
    [InitDependencies(depFile, inputs)]
    + (if loaded then [CheckDependenciesChanged] else [])
    + (if skip || command.Err? then []
       else [RunDx(executable, command.value)] + (if dxSucceeds then [GenerateDependencyFile(depFile, inputs, output)] else []))
  }

  /**
   * The sequencing promises of a run: the dependency file is loaded first;
   * the change query is made iff it loaded; a skipped run neither runs dx nor
   * writes the dependency file; a run that cannot build its argument vector
   * fails before dx; dx runs at most once, and exactly when the run is not
   * skipped and has an argument vector; the dependency file is written at most
   * once, only in a converted run, as its last event and directly after dx.
   */
  lemma RunSequencing(depFile: string, inputs: seq<File>, loaded: bool, skip: bool,
                      command: Result<seq<string>, DxError>, executable: Option<string>,
                      dxSucceeds: bool, output: Option<string>, outcome: Outcome, trace: seq<Event>)
    requires skip ==> loaded
    requires outcome == RunOutcome(skip, command, dxSucceeds)
    requires trace == RunTrace(depFile, inputs, loaded, skip, command, executable, dxSucceeds, output)
    ensures trace[0] == InitDependencies(depFile, inputs)
    ensures CheckDependenciesChanged in trace <==> loaded
    ensures outcome == UpToDate <==> skip
    ensures outcome == UpToDate ==> NoDxRun(trace) && NoDependencyFileWritten(trace)
    ensures !skip && command.Err? ==> outcome == Failed(BadArguments(command.error)) && NoDxRun(trace)
    ensures NoDxRun(trace) <==> skip || command.Err?
    ensures !skip && command.Ok? ==> RunDx(executable, command.value) in trace
    ensures forall i, j :: 0 <= i < j < |trace| && trace[i].RunDx? ==> !trace[j].RunDx?
    ensures outcome == Converted <==> !skip && command.Ok? && dxSucceeds
    ensures outcome == Failed(DxFailed) <==> !skip && command.Ok? && !dxSucceeds
    ensures outcome.Failed? ==> NoDependencyFileWritten(trace)
    ensures outcome == Converted ==>
      && |trace| >= 3
      && trace[|trace| - 2] == RunDx(executable, command.value)
      && trace[|trace| - 1] == GenerateDependencyFile(depFile, inputs, output)
    ensures forall i :: 0 <= i < |trace| && trace[i].GenerateDependencyFile? ==>
      i == |trace| - 1 && 0 < i && trace[i - 1].RunDx?
  {
    var head := [InitDependencies(depFile, inputs)] + (if loaded then [CheckDependenciesChanged] else []);
    assert forall i :: 0 <= i < |head| ==> !head[i].RunDx? && !head[i].GenerateDependencyFile?;
    if skip || command.Err? {
      assert trace == head;
    } else if dxSucceeds {
      assert trace == head + [RunDx(executable, command.value), GenerateDependencyFile(depFile, inputs, output)];
      assert trace[|head|] == RunDx(executable, command.value);
    } else {
      assert trace == head + [RunDx(executable, command.value)];
      assert trace[|head|] == RunDx(executable, command.value);
    }
  }

  class MultiDexExecTask {
    var executable: Option<string>
    var output: Option<string>
    var mainDexList: Option<string>
    var verbose: bool
    var noLocals: bool
    var forceJumbo: bool
    var multiDex: bool
    var minimalMainDex: bool
    /** The entries of each nested `<path>` element, in declaration order. */
    var pathInputs: seq<seq<string>>
    /** The files of each nested `<fileset>` element, in declaration order. */
    var fileSetInputs: seq<seq<File>>

    constructor ()
      ensures executable == None && output == None && mainDexList == None
      ensures !verbose && !noLocals && !forceJumbo && !multiDex && !minimalMainDex
      ensures pathInputs == [] && fileSetInputs == []
    {
      executable, output, mainDexList := None, None, None;
      verbose, noLocals, forceJumbo, multiDex, minimalMainDex := false, false, false, false, false;
      pathInputs, fileSetInputs := [], [];
    }

    method SetExecutable(path: string)
      modifies this`executable
      ensures executable == Some(path)
    {
      executable := Some(path);
    }

    method SetVerbose(value: bool)
      modifies this`verbose
      ensures verbose == value
    {
      verbose := value;
    }

    method SetOutput(path: string)
      modifies this`output
      ensures output == Some(path)
    {
      output := Some(path);
    }

    method SetMultiDex(value: bool)
      modifies this`multiDex
      ensures multiDex == value
    {
      multiDex := value;
    }

    method SetNoLocals(value: bool)
      modifies this`noLocals
      ensures noLocals == value
    {
      noLocals := value;
    }

    method SetForceJumbo(value: bool)
      modifies this`forceJumbo
      ensures forceJumbo == value
    {
      forceJumbo := value;
    }

    method SetMainDexList(list: string)
      modifies this`mainDexList
      ensures mainDexList == Some(list)
    {
      mainDexList := Some(list);
    }

    method SetMinimalMainDex(value: bool)
      modifies this`minimalMainDex
      ensures minimalMainDex == value
    {
      minimalMainDex := value;
    }

    /** A nested `<path>` element, given by the entries it lists. */
    method AddPath(entries: seq<string>)
      modifies this`pathInputs
      ensures pathInputs == old(pathInputs) + [entries]
    {
      pathInputs := pathInputs + [entries];
    }

    /** A nested `<fileset>` element, given by the files it yields. */
    method AddFileSet(files: seq<File>)
      modifies this`fileSetInputs
      ensures fileSetInputs == old(fileSetInputs) + [files]
    {
      fileSetInputs := fileSetInputs + [files];
    }

    /** The option fields as one value. */
    function Options(): DexOptions
      reads this
    {
      DexOptions(noLocals, verbose, forceJumbo, multiDex, mainDexList, minimalMainDex)
    }

    function Inputs(): seq<File>
      reads this
    {
      CollectedInputs(pathInputs, fileSetInputs)
    }

    function DependencyFile(env: Environment): string
      reads this
    {
      DependencyFilePath(output, env.separator)
    }

    /** The run is skipped: the dependency file loaded and reports no change. */
    predicate Skips(env: Environment)
      reads this
    {
      env.initDependencies(DependencyFile(env), Inputs()) && !env.dependenciesHaveChanged
    }

    function DxCommand(env: Environment): Result<seq<string>, DxError>
      reads this
    {
      DxArgs(Options(), output, AbsolutePaths(Inputs(), env.absolutePath))
    }

    /** Whether dx would run with an argument vector and exit with status zero. */
    predicate DxSucceeds(env: Environment)
      reads this
    {
      DxCommand(env).Ok? && env.dxSucceeds(executable, DxCommand(env).value)
    }

    /** Gathers the inputs: every `<path>` entry, then every `<fileset>` file. */
    method CollectInputs() returns (paths: seq<File>)
      ensures paths == CollectedInputs(pathInputs, fileSetInputs)
    {
      paths := [];
      for i := 0 to |pathInputs|
        invariant paths == PathFiles(pathInputs[..i])
      {
        var entries := pathInputs[i];
        for j := 0 to |entries|
          invariant paths == PathFiles(pathInputs[..i]) + AsFiles(entries[..j])
        {
          assert entries[..j + 1][..j] == entries[..j];
          paths := paths + [File(entries[j])];
        }
        assert entries[..|entries|] == entries;
        assert pathInputs[..i + 1][..i] == pathInputs[..i];
      }
      assert pathInputs[..|pathInputs|] == pathInputs;
      ghost var fromPaths := paths;
      for i := 0 to |fileSetInputs|
        invariant paths == fromPaths + Flatten(fileSetInputs[..i])
      {
        var files := fileSetInputs[i];
        var k := 0;
        while k < |files|
          invariant 0 <= k <= |files|
          invariant paths == fromPaths + Flatten(fileSetInputs[..i]) + files[..k]
        {
          assert files[..k + 1] == files[..k] + [files[k]];
          paths := paths + [files[k]];
          k := k + 1;
        }
        assert files[..k] == files;
        assert fileSetInputs[..i + 1][..i] == fileSetInputs[..i];
      }
      assert fileSetInputs[..|fileSetInputs|] == fileSetInputs;
    }

    /**
     * Builds the argument vector for dx from the option fields, the output
     * directory and the inputs. A null main-dex list in multi-dex mode
     * fails while building; a null output directory fails when the vector
     * is handed over.
     */
    method BuildDxArgs(inputs: seq<File>, output: Option<string>, absolutePath: File -> string)
      returns (r: Result<seq<string>, DxError>)
      ensures r == DxArgs(Options(), output, AbsolutePaths(inputs, absolutePath))
    {
      ghost var o := Options();
      var args := [DexFlag];
      if noLocals {
        args := args + [NoLocalsFlag];
      }
      if verbose {
        args := args + [VerboseFlag];
      }
      if forceJumbo {
        args := args + [ForceJumboFlag];
      }
      assert args == [DexFlag] + LeadingFlags(o);
      args := args + [OutputFlag];
      if output.Some? {
        args := args + [output.value];
      }
      ghost var head := args;
      if multiDex {
        args := args + [MultiDexFlag];
        if mainDexList.None? {
          return Err(MainDexListUnset);
        }
        if mainDexList.value != "" {
          args := args + [MainDexListPrefix + mainDexList.value];
          if minimalMainDex {
            args := args + [MinimalMainDexFlag];
          }
        }
      }
      assert args == head + MultiDexGroup(o);
      if output.Some? {
        OptionPrefixSplit(o, output.value, head);
      }
      args := AppendInputPaths(args, inputs, absolutePath);
      if output.None? {
        return Err(OutputUnset);
      }
      return Ok(args);
    }

    /** Appends the absolute path of each input, one token per input, in input order. */
    method AppendInputPaths(args: seq<string>, inputs: seq<File>, absolutePath: File -> string)
      returns (result: seq<string>)
      ensures result == args + AbsolutePaths(inputs, absolutePath)
    {
      result := args;
      for i := 0 to |inputs|
        invariant result == args + AbsolutePaths(inputs[..i], absolutePath)
      {
        AbsolutePathsSnoc(inputs, i, absolutePath);
        result := result + [absolutePath(inputs[i])];
      }
      assert inputs[..|inputs|] == inputs;
    }

    /**
     * One run of the task: gather the inputs, skip if the dependency file
     * says nothing changed, otherwise run dx and then, if dx succeeded,
     * write a fresh dependency file. `RunSequencing` states what this
     * ordering promises.
     */
    method Execute(env: Environment) returns (outcome: Outcome, trace: seq<Event>)
      ensures outcome == RunOutcome(Skips(env), DxCommand(env), DxSucceeds(env))
      ensures trace == RunTrace(DependencyFile(env), Inputs(), env.initDependencies(DependencyFile(env), Inputs()),
                                Skips(env), DxCommand(env), executable, DxSucceeds(env), output)
      ensures |trace| >= 1 && trace[0] == InitDependencies(DependencyFile(env), Inputs())
      ensures CheckDependenciesChanged in trace <==> env.initDependencies(DependencyFile(env), Inputs())
      ensures outcome == UpToDate <==> Skips(env)
      ensures outcome == UpToDate ==> NoDxRun(trace) && NoDependencyFileWritten(trace)
      ensures !Skips(env) && DxCommand(env).Err? ==>
        outcome == Failed(BadArguments(DxCommand(env).error)) && NoDxRun(trace) && NoDependencyFileWritten(trace)
      ensures !Skips(env) && DxCommand(env).Ok? ==> RunDx(executable, DxCommand(env).value) in trace
      ensures outcome == Converted <==>
        !Skips(env) && DxCommand(env).Ok? && env.dxSucceeds(executable, DxCommand(env).value)
      ensures outcome == Failed(DxFailed) <==>
        !Skips(env) && DxCommand(env).Ok? && !env.dxSucceeds(executable, DxCommand(env).value)
      ensures outcome == Converted ==>
        && |trace| >= 3
        && trace[|trace| - 2] == RunDx(executable, DxCommand(env).value)
        && trace[|trace| - 1] == GenerateDependencyFile(DependencyFile(env), Inputs(), output)
      ensures outcome.Failed? ==> NoDependencyFileWritten(trace)
      ensures forall i :: 0 <= i < |trace| && trace[i].GenerateDependencyFile? ==> 0 < i && trace[i - 1].RunDx?
    {
      ghost var loads, skip, command, dxOk := env.initDependencies(DependencyFile(env), Inputs()), Skips(env), DxCommand(env), DxSucceeds(env);
      ghost var expected := RunOutcome(skip, command, dxOk);
      ghost var expectedTrace := RunTrace(DependencyFile(env), Inputs(), loads, skip, command, executable, dxOk, output);
      RunSequencing(DependencyFile(env), Inputs(), loads, skip, command, executable, dxOk, output, expected, expectedTrace);
      var paths := CollectInputs();
      var depFile := DependencyFilePath(output, env.separator);
      assert paths == Inputs() && depFile == DependencyFile(env);
      trace := [InitDependencies(depFile, paths)];
      var upToDate := false;
      if env.initDependencies(depFile, paths) {
        trace := trace + [CheckDependenciesChanged];
        upToDate := !env.dependenciesHaveChanged;
      }
      ghost var loaded := trace;
      assert upToDate == Skips(env);
      if upToDate {
        assert trace == loaded + [];
        return UpToDate, trace;
      }
      var args := BuildDxArgs(paths, output, env.absolutePath);
      assert args == DxCommand(env);
      if args.Err? {
        assert trace == loaded + [];
        return Failed(BadArguments(args.error)), trace;
      }
      trace := trace + [RunDx(executable, args.value)];
      if !env.dxSucceeds(executable, args.value) {
        return Failed(DxFailed), trace;
      }
      trace := trace + [GenerateDependencyFile(depFile, paths, output)];
      outcome := Converted;
    }
  }
}
