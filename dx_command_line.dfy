/**
 * The argument vector that the multi-dex task hands to the `dx` tool
 * (everything after the executable name), as a specification.
 *
 * Tokens are compared by position, never by value: the output directory and
 * the input paths are arbitrary strings and may well spell one of the flags.
 */
module DxCommandLine {
  import opened Common

  /** The option fields of the task that shape the command line. */
  datatype DexOptions = DexOptions(
    noLocals: bool,
    verbose: bool,
    forceJumbo: bool,
    multiDex: bool,
    mainDexList: Option<string>,  // None: `setMainDexList` was never called
    minimalMainDex: bool)

  /** Why no command line can be built. */
  datatype DxError =
    | MainDexListUnset  // multi-dex mode with a null main-dex list: the emptiness test dereferences null
    | OutputUnset       // the output directory is null and cannot become an argument value

  const DexFlag := "--dex"
  const NoLocalsFlag := "--no-locals"
  const VerboseFlag := "--verbose"
  const ForceJumboFlag := "--force-jumbo"
  const OutputFlag := "--output"
  const MultiDexFlag := "--multi-dex"
  const MainDexListPrefix := "--main-dex-list="
  const MinimalMainDexFlag := "--minimal-main-dex"

  function FlagIf(b: bool, flag: string): seq<string> {
    if b then [flag] else []
  }

  function Bit(b: bool): nat {
    if b then 1 else 0
  }

  /** The optional flags that sit between `--dex` and `--output`. */
  function LeadingFlags(o: DexOptions): seq<string> {
    FlagIf(o.noLocals, NoLocalsFlag) + FlagIf(o.verbose, VerboseFlag) + FlagIf(o.forceJumbo, ForceJumboFlag)
  }

  /** A multi-dex build that names a non-empty main-dex list. */
  predicate MainDexListGiven(o: DexOptions) {
    o.multiDex && o.mainDexList.Some? && o.mainDexList.value != ""
  }

  /** The multi-dex group that follows the output directory. */
  function MultiDexGroup(o: DexOptions): seq<string>
    requires o.multiDex ==> o.mainDexList.Some?
  {
    if !o.multiDex then []
    else if o.mainDexList.value == "" then [MultiDexFlag]
    else [MultiDexFlag, MainDexListPrefix + o.mainDexList.value] + FlagIf(o.minimalMainDex, MinimalMainDexFlag)
  }

  /** Every token that comes before the input paths. */
  function OptionPrefix(o: DexOptions, output: string): seq<string>
    requires o.multiDex ==> o.mainDexList.Some?
  {
    [DexFlag] + LeadingFlags(o) + [OutputFlag, output] + MultiDexGroup(o)
  }

  /**
   * The command line for `o`, the output directory and the inputs' absolute
   * paths, or the reason there is none. A null main-dex list in multi-dex
   * mode is reported first, since it fails while the vector is being built.
   */
  function DxArgs(o: DexOptions, output: Option<string>, inputs: seq<string>): (r: Result<seq<string>, DxError>)
    ensures r == Err(MainDexListUnset) <==> o.multiDex && o.mainDexList.None?
    ensures r == Err(OutputUnset) <==> !(o.multiDex && o.mainDexList.None?) && output.None?
    ensures r.Ok? ==> |r.value| > |inputs| && r.value[0] == DexFlag && r.value[|r.value| - |inputs|..] == inputs
  {
    if o.multiDex && o.mainDexList.None? then Err(MainDexListUnset)
    else if output.None? then Err(OutputUnset)
    else
      var prefix := OptionPrefix(o, output.value);
      assert (prefix + inputs)[|prefix|..] == inputs;
      Ok(prefix + inputs)
  }

  // ---------------------------------------------------------------------
  // Reference counts, written independently of the token lists

  /** How many of `--no-locals`, `--verbose`, `--force-jumbo` are present. */
  function LeadingCount(o: DexOptions): nat {
    Bit(o.noLocals) + Bit(o.verbose) + Bit(o.forceJumbo)
  }

  /** How many tokens the multi-dex group has. */
  function GroupCount(o: DexOptions): nat {
    if !o.multiDex then 0
    else if !MainDexListGiven(o) then 1
    else 2 + Bit(o.minimalMainDex)
  }

  /** The number of tokens before the first input path. */
  function PrefixLength(o: DexOptions): nat {
    3 + LeadingCount(o) + GroupCount(o)
  }

  /** The fixed relative order of the three leading flags; 3 for anything else. */
  function Rank(token: string): nat {
    if token == NoLocalsFlag then 0
    else if token == VerboseFlag then 1
    else if token == ForceJumboFlag then 2
    else 3
  }

  // ---------------------------------------------------------------------
  // Properties of the command line

  lemma LeadingFlagsFacts(o: DexOptions)
    ensures |LeadingFlags(o)| == LeadingCount(o)
    ensures NoLocalsFlag in LeadingFlags(o) <==> o.noLocals
    ensures VerboseFlag in LeadingFlags(o) <==> o.verbose
    ensures ForceJumboFlag in LeadingFlags(o) <==> o.forceJumbo
    ensures forall i, j :: 0 <= i < j < |LeadingFlags(o)| ==> Rank(LeadingFlags(o)[i]) < Rank(LeadingFlags(o)[j]) < 3
  {
  }

  lemma MultiDexGroupFacts(o: DexOptions)
    requires o.multiDex ==> o.mainDexList.Some?
    ensures |MultiDexGroup(o)| == GroupCount(o)
  {
  }

  /**
   * The layout of a successful command line: `--dex` first, then the leading
   * flags, then `--output` directly followed by the output directory, then
   * the multi-dex group, then exactly the input paths in input order.
   */
  lemma ArgsLayout(o: DexOptions, output: Option<string>, inputs: seq<string>, args: seq<string>)
    requires DxArgs(o, output, inputs) == Ok(args)
    ensures output.Some?
    ensures |args| == PrefixLength(o) + |inputs|
    ensures args[0] == DexFlag
    ensures args[1 + LeadingCount(o)] == OutputFlag && args[2 + LeadingCount(o)] == output.value
    ensures args[PrefixLength(o)..] == inputs
    ensures forall k :: 0 <= k < |inputs| ==> args[PrefixLength(o) + k] == inputs[k]
  {
    LeadingFlagsFacts(o);
    MultiDexGroupFacts(o);
    var prefix := OptionPrefix(o, output.value);
    assert args == prefix + inputs;
    assert |prefix| == PrefixLength(o);
    assert prefix[1 + LeadingCount(o)] == OutputFlag;
  }

  /**
   * The tokens between `--dex` and `--output`: each of the three optional
   * flags appears there iff its option is set, nothing else appears there,
   * and their ranks strictly increase (at most once each, in the fixed order).
   */
  lemma LeadingFlagsInArgs(o: DexOptions, output: Option<string>, inputs: seq<string>, args: seq<string>)
    requires DxArgs(o, output, inputs) == Ok(args)
    ensures 1 + LeadingCount(o) <= |args|
    ensures var flags := args[1..1 + LeadingCount(o)];
      && (NoLocalsFlag in flags <==> o.noLocals)
      && (VerboseFlag in flags <==> o.verbose)
      && (ForceJumboFlag in flags <==> o.forceJumbo)
      && (forall i, j :: 0 <= i < j < |flags| ==> Rank(flags[i]) < Rank(flags[j]) < 3)
  {
    LeadingFlagsFacts(o);
    var lead := LeadingFlags(o);
    assert args == [DexFlag] + lead + ([OutputFlag, output.value] + MultiDexGroup(o) + inputs);
    assert args[1..1 + |lead|] == lead;
  }

  /**
   * The tokens between the output directory and the first input path:
   * `--multi-dex` leads them iff multi-dex is on (and they are empty
   * otherwise); the single token `--main-dex-list=<list>` follows iff the
   * list is non-empty; `--minimal-main-dex` comes directly after that token
   * iff it is requested as well.
   */
  lemma MultiDexGroupInArgs(o: DexOptions, output: Option<string>, inputs: seq<string>, args: seq<string>)
    requires DxArgs(o, output, inputs) == Ok(args)
    ensures 3 + LeadingCount(o) <= PrefixLength(o) <= |args|
    ensures var g := args[3 + LeadingCount(o)..PrefixLength(o)];
      && (!o.multiDex <==> g == [])
      && (o.multiDex <==> MultiDexFlag in g)
      && (o.multiDex ==> g[0] == MultiDexFlag)
      && (MainDexListGiven(o) <==> |g| >= 2)
      && (MainDexListGiven(o) ==> g[1] == MainDexListPrefix + o.mainDexList.value)
      && (MinimalMainDexFlag in g <==> MainDexListGiven(o) && o.minimalMainDex)
      && (MinimalMainDexFlag in g ==> |g| == 3 && g[2] == MinimalMainDexFlag)
  {
    ArgsLayout(o, output, inputs, args);
    LeadingFlagsFacts(o);
    MultiDexGroupFacts(o);
    var prefix := OptionPrefix(o, output.value);
    assert args == prefix + inputs;
    var g := args[3 + LeadingCount(o)..PrefixLength(o)];
    assert g == MultiDexGroup(o);
    if MainDexListGiven(o) {
      assert (MainDexListPrefix + o.mainDexList.value)[3] == 'a';
    }
  }

  /** When multi-dex is off, no other option changes anything about the multi-dex group. */
  lemma SingleDexIgnoresMainDexOptions(o: DexOptions, output: Option<string>, inputs: seq<string>,
                                       list: Option<string>, minimal: bool)
    requires !o.multiDex
    ensures DxArgs(o, output, inputs) == DxArgs(o.(mainDexList := list, minimalMainDex := minimal), output, inputs)
  {
  }

  /** A multi-dex example: with main list `main.txt`, minimal main dex, two inputs. */
  lemma ExampleMultiDexCommandLine()
    ensures DxArgs(DexOptions(false, false, false, true, Some("main.txt"), true), Some("/out"), ["/a.class", "/b.class"])
         == Ok(["--dex", "--output", "/out", "--multi-dex", "--main-dex-list=main.txt", "--minimal-main-dex", "/a.class", "/b.class"])
  {
    var o := DexOptions(false, false, false, true, Some("main.txt"), true);
    assert LeadingFlags(o) == [];
    var token := MainDexListPrefix + "main.txt";
    assert |token| == 24;
    assert forall k :: 0 <= k < 24 ==> token[k] == "--main-dex-list=main.txt"[k];
    assert token == "--main-dex-list=main.txt";
    assert MultiDexGroup(o) == ["--multi-dex", "--main-dex-list=main.txt", "--minimal-main-dex"];
    var prefix := OptionPrefix(o, "/out");
    assert prefix == ["--dex", "--output", "/out", "--multi-dex", "--main-dex-list=main.txt", "--minimal-main-dex"];
    assert DxArgs(o, Some("/out"), ["/a.class", "/b.class"]) == Ok(prefix + ["/a.class", "/b.class"]);
    assert prefix + ["/a.class", "/b.class"]
        == ["--dex", "--output", "/out", "--multi-dex", "--main-dex-list=main.txt", "--minimal-main-dex", "/a.class", "/b.class"];
  }
}
