/**
 * The plugin proper: the default severity table, the derivation of Error
 * Prone compiler flags from the extension, and the action that appends them
 * to each compile task that runs on Error Prone's toolchain.
 */
module Plugin {
  import opened SortedNames
  import opened Flags
  import opened PluginExtension
  import opened DefaultPatterns

  /** A JavaCompile task: its toolchain kind and its compiler argument list. */
  class JavaCompile {
    /** Whether the task's toolchain is Error Prone's. */
    const usesErrorProneToolChain: bool
    var compilerArgs: seq<string>

    constructor (usesErrorProneToolChain: bool, compilerArgs: seq<string>)
      ensures this.usesErrorProneToolChain == usesErrorProneToolChain
      ensures this.compilerArgs == compilerArgs
    {
      this.usesErrorProneToolChain := usesErrorProneToolChain;
      this.compilerArgs := compilerArgs;
    }
  }

  function SeverityFlags(names: seq<string>, level: Level): seq<Flag>
  {
    seq(|names|, i requires 0 <= i < |names| => Severity(names[i], level))
  }

  function ExcludedPathFlags(paths: seq<string>): seq<Flag>
  {
    seq(|paths|, i requires 0 <= i < |paths| => ExcludedPaths(paths[i]))
  }

  /**
   * The flags a compile task receives, in order: the error overrides, the
   * warn overrides, the off overrides, the generated-code switch when it is
   * on, and one flag per excluded path.
   */
  function OptionFlags(o: Overrides, disable: bool, paths: seq<string>): seq<Flag>
  {
    SeverityFlags(o.error, ERROR) + SeverityFlags(o.warn, WARN) + SeverityFlags(o.disabled, OFF)
    + (if disable then [DisableWarningsInGeneratedCode] else [])
    + ExcludedPathFlags(paths)
  }

  /** The option list a compile task receives: its flags as command-line strings. */
  function ErrorProneOptions(o: Overrides, disable: bool, paths: seq<string>): (opts: seq<string>)
    ensures |opts| == |o.error| + |o.warn| + |o.disabled| + (if disable then 1 else 0) + |paths|
  {
    RenderAll(OptionFlags(o, disable, paths))
  }

  /** One `-Xep:<name>:<LEVEL>` flag per name, in the bucket's iteration order. */
  function GenerateErrorProneCompilerOpts(patternNames: seq<string>, level: Level): (opts: seq<string>)
    ensures |opts| == |patternNames|
    ensures forall i :: 0 <= i < |patternNames| ==> opts[i] == Render(Severity(patternNames[i], level))
  {
    if patternNames == [] then []
    else
      var opt := SeverityPrefix + patternNames[0] + ":" + LevelName(level);
      [opt] + GenerateErrorProneCompilerOpts(patternNames[1..], level)
  }

  /** The generated flags are exactly `-Xep:` + name + `:` + level, character for character. */
  lemma GeneratedOptionText(patternNames: seq<string>, level: Level, i: int)
    requires 0 <= i < |patternNames|
    ensures GenerateErrorProneCompilerOpts(patternNames, level)[i] == "-Xep:" + patternNames[i] + ":" + LevelName(level)
  {
  }

  /** One `-XepExcludedPaths:<pattern>` flag per pattern, in list order. */
  function ExcludedPathOpts(paths: seq<string>): (opts: seq<string>)
    ensures |opts| == |paths|
    ensures forall i :: 0 <= i < |paths| ==> opts[i] == Render(ExcludedPaths(paths[i]))
  {
    if paths == [] then []
    else [ExcludedPathsPrefix + paths[0]] + ExcludedPathOpts(paths[1..])
  }

  lemma ExcludedPathOptsSnoc(paths: seq<string>, path: string)
    ensures ExcludedPathOpts(paths + [path]) == ExcludedPathOpts(paths) + [ExcludedPathsPrefix + path]
  {
    var l, r := ExcludedPathOpts(paths + [path]), ExcludedPathOpts(paths) + [ExcludedPathsPrefix + path];
    assert |l| == |r|;
    forall i | 0 <= i < |l| ensures l[i] == r[i] {
      assert (paths + [path])[i] == if i < |paths| then paths[i] else path;
    }
  }

  /** The order the option list is assembled in: E + W + O + the switch + the paths. */
  lemma OptionsAssembled(o: Overrides, disable: bool, paths: seq<string>)
    ensures ErrorProneOptions(o, disable, paths)
      == GenerateErrorProneCompilerOpts(o.error, ERROR)
      + GenerateErrorProneCompilerOpts(o.warn, WARN)
      + GenerateErrorProneCompilerOpts(o.disabled, OFF)
      + (if disable then [DisableWarningsFlag] else [])
      + ExcludedPathOpts(paths)
  {
    var e, w, x := SeverityFlags(o.error, ERROR), SeverityFlags(o.warn, WARN), SeverityFlags(o.disabled, OFF);
    var g: seq<Flag> := if disable then [DisableWarningsInGeneratedCode] else [];
    var p := ExcludedPathFlags(paths);
    assert GenerateErrorProneCompilerOpts(o.error, ERROR) == RenderAll(e);
    assert GenerateErrorProneCompilerOpts(o.warn, WARN) == RenderAll(w);
    assert GenerateErrorProneCompilerOpts(o.disabled, OFF) == RenderAll(x);
    assert (if disable then [DisableWarningsFlag] else []) == RenderAll(g);
    assert ExcludedPathOpts(paths) == RenderAll(p);
    RenderAllAppend(e, w);
    RenderAllAppend(e + w, x);
    RenderAllAppend(e + w + x, g);
    RenderAllAppend(e + w + x + g, p);
  }

  /** Every option decodes to the flag at the same position. */
  lemma OptionsDecode(o: Overrides, disable: bool, paths: seq<string>)
    ensures var opts, fs := ErrorProneOptions(o, disable, paths), OptionFlags(o, disable, paths);
      |opts| == |fs| && forall i :: 0 <= i < |opts| ==> Parse(opts[i]) == Some(fs[i])
  {
    RenderAllParse(OptionFlags(o, disable, paths));
  }

  lemma FlagsLayout(o: Overrides, disable: bool, paths: seq<string>)
    ensures var fs := OptionFlags(o, disable, paths);
      var e, w, x := |o.error|, |o.warn|, |o.disabled|;
      var g := if disable then 1 else 0;
      && |fs| == e + w + x + g + |paths|
      && (forall i :: 0 <= i < e ==> fs[i] == Severity(o.error[i], ERROR))
      && (forall i :: 0 <= i < w ==> fs[e + i] == Severity(o.warn[i], WARN))
      && (forall i :: 0 <= i < x ==> fs[e + w + i] == Severity(o.disabled[i], OFF))
      && (disable ==> fs[e + w + x] == DisableWarningsInGeneratedCode)
      && (forall i :: 0 <= i < |paths| ==> fs[e + w + x + g + i] == ExcludedPaths(paths[i]))
  {
  }

  /**
   * Where each flag sits: the error flags, then the warn flags, then the off
   * flags, then the generated-code flag when enabled, then the excluded paths.
   */
  lemma OptionsLayout(o: Overrides, disable: bool, paths: seq<string>)
    ensures var opts := ErrorProneOptions(o, disable, paths);
      var e, w, x := |o.error|, |o.warn|, |o.disabled|;
      var g := if disable then 1 else 0;
      && (forall i :: 0 <= i < e ==> opts[i] == Render(Severity(o.error[i], ERROR)))
      && (forall i :: 0 <= i < w ==> opts[e + i] == Render(Severity(o.warn[i], WARN)))
      && (forall i :: 0 <= i < x ==> opts[e + w + i] == Render(Severity(o.disabled[i], OFF)))
      && (disable ==> opts[e + w + x] == DisableWarningsFlag)
      && (forall i :: 0 <= i < |paths| ==> opts[e + w + x + g + i] == Render(ExcludedPaths(paths[i])))
  {
    FlagsLayout(o, disable, paths);
  }

  /** A severity flag is among the option flags exactly when its name is in that bucket. */
  lemma SeverityFlagListed(o: Overrides, disable: bool, paths: seq<string>, level: Level, name: string)
    ensures Severity(name, level) in OptionFlags(o, disable, paths) <==> name in o.Bucket(level)
  {
    var fs := OptionFlags(o, disable, paths);
    FlagsLayout(o, disable, paths);
    if name in o.Bucket(level) {
      var j :| 0 <= j < |o.Bucket(level)| && o.Bucket(level)[j] == name;
      match level
      case ERROR => assert fs[j] == Severity(name, level);
      case WARN => assert fs[|o.error| + j] == Severity(name, level);
      case OFF => assert fs[|o.error| + |o.warn| + j] == Severity(name, level);
    }
  }

  /** `-Xep:<name>:<LEVEL>` is passed exactly when the name is in that level's bucket. */
  lemma SeverityFlagPresent(o: Overrides, disable: bool, paths: seq<string>, level: Level, name: string)
    ensures Render(Severity(name, level)) in ErrorProneOptions(o, disable, paths) <==> name in o.Bucket(level)
  {
    RenderAllMembership(OptionFlags(o, disable, paths), Severity(name, level));
    SeverityFlagListed(o, disable, paths, level, name);
  }

  /**
   * Buckets are not exclusive: a name in two buckets yields two conflicting
   * flags, one per level.
   */
  lemma ConflictingLevels(o: Overrides, disable: bool, paths: seq<string>, name: string, l1: Level, l2: Level)
    requires name in o.Bucket(l1) && name in o.Bucket(l2)
    ensures Render(Severity(name, l1)) in ErrorProneOptions(o, disable, paths)
    ensures Render(Severity(name, l2)) in ErrorProneOptions(o, disable, paths)
    ensures l1 != l2 ==> Render(Severity(name, l1)) != Render(Severity(name, l2))
  {
    SeverityFlagPresent(o, disable, paths, l1, name);
    SeverityFlagPresent(o, disable, paths, l2, name);
    RenderInjective(Severity(name, l1), Severity(name, l2));
  }

  /** The generated-code switch is among the flags once when on and not at all otherwise. */
  lemma DisableFlagCount(o: Overrides, disable: bool, paths: seq<string>)
    ensures multiset(OptionFlags(o, disable, paths))[DisableWarningsInGeneratedCode] == if disable then 1 else 0
  {
    var d := DisableWarningsInGeneratedCode;
    var sev := SeverityFlags(o.error, ERROR) + SeverityFlags(o.warn, WARN) + SeverityFlags(o.disabled, OFF);
    var g: seq<Flag> := if disable then [d] else [];
    var p := ExcludedPathFlags(paths);
    assert OptionFlags(o, disable, paths) == sev + g + p;
    assert d !in sev;
    assert d !in p;
    assert multiset(sev + g + p) == multiset(sev) + multiset(g) + multiset(p);
  }

  /** `-XepDisableWarningsInGeneratedCode` occurs once when enabled and not at all otherwise. */
  lemma DisableFlagOnce(o: Overrides, disable: bool, paths: seq<string>)
    ensures var opts := ErrorProneOptions(o, disable, paths);
      && (DisableWarningsFlag in opts <==> disable)
      && multiset(opts)[DisableWarningsFlag] == if disable then 1 else 0
  {
    DisableFlagCount(o, disable, paths);
    RenderAllCount(OptionFlags(o, disable, paths), DisableWarningsInGeneratedCode);
  }

  /** Excluded paths end the list, one flag each, in list order, duplicates kept. */
  lemma ExcludedPathsAtEnd(o: Overrides, disable: bool, paths: seq<string>)
    ensures var opts := ErrorProneOptions(o, disable, paths);
      |opts| >= |paths| && opts[|opts| - |paths|..] == ExcludedPathOpts(paths)
  {
    OptionsAssembled(o, disable, paths);
    var before := GenerateErrorProneCompilerOpts(o.error, ERROR)
      + GenerateErrorProneCompilerOpts(o.warn, WARN)
      + GenerateErrorProneCompilerOpts(o.disabled, OFF)
      + (if disable then [DisableWarningsFlag] else []);
    assert ErrorProneOptions(o, disable, paths) == before + ExcludedPathOpts(paths);
  }

  /** One name per bucket, the switch on, one excluded path. */
  lemma OneOfEachOptions(e: string, w: string, x: string, path: string)
    ensures ErrorProneOptions(Overrides([e], [w], [x]), true, [path])
      == ["-Xep:" + e + ":ERROR", "-Xep:" + w + ":WARN", "-Xep:" + x + ":OFF",
          "-XepDisableWarningsInGeneratedCode", "-XepExcludedPaths:" + path]
  {
    var opts := ErrorProneOptions(Overrides([e], [w], [x]), true, [path]);
    OptionsLayout(Overrides([e], [w], [x]), true, [path]);
    assert opts[0] == SeverityPrefix + e + ":" + "ERROR" == "-Xep:" + e + ":ERROR";
    assert opts[1] == SeverityPrefix + w + ":" + "WARN" == "-Xep:" + w + ":WARN";
    assert opts[2] == SeverityPrefix + x + ":" + "OFF" == "-Xep:" + x + ":OFF";
    assert opts[4] == ExcludedPathsPrefix + path;
  }

  /** The worked example, character for character. */
  lemma ExampleOptions()
    ensures ErrorProneOptions(Overrides(["Foo"], ["Bar"], ["Baz"]), true, ["build/generated/**"])
      == ["-Xep:Foo:ERROR", "-Xep:Bar:WARN", "-Xep:Baz:OFF",
          "-XepDisableWarningsInGeneratedCode", "-XepExcludedPaths:build/generated/**"]
  {
    OneOfEachOptions("Foo", "Bar", "Baz", "build/generated/**");
    assert "-Xep:" + "Foo" + ":ERROR" == "-Xep:Foo:ERROR";
    assert "-Xep:" + "Bar" + ":WARN" == "-Xep:Bar:WARN";
    assert "-Xep:" + "Baz" + ":OFF" == "-Xep:Baz:OFF";
    assert "-XepExcludedPaths:" + "build/generated/**" == "-XepExcludedPaths:build/generated/**";
  }

  /** Options for an extension whose only overrides are at ERROR, with the default switch. */
  lemma ErrorOnlyOptions(names: seq<string>)
    ensures ErrorProneOptions(Overrides(names, [], []), true, [])
      == GenerateErrorProneCompilerOpts(names, ERROR) + [DisableWarningsFlag]
  {
    OptionsAssembled(Overrides(names, [], []), true, []);
  }

  /** The default state's options: the 31 default error flags, then the generated-code flag. */
  lemma DefaultOptions(names: seq<string>)
    requires names == DefaultErrorNames()
    ensures var opts := ErrorProneOptions(Overrides(names, [], []), true, []);
      && |opts| == 32
      && (forall i :: 0 <= i < 31 ==> opts[i] == "-Xep:" + names[i] + ":ERROR")
      && opts[31] == DisableWarningsFlag
  {
    ErrorOnlyOptions(names);
  }

  /** One `error` call per name, in the order given. */
  method ErrorEach(ext: ErrorPronePluginExtension, names: seq<string>)
    requires ext.Valid()
    modifies ext`errorPatternNames
    ensures ext.Valid()
    ensures ext.errorPatternNames == InsertAll(old(ext.errorPatternNames), names)
    ensures ext.warnPatternNames == old(ext.warnPatternNames)
    ensures ext.disabledPatternNames == old(ext.disabledPatternNames)
    ensures ext.disableWarningsInGeneratedCode == old(ext.disableWarningsInGeneratedCode)
    ensures ext.excludedPaths.items == old(ext.excludedPaths.items)
  {
    for k := 0 to |names|
      invariant ext.Valid()
      invariant ext.errorPatternNames == InsertAll(old(ext.errorPatternNames), names[..k])
      invariant ext.warnPatternNames == old(ext.warnPatternNames)
      invariant ext.disabledPatternNames == old(ext.disabledPatternNames)
      invariant ext.disableWarningsInGeneratedCode == old(ext.disableWarningsInGeneratedCode)
      invariant ext.excludedPaths.items == old(ext.excludedPaths.items)
    {
      assert names[..k + 1][..k] == names[..k];
      ext.Error(names[k]);
    }
    assert names[..|names|] == names;
  }

  /** Seeding an empty bucket with the default table yields the sorted default list. */
  lemma DefaultSeeding(calls: seq<string>)
    requires calls == DefaultErrorCalls()
    ensures InsertAll([], calls) == DefaultErrorNames()
    ensures |InsertAll([], calls)| == 31
  {
    DefaultErrorNamesSorted();
    SortedUnique(InsertAll([], calls), DefaultErrorNames());
  }

  /**
   * configureErrorPronePatterns: the default severity table, all at ERROR,
   * one `error` call per entry in table order.
   */
  method ConfigureErrorPronePatterns(ext: ErrorPronePluginExtension)
    requires ext.Valid()
    modifies ext`errorPatternNames
    ensures ext.Valid()
    ensures ext.errorPatternNames == InsertAll(old(ext.errorPatternNames), DefaultErrorCalls())
    ensures Elements(ext.errorPatternNames) == Elements(old(ext.errorPatternNames)) + Elements(DefaultErrorCalls())
    ensures old(ext.errorPatternNames) == [] ==> ext.errorPatternNames == DefaultErrorNames()
    ensures ext.warnPatternNames == old(ext.warnPatternNames)
    ensures ext.disabledPatternNames == old(ext.disabledPatternNames)
    ensures ext.disableWarningsInGeneratedCode == old(ext.disableWarningsInGeneratedCode)
    ensures ext.excludedPaths.items == old(ext.excludedPaths.items)
  {
    ErrorEach(ext, DefaultErrorCalls());
    if old(ext.errorPatternNames) == [] {
      DefaultSeeding(DefaultErrorCalls());
    }
  }

  /** The plugin's setup: a fresh extension seeded with the default table. */
  method ApplyPlugin() returns (ext: ErrorPronePluginExtension)
    ensures fresh(ext) && fresh(ext.excludedPaths) && ext.Valid()
    ensures ext.errorPatternNames == DefaultErrorNames()
    ensures ext.warnPatternNames == [] && ext.disabledPatternNames == []
    ensures ext.disableWarningsInGeneratedCode
    ensures ext.excludedPaths.items == []
  {
    ext := new ErrorPronePluginExtension();
    ConfigureErrorPronePatterns(ext);
  }

  /** The `forEach` over the excluded paths: one flag per pattern, appended in list order. */
  method AppendExcludedPaths(opts: seq<string>, paths: seq<string>) returns (r: seq<string>)
    ensures r == opts + ExcludedPathOpts(paths)
  {
    r := opts;
    for i := 0 to |paths|
      invariant r == opts + ExcludedPathOpts(paths[..i])
    {
      ExcludedPathOptsSnoc(paths[..i], paths[i]);
      assert paths[..i + 1] == paths[..i] + [paths[i]];
      r := r + [ExcludedPathsPrefix + paths[i]];
    }
    assert paths[..|paths|] == paths;
  }

  /** Builds the option list for one task, as configureErrorProne does. */
  method BuildErrorProneOptions(ext: ErrorPronePluginExtension) returns (opts: seq<string>)
    requires ext.Valid()
    ensures opts == ErrorProneOptions(ext.Buckets(), ext.disableWarningsInGeneratedCode, ext.excludedPaths.items)
  {
    var errorNames := ext.GetErrorPatternNames();
    var warnNames := ext.GetWarnPatternNames();
    var disabledNames := ext.GetDisabledPatternNames();
    opts := GenerateErrorProneCompilerOpts(errorNames, ERROR);
    opts := opts + GenerateErrorProneCompilerOpts(warnNames, WARN);
    opts := opts + GenerateErrorProneCompilerOpts(disabledNames, OFF);
    var disable := ext.DisableWarningsInGeneratedCode();
    if disable {
      opts := opts + [DisableWarningsFlag];
    } else {
      assert opts + [] == opts;
    }
    var paths := ext.GetExcludedPaths();
    opts := AppendExcludedPaths(opts, paths.items);
    OptionsAssembled(ext.Buckets(), disable, paths.items);
  }

  /** configureErrorProne: appends the derived options to the task's compiler arguments. */
  method ConfigureErrorProne(task: JavaCompile, ext: ErrorPronePluginExtension)
    requires ext.Valid()
    modifies task
    ensures task.compilerArgs == old(task.compilerArgs)
      + ErrorProneOptions(ext.Buckets(), ext.disableWarningsInGeneratedCode, ext.excludedPaths.items)
  {
    var opts := BuildErrorProneOptions(ext);
    task.compilerArgs := task.compilerArgs + opts;
  }

  /** The per-task action: tasks on another toolchain are left alone. */
  method CompileTaskAction(task: JavaCompile, ext: ErrorPronePluginExtension)
    requires ext.Valid()
    modifies task
    ensures task.compilerArgs == if task.usesErrorProneToolChain
      then old(task.compilerArgs) + ErrorProneOptions(ext.Buckets(), ext.disableWarningsInGeneratedCode, ext.excludedPaths.items)
      else old(task.compilerArgs)
  {
    if !task.usesErrorProneToolChain {
      return;
    }
    ConfigureErrorProne(task, ext);
  }

  /** The action applied to every compile task of the project, one after another. */
  method ConfigureCompileTasks(tasks: seq<JavaCompile>, ext: ErrorPronePluginExtension)
    requires ext.Valid()
    requires forall i, j :: 0 <= i < j < |tasks| ==> tasks[i] != tasks[j]
    modifies set t | t in tasks
    ensures forall i :: 0 <= i < |tasks| ==> tasks[i].compilerArgs == if tasks[i].usesErrorProneToolChain
      then old(tasks[i].compilerArgs) + ErrorProneOptions(ext.Buckets(), ext.disableWarningsInGeneratedCode, ext.excludedPaths.items)
      else old(tasks[i].compilerArgs)
  {
    for k := 0 to |tasks|
      invariant forall i :: 0 <= i < k ==> tasks[i].compilerArgs == if tasks[i].usesErrorProneToolChain
        then old(tasks[i].compilerArgs) + ErrorProneOptions(ext.Buckets(), ext.disableWarningsInGeneratedCode, ext.excludedPaths.items)
        else old(tasks[i].compilerArgs)
      invariant forall i :: k <= i < |tasks| ==> tasks[i].compilerArgs == old(tasks[i].compilerArgs)
    {
      CompileTaskAction(tasks[k], ext);
    }
  }
}
