# Error Prone severity registry and compiler flags

A Dafny model of the core of the `digitalascent-gradle-errorprone` Gradle
plugin. Two parts of the plugin are modelled:

- The `errorprone` extension object. It holds three tree sets of Error Prone
  check names, one per severity override (ERROR, WARN, OFF). It also holds
  the generated-code switch, which defaults to on, and a live list of
  excluded path patterns.
- The plugin. It seeds the ERROR set with a default table of checks and
  derives the Error Prone command-line flags from the extension. It appends
  those flags to the compiler arguments of every compile task that runs on
  Error Prone's toolchain.

Modules:

- `SortedNames`: Java's `String.compareTo` and `TreeSet<String>`. A tree set is
  represented by a strictly ascending `seq<string>`. `Insert` is `TreeSet.add`.
  The lemmas show that a tree set is determined by its elements.
- `Flags`: the three flag forms (`-Xep:<check>:<LEVEL>`,
  `-XepDisableWarningsInGeneratedCode`, `-XepExcludedPaths:<pattern>`) and
  their rendering to strings. A decoder is paired with the renderer: every
  rendered flag decodes back to itself. This proves that no two flags share a
  string.
- `PluginExtension`: the value-level semantics of `error`/`warn`/`off` calls
  (`Overrides`, `Apply`, `ApplyAll`). It also holds the imperative classes
  `ErrorPronePluginExtension` and `StringList`. `StringList` models the live
  `ArrayList` of excluded paths, which is handed out by reference.
- `DefaultPatterns`: the default table of 36 `error` calls in source order.
  The module proves that these calls build exactly the sorted list of 31
  distinct names.
- `Plugin`: the option list, the default seeding, `configureErrorProne`, the
  toolchain guard and the per-task action.

The option list is defined as the rendering of a list of flags
(`ErrorProneOptions(o, d, p) == RenderAll(OptionFlags(o, d, p))`).
`OptionsAssembled` proves that this equals the concatenation
`configureErrorProne` performs. The methods `BuildErrorProneOptions` and
`ConfigureErrorProne` follow the source's successive appends and its loop
over the excluded paths. Each method is proved equal to `ErrorProneOptions`.

## Model

| member | source | states |
|---|---|---|
| SortedNames.CompareToZero | src/main/java/com/digitalascent/gradle/errorprone/ErrorPronePluginExtension.java:9-11 | compareTo is zero exactly on equal strings, so the tree sets treat equal names as one |
| SortedNames.CompareToFlip | src/main/java/com/digitalascent/gradle/errorprone/ErrorPronePluginExtension.java:9-11 | swapping the arguments of compareTo negates its result |
| SortedNames.LessTransitive | src/main/java/com/digitalascent/gradle/errorprone/ErrorPronePluginExtension.java:9-11 | the natural string order is transitive |
| SortedNames.LessTrichotomy | src/main/java/com/digitalascent/gradle/errorprone/ErrorPronePluginExtension.java:9-11 | any two names are equal or ordered exactly one way |
| SortedNames.LessAt | src/main/java/com/digitalascent/gradle/errorprone/ErrorPronePluginExtension.java:9-11 | the first differing character decides the order |
| SortedNames.SortedFromNeighbours | src/main/java/com/digitalascent/gradle/errorprone/ErrorPronePluginExtension.java:9-11 | a chain whose neighbours ascend is strictly ascending throughout |
| SortedNames.SnocSorted | src/main/java/com/digitalascent/gradle/errorprone/ErrorPronePluginExtension.java:9-11 | a name above the greatest one can be appended without breaking the order |
| SortedNames.SortedCardinality | src/main/java/com/digitalascent/gradle/errorprone/ErrorPronePluginExtension.java:9-11 | a tree set's iteration holds no duplicates: its length is the number of distinct names |
| SortedNames.SortedUnique | src/main/java/com/digitalascent/gradle/errorprone/ErrorPronePluginExtension.java:9-11 | a tree set's iteration order is determined by its elements alone |
| SortedNames.Insert | src/main/java/com/digitalascent/gradle/errorprone/ErrorPronePluginExtension.java:29 | TreeSet.add keeps the set strictly ascending and its elements become the old ones plus the name |
| SortedNames.InsertPresent | src/main/java/com/digitalascent/gradle/errorprone/ErrorPronePluginExtension.java:29 | adding a name already present leaves the set unchanged |
| SortedNames.InsertIdempotent | src/main/java/com/digitalascent/gradle/errorprone/ErrorPronePluginExtension.java:28-30 | adding a name twice leaves the state adding it once leaves |
| SortedNames.InsertAll | src/main/java/com/digitalascent/gradle/errorprone/ErrorPronePluginExtension.java:28-30 | a series of adds yields a strictly ascending set holding the old names and every added one |
| SortedNames.InsertAllOrderIndependent | src/main/java/com/digitalascent/gradle/errorprone/ErrorPronePluginExtension.java:28-30 | two series of adds naming the same names give the same set, whatever their order or repetitions |
| Flags.ParseRender | src/main/java/com/digitalascent/gradle/errorprone/ErrorPronePlugin.java:100-113 | every flag the plugin emits decodes back to the flag it came from |
| Flags.RenderInjective | src/main/java/com/digitalascent/gradle/errorprone/ErrorPronePlugin.java:100-113 | two flags render to the same string exactly when they are the same flag |
| Flags.RenderAll | src/main/java/com/digitalascent/gradle/errorprone/ErrorPronePlugin.java:92-104 | one string per flag, the i-th being the i-th flag's text |
| Flags.RenderAllAppend | src/main/java/com/digitalascent/gradle/errorprone/ErrorPronePlugin.java:92-104 | rendering distributes over concatenation, so appending flag lists appends their strings |
| Flags.RenderAllCount | src/main/java/com/digitalascent/gradle/errorprone/ErrorPronePlugin.java:92-104 | a flag's string occurs among the rendered strings as often as the flag occurs in the list |
| Flags.RenderAllMembership | src/main/java/com/digitalascent/gradle/errorprone/ErrorPronePlugin.java:92-104 | a flag's string is among the rendered strings exactly when the flag is in the list |
| Flags.RenderAllParse | src/main/java/com/digitalascent/gradle/errorprone/ErrorPronePlugin.java:92-104 | decoding the rendered strings position by position recovers the flag list |
| PluginExtension.Apply | src/main/java/com/digitalascent/gradle/errorprone/ErrorPronePluginExtension.java:28-38 | one call adds its name to its own bucket and leaves the other two buckets equal to what they were |
| PluginExtension.ApplyIdempotent | src/main/java/com/digitalascent/gradle/errorprone/ErrorPronePluginExtension.java:28-38 | making a call twice leaves the state making it once leaves |
| PluginExtension.ApplyAll | src/main/java/com/digitalascent/gradle/errorprone/ErrorPronePluginExtension.java:28-38 | every bucket stays a strictly ascending tree set through any series of calls |
| PluginExtension.ApplyAllMembership | src/main/java/com/digitalascent/gradle/errorprone/ErrorPronePluginExtension.java:28-38 | after a series of calls a name is in a bucket exactly when it was there before or a call for that level named it |
| PluginExtension.ApplyAllOrderIndependent | src/main/java/com/digitalascent/gradle/errorprone/ErrorPronePluginExtension.java:28-38 | the final buckets depend only on the set of calls made, not their order or repetition |
| PluginExtension.BucketsIndependent | src/main/java/com/digitalascent/gradle/errorprone/ErrorPronePluginExtension.java:9-38 | no exclusivity: after error, warn and off with one name, that name is in all three buckets |
| PluginExtension.StringList.Add | src/main/java/com/digitalascent/gradle/errorprone/ErrorPronePluginExtension.java:18 | the excluded-path list grows by the one pattern at its end, duplicates kept |
| PluginExtension.ErrorPronePluginExtension.constructor | src/main/java/com/digitalascent/gradle/errorprone/ErrorPronePluginExtension.java:9-18 | a fresh extension has three empty buckets, the switch on and a new empty excluded-path list |
| PluginExtension.ErrorPronePluginExtension.SetDisableWarningsInGeneratedCode | src/main/java/com/digitalascent/gradle/errorprone/ErrorPronePluginExtension.java:13-15 | the switch takes the given value; buckets and excluded paths are unchanged |
| PluginExtension.ErrorPronePluginExtension.DisableWarningsInGeneratedCode | src/main/java/com/digitalascent/gradle/errorprone/ErrorPronePluginExtension.java:20-22 | returns the switch's current value, so after the setter it returns the value set |
| PluginExtension.ErrorPronePluginExtension.GetExcludedPaths | src/main/java/com/digitalascent/gradle/errorprone/ErrorPronePluginExtension.java:24-26 | returns the live list itself, so a change made through it is a change to the extension |
| PluginExtension.ErrorPronePluginExtension.Error | src/main/java/com/digitalascent/gradle/errorprone/ErrorPronePluginExtension.java:28-30 | the name joins the error bucket; warn, off, the switch and the excluded paths are unchanged |
| PluginExtension.ErrorPronePluginExtension.Warn | src/main/java/com/digitalascent/gradle/errorprone/ErrorPronePluginExtension.java:32-34 | the name joins the warn bucket; error, off, the switch and the excluded paths are unchanged |
| PluginExtension.ErrorPronePluginExtension.Off | src/main/java/com/digitalascent/gradle/errorprone/ErrorPronePluginExtension.java:36-38 | the name joins the disabled bucket; error, warn, the switch and the excluded paths are unchanged |
| PluginExtension.ErrorPronePluginExtension.GetErrorPatternNames | src/main/java/com/digitalascent/gradle/errorprone/ErrorPronePluginExtension.java:40-42 | the error bucket, in strictly ascending order |
| PluginExtension.ErrorPronePluginExtension.GetWarnPatternNames | src/main/java/com/digitalascent/gradle/errorprone/ErrorPronePluginExtension.java:44-46 | the warn bucket, in strictly ascending order |
| PluginExtension.ErrorPronePluginExtension.GetDisabledPatternNames | src/main/java/com/digitalascent/gradle/errorprone/ErrorPronePluginExtension.java:48-50 | the disabled bucket, in strictly ascending order |
| DefaultPatterns.DefaultErrorNamesSorted | src/main/java/com/digitalascent/gradle/errorprone/ErrorPronePlugin.java:53-88 | the default table makes 36 calls naming 31 distinct checks, and the listed 31 are strictly ascending with exactly those names |
| DefaultPatterns.DefaultErrorNamesAscending | src/main/java/com/digitalascent/gradle/errorprone/ErrorPronePlugin.java:53-88 | the 31 default names in the order a tree set iterates them |
| DefaultPatterns.DefaultErrorNamesCover | src/main/java/com/digitalascent/gradle/errorprone/ErrorPronePlugin.java:53-88 | the 31 names are exactly the names of the 36 calls |
| Plugin.GenerateErrorProneCompilerOpts | src/main/java/com/digitalascent/gradle/errorprone/ErrorPronePlugin.java:111-113 | exactly one severity flag per name, in the bucket's order, at the given level |
| Plugin.GeneratedOptionText | src/main/java/com/digitalascent/gradle/errorprone/ErrorPronePlugin.java:111-113 | the i-th generated string is `-Xep:` followed by the i-th name, `:` and the level |
| Plugin.ExcludedPathOpts | src/main/java/com/digitalascent/gradle/errorprone/ErrorPronePlugin.java:104 | one `-XepExcludedPaths:` flag per pattern, in list order |
| Plugin.ExcludedPathOptsSnoc | src/main/java/com/digitalascent/gradle/errorprone/ErrorPronePlugin.java:104 | one more pattern at the end of the list adds its one flag at the end |
| Plugin.ErrorProneOptions | src/main/java/com/digitalascent/gradle/errorprone/ErrorPronePlugin.java:95-104 | length is `|error| + |warn| + |off| + (switch ? 1 : 0) + |excludedPaths|` |
| Plugin.OptionsAssembled | src/main/java/com/digitalascent/gradle/errorprone/ErrorPronePlugin.java:92-104 | the option list is ERROR flags, then WARN flags, then OFF flags, then the optional switch, then the excluded-path flags |
| Plugin.OptionsDecode | src/main/java/com/digitalascent/gradle/errorprone/ErrorPronePlugin.java:92-104 | every option decodes to the flag at its position |
| Plugin.FlagsLayout | src/main/java/com/digitalascent/gradle/errorprone/ErrorPronePlugin.java:92-104 | the flag found at each position of the list, by segment |
| Plugin.OptionsLayout | src/main/java/com/digitalascent/gradle/errorprone/ErrorPronePlugin.java:92-104 | the exact string found at each position of the option list, by segment |
| Plugin.SeverityFlagListed | src/main/java/com/digitalascent/gradle/errorprone/ErrorPronePlugin.java:95-97 | a severity flag is in the flag list exactly when its name is in that level's bucket |
| Plugin.SeverityFlagPresent | src/main/java/com/digitalascent/gradle/errorprone/ErrorPronePlugin.java:95-97 | `-Xep:<name>:<LEVEL>` is passed exactly when the name is in that level's bucket |
| Plugin.ConflictingLevels | src/main/java/com/digitalascent/gradle/errorprone/ErrorPronePlugin.java:95-97 | a name in two buckets yields both flags, which differ when the levels do |
| Plugin.DisableFlagCount | src/main/java/com/digitalascent/gradle/errorprone/ErrorPronePlugin.java:100-102 | the generated-code flag occurs once in the flag list when the switch is on, otherwise not at all |
| Plugin.DisableFlagOnce | src/main/java/com/digitalascent/gradle/errorprone/ErrorPronePlugin.java:100-102 | `-XepDisableWarningsInGeneratedCode` is passed if and only if the switch is on, and then exactly once |
| Plugin.ExcludedPathsAtEnd | src/main/java/com/digitalascent/gradle/errorprone/ErrorPronePlugin.java:104 | the list ends with one flag per excluded path, in list order, duplicates kept |
| Plugin.OneOfEachOptions | src/main/java/com/digitalascent/gradle/errorprone/ErrorPronePlugin.java:92-104 | one name per bucket, the switch on and one path give exactly these five strings |
| Plugin.ExampleOptions | src/main/java/com/digitalascent/gradle/errorprone/ErrorPronePlugin.java:92-104 | a concrete extension's option list, character for character |
| Plugin.ErrorOnlyOptions | src/main/java/com/digitalascent/gradle/errorprone/ErrorPronePlugin.java:92-104 | with only ERROR overrides and the default switch, the list is the ERROR flags then the switch |
| Plugin.DefaultOptions | src/main/java/com/digitalascent/gradle/errorprone/ErrorPronePlugin.java:92-104 | the freshly seeded extension yields 32 options: the 31 default ERROR flags in order, then the switch |
| Plugin.ErrorEach | src/main/java/com/digitalascent/gradle/errorprone/ErrorPronePlugin.java:52-89 | successive `error` calls build the tree set of the successive adds and touch nothing else |
| Plugin.DefaultSeeding | src/main/java/com/digitalascent/gradle/errorprone/ErrorPronePlugin.java:52-89 | the 36 default calls on an empty bucket give exactly the 31 sorted default names |
| Plugin.ConfigureErrorPronePatterns | src/main/java/com/digitalascent/gradle/errorprone/ErrorPronePlugin.java:52-89 | the error bucket gains the table's names, and equals the 31 defaults when it was empty; nothing else changes |
| Plugin.ApplyPlugin | src/main/java/com/digitalascent/gradle/errorprone/ErrorPronePlugin.java:30-32 | a seeded extension: the 31 defaults at ERROR, empty warn and off buckets, the switch on, no excluded paths |
| Plugin.AppendExcludedPaths | src/main/java/com/digitalascent/gradle/errorprone/ErrorPronePlugin.java:104 | the `forEach` appends one excluded-path flag per pattern, in list order |
| Plugin.BuildErrorProneOptions | src/main/java/com/digitalascent/gradle/errorprone/ErrorPronePlugin.java:92-104 | the successive appends build exactly the option list the extension determines |
| Plugin.ConfigureErrorProne | src/main/java/com/digitalascent/gradle/errorprone/ErrorPronePlugin.java:91-109 | the task's new arguments are its old ones followed by the option list, so the old arguments remain a prefix |
| Plugin.CompileTaskAction | src/main/java/com/digitalascent/gradle/errorprone/ErrorPronePlugin.java:36-43 | a task on another toolchain keeps its arguments; an Error Prone task gets the option list appended |
| Plugin.ConfigureCompileTasks | src/main/java/com/digitalascent/gradle/errorprone/ErrorPronePlugin.java:44-48 | every task of the project is treated by the action, each independently of the others |

## Left out

- Gradle plugin wiring (`withType`, `getPluginManager().apply`, `getExtensions().add`, `afterEvaluate`, `all`, `whenTaskAdded`): these are host lifecycle callbacks. `ConfigureCompileTasks` stands for them: it applies the action to a given sequence of distinct tasks, the way a task collection holds each task once. Tasks registered later are not modelled.
- `setErrorProneVersion` and `getErrorProneConfiguration`: these are calls into Gradle's configuration and dependency APIs, outside the model.
- The `logger.info` call in `configureErrorProne`: this is output only.
- `instanceof ErrorProneToolChain`: a real type test. It is modelled as the boolean `usesErrorProneToolChain` on the task.
- SortedNames.CompareTo: compares Dafny characters (Unicode scalar values) rather than UTF-16 code units. The two orders agree for strings within the Basic Multilingual Plane, and every default check name is ASCII.
- Plugin.ConfigureErrorPronePatterns: performs the 36 `error` calls as a loop (`ErrorEach`) over the table `DefaultErrorCalls`, not as 36 straight-line statements. The table holds the same names in the same order as the source, so the calls are the same.
- PluginExtension.ErrorPronePluginExtension.GetErrorPatternNames: like the warn and disabled getters, it returns the bucket's contents as a value. The Java getters return the live set, and a caller could mutate a bucket through it; that aliasing is not modelled. The excluded-path list is modelled by reference through `StringList`.
- Plugin.GenerateErrorProneCompilerOpts: takes the level as a `Level` value rather than an arbitrary string. Its three call sites pass only "ERROR", "WARN" and "OFF".
- Plugin.ConfigureErrorProne: appends to the task's argument list held as a sequence field. In the source that list is the live `List` inside `CompileOptions`.
- PluginExtension.ErrorPronePluginExtension.Error: `Warn`, `Off` and every method that reads the buckets require the class invariant `Valid()` (each bucket strictly ascending). `TreeSet` maintains this invariant itself.
