# Kotlin JVM compilation task: a Dafny model

This project models the compilation task of the Bazel Kotlin rules' JVM
builder (`compilation_task.kt`). The task takes an immutable descriptor of
one compilation unit, `JvmCompilationTask`, and does three things:

- it assembles the compiler's command-line tokens: the base arguments, the
  common arguments, the token list of `compileKotlin` and that of the kapt
  (annotation processing) pass;
- it folds discovered source files into the descriptor; those come from
  extracting source jars or from walking the generated-sources directory;
- it picks the sources that go into the output source jar.

Modules, one per concern:

- `CompilationArgs` (compilation_args.dfy): the argument accumulator as a value with
  fluent member functions (`Flag`, `FlagValue`, `AbsolutePaths`, `Values`,
  `GivenNotEmpty`) and the empty accumulator `Empty`; `list()` is the `tokens` field.
- `TaskModel` (task_model.dfy): the descriptor records and the `TaskBuilder` class,
  the mutable copy that `toBuilder()` hands out and `build()` seals.
- `JvmSources` (jvm_sources.dfy): the suffix classifier behind `partitionJvmSources`
  and the filter `OfKind`.
- `Strings` (strings.dfy): Kotlin's `joinToString` and `split(" ")` and `endsWith`.
- `CompilationTask` (compilation_task.dfy): argument assembly, read-back of options,
  expansion (the `Expanded` specification function and the methods that
  compute it through a builder), the processor stage, the source jar.
- `Scenarios` (scenarios.dfy): lemmas about concrete descriptors.
- `Wrappers` (wrappers.dfy): `Option` and `Result`.

The outside world enters as parameters:

- `Platform` holds `File.pathSeparator` and `X_FRIENDS_PATH_SEPARATOR`;
- `pluginArgs` is the output of the plugin-argument encoder;
- `extracted` is the list of sources the source-jar extractor produced;
- `walked` / `generated` is the list of files the walk of the generated-sources directory found;
- two booleans say whether the output source jar exists already and whether `<temp>/_srcjars` exists.

Assumed behaviour of the argument accumulator `CompilationArgs`, whose
code is not part of this model: `CompilationArgs()` starts with no tokens,
and each builder call keeps the tokens so far and appends its own at the end. `flag(name)` appends the name.
`flag(name, value)` appends the name and the value, and nothing when the
value is empty. `absolutePaths(paths, format)` appends the single token
`format(paths)`, and nothing for no paths. `values(xs)` appends the
elements in order. `givenNotEmpty(text, transform)` appends
`transform(text)`, and nothing for an empty text. `list()` returns the
tokens. The contracts of the `CompilationArgs.Args` members state exactly
this assumption.

Assumed policy of the classifier `partitionJvmSources`, whose code is not
part of this model: a path ending in `.kt` goes to the Kotlin sources.
Otherwise a path ending in `.java` goes to the Java sources. Any other path
is dropped.

Three details of the code the model reproduces:

- the friend paths are part of `info` (`info.friendPathsList`), not of the inputs;
- `-d` goes through `flag(name, value)`, so it is left out when the classes
  directory is empty;
- the passthrough flags are split on single spaces (`split(" ")`, which
  keeps empty pieces), not on whitespace runs.

## Model

| member | source | states |
|---|---|---|
| `CompilationArgs.Empty` | src/main/kotlin/io/bazel/kotlin/builder/tasks/jvm/compilation_task.kt:46 | assumed: `CompilationArgs()` starts with no tokens |
| `CompilationArgs.Args.Flag` | src/main/kotlin/io/bazel/kotlin/builder/tasks/jvm/compilation_task.kt:47 | assumed: `flag("-cp")` appends exactly the bare name |
| `CompilationArgs.Args.FlagValue` | src/main/kotlin/io/bazel/kotlin/builder/tasks/jvm/compilation_task.kt:50-53 | assumed: `flag(name, value)` appends the name and the value, and leaves the accumulator unchanged for an empty value |
| `CompilationArgs.Args.AbsolutePaths` | src/main/kotlin/io/bazel/kotlin/builder/tasks/jvm/compilation_task.kt:40-42 | assumed: `absolutePaths` appends the one formatted token, and leaves the accumulator unchanged for no paths |
| `CompilationArgs.Args.Values` | src/main/kotlin/io/bazel/kotlin/builder/tasks/jvm/compilation_task.kt:99-101 | assumed: `values(xs)` appends the elements in order |
| `CompilationArgs.Args.GivenNotEmpty` | src/main/kotlin/io/bazel/kotlin/builder/tasks/jvm/compilation_task.kt:44 | assumed: `givenNotEmpty` appends the transformed pieces, and leaves the accumulator unchanged for an empty text |
| `Strings.Join` | src/main/kotlin/io/bazel/kotlin/builder/tasks/jvm/compilation_task.kt:48 | `joinToString`: an empty list gives the empty string; otherwise the joined string begins with the first element |
| `Strings.Split` | src/main/kotlin/io/bazel/kotlin/builder/tasks/jvm/compilation_task.kt:44 | `split(" ")` yields at least one piece and no piece contains the delimiter |
| `Strings.JoinSplit` | src/main/kotlin/io/bazel/kotlin/builder/tasks/jvm/compilation_task.kt:44 | splitting the passthrough string loses nothing: joining the pieces with the delimiter gives it back |
| `Strings.SplitJoin` | src/main/kotlin/io/bazel/kotlin/builder/tasks/jvm/compilation_task.kt:44 | the converse: delimiter-free pieces, joined and split again, are unchanged |
| `JvmSources.SuffixesExclusive` | src/main/kotlin/io/bazel/kotlin/builder/tasks/jvm/compilation_task.kt:179-181 | no path ends in both `.kt` and `.java` |
| `JvmSources.Classify` | src/main/kotlin/io/bazel/kotlin/builder/tasks/jvm/compilation_task.kt:179-181 | Kotlin iff the path ends in `.kt`, Java iff it ends in `.java`, dropped iff it ends in neither |
| `JvmSources.OfKind` | src/main/kotlin/io/bazel/kotlin/builder/tasks/jvm/compilation_task.kt:179-181 | never keeps more paths than were discovered (which paths it keeps is `OfKindMember`) |
| `JvmSources.OfKindConcat` | src/main/kotlin/io/bazel/kotlin/builder/tasks/jvm/compilation_task.kt:179-181 | filtering distributes over concatenation: discovery order is kept |
| `JvmSources.OfKindCount` | src/main/kotlin/io/bazel/kotlin/builder/tasks/jvm/compilation_task.kt:179-181 | a path of the kind is kept as often as it was discovered; any other path never |
| `JvmSources.OfKindPartition` | src/main/kotlin/io/bazel/kotlin/builder/tasks/jvm/compilation_task.kt:179-181 | the Kotlin, Java and dropped bins together are exactly the discovered paths (as a multiset): each path lands in one bin |
| `JvmSources.OfKindMember` | src/main/kotlin/io/bazel/kotlin/builder/tasks/jvm/compilation_task.kt:179-181 | a path is kept for a kind iff it was discovered and has that kind |
| `TaskModel.TaskBuilder.constructor` | src/main/kotlin/io/bazel/kotlin/builder/tasks/jvm/compilation_task.kt:187 | `toBuilder()` starts from the descriptor as it is |
| `TaskModel.TaskBuilder.AddKotlinSource` | src/main/kotlin/io/bazel/kotlin/builder/tasks/jvm/compilation_task.kt:180 | appends one path to the Kotlin sources and changes nothing else |
| `TaskModel.TaskBuilder.AddJavaSource` | src/main/kotlin/io/bazel/kotlin/builder/tasks/jvm/compilation_task.kt:181 | appends one path to the Java sources and changes nothing else |
| `TaskModel.TaskBuilder.Build` | src/main/kotlin/io/bazel/kotlin/builder/tasks/jvm/compilation_task.kt:189 | `build()` returns the descriptor as built so far |
| `CompilationTask.BaseArgs` | src/main/kotlin/io/bazel/kotlin/builder/tasks/jvm/compilation_task.kt:46-53 | the tokens in order: `-cp`, the joined classpath only if there is one, then the api-version, language-version, jvm-target and module-name pairs, each one absent when its value is empty |
| `CompilationTask.CommonArgs` | src/main/kotlin/io/bazel/kotlin/builder/tasks/jvm/compilation_task.kt:39-44 | the base tokens, then one friend-paths token iff there are friend paths, then `-d` and the classes directory (if set), then the space-split passthrough pieces (none for an empty string) |
| `CompilationTask.CompileKotlinArgs` | src/main/kotlin/io/bazel/kotlin/builder/tasks/jvm/compilation_task.kt:141-144 | the compiler's tokens are the common arguments, then the Java sources, then the Kotlin sources |
| `CompilationTask.KaptArgs` | src/main/kotlin/io/bazel/kotlin/builder/tasks/jvm/compilation_task.kt:98-101 | the kapt tokens are the common arguments, then the encoder's plugin arguments, then the Kotlin sources, then the Java sources |
| `CompilationTask.InvocationsShareSources` | src/main/kotlin/io/bazel/kotlin/builder/tasks/jvm/compilation_task.kt:141-144 | both invocations extend the common arguments, and their source operands are the same multiset in different orders |
| `CompilationTask.FriendPathsPlacement` | src/main/kotlin/io/bazel/kotlin/builder/tasks/jvm/compilation_task.kt:40-42 | with a classes directory set, the token right after the base arguments is the friend-paths token iff there are friend paths |
| `CompilationTask.PassthroughTokens` | src/main/kotlin/io/bazel/kotlin/builder/tasks/jvm/compilation_task.kt:44 | a non-empty passthrough string ends the common arguments as its space-free pieces, which join back to the string |
| `CompilationTask.CommonArgsValues` | src/main/kotlin/io/bazel/kotlin/builder/tasks/jvm/compilation_task.kt:39-53 | when no classpath entry or toolchain/module value starts with `-`: each option a reader looks up in the common arguments (`-cp`, the four toolchain/module options, `-d`) yields the descriptor's own value, and an option with an empty value is absent from the base arguments; the lemma also requires every classpath entry to be non-empty |
| `CompilationTask.BareClasspathFlag` | src/main/kotlin/io/bazel/kotlin/builder/tasks/jvm/compilation_task.kt:46-50 | with an empty classpath `-cp` is still emitted and is followed directly by `-api-version`, so a reader looking up `-cp` gets the string `-api-version` |
| `CompilationTask.ExpandWithSources` | src/main/kotlin/io/bazel/kotlin/builder/tasks/jvm/compilation_task.kt:177-190 | copying into a builder and adding each discovered path by kind gives exactly `Expanded(t, sources)` |
| `CompilationTask.ExpandWithSourceJarSources` | src/main/kotlin/io/bazel/kotlin/builder/tasks/jvm/compilation_task.kt:152-163 | the descriptor itself when there are no source jars, otherwise the descriptor expanded with the extracted sources |
| `CompilationTask.ExpandWithGeneratedSources` | src/main/kotlin/io/bazel/kotlin/builder/tasks/jvm/compilation_task.kt:169-175 | the descriptor expanded with the files found under the generated-sources directory |
| `CompilationTask.RunAnnotationProcessors` | src/main/kotlin/io/bazel/kotlin/builder/tasks/jvm/compilation_task.kt:88-116 | no kapt invocation iff there are no processors, and then the descriptor is unchanged; otherwise kapt gets `KaptArgs` and the result is the original descriptor expanded with the generated sources |
| `CompilationTask.ExpandedAppendOnly` | src/main/kotlin/io/bazel/kotlin/builder/tasks/jvm/compilation_task.kt:177-190 | the old Kotlin and Java lists are prefixes of the new ones, the added parts are the discovered paths of each kind, and every other field is unchanged |
| `CompilationTask.ExpandedPlacement` | src/main/kotlin/io/bazel/kotlin/builder/tasks/jvm/compilation_task.kt:179-181 | each discovered path is among the added Kotlin (Java) sources iff its kind is Kotlin (Java) |
| `CompilationTask.ExpandedCounts` | src/main/kotlin/io/bazel/kotlin/builder/tasks/jvm/compilation_task.kt:177-182 | each list's occurrence count of a path grows by its discovery count exactly when the path has that list's kind |
| `CompilationTask.ExpandedTwice` | src/main/kotlin/io/bazel/kotlin/builder/tasks/jvm/compilation_task.kt:177-182 | two expansions in a row equal one over the concatenated discoveries |
| `CompilationTask.ExpandedRepeated` | src/main/kotlin/io/bazel/kotlin/builder/tasks/jvm/compilation_task.kt:177-182 | expansion is not idempotent: running the same expansion twice adds each discovered Kotlin (Java) path twice to the Kotlin (Java) sources |
| `CompilationTask.WellClassifiedDisjoint` | src/main/kotlin/io/bazel/kotlin/builder/tasks/jvm/compilation_task.kt:179-181 | a descriptor whose Kotlin list holds only `.kt` paths and Java list only `.java` paths has disjoint lists |
| `CompilationTask.ExpandedWellClassified` | src/main/kotlin/io/bazel/kotlin/builder/tasks/jvm/compilation_task.kt:177-182 | expansion keeps every Kotlin source `.kt` and every Java source `.java` |
| `CompilationTask.GeneratedSourcesCompiled` | src/main/kotlin/io/bazel/kotlin/builder/tasks/jvm/compilation_task.kt:112 | after the processor stage, every generated Kotlin or Java file is among the compiler invocation's source operands, the tokens after the common arguments |
| `CompilationTask.ProduceSourceJar` | src/main/kotlin/io/bazel/kotlin/builder/tasks/jvm/compilation_task.kt:65-86 | fails iff the output exists (checked first, `FileAlreadyExists`) or there are source jars and `_srcjars` does not exist (`SourceJarsNotExpanded`); otherwise hands over the Java sources followed by the Kotlin sources |
| `CompilationTask.SourceJarContents` | src/main/kotlin/io/bazel/kotlin/builder/tasks/jvm/compilation_task.kt:76-82 | each path is handed to the source-jar creator as often as it is listed as a source; in a well-classified descriptor no path that ends in neither `.kt` nor `.java` (a `.srcjar`, for example) is handed over |
| `Scenarios.FooCompileArgs` | src/main/kotlin/io/bazel/kotlin/builder/tasks/jvm/compilation_task.kt:141-144 | a one-file descriptor compiles with `-cp a:b -api-version … -module-name foo -d classes Foo.kt` exactly |
| `Scenarios.BarFromSourceJar` | src/main/kotlin/io/bazel/kotlin/builder/tasks/jvm/compilation_task.kt:152-163 | a jar holding `Bar.kt` and a manifest adds only `Bar.kt`, after the existing Kotlin sources |
| `Scenarios.GeneratedOnce` | src/main/kotlin/io/bazel/kotlin/builder/tasks/jvm/compilation_task.kt:169-182 | a Java file generated once and absent before is a Java source exactly once afterwards, and its Kotlin count is unchanged (it is not among the added Kotlin sources) |

## Left out

- `CompilationArgs` is not part of this model. Its behaviour is the assumption stated above. Paths reach the formatter as the strings the descriptor holds; any conversion to `Path` objects or to absolute paths inside `absolutePaths` is not modelled.
- `CompilationTask.SourceJarContents`: the model stops at the list of paths handed to `creator.addSources`. How the creator maps, deduplicates or writes them is not modelled, and neither is the `Paths.get(p)` normalisation at line 81.
- `partitionJvmSources`, `IS_JVM_SOURCE_FILE` and the extractor's file filter are not part of this model. The suffix policy above is an assumption; the extractor's own filtering is subsumed by it.
- `ensureDirectories` in `preProcessingSteps` (lines 56-61) creates directories on disk. Directory existence appears only as the boolean argument of `ProduceSourceJar`. The composition of that step with source-jar expansion (line 62) is left out; `ExpandWithSourceJarSources` models the expansion step on its own.
- Extraction of source jars and the walk of the generated-sources directory (lines 156-162, 171-174) are file-system work. Their results are input sequences.
- `createOutputJar` (lines 121-131) and `SourceJarCreator.execute` are jar writing at the byte level. `Files.createFile` is reduced to "fails when the file exists".
- `context.executeCompilerTask`, `compiler::compile`, `context.execute`, `whenTracing` and `printLines` are process invocation and tracing. The model returns the token list each invocation would receive; compiler failure and its diagnostics are not modelled.
- `KotlinCompilerPluginArgsEncoder.encode` is foreign code. Its output is the `pluginArgs` parameter.
- `bazelRuleKind` and the jar-owner metadata are used only by `createOutputJar`, which is left out.
- `File.pathSeparator` and `X_FRIENDS_PATH_SEPARATOR` are platform and builder constants defined elsewhere. They are fields of `Platform`.
