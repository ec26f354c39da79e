/**
 * The compilation task pipeline of the Kotlin JVM builder: argument
 * assembly for the compiler and for the annotation-processing (kapt) pass,
 * folding discovered sources into the descriptor, the processor stage's
 * identity case, and the contents of the output source jar.
 *
 * Everything the source does through the file system or another process is
 * a parameter here: the platform separators, the plugin arguments the
 * encoder produces, the paths a source-jar extraction or a walk of the
 * generated-sources directory finds, and whether a file or directory exists.
 */
module CompilationTask {
  import opened Wrappers
  import opened Strings
  import opened CompilationArgs
  import opened TaskModel
  import opened JvmSources

  /** `File.pathSeparator` and `X_FRIENDS_PATH_SEPARATOR`. */
  datatype Platform = Platform(pathSeparator: string, friendPathsSeparator: string)

  /** The tokens `flag(name, value)` contributes. */
  function FlagPair(name: string, value: string): seq<string>
  {
    if value == "" then [] else [name, value]
  }

  /** The single value token of `-cp`: the classpath joined by the path separator. */
  function ClasspathToken(t: JvmCompilationTask, p: Platform): string
  {
    Join(t.inputs.classpath, p.pathSeparator)
  }

  /** The single friend-paths token. */
  function FriendPathsToken(t: JvmCompilationTask, p: Platform): string
  {
    "-Xfriend-paths=" + Join(t.info.friendPaths, p.friendPathsSeparator)
  }

  // ---------------------------------------------------------------------------
  // Argument assembly
  // ---------------------------------------------------------------------------

  /**
   * `baseArgs`: `-cp` always, then the joined classpath when there is one,
   * then the api-version, language-version, jvm-target and module-name
   * pairs, each left out when its value is empty.
   */
  function BaseArgs(t: JvmCompilationTask, p: Platform): (r: Args)
    ensures r.tokens ==
      ["-cp"]
      + (if t.inputs.classpath == [] then [] else [ClasspathToken(t, p)])
      + FlagPair("-api-version", t.info.toolchainInfo.apiVersion)
      + FlagPair("-language-version", t.info.toolchainInfo.languageVersion)
      + FlagPair("-jvm-target", t.info.toolchainInfo.jvmTarget)
      + FlagPair("-module-name", t.info.moduleName)
  {
    var tc := t.info.toolchainInfo;
    var cp := Empty()
      .Flag("-cp")
      .AbsolutePaths(t.inputs.classpath, (ps: seq<string>) => Join(ps, p.pathSeparator));
    assert cp.tokens == ["-cp"] + (if t.inputs.classpath == [] then [] else [ClasspathToken(t, p)]);
    var api := cp.FlagValue("-api-version", tc.apiVersion);
    assert api.tokens == cp.tokens + FlagPair("-api-version", tc.apiVersion);
    var lang := api.FlagValue("-language-version", tc.languageVersion);
    assert lang.tokens == api.tokens + FlagPair("-language-version", tc.languageVersion);
    var jvm := lang.FlagValue("-jvm-target", tc.jvmTarget);
    assert jvm.tokens == lang.tokens + FlagPair("-jvm-target", tc.jvmTarget);
    jvm.FlagValue("-module-name", t.info.moduleName)
  }

  /**
   * `commonArgs`: the base arguments, then the friend-paths token exactly
   * when there are friend paths, then `-d` and the classes directory, then
   * the passthrough flags split on single spaces (nothing when empty).
   */
  function CommonArgs(t: JvmCompilationTask, p: Platform): (r: Args)
    ensures r.tokens ==
      BaseArgs(t, p).tokens
      + (if t.info.friendPaths == [] then [] else [FriendPathsToken(t, p)])
      + FlagPair("-d", t.directories.classes)
      + (if t.info.passthroughFlags == "" then [] else Split(t.info.passthroughFlags, ' '))
  {
    BaseArgs(t, p)
      .AbsolutePaths(t.info.friendPaths,
                     (fs: seq<string>) => "-Xfriend-paths=" + Join(fs, p.friendPathsSeparator))
      .FlagValue("-d", t.directories.classes)
      .GivenNotEmpty(t.info.passthroughFlags, (s: string) => Split(s, ' '))
  }

  /** The token list of `compileKotlin`: the common arguments, then the Java sources, then the Kotlin sources. */
  function CompileKotlinArgs(t: JvmCompilationTask, p: Platform): (r: seq<string>)
    ensures r == CommonArgs(t, p).tokens + t.inputs.javaSources + t.inputs.kotlinSources
  {
    CommonArgs(t, p)
      .Values(t.inputs.javaSources)
      .Values(t.inputs.kotlinSources)
      .tokens  // `list()`
  }

  /**
   * The token list of the kapt pass: the common arguments, then the plugin
   * arguments the encoder produced, then the Kotlin sources, then the Java sources.
   */
  function KaptArgs(t: JvmCompilationTask, p: Platform, pluginArgs: seq<string>): (r: seq<string>)
    ensures r == CommonArgs(t, p).tokens + pluginArgs + t.inputs.kotlinSources + t.inputs.javaSources
  {
    CommonArgs(t, p)
      .Values(pluginArgs)
      .Values(t.inputs.kotlinSources)
      .Values(t.inputs.javaSources)
      .tokens  // `list()`
  }

  /** Both invocations start with the common arguments and pass the same source files, only in another order. */
  lemma InvocationsShareSources(t: JvmCompilationTask, p: Platform, pluginArgs: seq<string>)
    ensures CommonArgs(t, p).tokens <= CompileKotlinArgs(t, p)
    ensures CommonArgs(t, p).tokens + pluginArgs <= KaptArgs(t, p, pluginArgs)
    ensures multiset(CompileKotlinArgs(t, p)[|CommonArgs(t, p).tokens|..])
         == multiset(KaptArgs(t, p, pluginArgs)[|CommonArgs(t, p).tokens| + |pluginArgs|..])
  {
    var common := CommonArgs(t, p).tokens;
    var java, kotlin := t.inputs.javaSources, t.inputs.kotlinSources;
    assert CompileKotlinArgs(t, p) == common + (java + kotlin);
    assert CompileKotlinArgs(t, p)[|common|..] == java + kotlin;
    assert KaptArgs(t, p, pluginArgs) == (common + pluginArgs) + (kotlin + java);
    assert KaptArgs(t, p, pluginArgs)[|common| + |pluginArgs|..] == kotlin + java;
  }

  /** The friend-paths token sits right after the base arguments exactly when there are friend paths. */
  lemma FriendPathsPlacement(t: JvmCompilationTask, p: Platform)
    requires t.directories.classes != ""
    ensures var base, common := BaseArgs(t, p).tokens, CommonArgs(t, p).tokens;
      && |base| < |common|
      && (t.info.friendPaths != [] <==> common[|base|] == FriendPathsToken(t, p))
  {
    var base, common := BaseArgs(t, p).tokens, CommonArgs(t, p).tokens;
    if t.info.friendPaths == [] {
      assert common[|base|] == "-d";
      assert FriendPathsToken(t, p)[1] == 'X';
    }
  }

  /** The passthrough string reaches the compiler as its space-free pieces, and nothing is lost. */
  lemma PassthroughTokens(t: JvmCompilationTask, p: Platform)
    requires t.info.passthroughFlags != ""
    ensures var common := CommonArgs(t, p).tokens;
      var pieces := common[|common| - |Split(t.info.passthroughFlags, ' ')|..];
      && pieces == Split(t.info.passthroughFlags, ' ')
      && Join(pieces, " ") == t.info.passthroughFlags
      && forall i :: 0 <= i < |pieces| ==> ' ' !in pieces[i]
  {
    JoinSplit(t.info.passthroughFlags, ' ');
  }

  // ---------------------------------------------------------------------------
  // Reading the arguments back
  // ---------------------------------------------------------------------------

  /** How a command line reader finds an option: the token after its first occurrence. */
  function ValueOf(tokens: seq<string>, name: string): Option<string>
  {
    if |tokens| < 2 then None
    else if tokens[0] == name then Some(tokens[1])
    else ValueOf(tokens[1..], name)
  }

  lemma {:induction false} ValueOfAfter(prefix: seq<string>, name: string, v: string, rest: seq<string>)
    requires name !in prefix
    ensures ValueOf(prefix + [name, v] + rest, name) == Some(v)
  {
    if |prefix| > 0 {
      ValueOfAfter(prefix[1..], name, v, rest);
      assert (prefix + [name, v] + rest)[1..] == prefix[1..] + [name, v] + rest;
    }
  }

  predicate NotFlag(s: string)
  {
    s == "" || s[0] != '-'
  }

  /** No classpath entry and no toolchain or module value looks like a flag. */
  predicate PlainValues(t: JvmCompilationTask)
  {
    && (forall i :: 0 <= i < |t.inputs.classpath| ==> t.inputs.classpath[i] != "" && t.inputs.classpath[i][0] != '-')
    && NotFlag(t.info.toolchainInfo.apiVersion)
    && NotFlag(t.info.toolchainInfo.languageVersion)
    && NotFlag(t.info.toolchainInfo.jvmTarget)
    && NotFlag(t.info.moduleName)
  }

  lemma ClasspathTokenNotFlag(t: JvmCompilationTask, p: Platform)
    requires PlainValues(t)
    requires t.inputs.classpath != []
    ensures NotFlag(ClasspathToken(t, p))
  {
    assert t.inputs.classpath[0] <= ClasspathToken(t, p);
  }

  /**
   * The token list of `CommonArgs` cut into its nine pieces, in order; the
   * first six make up `BaseArgs`. The cut exists only for the read-back
   * lemmas below, which reason about one piece at a time.
   */
  function CommonPieces(t: JvmCompilationTask, p: Platform): seq<seq<string>>
  {
    var tc := t.info.toolchainInfo;
    [ ["-cp"],
      if t.inputs.classpath == [] then [] else [ClasspathToken(t, p)],
      FlagPair("-api-version", tc.apiVersion),
      FlagPair("-language-version", tc.languageVersion),
      FlagPair("-jvm-target", tc.jvmTarget),
      FlagPair("-module-name", t.info.moduleName),
      if t.info.friendPaths == [] then [] else [FriendPathsToken(t, p)],
      FlagPair("-d", t.directories.classes),
      if t.info.passthroughFlags == "" then [] else Split(t.info.passthroughFlags, ' ') ]
  }

  /** The concatenation of `pieces[lo..hi]`. */
  function Concat(pieces: seq<seq<string>>, lo: nat, hi: nat): seq<string>
    requires lo <= hi <= |pieces|
    decreases hi - lo
  {
    if lo == hi then [] else pieces[lo] + Concat(pieces, lo + 1, hi)
  }

  lemma {:induction false} ConcatSplit(pieces: seq<seq<string>>, lo: nat, mid: nat, hi: nat)
    requires lo <= mid <= hi <= |pieces|
    ensures Concat(pieces, lo, hi) == Concat(pieces, lo, mid) + Concat(pieces, mid, hi)
    decreases mid - lo
  {
    if lo < mid {
      ConcatSplit(pieces, lo + 1, mid, hi);
    }
  }

  lemma {:induction false} NotInConcat(pieces: seq<seq<string>>, lo: nat, hi: nat, x: string)
    requires lo <= hi <= |pieces|
    requires forall i :: lo <= i < hi ==> x !in pieces[i]
    ensures x !in Concat(pieces, lo, hi)
    decreases hi - lo
  {
    if lo < hi {
      NotInConcat(pieces, lo + 1, hi, x);
    }
  }

  /**
   * Piece `k` read back from the whole concatenation: when no earlier piece
   * mentions its name the reader finds its value, and when no later piece
   * before `hi` mentions it either, the name occurs before `hi` exactly when
   * the value is not empty.
   */
  lemma PieceValue(pieces: seq<seq<string>>, k: nat, hi: nat, name: string, value: string)
    requires k < hi <= |pieces|
    requires pieces[k] == FlagPair(name, value)
    requires name !in Concat(pieces, 0, k)
    requires name !in Concat(pieces, k + 1, hi)
    ensures value != "" ==> ValueOf(Concat(pieces, 0, |pieces|), name) == Some(value)
    ensures name in Concat(pieces, 0, hi) <==> value != ""
  {
    var before, after := Concat(pieces, 0, k), Concat(pieces, k + 1, |pieces|);
    ConcatSplit(pieces, 0, k, |pieces|);
    assert Concat(pieces, k, |pieces|) == pieces[k] + after;
    ConcatSplit(pieces, 0, k, hi);
    assert Concat(pieces, k, hi) == pieces[k] + Concat(pieces, k + 1, hi);
    if value != "" {
      assert Concat(pieces, 0, |pieces|) == before + [name, value] + after;
      ValueOfAfter(before, name, value, after);
    }
  }

  /** A nine-piece concatenation unfolded, split after its sixth piece (where `BaseArgs` ends). */
  lemma {:induction false} ConcatNinePieces(pieces: seq<seq<string>>)
    requires |pieces| == 9
    ensures Concat(pieces, 0, 6) == pieces[0] + pieces[1] + pieces[2] + pieces[3] + pieces[4] + pieces[5]
    ensures Concat(pieces, 0, 9) == Concat(pieces, 0, 6) + pieces[6] + pieces[7] + pieces[8]
  {
    assert Concat(pieces, 5, 6) == pieces[5];
    assert Concat(pieces, 4, 6) == pieces[4] + pieces[5];
    assert Concat(pieces, 3, 6) == pieces[3] + pieces[4] + pieces[5];
    assert Concat(pieces, 2, 6) == pieces[2] + pieces[3] + pieces[4] + pieces[5];
    assert Concat(pieces, 1, 6) == pieces[1] + pieces[2] + pieces[3] + pieces[4] + pieces[5];
    assert Concat(pieces, 8, 9) == pieces[8];
    assert Concat(pieces, 7, 9) == pieces[7] + pieces[8];
    assert Concat(pieces, 6, 9) == pieces[6] + pieces[7] + pieces[8];
    ConcatSplit(pieces, 0, 6, 9);
  }

  lemma CommonArgsArePieces(t: JvmCompilationTask, p: Platform)
    ensures BaseArgs(t, p).tokens == Concat(CommonPieces(t, p), 0, 6)
    ensures CommonArgs(t, p).tokens == Concat(CommonPieces(t, p), 0, 9)
  {
    ConcatNinePieces(CommonPieces(t, p));
  }

  lemma ApiVersionRead(t: JvmCompilationTask, p: Platform)
    requires PlainValues(t)
    ensures var v := t.info.toolchainInfo.apiVersion;
      && (v != "" <==> "-api-version" in BaseArgs(t, p).tokens)
      && (v != "" ==> ValueOf(CommonArgs(t, p).tokens, "-api-version") == Some(v))
  {
    var ps, name := CommonPieces(t, p), "-api-version";
    if t.inputs.classpath != [] {
      ClasspathTokenNotFlag(t, p);
    }
    assert name !in ps[0];
    assert name !in ps[1];
    assert name !in ps[3];
    assert name !in ps[4];
    assert name !in ps[5];
    NotInConcat(ps, 0, 2, name);
    NotInConcat(ps, 3, 6, name);
    PieceValue(ps, 2, 6, name, t.info.toolchainInfo.apiVersion);
    CommonArgsArePieces(t, p);
  }

  lemma LanguageVersionRead(t: JvmCompilationTask, p: Platform)
    requires PlainValues(t)
    ensures var v := t.info.toolchainInfo.languageVersion;
      && (v != "" <==> "-language-version" in BaseArgs(t, p).tokens)
      && (v != "" ==> ValueOf(CommonArgs(t, p).tokens, "-language-version") == Some(v))
  {
    var ps, name := CommonPieces(t, p), "-language-version";
    if t.inputs.classpath != [] {
      ClasspathTokenNotFlag(t, p);
    }
    assert name !in ps[0];
    assert name !in ps[1];
    assert name !in ps[2];
    assert name !in ps[4];
    assert name !in ps[5];
    NotInConcat(ps, 0, 3, name);
    NotInConcat(ps, 4, 6, name);
    PieceValue(ps, 3, 6, name, t.info.toolchainInfo.languageVersion);
    CommonArgsArePieces(t, p);
  }

  lemma JvmTargetRead(t: JvmCompilationTask, p: Platform)
    requires PlainValues(t)
    ensures var v := t.info.toolchainInfo.jvmTarget;
      && (v != "" <==> "-jvm-target" in BaseArgs(t, p).tokens)
      && (v != "" ==> ValueOf(CommonArgs(t, p).tokens, "-jvm-target") == Some(v))
  {
    var ps, name := CommonPieces(t, p), "-jvm-target";
    if t.inputs.classpath != [] {
      ClasspathTokenNotFlag(t, p);
    }
    assert name !in ps[0];
    assert name !in ps[1];
    assert name !in ps[2];
    assert name !in ps[3];
    assert name !in ps[5];
    NotInConcat(ps, 0, 4, name);
    NotInConcat(ps, 5, 6, name);
    PieceValue(ps, 4, 6, name, t.info.toolchainInfo.jvmTarget);
    CommonArgsArePieces(t, p);
  }

  lemma ModuleNameRead(t: JvmCompilationTask, p: Platform)
    requires PlainValues(t)
    ensures var v := t.info.moduleName;
      && (v != "" <==> "-module-name" in BaseArgs(t, p).tokens)
      && (v != "" ==> ValueOf(CommonArgs(t, p).tokens, "-module-name") == Some(v))
  {
    var ps, name := CommonPieces(t, p), "-module-name";
    if t.inputs.classpath != [] {
      ClasspathTokenNotFlag(t, p);
    }
    assert name[1] != "-api-version"[1];
    assert name !in ps[0];
    assert name !in ps[1];
    assert name !in ps[2];
    assert name !in ps[3];
    assert name !in ps[4];
    NotInConcat(ps, 0, 5, name);
    PieceValue(ps, 5, 6, name, t.info.moduleName);
    CommonArgsArePieces(t, p);
  }

  lemma ClassesDirRead(t: JvmCompilationTask, p: Platform)
    requires PlainValues(t)
    ensures var v := t.directories.classes;
      v != "" ==> ValueOf(CommonArgs(t, p).tokens, "-d") == Some(v)
  {
    var ps, name := CommonPieces(t, p), "-d";
    if t.inputs.classpath != [] {
      ClasspathTokenNotFlag(t, p);
    }
    assert FriendPathsToken(t, p)[1] == 'X';
    assert name !in ps[0];
    assert name !in ps[1];
    assert name !in ps[2];
    assert name !in ps[3];
    assert name !in ps[4];
    assert name !in ps[5];
    assert name !in ps[6];
    NotInConcat(ps, 0, 7, name);
    PieceValue(ps, 7, 8, name, t.directories.classes);
    CommonArgsArePieces(t, p);
  }

  /**
   * With plain values, every option the compiler reads back from the common
   * arguments is the descriptor's own value, and a toolchain or module option
   * whose value is empty does not occur among the base arguments at all.
   */
  lemma CommonArgsValues(t: JvmCompilationTask, p: Platform)
    requires PlainValues(t)
    ensures var common, base := CommonArgs(t, p).tokens, BaseArgs(t, p).tokens;
      var tc := t.info.toolchainInfo;
      && (t.inputs.classpath != [] ==> ValueOf(common, "-cp") == Some(ClasspathToken(t, p)))
      && (tc.apiVersion != "" <==> "-api-version" in base)
      && (tc.apiVersion != "" ==> ValueOf(common, "-api-version") == Some(tc.apiVersion))
      && (tc.languageVersion != "" <==> "-language-version" in base)
      && (tc.languageVersion != "" ==> ValueOf(common, "-language-version") == Some(tc.languageVersion))
      && (tc.jvmTarget != "" <==> "-jvm-target" in base)
      && (tc.jvmTarget != "" ==> ValueOf(common, "-jvm-target") == Some(tc.jvmTarget))
      && (t.info.moduleName != "" <==> "-module-name" in base)
      && (t.info.moduleName != "" ==> ValueOf(common, "-module-name") == Some(t.info.moduleName))
      && (t.directories.classes != "" ==> ValueOf(common, "-d") == Some(t.directories.classes))
  {
    if t.inputs.classpath != [] {
      var ps := CommonPieces(t, p);
      CommonArgsArePieces(t, p);
      ConcatSplit(ps, 0, 2, 9);
      assert Concat(ps, 0, 2) == ["-cp", ClasspathToken(t, p)];
      ValueOfAfter([], "-cp", ClasspathToken(t, p), Concat(ps, 2, 9));
    }
    ApiVersionRead(t, p);
    LanguageVersionRead(t, p);
    JvmTargetRead(t, p);
    ModuleNameRead(t, p);
    ClassesDirRead(t, p);
  }

  /**
   * `-cp` is emitted even when the classpath is empty. A reader then takes
   * the next token as its value: with an api version set, that is the
   * `-api-version` flag name itself.
   */
  lemma BareClasspathFlag(t: JvmCompilationTask, p: Platform)
    requires t.inputs.classpath == []
    requires t.info.toolchainInfo.apiVersion != ""
    ensures CommonArgs(t, p).tokens[..2] == ["-cp", "-api-version"]
    ensures ValueOf(CommonArgs(t, p).tokens, "-cp") == Some("-api-version")
  {
    var ps := CommonPieces(t, p);
    CommonArgsArePieces(t, p);
    ConcatSplit(ps, 0, 3, 9);
    assert Concat(ps, 0, 3) == ["-cp", "-api-version", t.info.toolchainInfo.apiVersion];
  }

  // ---------------------------------------------------------------------------
  // Descriptor expansion
  // ---------------------------------------------------------------------------

  /**
   * The descriptor after folding in the discovered paths: the Kotlin-kind
   * ones appended to the Kotlin sources and the Java-kind ones to the Java
   * sources, each in discovery order; other paths are dropped.
   */
  function Expanded(t: JvmCompilationTask, discovered: seq<string>): JvmCompilationTask
  {
    t.(inputs := t.inputs.(
      kotlinSources := t.inputs.kotlinSources + OfKind(discovered, Kotlin),
      javaSources := t.inputs.javaSources + OfKind(discovered, Java)))
  }

  /**
   * `expandWithSources` through `updateBuilder`: copy the descriptor into a
   * builder, hand each discovered path to the adder its kind selects, build.
   */
  method ExpandWithSources(t: JvmCompilationTask, sources: seq<string>) returns (r: JvmCompilationTask)
    ensures r == Expanded(t, sources)
  {
    var builder := new TaskBuilder(t);
    var i := 0;
    while i < |sources|
      invariant 0 <= i <= |sources|
      invariant builder.task == Expanded(t, sources[..i])
    {
      var path := sources[i];
      assert sources[..i + 1] == sources[..i] + [path];
      match Classify(path) {
        case Kotlin => builder.AddKotlinSource(path);
        case Java => builder.AddJavaSource(path);
        case Other =>
      }
      i := i + 1;
    }
    assert sources[..i] == sources;
    r := builder.Build();
  }

  /**
   * `expandWithSourceJarSources`: the descriptor itself when there are no
   * source jars, otherwise the descriptor expanded with the sources the
   * extraction of those jars produced.
   */
  method ExpandWithSourceJarSources(t: JvmCompilationTask, extracted: seq<string>) returns (r: JvmCompilationTask)
    ensures t.inputs.sourceJars == [] ==> r == t
    ensures t.inputs.sourceJars != [] ==> r == Expanded(t, extracted)
  {
    if t.inputs.sourceJars == [] {
      r := t;
    } else {
      r := ExpandWithSources(t, extracted);
    }
  }

  /** `expandWithGeneratedSources`: the descriptor expanded with the files found under the generated-sources directory. */
  method ExpandWithGeneratedSources(t: JvmCompilationTask, walked: seq<string>) returns (r: JvmCompilationTask)
    ensures r == Expanded(t, walked)
  {
    r := ExpandWithSources(t, walked);
  }

  /**
   * `runAnnotationProcessors`: with no processors, no kapt invocation and
   * the descriptor unchanged; otherwise the kapt pass is invoked with
   * `KaptArgs` and the original descriptor is expanded with the generated sources.
   */
  method RunAnnotationProcessors(t: JvmCompilationTask, p: Platform, pluginArgs: seq<string>, generated: seq<string>)
    returns (kapt: Option<seq<string>>, r: JvmCompilationTask)
    ensures kapt.None? <==> t.inputs.processors == []
    ensures kapt.None? ==> r == t
    ensures kapt.Some? ==> kapt.value == KaptArgs(t, p, pluginArgs) && r == Expanded(t, generated)
  {
    if t.inputs.processors == [] {
      return None, t;
    }
    kapt := Some(KaptArgs(t, p, pluginArgs));
    r := ExpandWithGeneratedSources(t, generated);
  }

  /**
   * Expansion is append-only: the old lists are prefixes of the new ones,
   * the added parts are exactly the discovered paths of each kind, and no
   * other field changes.
   */
  lemma ExpandedAppendOnly(t: JvmCompilationTask, discovered: seq<string>)
    ensures var e := Expanded(t, discovered);
      && t.inputs.kotlinSources <= e.inputs.kotlinSources
      && t.inputs.javaSources <= e.inputs.javaSources
      && e.inputs.kotlinSources[|t.inputs.kotlinSources|..] == OfKind(discovered, Kotlin)
      && e.inputs.javaSources[|t.inputs.javaSources|..] == OfKind(discovered, Java)
      && e.inputs.sourceJars == t.inputs.sourceJars
      && e.inputs.classpath == t.inputs.classpath
      && e.inputs.processors == t.inputs.processors
      && e.outputs == t.outputs && e.directories == t.directories && e.info == t.info
  {
  }

  /** Each discovered path goes to the list its kind selects and to no other. */
  lemma ExpandedPlacement(t: JvmCompilationTask, discovered: seq<string>, j: nat)
    requires j < |discovered|
    ensures var e, x := Expanded(t, discovered), discovered[j];
      var addedKotlin := e.inputs.kotlinSources[|t.inputs.kotlinSources|..];
      var addedJava := e.inputs.javaSources[|t.inputs.javaSources|..];
      && (x in addedKotlin <==> Classify(x) == Kotlin)
      && (x in addedJava <==> Classify(x) == Java)
  {
    OfKindMember(discovered, Kotlin, discovered[j]);
    OfKindMember(discovered, Java, discovered[j]);
    ExpandedAppendOnly(t, discovered);
  }

  /**
   * Occurrence counts: a discovered Java (Kotlin) path occurs in the new
   * Java (Kotlin) list as often as before plus as often as it was
   * discovered; the other list's count does not change.
   */
  lemma ExpandedCounts(t: JvmCompilationTask, discovered: seq<string>, x: string)
    ensures var e := Expanded(t, discovered);
      && multiset(e.inputs.kotlinSources)[x] == multiset(t.inputs.kotlinSources)[x]
           + (if Classify(x) == Kotlin then multiset(discovered)[x] else 0)
      && multiset(e.inputs.javaSources)[x] == multiset(t.inputs.javaSources)[x]
           + (if Classify(x) == Java then multiset(discovered)[x] else 0)
  {
    OfKindCount(discovered, Kotlin, x);
    OfKindCount(discovered, Java, x);
  }

  /** Two expansions in a row are one expansion over both discoveries, in order. */
  lemma ExpandedTwice(t: JvmCompilationTask, first: seq<string>, second: seq<string>)
    ensures Expanded(Expanded(t, first), second) == Expanded(t, first + second)
  {
    var k, j := t.inputs.kotlinSources, t.inputs.javaSources;
    OfKindConcat(first, second, Kotlin);
    OfKindConcat(first, second, Java);
    calc {
      Expanded(Expanded(t, first), second).inputs;
      t.inputs.(kotlinSources := (k + OfKind(first, Kotlin)) + OfKind(second, Kotlin),
                javaSources := (j + OfKind(first, Java)) + OfKind(second, Java));
      { assert (k + OfKind(first, Kotlin)) + OfKind(second, Kotlin) == k + OfKind(first + second, Kotlin);
        assert (j + OfKind(first, Java)) + OfKind(second, Java) == j + OfKind(first + second, Java); }
      Expanded(t, first + second).inputs;
    }
  }

  /**
   * Expansion is not idempotent: running the same expansion twice adds every
   * discovered Kotlin or Java path twice.
   */
  lemma ExpandedRepeated(t: JvmCompilationTask, discovered: seq<string>, x: string)
    ensures var e := Expanded(Expanded(t, discovered), discovered);
      && multiset(e.inputs.kotlinSources)[x] == multiset(t.inputs.kotlinSources)[x]
           + (if Classify(x) == Kotlin then 2 * multiset(discovered)[x] else 0)
      && multiset(e.inputs.javaSources)[x] == multiset(t.inputs.javaSources)[x]
           + (if Classify(x) == Java then 2 * multiset(discovered)[x] else 0)
  {
    ExpandedTwice(t, discovered, discovered);
    ExpandedCounts(t, discovered + discovered, x);
    assert multiset(discovered + discovered)[x] == 2 * multiset(discovered)[x];
  }

  /**
   * The descriptor invariant that the Kotlin list holds only `.kt` paths and
   * the Java list only `.java` paths; it makes the two lists disjoint.
   */
  predicate WellClassified(t: JvmCompilationTask)
  {
    && (forall i :: 0 <= i < |t.inputs.kotlinSources| ==> Classify(t.inputs.kotlinSources[i]) == Kotlin)
    && (forall i :: 0 <= i < |t.inputs.javaSources| ==> Classify(t.inputs.javaSources[i]) == Java)
  }

  lemma WellClassifiedDisjoint(t: JvmCompilationTask)
    requires WellClassified(t)
    ensures multiset(t.inputs.kotlinSources) !! multiset(t.inputs.javaSources)
  {
    forall x | x in t.inputs.kotlinSources
      ensures x !in t.inputs.javaSources
    {
      var i :| 0 <= i < |t.inputs.kotlinSources| && t.inputs.kotlinSources[i] == x;
      assert Classify(x) == Kotlin;
    }
  }

  /** Expansion keeps the descriptor well classified. */
  lemma ExpandedWellClassified(t: JvmCompilationTask, discovered: seq<string>)
    requires WellClassified(t)
    ensures WellClassified(Expanded(t, discovered))
  {
    var e := Expanded(t, discovered);
    var k, kAdded := t.inputs.kotlinSources, OfKind(discovered, Kotlin);
    var j, jAdded := t.inputs.javaSources, OfKind(discovered, Java);
    forall i | 0 <= i < |e.inputs.kotlinSources|
      ensures Classify(e.inputs.kotlinSources[i]) == Kotlin
    {
      if i >= |k| {
        assert e.inputs.kotlinSources[i] == kAdded[i - |k|];
        OfKindMember(discovered, Kotlin, kAdded[i - |k|]);
      }
    }
    forall i | 0 <= i < |e.inputs.javaSources|
      ensures Classify(e.inputs.javaSources[i]) == Java
    {
      if i >= |j| {
        assert e.inputs.javaSources[i] == jAdded[i - |j|];
        OfKindMember(discovered, Java, jAdded[i - |j|]);
      }
    }
  }

  /**
   * After the processor stage, every generated Kotlin and Java file is among
   * the source operands of the compiler invocation, the tokens after the
   * common arguments.
   */
  lemma GeneratedSourcesCompiled(t: JvmCompilationTask, p: Platform, generated: seq<string>, j: nat)
    requires j < |generated|
    requires Classify(generated[j]) != Other
    ensures var e := Expanded(t, generated);
      generated[j] in CompileKotlinArgs(e, p)[|CommonArgs(e, p).tokens|..]
  {
    var e, x := Expanded(t, generated), generated[j];
    ExpandedPlacement(t, generated, j);
    ExpandedAppendOnly(t, generated);
    assert CompileKotlinArgs(e, p)[|CommonArgs(e, p).tokens|..] == e.inputs.javaSources + e.inputs.kotlinSources;
    if Classify(x) == Kotlin {
      assert x in e.inputs.kotlinSources;
    } else {
      assert x in e.inputs.javaSources;
    }
  }

  // ---------------------------------------------------------------------------
  // Source jar
  // ---------------------------------------------------------------------------

  datatype SourceJarError =
    | FileAlreadyExists   // `Files.createFile` on an output path that exists
    | SourceJarsNotExpanded  // the `check` that `<temp>/_srcjars` exists when there are source jars

  /**
   * `produceSourceJar`: the sources handed to the source-jar creator, in
   * order, or the error that aborts it. The output file is created before
   * the expansion check runs.
   */
  function ProduceSourceJar(t: JvmCompilationTask, outputExists: bool, scratchDirExists: bool)
    : (r: Result<seq<string>, SourceJarError>)
    ensures r.Failure? <==> outputExists || (t.inputs.sourceJars != [] && !scratchDirExists)
    ensures outputExists ==> r == Failure(FileAlreadyExists)
    ensures !outputExists && t.inputs.sourceJars != [] && !scratchDirExists ==> r == Failure(SourceJarsNotExpanded)
    ensures r.Success? ==>
      && |r.value| == |t.inputs.javaSources| + |t.inputs.kotlinSources|
      && r.value[..|t.inputs.javaSources|] == t.inputs.javaSources
      && r.value[|t.inputs.javaSources|..] == t.inputs.kotlinSources
  {
    if outputExists then Failure(FileAlreadyExists)
    else if !(t.inputs.sourceJars == [] || scratchDirExists) then Failure(SourceJarsNotExpanded)
    else Success(t.inputs.javaSources + t.inputs.kotlinSources)
  }

  /**
   * Each path is handed to the source-jar creator as often as it is listed
   * as a source; in a well-classified descriptor no path that ends in neither
   * `.kt` nor `.java` (a `.srcjar`, for example) is handed over.
   */
  lemma SourceJarContents(t: JvmCompilationTask, outputExists: bool, scratchDirExists: bool, x: string)
    requires ProduceSourceJar(t, outputExists, scratchDirExists).Success?
    ensures var added := ProduceSourceJar(t, outputExists, scratchDirExists).value;
      && multiset(added)[x] == multiset(t.inputs.javaSources)[x] + multiset(t.inputs.kotlinSources)[x]
      && (WellClassified(t) && Classify(x) == Other ==> x !in added)
  {
    var added := ProduceSourceJar(t, outputExists, scratchDirExists).value;
    assert added == t.inputs.javaSources + t.inputs.kotlinSources;
    if WellClassified(t) && Classify(x) == Other {
      assert forall i :: 0 <= i < |t.inputs.javaSources| ==> t.inputs.javaSources[i] != x;
      assert forall i :: 0 <= i < |t.inputs.kotlinSources| ==> t.inputs.kotlinSources[i] != x;
    }
  }
}
