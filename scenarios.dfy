/** Lemmas about concrete descriptors. */
module Scenarios {
  import opened Strings
  import opened TaskModel
  import opened JvmSources
  import opened CompilationTask

  /** One Kotlin source, no Java, no jars, no processors, no friends, no passthrough flags. */
  function FooTask(): JvmCompilationTask
  {
    JvmCompilationTask(
      Inputs(["Foo.kt"], [], [], ["lib/a.jar", "lib/b.jar"], []),
      Outputs("out/foo.jar", "out/foo-sources.jar"),
      Directories("tmp", "tmp/generated", "tmp/generated-classes", "tmp/classes"),
      Info("//pkg:foo", "kt_jvm_library", "foo", ToolchainInfo("1.4", "1.4", "1.8"), "", []))
  }

  /** The compiler invocation of the one-source descriptor, token by token. */
  lemma FooCompileArgs()
    ensures CompileKotlinArgs(FooTask(), Platform(":", ","))
         == ["-cp", "lib/a.jar:lib/b.jar",
             "-api-version", "1.4", "-language-version", "1.4", "-jvm-target", "1.8",
             "-module-name", "foo", "-d", "tmp/classes", "Foo.kt"]
  {
    var t, p := FooTask(), Platform(":", ",");
    var cp := ClasspathToken(t, p);
    assert cp == "lib/a.jar:lib/b.jar" by {
      assert Join(["lib/a.jar", "lib/b.jar"], ":") == "lib/a.jar" + ":" + Join(["lib/b.jar"], ":");
    }
    var base := ["-cp", cp,
                 "-api-version", "1.4", "-language-version", "1.4", "-jvm-target", "1.8",
                 "-module-name", "foo"];
    assert BaseArgs(t, p).tokens == base by {
      assert FlagPair("-api-version", "1.4") == ["-api-version", "1.4"];
      assert FlagPair("-language-version", "1.4") == ["-language-version", "1.4"];
      assert FlagPair("-jvm-target", "1.8") == ["-jvm-target", "1.8"];
      assert FlagPair("-module-name", "foo") == ["-module-name", "foo"];
    }
    assert CommonArgs(t, p).tokens == base + ["-d", "tmp/classes"] by {
      assert FlagPair("-d", "tmp/classes") == ["-d", "tmp/classes"];
    }
  }

  /** A source jar holding `Bar.kt` (and a resource) adds exactly `Bar.kt` after the existing Kotlin sources. */
  lemma BarFromSourceJar(t: JvmCompilationTask)
    ensures Expanded(t, ["Bar.kt", "META-INF/MANIFEST.MF"]).inputs.kotlinSources == t.inputs.kotlinSources + ["Bar.kt"]
    ensures Expanded(t, ["Bar.kt", "META-INF/MANIFEST.MF"]).inputs.javaSources == t.inputs.javaSources
  {
    var found := ["Bar.kt", "META-INF/MANIFEST.MF"];
    assert found[..1] == ["Bar.kt"];
    assert Classify("META-INF/MANIFEST.MF") == Other;
    assert Classify("Bar.kt") == Kotlin;
  }

  /**
   * A processor that generates `Gen.java` once leaves it in the Java sources
   * exactly once; the Kotlin sources gain no copy of it.
   */
  lemma GeneratedOnce(t: JvmCompilationTask, generated: seq<string>)
    requires "gen/Gen.java" !in t.inputs.javaSources
    requires multiset(generated)["gen/Gen.java"] == 1
    ensures multiset(Expanded(t, generated).inputs.javaSources)["gen/Gen.java"] == 1
    ensures "gen/Gen.java" !in Expanded(t, generated).inputs.kotlinSources[|t.inputs.kotlinSources|..]
    ensures multiset(Expanded(t, generated).inputs.kotlinSources)["gen/Gen.java"]
         == multiset(t.inputs.kotlinSources)["gen/Gen.java"]
  {
    ExpandedCounts(t, generated, "gen/Gen.java");
    assert Classify("gen/Gen.java") == Java;
    OfKindMember(generated, Kotlin, "gen/Gen.java");
  }
}
