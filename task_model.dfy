/**
 * The JVM compilation task descriptor (the `JvmCompilationTask` message)
 * and its builder. The descriptor is an immutable value; `toBuilder()`
 * gives a mutable copy that the expansion stages append sources to before
 * `build()` seals it again.
 */
module TaskModel {

  datatype Inputs = Inputs(
    kotlinSources: seq<string>,
    javaSources: seq<string>,
    sourceJars: seq<string>,
    classpath: seq<string>,
    processors: seq<string>)

  datatype Outputs = Outputs(jar: string, srcjar: string)

  datatype Directories = Directories(
    temp: string,
    generatedSources: string,
    generatedClasses: string,
    classes: string)

  /** `toolchainInfo`: the `common` api and language versions and the `jvm` target. */
  datatype ToolchainInfo = ToolchainInfo(
    apiVersion: string,
    languageVersion: string,
    jvmTarget: string)

  /** `info`; `targetLabel` is the build label (`label` is a Dafny keyword). */
  datatype Info = Info(
    targetLabel: string,
    ruleKind: string,
    moduleName: string,
    toolchainInfo: ToolchainInfo,
    passthroughFlags: string,
    friendPaths: seq<string>)

  datatype JvmCompilationTask = JvmCompilationTask(
    inputs: Inputs,
    outputs: Outputs,
    directories: Directories,
    info: Info)
  {
    /** The descriptor with `p` appended to its Kotlin sources. */
    function WithKotlinSource(p: string): JvmCompilationTask
    {
      this.(inputs := inputs.(kotlinSources := inputs.kotlinSources + [p]))
    }

    /** The descriptor with `p` appended to its Java sources. */
    function WithJavaSource(p: string): JvmCompilationTask
    {
      this.(inputs := inputs.(javaSources := inputs.javaSources + [p]))
    }
  }

  /** `JvmCompilationTask.Builder`: a mutable copy of a descriptor. */
  class TaskBuilder {
    var task: JvmCompilationTask

    /** `toBuilder()`. */
    constructor (t: JvmCompilationTask)
      ensures task == t
    {
      task := t;
    }

    /** `inputsBuilder.addKotlinSources(p)`. */
    method AddKotlinSource(p: string)
      modifies this
      ensures task == old(task).WithKotlinSource(p)
    {
      task := task.WithKotlinSource(p);
    }

    /** `inputsBuilder.addJavaSources(p)`. */
    method AddJavaSource(p: string)
      modifies this
      ensures task == old(task).WithJavaSource(p)
    {
      task := task.WithJavaSource(p);
    }

    /** `build()`: the descriptor as it now stands; the builder is not changed. */
    method Build() returns (t: JvmCompilationTask)
      ensures t == task
    {
      t := task;
    }
  }
}
