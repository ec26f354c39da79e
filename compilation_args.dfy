/**
 * The compiler-argument accumulator the task code chains calls on.
 * The `CompilationArgs` class is not part of this model. What is modelled
 * is the behaviour its callers in the compilation task rely on, assumed
 * and stated here as a value: every call returns the accumulator with the
 * old tokens untouched and the tokens it adds appended at the end, and
 * `list()` is the token sequence itself (`tokens`).
 */
module CompilationArgs {

  datatype Args = Args(tokens: seq<string>) {

    /** `flag(name)`: one bare token. */
    function Flag(name: string): (r: Args)
      ensures r.tokens == tokens + [name]
    {
      Args(tokens + [name])
    }

    /** `flag(name, value)`: the name and the value as two tokens, nothing for an empty value. */
    function FlagValue(name: string, value: string): (r: Args)
      ensures value == "" ==> r == this
      ensures value != "" ==> r.tokens == tokens + [name, value]
    {
      if value == "" then this else Args(tokens + [name, value])
    }

    /** `absolutePaths(paths, format)`: the single token `format(paths)`, nothing for no paths. */
    function AbsolutePaths(paths: seq<string>, format: seq<string> -> string): (r: Args)
      ensures |paths| == 0 ==> r == this
      ensures |paths| > 0 ==> r.tokens == tokens + [format(paths)]
    {
      if |paths| == 0 then this else Args(tokens + [format(paths)])
    }

    /** `values(xs)`: every element as its own token, in order. */
    function Values(xs: seq<string>): (r: Args)
      ensures r.tokens == tokens + xs
    {
      Args(tokens + xs)
    }

    /** `givenNotEmpty(text, transform)`: the tokens `transform(text)`, nothing for an empty text. */
    function GivenNotEmpty(text: string, transform: string -> seq<string>): (r: Args)
      ensures text == "" ==> r == this
      ensures text != "" ==> r.tokens == tokens + transform(text)
    {
      if text == "" then this else Args(tokens + transform(text))
    }
  }

  /** `CompilationArgs()`: an accumulator with no tokens. */
  function Empty(): (r: Args)
    ensures |r.tokens| == 0
  {
    Args([])
  }
}
