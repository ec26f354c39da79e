/**
 * The source classifier behind `partitionJvmSources`. That function is not
 * part of this model; its policy is taken as: a path ending in `.kt` is a
 * Kotlin source, otherwise a path ending in `.java` is a Java source, and
 * any other path is dropped.
 */
module JvmSources {
  import opened Strings

  datatype SourceKind = Kotlin | Java | Other

  /** No path ends in both `.kt` and `.java`: their last characters differ. */
  lemma SuffixesExclusive(path: string)
    ensures EndsWith(path, ".kt") ==> !EndsWith(path, ".java")
  {
    if EndsWith(path, ".kt") {
      assert path[|path| - 1] == path[|path| - 3..][2] == 't';
      if |path| >= 5 {
        assert path[|path| - 5..][4] == path[|path| - 1];
      }
    }
  }

  /** The kind a path's suffix selects. */
  function Classify(path: string): (k: SourceKind)
    ensures k == Kotlin <==> EndsWith(path, ".kt")
    ensures k == Java <==> EndsWith(path, ".java")
    ensures k == Other <==> !EndsWith(path, ".kt") && !EndsWith(path, ".java")
  {
    SuffixesExclusive(path);
    if EndsWith(path, ".kt") then Kotlin
    else if EndsWith(path, ".java") then Java
    else Other
  }

  /** The paths of kind `k` among `ps`, in their order in `ps`. */
  function OfKind(ps: seq<string>, k: SourceKind): (r: seq<string>)
    ensures |r| <= |ps|
  {
    if |ps| == 0 then []
    else
      var last := ps[|ps| - 1];
      OfKind(ps[..|ps| - 1], k) + (if Classify(last) == k then [last] else [])
  }

  /** Filtering distributes over concatenation, so discovery order is kept. */
  lemma {:induction false} OfKindConcat(a: seq<string>, b: seq<string>, k: SourceKind)
    ensures OfKind(a + b, k) == OfKind(a, k) + OfKind(b, k)
  {
    if |b| > 0 {
      var b' := b[..|b| - 1];
      OfKindConcat(a, b', k);
      assert (a + b)[..|a + b| - 1] == a + b';
    } else {
      assert a + b == a;
    }
  }

  /** A path of kind `k` is kept exactly as often as it occurs; any other path is dropped. */
  lemma {:induction false} OfKindCount(ps: seq<string>, k: SourceKind, x: string)
    ensures multiset(OfKind(ps, k))[x] == if Classify(x) == k then multiset(ps)[x] else 0
  {
    if |ps| > 0 {
      var init, last := ps[..|ps| - 1], ps[|ps| - 1];
      OfKindCount(init, k, x);
      assert ps == init + [last];
      assert multiset(ps) == multiset(init) + multiset{last};
      var tail := if Classify(last) == k then [last] else [];
      assert OfKind(ps, k) == OfKind(init, k) + tail;
      assert multiset(OfKind(ps, k)) == multiset(OfKind(init, k)) + multiset(tail);
    }
  }

  /** The three kinds partition the discovered paths: each one lands in exactly one bin. */
  lemma OfKindPartition(ps: seq<string>)
    ensures multiset(OfKind(ps, Kotlin)) + multiset(OfKind(ps, Java)) + multiset(OfKind(ps, Other))
         == multiset(ps)
  {
    var bins := multiset(OfKind(ps, Kotlin)) + multiset(OfKind(ps, Java)) + multiset(OfKind(ps, Other));
    forall x
      ensures bins[x] == multiset(ps)[x]
    {
      OfKindCount(ps, Kotlin, x);
      OfKindCount(ps, Java, x);
      OfKindCount(ps, Other, x);
    }
  }

  /** Membership: a path is kept exactly when it was discovered and has kind `k`. */
  lemma OfKindMember(ps: seq<string>, k: SourceKind, x: string)
    ensures x in OfKind(ps, k) <==> x in ps && Classify(x) == k
  {
    OfKindCount(ps, k, x);
    assert x in OfKind(ps, k) <==> multiset(OfKind(ps, k))[x] > 0;
    assert x in ps <==> multiset(ps)[x] > 0;
  }
}
