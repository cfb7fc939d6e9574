/** Facts about sequences shared by the driver models. */
module Sequences {

  /** Concatenation regroups freely. */
  lemma AppendAssoc<T>(a: seq<T>, b: seq<T>, c: seq<T>)
    ensures a + (b + c) == (a + b) + c
  {
  }

  /** Putting the same element in front keeps a prefix a prefix. */
  lemma PrefixCons<T>(x: T, q: seq<T>, p: seq<T>)
    requires |q| <= |p| && q == p[..|q|]
    ensures |[x] + q| <= |[x] + p| && [x] + q == ([x] + p)[..|[x] + q|]
  {
    assert ([x] + p)[..|[x] + q|] == [x] + p[..|q|];
  }
}
