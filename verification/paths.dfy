/**
  An abstract `Path.Combine`: segments are joined with a single "/".
  Platform separators and the rule that a rooted segment discards what
  precedes it are not modelled.
 */
module Paths {

  /** `Path.Combine(base, parts[0], parts[1], ...)`. */
  function Combine(base: string, parts: seq<string>): string
    decreases |parts|
  {
    if parts == [] then base else Combine(base + "/" + parts[0], parts[1..])
  }

  /** Combining in two steps is combining once with all the segments. */
  lemma {:induction false} CombineTwice(base: string, p: seq<string>, q: seq<string>)
    ensures Combine(Combine(base, p), q) == Combine(base, p + q)
    decreases |p|
  {
    if p != [] {
      CombineTwice(base + "/" + p[0], p[1..], q);
      assert (p + q)[0] == p[0];
      assert (p + q)[1..] == p[1..] + q;
    } else {
      assert p + q == q;
    }
  }
}
