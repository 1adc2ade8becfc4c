/** Parts of a sequence picked in order. */
module Sublists {
  /** `r` is what `s` holds at the positions `at`, from left to right. */
  ghost predicate InOrder<T>(r: seq<T>, s: seq<T>, at: seq<nat>) {
    && |at| == |r|
    && (forall i, j :: 0 <= i < j < |at| ==> at[i] < at[j])
    && (forall i :: 0 <= i < |at| ==> at[i] < |s| && r[i] == s[at[i]])
  }

  lemma Skip<T>(r: seq<T>, s: seq<T>, at: seq<nat>, x: T)
    requires InOrder(r, s, at)
    ensures InOrder(r, s + [x], at) && |s| !in at
  {
  }

  lemma Take<T>(r: seq<T>, s: seq<T>, at: seq<nat>, x: T)
    requires InOrder(r, s, at)
    ensures InOrder(r + [x], s + [x], at + [|s|])
    ensures forall k :: k in at + [|s|] <==> k in at || k == |s|
  {
  }
}
