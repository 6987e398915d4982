/** Datatypes and sequence facts shared by the modules of the model. */
module Common {

  datatype Option<+T> = None | Some(value: T)

  /** How one database statement can end, seen from the worker that issued it. The last case is the
      statement that took effect although the worker was told it failed (a connection lost at commit). */
  datatype Fault = Ok | NotApplied | AppliedThenError

  ghost predicate Distinct<T>(s: seq<T>) {
    forall i, j :: 0 <= i < j < |s| ==> s[i] != s[j]
  }

  lemma DistinctAppend<T>(s: seq<T>, x: T)
    requires Distinct(s) && x !in s
    ensures Distinct(s + [x])
  {
  }

  /** A duplicate-free sequence is as long as the set of its elements. */
  lemma {:induction false} DistinctSize<T>(s: seq<T>)
    requires Distinct(s)
    ensures |set x | x in s| == |s|
  {
    if s == [] {
      assert (set x | x in s) == {};
    } else {
      var front, last := s[..|s| - 1], s[|s| - 1];
      DistinctSize(front);
      assert s == front + [last];
      assert (set x | x in s) == (set x | x in front) + {last};
    }
  }
}
