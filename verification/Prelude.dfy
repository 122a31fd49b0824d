/** Datatypes shared by every module. */
module Prelude {

  datatype Option<+T> = None | Some(value: T)

  datatype Result<+T, +E> = Ok(value: T) | Err(error: E)

  /** The last element of a nonempty sequence. */
  function Last<T>(s: seq<T>): T
    requires s != []
  {
    s[|s| - 1]
  }

  /** No element occurs twice. */
  ghost predicate Distinct<T>(s: seq<T>) {
    forall i, j :: 0 <= i < j < |s| ==> s[i] != s[j]
  }

  /** A sequence without repetitions that draws from a finite set is no longer than that set. */
  lemma {:induction false} DistinctFits<T>(s: seq<T>, bound: set<T>)
    requires Distinct(s)
    requires forall i :: 0 <= i < |s| ==> s[i] in bound
    ensures |s| <= |bound|
  {
    if s != [] {
      var front := s[..|s| - 1];
      forall i | 0 <= i < |front|
        ensures front[i] in bound - {Last(s)}
      {
        assert front[i] == s[i];
      }
      DistinctFits(front, bound - {Last(s)});
    }
  }

  /** A subset that is as large as the whole is the whole. */
  lemma SubsetSize<T>(part: set<T>, whole: set<T>)
    requires part <= whole
    ensures |part| <= |whole|
    ensures |part| == |whole| <==> part == whole
  {
    assert whole == part + (whole - part);
  }
}
