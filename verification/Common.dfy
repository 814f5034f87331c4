/** What several parts of the model share. */
module Common {

  datatype Option<+T> = None | Some(value: T)

  ghost predicate NoDup<T>(s: seq<T>) {
    forall i, j :: 0 <= i < j < |s| ==> s[i] != s[j]
  }

  /**
    Holds of 0.  A predicate P stated as `forall k {:trigger Key(k)} | Locked(k) :: P`
    is looked into only where `Key(0)` is mentioned.
   */
  ghost predicate Locked(k: nat) {
    k == 0
  }

  /** A set that is not empty has an element. */
  lemma Element<T>(s: set<T>) returns (x: T)
    requires s != {}
    ensures x in s
  {
    x :| x in s;
  }
}
