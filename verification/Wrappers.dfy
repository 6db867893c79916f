/** What every module shares: the value that may be missing. */
module Wrappers {

  datatype Option<+T> = None | Some(value: T)

  lemma {:induction false} SomethingIn<T>(s: seq<T>)
    ensures s == [] || exists x :: x in s
  {
    if s != [] { assert s[0] in s; }
  }
}
