/** Small helpers shared by the round engine's modules. */
module Common {

  /** A value that may be missing, standing for a C# reference that may be null. */
  datatype Option<T> = None | Some(value: T)

  /** No value occurs twice in s. */
  predicate Distinct<T(==)>(s: seq<T>) {
    forall i, j :: 0 <= i < j < |s| ==> s[i] != s[j]
  }

  function Max(a: int, b: int): int {
    if a >= b then a else b
  }
}
