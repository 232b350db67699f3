/** Facts about sequences and numbers that several modules state. */
module Collections {

  /** No element occurs twice. */
  predicate NoDup<T(==)>(s: seq<T>) {
    forall i, j :: 0 <= i < j < |s| ==> s[i] != s[j]
  }

  function Min(a: int, b: int): int {
    if a <= b then a else b
  }
}
