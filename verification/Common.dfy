/** What several modules share. */
module Common {

  datatype Option<T> = None | Some(value: T)

  function Max(x: int, y: int): int { if x < y then y else x }

  function Min(x: int, y: int): int { if x < y then x else y }

  lemma ProductNotNegative(x: int, y: int)
    ensures x >= 0 && y >= 0 ==> x * y >= 0
  {
  }
}
