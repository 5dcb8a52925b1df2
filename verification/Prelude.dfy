/** Small vocabulary shared by every module. */
module Prelude {
  datatype Option<+T> = None | Some(value: T)

  function Min(a: int, b: int): int {
    if a <= b then a else b
  }

  function Max(a: int, b: int): int {
    if a >= b then a else b
  }

  // Number.MAX_SAFE_INTEGER of the language.
  const MAX_SAFE_INTEGER := 9007199254740991

  // There are at most `n` numbers below `n`.
  lemma {:induction false} SubsetBounded(numbers: set<nat>, n: nat)
    requires forall x | x in numbers :: x < n
    ensures |numbers| <= n
  {
    if n == 0 {
      assert numbers == {};
    } else {
      SubsetBounded(numbers - {n - 1}, n - 1);
    }
  }
}
