/** Types and small facts shared by the models. */
module Common {
  datatype Option<+T> = None | Some(value: T)

  /** kSuccess, or any of the other error codes. */
  datatype ErrorCode = Success | Failure(code: nat)

  newtype Byte = x: int | 0 <= x < 0x100

  /** The number of values of a 64-bit word. */
  const WORD := 0x1_0000_0000_0000_0000

  /** Taking the last element off again. */
  lemma Extend<T>(s: seq<T>, x: T)
    ensures (s + [x])[..|s + [x]| - 1] == s
  {
  }

  lemma Regroup<T>(x: seq<T>, y: seq<T>, z: seq<T>)
    ensures (x + y) + z == x + (y + z)
  {
  }
}
