/** Java value types the domain layer relies on: 32-bit `int` with its
    wrap-around, a nullable reference (`Option`) and `Map.getOrDefault`. */
module JavaTypes {

  const INT_MIN: int := -0x8000_0000
  const INT_MAX: int := 0x7fff_ffff

  /** Java's `int`. */
  newtype Int32 = x: int | INT_MIN <= x <= INT_MAX

  /** Java's `x + 1` on `int`: two's-complement, so INT_MAX wraps to INT_MIN. */
  function Succ(x: Int32): (r: Int32)
    ensures x as int < INT_MAX ==> r as int == x as int + 1
    ensures x as int == INT_MAX ==> r as int == INT_MIN
    ensures r != x
  {
    if x as int == INT_MAX then INT_MIN as Int32 else x + 1
  }

  /** A Java reference that may be `null`. */
  datatype Option<T> = None | Some(value: T)

  /** `Map.getOrDefault(key, default)`. */
  function GetOrDefault<K>(m: map<K, int>, key: K, default: int): (v: int)
    ensures key in m ==> v == m[key]
    ensures key !in m ==> v == default
  {
    if key in m then m[key] else default
  }
}
