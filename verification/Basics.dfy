/** Small shared vocabulary: optional values, results, and looking up in lists of pairs. */
module Basics {
  datatype Option<+T> = None | Some(value: T)

  datatype Result<+T, +E> = Ok(value: T) | Err(error: E)

  /** The value the last pair with this key carries, as repeated overwriting would leave it. */
  function Find<K(==), V>(pairs: seq<(K, V)>, key: K): Option<V> {
    if pairs == [] then None
    else
      var last := pairs[|pairs| - 1];
      if last.0 == key then Some(last.1) else Find(pairs[..|pairs| - 1], key)
  }

  /** No value occurs twice. */
  ghost predicate Distinct<T>(xs: seq<T>) {
    forall i, j :: 0 <= i < j < |xs| ==> xs[i] != xs[j]
  }

  /** A text str.strip() leaves empty. */
  predicate Blank(s: string) {
    forall c :: c in s ==> IsSpace(c)
  }

  predicate IsSpace(c: char) {
    var n := c as int;
    || 0x9 <= n <= 0xD || 0x1C <= n <= 0x20 || n == 0x85 || n == 0xA0 || n == 0x1680
    || 0x2000 <= n <= 0x200A || n == 0x2028 || n == 0x2029 || n == 0x202F || n == 0x205F || n == 0x3000
  }
}
