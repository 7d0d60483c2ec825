/** Definitions shared by every module. */
module Common {
  datatype Option<+T> = None | Some(value: T)

  type byte = x: int | 0 <= x < 256

  function OrElse<T>(first: Option<T>, second: Option<T>): Option<T> {
    if first.Some? then first else second
  }

  function Lookup<K, V>(m: map<K, V>, k: K): Option<V> {
    if k in m then Some(m[k]) else None
  }

  /** White space as far as ASCII goes. */
  predicate IsSpace(c: char): (b: bool)
    ensures b <==> 9 <= c as int <= 13 || c as int == 32
  {
    c == ' ' || '\t' <= c <= '\r'
  }

  predicate IsBlank(s: string) {
    forall i :: 0 <= i < |s| ==> IsSpace(s[i])
  }
}
