/** Small vocabulary shared by the modules of this project. */
module Prelude {
  datatype Option<+T> = None | Some(value: T)

  function Max(a: int, b: int): int { if a >= b then a else b }

  lemma TailMember<T>(s: seq<T>, x: T)
    requires s != [] && x != s[0]
    ensures x in s <==> x in s[1..]
  {
    assert s == [s[0]] + s[1..];
  }
}
