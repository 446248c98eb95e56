/** Small helpers shared by the entity and screen models. */
module Util {

  /** A reference that may be null. */
  datatype Option<+T> = None | Some(value: T)

  /** How many times `x` occurs in `s`. */
  function CountOf<T(==)>(s: seq<T>, x: T): (n: nat)
    ensures n <= |s|
  {
    if s == [] then 0
    else CountOf(s[..|s| - 1], x) + (if s[|s| - 1] == x then 1 else 0)
  }

  /** Appending one element counts it once if it is `x`. */
  lemma CountOfSnoc<T>(s: seq<T>, y: T, x: T)
    ensures CountOf(s + [y], x) == CountOf(s, x) + (if y == x then 1 else 0)
  {
    assert (s + [y])[..|s|] == s;
  }

  /** An element that is absent is counted zero times. */
  lemma {:induction false} CountOfAbsent<T>(s: seq<T>, x: T)
    requires x !in s
    ensures CountOf(s, x) == 0
  {
    if s != [] {
      CountOfAbsent(s[..|s| - 1], x);
    }
  }

  /** Counting distributes over concatenation. */
  lemma {:induction false} CountOfAppend<T>(a: seq<T>, b: seq<T>, x: T)
    ensures CountOf(a + b, x) == CountOf(a, x) + CountOf(b, x)
  {
    if b != [] {
      var last := |b| - 1;
      assert (a + b)[..|a + b| - 1] == a + b[..last];
      CountOfAppend(a, b[..last], x);
    } else {
      assert a + b == a;
    }
  }
}
