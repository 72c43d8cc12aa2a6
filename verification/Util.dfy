/** Small definitions shared by every component. */
module Util {

  datatype Option<+T> = None | Some(value: T)

  function Min(a: int, b: int): int {
    if a <= b then a else b
  }

  /** The newest n elements of s, or all of them if there are fewer. */
  function LastN<T>(s: seq<T>, n: nat): seq<T> {
    if |s| <= n then s else s[|s| - n..]
  }

  /** Dropping the head of a full window and appending keeps the window the newest n elements. */
  lemma LastNPush<T>(s: seq<T>, n: nat, x: T)
    requires n > 0
    ensures LastN(s + [x], n) ==
            (if |LastN(s, n)| >= n then LastN(s, n)[1..] else LastN(s, n)) + [x]
  {
    if |s| < n {
    } else {
      assert LastN(s, n) == s[|s| - n..];
      assert (s + [x])[|s| + 1 - n..] == s[|s| - n..][1..] + [x];
    }
  }

  lemma ConcatAssoc<T>(x: seq<T>, y: seq<T>, z: seq<T>)
    ensures x + (y + z) == (x + y) + z
  {
  }
}
