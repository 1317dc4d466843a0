/** Windows over sequences. */
module Sequences {

  /** The last n elements of s, or all of s when it is shorter. */
  function LastN<T>(s: seq<T>, n: nat): seq<T> {
    if |s| <= n then s else s[|s| - n..]
  }

  /** Appending to a trimmed window and trimming again is trimming the whole. */
  lemma LastNOfAppend<T>(s: seq<T>, n: nat, x: T)
    ensures LastN(LastN(s, n) + [x], n) == LastN(s + [x], n)
  {
  }

  /** A short tail of the window is that tail of the whole. */
  lemma LastNOfLastN<T>(s: seq<T>, n: nat, k: nat)
    requires k <= n
    ensures LastN(LastN(s, n), k) == LastN(s, k)
  {
  }
}
