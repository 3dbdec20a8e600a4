/** Regroupings of concatenations that the solver does not find on its own. */
module Sequences {

  lemma Concat3<T>(a: seq<T>, b: seq<T>, c: seq<T>)
    ensures a + b + c == a + (b + c)
  {}

  lemma Concat4<T>(a: seq<T>, b: seq<T>, c: seq<T>, d: seq<T>)
    ensures a + b + c + d == a + (b + c) + d
    ensures a + b + c + d == a + b + (c + d)
    ensures a + b + c + d == a + (b + (c + d))
  {}

  lemma Concat5<T>(a: seq<T>, b: seq<T>, c: seq<T>, d: seq<T>, e: seq<T>)
    ensures a + b + c + d + e == a + (b + (c + (d + e)))
  {}

  lemma Concat6<T>(a: seq<T>, b: seq<T>, c: seq<T>, d: seq<T>, e: seq<T>, f: seq<T>)
    ensures a + b + c + d + (e + f) == a + (b + (c + (d + e)) + f)
  {}

  lemma DropEmpty<T>(a: seq<T>, b: seq<T>, c: seq<T>)
    requires b == []
    ensures a + b + c == a + c
  {}

  lemma HeadTail<T>(s: seq<T>)
    requires s != []
    ensures s == [s[0]] + s[1..]
  {}

  /** An element moves from the front of one sequence to the end of another. */
  lemma HeadMoves<T>(a: seq<T>, s: seq<T>, b: seq<T>)
    requires s != []
    ensures a + [s[0]] + s[1..] == a + s && s + b == [s[0]] + (s[1..] + b)
  {}
}
