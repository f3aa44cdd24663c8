/** Texts in pieces, and what proofs about concatenation share. */
module Sequences {
  /** The pieces of a text, put together. */
  function Concat(pieces: seq<string>): string {
    if pieces == [] then "" else pieces[0] + Concat(pieces[1..])
  }

  lemma Associates<T>(a: seq<T>, b: seq<T>, c: seq<T>)
    ensures a + b + c == a + (b + c)
  {}

  lemma Nests<T>(a: seq<T>, b: seq<T>, c: seq<T>, d: seq<T>)
    ensures a + (b + c) + d == a + (b + (c + d))
  {}

  /** Behind the front of a concatenation stands the rest of it. */
  lemma DropInFront<T>(a: seq<T>, b: seq<T>, k: nat)
    requires k <= |a|
    ensures (a + b)[k..] == a[k..] + b
  {}

  lemma DropFront<T>(a: seq<T>, b: seq<T>)
    ensures (a + b)[|a|..] == b
  {}

  /** The last of a concatenation is the last of its second part. */
  lemma LastOfJoin<T>(a: seq<T>, b: seq<T>)
    requires b != []
    ensures (a + b)[..|a + b| - 1] == a + b[..|b| - 1] && (a + b)[|a + b| - 1] == b[|b| - 1]
  {}

  lemma SliceOfSlice<T>(a: seq<T>, d: nat, k: nat)
    requires d + k <= |a|
    ensures a[d..][k..] == a[d + k..]
  {}
}
