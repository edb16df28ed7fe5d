/** Bytes, chunked streams and the optional value shared by the other modules. */
module Bytes {

  type byte = x: int | 0 <= x < 256

  datatype Option<+T> = None | Some(value: T)

  lemma ConcatAssociative<T>(a: seq<T>, b: seq<T>, c: seq<T>)
    ensures a + (b + c) == (a + b) + c
  {
  }

  lemma SliceSnoc<T>(s: seq<T>, from: nat, to: nat)
    requires from <= to < |s|
    ensures s[from..to] + [s[to]] == s[from..to + 1]
  {
  }

  /** The stream that a sequence of chunks spells. */
  function Flatten<T>(chunks: seq<seq<T>>): seq<T> {
    if chunks == [] then [] else chunks[0] + Flatten(chunks[1..])
  }

  lemma FlattenOne<T>(chunk: seq<T>)
    ensures Flatten([chunk]) == chunk
  {
    var none: seq<seq<T>> := [];
    assert [chunk][1..] == none;
  }
}
