/** Small shared vocabulary: optional values, clock readings and sequence ends. */
module Basics {

  datatype Option<+T> = None | Some(value: T)

  /** A clock reading, in whole milliseconds. */
  type Time = int

  /** An identifier, digest, key or name that is only ever compared for equality. */
  type Token = int

  type WorkerId = Token
  type ReceiverId = Token
  type BatchId = Token

  const MINUTE: Time := 60 * 1000

  function Last<T>(s: seq<T>): (x: T)
    requires |s| > 0
  {
    s[|s| - 1]
  }

  function Init<T>(s: seq<T>): (r: seq<T>)
    requires |s| > 0
  {
    s[..|s| - 1]
  }

  /** The first `length` characters of a text that is otherwise never looked into. */
  datatype Text = Text(source: Token, length: nat)

  /** Python's `s[:cap]`. */
  function Clip(t: Text, cap: nat): (r: Text) {
    if t.length <= cap then t else t.(length := cap)
  }

  function Max(a: int, b: int): (m: int) {
    if a < b then b else a
  }

  function Min(a: int, b: int): (m: int) {
    if a < b then a else b
  }

  lemma SizesAdd<T(!new)>(p: set<T>, q: set<T>, all: set<T>)
    requires (forall x :: x in all <==> x in p || x in q) && p !! q
    ensures |all| == |p| + |q|
  {
    assert all == p + q;
  }
}
