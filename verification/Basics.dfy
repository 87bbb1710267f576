/** What several of the models share. */
module Basics {

  datatype Option<+T> = None | Some(value: T)

  function Least(a: nat, b: nat): nat {
    if a < b then a else b
  }

  function Most(a: nat, b: nat): nat {
    if a < b then b else a
  }

  lemma {:induction false} Scale(a: int, b: int, e: nat)
    requires a <= b
    ensures a * e <= b * e
    decreases b - a
  {
    if a == b {
    } else {
      Scale(a, b - 1, e);
      assert b * e == (b - 1) * e + e;
    }
  }

  lemma MoveBracket<T>(a: seq<T>, b: seq<T>, c: seq<T>)
    ensures a + (b + c) == (a + b) + c
  {
  }
}
