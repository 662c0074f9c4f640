/** Shared vocabulary: the optional value, and small facts about sequences. */
module Prelude {

  datatype Option<+T> = None | Some(value: T)

  function Min(a: int, b: int): int { if a <= b then a else b }

  function Max(a: int, b: int): int { if a >= b then a else b }

  lemma Regroup<T>(a: seq<T>, b: seq<T>, c: seq<T>)
    ensures a + (b + c) == (a + b) + c
  {
  }

  // A concatenation falls apart where it was joined.
  lemma Unjoin<T>(whole: seq<T>, a: seq<T>, b: seq<T>, n: nat)
    requires whole == a + b && |a| == n
    ensures whole[..n] == a && whole[n..] == b
  {
  }

  lemma DropTwice<T>(s: seq<T>, n: nat, m: nat)
    requires n + m <= |s|
    ensures s[n..][m..] == s[n + m..]
  {
  }

  // The source divides signed integers with truncation toward zero.
  function TruncDiv(a: int, b: int): int
    requires b > 0
  {
    if a >= 0 then a / b else -((-a) / b)
  }
}
