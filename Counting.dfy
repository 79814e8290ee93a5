/** Counting how many of a list of yes/no conditions hold.

    The Lipinski rule of five reports "how many of its tests a molecule
    fails"; this module gives that count a definition of its own, with the
    facts the rule evaluator relies on: the count never exceeds the number of
    tests, it is zero exactly when no test fails, flipping one test moves it
    by one, and it grows with the tests.
 */
module Counting {

  /** 1 for a test that holds, 0 for one that does not. */
  function Indicator(b: bool): nat
  {
    if b then 1 else 0
  }

  /** Number of entries of `s` that are `true`. */
  function CountTrue(s: seq<bool>): (n: nat)
    ensures n <= |s|
    ensures n == 0 <==> forall i :: 0 <= i < |s| ==> !s[i]
    ensures n == |s| <==> forall i :: 0 <= i < |s| ==> s[i]
  {
    if s == [] then 0
    else Indicator(s[0]) + CountTrue(s[1..])
  }

  /** Replacing one condition by `b` changes the count by exactly the change
      at that position. */
  lemma {:induction false} CountTrueUpdate(s: seq<bool>, i: nat, b: bool)
    requires i < |s|
    ensures CountTrue(s[i := b]) == CountTrue(s) - Indicator(s[i]) + Indicator(b)
  {
    if i == 0 {
      assert s[i := b][1..] == s[1..];
    } else {
      assert s[i := b][1..] == s[1..][i - 1 := b];
      CountTrueUpdate(s[1..], i - 1, b);
    }
  }

  /** If every condition of `s` that holds also holds in `t`, then `t` counts
      at least as many. */
  lemma {:induction false} CountTrueMonotone(s: seq<bool>, t: seq<bool>)
    requires |s| == |t|
    requires forall i :: 0 <= i < |s| && s[i] ==> t[i]
    ensures CountTrue(s) <= CountTrue(t)
  {
    if s != [] {
      CountTrueMonotone(s[1..], t[1..]);
    }
  }
}
