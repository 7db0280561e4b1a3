/** Sums of a weight over the threads of a program. */
module Counting {

  function Sum<T>(weight: T -> nat, s: seq<T>): nat {
    if s == [] then 0 else weight(s[0]) + Sum(weight, s[1..])
  }

  /** Changing one thread changes the sum by the change of its own weight. */
  lemma {:induction false} SumUpdate<T>(weight: T -> nat, s: seq<T>, i: nat, x: T)
    requires i < |s|
    ensures Sum(weight, s[i := x]) + weight(s[i]) == Sum(weight, s) + weight(x)
  {
    if i == 0 {
      assert s[0 := x][1..] == s[1..];
    } else {
      assert s[i := x][1..] == s[1..][i - 1 := x];
      SumUpdate(weight, s[1..], i - 1, x);
    }
  }

  lemma {:induction false} SumAtLeast<T>(weight: T -> nat, s: seq<T>, i: nat)
    requires i < |s|
    ensures weight(s[i]) <= Sum(weight, s)
  {
    if i == 0 {
    } else {
      SumAtLeast(weight, s[1..], i - 1);
    }
  }

  lemma {:induction false} SumZero<T>(weight: T -> nat, s: seq<T>)
    requires forall i | 0 <= i < |s| :: weight(s[i]) == 0
    ensures Sum(weight, s) == 0
  {
    if s == [] {
    } else {
      assert forall i | 0 <= i < |s[1..]| :: s[1..][i] == s[i + 1];
      SumZero(weight, s[1..]);
    }
  }

  /** A positive sum has a thread of positive weight. */
  lemma {:induction false} SumPositive<T>(weight: T -> nat, s: seq<T>) returns (i: nat)
    requires Sum(weight, s) > 0
    ensures i < |s| && weight(s[i]) > 0
  {
    if weight(s[0]) > 0 {
      i := 0;
    } else {
      var j := SumPositive(weight, s[1..]);
      i := j + 1;
    }
  }

  lemma {:induction false} SumLeq<T>(lighter: T -> nat, heavier: T -> nat, s: seq<T>)
    requires forall x :: x in s ==> lighter(x) <= heavier(x)
    ensures Sum(lighter, s) <= Sum(heavier, s)
  {
    if s == [] {
    } else {
      SumLeq(lighter, heavier, s[1..]);
    }
  }

  lemma {:induction false} SumBounded<T>(weight: T -> nat, s: seq<T>, most: nat)
    requires forall x :: weight(x) <= most
    ensures Sum(weight, s) <= most * |s|
  {
    if s != [] {
      SumBounded(weight, s[1..], most);
    }
  }
}
