// Occurrences in sequences, and arithmetic that sums of them need.
module Counting {
  function Count<T(==)>(s: seq<T>, x: T): nat
    decreases |s|
  {
    if s == [] then 0 else Count(s[..|s| - 1], x) + if s[|s| - 1] == x then 1 else 0
  }

  lemma {:induction false} CountConcat<T>(s: seq<T>, t: seq<T>, x: T)
    ensures Count(s + t, x) == Count(s, x) + Count(t, x)
    decreases |t|
  {
    if t == [] {
      assert s + t == s;
    } else {
      assert (s + t)[..|s + t| - 1] == s + t[..|t| - 1];
      CountConcat(s, t[..|t| - 1], x);
    }
  }

  lemma {:induction false} CountNone<T>(s: seq<T>, x: T)
    requires forall i :: 0 <= i < |s| ==> s[i] != x
    ensures Count(s, x) == 0
    decreases |s|
  {
    if s != [] {
      CountNone(s[..|s| - 1], x);
    }
  }

  // An element that stands at one index only is counted once.
  lemma {:induction false} CountOne<T>(s: seq<T>, x: T, i: nat)
    requires i < |s| && s[i] == x && forall j :: 0 <= j < |s| && j != i ==> s[j] != x
    ensures Count(s, x) == 1
    decreases |s|
  {
    if i == |s| - 1 {
      CountNone(s[..|s| - 1], x);
    } else {
      CountOne(s[..|s| - 1], x, i);
    }
  }

  lemma MulLe(a: nat, b: nat, c: nat)
    requires a <= b
    ensures a * c <= b * c
  {
    assert (b - a) * c >= 0;
    assert b * c == a * c + (b - a) * c;
  }
}
