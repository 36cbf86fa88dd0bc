/** Lists of identifiers: taking one out. */
module Sequences {
  /** Every occurrence of `x` removed, the rest in order. */
  function Without<T(==)>(order: seq<T>, x: T): seq<T> {
    if order == [] then []
    else if order[0] == x then Without(order[1..], x)
    else [order[0]] + Without(order[1..], x)
  }

  lemma {:induction false} WithoutMembers<T>(order: seq<T>, x: T)
    ensures forall y :: y in Without(order, x) <==> y in order && y != x
  {
    if order != [] {
      WithoutMembers(order[1..], x);
      assert forall y :: y in order <==> y == order[0] || y in order[1..];
    }
  }

  /** Taking out an element that occurs once joins what is before it and what is after it. */
  lemma {:induction false} WithoutJoins<T>(before: seq<T>, x: T, after: seq<T>)
    requires x !in before && x !in after
    ensures Without(before + [x] + after, x) == before + after
  {
    var all := before + [x] + after;
    if before == [] {
      assert all[1..] == after;
      WithoutNothing(after, x);
    } else {
      assert all[1..] == before[1..] + [x] + after;
      WithoutJoins(before[1..], x, after);
      assert [before[0]] + (before[1..] + after) == before + after;
    }
  }

  lemma {:induction false} WithoutNothing<T>(s: seq<T>, x: T)
    requires x !in s
    ensures Without(s, x) == s
  {
    if s != [] {
      WithoutNothing(s[1..], x);
    }
  }
}
