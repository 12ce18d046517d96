/** Sequences that list a finite set, each element once: the order in which a loop visits the set. */
module Enumerations {

  ghost predicate Distinct<T>(order: seq<T>)
  {
    forall i, j :: 0 <= i < j < |order| ==> order[i] != order[j]
  }

  /** `order` visits every element of `s` exactly once and nothing else. */
  ghost predicate Enumerates<T(!new)>(order: seq<T>, s: set<T>)
  {
    Distinct(order) && forall x :: x in order <==> x in s
  }

  /** Some enumeration of a finite set. */
  ghost function ListOf<T(!new)>(s: set<T>): (order: seq<T>)
    ensures Enumerates(order, s)
    decreases |s|
  {
    if s == {} then []
    else
      var x :| x in s;
      var rest := ListOf(s - {x});
      assert forall i :: 0 <= i < |rest| ==> rest[i] in s - {x};
      [x] + rest
  }

  /** Appending one element not yet visited extends an enumeration. */
  lemma EnumeratesSnoc<T(!new)>(order: seq<T>, done: set<T>, x: T)
    requires Enumerates(order, done) && x !in done
    ensures Enumerates(order + [x], done + {x})
  {
    assert forall i :: 0 <= i < |order| ==> order[i] in done;
  }

  /** An enumeration of part of a set, followed by an enumeration of the rest, enumerates the set. */
  lemma {:induction false} EnumeratesConcat<T(!new)>(a: seq<T>, sa: set<T>, b: seq<T>, sb: set<T>)
    requires Enumerates(a, sa) && Enumerates(b, sb) && sa !! sb
    ensures Enumerates(a + b, sa + sb)
  {
    forall i, j | 0 <= i < j < |a + b|
      ensures (a + b)[i] != (a + b)[j]
    {
      if j < |a| {
      } else if i < |a| {
        assert (a + b)[i] in sa && (a + b)[j] == b[j - |a|] && b[j - |a|] in sb;
      } else {
        assert (a + b)[i] == b[i - |a|] && (a + b)[j] == b[j - |a|];
      }
    }
  }
}
