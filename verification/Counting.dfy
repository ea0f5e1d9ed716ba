/** Sizes of sets built from other collections. */
module Counting {

  /** A one-to-one image is as large as the set. */
  lemma {:induction false} ImageSize(a: set<nat>, f: map<nat, nat>)
    requires a <= f.Keys
    requires forall x, y | x in a && y in a && f[x] == f[y] :: x == y
    ensures |set x | x in a :: f[x]| == |a|
  {
    if a == {} {
    } else {
      var x :| x in a;
      ImageSize(a - {x}, f);
      assert (set y | y in a :: f[y]) == (set y | y in a - {x} :: f[y]) + {f[x]};
    }
  }

  predicate Distinct<T(==)>(q: seq<T>) {
    forall j, k | 0 <= j < k < |q| :: q[j] != q[k]
  }

  function Elements(q: seq<nat>): set<nat> {
    set x | x in q
  }

  /** A sequence without repetition has as many elements as its set. */
  lemma {:induction false} ElementCount(q: seq<nat>)
    requires Distinct(q)
    ensures |Elements(q)| == |q|
  {
    if q == [] {
    } else {
      var tail := q[1..];
      ElementCount(tail);
      assert q == [q[0]] + tail;
      assert Elements(q) == Elements(tail) + {q[0]};
    }
  }
}
