/** Removing duplicates while keeping first-seen order: the order in which a
    Python dict remembers its keys, and the result of the loop
    `for x in xs: if x not in out: out.append(x)`. */
module Sequences {

  /** `xs` without repetitions, each element where it first occurs. */
  function Distinct<T(==)>(xs: seq<T>): seq<T>
    decreases |xs|
  {
    if |xs| == 0 then []
    else
      var d := Distinct(xs[..|xs| - 1]);
      if xs[|xs| - 1] in d then d else d + [xs[|xs| - 1]]
  }

  /** The index where `x` first occurs in `xs`. */
  function FirstIndex<T(==)>(xs: seq<T>, x: T): (k: nat)
    requires x in xs
    ensures k < |xs| && xs[k] == x && x !in xs[..k]
    decreases |xs|
  {
    if x in xs[..|xs| - 1] then FirstIndex(xs[..|xs| - 1], x) else |xs| - 1
  }

  /** Nothing is lost and nothing is added. */
  lemma {:induction false} DistinctMembers<T>(xs: seq<T>)
    ensures forall x :: x in Distinct(xs) <==> x in xs
    decreases |xs|
  {
    if |xs| > 0 {
      var init := xs[..|xs| - 1];
      DistinctMembers(init);
      assert xs == init + [xs[|xs| - 1]];
    }
  }

  /** No element occurs twice. */
  lemma {:induction false} DistinctNoDuplicates<T>(xs: seq<T>)
    ensures forall i, j :: 0 <= i < j < |Distinct(xs)| ==> Distinct(xs)[i] != Distinct(xs)[j]
    decreases |xs|
  {
    if |xs| > 0 {
      DistinctNoDuplicates(xs[..|xs| - 1]);
    }
  }

  /** The elements come in the order of their first occurrence in `xs`. */
  lemma {:induction false} DistinctFirstSeenOrder<T>(xs: seq<T>)
    ensures forall x :: x in Distinct(xs) ==> x in xs
    ensures forall i, j :: 0 <= i < j < |Distinct(xs)| ==>
      FirstIndex(xs, Distinct(xs)[i]) < FirstIndex(xs, Distinct(xs)[j])
    decreases |xs|
  {
    DistinctMembers(xs);
    if |xs| > 0 {
      var init := xs[..|xs| - 1];
      var last := xs[|xs| - 1];
      var d := Distinct(xs);
      DistinctFirstSeenOrder(init);
      DistinctMembers(init);
      forall x | x in init
        ensures FirstIndex(xs, x) == FirstIndex(init, x)
      {
      }
      forall i, j | 0 <= i < j < |d|
        ensures FirstIndex(xs, d[i]) < FirstIndex(xs, d[j])
      {
        if j == |d| - 1 && last !in Distinct(init) {
          assert d[i] in init;
          assert FirstIndex(xs, d[j]) == |xs| - 1;
        }
      }
    }
  }
}
