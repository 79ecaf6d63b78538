/** Runs that go on for ever. Something weighs what is left to do: it never grows, and each piece
    of work makes it less. If the work is not kept waiting for ever, a rest is come to. */
module Fairness {
  datatype Weight = Weight(first: nat, second: nat, third: nat)

  /** By the first that differs. */
  predicate Less(x: Weight, y: Weight) {
    x.first < y.first || (x.first == y.first && (x.second < y.second || (x.second == y.second && x.third < y.third)))
  }

  predicate AtMost(x: Weight, y: Weight) { x == y || Less(x, y) }

  /** One step does not add to what is left, and a piece of work takes something off. */
  predicate Step(weight: nat -> Weight, works: nat -> bool, i: nat) {
    AtMost(weight(i + 1), weight(i)) && (works(i) ==> Less(weight(i + 1), weight(i)))
  }

  /** So it is from the n-th step on, but at a rest. */
  ghost predicate Falls(weight: nat -> Weight, works: nat -> bool, rests: nat -> bool, n: nat) {
    forall i :: n <= i ==> rests(i) || Step(weight, works, i)
  }

  predicate Works(works: nat -> bool, rests: nat -> bool, i: nat) { works(i) || rests(i) }

  /** From the n-th step on there is a piece of work, or a rest. */
  ghost predicate Served(works: nat -> bool, rests: nat -> bool, n: nat) {
    exists i :: n <= i && Works(works, rests, i)
  }

  ghost predicate Fair(works: nat -> bool, rests: nat -> bool) {
    forall n :: Served(works, rests, n)
  }

  lemma {:induction false} Nearer(weight: nat -> Weight, works: nat -> bool, rests: nat -> bool, n: nat, i: nat)
      returns (m: nat)
    requires Falls(weight, works, rests, n) && n <= i && Works(works, rests, i)
    ensures n <= m && (rests(m) || Less(weight(m), weight(n)))
    decreases i - n
  {
    if rests(n) {
      m := n;
    } else {
      assert Step(weight, works, n);
      if works(n) {
        m := n + 1;
      } else {
        m := Nearer(weight, works, rests, n + 1, i);
      }
    }
  }

  lemma {:induction false} ComesToRest(weight: nat -> Weight, works: nat -> bool, rests: nat -> bool, n: nat)
      returns (m: nat)
    requires Falls(weight, works, rests, n) && Fair(works, rests)
    ensures n <= m && rests(m)
    decreases weight(n).first, weight(n).second, weight(n).third
  {
    assert Served(works, rests, n);
    var i :| n <= i && Works(works, rests, i);
    m := Nearer(weight, works, rests, n, i);
    if !rests(m) {
      m := ComesToRest(weight, works, rests, m);
    }
  }
}
