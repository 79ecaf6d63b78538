/** Inclusive ranges of addresses, and lists of them standing for sets.

    The engine's own `IpSet` is not part of the repository. This is a reference for what the
    policy relies on it for: pushing ranges, putting them into canonical form and subtracting
    one list from another, all without ever walking an address, and all proved against plain
    sets of numbers. No step computes an address past either end of a range it already holds,
    so nothing here overflows at the top of a family. */
module AddressRanges {

  datatype Range = Range(first: nat, last: nat)

  predicate Proper(r: Range, top: nat) { r.first <= r.last <= top }

  predicate Within(rs: seq<Range>, top: nat) {
    forall r :: r in rs ==> Proper(r, top)
  }

  // ---------------------------------------------------------------------------
  // What a list of ranges stands for.
  // ---------------------------------------------------------------------------

  predicate Holds(r: Range, x: int) { r.first <= x <= r.last }

  ghost function Span(r: Range): set<int> {
    set x | r.first <= x <= r.last && Holds(r, x)
  }

  ghost function Denotes(rs: seq<Range>): set<int> {
    if rs == [] then {} else Span(rs[0]) + Denotes(rs[1..])
  }

  lemma {:induction false} DenotesConcat(a: seq<Range>, b: seq<Range>)
    ensures Denotes(a + b) == Denotes(a) + Denotes(b)
  {
    if a == [] {
      assert a + b == b;
    } else {
      DenotesConcat(a[1..], b);
      assert (a + b)[1..] == a[1..] + b;
    }
  }

  lemma {:induction false} DenotesWithin(rs: seq<Range>, top: nat)
    requires Within(rs, top)
    ensures forall x :: x in Denotes(rs) ==> 0 <= x <= top
  {
    if rs != [] {
      DenotesWithin(rs[1..], top);
      assert Proper(rs[0], top);
    }
  }

  lemma {:induction false} MemberOfSome(rs: seq<Range>, x: int)
    ensures x in Denotes(rs) <==> exists r :: r in rs && x in Span(r)
  {
    if rs != [] {
      MemberOfSome(rs[1..], x);
      assert rs == [rs[0]] + rs[1..];
    }
  }

  // ---------------------------------------------------------------------------
  // Canonical form: in order, disjoint, and not even touching.
  // ---------------------------------------------------------------------------

  predicate Canonical(rs: seq<Range>) {
    rs != [] ==>
      && rs[0].first <= rs[0].last
      && (|rs| > 1 ==> rs[0].last + 1 < rs[1].first)
      && Canonical(rs[1..])
  }

  lemma {:induction false} CanonicalAbove(rs: seq<Range>, x: int)
    requires Canonical(rs) && rs != [] && x in Denotes(rs)
    ensures rs[0].first <= x
    ensures x !in Span(rs[0]) ==> rs[0].last + 1 < x
  {
    if x !in Span(rs[0]) {
      CanonicalAbove(rs[1..], x);
    }
  }

  /** A set has only one canonical list, so canonical lists compare as the sets they are. */
  lemma {:induction false} CanonicalUnique(a: seq<Range>, b: seq<Range>)
    requires Canonical(a) && Canonical(b) && Denotes(a) == Denotes(b)
    ensures a == b
  {
    EmptyDenotesNothing(a);
    EmptyDenotesNothing(b);
    if a != [] {
      FirstRangeAgrees(a, b);
      RestDenotes(a);
      RestDenotes(b);
      CanonicalUnique(a[1..], b[1..]);
      assert a == [a[0]] + a[1..] && b == [b[0]] + b[1..];
    }
  }

  lemma EmptyDenotesNothing(rs: seq<Range>)
    requires Canonical(rs)
    ensures Denotes(rs) == {} <==> rs == []
  {
    if rs != [] {
      assert rs[0].first in Span(rs[0]);
    }
  }

  lemma FirstRangeAgrees(a: seq<Range>, b: seq<Range>)
    requires Canonical(a) && Canonical(b) && a != [] && b != [] && Denotes(a) == Denotes(b)
    ensures a[0] == b[0]
  {
    assert a[0].first in Span(a[0]) && b[0].first in Span(b[0]);
    CanonicalAbove(a, b[0].first);
    CanonicalAbove(b, a[0].first);
    if a[0].last < b[0].last {
      assert a[0].last + 1 in Span(b[0]);
      CanonicalAbove(a, a[0].last + 1);
    } else if b[0].last < a[0].last {
      assert b[0].last + 1 in Span(a[0]);
      CanonicalAbove(b, b[0].last + 1);
    }
  }

  lemma RestDenotes(rs: seq<Range>)
    requires Canonical(rs) && rs != []
    ensures Denotes(rs[1..]) == Denotes(rs) - Span(rs[0])
  {
    forall x | x in Denotes(rs[1..])
      ensures x !in Span(rs[0])
    {
      CanonicalAbove(rs[1..], x);
    }
  }

  lemma CanonicalPrepend(r: Range, rest: seq<Range>)
    requires Canonical(rest) && r.first <= r.last
    requires rest != [] ==> r.last + 1 < rest[0].first
    ensures Canonical([r] + rest) && Denotes([r] + rest) == Span(r) + Denotes(rest)
  {
    assert ([r] + rest)[1..] == rest;
  }

  // ---------------------------------------------------------------------------
  // Counting.
  // ---------------------------------------------------------------------------

  function Count(rs: seq<Range>): int {
    if rs == [] then 0 else rs[0].last - rs[0].first + 1 + Count(rs[1..])
  }

  lemma {:induction false} SpanSize(r: Range)
    requires r.first <= r.last + 1
    ensures |Span(r)| == r.last - r.first + 1
    decreases r.last + 1 - r.first
  {
    if r.first == r.last + 1 {
      assert Span(r) == {};
    } else {
      var rest := Range(r.first + 1, r.last);
      SpanSize(rest);
      assert Span(r) == {r.first as int} + Span(rest);
    }
  }

  /** In canonical form adding up widths counts every address once. */
  lemma {:induction false} CountIsSize(rs: seq<Range>)
    requires Canonical(rs)
    ensures Count(rs) == |Denotes(rs)|
  {
    if rs != [] {
      CountIsSize(rs[1..]);
      RestDenotes(rs);
      SpanSize(rs[0]);
      assert Denotes(rs) == Span(rs[0]) + Denotes(rs[1..]);
    }
  }

  // ---------------------------------------------------------------------------
  // Canonicalising.
  // ---------------------------------------------------------------------------

  function Min(a: nat, b: nat): nat { if a < b then a else b }

  function Max(a: nat, b: nat): nat { if a < b then b else a }

  /** Adds `r` to a canonical list, swallowing whatever it overlaps or touches. */
  function Insert(r: Range, rs: seq<Range>): (out: seq<Range>)
    ensures |out| <= |rs| + 1
    decreases |rs|
  {
    if rs == [] then [r]
    else if r.last < rs[0].first && r.last + 1 < rs[0].first then [r] + rs
    else if rs[0].last < r.first && rs[0].last + 1 < r.first then [rs[0]] + Insert(r, rs[1..])
    else Insert(Range(Min(r.first, rs[0].first), Max(r.last, rs[0].last)), rs[1..])
  }

  lemma MergedSpan(r: Range, q: Range)
    requires r.first <= r.last && q.first <= q.last
    requires r.first <= q.last + 1 && q.first <= r.last + 1
    ensures Span(Range(Min(r.first, q.first), Max(r.last, q.last))) == Span(r) + Span(q)
  {
  }

  lemma {:induction false} InsertDenotes(r: Range, rs: seq<Range>)
    requires r.first <= r.last && Canonical(rs)
    ensures Canonical(Insert(r, rs))
    ensures Denotes(Insert(r, rs)) == Span(r) + Denotes(rs)
    ensures Insert(r, rs) != []
    ensures rs != [] ==> Insert(r, rs)[0].first >= Min(r.first, rs[0].first)
    ensures rs == [] ==> Insert(r, rs)[0].first == r.first
    decreases |rs|
  {
    if rs == [] {
    } else if r.last < rs[0].first && r.last + 1 < rs[0].first {
      CanonicalPrepend(r, rs);
    } else if rs[0].last < r.first && rs[0].last + 1 < r.first {
      InsertDenotes(r, rs[1..]);
      CanonicalPrepend(rs[0], Insert(r, rs[1..]));
    } else {
      var merged := Range(Min(r.first, rs[0].first), Max(r.last, rs[0].last));
      var rest := rs[1..];
      assert rest != [] ==> rest[0] == rs[1];
      InsertDenotes(merged, rest);
      MergedSpan(r, rs[0]);
    }
  }

  lemma {:induction false} InsertWithin(r: Range, rs: seq<Range>, top: nat)
    requires Proper(r, top) && Within(rs, top)
    ensures Within(Insert(r, rs), top)
    decreases |rs|
  {
    if rs != [] {
      assert Proper(rs[0], top);
      InsertWithin(r, rs[1..], top);
      InsertWithin(Range(Min(r.first, rs[0].first), Max(r.last, rs[0].last)), rs[1..], top);
    }
  }

  /** The canonical list of a pile of ranges in any order. */
  function Canon(rs: seq<Range>): (out: seq<Range>)
    ensures |out| <= |rs|
  {
    if rs == [] then [] else Insert(rs[|rs| - 1], Canon(rs[..|rs| - 1]))
  }

  lemma {:induction false} CanonDenotes(rs: seq<Range>, top: nat)
    requires Within(rs, top)
    ensures Canonical(Canon(rs)) && Within(Canon(rs), top)
    ensures Denotes(Canon(rs)) == Denotes(rs)
  {
    if rs != [] {
      var init, r := rs[..|rs| - 1], rs[|rs| - 1];
      assert rs == init + [r];
      assert Proper(r, top);
      CanonDenotes(init, top);
      InsertDenotes(r, Canon(init));
      InsertWithin(r, Canon(init), top);
      DenotesConcat(init, [r]);
    }
  }

  // ---------------------------------------------------------------------------
  // Subtracting.
  // ---------------------------------------------------------------------------

  /** What is left of `r` once `c` is taken out: nothing, one piece or two. */
  function Pieces(r: Range, c: Range): seq<Range> {
    if r.last < c.first || c.last < r.first then [r]
    else
      (if r.first < c.first then [Range(r.first, c.first - 1)] else []) +
      (if c.last < r.last then [Range(c.last + 1, r.last)] else [])
  }

  function Cut(rs: seq<Range>, c: Range): seq<Range> {
    if rs == [] then [] else Pieces(rs[0], c) + Cut(rs[1..], c)
  }

  function Minus(rs: seq<Range>, cuts: seq<Range>): seq<Range> {
    if cuts == [] then rs else Cut(Minus(rs, cuts[..|cuts| - 1]), cuts[|cuts| - 1])
  }

  lemma PiecesDenote(r: Range, c: Range)
    requires r.first <= r.last && c.first <= c.last
    ensures Denotes(Pieces(r, c)) == Span(r) - Span(c)
  {
    var left := if r.first < c.first then [Range(r.first, c.first - 1)] else [];
    var right := if c.last < r.last then [Range(c.last + 1, r.last)] else [];
    DenotesConcat(left, right);
    if r.last < c.first || c.last < r.first {
      assert Denotes([r]) == Span(r);
    }
  }

  lemma {:induction false} CutDenotes(rs: seq<Range>, c: Range, top: nat)
    requires Within(rs, top) && Proper(c, top)
    ensures Within(Cut(rs, c), top)
    ensures Denotes(Cut(rs, c)) == Denotes(rs) - Span(c)
  {
    if rs != [] {
      assert Proper(rs[0], top);
      CutDenotes(rs[1..], c, top);
      PiecesDenote(rs[0], c);
      DenotesConcat(Pieces(rs[0], c), Cut(rs[1..], c));
    }
  }

  lemma {:induction false} CutCanonical(rs: seq<Range>, c: Range)
    requires Canonical(rs) && c.first <= c.last
    ensures Canonical(Cut(rs, c))
    ensures Cut(rs, c) != [] ==> rs != [] && rs[0].first <= Cut(rs, c)[0].first
  {
    if rs != [] {
      CutCanonical(rs[1..], c);
      var rest := rs[1..];
      assert rest != [] ==> rest[0] == rs[1];
      PrependPieces(rs[0], c, Cut(rest, c));
    }
  }

  lemma PrependPieces(r: Range, c: Range, rest: seq<Range>)
    requires Canonical(rest) && r.first <= r.last && c.first <= c.last
    requires rest != [] ==> r.last + 1 < rest[0].first
    ensures Canonical(Pieces(r, c) + rest)
    ensures Pieces(r, c) + rest != [] ==> r.first <= (Pieces(r, c) + rest)[0].first
  {
    var pieces := Pieces(r, c);
    if |pieces| == 2 {
      CanonicalPrepend(pieces[1], rest);
      CanonicalPrepend(pieces[0], [pieces[1]] + rest);
      assert pieces + rest == [pieces[0]] + ([pieces[1]] + rest);
    } else if |pieces| == 1 {
      CanonicalPrepend(pieces[0], rest);
      assert pieces == [pieces[0]];
    } else {
      assert pieces + rest == rest;
    }
  }

  /** Subtracting lists of ranges subtracts the sets they stand for. */
  lemma {:induction false} MinusDenotes(rs: seq<Range>, cuts: seq<Range>, top: nat)
    requires Within(rs, top) && Within(cuts, top)
    ensures Within(Minus(rs, cuts), top)
    ensures Denotes(Minus(rs, cuts)) == Denotes(rs) - Denotes(cuts)
    ensures Canonical(rs) ==> Canonical(Minus(rs, cuts))
  {
    if cuts != [] {
      var init, c := cuts[..|cuts| - 1], cuts[|cuts| - 1];
      assert cuts == init + [c];
      assert Proper(c, top);
      MinusDenotes(rs, init, top);
      CutDenotes(Minus(rs, init), c, top);
      if Canonical(rs) {
        CutCanonical(Minus(rs, init), c);
      }
      DenotesConcat(init, [c]);
    }
  }
}
