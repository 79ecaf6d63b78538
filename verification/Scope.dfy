/** The scope of a daemon (src/scope.rs), and the reach of a whole plan
    (src/policy.rs:119-133).

    Everything below works on ranges only, by pushing, canonicalising and subtracting them in
    place. The contracts speak of addresses. */
module Scope {
  import opened AddressRanges
  import opened Wrappers

  const TOP_V4: nat := 0xFFFF_FFFF
  const TOP_V6: nat := 0xFFFF_FFFF_FFFF_FFFF_FFFF_FFFF_FFFF_FFFF

  // ---------------------------------------------------------------------------
  // Sets of addresses of both families.
  // ---------------------------------------------------------------------------

  datatype Family = V4 | V6

  function Top(family: Family): nat { if family.V4? then TOP_V4 else TOP_V6 }

  datatype Address = Address(family: Family, bits: int)

  /** An address of its family's width, and nothing wider. */
  type IpAddress = a: Address | 0 <= a.bits <= Top(a.family) witness Address(V4, 0)

  datatype Addresses = Addresses(v4: seq<Range>, v6: seq<Range>)

  const NO_ADDRESSES := Addresses([], [])

  predicate WellFormed(s: Addresses) { Within(s.v4, TOP_V4) && Within(s.v6, TOP_V6) }

  /** What an `IpSet` that came out of the engine's parser or resolver can be. */
  type IpValue = s: Addresses | WellFormed(s) witness NO_ADDRESSES

  predicate Tidy(s: Addresses) { Canonical(s.v4) && Canonical(s.v6) }

  ghost function In(family: Family, xs: set<int>): set<IpAddress> {
    set x | x in xs && 0 <= x <= Top(family) :: Address(family, x)
  }

  ghost function Members(s: Addresses): set<IpAddress> { In(V4, Denotes(s.v4)) + In(V6, Denotes(s.v6)) }

  ghost function UnionOf(sets: seq<IpValue>): set<IpAddress> {
    if sets == [] then {} else UnionOf(sets[..|sets| - 1]) + Members(sets[|sets| - 1])
  }

  lemma MembersByFamily(s: Addresses, a: IpAddress)
    ensures a in Members(s) <==> a.bits in if a.family.V4? then Denotes(s.v4) else Denotes(s.v6)
  {
  }

  lemma {:induction false} SizeIn(family: Family, xs: set<int>, below: nat)
    requires below <= Top(family) + 1 && forall x :: x in xs ==> 0 <= x < below
    ensures |In(family, xs)| == |xs|
    decreases below
  {
    if below == 0 {
      assert xs == {} && In(family, xs) == {};
    } else {
      var x := below - 1;
      SizeIn(family, xs - {x}, below - 1);
      if x in xs {
        assert In(family, xs) == In(family, xs - {x}) + {Address(family, x)};
      } else {
        assert xs - {x} == xs;
      }
    }
  }

  lemma {:induction false} MemberOfUnion(sets: seq<IpValue>, a: IpAddress)
    ensures a in UnionOf(sets) <==> exists s :: s in sets && a in Members(s)
  {
    if sets != [] {
      var init, last := sets[..|sets| - 1], sets[|sets| - 1];
      MemberOfUnion(init, a);
      assert sets == init + [last];
    }
  }

  lemma SameOfFamily(family: Family, xs: set<int>, ys: set<int>)
    requires forall x :: x in xs || x in ys ==> 0 <= x <= Top(family)
    requires In(family, xs) == In(family, ys)
    ensures xs == ys
  {
    forall x: int
      ensures x in xs <==> x in ys
    {
      if 0 <= x <= Top(family) {
        assert x in xs <==> Address(family, x) in In(family, xs);
        assert x in ys <==> Address(family, x) in In(family, ys);
      }
    }
  }

  lemma MembersOfFamily(s: Addresses, family: Family)
    ensures In(family, if family.V4? then Denotes(s.v4) else Denotes(s.v6)) == set a | a in Members(s) && a.family == family
  {
  }

  /** Two tidy sets with the same addresses are range for range the same. */
  lemma TidyUnique(a: IpValue, b: IpValue)
    requires Tidy(a) && Tidy(b) && Members(a) == Members(b)
    ensures a == b
  {
    DenotesWithin(a.v4, TOP_V4);
    DenotesWithin(b.v4, TOP_V4);
    DenotesWithin(a.v6, TOP_V6);
    DenotesWithin(b.v6, TOP_V6);
    MembersOfFamily(a, V4);
    MembersOfFamily(b, V4);
    MembersOfFamily(a, V6);
    MembersOfFamily(b, V6);
    SameOfFamily(V4, Denotes(a.v4), Denotes(b.v4));
    SameOfFamily(V6, Denotes(a.v6), Denotes(b.v6));
    CanonicalUnique(a.v4, b.v4);
    CanonicalUnique(a.v6, b.v6);
  }

  function Size(s: Addresses): int { Count(s.v4) + Count(s.v6) }

  lemma SizeOfFamily(family: Family, rs: seq<Range>)
    requires Canonical(rs) && Within(rs, Top(family))
    ensures |In(family, Denotes(rs))| == Count(rs)
  {
    DenotesWithin(rs, Top(family));
    SizeIn(family, Denotes(rs), Top(family) + 1);
    CountIsSize(rs);
  }

  lemma SizeIsCardinality(s: IpValue)
    requires Tidy(s)
    ensures Size(s) == |Members(s)|
    ensures Members(s) == {} <==> s == NO_ADDRESSES
  {
    SizeOfFamily(V4, s.v4);
    SizeOfFamily(V6, s.v6);
    assert In(V4, Denotes(s.v4)) !! In(V6, Denotes(s.v6));
    if Members(s) == {} {
      TidyUnique(s, NO_ADDRESSES);
    }
  }

  lemma UnionMembers(a: Addresses, b: Addresses, whole: Addresses)
    requires Denotes(whole.v4) == Denotes(a.v4) + Denotes(b.v4)
    requires Denotes(whole.v6) == Denotes(a.v6) + Denotes(b.v6)
    ensures Members(whole) == Members(a) + Members(b)
  {
  }

  lemma DifferenceMembers(a: Addresses, b: Addresses, less: Addresses)
    requires Denotes(less.v4) == Denotes(a.v4) - Denotes(b.v4)
    requires Denotes(less.v6) == Denotes(a.v6) - Denotes(b.v6)
    ensures Members(less) == Members(a) - Members(b)
  {
  }

  // ---------------------------------------------------------------------------
  // IpSet, as the policy uses it.
  // ---------------------------------------------------------------------------

  class IpSet {
    var v4: seq<Range>
    var v6: seq<Range>

    ghost predicate Valid() reads this { WellFormed(Value()) }

    function Value(): Addresses reads this { Addresses(v4, v6) }

    constructor ()
      ensures Valid() && Value() == NO_ADDRESSES
    {
      v4, v6 := [], [];
    }

    constructor Of(value: IpValue)
      ensures Valid() && Value() == value
    {
      v4, v6 := value.v4, value.v6;
    }

    method Clone() returns (copy: IpSet)
      requires Valid()
      ensures fresh(copy) && copy.Valid() && copy.Value() == Value()
    {
      copy := new IpSet.Of(Value());
    }

    method PushV4Range(r: Range)
      requires Valid() && Proper(r, TOP_V4)
      modifies this
      ensures Valid() && v4 == old(v4) + [r] && v6 == old(v6)
    {
      v4 := v4 + [r];
    }

    method PushV6Range(r: Range)
      requires Valid() && Proper(r, TOP_V6)
      modifies this
      ensures Valid() && v6 == old(v6) + [r] && v4 == old(v4)
    {
      v6 := v6 + [r];
    }

    method Canonicalize()
      requires Valid()
      modifies this
      ensures Valid() && Tidy(Value())
      ensures Members(Value()) == Members(old(Value()))
      ensures |v4| <= old(|v4|) && |v6| <= old(|v6|)
    {
      var low := CanonicalForm(v4);
      var high := CanonicalForm(v6);
      CanonDenotes(v4, TOP_V4);
      CanonDenotes(v6, TOP_V6);
      v4, v6 := low, high;
    }

    static method CanonicalForm(rs: seq<Range>) returns (out: seq<Range>)
      ensures out == Canon(rs)
    {
      out := [];
      for i := 0 to |rs|
        invariant out == Canon(rs[..i])
      {
        assert rs[..i + 1][..i] == rs[..i];
        out := Insert(rs[i], out);
      }
      assert rs[..|rs|] == rs;
    }

    method Subtract(other: IpSet)
      requires Valid() && other.Valid()
      modifies this
      ensures Valid()
      ensures Members(Value()) == Members(old(Value())) - old(Members(other.Value()))
      ensures old(Tidy(Value())) ==> Tidy(Value())
    {
      var low := Difference(v4, other.v4);
      var high := Difference(v6, other.v6);
      MinusDenotes(v4, other.v4, TOP_V4);
      MinusDenotes(v6, other.v6, TOP_V6);
      DifferenceMembers(Value(), other.Value(), Addresses(low, high));
      v4, v6 := low, high;
    }

    /** A clone with another set subtracted from it. */
    method Less(other: IpSet) returns (left: IpSet)
      requires Valid() && other.Valid()
      ensures fresh(left) && left.Valid()
      ensures Members(left.Value()) == Members(Value()) - Members(other.Value())
    {
      left := Clone();
      left.Subtract(other);
    }

    static method Difference(rs: seq<Range>, cuts: seq<Range>) returns (left: seq<Range>)
      ensures left == Minus(rs, cuts)
    {
      left := rs;
      for i := 0 to |cuts|
        invariant left == Minus(rs, cuts[..i])
      {
        assert cuts[..i + 1][..i] == cuts[..i];
        left := Cut(left, cuts[i]);
      }
      assert cuts[..|cuts|] == cuts;
    }

    /** Pushes every range of another set, one at a time. */
    method PushRanges(ips: IpValue)
      requires Valid()
      modifies this
      ensures Valid()
      ensures v4 == old(v4) + ips.v4 && v6 == old(v6) + ips.v6
      ensures Members(Value()) == Members(old(Value())) + Members(ips)
    {
      for i := 0 to |ips.v4|
        invariant Valid() && v4 == old(v4) + ips.v4[..i] && v6 == old(v6)
      {
        assert ips.v4[i] in ips.v4;
        PushV4Range(ips.v4[i]);
      }
      for i := 0 to |ips.v6|
        invariant Valid() && v4 == old(v4) + ips.v4 && v6 == old(v6) + ips.v6[..i]
      {
        assert ips.v6[i] in ips.v6;
        PushV6Range(ips.v6[i]);
      }
      assert ips.v6[..|ips.v6|] == ips.v6;
      DenotesConcat(old(v4), ips.v4);
      DenotesConcat(old(v6), ips.v6);
      UnionMembers(old(Value()), ips, Value());
    }

    /** Another set's ranges pushed one by one, and all of it put in order at the end
        (src/scope.rs:155-165). */
    method ExtendRanges(other: IpSet)
      requires Valid() && other.Valid()
      modifies this
      ensures Valid() && Tidy(Value())
      ensures Members(Value()) == Members(old(Value())) + old(Members(other.Value()))
    {
      PushRanges(other.Value());
      Canonicalize();
    }

    method IsEmpty() returns (empty: bool)
      requires Valid() && Tidy(Value())
      ensures empty <==> Members(Value()) == {}
    {
      SizeIsCardinality(Value());
      empty := v4 == [] && v6 == [];
    }

    method Len() returns (count: int)
      requires Valid() && Tidy(Value())
      ensures count == |Members(Value())|
    {
      SizeIsCardinality(Value());
      count := Size(Value());
    }
  }

  // ---------------------------------------------------------------------------
  // The policy.
  // ---------------------------------------------------------------------------

  datatype Bounds = Bounds(allowed: Option<Addresses>, denied: Addresses)

  /** Whether a policy lets a scan reach one address. */
  ghost predicate Allows(bounds: Bounds, a: IpAddress) {
    && (bounds.allowed.Some? ==> a in Members(bounds.allowed.value))
    && a !in Members(bounds.denied)
  }

  ghost predicate AllowsAll(bounds: Bounds, asked: set<IpAddress>) {
    forall a :: a in asked ==> Allows(bounds, a)
  }

  /** The addresses of `asked` a policy turns down. */
  ghost function TurnedDown(bounds: Bounds, asked: set<IpAddress>): set<IpAddress> {
    set a | a in asked && !Allows(bounds, a)
  }

  /** "This daemon may not scan these; so many addresses of the request are outside." */
  datatype Refusal = Refusal(ranges: Addresses, count: int)

  /** A refusal names these addresses, each once, and there are some. */
  ghost predicate NamesExactly(refusal: Refusal, down: set<IpAddress>) {
    Tidy(refusal.ranges) && Members(refusal.ranges) == down && refusal.count == |down| > 0
  }

  datatype Verdict = Permitted | Refused(refusal: Refusal)

  /** One expression of a policy, with what the engine's grammar reads it as. */
  datatype Expression = Expression(text: string, parsed: Option<IpValue>)

  datatype Side = AllowedSide | DeniedSide

  /** `scope.malformed`, naming the expression and the list it was in. */
  datatype Malformed = Malformed(text: string, side: Side)

  ghost predicate Parses(written: seq<Expression>) {
    forall e :: e in written ==> e.parsed.Some?
  }

  function ParsedSets(written: seq<Expression>): (sets: seq<IpValue>)
    requires Parses(written)
    ensures |sets| == |written|
  {
    if written == [] then []
    else
      assert forall e :: e in written[..|written| - 1] ==> e in written;
      ParsedSets(written[..|written| - 1]) + [written[|written| - 1].parsed.value]
  }

  /** The first expression of a list nobody could parse. */
  ghost predicate FirstUnread(written: seq<Expression>, text: string) {
    exists i :: 0 <= i < |written| && written[i].parsed.None? && written[i].text == text && Parses(written[..i])
  }

  class Scope {
    var allowed: IpSet?
    var denied: IpSet

    ghost predicate Valid() reads this, allowed, denied {
      && denied.Valid() && Tidy(denied.Value())
      && (allowed != null ==> allowed.Valid() && Tidy(allowed.Value()))
    }

    function Terms(): (bounds: Bounds)
      reads this, allowed, denied
      ensures Valid() ==> Settled(bounds)
    {
      Bounds(if allowed == null then None else Some(allowed.Value()), denied.Value())
    }

    /** No allow list and nothing denied (src/scope.rs:59-61). */
    constructor Anywhere()
      ensures Valid() && Terms() == Bounds(None, NO_ADDRESSES)
      ensures fresh(denied) && allowed == null
    {
      allowed := null;
      denied := new IpSet();
    }

    constructor Of(allowed: IpSet?, denied: IpSet)
      requires denied.Valid() && Tidy(denied.Value())
      requires allowed != null ==> allowed.Valid() && Tidy(allowed.Value())
      ensures Valid() && this.allowed == allowed && this.denied == denied
    {
      this.allowed, this.denied := allowed, denied;
    }

    /** Whether an operator gave a policy (src/scope.rs:78-80). */
    method IsBounded() returns (bounded: bool)
      requires Valid()
      ensures bounded <==> Bounding(Terms())
    {
      var empty := denied.IsEmpty();
      bounded := allowed != null || !empty;
    }

    /** What is left of a request once everything permitted is taken away
        (src/scope.rs:106-129). */
    method Outside(asked: IpSet) returns (beyond: IpSet)
      requires Valid() && asked.Valid()
      ensures fresh(beyond) && beyond.Valid() && Tidy(beyond.Value())
      ensures Members(beyond.Value()) == TurnedDown(Terms(), Members(asked.Value()))
    {
      ghost var all := Members(asked.Value());
      if allowed != null {
        beyond := asked.Less(allowed);
      } else {
        beyond := new IpSet();
      }

      var permitted := asked.Less(denied);
      var inside := asked.Less(permitted);
      TwoSubtractions(Terms(), all, Members(beyond.Value()), Members(permitted.Value()), Members(inside.Value()));
      beyond.ExtendRanges(inside);
    }

    /** The judgement itself: no address outside is a yes, and a no names them and says how
        many they are (src/scope.rs:88-103). */
    method Permits(asked: IpSet) returns (verdict: Verdict)
      requires Valid() && asked.Valid()
      ensures verdict.Permitted? <==> AllowsAll(Terms(), Members(asked.Value()))
      ensures verdict.Refused? ==> NamesExactly(verdict.refusal, TurnedDown(Terms(), Members(asked.Value())))
    {
      var refused := Outside(asked);
      var empty := refused.IsEmpty();
      ghost var down := TurnedDown(Terms(), Members(asked.Value()));
      if empty {
        assert forall a :: a in Members(asked.Value()) ==> a !in down;
        return Permitted;
      }
      ghost var a :| a in Members(refused.Value());
      var count := refused.Len();
      return Refused(Refusal(refused.Value(), count));
    }
  }

  lemma TwoSubtractions(bounds: Bounds, all: set<IpAddress>, beyond: set<IpAddress>,
                        permitted: set<IpAddress>, inside: set<IpAddress>)
    requires beyond == if bounds.allowed.Some? then all - Members(bounds.allowed.value) else {}
    requires permitted == all - Members(bounds.denied)
    requires inside == all - permitted
    ensures beyond + inside == TurnedDown(bounds, all)
  {
  }

  lemma OneMoreRead(written: seq<Expression>, i: nat)
    requires i < |written| && Parses(written[..i]) && written[i].parsed.Some?
    ensures Parses(written[..i + 1])
    ensures UnionOf(ParsedSets(written[..i + 1])) == UnionOf(ParsedSets(written[..i])) + Members(written[i].parsed.value)
  {
    var upto := written[..i + 1];
    assert upto == written[..i] + [written[i]];
    assert upto[..i] == written[..i];
    var sets := ParsedSets(upto);
    assert sets[..i] == ParsedSets(written[..i]);
  }

  /** One list of expressions, up to the first that is none (src/scope.rs:133-148). */
  method ReadSide(written: seq<Expression>, side: Side) returns (r: Result<IpSet, Malformed>)
    ensures r.Success? <==> Parses(written)
    ensures r.Success? ==>
      && fresh(r.value) && r.value.Valid() && Tidy(r.value.Value())
      && Members(r.value.Value()) == UnionOf(ParsedSets(written))
    ensures r.Failure? ==> r.error.side == side && FirstUnread(written, r.error.text)
  {
    var whole := new IpSet();
    for i := 0 to |written|
      invariant fresh(whole) && whole.Valid() && Tidy(whole.Value())
      invariant Parses(written[..i])
      invariant Members(whole.Value()) == UnionOf(ParsedSets(written[..i]))
    {
      if written[i].parsed.None? {
        assert written[i] in written;
        return Failure(Malformed(written[i].text, side));
      }
      OneMoreRead(written, i);
      var one := new IpSet.Of(written[i].parsed.value);
      whole.ExtendRanges(one);
    }
    assert written[..|written|] == written;
    return Success(whole);
  }

  /** Both lists; an allow list with nothing written in it is no list (src/scope.rs:67-75). */
  method Read(allowed: seq<Expression>, denied: seq<Expression>) returns (r: Result<Scope, Malformed>)
    ensures r.Success? <==> Parses(allowed) && Parses(denied)
    ensures r.Success? ==>
      && r.value.Valid()
      && (r.value.Terms().allowed.None? <==> allowed == [])
      && (allowed != [] ==> Members(r.value.Terms().allowed.value) == UnionOf(ParsedSets(allowed)))
      && Members(r.value.Terms().denied) == UnionOf(ParsedSets(denied))
    ensures r.Failure? ==>
      if Parses(allowed) then r.error.side == DeniedSide && FirstUnread(denied, r.error.text)
      else r.error.side == AllowedSide && FirstUnread(allowed, r.error.text)
  {
    var inside: IpSet? := null;
    if allowed != [] {
      var read := ReadSide(allowed, AllowedSide);
      if read.Failure? {
        return Failure(read.error);
      }
      inside := read.value;
    }
    var read := ReadSide(denied, DeniedSide);
    if read.Failure? {
      return Failure(read.error);
    }
    var scope := new Scope.Of(inside, read.value);
    return Success(scope);
  }

  // ---------------------------------------------------------------------------
  // What the arithmetic amounts to.
  // ---------------------------------------------------------------------------

  /** What is turned down is what lies outside the allow list together with what lies inside
      the deny list, however the two overlap. */
  lemma TurnedDownIsOutsideOrDenied(bounds: Bounds, asked: set<IpAddress>)
    ensures TurnedDown(bounds, asked) ==
            (if bounds.allowed.Some? then asked - Members(bounds.allowed.value) else {})
            + asked * Members(bounds.denied)
  {
  }

  /** The deny list of `bounds` holds what is written in `denied`. */
  ghost predicate DeniesWritten(bounds: Bounds, denied: seq<Expression>)
    requires Parses(denied)
  {
    Members(bounds.denied) == UnionOf(ParsedSets(denied))
  }

  /** Denying more never lets more through. */
  lemma DenyingMoreNeverPermitsMore(denied: seq<Expression>, more: seq<Expression>,
                                    less: Bounds, tighter: Bounds, asked: set<IpAddress>)
    requires Parses(denied) && Parses(denied + more) && less.allowed == tighter.allowed
    ensures DeniesWritten(less, denied) && DeniesWritten(tighter, denied + more) ==>
              (AllowsAll(tighter, asked) ==> AllowsAll(less, asked))
  {
    if DeniesWritten(less, denied) && DeniesWritten(tighter, denied + more) && AllowsAll(tighter, asked) {
      forall a | a in asked
        ensures Allows(less, a)
      {
        if a in UnionOf(ParsedSets(denied)) {
          UnionGrows(denied, more, a);
        }
      }
    }
  }

  lemma {:induction false} UnionGrows(written: seq<Expression>, more: seq<Expression>, a: IpAddress)
    requires Parses(written) && Parses(written + more)
    requires a in UnionOf(ParsedSets(written))
    ensures a in UnionOf(ParsedSets(written + more))
    decreases |more|
  {
    if more == [] {
      assert written + more == written;
    } else {
      var init := more[..|more| - 1];
      assert (written + more)[..|written + more| - 1] == written + init;
      assert forall e :: e in written + init ==> e in written + more;
      UnionGrows(written, init, a);
    }
  }

  /** What `is_bounded` answers. */
  ghost predicate Bounding(bounds: Bounds) { bounds.allowed.Some? || Members(bounds.denied) != {} }

  /** The two ranges that hold every address there is. */
  const EVERYWHERE: IpValue := Addresses([Range(0, TOP_V4)], [Range(0, TOP_V6)])

  /** A policy as `Read` leaves it. */
  predicate Settled(bounds: Bounds) {
    && WellFormed(bounds.denied) && Tidy(bounds.denied)
    && (bounds.allowed.Some? ==> WellFormed(bounds.allowed.value) && Tidy(bounds.allowed.value))
  }

  lemma EverywhereIsAll(a: IpAddress)
    ensures Tidy(EVERYWHERE) && a in Members(EVERYWHERE)
  {
    MembersByFamily(EVERYWHERE, a);
    assert EVERYWHERE.v4[1..] == [] && EVERYWHERE.v6[1..] == [];
    assert Denotes(EVERYWHERE.v4) == Span(Range(0, TOP_V4));
    assert Denotes(EVERYWHERE.v6) == Span(Range(0, TOP_V6));
  }

  lemma OnlyEverywhereIsAll(s: IpValue)
    requires Tidy(s)
    ensures (forall a :: a in Members(s)) <==> s == EVERYWHERE
  {
    forall a: IpAddress
      ensures a in Members(EVERYWHERE)
    {
      EverywhereIsAll(a);
    }
    if forall a :: a in Members(s) {
      EverywhereIsAll(Address(V4, 0));
      assert Members(s) == Members(EVERYWHERE);
      TidyUnique(s, EVERYWHERE);
    }
  }

  /** A policy refuses nothing exactly when it denies nothing and its allow list, if it has one,
      is the two full ranges. */
  lemma RefusesNothingExactly(bounds: Bounds)
    requires Settled(bounds)
    ensures (forall a :: Allows(bounds, a))
       <==> bounds.denied == NO_ADDRESSES && (bounds.allowed.Some? ==> bounds.allowed.value == EVERYWHERE)
  {
    SizeIsCardinality(bounds.denied);
    if bounds.allowed.Some? {
      OnlyEverywhereIsAll(bounds.allowed.value);
    }
    if forall a :: Allows(bounds, a) {
      NothingDenied(bounds);
    }
  }

  lemma NothingDenied(bounds: Bounds)
    requires forall a :: Allows(bounds, a)
    ensures Members(bounds.denied) == {}
    ensures bounds.allowed.Some? ==> forall a :: a in Members(bounds.allowed.value)
  {
    forall a: IpAddress
      ensures a !in Members(bounds.denied)
      ensures bounds.allowed.Some? ==> a in Members(bounds.allowed.value)
    {
      assert Allows(bounds, a);
    }
  }

  /** So "whether this policy bounds anything at all" fails for one policy: an allow list of
      everything counts as a bound and refuses no address. */
  lemma EverythingAllowedIsBounding()
    ensures Settled(Bounds(Some(EVERYWHERE), NO_ADDRESSES)) && Bounding(Bounds(Some(EVERYWHERE), NO_ADDRESSES))
    ensures forall a :: Allows(Bounds(Some(EVERYWHERE), NO_ADDRESSES), a)
    ensures EVERYWHERE == Addresses([Range(0, 0xFFFF_FFFF)], [Range(0, 0xFFFF_FFFF_FFFF_FFFF_FFFF_FFFF_FFFF_FFFF)])
  {
    EverywhereIsAll(Address(V4, 0));
    RefusesNothingExactly(Bounds(Some(EVERYWHERE), NO_ADDRESSES));
  }

  /** And for no other: the answer is whether something is refused, exactly when the policy is
      not that one. */
  lemma BoundingMeansRefusingExactly(bounds: Bounds)
    requires Settled(bounds)
    ensures (Bounding(bounds) <==> exists a :: !Allows(bounds, a)) <==> bounds != Bounds(Some(EVERYWHERE), NO_ADDRESSES)
  {
    RefusesNothingExactly(bounds);
    SizeIsCardinality(bounds.denied);
  }

  // ---------------------------------------------------------------------------
  // The reach of a plan.
  // ---------------------------------------------------------------------------

  function RangesIn(units: seq<IpValue>): nat {
    if units == [] then 0
    else RangesIn(units[..|units| - 1]) + |units[|units| - 1].v4| + |units[|units| - 1].v6|
  }

  /** All units of a plan gathered into one set, range by range (src/policy.rs:119-133). */
  method ReachedBy(units: seq<IpValue>) returns (whole: IpSet)
    ensures fresh(whole) && whole.Valid() && Tidy(whole.Value())
    ensures Members(whole.Value()) == UnionOf(units)
    ensures |whole.v4| + |whole.v6| <= RangesIn(units)
  {
    whole := new IpSet();
    for u := 0 to |units|
      invariant fresh(whole) && whole.Valid()
      invariant Members(whole.Value()) == UnionOf(units[..u])
      invariant |whole.v4| + |whole.v6| == RangesIn(units[..u])
    {
      whole.PushRanges(units[u]);
      assert units[..u + 1][..u] == units[..u];
    }
    assert units[..|units|] == units;
    whole.Canonicalize();
  }

  /** Judging the whole plan at once is judging every unit. */
  lemma JudgingThePlanJudgesEveryUnit(bounds: Bounds, units: seq<IpValue>)
    ensures AllowsAll(bounds, UnionOf(units)) <==> forall s :: s in units ==> AllowsAll(bounds, Members(s))
  {
    forall a: IpAddress
      ensures a in UnionOf(units) <==> exists s :: s in units && a in Members(s)
    {
      MemberOfUnion(units, a);
    }
    if AllowsAll(bounds, UnionOf(units)) {
      forall s, a | s in units && a in Members(s)
        ensures Allows(bounds, a)
      {
        assert a in UnionOf(units);
      }
    }
  }
}
