/** Who is let in and what is launched for them (src/scans.rs:348-393; src/start.rs:50-221,
    306-386; src/policy.rs:9-37), said of the inputs and the trace alone. */
module Admission {
  import opened Wrappers
  import opened Scope
  import opened AuditLog
  import opened Gate
  import opened Daemon

  // ---------------------------------------------------------------------------
  // Who gets a slot
  // ---------------------------------------------------------------------------

  /** src/scans.rs:349: without a ceiling there is room short of the widest count. */
  predicate HasRoom(c: Config, taken: nat) {
    match c.ceiling
    case None => taken < 0xFFFF_FFFF_FFFF_FFFF
    case Some(most) => taken < most
  }

  /** By moves of its own the request can come to where it is past `reserve` with a slot. */
  ghost predicate CanBeAdmitted(c: Config, s: State, id: nat) {
    exists moves, t ::
      Leads(c, s, moves, t) && AllBy(moves, id) && id in t.requests
      && t.requests[id].place.Reserved? && t.requests[id].slot
  }

  /** By moves of its own it can come to be refused for want of room. */
  ghost predicate CanBeRefused(c: Config, s: State, id: nat) {
    exists moves, t ::
      Leads(c, s, moves, t) && AllBy(moves, id) && id in t.requests && t.requests[id].place == Failed(AtCapacity)
  }

  /** Nobody but a resume on a daemon that keeps no records is turned away. */
  predicate Welcome(c: Config, r: Request) { r.asked.Start? || c.recording }

  /** One move of a request before the rest of them. */
  lemma OwnMove(c: Config, s: State, id: nat, choice: Choice, moves: seq<Move>, t: State)
    requires Can(c, s, Act(id, choice)) && Leads(c, Next(c, s, Act(id, choice)), moves, t) && AllBy(moves, id)
    ensures Leads(c, s, [Act(id, choice)] + moves, t) && AllBy([Act(id, choice)] + moves, id)
  {
    OneMoveFirst(c, s, Act(id, choice), moves, t, id);
  }

  predicate Stands(s: State, id: nat, asked: Asked, place: Place, slot: bool, seen: nat) {
    id in s.requests && s.requests[id] == Request(asked, place, slot, seen)
  }

  lemma Loads(c: Config, s: State, id: nat, asked: Asked, seen: nat) returns (t: State)
    requires Stands(s, id, asked, Arrived, false, seen) && (asked.Start? || c.recording)
    ensures Can(c, s, Act(id, Load)) && t == Next(c, s, Act(id, Load))
    ensures Stands(t, id, asked, Weighing, false, s.taken) && t.taken == s.taken
  {
    assert CanClaim(c, s.requests[id], Load);
    t := Next(c, s, Act(id, Load));
  }

  lemma Weighs(c: Config, s: State, id: nat, asked: Asked) returns (t: State)
    requires Stands(s, id, asked, Weighing, false, s.taken)
    ensures Can(c, s, Act(id, Weigh)) && t == Next(c, s, Act(id, Weigh)) && t.taken == s.taken
    ensures Stands(t, id, asked, if HasRoom(c, s.taken) then Swapping else Reserved, false, s.taken)
  {
    assert CanClaim(c, s.requests[id], Weigh);
    t := Next(c, s, Act(id, Weigh));
  }

  lemma Swaps(c: Config, s: State, id: nat, asked: Asked) returns (t: State)
    requires Stands(s, id, asked, Swapping, false, s.taken)
    ensures Can(c, s, Act(id, Swap(false))) && t == Next(c, s, Act(id, Swap(false)))
    ensures Stands(t, id, asked, Reserved, true, s.taken)
  {
    assert CanClaim(c, s.requests[id], Swap(false));
    t := Next(c, s, Act(id, Swap(false)));
  }

  /** To the end of `reserve`, with nobody in the way. */
  lemma Reserves(c: Config, s: State, id: nat) returns (moves: seq<Move>, t: State)
    requires id in s.requests && s.requests[id].place.Arrived? && !s.requests[id].slot && Welcome(c, s.requests[id])
    ensures Leads(c, s, moves, t) && AllBy(moves, id)
    ensures Stands(t, id, s.requests[id].asked, Reserved, HasRoom(c, s.taken), s.taken)
  {
    var asked := s.requests[id].asked;
    var s1 := Loads(c, s, id, asked, s.requests[id].seen);
    var s2 := Weighs(c, s1, id, asked);
    if HasRoom(c, s.taken) {
      t := Swaps(c, s2, id, asked);
      OwnMove(c, s2, id, Swap(false), [], t);
      moves := [Act(id, Swap(false))];
    } else {
      moves, t := [], s2;
    }
    OwnMove(c, s1, id, Weigh, moves, t);
    moves := [Act(id, Weigh)] + moves;
    OwnMove(c, s, id, Load, moves, t);
    moves := [Act(id, Load)] + moves;
  }

  // What it takes.

  /** Where a request stands that will not get a slot by itself. */
  predicate Shut(c: Config, taken: nat, r: Request) {
    && !r.slot && !r.place.Swapping?
    && (Unreserved(r.place) ==> !HasRoom(c, taken) || (r.place.Arrived? && !Welcome(c, r)))
    && (r.place.Weighing? ==> !HasRoom(c, r.seen))
  }

  lemma StaysShut(c: Config, taken: nat, id: nat, r: Request, m: Choice)
    requires CanAct(c, r, m) && Shut(c, taken, r)
    ensures Shut(c, Taking(c, taken, id, r, m).taken, Taking(c, taken, id, r, m).request)
  {
    if CanPass(c, r, m) {
      PassIsNeutral(c, taken, id, r, m);
    }
  }

  lemma {:induction false} RunStaysShut(c: Config, s: State, moves: seq<Move>, t: State, id: nat)
    requires Leads(c, s, moves, t) && AllBy(moves, id) && id in s.requests && Shut(c, s.taken, s.requests[id])
    ensures id in t.requests && !t.requests[id].slot
    decreases |moves|
  {
    if moves != [] {
      assert moves[0].Act? && moves[0].id == id;
      StaysShut(c, s.taken, id, s.requests[id], moves[0].choice);
      assert forall i :: 0 <= i < |moves[1..]| ==> moves[1..][i] == moves[i + 1];
      RunStaysShut(c, Next(c, s, moves[0]), moves[1..], t, id);
    }
  }

  /** Whatever state many racing requests have come to, a request that has just arrived can get a
      slot by itself exactly when the counter is short of the ceiling, unless it would resume a
      scan of a daemon that keeps no records. */
  lemma AdmittedExactly(c: Config, s: State, id: nat)
    requires Reachable(c, s) && id in s.requests && s.requests[id].place.Arrived?
    ensures CanBeAdmitted(c, s, id) <==> HasRoom(c, s.taken) && (s.requests[id].asked.Start? || c.recording)
  {
    Everywhere(c, s);
    assert SlotOk(c, s.requests[id]);
    if HasRoom(c, s.taken) && Welcome(c, s.requests[id]) {
      var moves, t := Reserves(c, s, id);
    } else {
      forall moves, t | Leads(c, s, moves, t) && AllBy(moves, id)
        ensures id in t.requests && !t.requests[id].slot
      {
        RunStaysShut(c, s, moves, t, id);
      }
    }
  }

  // The other way out of it.

  lemma RefusalRun(c: Config, s: State, id: nat, asked: Asked, seen: nat) returns (moves: seq<Move>, t: State)
    requires Stands(s, id, asked, Reserved, false, seen)
    ensures Leads(c, s, moves, t) && AllBy(moves, id) && id in t.requests && t.requests[id].place == Failed(AtCapacity)
  {
    if asked.Start? {
      moves, t := FromTheDoor(c, s, id);
    } else {
      var read := ReadRecord(Success(Plan(PortScan, None)));
      assert CanPass(c, s.requests[id], read);
      var s1 := Next(c, s, Act(id, read));
      moves, t := FromTheDoor(c, s1, id);
      OwnMove(c, s, id, read, moves, t);
      moves := [Act(id, read)] + moves;
    }
  }

  lemma FromTheDoor(c: Config, s: State, id: nat) returns (moves: seq<Move>, t: State)
    requires id in s.requests && CanPass(c, s.requests[id], TakeRoom) && !s.requests[id].slot
    ensures Leads(c, s, moves, t) && AllBy(moves, id) && id in t.requests && t.requests[id].place == Failed(AtCapacity)
  {
    var s1 := Next(c, s, Act(id, TakeRoom));
    assert s1.requests[id].place.Refusing? && s1.requests[id].place.fault == AtCapacity && !s1.requests[id].slot;
    assert CanPass(c, s1.requests[id], WriteRefusal(Takes));
    var s2 := Next(c, s1, Act(id, WriteRefusal(Takes)));
    assert s2.requests[id].place == Failing(AtCapacity) && !s2.requests[id].slot;
    assert CanLeave(c, s2.requests[id], Release);
    t := Next(c, s2, Act(id, Release));
    OwnMove(c, s2, id, Release, [], t);
    moves := [Act(id, Release)];
    OwnMove(c, s1, id, WriteRefusal(Takes), moves, t);
    moves := [Act(id, WriteRefusal(Takes))] + moves;
    OwnMove(c, s, id, TakeRoom, moves, t);
    moves := [Act(id, TakeRoom)] + moves;
  }

  /** Where a request stands that will not be refused for want of room by itself. */
  predicate Roomy(c: Config, taken: nat, r: Request) {
    && (Unreserved(r.place) ==> HasRoom(c, taken) || (r.place.Arrived? && !Welcome(c, r)))
    && (r.place.Arrived? || r.place == Failed(NoSuchScan) || r.seen < Ceiling(c))
  }

  lemma StaysRoomy(c: Config, taken: nat, id: nat, r: Request, m: Choice)
    requires CanAct(c, r, m) && Roomy(c, taken, r) && !(r.place == Failed(NoSuchScan))
    ensures var t := Taking(c, taken, id, r, m);
      t.taken == taken || !Unreserved(t.request.place)
    ensures Roomy(c, Taking(c, taken, id, r, m).taken, Taking(c, taken, id, r, m).request)
  {
    if CanPass(c, r, m) {
      PassIsNeutral(c, taken, id, r, m);
      PassKeepsSeen(c, taken, id, r, m);
    }
  }

  lemma PassKeepsSeen(c: Config, taken: nat, id: nat, r: Request, m: Choice)
    requires CanPass(c, r, m)
    ensures Pass(c, taken, id, r, m).request.seen == r.seen
  {
  }

  lemma {:induction false} RunStaysRoomy(c: Config, s: State, moves: seq<Move>, t: State, id: nat)
    requires Leads(c, s, moves, t) && AllBy(moves, id) && id in s.requests && Roomy(c, s.taken, s.requests[id])
    ensures id in t.requests && Roomy(c, t.taken, t.requests[id])
    decreases |moves|
  {
    if moves != [] {
      assert moves[0].Act? && moves[0].id == id;
      StaysRoomy(c, s.taken, id, s.requests[id], moves[0].choice);
      assert forall i :: 0 <= i < |moves[1..]| ==> moves[1..][i] == moves[i + 1];
      RunStaysRoomy(c, Next(c, s, moves[0]), moves[1..], t, id);
    }
  }

  lemma IsRefused(c: Config, s: State, id: nat) returns (moves: seq<Move>, t: State)
    requires id in s.requests && s.requests[id].place.Arrived? && !s.requests[id].slot
    requires Welcome(c, s.requests[id]) && !HasRoom(c, s.taken)
    ensures Leads(c, s, moves, t) && AllBy(moves, id) && id in t.requests && t.requests[id].place == Failed(AtCapacity)
  {
    var asked := s.requests[id].asked;
    var s1 := Loads(c, s, id, asked, s.requests[id].seen);
    var s2 := Weighs(c, s1, id, asked);
    moves, t := RefusalRun(c, s2, id, asked, s.taken);
    OwnMove(c, s1, id, Weigh, moves, t);
    moves := [Act(id, Weigh)] + moves;
    OwnMove(c, s, id, Load, moves, t);
    moves := [Act(id, Load)] + moves;
  }

  lemma NeverRefused(c: Config, s: State, moves: seq<Move>, t: State, id: nat)
    requires Invariant(c, s) && Leads(c, s, moves, t) && AllBy(moves, id)
    requires id in s.requests && Roomy(c, s.taken, s.requests[id])
    ensures id in t.requests && t.requests[id].place != Failed(AtCapacity)
  {
    RunStaysRoomy(c, s, moves, t, id);
    RunKeeps(c, s, moves, t);
    assert SlotOk(c, t.requests[id]);
  }

  /** And it can be refused for want of room by itself exactly when the counter is at the
      ceiling. */
  lemma RefusedExactly(c: Config, s: State, id: nat)
    requires Reachable(c, s) && id in s.requests && s.requests[id].place.Arrived?
    ensures CanBeRefused(c, s, id) <==> !HasRoom(c, s.taken) && (s.requests[id].asked.Start? || c.recording)
  {
    Everywhere(c, s);
    assert SlotOk(c, s.requests[id]);
    if !HasRoom(c, s.taken) && Welcome(c, s.requests[id]) {
      var moves, t := IsRefused(c, s, id);
    } else {
      forall moves, t | Leads(c, s, moves, t) && AllBy(moves, id)
        ensures id in t.requests && t.requests[id].place != Failed(AtCapacity)
      {
        NeverRefused(c, s, moves, t, id);
      }
    }
  }

  /** A start is never turned away before it is weighed. */
  lemma NoStartIsTurnedAway(c: Config, s: State, id: nat)
    requires id in s.requests && s.requests[id].asked.Start?
    ensures !Can(c, s, Act(id, TurnAway))
  {
  }

  // ---------------------------------------------------------------------------
  // What is launched, and for whom
  // ---------------------------------------------------------------------------

  predicate AsAsked(asked: Asked, kind: Kind, name: string) {
    match asked
    case Start(wanted) => kind == ScannedAs(wanted)
    case Resume(id) => name == id
  }

  predicate PlaceAsAsked(r: Request) {
    match r.place
    case Reading(kind) => r.asked.Start? && kind == ScannedAs(r.asked.kind)
    case Resolving(kind) => r.asked.Start? && kind == ScannedAs(r.asked.kind)
    case Judging(kind, _) => r.asked.Start? ==> kind == ScannedAs(r.asked.kind)
    case Journalling(kind, _) => r.asked.Start? && kind == ScannedAs(r.asked.kind)
    case Recording(kind, _, name) => AsAsked(r.asked, kind, name)
    case Launching(kind, _, name) => AsAsked(r.asked, kind, name)
    case _ => true
  }

  ghost predicate LaunchesAsAsked(trace: seq<Effect>, id: nat, asked: Asked) {
    forall e :: e in trace && e.Launched? && e.request == id ==> AsAsked(asked, e.kind, e.id)
  }

  /** A journal gives a scan its name. */
  ghost predicate NamedByJournal(trace: seq<Effect>, id: nat, r: Request) {
    forall e :: e in trace && e.Journalled? && e.request == id ==>
      && (r.place.Recording? || r.place.Launching? ==> r.place.id == e.id)
      && (forall l :: l in trace && l.Launched? && l.request == id ==> l.id == e.id)
  }

  ghost predicate Silent(trace: seq<Effect>, id: nat) { forall e :: e in trace ==> e.request != id }

  /** A resume on a daemon that keeps no records. */
  ghost predicate Unheard(c: Config, trace: seq<Effect>, id: nat, r: Request) {
    r.asked.Resume? && !c.recording ==>
      (r.place.Arrived? || r.place == Failed(NoSuchScan)) && !r.slot && Silent(trace, id)
  }

  ghost predicate Honest(c: Config, trace: seq<Effect>, id: nat, r: Request) {
    && PlaceAsAsked(r) && LaunchesAsAsked(trace, id, r.asked)
    && NamedByJournal(trace, id, r) && Unheard(c, trace, id, r)
  }

  lemma PassAsAsked(c: Config, taken: nat, id: nat, r: Request, m: Choice)
    requires CanPass(c, r, m) && PlaceAsAsked(r)
    requires r.place.Admitting? ==> r.asked.Resume?
    ensures var t := Pass(c, taken, id, r, m);
      && PlaceAsAsked(t.request) && t.request.asked == r.asked
      && (t.effects != [] && t.effects[0].Launched? ==> AsAsked(r.asked, t.effects[0].kind, t.effects[0].id))
  {
  }

  lemma PassNames(c: Config, taken: nat, id: nat, r: Request, m: Choice)
    requires CanPass(c, r, m)
    ensures var t := Pass(c, taken, id, r, m);
      && (t.effects != [] && t.effects[0].Journalled? ==>
            r.place.Journalling? && t.request.place.Recording? && t.request.place.id == t.effects[0].id)
      && (t.effects != [] && t.effects[0].Launched? ==> r.place.Launching? && t.effects[0].id == r.place.id)
      && (t.request.place.Launching? ==> r.place.Recording? && t.request.place.id == r.place.id)
      && (t.request.place.Recording? ==> r.place.Journalling? || Daemon.Before(r.place))
  {
  }

  lemma PassIsHonest(c: Config, trace: seq<Effect>, taken: nat, id: nat, r: Request, m: Choice)
    requires CanPass(c, r, m) && Honest(c, trace, id, r) && RequestOk(c, trace, id, r)
    ensures var t := Pass(c, taken, id, r, m); Honest(c, trace + t.effects, id, t.request)
  {
    PassIsNeutral(c, taken, id, r, m);
    PassAsAsked(c, taken, id, r, m);
    PassNames(c, taken, id, r, m);
  }

  lemma ClaimIsHonest(c: Config, trace: seq<Effect>, taken: nat, id: nat, r: Request, m: Choice)
    requires CanClaim(c, r, m) && Honest(c, trace, id, r)
    ensures var t := Claim(c, taken, id, r, m); Honest(c, trace + t.effects, id, t.request)
  {
  }

  lemma LeaveIsHonest(c: Config, trace: seq<Effect>, taken: nat, id: nat, r: Request, m: Choice)
    requires CanLeave(c, r, m) && Honest(c, trace, id, r)
    ensures var t := Leave(c, taken, id, r, m); Honest(c, trace + t.effects, id, t.request)
  {
  }

  ghost predicate AllHonest(c: Config, s: State) {
    forall id :: id in s.requests ==> Honest(c, s.trace, id, s.requests[id])
  }

  lemma OthersStayHonest(c: Config, trace: seq<Effect>, effects: seq<Effect>, id: nat, other: nat, r: Request)
    requires OneThing(id, effects) && other != id && Honest(c, trace, other, r)
    ensures Honest(c, trace + effects, other, r)
  {
  }

  lemma TurnIsHonest(c: Config, s: State, id: nat, m: Choice)
    requires Invariant(c, s) && AllHonest(c, s) && id in s.requests && CanAct(c, s.requests[id], m)
    ensures var t := Taking(c, s.taken, id, s.requests[id], m);
      OneThing(id, t.effects) && Honest(c, s.trace + t.effects, id, t.request)
  {
    var r := s.requests[id];
    assert Honest(c, s.trace, id, r) && RequestOk(c, s.trace, id, r) && SlotOk(c, r);
    TurnTells(c, s.trace, s.taken, id, r, m);
    if CanClaim(c, r, m) {
      ClaimIsHonest(c, s.trace, s.taken, id, r, m);
    } else if CanPass(c, r, m) {
      PassIsHonest(c, s.trace, s.taken, id, r, m);
    } else {
      LeaveIsHonest(c, s.trace, s.taken, id, r, m);
    }
  }

  lemma TurnKeepsHonest(c: Config, s: State, id: nat, turn: Turn)
    requires AllHonest(c, s) && OneThing(id, turn.effects) && Honest(c, s.trace + turn.effects, id, turn.request)
    ensures AllHonest(c, After(s, id, turn))
  {
    forall other | other in s.requests && other != id
      ensures Honest(c, s.trace + turn.effects, other, s.requests[other])
    {
      OthersStayHonest(c, s.trace, turn.effects, id, other, s.requests[other]);
    }
  }

  lemma StaysHonest(c: Config, s: State, m: Move)
    requires Invariant(c, s) && AllHonest(c, s) && Can(c, s, m)
    ensures AllHonest(c, Next(c, s, m))
  {
    match m
    case Arrive(id, asked) =>
      assert s.trace + [] == s.trace && Silent(s.trace, id);
      TurnKeepsHonest(c, s, id, Turn(Request(asked, Arrived, false, 0), s.taken, []));
    case Act(id, choice) =>
      TurnIsHonest(c, s, id, choice);
      TurnKeepsHonest(c, s, id, Taking(c, s.taken, id, s.requests[id], choice));
  }

  lemma {:induction false} RunStaysHonest(c: Config, s: State, moves: seq<Move>, t: State)
    requires Invariant(c, s) && AllHonest(c, s) && Leads(c, s, moves, t)
    ensures AllHonest(c, t)
    decreases |moves|
  {
    if moves != [] {
      Keeps(c, s, moves[0]);
      StaysHonest(c, s, moves[0]);
      RunStaysHonest(c, Next(c, s, moves[0]), moves[1..], t);
    }
  }

  lemma EverybodyIsHonest(c: Config, t: State)
    requires Reachable(c, t)
    ensures AllHonest(c, t) && Invariant(c, t)
  {
    Everywhere(c, t);
    assert Leads(c, Initial(), [], Initial());
    Everywhere(c, Initial());
    var moves :| Leads(c, Initial(), moves, t);
    RunStaysHonest(c, Initial(), moves, t);
  }

  /** What goes on the wire for a request is the kind of scan it asked for, and for a resume it
      goes by the name asked for; and where a journal was made, by the journal's. */
  lemma LaunchedAsAsked(c: Config, t: State, i: nat)
    requires Reachable(c, t) && i < |t.trace| && t.trace[i].Launched?
    ensures t.trace[i].request in t.requests
    ensures match t.requests[t.trace[i].request].asked
            case Start(kind) => t.trace[i].kind == if kind.OtherKind? then PortScan else kind
            case Resume(id) => t.trace[i].id == id
    ensures forall name :: Journalled(t.trace[i].request, name) in t.trace ==> t.trace[i].id == name
  {
    EverybodyIsHonest(c, t);
    var e := t.trace[i];
    assert e in t.trace;
    assert Honest(c, t.trace, e.request, t.requests[e.request]);
    forall name | Journalled(e.request, name) in t.trace
      ensures e.id == name
    {
      assert Journalled(e.request, name).Journalled?;
    }
  }

  /** A resume on a daemon that keeps no records comes to nothing, and leaves nothing. */
  lemma NoRecordNoResume(c: Config, t: State, id: nat)
    requires Reachable(c, t) && id in t.requests && t.requests[id].asked.Resume? && !c.recording
    ensures t.requests[id].place.Arrived? || t.requests[id].place == Failed(NoSuchScan)
    ensures !t.requests[id].slot && (forall e :: e in t.trace ==> e.request != id)
  {
    EverybodyIsHonest(c, t);
    assert Honest(c, t.trace, id, t.requests[id]);
  }

  /** Every address of every unit, or of the sweep, is one the policy allows. */
  ghost predicate Lawful(bounds: Bounds, reach: Reach) {
    match reach
    case Units(units) => forall unit :: unit in units ==> AllowsAll(bounds, Members(unit))
    case Sweep(addresses) => AllowsAll(bounds, Members(addresses))
    case Links => true
  }

  lemma LawfulIsAllowed(bounds: Bounds, reach: Reach)
    ensures Lawful(bounds, reach) <==> AllowsAll(bounds, Reached(reach))
  {
    if reach.Units? {
      JudgingThePlanJudgesEveryUnit(bounds, reach.units);
    }
  }

  /** No address of any sweep that was launched, started or resumed, is outside the allow list or
      inside the deny list. */
  lemma EverySweptAddressIsAllowed(c: Config, t: State, i: nat, a: IpAddress)
    requires Reachable(c, t) && i < |t.trace| && t.trace[i].Launched?
    requires t.trace[i].reach.Sweep? && a in Members(t.trace[i].reach.addresses)
    ensures c.bounds.allowed.Some? ==> a in Members(c.bounds.allowed.value)
    ensures a !in Members(c.bounds.denied)
  {
    NothingUnaccounted(c, t, i);
    assert AllowsAll(c.bounds, Members(t.trace[i].reach.addresses));
    assert Allows(c.bounds, a);
  }

  /** A request that has failed has failed for good, and by the fault it first met. */
  lemma {:induction false} FailuresStand(c: Config, s: State, moves: seq<Move>, t: State, id: nat, fault: Fault)
    requires Leads(c, s, moves, t) && id in s.requests
    requires s.requests[id].place == Failing(fault) || s.requests[id].place == Failed(fault)
    ensures id in t.requests && (t.requests[id].place == Failing(fault) || t.requests[id].place == Failed(fault))
    decreases |moves|
  {
    if moves != [] {
      FailureStands(c, s, moves[0], id, fault);
      FailuresStand(c, Next(c, s, moves[0]), moves[1..], t, id, fault);
    }
  }

  lemma FailureStands(c: Config, s: State, m: Move, id: nat, fault: Fault)
    requires Can(c, s, m) && id in s.requests
    requires s.requests[id].place == Failing(fault) || s.requests[id].place == Failed(fault)
    ensures var t := Next(c, s, m);
      id in t.requests && (t.requests[id].place == Failing(fault) || t.requests[id].place == Failed(fault))
  {
  }

  // ---------------------------------------------------------------------------
  // A journal without a scan
  // ---------------------------------------------------------------------------

  lemma {:induction false} ReachesAll(c: Config, s: State, moves: seq<Move>, t: State)
    requires Reachable(c, s) && Leads(c, s, moves, t)
    ensures Reachable(c, t)
    decreases |moves|
  {
    if moves != [] {
      ReachesOn(c, s, moves[0]);
      ReachesAll(c, Next(c, s, moves[0]), moves[1..], t);
    }
  }

  /** One move of the only request. */
  lemma Goes(c: Config, s: State, choice: Choice) returns (t: State)
    requires Reachable(c, s) && Can(c, s, Act(0, choice))
    ensures Reachable(c, t) && t == Next(c, s, Act(0, choice))
  {
    ReachesOn(c, s, Act(0, choice));
    t := Next(c, s, Act(0, choice));
  }

  /** A listen that has been let in. */
  lemma ComesToReading(c: Config) returns (t: State)
    requires HasRoom(c, 0)
    ensures Reachable(c, t) && 0 in t.requests && t.requests[0].place == Reading(Listen)
  {
    assert Leads(c, Initial(), [], Initial());
    ReachesOn(c, Initial(), Arrive(0, Start(Listen)));
    var s := Next(c, Initial(), Arrive(0, Start(Listen)));
    var moves, s1 := Reserves(c, s, 0);
    ReachesAll(c, s, moves, s1);
    assert CanPass(c, s1.requests[0], TakeRoom);
    t := Goes(c, s1, TakeRoom);
  }

  /** Its journal made and its line still to write. */
  lemma ComesToRecording(c: Config, name: string) returns (t: State)
    requires c.recording && HasRoom(c, 0)
    ensures Reachable(c, t) && 0 in t.requests && t.requests[0].place == Recording(Listen, Links, name)
    ensures Journalled(0, name) in t.trace
  {
    var s := ComesToReading(c);
    t := Journals(c, s, name);
  }

  lemma Journals(c: Config, s: State, name: string) returns (t: State)
    requires Reachable(c, s) && 0 in s.requests && s.requests[0].place == Reading(Listen) && c.recording
    ensures Reachable(c, t) && 0 in t.requests && t.requests[0].place == Recording(Listen, Links, name)
    ensures Journalled(0, name) in t.trace
  {
    assert CanPass(c, s.requests[0], ReadRequest(None));
    var s1 := Goes(c, s, ReadRequest(None));
    assert s1.requests[0].place == Resolving(Listen);
    assert CanPass(c, s1.requests[0], Resolve(Success(Links)));
    var s2 := Goes(c, s1, Resolve(Success(Links)));
    assert s2.requests[0].place == Journalling(Listen, Links);
    assert CanPass(c, s2.requests[0], Journal(Some(name), ""));
    t := Goes(c, s2, Journal(Some(name), ""));
    assert t.trace == s2.trace + [Journalled(0, name)];
  }

  lemma ComesToAwaiting(c: Config, name: string) returns (t: State)
    requires c.recording && HasRoom(c, 0)
    ensures Reachable(c, t) && 0 in t.requests && t.requests[0].place == Awaiting(name) && Journalled(0, name) in t.trace
  {
    var s := ComesToRecording(c, name);
    assert CanPass(c, s.requests[0], WriteStart(Takes));
    var s1 := Goes(c, s, WriteStart(Takes));
    assert s1.requests[0].place == Launching(Listen, Links, name);
    assert CanPass(c, s1.requests[0], Launch);
    t := Goes(c, s1, Launch);
  }

  /** Each of the three ways to be left with a journal and no scan there is
      (`Daemon.JournalLeftBehind`): the line that could not be written, the engine's error, and a
      request given up while the engine is asked. */
  lemma EachWayToLeaveAJournal(c: Config, name: string, fault: Fault) returns (t: State)
    requires c.recording && HasRoom(c, 0)
    requires fault == EngineError || fault == Abandoned || (fault == AuditUnwritable(false) && c.auditing)
    ensures Reachable(c, t) && 0 in t.requests && t.requests[0].place == Failed(fault)
    ensures Journalled(0, name) in t.trace
  {
    var s: State;
    var way: Choice;
    if fault.AuditUnwritable? {
      s := ComesToRecording(c, name);
      way := WriteStart(Fails(0));
      assert CanPass(c, s.requests[0], way);
    } else {
      s := ComesToAwaiting(c, name);
      way := if fault.EngineError? then EngineAnswers(false) else Abandon;
      assert CanLeave(c, s.requests[0], way);
    }
    var s1 := Goes(c, s, way);
    assert s1.requests[0].place == Failing(fault) && Journalled(0, name) in s1.trace;
    assert CanLeave(c, s1.requests[0], Release);
    t := Goes(c, s1, Release);
  }

  lemma ComesToResolving(c: Config) returns (t: State)
    requires HasRoom(c, 0)
    ensures Reachable(c, t) && 0 in t.requests && t.requests[0].place == Resolving(Listen)
    ensures Unlaunched(t.trace, 0) && Unjournalled(t.trace, 0)
  {
    var s := ComesToReading(c);
    assert CanPass(c, s.requests[0], ReadRequest(None));
    t := Goes(c, s, ReadRequest(None));
    Everywhere(c, t);
    assert RequestOk(c, t.trace, 0, t.requests[0]);
  }

  /** A request given up while its targets are being resolved has left nothing behind and holds
      nothing. */
  lemma GivenUpWhileResolving(c: Config) returns (t: State)
    requires HasRoom(c, 0)
    ensures Reachable(c, t) && 0 in t.requests && t.requests[0].place == Failed(Abandoned) && !t.requests[0].slot
    ensures Unlaunched(t.trace, 0) && Unjournalled(t.trace, 0)
  {
    var s := ComesToResolving(c);
    assert CanLeave(c, s.requests[0], Abandon);
    var s1 := Goes(c, s, Abandon);
    assert s1.requests[0].place == Failing(Abandoned) && s1.trace == s.trace;
    assert CanLeave(c, s1.requests[0], Release);
    t := Goes(c, s1, Release);
  }

  /** An exchange may fail though nobody was in the way, and is then tried again. */
  lemma AnExchangeMayFail(c: Config, s: State, id: nat) returns (m: Move)
    requires id in s.requests && s.requests[id].place.Swapping?
    ensures Can(c, s, m) && m.Act? && m.id == id && Next(c, s, m).taken == s.taken
    ensures id in Next(c, s, m).requests && Next(c, s, m).requests[id].place.Weighing?
    ensures Next(c, s, m).requests[id].slot == s.requests[id].slot && Next(c, s, m).requests[id].seen == s.taken
  {
    assert CanClaim(c, s.requests[id], Swap(true));
    m := Act(id, Swap(true));
  }
}
