/** Many requests at once through admission and the gate (src/scans.rs:282-407, 718-725;
    src/start.rs:50-221, 306-386; src/policy.rs:9-37).

    Each move is one atomic access or one call whose outcome lies outside this daemon: a load
    or a compare-and-exchange of the counter, the resolver's answer, the journal's, an audit
    write, the engine's launch and its answer. Moves of any number of requests interleave.
    `trace` is everything they did that can be seen afterwards, in order. */
module Daemon {
  import opened Wrappers
  import opened Scope
  import opened AuditLog
  import opened Gate

  // ---------------------------------------------------------------------------
  // State
  // ---------------------------------------------------------------------------

  const USIZE_MAX: nat := 0xFFFF_FFFF_FFFF_FFFF

  datatype Config = Config(ceiling: Option<nat>, bounds: Bounds, auditing: bool, recording: bool)

  function Ceiling(c: Config): nat {
    if c.ceiling.Some? then c.ceiling.value else USIZE_MAX
  }

  /** What a scan will reach, as it is handed to the engine. */
  datatype Reach = Units(units: seq<IpValue>) | Sweep(addresses: IpValue) | Links

  ghost function Reached(reach: Reach): set<IpAddress> {
    match reach
    case Units(units) => UnionOf(units)
    case Sweep(addresses) => Members(addresses)
    case Links => {}
  }

  predicate Fits(kind: Kind, reach: Reach) {
    match kind
    case PortScan => reach.Units?
    case Discovery => reach.Sweep?
    case Listen => reach.Links?
    case OtherKind => false
  }

  datatype Asked = Start(kind: Kind) | Resume(id: string)

  /** What a record says a resumed scan was to do. */
  datatype Plan = Plan(kind: Kind, reach: Option<Reach>)

  datatype Place =
    | Arrived
    | Weighing                                          // scans.rs:353, `seen` read
    | Swapping                                          // scans.rs:357
    | Reserved                                          // scans.rs:374, 389
    | Admitting(plan: Plan)                             // start.rs:324
    | Refusing(fault: Fault, called: string)            // policy.rs:80, 99
    | Reading(kind: Kind)                               // start.rs:85, 138, 184
    | Resolving(kind: Kind)                             // start.rs:99-110, 146-156, 195
    | Judging(kind: Kind, reach: Reach)                 // start.rs:112, 158, 337, 357
    | Journalling(kind: Kind, reach: Reach)             // start.rs:114, 160, 207
    | Recording(kind: Kind, reach: Reach, id: string)   // start.rs:119, 165, 212, 342, 358, 372
    | Launching(kind: Kind, reach: Reach, id: string)   // start.rs:121, 167, 214, 344, 360, 375
    | Awaiting(id: string)                              // .await
    | Filing(id: string)                                // scans.rs:396
    | Running(id: string)                               // the follower holds the slot
    | Closed(id: string)                                // scans.rs:721
    | Over(id: string)                                  // scans.rs:725
    | Failing(fault: Fault)                             // `?`, the slot about to be dropped
    | Failed(fault: Fault)

  /** `slot` is whether this request, or the follower it became, holds a slot; `seen` is the
      counter as it last read it. */
  datatype Request = Request(asked: Asked, place: Place, slot: bool, seen: nat)

  datatype Effect =
    | Claimed(request: nat)
    | Released(request: nat)
    | Audited(request: nat, line: Line)
    | Torn(request: nat, left: Attempt)                 // a line that failed, and what it left in the file
    | Journalled(request: nat, id: string)
    | Launched(request: nat, id: string, kind: Kind, reach: Reach)

  datatype State = State(taken: nat, requests: map<nat, Request>, trace: seq<Effect>)

  function Initial(): State { State(0, map[], []) }

  // ---------------------------------------------------------------------------
  // Moves of one request
  // ---------------------------------------------------------------------------

  datatype Choice =
    | TurnAway                                          // scans.rs:385-387
    | Load                                              // scans.rs:350
    | Weigh
    | Swap(spurious: bool)
    | ReadRecord(record: Result<Plan, Fault>)
    | TakeRoom
    | WriteRefusal(disk: Disk)
    | ReadRequest(refused: Option<Fault>)
    | Resolve(answer: Result<Reach, Fault>)
    | Judge
    | Journal(created: Option<string>, minted: string)
    | WriteStart(disk: Disk)
    | Launch
    | EngineAnswers(ok: bool)
    | File
    | CloseLog
    | GiveBack
    | Release
    | Abandon                                           // the answering task is dropped at an await

  /** What one move leaves of the request and the counter, and what it did. */
  datatype Turn = Turn(request: Request, taken: nat, effects: seq<Effect>)

  /** Errors that are not the gate's own. */
  predicate Ordinary(fault: Fault) {
    fault.NoSuchScan? || fault.WrongPhase? || fault.NoTargets? || fault.NoLinks? || fault.UnknownLink?
    || fault.Malformed? || fault.EngineError?
  }

  /** `fetch_sub`, which would wrap. */
  function Less(taken: nat): nat { if taken == 0 then USIZE_MAX else taken - 1 }

  // Claiming a slot.

  predicate CanClaim(c: Config, r: Request, m: Choice) {
    match m
    case TurnAway => r.place.Arrived? && r.asked.Resume? && !c.recording
    case Load => r.place.Arrived? && (r.asked.Resume? ==> c.recording)
    case Weigh => r.place.Weighing?
    case Swap(_) => r.place.Swapping?
    case _ => false
  }

  function Claim(c: Config, taken: nat, id: nat, r: Request, m: Choice): Turn
    requires CanClaim(c, r, m)
  {
    match m
    case TurnAway => Turn(r.(place := Failed(NoSuchScan)), taken, [])
    case Load => Turn(r.(place := Weighing, seen := taken), taken, [])
    case Weigh => Turn(r.(place := if r.seen >= Ceiling(c) then Reserved else Swapping), taken, [])
    case Swap(spurious) =>
      if taken == r.seen && !spurious then Turn(r.(place := Reserved, slot := true), taken + 1, [Claimed(id)])
      else Turn(r.(place := Weighing, seen := taken), taken, [])
  }

  // From the slot to the wire.

  predicate CanPass(c: Config, r: Request, m: Choice) {
    match m
    case ReadRecord(record) => r.place.Reserved? && r.asked.Resume? && (record.Failure? ==> Ordinary(record.error))
    case TakeRoom => (r.place.Reserved? && r.asked.Start?) || (r.place.Admitting? && r.asked.Resume?)
    case WriteRefusal(_) => r.place.Refusing?
    case ReadRequest(refused) => r.place.Reading? && (refused.Some? ==> Ordinary(refused.value))
    case Resolve(answer) => r.place.Resolving? &&
      (if answer.Success? then Fits(r.place.kind, answer.value) else Ordinary(answer.error))
    case Judge => r.place.Judging?
    case Journal(_, _) => r.place.Journalling?
    case WriteStart(_) => r.place.Recording?
    case Launch => r.place.Launching?
    case _ => false
  }

  /** Before anything else is decided: is there room (start.rs:56-71, 324-385)? */
  function Admit(r: Request): Place
    requires (r.place.Reserved? && r.asked.Start?) || (r.place.Admitting? && r.asked.Resume?)
  {
    var kind := if r.asked.Start? then r.asked.kind else r.place.plan.kind;
    if !r.slot then Refusing(AtCapacity, AuditedAs(kind))
    else if r.asked.Start? then Reading(if kind.OtherKind? then PortScan else kind)
    else if r.place.plan.reach.None? || !Fits(kind, r.place.plan.reach.value) then Failing(WrongPhase)
    else if kind.Listen? then Recording(kind, r.place.plan.reach.value, r.asked.id)
    else Judging(kind, r.place.plan.reach.value)
  }

  ghost function Pass(c: Config, taken: nat, id: nat, r: Request, m: Choice): Turn
    requires CanPass(c, r, m)
  {
    match m
    case ReadRecord(record) =>
      Turn(r.(place := if record.Success? then Admitting(record.value) else Failing(record.error)), taken, [])
    case TakeRoom => Turn(r.(place := Admit(r)), taken, [])
    case WriteRefusal(disk) =>
      var line := RefusedLine(r.place.fault, r.place.called);
      if !c.auditing then Turn(r.(place := Failing(r.place.fault)), taken, [])
      else if disk.Fails? then Turn(r.(place := Failing(AuditUnwritable(true))), taken, [Torn(id, Attempted(line, disk))])
      else Turn(r.(place := Failing(r.place.fault)), taken, [Audited(id, line)])
    case ReadRequest(refused) =>
      Turn(r.(place := if refused.Some? then Failing(refused.value) else Resolving(r.place.kind)), taken, [])
    case Resolve(answer) =>
      Turn(r.(place := if answer.Failure? then Failing(answer.error)
                       else if r.place.kind.Listen? then Journalling(r.place.kind, answer.value)
                       else Judging(r.place.kind, answer.value)), taken, [])
    case Judge =>
      var kind, reach := r.place.kind, r.place.reach;
      Turn(r.(place := if !AllowsAll(c.bounds, Reached(reach)) then Refusing(ScopeRefused, AuditedAs(kind))
                       else if r.asked.Resume? then Recording(kind, reach, r.asked.id)
                       else Journalling(kind, reach)), taken, [])
    case Journal(created, minted) =>
      var kind, reach := r.place.kind, r.place.reach;
      if c.recording && created.Some?
      then Turn(r.(place := Recording(kind, reach, created.value)), taken, [Journalled(id, created.value)])
      else Turn(r.(place := Recording(kind, reach, minted)), taken, [])
    case WriteStart(disk) =>
      var kind, reach, name := r.place.kind, r.place.reach, r.place.id;
      var line := StartedLine(name, AuditedAs(kind));
      if !c.auditing then Turn(r.(place := Launching(kind, reach, name)), taken, [])
      else if disk.Fails? then Turn(r.(place := Failing(AuditUnwritable(false))), taken, [Torn(id, Attempted(line, disk))])
      else Turn(r.(place := Launching(kind, reach, name)), taken, [Audited(id, line)])
    case Launch =>
      Turn(r.(place := Awaiting(r.place.id)), taken, [Launched(id, r.place.id, r.place.kind, r.place.reach)])
  }

  // From the wire to the end.

  /** Where a request future may be dropped before the scan is filed. */
  predicate AtAwait(place: Place) { place.Resolving? || place.Awaiting? }

  predicate CanLeave(c: Config, r: Request, m: Choice) {
    match m
    case EngineAnswers(_) => r.place.Awaiting?
    case File => r.place.Filing?
    case CloseLog => r.place.Running?
    case GiveBack => r.place.Closed?
    case Release => r.place.Failing?
    case Abandon => AtAwait(r.place)
    case _ => false
  }

  function Leave(c: Config, taken: nat, id: nat, r: Request, m: Choice): Turn
    requires CanLeave(c, r, m)
  {
    match m
    case EngineAnswers(ok) => Turn(r.(place := if ok then Filing(r.place.id) else Failing(EngineError)), taken, [])
    case File => Turn(r.(place := Running(r.place.id)), taken, [])
    case CloseLog => Turn(r.(place := Closed(r.place.id)), taken, [])
    case GiveBack => Dropping(taken, id, r.(place := Over(r.place.id)))
    case Release => Dropping(taken, id, r.(place := Failed(r.place.fault)))
    case Abandon => Turn(r.(place := Failing(Abandoned)), taken, [])
  }

  /** `Slot::drop`, where there is one. */
  function Dropping(taken: nat, id: nat, r: Request): Turn {
    if r.slot then Turn(r.(slot := false), Less(taken), [Released(id)]) else Turn(r, taken, [])
  }

  // ---------------------------------------------------------------------------
  // All of them together
  // ---------------------------------------------------------------------------

  datatype Move = Arrive(id: nat, asked: Asked) | Act(id: nat, choice: Choice)

  predicate CanAct(c: Config, r: Request, m: Choice) {
    CanClaim(c, r, m) || CanPass(c, r, m) || CanLeave(c, r, m)
  }

  ghost function Taking(c: Config, taken: nat, id: nat, r: Request, m: Choice): Turn
    requires CanAct(c, r, m)
  {
    if CanClaim(c, r, m) then Claim(c, taken, id, r, m)
    else if CanPass(c, r, m) then Pass(c, taken, id, r, m)
    else Leave(c, taken, id, r, m)
  }

  predicate Can(c: Config, s: State, m: Move) {
    match m
    case Arrive(id, _) => id !in s.requests
    case Act(id, choice) => id in s.requests && CanAct(c, s.requests[id], choice)
  }

  function After(s: State, id: nat, turn: Turn): State {
    State(turn.taken, s.requests[id := turn.request], s.trace + turn.effects)
  }

  ghost function Next(c: Config, s: State, m: Move): State
    requires Can(c, s, m)
  {
    match m
    case Arrive(id, asked) => After(s, id, Turn(Request(asked, Arrived, false, 0), s.taken, []))
    case Act(id, choice) => After(s, id, Taking(c, s.taken, id, s.requests[id], choice))
  }

  ghost predicate Leads(c: Config, s: State, moves: seq<Move>, t: State)
    decreases |moves|
  {
    if moves == [] then s == t
    else Can(c, s, moves[0]) && Leads(c, Next(c, s, moves[0]), moves[1..], t)
  }

  ghost predicate Reachable(c: Config, t: State) {
    exists moves :: Leads(c, Initial(), moves, t)
  }

  lemma {:induction false} LeadsFurther(c: Config, s: State, moves: seq<Move>, t: State, m: Move)
    requires Leads(c, s, moves, t) && Can(c, t, m)
    ensures Leads(c, s, moves + [m], Next(c, t, m))
    decreases |moves|
  {
    if moves == [] {
      assert moves + [m] == [m] && [m][1..] == [];
    } else {
      LeadsFurther(c, Next(c, s, moves[0]), moves[1..], t, m);
      assert (moves + [m])[1..] == moves[1..] + [m];
    }
  }

  lemma ReachesOn(c: Config, s: State, m: Move)
    requires Reachable(c, s) && Can(c, s, m)
    ensures Reachable(c, Next(c, s, m))
  {
    var moves :| Leads(c, Initial(), moves, s);
    LeadsFurther(c, Initial(), moves, s, m);
  }

  // ---------------------------------------------------------------------------
  // The counter and the slots
  // ---------------------------------------------------------------------------

  ghost function Holders(s: State): set<nat> {
    set id | id in s.requests && s.requests[id].slot
  }

  ghost function OpenScans(s: State): set<nat> {
    set id | id in s.requests && (s.requests[id].place.Filing? || s.requests[id].place.Running?)
  }

  predicate Unreserved(place: Place) { place.Arrived? || place.Weighing? || place.Swapping? }

  /** Places only a request holding a slot gets to. */
  predicate Slotted(place: Place) {
    place.Reading? || place.Resolving? || place.Judging? || place.Journalling? || place.Recording?
    || place.Launching? || place.Awaiting? || place.Filing? || place.Running? || place.Closed?
  }

  predicate Refusals(fault: Fault) { fault.AtCapacity? || fault.ScopeRefused? }

  /** What the counter's history and a request's place say of each other. */
  predicate SlotOk(c: Config, r: Request) {
    && r.seen <= Ceiling(c)
    && (Unreserved(r.place) || r.place.Over? || r.place.Failed? ==> !r.slot)
    && (Slotted(r.place) ==> r.slot)
    && (r.place.Swapping? ==> r.seen < Ceiling(c))
    && (r.place.Reserved? || r.place.Admitting? ==> (!r.slot ==> r.seen == Ceiling(c)))
    && (r.place.Refusing? && r.place.fault == AtCapacity ==> !r.slot && r.seen == Ceiling(c))
    && (r.place.Failing? && r.place.fault == AtCapacity ==> !r.slot && r.seen == Ceiling(c))
    && (r.place.Failed? && r.place.fault == AtCapacity ==> r.seen == Ceiling(c))
    && (r.place.Refusing? ==> Refusals(r.place.fault))
  }

  ghost predicate CounterOk(c: Config, s: State) {
    && s.taken == |Holders(s)| <= Ceiling(c)
    && (forall id :: id in s.requests ==> SlotOk(c, s.requests[id]))
  }

  lemma ClaimKeepsSlot(c: Config, taken: nat, id: nat, r: Request, m: Choice)
    requires taken <= Ceiling(c) && SlotOk(c, r) && CanClaim(c, r, m)
    ensures var t := Claim(c, taken, id, r, m);
      && SlotOk(c, t.request) && t.taken <= Ceiling(c)
      && (if t.request.slot && !r.slot then t.taken == taken + 1 else t.request.slot == r.slot && t.taken == taken)
  {
  }

  lemma PassKeepsSlot(c: Config, taken: nat, id: nat, r: Request, m: Choice)
    requires SlotOk(c, r) && CanPass(c, r, m)
    ensures SlotOk(c, Pass(c, taken, id, r, m).request)
    ensures Pass(c, taken, id, r, m).taken == taken && Pass(c, taken, id, r, m).request.slot == r.slot
  {
  }

  lemma LeaveKeepsSlot(c: Config, taken: nat, id: nat, r: Request, m: Choice)
    requires SlotOk(c, r) && CanLeave(c, r, m) && (r.slot ==> taken > 0)
    ensures var t := Leave(c, taken, id, r, m);
      && SlotOk(c, t.request)
      && (if r.slot && !t.request.slot then t.taken == taken - 1 else t.request.slot == r.slot && t.taken == taken)
  {
  }

  lemma TurnKeepsSlot(c: Config, taken: nat, id: nat, r: Request, m: Choice)
    requires taken <= Ceiling(c) && SlotOk(c, r) && CanAct(c, r, m) && (r.slot ==> taken > 0)
    ensures var t := Taking(c, taken, id, r, m);
      && SlotOk(c, t.request) && t.taken <= Ceiling(c)
      && (t.request.slot == r.slot ==> t.taken == taken)
      && (t.request.slot && !r.slot ==> t.taken == taken + 1)
      && (!t.request.slot && r.slot ==> t.taken == taken - 1)
  {
    if CanClaim(c, r, m) {
      ClaimKeepsSlot(c, taken, id, r, m);
    } else if CanPass(c, r, m) {
      PassKeepsSlot(c, taken, id, r, m);
    } else {
      LeaveKeepsSlot(c, taken, id, r, m);
    }
  }

  lemma HoldersChange(s: State, id: nat, turn: Turn)
    ensures Holders(After(s, id, turn)) == if turn.request.slot then Holders(s) + {id} else Holders(s) - {id}
  {
  }

  lemma HoldersCount(s: State, id: nat, turn: Turn)
    ensures id !in Holders(s) && turn.request.slot ==> |Holders(After(s, id, turn))| == |Holders(s)| + 1
    ensures id in Holders(s) && !turn.request.slot ==> |Holders(After(s, id, turn))| == |Holders(s)| - 1
    ensures (id in Holders(s) <==> turn.request.slot) ==> |Holders(After(s, id, turn))| == |Holders(s)|
  {
    HoldersChange(s, id, turn);
    if id in Holders(s) {
      assert Holders(s) + {id} == Holders(s);
    } else {
      assert Holders(s) - {id} == Holders(s);
    }
  }

  /** A turn that moves the counter as it moves the slot keeps the two in step. */
  lemma TurnKeepsCounter(c: Config, s: State, id: nat, turn: Turn)
    requires CounterOk(c, s) && SlotOk(c, turn.request) && turn.taken <= Ceiling(c)
    requires turn.taken == s.taken + (if turn.request.slot then 1 else 0) - (if id in Holders(s) then 1 else 0)
    ensures CounterOk(c, After(s, id, turn))
  {
    HoldersCount(s, id, turn);
  }

  lemma CounterKeeps(c: Config, s: State, m: Move)
    requires CounterOk(c, s) && Can(c, s, m)
    ensures CounterOk(c, Next(c, s, m))
  {
    match m
    case Arrive(id, asked) =>
      TurnKeepsCounter(c, s, id, Turn(Request(asked, Arrived, false, 0), s.taken, []));
    case Act(id, choice) => ActKeepsCounter(c, s, id, choice);
  }

  lemma ActKeepsCounter(c: Config, s: State, id: nat, choice: Choice)
    requires CounterOk(c, s) && id in s.requests && CanAct(c, s.requests[id], choice)
    ensures CounterOk(c, After(s, id, Taking(c, s.taken, id, s.requests[id], choice)))
  {
    var r := s.requests[id];
    SomebodyHolds(s, id);
    TurnKeepsSlot(c, s.taken, id, r, choice);
    TurnKeepsCounter(c, s, id, Taking(c, s.taken, id, r, choice));
  }

  lemma SomebodyHolds(s: State, id: nat)
    ensures id in Holders(s) ==> |Holders(s)| > 0
  {
  }

  // ---------------------------------------------------------------------------
  // What each request has done so far
  // ---------------------------------------------------------------------------

  predicate Before(place: Place) {
    Unreserved(place) || place.Reserved? || place.Admitting? || place.Refusing? || place.Reading?
    || place.Resolving? || place.Judging?
  }

  /** Nothing of this request has reached the wire. */
  ghost predicate Unlaunched(trace: seq<Effect>, id: nat) {
    forall e :: e in trace && e.Launched? ==> e.request != id
  }

  /** It made no journal. */
  ghost predicate Unjournalled(trace: seq<Effect>, id: nat) {
    forall e :: e in trace && e.Journalled? ==> e.request != id
  }

  ghost predicate Judged(c: Config, kind: Kind, reach: Reach) {
    Fits(kind, reach) && (!kind.Listen? ==> AllowsAll(c.bounds, Reached(reach)))
  }

  /** The refusal is in the audit, where there is one. */
  ghost predicate Told(c: Config, trace: seq<Effect>, id: nat, fault: Fault) {
    c.auditing ==> exists called: string :: Audited(id, RefusedLine(fault, called)) in trace
  }

  ghost predicate Story(c: Config, trace: seq<Effect>, id: nat, r: Request) {
    match r.place
    case Admitting(_) => r.asked.Resume?
    case Judging(kind, reach) => Fits(kind, reach) && !kind.Listen?
    case Journalling(kind, reach) => Judged(c, kind, reach)
    case Recording(kind, reach, _) => Judged(c, kind, reach)
    case Launching(kind, reach, name) =>
      Judged(c, kind, reach)
      && (c.auditing ==> Audited(id, StartedLine(name, AuditedAs(kind))) in trace)
    case Failing(fault) => Refusals(fault) ==> Told(c, trace, id, fault)
    case Failed(fault) => Refusals(fault) ==> Told(c, trace, id, fault)
    case _ => true
  }

  /** The failures a request can come to once it has its journal. */
  predicate AfterJournal(fault: Fault) {
    fault == AuditUnwritable(false) || fault.EngineError? || fault.Abandoned?
  }

  /** Nothing is done before its place in the order. */
  ghost predicate Untouched(trace: seq<Effect>, id: nat, r: Request) {
    && (Before(r.place) || r.place.Journalling? ==> Unjournalled(trace, id))
    && (Before(r.place) || r.place.Journalling? || r.place.Recording? || r.place.Launching? ==> Unlaunched(trace, id))
    && (r.place.Failing? && !AfterJournal(r.place.fault) ==> Unjournalled(trace, id))
    && (r.place.Failed? && !AfterJournal(r.place.fault) ==> Unjournalled(trace, id))
    && (r.place.Failing? && (Refusals(r.place.fault) || r.place.fault.AuditUnwritable?) ==> Unlaunched(trace, id))
    && (r.place.Failed? && (Refusals(r.place.fault) || r.place.fault.AuditUnwritable?) ==> Unlaunched(trace, id))
  }

  /** How often a request has claimed a slot and given it back. */
  ghost predicate Balanced(trace: seq<Effect>, id: nat, r: Request) {
    var claims, releases := multiset(trace)[Claimed(id)], multiset(trace)[Released(id)];
    && (if r.slot then claims == 1 && releases == 0 else claims == releases <= 1)
    && (Unreserved(r.place) ==> claims == 0)
    && (Slotted(r.place) || r.place.Over? ==> claims == 1)
  }

  /** A launch stands in the trace after the line that announced it, and reaches only what the
      policy allows. */
  ghost predicate Accounted(c: Config, trace: seq<Effect>, i: nat)
    requires i < |trace| && trace[i].Launched?
  {
    var e := trace[i];
    && Judged(c, e.kind, e.reach)
    && (c.auditing ==> Audited(e.request, StartedLine(e.id, AuditedAs(e.kind))) in trace[..i])
  }

  ghost predicate TraceOk(c: Config, trace: seq<Effect>) {
    forall i :: 0 <= i < |trace| && trace[i].Launched? ==> Accounted(c, trace, i)
  }

  ghost predicate RequestOk(c: Config, trace: seq<Effect>, id: nat, r: Request) {
    Story(c, trace, id, r) && Untouched(trace, id, r) && Balanced(trace, id, r)
  }

  ghost predicate StoriesOk(c: Config, s: State) {
    forall id :: id in s.requests ==> RequestOk(c, s.trace, id, s.requests[id])
  }

  ghost predicate Known(s: State) {
    forall e :: e in s.trace ==> e.request in s.requests
  }

  ghost predicate Invariant(c: Config, s: State) {
    && CounterOk(c, s) && TraceOk(c, s.trace)
    && StoriesOk(c, s) && Known(s)
  }

  // ---------------------------------------------------------------------------
  // One turn
  // ---------------------------------------------------------------------------

  /** A turn does at most one thing, under its own name. */
  predicate OneThing(id: nat, effects: seq<Effect>) {
    effects == [] || (|effects| == 1 && effects[0].request == id)
  }

  lemma CountOne(trace: seq<Effect>, e: Effect, x: Effect)
    ensures multiset(trace + [e])[x] == multiset(trace)[x] + if e == x then 1 else 0
  {
  }

  lemma Counts(trace: seq<Effect>, effects: seq<Effect>, id: nat, x: Effect)
    requires OneThing(id, effects)
    ensures multiset(trace + effects)[x] == multiset(trace)[x] + if effects == [x] then 1 else 0
  {
    if effects == [] {
      assert trace + effects == trace;
    } else {
      assert effects == [effects[0]];
      CountOne(trace, effects[0], x);
    }
  }

  /** Other requests' stories are not touched. */
  lemma OthersStand(c: Config, trace: seq<Effect>, effects: seq<Effect>, id: nat, other: nat, r: Request)
    requires OneThing(id, effects) && other != id && RequestOk(c, trace, other, r)
    ensures RequestOk(c, trace + effects, other, r)
  {
    Counts(trace, effects, id, Claimed(other));
    Counts(trace, effects, id, Released(other));
    ToldStays(c, trace, effects, other);
  }

  lemma ToldStays(c: Config, trace: seq<Effect>, effects: seq<Effect>, id: nat)
    ensures forall fault :: Told(c, trace, id, fault) ==> Told(c, trace + effects, id, fault)
  {
    forall fault | Told(c, trace, id, fault)
      ensures Told(c, trace + effects, id, fault)
    {
      if c.auditing {
        var called :| Audited(id, RefusedLine(fault, called)) in trace;
        assert Audited(id, RefusedLine(fault, called)) in trace + effects;
      }
    }
  }

  lemma ClaimTells(c: Config, trace: seq<Effect>, taken: nat, id: nat, r: Request, m: Choice)
    requires CanClaim(c, r, m) && SlotOk(c, r) && RequestOk(c, trace, id, r)
    ensures var t := Claim(c, taken, id, r, m);
      OneThing(id, t.effects) && RequestOk(c, trace + t.effects, id, t.request) && !LaunchesIn(t.effects)
  {
    var t := Claim(c, taken, id, r, m);
    Counts(trace, t.effects, id, Claimed(id));
    Counts(trace, t.effects, id, Released(id));
  }

  predicate LaunchesIn(effects: seq<Effect>) { effects != [] && effects[0].Launched? }

  lemma LeaveBalances(c: Config, trace: seq<Effect>, taken: nat, id: nat, r: Request, m: Choice)
    requires CanLeave(c, r, m) && Balanced(trace, id, r)
    ensures var t := Leave(c, taken, id, r, m);
      OneThing(id, t.effects) && Balanced(trace + t.effects, id, t.request) && !LaunchesIn(t.effects)
  {
    var t := Leave(c, taken, id, r, m);
    Counts(trace, t.effects, id, Claimed(id));
    Counts(trace, t.effects, id, Released(id));
  }

  lemma LeaveTells(c: Config, trace: seq<Effect>, taken: nat, id: nat, r: Request, m: Choice)
    requires CanLeave(c, r, m) && RequestOk(c, trace, id, r)
    ensures var t := Leave(c, taken, id, r, m);
      OneThing(id, t.effects) && RequestOk(c, trace + t.effects, id, t.request) && !LaunchesIn(t.effects)
  {
    LeaveBalances(c, trace, taken, id, r, m);
    ToldStays(c, trace, Leave(c, taken, id, r, m).effects, id);
  }

  /** From the slot to the wire nothing is claimed and nothing given back. */
  lemma PassIsNeutral(c: Config, taken: nat, id: nat, r: Request, m: Choice)
    requires CanPass(c, r, m)
    ensures var t := Pass(c, taken, id, r, m);
      && OneThing(id, t.effects) && t.request.slot == r.slot && !Unreserved(t.request.place)
      && t.effects != [Claimed(id)] && t.effects != [Released(id)]
  {
  }

  lemma PassBalances(c: Config, trace: seq<Effect>, taken: nat, id: nat, r: Request, m: Choice)
    requires CanPass(c, r, m) && Balanced(trace, id, r)
    ensures var t := Pass(c, taken, id, r, m);
      OneThing(id, t.effects) && Balanced(trace + t.effects, id, t.request)
  {
    PassIsNeutral(c, taken, id, r, m);
    var effects := Pass(c, taken, id, r, m).effects;
    Counts(trace, effects, id, Claimed(id));
    Counts(trace, effects, id, Released(id));
  }

  /** What a launch must have had before it. */
  ghost predicate Announced(c: Config, trace: seq<Effect>, id: nat, e: Effect) {
    e.Launched? ==>
      && Judged(c, e.kind, e.reach)
      && (c.auditing ==> Audited(id, StartedLine(e.id, AuditedAs(e.kind))) in trace)
  }

  lemma PassStory(c: Config, trace: seq<Effect>, taken: nat, id: nat, r: Request, m: Choice)
    requires CanPass(c, r, m) && Story(c, trace, id, r)
    requires Refusals(if r.place.Refusing? then r.place.fault else AtCapacity)
    ensures var t := Pass(c, taken, id, r, m);
      && Story(c, trace + t.effects, id, t.request)
      && (t.effects != [] ==> Announced(c, trace, id, t.effects[0]))
  {
    var t := Pass(c, taken, id, r, m);
    ToldStays(c, trace, t.effects, id);
    if m.WriteRefusal? && c.auditing && m.disk.Takes? {
      assert Audited(id, RefusedLine(r.place.fault, r.place.called)) in trace + t.effects;
    }
  }

  predicate Early(m: Choice) { m.ReadRecord? || m.TakeRoom? || m.WriteRefusal? || m.ReadRequest? || m.Resolve? }

  lemma EarlyUntouched(c: Config, trace: seq<Effect>, taken: nat, id: nat, r: Request, m: Choice)
    requires CanPass(c, r, m) && Early(m) && Untouched(trace, id, r)
    ensures var t := Pass(c, taken, id, r, m); Untouched(trace + t.effects, id, t.request)
  {
  }

  lemma StartUntouched(c: Config, trace: seq<Effect>, taken: nat, id: nat, r: Request, m: Choice)
    requires CanPass(c, r, m) && (m.Journal? || m.WriteStart?) && Untouched(trace, id, r)
    ensures var t := Pass(c, taken, id, r, m); Untouched(trace + t.effects, id, t.request)
  {
  }

  lemma PassUntouched(c: Config, trace: seq<Effect>, taken: nat, id: nat, r: Request, m: Choice)
    requires CanPass(c, r, m) && Untouched(trace, id, r)
    ensures var t := Pass(c, taken, id, r, m); Untouched(trace + t.effects, id, t.request)
  {
    if Early(m) {
      EarlyUntouched(c, trace, taken, id, r, m);
    } else if m.Journal? || m.WriteStart? {
      StartUntouched(c, trace, taken, id, r, m);
    }
  }

  lemma PassTells(c: Config, trace: seq<Effect>, taken: nat, id: nat, r: Request, m: Choice)
    requires CanPass(c, r, m) && SlotOk(c, r) && RequestOk(c, trace, id, r)
    ensures var t := Pass(c, taken, id, r, m);
      && OneThing(id, t.effects) && RequestOk(c, trace + t.effects, id, t.request)
      && (t.effects != [] ==> Announced(c, trace, id, t.effects[0]))
  {
    PassBalances(c, trace, taken, id, r, m);
    PassStory(c, trace, taken, id, r, m);
    PassUntouched(c, trace, taken, id, r, m);
  }

  lemma TurnTells(c: Config, trace: seq<Effect>, taken: nat, id: nat, r: Request, m: Choice)
    requires CanAct(c, r, m) && SlotOk(c, r) && RequestOk(c, trace, id, r)
    ensures var t := Taking(c, taken, id, r, m);
      && OneThing(id, t.effects) && RequestOk(c, trace + t.effects, id, t.request)
      && (t.effects != [] ==> Announced(c, trace, id, t.effects[0]))
  {
    if CanClaim(c, r, m) {
      ClaimTells(c, trace, taken, id, r, m);
    } else if CanPass(c, r, m) {
      PassTells(c, trace, taken, id, r, m);
    } else {
      LeaveTells(c, trace, taken, id, r, m);
    }
  }

  lemma TraceExtends(c: Config, trace: seq<Effect>, effects: seq<Effect>, id: nat)
    requires TraceOk(c, trace) && OneThing(id, effects)
    requires effects != [] ==> Announced(c, trace, id, effects[0])
    ensures TraceOk(c, trace + effects)
  {
    var after := trace + effects;
    forall i | 0 <= i < |after| && after[i].Launched?
      ensures Accounted(c, after, i)
    {
      if i < |trace| {
        assert Accounted(c, trace, i);
        assert after[..i] == trace[..i];
      } else {
        assert after[..i] == trace;
      }
    }
  }

  lemma TurnKeepsStories(c: Config, s: State, id: nat, turn: Turn)
    requires OneThing(id, turn.effects) && RequestOk(c, s.trace + turn.effects, id, turn.request)
    requires StoriesOk(c, s)
    ensures StoriesOk(c, After(s, id, turn))
  {
    forall other | other in s.requests && other != id
      ensures RequestOk(c, s.trace + turn.effects, other, s.requests[other])
    {
      OthersStand(c, s.trace, turn.effects, id, other, s.requests[other]);
    }
  }

  lemma TurnKeepsKnown(s: State, id: nat, turn: Turn)
    requires Known(s) && OneThing(id, turn.effects)
    ensures Known(After(s, id, turn))
  {
    forall e | e in s.trace + turn.effects
      ensures e.request in After(s, id, turn).requests
    {
      assert e in s.trace || e == turn.effects[0];
    }
  }

  lemma TurnKeeps(c: Config, s: State, id: nat, turn: Turn)
    requires Invariant(c, s) && CounterOk(c, After(s, id, turn))
    requires OneThing(id, turn.effects) && RequestOk(c, s.trace + turn.effects, id, turn.request)
    requires turn.effects != [] ==> Announced(c, s.trace, id, turn.effects[0])
    ensures Invariant(c, After(s, id, turn))
  {
    TraceExtends(c, s.trace, turn.effects, id);
    TurnKeepsStories(c, s, id, turn);
    TurnKeepsKnown(s, id, turn);
  }

  lemma ArrivalOk(c: Config, s: State, id: nat, asked: Asked)
    requires Invariant(c, s) && id !in s.requests
    ensures RequestOk(c, s.trace + [], id, Request(asked, Arrived, false, 0))
  {
    assert s.trace + [] == s.trace;
    assert Claimed(id) !in s.trace && Released(id) !in s.trace;
  }

  lemma Keeps(c: Config, s: State, m: Move)
    requires Invariant(c, s) && Can(c, s, m)
    ensures Invariant(c, Next(c, s, m))
  {
    CounterKeeps(c, s, m);
    match m
    case Arrive(id, asked) =>
      ArrivalOk(c, s, id, asked);
      TurnKeeps(c, s, id, Turn(Request(asked, Arrived, false, 0), s.taken, []));
    case Act(id, choice) =>
      TurnTells(c, s.trace, s.taken, id, s.requests[id], choice);
      TurnKeeps(c, s, id, Taking(c, s.taken, id, s.requests[id], choice));
  }

  lemma {:induction false} RunKeeps(c: Config, s: State, moves: seq<Move>, t: State)
    requires Invariant(c, s) && Leads(c, s, moves, t)
    ensures Invariant(c, t)
    decreases |moves|
  {
    if moves != [] {
      Keeps(c, s, moves[0]);
      RunKeeps(c, Next(c, s, moves[0]), moves[1..], t);
    }
  }

  lemma Everywhere(c: Config, t: State)
    requires Reachable(c, t)
    ensures Invariant(c, t)
  {
    assert Holders(Initial()) == {};
    var moves :| Leads(c, Initial(), moves, t);
    RunKeeps(c, Initial(), moves, t);
  }

  // ---------------------------------------------------------------------------
  // What that comes to
  // ---------------------------------------------------------------------------

  /** However many requests race for slots, with stale readings and spurious failures, the
      counter is the number of slots held and never above the ceiling; nor is the number of
      scans whose log is still open. */
  lemma CapacityHolds(c: Config, t: State)
    requires Reachable(c, t)
    ensures t.taken == |Holders(t)| <= Ceiling(c)
    ensures |OpenScans(t)| <= Ceiling(c)
  {
    Everywhere(c, t);
    forall id | id in OpenScans(t)
      ensures id in Holders(t)
    {
      assert SlotOk(c, t.requests[id]);
    }
    SubsetSize(OpenScans(t), Holders(t));
  }

  lemma {:induction false} SubsetSize(a: set<nat>, b: set<nat>)
    requires a <= b
    ensures |a| <= |b|
  {
    assert b == a + (b - a);
  }

  /** Every slot claimed is given back once: not before a scan's log is closed, and on every
      other way out; and only a request holding one gets past `room`. */
  lemma SlotsAreConserved(c: Config, t: State, id: nat)
    requires Reachable(c, t) && id in t.requests
    ensures multiset(t.trace)[Claimed(id)] <= 1
    ensures multiset(t.trace)[Claimed(id)] == multiset(t.trace)[Released(id)] + if t.requests[id].slot then 1 else 0
    ensures Slotted(t.requests[id].place) ==> t.requests[id].slot
    ensures t.requests[id].place.Over? || t.requests[id].place.Failed? ==> !t.requests[id].slot
    ensures Slotted(t.requests[id].place) || t.requests[id].place.Over? ==> multiset(t.trace)[Claimed(id)] == 1
  {
    Everywhere(c, t);
    assert SlotOk(c, t.requests[id]) && RequestOk(c, t.trace, id, t.requests[id]);
  }

  /** A request is refused for room only when what it last read was the ceiling itself. */
  lemma RefusedOnlyWhenFull(c: Config, t: State, id: nat)
    requires Reachable(c, t) && id in t.requests
    requires t.requests[id].place == Failed(AtCapacity)
    ensures t.requests[id].seen == Ceiling(c)
    ensures multiset(t.trace)[Claimed(id)] == multiset(t.trace)[Released(id)]
  {
    Everywhere(c, t);
    assert SlotOk(c, t.requests[id]) && RequestOk(c, t.trace, id, t.requests[id]);
  }

  /** The line that says a launch is about to happen. */
  function Announcement(e: Effect): Effect
    requires e.Launched?
  {
    Audited(e.request, StartedLine(e.id, AuditedAs(e.kind)))
  }

  /** Nothing reaches the wire unaccounted: before a launch stands the line that says so under
      the same name, where there is an audit, and what is launched is what was judged. */
  lemma NothingUnaccounted(c: Config, t: State, i: nat)
    requires Reachable(c, t) && i < |t.trace| && t.trace[i].Launched?
    ensures Fits(t.trace[i].kind, t.trace[i].reach)
    ensures c.auditing ==> exists j :: 0 <= j < i && t.trace[j] == Announcement(t.trace[i])
    ensures t.trace[i].kind != Listen ==> AllowsAll(c.bounds, Reached(t.trace[i].reach))
  {
    Everywhere(c, t);
    assert Accounted(c, t.trace, i);
    if c.auditing {
      var line := Announcement(t.trace[i]);
      assert line in t.trace[..i];
      var j :| 0 <= j < i && t.trace[..i][j] == line;
      assert t.trace[j] == line;
    }
  }

  /** So no address of any unit of any scan that was launched is outside the allow list or
      inside the deny list. */
  lemma EveryAddressIsAllowed(c: Config, t: State, i: nat, unit: IpValue, a: IpAddress)
    requires Reachable(c, t) && i < |t.trace| && t.trace[i].Launched?
    requires t.trace[i].reach.Units? && unit in t.trace[i].reach.units && a in Members(unit)
    ensures c.bounds.allowed.Some? ==> a in Members(c.bounds.allowed.value)
    ensures a !in Members(c.bounds.denied)
  {
    NothingUnaccounted(c, t, i);
    JudgingThePlanJudgesEveryUnit(c.bounds, t.trace[i].reach.units);
    assert AllowsAll(c.bounds, Members(unit));
    assert Allows(c.bounds, a);
  }

  /** A request refused for room or for scope has left nothing but its line in the audit: no
      journal, nothing on the wire. Nor has one whose refusal could not be written. One whose
      start could not be written has put nothing on the wire either. */
  lemma RefusalsLeaveNoTrace(c: Config, t: State, id: nat, fault: Fault)
    requires Reachable(c, t) && id in t.requests && t.requests[id].place == Failed(fault)
    ensures Refusals(fault) || fault == AuditUnwritable(true) ==> Unlaunched(t.trace, id) && Unjournalled(t.trace, id)
    ensures Refusals(fault) ==> Told(c, t.trace, id, fault)
    ensures fault.AuditUnwritable? ==> Unlaunched(t.trace, id)
  {
    Everywhere(c, t);
    assert RequestOk(c, t.trace, id, t.requests[id]);
  }

  /** A request that failed and left a journal failed at its own line in the audit, by the
      engine's answer, or by being given up. */
  lemma JournalLeftBehind(c: Config, t: State, id: nat, fault: Fault, name: string)
    requires Reachable(c, t) && id in t.requests && t.requests[id].place == Failed(fault)
    requires Journalled(id, name) in t.trace
    ensures AfterJournal(fault)
  {
    Everywhere(c, t);
    assert RequestOk(c, t.trace, id, t.requests[id]);
    assert Journalled(id, name).Journalled?;
  }

  // ---------------------------------------------------------------------------
  // The audit's file
  // ---------------------------------------------------------------------------

  /** Every write a trace made to the audit, in order. */
  function Writes(trace: seq<Effect>): seq<Attempt> {
    if trace == [] then []
    else
      var init, last := trace[..|trace| - 1], trace[|trace| - 1];
      match last
      case Audited(_, line) => Writes(init) + [Attempted(line, Takes)]
      case Torn(_, left) => Writes(init) + [left]
      case Claimed(_) => Writes(init)
      case Released(_) => Writes(init)
      case Journalled(_, _) => Writes(init)
      case Launched(_, _, _, _) => Writes(init)
  }

  lemma {:induction false} WritesGrow(trace: seq<Effect>, n: nat)
    requires n <= |trace|
    ensures Writes(trace[..n]) <= Writes(trace)
    decreases |trace|
  {
    if n < |trace| {
      WritesGrow(trace[..|trace| - 1], n);
      assert trace[..|trace| - 1][..n] == trace[..n];
    } else {
      assert trace[..n] == trace;
    }
  }

  lemma LineIsAWrite(trace: seq<Effect>, j: nat, request: nat, line: Line)
    requires j < |trace| && trace[j] == Audited(request, line)
    ensures |Writes(trace[..j])| < |Writes(trace)|
    ensures Writes(trace)[..|Writes(trace[..j])|] == Writes(trace[..j])
    ensures Writes(trace)[|Writes(trace[..j])|] == Attempted(line, Takes)
  {
    assert trace[..j + 1][..j] == trace[..j];
    WritesGrow(trace, j + 1);
    var before, upto := Writes(trace[..j]), Writes(trace[..j + 1]);
    assert upto == before + [Attempted(line, Takes)];
    assert upto[|before|] == Attempted(line, Takes) && upto[..|before|] == before;
  }

  /** What a request writes to the audit, a refusal or a start. */
  function Writing(r: Request): Option<Line> {
    match r.place
    case Refusing(fault, called) => Some(RefusedLine(fault, called))
    case Recording(kind, _, name) => Some(StartedLine(name, AuditedAs(kind)))
    case _ => None
  }

  lemma OneMoreWrite(trace: seq<Effect>, effects: seq<Effect>)
    requires |effects| <= 1
    ensures Writes(trace + effects) == Writes(trace) +
              if effects == [] then []
              else match effects[0]
                   case Audited(_, line) => [Attempted(line, Takes)]
                   case Torn(_, left) => [left]
                   case _ => []
  {
    if effects == [] {
      assert trace + effects == trace;
    } else {
      assert (trace + effects)[..|trace + effects| - 1] == trace;
    }
  }

  lemma RecordingWrites(c: Config, taken: nat, id: nat, r: Request, m: Choice)
    requires CanPass(c, r, m) && (m.WriteStart? || m.WriteRefusal?) && c.auditing
    ensures Writing(r).Some?
    ensures Pass(c, taken, id, r, m).effects
         == if m.disk.Takes? then [Audited(id, Writing(r).value)] else [Torn(id, Attempted(Writing(r).value, m.disk))]
  {
  }

  /** Every write a request makes is one of the file's, in its turn, whether it went well or left
      a part of its line. */
  lemma EveryWriteIsAccounted(c: Config, s: State, id: nat, m: Choice)
    requires id in s.requests && CanPass(c, s.requests[id], m) && (m.WriteStart? || m.WriteRefusal?) && c.auditing
    ensures Writing(s.requests[id]).Some?
    ensures Writes(After(s, id, Pass(c, s.taken, id, s.requests[id], m)).trace)
         == Writes(s.trace) + [Attempted(Writing(s.requests[id]).value, m.disk)]
  {
    RecordingWrites(c, s.taken, id, s.requests[id], m);
    OneMoreWrite(s.trace, Pass(c, s.taken, id, s.requests[id], m).effects);
  }

  lemma LaunchIsAWrite(c: Config, t: State, i: nat) returns (n: nat)
    requires Reachable(c, t) && i < |t.trace| && t.trace[i].Launched? && c.auditing
    ensures n < |Writes(t.trace[..i])| <= |Writes(t.trace)|
    ensures Writes(t.trace)[n] == Attempted(StartedLine(t.trace[i].id, AuditedAs(t.trace[i].kind)), Takes)
  {
    NothingUnaccounted(c, t, i);
    var j :| 0 <= j < i && t.trace[j] == Announcement(t.trace[i]);
    var before := t.trace[..i];
    assert before[j] == t.trace[j] && before[..j] == t.trace[..j];
    LineIsAWrite(before, j, t.trace[i].request, StartedLine(t.trace[i].id, AuditedAs(t.trace[i].kind)));
    WritesGrow(t.trace, i);
    n := |Writes(t.trace[..j])|;
  }

  lemma AtTheEnd(writes: seq<Attempt>, last: seq<Attempt>, n: nat)
    requires EndsIn(writes, last) && n < |last|
    ensures writes[|writes| - |last| + n] == last[n]
  {
    assert writes[|writes| - |last|..][n] == last[n];
  }

  /** Nothing reaches the wire unaccounted, over the file: each launch has its line among the
      writes before it, and that line can be read back by itself exactly when nothing hung where
      it was written: no part of a line that a failed write had left, of this daemon or of one
      before it. `file` is all the writes the file has seen, this daemon's last. */
  lemma LaunchIsReadableExactly(c: Config, t: State, i: nat, file: seq<Attempt>) returns (n: nat)
    requires Reachable(c, t) && i < |t.trace| && t.trace[i].Launched? && c.auditing
    requires EndsIn(file, Writes(t.trace))
    ensures var before := |file| - |Writes(t.trace)|; before <= n < before + |Writes(t.trace[..i])|
    ensures n < |file| && file[n] == Attempted(StartedLine(t.trace[i].id, AuditedAs(t.trace[i].kind)), Takes)
    ensures Readable(file, n) <==> Clean(file[..n])
  {
    n := LaunchIsAWrite(c, t, i);
    AtTheEnd(file, Writes(t.trace), n);
    n := |file| - |Writes(t.trace)| + n;
    ReadableExactly(file, n);
  }

  /** The move a request has from where it stands. */
  function WayOn(c: Config, r: Request): Choice
    requires !r.place.Over? && !r.place.Failed?
  {
    match r.place
    case Arrived => if r.asked.Resume? && !c.recording then TurnAway else Load
    case Weighing => Weigh
    case Swapping => Swap(false)
    case Reserved => if r.asked.Resume? then ReadRecord(Failure(NoSuchScan)) else TakeRoom
    case Admitting(_) => TakeRoom
    case Refusing(_, _) => WriteRefusal(Takes)
    case Reading(_) => ReadRequest(None)
    case Resolving(_) => Resolve(Failure(EngineError))
    case Judging(_, _) => Judge
    case Journalling(_, _) => Journal(None, "")
    case Recording(_, _, _) => WriteStart(Takes)
    case Launching(_, _, _) => Launch
    case Awaiting(_) => EngineAnswers(true)
    case Filing(_) => File
    case Running(_) => CloseLog
    case Closed(_) => GiveBack
    case Failing(_) => Release
  }

  lemma WayOnIsOpen(c: Config, r: Request)
    requires !r.place.Over? && !r.place.Failed? && (r.place.Admitting? ==> r.asked.Resume?)
    ensures CanAct(c, r, WayOn(c, r))
  {
    var m := WayOn(c, r);
    if Unreserved(r.place) {
      assert CanClaim(c, r, m);
    } else if AtAwait(r.place) && r.place.Awaiting? {
      assert CanLeave(c, r, m);
    } else if r.place.Filing? || r.place.Running? || r.place.Closed? || r.place.Failing? {
      assert CanLeave(c, r, m);
    } else {
      assert CanPass(c, r, m);
    }
  }

  predicate Ended(r: Request) { r.place.Over? || r.place.Failed? }

  /** How far a request left alone is from its end; a stale reading costs one more try. */
  function Distance(taken: nat, r: Request): nat {
    match r.place
    case Arrived => 17
    case Weighing => if r.seen == taken then 14 else 16
    case Swapping => if r.seen == taken then 13 else 15
    case Reserved => 12
    case Admitting(_) => 11
    case Reading(_) => 10
    case Resolving(_) => 9
    case Judging(_, _) => 8
    case Journalling(_, _) => 7
    case Recording(_, _, _) => 6
    case Launching(_, _, _) => 5
    case Awaiting(_) => 4
    case Filing(_) => 3
    case Running(_) => 2
    case Closed(_) => 1
    case Refusing(_, _) => 2
    case Failing(_) => 1
    case Over(_) => 0
    case Failed(_) => 0
  }

  lemma WayOnIsCloser(c: Config, taken: nat, id: nat, r: Request)
    requires !Ended(r) && CanAct(c, r, WayOn(c, r))
    ensures var t := Taking(c, taken, id, r, WayOn(c, r)); Distance(t.taken, t.request) < Distance(taken, r)
  {
  }

  /** The requests a run belongs to. */
  predicate AllBy(moves: seq<Move>, id: nat) {
    forall i :: 0 <= i < |moves| ==> moves[i].Act? && moves[i].id == id
  }

  lemma WayOnGoes(c: Config, s: State, id: nat)
    requires Invariant(c, s) && id in s.requests && !Ended(s.requests[id])
    ensures var m := Act(id, WayOn(c, s.requests[id]));
      && Can(c, s, m) && Invariant(c, Next(c, s, m)) && id in Next(c, s, m).requests
      && Distance(Next(c, s, m).taken, Next(c, s, m).requests[id]) < Distance(s.taken, s.requests[id])
  {
    assert Story(c, s.trace, id, s.requests[id]);
    WayOnIsOpen(c, s.requests[id]);
    WayOnIsCloser(c, s.taken, id, s.requests[id]);
    Keeps(c, s, Act(id, WayOn(c, s.requests[id])));
  }

  lemma {:induction false} Finishes(c: Config, s: State, id: nat) returns (moves: seq<Move>, t: State)
    requires Invariant(c, s) && id in s.requests
    ensures Leads(c, s, moves, t) && AllBy(moves, id)
    ensures id in t.requests && Ended(t.requests[id])
    decreases Distance(s.taken, s.requests[id])
  {
    if Ended(s.requests[id]) {
      return [], s;
    }
    var m := Act(id, WayOn(c, s.requests[id]));
    WayOnGoes(c, s, id);
    moves, t := Finishes(c, Next(c, s, m), id);
    OneMoveFirst(c, s, m, moves, t, id);
    moves := [m] + moves;
  }

  lemma OneMoveFirst(c: Config, s: State, m: Move, moves: seq<Move>, t: State, id: nat)
    requires Can(c, s, m) && Leads(c, Next(c, s, m), moves, t) && AllBy(moves, id) && m.Act? && m.id == id
    ensures Leads(c, s, [m] + moves, t) && AllBy([m] + moves, id)
  {
    assert ([m] + moves)[1..] == moves;
  }

  /** Nobody is left holding a slot with nowhere to go: from wherever a run has got to, every
      request can be brought to its end by moves of its own, and then holds no slot. */
  lemma AlwaysAWayOut(c: Config, s: State, id: nat) returns (moves: seq<Move>, t: State)
    requires Reachable(c, s) && id in s.requests
    ensures Leads(c, s, moves, t) && AllBy(moves, id)
    ensures id in t.requests && Ended(t.requests[id])
    ensures multiset(t.trace)[Claimed(id)] == multiset(t.trace)[Released(id)] && id !in Holders(t)
  {
    Everywhere(c, s);
    moves, t := Finishes(c, s, id);
    RunKeeps(c, s, moves, t);
    assert SlotOk(c, t.requests[id]) && RequestOk(c, t.trace, id, t.requests[id]);
  }

  // Whatever is answered from outside.

  /** The two moves of the loop a slot is claimed in. */
  predicate Looping(m: Choice) { m.Weigh? || m.Swap? }

  /** How many moves outside that loop a request can still make. */
  function Ahead(place: Place): nat {
    match place
    case Arrived => 14
    case Weighing => 13
    case Swapping => 13
    case Reserved => 12
    case Admitting(_) => 11
    case Reading(_) => 10
    case Resolving(_) => 9
    case Judging(_, _) => 8
    case Journalling(_, _) => 7
    case Recording(_, _, _) => 6
    case Launching(_, _, _) => 5
    case Awaiting(_) => 4
    case Filing(_) => 3
    case Running(_) => 2
    case Closed(_) => 1
    case Refusing(_, _) => 2
    case Failing(_) => 1
    case Over(_) => 0
    case Failed(_) => 0
  }

  lemma ClaimIsAhead(c: Config, taken: nat, id: nat, r: Request, m: Choice)
    requires CanClaim(c, r, m)
    ensures Ahead(Claim(c, taken, id, r, m).request.place) + (if Looping(m) then 0 else 1) <= Ahead(r.place)
  {
  }

  lemma EarlyIsAhead(c: Config, taken: nat, id: nat, r: Request, m: Choice)
    requires CanPass(c, r, m) && Early(m)
    ensures Ahead(Pass(c, taken, id, r, m).request.place) < Ahead(r.place)
  {
  }

  lemma PassIsAhead(c: Config, taken: nat, id: nat, r: Request, m: Choice)
    requires CanPass(c, r, m)
    ensures Ahead(Pass(c, taken, id, r, m).request.place) < Ahead(r.place)
  {
    if Early(m) {
      EarlyIsAhead(c, taken, id, r, m);
    }
  }

  /** With its slot decided a request is as far from its end as it has moves ahead. */
  lemma DistanceIsAhead(taken: nat, r: Request)
    requires !Unreserved(r.place)
    ensures Distance(taken, r) == Ahead(r.place)
  {
  }

  lemma LeaveIsAhead(c: Config, taken: nat, id: nat, r: Request, m: Choice)
    requires CanLeave(c, r, m)
    ensures Ahead(Leave(c, taken, id, r, m).request.place) < Ahead(r.place)
  {
  }

  lemma ActIsAhead(c: Config, taken: nat, id: nat, r: Request, m: Choice)
    requires CanAct(c, r, m)
    ensures Ahead(Taking(c, taken, id, r, m).request.place) + (if Looping(m) then 0 else 1) <= Ahead(r.place)
  {
    if CanClaim(c, r, m) {
      ClaimIsAhead(c, taken, id, r, m);
    } else if CanPass(c, r, m) {
      PassIsAhead(c, taken, id, r, m);
    } else {
      LeaveIsAhead(c, taken, id, r, m);
    }
  }

  function CountOutside(moves: seq<Move>, id: nat): nat {
    if moves == [] then 0
    else
      (if moves[0].Act? && moves[0].id == id && !Looping(moves[0].choice) then 1 else 0) + CountOutside(moves[1..], id)
  }

  /** Whatever the resolver, the journal, the disk and the engine answer, and whoever else moves
      in between: outside the loop a slot is claimed in, a request makes at most fourteen moves
      from its arrival to its end. */
  lemma {:induction false} EveryAnswerIsBounded(c: Config, s: State, moves: seq<Move>, t: State, id: nat)
    requires Leads(c, s, moves, t) && id in s.requests
    ensures id in t.requests
    ensures CountOutside(moves, id) + Ahead(t.requests[id].place) <= Ahead(s.requests[id].place)
    decreases |moves|
  {
    if moves != [] {
      var m := moves[0];
      if m.Act? && m.id == id {
        ActIsAhead(c, s.taken, id, s.requests[id], m.choice);
      }
      EveryAnswerIsBounded(c, Next(c, s, m), moves[1..], t, id);
    }
  }

  /** A reading of the counter that is out of date. */
  predicate Old(taken: nat, r: Request) { (r.place.Weighing? || r.place.Swapping?) && r.seen != taken }

  predicate Stale(s: State, id: nat) { id in s.requests && Old(s.taken, s.requests[id]) }

  predicate FailsToSwap(s: State, m: Move, id: nat) {
    m == Act(id, Swap(false)) && id in s.requests && s.requests[id].seen != s.taken
  }

  ghost function FailedSwaps(c: Config, s: State, moves: seq<Move>, id: nat): nat
    decreases |moves|
  {
    if moves == [] || !Can(c, s, moves[0]) then 0
    else (if FailsToSwap(s, moves[0], id) then 1 else 0) + FailedSwaps(c, Next(c, s, moves[0]), moves[1..], id)
  }

  ghost function CounterChanges(c: Config, s: State, moves: seq<Move>): nat
    decreases |moves|
  {
    if moves == [] || !Can(c, s, moves[0]) then 0
    else
      var t := Next(c, s, moves[0]);
      (if t.taken != s.taken then 1 else 0) + CounterChanges(c, t, moves[1..])
  }

  /** A failed exchange has the counter as it now is in hand. */
  lemma ActFails(c: Config, taken: nat, id: nat, r: Request, m: Choice)
    requires CanAct(c, r, m)
    ensures var t := Taking(c, taken, id, r, m);
      (if m == Swap(false) && r.seen != taken then 1 else 0) + (if Old(t.taken, t.request) then 1 else 0)
      <= (if t.taken != taken then 1 else 0) + (if Old(taken, r) then 1 else 0)
  {
    if CanPass(c, r, m) {
      PassIsNeutral(c, taken, id, r, m);
    }
  }

  lemma OneMoveFails(c: Config, s: State, m: Move, id: nat)
    requires Can(c, s, m)
    ensures (if FailsToSwap(s, m, id) then 1 else 0) + (if Stale(Next(c, s, m), id) then 1 else 0)
         <= (if Next(c, s, m).taken != s.taken then 1 else 0) + (if Stale(s, id) then 1 else 0)
  {
    if m.Act? && m.id == id {
      ActFails(c, s.taken, id, s.requests[id], m.choice);
    }
  }

  /** And in that loop nobody is sent back but by somebody's success: exchanges fail no oftener
      than slots are claimed and given back in the meantime, and one more if the reading was old
      to begin with; spurious failures apart. */
  lemma {:induction false} RetriesAreOthersProgress(c: Config, s: State, moves: seq<Move>, t: State, id: nat)
    requires Leads(c, s, moves, t)
    ensures FailedSwaps(c, s, moves, id) + (if Stale(t, id) then 1 else 0)
         <= CounterChanges(c, s, moves) + (if Stale(s, id) then 1 else 0)
    decreases |moves|
  {
    if moves != [] {
      OneMoveFails(c, s, moves[0], id);
      RetriesAreOthersProgress(c, Next(c, s, moves[0]), moves[1..], t, id);
    }
  }
}
