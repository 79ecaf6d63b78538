/** The daemon's slots and the logs of its scans (src/scans.rs:282-288, 348-407, 653-727;
    src/start.rs:50-72, 223-243): admission and every scan's own machine, run together.

    A scan begins when the engine answers, its log empty and open. Its follower is set going as it
    is filed, and from then on closing the log and giving the slot back are moves of both: of the
    follower, and of the request the slot was claimed for. Everything else each does by itself. */
module Capacity {
  import opened Wrappers
  import A = ScanAsk
  import D = Daemon
  import EventLog
  import F = ScanFollower
  import G = ScanProgress
  import P = ScanProtocol
  import R = ScanRuns
  import W = ScanWitness

  datatype House = House(daemon: D.State, scans: map<nat, P.State>)

  const BEGIN := House(D.Initial(), map[])

  // ---------------------------------------------------------------------------
  // Steps
  // ---------------------------------------------------------------------------

  datatype Step =
    | Admits(move: D.Move)                        // any move of a request but these three
    | Begins(id: nat)                             // start.rs:223-243, the log made
    | Closes(id: nat)                             // scans.rs:721
    | Returns(id: nat)                            // scans.rs:725
    | InScan(id: nat, does: P.Move)               // any move in a scan but those two

  predicate Shared(m: D.Move) {
    m.Act? && (m.choice == D.EngineAnswers(true) || m.choice.CloseLog? || m.choice.GiveBack?)
  }

  /** Filed under its name, where clients find it, and with its follower going. */
  predicate Filed(place: D.Place) { place.Running? || place.Closed? || place.Over? }

  /** What in a scan waits for it to be filed. */
  predicate AfterFiling(m: P.Move) { m.ByFollower? || m.Open? || m.Ask? }

  predicate Able(c: D.Config, h: House, x: Step) {
    match x
    case Admits(m) => D.Can(c, h.daemon, m) && !Shared(m)
    case Begins(id) => D.Can(c, h.daemon, D.Act(id, D.EngineAnswers(true)))
    case Closes(id) =>
      D.Can(c, h.daemon, D.Act(id, D.CloseLog)) && id in h.scans && h.scans[id].follower.Closing?
    case Returns(id) =>
      D.Can(c, h.daemon, D.Act(id, D.GiveBack)) && id in h.scans && h.scans[id].follower.Releasing?
    case InScan(id, m) =>
      && id in h.scans && P.Can(h.scans[id], m)
      && (AfterFiling(m) ==> id in h.daemon.requests && Filed(h.daemon.requests[id].place))
      && (m.ByFollower? ==> !h.scans[id].follower.Closing? && !h.scans[id].follower.Releasing?)
  }

  ghost function Done(c: D.Config, h: House, x: Step): House
    requires Able(c, h, x)
  {
    match x
    case Admits(m) => h.(daemon := D.Next(c, h.daemon, m))
    case Begins(id) =>
      House(D.Next(c, h.daemon, D.Act(id, D.EngineAnswers(true))), h.scans[id := P.Initial()])
    case Closes(id) =>
      House(D.Next(c, h.daemon, D.Act(id, D.CloseLog)), h.scans[id := P.ShutDown(h.scans[id])])
    case Returns(id) =>
      House(D.Next(c, h.daemon, D.Act(id, D.GiveBack)), h.scans[id := P.ShutDown(h.scans[id])])
    case InScan(id, m) => h.(scans := h.scans[id := P.Next(h.scans[id], m)])
  }

  ghost predicate Comes(c: D.Config, h: House, steps: seq<Step>, t: House)
    decreases |steps|
  {
    if steps == [] then h == t
    else Able(c, h, steps[0]) && Comes(c, Done(c, h, steps[0]), steps[1..], t)
  }

  ghost predicate Arises(c: D.Config, t: House) {
    exists steps :: Comes(c, BEGIN, steps, t)
  }

  // ---------------------------------------------------------------------------
  // Each part is a run of its own machine
  // ---------------------------------------------------------------------------

  /** What a step is to the daemon. */
  function OnDaemon(x: Step): Option<D.Move> {
    match x
    case Admits(m) => Some(m)
    case Begins(id) => Some(D.Act(id, D.EngineAnswers(true)))
    case Closes(id) => Some(D.Act(id, D.CloseLog))
    case Returns(id) => Some(D.Act(id, D.GiveBack))
    case InScan(_, _) => None
  }

  lemma StepIsDaemons(c: D.Config, h: House, x: Step)
    requires Able(c, h, x)
    ensures match OnDaemon(x)
            case None => Done(c, h, x).daemon == h.daemon
            case Some(m) => D.Can(c, h.daemon, m) && Done(c, h, x).daemon == D.Next(c, h.daemon, m)
  {
  }

  /** And to the scan it is about. */
  function OnScan(x: Step): Option<P.Move> {
    match x
    case Admits(_) => None
    case Begins(_) => None
    case Closes(_) => Some(P.ByFollower(EventLog.Completed))
    case Returns(_) => Some(P.ByFollower(EventLog.Completed))
    case InScan(_, m) => Some(m)
  }

  lemma StepIsScans(c: D.Config, h: House, x: Step)
    requires Able(c, h, x)
    ensures match OnScan(x)
            case None => Done(c, h, x).scans == if x.Begins? then h.scans[x.id := P.Initial()] else h.scans
            case Some(m) =>
              x.id in h.scans && P.Can(h.scans[x.id], m)
              && Done(c, h, x).scans == h.scans[x.id := P.Next(h.scans[x.id], m)]
  {
  }

  ghost predicate ScansReachable(scans: map<nat, P.State>) {
    forall id :: id in scans ==> P.Reachable(scans[id])
  }

  lemma ScansKeep(c: D.Config, h: House, x: Step)
    requires ScansReachable(h.scans) && Able(c, h, x)
    ensures ScansReachable(Done(c, h, x).scans)
  {
    StepIsScans(c, h, x);
    var m := OnScan(x);
    if m.Some? {
      W.ReachesOn(h.scans[x.id], m.value);
    }
    assert P.Leads(P.Initial(), [], P.Initial());
  }

  // ---------------------------------------------------------------------------
  // Where a request stands and where its follower does
  // ---------------------------------------------------------------------------

  predicate HasScan(place: D.Place) { place.Filing? || Filed(place) }

  /** A scan filed has its follower no further than the request has got. */
  predicate LinkedBy(place: D.Place, s: P.State) {
    match place
    case Filing(_) => s.follower.Receiving?
    case Running(_) => F.Rank(s.follower) <= 6
    case Closed(_) => 7 <= F.Rank(s.follower) <= 8
    case Over(_) => F.Rank(s.follower) == 9
    case _ => false
  }

  ghost predicate Linked(h: House) {
    && (forall id :: id in h.scans ==> id in h.daemon.requests && LinkedBy(h.daemon.requests[id].place, h.scans[id]))
    && (forall id :: id in h.daemon.requests && HasScan(h.daemon.requests[id].place) ==> id in h.scans)
  }

  lemma ClaimsFindNone(c: D.Config, taken: nat, id: nat, r: D.Request, m: D.Choice)
    requires D.CanClaim(c, r, m)
    ensures !HasScan(r.place) && !HasScan(D.Claim(c, taken, id, r, m).request.place)
  {
  }

  lemma PassesFindNone(c: D.Config, taken: nat, id: nat, r: D.Request, m: D.Choice)
    requires D.CanPass(c, r, m)
    ensures !HasScan(r.place) && !HasScan(D.Pass(c, taken, id, r, m).request.place)
  {
  }

  lemma LeavesFind(c: D.Config, taken: nat, id: nat, r: D.Request, m: D.Choice)
    requires D.CanLeave(c, r, m)
    ensures var place := D.Leave(c, taken, id, r, m).request.place;
      match m
      case EngineAnswers(ok) => !HasScan(r.place) && (if ok then place.Filing? else !HasScan(place))
      case File => r.place.Filing? && place.Running?
      case CloseLog => r.place.Running? && place.Closed?
      case GiveBack => r.place.Closed? && place.Over?
      case _ => !HasScan(r.place) && !HasScan(place)
  {
  }

  /** A move of a request by itself begins and ends no scan; at most it files one. */
  lemma ActsFind(c: D.Config, taken: nat, id: nat, r: D.Request, m: D.Choice)
    requires D.CanAct(c, r, m) && !Shared(D.Act(id, m))
    ensures var place := D.Taking(c, taken, id, r, m).request.place;
      if r.place.Filing? then place.Running? else !HasScan(r.place) && !HasScan(place)
  {
    if D.CanClaim(c, r, m) {
      ClaimsFindNone(c, taken, id, r, m);
    } else if D.CanPass(c, r, m) {
      PassesFindNone(c, taken, id, r, m);
    } else {
      LeavesFind(c, taken, id, r, m);
    }
  }

  lemma SharedFind(c: D.Config, taken: nat, id: nat, r: D.Request, m: D.Choice)
    requires D.CanAct(c, r, m) && Shared(D.Act(id, m))
    ensures var place := D.Taking(c, taken, id, r, m).request.place;
      if m.EngineAnswers? then !HasScan(r.place) && place.Filing?
      else if m.CloseLog? then r.place.Running? && place.Closed?
      else r.place.Closed? && place.Over?
  {
    LeavesFind(c, taken, id, r, m);
  }

  /** The place of one request changed, and its scan put in or moved on with it. */
  lemma RelinkedOne(h: House, id: nat, r: D.Request, t: House)
    requires Linked(h) && t.daemon.requests == h.daemon.requests[id := r]
    requires forall other :: other != id ==> (other in t.scans <==> other in h.scans)
    requires forall other :: other != id && other in h.scans ==> t.scans[other] == h.scans[other]
    requires id in t.scans ==> LinkedBy(r.place, t.scans[id])
    requires HasScan(r.place) ==> id in t.scans
    ensures Linked(t)
  {
  }

  lemma AdmitsLinked(c: D.Config, h: House, m: D.Move)
    requires Linked(h) && Able(c, h, Admits(m))
    ensures Linked(Done(c, h, Admits(m)))
  {
    var t := Done(c, h, Admits(m));
    match m
    case Arrive(id, asked) => RelinkedOne(h, id, D.Request(asked, D.Arrived, false, 0), t);
    case Act(id, choice) =>
      ActsFind(c, h.daemon.taken, id, h.daemon.requests[id], choice);
      RelinkedOne(h, id, D.Taking(c, h.daemon.taken, id, h.daemon.requests[id], choice).request, t);
  }

  lemma BeginsLinked(c: D.Config, h: House, id: nat)
    requires Linked(h) && Able(c, h, Begins(id))
    ensures Linked(Done(c, h, Begins(id)))
  {
    var r := h.daemon.requests[id];
    SharedFind(c, h.daemon.taken, id, r, D.EngineAnswers(true));
    RelinkedOne(h, id, D.Taking(c, h.daemon.taken, id, r, D.EngineAnswers(true)).request, Done(c, h, Begins(id)));
  }

  lemma ClosesLinked(c: D.Config, h: House, id: nat)
    requires Linked(h) && Able(c, h, Closes(id))
    ensures Linked(Done(c, h, Closes(id)))
  {
    var r := h.daemon.requests[id];
    SharedFind(c, h.daemon.taken, id, r, D.CloseLog);
    RelinkedOne(h, id, D.Taking(c, h.daemon.taken, id, r, D.CloseLog).request, Done(c, h, Closes(id)));
  }

  lemma ReturnsLinked(c: D.Config, h: House, id: nat)
    requires Linked(h) && Able(c, h, Returns(id))
    ensures Linked(Done(c, h, Returns(id)))
  {
    var r := h.daemon.requests[id];
    SharedFind(c, h.daemon.taken, id, r, D.GiveBack);
    RelinkedOne(h, id, D.Taking(c, h.daemon.taken, id, r, D.GiveBack).request, Done(c, h, Returns(id)));
  }

  lemma EarlyRanks(s: P.State, stopped: EventLog.Cause)
    requires P.FollowerCan(s) && F.Rank(s.follower) <= 5
    ensures F.Rank(P.FollowerNext(s, stopped).follower) <= 6
  {
    if F.Rank(s.follower) < 4 {
      A.OneRankOn(s, stopped);
    }
  }

  /** In a scan the follower keeps to its rank's side of the two moves it shares. */
  lemma ScanStays(place: D.Place, s: P.State, m: P.Move)
    requires LinkedBy(place, s) && P.Can(s, m)
    requires m.ByFollower? ==> Filed(place) && !s.follower.Closing? && !s.follower.Releasing?
    ensures LinkedBy(place, P.Next(s, m))
  {
    if m.ByFollower? && F.Rank(s.follower) <= 5 {
      EarlyRanks(s, m.stopped);
    }
  }

  lemma InScanLinked(c: D.Config, h: House, id: nat, m: P.Move)
    requires Linked(h) && Able(c, h, InScan(id, m))
    ensures Linked(Done(c, h, InScan(id, m)))
  {
    ScanStays(h.daemon.requests[id].place, h.scans[id], m);
  }

  ghost predicate Sound(c: D.Config, h: House) {
    D.Reachable(c, h.daemon) && ScansReachable(h.scans) && Linked(h)
  }

  lemma StepKeeps(c: D.Config, h: House, x: Step)
    requires Sound(c, h) && Able(c, h, x)
    ensures Sound(c, Done(c, h, x))
  {
    StepIsDaemons(c, h, x);
    if OnDaemon(x).Some? {
      D.ReachesOn(c, h.daemon, OnDaemon(x).value);
    }
    ScansKeep(c, h, x);
    match x
    case Admits(m) => AdmitsLinked(c, h, m);
    case Begins(id) => BeginsLinked(c, h, id);
    case Closes(id) => ClosesLinked(c, h, id);
    case Returns(id) => ReturnsLinked(c, h, id);
    case InScan(id, m) => InScanLinked(c, h, id, m);
  }

  lemma {:induction false} RunKeeps(c: D.Config, h: House, steps: seq<Step>, t: House)
    requires Sound(c, h) && Comes(c, h, steps, t)
    ensures Sound(c, t)
    decreases |steps|
  {
    if steps != [] {
      StepKeeps(c, h, steps[0]);
      RunKeeps(c, Done(c, h, steps[0]), steps[1..], t);
    }
  }

  lemma Always(c: D.Config, t: House)
    requires Arises(c, t)
    ensures Sound(c, t)
  {
    assert D.Leads(c, D.Initial(), [], D.Initial());
    var steps :| Comes(c, BEGIN, steps, t);
    RunKeeps(c, BEGIN, steps, t);
  }

  // ---------------------------------------------------------------------------
  // What that comes to
  // ---------------------------------------------------------------------------

  ghost function OpenLogs(h: House): set<nat> { set id | id in h.scans && !h.scans[id].log.closed }

  /** Scans whose follower has its slot still. */
  ghost function Unreturned(h: House): set<nat> { set id | id in h.scans && h.scans[id].slot }

  lemma LinkedSlot(c: D.Config, h: House, id: nat)
    requires Sound(c, h) && id in h.scans
    ensures id in h.daemon.requests && D.Invariant(c, h.daemon) && R.Invariant(h.scans[id])
    ensures HasScan(h.daemon.requests[id].place) && h.daemon.requests[id].slot == h.scans[id].slot
    ensures h.scans[id].log.closed <==> h.daemon.requests[id].place.Closed? || h.daemon.requests[id].place.Over?
  {
    D.Everywhere(c, h.daemon);
    R.Everywhere(h.scans[id]);
    assert D.SlotOk(c, h.daemon.requests[id]);
  }

  /** The logs open at one time are never more than the ceiling, and each is a scan whose follower
      has its slot; nor are the slots that followers have more than are counted as taken. */
  lemma OpenLogsHaveSlots(c: D.Config, t: House)
    requires Arises(c, t)
    ensures OpenLogs(t) == D.OpenScans(t.daemon) && OpenLogs(t) <= Unreturned(t)
    ensures |OpenLogs(t)| <= |Unreturned(t)| <= t.daemon.taken <= D.Ceiling(c)
  {
    Always(c, t);
    D.CapacityHolds(c, t.daemon);
    forall id | id in t.scans
      ensures id in OpenLogs(t) <==> id in D.OpenScans(t.daemon)
      ensures id in OpenLogs(t) ==> id in Unreturned(t)
      ensures id in Unreturned(t) ==> id in D.Holders(t.daemon)
    {
      LinkedSlot(c, t, id);
    }
    D.SubsetSize(OpenLogs(t), Unreturned(t));
    D.SubsetSize(Unreturned(t), D.Holders(t.daemon));
  }

  /** A slot a scan had comes back once, and only after its log was closed with one `Finished` at
      its end; and once the log is closed no room is kept for it but while the follower gives it
      back. */
  lemma SlotsComeBackLast(c: D.Config, t: House, id: nat)
    requires Arises(c, t) && id in t.scans
    ensures var back := multiset(t.daemon.trace)[D.Released(id)];
      back <= 1 && (back == 1 <==> !t.scans[id].slot)
    ensures D.Released(id) in t.daemon.trace ==> t.scans[id].log.closed && F.FinishedLast(t.scans[id].log.entries)
    ensures t.scans[id].log.closed && t.scans[id].slot ==> F.Rank(t.scans[id].follower) in {7, 8}
  {
    Always(c, t);
    LinkedSlot(c, t, id);
    D.SlotsAreConserved(c, t.daemon, id);
    R.EndsInOrder(t.scans[id]);
    assert HasScan(t.daemon.requests[id].place);
  }

  // ---------------------------------------------------------------------------
  // Nothing is held back
  // ---------------------------------------------------------------------------

  /** Running the two together holds no follower back: whatever its scan lets it do it can do. */
  lemma FollowerIsNotHeldBack(c: D.Config, h: House, id: nat) returns (x: Step)
    requires Linked(h) && id in h.scans && P.FollowerCan(h.scans[id])
    requires id in h.daemon.requests && Filed(h.daemon.requests[id].place)
    ensures Able(c, h, x) && About(x, id)
    ensures Done(c, h, x).scans == h.scans[id := P.FollowerNext(h.scans[id], EventLog.Completed)]
  {
    if h.scans[id].follower.Closing? {
      assert D.CanLeave(c, h.daemon.requests[id], D.CloseLog);
      x := Closes(id);
    } else if h.scans[id].follower.Releasing? {
      assert D.CanLeave(c, h.daemon.requests[id], D.GiveBack);
      x := Returns(id);
    } else {
      x := InScan(id, P.ByFollower(EventLog.Completed));
    }
    StepIsScans(c, h, x);
  }

  /** Nor is the engine held back, filed or not, or a client of a scan that is filed. */
  lemma OthersAreNotHeldBack(c: D.Config, h: House, id: nat, m: P.Move)
    requires id in h.scans && P.Can(h.scans[id], m) && !m.ByFollower?
    requires m.Open? || m.Ask? ==> id in h.daemon.requests && Filed(h.daemon.requests[id].place)
    ensures Able(c, h, InScan(id, m)) && Done(c, h, InScan(id, m)).scans == h.scans[id := P.Next(h.scans[id], m)]
  {
  }

  predicate About(x: Step, id: nat) {
    if x.Admits? then x.move.Act? && x.move.id == id else x.id == id
  }

  /** What is left until a scan's slot is back. */
  function Remaining(h: House, id: nat): nat
    requires id in h.scans && id in h.daemon.requests
  {
    G.FollowerLeft(h.scans[id]) + if h.daemon.requests[id].place.Filing? then 1 else 0
  }

  lemma FilesIt(c: D.Config, h: House, id: nat)
    requires id in h.scans && id in h.daemon.requests && h.daemon.requests[id].place.Filing?
    ensures var x := Admits(D.Act(id, D.File));
      && Able(c, h, x) && Done(c, h, x).scans == h.scans && id in Done(c, h, x).daemon.requests
      && Remaining(Done(c, h, x), id) < Remaining(h, id)
  {
  }

  lemma OneOn(c: D.Config, h: House, id: nat) returns (x: Step)
    requires Sound(c, h) && id in h.scans && G.EngineDone(h.scans[id]) && !h.scans[id].follower.Gone?
    ensures Able(c, h, x) && About(x, id) && Sound(c, Done(c, h, x)) && id in h.daemon.requests
    ensures id in Done(c, h, x).scans && G.EngineDone(Done(c, h, x).scans[id])
    ensures id in Done(c, h, x).daemon.requests && Remaining(Done(c, h, x), id) < Remaining(h, id)
  {
    if h.daemon.requests[id].place.Filing? {
      FilesIt(c, h, id);
      x := Admits(D.Act(id, D.File));
    } else {
      R.Everywhere(h.scans[id]);
      A.DoneFollowerCan(h.scans[id]);
      x := FollowerIsNotHeldBack(c, h, id);
      G.FollowerAdvances(h.scans[id], EventLog.Completed);
      StillFiled(c, h, x, id);
    }
    StepKeeps(c, h, x);
  }

  lemma StillFiled(c: D.Config, h: House, x: Step, id: nat)
    requires Able(c, h, x) && id in h.daemon.requests && Filed(h.daemon.requests[id].place)
    ensures id in Done(c, h, x).daemon.requests && !Done(c, h, x).daemon.requests[id].place.Filing?
  {
    StepIsDaemons(c, h, x);
    var m := OnDaemon(x);
    if m.Some? && m.value.Act? && m.value.id == id {
      FiledStays(c, h.daemon.taken, id, h.daemon.requests[id], m.value.choice);
    }
  }

  lemma FiledStays(c: D.Config, taken: nat, id: nat, r: D.Request, m: D.Choice)
    requires D.CanAct(c, r, m) && Filed(r.place)
    ensures !D.Taking(c, taken, id, r, m).request.place.Filing?
  {
    if Shared(D.Act(id, m)) {
      SharedFind(c, taken, id, r, m);
    } else {
      ActsFind(c, taken, id, r, m);
    }
  }

  lemma OneFirst(c: D.Config, h: House, x: Step, steps: seq<Step>, t: House)
    requires Able(c, h, x) && Comes(c, Done(c, h, x), steps, t)
    ensures Comes(c, h, [x] + steps, t)
  {
    assert ([x] + steps)[1..] == steps;
  }

  lemma {:induction false} WindsUp(c: D.Config, h: House, id: nat) returns (steps: seq<Step>, t: House)
    requires Sound(c, h) && id in h.scans && G.EngineDone(h.scans[id]) && id in h.daemon.requests
    ensures Comes(c, h, steps, t) && Sound(c, t) && |steps| <= Remaining(h, id)
    ensures forall x :: x in steps ==> About(x, id)
    ensures id in t.scans && t.scans[id].follower.Gone?
    decreases Remaining(h, id)
  {
    if h.scans[id].follower.Gone? {
      return [], h;
    }
    var x := OneOn(c, h, id);
    steps, t := WindsUp(c, Done(c, h, x), id);
    OneFirst(c, h, x, steps, t);
    steps := [x] + steps;
  }

  lemma GoneIsOver(h: House, id: nat)
    requires Linked(h) && id in h.scans && h.scans[id].follower.Gone?
    ensures id in h.daemon.requests && h.daemon.requests[id].place.Over?
  {
  }

  lemma OverIsBack(c: D.Config, s: D.State, id: nat)
    requires D.Reachable(c, s) && id in s.requests && s.requests[id].place.Over?
    ensures multiset(s.trace)[D.Released(id)] == 1 && id !in D.Holders(s)
  {
    D.SlotsAreConserved(c, s, id);
  }

  lemma GoneIsShut(s: P.State)
    requires P.Reachable(s) && s.follower.Gone?
    ensures s.log.closed && !s.slot
  {
    R.Everywhere(s);
  }

  lemma GoneIsBack(c: D.Config, t: House, id: nat)
    requires Sound(c, t) && id in t.scans && t.scans[id].follower.Gone?
    ensures t.scans[id].log.closed && !t.scans[id].slot
    ensures multiset(t.daemon.trace)[D.Released(id)] == 1 && id !in D.Holders(t.daemon)
  {
    GoneIsOver(t, id);
    OverIsBack(c, t.daemon, id);
    GoneIsShut(t.scans[id]);
  }

  lemma AtMostOneMore(h: House, id: nat)
    requires Linked(h) && id in h.scans
    ensures id in h.daemon.requests && Remaining(h, id) <= G.FollowerLeft(h.scans[id]) + 1
  {
  }

  /** No slot is lost: a scan whose engine is done is wound up by its own steps, no more than its
      follower has left and one to file it, and then its log is closed and its slot is back. */
  lemma EverySlotComesBack(c: D.Config, h: House, id: nat) returns (steps: seq<Step>, t: House)
    requires Arises(c, h) && id in h.scans && G.EngineDone(h.scans[id])
    ensures Comes(c, h, steps, t) && (forall x :: x in steps ==> About(x, id))
    ensures |steps| <= G.FollowerLeft(h.scans[id]) + 1
    ensures id in t.scans && t.scans[id].log.closed && !t.scans[id].slot
    ensures multiset(t.daemon.trace)[D.Released(id)] == 1 && id !in D.Holders(t.daemon)
  {
    Always(c, h);
    AtMostOneMore(h, id);
    steps, t := WindsUp(c, h, id);
    GoneIsBack(c, t, id);
  }
}
