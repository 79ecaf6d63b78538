/** Every watch of a scan whose engine is done comes to an end (src/scans.rs:237-248, 705-725;
    src/stdio.rs:383-395), and one opened after the log was closed misses nothing. */
module ScanProgress {
  import opened Digest
  import opened Wrappers
  import opened EventLog
  import opened ScanProtocol
  import opened ScanFollower
  import opened ScanWatch
  import opened ScanRuns
  import L = Fairness
  import W = ScanWitness

  predicate EngineDone(s: State) { !s.sending && s.outcome.Some? }

  // ---------------------------------------------------------------------------
  // How much there is left to do
  // ---------------------------------------------------------------------------

  function Weight(f: Follower): nat {
    match f
    case Receiving => 9
    case Got(_) => 13
    case InHand(_, _) => 12
    case Pushing(bodies, _) => 9 + 2 * |bodies|
    case Waking(rest) => 10 + 2 * |rest|
    case Drained => 8
    case Joined(_) => 7
    case Concluding(_) => 6
    case PushingFinished(_) => 5
    case WakingFinished => 4
    case Closing => 3
    case WakingClosed => 2
    case Releasing => 1
    case Gone => 0
  }

  /** Steps the follower can still make: at most five a notice, then nine to wind up. */
  function FollowerLeft(s: State): nat { 6 * |s.queue| + Weight(s.follower) }

  function Ahead(s: State, from: nat): nat {
    if from <= |s.log.entries| then |s.log.entries| - from else 0
  }

  function Unread(s: State, w: Watch): nat { |s.history.Keys - w.got.Keys| }

  /** Steps the watch can still make before it must wait for the follower. */
  function WatchLeft(s: State, w: Watch): nat {
    match w.place
    case Snapshotting =>
      10 * Ahead(s, w.mark) + |w.caught| + 2 * Unread(s, w) +
      (match w.phase case Unmarked => 16 case Marked => 12 case Listing => 9 case Caught => 7)
    case Replaying => 10 * Ahead(s, w.mark) + (if w.snap <= |w.caught| then |w.caught| - w.snap else 0) + 6
    case Top => 10 * Ahead(s, w.position) + 5
    case Registered(created) => 10 * Ahead(s, w.position) + if created == s.log.wakes then 4 else 8
    case Empty(created) => 10 * Ahead(s, w.position) + if created == s.log.wakes then 3 else 7
    case Waiting(created) => 10 * Ahead(s, w.position) + if created == s.log.wakes then 2 else 6
    case Sending(_) => 10 * Ahead(s, w.position) + 2
    case Ending => 1
    case Ended => 0
    case Dropped => 0
  }

  function Left(s: State, id: nat): nat
    requires id in s.watches
  {
    20 * FollowerLeft(s) + WatchLeft(s, s.watches[id])
  }

  // ---------------------------------------------------------------------------
  // Every move that matters leaves less
  // ---------------------------------------------------------------------------

  /** One move of the follower leaves it less to do, and puts at most one entry and one
      wake-up in front of a watch. */
  predicate Advances(s: State, t: State) {
    && FollowerLeft(t) < FollowerLeft(s)
    && t.history == s.history
    && |s.log.entries| <= |t.log.entries| <= |s.log.entries| + 1
    && (t.log.wakes == s.log.wakes || t.log.wakes == s.log.wakes + 1)
    && t.sending == s.sending && t.outcome == s.outcome
  }

  lemma ReceiveAdvances(s: State)
    requires s.follower.Receiving? && FollowerCan(s)
    ensures Advances(s, Receive(s))
  {
  }

  lemma FetchAdvances(s: State)
    requires s.follower.Got?
    ensures Advances(s, Fetch(s))
  {
  }

  lemma SayFinishedAdvances(s: State)
    requires s.follower.PushingFinished?
    ensures Advances(s, SayFinished(s))
  {
  }

  lemma CompareAdvances(s: State)
    requires s.follower.InHand? && FollowerCan(s)
    ensures Advances(s, Compare(s))
  {
  }

  lemma AppendAdvances(s: State)
    requires s.follower.Pushing? && FollowerCan(s)
    ensures Advances(s, Append(s))
  {
  }

  lemma WakeAdvances(s: State)
    requires s.follower.Waking?
    ensures Advances(s, Wake(s))
  {
  }

  lemma SettleAdvances(s: State, stopped: Cause)
    requires Settling(s.follower) && FollowerCan(s)
    ensures Advances(s, Settle(s, stopped))
  {
  }

  lemma ShutDownAdvances(s: State)
    requires Shutting(s.follower)
    ensures Advances(s, ShutDown(s))
  {
  }

  lemma FollowerAdvances(s: State, stopped: Cause)
    requires FollowerCan(s)
    ensures Advances(s, FollowerNext(s, stopped))
  {
    match s.follower
    case Receiving => ReceiveAdvances(s);
    case Got(_) => FetchAdvances(s);
    case InHand(_, _) => CompareAdvances(s);
    case Pushing(_, _) => AppendAdvances(s);
    case Waking(_) => WakeAdvances(s);
    case PushingFinished(_) => SayFinishedAdvances(s);
    case Drained => SettleAdvances(s, stopped);
    case Joined(_) => SettleAdvances(s, stopped);
    case Concluding(_) => SettleAdvances(s, stopped);
    case WakingFinished => ShutDownAdvances(s);
    case Closing => ShutDownAdvances(s);
    case WakingClosed => ShutDownAdvances(s);
    case Releasing => ShutDownAdvances(s);
  }

  lemma NudgeIsSmall(s: State, t: State, w: Watch)
    requires Advances(s, t)
    ensures WatchLeft(t, w) < WatchLeft(s, w) + 20
  {
  }

  lemma SnapAdvances(s: State, w: Watch)
    requires SnapshotOk(s, w) && PlaceAgrees(w) && w.place.Snapshotting?
    ensures WatchLeft(s, Snap(s, w)) < WatchLeft(s, w)
  {
  }

  lemma OneLess(all: set<Address>, got: set<Address>, a: Address)
    requires a in all && a !in got
    ensures |all - (got + {a})| == |all - got| - 1
  {
    assert all - (got + {a}) == (all - got) - {a};
  }

  lemma OneLessUnread(s: State, w: Watch, a: Address)
    requires WatchCan(s, w, ReadHost(a))
    ensures Unread(s, WatchNext(s, w, ReadHost(a))) == Unread(s, w) - 1
  {
    OneLess(s.history.Keys, w.got.Keys, a);
    assert WatchNext(s, w, ReadHost(a)).got.Keys == w.got.Keys + {a};
  }

  lemma ReadHostAdvances(s: State, w: Watch, a: Address)
    requires WatchCan(s, w, ReadHost(a))
    ensures WatchLeft(s, WatchNext(s, w, ReadHost(a))) < WatchLeft(s, w)
  {
    OneLessUnread(s, w, a);
  }

  lemma ReplayAdvances(s: State, w: Watch)
    requires WatchOk(s, w) && w.place.Replaying?
    ensures WatchLeft(s, Replay(w)) < WatchLeft(s, w)
  {
    if w.snap < |w.caught| {
      assert w.caught[w.snap] in w.caught;
    }
  }

  lemma SendAdvances(s: State, w: Watch)
    requires LogInvariant(s) && WatchOk(s, w) && w.place.Sending?
    ensures WatchLeft(s, Send(w)) < WatchLeft(s, w)
  {
    assert w.place.batch[0] == s.log.entries[w.position];
  }

  lemma LookAdvances(s: State, w: Watch)
    requires PlaceOk(s, w) && PlaceAgrees(w) && Asking(w.place) && WatchCan(s, w, Go)
    ensures WatchLeft(s, Look(s, w)) < WatchLeft(s, w)
  {
  }

  lemma WatchAdvances(s: State, w: Watch, m: WatchMove)
    requires LogInvariant(s) && WatchOk(s, w) && WatchCan(s, w, m) && (m.Go? || m.ReadHost?)
    ensures WatchLeft(s, WatchNext(s, w, m)) < WatchLeft(s, w)
  {
    if m.ReadHost? {
      ReadHostAdvances(s, w, m.address);
    } else if w.place.Snapshotting? {
      SnapAdvances(s, w);
    } else if w.place.Replaying? {
      ReplayAdvances(s, w);
    } else if w.place.Sending? {
      SendAdvances(s, w);
    } else {
      LookAdvances(s, w);
    }
  }

  /** With the engine done, somebody can move: the follower, or the watch, until the watch has
      ended or its client is gone. */
  lemma NeverStuck(s: State, id: nat) returns (m: Move)
    requires Invariant(s) && EngineDone(s) && id in s.watches
    requires !s.watches[id].place.Ended? && !s.watches[id].place.Dropped?
    ensures Can(s, m) && Mine(m, id)
  {
    var w := s.watches[id];
    assert WatchOk(s, w);
    if FollowerCan(s) {
      m := ByFollower(Completed);
    } else if WatchCan(s, w, Go) {
      m := ByWatch(id, Go);
    } else {
      assert w.place.Snapshotting? && w.phase.Listing?;
      var a :| a in w.must && a !in w.got.Keys;
      m := ByWatch(id, ReadHost(a));
    }
  }

  /** The follower's moves, and this watch's own other than losing its client. */
  predicate Mine(m: Move, id: nat) {
    m.ByFollower? || (m.ByWatch? && m.id == id && (m.watch.Go? || m.watch.ReadHost?))
  }

  predicate Quits(m: Move, id: nat) {
    m.ByWatch? && m.id == id && (m.watch.Drop? || m.watch.Reconnect?)
  }

  function CountMine(moves: seq<Move>, id: nat): nat {
    if moves == [] then 0 else (if Mine(moves[0], id) then 1 else 0) + CountMine(moves[1..], id)
  }

  lemma FollowerMoveAdvances(s: State, stopped: Cause, id: nat)
    requires Invariant(s) && FollowerCan(s) && EngineDone(s) && id in s.watches
    ensures EngineDone(FollowerNext(s, stopped)) && id in FollowerNext(s, stopped).watches
    ensures Left(FollowerNext(s, stopped), id) + 1 <= Left(s, id)
  {
    FollowerAdvances(s, stopped);
    NudgeIsSmall(s, FollowerNext(s, stopped), s.watches[id]);
  }

  lemma WatchMoveAdvances(s: State, m: WatchMove, id: nat)
    requires Invariant(s) && id in s.watches && WatchCan(s, s.watches[id], m) && (m.Go? || m.ReadHost?)
    ensures Left(Next(s, ByWatch(id, m)), id) + 1 <= Left(s, id)
  {
    assert WatchOk(s, s.watches[id]);
    WatchAdvances(s, s.watches[id], m);
    SameAmountLeft(s, Next(s, ByWatch(id, m)), WatchNext(s, s.watches[id], m));
  }

  lemma MoveAdvances(s: State, m: Move, id: nat)
    requires Invariant(s) && Can(s, m) && EngineDone(s) && id in s.watches && !Quits(m, id)
    ensures EngineDone(Next(s, m)) && id in Next(s, m).watches
    ensures Left(Next(s, m), id) + (if Mine(m, id) then 1 else 0) <= Left(s, id)
  {
    if m.ByFollower? {
      FollowerMoveAdvances(s, m.stopped, id);
    } else if m.ByWatch? && m.id == id {
      WatchMoveAdvances(s, m.watch, id);
    } else {
      SameAmountLeft(s, Next(s, m), s.watches[id]);
    }
  }

  lemma SameAmountLeft(s: State, t: State, w: Watch)
    requires t.history == s.history && t.log == s.log
    ensures WatchLeft(t, w) == WatchLeft(s, w)
  {
  }

  /** Whatever else goes on, the follower and one watch between them make no more moves than
      `Left` says at the moment the engine is done. */
  lemma {:induction false} WaitIsBounded(s: State, moves: seq<Move>, t: State, id: nat)
    requires Invariant(s) && Leads(s, moves, t) && EngineDone(s) && id in s.watches
    requires forall m :: m in moves ==> !Quits(m, id)
    ensures EngineDone(t) && id in t.watches
    ensures CountMine(moves, id) + Left(t, id) <= Left(s, id)
    decreases |moves|
  {
    if moves != [] {
      assert moves[0] in moves;
      Keeps(s, moves[0]);
      MoveAdvances(s, moves[0], id);
      WaitIsBounded(Next(s, moves[0]), moves[1..], t, id);
    }
  }

  /** Neither the follower nor this watch has a move. */
  ghost predicate Still(s: State, id: nat) {
    forall m :: Mine(m, id) ==> !Can(s, m)
  }

  /** And when neither has a move left, the watch has been told there is no more, or its client
      is gone; the log is closed and the slot given back. */
  lemma EveryWatchEnds(t: State, id: nat)
    requires Reachable(t) && EngineDone(t) && id in t.watches && Still(t, id)
    ensures t.watches[id].place.Ended? || t.watches[id].place.Dropped?
    ensures t.log.closed && !t.slot
  {
    Everywhere(t);
    if !t.watches[id].place.Ended? && !t.watches[id].place.Dropped? {
      var m := NeverStuck(t, id);
      assert false;
    }
    StillIsGone(t, id);
  }

  lemma StillIsGone(t: State, id: nat)
    requires LogInvariant(t) && EngineDone(t) && Still(t, id)
    ensures t.follower.Gone? && t.log.closed && !t.slot
  {
    assert Mine(ByFollower(Completed), id);
    assert !Can(t, ByFollower(Completed));
  }

  lemma StaysThere(s: State, w: Watch, m: WatchMove)
    requires WatchCan(s, w, m) && !w.place.Dropped? && !m.Drop?
    ensures !WatchNext(s, w, m).place.Dropped?
  {
  }

  lemma NotDropped(s: State, m: Move, id: nat)
    requires Can(s, m) && id in s.watches && !s.watches[id].place.Dropped? && !Quits(m, id)
    ensures id in Next(s, m).watches && !Next(s, m).watches[id].place.Dropped?
  {
    if m.ByWatch? && m.id == id {
      StaysThere(s, s.watches[id], m.watch);
    }
  }

  /** The engine is done and the watch's client has stayed. */
  ghost predicate Winding(s: State, id: nat) {
    Reachable(s) && EngineDone(s) && id in s.watches && !s.watches[id].place.Dropped?
  }

  lemma StepOn(s: State, m: Move, id: nat)
    requires Winding(s, id) && Can(s, m) && !Quits(m, id)
    ensures Winding(Next(s, m), id)
    ensures Left(Next(s, m), id) + (if Mine(m, id) then 1 else 0) <= Left(s, id)
  {
    Everywhere(s);
    MoveAdvances(s, m, id);
    W.ReachesOn(s, m);
    NotDropped(s, m, id);
  }

  /** It takes nobody else: from wherever a scan is when its engine is done, the follower and the
      watch by themselves come to the end, in no more moves than `Left` says. */
  lemma {:induction false} TheyEndIt(s: State, id: nat) returns (moves: seq<Move>, t: State)
    requires Winding(s, id)
    ensures Leads(s, moves, t) && |moves| <= Left(s, id) && (forall m :: m in moves ==> Mine(m, id))
    ensures id in t.watches && t.watches[id].place.Ended? && t.log.closed && !t.slot
    decreases Left(s, id)
  {
    if Still(s, id) {
      EveryWatchEnds(s, id);
      return [], s;
    }
    var m :| Mine(m, id) && Can(s, m);
    StepOn(s, m, id);
    moves, t := TheyEndIt(Next(s, m), id);
    assert ([m] + moves)[1..] == moves;
    moves := [m] + moves;
  }

  // Runs that go on for ever.

  ghost predicate Runs(states: nat -> State, moves: nat -> Move) {
    forall n: nat {:trigger moves(n)} :: Can(states(n), moves(n)) && states(n + 1) == Next(states(n), moves(n))
  }

  ghost function WeightOf(s: State, id: nat): L.Weight {
    L.Weight(if id in s.watches then Left(s, id) else 0, 0, 0)
  }

  ghost function Weights(states: nat -> State, id: nat): nat -> L.Weight { (i: nat) => WeightOf(states(i), id) }

  ghost function Working(moves: nat -> Move, id: nat): nat -> bool { (i: nat) => Mine(moves(i), id) }

  ghost function Resting(states: nat -> State, id: nat): nat -> bool { (i: nat) => Still(states(i), id) }

  lemma {:induction false} StaysWinding(states: nat -> State, moves: nat -> Move, n: nat, i: nat, id: nat)
    requires Runs(states, moves) && (forall j: nat :: !Quits(moves(j), id)) && n <= i && Winding(states(n), id)
    ensures Winding(states(i), id)
    decreases i - n
  {
    if n < i {
      StepOn(states(n), moves(n), id);
      StaysWinding(states, moves, n + 1, i, id);
    }
  }

  lemma StepWeighs(s: State, m: Move, id: nat)
    requires Winding(s, id) && Can(s, m) && !Quits(m, id)
    ensures L.AtMost(WeightOf(Next(s, m), id), WeightOf(s, id))
    ensures Mine(m, id) ==> L.Less(WeightOf(Next(s, m), id), WeightOf(s, id))
  {
    StepOn(s, m, id);
  }

  lemma RunFalls(states: nat -> State, moves: nat -> Move, n: nat, id: nat)
    requires Runs(states, moves) && (forall j: nat :: !Quits(moves(j), id)) && Winding(states(n), id)
    ensures L.Falls(Weights(states, id), Working(moves, id), Resting(states, id), n)
  {
    forall i: nat | n <= i
      ensures L.Step(Weights(states, id), Working(moves, id), i)
    {
      StaysWinding(states, moves, n, i, id);
      StepWeighs(states(i), moves(i), id);
    }
  }

  /** However the rest of the scan goes on, for ever if it likes: a watch whose client stays is
      told the end, so long as the two who work towards it are not kept waiting for ever: again
      and again one of them moves, or neither has a move. */
  lemma EveryFairRunEndsIt(states: nat -> State, moves: nat -> Move, n: nat, id: nat) returns (i: nat)
    requires Runs(states, moves) && (forall j: nat :: !Quits(moves(j), id)) && Winding(states(n), id)
    requires L.Fair(Working(moves, id), Resting(states, id))
    ensures n <= i && id in states(i).watches && states(i).watches[id].place.Ended?
    ensures states(i).log.closed && !states(i).slot
  {
    RunFalls(states, moves, n, id);
    i := L.ComesToRest(Weights(states, id), Working(moves, id), Resting(states, id), n);
    StaysWinding(states, moves, n, i, id);
    EveryWatchEnds(states(i), id);
  }

  // ---------------------------------------------------------------------------
  // Watching again
  // ---------------------------------------------------------------------------

  /** A watch every answer of which was read from a closed log. */
  predicate AskedLate(w: Watch) {
    w.place.Empty? || w.place.Waiting? || w.place.Ending? || w.place.Ended? ==> w.closedAtRead
  }

  lemma MoveStaysLate(s: State, m: Move, id: nat)
    requires Invariant(s) && Can(s, m) && s.log.closed
    requires id in s.watches ==> AskedLate(s.watches[id])
    ensures Next(s, m).log.closed
    ensures id in Next(s, m).watches ==> AskedLate(Next(s, m).watches[id])
  {
    StepOnward(s, m);
    if m.ByWatch? && m.id == id {
      WatchStaysLate(s, s.watches[id], m.watch);
    }
  }

  lemma WatchStaysLate(s: State, w: Watch, m: WatchMove)
    requires s.log.closed && AskedLate(w) && WatchCan(s, w, m)
    ensures AskedLate(WatchNext(s, w, m))
  {
  }

  lemma {:induction false} StaysLate(s: State, moves: seq<Move>, t: State, id: nat)
    requires Invariant(s) && Leads(s, moves, t) && s.log.closed
    requires id in s.watches ==> AskedLate(s.watches[id])
    ensures id in t.watches ==> AskedLate(t.watches[id])
    decreases |moves|
  {
    if moves != [] {
      Keeps(s, moves[0]);
      MoveStaysLate(s, moves[0], id);
      StaysLate(Next(s, moves[0]), moves[1..], t, id);
    }
  }

  /** A client that watches again, from any position it had reached, after the log was closed
      is told all the rest of it before it is told there is no more. */
  lemma RewatchDeliversTheRest(s: State, moves: seq<Move>, t: State, id: nat)
    requires Reachable(s) && s.log.closed && id !in s.watches && Leads(s, moves, t)
    requires id in t.watches && t.watches[id].place.Ended?
    requires 0 < t.watches[id].from <= |t.log.entries|
    ensures t.watches[id].received == Tail(s.log.entries, t.watches[id].from)
  {
    Everywhere(s);
    StaysLate(s, moves, t, id);
    RunKeeps(s, moves, t);
    LogOnlyGrows(s, moves, t);
    LateHasTheRest(t, t.watches[id]);
  }

  lemma LateHasTheRest(t: State, w: Watch)
    requires WatchOk(t, w) && w.place.Ended? && w.closedAtRead && 0 < w.from <= |t.log.entries|
    ensures w.received == Tail(t.log.entries, w.from)
  {
    assert w.position == |t.log.entries|;
    assert t.log.entries[w.from..|t.log.entries|] == t.log.entries[w.from..];
  }
}
