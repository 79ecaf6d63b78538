/** The protocol over whole runs: what holds in every state any interleaving of engine,
    follower, watches and requests can reach. */
module ScanRuns {
  import opened Digest
  import opened Wrappers
  import opened EventLog
  import opened ScanProtocol
  import opened ScanFollower
  import opened ScanWatch

  /** A `get` that found the scan over reports the log's final number. */
  predicate QueryOk(s: State, q: Query) {
    && (!q.running ==> s.log.closed)
    && (q.Answered? ==> q.number <= |s.log.entries| && (!q.running ==> q.number == |s.log.entries|))
  }

  ghost predicate Invariant(s: State) {
    && LogInvariant(s)
    && (forall id :: id in s.watches ==> WatchOk(s, s.watches[id]))
    && (forall id :: id in s.queries ==> QueryOk(s, s.queries[id]))
  }

  lemma OthersStand(s: State, t: State)
    requires Invariant(s) && LogInvariant(t) && Onward(s, t)
    requires t.watches == s.watches && t.queries == s.queries
    ensures Invariant(t)
  {
    forall id | id in t.watches
      ensures WatchOk(t, t.watches[id])
    {
      WatchStands(s, t, s.watches[id]);
    }
    forall id | id in t.queries
      ensures QueryOk(t, t.queries[id])
    {
      assert QueryOk(s, s.queries[id]);
    }
  }

  /** The log's invariant and a watch's do not depend on who else is watching. */
  lemma SameScan(s: State, t: State)
    requires t == s.(watches := t.watches, queries := t.queries)
    requires LogInvariant(s)
    ensures LogInvariant(t)
    ensures Onward(s, t)
  {
    assert Grown(s.history, s.history);
    forall a
      ensures SeenFor(t, a)
    {
      assert SeenFor(s, a);
    }
    forall a | a in t.history && a !in t.missing
      ensures Tracked(t, a)
    {
      assert Tracked(s, a);
    }
  }

  lemma OneWatchKeeps(s: State, m: Move, id: nat)
    requires Invariant(s) && Can(s, m) && !m.ByEngine? && !m.ByFollower? && id in Next(s, m).watches
    ensures WatchOk(s, Next(s, m).watches[id])
  {
    if m.Open? && id == m.id {
      OpenedOk(s, m.from);
    } else if m.ByWatch? && id == m.id {
      WatchKeeps(s, s.watches[id], m.watch);
    } else {
      assert WatchOk(s, s.watches[id]);
    }
  }

  lemma OneQueryKeeps(s: State, m: Move, id: nat)
    requires Invariant(s) && Can(s, m) && !m.ByEngine? && !m.ByFollower? && id in Next(s, m).queries
    ensures QueryOk(s, Next(s, m).queries[id])
  {
    if id in s.queries {
      assert QueryOk(s, s.queries[id]);
    }
  }

  lemma WatchersKeep(s: State, m: Move)
    requires Invariant(s) && Can(s, m) && !m.ByEngine? && !m.ByFollower?
    ensures Invariant(Next(s, m))
  {
    var t := Next(s, m);
    SameScan(s, t);
    forall id | id in t.watches
      ensures WatchOk(t, t.watches[id])
    {
      OneWatchKeeps(s, m, id);
      WatchStands(s, t, t.watches[id]);
    }
    forall id | id in t.queries
      ensures QueryOk(t, t.queries[id])
    {
      OneQueryKeeps(s, m, id);
    }
  }

  lemma EngineStep(s: State, e: EngineMove)
    requires Invariant(s) && EngineCan(s, e)
    ensures Invariant(EngineNext(s, e))
  {
    EngineKeeps(s, e);
    EngineOnward(s, e);
    OthersStand(s, EngineNext(s, e));
  }

  lemma FollowerStep(s: State, stopped: Cause)
    requires Invariant(s) && FollowerCan(s)
    ensures Invariant(FollowerNext(s, stopped))
  {
    FollowerKeeps(s, stopped);
    FollowerOnward(s, stopped);
    OthersStand(s, FollowerNext(s, stopped));
  }

  lemma Keeps(s: State, m: Move)
    requires Invariant(s) && Can(s, m)
    ensures Invariant(Next(s, m))
  {
    if m.ByEngine? {
      EngineStep(s, m.engine);
    } else if m.ByFollower? {
      FollowerStep(s, m.stopped);
    } else {
      WatchersKeep(s, m);
    }
  }

  lemma InitiallySo()
    ensures Invariant(Initial())
  {
    assert forall a :: SeenFor(Initial(), a);
  }

  lemma {:induction false} RunKeeps(s: State, moves: seq<Move>, t: State)
    requires Invariant(s) && Leads(s, moves, t)
    ensures Invariant(t)
    decreases |moves|
  {
    if moves != [] {
      Keeps(s, moves[0]);
      RunKeeps(Next(s, moves[0]), moves[1..], t);
    }
  }

  lemma Everywhere(t: State)
    requires Reachable(t)
    ensures Invariant(t)
  {
    InitiallySo();
    var moves :| Leads(Initial(), moves, t);
    RunKeeps(Initial(), moves, t);
  }

  // ---------------------------------------------------------------------------
  // How a scan ends
  // ---------------------------------------------------------------------------

  predicate FinalAnswer(t: State, q: Query) {
    q.Answered? && !q.running ==> t.log.closed && q.number == |t.log.entries|
  }

  /** Slot given back, only after the log is closed, only after `Finished` is the one last
      thing in it, only after a report that there is was kept; and a request that found the
      scan over was told the log's final number. */
  lemma EndsInOrder(t: State)
    requires Reachable(t)
    ensures !t.slot ==> t.log.closed
    ensures t.log.closed ==> FinishedLast(t.log.entries) && t.outcome.Some?
    ensures t.log.closed && t.outcome == Some(true) ==> t.reported
    ensures t.log.closed && t.outcome == Some(false) ==>
      t.log.entries[|t.log.entries| - 1].body == Finished(Aborted)
    ensures !t.log.closed && !Shutting(t.follower) ==> Unfinished(t.log.entries)
    ensures forall id :: id in t.queries ==> FinalAnswer(t, t.queries[id])
  {
    Everywhere(t);
    forall id | id in t.queries
      ensures FinalAnswer(t, t.queries[id])
    {
      assert QueryOk(t, t.queries[id]);
    }
  }

  lemma StepOnward(s: State, m: Move)
    requires Invariant(s) && Can(s, m)
    ensures Onward(s, Next(s, m))
  {
    match m
    case ByEngine(e) => EngineOnward(s, e);
    case ByFollower(stopped) => FollowerOnward(s, stopped);
    case _ => SameScan(s, Next(s, m));
  }

  /** However a run goes on, the log only grows, and once closed not at all. */
  lemma {:induction false} LogOnlyGrows(s: State, moves: seq<Move>, t: State)
    requires Invariant(s) && Leads(s, moves, t)
    ensures s.log.entries <= t.log.entries
    ensures s.log.closed ==> t.log.closed && t.log.entries == s.log.entries
    decreases |moves|
  {
    if moves != [] {
      Keeps(s, moves[0]);
      StepOnward(s, moves[0]);
      LogOnlyGrows(Next(s, moves[0]), moves[1..], t);
    }
  }

  // ---------------------------------------------------------------------------
  // The follower forgets nothing
  // ---------------------------------------------------------------------------

  /** Nothing on its way from the store to the log. */
  predicate Quiet(s: State) {
    s.owed == {} && s.queue == [] && !s.follower.Got? && !s.follower.InHand? && !s.follower.Pushing?
  }

  predicate SameDigest(a: Option<Document>, b: Option<Document>) {
    a.Some? && b.Some? && Fnv(a.value) == Fnv(b.value)
  }

  lemma WoundUpIsQuiet(t: State)
    requires Reachable(t) && Rank(t.follower) > 0
    ensures Quiet(t)
  {
    Everywhere(t);
  }

  /** With no notice left to handle, the log alone tells the store of each host whose last notice
      got through, up to the digest: it mentions it exactly if the store has it, and what it last
      said of it has the digest of what it now is. */
  lemma LogTellsTheStore(t: State, a: Address)
    requires Reachable(t) && a !in t.missing && Quiet(t)
    ensures a in t.history <==> LastDocument(t.log.entries, a).Some?
    ensures a in t.history ==> SameDigest(LastDocument(t.log.entries, a), Current(t.history, a))
  {
    Everywhere(t);
    assert SeenFor(t, a);
    if a in t.history {
      assert Tracked(t, a);
    }
    if LastDocument(t.log.entries, a).Some? {
      var at := LastIsSomewhere(t.log.entries, a);
      assert Backed(t.history, t.log.entries[at].body, t.versions[at]);
    }
  }

  // ---------------------------------------------------------------------------
  // Watches: no gap, no repeat, no lost wake-up
  // ---------------------------------------------------------------------------

  /** Across any number of connections, each taken up at the position the last one reached,
      a client holds part of one snapshot and then one unbroken run of the log. */
  lemma NoGapNoRepeat(t: State, id: nat)
    requires Reachable(t) && id in t.watches
    ensures var w := t.watches[id];
      && w.snap <= |w.caught|
      && w.received == w.caught[..w.snap] + Stretch(t.log.entries, w.base, w.position)
      && (w.from > 0 ==> w.base == w.from && w.caught == [])
      && (forall e :: e in w.caught ==> e.number == w.base)
      && (w.snap < |w.caught| && w.place.Snapshotting? ==> w.received == [])
  {
    Everywhere(t);
    assert WatchOk(t, t.watches[id]);
  }

  /** A watch asleep and not yet woken has nothing to read and a log that may still grow, or
      the follower stands between the append or the close and the wake-up it owes. */
  lemma NoLostWakeup(t: State, id: nat)
    requires Reachable(t) && id in t.watches
    requires t.watches[id].place.Waiting? && t.watches[id].place.created == t.log.wakes
    ensures Tail(t.log.entries, t.watches[id].position) == [] || Stirring(t.follower)
    ensures !t.log.closed || t.follower.WakingClosed?
  {
    Everywhere(t);
    assert WatchOk(t, t.watches[id]);
  }

  lemma EndedAt(t: State, w: Watch)
    requires Invariant(t) && WatchOk(t, w) && w.place.Ended?
    ensures t.log.closed && FinishedLast(t.log.entries) && AskedAndGotNothing(t, w)
    ensures w.position == w.base || w.base < w.position <= |t.log.entries|
  {
  }

  lemma AlmostTheEnd(t: State, w: Watch)
    requires FinishedLast(t.log.entries) && AskedAndGotNothing(t, w)
    ensures w.closedAtRead ==> Missed(t, w) == []
    ensures w.from <= w.readAt ==> (Missed(t, w) == [] <==> w.readAt == |t.log.entries|)
    ensures Missed(t, w) != [] ==> Missed(t, w)[|Missed(t, w)| - 1].body.Finished?
  {
  }

  /** What a watch that was told "no more" has missed, if anything: only entries appended
      between its last two reads, of the entries and of the closed flag, so nothing exactly
      when there were none, as when the log was already closed at the first of the two.
      Whatever it missed is a suffix of the log that ends in `Finished`. */
  lemma EndIsAlmostTheEnd(t: State, id: nat)
    requires Reachable(t) && id in t.watches && t.watches[id].place.Ended?
    ensures t.log.closed && FinishedLast(t.log.entries)
    ensures t.watches[id].readAt <= t.watches[id].position
    ensures t.watches[id].closedAtRead ==> Missed(t, t.watches[id]) == []
    ensures t.watches[id].from <= t.watches[id].readAt ==>
      (Missed(t, t.watches[id]) == [] <==> t.watches[id].readAt == |t.log.entries|)
    ensures Missed(t, t.watches[id]) != [] ==>
      Missed(t, t.watches[id])[|Missed(t, t.watches[id])| - 1].body.Finished?
  {
    Everywhere(t);
    EndedAt(t, t.watches[id]);
    AlmostTheEnd(t, t.watches[id]);
  }

  ghost predicate HeardFinished(events: seq<Event>) {
    exists e :: e in events && e.body.Finished?
  }

  lemma LastIsTold(t: State, w: Watch)
    requires WatchOk(t, w) && FinishedLast(t.log.entries) && w.base < w.position == |t.log.entries|
    ensures HeardFinished(w.received)
  {
    var told := Stretch(t.log.entries, w.base, w.position);
    var last := t.log.entries[|t.log.entries| - 1];
    assert told[|told| - 1] == last;
    assert last in w.received;
  }

  /** What the client can see of it: told that there is no more, it has missed nothing exactly
      when it was told `finished`, or started at the end of the log already. */
  lemma NothingMissedExactly(t: State, id: nat)
    requires Reachable(t) && id in t.watches && t.watches[id].place.Ended?
    ensures Missed(t, t.watches[id]) == []
       <==> t.watches[id].base >= |t.log.entries| || HeardFinished(t.watches[id].received)
  {
    Everywhere(t);
    var w := t.watches[id];
    EndedAt(t, w);
    if HeardFinished(w.received) {
      var e :| e in w.received && e.body.Finished?;
      OnlyTailsFinish(t, w, e);
    } else if w.base < |t.log.entries| && Missed(t, w) == [] {
      assert w.position == |t.log.entries|;
      LastIsTold(t, w);
    }
  }

  /** So a client that was told `finished` has the log to its end. */
  lemma FinishedMeansAll(t: State, id: nat, e: Event)
    requires Reachable(t) && id in t.watches && t.log.closed
    requires e in t.watches[id].received && e.body.Finished?
    ensures t.watches[id].position == |t.log.entries| && Missed(t, t.watches[id]) == []
  {
    Everywhere(t);
    assert WatchOk(t, t.watches[id]);
    OnlyTailsFinish(t, t.watches[id], e);
  }

  function Missed(t: State, w: Watch): seq<Event> { Tail(t.log.entries, w.position) }

  /** Snapshots carry hosts and progress, so a `Finished` a client has came from the log. */
  lemma OnlyTailsFinish(t: State, w: Watch, e: Event)
    requires Invariant(t) && WatchOk(t, w) && FinishedLast(t.log.entries)
    requires e in w.received && e.body.Finished?
    ensures w.position == |t.log.entries|
  {
    var shown, told := w.caught[..w.snap], Stretch(t.log.entries, w.base, w.position);
    assert forall x :: x in shown ==> x in w.caught;
    assert CaughtKinds(t, w) || w.caught == [];
    assert e in told;
    var i :| 0 <= i < |told| && told[i] == e;
    assert t.log.entries[w.base + i] == e;
  }
}
