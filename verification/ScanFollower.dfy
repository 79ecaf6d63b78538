/** What every run keeps about the log and the one task that writes it (src/scans.rs:653-727):
    the order a scan ends in, and that nothing the store holds is forgotten. */
module ScanFollower {
  import opened Digest
  import opened Wrappers
  import opened EventLog
  import opened ScanProtocol

  // ---------------------------------------------------------------------------
  // The invariants
  // ---------------------------------------------------------------------------

  /** A document the store has held for an address, and when. */
  predicate Held(history: map<Address, seq<Document>>, a: Address, version: nat, document: Document) {
    a in history && version < |history[a]| && history[a][version] == document
  }

  predicate Backed(history: map<Address, seq<Document>>, body: Body, version: nat) {
    body.Host? ==> Held(history, body.address, version, body.document)
  }

  /** Entries are numbered from one, and every host entry carries a document of the store's. */
  ghost predicate LogOk(s: State) {
    && (forall a :: a in s.history ==> s.history[a] != [])
    && Numbered(s.log.entries)
    && |s.versions| == |s.log.entries|
    && (forall i :: 0 <= i < |s.log.entries| ==> Backed(s.history, s.log.entries[i].body, s.versions[i]))
  }

  predicate Plain(bodies: seq<Body>) {
    forall b :: b in bodies ==> !b.Host? && !b.Finished?
  }

  /** The follower is about to append a host it has already remembered the digest of. */
  predicate Pending(s: State, a: Address) {
    s.follower.Pushing? && s.follower.bodies != []
    && s.follower.bodies[0].Host? && s.follower.bodies[0].address == a
  }

  predicate HandOk(s: State) {
    match s.follower
    case InHand(a, v) => a in s.history && v < |s.history[a]|
    case Pushing(bodies, v) =>
      bodies != [] && Plain(bodies[1..]) && !bodies[0].Finished? && (bodies[0].Host? ==> |bodies| == 1)
      && Backed(s.history, bodies[0], v)
    case Waking(rest) => Plain(rest)
    case _ => true
  }

  /** The digests remembered are those of the last document logged for each address, except
      for the one about to be appended. */
  ghost predicate SeenOk(s: State) {
    forall a :: SeenFor(s, a)
  }

  predicate SeenFor(s: State, a: Address) {
    var last := if Pending(s, a) then Some(s.follower.bodies[0].document) else LastDocument(s.log.entries, a);
    (a in s.log.seen <==> last.Some?) && (last.Some? ==> s.log.seen[a] == Fnv(last.value))
  }

  function Rank(f: Follower): nat {
    match f
    case Drained => 1
    case Joined(_) => 2
    case Concluding(_) => 3
    case PushingFinished(_) => 4
    case WakingFinished => 5
    case Closing => 6
    case WakingClosed => 7
    case Releasing => 8
    case Gone => 9
    case _ => 0
  }

  ghost predicate Unfinished(entries: seq<Event>) {
    forall i :: 0 <= i < |entries| ==> !entries[i].body.Finished?
  }

  /** Exactly one `Finished`, and it is the last thing said. */
  ghost predicate FinishedLast(entries: seq<Event>) {
    && entries != [] && entries[|entries| - 1].body.Finished?
    && (forall i :: 0 <= i < |entries| - 1 ==> !entries[i].body.Finished?)
  }

  ghost predicate LifecycleOk(s: State) {
    var rank := Rank(s.follower);
    && (rank >= 1 ==> !s.sending && s.queue == [])
    && (rank >= 2 ==> s.outcome.Some?)
    && (rank == 2 ==> s.outcome == Some(s.follower.ok))
    && (rank == 3 ==> s.outcome == Some(s.follower.ok))
    && (rank >= 3 ==> (s.outcome.value ==> s.reported))
    && (rank == 4 && !s.outcome.value ==> s.follower.cause == Aborted)
    && (rank <= 4 ==> Unfinished(s.log.entries))
    && (rank >= 5 ==> FinishedLast(s.log.entries))
    && (rank >= 5 && !s.outcome.value ==> s.log.entries[|s.log.entries| - 1].body == Finished(Aborted))
    && (s.log.closed <==> rank >= 7)
    && (s.slot <==> rank < 9)
  }

  /** A host whose last notice got through is on its way into the log: its
      notice is still to come or still queued, or the follower is about to read it or holds
      what it now is, or what was last written down for it has its digest. */
  predicate Tracked(s: State, a: Address)
    requires a in s.history && s.history[a] != []
  {
    var last := LastVersion(s.history[a]);
    || a in s.owed
    || HostUpdated(a) in s.queue
    || s.follower == Got(a)
    || s.follower == InHand(a, last)
    || (a in s.log.seen && s.log.seen[a] == Fnv(s.history[a][last])
        && !(s.follower.InHand? && s.follower.address == a))
  }

  ghost predicate CatchesUp(s: State)
    requires LogOk(s)
  {
    && (!s.sending ==> s.owed == {})
    && (forall a :: a in s.history && a !in s.missing ==> Tracked(s, a))
  }

  ghost predicate LogInvariant(s: State) {
    LogOk(s) && HandOk(s) && SeenOk(s) && LifecycleOk(s) && CatchesUp(s)
  }

  // ---------------------------------------------------------------------------
  // Moves of the engine
  // ---------------------------------------------------------------------------

  /** Nothing the store has held is ever un-held. */
  predicate Grown(before: map<Address, seq<Document>>, after: map<Address, seq<Document>>) {
    forall a :: a in before ==> a in after && before[a] <= after[a]
  }

  lemma BackedGrows(before: map<Address, seq<Document>>, after: map<Address, seq<Document>>, body: Body, v: nat)
    requires Grown(before, after) && Backed(before, body, v)
    ensures Backed(after, body, v)
  {
  }

  lemma EngineKeepsLog(s: State, m: EngineMove)
    requires LogOk(s) && HandOk(s) && EngineCan(s, m)
    ensures Grown(s.history, EngineNext(s, m).history)
    ensures LogOk(EngineNext(s, m)) && HandOk(EngineNext(s, m))
  {
    var t := EngineNext(s, m);
    assert Grown(s.history, t.history);
    forall i | 0 <= i < |t.log.entries|
      ensures Backed(t.history, t.log.entries[i].body, t.versions[i])
    {
      BackedGrows(s.history, t.history, s.log.entries[i].body, s.versions[i]);
    }
    if s.follower.Pushing? {
      BackedGrows(s.history, t.history, s.follower.bodies[0], s.follower.version);
    }
  }

  lemma {:induction false} DroppedIsUnheard(dropped: seq<Notice>, kept: seq<Notice>, a: Address)
    requires HostUpdated(a) in dropped && HostUpdated(a) !in kept
    ensures a in Unheard(dropped, kept)
  {
    var init := dropped[..|dropped| - 1];
    if dropped[|dropped| - 1] != HostUpdated(a) {
      assert dropped == init + [dropped[|dropped| - 1]];
      DroppedIsUnheard(init, kept, a);
    }
  }

  /** A notice that was queued is still there, or its host is one of the unheard. */
  lemma StillOrUnheard(queue: seq<Notice>, count: nat, a: Address)
    requires count <= |queue| && HostUpdated(a) in queue
    ensures HostUpdated(a) in queue[count..] || a in Unheard(queue[..count], queue[count..])
  {
    assert queue == queue[..count] + queue[count..];
    if HostUpdated(a) !in queue[count..] {
      DroppedIsUnheard(queue[..count], queue[count..], a);
    }
  }

  lemma EngineKeepsTrackOf(s: State, m: EngineMove, a: Address)
    requires LogInvariant(s) && EngineCan(s, m)
    requires a in EngineNext(s, m).history && EngineNext(s, m).history[a] != [] && a !in EngineNext(s, m).missing
    ensures Tracked(EngineNext(s, m), a)
  {
    var t := EngineNext(s, m);
    if a in s.history && a !in s.missing {
      assert Tracked(s, a);
    }
    if m.Announce? {
      assert t.queue[|s.queue|] == m.notice;
    } else if m.Overflow? && HostUpdated(a) in s.queue {
      StillOrUnheard(s.queue, m.count, a);
    }
  }

  lemma EngineKeepsTrack(s: State, m: EngineMove)
    requires LogInvariant(s) && EngineCan(s, m)
    ensures LogOk(EngineNext(s, m)) && CatchesUp(EngineNext(s, m))
  {
    EngineKeepsLog(s, m);
    var t := EngineNext(s, m);
    forall a | a in t.history && a !in t.missing
      ensures Tracked(t, a)
    {
      EngineKeepsTrackOf(s, m, a);
    }
  }

  lemma EngineKeeps(s: State, m: EngineMove)
    requires LogInvariant(s) && EngineCan(s, m)
    ensures LogInvariant(EngineNext(s, m))
  {
    EngineKeepsLog(s, m);
    EngineKeepsTrack(s, m);
    forall a
      ensures SeenFor(EngineNext(s, m), a)
    {
      assert SeenFor(s, a);
    }
  }

  // ---------------------------------------------------------------------------
  // Moves of the follower
  // ---------------------------------------------------------------------------

  lemma ReceiveKeepsTrack(s: State)
    requires LogInvariant(s) && FollowerCan(s) && s.follower.Receiving?
    ensures LogOk(Receive(s)) && CatchesUp(Receive(s))
  {
    var t := Receive(s);
    forall a | a in t.history && a !in t.missing
      ensures Tracked(t, a)
    {
      assert Tracked(s, a);
      if s.queue != [] {
        assert s.queue == [s.queue[0]] + s.queue[1..];
      }
    }
  }

  lemma ReceiveKeepsSeen(s: State)
    requires SeenOk(s) && s.follower.Receiving?
    ensures SeenOk(Receive(s))
  {
    forall a
      ensures SeenFor(Receive(s), a)
    {
      assert SeenFor(s, a);
    }
  }

  lemma ReceiveKeepsOrder(s: State)
    requires HandOk(s) && LifecycleOk(s) && FollowerCan(s) && s.follower.Receiving?
    ensures HandOk(Receive(s)) && LifecycleOk(Receive(s))
  {
  }

  lemma ReceiveKeeps(s: State)
    requires LogInvariant(s) && FollowerCan(s) && s.follower.Receiving?
    ensures LogInvariant(Receive(s))
  {
    ReceiveKeepsTrack(s);
    ReceiveKeepsSeen(s);
    ReceiveKeepsOrder(s);
  }

  lemma FetchKeeps(s: State)
    requires LogInvariant(s) && s.follower.Got?
    ensures LogInvariant(Fetch(s))
  {
    var t := Fetch(s);
    forall a
      ensures SeenFor(t, a)
    {
      assert SeenFor(s, a);
    }
    forall a | a in t.history && a !in t.missing
      ensures Tracked(t, a)
    {
      assert Tracked(s, a);
    }
  }

  lemma CompareKeeps(s: State)
    requires LogInvariant(s) && FollowerCan(s) && s.follower.InHand?
    ensures LogInvariant(Compare(s))
  {
    var t := Compare(s);
    forall a
      ensures SeenFor(t, a)
    {
      assert SeenFor(s, a);
    }
    forall a | a in t.history && a !in t.missing
      ensures Tracked(t, a)
    {
      assert Tracked(s, a);
    }
  }

  lemma AppendKeeps(s: State)
    requires LogInvariant(s) && FollowerCan(s) && s.follower.Pushing?
    ensures LogInvariant(Append(s))
  {
    var t := Append(s);
    assert t.log.entries[..|t.log.entries| - 1] == s.log.entries;
    forall a
      ensures SeenFor(t, a)
    {
      assert SeenFor(s, a);
    }
    forall a | a in t.history && a !in t.missing
      ensures Tracked(t, a)
    {
      assert Tracked(s, a);
    }
  }

  lemma WakeKeeps(s: State)
    requires LogInvariant(s) && s.follower.Waking?
    ensures LogInvariant(Wake(s))
  {
    var t := Wake(s);
    forall a
      ensures SeenFor(t, a)
    {
      assert SeenFor(s, a);
    }
    forall a | a in t.history && a !in t.missing
      ensures Tracked(t, a)
    {
      assert Tracked(s, a);
    }
  }

  /** The follower will read the store no more. */
  predicate Winding(f: Follower) { Rank(f) > 0 }

  lemma WindingKeepsTrack(s: State, t: State)
    requires LogInvariant(s) && Winding(s.follower) && Winding(t.follower) && LogOk(t)
    requires t.history == s.history && t.owed == s.owed && t.queue == s.queue
    requires t.sending == s.sending && t.missing == s.missing && t.log.seen == s.log.seen
    ensures CatchesUp(t)
  {
    forall a | a in t.history && a !in t.missing
      ensures Tracked(t, a)
    {
      assert Tracked(s, a);
    }
  }

  lemma SayFinishedKeeps(s: State)
    requires LogInvariant(s) && s.follower.PushingFinished?
    ensures LogInvariant(SayFinished(s))
  {
    var t := SayFinished(s);
    assert t.log.entries[..|t.log.entries| - 1] == s.log.entries;
    assert LogOk(t);
    forall a
      ensures SeenFor(t, a)
    {
      assert SeenFor(s, a);
    }
    WindingKeepsTrack(s, t);
  }

  /** The fields that reading and writing hosts depends on. */
  predicate SameHosts(s: State, t: State) {
    && t.log.entries == s.log.entries && t.log.seen == s.log.seen && t.versions == s.versions
    && t.history == s.history && t.owed == s.owed && t.queue == s.queue
    && t.sending == s.sending && t.missing == s.missing
  }

  lemma SettleMoves(s: State, stopped: Cause)
    requires LifecycleOk(s) && FollowerCan(s) && Settling(s.follower)
    ensures LifecycleOk(Settle(s, stopped))
    ensures SameHosts(s, Settle(s, stopped)) && Winding(Settle(s, stopped).follower)
  {
  }

  lemma SettleKeeps(s: State, stopped: Cause)
    requires LogInvariant(s) && FollowerCan(s) && Settling(s.follower)
    ensures LogInvariant(Settle(s, stopped))
  {
    SettleMoves(s, stopped);
    SameLog(s, Settle(s, stopped));
  }

  lemma ShutDownMoves(s: State)
    requires LifecycleOk(s) && Shutting(s.follower)
    ensures LifecycleOk(ShutDown(s))
    ensures SameHosts(s, ShutDown(s)) && Winding(ShutDown(s).follower)
  {
    assert Rank(ShutDown(s).follower) == Rank(s.follower) + 1;
  }

  lemma ShutDownKeeps(s: State)
    requires LogInvariant(s) && Shutting(s.follower)
    ensures LogInvariant(ShutDown(s))
  {
    ShutDownMoves(s);
    SameLog(s, ShutDown(s));
  }

  lemma SameLog(s: State, t: State)
    requires LogInvariant(s) && Winding(s.follower) && Winding(t.follower) && LifecycleOk(t)
    requires SameHosts(s, t)
    ensures LogInvariant(t)
  {
    assert LogOk(t);
    forall a
      ensures SeenFor(t, a)
    {
      assert SeenFor(s, a);
    }
    WindingKeepsTrack(s, t);
  }

  lemma FollowerKeeps(s: State, stopped: Cause)
    requires LogInvariant(s) && FollowerCan(s)
    ensures LogInvariant(FollowerNext(s, stopped))
  {
    match s.follower
    case Receiving => ReceiveKeeps(s);
    case Got(_) => FetchKeeps(s);
    case InHand(_, _) => CompareKeeps(s);
    case Pushing(_, _) => AppendKeeps(s);
    case Waking(_) => WakeKeeps(s);
    case PushingFinished(_) => SayFinishedKeeps(s);
    case Drained => SettleKeeps(s, stopped);
    case Joined(_) => SettleKeeps(s, stopped);
    case Concluding(_) => SettleKeeps(s, stopped);
    case WakingFinished => ShutDownKeeps(s);
    case Closing => ShutDownKeeps(s);
    case WakingClosed => ShutDownKeeps(s);
    case Releasing => ShutDownKeeps(s);
  }
}
