/** What every run keeps about each watch (src/stdio.rs:345-396; src/scans.rs:202-248): what
    its snapshot covers, that its tail is one unbroken run of the log, and that it is never
    asleep over something nobody will wake it for. */
module ScanWatch {
  import opened Digest
  import opened Wrappers
  import opened EventLog
  import opened ScanProtocol
  import opened ScanFollower

  // ---------------------------------------------------------------------------
  // The invariants of one watch
  // ---------------------------------------------------------------------------

  predicate About(e: Event, a: Address) { e.body.Host? && e.body.address == a }

  /** A host read for the snapshot: a document of the store's, no older than anything the log
      had said of it when the watermark was taken. */
  ghost predicate ReadOk(s: State, mark: nat, a: Address, version: nat) {
    && a in s.history && version < |s.history[a]|
    && (forall j :: 0 <= j < mark && j < |s.log.entries| && j < |s.versions| && About(s.log.entries[j], a)
          ==> s.versions[j] <= version)
  }

  /** Every host the log had mentioned at the watermark is one the snapshot must read. */
  ghost predicate MustCover(s: State, mark: nat, must: set<Address>) {
    forall j :: 0 <= j < mark && j < |s.log.entries| && s.log.entries[j].body.Host?
      ==> s.log.entries[j].body.address in must
  }

  predicate CaughtFor(s: State, w: Watch, a: Address) {
    LastDocument(w.caught, a) == if a in w.got && a in s.history && w.got[a] < |s.history[a]|
                                 then Some(s.history[a][w.got[a]]) else None
  }

  /** A snapshot says hosts as they were read, and progress, and nothing else. */
  predicate AsRead(s: State, w: Watch, e: Event) {
    match e.body
    case Host(a, document) =>
      a in w.got && a in s.history && w.got[a] < |s.history[a]| && document == s.history[a][w.got[a]]
    case Progress(_, _) => true
    case _ => false
  }

  ghost predicate CaughtKinds(s: State, w: Watch) {
    forall e :: e in w.caught ==> AsRead(s, w, e)
  }

  /** One frame for each host read, and at the end one that says how far the scan has got. */
  predicate Shaped(w: Watch) {
    match w.phase
    case Unmarked => w.caught == [] && w.got == map[]
    case Marked => w.caught == [] && w.got == map[]
    case Listing => |w.caught| == |w.got|
    case Caught => |w.caught| == |w.got| + 1 && w.caught[|w.caught| - 1].body.Progress?
  }

  ghost predicate SnapshotOk(s: State, w: Watch) {
    if w.from > 0 then w.phase.Caught? && w.caught == [] && w.base == w.from
    else
      && w.base == w.mark <= |s.log.entries|
      && (w.phase.Unmarked? ==> w.mark == 0)
      && Shaped(w)
      && (w.phase.Listing? || w.phase.Caught? ==> MustCover(s, w.mark, w.must) && w.must <= s.history.Keys)
      && (w.phase.Caught? ==> w.must <= w.got.Keys)
      && (forall a :: a in w.got ==> ReadOk(s, w.mark, a, w.got[a]))
      && (forall e :: e in w.caught ==> e.number == w.mark) && CaughtKinds(s, w)
      && (forall a :: CaughtFor(s, w, a))
  }

  /** What the client holds: a prefix of the snapshot, then one unbroken run of the log. */
  ghost predicate Spliced(s: State, w: Watch) {
    && w.snap <= |w.caught|
    && w.received == w.caught[..w.snap] + Stretch(s.log.entries, w.base, w.position)
    && (if w.from == 0 && w.snap == 0 then w.position == 0
        else w.position == w.base || w.base < w.position <= |s.log.entries|)
  }

  predicate PlaceAgrees(w: Watch) {
    match w.place
    case Snapshotting => w.from == 0 && w.snap == 0
    case Replaying => w.from == 0 && w.phase.Caught? && w.cursor == w.mark && w.position == if w.snap == 0 then 0 else w.mark
    case Dropped => (w.phase.Caught? || w.snap == 0) && (w.snap < |w.caught| && w.base == 0 ==> w.position == 0)
    case _ => w.phase.Caught? && w.cursor == w.position
              && (w.from == 0 ==> w.snap > 0 && (w.snap < |w.caught| ==> w.base > 0))
  }

  /** Between an append and the wake-up that follows it. */
  predicate Stirring(f: Follower) { f.Waking? || f.WakingFinished? }

  predicate AskedAndGotNothing(s: State, w: Watch) {
    && w.readAt <= |s.log.entries| && w.readAt <= w.position
    && (w.position == w.readAt || (w.from > 0 && w.position == w.from))
    && (w.closedAtRead ==> s.log.closed && w.readAt == |s.log.entries|)
  }

  ghost predicate PlaceOk(s: State, w: Watch) {
    match w.place
    case Sending(batch) => batch != [] && w.position + |batch| <= |s.log.entries|
                           && batch == s.log.entries[w.position..w.position + |batch|]
    case Registered(created) => created <= s.log.wakes
    case Empty(created) => created <= s.log.wakes && AskedAndGotNothing(s, w)
                           && (created == s.log.wakes ==> w.position >= |s.log.entries| || Stirring(s.follower))
    case Waiting(created) => created <= s.log.wakes && AskedAndGotNothing(s, w)
                             && (created == s.log.wakes ==> w.position >= |s.log.entries| || Stirring(s.follower))
                             && (created == s.log.wakes ==> !s.log.closed || s.follower.WakingClosed?)
    case Ending => s.log.closed && AskedAndGotNothing(s, w)
    case Ended => s.log.closed && AskedAndGotNothing(s, w)
    case _ => true
  }

  ghost predicate WatchOk(s: State, w: Watch) {
    SnapshotOk(s, w) && Spliced(s, w) && PlaceAgrees(w) && PlaceOk(s, w)
  }

  // ---------------------------------------------------------------------------
  // Moves of everybody else
  // ---------------------------------------------------------------------------

  /** How far the rest of the world may move under a watch: the log and the store only grow,
      a closed log not at all, and an append or a close comes with its wake-up owed. */
  predicate Onward(s: State, t: State) {
    && Grown(s.history, t.history)
    && s.log.entries <= t.log.entries && s.versions <= t.versions
    && |s.versions| == |s.log.entries| && |t.versions| == |t.log.entries|
    && s.log.wakes <= t.log.wakes
    && (s.log.closed ==> t.log.closed && t.log.entries == s.log.entries)
    && (s.log.wakes == t.log.wakes ==>
          && (t.log.entries != s.log.entries ==> Stirring(t.follower))
          && (Stirring(s.follower) ==> Stirring(t.follower))
          && (t.log.closed && !s.log.closed ==> t.follower.WakingClosed?)
          && (s.follower.WakingClosed? ==> t.follower.WakingClosed?))
  }

  lemma EngineOnward(s: State, m: EngineMove)
    requires LogInvariant(s) && EngineCan(s, m)
    ensures Onward(s, EngineNext(s, m))
  {
    EngineKeepsLog(s, m);
  }

  lemma StillOnward(s: State, t: State)
    requires LogOk(s) && !Stirring(s.follower) && !s.follower.WakingClosed?
    requires t.history == s.history && t.log == s.log.(seen := t.log.seen) && t.versions == s.versions
    ensures Onward(s, t)
  {
    assert Grown(s.history, s.history);
  }

  lemma AppendOnward(s: State)
    requires LogInvariant(s) && FollowerCan(s) && s.follower.Pushing?
    ensures Onward(s, Append(s))
  {
    assert Grown(s.history, s.history);
  }

  lemma WakeOnward(s: State)
    requires LogInvariant(s) && s.follower.Waking?
    ensures Onward(s, Wake(s))
  {
    assert Grown(s.history, s.history);
  }

  lemma SayFinishedOnward(s: State)
    requires LogInvariant(s) && s.follower.PushingFinished?
    ensures Onward(s, SayFinished(s))
  {
    assert Grown(s.history, s.history);
  }

  lemma ShutDownOnward(s: State)
    requires LogInvariant(s) && Shutting(s.follower)
    ensures Onward(s, ShutDown(s))
  {
    assert Grown(s.history, s.history);
  }

  lemma ReceiveOnward(s: State)
    requires LogOk(s) && s.follower.Receiving?
    ensures Onward(s, Receive(s))
  {
    StillOnward(s, Receive(s));
  }

  lemma CompareOnward(s: State)
    requires LogOk(s) && s.follower.InHand? && FollowerCan(s)
    ensures Onward(s, Compare(s))
  {
    StillOnward(s, Compare(s));
  }

  lemma SettleOnward(s: State, stopped: Cause)
    requires LogOk(s) && Settling(s.follower) && FollowerCan(s)
    ensures Onward(s, Settle(s, stopped))
  {
    StillOnward(s, Settle(s, stopped));
  }

  lemma FollowerOnward(s: State, stopped: Cause)
    requires LogInvariant(s) && FollowerCan(s)
    ensures Onward(s, FollowerNext(s, stopped))
  {
    match s.follower
    case Receiving => ReceiveOnward(s);
    case Got(_) => StillOnward(s, Fetch(s));
    case InHand(_, _) => CompareOnward(s);
    case Pushing(_, _) => AppendOnward(s);
    case Waking(_) => WakeOnward(s);
    case PushingFinished(_) => SayFinishedOnward(s);
    case Drained => SettleOnward(s, stopped);
    case Joined(_) => SettleOnward(s, stopped);
    case Concluding(_) => SettleOnward(s, stopped);
    case WakingFinished => ShutDownOnward(s);
    case Closing => ShutDownOnward(s);
    case WakingClosed => ShutDownOnward(s);
    case Releasing => ShutDownOnward(s);
  }

  lemma SnapshotStands(s: State, t: State, w: Watch)
    requires SnapshotOk(s, w) && Onward(s, t)
    ensures SnapshotOk(t, w)
  {
    if w.from == 0 {
      forall a | a in w.got
        ensures ReadOk(t, w.mark, a, w.got[a])
      {
        assert ReadOk(s, w.mark, a, w.got[a]);
      }
      forall a
        ensures CaughtFor(t, w, a)
      {
        assert CaughtFor(s, w, a);
        if a in w.got {
          assert ReadOk(s, w.mark, a, w.got[a]);
        }
      }
    }
  }

  lemma SpliceStands(s: State, t: State, w: Watch)
    requires Spliced(s, w) && SnapshotOk(s, w) && Onward(s, t)
    ensures Spliced(t, w)
  {
  }

  lemma PlaceStands(s: State, t: State, w: Watch)
    requires PlaceOk(s, w) && PlaceAgrees(w) && Onward(s, t)
    ensures PlaceOk(t, w)
  {
  }

  lemma WatchStands(s: State, t: State, w: Watch)
    requires WatchOk(s, w) && Onward(s, t)
    ensures WatchOk(t, w)
  {
    SnapshotStands(s, t, w);
    SpliceStands(s, t, w);
    PlaceStands(s, t, w);
  }

  // ---------------------------------------------------------------------------
  // Moves of the watch itself
  // ---------------------------------------------------------------------------

  lemma OpenedOk(s: State, from: nat)
    requires LogOk(s)
    ensures WatchOk(s, Opened(from))
  {
    var w := Opened(from);
    assert w.received == w.caught[..w.snap] + Stretch(s.log.entries, w.base, w.position);
  }

  /** Moves that leave the snapshot alone. */
  lemma SameSnapshot(s: State, w: Watch, v: Watch)
    requires SnapshotOk(s, w)
    requires v.from == w.from && v.phase == w.phase && v.mark == w.mark && v.must == w.must
    requires v.got == w.got && v.caught == w.caught && v.base == w.base
    ensures SnapshotOk(s, v)
  {
    if w.from == 0 {
      forall a | a in v.got
        ensures ReadOk(s, v.mark, a, v.got[a])
      {
        assert ReadOk(s, w.mark, a, w.got[a]);
      }
      forall a
        ensures CaughtFor(s, v, a)
      {
        assert CaughtFor(s, w, a);
      }
    }
  }

  /** The watermark, then the list of hosts: everything logged so far is in the store. */
  lemma MarkingKeeps(s: State, w: Watch)
    requires LogInvariant(s) && WatchOk(s, w) && w.place.Snapshotting? && (w.phase.Unmarked? || w.phase.Marked?)
    ensures WatchOk(s, Snap(s, w))
  {
    var v := Snap(s, w);
    forall j | 0 <= j < v.mark && j < |s.log.entries| && s.log.entries[j].body.Host?
      ensures s.log.entries[j].body.address in s.history.Keys
    {
      assert Backed(s.history, s.log.entries[j].body, s.versions[j]);
    }
    forall a
      ensures CaughtFor(s, v, a)
    {
      assert CaughtFor(s, w, a);
    }
    NothingTold(s, w, v);
  }

  lemma NothingTold(s: State, w: Watch, v: Watch)
    requires Spliced(s, w) && w.from == 0 && w.snap == 0
    requires v.from == 0 && v.snap == 0 && v.received == w.received && v.position == w.position
    ensures Spliced(s, v)
  {
    assert v.caught[..0] == [] == w.caught[..0];
    assert Stretch(s.log.entries, w.base, 0) == [] == Stretch(s.log.entries, v.base, 0);
  }

  lemma ListingKeepsSnapshot(s: State, w: Watch)
    requires SnapshotOk(s, w) && w.from == 0 && w.place.Snapshotting? && w.phase.Listing? && w.must <= w.got.Keys
    ensures SnapshotOk(s, Snap(s, w))
  {
    var v := Snap(s, w);
    assert v.caught[..|v.caught| - 1] == w.caught;
    forall a
      ensures CaughtFor(s, v, a)
    {
      assert CaughtFor(s, w, a);
    }
    forall a | a in v.got
      ensures ReadOk(s, v.mark, a, v.got[a])
    {
      assert ReadOk(s, w.mark, a, w.got[a]);
    }
  }

  lemma ListingKeeps(s: State, w: Watch)
    requires WatchOk(s, w) && w.place.Snapshotting? && w.phase.Listing? && w.must <= w.got.Keys
    ensures WatchOk(s, Snap(s, w))
  {
    ListingKeepsSnapshot(s, w);
    NothingTold(s, w, Snap(s, w));
  }

  lemma SnapshotGoes(s: State, w: Watch)
    requires LogInvariant(s) && WatchOk(s, w) && w.place.Snapshotting? && WatchCan(s, w, Go)
    ensures WatchOk(s, Snap(s, w))
  {
    match w.phase
    case Unmarked => MarkingKeeps(s, w);
    case Marked => MarkingKeeps(s, w);
    case Listing => ListingKeeps(s, w);
    case Caught =>
      SameSnapshot(s, w, Snap(s, w));
      NothingTold(s, w, Snap(s, w));
  }

  lemma ReadHostReads(s: State, w: Watch, a: Address)
    requires LogOk(s) && SnapshotOk(s, w) && WatchCan(s, w, ReadHost(a))
    ensures forall b :: b in WatchNext(s, w, ReadHost(a)).got ==> ReadOk(s, w.mark, b, WatchNext(s, w, ReadHost(a)).got[b])
  {
    var v := WatchNext(s, w, ReadHost(a));
    forall b | b in v.got
      ensures ReadOk(s, w.mark, b, v.got[b])
    {
      if b == a {
        forall j | 0 <= j < w.mark && j < |s.log.entries| && j < |s.versions| && About(s.log.entries[j], a)
          ensures s.versions[j] <= v.got[b]
        {
          assert Backed(s.history, s.log.entries[j].body, s.versions[j]);
        }
      } else {
        assert ReadOk(s, w.mark, b, w.got[b]);
      }
    }
  }

  lemma ReadHostKeepsSnapshot(s: State, w: Watch, a: Address)
    requires LogOk(s) && SnapshotOk(s, w) && w.from == 0 && WatchCan(s, w, ReadHost(a))
    ensures SnapshotOk(s, WatchNext(s, w, ReadHost(a)))
  {
    var v := WatchNext(s, w, ReadHost(a));
    assert v.caught[..|v.caught| - 1] == w.caught;
    ReadHostReads(s, w, a);
    forall b
      ensures CaughtFor(s, v, b)
    {
      assert CaughtFor(s, w, b);
    }
    forall e | e in v.caught
      ensures AsRead(s, v, e)
    {
      assert e in w.caught ==> AsRead(s, w, e);
    }
  }

  lemma ReadHostKeeps(s: State, w: Watch, a: Address)
    requires LogOk(s) && WatchOk(s, w) && WatchCan(s, w, ReadHost(a))
    ensures WatchOk(s, WatchNext(s, w, ReadHost(a)))
  {
    ReadHostKeepsSnapshot(s, w, a);
    NothingTold(s, w, WatchNext(s, w, ReadHost(a)));
  }

  lemma NothingBetween(entries: seq<Event>, base: nat)
    ensures Stretch(entries, base, base) == [] && (base > 0 ==> Stretch(entries, base, 0) == [])
  {
  }

  lemma ReplaySplices(s: State, w: Watch)
    requires SnapshotOk(s, w) && Spliced(s, w) && PlaceAgrees(w) && w.place.Replaying?
    ensures Spliced(s, Replay(w)) && PlaceAgrees(Replay(w))
  {
    NothingBetween(s.log.entries, w.base);
    if w.snap < |w.caught| {
      var e := w.caught[w.snap];
      assert e in w.caught;
      assert w.caught[..w.snap + 1] == w.caught[..w.snap] + [e];
      assert w.received == w.caught[..w.snap];
    }
  }

  lemma ReplayGoes(s: State, w: Watch)
    requires WatchOk(s, w) && w.place.Replaying?
    ensures WatchOk(s, Replay(w))
  {
    SameSnapshot(s, w, Replay(w));
    ReplaySplices(s, w);
    assert PlaceOk(s, Replay(w));
  }

  lemma SendSplices(s: State, w: Watch)
    requires LogOk(s) && Spliced(s, w) && PlaceOk(s, w) && w.place.Sending?
    requires w.from == 0 ==> w.snap > 0 && w.base <= |s.log.entries|
    ensures Spliced(s, Send(w)) && Send(w).position == w.position + 1
  {
    var e := w.place.batch[0];
    assert e == s.log.entries[w.position] && e.number == w.position + 1;
    assert Stretch(s.log.entries, w.base, w.position + 1) == Stretch(s.log.entries, w.base, w.position) + [e];
  }

  lemma SendKeepsPlace(s: State, w: Watch)
    requires PlaceAgrees(w) && PlaceOk(s, w) && w.place.Sending? && Send(w).position == w.position + 1
    ensures PlaceAgrees(Send(w)) && PlaceOk(s, Send(w))
  {
    var v, batch := Send(w), w.place.batch;
    if |batch| > 1 {
      assert batch[1..] == s.log.entries[v.position..v.position + |batch| - 1];
    }
  }

  lemma SendGoes(s: State, w: Watch)
    requires LogOk(s) && WatchOk(s, w) && w.place.Sending?
    ensures WatchOk(s, Send(w))
  {
    SameSnapshot(s, w, Send(w));
    SendSplices(s, w);
    SendKeepsPlace(s, w);
  }

  /** Moves that tell the client nothing. */
  lemma SameTold(s: State, w: Watch, v: Watch)
    requires Spliced(s, w)
    requires v.snap == w.snap && v.caught == w.caught && v.received == w.received && v.base == w.base
    requires v.position == w.position && v.from == w.from
    ensures Spliced(s, v)
  {
  }

  lemma LookAgrees(s: State, w: Watch)
    requires PlaceAgrees(w) && Asking(w.place)
    ensures PlaceAgrees(Look(s, w))
  {
  }

  /** Reading the entries: what there is past the cursor, or a cursor at their end. */
  lemma ReadsTheTail(s: State, w: Watch)
    requires Numbered(s.log.entries) && Spliced(s, w) && PlaceAgrees(w) && PlaceOk(s, w) && w.place.Registered?
    requires w.from == 0 ==> w.base <= |s.log.entries|
    requires w.from > 0 ==> w.base == w.from
    ensures PlaceOk(s, Look(s, w))
  {
  }

  lemma LookKeepsPlace(s: State, w: Watch)
    requires LogInvariant(s) && WatchOk(s, w) && Asking(w.place)
    ensures PlaceOk(s, Look(s, w))
  {
    if w.place.Registered? {
      ReadsTheTail(s, w);
    }
  }

  lemma LooksOn(s: State, w: Watch)
    requires SnapshotOk(s, w) && Spliced(s, w) && Asking(w.place)
    ensures SnapshotOk(s, Look(s, w)) && Spliced(s, Look(s, w))
  {
    SameSnapshot(s, w, Look(s, w));
    SameTold(s, w, Look(s, w));
  }

  lemma AskGoes(s: State, w: Watch)
    requires LogInvariant(s) && WatchOk(s, w) && Asking(w.place)
    ensures WatchOk(s, Look(s, w))
  {
    LookAgrees(s, w);
    LookKeepsPlace(s, w);
    LooksOn(s, w);
  }

  lemma GoKeeps(s: State, w: Watch)
    requires LogInvariant(s) && WatchOk(s, w) && WatchCan(s, w, Go)
    ensures WatchOk(s, GoOn(s, w))
  {
    if w.place.Snapshotting? {
      SnapshotGoes(s, w);
    } else if w.place.Replaying? {
      ReplayGoes(s, w);
    } else if w.place.Sending? {
      SendGoes(s, w);
    } else {
      AskGoes(s, w);
    }
  }

  /** A connection lost, and the client back with the number it reached. */
  lemma ConnectionKeeps(s: State, w: Watch, m: WatchMove)
    requires WatchOk(s, w) && WatchCan(s, w, m) && (m.Drop? || m.Reconnect?)
    ensures WatchOk(s, WatchNext(s, w, m))
  {
    SameSnapshot(s, w, WatchNext(s, w, m));
    SameTold(s, w, WatchNext(s, w, m));
  }

  lemma WatchKeeps(s: State, w: Watch, m: WatchMove)
    requires LogInvariant(s) && WatchOk(s, w) && WatchCan(s, w, m)
    ensures WatchOk(s, WatchNext(s, w, m))
  {
    match m
    case Go => GoKeeps(s, w);
    case ReadHost(a) => ReadHostKeeps(s, w, a);
    case Drop => ConnectionKeeps(s, w, m);
    case Reconnect => ConnectionKeeps(s, w, m);
  }
}
