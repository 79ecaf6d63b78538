/** Runs that show where the promises of the event log stop (src/scans.rs:233-248;
    src/stdio.rs:366-393). */
module ScanWitness {
  import opened Digest
  import opened Wrappers
  import opened EventLog
  import opened ScanProtocol
  import opened ScanFollower
  import opened ScanWatch
  import opened ScanRuns
  import opened ScanConverges

  // ---------------------------------------------------------------------------
  // Putting runs together
  // ---------------------------------------------------------------------------

  lemma {:induction false} LeadsOn(s: State, first: seq<Move>, t: State, second: seq<Move>, u: State)
    requires Leads(s, first, t) && Leads(t, second, u)
    ensures Leads(s, first + second, u)
    decreases |first|
  {
    if first == [] {
      assert first + second == second;
    } else {
      LeadsOn(Next(s, first[0]), first[1..], t, second, u);
      assert (first + second)[1..] == first[1..] + second;
    }
  }

  lemma Stays(s: State)
    ensures Leads(s, [], s)
  {
  }

  lemma One(s: State, m: Move)
    requires Can(s, m)
    ensures Leads(s, [m], Next(s, m))
  {
    assert [m][1..] == [];
  }

  /** One state is reached from another. */
  ghost predicate Reaches(s: State, t: State) {
    exists moves :: Leads(s, moves, t)
  }

  lemma Moves(s: State, t: State, m: Move)
    requires Reaches(s, t) && Can(t, m)
    ensures Reaches(s, Next(t, m))
  {
    var moves :| Leads(s, moves, t);
    One(t, m);
    LeadsOn(s, moves, t, [m], Next(t, m));
  }

  lemma ReachesOn(s: State, m: Move)
    requires Reachable(s) && Can(s, m)
    ensures Reachable(Next(s, m))
  {
    assert Reaches(Initial(), s);
    Moves(Initial(), s, m);
  }

  function Before(s: State, a: Address): seq<Document> {
    if a in s.history then s.history[a] else []
  }

  function Stored(s: State, a: Address, documents: seq<Document>): State {
    if documents == [] then s
    else s.(history := s.history[a := Before(s, a) + documents], owed := s.owed + {a})
  }

  lemma StoreOne(o: State, s: State, a: Address, document: Document)
    requires Reaches(o, s) && s.sending
    ensures Reaches(o, Stored(s, a, [document]))
  {
    Moves(o, s, ByEngine(Update(a, document)));
    assert Stored(s, a, [document]) == Next(s, ByEngine(Update(a, document)));
  }

  lemma StoredTwice(s: State, a: Address, first: seq<Document>, second: seq<Document>)
    requires second != []
    ensures Stored(Stored(s, a, first), a, second) == Stored(s, a, first + second)
  {
    if first == [] {
      assert first + second == second;
    } else {
      assert (Before(s, a) + first) + second == Before(s, a) + (first + second);
    }
  }

  /** The engine updates a host any number of times before it says so. */
  lemma {:induction false} StoreMany(o: State, s: State, a: Address, documents: seq<Document>)
    requires Reaches(o, s) && s.sending
    ensures Reaches(o, Stored(s, a, documents))
    decreases |documents|
  {
    if documents != [] {
      var init, last := documents[..|documents| - 1], documents[|documents| - 1];
      StoreMany(o, s, a, init);
      StoreOne(o, Stored(s, a, init), a, last);
      StoredTwice(s, a, init, [last]);
      assert documents == init + [last];
    }
  }

  predicate Idle(s: State) { s.sending && s.queue == [] && s.follower.Receiving? }

  function Hearing(s: State, a: Address): State
    requires a in s.history && s.history[a] != []
  {
    s.(owed := s.owed - {a}, follower := InHand(a, LastVersion(s.history[a])))
  }

  /** A notice goes out, and the follower takes it and reads the host. */
  lemma Hears(o: State, s: State, a: Address)
    requires Reaches(o, s) && Idle(s) && a !in s.missing && a in s.history && s.history[a] != []
    ensures Reaches(o, Hearing(s, a))
  {
    assert s.missing - {a} == s.missing;
    var s1 := s.(queue := [HostUpdated(a)], owed := s.owed - {a});
    Moves(o, s, ByEngine(Announce(HostUpdated(a))));
    assert Next(s, ByEngine(Announce(HostUpdated(a)))) == s1;
    Moves(o, s1, ByFollower(Completed));
    var s2 := s1.(queue := [], follower := Got(a));
    assert Next(s1, ByFollower(Completed)) == s2;
    Moves(o, s2, ByFollower(Completed));
    assert Next(s2, ByFollower(Completed)) == Hearing(s, a);
  }

  /** The follower hears of a host and finds nothing new. */
  lemma HearsNothingNew(o: State, s: State, a: Address)
    requires Reaches(o, s) && Idle(s) && a !in s.missing && a in s.history && s.history[a] != []
    requires !HasChanged(s.log, a, s.history[a][LastVersion(s.history[a])])
    ensures Reaches(o, s.(owed := s.owed - {a}))
  {
    Hears(o, s, a);
    Moves(o, Hearing(s, a), ByFollower(Completed));
    var document := s.history[a][LastVersion(s.history[a])];
    assert s.log.seen[a := Fnv(document)] == s.log.seen;
    assert Next(Hearing(s, a), ByFollower(Completed)) == s.(owed := s.owed - {a});
  }

  function Written(s: State, a: Address): State
    requires a in s.history && s.history[a] != []
  {
    var v := LastVersion(s.history[a]);
    var document := s.history[a][v];
    s.(owed := s.owed - {a}, versions := s.versions + [v],
       log := Woken(Appended(Remembered(s.log, a, document), Host(a, document))))
  }

  /** The follower hears of a host and writes it down. */
  lemma HearsSomethingNew(o: State, s: State, a: Address)
    requires Reaches(o, s) && Idle(s) && a !in s.missing && a in s.history && s.history[a] != []
    requires HasChanged(s.log, a, s.history[a][LastVersion(s.history[a])])
    ensures Reaches(o, Written(s, a))
  {
    var v := LastVersion(s.history[a]);
    var document := s.history[a][v];
    Hears(o, s, a);
    var s3 := Hearing(s, a);
    Moves(o, s3, ByFollower(Completed));
    var s4 := s3.(log := Remembered(s.log, a, document), follower := Pushing([Host(a, document)], v));
    assert Next(s3, ByFollower(Completed)) == s4;
    Pushes(o, s4);
    assert s.log.entries + [Event(|s.log.entries| + 1, Host(a, document))] == Written(s, a).log.entries;
  }

  /** One entry appended, and the readers woken. */
  lemma Pushes(o: State, s: State)
    requires Reaches(o, s) && s.follower.Pushing? && |s.follower.bodies| == 1
    ensures Reaches(o, s.(log := Woken(Appended(s.log, s.follower.bodies[0])),
                          versions := s.versions + [s.follower.version], follower := Receiving))
  {
    Moves(o, s, ByFollower(Completed));
    var t := s.(log := Appended(s.log, s.follower.bodies[0]), versions := s.versions + [s.follower.version],
                follower := Waking([]));
    assert s.follower.bodies[1..] == [];
    assert Next(s, ByFollower(Completed)) == t;
    Moves(o, t, ByFollower(Completed));
  }

  /** The engine finishes and the follower goes as far as its last entry. */
  lemma EngineFinishes(o: State, s: State)
    requires Reaches(o, s) && Idle(s) && s.owed == {} && s.outcome.None?
    ensures Reaches(o, s.(sending := false, outcome := Some(true), reported := true, follower := PushingFinished(Completed)))
  {
    var s1 := s.(sending := false);
    assert s.missing + {} == s.missing;
    Moves(o, s, ByEngine(HangUp));
    assert Next(s, ByEngine(HangUp)) == s1;
    var s2 := s1.(outcome := Some(true));
    Moves(o, s1, ByEngine(Finish(true)));
    assert Next(s1, ByEngine(Finish(true))) == s2;
    FollowerSettles(o, s2);
  }

  /** The follower at the end of its channel, the report kept, the cause worked out. */
  lemma FollowerSettles(o: State, s: State)
    requires Reaches(o, s) && s.follower.Receiving? && s.queue == [] && !s.sending && s.outcome == Some(true)
    ensures Reaches(o, s.(reported := true, follower := PushingFinished(Completed)))
  {
    Moves(o, s, ByFollower(Completed));
    var s1 := s.(follower := Drained);
    assert Next(s, ByFollower(Completed)) == s1;
    Moves(o, s1, ByFollower(Completed));
    var s2 := s.(follower := Joined(true));
    assert Next(s1, ByFollower(Completed)) == s2;
    Moves(o, s2, ByFollower(Completed));
    var s3 := s.(reported := true, follower := Concluding(true));
    assert Next(s2, ByFollower(Completed)) == s3;
    Moves(o, s3, ByFollower(Completed));
  }

  function Over(s: State): State {
    s.(log := Woken(Shut(Woken(Appended(s.log, Finished(Completed))))), versions := s.versions + [0],
       slot := false, follower := Gone)
  }

  /** The follower says so, closes the log and goes. */
  lemma FollowerFinishes(o: State, s: State)
    requires Reaches(o, s) && s.follower == PushingFinished(Completed)
    ensures Reaches(o, Over(s))
  {
    Moves(o, s, ByFollower(Completed));
    var s1 := s.(log := Appended(s.log, Finished(Completed)), versions := s.versions + [0], follower := WakingFinished);
    assert Next(s, ByFollower(Completed)) == s1;
    Closes(o, s1);
  }

  lemma Closes(o: State, s1: State)
    requires Reaches(o, s1) && s1.follower == WakingFinished
    ensures Reaches(o, s1.(log := Woken(Shut(Woken(s1.log))), slot := false, follower := Gone))
  {
    Moves(o, s1, ByFollower(Completed));
    var s2 := s1.(log := Woken(s1.log), follower := Closing);
    assert Next(s1, ByFollower(Completed)) == s2;
    Shuts(o, s2);
  }

  lemma Shuts(o: State, s2: State)
    requires Reaches(o, s2) && s2.follower == Closing
    ensures Reaches(o, s2.(log := Woken(Shut(s2.log)), slot := false, follower := Gone))
  {
    Moves(o, s2, ByFollower(Completed));
    var s3 := s2.(log := Shut(s2.log), follower := WakingClosed);
    assert Next(s2, ByFollower(Completed)) == s3;
    GivesBack(o, s3);
  }

  lemma GivesBack(o: State, s3: State)
    requires Reaches(o, s3) && s3.follower == WakingClosed
    ensures Reaches(o, s3.(log := Woken(s3.log), slot := false, follower := Gone))
  {
    Moves(o, s3, ByFollower(Completed));
    var s4 := s3.(log := Woken(s3.log), follower := Releasing);
    assert Next(s3, ByFollower(Completed)) == s4;
    Moves(o, s4, ByFollower(Completed));
  }

  /** One watch moves on. */
  lemma WatchMoves(o: State, s: State, id: nat, m: WatchMove)
    requires Reaches(o, s) && id in s.watches && WatchCan(s, s.watches[id], m)
    ensures Reaches(o, s.(watches := s.watches[id := WatchNext(s, s.watches[id], m)]))
  {
    Moves(o, s, ByWatch(id, m));
    assert Next(s, ByWatch(id, m)) == s.(watches := s.watches[id := WatchNext(s, s.watches[id], m)]);
  }

  /** A state with one watch, which then goes on. */
  function With(s: State, w: Watch): State { s.(watches := map[0 := w]) }

  lemma Goes(o: State, s: State, w: Watch, m: WatchMove)
    requires Reaches(o, With(s, w)) && WatchCan(s, w, m)
    ensures Reaches(o, With(s, WatchNext(s, w, m)))
  {
    var u := With(s, w);
    assert WatchCan(u, w, m) && WatchNext(u, w, m) == WatchNext(s, w, m);
    WatchMoves(o, u, 0, m);
    assert u.watches[0 := WatchNext(s, w, m)] == map[0 := WatchNext(s, w, m)];
  }

  /** The scan over. */
  function Complete(s: State): State {
    Over(s.(sending := false, outcome := Some(true), reported := true, follower := PushingFinished(Completed)))
  }

  lemma ScanEnds(o: State, s: State, w: Watch)
    requires Reaches(o, With(s, w)) && Idle(s) && s.owed == {} && s.outcome.None?
    ensures Reaches(o, With(Complete(s), w))
  {
    EngineFinishes(o, With(s, w));
    var t := s.(sending := false, outcome := Some(true), reported := true, follower := PushingFinished(Completed));
    FollowerFinishes(o, With(t, w));
    assert Over(With(t, w)) == With(Complete(s), w);
  }

  /** A watch at the top of its loop with one entry left, over a log that is closed. */
  lemma ReadsTheLastEntry(o: State, s: State, w: Watch)
    requires Reaches(o, With(s, w)) && s.log.closed && Numbered(s.log.entries)
    requires w.place.Top? && w.cursor == w.position && w.position + 1 == |s.log.entries|
    ensures Reaches(o, With(s, w.(place := Ended, cursor := |s.log.entries|, position := |s.log.entries|,
      received := w.received + [s.log.entries[w.position]], readAt := |s.log.entries|, closedAtRead := true)))
  {
    var n, last := |s.log.entries|, s.log.entries[w.position];
    Goes(o, s, w, Go);
    var w1 := w.(place := Registered(s.log.wakes));
    Goes(o, s, w1, Go);
    assert Tail(s.log.entries, w.cursor) == [last];
    var w2 := w1.(place := Sending([last]), readAt := n, closedAtRead := true);
    assert WatchNext(s, w1, Go) == w2;
    Goes(o, s, w2, Go);
    var w3 := w2.(received := w.received + [last], position := n, cursor := n, place := Top);
    assert WatchNext(s, w2, Go) == w3;
    Goes(o, s, w3, Go);
    var w4 := w3.(place := Registered(s.log.wakes));
    Goes(o, s, w4, Go);
    var w5 := w3.(place := Empty(s.log.wakes));
    assert WatchNext(s, w4, Go) == w5;
    Goes(o, s, w5, Go);
    var w6 := w3.(place := Ending);
    assert WatchNext(s, w5, Go) == w6;
    Goes(o, s, w6, Go);
  }

  // ---------------------------------------------------------------------------
  // A document that came back
  // ---------------------------------------------------------------------------

  /** Everything over, nothing lost, one host with the given history, and a client that got
      the whole of its snapshot and the log to its end and was told there is no more. */
  ghost predicate Finale(t: State, id: nat, a: Address, documents: seq<Document>) {
    && Reachable(t) && t.missing == {} && Quiet(t) && t.log.closed && t.history == map[a := documents]
    && id in t.watches && t.watches[id].place.Ended? && CaughtUp(t, t.watches[id])
  }

  /** The watch, from the watermark on. */
  function Midway(mark: nat, a: Address): Watch {
    Opened(0).(mark := mark, base := mark, must := {a}, phase := Listing)
  }

  function Shown(mark: nat, a: Address, v: nat, document: Document): Watch {
    Midway(mark, a).(got := map[a := v], caught := [Event(mark, Host(a, document)), Event(mark, Progress(0, 0))],
      phase := Caught, snap := 2, cursor := mark, position := mark,
      received := [Event(mark, Host(a, document)), Event(mark, Progress(0, 0))], place := Top)
  }

  /** A client opens, takes the watermark and lists the hosts. */
  lemma OpensAndMarks(o: State, s: State, a: Address)
    requires Reaches(o, s) && s.watches == map[] && s.history.Keys == {a}
    ensures Reaches(o, With(s, Midway(|s.log.entries|, a)))
  {
    Moves(o, s, Open(0, 0));
    assert Next(s, Open(0, 0)) == With(s, Opened(0));
    Goes(o, s, Opened(0), Go);
    var w1 := Opened(0).(mark := |s.log.entries|, base := |s.log.entries|, phase := Marked);
    assert WatchNext(s, Opened(0), Go) == w1;
    Goes(o, s, w1, Go);
    assert WatchNext(s, w1, Go) == Midway(|s.log.entries|, a);
  }

  /** It reads its one host, and the snapshot reaches the client. */
  lemma ReadsAndShows(o: State, s: State, mark: nat, a: Address)
    requires Reaches(o, With(s, Midway(mark, a))) && a in s.history && s.history[a] != []
    ensures Reaches(o, With(s, Shown(mark, a, LastVersion(s.history[a]), s.history[a][LastVersion(s.history[a])])))
  {
    var v := LastVersion(s.history[a]);
    var host, progress := Event(mark, Host(a, s.history[a][v])), Event(mark, Progress(0, 0));
    var w := Midway(mark, a);
    Goes(o, s, w, ReadHost(a));
    var w1 := w.(got := map[a := v], caught := [host]);
    assert WatchNext(s, w, ReadHost(a)) == w1;
    Goes(o, s, w1, Go);
    var w2 := w1.(caught := [host, progress], phase := Caught);
    assert WatchNext(s, w1, Go) == w2;
    Goes(o, s, w2, Go);
    var w3 := w2.(cursor := mark, place := Replaying);
    assert WatchNext(s, w2, Go) == w3;
    Goes(o, s, w3, Go);
    var w4 := w3.(received := [host], position := mark, snap := 1);
    assert WatchNext(s, w3, Go) == w4;
    Goes(o, s, w4, Go);
    var w5 := w4.(received := [host, progress], snap := 2);
    assert WatchNext(s, w4, Go) == w5;
    Goes(o, s, w5, Go);
    assert WatchNext(s, w5, Go) == Shown(mark, a, v, s.history[a][v]);
  }

  /** The state once a host has been updated to `documents[..n]`, the first entry of the log
      saying `documents[first]`. */
  function Along(a: Address, documents: seq<Document>, first: nat, n: nat, owed: set<Address>): State
    requires first < |documents| && n <= |documents|
  {
    Initial().(history := map[a := documents[..n]], owed := owed, versions := [first],
      log := LogState([Event(1, Host(a, documents[first]))], map[a := Fnv(documents[first])], 1, false))
  }

  lemma FirstEntry(a: Address, documents: seq<Document>, i: nat)
    requires i < |documents|
    ensures Reaches(Initial(), Along(a, documents, i, i + 1, {}))
  {
    var o := Initial();
    Stays(o);
    var now := documents[..i + 1];
    StoreMany(o, o, a, now);
    var s1 := o.(history := map[a := now], owed := {a});
    assert Before(o, a) + now == now;
    assert Stored(o, a, now) == s1;
    HearsSomethingNew(o, s1, a);
    assert Written(s1, a) == Along(a, documents, i, i + 1, {});
  }

  lemma MoreUpdates(o: State, w: Option<Watch>, a: Address, documents: seq<Document>, first: nat, n: nat, m: nat, owed: set<Address>)
    requires first < |documents| && 0 < n <= m <= |documents|
    requires Reaches(o, Watched(Along(a, documents, first, n, owed), w))
    ensures Reaches(o, Watched(Along(a, documents, first, m, if n == m then owed else owed + {a}), w))
  {
    var s := Watched(Along(a, documents, first, n, owed), w);
    var more := documents[n..m];
    StoreMany(o, s, a, more);
    assert documents[..n] + more == documents[..m];
    if n == m {
      assert more == [];
    } else {
      assert Stored(s, a, more) == Watched(Along(a, documents, first, m, owed + {a}), w);
    }
  }

  function Watched(s: State, w: Option<Watch>): State { if w.None? then s else With(s, w.value) }

  /** The log says `documents[i]`, the client marks, and the host moves on to `documents[k]`. */
  lemma MarksThenMoves(a: Address, documents: seq<Document>, i: nat, k: nat)
    requires i <= k < |documents|
    ensures Reaches(Initial(), With(Along(a, documents, i, k + 1, Owing(i, k, a)), Midway(1, a)))
  {
    FirstEntry(a, documents, i);
    OpensAndMarks(Initial(), Along(a, documents, i, i + 1, {}), a);
    MoreUpdates(Initial(), Some(Midway(1, a)), a, documents, i, i + 1, k + 1, {});
    assert {} + {a} == {a};
  }

  function Owing(i: nat, k: nat, a: Address): set<Address> { if i == k then {} else {a} }

  lemma GoesStale(a: Address, documents: seq<Document>, i: nat, k: nat)
    requires i <= k < |documents|
    ensures Fnv(documents[i]) == Fnv(documents[|documents| - 1]) ==>
      Reaches(Initial(), Wound(a, documents, i, Shown(1, a, k, documents[k])))
  {
    if Fnv(documents[i]) == Fnv(documents[|documents| - 1]) {
      var n, owed := |documents|, Owing(i, k, a);
      MarksThenMoves(a, documents, i, k);
      var s := Along(a, documents, i, k + 1, owed);
      assert LastVersion(s.history[a]) == k && s.history[a][k] == documents[k];
      ReadsAndShows(Initial(), s, 1, a);
      var w := Shown(1, a, k, documents[k]);
      MoreUpdates(Initial(), Some(w), a, documents, i, k + 1, n, owed);
      WindsDown(a, documents, i, if k + 1 == n then owed else owed + {a}, w);
    }
  }

  /** A host whose history does not settle has a run that leaves a client with something it no
      longer is: the log says `documents[i]`, the snapshot is read at `documents[k]`, and the
      final document is dropped for having the digest last logged. */
  lemma SnapshotGoesStale(a: Address, documents: seq<Document>, i: nat, k: nat) returns (t: State)
    requires i <= k < |documents|
    ensures Fnv(documents[i]) == Fnv(documents[|documents| - 1]) ==>
      Finale(t, 0, a, documents) && LastDocument(t.watches[0].received, a) == Some(documents[k])
  {
    var w := Shown(1, a, k, documents[k]);
    GoesStale(a, documents, i, k);
    t := Wound(a, documents, i, w);
    assert documents[..|documents|] == documents;
    LastOfThree(w.received, t.log.entries[1], a, documents[k]);
  }

  /** Everything over, the watch told the last entry and that there is no more. */
  function Wound(a: Address, documents: seq<Document>, first: nat, w: Watch): State
    requires first < |documents|
  {
    var s := Complete(Along(a, documents, first, |documents|, {}));
    With(s, w.(place := Ended, cursor := 2, position := 2, received := w.received + [s.log.entries[1]],
               readAt := 2, closedAtRead := true))
  }

  lemma SettlesDown(a: Address, documents: seq<Document>, first: nat, owed: set<Address>, w: Watch)
    requires first < |documents| && Fnv(documents[first]) == Fnv(documents[|documents| - 1]) && owed <= {a}
    requires Reaches(Initial(), With(Along(a, documents, first, |documents|, owed), w))
    ensures Reaches(Initial(), With(Along(a, documents, first, |documents|, {}), w))
  {
    var s := With(Along(a, documents, first, |documents|, owed), w);
    assert documents[..|documents|] == documents;
    HearsNothingNew(Initial(), s, a);
    assert owed - {a} == {};
    assert s.(owed := s.owed - {a}) == With(Along(a, documents, first, |documents|, {}), w);
  }

  lemma WindsDown(a: Address, documents: seq<Document>, first: nat, owed: set<Address>, w: Watch)
    requires first < |documents| && Fnv(documents[first]) == Fnv(documents[|documents| - 1])
    requires owed <= {a} && w.place.Top? && w.cursor == w.position == 1
    requires Reaches(Initial(), With(Along(a, documents, first, |documents|, owed), w))
    ensures Reaches(Initial(), Wound(a, documents, first, w))
  {
    var s := Along(a, documents, first, |documents|, {});
    SettlesDown(a, documents, first, owed, w);
    ScanEnds(Initial(), s, w);
    ReadsTheLastEntry(Initial(), Complete(s), w);
  }

  lemma LastOfThree(shown: seq<Event>, last: Event, a: Address, document: Document)
    requires |shown| == 2 && shown[0].body == Host(a, document) && shown[1].body.Progress? && last.body.Finished?
    ensures LastDocument(shown + [last], a) == Some(document)
  {
    assert (shown + [last])[..2] == shown;
    assert shown[..1] == [shown[0]];
    assert LastDocument([shown[0]], a) == Some(document);
    assert LastDocument(shown, a) == Some(document);
  }

  /** Exactly the settling histories are safe: a host's documents settle if and only if no
      interleaving can leave a client, told that there is no more, with anything but the
      final one. */
  lemma SafeExactlyWhenSettled(a: Address, documents: seq<Document>)
    requires documents != []
    ensures Settles(documents)
       <==> forall t, id :: Finale(t, id, a, documents)
              ==> LastDocument(t.watches[id].received, a) == Some(documents[|documents| - 1])
  {
    if Settles(documents) {
      forall t, id | Finale(t, id, a, documents)
        ensures LastDocument(t.watches[id].received, a) == Some(documents[|documents| - 1])
      {
        Converges(t, id, a);
      }
    } else {
      var i, k :| 0 <= i <= k < |documents| && Fnv(documents[i]) == Fnv(documents[|documents| - 1])
                  && documents[k] != documents[|documents| - 1];
      var t := SnapshotGoesStale(a, documents, i, k);
      assert Finale(t, 0, a, documents);
    }
  }

  // ---------------------------------------------------------------------------
  // An end before the end
  // ---------------------------------------------------------------------------

  /** A reader that found nothing, and then finds the flag set. */
  lemma EndsUnread(o: State, s: State, w: Watch)
    requires Reaches(o, With(s, w)) && w.place.Empty? && s.log.closed
    ensures Reaches(o, With(s, w.(place := Ended)))
  {
    Goes(o, s, w, Go);
    var v := w.(place := Ending);
    assert WatchNext(s, w, Go) == v;
    Goes(o, s, v, Go);
  }

  /** "Empty only when the scan is over and the cursor has reached the end" does not hold
      when the follower's last push and close fall between the two reads: a client back at
      the end of the log is told there is no more without being told `finished`. */
  lemma EndCanComeEarly(a: Address, d: Document) returns (t: State)
    ensures Reachable(t) && 0 in t.watches && t.watches[0].place.Ended?
    ensures t.log.closed && Missed(t, t.watches[0]) == [Event(2, Finished(Completed))]
  {
    var o, s := Initial(), Along(a, [d], 0, 1, {});
    FirstEntry(a, [d], 0);
    Moves(o, s, Open(0, 1));
    assert Next(s, Open(0, 1)) == With(s, Opened(1));
    Goes(o, s, Opened(1), Go);
    var w1 := Opened(1).(place := Registered(1));
    assert WatchNext(s, Opened(1), Go) == w1;
    Goes(o, s, w1, Go);
    var w2 := Opened(1).(place := Empty(1), readAt := 1);
    assert WatchNext(s, w1, Go) == w2;
    EngineFinishes(o, With(s, w2));
    var s1 := s.(sending := false, outcome := Some(true), reported := true, follower := PushingFinished(Completed));
    FollowerFinishes(o, With(s1, w2));
    var s2 := Over(s1);
    assert Over(With(s1, w2)) == With(s2, w2);
    EndsUnread(o, s2, w2);
    t := With(s2, w2.(place := Ended));
    assert t.log.entries[1..] == [Event(2, Finished(Completed))];
  }

  // The same, with a host among what was not told.

  /** The client caught up with one host, listening, and having just read nothing. */
  function Listening(a: Address, d: Document, created: nat): Watch {
    Shown(1, a, 0, d).(place := Empty(created), readAt := 1)
  }

  lemma Listens(a: Address, d: Document)
    ensures Reaches(Initial(), With(Along(a, [d], 0, 1, {}), Listening(a, d, 1)))
  {
    var o, s := Initial(), Along(a, [d], 0, 1, {});
    FirstEntry(a, [d], 0);
    OpensAndMarks(o, s, a);
    assert LastVersion(s.history[a]) == 0 && s.history[a][0] == d;
    ReadsAndShows(o, s, 1, a);
    var w := Shown(1, a, 0, d);
    Goes(o, s, w, Go);
    var w1 := w.(place := Registered(1));
    assert WatchNext(s, w, Go) == w1;
    Goes(o, s, w1, Go);
    assert WatchNext(s, w1, Go) == Listening(a, d, 1);
  }

  /** What the follower had still to say: another host, and that it is over. */
  function AfterAnother(a: Address, d: Document, b: Address, e: Document): State
    requires a != b
  {
    var s := Stored(Along(a, [d], 0, 1, {}), b, [e]);
    Over(Written(s, b).(sending := false, outcome := Some(true), reported := true))
  }

  lemma FindsAnother(a: Address, d: Document, b: Address, e: Document, w: Watch)
    requires a != b && Reaches(Initial(), With(Along(a, [d], 0, 1, {}), w))
    ensures Reaches(Initial(), With(AfterAnother(a, d, b, e), w))
  {
    var o, s := Initial(), With(Along(a, [d], 0, 1, {}), w);
    StoreOne(o, s, b, e);
    var t := Stored(s, b, [e]);
    assert Before(s, b) + [e] == [e];
    HearsSomethingNew(o, t, b);
    var u := Written(t, b);
    assert u.owed == {};
    EngineFinishes(o, u);
    FollowerFinishes(o, u.(sending := false, outcome := Some(true), reported := true, follower := PushingFinished(Completed)));
    assert Over(u.(sending := false, outcome := Some(true), reported := true, follower := PushingFinished(Completed)))
        == With(AfterAnother(a, d, b, e), w);
  }

  /** What falls between the two reads can be a host. A client that watched from nothing, had
      its whole snapshot and kept its connection is told that there is no more, and never of a
      host the store holds: it is `finished` it has to wait for, not the end. */
  lemma HostCanBeMissed(a: Address, d: Document, b: Address, e: Document) returns (t: State)
    requires a != b
    ensures Reachable(t) && t.missing == {} && Quiet(t) && 0 in t.watches
    ensures t.watches[0].place.Ended? && t.watches[0].from == 0 && t.watches[0].snap == |t.watches[0].caught|
    ensures LastDocument(t.watches[0].received, b) == None && Current(t.history, b) == Some(e)
    ensures !HeardFinished(t.watches[0].received)
  {
    var w := Listening(a, d, 1);
    Listens(a, d);
    FindsAnother(a, d, b, e, w);
    var s := AfterAnother(a, d, b, e);
    EndsUnread(Initial(), s, w);
    t := With(s, w.(place := Ended));
    NotOfAnother(w.received, a, d, b);
  }

  lemma NotOfAnother(shown: seq<Event>, a: Address, d: Document, b: Address)
    requires |shown| == 2 && shown[0].body == Host(a, d) && shown[1].body.Progress? && a != b
    ensures LastDocument(shown, b) == None && !HeardFinished(shown)
  {
    var first := shown[..1];
    assert first == [shown[0]] && first[..0] == [];
    assert LastDocument(first, b) == LastDocument(first[..0], b);
  }
}
