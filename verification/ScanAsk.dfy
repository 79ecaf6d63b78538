/** When a watch is safe to begin (src/scans.rs:233-248, 705-721; src/stdio.rs:366-395): from
    which states of a scan no run can end it with anything of the log still unread. */
module ScanAsk {
  import opened Digest
  import opened Wrappers
  import opened EventLog
  import opened ScanProtocol
  import opened ScanFollower
  import opened ScanWatch
  import opened ScanRuns
  import opened ScanProgress
  import W = ScanWitness

  // ---------------------------------------------------------------------------
  // After the last entry nothing can be missed
  // ---------------------------------------------------------------------------

  lemma UnfinishedHasNoLast(entries: seq<Event>)
    requires Unfinished(entries)
    ensures !FinishedLast(entries)
  {
    assert entries != [] ==> !entries[|entries| - 1].body.Finished?;
  }

  lemma FinishedIsLate(s: State)
    requires LifecycleOk(s)
    ensures FinishedLast(s.log.entries) <==> Rank(s.follower) >= 5
  {
    if Rank(s.follower) <= 4 {
      UnfinishedHasNoLast(s.log.entries);
    }
  }

  lemma LateFollowerIsQuiet(s: State, stopped: Cause)
    requires FollowerCan(s) && Rank(s.follower) >= 5
    ensures FollowerNext(s, stopped).log.entries == s.log.entries
  {
  }

  lemma FrozenStep(s: State, m: Move)
    requires Invariant(s) && Can(s, m) && FinishedLast(s.log.entries)
    ensures Next(s, m).log.entries == s.log.entries
  {
    FinishedIsLate(s);
    if m.ByFollower? {
      LateFollowerIsQuiet(s, m.stopped);
    }
  }

  /** Every answer of a watch that found nothing was read from so many entries. */
  predicate AskedOf(w: Watch, n: nat) {
    w.place.Empty? || w.place.Waiting? || w.place.Ending? || w.place.Ended? ==> w.readAt == n
  }

  lemma WatchAsksOf(s: State, w: Watch, m: WatchMove)
    requires WatchCan(s, w, m) && AskedOf(w, |s.log.entries|)
    ensures AskedOf(WatchNext(s, w, m), |s.log.entries|)
  {
  }

  lemma StepAsksOf(s: State, m: Move, id: nat)
    requires Invariant(s) && Can(s, m) && FinishedLast(s.log.entries)
    requires id in s.watches && AskedOf(s.watches[id], |s.log.entries|)
    ensures Next(s, m).log.entries == s.log.entries
    ensures id in Next(s, m).watches && AskedOf(Next(s, m).watches[id], |s.log.entries|)
  {
    FrozenStep(s, m);
    if m.ByWatch? && m.id == id {
      WatchAsksOf(s, s.watches[id], m.watch);
    }
  }

  lemma {:induction false} RunAsksOf(s: State, moves: seq<Move>, t: State, id: nat)
    requires Invariant(s) && Leads(s, moves, t) && FinishedLast(s.log.entries)
    requires id in s.watches && AskedOf(s.watches[id], |s.log.entries|)
    ensures Invariant(t) && t.log.entries == s.log.entries
    ensures id in t.watches && AskedOf(t.watches[id], |t.log.entries|)
    decreases |moves|
  {
    if moves != [] {
      Keeps(s, moves[0]);
      StepAsksOf(s, moves[0], id);
      RunAsksOf(Next(s, moves[0]), moves[1..], t, id);
    }
  }

  lemma SafeOnceFinished(s: State, t: State, id: nat)
    requires Invariant(s) && FinishedLast(s.log.entries) && W.Reaches(s, t)
    requires id in s.watches && AskedOf(s.watches[id], |s.log.entries|)
    requires id in t.watches && t.watches[id].place.Ended?
    ensures Missed(t, t.watches[id]) == []
  {
    var moves :| Leads(s, moves, t);
    RunAsksOf(s, moves, t, id);
    EndedAt(t, t.watches[id]);
  }

  // ---------------------------------------------------------------------------
  // Before it, a run that misses it
  // ---------------------------------------------------------------------------

  /** The engine done, and nobody else moved. */
  lemma EngineStops(o: State, s: State) returns (t: State)
    requires W.Reaches(o, s)
    ensures W.Reaches(o, t) && EngineDone(t) && t.watches == s.watches
    ensures t.follower == s.follower && t.log == s.log
  {
    t := s;
    if t.sending {
      W.Moves(o, t, ByEngine(HangUp));
      t := Next(t, ByEngine(HangUp));
    }
    if t.outcome.None? {
      W.Moves(o, t, ByEngine(Finish(true)));
      t := Next(t, ByEngine(Finish(true)));
    }
  }

  lemma SettlingRank(s: State, stopped: Cause)
    requires Settling(s.follower) && FollowerCan(s)
    ensures Rank(Settle(s, stopped).follower) <= 4
  {
  }

  lemma HandlingRank(s: State, stopped: Cause)
    requires FollowerCan(s) && Rank(s.follower) == 0
    ensures Rank(FollowerNext(s, stopped).follower) <= 1
  {
  }

  lemma OneRankOn(s: State, stopped: Cause)
    requires FollowerCan(s) && Rank(s.follower) < 4
    ensures Rank(FollowerNext(s, stopped).follower) <= 4
  {
    if Settling(s.follower) {
      SettlingRank(s, stopped);
    } else {
      HandlingRank(s, stopped);
    }
  }

  lemma DoneFollowerCan(s: State)
    requires LogInvariant(s) && EngineDone(s) && !s.follower.Gone?
    ensures FollowerCan(s)
  {
  }

  /** The follower as far as its last entry, which it has not written yet. */
  lemma {:induction false} FollowerComesTo(o: State, s: State) returns (t: State)
    requires W.Reaches(o, s) && Invariant(s) && EngineDone(s) && Rank(s.follower) <= 4
    ensures W.Reaches(o, t) && Invariant(t) && t.follower.PushingFinished? && t.watches == s.watches
    decreases FollowerLeft(s)
  {
    if Rank(s.follower) == 4 {
      return s;
    }
    DoneFollowerCan(s);
    OneRankOn(s, Completed);
    FollowerAdvances(s, Completed);
    W.Moves(o, s, ByFollower(Completed));
    Keeps(s, ByFollower(Completed));
    t := FollowerComesTo(o, Next(s, ByFollower(Completed)));
  }

  /** A watch on its way to its first look at an empty tail. */
  predicate OnItsWay(w: Watch) {
    w.place.Snapshotting? || w.place.Replaying? || w.place.Top? || w.place.Registered? || w.place.Sending?
  }

  lemma WayOn(s: State, w: Watch) returns (m: WatchMove)
    requires WatchOk(s, w) && OnItsWay(w) && LogOk(s)
    ensures (m.Go? || m.ReadHost?) && WatchCan(s, w, m)
    ensures OnItsWay(WatchNext(s, w, m)) || WatchNext(s, w, m).place.Empty?
  {
    if w.place.Snapshotting? && w.phase.Listing? && !(w.must <= w.got.Keys) {
      var a :| a in w.must && a !in w.got.Keys;
      m := ReadHost(a);
    } else {
      m := Go;
    }
  }

  lemma WayOnIsCloser(s: State, w: Watch) returns (m: WatchMove)
    requires LogInvariant(s) && WatchOk(s, w) && OnItsWay(w)
    ensures WatchCan(s, w, m) && WatchNext(s, w, m).from == w.from
    ensures OnItsWay(WatchNext(s, w, m)) || WatchNext(s, w, m).place.Empty?
    ensures WatchLeft(s, WatchNext(s, w, m)) < WatchLeft(s, w)
  {
    m := WayOn(s, w);
    WatchAdvances(s, w, m);
  }

  lemma WatchTakesOne(o: State, s: State, id: nat) returns (u: State)
    requires W.Reaches(o, s) && Invariant(s) && id in s.watches && OnItsWay(s.watches[id])
    ensures W.Reaches(o, u) && Invariant(u) && u.follower == s.follower && u.log == s.log
    ensures id in u.watches && u.watches[id].from == s.watches[id].from
    ensures OnItsWay(u.watches[id]) || u.watches[id].place.Empty?
    ensures WatchLeft(u, u.watches[id]) < WatchLeft(s, s.watches[id])
  {
    assert WatchOk(s, s.watches[id]);
    var m := WayOnIsCloser(s, s.watches[id]);
    var v := WatchNext(s, s.watches[id], m);
    u := s.(watches := s.watches[id := v]);
    W.WatchMoves(o, s, id, m);
    Keeps(s, ByWatch(id, m));
    SameAmountLeft(s, u, v);
  }

  /** The watch as far as having found nothing more, the flag not looked at yet. */
  lemma {:induction false} WatchComesTo(o: State, s: State, id: nat) returns (t: State)
    requires W.Reaches(o, s) && Invariant(s) && id in s.watches
    requires OnItsWay(s.watches[id]) || s.watches[id].place.Empty?
    ensures W.Reaches(o, t) && Invariant(t) && t.follower == s.follower && t.log == s.log
    ensures id in t.watches && t.watches[id].place.Empty? && t.watches[id].from == s.watches[id].from
    decreases WatchLeft(s, s.watches[id])
  {
    if s.watches[id].place.Empty? {
      t := s;
    } else {
      var u := WatchTakesOne(o, s, id);
      t := WatchComesTo(o, u, id);
    }
  }

  /** The last entry written and the log closed. */
  lemma FollowerShuts(o: State, s: State) returns (t: State)
    requires W.Reaches(o, s) && s.follower.PushingFinished?
    ensures W.Reaches(o, t) && t.watches == s.watches && t.log.closed && |t.log.entries| == |s.log.entries| + 1
  {
    W.Moves(o, s, ByFollower(Completed));
    var s1 := Next(s, ByFollower(Completed));
    assert s1.follower.WakingFinished? && |s1.log.entries| == |s.log.entries| + 1;
    W.Moves(o, s1, ByFollower(Completed));
    var s2 := Next(s1, ByFollower(Completed));
    assert s2.follower.Closing? && s2.log.entries == s1.log.entries;
    W.Moves(o, s2, ByFollower(Completed));
    t := Next(s2, ByFollower(Completed));
  }

  /** And the watch told that there is no more. */
  lemma EndsInBetween(o: State, s: State, id: nat) returns (t: State)
    requires W.Reaches(o, s) && s.follower.PushingFinished? && id in s.watches && s.watches[id].place.Empty?
    ensures W.Reaches(o, t) && id in t.watches && t.watches[id] == s.watches[id].(place := Ended)
    ensures |t.log.entries| == |s.log.entries| + 1
  {
    var u := FollowerShuts(o, s);
    t := TurnsAway(o, u, id);
  }

  lemma TurnsAway(o: State, s: State, id: nat) returns (t: State)
    requires W.Reaches(o, s) && s.log.closed && id in s.watches && s.watches[id].place.Empty?
    ensures W.Reaches(o, t) && id in t.watches && t.watches[id] == s.watches[id].(place := Ended) && t.log == s.log
  {
    W.Moves(o, s, ByWatch(id, Go));
    var u := Next(s, ByWatch(id, Go));
    assert u.watches[id] == s.watches[id].(place := Ending);
    W.Moves(o, u, ByWatch(id, Go));
    t := Next(u, ByWatch(id, Go));
  }

  /** A watch has got no further than the log, unless it began there. */
  lemma NoFurtherThanTheLog(s: State, w: Watch)
    requires WatchOk(s, w) && (w.from == 0 || w.from <= |s.log.entries|)
    ensures w.position <= |s.log.entries|
  {
  }

  /** From where the follower is about to write its last entry. */
  lemma MissesTheLast(o: State, s: State, id: nat) returns (t: State)
    requires W.Reaches(o, s) && Invariant(s) && s.follower.PushingFinished? && id in s.watches
    requires OnItsWay(s.watches[id]) && (s.watches[id].from == 0 || s.watches[id].from <= |s.log.entries|)
    ensures W.Reaches(o, t) && id in t.watches && t.watches[id].place.Ended? && Missed(t, t.watches[id]) != []
  {
    var u := WatchComesTo(o, s, id);
    assert WatchOk(u, u.watches[id]);
    NoFurtherThanTheLog(u, u.watches[id]);
    t := EndsInBetween(o, u, id);
    assert t.watches[id].position < |t.log.entries|;
  }

  /** From any state in which the last entry is still to come, a run that ends a watch begun
      there without it. */
  lemma AskedTooEarly(s: State, id: nat, from: nat) returns (t: State)
    requires Reachable(s) && id !in s.watches && from <= |s.log.entries| && !FinishedLast(s.log.entries)
    ensures W.Reaches(Next(s, Open(id, from)), t)
    ensures id in t.watches && t.watches[id].place.Ended? && Missed(t, t.watches[id]) != []
  {
    Everywhere(s);
    var o := Next(s, Open(id, from));
    Keeps(s, Open(id, from));
    FinishedIsLate(s);
    W.Stays(o);
    assert W.Reaches(o, o);
    var s1 := EngineStops(o, o);
    ReachedKeeps(o, s1);
    var s2 := FollowerComesTo(o, s1);
    ReachedKeeps(o, s2);
    t := MissesTheLast(o, s2, id);
  }

  lemma ReachedKeeps(o: State, t: State)
    requires Invariant(o) && W.Reaches(o, t)
    ensures Invariant(t) && o.log.entries <= t.log.entries
  {
    var moves :| Leads(o, moves, t);
    RunKeeps(o, moves, t);
    LogOnlyGrows(o, moves, t);
  }

  // ---------------------------------------------------------------------------
  // Exactly when
  // ---------------------------------------------------------------------------

  /** However a run goes on, the watch is told that there is no more with the cursor at the end. */
  ghost predicate SafeToAsk(s: State, id: nat, from: nat)
    requires id !in s.watches
  {
    forall t :: W.Reaches(Next(s, Open(id, from)), t) && id in t.watches && t.watches[id].place.Ended?
      ==> Missed(t, t.watches[id]) == []
  }

  /** "Empty only when the scan is over and the cursor has reached the end" holds of a watch in
      every run if and only if the scan had said its last when the watch began. */
  lemma SafeToAskExactly(s: State, id: nat, from: nat)
    requires Reachable(s) && id !in s.watches && from <= |s.log.entries|
    ensures SafeToAsk(s, id, from) <==> FinishedLast(s.log.entries)
  {
    if FinishedLast(s.log.entries) {
      Everywhere(s);
      var o := Next(s, Open(id, from));
      Keeps(s, Open(id, from));
      forall t | W.Reaches(o, t) && id in t.watches && t.watches[id].place.Ended?
        ensures Missed(t, t.watches[id]) == []
      {
        SafeOnceFinished(o, t, id);
      }
    } else {
      var t := AskedTooEarly(s, id, from);
    }
  }

  /** Which a client can ask first: a `get` that found the scan over was answered after that. */
  lemma AGetTells(s: State, ask: nat, id: nat, from: nat)
    requires Reachable(s) && id !in s.watches && from <= |s.log.entries|
    requires ask in s.queries && !s.queries[ask].running
    ensures SafeToAsk(s, id, from)
  {
    Everywhere(s);
    assert QueryOk(s, s.queries[ask]);
    FinishedIsLate(s);
    SafeToAskExactly(s, id, from);
  }
}
