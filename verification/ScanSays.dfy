/** What a scan says of itself (src/scans.rs:156-176, 658-721; src/stdio.rs:146-149): what a `get`
    is told, which notices come to stand in the log, and by what it says it ended. */
module ScanSays {
  import opened Digest
  import opened Wrappers
  import opened EventLog
  import opened ScanProtocol
  import opened ScanFollower
  import opened ScanWatch
  import opened ScanRuns

  // ---------------------------------------------------------------------------
  // What a `get` is told
  // ---------------------------------------------------------------------------

  /** A `get` asked of a log of so many entries, closed or not. */
  predicate AskedOf(s: State, id: nat, closed: bool, entries: nat) {
    && id in s.queries && (s.queries[id].running <==> !closed) && entries <= |s.log.entries|
    && (s.queries[id].Answered? ==> entries <= s.queries[id].number <= |s.log.entries|)
  }

  lemma MoveKeepsAsked(s: State, m: Move, id: nat, closed: bool, entries: nat)
    requires Invariant(s) && Can(s, m) && AskedOf(s, id, closed, entries)
    ensures AskedOf(Next(s, m), id, closed, entries)
  {
    StepOnward(s, m);
  }

  lemma {:induction false} RunKeepsAsked(s: State, moves: seq<Move>, t: State, id: nat, closed: bool, entries: nat)
    requires Invariant(s) && Leads(s, moves, t) && AskedOf(s, id, closed, entries)
    ensures Invariant(t) && AskedOf(t, id, closed, entries)
    decreases |moves|
  {
    if moves != [] {
      Keeps(s, moves[0]);
      MoveKeepsAsked(s, moves[0], id, closed, entries);
      RunKeepsAsked(Next(s, moves[0]), moves[1..], t, id, closed, entries);
    }
  }

  /** A `get` is told the scan is running exactly if its log was open when it was asked, and a
      number the log had between the asking and now; of a scan that is over, its last. */
  lemma AGetIsToldExactly(s: State, id: nat, moves: seq<Move>, t: State)
    requires Reachable(s) && id !in s.queries && Leads(Next(s, Ask(id)), moves, t)
    ensures id in t.queries && (t.queries[id].running <==> !s.log.closed)
    ensures t.queries[id].Answered? ==> |s.log.entries| <= t.queries[id].number <= |t.log.entries|
    ensures t.queries[id].Answered? && s.log.closed ==> t.queries[id].number == |t.log.entries|
  {
    Everywhere(s);
    Keeps(s, Ask(id));
    RunKeepsAsked(Next(s, Ask(id)), moves, t, id, s.log.closed, |s.log.entries|);
    LogOnlyGrows(Next(s, Ask(id)), moves, t);
  }

  // ---------------------------------------------------------------------------
  // No host is said twice
  // ---------------------------------------------------------------------------

  /** What is said of a host differs from what was last said of it. */
  predicate SaysNew(entries: seq<Event>, body: Body) {
    body.Host? ==>
      (match LastDocument(entries, body.address)
       case None => true
       case Some(before) => Fnv(before) != Fnv(body.document))
  }

  ghost predicate NothingTwice(entries: seq<Event>) {
    forall i :: 0 <= i < |entries| ==> SaysNew(entries[..i], entries[i].body)
  }

  /** The host about to be appended, if there is one. */
  predicate HandSaysNew(s: State) {
    s.follower.Pushing? && s.follower.bodies != [] ==> SaysNew(s.log.entries, s.follower.bodies[0])
  }

  lemma CompareSaysNew(s: State)
    requires s.follower.InHand? && FollowerCan(s) && SeenFor(s, s.follower.address)
    ensures HandSaysNew(Compare(s))
  {
  }

  predicate PlainHand(f: Follower) { f.Pushing? && f.bodies != [] ==> !f.bodies[0].Host? }

  predicate Quietly(s: State, t: State) { t.log.entries == s.log.entries && PlainHand(t.follower) }

  lemma ReceiveIsQuiet(s: State)
    requires s.follower.Receiving? && FollowerCan(s)
    ensures Quietly(s, Receive(s))
  {
  }

  lemma WakeIsQuiet(s: State)
    requires s.follower.Waking? && Plain(s.follower.rest)
    ensures Quietly(s, Wake(s))
  {
    if s.follower.rest != [] {
      assert s.follower.rest[0] in s.follower.rest;
    }
  }

  lemma FetchIsQuiet(s: State)
    requires s.follower.Got?
    ensures Quietly(s, Fetch(s))
  {
  }

  lemma SettleIsQuiet(s: State, stopped: Cause)
    requires Settling(s.follower) && FollowerCan(s)
    ensures Quietly(s, Settle(s, stopped))
  {
  }

  lemma ShutDownIsQuiet(s: State)
    requires Shutting(s.follower)
    ensures Quietly(s, ShutDown(s))
  {
  }

  lemma RestIsQuiet(s: State, stopped: Cause)
    requires FollowerCan(s) && (s.follower.Waking? ==> Plain(s.follower.rest))
    requires !s.follower.InHand? && !s.follower.Pushing? && !s.follower.PushingFinished?
    ensures Quietly(s, FollowerNext(s, stopped))
  {
    if Settling(s.follower) {
      SettleIsQuiet(s, stopped);
    } else if Shutting(s.follower) {
      ShutDownIsQuiet(s);
    } else if s.follower.Receiving? {
      ReceiveIsQuiet(s);
    } else if s.follower.Got? {
      FetchIsQuiet(s);
    } else {
      WakeIsQuiet(s);
    }
  }

  lemma OneMoreNew(entries: seq<Event>, e: Event)
    requires NothingTwice(entries) && SaysNew(entries, e.body)
    ensures NothingTwice(entries + [e])
  {
    forall i | 0 <= i < |entries + [e]|
      ensures SaysNew((entries + [e])[..i], (entries + [e])[i].body)
    {
      if i < |entries| {
        assert (entries + [e])[..i] == entries[..i];
      } else {
        assert (entries + [e])[..i] == entries;
      }
    }
  }

  lemma AppendSaysNew(s: State)
    requires s.follower.Pushing? && FollowerCan(s) && NothingTwice(s.log.entries) && HandSaysNew(s)
    ensures NothingTwice(Append(s).log.entries)
  {
    OneMoreNew(s.log.entries, Event(|s.log.entries| + 1, s.follower.bodies[0]));
  }

  lemma FinishSaysNew(s: State)
    requires s.follower.PushingFinished? && NothingTwice(s.log.entries)
    ensures NothingTwice(SayFinished(s).log.entries)
  {
    OneMoreNew(s.log.entries, Event(|s.log.entries| + 1, Finished(s.follower.cause)));
  }

  ghost predicate Fresh(s: State) { NothingTwice(s.log.entries) && HandSaysNew(s) }

  lemma QuietIsFresh(s: State, t: State)
    requires Fresh(s) && Quietly(s, t)
    ensures Fresh(t)
  {
  }

  lemma FollowerSaysNew(s: State, stopped: Cause)
    requires HandOk(s) && (s.follower.InHand? ==> SeenFor(s, s.follower.address))
    requires FollowerCan(s) && Fresh(s)
    ensures Fresh(FollowerNext(s, stopped))
  {
    if s.follower.InHand? {
      CompareSaysNew(s);
    } else if s.follower.Pushing? {
      AppendSaysNew(s);
    } else if s.follower.PushingFinished? {
      FinishSaysNew(s);
    } else {
      RestIsQuiet(s, stopped);
      QuietIsFresh(s, FollowerNext(s, stopped));
    }
  }

  lemma OthersSayNothing(s: State, m: Move)
    requires Can(s, m) && !m.ByFollower?
    ensures Next(s, m).log == s.log && Next(s, m).follower == s.follower
    ensures Next(s, m).reported == s.reported && (s.outcome.Some? ==> Next(s, m).outcome == s.outcome)
  {
    if m.ByEngine? {
      EngineSaysNothing(s, m.engine);
    }
  }

  lemma EngineSaysNothing(s: State, e: EngineMove)
    requires EngineCan(s, e)
    ensures EngineNext(s, e).log == s.log && EngineNext(s, e).follower == s.follower
    ensures EngineNext(s, e).reported == s.reported && (s.outcome.Some? ==> EngineNext(s, e).outcome == s.outcome)
  {
  }

  lemma {:induction false} RunSaysNew(s: State, moves: seq<Move>, t: State)
    requires Invariant(s) && Leads(s, moves, t) && NothingTwice(s.log.entries) && HandSaysNew(s)
    ensures NothingTwice(t.log.entries)
    decreases |moves|
  {
    if moves != [] {
      Keeps(s, moves[0]);
      if moves[0].ByFollower? {
        if s.follower.InHand? {
          assert SeenFor(s, s.follower.address);
        }
        FollowerSaysNew(s, moves[0].stopped);
      } else {
        OthersSayNothing(s, moves[0]);
      }
      RunSaysNew(Next(s, moves[0]), moves[1..], t);
    }
  }

  /** Of no host does the log ever say again what it last said of it. */
  lemma NoHostIsSaidTwice(t: State, i: nat, before: Document)
    requires Reachable(t) && i < |t.log.entries| && t.log.entries[i].body.Host?
    requires LastDocument(t.log.entries[..i], t.log.entries[i].body.address) == Some(before)
    ensures Fnv(t.log.entries[i].body.document) != Fnv(before) && t.log.entries[i].body.document != before
  {
    InitiallySo();
    var moves :| Leads(Initial(), moves, t);
    RunSaysNew(Initial(), moves, t);
  }

  // ---------------------------------------------------------------------------
  // By what it ended
  // ---------------------------------------------------------------------------

  /** The follower has the cause in hand, or has said it. */
  predicate EndsBy(s: State, cause: Cause) {
    s.follower == PushingFinished(cause)
    || (Rank(s.follower) >= 5 && s.log.entries != [] && s.log.entries[|s.log.entries| - 1].body == Finished(cause))
  }

  lemma FollowerEndsBy(s: State, stopped: Cause, cause: Cause)
    requires FollowerCan(s) && EndsBy(s, cause)
    ensures EndsBy(FollowerNext(s, stopped), cause)
  {
    if s.follower.PushingFinished? {
      assert EndsBy(SayFinished(s), cause);
    } else {
      ShutDownEndsBy(s, cause);
    }
  }

  lemma ShutDownEndsBy(s: State, cause: Cause)
    requires Shutting(s.follower) && EndsBy(s, cause)
    ensures EndsBy(ShutDown(s), cause)
  {
  }

  lemma {:induction false} RunEndsBy(s: State, moves: seq<Move>, t: State, cause: Cause)
    requires Leads(s, moves, t) && EndsBy(s, cause)
    ensures EndsBy(t, cause)
    decreases |moves|
  {
    if moves != [] {
      if moves[0].ByFollower? {
        FollowerEndsBy(s, moves[0].stopped, cause);
      } else {
        OthersSayNothing(s, moves[0]);
      }
      RunEndsBy(Next(s, moves[0]), moves[1..], t, cause);
    }
  }

  /** The cause a scan's log ends with is what its handle answered when it was asked, if its task
      came to its end, and `Aborted` if it did not. */
  lemma TheCauseIsTheHandles(s: State, stopped: Cause, moves: seq<Move>, t: State)
    requires s.follower.Concluding? && Leads(Next(s, ByFollower(stopped)), moves, t) && Rank(t.follower) >= 5
    ensures t.log.entries != []
    ensures t.log.entries[|t.log.entries| - 1].body == Finished(if s.follower.ok then stopped else Aborted)
  {
    RunEndsBy(Next(s, ByFollower(stopped)), moves, t, if s.follower.ok then stopped else Aborted);
  }

  // The report.

  predicate ReportedRightly(s: State) {
    s.reported ==> Rank(s.follower) >= 3 && s.outcome == Some(true)
  }

  lemma FollowerReports(s: State, stopped: Cause)
    requires LifecycleOk(s) && FollowerCan(s) && ReportedRightly(s)
    ensures ReportedRightly(FollowerNext(s, stopped))
  {
  }

  lemma {:induction false} RunReports(s: State, moves: seq<Move>, t: State)
    requires Invariant(s) && Leads(s, moves, t) && ReportedRightly(s)
    ensures ReportedRightly(t)
    decreases |moves|
  {
    if moves != [] {
      Keeps(s, moves[0]);
      if moves[0].ByFollower? {
        FollowerReports(s, moves[0].stopped);
      } else {
        OthersSayNothing(s, moves[0]);
      }
      RunReports(Next(s, moves[0]), moves[1..], t);
    }
  }

  /** A scan that is over has a report if and only if its task came to its end. */
  lemma ReportedExactly(t: State)
    requires Reachable(t) && t.log.closed
    ensures t.reported <==> t.outcome == Some(true)
  {
    InitiallySo();
    EndsInOrder(t);
    var moves :| Leads(Initial(), moves, t);
    RunReports(Initial(), moves, t);
  }

  // ---------------------------------------------------------------------------
  // What a watch read it tells
  // ---------------------------------------------------------------------------

  /** A watch after so many moves of its own, nobody else having moved. */
  function Gone(s: State, w: Watch, moves: nat): Watch
    decreases moves
  {
    if moves == 0 || !WatchCan(s, w, Go) then w else Gone(s, WatchNext(s, w, Go), moves - 1)
  }

  /** All that one read of the log found is told before the watch looks again
      (src/stdio.rs:389-392). */
  lemma {:induction false} TheBatchIsTold(s: State, w: Watch)
    requires w.place.Sending? && w.place.batch != []
    ensures Gone(s, w, |w.place.batch|).received == w.received + w.place.batch
    ensures Gone(s, w, |w.place.batch|).place.Top?
    decreases |w.place.batch|
  {
    var batch, v := w.place.batch, Send(w);
    assert WatchNext(s, w, Go) == v;
    if |batch| > 1 {
      TheBatchIsTold(s, v);
      assert (w.received + [batch[0]]) + batch[1..] == w.received + batch;
    } else {
      assert Gone(s, v, 0) == v;
      assert batch == [batch[0]];
    }
  }

  /** And one read finds all there is past the cursor: from where its waiter is made, a watch is on
      its way to telling every entry numbered beyond it, in order and in one go
      (src/scans.rs:104-112, 239-244). */
  lemma AReadIsToldWhole(s: State, w: Watch)
    requires Numbered(s.log.entries) && w.place.Registered? && w.cursor < |s.log.entries|
    ensures Gone(s, w, |s.log.entries| - w.cursor + 1).received == w.received + s.log.entries[w.cursor..]
    ensures Gone(s, w, |s.log.entries| - w.cursor + 1).place.Top?
    ensures forall i :: 0 <= i < |s.log.entries| ==> (s.log.entries[i].number > w.cursor <==> i >= w.cursor)
  {
    var v := Look(s, w);
    assert WatchNext(s, w, Go) == v && v.place == Sending(s.log.entries[w.cursor..]);
    TheBatchIsTold(s, v);
  }
}
