/** A client that loses its connection in the middle of a snapshot and comes back with the
    number it reached (src/scans.rs:196-231; src/stdio.rs:366-381; examples/scan.ts:100-106):
    which of them miss a host. */
module ScanReturn {
  import opened Digest
  import opened Wrappers
  import opened EventLog
  import opened ScanProtocol
  import opened ScanWatch
  import opened ScanRuns
  import opened ScanConverges
  import W = ScanWitness

  // ---------------------------------------------------------------------------
  // What a scan found
  // ---------------------------------------------------------------------------

  /** One host, and every document it has had. */
  datatype Found = Found(address: Address, documents: seq<Document>)

  predicate Speaks(hosts: seq<Found>, a: Address) {
    exists i :: 0 <= i < |hosts| && hosts[i].address == a
  }

  ghost predicate Distinct(hosts: seq<Found>) {
    && (forall i :: 0 <= i < |hosts| ==> hosts[i].documents != [])
    && (forall i, j :: 0 <= i < j < |hosts| ==> hosts[i].address != hosts[j].address)
  }

  ghost predicate AllSettle(hosts: seq<Found>)
    requires Distinct(hosts)
  {
    forall i :: 0 <= i < |hosts| ==> Settles(hosts[i].documents)
  }

  function Store(hosts: seq<Found>): map<Address, seq<Document>> {
    if hosts == [] then map[]
    else Store(hosts[..|hosts| - 1])[hosts[|hosts| - 1].address := hosts[|hosts| - 1].documents]
  }

  lemma {:induction false} StoreHolds(hosts: seq<Found>, i: nat)
    requires Distinct(hosts) && i < |hosts|
    ensures hosts[i].address in Store(hosts) && Store(hosts)[hosts[i].address] == hosts[i].documents
  {
    if i < |hosts| - 1 {
      StoreHolds(hosts[..|hosts| - 1], i);
    }
  }

  lemma {:induction false} StoreHoldsOnly(hosts: seq<Found>, a: Address)
    ensures a in Store(hosts) <==> Speaks(hosts, a)
  {
    if hosts != [] {
      var init, h := hosts[..|hosts| - 1], hosts[|hosts| - 1];
      StoreHoldsOnly(init, a);
      assert hosts == init + [h];
      SpeaksOneMore(init, h, a);
    }
  }

  lemma {:induction false} StoreIsNoLarger(hosts: seq<Found>)
    ensures |Store(hosts).Keys| <= |hosts|
  {
    if hosts != [] {
      var init := hosts[..|hosts| - 1];
      StoreIsNoLarger(init);
      assert Store(hosts).Keys == Store(init).Keys + {hosts[|hosts| - 1].address};
    }
  }

  lemma SpeaksOneMore(init: seq<Found>, h: Found, a: Address)
    ensures Speaks(init + [h], a) <==> Speaks(init, a) || a == h.address
  {
    var hosts := init + [h];
    if Speaks(init, a) {
      var i :| 0 <= i < |init| && init[i].address == a;
      assert hosts[i].address == a;
    }
    assert hosts[|init|] == h;
  }

  /** A host more is a host the others are not. */
  lemma NotYetThere(init: seq<Found>, h: Found)
    requires Distinct(init + [h])
    ensures (init + [h])[..|init|] == init && (init + [h])[|init|] == h
    ensures h.address !in Store(init) && Distinct(init) && h.documents != []
  {
    var hosts := init + [h];
    assert hosts[|init|] == h;
    forall i | 0 <= i < |init|
      ensures init[i] == hosts[i]
    {
    }
    StoreHoldsOnly(init, h.address);
  }

  // ---------------------------------------------------------------------------
  // All of them logged
  // ---------------------------------------------------------------------------

  function Latest(h: Found): Document requires h.documents != [] { h.documents[|h.documents| - 1] }

  /** Nothing but the scan, at rest between two hosts. */
  predicate AtRest(s: State) {
    && W.Idle(s) && s.missing == {} && s.owed == {} && s.outcome.None? && !s.log.closed
    && s.watches == map[] && s.queries == map[]
  }

  ghost predicate Logged(s: State, hosts: seq<Found>) {
    && AtRest(s) && s.history == Store(hosts)
    && Numbered(s.log.entries) && |s.log.entries| == |hosts|
    && s.log.seen.Keys == Store(hosts).Keys
  }

  /** A host found, updated any number of times, and logged as it then stands. */
  function Logging(s: State, h: Found): State
    requires h.documents != []
  {
    W.Written(W.Stored(s, h.address, h.documents), h.address)
  }

  lemma StoredIs(s: State, h: Found)
    requires h.documents != [] && h.address !in s.history
    ensures W.Stored(s, h.address, h.documents)
         == s.(history := s.history[h.address := h.documents], owed := s.owed + {h.address})
  {
    assert W.Before(s, h.address) + h.documents == h.documents;
  }

  lemma WrittenIs(s: State, t: State, h: Found)
    requires h.documents != [] && s.owed == {}
    requires t == s.(history := s.history[h.address := h.documents], owed := {h.address})
    ensures W.Written(t, h.address) == t.(owed := {}, versions := s.versions + [LastVersion(h.documents)],
      log := Woken(Appended(Remembered(s.log, h.address, Latest(h)), Host(h.address, Latest(h)))))
  {
    assert t.history[h.address] == h.documents;
    assert t.owed - {h.address} == {};
  }

  /** The state a host newly found leaves, written out. */
  lemma LoggingIs(s: State, h: Found)
    requires h.documents != [] && h.address !in s.history && s.owed == {}
    ensures Logging(s, h) == s.(
      history := s.history[h.address := h.documents], versions := s.versions + [LastVersion(h.documents)],
      log := Woken(Appended(Remembered(s.log, h.address, Latest(h)), Host(h.address, Latest(h)))))
  {
    StoredIs(s, h);
    assert s.owed + {h.address} == {h.address};
    WrittenIs(s, W.Stored(s, h.address, h.documents), h);
  }

  lemma IsLogged(s: State, init: seq<Found>, h: Found)
    requires Distinct(init + [h]) && h.documents != [] && Logged(s, init)
    ensures Logged(Logging(s, h), init + [h])
  {
    NotYetThere(init, h);
    LoggingIs(s, h);
    assert (init + [h])[..|init + [h]| - 1] == init;
    assert Store(init + [h]) == Store(init)[h.address := h.documents];
  }

  lemma LogsOne(s: State, init: seq<Found>, h: Found)
    requires Distinct(init + [h]) && h.documents != [] && Reachable(s) && Logged(s, init)
    ensures Reachable(Logging(s, h)) && Logged(Logging(s, h), init + [h])
  {
    NotYetThere(init, h);
    W.StoreMany(Initial(), s, h.address, h.documents);
    W.HearsSomethingNew(Initial(), W.Stored(s, h.address, h.documents), h.address);
    IsLogged(s, init, h);
  }

  lemma {:induction false} LogsAll(hosts: seq<Found>) returns (s: State)
    requires Distinct(hosts)
    ensures Reachable(s) && Logged(s, hosts)
  {
    if hosts == [] {
      W.Stays(Initial());
      s := Initial();
    } else {
      var init, h := hosts[..|hosts| - 1], hosts[|hosts| - 1];
      assert hosts == init + [h];
      NotYetThere(init, h);
      var t := LogsAll(init);
      LogsOne(t, init, h);
      s := Logging(t, h);
    }
  }

  // ---------------------------------------------------------------------------
  // A snapshot of them, shown in part
  // ---------------------------------------------------------------------------

  function Frames(mark: nat, hosts: seq<Found>): seq<Event>
    requires forall i :: 0 <= i < |hosts| ==> hosts[i].documents != []
  {
    seq(|hosts|, i requires 0 <= i < |hosts| => Event(mark, Host(hosts[i].address, Latest(hosts[i]))))
  }

  function Versions(hosts: seq<Found>): map<Address, nat>
    requires forall i :: 0 <= i < |hosts| ==> hosts[i].documents != []
  {
    if hosts == [] then map[]
    else Versions(hosts[..|hosts| - 1])[hosts[|hosts| - 1].address := LastVersion(hosts[|hosts| - 1].documents)]
  }

  lemma {:induction false} EveryHostListed(hosts: seq<Found>)
    requires Distinct(hosts)
    ensures Versions(hosts).Keys == Store(hosts).Keys
  {
    if hosts != [] {
      EveryHostListed(hosts[..|hosts| - 1]);
    }
  }

  /** So many of the hosts read. */
  function Listed(s: State, read: seq<Found>): Watch
    requires forall i :: 0 <= i < |read| ==> read[i].documents != []
  {
    var mark := |s.log.entries|;
    Opened(0).(mark := mark, base := mark, must := s.history.Keys, phase := Listing,
               got := Versions(read), caught := Frames(mark, read))
  }

  lemma OpensAndLists(s: State)
    requires Reachable(s) && s.watches == map[]
    ensures Reachable(W.With(s, Listed(s, [])))
  {
    var o, mark := Initial(), |s.log.entries|;
    assert W.Reaches(o, s);
    W.Moves(o, s, Open(0, 0));
    assert Next(s, Open(0, 0)) == W.With(s, Opened(0));
    W.Goes(o, s, Opened(0), Go);
    var w := Opened(0).(mark := mark, base := mark, phase := Marked);
    assert WatchNext(s, Opened(0), Go) == w;
    W.Goes(o, s, w, Go);
    assert Versions([]) == map[] && Frames(mark, []) == [];
    assert WatchNext(s, w, Go) == Listed(s, []);
  }

  lemma ListsOne(mark: nat, read: seq<Found>, h: Found)
    requires Distinct(read + [h]) && Distinct(read) && h.documents != []
    ensures Versions(read + [h]) == Versions(read)[h.address := LastVersion(h.documents)]
    ensures Frames(mark, read + [h]) == Frames(mark, read) + [Event(mark, Host(h.address, Latest(h)))]
  {
    assert (read + [h])[..|read + [h]| - 1] == read;
  }

  lemma ReadsOne(s: State, read: seq<Found>, h: Found)
    requires Distinct(read + [h]) && Distinct(read) && Reachable(W.With(s, Listed(s, read)))
    requires h.address in s.history && s.history[h.address] == h.documents
    ensures Reachable(W.With(s, Listed(s, read + [h])))
  {
    NotYetThere(read, h);
    ListsOne(|s.log.entries|, read, h);
    EveryHostListed(read);
    var w := Listed(s, read);
    W.Goes(Initial(), s, w, ReadHost(h.address));
    assert WatchNext(s, w, ReadHost(h.address)) == Listed(s, read + [h]);
  }

  lemma {:induction false} ReadsAll(s: State, hosts: seq<Found>, n: nat)
    requires Reachable(s) && Distinct(hosts) && Logged(s, hosts) && n <= |hosts|
    ensures Distinct(hosts[..n]) && Reachable(W.With(s, Listed(s, hosts[..n])))
  {
    if n == 0 {
      OpensAndLists(s);
      assert hosts[..0] == [];
    } else {
      ReadsAll(s, hosts, n - 1);
      assert hosts[..n] == hosts[..n - 1] + [hosts[n - 1]];
      StoreHolds(hosts, n - 1);
      ReadsOne(s, hosts[..n - 1], hosts[n - 1]);
    }
  }

  /** The snapshot taken, and so many of its frames with the client. */
  function Partly(s: State, hosts: seq<Found>, p: nat): Watch
    requires Distinct(hosts) && p <= |hosts|
  {
    var mark := |s.log.entries|;
    Listed(s, hosts).(caught := Frames(mark, hosts) + [Event(mark, Progress(0, 0))], phase := Caught, cursor := mark,
                      place := Replaying, snap := p, received := Frames(mark, hosts)[..p],
                      position := if p == 0 then 0 else mark)
  }

  lemma TakesSnapshot(s: State, hosts: seq<Found>)
    requires Reachable(s) && Distinct(hosts) && Logged(s, hosts)
    ensures Reachable(W.With(s, Partly(s, hosts, 0)))
  {
    ReadsAll(s, hosts, |hosts|);
    assert hosts[..|hosts|] == hosts;
    EveryHostListed(hosts);
    var w := Listed(s, hosts);
    W.Goes(Initial(), s, w, Go);
    var v := w.(caught := Partly(s, hosts, 0).caught, phase := Caught);
    assert WatchNext(s, w, Go) == v;
    W.Goes(Initial(), s, v, Go);
    assert WatchNext(s, v, Go) == Partly(s, hosts, 0);
  }

  lemma ShowsOne(s: State, hosts: seq<Found>, p: nat)
    requires Distinct(hosts) && p < |hosts| && Reachable(W.With(s, Partly(s, hosts, p)))
    ensures Reachable(W.With(s, Partly(s, hosts, p + 1)))
  {
    var w, frames := Partly(s, hosts, p), Frames(|s.log.entries|, hosts);
    W.Goes(Initial(), s, w, Go);
    assert w.caught[p] == frames[p] && frames[..p + 1] == frames[..p] + [frames[p]];
    assert WatchNext(s, w, Go) == Partly(s, hosts, p + 1);
  }

  lemma {:induction false} ShowsSome(s: State, hosts: seq<Found>, p: nat)
    requires Reachable(s) && Distinct(hosts) && Logged(s, hosts) && p <= |hosts|
    ensures Reachable(W.With(s, Partly(s, hosts, p)))
  {
    if p == 0 {
      TakesSnapshot(s, hosts);
    } else {
      ShowsSome(s, hosts, p - 1);
      ShowsOne(s, hosts, p - 1);
    }
  }

  // ---------------------------------------------------------------------------
  // Gone, back, and told the rest of the log
  // ---------------------------------------------------------------------------

  /** Back at the top of the loop, at the number of the snapshot's frames. */
  function Back(s: State, hosts: seq<Found>, p: nat): Watch
    requires Distinct(hosts) && p <= |hosts|
  {
    Partly(s, hosts, p).(place := Top)
  }

  lemma ComesBack(s: State, hosts: seq<Found>, p: nat)
    requires Reachable(s) && Distinct(hosts) && Logged(s, hosts) && 0 < p <= |hosts|
    ensures Reachable(W.With(s, Back(s, hosts, p)))
  {
    ShowsSome(s, hosts, p);
    var w := Partly(s, hosts, p);
    W.Goes(Initial(), s, w, Drop);
    var v := w.(place := Dropped);
    assert WatchNext(s, w, Drop) == v;
    W.Goes(Initial(), s, v, Reconnect);
    assert WatchNext(s, v, Reconnect) == Back(s, hosts, p);
  }

  function AtTheEnd(s: State, w: Watch): Watch {
    var n := |s.log.entries|;
    w.(place := Ended, cursor := n, position := n, received := w.received + [Event(n, Finished(Completed))],
       readAt := n, closedAtRead := true)
  }

  /** A run of any scan in which the client was shown the first `p` hosts of its snapshot, lost
      its connection, came back with its number, and read the log to its end. */
  lemma ReturnsAfter(hosts: seq<Found>, p: nat) returns (t: State)
    requires Distinct(hosts) && 0 < p <= |hosts|
    ensures Returned(t, 0, hosts, p)
    ensures t.watches[0].received == Frames(|hosts|, hosts)[..p] + [Event(|hosts| + 1, Finished(Completed))]
  {
    var s := LogsAll(hosts);
    var w := Back(s, hosts, p);
    ComesBack(s, hosts, p);
    W.ScanEnds(Initial(), s, w);
    W.ReadsTheLastEntry(Initial(), W.Complete(s), w);
    var n := |hosts|;
    assert W.Complete(s).log.entries[n] == Event(n + 1, Finished(Completed));
    t := W.With(W.Complete(s), AtTheEnd(W.Complete(s), w));
  }

  /** Everything over and nothing lost, in the store what the scan found, and a client that was
      shown `p` frames of its snapshot and read the log to its end. */
  ghost predicate Returned(t: State, id: nat, hosts: seq<Found>, p: nat) {
    && Reachable(t) && t.missing == {} && Quiet(t) && t.log.closed && t.history == Store(hosts)
    && id in t.watches && t.watches[id].place.Ended? && ReadToTheEnd(t, t.watches[id])
    && t.watches[id].snap == p
  }

  ghost predicate HoldsTheStore(t: State, id: nat)
    requires id in t.watches
  {
    forall a :: LastDocument(t.watches[id].received, a) == Current(t.history, a)
  }

  lemma {:induction false} NotAmong(events: seq<Event>, a: Address)
    requires forall e :: e in events && e.body.Host? ==> e.body.address != a
    ensures LastDocument(events, a).None?
  {
    if events != [] {
      assert events[|events| - 1] in events;
      assert forall e :: e in events[..|events| - 1] ==> e in events;
      NotAmong(events[..|events| - 1], a);
    }
  }

  /** "A client that drops and reconnects passes the sequence number it reached and misses
      nothing" does not hold in the middle of a snapshot, all of whose frames carry one number:
      of any hosts, the first one not yet shown is never told of. */
  lemma MidSnapshotReconnectMisses(hosts: seq<Found>, p: nat) returns (t: State)
    requires Distinct(hosts) && 0 < p < |hosts|
    ensures Returned(t, 0, hosts, p)
    ensures LastDocument(t.watches[0].received, hosts[p].address) == None
    ensures Current(t.history, hosts[p].address) == Some(Latest(hosts[p]))
  {
    t := ReturnsAfter(hosts, p);
    var shown, a := Frames(|hosts|, hosts)[..p], hosts[p].address;
    forall e | e in t.watches[0].received && e.body.Host?
      ensures e.body.address != a
    {
      assert e in shown;
      var i :| 0 <= i < |shown| && shown[i] == e;
      assert e.body.address == hosts[i].address;
    }
    NotAmong(t.watches[0].received, a);
    StoreHolds(hosts, p);
  }

  /** A snapshot holds no more hosts than the store came to. */
  lemma ShownAll(t: State, id: nat, hosts: seq<Found>, p: nat)
    requires Distinct(hosts) && Returned(t, id, hosts, p) && p >= |hosts|
    ensures CaughtUp(t, t.watches[id])
  {
    Everywhere(t);
    var w := t.watches[id];
    assert WatchOk(t, w);
    StoreIsNoLarger(hosts);
    assert w.got.Keys <= t.history.Keys by {
      forall a | a in w.got
        ensures a in t.history
      {
        assert ReadOk(t, w.mark, a, w.got[a]);
      }
    }
    SmallerSet(w.got.Keys, t.history.Keys);
    assert |w.got| == |w.got.Keys|;
  }

  lemma SmallerSet(a: set<Address>, b: set<Address>)
    requires a <= b
    ensures |a| <= |b|
  {
    assert b == a + (b - a);
  }

  /** Which returns are safe: for any hosts a scan may find and any number of snapshot frames a
      client has had, it is left with the store in every run if and only if it has had as many
      as there are hosts. */
  lemma SafeToReturnExactly(hosts: seq<Found>, p: nat)
    requires Distinct(hosts) && AllSettle(hosts) && hosts != [] && p > 0
    ensures (forall t, id :: Returned(t, id, hosts, p) ==> HoldsTheStore(t, id)) <==> p >= |hosts|
  {
    if p >= |hosts| {
      forall t, id | Returned(t, id, hosts, p)
        ensures HoldsTheStore(t, id)
      {
        ReturnedWhole(t, id, hosts, p);
      }
    } else {
      var t := MidSnapshotReconnectMisses(hosts, p);
      assert !HoldsTheStore(t, 0);
    }
  }

  lemma ReturnedWhole(t: State, id: nat, hosts: seq<Found>, p: nat)
    requires Distinct(hosts) && AllSettle(hosts) && Returned(t, id, hosts, p) && p >= |hosts|
    ensures HoldsTheStore(t, id)
  {
    ShownAll(t, id, hosts, p);
    forall a
      ensures LastDocument(t.watches[id].received, a) == Current(t.history, a)
    {
      if a in t.history {
        StoreHoldsOnly(hosts, a);
        var i :| 0 <= i < |hosts| && hosts[i].address == a;
        StoreHolds(hosts, i);
      }
      Converges(t, id, a);
    }
  }
}
