/** A client that watches from nothing ends up holding the store (src/scans.rs:202-231;
    src/stdio.rs:366-393; examples/scan.ts:166-170), and exactly when that is so. */
module ScanConverges {
  import opened Digest
  import opened Wrappers
  import opened EventLog
  import opened ScanProtocol
  import opened ScanFollower
  import opened ScanWatch
  import opened ScanRuns

  /** Once a host has had a document with the digest of its final one, it has the final one.
      So it neither goes back to a document it had left, nor passes through another document
      with the same digest. */
  ghost predicate Settles(documents: seq<Document>)
    requires documents != []
  {
    forall i, k :: 0 <= i <= k < |documents| && Fnv(documents[i]) == Fnv(documents[|documents| - 1])
      ==> documents[k] == documents[|documents| - 1]
  }

  /** A client that watched from nothing was sent the log to its end. */
  predicate ReadToTheEnd(s: State, w: Watch) {
    w.from == 0 && w.phase.Caught? && w.position == |s.log.entries|
  }

  /** And every host of its snapshot before it; the frame that closes one holds none. */
  predicate CaughtUp(s: State, w: Watch) {
    ReadToTheEnd(s, w) && w.snap + 1 >= |w.caught|
  }

  function Shown(w: Watch): seq<Event> { if w.snap <= |w.caught| then w.caught[..w.snap] else w.caught }

  lemma HoldsEverything(s: State, w: Watch)
    requires WatchOk(s, w) && ReadToTheEnd(s, w)
    ensures w.base <= |s.log.entries| && w.received == Shown(w) + Tail(s.log.entries, w.base)
  {
    assert s.log.entries[w.base..|s.log.entries|] == s.log.entries[w.base..];
  }

  /** The tail's last word on a host is the log's. */
  lemma ToldInTheTail(s: State, w: Watch, a: Address)
    requires WatchOk(s, w) && ReadToTheEnd(s, w)
    ensures LastDocument(Tail(s.log.entries, w.base), a).Some? ==>
      LastDocument(w.received, a) == LastDocument(s.log.entries, a) == LastDocument(Tail(s.log.entries, w.base), a)
    ensures LastDocument(Tail(s.log.entries, w.base), a).None? ==>
      LastDocument(w.received, a) == LastDocument(Shown(w), a)
      && LastDocument(s.log.entries, a) == LastDocument(s.log.entries[..w.base], a)
  {
    HoldsEverything(s, w);
    LastOfConcat(Shown(w), Tail(s.log.entries, w.base), a);
    LastOfConcat(s.log.entries[..w.base], Tail(s.log.entries, w.base), a);
    assert s.log.entries == s.log.entries[..w.base] + Tail(s.log.entries, w.base);
  }

  /** What a snapshot showed of a host is the document it read of it. */
  lemma ShownIsStored(s: State, w: Watch, a: Address)
    requires WatchOk(s, w) && w.from == 0
    ensures LastDocument(Shown(w), a).Some? ==>
      a in w.got && a in s.history && w.got[a] < |s.history[a]|
      && LastDocument(Shown(w), a).value == s.history[a][w.got[a]]
  {
    if LastDocument(Shown(w), a).Some? {
      var at := LastIsSomewhere(Shown(w), a);
      assert Shown(w)[at] in w.caught;
      assert AsRead(s, w, Shown(w)[at]);
    }
  }

  /** A host the log spoke of only before the watermark: what a snapshot showed of it is no
      older than the log's last word on it. */
  lemma ShownIsNoOlder(s: State, w: Watch, a: Address) returns (logged: nat, read: nat)
    requires Invariant(s) && WatchOk(s, w) && w.from == 0 && w.base <= |s.log.entries|
    requires LastDocument(s.log.entries[..w.base], a).Some? && LastDocument(Shown(w), a).Some?
    ensures a in s.history && logged <= read < |s.history[a]|
    ensures s.history[a][logged] == LastDocument(s.log.entries[..w.base], a).value
    ensures s.history[a][read] == LastDocument(Shown(w), a).value
  {
    var early := s.log.entries[..w.base];
    var at := LastIsSomewhere(early, a);
    assert early[at] == s.log.entries[at] && About(s.log.entries[at], a);
    assert Backed(s.history, s.log.entries[at].body, s.versions[at]);
    ShownIsStored(s, w, a);
    assert ReadOk(s, w.mark, a, w.got[a]);
    logged, read := s.versions[at], w.got[a];
  }

  /** What a client holds of a host the log speaks of is a document it had no earlier than the
      log's last word on it. */
  lemma HeardLate(s: State, w: Watch, a: Address) returns (logged: nat, held: nat)
    requires Invariant(s) && WatchOk(s, w) && ReadToTheEnd(s, w)
    requires LastDocument(s.log.entries, a).Some? && LastDocument(w.received, a).Some?
    ensures a in s.history && logged <= held < |s.history[a]|
    ensures s.history[a][logged] == LastDocument(s.log.entries, a).value
    ensures LastDocument(w.received, a) == Some(s.history[a][held])
  {
    HoldsEverything(s, w);
    ToldInTheTail(s, w, a);
    if LastDocument(Tail(s.log.entries, w.base), a).Some? {
      var at := LastIsSomewhere(s.log.entries, a);
      assert Backed(s.history, s.log.entries[at].body, s.versions[at]);
      logged, held := s.versions[at], s.versions[at];
    } else {
      logged, held := ShownIsNoOlder(s, w, a);
    }
  }

  /** A host the log never spoke of and the store does not have was not shown either. */
  lemma NeverHeard(s: State, w: Watch, a: Address)
    requires Invariant(s) && WatchOk(s, w) && ReadToTheEnd(s, w)
    requires a !in s.history && LastDocument(s.log.entries, a).None?
    ensures LastDocument(w.received, a).None?
  {
    ToldInTheTail(s, w, a);
    ShownIsStored(s, w, a);
  }

  /** No notice left, the host's last one not lost, and a client that watched from nothing and read the log to
      its end, over any number of connections, any of them gone in the middle of its snapshot.
      Whatever it holds of a host is what the store holds: it can be missing a host, and never
      has one wrong. */
  lemma WhatIsHeldIsRight(t: State, id: nat, a: Address)
    requires Reachable(t) && a !in t.missing && Quiet(t)
    requires id in t.watches && ReadToTheEnd(t, t.watches[id])
    requires a in t.history ==> t.history[a] == [] || Settles(t.history[a])
    ensures LastDocument(t.watches[id].received, a).Some? ==>
      LastDocument(t.watches[id].received, a) == Current(t.history, a)
  {
    Everywhere(t);
    assert WatchOk(t, t.watches[id]);
    LogTellsTheStore(t, a);
    if a !in t.history {
      NeverHeard(t, t.watches[id], a);
    } else if LastDocument(t.watches[id].received, a).Some? {
      var logged, held := HeardLate(t, t.watches[id], a);
    }
  }

  lemma ProgressHoldsNothing(events: seq<Event>, a: Address)
    requires events != [] && events[|events| - 1].body.Progress?
    ensures LastDocument(events, a) == LastDocument(events[..|events| - 1], a)
  {
  }

  lemma EndsInProgress(s: State, w: Watch)
    requires WatchOk(s, w) && w.from == 0 && w.phase.Caught?
    ensures w.snap <= |w.caught| && w.caught != [] && w.caught[|w.caught| - 1].body.Progress?
  {
  }

  /** All hosts of a snapshot shown are all of it that can hold a document. */
  lemma ShownWhole(s: State, w: Watch, a: Address)
    requires WatchOk(s, w) && CaughtUp(s, w)
    ensures LastDocument(Shown(w), a) == LastDocument(w.caught, a)
  {
    EndsInProgress(s, w);
    ProgressHoldsNothing(w.caught, a);
    assert w.caught[..|w.caught|] == w.caught;
    assert w.snap == |w.caught| || w.snap == |w.caught| - 1;
  }

  /** A host the log speaks of only before the watermark is one the snapshot had to read. */
  lemma EarlyIsRead(s: State, w: Watch, a: Address)
    requires WatchOk(s, w) && w.from == 0 && w.phase.Caught? && w.base <= |s.log.entries|
    requires LastDocument(s.log.entries[..w.base], a).Some?
    ensures LastDocument(w.caught, a).Some?
  {
    var early := s.log.entries[..w.base];
    var at := LastIsSomewhere(early, a);
    assert early[at] == s.log.entries[at];
    assert a in w.must;
    assert ReadOk(s, w.mark, a, w.got[a]);
    assert CaughtFor(s, w, a);
  }

  /** So a snapshot shown whole and the tail after it leave out no host of the log's. */
  lemma NoHostIsMissing(s: State, w: Watch, a: Address)
    requires Invariant(s) && WatchOk(s, w) && CaughtUp(s, w) && LastDocument(s.log.entries, a).Some?
    ensures LastDocument(w.received, a).Some?
  {
    HoldsEverything(s, w);
    ToldInTheTail(s, w, a);
    if LastDocument(Tail(s.log.entries, w.base), a).None? {
      EarlyIsRead(s, w, a);
      ShownWhole(s, w, a);
    }
  }

  /** A client that was sent every host of its snapshot holds, whatever the interleaving, what
      the store holds, and nothing else. */
  lemma Converges(t: State, id: nat, a: Address)
    requires Reachable(t) && a !in t.missing && Quiet(t)
    requires id in t.watches && CaughtUp(t, t.watches[id])
    requires a in t.history ==> t.history[a] == [] || Settles(t.history[a])
    ensures LastDocument(t.watches[id].received, a) == Current(t.history, a)
  {
    Everywhere(t);
    assert WatchOk(t, t.watches[id]);
    LogTellsTheStore(t, a);
    WhatIsHeldIsRight(t, id, a);
    if a in t.history {
      NoHostIsMissing(t, t.watches[id], a);
    }
  }
}
