/** Everything one scan has said, numbered (src/scans.rs:59-122).

    `LogState` is the log as a value, with the one change each of its methods makes. The class
    holds the same fields behind its methods, and every method is proved to make exactly that
    change; the protocol of follower and watchers is stated over the values. */
module EventLog {
  import opened Digest
  import opened Wrappers

  type Address = string
  type Document = seq<Byte>

  datatype Cause = Completed | Aborted | TimedOut

  datatype Body =
    | Host(address: Address, document: Document)
    | Stage(stage: nat)
    | Progress(done: nat, total: nat)
    | ScannerFailure(scanner: string, reason: string)
    | Finished(cause: Cause)

  datatype Event = Event(number: nat, body: Body)

  // ---------------------------------------------------------------------------
  // The log as a value.
  // ---------------------------------------------------------------------------

  /** `wakes` counts the calls of `notify_waiters`: a waiter created at some count is woken
      once the count has moved on, whether or not it was being polled. */
  datatype LogState = LogState(entries: seq<Event>, seen: map<Address, nat>, wakes: nat, closed: bool)

  const EMPTY_LOG := LogState([], map[], 0, false)

  ghost predicate Numbered(entries: seq<Event>) {
    forall i :: 0 <= i < |entries| ==> entries[i].number == i + 1
  }

  function Appended(log: LogState, body: Body): LogState {
    log.(entries := log.entries + [Event(|log.entries| + 1, body)])
  }

  function Woken(log: LogState): LogState { log.(wakes := log.wakes + 1) }

  function Shut(log: LogState): LogState { log.(closed := true) }

  predicate HasChanged(log: LogState, address: Address, document: Document) {
    !(address in log.seen && log.seen[address] == Fnv(document))
  }

  function Remembered(log: LogState, address: Address, document: Document): LogState {
    log.(seen := log.seen[address := Fnv(document)])
  }

  /** Everything past a cursor. */
  function Tail(entries: seq<Event>, cursor: nat): seq<Event> {
    if cursor <= |entries| then entries[cursor..] else []
  }

  /** The stretch between two cursors. */
  function Stretch(entries: seq<Event>, from: nat, to: nat): seq<Event> {
    if from <= to <= |entries| then entries[from..to] else []
  }

  // ---------------------------------------------------------------------------
  // What a client makes of events: the latest document of each address.
  // ---------------------------------------------------------------------------

  function LastDocument(events: seq<Event>, address: Address): Option<Document> {
    if events == [] then None
    else
      var last := events[|events| - 1].body;
      if last.Host? && last.address == address then Some(last.document)
      else LastDocument(events[..|events| - 1], address)
  }

  lemma {:induction false} LastOfConcat(a: seq<Event>, b: seq<Event>, address: Address)
    ensures LastDocument(a + b, address)
         == if LastDocument(b, address).Some? then LastDocument(b, address) else LastDocument(a, address)
  {
    if b == [] {
      assert a + b == a;
    } else {
      var init := b[..|b| - 1];
      assert (a + b)[..|a + b| - 1] == a + init;
      LastOfConcat(a, init, address);
    }
  }

  /** Where the latest document stands. */
  lemma {:induction false} LastIsSomewhere(events: seq<Event>, address: Address) returns (at: nat)
    requires LastDocument(events, address).Some?
    ensures at < |events| && events[at].body == Host(address, LastDocument(events, address).value)
  {
    var last := events[|events| - 1].body;
    if last.Host? && last.address == address {
      at := |events| - 1;
    } else {
      at := LastIsSomewhere(events[..|events| - 1], address);
    }
  }

  // ---------------------------------------------------------------------------
  // The log as the object it is.
  // ---------------------------------------------------------------------------

  class Log {
    var entries: seq<Event>
    var seen: map<Address, nat>
    var wakes: nat
    var closed: bool

    ghost predicate Valid() reads this { Numbered(entries) }

    function View(): LogState reads this { LogState(entries, seen, wakes, closed) }

    constructor ()
      ensures Valid() && View() == EMPTY_LOG
    {
      entries, seen, wakes, closed := [], map[], 0, false;
    }

    /** The next number goes to this entry, and whoever waits is told (src/scans.rs:77-90). */
    method Push(body: Body)
      requires Valid()
      modifies this
      ensures Valid() && View() == Woken(Appended(old(View()), body))
    {
      var number := |entries| + 1;
      entries := entries + [Event(number, body)];
      wakes := wakes + 1;
    }

    /** Puts the document's digest where the last one was, and says whether they differ
        (src/scans.rs:93-98). */
    method Changed(address: Address, document: Document) returns (changed: bool)
      requires Valid()
      modifies this
      ensures Valid() && View() == Remembered(old(View()), address, document)
      ensures changed <==> HasChanged(old(View()), address, document)
    {
      var digest := Hash(document);
      changed := !(address in seen && seen[address] == digest);
      seen := seen[address := digest];
    }

    /** src/scans.rs:100-102 */
    method Watermark() returns (mark: nat)
      requires Valid()
      ensures mark == |entries|
      ensures entries != [] ==> mark == entries[|entries| - 1].number
    {
      mark := |entries|;
    }

    /** Filters by number, which because of the numbering takes a suffix
        (src/scans.rs:104-112). */
    method After(cursor: nat) returns (later: seq<Event>)
      requires Valid()
      ensures later == Tail(entries, cursor)
    {
      later := [];
      for i := 0 to |entries|
        invariant later == Tail(entries[..i], cursor)
      {
        if entries[i].number > cursor {
          later := later + [entries[i]];
        }
      }
      assert entries[..|entries|] == entries;
    }

    /** src/scans.rs:114-117 */
    method Close()
      requires Valid()
      modifies this
      ensures Valid() && View() == Woken(Shut(old(View())))
    {
      closed := true;
      wakes := wakes + 1;
    }
  }
}
