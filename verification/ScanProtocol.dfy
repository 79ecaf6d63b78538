/** One scan, its follower and its watchers, step by step (src/scans.rs:142-254, 653-727;
    src/stdio.rs:345-396).

    Each move is one atomic access in the source: a lock taken and given back, an atomic read
    or write, a call of `notify_waiters`, a channel receive, a frame that reached the client.
    Moves of the engine, the follower, any number of watchers and any number of `get`
    requests interleave freely.

    Three fields record what happened rather than what the daemon holds: `history` keeps every
    document a host has had (the store holds the last of each), `versions` says which of them
    each log entry carried, and `missing` holds the hosts whose last notice never got through: it was
    dropped, or never sent, and none has been sent since. */
module ScanProtocol {
  import opened Digest
  import opened Wrappers
  import opened EventLog

  // ---------------------------------------------------------------------------
  // State
  // ---------------------------------------------------------------------------

  datatype Notice =
    | HostUpdated(address: Address)
    | StageChanged(stage: nat, done: nat, total: nat)
    | ScannerFailed(scanner: string, reason: string)
    | EventsDropped

  /** Where the follower task stands (src/scans.rs:662-726). */
  datatype Follower =
    | Receiving                                     // 664
    | Got(address: Address)                         // 667, the store not read yet
    | InHand(address: Address, version: nat)        // 675, the digest not compared yet
    | Pushing(bodies: seq<Body>, version: nat)      // 78-87, about to append the first of these
    | Waking(rest: seq<Body>)                       // 89, appended but nobody woken yet
    | Drained                                       // 705, the channel is at its end
    | Joined(ok: bool)                              // 707
    | Concluding(ok: bool)                          // 713
    | PushingFinished(cause: Cause)                 // 718
    | WakingFinished                                // 89
    | Closing                                       // 115
    | WakingClosed                                  // 116
    | Releasing                                     // 725
    | Gone

  /** How far a watch from nothing has got with its snapshot (src/scans.rs:202-231). */
  datatype Phase = Unmarked | Marked | Listing | Caught

  /** Where a watch stands (src/stdio.rs:368-395; src/scans.rs:237-248). */
  datatype Place =
    | Snapshotting
    | Replaying                                     // 378-380
    | Top                                           // 384 / 239
    | Registered(created: nat)                      // 241, the waiter exists
    | Empty(created: nat)                           // 242, nothing read, the flag not read yet
    | Waiting(created: nat)                         // 246
    | Sending(batch: seq<Event>)                    // 389-392
    | Ending                                        // 395
    | Ended
    | Dropped                                       // the client's connection is gone

  /** One client following the scan, across as many connections as it takes.

      `cursor` is the daemon's, `position` the last number the client was told. */
  datatype Watch = Watch(
    from: nat, place: Place,
    phase: Phase, mark: nat, must: set<Address>, got: map<Address, nat>, caught: seq<Event>, snap: nat,
    base: nat, cursor: nat, position: nat, received: seq<Event>,
    readAt: nat, closedAtRead: bool)

  /** A `get`: the closed flag, then the watermark (src/scans.rs:160-174). */
  datatype Query = Asked(running: bool) | Answered(running: bool, number: nat)

  datatype State = State(
    history: map<Address, seq<Document>>, owed: set<Address>, queue: seq<Notice>,
    sending: bool, outcome: Option<bool>, missing: set<Address>,
    follower: Follower, log: LogState, versions: seq<nat>, reported: bool, slot: bool,
    watches: map<nat, Watch>, queries: map<nat, Query>)

  function Initial(): State {
    State(map[], {}, [], true, None, {}, Receiving, EMPTY_LOG, [], false, true, map[], map[])
  }

  function LastVersion(h: seq<Document>): nat requires h != [] { |h| - 1 }

  function Current(history: map<Address, seq<Document>>, a: Address): Option<Document> {
    if a in history && history[a] != [] then Some(history[a][LastVersion(history[a])]) else None
  }

  /** Nobody but a client moves a client's watch or question on. */
  predicate ClientsStand(s: State, t: State) { t.watches == s.watches && t.queries == s.queries }

  predicate LogStands(s: State, t: State) {
    t.log == s.log && t.versions == s.versions && t.history == s.history
  }

  // ---------------------------------------------------------------------------
  // The engine: unseen, so anything it might do
  // ---------------------------------------------------------------------------

  datatype EngineMove =
    | Update(address: Address, document: Document)  // the store changes first
    | Announce(notice: Notice)                      // and the notice follows
    | Overflow(count: nat)                          // the channel drops its oldest
    | HangUp                                        // the last sender is gone
    | Finish(ok: bool)                              // the task is done

  predicate EngineCan(s: State, m: EngineMove) {
    match m
    case Update(_, _) => s.sending
    case Announce(notice) => s.sending && !notice.EventsDropped?
    case Overflow(count) => s.sending && 0 < count <= |s.queue|
    case HangUp => s.sending
    case Finish(_) => s.outcome.None?
  }

  /** Hosts with a notice among those dropped from a queue and none among those kept. */
  function Unheard(dropped: seq<Notice>, kept: seq<Notice>): set<Address> {
    if dropped == [] then {}
    else
      var last := dropped[|dropped| - 1];
      Unheard(dropped[..|dropped| - 1], kept) + if last.HostUpdated? && last !in kept then {last.address} else {}
  }

  function EngineNext(s: State, m: EngineMove): (t: State)
    requires EngineCan(s, m)
    ensures ClientsStand(s, t)
  {
    match m
    case Update(a, d) =>
      var before := if a in s.history then s.history[a] else [];
      s.(history := s.history[a := before + [d]], owed := s.owed + {a})
    case Announce(notice) =>
      var told := if notice.HostUpdated? then {notice.address} else {};
      s.(queue := s.queue + [notice], owed := s.owed - told, missing := s.missing - told)
    case Overflow(count) =>
      s.(queue := [EventsDropped] + s.queue[count..], missing := s.missing + Unheard(s.queue[..count], s.queue[count..]))
    case HangUp =>
      s.(sending := false, missing := s.missing + s.owed, owed := {})
    case Finish(ok) =>
      s.(outcome := Some(ok))
  }

  // ---------------------------------------------------------------------------
  // The follower: one task, whose next step its place decides
  // ---------------------------------------------------------------------------

  predicate FollowerCan(s: State) {
    match s.follower
    case Receiving => s.queue != [] || !s.sending
    case InHand(a, v) => a in s.history && v < |s.history[a]|
    case Pushing(bodies, _) => bodies != []
    case Drained => s.outcome.Some?
    case Gone => false
    case _ => true
  }

  /** `events.recv()` (664-700). */
  function Receive(s: State): (t: State)
    requires s.follower.Receiving?
    ensures ClientsStand(s, t) && LogStands(s, t)
  {
    if s.queue == [] then s.(follower := Drained)
    else
      s.(queue := s.queue[1..],
         follower :=
           match s.queue[0]
           case HostUpdated(a) => Got(a)
           case StageChanged(stage, done, total) => Pushing([Stage(stage), Progress(done, total)], 0)
           case ScannerFailed(scanner, reason) => Pushing([ScannerFailure(scanner, reason)], 0)
           case EventsDropped => Receiving)
  }

  /** Looks the host up in the store; one that is gone is passed over (667-673). */
  function Fetch(s: State): (t: State)
    requires s.follower.Got?
    ensures ClientsStand(s, t) && LogStands(s, t)
  {
    var a := s.follower.address;
    s.(follower :=
         if a in s.history && s.history[a] != [] then InHand(a, LastVersion(s.history[a])) else Receiving)
  }

  /** Whether the host changed, and remembers the answer (675). */
  function Compare(s: State): (t: State)
    requires s.follower.InHand? && FollowerCan(s)
    ensures ClientsStand(s, t)
  {
    var a, v := s.follower.address, s.follower.version;
    var document := s.history[a][v];
    s.(log := Remembered(s.log, a, document),
       follower := if HasChanged(s.log, a, document) then Pushing([Host(a, document)], v) else Receiving)
  }

  /** The locked half of `push` (78-87). */
  function Append(s: State): (t: State)
    requires s.follower.Pushing? && FollowerCan(s)
    ensures ClientsStand(s, t)
  {
    s.(log := Appended(s.log, s.follower.bodies[0]), versions := s.versions + [s.follower.version],
       follower := Waking(s.follower.bodies[1..]))
  }

  /** The other half (89). */
  function Wake(s: State): (t: State)
    requires s.follower.Waking?
    ensures ClientsStand(s, t)
  {
    s.(log := Woken(s.log),
       follower := if s.follower.rest == [] then Receiving else Pushing(s.follower.rest, 0))
  }

  predicate Settling(f: Follower) { f.Drained? || f.Joined? || f.Concluding? }

  /** Joins the task, keeps its report and works out why it stopped (705-716). `stopped` is
      what the scan's handle answers when asked. */
  function Settle(s: State, stopped: Cause): (t: State)
    requires Settling(s.follower) && FollowerCan(s)
    ensures ClientsStand(s, t) && LogStands(s, t)
  {
    s.(reported := s.reported || s.follower == Joined(true),
       follower :=
         match s.follower
         case Drained => Joined(s.outcome.value)
         case Joined(ok) => Concluding(ok)
         case Concluding(ok) => PushingFinished(if ok then stopped else Aborted))
  }

  /** The last entry (718). */
  function SayFinished(s: State): (t: State)
    requires s.follower.PushingFinished?
    ensures ClientsStand(s, t)
  {
    s.(log := Appended(s.log, Finished(s.follower.cause)), versions := s.versions + [0], follower := WakingFinished)
  }

  predicate Shutting(f: Follower) { f.WakingFinished? || f.Closing? || f.WakingClosed? || f.Releasing? }

  /** Wakes, closes, wakes again and gives the slot back (718-725). */
  function ShutDown(s: State): (t: State)
    requires Shutting(s.follower)
    ensures ClientsStand(s, t)
  {
    s.(log := if s.follower.Closing? then Shut(s.log) else if s.follower.Releasing? then s.log else Woken(s.log),
       slot := s.slot && !s.follower.Releasing?,
       follower :=
         match s.follower
         case WakingFinished => Closing
         case Closing => WakingClosed
         case WakingClosed => Releasing
         case Releasing => Gone)
  }

  function FollowerNext(s: State, stopped: Cause): (t: State)
    requires FollowerCan(s)
    ensures ClientsStand(s, t)
  {
    match s.follower
    case Receiving => Receive(s)
    case Got(_) => Fetch(s)
    case InHand(_, _) => Compare(s)
    case Pushing(_, _) => Append(s)
    case Waking(_) => Wake(s)
    case PushingFinished(_) => SayFinished(s)
    case Drained => Settle(s, stopped)
    case Joined(_) => Settle(s, stopped)
    case Concluding(_) => Settle(s, stopped)
    case WakingFinished => ShutDown(s)
    case Closing => ShutDown(s)
    case WakingClosed => ShutDown(s)
    case Releasing => ShutDown(s)
  }

  // ---------------------------------------------------------------------------
  // Watches
  // ---------------------------------------------------------------------------

  datatype WatchMove =
    | Go                                            // whatever comes next
    | ReadHost(address: Address)                    // one host of the snapshot
    | Drop                                          // the connection goes
    | Reconnect                                     // the client comes back with its position

  function Opened(from: nat): Watch {
    Watch(from, if from == 0 then Snapshotting else Top,
          if from == 0 then Unmarked else Caught, 0, {}, map[], [], 0,
          from, from, from, [], 0, false)
  }

  predicate WatchCan(s: State, w: Watch, m: WatchMove) {
    match m
    case Go =>
      (match w.place
       case Snapshotting => w.phase.Listing? ==> w.must <= w.got.Keys
       case Waiting(created) => s.log.wakes != created
       case Sending(batch) => batch != []
       case Ended => false
       case Dropped => false
       case _ => true)
    case ReadHost(a) =>
      w.place.Snapshotting? && w.phase.Listing? && a in s.history && s.history[a] != [] && a !in w.got
    case Drop => !w.place.Ended? && !w.place.Dropped?
    case Reconnect => w.place.Dropped? && w.position > 0
  }

  function Max(a: nat, b: nat): nat { if a < b then b else a }

  function Told(w: Watch, e: Event): Watch {
    w.(received := w.received + [e], position := e.number)
  }

  /** Taking the snapshot: the watermark, the list of hosts, the hosts (by `ReadHost`), the
      progress that ends it, and the cursor moved forward to the watermark. */
  function Snap(s: State, w: Watch): Watch
    requires w.place.Snapshotting?
  {
    match w.phase
    case Unmarked => w.(mark := |s.log.entries|, base := |s.log.entries|, phase := Marked)
    case Marked => w.(must := s.history.Keys, phase := Listing)
    case Listing => w.(caught := w.caught + [Event(w.mark, Progress(0, 0))], phase := Caught)
    case Caught => w.(cursor := w.mark, place := Replaying)
  }

  /** One snapshot frame, or on to the tail. */
  function Replay(w: Watch): Watch
    requires w.place.Replaying?
  {
    if w.snap < |w.caught| then Told(w, w.caught[w.snap]).(snap := w.snap + 1) else w.(place := Top)
  }

  /** One frame of the tail. */
  function Send(w: Watch): Watch
    requires w.place.Sending? && w.place.batch != []
  {
    var batch := w.place.batch;
    Told(w, batch[0]).(cursor := Max(w.cursor, batch[0].number),
                       place := if |batch| == 1 then Top else Sending(batch[1..]))
  }

  predicate Asking(place: Place) {
    place.Top? || place.Registered? || place.Empty? || place.Waiting? || place.Ending?
  }

  /** The loop of `after`, and the frame that says there is no more. */
  function Look(s: State, w: Watch): Watch
    requires Asking(w.place)
  {
    match w.place
    case Top => w.(place := Registered(s.log.wakes))
    case Registered(created) =>
      var batch := Tail(s.log.entries, w.cursor);
      w.(place := if batch != [] then Sending(batch) else Empty(created),
         readAt := |s.log.entries|, closedAtRead := s.log.closed)
    case Empty(created) => w.(place := if s.log.closed then Ending else Waiting(created))
    case Waiting(_) => w.(place := Top)
    case Ending => w.(place := Ended)
  }

  function GoOn(s: State, w: Watch): Watch
    requires WatchCan(s, w, Go)
  {
    match w.place
    case Snapshotting => Snap(s, w)
    case Replaying => Replay(w)
    case Sending(_) => Send(w)
    case Top => Look(s, w)
    case Registered(_) => Look(s, w)
    case Empty(_) => Look(s, w)
    case Waiting(_) => Look(s, w)
    case Ending => Look(s, w)
  }

  function WatchNext(s: State, w: Watch, m: WatchMove): Watch
    requires WatchCan(s, w, m)
  {
    match m
    case Go => GoOn(s, w)
    case ReadHost(a) =>
      var v := LastVersion(s.history[a]);
      w.(got := w.got[a := v], caught := w.caught + [Event(w.mark, Host(a, s.history[a][v]))])
    case Drop => w.(place := Dropped)
    case Reconnect => w.(place := Top, cursor := w.position)
  }

  // ---------------------------------------------------------------------------
  // All of it together
  // ---------------------------------------------------------------------------

  datatype Move =
    | ByEngine(engine: EngineMove)
    | ByFollower(stopped: Cause)
    | Open(id: nat, from: nat)
    | ByWatch(id: nat, watch: WatchMove)
    | Ask(id: nat)
    | Answer(id: nat)

  predicate Can(s: State, m: Move) {
    match m
    case ByEngine(e) => EngineCan(s, e)
    case ByFollower(_) => FollowerCan(s)
    case Open(id, _) => id !in s.watches
    case ByWatch(id, w) => id in s.watches && WatchCan(s, s.watches[id], w)
    case Ask(id) => id !in s.queries
    case Answer(id) => id in s.queries && s.queries[id].Asked?
  }

  function Next(s: State, m: Move): State
    requires Can(s, m)
  {
    match m
    case ByEngine(e) => EngineNext(s, e)
    case ByFollower(stopped) => FollowerNext(s, stopped)
    case Open(id, from) => s.(watches := s.watches[id := Opened(from)])
    case ByWatch(id, w) => s.(watches := s.watches[id := WatchNext(s, s.watches[id], w)])
    case Ask(id) => s.(queries := s.queries[id := Asked(!s.log.closed)])
    case Answer(id) => s.(queries := s.queries[id := Answered(s.queries[id].running, |s.log.entries|)])
  }

  /** A run, as the moves made; `Leads` says they were all possible and where they ended. */
  predicate Leads(s: State, moves: seq<Move>, t: State)
    decreases |moves|
  {
    if moves == [] then s == t
    else Can(s, moves[0]) && Leads(Next(s, moves[0]), moves[1..], t)
  }

  ghost predicate Reachable(t: State) {
    exists moves :: Leads(Initial(), moves, t)
  }
}
