/** What becomes of the engine's notices (src/scans.rs:662-703): which reach the follower, what they
    come to in the log, and what it means for a host to be missing. */
module ScanNotices {
  import opened Digest
  import opened Wrappers
  import opened EventLog
  import opened ScanProtocol
  import opened ScanFollower
  import opened ScanWatch
  import opened ScanRuns
  import W = ScanWitness

  // ---------------------------------------------------------------------------
  // Stages, progress and failures
  // ---------------------------------------------------------------------------

  predicate PlainBody(body: Body) { body.Stage? || body.Progress? || body.ScannerFailure? }

  /** What the log says that is neither a host nor the end. */
  function PlainBodies(entries: seq<Event>): seq<Body> {
    if entries == [] then []
    else
      var last := entries[|entries| - 1].body;
      PlainBodies(entries[..|entries| - 1]) + if PlainBody(last) then [last] else []
  }

  /** What a notice comes to in the log: a stage and where the scan stands, a failure, or nothing
      of that kind. */
  function BodiesOf(notice: Notice): seq<Body> {
    match notice
    case StageChanged(stage, done, total) => [Stage(stage), Progress(done, total)]
    case ScannerFailed(scanner, reason) => [ScannerFailure(scanner, reason)]
    case HostUpdated(_) => []
    case EventsDropped => []
  }

  function AllBodies(notices: seq<Notice>): seq<Body> {
    if notices == [] then [] else BodiesOf(notices[0]) + AllBodies(notices[1..])
  }

  /** What the follower has in hand of that kind. */
  function InHand(f: Follower): seq<Body> {
    match f
    case Pushing(bodies, _) => if bodies != [] && bodies[0].Host? then [] else bodies
    case Waking(rest) => rest
    case _ => []
  }

  function Noted(s: State): seq<Body> { PlainBodies(s.log.entries) + InHand(s.follower) }

  /** The notice the follower receives by a move, if it does. */
  function ReceivedBy(s: State, m: Move): seq<Notice> {
    if m.ByFollower? && s.follower.Receiving? && s.queue != [] then [s.queue[0]] else []
  }

  /** The notices the follower receives along a run, in order. */
  function Received(s: State, moves: seq<Move>): seq<Notice>
    decreases |moves|
  {
    if moves == [] || !Can(s, moves[0]) then []
    else ReceivedBy(s, moves[0]) + Received(Next(s, moves[0]), moves[1..])
  }

  lemma OneMorePlain(entries: seq<Event>, e: Event)
    ensures PlainBodies(entries + [e]) == PlainBodies(entries) + if PlainBody(e.body) then [e.body] else []
  {
    assert (entries + [e])[..|entries + [e]| - 1] == entries;
  }

  lemma ReceiveNotes(s: State, stopped: Cause)
    requires s.follower.Receiving? && FollowerCan(s)
    ensures Noted(Receive(s)) == Noted(s) + AllBodies(ReceivedBy(s, ByFollower(stopped)))
  {
    if s.queue != [] {
      OneNotice(s.queue[0]);
    }
  }

  lemma OneNotice(notice: Notice)
    ensures AllBodies([notice]) == BodiesOf(notice)
  {
    assert [notice][1..] == [];
  }

  lemma PlainAppended(entries: seq<Event>, number: nat, bodies: seq<Body>)
    requires bodies != [] && PlainBody(bodies[0])
    ensures PlainBodies(entries + [Event(number, bodies[0])]) + bodies[1..] == PlainBodies(entries) + bodies
  {
    OneMorePlain(entries, Event(number, bodies[0]));
    assert bodies == [bodies[0]] + bodies[1..];
  }

  lemma OtherAppended(entries: seq<Event>, number: nat, body: Body)
    requires !PlainBody(body)
    ensures PlainBodies(entries + [Event(number, body)]) == PlainBodies(entries)
  {
    OneMorePlain(entries, Event(number, body));
  }

  lemma HandIsPlain(s: State)
    requires HandOk(s) && s.follower.Pushing?
    ensures var bodies := s.follower.bodies;
      bodies != [] && if bodies[0].Host? then |bodies| == 1 else PlainBody(bodies[0])
  {
  }

  lemma AppendNotes(s: State)
    requires s.follower.Pushing? && s.follower.bodies != []
    requires if s.follower.bodies[0].Host? then |s.follower.bodies| == 1 else PlainBody(s.follower.bodies[0])
    ensures Noted(Append(s)) == Noted(s)
  {
    var bodies := s.follower.bodies;
    if bodies[0].Host? {
      OtherAppended(s.log.entries, |s.log.entries| + 1, bodies[0]);
      assert bodies[1..] == [];
    } else {
      PlainAppended(s.log.entries, |s.log.entries| + 1, bodies);
    }
  }

  lemma SayFinishedNotes(s: State)
    requires s.follower.PushingFinished?
    ensures Noted(SayFinished(s)) == Noted(s)
  {
    OtherAppended(s.log.entries, |s.log.entries| + 1, Finished(s.follower.cause));
  }

  lemma WakeNotes(s: State)
    requires HandOk(s) && s.follower.Waking?
    ensures Noted(Wake(s)) == Noted(s)
  {
    if s.follower.rest != [] {
      assert s.follower.rest[0] in s.follower.rest;
    }
  }

  lemma FetchNotes(s: State)
    requires s.follower.Got?
    ensures Noted(Fetch(s)) == Noted(s)
  {
  }

  lemma CompareNotes(s: State)
    requires s.follower.InHand? && FollowerCan(s)
    ensures Noted(Compare(s)) == Noted(s)
  {
  }

  lemma SettleNotes(s: State, stopped: Cause)
    requires Settling(s.follower) && FollowerCan(s)
    ensures Noted(Settle(s, stopped)) == Noted(s)
  {
  }

  lemma ShutDownNotes(s: State)
    requires Shutting(s.follower)
    ensures Noted(ShutDown(s)) == Noted(s)
  {
  }

  lemma FollowerNotes(s: State, stopped: Cause)
    requires HandOk(s) && FollowerCan(s)
    ensures Noted(FollowerNext(s, stopped)) == Noted(s) + AllBodies(ReceivedBy(s, ByFollower(stopped)))
  {
    assert Noted(s) + [] == Noted(s);
    match s.follower
    case Receiving => ReceiveNotes(s, stopped);
    case Got(_) => FetchNotes(s);
    case InHand(_, _) => CompareNotes(s);
    case Pushing(_, _) =>
      HandIsPlain(s);
      AppendNotes(s);
    case Waking(_) => WakeNotes(s);
    case PushingFinished(_) => SayFinishedNotes(s);
    case Drained => SettleNotes(s, stopped);
    case Joined(_) => SettleNotes(s, stopped);
    case Concluding(_) => SettleNotes(s, stopped);
    case WakingFinished => ShutDownNotes(s);
    case Closing => ShutDownNotes(s);
    case WakingClosed => ShutDownNotes(s);
    case Releasing => ShutDownNotes(s);
  }

  lemma MoveNotes(s: State, m: Move)
    requires HandOk(s) && Can(s, m)
    ensures Noted(Next(s, m)) == Noted(s) + AllBodies(ReceivedBy(s, m))
  {
    if m.ByFollower? {
      FollowerNotes(s, m.stopped);
    } else {
      OthersNote(s, m);
      assert Noted(s) + [] == Noted(s);
    }
  }

  lemma OthersNote(s: State, m: Move)
    requires Can(s, m) && !m.ByFollower?
    ensures Next(s, m).log == s.log && Next(s, m).follower == s.follower
  {
  }

  lemma {:induction false} BodiesOfConcat(a: seq<Notice>, b: seq<Notice>)
    ensures AllBodies(a + b) == AllBodies(a) + AllBodies(b)
  {
    if a == [] {
      assert a + b == b;
      assert [] + AllBodies(b) == AllBodies(b);
    } else {
      assert (a + b)[1..] == a[1..] + b;
      BodiesOfConcat(a[1..], b);
      Grouped(BodiesOf(a[0]), AllBodies(a[1..]), AllBodies(b));
    }
  }

  lemma Grouped<T>(a: seq<T>, b: seq<T>, c: seq<T>)
    ensures (a + b) + c == a + (b + c)
  {
  }

  /** Over any stretch of any run, what the log has come to say of stages, progress and failures,
      with what the follower is about to say, is what it said before and then what the notices
      received in between come to, in order. */
  lemma {:induction false} NoticesAreLogged(s: State, moves: seq<Move>, t: State)
    requires Invariant(s) && Leads(s, moves, t)
    ensures Noted(t) == Noted(s) + AllBodies(Received(s, moves))
    decreases |moves|
  {
    if moves == [] {
      assert Noted(s) + [] == Noted(s);
    } else {
      MoveNotes(s, moves[0]);
      Keeps(s, moves[0]);
      NoticesAreLogged(Next(s, moves[0]), moves[1..], t);
      var one, later := ReceivedBy(s, moves[0]), Received(Next(s, moves[0]), moves[1..]);
      BodiesOfConcat(one, later);
      Grouped(Noted(s), AllBodies(one), AllBodies(later));
    }
  }

  // Which notices are received.

  predicate Real(notice: Notice) { !notice.EventsDropped? }

  function Reals(notices: seq<Notice>): seq<Notice> {
    if notices == [] then []
    else
      var last := notices[|notices| - 1];
      Reals(notices[..|notices| - 1]) + if Real(last) then [last] else []
  }

  function AnnouncedBy(m: Move): seq<Notice> {
    if m.ByEngine? && m.engine.Announce? then [m.engine.notice] else []
  }

  /** What the engine announces along a run. */
  function Announced(moves: seq<Move>): seq<Notice> {
    if moves == [] then [] else AnnouncedBy(moves[0]) + Announced(moves[1..])
  }

  function LostBy(s: State, m: Move): nat
    requires Can(s, m)
  {
    if m.ByEngine? && m.engine.Overflow? then |Reals(s.queue[..m.engine.count])| else 0
  }

  /** How many of those in the channel are dropped along a run. */
  function Lost(s: State, moves: seq<Move>): nat
    decreases |moves|
  {
    if moves == [] || !Can(s, moves[0]) then 0 else LostBy(s, moves[0]) + Lost(Next(s, moves[0]), moves[1..])
  }

  /** All of one in the order they have in another. */
  predicate Among(a: seq<Notice>, b: seq<Notice>) {
    if b == [] then a == []
    else
      var init, last := b[..|b| - 1], b[|b| - 1];
      Among(a, init) || (a != [] && a[|a| - 1] == last && Among(a[..|a| - 1], init))
  }

  lemma {:induction false} AmongItself(a: seq<Notice>)
    ensures Among(a, a)
  {
    if a != [] {
      AmongItself(a[..|a| - 1]);
    }
  }

  lemma OneMoreAmong(a: seq<Notice>, b: seq<Notice>, n: Notice)
    requires Among(a, b)
    ensures Among(a + [n], b + [n])
  {
    assert (a + [n])[..|a + [n]| - 1] == a && (b + [n])[..|b + [n]| - 1] == b;
  }

  lemma {:induction false} FewerAmong(x: seq<Notice>, y: seq<Notice>, z: seq<Notice>, b: seq<Notice>)
    requires Among(x + y + z, b)
    ensures Among(x + z, b)
    decreases |b|
  {
    var a := x + y + z;
    if b == [] {
      assert x + z == [];
    } else if Among(a, b[..|b| - 1]) {
      FewerAmong(x, y, z, b[..|b| - 1]);
    } else if z != [] {
      assert a[..|a| - 1] == x + y + z[..|z| - 1];
      FewerAmong(x, y, z[..|z| - 1], b[..|b| - 1]);
      assert (x + z)[..|x + z| - 1] == x + z[..|z| - 1];
    } else if y != [] {
      assert a[..|a| - 1] == x + y[..|y| - 1] + z;
      FewerAmong(x, y[..|y| - 1], z, b[..|b| - 1]);
    } else {
      assert a == x + z;
    }
  }

  lemma {:induction false} RealsOfConcat(a: seq<Notice>, b: seq<Notice>)
    ensures Reals(a + b) == Reals(a) + Reals(b)
  {
    if b == [] {
      assert a + b == a;
      assert Reals(a) + [] == Reals(a);
    } else {
      assert (a + b)[..|a + b| - 1] == a + b[..|b| - 1];
      RealsOfConcat(a, b[..|b| - 1]);
    }
  }

  /** The channel so far: what was received of it and what is in it are among what was put in it,
      all but so many. */
  ghost predicate Channel(got: seq<Notice>, queue: seq<Notice>, said: seq<Notice>, lost: nat) {
    Among(Reals(got + queue), said) && |Reals(got + queue)| + lost == |said|
  }

  lemma OneMoreSaid(got: seq<Notice>, queue: seq<Notice>, said: seq<Notice>, lost: nat, n: Notice)
    requires Channel(got, queue, said, lost) && Real(n)
    ensures Channel(got, queue + [n], said + [n], lost)
  {
    assert got + (queue + [n]) == (got + queue) + [n];
    RealsOfConcat(got + queue, [n]);
    assert [n][..0] == [] && Reals([n]) == [n];
    OneMoreAmong(Reals(got + queue), said, n);
  }

  lemma OneMoreGot(got: seq<Notice>, queue: seq<Notice>, said: seq<Notice>, lost: nat)
    requires Channel(got, queue, said, lost) && queue != []
    ensures Channel(got + [queue[0]], queue[1..], said, lost)
  {
    assert got + queue == (got + [queue[0]]) + queue[1..];
  }

  lemma RealsLost(got: seq<Notice>, queue: seq<Notice>, count: nat)
    requires count <= |queue|
    ensures Reals(got + queue) == Reals(got) + Reals(queue[..count]) + Reals(queue[count..])
  {
    assert queue == queue[..count] + queue[count..];
    assert got + queue == (got + queue[..count]) + queue[count..];
    RealsOfConcat(got + queue[..count], queue[count..]);
    RealsOfConcat(got, queue[..count]);
  }

  lemma MarkerIsNotReal(got: seq<Notice>)
    ensures Reals(got + [EventsDropped]) == Reals(got)
  {
    assert (got + [EventsDropped])[..|got + [EventsDropped]| - 1] == got;
    assert Reals(got) + [] == Reals(got);
  }

  lemma RealsKept(got: seq<Notice>, kept: seq<Notice>)
    ensures Reals(got + ([EventsDropped] + kept)) == Reals(got) + Reals(kept)
  {
    Grouped(got, [EventsDropped], kept);
    MarkerIsNotReal(got);
    RealsOfConcat(got + [EventsDropped], kept);
  }

  lemma SomeLost(got: seq<Notice>, queue: seq<Notice>, said: seq<Notice>, lost: nat, count: nat)
    requires Channel(got, queue, said, lost) && count <= |queue|
    ensures Channel(got, [EventsDropped] + queue[count..], said, lost + |Reals(queue[..count])|)
  {
    RealsLost(got, queue, count);
    RealsKept(got, queue[count..]);
    FewerAmong(Reals(got), Reals(queue[..count]), Reals(queue[count..]), said);
  }

  lemma StillThere(s: State, m: Move)
    requires Can(s, m) && ReceivedBy(s, m) == [] && AnnouncedBy(m) == [] && !(m.ByEngine? && m.engine.Overflow?)
    ensures Next(s, m).queue == s.queue
  {
    if m.ByFollower? {
      StaysInChannel(s, m.stopped);
    }
  }

  lemma StaysInChannel(s: State, stopped: Cause)
    requires FollowerCan(s) && (s.follower.Receiving? ==> s.queue == [])
    ensures FollowerNext(s, stopped).queue == s.queue
  {
    if Settling(s.follower) {
      assert Settle(s, stopped).queue == s.queue;
    } else if Shutting(s.follower) {
      assert ShutDown(s).queue == s.queue;
    } else {
      HandlesInChannel(s, stopped);
    }
  }

  lemma HandlesInChannel(s: State, stopped: Cause)
    requires FollowerCan(s) && !Settling(s.follower) && !Shutting(s.follower)
    requires s.follower.Receiving? ==> s.queue == []
    ensures FollowerNext(s, stopped).queue == s.queue
  {
    match s.follower
    case Receiving => assert Receive(s).queue == s.queue;
    case Got(_) => assert Fetch(s).queue == s.queue;
    case InHand(_, _) => assert Compare(s).queue == s.queue;
    case Pushing(_, _) => assert Append(s).queue == s.queue;
    case Waking(_) => assert Wake(s).queue == s.queue;
    case PushingFinished(_) => assert SayFinished(s).queue == s.queue;
  }

  lemma EngineInChannel(s: State, e: EngineMove, got: seq<Notice>, said: seq<Notice>, lost: nat)
    requires EngineCan(s, e) && (e.Announce? || e.Overflow?) && Channel(got, s.queue, said, lost)
    ensures Channel(got, EngineNext(s, e).queue, said + AnnouncedBy(ByEngine(e)), lost + LostBy(s, ByEngine(e)))
  {
    if e.Announce? {
      OneMoreSaid(got, s.queue, said, lost, e.notice);
    } else {
      assert said + [] == said;
      SomeLost(got, s.queue, said, lost, e.count);
    }
  }

  /** What a move does to the channel. */
  lemma MoveInChannel(s: State, m: Move, got: seq<Notice>, said: seq<Notice>, lost: nat)
    requires Can(s, m) && Channel(got, s.queue, said, lost)
    ensures Channel(got + ReceivedBy(s, m), Next(s, m).queue, said + AnnouncedBy(m), lost + LostBy(s, m))
  {
    assert said + [] == said && got + [] == got;
    if m.ByEngine? && (m.engine.Announce? || m.engine.Overflow?) {
      EngineInChannel(s, m.engine, got, said, lost);
    } else if ReceivedBy(s, m) != [] {
      OneMoreGot(got, s.queue, said, lost);
    } else {
      StillThere(s, m);
    }
  }

  lemma {:induction false} RunInChannel(s: State, moves: seq<Move>, t: State, got: seq<Notice>, said: seq<Notice>, lost: nat)
    requires Leads(s, moves, t) && Channel(got, s.queue, said, lost)
    ensures Channel(got + Received(s, moves), t.queue, said + Announced(moves), lost + Lost(s, moves))
    decreases |moves|
  {
    if moves == [] {
      assert got + [] == got && said + [] == said;
    } else {
      var m, u := moves[0], Next(s, moves[0]);
      MoveInChannel(s, m, got, said, lost);
      RunInChannel(u, moves[1..], t, got + ReceivedBy(s, m), said + AnnouncedBy(m), lost + LostBy(s, m));
      Grouped(got, ReceivedBy(s, m), Received(u, moves[1..]));
      Grouped(said, AnnouncedBy(m), Announced(moves[1..]));
    }
  }

  /** What the follower has received, and what it has still to receive, is what the engine
      announced, in the order it did, all but as many as the channel dropped. */
  lemma OnlyTheDroppedAreLost(moves: seq<Move>, t: State)
    requires Leads(Initial(), moves, t)
    ensures Among(Reals(Received(Initial(), moves) + t.queue), Announced(moves))
    ensures |Reals(Received(Initial(), moves) + t.queue)| + Lost(Initial(), moves) == |Announced(moves)|
  {
    assert Channel([], [], [], 0);
    RunInChannel(Initial(), moves, t, [], [], 0);
    assert [] + Received(Initial(), moves) == Received(Initial(), moves);
    assert [] + Announced(moves) == Announced(moves);
  }

  /** So a scan that is wound up and had none dropped has every stage and every failure that was
      announced in its log, in order, and no other. */
  lemma EveryStageAndFailureIsLogged(moves: seq<Move>, t: State)
    requires Leads(Initial(), moves, t) && Rank(t.follower) > 0 && Lost(Initial(), moves) == 0
    ensures PlainBodies(t.log.entries) == AllBodies(Announced(moves))
  {
    InitiallySo();
    RunKeeps(Initial(), moves, t);
    NoticesAreLogged(Initial(), moves, t);
    OnlyTheDroppedAreLost(moves, t);
    var got := Received(Initial(), moves);
    assert got + t.queue == got;
    AllOfThem(Reals(got), Announced(moves));
    MarkersSayNothing(got);
    assert [] + AllBodies(got) == AllBodies(got);
    assert PlainBodies(t.log.entries) + [] == PlainBodies(t.log.entries);
  }

  lemma {:induction false} AmongIsFewer(a: seq<Notice>, b: seq<Notice>)
    requires Among(a, b)
    ensures |a| <= |b|
    decreases |b|
  {
    if b != [] {
      if Among(a, b[..|b| - 1]) {
        AmongIsFewer(a, b[..|b| - 1]);
      } else {
        AmongIsFewer(a[..|a| - 1], b[..|b| - 1]);
      }
    }
  }

  lemma {:induction false} AllOfThem(a: seq<Notice>, b: seq<Notice>)
    requires Among(a, b) && |a| == |b|
    ensures a == b
    decreases |b|
  {
    if b != [] {
      if Among(a, b[..|b| - 1]) {
        AmongIsFewer(a, b[..|b| - 1]);
      } else {
        AllOfThem(a[..|a| - 1], b[..|b| - 1]);
        assert a == a[..|a| - 1] + [a[|a| - 1]] && b == b[..|b| - 1] + [b[|b| - 1]];
      }
    }
  }

  lemma {:induction false} MarkersSayNothing(notices: seq<Notice>)
    ensures AllBodies(Reals(notices)) == AllBodies(notices)
  {
    if notices != [] {
      var init, last := notices[..|notices| - 1], notices[|notices| - 1];
      MarkersSayNothing(init);
      assert notices == init + [last];
      BodiesOfConcat(init, [last]);
      BodiesOfConcat(Reals(init), if Real(last) then [last] else []);
      OneNotice(last);
      assert Reals(init) + [] == Reals(init);
    }
  }

  // One notice at a time.

  const STEP := ByFollower(Completed)

  lemma Steps(s: State, moves: seq<Move>, t: State, u: State)
    requires Can(s, STEP) && t == Next(s, STEP) && Leads(t, moves, u)
    ensures Leads(s, [STEP] + moves, u)
  {
    assert ([STEP] + moves)[1..] == moves;
  }

  /** A stage begun is two entries, the stage and then where the scan stands, and the follower is
      back at its channel. */
  lemma AStageIsLogged(s: State, stage: nat, done: nat, total: nat) returns (t: State)
    requires s.follower.Receiving? && s.queue != [] && s.queue[0] == StageChanged(stage, done, total)
    ensures Leads(s, [STEP, STEP, STEP, STEP, STEP], t) && t.follower.Receiving? && t.queue == s.queue[1..]
    ensures t.log.entries == s.log.entries + [Event(|s.log.entries| + 1, Stage(stage)),
                                              Event(|s.log.entries| + 2, Progress(done, total))]
  {
    var s1 := Next(s, STEP);
    assert s1.follower == Pushing([Stage(stage), Progress(done, total)], 0) && s1.log == s.log;
    var s2, s3 := Pushed(s1);
    assert s3.follower == Pushing([Progress(done, total)], 0);
    var s4, s5 := Pushed(s3);
    t := s5;
    Steps(s4, [], s5, t);
    Steps(s3, [STEP], s4, t);
    Steps(s2, [STEP, STEP], s3, t);
    Steps(s1, [STEP, STEP, STEP], s2, t);
    Steps(s, [STEP, STEP, STEP, STEP], s1, t);
  }

  /** One entry appended and the readers woken. */
  lemma Pushed(s: State) returns (t: State, u: State)
    requires s.follower.Pushing? && s.follower.bodies != []
    ensures Can(s, STEP) && t == Next(s, STEP) && Can(t, STEP) && u == Next(t, STEP)
    ensures u.log.entries == s.log.entries + [Event(|s.log.entries| + 1, s.follower.bodies[0])]
    ensures u.follower == (if |s.follower.bodies| == 1 then Receiving else Pushing(s.follower.bodies[1..], 0))
    ensures u.queue == s.queue
  {
    t := Append(s);
    assert t.follower == Waking(s.follower.bodies[1..]);
    u := Wake(t);
  }

  /** A failure is one entry. */
  lemma AFailureIsLogged(s: State, scanner: string, reason: string) returns (t: State)
    requires s.follower.Receiving? && s.queue != [] && s.queue[0] == ScannerFailed(scanner, reason)
    ensures Leads(s, [STEP, STEP, STEP], t) && t.follower.Receiving? && t.queue == s.queue[1..]
    ensures t.log.entries == s.log.entries + [Event(|s.log.entries| + 1, ScannerFailure(scanner, reason))]
  {
    var s1 := Next(s, STEP);
    assert s1.follower == Pushing([ScannerFailure(scanner, reason)], 0) && s1.log == s.log;
    var s2, s3 := Pushed(s1);
    t := s3;
    Steps(s2, [], s3, t);
    Steps(s1, [STEP], s2, t);
    Steps(s, [STEP, STEP], s1, t);
  }

  /** That some were dropped is nothing. */
  lemma AMarkerIsPassedOver(s: State)
    requires s.follower.Receiving? && s.queue != [] && s.queue[0].EventsDropped?
    ensures Can(s, STEP) && Next(s, STEP) == s.(queue := s.queue[1..])
  {
  }

  // ---------------------------------------------------------------------------
  // Hosts whose last notice never got through
  // ---------------------------------------------------------------------------

  /** A move that loses the last notice of a host: its last one in the channel is dropped, or the
      engine hangs up owing one. */
  predicate Loses(s: State, m: Move, a: Address) {
    m.ByEngine? &&
    match m.engine
    case Overflow(count) => count <= |s.queue| && HostUpdated(a) in s.queue[..count] && HostUpdated(a) !in s.queue[count..]
    case HangUp => a in s.owed
    case _ => false
  }

  predicate Tells(m: Move, a: Address) { m == ByEngine(Announce(HostUpdated(a))) }

  lemma {:induction false} UnheardExactly(dropped: seq<Notice>, kept: seq<Notice>, a: Address)
    ensures a in Unheard(dropped, kept) <==> HostUpdated(a) in dropped && HostUpdated(a) !in kept
  {
    if dropped != [] {
      var init, last := dropped[..|dropped| - 1], dropped[|dropped| - 1];
      UnheardExactly(init, kept, a);
      assert dropped == init + [last];
    }
  }

  /** A host becomes missing by such a move and by no other, and stops being so by the next notice
      of it and by nothing else. */
  lemma MissingExactly(s: State, m: Move, a: Address)
    requires Can(s, m)
    ensures a in Next(s, m).missing <==> Loses(s, m, a) || (a in s.missing && !Tells(m, a))
  {
    if m.ByEngine? {
      EngineMisses(s, m.engine, a);
    } else if m.ByFollower? {
      FollowerMissesNone(s, m.stopped);
    }
  }

  lemma EngineMisses(s: State, e: EngineMove, a: Address)
    requires EngineCan(s, e)
    ensures a in EngineNext(s, e).missing <==>
              Loses(s, ByEngine(e), a) || (a in s.missing && !Tells(ByEngine(e), a))
  {
    if e.Overflow? {
      UnheardExactly(s.queue[..e.count], s.queue[e.count..], a);
    }
  }

  lemma FollowerMissesNone(s: State, stopped: Cause)
    requires FollowerCan(s)
    ensures FollowerNext(s, stopped).missing == s.missing
  {
    if Settling(s.follower) {
      assert Settle(s, stopped).missing == s.missing;
    } else if Shutting(s.follower) {
      assert ShutDown(s).missing == s.missing;
    } else {
      HandlingMissesNone(s, stopped);
    }
  }

  lemma HandlingMissesNone(s: State, stopped: Cause)
    requires FollowerCan(s) && !Settling(s.follower) && !Shutting(s.follower)
    ensures FollowerNext(s, stopped).missing == s.missing
  {
    match s.follower
    case Receiving => assert Receive(s).missing == s.missing;
    case Got(_) => assert Fetch(s).missing == s.missing;
    case InHand(_, _) => assert Compare(s).missing == s.missing;
    case Pushing(_, _) => assert Append(s).missing == s.missing;
    case Waking(_) => assert Wake(s).missing == s.missing;
    case PushingFinished(_) => assert SayFinished(s).missing == s.missing;
  }

  // A host that is missing at the end can be missed.

  /** A client that watched a scan with no hosts yet, up to the end of its snapshot. */
  function Early(): Watch {
    Opened(0).(phase := Caught, caught := [Event(0, Progress(0, 0))], snap := 1, place := Top,
               received := [Event(0, Progress(0, 0))])
  }

  lemma WatchesEarly()
    ensures W.Reaches(Initial(), W.With(Initial(), Early()))
  {
    var o := Initial();
    W.Stays(o);
    assert W.Reaches(o, o);
    W.Moves(o, o, Open(0, 0));
    assert Next(o, Open(0, 0)) == W.With(o, Opened(0));
    W.Goes(o, o, Opened(0), Go);
    var w1 := Opened(0).(phase := Marked);
    assert WatchNext(o, Opened(0), Go) == w1;
    W.Goes(o, o, w1, Go);
    var w2 := w1.(phase := Listing);
    assert WatchNext(o, w1, Go) == w2;
    W.Goes(o, o, w2, Go);
    var w3 := w2.(caught := [Event(0, Progress(0, 0))], phase := Caught);
    assert WatchNext(o, w2, Go) == w3;
    ShownEarly(w3);
  }

  lemma ShownEarly(w3: Watch)
    requires w3 == Opened(0).(caught := [Event(0, Progress(0, 0))], phase := Caught)
    requires W.Reaches(Initial(), W.With(Initial(), w3))
    ensures W.Reaches(Initial(), W.With(Initial(), Early()))
  {
    var o := Initial();
    W.Goes(o, o, w3, Go);
    var w4 := w3.(place := Replaying);
    assert WatchNext(o, w3, Go) == w4;
    W.Goes(o, o, w4, Go);
    var w5 := w4.(received := [Event(0, Progress(0, 0))], snap := 1);
    assert WatchNext(o, w4, Go) == w5;
    W.Goes(o, o, w5, Go);
    assert WatchNext(o, w5, Go) == Early();
  }

  /** A host found, and the notice of it dropped. */
  function Dropping(a: Address, d: Document): State { Initial().(history := map[a := [d]], missing := {a}) }

  lemma FindsAndDrops(a: Address, d: Document)
    ensures W.Reaches(Initial(), W.With(Dropping(a, d), Early()))
  {
    var o, s0 := Initial(), W.With(Initial(), Early());
    WatchesEarly();
    W.Moves(o, s0, ByEngine(Update(a, d)));
    var s1 := s0.(history := map[a := [d]], owed := {a});
    assert [] + [d] == [d];
    assert Next(s0, ByEngine(Update(a, d))) == s1;
    W.Moves(o, s1, ByEngine(Announce(HostUpdated(a))));
    var s2 := s1.(queue := [HostUpdated(a)], owed := {});
    assert Next(s1, ByEngine(Announce(HostUpdated(a)))) == s2;
    DropsIt(a, d, s2);
  }

  lemma DropsIt(a: Address, d: Document, s2: State)
    requires s2 == W.With(Initial(), Early()).(history := map[a := [d]], queue := [HostUpdated(a)])
    requires W.Reaches(Initial(), s2)
    ensures W.Reaches(Initial(), W.With(Dropping(a, d), Early()))
  {
    var o := Initial();
    W.Moves(o, s2, ByEngine(Overflow(1)));
    UnheardExactly(s2.queue[..1], s2.queue[1..], a);
    assert s2.queue[..1] == [HostUpdated(a)] && s2.queue[1..] == [];
    assert forall b :: b in Unheard(s2.queue[..1], s2.queue[1..]) ==> b == a;
    var s3 := s2.(queue := [EventsDropped], missing := {a});
    assert Next(s2, ByEngine(Overflow(1))) == s3;
    W.Moves(o, s3, ByFollower(Completed));
    assert Next(s3, ByFollower(Completed)) == W.With(Dropping(a, d), Early());
  }

  /** What convergence asks of a host it has to ask: the notice of any host may be dropped, no
      other follow, and a client with its whole snapshot and the log to its end, `finished` and
      all, never be told of it. */
  lemma ADroppedHostIsMissed(a: Address, d: Document) returns (t: State)
    ensures Reachable(t) && a in t.missing && Current(t.history, a) == Some(d)
    ensures 0 in t.watches && t.watches[0].place.Ended? && t.watches[0].snap == |t.watches[0].caught|
    ensures t.watches[0].position == |t.log.entries| && HeardFinished(t.watches[0].received)
    ensures LastDocument(t.watches[0].received, a) == None
  {
    var s, w := Dropping(a, d), Early();
    FindsAndDrops(a, d);
    W.ScanEnds(Initial(), s, w);
    var over := W.Complete(s);
    assert over.log.entries == [Event(1, Finished(Completed))];
    W.ReadsTheLastEntry(Initial(), over, w);
    t := W.With(over, w.(place := Ended, cursor := 1, position := 1, received := w.received + [over.log.entries[0]],
                         readAt := 1, closedAtRead := true));
    NeverMentioned(w.received, over.log.entries[0], a);
  }

  lemma NeverMentioned(shown: seq<Event>, last: Event, a: Address)
    requires |shown| == 1 && shown[0].body.Progress? && last.body.Finished?
    ensures LastDocument(shown + [last], a) == None && HeardFinished(shown + [last])
  {
    assert (shown + [last])[..1] == shown && shown[..0] == [];
    assert LastDocument(shown, a) == LastDocument(shown[..0], a);
    assert (shown + [last])[1] == last;
  }
}
