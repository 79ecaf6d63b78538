/** One scan and one connection together, from the store to the client's map of hosts
    (src/scans.rs:142-254, 653-727; src/stdio.rs:83-189, 345-409; examples/scan.ts:49-170).

    Fixed are one question of the connection, `k`, and the watch that answers it, `id`: a watch
    from nothing. Its task's moves in the two machines are the same moves here: what it decides
    to write is what the watch has to tell next, and a frame written whole is a frame told. Every
    other question of the connection and every other watch of the scan moves as it likes. */
module EndToEnd {
  import opened EventLog
  import opened Wrappers
  import F = ScanFollower
  import P = ScanProtocol
  import R = ScanRuns
  import W = ScanWatch
  import V = ScanConverges
  import X = ScanWitness
  import opened Speak
  import opened SpeakRuns
  import opened Client
  import opened Conversation

  datatype Whole = Whole(scan: P.State, talk: Talk)

  const BEGIN := Whole(P.Initial(), START)

  // ---------------------------------------------------------------------------
  // What the watch has to tell next
  // ---------------------------------------------------------------------------

  /** Whether the next move of a watch is a frame. */
  predicate Telling(w: P.Watch) {
    (w.place.Replaying? && w.snap < |w.caught|) || (w.place.Sending? && w.place.batch != []) || w.place.Ending?
  }

  function NextSaying(w: P.Watch): Saying
    requires Telling(w)
  {
    match w.place
    case Replaying => Happened(w.caught[w.snap])
    case Sending(batch) => Happened(batch[0])
    case _ => End
  }

  // ---------------------------------------------------------------------------
  // Steps
  // ---------------------------------------------------------------------------

  datatype Joint =
    | ByScan(move: P.Move)          // anybody in the scan but this watch
    | ByTalk(step: Step)            // anybody on the connection, but for deciding on a frame of `k` or its last byte
    | Begins                        // stdio.rs:359-366, the scan found
    | Refuses(frame: Frame)         // stdio.rs:354-362
    | Looks(watch: P.WatchMove)     // a move of the watch that writes nothing
    | Says(frame: Frame)            // stdio.rs:379, 391, 395, a frame to write
    | Said(count: nat)              // and its last bytes out

  predicate OfWatch(m: P.Move, id: nat) { (m.ByWatch? || m.Open?) && m.id == id }

  predicate OfLine(t: Talk, x: Step, k: nat) {
    x.Moves? && (x.move.Decide? || Completes(t.daemon, x.move)) && x.move.line == k
  }

  predicate Free(t: Talk, k: nat) { k in t.daemon.stages && t.daemon.stages[k].Thinking? }

  predicate Able(k: nat, id: nat, s: Whole, j: Joint) {
    match j
    case ByScan(m) => P.Can(s.scan, m) && !OfWatch(m, id)
    case ByTalk(x) => May(s.talk, x) && !OfLine(s.talk, x, k)
    case Begins =>
      id !in s.scan.watches && Free(s.talk, k) && k < |s.talk.client.asked|
      && s.talk.client.asked[k].Ask? && s.talk.client.asked[k].watching
    case Refuses(frame) =>
      id !in s.scan.watches && frame.saying.Refusal? && May(s.talk, Moves(Decide(k, frame)))
    case Looks(m) =>
      id in s.scan.watches && Free(s.talk, k) && (m.Go? || m.ReadHost?)
      && P.WatchCan(s.scan, s.scan.watches[id], m) && !Telling(s.scan.watches[id])
    case Says(frame) =>
      id in s.scan.watches && Telling(s.scan.watches[id]) && frame.saying == NextSaying(s.scan.watches[id])
      && May(s.talk, Moves(Decide(k, frame)))
    case Said(count) =>
      May(s.talk, Moves(Write(k, count))) && Completes(s.talk.daemon, Write(k, count))
      && (id in s.scan.watches ==> P.WatchCan(s.scan, s.scan.watches[id], P.Go))
  }

  function Done(k: nat, id: nat, s: Whole, j: Joint): Whole
    requires Able(k, id, s, j)
  {
    match j
    case ByScan(m) => s.(scan := P.Next(s.scan, m))
    case ByTalk(x) => s.(talk := Stepped(s.talk, x))
    case Begins => s.(scan := P.Next(s.scan, P.Open(id, 0)))
    case Refuses(frame) => s.(talk := Stepped(s.talk, Moves(Decide(k, frame))))
    case Looks(m) => s.(scan := P.Next(s.scan, P.ByWatch(id, m)))
    case Says(frame) => s.(talk := Stepped(s.talk, Moves(Decide(k, frame))))
    case Said(count) =>
      Whole(if id in s.scan.watches then P.Next(s.scan, P.ByWatch(id, P.Go)) else s.scan,
            Stepped(s.talk, Moves(Write(k, count))))
  }

  predicate Comes(k: nat, id: nat, s: Whole, joints: seq<Joint>, t: Whole)
    decreases |joints|
  {
    if joints == [] then s == t
    else Able(k, id, s, joints[0]) && Comes(k, id, Done(k, id, s, joints[0]), joints[1..], t)
  }

  ghost predicate Arises(k: nat, id: nat, t: Whole) {
    exists joints :: Comes(k, id, BEGIN, joints, t)
  }

  // ---------------------------------------------------------------------------
  // Each half is a run of its own machine
  // ---------------------------------------------------------------------------

  lemma {:induction false} GoesFurther(t: Talk, steps: seq<Step>, u: Talk, x: Step)
    requires Goes(t, steps, u) && May(u, x)
    ensures Goes(t, steps + [x], Stepped(u, x))
    decreases |steps|
  {
    if steps == [] {
      assert steps + [x] == [x];
      assert [x][1..] == [];
    } else {
      GoesFurther(Stepped(t, steps[0]), steps[1..], u, x);
      assert (steps + [x])[1..] == steps[1..] + [x];
    }
  }

  lemma TalkHappens(t: Talk, x: Step)
    requires Happens(t) && May(t, x)
    ensures Happens(Stepped(t, x))
  {
    var steps :| Goes(START, steps, t);
    GoesFurther(START, steps, t, x);
  }

  lemma HalvesHappen(k: nat, id: nat, s: Whole, j: Joint)
    requires P.Reachable(s.scan) && Happens(s.talk) && Able(k, id, s, j)
    ensures P.Reachable(Done(k, id, s, j).scan) && Happens(Done(k, id, s, j).talk)
  {
    match j
    case ByScan(m) => X.ReachesOn(s.scan, m);
    case ByTalk(x) => TalkHappens(s.talk, x);
    case Begins => X.ReachesOn(s.scan, P.Open(id, 0));
    case Refuses(frame) => TalkHappens(s.talk, Moves(Decide(k, frame)));
    case Looks(m) => X.ReachesOn(s.scan, P.ByWatch(id, m));
    case Says(frame) => TalkHappens(s.talk, Moves(Decide(k, frame)));
    case Said(count) =>
      TalkHappens(s.talk, Moves(Write(k, count)));
      if id in s.scan.watches {
        X.ReachesOn(s.scan, P.ByWatch(id, P.Go));
      }
  }

  // ---------------------------------------------------------------------------
  // The two halves stay in step
  // ---------------------------------------------------------------------------

  function FramesOf(t: Talk, k: nat): seq<Frame> { Own(t.daemon.sent, k) }

  ghost predicate OnlyRefused(frames: seq<Frame>) {
    forall f :: f in frames ==> f.saying.Refusal?
  }

  /** No watch yet: nothing but a refusal is said or on its way. */
  ghost predicate Unwatched(t: Talk, k: nat) {
    && OnlyRefused(FramesOf(t, k))
    && (k in t.daemon.stages ==> RefusalLink(t.daemon.stages[k], FramesOf(t, k)))
  }

  predicate RefusalLink(stage: Stage, frames: seq<Frame>) {
    match stage
    case Thinking(_) => frames == []
    case Wants(frame) => frame.saying.Refusal?
    case Holding(frame, _) => frame.saying.Refusal?
    case Finished => true
  }

  predicate AfterLink(stage: Stage, w: P.Watch, frames: seq<Frame>) {
    if stage.Finished? then w.place.Ended? && frames != [] && frames[|frames| - 1].saying.End?
    else !w.place.Ended?
  }

  /** A frame on its way is the one the watch stands at; a task that is done has said so. */
  predicate StageLink(stage: Stage, w: P.Watch, frames: seq<Frame>) {
    match stage
    case Thinking(_) => AfterLink(stage, w, frames)
    case Wants(frame) => Telling(w) && frame.saying == NextSaying(w)
    case Holding(frame, written) =>
      if written <= |frame.text| then Telling(w) && frame.saying == NextSaying(w)
      else AfterLink(Released(frame), w, frames)
    case Finished => AfterLink(stage, w, frames)
  }

  /** A watch whose connection stands has told its snapshot whole before it goes on to the tail. */
  predicate Straight(w: P.Watch) {
    w.from == 0 && !w.place.Dropped? && (!w.place.Snapshotting? && !w.place.Replaying? ==> w.snap == |w.caught|)
  }

  predicate WatchedBy(line: Line, stage: Stage, frames: seq<Frame>, w: P.Watch) {
    && line.Ask? && line.watching && Straight(w)
    && EventsIn(frames) == w.received
    && StageLink(stage, w, frames)
  }

  ghost predicate Watched(t: Talk, k: nat, w: P.Watch) {
    && k in t.daemon.stages && k < |t.client.asked|
    && WatchedBy(t.client.asked[k], t.daemon.stages[k], FramesOf(t, k), w)
  }

  ghost predicate InStep(k: nat, id: nat, s: Whole) {
    if id in s.scan.watches then Watched(s.talk, k, s.scan.watches[id]) else Unwatched(s.talk, k)
  }

  // Moves of everybody else.

  lemma OthersLeaveIt(s: P.State, m: P.Move, id: nat)
    requires P.Can(s, m) && !OfWatch(m, id)
    ensures id in P.Next(s, m).watches <==> id in s.watches
    ensures id in s.watches ==> P.Next(s, m).watches[id] == s.watches[id]
  {
  }

  /** The lock taken, some bytes short of the last, or the lock given back. */
  predicate SameFrame(a: Stage, b: Stage) {
    || a == b
    || (a.Wants? && b == Holding(a.frame, 0))
    || (a.Holding? && b.Holding? && a.frame == b.frame && a.written <= b.written <= |a.frame.text|)
    || (a.Holding? && a.written > |a.frame.text| && b == Released(a.frame))
  }

  ghost predicate LineStands(t: Talk, u: Talk, k: nat) {
    && FramesOf(u, k) == FramesOf(t, k)
    && (k in t.daemon.stages ==> k in u.daemon.stages && SameFrame(t.daemon.stages[k], u.daemon.stages[k]))
    && (k !in t.daemon.stages ==> FramesOf(t, k) == [])
    && (k !in t.daemon.stages && k in u.daemon.stages ==> u.daemon.stages[k] == Thinking(false))
    && t.client.asked <= u.client.asked
  }

  lemma NothingUnread(lines: seq<Line>, s: State, k: nat)
    requires Invariant(lines, s)
    ensures k !in s.stages ==> Own(s.sent, k) == []
    ensures s.at !in s.stages
  {
  }

  lemma OwnElsewhere(lines: seq<Line>, s: State, m: Move, k: nat)
    requires Can(lines, s, m) && !(Completes(s, m) && m.line == k)
    ensures Own(Next(lines, s, m).sent, k) == Own(s.sent, k)
  {
    if Completes(s, m) {
      OwnAtLast(lines, s, m, k);
      assert Own(s.sent, k) + [] == Own(s.sent, k);
    }
  }

  lemma MoveLeavesLine(t: Talk, m: Move, k: nat)
    requires k !in t.daemon.stages ==> FramesOf(t, k) == []
    requires t.daemon.at !in t.daemon.stages
    requires May(t, Moves(m)) && !OfLine(t, Moves(m), k)
    ensures LineStands(t, Stepped(t, Moves(m)), k)
  {
    OwnElsewhere(t.client.asked, t.daemon, m, k);
  }

  lemma AskedOnlyGrows(c: ClientState, watching: bool, frame: Frame)
    ensures c.asked <= Asking(c, watching).asked && OnLine(c, frame).asked == c.asked
  {
  }

  lemma ClientLeavesLine(t: Talk, x: Step, k: nat)
    requires k !in t.daemon.stages ==> FramesOf(t, k) == []
    requires May(t, x) && !x.Moves?
    ensures LineStands(t, Stepped(t, x), k)
  {
    var u := Stepped(t, x);
    assert u.daemon == t.daemon;
    AskedOnlyGrows(t.client, x.Asks? && x.watching, if x.Takes? then t.daemon.sent[t.got].frame else Frame(Null, End, ""));
  }

  lemma TalkLeavesLine(t: Talk, x: Step, k: nat)
    requires TalkOk(t) && May(t, x) && !OfLine(t, x, k)
    ensures LineStands(t, Stepped(t, x), k)
  {
    NothingUnread(t.client.asked, t.daemon, k);
    if x.Moves? {
      MoveLeavesLine(t, x.move, k);
    } else {
      ClientLeavesLine(t, x, k);
    }
  }

  lemma LinkStands(a: Stage, b: Stage, w: P.Watch, frames: seq<Frame>)
    requires SameFrame(a, b) && StageLink(a, w, frames)
    ensures StageLink(b, w, frames)
  {
  }

  lemma StandingKeeps(s: Whole, u: Talk, k: nat, id: nat)
    requires InStep(k, id, s) && LineStands(s.talk, u, k)
    ensures InStep(k, id, s.(talk := u))
  {
    if id in s.scan.watches {
      LinkStands(s.talk.daemon.stages[k], u.daemon.stages[k], s.scan.watches[id], FramesOf(s.talk, k));
    }
  }

  // Moves of the watch's own task.

  lemma BeginsInStep(k: nat, id: nat, s: Whole)
    requires InStep(k, id, s) && Able(k, id, s, Begins)
    ensures InStep(k, id, Done(k, id, s, Begins))
  {
  }

  lemma LooksQuietly(s: P.State, w: P.Watch, m: P.WatchMove)
    requires W.WatchOk(s, w) && Straight(w) && P.WatchCan(s, w, m) && (m.Go? || m.ReadHost?) && !Telling(w)
    ensures var v := P.WatchNext(s, w, m);
      Straight(v) && v.received == w.received && (w.place.Ended? <==> v.place.Ended?)
  {
  }

  lemma WatchMoved(k: nat, id: nat, s: P.State, m: P.WatchMove, t: Talk)
    requires id in s.watches && P.WatchCan(s, s.watches[id], m)
    requires Watched(t, k, P.WatchNext(s, s.watches[id], m))
    ensures InStep(k, id, Whole(P.Next(s, P.ByWatch(id, m)), t))
  {
  }

  lemma LooksInStep(k: nat, id: nat, s: Whole, m: P.WatchMove)
    requires P.Reachable(s.scan) && InStep(k, id, s) && Able(k, id, s, Looks(m))
    ensures InStep(k, id, Done(k, id, s, Looks(m)))
  {
    R.Everywhere(s.scan);
    LookedInStep(s.scan, s.scan.watches[id], s.talk, k, m);
    WatchMoved(k, id, s.scan, m, s.talk);
  }

  lemma LookedInStep(s: P.State, w: P.Watch, t: Talk, k: nat, m: P.WatchMove)
    requires W.WatchOk(s, w) && P.WatchCan(s, w, m) && (m.Go? || m.ReadHost?) && !Telling(w)
    requires Watched(t, k, w) && Free(t, k)
    ensures Watched(t, k, P.WatchNext(s, w, m))
  {
    LooksQuietly(s, w, m);
  }

  /** Telling is one frame and the watch one on. */
  lemma TellsOne(s: P.State, w: P.Watch)
    requires W.WatchOk(s, w) && Straight(w) && Telling(w) && P.WatchCan(s, w, P.Go)
    ensures var v, saying := P.WatchNext(s, w, P.Go), NextSaying(w);
      && Straight(v)
      && (if saying.Happened? then v.received == w.received + [saying.event] && !v.place.Ended?
          else saying.End? && v.received == w.received && v.place.Ended?)
  {
  }

  lemma OneMoreHappened(frames: seq<Frame>, frame: Frame)
    ensures EventsIn(frames + [frame]) == EventsIn(frames) + if frame.saying.Happened? then [frame.saying.event] else []
  {
    assert (frames + [frame])[..|frames + [frame]| - 1] == frames;
  }

  /** A frame written whole is the next of its line. */
  lemma SaysOne(t: Talk, k: nat, count: nat)
    requires May(t, Moves(Write(k, count))) && Completes(t.daemon, Write(k, count))
    ensures FramesOf(Stepped(t, Moves(Write(k, count))), k) == FramesOf(t, k) + [t.daemon.stages[k].frame]
  {
    OwnAtLast(t.client.asked, t.daemon, Write(k, count), k);
  }

  lemma SaidLink(line: Line, frame: Frame, frames: seq<Frame>, w: P.Watch, v: P.Watch)
    requires line.Ask? && line.watching && Straight(v) && EventsIn(frames) == w.received
    requires if frame.saying.Happened? then v.received == w.received + [frame.saying.event] && !v.place.Ended?
             else frame.saying.End? && v.received == w.received && v.place.Ended?
    ensures WatchedBy(line, Holding(frame, |Bytes(frame)|), frames + [frame], v)
  {
    OneMoreHappened(frames, frame);
    assert EventsIn(frames) + [] == EventsIn(frames);
  }

  lemma ToldInStep(s: P.State, w: P.Watch, t: Talk, k: nat, count: nat)
    requires W.WatchOk(s, w) && P.WatchCan(s, w, P.Go) && Watched(t, k, w)
    requires May(t, Moves(Write(k, count))) && Completes(t.daemon, Write(k, count))
    ensures Watched(Stepped(t, Moves(Write(k, count))), k, P.WatchNext(s, w, P.Go))
  {
    var frame := t.daemon.stages[k].frame;
    TellsOne(s, w);
    SaidLink(t.client.asked[k], frame, FramesOf(t, k), w, P.WatchNext(s, w, P.Go));
    SaysOne(t, k, count);
    assert Stepped(t, Moves(Write(k, count))).daemon.stages[k] == Holding(frame, |Bytes(frame)|);
  }

  lemma RefusedInStep(t: Talk, k: nat, count: nat)
    requires Unwatched(t, k) && May(t, Moves(Write(k, count))) && Completes(t.daemon, Write(k, count))
    ensures Unwatched(Stepped(t, Moves(Write(k, count))), k)
  {
    SaysOne(t, k, count);
  }

  lemma SaidInStep(k: nat, id: nat, s: Whole, count: nat)
    requires P.Reachable(s.scan) && InStep(k, id, s) && Able(k, id, s, Said(count))
    ensures InStep(k, id, Done(k, id, s, Said(count)))
  {
    if id in s.scan.watches {
      R.Everywhere(s.scan);
      ToldInStep(s.scan, s.scan.watches[id], s.talk, k, count);
      WatchMoved(k, id, s.scan, P.Go, Stepped(s.talk, Moves(Write(k, count))));
    } else {
      RefusedInStep(s.talk, k, count);
    }
  }

  lemma ScanMoveInStep(k: nat, id: nat, s: Whole, m: P.Move)
    requires InStep(k, id, s) && Able(k, id, s, ByScan(m))
    ensures InStep(k, id, Done(k, id, s, ByScan(m)))
  {
    OthersLeaveIt(s.scan, m, id);
  }

  lemma TalkStepInStep(k: nat, id: nat, s: Whole, x: Step)
    requires Able(k, id, s, ByTalk(x)) && LineStands(s.talk, Stepped(s.talk, x), k) && InStep(k, id, s)
    ensures InStep(k, id, Done(k, id, s, ByTalk(x)))
  {
    StandingKeeps(s, Stepped(s.talk, x), k, id);
  }

  lemma DecidesInStep(k: nat, id: nat, s: Whole, j: Joint)
    requires InStep(k, id, s) && Able(k, id, s, j) && (j.Refuses? || j.Says?)
    ensures InStep(k, id, Done(k, id, s, j))
  {
  }

  lemma KeepsInStep(k: nat, id: nat, s: Whole, j: Joint)
    requires P.Reachable(s.scan) && Happens(s.talk) && InStep(k, id, s) && Able(k, id, s, j)
    ensures InStep(k, id, Done(k, id, s, j))
  {
    AnyTalk(s.talk);
    match j
    case ByScan(m) => ScanMoveInStep(k, id, s, m);
    case ByTalk(x) =>
      TalkLeavesLine(s.talk, x, k);
      TalkStepInStep(k, id, s, x);
    case Begins => BeginsInStep(k, id, s);
    case Refuses(frame) => DecidesInStep(k, id, s, j);
    case Looks(m) => LooksInStep(k, id, s, m);
    case Says(frame) => DecidesInStep(k, id, s, j);
    case Said(count) => SaidInStep(k, id, s, count);
  }

  lemma {:induction false} ComesInStep(k: nat, id: nat, s: Whole, joints: seq<Joint>, t: Whole)
    requires P.Reachable(s.scan) && Happens(s.talk) && InStep(k, id, s) && Comes(k, id, s, joints, t)
    ensures P.Reachable(t.scan) && Happens(t.talk) && InStep(k, id, t)
    decreases |joints|
  {
    if joints != [] {
      HalvesHappen(k, id, s, joints[0]);
      KeepsInStep(k, id, s, joints[0]);
      ComesInStep(k, id, Done(k, id, s, joints[0]), joints[1..], t);
    }
  }

  lemma AlwaysInStep(k: nat, id: nat, t: Whole)
    requires Arises(k, id, t)
    ensures P.Reachable(t.scan) && Happens(t.talk) && InStep(k, id, t)
  {
    assert P.Leads(P.Initial(), [], P.Initial());
    assert Goes(START, [], START);
    var joints :| Comes(k, id, BEGIN, joints, t);
    ComesInStep(k, id, BEGIN, joints, t);
  }

  predicate OfLock(m: Move) { m.Lock? || m.Write? || m.Unlock? }

  /** A step of the watch's own task. */
  predicate OfTask(j: Joint, k: nat) {
    j.Looks? || j.Says? || j.Said?
    || (j.ByTalk? && j.step.Moves? && OfLock(j.step.move) && j.step.move.line == k)
  }

  lemma WriterCanStep(k: nat, id: nat, s: Whole) returns (j: Joint)
    requires id in s.scan.watches && Held(s.talk.daemon, k)
    requires s.talk.daemon.stages[k].written <= |Bytes(s.talk.daemon.stages[k].frame)|
    requires s.talk.daemon.stages[k].written < |Bytes(s.talk.daemon.stages[k].frame)| ==>
      P.WatchCan(s.scan, s.scan.watches[id], P.Go)
    ensures Able(k, id, s, j) && OfTask(j, k)
  {
    var stage := s.talk.daemon.stages[k];
    j := if stage.written == |Bytes(stage.frame)| then ByTalk(Moves(Unlock(k)))
         else if stage.written + 1 == |Bytes(stage.frame)| then Said(1)
         else ByTalk(Moves(Write(k, 1)));
  }

  /** A move of the watch's own that the scan allows it. */
  predicate Allows(s: P.State, w: P.Watch, m: P.WatchMove) {
    (m.Go? || m.ReadHost?) && P.WatchCan(s, w, m)
  }

  lemma TellersCanGo(s: P.State, w: P.Watch)
    requires Telling(w)
    ensures P.WatchCan(s, w, P.Go)
  {
  }

  lemma ThinkerCanStep(k: nat, id: nat, s: Whole, m: P.WatchMove) returns (j: Joint)
    requires id in s.scan.watches && Allows(s.scan, s.scan.watches[id], m) && Free(s.talk, k)
    requires k < |s.talk.client.asked| && s.talk.client.asked[k].Ask? && s.talk.client.asked[k].watching
    ensures Able(k, id, s, j) && OfTask(j, k)
  {
    var w := s.scan.watches[id];
    j := if Telling(w) then Says(Frame(LabelOf(s.talk.client.asked[k]), NextSaying(w), "")) else Looks(m);
  }

  lemma LockerCanStep(k: nat, id: nat, s: Whole) returns (j: Joint)
    requires k in s.talk.daemon.stages && s.talk.daemon.stages[k].Wants? && Idle(s.talk.daemon)
    ensures Able(k, id, s, j) && OfTask(j, k)
  {
    j := ByTalk(Moves(Lock(k)));
  }

  lemma TaskCanStep(k: nat, id: nat, s: Whole, m: P.WatchMove) returns (j: Joint)
    requires TalkOk(s.talk) && InStep(k, id, s) && id in s.scan.watches && Allows(s.scan, s.scan.watches[id], m)
    requires forall other :: Held(s.talk.daemon, other) ==> other == k
    ensures Able(k, id, s, j) && OfTask(j, k)
  {
    if s.talk.daemon.stages[k].Thinking? {
      j := ThinkerCanStep(k, id, s, m);
    } else if s.talk.daemon.stages[k].Wants? {
      j := LockerCanStep(k, id, s);
    } else if s.talk.daemon.stages[k].Holding? {
      assert Partly(s.talk.daemon, k);
      if Telling(s.scan.watches[id]) {
        TellersCanGo(s.scan, s.scan.watches[id]);
      }
      j := WriterCanStep(k, id, s);
    }
  }

  /** Running the two together holds the watch's task back by nothing of its own: it can move
      whenever the scan lets its watch move and nobody else has the output. */
  lemma NothingElseHoldsItBack(k: nat, id: nat, s: Whole, m: P.WatchMove) returns (j: Joint)
    requires Arises(k, id, s) && id in s.scan.watches && Allows(s.scan, s.scan.watches[id], m)
    requires forall other :: Held(s.talk.daemon, other) ==> other == k
    ensures Able(k, id, s, j) && OfTask(j, k)
  {
    AlwaysInStep(k, id, s);
    AnyTalk(s.talk);
    j := TaskCanStep(k, id, s, m);
  }

  // ---------------------------------------------------------------------------
  // What that comes to
  // ---------------------------------------------------------------------------

  lemma EventsDoNotSettle(line: Line, frames: seq<Frame>, n: nat)
    requires EventsOf(line, frames) && n <= |frames|
    ensures SettledBy(frames[..n]) == []
  {
    EventsSettleNothing(line, frames[..n]);
  }

  /** Of a line's frames only the last settles anything. */
  lemma OnlyTheLastSettles(line: Line, frames: seq<Frame>, n: nat)
    requires Answered(line, frames) && n < |frames|
    ensures SettledBy(frames[..n]) == []
  {
    assert frames[..|frames| - 1][..n] == frames[..n];
    EventsDoNotSettle(line, frames[..|frames| - 1], n);
  }

  lemma SettledIsAnswer(line: Line, own: seq<Frame>, n: nat, answered: bool)
    requires n <= |own| && SettledBy(own[..n]) != []
    requires if answered then Answered(line, own) else EventsOf(line, own)
    ensures answered && n == |own|
  {
    if !answered {
      EventsDoNotSettle(line, own, n);
    } else if n < |own| {
      OnlyTheLastSettles(line, own, n);
    }
  }

  /** The line's answer is out, its writer done with the output or not. */
  predicate HasAnswered(s: State, k: nat) {
    k in s.stages &&
    (s.stages[k].Finished?
     || (s.stages[k].Holding? && s.stages[k].written > |s.stages[k].frame.text| && !s.stages[k].frame.saying.Happened?))
  }

  lemma AnsweredOrNot(lines: seq<Line>, s: State, k: nat)
    requires Invariant(lines, s) && k < |lines|
    ensures if HasAnswered(s, k) then Answered(lines[k], Own(s.sent, k)) else EventsOf(lines[k], Own(s.sent, k))
  {
    if k in s.stages {
      assert StageOk(lines[k], s.stages[k], Own(s.sent, k));
    }
  }

  /** A promise that settled took its line's one answer, which is the last of its line. */
  lemma SettledHasAll(u: Talk, k: nat)
    requires TalkOk(u) && FollowsAll(u) && k < |u.client.asked| && u.client.settled[k + 1] != []
    ensures Taken(u, k) == FramesOf(u, k)
    ensures HasAnswered(u.daemon, k) && Answered(u.client.asked[k], FramesOf(u, k))
  {
    var line, own, n := u.client.asked[k], FramesOf(u, k), |Taken(u, k)|;
    assert Follows(u.client, k, Taken(u, k));
    OwnIsPrefix(u.daemon.sent, u.got, k);
    assert Taken(u, k) == own[..n];
    AnsweredOrNot(u.client.asked, u.daemon, k);
    SettledIsAnswer(line, own, n, HasAnswered(u.daemon, k));
    assert own[..|own|] == own;
  }

  lemma ResolvedAnswer(c: ClientState, k: nat, own: seq<Frame>)
    requires Sound(c) && k < |c.asked| && c.asked[k].watching && Follows(c, k, own) && Answered(c.asked[k], own)
    requires c.settled[k + 1] != [] && c.settled[k + 1][0].Resolved?
    ensures !own[|own| - 1].saying.Refusal? && c.heard[k + 1] == EventsIn(own)
  {
    AnsweredSettlesOnce(c.asked[k], own);
  }

  lemma AnsweredIsTold(k: nat, id: nat, s: Whole)
    requires InStep(k, id, s) && HasAnswered(s.talk.daemon, k)
    requires FramesOf(s.talk, k) != [] && !FramesOf(s.talk, k)[|FramesOf(s.talk, k)| - 1].saying.Refusal?
    ensures id in s.scan.watches && s.scan.watches[id].place.Ended? && Straight(s.scan.watches[id])
    ensures EventsIn(FramesOf(s.talk, k)) == s.scan.watches[id].received
  {
    var own := FramesOf(s.talk, k);
    assert own[|own| - 1] in own;
  }

  lemma ResolvedIsTold(k: nat, id: nat, u: Whole)
    requires TalkOk(u.talk) && FollowsAll(u.talk) && InStep(k, id, u) && k < |u.talk.client.asked|
    requires u.talk.client.settled[k + 1] != [] && u.talk.client.settled[k + 1][0].Resolved?
    requires u.talk.client.asked[k].watching
    ensures id in u.scan.watches && u.scan.watches[id].place.Ended? && Straight(u.scan.watches[id])
    ensures u.talk.client.heard[k + 1] == u.scan.watches[id].received
  {
    assert Follows(u.talk.client, k, Taken(u.talk, k));
    SettledHasAll(u.talk, k);
    ResolvedAnswer(u.talk.client, k, FramesOf(u.talk, k));
    AnsweredIsTold(k, id, u);
  }

  /** A promise of a watch that resolved means the scan's watch has come to its end, the log is
      closed, and the client has heard all that was told. */
  lemma ResolvedHasEnded(k: nat, id: nat, u: Whole)
    requires Arises(k, id, u) && k < |u.talk.client.asked|
    requires k + 1 in u.talk.client.settled && k + 1 in u.talk.client.heard
    requires |u.talk.client.settled[k + 1]| > 0 && u.talk.client.settled[k + 1][0].Resolved?
    requires u.talk.client.asked[k].Ask? && u.talk.client.asked[k].watching
    ensures id in u.scan.watches && u.scan.watches[id].place.Ended? && Straight(u.scan.watches[id])
    ensures u.scan.log.closed && u.talk.client.heard[k + 1] == u.scan.watches[id].received
  {
    AlwaysInStep(k, id, u);
    AnyTalk(u.talk);
    ResolvedIsTold(k, id, u);
    R.EndIsAlmostTheEnd(u.scan, id);
  }

  /** A closed log has nothing left to say. */
  lemma ClosedIsQuiet(t: P.State)
    requires P.Reachable(t) && t.log.closed
    ensures R.Quiet(t)
  {
    R.Everywhere(t);
    R.WoundUpIsQuiet(t);
  }

  /** A client that watched from nothing was last told the number it has got to. */
  lemma LastNumberIsPosition(s: P.State, w: P.Watch)
    requires F.LogOk(s) && W.WatchOk(s, w) && w.from == 0 && w.received != []
    ensures w.received[|w.received| - 1].number == w.position
  {
    if w.position == w.base {
      assert w.received == w.caught[..w.snap];
      assert w.caught[w.snap - 1] in w.caught;
    }
  }

  /** What tells a client that it has the log to its end: the `finished` event, or, when it
      came after that was said, the number a `get` gives for a scan that is over. */
  ghost predicate SeesTheEnd(heard: seq<Event>, final: nat) {
    R.HeardFinished(heard) || (heard != [] && heard[|heard| - 1].number == final)
  }

  lemma SeenIsReached(t: P.State, id: nat)
    requires P.Reachable(t) && id in t.watches && t.watches[id].place.Ended? && t.watches[id].from == 0
    requires SeesTheEnd(t.watches[id].received, |t.log.entries|)
    ensures t.watches[id].position == |t.log.entries|
  {
    R.Everywhere(t);
    R.EndIsAlmostTheEnd(t, id);
    var w := t.watches[id];
    assert W.WatchOk(t, w);
    if R.HeardFinished(w.received) {
      var last :| last in w.received && last.body.Finished?;
      R.FinishedMeansAll(t, id, last);
    } else {
      LastNumberIsPosition(t, w);
    }
  }

  /** A host whose last notice got through, and that never left a document with the digest of its
      last one. */
  ghost predicate Followed(scan: P.State, a: Address) {
    a !in scan.missing && (a in scan.history ==> scan.history[a] == [] || V.Settles(scan.history[a]))
  }

  /** From the store to the client. Whatever the engine, the follower, the other watches, the
      other questions and the pipe do in the meantime: a client that asked to watch a scan from
      nothing, whose promise has resolved, and that has seen the end, has in its map exactly what
      the scan's store holds of every host that could be followed. All that is asked of the client
      it can see for itself. */
  lemma TheClientHoldsTheStore(k: nat, id: nat, u: Whole, hosts: map<Address, Document>)
    requires Arises(k, id, u) && k < |u.talk.client.asked|
    requires u.talk.client.asked[k].Ask? && u.talk.client.asked[k].watching
    requires k + 1 in u.talk.client.settled && k + 1 in u.talk.client.heard
    requires |u.talk.client.settled[k + 1]| > 0 && u.talk.client.settled[k + 1][0].Resolved?
    requires SeesTheEnd(u.talk.client.heard[k + 1], |u.scan.log.entries|)
    requires HoldsLatest(hosts, u.talk.client.heard[k + 1])
    ensures forall a :: Followed(u.scan, a) ==> P.Current(u.scan.history, a) == if a in hosts then Some(hosts[a]) else None
  {
    AlwaysInStep(k, id, u);
    ResolvedHasEnded(k, id, u);
    SeenIsReached(u.scan, id);
    ClosedIsQuiet(u.scan);
    EndedIsCaughtUp(u.scan, id);
    forall a: Address | Followed(u.scan, a)
      ensures P.Current(u.scan.history, a) == if a in hosts then Some(hosts[a]) else None
    {
      V.Converges(u.scan, id, a);
    }
  }

  lemma EndedIsCaughtUp(t: P.State, id: nat)
    requires P.Reachable(t) && id in t.watches && t.watches[id].place.Ended? && Straight(t.watches[id])
    requires t.watches[id].position == |t.log.entries|
    ensures V.CaughtUp(t, t.watches[id])
  {
    R.Everywhere(t);
    assert W.WatchOk(t, t.watches[id]);
  }
}
