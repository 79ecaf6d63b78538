/** How long the answer of a watched question can take (src/scans.rs:237-248, 705-725;
    src/stdio.rs:366-395), whatever else the scan and the connection are doing. */
module EndToEndProgress {
  import opened EventLog
  import opened Wrappers
  import L = Fairness
  import G = ScanProgress
  import P = ScanProtocol
  import R = ScanRuns
  import opened Speak
  import opened SpeakRuns
  import opened Client
  import opened Conversation
  import opened EndToEnd

  /** Moves of the follower, and those of the watch, whether or not they are a frame told. */
  predicate Forward(j: Joint) { (j.ByScan? && j.move.ByFollower?) || j.Looks? || j.Said? }

  function CountForward(joints: seq<Joint>): nat {
    if joints == [] then 0 else (if Forward(joints[0]) then 1 else 0) + CountForward(joints[1..])
  }

  lemma ScanMoveForward(s: P.State, m: P.Move, id: nat)
    requires R.Invariant(s) && G.EngineDone(s) && id in s.watches && P.Can(s, m) && !G.Quits(m, id)
    ensures G.EngineDone(P.Next(s, m)) && id in P.Next(s, m).watches
    ensures G.Left(P.Next(s, m), id) + (if G.Mine(m, id) then 1 else 0) <= G.Left(s, id)
  {
    G.MoveAdvances(s, m, id);
  }

  /** What a joint step is to the scan: nothing, or one move of it. */
  function InScan(k: nat, id: nat, s: Whole, j: Joint): Option<P.Move>
    requires Able(k, id, s, j)
  {
    match j
    case ByScan(m) => Some(m)
    case Begins => Some(P.Open(id, 0))
    case Looks(m) => Some(P.ByWatch(id, m))
    case Said(_) => if id in s.scan.watches then Some(P.ByWatch(id, P.Go)) else None
    case ByTalk(_) => None
    case Refuses(_) => None
    case Says(_) => None
  }

  lemma JointIsScan(k: nat, id: nat, s: Whole, j: Joint)
    requires Able(k, id, s, j) && id in s.scan.watches
    ensures match InScan(k, id, s, j)
            case None => Done(k, id, s, j).scan == s.scan && !Forward(j)
            case Some(m) =>
              P.Can(s.scan, m) && Done(k, id, s, j).scan == P.Next(s.scan, m) && !G.Quits(m, id)
              && (Forward(j) ==> G.Mine(m, id))
  {
  }

  lemma JointForward(k: nat, id: nat, s: Whole, j: Joint)
    requires P.Reachable(s.scan) && G.EngineDone(s.scan) && id in s.scan.watches && Able(k, id, s, j)
    ensures G.EngineDone(Done(k, id, s, j).scan) && id in Done(k, id, s, j).scan.watches
    ensures G.Left(Done(k, id, s, j).scan, id) + (if Forward(j) then 1 else 0) <= G.Left(s.scan, id)
  {
    R.Everywhere(s.scan);
    JointIsScan(k, id, s, j);
    var m := InScan(k, id, s, j);
    if m.Some? {
      ScanMoveForward(s.scan, m.value, id);
    }
  }

  /** From the moment the engine is done, whatever else goes on in the scan and on the connection,
      follower and watch between them make no more moves than `Left` says; so no more frames are
      told than that. */
  lemma {:induction false} AnswerIsBounded(k: nat, id: nat, s: Whole, joints: seq<Joint>, t: Whole)
    requires P.Reachable(s.scan) && Happens(s.talk) && G.EngineDone(s.scan) && id in s.scan.watches
    requires Comes(k, id, s, joints, t)
    ensures G.EngineDone(t.scan) && id in t.scan.watches
    ensures CountForward(joints) + G.Left(t.scan, id) <= G.Left(s.scan, id)
    decreases |joints|
  {
    if joints != [] {
      JointForward(k, id, s, joints[0]);
      HalvesHappen(k, id, s, joints[0]);
      AnswerIsBounded(k, id, Done(k, id, s, joints[0]), joints[1..], t);
    }
  }

  // ---------------------------------------------------------------------------
  // When there is nothing left to do
  // ---------------------------------------------------------------------------

  /** A step of the follower, or of the task that answers the question. */
  predicate Works(j: Joint, k: nat) { Forward(j) || OfTask(j, k) }

  /** A step of whoever has the output. */
  predicate Outputs(j: Joint) { j.ByTalk? && j.step.Moves? && (j.step.move.Write? || j.step.move.Unlock?) }

  /** Nobody else has the output. */
  predicate Clear(s: Whole, k: nat) {
    forall other :: other in s.talk.daemon.stages && Held(s.talk.daemon, other) ==> other == k
  }

  ghost predicate NoWork(k: nat, id: nat, s: Whole) {
    forall j :: Works(j, k) ==> !Able(k, id, s, j)
  }

  ghost predicate NoOutput(k: nat, id: nat, s: Whole) {
    forall j :: Outputs(j) ==> !Able(k, id, s, j)
  }

  /** The engine is done, and a watch is what answers the question. */
  ghost predicate Winding(k: nat, id: nat, s: Whole) {
    Arises(k, id, s) && G.EngineDone(s.scan) && id in s.scan.watches
  }

  lemma EndedHasAnswered(t: Talk, k: nat, w: P.Watch)
    requires Watched(t, k, w) && w.place.Ended?
    ensures HasAnswered(t.daemon, k)
  {
  }

  lemma NeverDropped(t: Talk, k: nat, w: P.Watch)
    requires Watched(t, k, w)
    ensures !w.place.Dropped?
  {
  }

  lemma SomebodyWorks(k: nat, id: nat, s: Whole) returns (j: Joint)
    requires Winding(k, id, s) && Clear(s, k) && !s.scan.watches[id].place.Ended?
    ensures Able(k, id, s, j) && Works(j, k)
  {
    AlwaysInStep(k, id, s);
    R.Everywhere(s.scan);
    NeverDropped(s.talk, k, s.scan.watches[id]);
    var m := G.NeverStuck(s.scan, id);
    if m.ByFollower? {
      j := ByScan(m);
    } else {
      j := NothingElseHoldsItBack(k, id, s, m.watch);
    }
  }

  /** Whoever else has the output can write the rest of a frame, or give the output back. */
  lemma HolderCanGo(k: nat, id: nat, s: Whole, other: nat) returns (j: Joint)
    requires TalkOk(s.talk) && Held(s.talk.daemon, other) && other != k
    ensures Able(k, id, s, j) && Outputs(j)
  {
    assert Partly(s.talk.daemon, other);
    var stage := s.talk.daemon.stages[other];
    var rest := |Bytes(stage.frame)| - stage.written;
    j := ByTalk(Moves(if rest == 0 then Unlock(other) else Write(other, rest)));
  }

  lemma NoOutputIsClear(k: nat, id: nat, s: Whole)
    requires TalkOk(s.talk) && NoOutput(k, id, s)
    ensures Clear(s, k)
  {
    forall other | other in s.talk.daemon.stages && Held(s.talk.daemon, other)
      ensures other == k
    {
      if other != k {
        var j := HolderCanGo(k, id, s, other);
        assert false;
      }
    }
  }

  lemma RestHasAnswered(k: nat, id: nat, t: Whole)
    requires Winding(k, id, t) && NoWork(k, id, t) && Clear(t, k)
    ensures t.scan.watches[id].place.Ended? && t.scan.log.closed && HasAnswered(t.talk.daemon, k)
  {
    AlwaysInStep(k, id, t);
    if !t.scan.watches[id].place.Ended? {
      var j := SomebodyWorks(k, id, t);
      assert false;
    }
    R.EndIsAlmostTheEnd(t.scan, id);
    EndedHasAnswered(t.talk, k, t.scan.watches[id]);
  }

  /** And when the follower, the task and whoever has the output have no step left, the watch has
      come to its end and the question's answer is out. */
  lemma EveryWatchIsAnswered(k: nat, id: nat, t: Whole)
    requires Arises(k, id, t) && G.EngineDone(t.scan) && id in t.scan.watches
    requires NoWork(k, id, t) && NoOutput(k, id, t)
    ensures t.scan.watches[id].place.Ended? && t.scan.log.closed && HasAnswered(t.talk.daemon, k)
  {
    AlwaysInStep(k, id, t);
    AnyTalk(t.talk);
    NoOutputIsClear(k, id, t);
    RestHasAnswered(k, id, t);
  }

  // ---------------------------------------------------------------------------
  // Every step of theirs leaves less to do
  // ---------------------------------------------------------------------------

  /** What is left of a frame on its way: a task done writing has its lock to give back first. */
  function StageRank(stage: Stage): nat {
    match stage
    case Holding(frame, written) => if written >= |Bytes(frame)| then 3 else 0
    case Thinking(_) => 2
    case Wants(_) => 1
    case Finished => 0
  }

  function BytesLeft(stage: Stage): nat {
    if stage.Holding? && stage.written <= |Bytes(stage.frame)| then |Bytes(stage.frame)| - stage.written else 0
  }

  function WeightOf(k: nat, id: nat, s: Whole): L.Weight {
    if id in s.scan.watches && k in s.talk.daemon.stages
    then L.Weight(G.Left(s.scan, id), StageRank(s.talk.daemon.stages[k]), BytesLeft(s.talk.daemon.stages[k]))
    else L.Weight(0, 0, 0)
  }

  predicate LessOfFrame(a: Stage, b: Stage) {
    StageRank(b) < StageRank(a) || (StageRank(b) == StageRank(a) && BytesLeft(b) < BytesLeft(a))
  }

  lemma LockStage(lines: seq<Line>, s: State, m: Move, k: nat)
    requires Can(lines, s, m) && k in s.stages && s.at !in s.stages && !m.Decide?
    ensures k in Next(lines, s, m).stages
    ensures OfLock(m) && m.line == k && !Completes(s, m) ==> LessOfFrame(s.stages[k], Next(lines, s, m).stages[k])
    ensures !(OfLock(m) && m.line == k) ==> Next(lines, s, m).stages[k] == s.stages[k]
  {
  }

  lemma DecideStage(lines: seq<Line>, s: State, m: Move, k: nat)
    requires Can(lines, s, m) && k in s.stages && m.Decide?
    ensures k in Next(lines, s, m).stages
    ensures m.line == k ==> LessOfFrame(s.stages[k], Next(lines, s, m).stages[k])
    ensures m.line != k ==> Next(lines, s, m).stages[k] == s.stages[k]
  {
  }

  /** A step on the connection. */
  lemma TalkStage(t: Talk, x: Step, k: nat)
    requires May(t, x) && k in t.daemon.stages && t.daemon.at !in t.daemon.stages && !OfLine(t, x, k)
    ensures k in Stepped(t, x).daemon.stages
    ensures x.Moves? && OfLock(x.move) && x.move.line == k ==>
              LessOfFrame(t.daemon.stages[k], Stepped(t, x).daemon.stages[k])
    ensures !(x.Moves? && OfLock(x.move) && x.move.line == k) ==>
              Stepped(t, x).daemon.stages[k] == t.daemon.stages[k]
  {
    if x.Moves? && x.move.Decide? {
      DecideStage(t.client.asked, t.daemon, x.move, k);
    } else if x.Moves? {
      LockStage(t.client.asked, t.daemon, x.move, k);
    }
  }

  /** A step that is not forward. */
  lemma JointStage(k: nat, id: nat, s: Whole, j: Joint)
    requires Able(k, id, s, j) && !Forward(j) && id in s.scan.watches
    requires k in s.talk.daemon.stages && s.talk.daemon.at !in s.talk.daemon.stages
    ensures k in Done(k, id, s, j).talk.daemon.stages
    ensures var a, b := s.talk.daemon.stages[k], Done(k, id, s, j).talk.daemon.stages[k];
      if OfTask(j, k) then LessOfFrame(a, b) else a == b
  {
    match j
    case ByScan(m) =>
    case ByTalk(x) => TalkStage(s.talk, x, k);
    case Says(frame) => DecideStage(s.talk.client.asked, s.talk.daemon, Decide(k, frame), k);
  }

  lemma SaidKeepsStage(k: nat, id: nat, s: Whole, j: Joint)
    requires Able(k, id, s, j) && Forward(j) && k in s.talk.daemon.stages
    ensures k in Done(k, id, s, j).talk.daemon.stages
  {
  }

  lemma HasStage(k: nat, id: nat, s: Whole)
    requires Winding(k, id, s)
    ensures P.Reachable(s.scan) && k in s.talk.daemon.stages && s.talk.daemon.at !in s.talk.daemon.stages
  {
    AlwaysInStep(k, id, s);
    AnyTalk(s.talk);
    NothingUnread(s.talk.client.asked, s.talk.daemon, k);
  }

  lemma LighterFrame(x: nat, a: Stage, b: Stage, y: nat)
    requires y <= x && (a == b || LessOfFrame(a, b))
    ensures L.AtMost(L.Weight(y, StageRank(b), BytesLeft(b)), L.Weight(x, StageRank(a), BytesLeft(a)))
    ensures LessOfFrame(a, b) ==>
              L.Less(L.Weight(y, StageRank(b), BytesLeft(b)), L.Weight(x, StageRank(a), BytesLeft(a)))
  {
  }

  /** No step adds to what is left, and each of theirs takes something off. */
  lemma JointWeighs(k: nat, id: nat, s: Whole, j: Joint)
    requires Winding(k, id, s) && Able(k, id, s, j)
    ensures L.AtMost(WeightOf(k, id, Done(k, id, s, j)), WeightOf(k, id, s))
    ensures Works(j, k) ==> L.Less(WeightOf(k, id, Done(k, id, s, j)), WeightOf(k, id, s))
  {
    HasStage(k, id, s);
    JointForward(k, id, s, j);
    var t := Done(k, id, s, j);
    if Forward(j) {
      SaidKeepsStage(k, id, s, j);
    } else {
      JointStage(k, id, s, j);
      LighterFrame(G.Left(s.scan, id), s.talk.daemon.stages[k], t.talk.daemon.stages[k], G.Left(t.scan, id));
    }
  }

  // ---------------------------------------------------------------------------
  // Somebody else's frame
  // ---------------------------------------------------------------------------

  /** Who has the output. */
  ghost function Holder(s: State): Option<nat> {
    if exists h :: h in s.stages && Held(s, h) then
      var h :| h in s.stages && Held(s, h);
      Some(h)
    else None
  }

  lemma OneHolds(s: State, h: nat)
    requires OneHolder(s) && Held(s, h)
    ensures Holder(s) == Some(h)
  {
  }

  /** What the other writer has left before the output is free of it. */
  ghost function HeldLeft(s: State, k: nat): nat {
    match Holder(s)
    case None => 0
    case Some(h) => if h == k then 0 else 1 + BytesLeft(s.stages[h])
  }

  predicate Writes(m: Move) { m.Write? || m.Unlock? }

  lemma HolderMoves(lines: seq<Line>, s: State, m: Move, h: nat)
    requires Can(lines, s, m) && Held(s, h) && OneHolder(s) && s.at !in s.stages
    ensures forall x :: Held(Next(lines, s, m), x) ==> x == h
    ensures !Writes(m) ==> Held(Next(lines, s, m), h) && Next(lines, s, m).stages[h] == s.stages[h]
    ensures Writes(m) && Held(Next(lines, s, m), h) ==> BytesLeft(Next(lines, s, m).stages[h]) < BytesLeft(s.stages[h])
  {
    forall x | Held(Next(lines, s, m), x)
      ensures x == h
    {
      assert Held(s, x);
    }
  }

  lemma HeldFalls(lines: seq<Line>, s: State, m: Move, k: nat, h: nat)
    requires Can(lines, s, m) && Held(s, h) && h != k && OneHolder(s) && s.at !in s.stages
    ensures HeldLeft(Next(lines, s, m), k) <= HeldLeft(s, k)
    ensures Writes(m) ==> HeldLeft(Next(lines, s, m), k) < HeldLeft(s, k)
  {
    var t := Next(lines, s, m);
    HolderMoves(lines, s, m, h);
    OneHolds(s, h);
    if Held(t, h) {
      OneHolds(t, h);
    }
  }

  /** What a joint step is on the connection. */
  function OnTalk(k: nat, j: Joint): Option<Step> {
    match j
    case ByScan(_) => None
    case ByTalk(x) => Some(x)
    case Begins => None
    case Refuses(frame) => Some(Moves(Decide(k, frame)))
    case Looks(_) => None
    case Says(frame) => Some(Moves(Decide(k, frame)))
    case Said(count) => Some(Moves(Write(k, count)))
  }

  lemma JointIsTalk(k: nat, id: nat, s: Whole, j: Joint)
    requires Able(k, id, s, j)
    ensures match OnTalk(k, j)
            case None => Done(k, id, s, j).talk == s.talk
            case Some(x) => May(s.talk, x) && Done(k, id, s, j).talk == Stepped(s.talk, x)
  {
  }

  lemma StepHolds(t: Talk, x: Step, k: nat)
    requires May(t, x) && OneHolder(t.daemon) && t.daemon.at !in t.daemon.stages
    requires exists h :: h in t.daemon.stages && Held(t.daemon, h) && h != k
    ensures HeldLeft(Stepped(t, x).daemon, k) <= HeldLeft(t.daemon, k)
    ensures x.Moves? && Writes(x.move) ==> HeldLeft(Stepped(t, x).daemon, k) < HeldLeft(t.daemon, k)
  {
    if x.Moves? {
      var h :| h in t.daemon.stages && Held(t.daemon, h) && h != k;
      HeldFalls(t.client.asked, t.daemon, x.move, k, h);
    }
  }

  /** While somebody else has the output, no step adds to that, and each of its own takes
      something off. */
  lemma JointHolds(k: nat, id: nat, s: Whole, j: Joint)
    requires Winding(k, id, s) && Able(k, id, s, j) && !Clear(s, k)
    ensures HeldLeft(Done(k, id, s, j).talk.daemon, k) <= HeldLeft(s.talk.daemon, k)
    ensures Outputs(j) ==> HeldLeft(Done(k, id, s, j).talk.daemon, k) < HeldLeft(s.talk.daemon, k)
  {
    HasStage(k, id, s);
    AlwaysInStep(k, id, s);
    AnyTalk(s.talk);
    JointIsTalk(k, id, s, j);
    var x := OnTalk(k, j);
    if x.Some? {
      StepHolds(s.talk, x.value, k);
    }
  }

  // ---------------------------------------------------------------------------
  // The answer and the promise
  // ---------------------------------------------------------------------------

  predicate EndsWell(frames: seq<Frame>) { frames != [] && frames[|frames| - 1].saying.End? }

  lemma LastSaysEnd(stage: Stage, w: P.Watch, frames: seq<Frame>)
    requires StageLink(stage, w, frames) && w.place.Ended?
    ensures EndsWell(frames)
  {
  }

  lemma EndIsOut(k: nat, id: nat, s: Whole)
    requires InStep(k, id, s) && id in s.scan.watches && s.scan.watches[id].place.Ended?
    ensures EndsWell(FramesOf(s.talk, k))
    ensures HasAnswered(s.talk.daemon, k) && k < |s.talk.client.asked| && s.talk.client.asked[k].watching
  {
    LastSaysEnd(s.talk.daemon.stages[k], s.scan.watches[id], FramesOf(s.talk, k));
    EndedHasAnswered(s.talk, k, s.scan.watches[id]);
  }

  /** A client that has taken the answer has its promise resolved. */
  lemma TakenResolves(c: ClientState, k: nat, own: seq<Frame>)
    requires Sound(c) && k < |c.asked| && Follows(c, k, own) && Answered(c.asked[k], own)
    requires own[|own| - 1].saying.End?
    ensures |c.settled[k + 1]| == 1 && c.settled[k + 1][0].Resolved?
  {
    AnsweredFollows(c, k, own);
  }

  /** A first part of a line's frames that ends in an answer is all of them. */
  lemma PartIsAll(line: Line, part: seq<Frame>, own: seq<Frame>, answered: bool)
    requires part <= own && part != [] && !part[|part| - 1].saying.Happened?
    requires if answered then Answered(line, own) else EventsOf(line, own)
    ensures part == own && answered
  {
    assert part[|part| - 1] == own[|part| - 1];
    if |part| < |own| && answered {
      OnlyEvents(line, own[..|own| - 1], |part| - 1);
    }
  }

  lemma OnlyEvents(line: Line, frames: seq<Frame>, i: nat)
    requires EventsOf(line, frames) && i < |frames|
    ensures frames[i].saying.Happened?
  {
  }

  lemma OwnInBetween(sent: seq<Sent>, n: nat, got: nat, k: nat)
    requires n <= got <= |sent|
    ensures Own(sent[..n], k) <= Own(sent[..got], k) <= Own(sent, k)
  {
    OwnIsPrefix(sent, got, k);
    OwnIsPrefix(sent[..got], n, k);
    assert sent[..got][..n] == sent[..n];
  }

  lemma OutIsAll(line: Line, part: seq<Frame>, mid: seq<Frame>, own: seq<Frame>, answered: bool)
    requires part <= mid <= own && EndsWell(part)
    requires if answered then Answered(line, own) else EventsOf(line, own)
    ensures mid == own && Answered(line, own) && EndsWell(own)
  {
    PartIsAll(line, part, own, answered);
    assert |mid| == |own|;
  }

  lemma TakenToTheEnd(u: Talk, k: nat, n: nat)
    requires Happens(u) && k < |u.client.asked| && n <= u.got <= |u.daemon.sent|
    requires EndsWell(Own(u.daemon.sent[..n], k))
    ensures k + 1 in u.client.settled
    ensures |u.client.settled[k + 1]| == 1 && u.client.settled[k + 1][0].Resolved?
  {
    TakenIsFollowed(u, k);
    OwnInBetween(u.daemon.sent, n, u.got, k);
    AllIsTaken(u.client, u.daemon, k, Own(u.daemon.sent[..n], k), Own(u.daemon.sent[..u.got], k), Own(u.daemon.sent, k));
  }

  lemma AllIsTaken(c: ClientState, s: State, k: nat, part: seq<Frame>, mid: seq<Frame>, own: seq<Frame>)
    requires Sound(c) && Invariant(c.asked, s) && k < |c.asked| && own == Own(s.sent, k)
    requires part <= mid <= own && EndsWell(part) && Follows(c, k, mid)
    ensures |c.settled[k + 1]| == 1 && c.settled[k + 1][0].Resolved?
  {
    AnsweredOrNot(c.asked, s, k);
    OutIsAll(c.asked[k], part, mid, own, HasAnswered(s, k));
    TakenResolves(c, k, own);
  }

  lemma TakenIsFollowed(u: Talk, k: nat)
    requires Happens(u) && k < |u.client.asked|
    ensures Sound(u.client) && Invariant(u.client.asked, u.daemon) && u.got <= |u.daemon.sent|
    ensures Follows(u.client, k, Own(u.daemon.sent[..u.got], k))
  {
    AnyTalk(u);
    assert Follows(u.client, k, Taken(u, k));
  }

  /** A client that has read what was out when the watch ended has its promise resolved. */
  lemma ReadResolves(k: nat, id: nat, t: Whole, u: Talk)
    requires Winding(k, id, t) && t.scan.watches[id].place.Ended?
    requires Happens(u) && k < |u.client.asked|
    requires t.talk.daemon.sent <= u.daemon.sent && |t.talk.daemon.sent| <= u.got <= |u.daemon.sent|
    ensures k + 1 in u.client.settled
    ensures |u.client.settled[k + 1]| == 1 && u.client.settled[k + 1][0].Resolved?
  {
    AlwaysInStep(k, id, t);
    EndIsOut(k, id, t);
    assert t.talk.daemon.sent == u.daemon.sent[..|t.talk.daemon.sent|];
    TakenToTheEnd(u, k, |t.talk.daemon.sent|);
  }

  // ---------------------------------------------------------------------------
  // A run to the promise
  // ---------------------------------------------------------------------------

  lemma {:induction false} ComesFurther(k: nat, id: nat, s: Whole, joints: seq<Joint>, t: Whole, j: Joint)
    requires Comes(k, id, s, joints, t) && Able(k, id, t, j)
    ensures Comes(k, id, s, joints + [j], Done(k, id, t, j))
    decreases |joints|
  {
    if joints == [] {
      assert joints + [j] == [j] && [j][1..] == [];
    } else {
      ComesFurther(k, id, Done(k, id, s, joints[0]), joints[1..], t, j);
      assert (joints + [j])[1..] == joints[1..] + [j];
    }
  }

  lemma StaysWinding(k: nat, id: nat, s: Whole, j: Joint)
    requires Winding(k, id, s) && Able(k, id, s, j)
    ensures Winding(k, id, Done(k, id, s, j))
  {
    HasStage(k, id, s);
    JointForward(k, id, s, j);
    var joints :| Comes(k, id, BEGIN, joints, s);
    ComesFurther(k, id, BEGIN, joints, s, j);
  }

  lemma MoveLeavesEnded(s: P.State, m: P.Move, id: nat)
    requires P.Can(s, m) && id in s.watches && s.watches[id].place.Ended?
    ensures id in P.Next(s, m).watches && P.Next(s, m).watches[id].place.Ended?
  {
  }

  lemma EndedStays(k: nat, id: nat, s: Whole, j: Joint)
    requires Able(k, id, s, j) && id in s.scan.watches && s.scan.watches[id].place.Ended?
    ensures id in Done(k, id, s, j).scan.watches && Done(k, id, s, j).scan.watches[id].place.Ended?
  {
    JointIsScan(k, id, s, j);
    var m := InScan(k, id, s, j);
    if m.Some? {
      MoveLeavesEnded(s.scan, m.value, id);
    }
  }

  /** What the client has not read yet. */
  function Untaken(t: Talk): nat { if t.got < |t.daemon.sent| then |t.daemon.sent| - t.got else 0 }

  predicate Helps(j: Joint, k: nat) { Works(j, k) || Outputs(j) || j == ByTalk(Takes) }

  /** The step of whoever has the output, or else of the follower or the task, or else of the
      client. */
  lemma Onward(k: nat, id: nat, s: Whole) returns (j: Joint)
    requires Winding(k, id, s) && (s.scan.watches[id].place.Ended? ==> s.talk.got < |s.talk.daemon.sent|)
    ensures Able(k, id, s, j) && Helps(j, k)
    ensures if s.scan.watches[id].place.Ended? then j == ByTalk(Takes)
            else if Clear(s, k) then Works(j, k) else Outputs(j)
  {
    if s.scan.watches[id].place.Ended? {
      j := ByTalk(Takes);
    } else if Clear(s, k) {
      j := SomebodyWorks(k, id, s);
    } else {
      AlwaysInStep(k, id, s);
      AnyTalk(s.talk);
      var other :| other in s.talk.daemon.stages && Held(s.talk.daemon, other) && other != k;
      j := HolderCanGo(k, id, s, other);
    }
  }

  lemma OneFirst(k: nat, id: nat, s: Whole, j: Joint, joints: seq<Joint>, t: Whole)
    requires Able(k, id, s, j) && Comes(k, id, Done(k, id, s, j), joints, t)
    ensures Comes(k, id, s, [j] + joints, t)
  {
    assert ([j] + joints)[1..] == joints;
  }

  /** The step leaves less of everything that has to be done. */
  lemma OnwardIsCloser(k: nat, id: nat, s: Whole, j: Joint)
    requires Winding(k, id, s) && Able(k, id, s, j)
    requires if s.scan.watches[id].place.Ended? then j == ByTalk(Takes)
             else if Clear(s, k) then Works(j, k) else Outputs(j)
    ensures L.Less(WeightOf(k, id, Done(k, id, s, j)), WeightOf(k, id, s))
            || (WeightOf(k, id, Done(k, id, s, j)) == WeightOf(k, id, s)
                && (HeldLeft(Done(k, id, s, j).talk.daemon, k) < HeldLeft(s.talk.daemon, k)
                    || (HeldLeft(Done(k, id, s, j).talk.daemon, k) == HeldLeft(s.talk.daemon, k)
                        && Untaken(Done(k, id, s, j).talk) < Untaken(s.talk))))
  {
    JointWeighs(k, id, s, j);
    if !s.scan.watches[id].place.Ended? && !Clear(s, k) {
      JointHolds(k, id, s, j);
    }
  }

  /** It takes nobody else: from wherever a watched question is when the engine is done, the
      follower, its task, whoever has the output and the client's reader bring it to its answer,
      and the promise made of it resolves. */
  lemma {:induction false} TheyAnswer(k: nat, id: nat, s: Whole) returns (joints: seq<Joint>, t: Whole)
    requires Winding(k, id, s)
    ensures Comes(k, id, s, joints, t) && (forall j :: j in joints ==> Helps(j, k))
    ensures id in t.scan.watches && t.scan.watches[id].place.Ended? && HasAnswered(t.talk.daemon, k)
    ensures k + 1 in t.talk.client.settled
    ensures |t.talk.client.settled[k + 1]| == 1 && t.talk.client.settled[k + 1][0].Resolved?
    decreases WeightOf(k, id, s).first, WeightOf(k, id, s).second, WeightOf(k, id, s).third,
              HeldLeft(s.talk.daemon, k), Untaken(s.talk)
  {
    if s.scan.watches[id].place.Ended? && s.talk.got >= |s.talk.daemon.sent| {
      AlwaysInStep(k, id, s);
      EndIsOut(k, id, s);
      AnyTalk(s.talk);
      ReadResolves(k, id, s, s.talk);
      return [], s;
    }
    var j := Onward(k, id, s);
    OnwardIsCloser(k, id, s, j);
    StaysWinding(k, id, s, j);
    joints, t := TheyAnswer(k, id, Done(k, id, s, j));
    OneFirst(k, id, s, j, joints, t);
    joints := [j] + joints;
  }
}
