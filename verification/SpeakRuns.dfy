/** What holds however the tasks of one connection interleave (src/stdio.rs:23-44, 83-129,
    397-409). */
module SpeakRuns {
  import opened Lines
  import opened Speak

  // ---------------------------------------------------------------------------
  // Reading the output back
  // ---------------------------------------------------------------------------

  function Rendered(sent: seq<Sent>): string {
    if sent == [] then "" else Rendered(sent[..|sent| - 1]) + Bytes(sent[|sent| - 1].frame)
  }

  function Texts(sent: seq<Sent>): seq<string> {
    if sent == [] then [] else Texts(sent[..|sent| - 1]) + [sent[|sent| - 1].frame.text]
  }

  /** One more frame is one more line. */
  lemma SplitFrame(out: string, lines: seq<string>, frame: Frame)
    requires Split(out) == Read(lines, "")
    ensures Split(out + Bytes(frame)) == Read(lines + [frame.text], "")
  {
    SplitLine(out, frame.text);
    assert "" + frame.text == frame.text;
  }

  lemma {:induction false} SplitRecovers(sent: seq<Sent>)
    ensures Split(Rendered(sent)) == Read(Texts(sent), "")
  {
    if sent != [] {
      SplitRecovers(sent[..|sent| - 1]);
      SplitFrame(Rendered(sent[..|sent| - 1]), Texts(sent[..|sent| - 1]), sent[|sent| - 1].frame);
    }
  }

  /** Part of a frame, short of its newline, is part of a line. */
  lemma SplitPart(sent: seq<Sent>, frame: Frame, written: nat)
    requires written <= |frame.text|
    ensures Split(Rendered(sent) + Bytes(frame)[..written]) == Read(Texts(sent), frame.text[..written])
  {
    SplitRecovers(sent);
    SplitPiece(Rendered(sent), frame.text, written);
    assert "" + frame.text[..written] == frame.text[..written];
  }

  // ---------------------------------------------------------------------------
  // The output is whole frames and a part of the holder's
  // ---------------------------------------------------------------------------

  ghost predicate OneHolder(s: State) {
    forall j, k :: Held(s, j) && Held(s, k) ==> j == k
  }

  /** What is out of a frame that is not yet whole. */
  function Begun(frame: Frame, written: nat): string {
    if written <= |frame.text| then Bytes(frame)[..written] else ""
  }

  ghost predicate Partly(s: State, k: nat)
    requires Held(s, k)
  {
    var frame, written := s.stages[k].frame, s.stages[k].written;
    written <= |Bytes(frame)| && s.out == Rendered(s.sent) + Begun(frame, written)
  }

  predicate Idle(s: State) { forall k :: k in s.stages ==> !Held(s, k) }

  ghost predicate OutOk(s: State) {
    && OneHolder(s)
    && (Idle(s) ==> s.out == Rendered(s.sent))
    && (forall k :: Held(s, k) ==> Partly(s, k))
  }

  lemma OutAtLock(lines: seq<Line>, s: State, k: nat)
    requires OutOk(s) && Can(lines, s, Lock(k))
    ensures OutOk(Next(lines, s, Lock(k)))
  {
    var t := Next(lines, s, Lock(k));
    assert Idle(s) && Held(t, k);
    assert Bytes(t.stages[k].frame)[..0] == "";
    assert s.out + "" == s.out;
  }

  lemma BytesGoOn(bytes: string, written: nat, count: nat)
    requires written + count <= |bytes|
    ensures bytes[..written] + bytes[written..written + count] == bytes[..written + count]
  {
  }

  lemma OneMoreRendered(sent: seq<Sent>, x: Sent)
    ensures Rendered(sent + [x]) == Rendered(sent) + Bytes(x.frame)
  {
    assert (sent + [x])[..|sent + [x]| - 1] == sent;
  }

  /** More bytes of the frame begun, and with the last of them it is one of those sent. */
  lemma MoreOut(sent: seq<Sent>, x: Sent, out: string, written: nat, count: nat)
    requires written < written + count <= |Bytes(x.frame)| && out == Rendered(sent) + Begun(x.frame, written)
    ensures out + Bytes(x.frame)[written..written + count]
         == if written + count == |Bytes(x.frame)| then Rendered(sent + [x])
            else Rendered(sent) + Begun(x.frame, written + count)
  {
    var bytes, before := Bytes(x.frame), Rendered(sent);
    BytesGoOn(bytes, written, count);
    assert out == before + bytes[..written];
    assert out + bytes[written..written + count] == before + (bytes[..written] + bytes[written..written + count]);
    if written + count == |bytes| {
      OneMoreRendered(sent, x);
      assert bytes[..|bytes|] == bytes;
    }
  }

  lemma OutAtWrite(lines: seq<Line>, s: State, k: nat, count: nat)
    requires OutOk(s) && Can(lines, s, Write(k, count))
    ensures OutOk(Next(lines, s, Write(k, count)))
  {
    var t := Next(lines, s, Write(k, count));
    assert Partly(s, k) && Held(t, k);
    MoreOut(s.sent, Sent(k, s.stages[k].frame), s.out, s.stages[k].written, count);
    assert Rendered(t.sent) + "" == Rendered(t.sent);
    forall j | Held(t, j)
      ensures j == k
    {
      assert j == k || Held(s, j);
    }
  }

  lemma OutAtUnlock(lines: seq<Line>, s: State, k: nat)
    requires OutOk(s) && Can(lines, s, Unlock(k))
    ensures OutOk(Next(lines, s, Unlock(k)))
  {
    var t := Next(lines, s, Unlock(k));
    assert Partly(s, k);
    assert Rendered(s.sent) + "" == Rendered(s.sent);
    forall j | j in t.stages
      ensures !Held(t, j)
    {
      assert Held(t, j) ==> Held(s, j) && j != k;
    }
  }

  /** A move that starts nobody writing and writes nothing. */
  ghost predicate Quietly(s: State, t: State) {
    && t.out == s.out && t.sent == s.sent
    && (forall k :: Held(t, k) <==> Held(s, k))
    && (forall k :: Held(s, k) ==> t.stages[k] == s.stages[k])
  }

  lemma OutElsewhere(s: State, t: State)
    requires OutOk(s) && Quietly(s, t)
    ensures OutOk(t)
  {
    if Idle(t) {
      forall k | k in s.stages
        ensures !Held(s, k)
      {
        assert Held(s, k) <==> Held(t, k);
      }
    }
    forall k | Held(t, k)
      ensures Partly(t, k)
    {
      assert Held(s, k) && Partly(s, k);
    }
    forall j, k | Held(t, j) && Held(t, k)
      ensures j == k
    {
      assert Held(s, j) && Held(s, k);
    }
  }

  predicate Writing(m: Move) { m.Lock? || m.Write? || m.Unlock? }

  lemma OthersAreQuiet(lines: seq<Line>, s: State, m: Move)
    requires Can(lines, s, m) && !Writing(m) && s.at !in s.stages
    ensures Quietly(s, Next(lines, s, m))
  {
  }

  lemma OutKeeps(lines: seq<Line>, s: State, m: Move)
    requires OutOk(s) && Can(lines, s, m) && s.at !in s.stages
    ensures OutOk(Next(lines, s, m))
  {
    if m.Lock? {
      OutAtLock(lines, s, m.line);
    } else if m.Write? {
      OutAtWrite(lines, s, m.line, m.count);
    } else if m.Unlock? {
      OutAtUnlock(lines, s, m.line);
    } else {
      OthersAreQuiet(lines, s, m);
      OutElsewhere(s, Next(lines, s, m));
    }
  }

  // ---------------------------------------------------------------------------
  // Each line's own frames
  // ---------------------------------------------------------------------------

  /** The frames that answer one line, in the order they were written. */
  function Own(sent: seq<Sent>, k: nat): seq<Frame> {
    if sent == [] then []
    else
      var last := sent[|sent| - 1];
      Own(sent[..|sent| - 1], k) + if last.line == k then [last.frame] else []
  }

  lemma OwnGrows(sent: seq<Sent>, x: Sent, k: nat)
    ensures Own(sent + [x], k) == Own(sent, k) + if x.line == k then [x.frame] else []
  {
    assert (sent + [x])[..|sent + [x]| - 1] == sent;
  }

  /** Events of a watch, and of nothing else. */
  ghost predicate EventsOf(line: Line, frames: seq<Frame>) {
    && (frames != [] ==> line.Ask? && line.watching)
    && (forall i :: 0 <= i < |frames| ==> frames[i].saying.Happened? && frames[i].tag == LabelOf(line))
  }

  /** A line that has been answered: any events a watch had, and then the one frame that is its
      answer. */
  ghost predicate Answered(line: Line, frames: seq<Frame>) {
    && frames != []
    && EventsOf(line, frames[..|frames| - 1])
    && Suits(line, |frames| > 1, frames[|frames| - 1])
    && !frames[|frames| - 1].saying.Happened?
  }

  ghost predicate StageOk(line: Line, stage: Stage, own: seq<Frame>) {
    match stage
    case Thinking(begun) => EventsOf(line, own) && (begun <==> own != [])
    case Wants(frame) => EventsOf(line, own) && Suits(line, own != [], frame)
    case Holding(frame, written) =>
      if written <= |frame.text| then EventsOf(line, own) && Suits(line, own != [], frame)
      else if frame.saying.Happened? then EventsOf(line, own) && own != []
      else Answered(line, own)
    case Finished => Answered(line, own)
  }

  ghost predicate StagesOk(lines: seq<Line>, s: State) {
    forall k :: k in s.stages ==> k < |lines| && StageOk(lines[k], s.stages[k], Own(s.sent, k))
  }

  /** Nothing was written for a line not read yet, and each frame has its line's label. */
  ghost predicate SentOk(s: State) {
    && (forall i :: 0 <= i < |s.sent| ==> s.sent[i].line in s.stages)
    && (forall k :: k !in s.stages ==> Own(s.sent, k) == [])
  }

  lemma StageAtLast(line: Line, own: seq<Frame>, frame: Frame)
    requires EventsOf(line, own) && Suits(line, own != [], frame)
    ensures StageOk(line, Holding(frame, |Bytes(frame)|), own + [frame])
  {
    assert (own + [frame])[..|own + [frame]| - 1] == own;
  }

  /** One more frame changes nothing for another line. */
  lemma OwnAtLast(lines: seq<Line>, s: State, m: Move, j: nat)
    requires Can(lines, s, m) && Completes(s, m)
    ensures Own(Next(lines, s, m).sent, j) == Own(s.sent, j) + if j == m.line then [s.stages[m.line].frame] else []
  {
    OwnGrows(s.sent, Sent(m.line, s.stages[m.line].frame), j);
  }

  lemma StagesAtLast(lines: seq<Line>, s: State, m: Move)
    requires StagesOk(lines, s) && Can(lines, s, m) && Completes(s, m)
    ensures StagesOk(lines, Next(lines, s, m))
  {
    var t, k := Next(lines, s, m), m.line;
    assert StageOk(lines[k], s.stages[k], Own(s.sent, k));
    forall j | j in t.stages
      ensures j < |lines| && StageOk(lines[j], t.stages[j], Own(t.sent, j))
    {
      OwnAtLast(lines, s, m, j);
      if j == k {
        StageAtLast(lines[k], Own(s.sent, k), s.stages[k].frame);
      } else {
        assert Own(s.sent, j) + [] == Own(s.sent, j);
        assert StageOk(lines[j], s.stages[j], Own(s.sent, j));
      }
    }
  }

  lemma SentAtLast(lines: seq<Line>, s: State, m: Move)
    requires SentOk(s) && Can(lines, s, m) && Completes(s, m)
    ensures SentOk(Next(lines, s, m))
  {
    forall j: nat | j !in s.stages
      ensures Own(Next(lines, s, m).sent, j) == []
    {
      OwnAtLast(lines, s, m, j);
    }
  }

  /** A line's stage after a move that completes no frame: what it was, or one on from it. */
  predicate StageMoves(lines: seq<Line>, s: State, m: Move, k: nat)
    requires Can(lines, s, m) && k in Next(lines, s, m).stages
  {
    var b := Next(lines, s, m).stages[k];
    if k !in s.stages then k == s.at < |lines| && b == Thinking(false)
    else
      var a := s.stages[k];
      || b == a
      || (a.Thinking? && b.Wants? && k < |lines| && Suits(lines[k], a.begun, b.frame))
      || (a.Wants? && b == Holding(a.frame, 0))
      || (a.Holding? && b.Holding? && b.frame == a.frame && a.written <= b.written <= |a.frame.text|)
      || (a.Holding? && a.written > |a.frame.text| && b == Released(a.frame))
  }

  lemma OneStageMoves(lines: seq<Line>, s: State, m: Move, k: nat)
    requires Can(lines, s, m) && !Completes(s, m) && s.at !in s.stages && k in Next(lines, s, m).stages
    ensures StageMoves(lines, s, m, k)
  {
  }

  lemma StagesElsewhere(lines: seq<Line>, s: State, m: Move)
    requires StagesOk(lines, s) && SentOk(s) && Can(lines, s, m) && !Completes(s, m) && s.at !in s.stages
    ensures StagesOk(lines, Next(lines, s, m))
  {
    var t := Next(lines, s, m);
    assert t.sent == s.sent;
    forall k | k in t.stages
      ensures k < |lines| && StageOk(lines[k], t.stages[k], Own(t.sent, k))
    {
      OneStageMoves(lines, s, m, k);
      assert k in s.stages ==> StageOk(lines[k], s.stages[k], Own(s.sent, k));
    }
  }

  lemma SentElsewhere(lines: seq<Line>, s: State, m: Move)
    requires SentOk(s) && Can(lines, s, m) && !Completes(s, m) && s.at !in s.stages
    ensures SentOk(Next(lines, s, m))
  {
  }

  // ---------------------------------------------------------------------------
  // The reader and its tasks
  // ---------------------------------------------------------------------------

  ghost predicate ReaderOk(lines: seq<Line>, s: State) {
    && s.at <= |lines|
    && (forall k: nat :: k in s.stages <==> k < s.at && !lines[k].Blank?)
    && (forall k :: k in s.answering ==> k in s.stages)
    && (forall k :: k in s.stages && !s.stages[k].Finished? ==> k in s.answering || s.reader == Answering(k))
    && (s.reader.Answering? ==> s.reader.line in s.stages)
    && (s.reader.Draining? || s.reader.Returned? ==> s.at == |lines|)
    && (s.reader.Returned? ==> s.answering == {})
  }

  lemma ReaderKeeps(lines: seq<Line>, s: State, m: Move)
    requires ReaderOk(lines, s) && Can(lines, s, m)
    ensures ReaderOk(lines, Next(lines, s, m))
  {
  }

  ghost predicate Invariant(lines: seq<Line>, s: State) {
    OutOk(s) && StagesOk(lines, s) && SentOk(s) && ReaderOk(lines, s)
  }

  lemma Keeps(lines: seq<Line>, s: State, m: Move)
    requires Invariant(lines, s) && Can(lines, s, m)
    ensures Invariant(lines, Next(lines, s, m))
  {
    ReaderKeeps(lines, s, m);
    OutKeeps(lines, s, m);
    if Completes(s, m) {
      StagesAtLast(lines, s, m);
      SentAtLast(lines, s, m);
    } else {
      StagesElsewhere(lines, s, m);
      SentElsewhere(lines, s, m);
    }
  }

  lemma {:induction false} RunKeeps(lines: seq<Line>, s: State, moves: seq<Move>, t: State)
    requires Invariant(lines, s) && Leads(lines, s, moves, t)
    ensures Invariant(lines, t)
    decreases |moves|
  {
    if moves != [] {
      Keeps(lines, s, moves[0]);
      RunKeeps(lines, Next(lines, s, moves[0]), moves[1..], t);
    }
  }

  lemma Everywhere(lines: seq<Line>, t: State)
    requires Reachable(lines, t)
    ensures Invariant(lines, t)
  {
    var moves :| Leads(lines, Initial(), moves, t);
    RunKeeps(lines, Initial(), moves, t);
  }

  // ---------------------------------------------------------------------------
  // What the reader waits for
  // ---------------------------------------------------------------------------

  /** The reader waits with a line that could not be read, and with no other. */
  ghost predicate WaitsFor(lines: seq<Line>, s: State) {
    && (forall k :: k in s.answering ==> k < |lines| && lines[k].Ask?)
    && (s.reader.Answering? ==> s.reader.line + 1 == s.at <= |lines| && lines[s.reader.line].Malformed?)
  }

  lemma WaitsOn(lines: seq<Line>, s: State, m: Move)
    requires WaitsFor(lines, s) && Can(lines, s, m)
    ensures WaitsFor(lines, Next(lines, s, m))
  {
  }

  lemma {:induction false} RunWaits(lines: seq<Line>, s: State, moves: seq<Move>, t: State)
    requires WaitsFor(lines, s) && Leads(lines, s, moves, t)
    ensures WaitsFor(lines, t)
    decreases |moves|
  {
    if moves != [] {
      WaitsOn(lines, s, moves[0]);
      RunWaits(lines, Next(lines, s, moves[0]), moves[1..], t);
    }
  }

  /** What could not be read is answered before anything after it is read. */
  lemma UnreadableIsAnsweredFirst(lines: seq<Line>, t: State, k: nat, later: nat)
    requires Reachable(lines, t) && k < later < |lines| && lines[k].Malformed? && later < t.at
    ensures k in t.stages && t.stages[k].Finished? && Answered(lines[k], Own(t.sent, k))
  {
    Everywhere(lines, t);
    var moves :| Leads(lines, Initial(), moves, t);
    RunWaits(lines, Initial(), moves, t);
    assert StageOk(lines[k], t.stages[k], Own(t.sent, k));
  }

  /** And questions are not waited for: however many are still being answered, and however long a
      watch takes, the reader goes on to the next line. */
  lemma QuestionsAreNotWaitedFor(lines: seq<Line>, t: State) returns (m: Move)
    requires Reachable(lines, t) && (t.reader.Reading? || t.reader.Answering?)
    requires forall k :: k in t.stages && k < |lines| && lines[k].Malformed? ==> t.stages[k].Finished?
    ensures Can(lines, t, m) && (m.ReadLine? || m.EndOfInput? || m.GoOnReading?)
  {
    Everywhere(lines, t);
    var moves :| Leads(lines, Initial(), moves, t);
    RunWaits(lines, Initial(), moves, t);
    m := if t.reader.Answering? then GoOnReading else if t.at < |lines| then ReadLine else EndOfInput;
  }

  // ---------------------------------------------------------------------------
  // What that comes to
  // ---------------------------------------------------------------------------

  /** At any moment a reader splitting the output at newlines has every frame written whole, in
      order and each as it was written, and nothing else but a part of the one frame whose
      writer holds the output. */
  lemma WholeFrames(lines: seq<Line>, t: State)
    requires Reachable(lines, t)
    ensures Idle(t) ==> Split(t.out) == Read(Texts(t.sent), "")
    ensures forall k :: Held(t, k) ==> SplitsAs(t, t.stages[k].frame.text, t.stages[k].written)
  {
    Everywhere(lines, t);
    SplitRecovers(t.sent);
    forall k | Held(t, k)
      ensures SplitsAs(t, t.stages[k].frame.text, t.stages[k].written)
    {
      assert Partly(t, k);
      if t.stages[k].written <= |t.stages[k].frame.text| {
        SplitPart(t.sent, t.stages[k].frame, t.stages[k].written);
      } else {
        assert Rendered(t.sent) + "" == Rendered(t.sent);
      }
    }
  }

  /** So much of one frame's line and no more; once its newline is out it is one of the rest. */
  ghost predicate SplitsAs(t: State, text: string, written: nat) {
    Split(t.out) == Read(Texts(t.sent), if written <= |text| then text[..written] else "")
  }

  /** When `speak` returns, every line that was not blank has been answered, once: a watch by
      its events and then an end or by an error alone, any other question by a result or an
      error, a line that was no question by an error with no label; the output is those frames
      and nothing else, and no task is left. */
  lemma EveryQuestionAnswered(lines: seq<Line>, t: State, k: nat)
    requires Reachable(lines, t) && t.reader.Returned? && k < |lines|
    ensures if lines[k].Blank? then Own(t.sent, k) == [] else Answered(lines[k], Own(t.sent, k))
    ensures k in t.stages ==> t.stages[k].Finished?
    ensures Split(t.out) == Read(Texts(t.sent), "")
    ensures forall i :: 0 <= i < |t.sent| ==> t.sent[i].line < |lines|
  {
    Everywhere(lines, t);
    assert Idle(t);
    WholeFrames(lines, t);
  }

  /** Every frame written is labelled as its question was and is of a kind that answers it; what
      could not be read is answered with an error that has no label, and a blank line with nothing
      (src/stdio.rs:102-113, 139-187, 354-395). */
  lemma FramesSuitTheirLines(lines: seq<Line>, t: State, i: nat)
    requires Reachable(lines, t) && i < |t.sent|
    ensures t.sent[i].line < |lines|
    ensures var said := t.sent[i].frame;
      match lines[t.sent[i].line]
      case Blank => false
      case Malformed => said.tag == Null && said.saying.Refusal?
      case Ask(tag, watching) =>
        said.tag == tag
        && if watching then said.saying.Happened? || said.saying.End? || said.saying.Refusal?
           else said.saying.Value? || said.saying.Refusal?
  {
    Everywhere(lines, t);
    var k := t.sent[i].line;
    var at := FrameOfOwn(t.sent, i);
    OwnSuits(lines[k], t.stages[k], Own(t.sent, k), at);
  }

  lemma OwnSuits(line: Line, stage: Stage, own: seq<Frame>, at: nat)
    requires StageOk(line, stage, own) && at < |own|
    ensures Suits(line, own[at].saying.Happened? || !own[at].saying.Refusal?, own[at])
            || (own[at].saying.Refusal? && at == 0 && Suits(line, false, own[at]))
  {
    if Answered(line, own) && at < |own| - 1 {
      assert own[at] == own[..|own| - 1][at];
    }
  }

  /** An error comes alone: a watch that has told an event is not refused any more. */
  lemma RefusalsStandAlone(lines: seq<Line>, t: State, k: nat, at: nat)
    requires Reachable(lines, t) && at < |Own(t.sent, k)| && Own(t.sent, k)[at].saying.Refusal?
    ensures |Own(t.sent, k)| == 1
  {
    Everywhere(lines, t);
    assert k in t.stages;
    RefusalIsAlone(lines[k], t.stages[k], Own(t.sent, k), at);
  }

  lemma RefusalIsAlone(line: Line, stage: Stage, own: seq<Frame>, at: nat)
    requires StageOk(line, stage, own) && at < |own| && own[at].saying.Refusal?
    ensures |own| == 1
  {
    if Answered(line, own) && at < |own| - 1 {
      NoneIsRefused(line, own[..|own| - 1], at);
    } else if !Answered(line, own) {
      NoneIsRefused(line, own, at);
    }
  }

  lemma NoneIsRefused(line: Line, frames: seq<Frame>, at: nat)
    requires EventsOf(line, frames) && at < |frames|
    ensures !frames[at].saying.Refusal?
  {
  }

  /** The frames with one label, as a client tells them apart. */
  function Labelled(sent: seq<Sent>, tag: Label): seq<Frame> {
    if sent == [] then []
    else
      var last := sent[|sent| - 1];
      Labelled(sent[..|sent| - 1], tag) + if last.frame.tag == tag then [last.frame] else []
  }

  /** A label no other line answers under. */
  ghost predicate Distinct(lines: seq<Line>, k: nat)
    requires k < |lines|
  {
    forall j :: 0 <= j < |lines| && j != k && !lines[j].Blank? ==> LabelOf(lines[j]) != LabelOf(lines[k])
  }

  lemma {:induction false} FrameOfOwn(sent: seq<Sent>, i: nat) returns (at: nat)
    requires i < |sent|
    ensures at < |Own(sent, sent[i].line)| && Own(sent, sent[i].line)[at] == sent[i].frame
  {
    var k, init := sent[i].line, sent[..|sent| - 1];
    if i == |sent| - 1 {
      at := |Own(init, k)|;
    } else {
      at := FrameOfOwn(init, i);
    }
  }

  lemma OwnTag(line: Line, stage: Stage, own: seq<Frame>, at: nat)
    requires StageOk(line, stage, own) && at < |own|
    ensures !line.Blank? && own[at].tag == LabelOf(line)
  {
    if stage.Finished? && at < |own| - 1 {
      assert own[..|own| - 1][at] == own[at];
    }
  }

  /** Every frame carries the label of the line it answers. */
  ghost predicate TagOk(lines: seq<Line>, x: Sent) {
    x.line < |lines| && !lines[x.line].Blank? && x.frame.tag == LabelOf(lines[x.line])
  }

  lemma TagsAreTheirLines(lines: seq<Line>, t: State, i: nat)
    requires StagesOk(lines, t) && SentOk(t) && i < |t.sent|
    ensures TagOk(lines, t.sent[i])
  {
    var k := t.sent[i].line;
    var at := FrameOfOwn(t.sent, i);
    OwnTag(lines[k], t.stages[k], Own(t.sent, k), at);
  }

  lemma {:induction false} LabelledIsOwn(lines: seq<Line>, sent: seq<Sent>, k: nat)
    requires k < |lines| && Distinct(lines, k)
    requires forall i :: 0 <= i < |sent| ==> TagOk(lines, sent[i])
    ensures Labelled(sent, LabelOf(lines[k])) == Own(sent, k)
  {
    if sent != [] {
      LabelledIsOwn(lines, sent[..|sent| - 1], k);
      assert TagOk(lines, sent[|sent| - 1]);
    }
  }

  /** Frames under one label come in the order their own task wrote them, whatever else was
      being answered: under a label asked for once, a client sees what that question was
      answered with. */
  lemma LabelTellsThemApart(lines: seq<Line>, t: State, k: nat)
    requires Reachable(lines, t) && k < |lines| && Distinct(lines, k)
    ensures Labelled(t.sent, LabelOf(lines[k])) == Own(t.sent, k)
  {
    Everywhere(lines, t);
    forall i | 0 <= i < |t.sent|
      ensures TagOk(lines, t.sent[i])
    {
      TagsAreTheirLines(lines, t, i);
    }
    LabelledIsOwn(lines, t.sent, k);
  }

  // ---------------------------------------------------------------------------
  // Nobody waits for ever
  // ---------------------------------------------------------------------------

  /** A frame some line can be answered with. */
  function AnAnswer(line: Line): Frame
    requires !line.Blank?
  {
    match line
    case Malformed => Frame(Null, Refusal, "")
    case Ask(tag, watching) => Frame(tag, if watching then End else Value, "")
  }

  lemma TaskCanMove(lines: seq<Line>, s: State, k: nat) returns (m: Move)
    requires Invariant(lines, s) && k in s.stages && !s.stages[k].Finished?
    requires Idle(s) || Held(s, k)
    ensures Can(lines, s, m)
  {
    assert StageOk(lines[k], s.stages[k], Own(s.sent, k));
    match s.stages[k]
    case Thinking(begun) =>
      m := Decide(k, AnAnswer(lines[k]));
    case Wants(_) =>
      m := Lock(k);
    case Holding(frame, written) =>
      assert Partly(s, k);
      m := if written == |Bytes(frame)| then Unlock(k) else Write(k, 1);
  }

  lemma ReaderCanMove(lines: seq<Line>, s: State) returns (m: Move)
    requires Invariant(lines, s) && !s.reader.Returned?
    requires forall k :: k in s.stages ==> s.stages[k].Finished?
    ensures Can(lines, s, m)
  {
    match s.reader
    case Reading => m := if s.at < |lines| then ReadLine else EndOfInput;
    case Answering(k) => m := GoOnReading;
    case Draining =>
      if s.answering == {} {
        m := Return;
      } else {
        var k: nat :| k in s.answering;
        m := Reap(k);
      }
  }

  /** Until `speak` has returned somebody can move: no task waits for a lock nobody will give
      back, and the reader waits only for tasks that can go on. */
  lemma NeverStuck(lines: seq<Line>, t: State) returns (m: Move)
    requires Reachable(lines, t) && !t.reader.Returned?
    ensures Can(lines, t, m)
  {
    Everywhere(lines, t);
    if holder: nat :| Held(t, holder) {
      m := TaskCanMove(lines, t, holder);
    } else if k: nat :| k in t.stages && !t.stages[k].Finished? {
      m := TaskCanMove(lines, t, k);
    } else {
      m := ReaderCanMove(lines, t);
    }
  }
}
