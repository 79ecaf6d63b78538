/** Both halves together (src/stdio.rs:83-189; examples/scan.ts:49-124, 163-170): one client, one
    connection, and frames on their way between them.

    The client asks and closes its end whenever it likes, the daemon moves as `Speak` has it,
    and the client takes the frames in the order they were written, each some time after it was
    written whole. */
module Conversation {
  import EventLog
  import opened Lines
  import opened Speak
  import opened SpeakRuns
  import opened Client
  import opened Wrappers

  datatype Talk = Talk(client: ClientState, daemon: State, got: nat, closed: bool)

  const START := Talk(FRESH, Initial(), 0, false)

  datatype Step =
    | Asks(watching: bool)
    | Closes
    | Moves(move: Move)
    | Takes

  predicate May(t: Talk, x: Step) {
    match x
    case Asks(_) => !t.closed
    case Closes => !t.closed
    case Moves(m) => Can(t.client.asked, t.daemon, m) && (m.EndOfInput? ==> t.closed)
    case Takes => t.got < |t.daemon.sent|
  }

  function Stepped(t: Talk, x: Step): Talk
    requires May(t, x)
  {
    match x
    case Asks(watching) => t.(client := Asking(t.client, watching))
    case Closes => t.(closed := true)
    case Moves(m) => t.(daemon := Next(t.client.asked, t.daemon, m))
    case Takes => t.(client := OnLine(t.client, t.daemon.sent[t.got].frame), got := t.got + 1)
  }

  predicate Goes(t: Talk, steps: seq<Step>, u: Talk)
    decreases |steps|
  {
    if steps == [] then t == u else May(t, steps[0]) && Goes(Stepped(t, steps[0]), steps[1..], u)
  }

  ghost predicate Happens(u: Talk) {
    exists steps :: Goes(START, steps, u)
  }

  // ---------------------------------------------------------------------------
  // What frames under one label ought to come to
  // ---------------------------------------------------------------------------

  /** The first frame that is no event settles the promise. */
  function SettledBy(frames: seq<Frame>): seq<Outcome> {
    if frames == [] then []
    else
      var before, last := SettledBy(frames[..|frames| - 1]), frames[|frames| - 1];
      if before != [] || last.saying.Happened? then before else [OutcomeOf(last)]
  }

  /** Events are heard until then. */
  function HeardFrom(frames: seq<Frame>): seq<EventLog.Event> {
    if frames == [] then []
    else
      var init, last := frames[..|frames| - 1], frames[|frames| - 1];
      if SettledBy(init) == [] && last.saying.Happened? then HeardFrom(init) + [last.saying.event] else HeardFrom(init)
  }

  /** All the events there are among some frames. */
  function EventsIn(frames: seq<Frame>): seq<EventLog.Event> {
    if frames == [] then []
    else
      var last := frames[|frames| - 1];
      EventsIn(frames[..|frames| - 1]) + if last.saying.Happened? then [last.saying.event] else []
  }

  lemma {:induction false} EventsSettleNothing(line: Line, frames: seq<Frame>)
    requires EventsOf(line, frames)
    ensures SettledBy(frames) == [] && HeardFrom(frames) == EventsIn(frames)
  {
    if frames != [] {
      EventsSettleNothing(line, frames[..|frames| - 1]);
    }
  }

  /** Frames as this daemon writes them: nothing comes after the answer, so every event is
      heard. */
  lemma AnsweredSettlesOnce(line: Line, frames: seq<Frame>)
    requires Answered(line, frames)
    ensures SettledBy(frames) == [OutcomeOf(frames[|frames| - 1])]
    ensures HeardFrom(frames) == EventsIn(frames)
  {
    EventsSettleNothing(line, frames[..|frames| - 1]);
  }

  // ---------------------------------------------------------------------------
  // What every conversation keeps
  // ---------------------------------------------------------------------------

  /** What the client has for its question `k`, given the frames it took under that label. */
  ghost predicate Follows(c: ClientState, k: nat, frames: seq<Frame>)
    requires Sound(c) && k < |c.asked|
  {
    var id, watching := k + 1, c.asked[k].watching;
    && c.settled[id] == SettledBy(frames)
    && c.heard[id] == (if watching then HeardFrom(frames) else [])
    && (id in c.answers <==> SettledBy(frames) == [])
    && (id in c.streams <==> watching && SettledBy(frames) == [])
  }

  function Taken(t: Talk, k: nat): seq<Frame>
    requires t.got <= |t.daemon.sent|
  {
    Own(t.daemon.sent[..t.got], k)
  }

  ghost predicate TalkOk(t: Talk) {
    && Sound(t.client)
    && Invariant(t.client.asked, t.daemon)
    && t.got <= |t.daemon.sent|
    && (t.daemon.reader.Draining? || t.daemon.reader.Returned? ==> t.closed)
  }

  ghost predicate FollowsSent(c: ClientState, sent: seq<Sent>, got: nat)
    requires Sound(c) && got <= |sent|
  {
    forall k :: 0 <= k < |c.asked| ==> Follows(c, k, Own(sent[..got], k))
  }

  ghost predicate FollowsAll(t: Talk)
    requires TalkOk(t)
  {
    FollowsSent(t.client, t.daemon.sent, t.got)
  }

  /** A line more to read changes nothing for what was read, unless reading was over. */
  lemma MoreToRead(lines: seq<Line>, s: State, line: Line)
    requires Invariant(lines, s) && !s.reader.Draining? && !s.reader.Returned?
    ensures Invariant(lines + [line], s)
  {
    forall k | k in s.stages
      ensures k < |lines| && (lines + [line])[k] == lines[k]
    {
    }
  }

  lemma MoveKeeps(t: Talk, m: Move)
    requires TalkOk(t) && May(t, Moves(m))
    ensures TalkOk(Stepped(t, Moves(m)))
  {
    Keeps(t.client.asked, t.daemon, m);
    SentOnlyGrows(t.client.asked, t.daemon, m, t.got);
  }

  lemma TalkKeeps(t: Talk, x: Step)
    requires TalkOk(t) && May(t, x)
    ensures TalkOk(Stepped(t, x))
  {
    match x
    case Asks(watching) =>
      StaysSound(t.client, watching, Frame(Null, End, ""));
      MoreToRead(t.client.asked, t.daemon, Ask(Id(t.client.next), watching));
    case Closes =>
    case Moves(m) => MoveKeeps(t, m);
    case Takes => StaysSound(t.client, false, t.daemon.sent[t.got].frame);
  }

  lemma SentOnlyGrows(lines: seq<Line>, s: State, m: Move, got: nat)
    requires Can(lines, s, m) && got <= |s.sent|
    ensures got <= |Next(lines, s, m).sent| && Next(lines, s, m).sent[..got] == s.sent[..got]
  {
  }

  lemma AskingStands(c: ClientState, watching: bool, k: nat, frames: seq<Frame>)
    requires Sound(c) && k < |c.asked| && Follows(c, k, frames)
    ensures Sound(Asking(c, watching)) && Follows(Asking(c, watching), k, frames)
  {
    StaysSound(c, watching, Frame(Null, End, ""));
  }

  lemma AskingStarts(c: ClientState, watching: bool)
    requires Sound(c)
    ensures Sound(Asking(c, watching)) && Follows(Asking(c, watching), |c.asked|, [])
  {
    StaysSound(c, watching, Frame(Null, End, ""));
  }

  /** A question just asked has had no answer: its line has not been read. */
  lemma AskedFollows(c: ClientState, watching: bool, sent: seq<Sent>, got: nat)
    requires Sound(c) && got <= |sent| && FollowsSent(c, sent, got)
    requires Own(sent[..got], |c.asked|) == []
    ensures Sound(Asking(c, watching)) && FollowsSent(Asking(c, watching), sent, got)
  {
    AskingStarts(c, watching);
    var d := Asking(c, watching);
    forall k | 0 <= k < |d.asked|
      ensures Follows(d, k, Own(sent[..got], k))
    {
      if k < |c.asked| {
        assert Follows(c, k, Own(sent[..got], k));
        AskingStands(c, watching, k, Own(sent[..got], k));
      }
    }
  }

  lemma SameFollows(c: ClientState, sent: seq<Sent>, more: seq<Sent>, got: nat)
    requires Sound(c) && got <= |sent| && got <= |more| && sent[..got] == more[..got] && FollowsSent(c, sent, got)
    ensures FollowsSent(c, more, got)
  {
    forall k | 0 <= k < |c.asked|
      ensures Follows(c, k, Own(more[..got], k))
    {
      assert Follows(c, k, Own(sent[..got], k));
    }
  }

  lemma NothingOfIt(lines: seq<Line>, s: State, got: nat)
    requires Invariant(lines, s) && got <= |s.sent|
    ensures Own(s.sent[..got], |lines|) == []
  {
    OwnIsPrefix(s.sent, got, |lines|);
  }

  lemma {:induction false} OwnIsPrefix(sent: seq<Sent>, got: nat, k: nat)
    requires got <= |sent|
    ensures Own(sent[..got], k) <= Own(sent, k)
    decreases |sent| - got
  {
    if got < |sent| {
      assert sent[..got + 1] == sent[..got] + [sent[got]];
      OwnGrows(sent[..got], sent[got], k);
      OwnIsPrefix(sent, got + 1, k);
    } else {
      assert sent[..got] == sent;
    }
  }

  lemma OneMoreFrame(frames: seq<Frame>, frame: Frame)
    ensures SettledBy(frames + [frame])
         == if SettledBy(frames) != [] || frame.saying.Happened? then SettledBy(frames) else [OutcomeOf(frame)]
    ensures HeardFrom(frames + [frame])
         == HeardFrom(frames)
            + if SettledBy(frames) == [] && frame.saying.Happened? then [frame.saying.event] else []
  {
    assert (frames + [frame])[..|frames + [frame]| - 1] == frames;
  }

  lemma OneMoreEvent(c: ClientState, k: nat, frames: seq<Frame>, frame: Frame)
    requires Sound(c) && k < |c.asked| && Follows(c, k, frames) && frame.tag == Id(k + 1) && frame.saying.Happened?
    ensures Sound(OnLine(c, frame)) && Follows(OnLine(c, frame), k, frames + [frame])
  {
    StaysSound(c, false, frame);
    OneMoreFrame(frames, frame);
    assert HeardFrom(frames) + [] == HeardFrom(frames);
  }

  lemma OneMoreAnswer(c: ClientState, k: nat, frames: seq<Frame>, frame: Frame)
    requires Sound(c) && k < |c.asked| && Follows(c, k, frames) && frame.tag == Id(k + 1) && !frame.saying.Happened?
    ensures Sound(OnLine(c, frame)) && Follows(OnLine(c, frame), k, frames + [frame])
  {
    StaysSound(c, false, frame);
    OneMoreFrame(frames, frame);
    assert HeardFrom(frames) + [] == HeardFrom(frames);
  }

  lemma OneMore(c: ClientState, k: nat, frames: seq<Frame>, frame: Frame)
    requires Sound(c) && k < |c.asked| && Follows(c, k, frames) && frame.tag == Id(k + 1)
    ensures Sound(OnLine(c, frame)) && Follows(OnLine(c, frame), k, frames + [frame])
  {
    if frame.saying.Happened? {
      OneMoreEvent(c, k, frames, frame);
    } else {
      OneMoreAnswer(c, k, frames, frame);
    }
  }

  lemma NotTheirs(c: ClientState, k: nat, frames: seq<Frame>, x: Sent)
    requires Sound(c) && k < |c.asked| && Follows(c, k, frames) && x.frame.tag == Id(x.line + 1) && x.line != k
    ensures Sound(OnLine(c, x.frame)) && Follows(OnLine(c, x.frame), k, frames)
  {
    StaysSound(c, false, x.frame);
  }

  lemma TakenGrows(sent: seq<Sent>, got: nat, k: nat)
    requires got < |sent|
    ensures Own(sent[..got + 1], k) == Own(sent[..got], k) + if k == sent[got].line then [sent[got].frame] else []
  {
    assert sent[..got + 1] == sent[..got] + [sent[got]];
    OwnGrows(sent[..got], sent[got], k);
  }

  /** The label of a frame is the id the client gave its question. */
  lemma LabelIsItsId(c: ClientState, s: State, i: nat)
    requires Sound(c) && Invariant(c.asked, s) && i < |s.sent|
    ensures s.sent[i].frame.tag == Id(s.sent[i].line + 1)
  {
    TagsAreTheirLines(c.asked, s, i);
  }

  /** A frame taken goes to the question it answers and to no other. */
  lemma TakenFollowsOne(c: ClientState, k: nat, frames: seq<Frame>, x: Sent)
    requires Sound(c) && k < |c.asked| && Follows(c, k, frames) && x.frame.tag == Id(x.line + 1)
    ensures Sound(OnLine(c, x.frame))
    ensures Follows(OnLine(c, x.frame), k, frames + if k == x.line then [x.frame] else [])
  {
    if k == x.line {
      OneMore(c, k, frames, x.frame);
    } else {
      assert frames + [] == frames;
      NotTheirs(c, k, frames, x);
    }
  }

  lemma TakenFollows(c: ClientState, sent: seq<Sent>, got: nat)
    requires Sound(c) && got < |sent| && sent[got].frame.tag == Id(sent[got].line + 1)
    requires FollowsSent(c, sent, got)
    ensures Sound(OnLine(c, sent[got].frame)) && FollowsSent(OnLine(c, sent[got].frame), sent, got + 1)
  {
    StaysSound(c, false, sent[got].frame);
    var d, taken := OnLine(c, sent[got].frame), sent[..got + 1];
    forall k | 0 <= k < |d.asked|
      ensures Follows(d, k, Own(taken, k))
    {
      assert Follows(c, k, Own(sent[..got], k));
      TakenGrows(sent, got, k);
      TakenFollowsOne(c, k, Own(sent[..got], k), sent[got]);
    }
  }

  lemma MoveFollows(c: ClientState, s: State, got: nat, m: Move)
    requires Sound(c) && Can(c.asked, s, m) && got <= |s.sent| && FollowsSent(c, s.sent, got)
    ensures got <= |Next(c.asked, s, m).sent| && FollowsSent(c, Next(c.asked, s, m).sent, got)
  {
    SentOnlyGrows(c.asked, s, m, got);
    SameFollows(c, s.sent, Next(c.asked, s, m).sent, got);
  }

  lemma AskFollows(c: ClientState, s: State, got: nat, watching: bool)
    requires Sound(c) && Invariant(c.asked, s) && got <= |s.sent| && FollowsSent(c, s.sent, got)
    ensures Sound(Asking(c, watching)) && FollowsSent(Asking(c, watching), s.sent, got)
  {
    NothingOfIt(c.asked, s, got);
    AskedFollows(c, watching, s.sent, got);
  }

  lemma TakeFollows(c: ClientState, s: State, got: nat)
    requires Sound(c) && Invariant(c.asked, s) && got < |s.sent| && FollowsSent(c, s.sent, got)
    ensures Sound(OnLine(c, s.sent[got].frame)) && FollowsSent(OnLine(c, s.sent[got].frame), s.sent, got + 1)
  {
    LabelIsItsId(c, s, got);
    TakenFollows(c, s.sent, got);
  }

  /** What the client has is what the frames it took make of it. */
  ghost predicate Kept(t: Talk) {
    Sound(t.client) && t.got <= |t.daemon.sent| && FollowsSent(t.client, t.daemon.sent, t.got)
  }

  lemma AskKept(t: Talk, watching: bool)
    requires Kept(t) && Invariant(t.client.asked, t.daemon) && May(t, Asks(watching))
    ensures Kept(Stepped(t, Asks(watching)))
  {
    AskFollows(t.client, t.daemon, t.got, watching);
  }

  lemma MoveKept(t: Talk, m: Move)
    requires Kept(t) && May(t, Moves(m))
    ensures Kept(Stepped(t, Moves(m)))
  {
    MoveFollows(t.client, t.daemon, t.got, m);
  }

  lemma TakeKept(t: Talk)
    requires Kept(t) && Invariant(t.client.asked, t.daemon) && May(t, Takes)
    ensures Kept(Stepped(t, Takes))
  {
    TakeFollows(t.client, t.daemon, t.got);
  }

  lemma StepFollows(t: Talk, x: Step)
    requires Kept(t) && Invariant(t.client.asked, t.daemon) && May(t, x)
    ensures Kept(Stepped(t, x))
  {
    match x
    case Asks(watching) => AskKept(t, watching);
    case Closes =>
    case Moves(m) => MoveKept(t, m);
    case Takes => TakeKept(t);
  }

  lemma StepKeeps(t: Talk, x: Step)
    requires TalkOk(t) && FollowsAll(t) && May(t, x)
    ensures TalkOk(Stepped(t, x)) && FollowsAll(Stepped(t, x))
  {
    TalkKeeps(t, x);
    StepFollows(t, x);
  }

  lemma {:induction false} TalkRunKeeps(t: Talk, steps: seq<Step>, u: Talk)
    requires Goes(t, steps, u)
    ensures TalkOk(t) && FollowsAll(t) ==> TalkOk(u) && FollowsAll(u)
    decreases |steps|
  {
    if steps != [] {
      if TalkOk(t) && FollowsAll(t) {
        StepKeeps(t, steps[0]);
      }
      TalkRunKeeps(Stepped(t, steps[0]), steps[1..], u);
    }
  }

  lemma AnyTalk(u: Talk)
    requires Happens(u)
    ensures TalkOk(u) && FollowsAll(u)
  {
    var steps :| Goes(START, steps, u);
    TalkRunKeeps(START, steps, u);
  }

  // ---------------------------------------------------------------------------
  // What that comes to
  // ---------------------------------------------------------------------------

  lemma {:induction false} EventsOfPrefix(a: seq<Frame>, b: seq<Frame>)
    requires a <= b
    ensures EventsIn(a) <= EventsIn(b)
    decreases |b|
  {
    if a == b {
      assert EventsIn(a) == EventsIn(b);
    } else {
      EventsOfPrefix(a, b[..|b| - 1]);
    }
  }

  lemma {:induction false} SettlesAtMostOnce(frames: seq<Frame>)
    ensures |SettledBy(frames)| <= 1
    ensures HeardFrom(frames) <= EventsIn(frames)
  {
    if frames != [] {
      SettlesAtMostOnce(frames[..|frames| - 1]);
      NothingAfterTheAnswer(frames[..|frames| - 1]);
    }
  }

  lemma NothingAfterTheAnswer(frames: seq<Frame>)
    ensures SettledBy(frames) == [] ==> HeardFrom(frames) == EventsIn(frames)
  {
  }

  /** At any moment of any conversation, however many questions are being answered at once, a
      watch has heard a first part of the events its own task wrote and nothing else, and no
      promise has settled twice. */
  lemma HearsItsOwn(u: Talk, k: nat)
    requires Happens(u) && k < |u.client.asked|
    ensures k + 1 in u.client.heard && k + 1 in u.client.settled
    ensures u.client.heard[k + 1] <= EventsIn(Own(u.daemon.sent, k))
    ensures |u.client.settled[k + 1]| <= 1
  {
    AnyTalk(u);
    assert Follows(u.client, k, Taken(u, k));
    SettlesAtMostOnce(Taken(u, k));
    OwnIsPrefix(u.daemon.sent, u.got, k);
    EventsOfPrefix(Taken(u, k), Own(u.daemon.sent, k));
  }

  lemma NoEvents(line: Line, frames: seq<Frame>)
    requires Answered(line, frames) && !(line.Ask? && line.watching)
    ensures EventsIn(frames) == []
  {
    var init := frames[..|frames| - 1];
    assert init == [];
    assert EventsIn(init) == [];
  }

  lemma AnsweredFollows(c: ClientState, k: nat, own: seq<Frame>)
    requires Sound(c) && k < |c.asked| && Follows(c, k, own) && Answered(c.asked[k], own)
    ensures k + 1 !in c.answers && k + 1 !in c.streams
    ensures c.settled[k + 1] == [OutcomeOf(own[|own| - 1])] && c.heard[k + 1] == EventsIn(own)
  {
    AnsweredSettlesOnce(c.asked[k], own);
    if !c.asked[k].watching {
      NoEvents(c.asked[k], own);
    }
  }

  lemma AllTaken(u: Talk, k: nat)
    requires Happens(u) && u.got == |u.daemon.sent| && k < |u.client.asked|
    ensures Sound(u.client) && Invariant(u.client.asked, u.daemon)
    ensures Follows(u.client, k, Own(u.daemon.sent, k))
  {
    AnyTalk(u);
    assert u.daemon.sent[..u.got] == u.daemon.sent;
    assert Follows(u.client, k, Taken(u, k));
  }

  lemma ReturnedHasAnswered(lines: seq<Line>, s: State, k: nat)
    requires k < |lines| && !lines[k].Blank? && s.reader.Returned?
    ensures Invariant(lines, s) ==> Answered(lines[k], Own(s.sent, k))
  {
    if Invariant(lines, s) {
      assert k in s.stages && s.stages[k].Finished?;
    }
  }

  lemma PromiseSettles(c: ClientState, s: State, k: nat)
    requires Sound(c) && Invariant(c.asked, s) && s.reader.Returned? && k < |c.asked|
    requires Follows(c, k, Own(s.sent, k))
    ensures k + 1 !in c.answers && k + 1 !in c.streams && Answered(c.asked[k], Own(s.sent, k))
    ensures c.settled[k + 1] == [OutcomeOf(Own(s.sent, k)[|Own(s.sent, k)| - 1])]
    ensures c.heard[k + 1] == EventsIn(Own(s.sent, k))
  {
    ReturnedHasAnswered(c.asked, s, k);
    AnsweredFollows(c, k, Own(s.sent, k));
  }

  /** Once the daemon has returned and the client has read to the end, every promise has settled
      exactly once, with the answer to its own question, and a watch has heard exactly the
      events its task wrote, in order; no handler is left. */
  lemma EveryPromiseSettles(u: Talk, k: nat)
    requires Happens(u) && u.daemon.reader.Returned? && u.got == |u.daemon.sent|
    requires k < |u.client.asked|
    ensures k + 1 in u.client.heard && k + 1 in u.client.settled
    ensures k + 1 !in u.client.answers && k + 1 !in u.client.streams
    ensures Answered(u.client.asked[k], Own(u.daemon.sent, k))
    ensures u.client.settled[k + 1] == [OutcomeOf(Own(u.daemon.sent, k)[|Own(u.daemon.sent, k)| - 1])]
    ensures u.client.heard[k + 1] == EventsIn(Own(u.daemon.sent, k))
  {
    AllTaken(u, k);
    PromiseSettles(u.client, u.daemon, k);
  }

  /** What its answer says of a question that is no watch: its promise has resolved to the result,
      or been rejected with the error. */
  lemma ACallGetsItsAnswer(u: Talk, k: nat, text: Text)
    requires Happens(u) && u.daemon.reader.Returned? && u.got == |u.daemon.sent|
    requires k < |u.client.asked| && u.client.asked[k].Ask? && !u.client.asked[k].watching
    ensures k + 1 in u.client.settled && |Own(u.daemon.sent, k)| == 1
    ensures u.client.settled[k + 1] == [Resolved(text)] <==>
              Own(u.daemon.sent, k)[0].saying.Value? && Own(u.daemon.sent, k)[0].text == text
    ensures u.client.settled[k + 1] == [Rejected(text)] <==>
              Own(u.daemon.sent, k)[0].saying.Refusal? && Own(u.daemon.sent, k)[0].text == text
  {
    EveryPromiseSettles(u, k);
    OneAnswer(u.client.asked[k], Own(u.daemon.sent, k));
  }

  lemma OneAnswer(line: Line, own: seq<Frame>)
    requires line.Ask? && !line.watching && Answered(line, own)
    ensures |own| == 1 && (own[0].saying.Value? || own[0].saying.Refusal?)
  {
    var before := own[..|own| - 1];
    assert before == [];
  }

  /** And a watch's has resolved if it was told there is no more, and been rejected if it was told
      why not. */
  lemma AWatchGetsItsAnswer(u: Talk, k: nat)
    requires Happens(u) && u.daemon.reader.Returned? && u.got == |u.daemon.sent|
    requires k < |u.client.asked| && u.client.asked[k].Ask? && u.client.asked[k].watching
    ensures k + 1 in u.client.settled && Own(u.daemon.sent, k) != [] && |u.client.settled[k + 1]| == 1
    ensures var last := Own(u.daemon.sent, k)[|Own(u.daemon.sent, k)| - 1];
      && (u.client.settled[k + 1][0].Resolved? <==> last.saying.End?)
      && (u.client.settled[k + 1][0].Rejected? <==> last.saying.Refusal?)
      && u.client.settled[k + 1][0].text == last.text
  {
    EveryPromiseSettles(u, k);
  }
}
