/** One connection: questions in, frames out, a task for every question, over
    one shared output (src/stdio.rs:88-189, 345-417).

    A frame is what it says and the line it is written as, which holds no newline. Each move is
    one line read, one frame decided on, the lock on the output taken or given back, some bytes
    written, or a finished task reaped; moves of the reader and of any number of tasks
    interleave. `sent` is the frames written whole, newline and all, each with the line it
    answers; a reader can take one while its writer still has the lock. */
module Speak {
  import EventLog
  import opened Lines

  /** What a frame is labelled with: whatever the question was, untouched. */
  datatype Label = Null | Id(number: nat) | Other(value: string)

  datatype Saying =
    | Value
    | Happened(event: EventLog.Event)
    | End
    | Refusal

  datatype Frame = Frame(tag: Label, saying: Saying, text: Text)

  /** A question, a line that cannot be read as one, or a blank line. */
  datatype Line = Blank | Malformed | Ask(tag: Label, watching: bool)

  function LabelOf(line: Line): Label { if line.Ask? then line.tag else Null }

  /** Where the answering of one line stands: `begun` is whether an event was told. */
  datatype Stage =
    | Thinking(begun: bool)
    | Wants(frame: Frame)                     // stdio.rs:406
    | Holding(frame: Frame, written: nat)     // stdio.rs:407
    | Finished

  datatype Reader = Reading | Answering(line: nat) | Draining | Returned

  datatype Sent = Sent(line: nat, frame: Frame)

  datatype State = State(
    at: nat, reader: Reader, stages: map<nat, Stage>, answering: set<nat>, out: string, sent: seq<Sent>)

  function Initial(): State { State(0, Reading, map[], {}, "", []) }

  // ---------------------------------------------------------------------------
  // Moves
  // ---------------------------------------------------------------------------

  /** The frames a line can be answered with: an error for one that could not be read, a result
      or an error for a question, events and an end for a watch, or an error before any. */
  predicate Suits(line: Line, begun: bool, frame: Frame) {
    frame.tag == LabelOf(line) &&
    match line
    case Blank => false
    case Malformed => frame.saying.Refusal?
    case Ask(_, watching) =>
      if watching then frame.saying.Happened? || frame.saying.End? || (frame.saying.Refusal? && !begun)
      else frame.saying.Value? || frame.saying.Refusal?
  }

  datatype Move =
    | ReadLine                                // stdio.rs:101
    | EndOfInput
    | GoOnReading                             // stdio.rs:112
    | Reap(line: nat)                         // stdio.rs:126
    | Return                                  // stdio.rs:128
    | Decide(line: nat, frame: Frame)         // stdio.rs:139-187, 354-395
    | Lock(line: nat)                         // stdio.rs:406
    | Write(line: nat, count: nat)            // stdio.rs:407
    | Unlock(line: nat)                       // stdio.rs:408

  function Bytes(frame: Frame): string { frame.text + "\n" }

  predicate Held(s: State, k: nat) { k in s.stages && s.stages[k].Holding? }

  predicate Can(lines: seq<Line>, s: State, m: Move) {
    match m
    case ReadLine => s.reader.Reading? && s.at < |lines|
    case EndOfInput => s.reader.Reading? && s.at >= |lines|
    case GoOnReading => s.reader.Answering? && s.reader.line in s.stages && s.stages[s.reader.line].Finished?
    case Reap(k) => s.reader.Draining? && k in s.answering && k in s.stages && s.stages[k].Finished?
    case Return => s.reader.Draining? && s.answering == {}
    case Decide(k, frame) =>
      k < |lines| && k in s.stages && s.stages[k].Thinking? && Suits(lines[k], s.stages[k].begun, frame)
    case Lock(k) => k in s.stages && s.stages[k].Wants? && forall j :: j in s.stages ==> !Held(s, j)
    case Write(k, count) => Held(s, k) && 0 < count <= |Bytes(s.stages[k].frame)| - s.stages[k].written
    case Unlock(k) => Held(s, k) && s.stages[k].written == |Bytes(s.stages[k].frame)|
  }

  /** One line read: blank lines are nothing, an unreadable one is answered before the next is
      read, and a question gets a task. */
  function Read(lines: seq<Line>, s: State): State
    requires s.at < |lines|
  {
    var k := s.at;
    match lines[k]
    case Blank => s.(at := k + 1)
    case Malformed => s.(at := k + 1, reader := Answering(k), stages := s.stages[k := Thinking(false)])
    case Ask(_, _) => s.(at := k + 1, answering := s.answering + {k}, stages := s.stages[k := Thinking(false)])
  }

  /** A write that puts out the last of a frame. */
  predicate Completes(s: State, m: Move) {
    m.Write? && Held(s, m.line) && s.stages[m.line].written + m.count == |Bytes(s.stages[m.line].frame)|
  }

  /** Some more bytes of the frame whose turn it is. */
  function Written(s: State, k: nat, count: nat): State
    requires Held(s, k) && s.stages[k].written + count <= |Bytes(s.stages[k].frame)|
  {
    var frame, written := s.stages[k].frame, s.stages[k].written;
    s.(out := s.out + Bytes(frame)[written..written + count],
       stages := s.stages[k := Holding(frame, written + count)],
       sent := if Completes(s, Write(k, count)) then s.sent + [Sent(k, frame)] else s.sent)
  }

  /** After an event a watch goes on; after anything else its task is done. */
  function Released(frame: Frame): Stage { if frame.saying.Happened? then Thinking(true) else Finished }

  function Next(lines: seq<Line>, s: State, m: Move): State
    requires Can(lines, s, m)
  {
    match m
    case ReadLine => Read(lines, s)
    case EndOfInput => s.(reader := Draining)
    case GoOnReading => s.(reader := Reading)
    case Reap(k) => s.(answering := s.answering - {k})
    case Return => s.(reader := Returned)
    case Decide(k, frame) => s.(stages := s.stages[k := Wants(frame)])
    case Lock(k) => s.(stages := s.stages[k := Holding(s.stages[k].frame, 0)])
    case Write(k, count) => Written(s, k, count)
    case Unlock(k) => s.(stages := s.stages[k := Released(s.stages[k].frame)])
  }

  predicate Leads(lines: seq<Line>, s: State, moves: seq<Move>, t: State)
    decreases |moves|
  {
    if moves == [] then s == t
    else Can(lines, s, moves[0]) && Leads(lines, Next(lines, s, moves[0]), moves[1..], t)
  }

  ghost predicate Reachable(lines: seq<Line>, t: State) {
    exists moves :: Leads(lines, Initial(), moves, t)
  }
}
