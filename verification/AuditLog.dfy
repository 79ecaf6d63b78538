/** The audit's file, byte by byte (src/audit.rs:26-27, 38-113).

    A write that fails may have put any part of its line in the file before it did: the operating
    system takes what it can. The daemon then refuses the scan, and leaves the part there. */
module AuditLog {
  import opened Lines
  import opened Wrappers

  /** The errors this daemon is the author of, by their codes, and one for the engine's own. For
      an audit that could not be written it is kept which line it was, a refusal's or a start's;
      the caller is told the same of both. */
  datatype Fault =
    | AtCapacity | ScopeRefused | AuditUnwritable(refusing: bool) | NoSuchScan | WrongPhase
    | NoTargets | NoLinks | UnknownLink | Malformed | EngineError | Abandoned

  datatype Line =
    | StartedLine(id: string, kind: string)
    | RefusedLine(code: Fault, kind: string)

  // ---------------------------------------------------------------------------
  // One line of JSON
  // ---------------------------------------------------------------------------

  /** What one character of a JSON string is written as. */
  function EscapedOne(c: char): Text {
    if c == '\n' then "\\n" else if c == '"' then "\\\"" else if c == '\\' then "\\\\" else [c]
  }

  /** The text of a JSON string, in which a newline is two characters and none of them one. */
  function Escaped(s: string): Text {
    if s == "" then "" else EscapedOne(s[0]) + Escaped(s[1..])
  }

  function Code(fault: Fault): Text {
    match fault
    case AtCapacity => "scan.at_capacity"
    case ScopeRefused => "scope.refused"
    case AuditUnwritable(_) => "audit.unwritable"
    case NoSuchScan => "scan.unknown"
    case WrongPhase => "scan.wrong_phase"
    case NoTargets => "request.no_targets"
    case NoLinks => "request.no_links"
    case UnknownLink => "request.unknown_link"
    case Malformed => "rpc.malformed"
    case EngineError => "engine"
    case Abandoned => ""
  }

  function Join(a: Text, b: Text): (text: Text)
    ensures |text| == |a| + |b|
  {
    a + b
  }

  /** A name and all that stands about it before its value. */
  function Named(name: Text): Text { Join(Join(",\"", name), "\":\"") }

  function Field(name: Text, value: Text): Text { Join(Named(name), Join(value, "\"")) }

  function Entry(line: Line): (text: Text)
    ensures text != ""
  {
    match line
    case StartedLine(id, kind) =>
      Join(Join("{\"event\":\"started\"", Field("scan_id", Escaped(id))), Join(Field("kind", Escaped(kind)), "}"))
    case RefusedLine(code, kind) =>
      Join(Join("{\"event\":\"refused\"", Field("kind", Escaped(kind))), Join(Field("code", Code(code)), "}"))
  }

  function Bytes(line: Line): string { Entry(line) + "\n" }

  // An entry says all that its line does.

  lemma OneReadsBack(c: char, d: char, x: string, y: string)
    requires EscapedOne(c) + x == EscapedOne(d) + y
    ensures c == d && x == y
  {
    assert (EscapedOne(c) + x)[0] == EscapedOne(c)[0] && (EscapedOne(d) + y)[0] == EscapedOne(d)[0];
    if |EscapedOne(c)| == 2 && |EscapedOne(d)| == 2 {
      assert (EscapedOne(c) + x)[1] == EscapedOne(c)[1] && (EscapedOne(d) + y)[1] == EscapedOne(d)[1];
    }
    assert c == d;
    Stripped(EscapedOne(c), x, y);
  }

  lemma Stripped(prefix: string, x: string, y: string)
    requires prefix + x == prefix + y
    ensures x == y
  {
    assert (prefix + x)[|prefix|..] == x && (prefix + y)[|prefix|..] == y;
  }

  /** A JSON string, its quote, and what comes after. */
  function Quoted(s: string, after: string): string { Escaped(s) + ("\"" + after) }

  lemma QuotedNothing(after: string)
    ensures Quoted("", after) == "\"" + after
  {
  }

  lemma QuotedHead(s: string, after: string)
    requires s != ""
    ensures Quoted(s, after) == EscapedOne(s[0]) + Quoted(s[1..], after)
  {
  }

  lemma NoBareQuote(s: string, after: string, other: string)
    requires s != ""
    ensures Quoted(s, after) != Quoted("", other)
  {
    QuotedHead(s, after);
    QuotedNothing(other);
    assert (EscapedOne(s[0]) + Quoted(s[1..], after))[0] == EscapedOne(s[0])[0] && ("\"" + other)[0] == '"';
  }

  /** A JSON string ends where its quote is, and reads back. */
  lemma {:induction false} QuotedReadsBack(a: string, b: string, x: string, y: string)
    requires Quoted(a, x) == Quoted(b, y)
    ensures a == b && x == y
    decreases |a|
  {
    if a == "" && b == "" {
      QuotedNothing(x);
      QuotedNothing(y);
      Stripped("\"", x, y);
    } else if a == "" {
      NoBareQuote(b, y, x);
    } else if b == "" {
      NoBareQuote(a, x, y);
    } else {
      QuotedHead(a, x);
      QuotedHead(b, y);
      OneReadsBack(a[0], b[0], Quoted(a[1..], x), Quoted(b[1..], y));
      QuotedReadsBack(a[1..], b[1..], x, y);
      assert a == [a[0]] + a[1..] && b == [b[0]] + b[1..];
    }
  }

  lemma Grouped(a: string, b: string, c: string)
    ensures (a + b) + c == a + (b + c)
  {
  }

  lemma FieldOf(name: Text, s: string, after: string)
    ensures Field(name, Escaped(s)) + after == Named(name) + Quoted(s, after)
  {
    Grouped(Named(name), Escaped(s) + "\"", after);
    Grouped(Escaped(s), "\"", after);
  }

  const STARTED: Text := "{\"event\":\"started\""
  const REFUSED: Text := "{\"event\":\"refused\""

  lemma StartedEntry(id: string, kind: string)
    ensures Entry(StartedLine(id, kind))
         == STARTED + (Named("scan_id") + Quoted(id, Named("kind") + Quoted(kind, "}")))
  {
    FieldOf("kind", kind, "}");
    FieldOf("scan_id", id, Named("kind") + Quoted(kind, "}"));
    Grouped(STARTED, Field("scan_id", Escaped(id)), Field("kind", Escaped(kind)) + "}");
  }

  lemma RefusedEntry(code: Fault, kind: string)
    ensures Entry(RefusedLine(code, kind))
         == REFUSED + (Named("kind") + Quoted(kind, Field("code", Code(code)) + "}"))
  {
    FieldOf("kind", kind, Field("code", Code(code)) + "}");
    Grouped(REFUSED, Field("kind", Escaped(kind)), Field("code", Code(code)) + "}");
  }

  lemma CodesDiffer(a: Fault, b: Fault)
    requires Code(a) == Code(b)
    ensures a == b || (a.AuditUnwritable? && b.AuditUnwritable?)
  {
  }

  lemma SameCode(a: Text, b: Text, name: Text)
    requires Field(name, a) + "}" == Field(name, b) + "}"
    ensures a == b
  {
    Grouped(Named(name), a + "\"", "}");
    Grouped(Named(name), b + "\"", "}");
    Stripped(Named(name), (a + "\"") + "}", (b + "\"") + "}");
    assert ((a + "\"") + "}")[..|a|] == a && ((b + "\"") + "}")[..|b|] == b;
    assert |(a + "\"") + "}"| == |a| + 2 && |(b + "\"") + "}"| == |b| + 2;
  }

  lemma StartedReadsBack(id: string, kind: string, other: string, of: string)
    requires Entry(StartedLine(id, kind)) == Entry(StartedLine(other, of))
    ensures id == other && kind == of
  {
    StartedEntry(id, kind);
    StartedEntry(other, of);
    var x, y := Named("kind") + Quoted(kind, "}"), Named("kind") + Quoted(of, "}");
    Stripped(STARTED, Named("scan_id") + Quoted(id, x), Named("scan_id") + Quoted(other, y));
    Stripped(Named("scan_id"), Quoted(id, x), Quoted(other, y));
    QuotedReadsBack(id, other, x, y);
    Stripped(Named("kind"), Quoted(kind, "}"), Quoted(of, "}"));
    QuotedReadsBack(kind, of, "}", "}");
  }

  lemma RefusedReadsBack(code: Fault, kind: string, other: Fault, of: string)
    requires Entry(RefusedLine(code, kind)) == Entry(RefusedLine(other, of))
    ensures Code(code) == Code(other) && kind == of
  {
    RefusedEntry(code, kind);
    RefusedEntry(other, of);
    var x, y := Field("code", Code(code)) + "}", Field("code", Code(other)) + "}";
    Stripped(REFUSED, Named("kind") + Quoted(kind, x), Named("kind") + Quoted(of, y));
    Stripped(Named("kind"), Quoted(kind, x), Quoted(of, y));
    QuotedReadsBack(kind, of, x, y);
    SameCode(Code(code), Code(other), "code");
  }

  lemma Tenth(a: string, b: string, x: string, y: string)
    requires |a| > 10 && |b| > 10 && a[10] != b[10]
    ensures a + x != b + y
  {
    assert (a + x)[10] == a[10] && (b + y)[10] == b[10];
  }

  lemma StartedIsNotRefused(id: string, kind: string, code: Fault, of: string)
    ensures Entry(StartedLine(id, kind)) != Entry(RefusedLine(code, of))
  {
    StartedEntry(id, kind);
    RefusedEntry(code, of);
    Tenth(STARTED, REFUSED, Named("scan_id") + Quoted(id, Named("kind") + Quoted(kind, "}")),
          Named("kind") + Quoted(of, Field("code", Code(code)) + "}"));
  }

  /** A refusal ends with its code. */
  lemma RefusalsSaySo(kind: string)
    ensures Entry(RefusedLine(AtCapacity, kind))
         == REFUSED + (Named("kind") + Quoted(kind, ",\"code\":\"scan.at_capacity\"}"))
    ensures Entry(RefusedLine(ScopeRefused, kind))
         == REFUSED + (Named("kind") + Quoted(kind, ",\"code\":\"scope.refused\"}"))
  {
    RefusedEntry(AtCapacity, kind);
    RefusedEntry(ScopeRefused, kind);
    assert Field("code", Code(AtCapacity)) + "}" == ",\"code\":\"scan.at_capacity\"}";
    assert Field("code", Code(ScopeRefused)) + "}" == ",\"code\":\"scope.refused\"}";
  }

  /** No two lines are written the same: whether a scan started or was refused, its name, its kind
      and the code can be read back from the file (which line it was that could not be written
      apart, which is never written). */
  lemma EntriesDiffer(a: Line, b: Line)
    requires Entry(a) == Entry(b)
    ensures a == b || (a.RefusedLine? && b.RefusedLine? && a.code.AuditUnwritable? && b.code.AuditUnwritable?)
  {
    if a.StartedLine? && b.StartedLine? {
      StartedReadsBack(a.id, a.kind, b.id, b.kind);
    } else if a.RefusedLine? && b.RefusedLine? {
      RefusedReadsBack(a.code, a.kind, b.code, b.kind);
      CodesDiffer(a.code, b.code);
    } else if a.StartedLine? {
      StartedIsNotRefused(a.id, a.kind, b.code, b.kind);
    } else {
      StartedIsNotRefused(b.id, b.kind, a.code, a.kind);
    }
  }

  // ---------------------------------------------------------------------------
  // What some writes leave in the file
  // ---------------------------------------------------------------------------

  /** One write: how many bytes of its line and its newline came to stand in the file, and
      whether the daemon was told it went well. */
  datatype Attempt = Attempt(text: Text, stood: nat, ok: bool)

  predicate Possible(x: Attempt) { x.stood <= |x.text| + 1 && (x.ok ==> x.stood == |x.text| + 1) }

  predicate Whole(x: Attempt) { x.stood > |x.text| }

  function Left(x: Attempt): string { if Whole(x) then x.text + "\n" else (x.text + "\n")[..x.stood] }

  function FileOf(writes: seq<Attempt>): string {
    if writes == [] then "" else FileOf(writes[..|writes| - 1]) + Left(writes[|writes| - 1])
  }

  /** Nothing hangs at the end of the file: the last write that left anything left its newline. */
  predicate Clean(writes: seq<Attempt>) {
    writes == [] || Whole(writes[|writes| - 1])
    || (writes[|writes| - 1].stood == 0 && Clean(writes[..|writes| - 1]))
  }

  function CountWhole(writes: seq<Attempt>): nat {
    if writes == [] then 0
    else CountWhole(writes[..|writes| - 1]) + if Whole(writes[|writes| - 1]) then 1 else 0
  }

  /** One write more: its line if it stands whole, after anything that hung there; else as much
      more hanging. */
  lemma OneWrite(writes: seq<Attempt>, x: Attempt)
    ensures Split(FileOf(writes + [x]))
         == if Whole(x) then Read(Split(FileOf(writes)).lines + [Split(FileOf(writes)).rest + x.text], "")
            else Read(Split(FileOf(writes)).lines, Split(FileOf(writes)).rest + x.text[..x.stood])
  {
    assert (writes + [x])[..|writes + [x]| - 1] == writes;
    if Whole(x) {
      SplitLine(FileOf(writes), x.text);
    } else {
      SplitPiece(FileOf(writes), x.text, x.stood);
    }
  }

  lemma Hanging(rest: string, text: string, n: nat)
    requires n <= |text|
    ensures rest + text[..n] == "" <==> rest == "" && n == 0
  {
    assert |rest + text[..n]| == |rest| + n;
  }

  lemma CleanAfter(writes: seq<Attempt>, x: Attempt)
    requires Split(FileOf(writes)).rest == "" <==> Clean(writes)
    requires |Split(FileOf(writes)).lines| == CountWhole(writes)
    ensures Split(FileOf(writes + [x])).rest == "" <==> Clean(writes + [x])
    ensures |Split(FileOf(writes + [x])).lines| == CountWhole(writes + [x])
  {
    assert (writes + [x])[..|writes + [x]| - 1] == writes;
    OneWrite(writes, x);
    if !Whole(x) {
      Hanging(Split(FileOf(writes)).rest, x.text, x.stood);
    }
  }

  lemma {:induction false} CleanExactly(writes: seq<Attempt>)
    ensures Split(FileOf(writes)).rest == "" <==> Clean(writes)
    ensures |Split(FileOf(writes)).lines| == CountWhole(writes)
  {
    if writes != [] {
      CleanExactly(writes[..|writes| - 1]);
      assert writes == writes[..|writes| - 1] + [writes[|writes| - 1]];
      CleanAfter(writes[..|writes| - 1], writes[|writes| - 1]);
    }
  }

  lemma {:induction false} FileGrows(writes: seq<Attempt>, n: nat)
    requires n <= |writes|
    ensures FileOf(writes[..n]) <= FileOf(writes)
    decreases |writes|
  {
    if n < |writes| {
      var init := writes[..|writes| - 1];
      FileGrows(init, n);
      assert init[..n] == writes[..n];
    } else {
      assert writes[..n] == writes;
    }
  }

  /** A write's line stands in the file by itself, where it was written. */
  predicate Readable(writes: seq<Attempt>, i: nat)
    requires i < |writes|
  {
    var lines, at := Split(FileOf(writes)).lines, CountWhole(writes[..i]);
    at < |lines| && lines[at] == writes[i].text
  }

  lemma IndexInPrefix(a: seq<string>, x: string, whole: seq<string>)
    requires a + [x] <= whole
    ensures |a| < |whole| && whole[|a|] == x
  {
    assert (a + [x])[|a|] == x;
  }

  /** Where a whole line came to stand, and after what. */
  lemma LineAt(writes: seq<Attempt>, i: nat)
    requires i < |writes| && Whole(writes[i])
    ensures CountWhole(writes[..i]) < |Split(FileOf(writes)).lines|
    ensures Split(FileOf(writes)).lines[CountWhole(writes[..i])]
         == Split(FileOf(writes[..i])).rest + writes[i].text
  {
    var before := writes[..i];
    assert writes[..i + 1] == before + [writes[i]];
    CleanExactly(before);
    OneWrite(before, writes[i]);
    LinesGrow(writes, i + 1);
    IndexInPrefix(Split(FileOf(before)).lines, Split(FileOf(before)).rest + writes[i].text, Split(FileOf(writes)).lines);
  }

  lemma PrefixLines(a: string, b: string)
    requires a <= b
    ensures Split(a).lines <= Split(b).lines
  {
    var later := b[|a|..];
    assert b == a + later;
    CutKeepsLinesBefore(a, later);
  }

  lemma LinesGrow(writes: seq<Attempt>, n: nat)
    requires n <= |writes|
    ensures Split(FileOf(writes[..n])).lines <= Split(FileOf(writes)).lines
  {
    FileGrows(writes, n);
    PrefixLines(FileOf(writes[..n]), FileOf(writes));
  }

  lemma AloneExactly(rest: string, text: string)
    ensures rest + text == text <==> rest == ""
  {
    assert |rest + text| == |rest| + |text|;
    if rest == "" {
      assert rest + text == text;
    }
  }

  /** A whole line can be read back exactly when nothing hung where it was written. */
  lemma ReadableExactly(writes: seq<Attempt>, i: nat)
    requires i < |writes| && Whole(writes[i])
    ensures Readable(writes, i) <==> Clean(writes[..i])
  {
    LineAt(writes, i);
    CleanExactly(writes[..i]);
    AloneExactly(Split(FileOf(writes[..i])).rest, writes[i].text);
  }

  /** The writes a file has seen end in these; before them are those of earlier daemons. */
  predicate EndsIn(writes: seq<Attempt>, last: seq<Attempt>) {
    |last| <= |writes| && writes[|writes| - |last|..] == last
  }

  /** "A line is complete or absent": every line the daemon was told was written can be read
      back by itself exactly when none was written where a failed write had left a part of one. */
  lemma EveryLineReadableExactly(writes: seq<Attempt>)
    requires forall i :: 0 <= i < |writes| ==> Possible(writes[i])
    ensures (forall i :: 0 <= i < |writes| && writes[i].ok ==> Readable(writes, i))
       <==> (forall i :: 0 <= i < |writes| && writes[i].ok ==> Clean(writes[..i]))
  {
    forall i: nat | i < |writes| && writes[i].ok
      ensures Readable(writes, i) <==> Clean(writes[..i])
    {
      ReadableExactly(writes, i);
    }
  }

  /** It fails for any line cut short, and any line after it: the file holds one line, which is
      neither. */
  lemma TornLineSwallowsTheNext(torn: Line, stood: nat, next: Line)
    requires 0 < stood <= |Entry(torn)|
    ensures var file := FileOf([Attempt(Entry(torn), stood, false), Attempt(Entry(next), |Entry(next)| + 1, true)]);
      Split(file) == Read([Entry(torn)[..stood] + Entry(next)], "") && Entry(next) !in Split(file).lines
  {
    Swallows(Entry(torn), stood, Entry(next));
  }

  lemma Swallows(torn: Text, stood: nat, next: Text)
    requires 0 < stood <= |torn|
    ensures var file := FileOf([Attempt(torn, stood, false), Attempt(next, |next| + 1, true)]);
      Split(file) == Read([torn[..stood] + next], "") && next !in Split(file).lines
  {
    var first, second := Attempt(torn, stood, false), Attempt(next, |next| + 1, true);
    assert FileOf([]) == "" && Split("") == Read([], "");
    OneWrite([], first);
    assert [] + [first] == [first] && [first] + [second] == [first, second];
    assert "" + torn[..stood] == torn[..stood];
    OneWrite([first], second);
    assert |torn[..stood] + next| > |next|;
  }

  lemma OneLeft(writes: seq<Attempt>, x: Attempt)
    ensures FileOf(writes + [x]) == FileOf(writes) + Left(x)
  {
    assert (writes + [x])[..|writes + [x]| - 1] == writes;
  }

  /** A write that leaves one byte. */
  lemma LeavesOne(c: char) returns (x: Attempt)
    ensures Left(x) == [c] && Possible(x)
  {
    if c == '\n' {
      x := Attempt("", 1, true);
    } else {
      x := Attempt([c], 1, false);
      assert ([c] + "\n")[..1] == [c];
    }
  }

  lemma AllPossible(writes: seq<Attempt>, x: Attempt)
    requires (forall y :: y in writes ==> Possible(y)) && Possible(x)
    ensures forall y :: y in writes + [x] ==> Possible(y)
  {
  }

  /** A file found when the daemon starts, whatever is in it, is one that some writes left. */
  lemma {:induction false} SomebodyWrote(file: string) returns (earlier: seq<Attempt>)
    ensures FileOf(earlier) == file && (forall x :: x in earlier ==> Possible(x))
  {
    if file == "" {
      earlier := [];
    } else {
      earlier := SomebodyWrote(file[..|file| - 1]);
      var x := LeavesOne(file[|file| - 1]);
      OneLeft(earlier, x);
      AllPossible(earlier, x);
      earlier := earlier + [x];
    }
  }

  // ---------------------------------------------------------------------------
  // The audit
  // ---------------------------------------------------------------------------

  datatype Done = Done

  /** How the disk takes a write: all of it, or so much of it and then an error. */
  datatype Disk = Takes | Fails(upto: nat)

  /** How many bytes of a line such a disk takes. */
  function Stood(line: Line, disk: Disk): (n: nat)
    ensures n <= |Bytes(line)| && (disk.Takes? ==> n == |Bytes(line)|)
    ensures disk.Fails? && disk.upto <= |Bytes(line)| ==> n == disk.upto
  {
    match disk
    case Takes => |Bytes(line)|
    case Fails(upto) => if upto < |Bytes(line)| then upto else |Bytes(line)|
  }

  /** What a write leaves behind on such a disk. */
  function Attempted(line: Line, disk: Disk): (x: Attempt)
    ensures Possible(x) && x.text == Entry(line) && (x.ok <==> disk.Takes?)
    ensures disk.Fails? && disk.upto <= |Entry(line)| ==> Left(x) == Bytes(line)[..disk.upto]
  {
    Attempt(Entry(line), Stood(line, disk), disk.Takes?)
  }

  /** The audit of a daemon, or that it has none. `lines` is those it was told were written, and
      `writes` every write the file has seen, earlier daemons' too. */
  class Audit {
    const configured: bool
    var file: string
    var lines: seq<Line>
    ghost var writes: seq<Attempt>

    ghost predicate Valid() reads this {
      && file == FileOf(writes)
      && (forall i :: 0 <= i < |writes| ==> Possible(writes[i]))
      && (!configured ==> writes == [])
    }

    /** src/audit.rs:46-48 */
    constructor None()
      ensures Valid() && !configured && lines == []
    {
      configured := false;
      file, lines, writes := "", [], [];
    }

    /** src/audit.rs:54-60: a file that may hold anything already. */
    constructor AppendingTo(found: string)
      ensures Valid() && configured && file == found && lines == []
    {
      configured := true;
      file, lines := found, [];
      ghost var earlier := SomebodyWrote(found);
      writes := earlier;
    }

    /** src/audit.rs:94-112: the line and its newline go to the file in one call, whose error is
        the caller's. */
    method Write(line: Line, disk: Disk) returns (r: Result<Done, Fault>)
      requires Valid()
      modifies this
      ensures Valid()
      ensures r == if !configured || disk.Takes? then Success(Done) else Failure(AuditUnwritable(line.RefusedLine?))
      ensures lines == if configured && disk.Takes? then old(lines) + [line] else old(lines)
      ensures writes == if configured then old(writes) + [Attempted(line, disk)] else old(writes)
      ensures file == old(file) + if configured then Bytes(line)[..Stood(line, disk)] else ""
    {
      if !configured {
        return Success(Done);
      }
      ghost var x := Attempted(line, disk);
      assert (writes + [x])[..|writes + [x]| - 1] == writes;
      writes := writes + [x];
      var bytes := Bytes(line);
      if disk.Fails? {
        file := file + if disk.upto < |bytes| then bytes[..disk.upto] else bytes;
        return Failure(AuditUnwritable(line.RefusedLine?));
      }
      file := file + bytes;
      lines := lines + [line];
      return Success(Done);
    }

    /** src/audit.rs:64-72 */
    method Started(id: string, kind: string, disk: Disk) returns (r: Result<Done, Fault>)
      requires Valid()
      modifies this
      ensures Valid()
      ensures r == if !configured || disk.Takes? then Success(Done) else Failure(AuditUnwritable(false))
      ensures lines == if configured && disk.Takes? then old(lines) + [StartedLine(id, kind)] else old(lines)
      ensures writes == if configured then old(writes) + [Attempted(StartedLine(id, kind), disk)] else old(writes)
    {
      r := Write(StartedLine(id, kind), disk);
    }

    /** src/audit.rs:78-87 */
    method Refused(refusal: Fault, kind: string, disk: Disk) returns (r: Result<Done, Fault>)
      requires Valid()
      modifies this
      ensures Valid()
      ensures r == if !configured || disk.Takes? then Success(Done) else Failure(AuditUnwritable(true))
      ensures lines == if configured && disk.Takes? then old(lines) + [RefusedLine(refusal, kind)] else old(lines)
      ensures writes == if configured then old(writes) + [Attempted(RefusedLine(refusal, kind), disk)] else old(writes)
    {
      r := Write(RefusedLine(refusal, kind), disk);
    }
  }
}
