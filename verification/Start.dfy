/** One request through the gate as the code is written, one effect after another
    (src/start.rs:50-221, 306-386), and that it does what the moves of one request in the
    state machine of `Daemon` do. */
module Start {
  import opened Wrappers
  import opened Scope
  import opened AuditLog
  import opened Gate
  import opened Daemon
  import opened Admission

  /** What everything outside the daemon answers: the request or the record as read, the
      resolver, the journal, the name minted if there is none, whether the audit can be written
      for a refusal and for a start, and whether the engine takes the scan. */
  datatype Luck = Luck(
    record: Result<Plan, Fault>, request: Option<Fault>, resolver: Result<Reach, Fault>,
    journal: Option<string>, minted: string, refusalDisk: Disk, startDisk: Disk, engine: bool)

  predicate Sensible(kind: Kind, luck: Luck) {
    && (luck.record.Failure? ==> Ordinary(luck.record.error))
    && (luck.request.Some? ==> Ordinary(luck.request.value))
    && if luck.resolver.Success? then Fits(ScannedAs(kind), luck.resolver.value) else Ordinary(luck.resolver.error)
  }

  // ---------------------------------------------------------------------------
  // One request's moves, undisturbed
  // ---------------------------------------------------------------------------

  function Picked(r: Request, luck: Luck): Choice {
    match r.place
    case Reserved => if r.asked.Resume? then ReadRecord(luck.record) else TakeRoom
    case Admitting(_) => TakeRoom
    case Refusing(_, _) => WriteRefusal(luck.refusalDisk)
    case Reading(_) => ReadRequest(luck.request)
    case Resolving(_) => Resolve(luck.resolver)
    case Judging(_, _) => Judge
    case Journalling(_, _) => Journal(luck.journal, luck.minted)
    case Recording(_, _, _) => WriteStart(luck.startDisk)
    case Awaiting(_) => EngineAnswers(luck.engine)
    case _ => Launch
  }

  datatype LaunchOf = LaunchOf(id: string, kind: Kind, reach: Reach)

  /** Where a request got to, and what it left behind on the way. */
  datatype Did = Did(place: Place, lines: seq<Line>, journals: seq<string>, launches: seq<LaunchOf>)

  function Before(effect: Effect, rest: Did): Did {
    match effect
    case Audited(_, line) => rest.(lines := [line] + rest.lines)
    case Journalled(_, name) => rest.(journals := [name] + rest.journals)
    case Launched(_, name, kind, reach) => rest.(launches := [LaunchOf(name, kind, reach)] + rest.launches)
    case Torn(_, _) => rest
    case Claimed(_) => rest
    case Released(_) => rest
  }

  /** On the way from the slot to a scan that can be filed. */
  predicate Handled(c: Config, r: Request, m: Choice) { CanPass(c, r, m) || (CanLeave(c, r, m) && m.EngineAnswers?) }

  lemma PassIsCloser(c: Config, r: Request, m: Choice)
    requires CanPass(c, r, m)
    ensures Distance(0, Pass(c, 0, 0, r, m).request) < Distance(0, r)
  {
    PassIsAhead(c, 0, 0, r, m);
    PassIsNeutral(c, 0, 0, r, m);
    DistanceIsAhead(0, r);
    DistanceIsAhead(0, Pass(c, 0, 0, r, m).request);
  }

  lemma HandledIsCloser(c: Config, r: Request, m: Choice)
    requires Handled(c, r, m)
    ensures CanAct(c, r, m) && Distance(0, Taking(c, 0, 0, r, m).request) < Distance(0, r)
  {
    if CanPass(c, r, m) {
      PassIsCloser(c, r, m);
    }
  }

  /** One request's moves from where it stands to a scan that can be filed or its own failure. */
  ghost function Alone(c: Config, r: Request, luck: Luck): Did
    decreases Distance(0, r)
  {
    var m := Picked(r, luck);
    if !Handled(c, r, m) then Did(r.place, [], [], [])
    else
      HandledIsCloser(c, r, m);
      var t := Taking(c, 0, 0, r, m);
      var rest := Alone(c, t.request, luck);
      if t.effects == [] then rest else Before(t.effects[0], rest)
  }

  /** What a call answers, given where its request got to. */
  predicate Answers(place: Place, answer: Result<string, Fault>) {
    match place
    case Filing(id) => answer == Success(id)
    case Failing(fault) => answer == Failure(fault)
    case _ => false
  }

  /** Everything the daemon keeps outside itself. */
  datatype World = World(lines: seq<Line>, journals: seq<string>, launches: seq<LaunchOf>)

  ghost predicate Matches(d: Did, before: World, after: World, answer: Result<string, Fault>) {
    && after == World(before.lines + d.lines, before.journals + d.journals, before.launches + d.launches)
    && Answers(d.place, answer)
  }

  // ---------------------------------------------------------------------------
  // What those moves come to, from each place
  // ---------------------------------------------------------------------------

  function Failed(fault: Fault): Did { Did(Failing(fault), [], [], []) }

  /** The line, then the wire, then the engine's word. */
  function FromRecording(c: Config, kind: Kind, reach: Reach, id: string, luck: Luck): Did {
    if c.auditing && luck.startDisk.Fails? then Failed(AuditUnwritable(false))
    else
      Did(if luck.engine then Filing(id) else Failing(EngineError),
          if c.auditing then [StartedLine(id, AuditedAs(kind))] else [], [], [LaunchOf(id, kind, reach)])
  }

  function FromJournalling(c: Config, kind: Kind, reach: Reach, luck: Luck): Did {
    if c.recording && luck.journal.Some?
    then
      var rest := FromRecording(c, kind, reach, luck.journal.value, luck);
      rest.(journals := [luck.journal.value] + rest.journals)
    else FromRecording(c, kind, reach, luck.minted, luck)
  }

  function FromRefusing(c: Config, fault: Fault, called: string, luck: Luck): Did {
    if !c.auditing then Failed(fault)
    else if luck.refusalDisk.Fails? then Failed(AuditUnwritable(true))
    else Failed(fault).(lines := [RefusedLine(fault, called)])
  }

  ghost function FromJudging(c: Config, asked: Asked, kind: Kind, reach: Reach, luck: Luck): Did {
    if !AllowsAll(c.bounds, Reached(reach)) then FromRefusing(c, ScopeRefused, AuditedAs(kind), luck)
    else if asked.Resume? then FromRecording(c, kind, reach, asked.id, luck)
    else FromJournalling(c, kind, reach, luck)
  }

  ghost function FromReading(c: Config, asked: Asked, kind: Kind, luck: Luck): Did {
    if luck.request.Some? then Failed(luck.request.value)
    else if luck.resolver.Failure? then Failed(luck.resolver.error)
    else if kind.Listen? then FromJournalling(c, kind, luck.resolver.value, luck)
    else FromJudging(c, asked, kind, luck.resolver.value, luck)
  }

  ghost function FromAdmitting(c: Config, id: string, plan: Plan, room: bool, luck: Luck): Did {
    if !room then FromRefusing(c, AtCapacity, AuditedAs(plan.kind), luck)
    else if plan.reach.None? || !Fits(plan.kind, plan.reach.value) then Failed(WrongPhase)
    else if plan.kind.Listen? then FromRecording(c, plan.kind, plan.reach.value, id, luck)
    else FromJudging(c, Resume(id), plan.kind, plan.reach.value, luck)
  }

  function At(asked: Asked, place: Place, slot: bool): Request { Request(asked, place, slot, 0) }

  lemma AtTheEnd(c: Config, r: Request, luck: Luck)
    requires r.place.Filing? || r.place.Failing?
    ensures Alone(c, r, luck) == Did(r.place, [], [], [])
  {
  }

  lemma AloneAwaiting(c: Config, asked: Asked, id: string, slot: bool, luck: Luck)
    ensures Alone(c, At(asked, Awaiting(id), slot), luck)
         == Did(if luck.engine then Filing(id) else Failing(EngineError), [], [], [])
  {
    AtTheEnd(c, At(asked, Filing(id), slot), luck);
    AtTheEnd(c, At(asked, Failing(EngineError), slot), luck);
  }

  lemma AloneLaunching(c: Config, asked: Asked, kind: Kind, reach: Reach, id: string, slot: bool, luck: Luck)
    ensures Alone(c, At(asked, Launching(kind, reach, id), slot), luck)
         == Did(if luck.engine then Filing(id) else Failing(EngineError), [], [], [LaunchOf(id, kind, reach)])
  {
    AloneAwaiting(c, asked, id, slot, luck);
  }

  /** One move, and then the rest. */
  lemma OneMoveOn(c: Config, r: Request, luck: Luck)
    requires CanPass(c, r, Picked(r, luck))
    ensures var t := Pass(c, 0, 0, r, Picked(r, luck));
      Alone(c, r, luck)
      == if t.effects == [] then Alone(c, t.request, luck) else Before(t.effects[0], Alone(c, t.request, luck))
  {
  }

  lemma AloneRecording(c: Config, asked: Asked, kind: Kind, reach: Reach, id: string, slot: bool, luck: Luck)
    ensures Alone(c, At(asked, Recording(kind, reach, id), slot), luck) == FromRecording(c, kind, reach, id, luck)
  {
    OneMoveOn(c, At(asked, Recording(kind, reach, id), slot), luck);
    if c.auditing && luck.startDisk.Fails? {
      AtTheEnd(c, At(asked, Failing(AuditUnwritable(false)), slot), luck);
    } else {
      AloneLaunching(c, asked, kind, reach, id, slot, luck);
    }
  }

  lemma AloneJournalling(c: Config, asked: Asked, kind: Kind, reach: Reach, slot: bool, luck: Luck)
    ensures Alone(c, At(asked, Journalling(kind, reach), slot), luck) == FromJournalling(c, kind, reach, luck)
  {
    AloneRecording(c, asked, kind, reach, luck.minted, slot, luck);
    if luck.journal.Some? {
      AloneRecording(c, asked, kind, reach, luck.journal.value, slot, luck);
    }
  }

  lemma AloneRefusing(c: Config, asked: Asked, fault: Fault, called: string, slot: bool, luck: Luck)
    ensures Alone(c, At(asked, Refusing(fault, called), slot), luck) == FromRefusing(c, fault, called, luck)
  {
    AtTheEnd(c, At(asked, Failing(AuditUnwritable(true)), slot), luck);
    AtTheEnd(c, At(asked, Failing(fault), slot), luck);
  }

  lemma AloneJudging(c: Config, asked: Asked, kind: Kind, reach: Reach, slot: bool, luck: Luck)
    ensures Alone(c, At(asked, Judging(kind, reach), slot), luck) == FromJudging(c, asked, kind, reach, luck)
  {
    OneMoveOn(c, At(asked, Judging(kind, reach), slot), luck);
    if !AllowsAll(c.bounds, Reached(reach)) {
      AloneRefusing(c, asked, ScopeRefused, AuditedAs(kind), slot, luck);
    } else if asked.Resume? {
      AloneRecording(c, asked, kind, reach, asked.id, slot, luck);
    } else {
      AloneJournalling(c, asked, kind, reach, slot, luck);
    }
  }

  lemma AloneResolving(c: Config, asked: Asked, kind: Kind, slot: bool, luck: Luck)
    requires Sensible(kind, luck) && !kind.OtherKind? && luck.request.None?
    ensures Alone(c, At(asked, Resolving(kind), slot), luck) == FromReading(c, asked, kind, luck)
  {
    if luck.resolver.Success? {
      AloneJudging(c, asked, kind, luck.resolver.value, slot, luck);
      AloneJournalling(c, asked, kind, luck.resolver.value, slot, luck);
    } else {
      AtTheEnd(c, At(asked, Failing(luck.resolver.error), slot), luck);
    }
  }

  lemma AloneReading(c: Config, asked: Asked, kind: Kind, slot: bool, luck: Luck)
    requires Sensible(kind, luck) && !kind.OtherKind?
    ensures Alone(c, At(asked, Reading(kind), slot), luck) == FromReading(c, asked, kind, luck)
  {
    if luck.request.Some? {
      AtTheEnd(c, At(asked, Failing(luck.request.value), slot), luck);
    } else {
      AloneResolving(c, asked, kind, slot, luck);
    }
  }

  lemma AloneAdmitting(c: Config, id: string, plan: Plan, room: bool, luck: Luck)
    ensures Alone(c, At(Resume(id), Admitting(plan), room), luck) == FromAdmitting(c, id, plan, room, luck)
  {
    AloneRefusing(c, Resume(id), AtCapacity, AuditedAs(plan.kind), room, luck);
    AtTheEnd(c, At(Resume(id), Failing(WrongPhase), room), luck);
    if plan.reach.Some? {
      AloneRecording(c, Resume(id), plan.kind, plan.reach.value, id, room, luck);
      AloneJudging(c, Resume(id), plan.kind, plan.reach.value, room, luck);
    }
  }

  /** A start, whole: what its moves do if nobody is in the way. */
  lemma AStartAlone(c: Config, kind: Kind, room: bool, luck: Luck)
    requires Sensible(kind, luck)
    ensures Alone(c, At(Asked.Start(kind), Reserved, room), luck)
         == if room then FromReading(c, Asked.Start(kind), ScannedAs(kind), luck)
            else FromRefusing(c, AtCapacity, AuditedAs(kind), luck)
  {
    AloneRefusing(c, Asked.Start(kind), AtCapacity, AuditedAs(kind), room, luck);
    AloneReading(c, Asked.Start(kind), ScannedAs(kind), room, luck);
  }

  /** A resume, whole. */
  lemma AResumeAlone(c: Config, id: string, room: bool, luck: Luck)
    requires luck.record.Failure? ==> Ordinary(luck.record.error)
    ensures Alone(c, At(Resume(id), Reserved, room), luck)
         == if luck.record.Success? then FromAdmitting(c, id, luck.record.value, room, luck)
            else Failed(luck.record.error)
  {
    if luck.record.Success? {
      AloneAdmitting(c, id, luck.record.value, room, luck);
    } else {
      AtTheEnd(c, At(Resume(id), Failing(luck.record.error), room), luck);
    }
  }

  // ---------------------------------------------------------------------------
  // The same, said of what is asked and answered alone
  // ---------------------------------------------------------------------------

  /** The name of a start: its journal's, or the one minted (start.rs:248-253). */
  function NameOf(c: Config, luck: Luck): string {
    if c.recording && luck.journal.Some? then luck.journal.value else luck.minted
  }

  /** A start that gets as far as its own line in the audit: there is room, it can be read and
      resolved, and no address resolved is one the policy turns down, unless it only listens. */
  ghost predicate ComesToItsLine(c: Config, kind: Kind, room: bool, luck: Luck) {
    && room && luck.request.None? && luck.resolver.Success?
    && (kind.Listen? || Lawful(c.bounds, luck.resolver.value))
  }

  /** And one whose line can be written, if it has to be, is launched: once, as the kind asked
      for, on what the resolver answered, under the journal's name if there is one. Nothing else
      is. It is a scan to be filed if the engine takes it. */
  lemma StartLaunchesExactly(c: Config, kind: Kind, room: bool, luck: Luck)
    requires Sensible(kind, luck)
    ensures var d := Alone(c, At(Asked.Start(kind), Reserved, room), luck);
      && d.launches == (if ComesToItsLine(c, kind, room, luck) && (c.auditing ==> luck.startDisk.Takes?)
                        then [LaunchOf(NameOf(c, luck), if kind.OtherKind? then PortScan else kind, luck.resolver.value)]
                        else [])
      && (d.place.Filing? <==> d.launches != [] && luck.engine)
      && (d.place.Filing? ==> d.place.id == NameOf(c, luck))
  {
    AStartAlone(c, kind, room, luck);
    if luck.resolver.Success? {
      LawfulIsAllowed(c.bounds, luck.resolver.value);
    }
  }

  /** The word for a start in the audit. */
  predicate Says(kind: Kind, word: string) {
    match kind
    case PortScan => word == "port_scan"
    case Discovery => word == "discovery"
    case Listen => word == "listen"
    case OtherKind => word == "port_scan"
  }

  /** What stands in the audit of a start: with no room, or an address turned down, its refusal;
      else, if it got so far, that it starts, under the name it is launched by. */
  lemma StartIsWrittenDown(c: Config, kind: Kind, room: bool, luck: Luck, word: string)
    requires Sensible(kind, luck) && Says(kind, word)
    ensures Alone(c, At(Asked.Start(kind), Reserved, room), luck).lines
         == if !c.auditing then []
            else if !room then (if luck.refusalDisk.Takes? then [RefusedLine(AtCapacity, word)] else [])
            else if luck.request.Some? || luck.resolver.Failure? then []
            else if !ComesToItsLine(c, kind, room, luck)
            then (if luck.refusalDisk.Takes? then [RefusedLine(ScopeRefused, word)] else [])
            else if luck.startDisk.Takes? then [StartedLine(NameOf(c, luck), word)] else []
  {
    AStartAlone(c, kind, room, luck);
    if luck.resolver.Success? {
      LawfulIsAllowed(c.bounds, luck.resolver.value);
    }
  }

  /** What a start that comes to nothing fails by: the first of these that is so. */
  ghost predicate FailsBy(c: Config, kind: Kind, room: bool, luck: Luck, fault: Fault) {
    var unwritten := c.auditing && luck.refusalDisk.Fails?;
    if !room then fault == if unwritten then AuditUnwritable(true) else AtCapacity
    else if luck.request.Some? then fault == luck.request.value
    else if luck.resolver.Failure? then fault == luck.resolver.error
    else if !ComesToItsLine(c, kind, room, luck) then fault == if unwritten then AuditUnwritable(true) else ScopeRefused
    else if c.auditing && luck.startDisk.Fails? then fault == AuditUnwritable(false)
    else !luck.engine && fault == EngineError
  }

  lemma StartFailsBy(c: Config, kind: Kind, room: bool, luck: Luck, fault: Fault)
    requires Sensible(kind, luck)
    ensures Alone(c, At(Asked.Start(kind), Reserved, room), luck).place == Failing(fault)
       <==> FailsBy(c, kind, room, luck, fault)
  {
    AStartAlone(c, kind, room, luck);
    if room && luck.request.None? && luck.resolver.Success? {
      JudgedFailsBy(c, kind, luck, fault);
    }
  }

  lemma JudgedFailsBy(c: Config, kind: Kind, luck: Luck, fault: Fault)
    requires Sensible(kind, luck) && luck.request.None? && luck.resolver.Success?
    ensures FromReading(c, Asked.Start(kind), ScannedAs(kind), luck).place == Failing(fault)
       <==> FailsBy(c, kind, true, luck, fault)
  {
    LawfulIsAllowed(c.bounds, luck.resolver.value);
  }

  /** A resume that gets as far as its line: there is a record and room, the record holds what its
      kind needs, and no address of it is one the policy now turns down, unless it only listens. */
  ghost predicate ResumesToItsLine(c: Config, room: bool, luck: Luck) {
    && luck.record.Success? && room && HoldsItsPlan(luck.record.value)
    && (luck.record.value.kind.Listen? || Lawful(c.bounds, luck.record.value.reach.value))
  }

  /** Units for a port scan, addresses for a sweep, links for a listen; nothing does for a kind this
      daemon has no name for (start.rs:327-383). */
  predicate HoldsItsPlan(plan: Plan) {
    && plan.reach.Some?
    && match plan.kind
       case PortScan => plan.reach.value.Units?
       case Discovery => plan.reach.value.Sweep?
       case Listen => plan.reach.value.Links?
       case OtherKind => false
  }

  lemma ResumeLaunchesExactly(c: Config, id: string, room: bool, luck: Luck)
    requires luck.record.Failure? ==> Ordinary(luck.record.error)
    ensures var d := Alone(c, At(Resume(id), Reserved, room), luck);
      && d.launches == (if ResumesToItsLine(c, room, luck) && (c.auditing ==> luck.startDisk.Takes?)
                        then [LaunchOf(id, luck.record.value.kind, luck.record.value.reach.value)] else [])
      && (d.place.Filing? <==> d.launches != [] && luck.engine)
      && (d.place.Filing? ==> d.place.id == id)
  {
    AResumeAlone(c, id, room, luck);
    if luck.record.Success? && luck.record.value.reach.Some? {
      LawfulIsAllowed(c.bounds, luck.record.value.reach.value);
    }
  }

  lemma ResumeIsWrittenDown(c: Config, id: string, room: bool, luck: Luck, word: string)
    requires luck.record.Failure? ==> Ordinary(luck.record.error)
    requires luck.record.Success? ==> Says(luck.record.value.kind, word)
    ensures Alone(c, At(Resume(id), Reserved, room), luck).lines
         == if !c.auditing || luck.record.Failure? then []
            else if !room then (if luck.refusalDisk.Takes? then [RefusedLine(AtCapacity, word)] else [])
            else if !HoldsItsPlan(luck.record.value) then []
            else if !ResumesToItsLine(c, room, luck)
            then (if luck.refusalDisk.Takes? then [RefusedLine(ScopeRefused, word)] else [])
            else if luck.startDisk.Takes? then [StartedLine(id, word)] else []
  {
    AResumeAlone(c, id, room, luck);
    if luck.record.Success? && luck.record.value.reach.Some? {
      LawfulIsAllowed(c.bounds, luck.record.value.reach.value);
    }
  }

  /** What a resume that comes to nothing fails by. */
  ghost predicate ResumeFails(c: Config, room: bool, luck: Luck, fault: Fault) {
    var unwritten := c.auditing && luck.refusalDisk.Fails?;
    if luck.record.Failure? then fault == luck.record.error
    else if !room then fault == if unwritten then AuditUnwritable(true) else AtCapacity
    else if !HoldsItsPlan(luck.record.value) then fault == WrongPhase
    else if !ResumesToItsLine(c, room, luck) then fault == if unwritten then AuditUnwritable(true) else ScopeRefused
    else if c.auditing && luck.startDisk.Fails? then fault == AuditUnwritable(false)
    else !luck.engine && fault == EngineError
  }

  lemma ResumeFailsBy(c: Config, id: string, room: bool, luck: Luck, fault: Fault)
    requires luck.record.Failure? ==> Ordinary(luck.record.error)
    ensures Alone(c, At(Resume(id), Reserved, room), luck).place == Failing(fault) <==> ResumeFails(c, room, luck, fault)
  {
    AResumeAlone(c, id, room, luck);
    if luck.record.Success? {
      AdmittedFailsBy(c, id, room, luck, fault);
    }
  }

  lemma AdmittedFailsBy(c: Config, id: string, room: bool, luck: Luck, fault: Fault)
    requires luck.record.Success?
    ensures FromAdmitting(c, id, luck.record.value, room, luck).place == Failing(fault)
       <==> ResumeFails(c, room, luck, fault)
  {
    if luck.record.value.reach.Some? && Fits(luck.record.value.kind, luck.record.value.reach.value) && room {
      PlannedFailsBy(c, id, luck.record.value.kind, luck.record.value.reach.value, luck, fault);
    }
  }

  lemma PlannedFailsBy(c: Config, id: string, kind: Kind, reach: Reach, luck: Luck, fault: Fault)
    requires luck.record == Success(Plan(kind, Some(reach))) && Fits(kind, reach)
    ensures FromAdmitting(c, id, Plan(kind, Some(reach)), true, luck).place == Failing(fault)
       <==> ResumeFails(c, true, luck, fault)
  {
    LawfulIsAllowed(c.bounds, reach);
  }

  /** src/policy.rs:28-30 has the order keep away a record of a scan that never ran. It does for
      what is refused. A start leaves a journal and no scan to be filed exactly when a journal was
      made, and then its line could not be written or the engine said no. */
  lemma JournalWithoutScanExactly(c: Config, kind: Kind, room: bool, luck: Luck)
    requires Sensible(kind, luck)
    ensures var d := Alone(c, At(Asked.Start(kind), Reserved, room), luck);
      (d.journals != [] && !d.place.Filing?)
      <==> (ComesToItsLine(c, kind, room, luck) && c.recording && luck.journal.Some?
            && ((c.auditing && luck.startDisk.Fails?) || !luck.engine))
  {
    AStartAlone(c, kind, room, luck);
    if luck.resolver.Success? {
      LawfulIsAllowed(c.bounds, luck.resolver.value);
    }
  }

  /** And a start that is not refused makes one journal wherever it can. */
  lemma StartJournalsExactly(c: Config, kind: Kind, room: bool, luck: Luck)
    requires Sensible(kind, luck)
    ensures Alone(c, At(Asked.Start(kind), Reserved, room), luck).journals
         == if ComesToItsLine(c, kind, room, luck) && c.recording && luck.journal.Some? then [luck.journal.value] else []
  {
    AStartAlone(c, kind, room, luck);
    if luck.resolver.Success? {
      LawfulIsAllowed(c.bounds, luck.resolver.value);
    }
  }

  /** A resume makes none. */
  lemma AResumeMakesNoJournal(c: Config, id: string, room: bool, luck: Luck)
    requires luck.record.Failure? ==> Ordinary(luck.record.error)
    ensures Alone(c, At(Resume(id), Reserved, room), luck).journals == []
  {
    AResumeAlone(c, id, room, luck);
  }

  /** What was resolved holds no address the policy turns down. */
  ghost predicate Resolved(c: Config, luck: Luck) {
    luck.resolver.Success? && Lawful(c.bounds, luck.resolver.value)
  }

  /** Nor does what was planned, as the policy now stands. */
  ghost predicate Planned(c: Config, plan: Plan) {
    plan.reach.Some? && Lawful(c.bounds, plan.reach.value)
  }

  lemma NothingMore(world: World)
    ensures World(world.lines + [], world.journals + [], world.launches + []) == world
  {
  }

  // ---------------------------------------------------------------------------
  // The code
  // ---------------------------------------------------------------------------

  class Starter {
    const policy: Policy
    const recording: bool
    var journals: seq<string>
    var launches: seq<LaunchOf>

    constructor (policy: Policy, recording: bool)
      ensures this.policy == policy && this.recording == recording && journals == [] && launches == []
    {
      this.policy, this.recording, journals, launches := policy, recording, [], [];
    }

    ghost predicate Valid()
      reads this, policy, policy.audit, policy.scope, policy.scope.allowed, policy.scope.denied
    {
      policy.Valid()
    }

    /** The same daemon, as the state machine has it; the ceiling decided `hasRoom` already. */
    ghost function Settings(): Config
      reads this, policy, policy.scope, policy.scope.allowed, policy.scope.denied, policy.audit
    {
      Config(None, policy.scope.Terms(), policy.audit.configured, recording)
    }

    function Seen(): World reads this, policy, policy.audit { World(policy.audit.lines, journals, launches) }

    /** The audit, then the wire (start.rs:119-129, 165-173, 212-220, 342-350, 358-364,
        372-380). */
    method RecordAndLaunch(kind: Kind, reach: Reach, id: string, luck: Luck) returns (r: Result<string, Fault>)
      requires Valid()
      modifies this, policy.audit
      ensures Valid() && Settings() == old(Settings())
      ensures Matches(FromRecording(Settings(), kind, reach, id, luck), old(Seen()), Seen(), r)
    {
      NothingMore(Seen());
      var written := policy.Record(id, AuditedAs(kind), luck.startDisk);
      if written.Failure? {
        return Failure(written.error);
      }
      launches := launches + [LaunchOf(id, kind, reach)];
      if !luck.engine {
        return Failure(EngineError);
      }
      return Success(id);
    }

    /** A journal where there is a root and it can be made, and its name or a new one
        (start.rs:114-118, 160-164, 207-211). */
    method JournalAndLaunch(kind: Kind, reach: Reach, luck: Luck) returns (r: Result<string, Fault>)
      requires Valid()
      modifies this, policy.audit
      ensures Valid() && Settings() == old(Settings())
      ensures Matches(FromJournalling(Settings(), kind, reach, luck), old(Seen()), Seen(), r)
    {
      NothingMore(Seen());
      var id := luck.minted;
      if recording && luck.journal.Some? {
        id := luck.journal.value;
        journals := journals + [id];
      }
      r := RecordAndLaunch(kind, reach, id, luck);
    }

    /** start.rs:84-130 */
    method Ports(luck: Luck) returns (r: Result<string, Fault>)
      requires Valid() && Sensible(PortScan, luck)
      modifies this, policy.audit
      ensures Valid() && Settings() == old(Settings())
      ensures Matches(FromReading(Settings(), Asked.Start(PortScan), PortScan, luck), old(Seen()), Seen(), r)
      ensures launches == old(launches) || Resolved(old(Settings()), luck)
    {
      NothingMore(Seen());
      if luck.request.Some? {
        return Failure(luck.request.value);
      }
      if luck.resolver.Failure? {
        return Failure(luck.resolver.error);
      }
      LawfulIsAllowed(Settings().bounds, luck.resolver.value);
      var whole := ReachedBy(luck.resolver.value.units);
      var permitted := policy.Permit(whole, "port_scan", luck.refusalDisk);
      if permitted.Failure? {
        return Failure(permitted.error);
      }
      r := JournalAndLaunch(PortScan, luck.resolver.value, luck);
    }

    /** start.rs:137-174 */
    method Discover(luck: Luck) returns (r: Result<string, Fault>)
      requires Valid() && Sensible(Discovery, luck)
      modifies this, policy.audit
      ensures Valid() && Settings() == old(Settings())
      ensures Matches(FromReading(Settings(), Asked.Start(Discovery), Discovery, luck), old(Seen()), Seen(), r)
      ensures launches == old(launches) || Resolved(old(Settings()), luck)
    {
      NothingMore(Seen());
      if luck.request.Some? {
        return Failure(luck.request.value);
      }
      if luck.resolver.Failure? {
        return Failure(luck.resolver.error);
      }
      var addresses := new IpSet.Of(luck.resolver.value.addresses);
      var permitted := policy.Permit(addresses, "discovery", luck.refusalDisk);
      if permitted.Failure? {
        return Failure(permitted.error);
      }
      r := JournalAndLaunch(Discovery, luck.resolver.value, luck);
    }

    /** start.rs:180-221 */
    method Watch(luck: Luck) returns (r: Result<string, Fault>)
      requires Valid() && Sensible(Listen, luck)
      modifies this, policy.audit
      ensures Valid() && Settings() == old(Settings())
      ensures Matches(FromReading(Settings(), Asked.Start(Listen), Listen, luck), old(Seen()), Seen(), r)
    {
      NothingMore(Seen());
      if luck.request.Some? {
        return Failure(luck.request.value);
      }
      if luck.resolver.Failure? {
        return Failure(luck.resolver.error);
      }
      r := JournalAndLaunch(Listen, luck.resolver.value, luck);
    }

    /** start.rs:50-72: run alone, a start leaves in the audit, in the journals and on the wire
        what the moves of one request leave, and answers as they end. */
    method Scan(kind: Kind, luck: Luck) returns (r: Result<string, Fault>)
      requires Valid() && Sensible(kind, luck)
      modifies this, policy.audit
      ensures Valid() && Settings() == old(Settings())
      ensures Matches(Alone(Settings(), At(Asked.Start(kind), Reserved, policy.hasRoom), luck), old(Seen()), Seen(), r)
      ensures launches == old(launches) || kind.Listen? || Resolved(old(Settings()), luck)
    {
      NothingMore(Seen());
      AStartAlone(Settings(), kind, policy.hasRoom, luck);
      var room := policy.Room(AuditedAs(kind), luck.refusalDisk);
      if room.Failure? {
        return Failure(room.error);
      }
      match kind
      case Discovery => r := Discover(luck);
      case Listen => r := Watch(luck);
      case PortScan => r := Ports(luck);
      case OtherKind => r := Ports(luck);
    }

    /** start.rs:326-385: the plan judged again, and then the audit and the wire. */
    method Continue(id: string, plan: Plan, luck: Luck) returns (r: Result<string, Fault>)
      requires Valid()
      modifies this, policy.audit
      ensures Valid() && Settings() == old(Settings())
      ensures Matches(FromAdmitting(Settings(), id, plan, true, luck), old(Seen()), Seen(), r)
      ensures launches == old(launches) || Planned(old(Settings()), plan)
    {
      NothingMore(Seen());
      if plan.reach.None? || !Fits(plan.kind, plan.reach.value) {
        return Failure(WrongPhase);
      }
      LawfulIsAllowed(Settings().bounds, plan.reach.value);
      if !plan.kind.Listen? {
        var reaching := Reaching(plan.reach.value);
        var permitted := policy.Permit(reaching, AuditedAs(plan.kind), luck.refusalDisk);
        if permitted.Failure? {
          return Failure(permitted.error);
        }
      }
      r := RecordAndLaunch(plan.kind, plan.reach.value, id, luck);
    }

    /** start.rs:306-386: and so does a resume, whose plan and name are the record's. */
    method ResumeOne(id: string, luck: Luck) returns (r: Result<string, Fault>)
      requires Valid() && (luck.record.Failure? ==> Ordinary(luck.record.error))
      modifies this, policy.audit
      ensures Valid() && Settings() == old(Settings())
      ensures Matches(Alone(Settings(), At(Resume(id), Reserved, policy.hasRoom), luck), old(Seen()), Seen(), r)
      ensures launches == old(launches) || (luck.record.Success? && Planned(old(Settings()), luck.record.value))
    {
      NothingMore(Seen());
      AResumeAlone(Settings(), id, policy.hasRoom, luck);
      if luck.record.Failure? {
        return Failure(luck.record.error);
      }
      var room := policy.Room(AuditedAs(luck.record.value.kind), luck.refusalDisk);
      if room.Failure? {
        return Failure(room.error);
      }
      r := Continue(id, luck.record.value, luck);
    }

    static method Reaching(reach: Reach) returns (whole: IpSet)
      requires !reach.Links?
      ensures fresh(whole) && whole.Valid() && Members(whole.Value()) == Reached(reach)
    {
      if reach.Units? {
        whole := ReachedBy(reach.units);
      } else {
        whole := new IpSet.Of(reach.addresses);
      }
    }
  }
}
