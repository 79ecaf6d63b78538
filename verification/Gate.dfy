/** The gate a scan has to pass (src/policy.rs:48-112). */
module Gate {
  import opened Wrappers
  import opened AuditLog
  import opened Scope

  datatype Kind = PortScan | Discovery | Listen | OtherKind

  /** The three words for a kind of scan in the audit (src/start.rs:75-81). */
  function AuditedAs(kind: Kind): string {
    match kind
    case Discovery => "discovery"
    case Listen => "listen"
    case _ => "port_scan"
  }

  /** A kind this daemon has no name for is scanned as ports are (src/start.rs:51-54, 68-71). */
  function ScannedAs(kind: Kind): Kind { if kind.OtherKind? then PortScan else kind }

  /** What a refusal amounts to: it is the caller's answer with its line already written, or
      the answer is that the audit could not be written. */
  ghost predicate RefusedAndWritten(configured: bool, disk: Disk, refusal: Fault, kind: string,
                                    answer: Result<Done, Fault>, before: seq<Line>, after: seq<Line>) {
    if configured && disk.Fails? then answer == Failure(AuditUnwritable(true)) && after == before
    else answer == Failure(refusal) && after == if configured then before + [RefusedLine(refusal, kind)] else before
  }

  class Policy {
    const scope: Scope
    const audit: Audit
    const hasRoom: bool

    constructor (scope: Scope, audit: Audit, hasRoom: bool)
      ensures this.scope == scope && this.audit == audit && this.hasRoom == hasRoom
    {
      this.scope, this.audit, this.hasRoom := scope, audit, hasRoom;
    }

    ghost predicate Valid()
      reads this, audit, scope, scope.allowed, scope.denied
    {
      audit.Valid() && scope.Valid()
    }

    /** The refusal written, and then the answer. */
    method Refuse(refusal: Fault, kind: string, disk: Disk) returns (r: Result<Done, Fault>)
      requires Valid()
      modifies audit
      ensures Valid()
      ensures RefusedAndWritten(audit.configured, disk, refusal, kind, r, old(audit.lines), audit.lines)
    {
      var written := audit.Refused(refusal, kind, disk);
      if written.Failure? {
        return written;
      }
      return Failure(refusal);
    }

    /** Without a slot this never succeeds, whether or not the refusal could be written
        (src/policy.rs:74-83). */
    method Room(kind: string, disk: Disk) returns (r: Result<Done, Fault>)
      requires Valid()
      modifies audit
      ensures Valid()
      ensures r.Success? <==> hasRoom
      ensures hasRoom ==> audit.lines == old(audit.lines)
      ensures !hasRoom ==>
        RefusedAndWritten(audit.configured, disk, AtCapacity, kind, r, old(audit.lines), audit.lines)
    {
      if hasRoom {
        return Success(Done);
      }
      r := Refuse(AtCapacity, kind, disk);
    }

    /** The scope's answer, and on a no its line before it is passed on
        (src/policy.rs:91-103). */
    method Permit(reaching: IpSet, kind: string, disk: Disk) returns (r: Result<Done, Fault>)
      requires Valid() && reaching.Valid()
      modifies audit
      ensures Valid()
      ensures r.Success? <==> AllowsAll(scope.Terms(), Members(reaching.Value()))
      ensures r.Success? ==> audit.lines == old(audit.lines)
      ensures r.Failure? ==>
        RefusedAndWritten(audit.configured, disk, ScopeRefused, kind, r, old(audit.lines), audit.lines)
    {
      ghost var terms, asked := scope.Terms(), reaching.Value();
      var verdict := scope.Permits(reaching);
      if verdict.Permitted? {
        return Success(Done);
      }
      r := Refuse(ScopeRefused, kind, disk);
      assert scope.Terms() == terms && reaching.Value() == asked;
    }

    /** The line that has to stand in the audit before anything is launched
        (src/policy.rs:109-111). */
    method Record(id: string, kind: string, disk: Disk) returns (r: Result<Done, Fault>)
      requires Valid()
      modifies audit
      ensures Valid()
      ensures r == if audit.configured && disk.Fails? then Failure(AuditUnwritable(false)) else Success(Done)
      ensures audit.lines
           == old(audit.lines) + if audit.configured && disk.Takes? then [StartedLine(id, kind)] else []
    {
      r := audit.Started(id, kind, disk);
      assert old(audit.lines) + [] == old(audit.lines);
    }
  }
}
