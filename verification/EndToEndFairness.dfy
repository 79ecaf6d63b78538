/** Scan and connection running on for ever (src/scans.rs:237-248, 705-725; src/stdio.rs:366-409;
    examples/scan.ts:59-66, 107-123): the promise of a watched question resolves in every run that
    treats its parties fairly, whatever all the others do. */
module EndToEndFairness {
  import opened Wrappers
  import L = Fairness
  import G = ScanProgress
  import P = ScanProtocol
  import opened Speak
  import opened SpeakRuns
  import opened Conversation
  import opened EndToEnd
  import opened EndToEndProgress

  ghost predicate Runs(k: nat, id: nat, states: nat -> Whole, joints: nat -> Joint) {
    forall n: nat {:trigger joints(n)} ::
      Able(k, id, states(n), joints(n)) && states(n + 1) == Done(k, id, states(n), joints(n))
  }

  // ---------------------------------------------------------------------------
  // Fairness
  // ---------------------------------------------------------------------------

  /** The follower and the question's task are not passed over for ever: again and again one of
      them moves, or from some step on neither ever has a move. */
  ghost predicate FairToWork(k: nat, id: nat, states: nat -> Whole, joints: nat -> Joint) {
    L.Fair(Working(joints, k), Idle(k, id, states))
  }

  ghost function Working(joints: nat -> Joint, k: nat): nat -> bool { (i: nat) => Works(joints(i), k) }

  ghost predicate IdleFrom(k: nat, id: nat, states: nat -> Whole, i: nat) {
    forall m: nat :: i <= m ==> NoWork(k, id, states(m))
  }

  ghost function Idle(k: nat, id: nat, states: nat -> Whole): nat -> bool { (i: nat) => IdleFrom(k, id, states, i) }

  /** Nobody keeps the output for ever: again and again whoever has it writes or gives it back, or
      nobody else has it. */
  ghost predicate FairToWriters(k: nat, states: nat -> Whole, joints: nat -> Joint) {
    L.Fair(Putting(joints), Cleared(k, states))
  }

  ghost function Putting(joints: nat -> Joint): nat -> bool { (i: nat) => Outputs(joints(i)) }

  ghost function Cleared(k: nat, states: nat -> Whole): nat -> bool { (i: nat) => Clear(states(i), k) }

  /** The client goes on reading: again and again it takes a frame, or has taken all there are. */
  ghost predicate FairToReader(states: nat -> Whole, joints: nat -> Joint) {
    L.Fair(Taking(joints), CaughtUp(states))
  }

  ghost function Taking(joints: nat -> Joint): nat -> bool { (i: nat) => joints(i) == ByTalk(Takes) }

  ghost function CaughtUp(states: nat -> Whole): nat -> bool {
    (i: nat) => states(i).talk.got >= |states(i).talk.daemon.sent|
  }

  // ---------------------------------------------------------------------------
  // Along a run
  // ---------------------------------------------------------------------------

  lemma {:induction false} WindingAlong(k: nat, id: nat, states: nat -> Whole, joints: nat -> Joint, n: nat, i: nat)
    requires Runs(k, id, states, joints) && n <= i && Winding(k, id, states(n))
    ensures Winding(k, id, states(i))
    decreases i - n
  {
    if n < i {
      StaysWinding(k, id, states(n), joints(n));
      WindingAlong(k, id, states, joints, n + 1, i);
    }
  }

  lemma SentGrows(k: nat, id: nat, s: Whole, j: Joint)
    requires Able(k, id, s, j)
    ensures s.talk.daemon.sent <= Done(k, id, s, j).talk.daemon.sent && s.talk.got <= Done(k, id, s, j).talk.got
    ensures j == ByTalk(Takes) ==> s.talk.got < Done(k, id, s, j).talk.got
  {
    JointIsTalk(k, id, s, j);
    var x := OnTalk(k, j);
    if x.Some? {
      StepSends(s.talk, x.value);
    }
  }

  lemma StepSends(t: Talk, x: Step)
    requires May(t, x)
    ensures t.daemon.sent <= Stepped(t, x).daemon.sent && t.got <= Stepped(t, x).got
    ensures x.Takes? ==> t.got < Stepped(t, x).got
  {
  }

  lemma {:induction false} SentAlong(k: nat, id: nat, states: nat -> Whole, joints: nat -> Joint, n: nat, i: nat)
    requires Runs(k, id, states, joints) && n <= i
    ensures states(n).talk.daemon.sent <= states(i).talk.daemon.sent
    decreases i - n
  {
    if n < i {
      SentGrows(k, id, states(n), joints(n));
      SentAlong(k, id, states, joints, n + 1, i);
    }
  }

  // ---------------------------------------------------------------------------
  // What is left to do
  // ---------------------------------------------------------------------------

  ghost function Weights(k: nat, id: nat, states: nat -> Whole): nat -> L.Weight {
    (i: nat) => WeightOf(k, id, states(i))
  }

  lemma WorkFalls(k: nat, id: nat, states: nat -> Whole, joints: nat -> Joint, n: nat)
    requires Runs(k, id, states, joints) && Winding(k, id, states(n))
    ensures L.Falls(Weights(k, id, states), Working(joints, k), Idle(k, id, states), n)
  {
    forall i: nat | n <= i
      ensures L.Step(Weights(k, id, states), Working(joints, k), i)
    {
      WindingAlong(k, id, states, joints, n, i);
      JointWeighs(k, id, states(i), joints(i));
    }
  }

  ghost function HeldWeights(k: nat, states: nat -> Whole): nat -> L.Weight {
    (i: nat) => L.Weight(HeldLeft(states(i).talk.daemon, k), 0, 0)
  }

  lemma HeldFallsAlong(k: nat, id: nat, states: nat -> Whole, joints: nat -> Joint, n: nat)
    requires Runs(k, id, states, joints) && Winding(k, id, states(n))
    ensures L.Falls(HeldWeights(k, states), Putting(joints), Cleared(k, states), n)
  {
    forall i: nat | n <= i && !Clear(states(i), k)
      ensures L.Step(HeldWeights(k, states), Putting(joints), i)
    {
      WindingAlong(k, id, states, joints, n, i);
      JointHolds(k, id, states(i), joints(i));
    }
  }

  /** Frames of so many that the client has not taken. */
  function Untold(t: Talk, upto: nat): nat { if t.got < upto then upto - t.got else 0 }

  ghost function UntoldWeights(states: nat -> Whole, upto: nat): nat -> L.Weight {
    (i: nat) => L.Weight(Untold(states(i).talk, upto), 0, 0)
  }

  ghost function Told(states: nat -> Whole, upto: nat): nat -> bool { (i: nat) => states(i).talk.got >= upto }

  lemma UntoldFalls(k: nat, id: nat, states: nat -> Whole, joints: nat -> Joint, n: nat, upto: nat)
    requires Runs(k, id, states, joints)
    ensures L.Falls(UntoldWeights(states, upto), Taking(joints), Told(states, upto), n)
  {
    forall i: nat | n <= i && states(i).talk.got < upto
      ensures L.Step(UntoldWeights(states, upto), Taking(joints), i)
    {
      SentGrows(k, id, states(i), joints(i));
    }
  }

  /** To have taken all there is is to have taken all there was. */
  lemma FairToTell(k: nat, id: nat, states: nat -> Whole, joints: nat -> Joint, n: nat)
    requires Runs(k, id, states, joints) && FairToReader(states, joints)
    ensures L.Fair(Taking(joints), Told(states, |states(n).talk.daemon.sent|))
  {
    var upto := |states(n).talk.daemon.sent|;
    forall m: nat
      ensures L.Served(Taking(joints), Told(states, upto), m)
    {
      var later := if m < n then n else m;
      assert L.Served(Taking(joints), CaughtUp(states), later);
      var i :| later <= i && L.Works(Taking(joints), CaughtUp(states), i);
      SentAlong(k, id, states, joints, n, i);
      assert L.Works(Taking(joints), Told(states, upto), i);
    }
  }

  // ---------------------------------------------------------------------------
  // What that comes to
  // ---------------------------------------------------------------------------

  lemma ComesToItsEnd(k: nat, id: nat, states: nat -> Whole, joints: nat -> Joint, n: nat) returns (i: nat)
    requires Runs(k, id, states, joints) && Winding(k, id, states(n))
    requires FairToWork(k, id, states, joints) && FairToWriters(k, states, joints)
    ensures n <= i && Winding(k, id, states(i))
    ensures states(i).scan.watches[id].place.Ended? && HasAnswered(states(i).talk.daemon, k)
  {
    WorkFalls(k, id, states, joints, n);
    var rest := L.ComesToRest(Weights(k, id, states), Working(joints, k), Idle(k, id, states), n);
    WindingAlong(k, id, states, joints, n, rest);
    HeldFallsAlong(k, id, states, joints, rest);
    i := L.ComesToRest(HeldWeights(k, states), Putting(joints), Cleared(k, states), rest);
    WindingAlong(k, id, states, joints, rest, i);
    assert IdleFrom(k, id, states, rest);
    RestHasAnswered(k, id, states(i));
  }

  /** However the rest of the scan and of the connection go on, for ever if they like: once the
      engine is done, the promise of a watched question resolves, so long as the follower and its
      task are not passed over for ever, nobody keeps the output for ever, and the client goes on
      reading. */
  lemma EveryFairRunResolves(k: nat, id: nat, states: nat -> Whole, joints: nat -> Joint, n: nat) returns (i: nat)
    requires Runs(k, id, states, joints) && Winding(k, id, states(n))
    requires FairToWork(k, id, states, joints) && FairToWriters(k, states, joints) && FairToReader(states, joints)
    ensures n <= i && k + 1 in states(i).talk.client.settled
    ensures |states(i).talk.client.settled[k + 1]| == 1 && states(i).talk.client.settled[k + 1][0].Resolved?
  {
    var end := ComesToItsEnd(k, id, states, joints, n);
    var upto := |states(end).talk.daemon.sent|;
    FairToTell(k, id, states, joints, end);
    UntoldFalls(k, id, states, joints, end, upto);
    i := L.ComesToRest(UntoldWeights(states, upto), Taking(joints), Told(states, upto), end);
    WindingAlong(k, id, states, joints, end, i);
    SentAlong(k, id, states, joints, end, i);
    AskedStill(k, id, states(i));
    ReadResolves(k, id, states(end), states(i).talk);
  }

  lemma AskedStill(k: nat, id: nat, s: Whole)
    requires Winding(k, id, s)
    ensures Happens(s.talk) && k < |s.talk.client.asked| && s.talk.got <= |s.talk.daemon.sent|
  {
    AlwaysInStep(k, id, s);
    AnyTalk(s.talk);
  }
}
