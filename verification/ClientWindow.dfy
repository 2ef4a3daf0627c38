/**
 The window in which two clients hold their transactions open, from src/migration_rehearsal/sync.py and the actors of
 src/migration_rehearsal/contract.py: two workers, a coordinator, aborts and timeouts, interleaved step by step.
 */
module ClientWindow {

  datatype Party = V1 | V2 | Coordinator

  /** Where a party is; an abort takes four steps, and only then does the party roll back or fail. */
  datatype Pc =
    | Opening | AtAdmission | Admitted | Written | Recorded | AtDml | PastDml | SawRelease | Committed
    | Observed | Released | Finished | Aborting(step: nat) | Ended

  datatype Pcs = Pcs(v1: Pc, v2: Pc, coordinator: Pc)

  /** A set of parties. */
  datatype Parties = Parties(v1: bool, v2: bool, coordinator: bool)

  predicate Among(t: Parties, p: Party) {
    match p
    case V1 => t.v1
    case V2 => t.v2
    case Coordinator => t.coordinator
  }

  function With(t: Parties, p: Party): Parties {
    match p
    case V1 => t.(v1 := true)
    case V2 => t.(v2 := true)
    case Coordinator => t.(coordinator := true)
  }

  datatype BarrierState = Filling | Draining | Broken

  datatype Barrier = Barrier(arrived: Parties, state: BarrierState)

  /** `called` records that the coordinator has called `release_commits`. */
  datatype Flags = Flags(aborted: bool, release: bool, called: bool)

  datatype State = State(pcs: Pcs, admission: Barrier, dml: Barrier, flags: Flags, actors: Parties)

  /** `Fails` is any exception, a timeout included, wherever the party is. */
  datatype Move = Arrive | Wake | Write | Record | SeeRelease | Commit | Observe | Release | Collect | Fails | AbortStep

  datatype Event = Event(party: Party, move: Move)

  const NOBODY: Parties := Parties(false, false, false)

  function Initial(): State {
    State(Pcs(Opening, Opening, Opening), Barrier(NOBODY, Filling), Barrier(NOBODY, Filling),
          Flags(false, false, false), NOBODY)
  }

  function At(s: State, p: Party): Pc {
    match p
    case V1 => s.pcs.v1
    case V2 => s.pcs.v2
    case Coordinator => s.pcs.coordinator
  }

  function Go(s: State, p: Party, pc: Pc): State {
    match p
    case V1 => s.(pcs := s.pcs.(v1 := pc))
    case V2 => s.(pcs := s.pcs.(v2 := pc))
    case Coordinator => s.(pcs := s.pcs.(coordinator := pc))
  }

  predicate BothWorkers(t: Parties) {
    t.v1 && t.v2
  }

  predicate Everyone(t: Parties) {
    t.v1 && t.v2 && t.coordinator
  }

  /** `Barrier.wait` up to the point where the party waits; the last party trips the barrier. */
  function Arrived(b: Barrier, p: Party, needsCoordinator: bool): Barrier {
    var arrived := With(b.arrived, p);
    Barrier(arrived,
            if b.state == Filling && BothWorkers(arrived) && (needsCoordinator ==> arrived.coordinator) then Draining
            else b.state)
  }

  function Breaks(b: Barrier): Barrier {
    b.(state := Broken)
  }

  /** A party that meets or breaks a barrier, times out or fails starts to abort. */
  function Aborts(s: State, p: Party): State {
    Go(s, p, Aborting(0))
  }

  function ArriveAtDml(s: State, p: Party): State {
    if s.dml.state == Broken then Aborts(s, p) else Go(s, p, AtDml).(dml := Arrived(s.dml, p, true))
  }

  /** A party wakes when the barrier drains or breaks. */
  function WakeAt(s: State, p: Party, state: BarrierState, next: Pc): State {
    match state
    case Draining => Go(s, p, next)
    case Broken => Aborts(s, p)
    case Filling => s
  }

  /** `_client_actor` after its connection is open. */
  function WorkerStep(s: State, p: Party, move: Move): State {
    match (At(s, p), move)
    case (Opening, Arrive) =>
      if s.admission.state == Broken then Aborts(s, p)
      else Go(s, p, AtAdmission).(admission := Arrived(s.admission, p, false))
    case (AtAdmission, Wake) => WakeAt(s, p, s.admission.state, Admitted)
    case (Admitted, Write) => Go(s, p, Written)
    case (Written, Record) => Go(s, p, Recorded).(actors := With(s.actors, p))
    case (Recorded, Arrive) => ArriveAtDml(s, p)
    case (AtDml, Wake) => WakeAt(s, p, s.dml.state, PastDml)
    case (PastDml, SeeRelease) => if s.flags.release then Go(s, p, SawRelease) else s
    case (SawRelease, Commit) => if s.flags.aborted then Aborts(s, p) else Go(s, p, Committed)
    case _ => s
  }

  /** `run_concurrent_clients` after both workers were submitted. */
  function CoordinatorStep(s: State, move: Move): State {
    match (At(s, Coordinator), move)
    case (Opening, Arrive) => ArriveAtDml(s, Coordinator)
    case (AtDml, Wake) => WakeAt(s, Coordinator, s.dml.state, PastDml)
    case (PastDml, Observe) => Go(s, Coordinator, Observed)
    case (Observed, Release) => Go(s, Coordinator, Released).(flags := s.flags.(release := true, called := true))
    case (Released, Collect) =>
      if At(s, V1) == Committed && At(s, V2) == Committed then Go(s, Coordinator, Finished) else s
    case _ => s
  }

  /** `abort`: the flag first, then both barriers, and the release event last. */
  function AbortStepOf(s: State, p: Party): State {
    var pc := At(s, p);
    if !pc.Aborting? then s
    else if pc.step == 0 then Go(s, p, Aborting(1)).(flags := s.flags.(aborted := true))
    else if pc.step == 1 then Go(s, p, Aborting(2)).(admission := Breaks(s.admission))
    else if pc.step == 2 then Go(s, p, Aborting(3)).(dml := Breaks(s.dml))
    else Go(s, p, Ended).(flags := s.flags.(release := true))
  }

  /** A timeout in a barrier breaks it; anything else that fails just starts the abort. */
  function FailsAt(s: State, p: Party): State {
    var pc := At(s, p);
    if pc.Aborting? || pc.Ended? || pc.Committed? || pc.Finished? then s
    else
      Aborts(s, p).(admission := if pc.AtAdmission? then Breaks(s.admission) else s.admission,
                    dml := if pc.AtDml? then Breaks(s.dml) else s.dml)
  }

  function Step(s: State, e: Event): State {
    if e.move == Fails then FailsAt(s, e.party)
    else if e.move == AbortStep then AbortStepOf(s, e.party)
    else if e.party == Coordinator then CoordinatorStep(s, e.move)
    else WorkerStep(s, e.party, e.move)
  }

  function Run(s: State, events: seq<Event>): State {
    if events == [] then s else Step(Run(s, events[..|events| - 1]), events[|events| - 1])
  }

  // ---------------------------------------------------------------- the invariant

  predicate PastBarrier(pc: Pc) {
    pc.PastDml? || pc.SawRelease? || pc.Committed? || pc.Observed? || pc.Released? || pc.Finished?
  }

  predicate PartyFits(s: State, p: Party) {
    var pc := At(s, p);
    && (PastBarrier(pc) ==> Everyone(s.dml.arrived))
    && (p != Coordinator && (Among(s.dml.arrived, p) || pc.AtDml? || pc.Recorded?) ==> Among(s.actors, p))
    && (pc.Aborting? && pc.step > 0 ==> s.flags.aborted)
    && (pc == SawRelease ==> s.flags.release)
    && (pc == Committed ==> s.flags.called)
    && (Among(s.actors, p) || pc.Admitted? || pc.Written? ==> BothWorkers(s.admission.arrived))
  }

  predicate FlagsFit(s: State) {
    && (s.admission.state == Draining ==> BothWorkers(s.admission.arrived))
    && (s.dml.state == Draining ==> Everyone(s.dml.arrived))
    && (s.flags.release ==> s.flags.called || s.flags.aborted)
    && (s.flags.called ==> Everyone(s.dml.arrived))
  }

  predicate Inv(s: State) {
    PartyFits(s, V1) && PartyFits(s, V2) && PartyFits(s, Coordinator) && FlagsFit(s)
  }

  /** A step of one party leaves another where it is, and otherwise only adds the party to sets and raises flags. */
  predicate LeavesAlone(s: State, after: State, q: Party) {
    && At(after, q) == At(s, q)
    && Among(after.actors, q) == Among(s.actors, q) && Among(after.dml.arrived, q) == Among(s.dml.arrived, q)
    && (BothWorkers(s.admission.arrived) ==> BothWorkers(after.admission.arrived))
    && (Everyone(s.dml.arrived) ==> Everyone(after.dml.arrived))
    && (s.flags.aborted ==> after.flags.aborted)
    && (s.flags.release ==> after.flags.release)
    && (s.flags.called ==> after.flags.called)
  }

  lemma {:induction false} OthersFit(s: State, after: State, q: Party)
    requires PartyFits(s, q) && LeavesAlone(s, after, q)
    ensures PartyFits(after, q)
  {
  }

  lemma {:induction false} OthersAreLeftAlone(s: State, e: Event, q: Party)
    requires q != e.party
    ensures LeavesAlone(s, Step(s, e), q)
  {
  }

  lemma {:induction false} MovedPartyFits(s: State, e: Event)
    requires PartyFits(s, e.party) && FlagsFit(s)
    ensures PartyFits(Step(s, e), e.party) && FlagsFit(Step(s, e))
  {
    if e.move == Fails || e.move == AbortStep {
      FailureFits(s, e.party);
    } else if e.party == Coordinator {
      CoordinatorFits(s, e.move);
    } else {
      WorkerFits(s, e.party, e.move);
    }
  }

  lemma {:induction false} FailureFits(s: State, p: Party)
    requires PartyFits(s, p) && FlagsFit(s)
    ensures PartyFits(FailsAt(s, p), p) && FlagsFit(FailsAt(s, p))
    ensures PartyFits(AbortStepOf(s, p), p) && FlagsFit(AbortStepOf(s, p))
  {
  }

  lemma {:induction false} CoordinatorFits(s: State, move: Move)
    requires PartyFits(s, Coordinator) && FlagsFit(s)
    ensures PartyFits(CoordinatorStep(s, move), Coordinator) && FlagsFit(CoordinatorStep(s, move))
  {
  }

  lemma {:induction false} WorkerFits(s: State, p: Party, move: Move)
    requires p != Coordinator && PartyFits(s, p) && FlagsFit(s)
    ensures PartyFits(WorkerStep(s, p, move), p) && FlagsFit(WorkerStep(s, p, move))
  {
  }

  lemma {:induction false} StepKeepsInv(s: State, e: Event)
    requires Inv(s)
    ensures Inv(Step(s, e))
  {
    assert PartyFits(s, e.party);
    MovedPartyFits(s, e);
    forall q | q != e.party
      ensures PartyFits(Step(s, e), q)
    {
      OthersAreLeftAlone(s, e, q);
      OthersFit(s, Step(s, e), q);
    }
  }

  lemma {:induction false} EveryReachableStateFits(events: seq<Event>)
    ensures Inv(Run(Initial(), events))
  {
    if events != [] {
      EveryReachableStateFits(events[..|events| - 1]);
      StepKeepsInv(Run(Initial(), events[..|events| - 1]), events[|events| - 1]);
    }
  }

  // ---------------------------------------------------------------- what follows over every interleaving

  /** The coordinator passes the second barrier only after both workers wrote and recorded their identities. */
  lemma {:induction false} CoordinatorSeesBothActors(events: seq<Event>)
    requires PastBarrier(At(Run(Initial(), events), Coordinator))
    ensures BothWorkers(Run(Initial(), events).actors)
  {
    EveryReachableStateFits(events);
  }

  /** A worker writes only after both were admitted. */
  lemma {:induction false} WritersWereBothAdmitted(events: seq<Event>, p: Party)
    requires At(Run(Initial(), events), p) in {Admitted, Written} || Among(Run(Initial(), events).actors, p)
    ensures BothWorkers(Run(Initial(), events).admission.arrived)
  {
    EveryReachableStateFits(events);
  }

  /** A worker commits only after `release_commits`, whatever was aborted or timed out, and only after both recorded. */
  lemma {:induction false} CommitNeedsRelease(events: seq<Event>, p: Party)
    requires At(Run(Initial(), events), p) == Committed
    ensures Run(Initial(), events).flags.called && BothWorkers(Run(Initial(), events).actors)
  {
    EveryReachableStateFits(events);
  }

  // ---------------------------------------------------------------- when both clients commit

  /** The party has failed: it aborts, or has ended aborted. */
  predicate Fallen(pc: Pc) {
    pc.Aborting? || pc.Ended?
  }

  predicate NobodyFell(s: State) {
    !Fallen(s.pcs.v1) && !Fallen(s.pcs.v2) && !Fallen(s.pcs.coordinator)
  }

  predicate AWorkerFell(s: State) {
    Fallen(s.pcs.v1) || Fallen(s.pcs.v2)
  }

  predicate BothCommitted(s: State) {
    s.pcs.v1 == Committed && s.pcs.v2 == Committed
  }

  /** No party fails or times out. */
  predicate NoFailure(events: seq<Event>) {
    forall i | 0 <= i < |events| :: events[i].move != Fails
  }

  /** While nobody has fallen no flag is raised and no barrier broken. */
  predicate Calm(s: State) {
    NobodyFell(s) && !s.flags.aborted && s.admission.state != Broken && s.dml.state != Broken
  }

  lemma {:induction false} StepStaysCalm(s: State, e: Event)
    requires Calm(s) && e.move != Fails
    ensures Calm(Step(s, e))
  {
    if e.move == AbortStep {
      assert Step(s, e) == s;
    } else if e.party == Coordinator {
      CoordinatorStaysCalm(s, e.move);
    } else {
      WorkerStaysCalm(s, e.party, e.move);
    }
  }

  lemma {:induction false} CoordinatorStaysCalm(s: State, move: Move)
    requires Calm(s)
    ensures Calm(CoordinatorStep(s, move))
  {
  }

  lemma {:induction false} WorkerStaysCalm(s: State, p: Party, move: Move)
    requires Calm(s) && p != Coordinator
    ensures Calm(WorkerStep(s, p, move))
  {
  }

  lemma {:induction false} CalmUnlessFailed(s: State, events: seq<Event>)
    requires Calm(s) && NoFailure(events)
    ensures Calm(Run(s, events))
  {
    if events != [] {
      CalmUnlessFailed(s, events[..|events| - 1]);
      StepStaysCalm(Run(s, events[..|events| - 1]), events[|events| - 1]);
    }
  }

  /** What is raised or broken was raised or broken by a party that has fallen. */
  predicate TroubleHasACause(s: State) {
    NobodyFell(s) ==> Calm(s)
  }

  lemma {:induction false} StepKeepsCause(s: State, e: Event)
    requires TroubleHasACause(s)
    ensures TroubleHasACause(Step(s, e))
  {
    if NobodyFell(s) {
      if e.move == Fails {
        FailureFalls(s, e.party);
      } else {
        StepStaysCalm(s, e);
      }
    } else {
      FallenStaysFallen(s, e, if Fallen(s.pcs.v1) then V1 else if Fallen(s.pcs.v2) then V2 else Coordinator);
    }
  }

  lemma {:induction false} FailureFalls(s: State, p: Party)
    ensures FailsAt(s, p) == s || Fallen(At(FailsAt(s, p), p))
  {
  }

  lemma {:induction false} FallenStaysFallen(s: State, e: Event, p: Party)
    requires Fallen(At(s, p))
    ensures Fallen(At(Step(s, e), p))
  {
  }

  lemma {:induction false} CommittedStays(s: State, events: seq<Event>, p: Party)
    requires At(s, p) == Committed && p != Coordinator
    ensures At(Run(s, events), p) == Committed
  {
    if events != [] {
      CommittedStays(s, events[..|events| - 1], p);
    }
  }

  /** A fallen party has raised the flag, broken the barriers and opened the release, as far as it has come. */
  predicate FallFits(s: State, p: Party) {
    var pc := At(s, p);
    && (pc.Ended? ==> s.flags.aborted && s.flags.release && s.dml.state == Broken)
    && (pc.Aborting? && pc.step > 0 ==> s.flags.aborted)
    && (pc.Aborting? && pc.step > 2 ==> s.dml.state == Broken)
  }

  /** A worker that has reached the second barrier is at it, past it, or fallen. */
  predicate ArrivalFits(s: State, p: Party) {
    Among(s.dml.arrived, p) && p != Coordinator ==>
      var pc := At(s, p); pc.AtDml? || pc.PastDml? || pc.SawRelease? || pc.Committed? || Fallen(pc)
  }

  predicate EndFits(s: State) {
    && TroubleHasACause(s)
    && FallFits(s, V1) && FallFits(s, V2) && FallFits(s, Coordinator) && ArrivalFits(s, V1) && ArrivalFits(s, V2)
    && (s.dml.state == Filling ==> !Everyone(s.dml.arrived))
    && (s.flags.called ==> s.flags.release && Everyone(s.dml.arrived))
  }

  lemma {:induction false} FallStaysFit(s: State, e: Event, p: Party)
    requires FallFits(s, p)
    ensures FallFits(Step(s, e), p)
  {
    if e.party != p {
      OthersAreLeftAlone(s, e, p);
      if s.dml.state == Broken {
        BrokenStaysBroken(s, e);
      }
    }
  }

  lemma {:induction false} BrokenStaysBroken(s: State, e: Event)
    requires s.dml.state == Broken
    ensures Step(s, e).dml.state == Broken
  {
  }

  lemma {:induction false} ArrivalStaysFit(s: State, e: Event, p: Party)
    requires ArrivalFits(s, p)
    ensures ArrivalFits(Step(s, e), p)
  {
  }

  lemma {:induction false} StepKeepsEnd(s: State, e: Event)
    requires EndFits(s) && Inv(s)
    ensures EndFits(Step(s, e))
  {
    StepKeepsCause(s, e);
    FallStaysFit(s, e, V1);
    FallStaysFit(s, e, V2);
    FallStaysFit(s, e, Coordinator);
    ArrivalStaysFit(s, e, V1);
    ArrivalStaysFit(s, e, V2);
    StepKeepsInv(s, e);
    BarrierStaysFit(s, e);
    ReleaseStaysFit(s, e);
  }

  lemma {:induction false} BarrierStaysFit(s: State, e: Event)
    requires s.dml.state == Filling ==> !Everyone(s.dml.arrived)
    ensures Step(s, e).dml.state == Filling ==> !Everyone(Step(s, e).dml.arrived)
  {
  }

  lemma {:induction false} ReleaseStaysFit(s: State, e: Event)
    requires s.flags.called ==> s.flags.release
    ensures Step(s, e).flags.called ==> Step(s, e).flags.release
  {
  }

  lemma {:induction false} EveryReachableEndFits(events: seq<Event>)
    ensures Inv(Run(Initial(), events)) && EndFits(Run(Initial(), events))
  {
    EveryReachableStateFits(events);
    if events != [] {
      var init := events[..|events| - 1];
      EveryReachableEndFits(init);
      StepKeepsEnd(Run(Initial(), init), events[|events| - 1]);
    }
  }

  /** A commit without the other's needs a failure of some party. */
  lemma {:induction false} LoneCommitNeedsFailure(events: seq<Event>, p: Party, q: Party)
    requires At(Run(Initial(), events), p) == Committed && Fallen(At(Run(Initial(), events), q))
    ensures !NoFailure(events)
  {
    if NoFailure(events) {
      CalmUnlessFailed(Initial(), events);
    }
  }

  /** One event more. */
  lemma {:induction false} Continue(start: State, events: seq<Event>, s: State, party: Party, move: Move)
    returns (longer: seq<Event>, after: State)
    requires s == Run(start, events) && NoFailure(events) && move != Fails
    ensures after == Step(s, Event(party, move)) && after == Run(start, longer) && NoFailure(longer)
  {
    longer, after := events + [Event(party, move)], Step(s, Event(party, move));
    assert longer[..|longer| - 1] == events;
  }

  /** A party that aborts can do so to the end. */
  lemma {:induction false} AbortEnds(s: State, p: Party) returns (events: seq<Event>, t: State)
    requires Fallen(At(s, p)) && FallFits(s, p)
    ensures t == Run(s, events) && NoFailure(events)
    ensures t.flags.aborted && t.flags.release && t.dml.state == Broken
    ensures forall q | q != p :: At(t, q) == At(s, q)
    decreases if At(s, p).Aborting? then 4 - (if At(s, p).step > 3 then 3 else At(s, p).step) else 0
  {
    events, t := [], s;
    if At(s, p).Aborting? {
      var e := Event(p, AbortStep);
      FallStaysFit(s, e, p);
      var rest;
      rest, t := AbortEnds(Step(s, e), p);
      events := [e] + rest;
      RunsOn(s, e, rest);
    }
  }

  lemma {:induction false} RunsOn(s: State, e: Event, rest: seq<Event>)
    ensures Run(s, [e] + rest) == Run(Step(s, e), rest)
  {
    var all := [e] + rest;
    if rest == [] {
      assert all[..|all| - 1] == [];
    } else {
      RunsOn(s, e, rest[..|rest| - 1]);
      assert all[..|all| - 1] == [e] + rest[..|rest| - 1];
    }
  }

  /** Once the window is aborted, a worker that has not committed falls. */
  lemma {:induction false} AbortedWorkerFalls(start: State, events: seq<Event>, s: State, p: Party)
    returns (longer: seq<Event>)
    requires s == Run(start, events) && NoFailure(events) && p != Coordinator
    requires s.flags.aborted && s.flags.release && s.dml.state == Broken
    requires var pc := At(s, p); pc.AtDml? || pc.PastDml? || pc.SawRelease?
    ensures NoFailure(longer) && Fallen(At(Run(start, longer), p))
  {
    longer := events;
    var t := s;
    if At(t, p).AtDml? {
      longer, t := Continue(start, longer, t, p, Wake);
    } else {
      if At(t, p).PastDml? {
        longer, t := Continue(start, longer, t, p, SeeRelease);
      }
      longer, t := Continue(start, longer, t, p, Commit);
    }
  }

  /** Released and undisturbed, a worker commits. */
  lemma {:induction false} ReleasedWorkerCommits(start: State, events: seq<Event>, s: State, p: Party)
    returns (longer: seq<Event>, t: State)
    requires s == Run(start, events) && NoFailure(events) && p != Coordinator
    requires !s.flags.aborted && s.flags.release && s.dml.state == Draining
    requires var pc := At(s, p); pc.AtDml? || pc.PastDml? || pc.SawRelease? || pc.Committed?
    ensures t == Run(start, longer) && NoFailure(longer) && At(t, p) == Committed
    ensures t.flags == s.flags && t.dml == s.dml && forall q | q != p :: At(t, q) == At(s, q)
  {
    longer, t := events, s;
    if At(t, p).AtDml? {
      longer, t := Continue(start, longer, t, p, Wake);
    }
    if At(t, p).PastDml? {
      longer, t := Continue(start, longer, t, p, SeeRelease);
    }
    if At(t, p).SawRelease? {
      longer, t := Continue(start, longer, t, p, Commit);
    }
  }

  /**
   In any reachable state after the release: unless some party fails from here on no worker can fall, if and only if
   nobody has fallen yet or both have already committed.
   */
  lemma {:induction false} BothCommitExactlyWhen(events: seq<Event>)
    requires Run(Initial(), events).flags.called
    ensures var s := Run(Initial(), events);
            (forall more | NoFailure(more) :: !AWorkerFell(Run(s, more))) <==> NobodyFell(s) || BothCommitted(s)
  {
    EveryReachableEndFits(events);
    var s := Run(Initial(), events);
    if NobodyFell(s) || BothCommitted(s) {
      forall more | NoFailure(more)
        ensures !AWorkerFell(Run(s, more))
      {
        if NobodyFell(s) {
          CalmUnlessFailed(s, more);
        } else {
          CommittedStays(s, more, V1);
          CommittedStays(s, more, V2);
        }
      }
    } else {
      var more := SomeWorkerFalls(s);
      assert NoFailure(more) && AWorkerFell(Run(s, more));
    }
  }

  lemma {:induction false} SomeWorkerFalls(s: State) returns (more: seq<Event>)
    requires EndFits(s) && s.flags.called && !NobodyFell(s) && !BothCommitted(s)
    ensures NoFailure(more) && AWorkerFell(Run(s, more))
  {
    more := [];
    if !AWorkerFell(s) {
      var t;
      more, t := AbortEnds(s, Coordinator);
      more := AbortedWorkerFalls(s, more, t, if s.pcs.v1 == Committed then V2 else V1);
    }
  }

  /** The coordinator's result is that of two commits, and the release is its own call. */
  predicate ResultFits(s: State) {
    && (s.pcs.coordinator == Finished ==> BothCommitted(s))
    && (s.flags.called ==> s.pcs.coordinator == Released || s.pcs.coordinator == Finished || Fallen(s.pcs.coordinator))
  }

  lemma {:induction false} ResultStaysFit(s: State, e: Event)
    requires ResultFits(s)
    ensures ResultFits(Step(s, e))
  {
    if e.party == Coordinator {
      CoordinatorResultFits(s, e);
    } else {
      OthersAreLeftAlone(s, e, Coordinator);
      CommittedStaysCommitted(s, e, V1);
      CommittedStaysCommitted(s, e, V2);
    }
  }

  lemma {:induction false} CoordinatorResultFits(s: State, e: Event)
    requires ResultFits(s) && e.party == Coordinator
    ensures ResultFits(Step(s, e))
  {
  }

  lemma {:induction false} CommittedStaysCommitted(s: State, e: Event, p: Party)
    ensures At(s, p) == Committed && p != Coordinator ==> At(Step(s, e), p) == Committed
    ensures e.party != Coordinator ==> Step(s, e).flags.called == s.flags.called
  {
  }

  lemma {:induction false} EveryResultFits(events: seq<Event>)
    ensures ResultFits(Run(Initial(), events))
  {
    if events != [] {
      EveryResultFits(events[..|events| - 1]);
      ResultStaysFit(Run(Initial(), events[..|events| - 1]), events[|events| - 1]);
    }
  }

  /** In every run `run_concurrent_clients` returns only after both clients committed what both had recorded. */
  lemma {:induction false} FinishedMeansBothCommitted(events: seq<Event>)
    requires At(Run(Initial(), events), Coordinator) == Finished
    ensures BothCommitted(Run(Initial(), events)) && BothWorkers(Run(Initial(), events).actors)
  {
    EveryResultFits(events);
    EveryReachableStateFits(events);
  }

  /** And then, as long as nobody has fallen, both can still commit and the coordinator return. */
  lemma {:induction false} BothCanCommit(events: seq<Event>) returns (more: seq<Event>)
    requires Run(Initial(), events).flags.called && NobodyFell(Run(Initial(), events))
    ensures NoFailure(more) && BothCommitted(Run(Run(Initial(), events), more))
    ensures At(Run(Run(Initial(), events), more), Coordinator) == Finished
  {
    EveryReachableEndFits(events);
    EveryResultFits(events);
    var s := Run(Initial(), events);
    var t;
    more, t := ReleasedWorkerCommits(s, [], s, V1);
    more, t := ReleasedWorkerCommits(s, more, t, V2);
    more, t := Continue(s, more, t, Coordinator, Collect);
  }

  lemma {:induction false} Then(events: seq<Event>, s: State, party: Party, move: Move)
    returns (longer: seq<Event>, after: State)
    requires s == Run(Initial(), events)
    ensures after == Step(s, Event(party, move)) && after == Run(Initial(), longer)
  {
    longer, after := events + [Event(party, move)], Step(s, Event(party, move));
    assert longer[..|longer| - 1] == events;
  }

  const BOTH: Parties := Parties(true, true, false)
  const ALL: Parties := Parties(true, true, true)

  lemma {:induction false} BothMayBeAdmitted() returns (events: seq<Event>, s: State)
    ensures s == Run(Initial(), events)
    ensures s == State(Pcs(Admitted, Admitted, Opening), Barrier(BOTH, Draining), Barrier(NOBODY, Filling),
                       Flags(false, false, false), NOBODY)
  {
    events, s := [], Initial();
    events, s := Then(events, s, V1, Arrive);
    events, s := Then(events, s, V2, Arrive);
    events, s := Then(events, s, V1, Wake);
    events, s := Then(events, s, V2, Wake);
  }

  lemma {:induction false} BothMayRecord() returns (events: seq<Event>, s: State)
    ensures s == Run(Initial(), events)
    ensures s == State(Pcs(Recorded, Recorded, Opening), Barrier(BOTH, Draining), Barrier(NOBODY, Filling),
                       Flags(false, false, false), BOTH)
  {
    events, s := BothMayBeAdmitted();
    events, s := Then(events, s, V1, Write);
    events, s := Then(events, s, V2, Write);
    events, s := Then(events, s, V1, Record);
    events, s := Then(events, s, V2, Record);
  }

  lemma {:induction false} AllMayArrive() returns (events: seq<Event>, s: State)
    ensures s == Run(Initial(), events)
    ensures s == State(Pcs(AtDml, AtDml, AtDml), Barrier(BOTH, Draining), Barrier(ALL, Draining),
                       Flags(false, false, false), BOTH)
  {
    events, s := BothMayRecord();
    events, s := Then(events, s, V1, Arrive);
    events, s := Then(events, s, V2, Arrive);
    events, s := Then(events, s, Coordinator, Arrive);
  }

  lemma {:induction false} AllMayPass() returns (events: seq<Event>, s: State)
    ensures s == Run(Initial(), events)
    ensures s == State(Pcs(PastDml, PastDml, PastDml), Barrier(BOTH, Draining), Barrier(ALL, Draining),
                       Flags(false, false, false), BOTH)
  {
    events, s := AllMayArrive();
    events, s := Then(events, s, V1, Wake);
    events, s := Then(events, s, V2, Wake);
    events, s := Then(events, s, Coordinator, Wake);
  }

  lemma {:induction false} BothMayBeReleased() returns (events: seq<Event>, s: State)
    ensures s == Run(Initial(), events)
    ensures s == State(Pcs(PastDml, PastDml, Released), Barrier(BOTH, Draining), Barrier(ALL, Draining),
                       Flags(false, true, true), BOTH)
  {
    events, s := AllMayPass();
    events, s := Then(events, s, Coordinator, Observe);
    events, s := Then(events, s, Coordinator, Release);
  }

  /** One client may still commit alone: the other can fail between the release and its own commit. */
  lemma {:induction false} OneClientMayCommitAlone() returns (events: seq<Event>, s: State)
    ensures s == Run(Initial(), events) && At(s, V1) == Committed && At(s, V2) == Aborting(0)
  {
    events, s := BothMayBeReleased();
    events, s := Then(events, s, V1, SeeRelease);
    events, s := Then(events, s, V1, Commit);
    events, s := Then(events, s, V2, Fails);
  }

  lemma {:induction false} RunsCompose(s: State, events: seq<Event>, more: seq<Event>)
    ensures Run(s, events + more) == Run(Run(s, events), more)
  {
    if more == [] {
      assert events + more == events;
    } else {
      RunsCompose(s, events, more[..|more| - 1]);
      assert (events + more)[..|events + more| - 1] == events + more[..|more| - 1];
    }
  }

  /** Some run ends with the coordinator's result. */
  lemma {:induction false} SomeRunFinishes() returns (events: seq<Event>)
    ensures At(Run(Initial(), events), Coordinator) == Finished
  {
    var released, s := BothMayBeReleased();
    var more := BothCanCommit(released);
    RunsCompose(Initial(), released, more);
    events := released + more;
  }
}
