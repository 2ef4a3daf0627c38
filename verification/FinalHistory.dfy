/** What holds over every history of calls, process deaths and power losses of the final directory. */
module FinalHistory {
  import opened Sql
  import opened DurableWrite
  import opened ReportWords
  import opened FinalReport
  import opened FinalOnce

  // ---------------------------------------------------------------- histories

  datatype MarkerLoss = MarkerKept | MarkerTorn | MarkerGone

  /** What a power loss takes, of what may be lost at all. */
  datatype Loss = Loss(marker: MarkerLoss, reportReverts: bool, terminalGone: bool, temps: Temps, lock: bool)

  datatype Event = Invoke(call: Call) | PowerLoss(loss: Loss)

  function MarkerAfterLoss(d: Dir, loss: MarkerLoss): File<Marker> {
    if Marked(d) && loss == MarkerGone && d.marker.pending then Absent
    else if Marked(d) && loss == MarkerTorn && !d.marker.safe then Junk
    else d.marker.file
  }

  /** Pending entries may revert, and the content of a marker that was never synced may be torn. */
  function AfterLoss(d: Dir, loss: Loss): Dir {
    Dir(MarkerEntry(MarkerAfterLoss(d, loss.marker), false, true),
        ReportEntry(if d.report.pending && loss.reportReverts then d.report.before else d.report.text, false, None),
        TerminalEntry(if d.terminal.pending && loss.terminalGone then Absent else d.terminal.file, false),
        loss.temps, d.lock && loss.lock)
  }

  function Step(v: Validator, d: Dir, e: Event): Outcome {
    match e
    case Invoke(call) => Next(v, d, call)
    case PowerLoss(loss) => Outcome(AfterLoss(d, loss), Died, false)
  }

  function After(v: Validator, d: Dir, events: seq<Event>): Dir
    decreases |events|
  {
    if events == [] then d else After(v, Step(v, d, events[0]).dir, events[1..])
  }

  /** How often the effect runs. */
  function Runs(v: Validator, d: Dir, events: seq<Event>): nat
    decreases |events|
  {
    if events == [] then 0
    else var o := Step(v, d, events[0]); (if o.ran then 1 else 0) + Runs(v, o.dir, events[1..])
  }

  /** The terminals the calls answer with. */
  function Answers(v: Validator, d: Dir, events: seq<Event>): seq<Terminal>
    decreases |events|
  {
    if events == [] then []
    else
      var o := Step(v, d, events[0]);
      (if o.reply.Answer? then [o.reply.terminal] else []) + Answers(v, o.dir, events[1..])
  }

  /** Processes may die, but the machine keeps its power. */
  predicate OnlyCalls(events: seq<Event>) {
    forall i | 0 <= i < |events| :: events[i].Invoke?
  }

  // ---------------------------------------------------------------- the effect runs at most once

  /** A marker, however torn, whose entry cannot be lost. */
  predicate Owned(d: Dir) {
    Marked(d) && !d.marker.pending
  }

  predicate MarkerKeptBy(d: Dir, after: Dir) {
    && after.marker.file == d.marker.file && after.marker.safe == d.marker.safe
    && (after.marker.pending ==> d.marker.pending)
  }

  lemma {:induction false} StoreKeepsMarker(v: Validator, d: Dir, attempt: Id, call: Call)
    ensures MarkerKeptBy(d, Store(v, d, attempt, call).dir)
  {
  }

  lemma {:induction false} FinishKeepsMarker(v: Validator, d: Dir, attempt: Id, call: Call)
    ensures Finish(v, d, attempt, call).ran && MarkerKeptBy(d, Finish(v, d, attempt, call).dir)
  {
    StoreKeepsMarker(v, d, attempt, call);
  }

  lemma {:induction false} AdmittedMarkerIsValid(call: Call)
    requires Admission(call).0.Some?
    ensures var m := Admission(call).0.value; MarkerId(Doc(m)) == Some(m.attempt) && m.attempt.Hash?
  {
  }

  lemma {:induction false} AttemptMarksFirst(v: Validator, d: Dir, call: Call)
    ensures var o := Attempt(v, d, call);
            o.ran ==> Owned(o.dir) && o.dir.marker.safe && MarkerId(o.dir.marker.file).Some?
  {
    var (marker, code) := Admission(call);
    if marker.Some? && call.markerWrite.Created? {
      AdmittedMarkerIsValid(call);
      var marked := EffectLeft(AfterMarker(d, marker.value, call.markerWrite), call.effectLeaves);
      FinishKeepsMarker(v, marked, marker.value.attempt, call);
    }
  }

  /** The effect runs only where there was no marker and no terminal, after a marker was created and synced. */
  lemma {:induction false} RunningNeedsAFreshMarker(v: Validator, d: Dir, e: Event)
    ensures Step(v, d, e).ran ==>
              && !Marked(d) && !Settled(d)
              && Owned(Step(v, d, e).dir) && Step(v, d, e).dir.marker.safe
              && MarkerId(Step(v, d, e).dir.marker.file).Some?
    ensures Owned(d) ==> !Step(v, d, e).ran && Owned(Step(v, d, e).dir)
  {
    if e.Invoke? {
      AttemptMarksFirst(v, AfterCleaning(d.(lock := true), CleaningOf(d.(lock := true), e.call)), e.call);
    }
  }

  lemma {:induction false} OwnedNeverRuns(v: Validator, d: Dir, events: seq<Event>)
    requires Owned(d)
    ensures Runs(v, d, events) == 0
    decreases |events|
  {
    if events != [] {
      RunningNeedsAFreshMarker(v, d, events[0]);
      OwnedNeverRuns(v, Step(v, d, events[0]).dir, events[1..]);
    }
  }

  /** Over any history of calls, deaths and power losses, from any directory, the effect runs at most once. */
  lemma {:induction false} EffectRunsAtMostOnce(v: Validator, d: Dir, events: seq<Event>)
    ensures Runs(v, d, events) <= 1
    decreases |events|
  {
    if events != [] {
      RunningNeedsAFreshMarker(v, d, events[0]);
      var o := Step(v, d, events[0]);
      if o.ran {
        OwnedNeverRuns(v, o.dir, events[1..]);
      } else {
        EffectRunsAtMostOnce(v, o.dir, events[1..]);
      }
    }
  }

  // ---------------------------------------------------------------- a terminal is final

  /** A call that finds a terminal changes nothing, and answers with that terminal or not at all. */
  lemma {:induction false} SettledCallChangesNothing(v: Validator, d: Dir, call: Call)
    requires Settled(d)
    ensures Next(v, d, call).dir == d
    ensures Next(v, d, call).reply.Answer? ==>
              d.terminal.file == Doc(Next(v, d, call).reply.terminal) && Recall(v, d).Answer?
  {
    assert d.lock ==> d.(lock := true) == d;
  }

  /** While the power holds, no later call changes the directory, and every answer is the terminal it holds. */
  lemma {:induction false} TerminalIsFinal(v: Validator, d: Dir, events: seq<Event>)
    requires Settled(d) && OnlyCalls(events)
    ensures After(v, d, events) == d
    ensures forall t | t in Answers(v, d, events) :: d.terminal.file == Doc(t)
    decreases |events|
  {
    if events != [] {
      SettledCallChangesNothing(v, d, events[0].call);
      TerminalIsFinal(v, d, events[1..]);
    }
  }

  /** A terminal whose entry was synced survives power losses too. */
  lemma {:induction false} SyncedTerminalIsFinal(v: Validator, d: Dir, events: seq<Event>)
    requires Settled(d) && !d.terminal.pending
    ensures After(v, d, events).terminal.file == d.terminal.file
    ensures forall t | t in Answers(v, d, events) :: d.terminal.file == Doc(t)
    decreases |events|
  {
    if events != [] {
      if events[0].Invoke? {
        SettledCallChangesNothing(v, d, events[0].call);
      }
      SyncedTerminalIsFinal(v, Step(v, d, events[0]).dir, events[1..]);
    }
  }

  /** A temporary entry left beside a terminal blocks every later call. */
  lemma {:induction false} LeftoverBlocksForever(v: Validator, d: Dir, events: seq<Event>)
    requires Settled(d) && !NoTemps(d) && OnlyCalls(events)
    ensures Answers(v, d, events) == []
    decreases |events|
  {
    if events != [] {
      SettledCallChangesNothing(v, d, events[0].call);
      LeftoverBlocksForever(v, d, events[1..]);
    }
  }

  /**
   In any directory, reachable or not, a terminal is answered if and only if no temporary entry is left, it is valid for
   the marker's attempt, or for no attempt when the marker names none, and in the first case it matches the stored
   report if it names one. The report of a terminal of no attempt is never looked at.
   */
  lemma {:induction false} RecallAnswersExactlyWhen(v: Validator, d: Dir, t: Terminal)
    ensures Recall(v, d) == Answer(t) <==>
            && NoTemps(d) && d.terminal.file == Doc(t)
            && match MarkerId(d.marker.file)
               case None => ValidTerminal(t, Zeros)
               case Some(attempt) =>
                 ValidTerminal(t, attempt) && (t.reportSha.Some? ==> ReportMatches(v, d.report.text, t))
  {
  }

  // ---------------------------------------------------------------- what every reachable directory satisfies

  /** A directory in which the protocol has not started. */
  predicate Fresh(d: Dir) {
    d.marker.file.Absent? && d.terminal.file.Absent?
  }

  /** A terminal that names a report names the one stored, under a durable marker of the same attempt. */
  predicate ReportedTerminal(v: Validator, d: Dir, t: Terminal) {
    && t.reason == (if t.status == GatesPassed then ALL_GATES_PASSED else GATE_FAILED)
    && t.status in {GatesPassed, HonestNegative}
    && MarkerId(d.marker.file) == Some(t.attempt) && d.marker.safe && !d.marker.pending
    && ReportMatches(v, d.report.text, t) && !d.report.pending
  }

  /** A terminal without a report: of the marker's attempt, or of no attempt when the marker is unreadable. */
  predicate UnreportedTerminal(d: Dir, t: Terminal) {
    && t.status == HonestNegative && t.reportSha.None? && Marked(d)
    && if t.attempt == Zeros then t.reason == INTERNAL_ERROR && d.marker.file.Junk?
       else
         && t.reason in {INTERNAL_ERROR, INTERRUPTED_AFTER_MARKER}
         && (d.marker.file.Doc? ==> MarkerId(d.marker.file) == Some(t.attempt))
  }

  /** The invariant. */
  predicate Consistent(v: Validator, d: Dir) {
    && (d.marker.file.Doc? ==> MarkerId(d.marker.file).Some? && MarkerId(d.marker.file) != Some(Zeros))
    && match d.terminal.file
       case Absent => true
       case Junk => false
       case Doc(t) =>
         && t.exact
         && !d.marker.pending
         && if t.reportSha.Some? then ReportedTerminal(v, d, t) else UnreportedTerminal(d, t)
  }

  lemma {:induction false} ConcludeKeepsConsistent(v: Validator, d: Dir, t: Terminal, w: AtomicWrite, ran: bool)
    requires MayConclude(v, d, t)
    ensures Consistent(v, Conclude(d, t, w, ran).dir)
  {
  }

  /** A terminal may be written beside a consistent directory. */
  predicate MayConclude(v: Validator, d: Dir, t: Terminal) {
    && Consistent(v, d) && !Settled(d) && !d.marker.pending && t.exact
    && if t.reportSha.Some? then ReportedTerminal(v, d, t) else UnreportedTerminal(d, t)
  }

  lemma {:induction false} StoreMayConclude(v: Validator, d: Dir, attempt: Id, call: Call)
    requires Consistent(v, d) && !Settled(d) && !d.marker.pending && d.marker.safe
    requires MarkerId(d.marker.file) == Some(attempt)
    ensures match Store(v, d, attempt, call)
            case Terminates(stored, terminal) => MayConclude(v, stored, terminal)
            case Ends(stored, _) => Consistent(v, stored)
  {
  }

  lemma {:induction false} FinishKeepsConsistent(v: Validator, d: Dir, attempt: Id, call: Call)
    requires Consistent(v, d) && !Settled(d) && !d.marker.pending && d.marker.safe
    requires MarkerId(d.marker.file) == Some(attempt)
    ensures Consistent(v, Finish(v, d, attempt, call).dir)
  {
    StoreMayConclude(v, d, attempt, call);
    var stored := Store(v, d, attempt, call);
    if stored.Terminates? {
      ConcludeKeepsConsistent(v, stored.dir, stored.terminal, call.terminalWrite, true);
    }
  }

  lemma {:induction false} AttemptKeepsConsistent(v: Validator, d: Dir, call: Call)
    requires Fresh(d)
    ensures Consistent(v, Attempt(v, d, call).dir)
  {
    var (marker, code) := Admission(call);
    if marker.Some? {
      AdmittedMarkerIsValid(call);
      var marked := AfterMarker(d, marker.value, call.markerWrite);
      if call.markerWrite.Created? {
        FinishKeepsConsistent(v, EffectLeft(marked, call.effectLeaves), marker.value.attempt, call);
      }
    }
  }

  lemma {:induction false} LockedKeepsConsistent(v: Validator, d: Dir, call: Call)
    requires Consistent(v, d)
    ensures Consistent(v, Locked(v, d, call).dir)
  {
    if !Settled(d) {
      var cleaned := AfterCleaning(d, CleaningOf(d, call));
      if Marked(cleaned) {
        if CleaningOf(d, call).Cleaned? {
          ConcludeKeepsConsistent(v, cleaned, OrphanTerminal(cleaned.marker.file), call.terminalWrite, false);
        }
      } else {
        AttemptKeepsConsistent(v, cleaned, call);
      }
    }
  }

  lemma {:induction false} StepKeepsConsistent(v: Validator, d: Dir, e: Event)
    requires Consistent(v, d)
    ensures Consistent(v, Step(v, d, e).dir)
  {
    if e.Invoke? {
      LockedKeepsConsistent(v, d.(lock := true), e.call);
    }
  }

  /** Every directory reached from a consistent one, an empty one for instance, is consistent. */
  lemma {:induction false} ReachableIsConsistent(v: Validator, d: Dir, events: seq<Event>)
    requires Consistent(v, d)
    ensures Consistent(v, After(v, d, events))
    decreases |events|
  {
    if events != [] {
      StepKeepsConsistent(v, d, events[0]);
      ReachableIsConsistent(v, Step(v, d, events[0]).dir, events[1..]);
    }
  }

  // ---------------------------------------------------------------- what a reachable terminal answers

  /** No other refusal can happen in a reachable directory. */
  lemma {:induction false} RecallOfReachable(v: Validator, d: Dir)
    requires Consistent(v, d) && Settled(d)
    ensures d.terminal.file.Doc?
    ensures Recall(v, d) ==
            if !NoTemps(d) then Blocked(TERMINAL_STALE_TEMP)
            else if d.marker.file.Doc? || d.terminal.file.d.attempt == Zeros then Answer(d.terminal.file.d)
            else Blocked(TERMINAL_MARKER_MISMATCH)
  {
  }

  /** A terminal of an attempt stands beside a readable marker, unless a power loss tore it. */
  predicate Readable(d: Dir) {
    d.terminal.file.Doc? && d.terminal.file.d.attempt != Zeros ==> d.marker.file.Doc?
  }

  lemma {:induction false} CallKeepsReadable(v: Validator, d: Dir, call: Call)
    requires Readable(d)
    ensures Readable(Next(v, d, call).dir)
  {
    if Settled(d) {
      SettledCallChangesNothing(v, d, call);
    } else {
      var locked := d.(lock := true);
      var cleaned := AfterCleaning(locked, CleaningOf(locked, call));
      if !Marked(cleaned) {
        AttemptIsReadable(v, cleaned, call);
      }
    }
  }

  lemma {:induction false} AttemptIsReadable(v: Validator, d: Dir, call: Call)
    requires !Settled(d)
    ensures Readable(Attempt(v, d, call).dir)
  {
    var (marker, code) := Admission(call);
    if marker.Some? && call.markerWrite.Created? {
      FinishKeepsMarker(
        v, EffectLeft(AfterMarker(d, marker.value, call.markerWrite), call.effectLeaves), marker.value.attempt, call);
    }
  }

  lemma {:induction false} CallKeepsLock(v: Validator, d: Dir, call: Call)
    requires Settled(d) ==> d.lock
    ensures Settled(Next(v, d, call).dir) ==> Next(v, d, call).dir.lock
  {
    if Settled(d) {
      SettledCallChangesNothing(v, d, call);
    }
  }

  /** What holds while the power does: the directory is consistent, its terminal readable, its lock file in place. */
  predicate Powered(v: Validator, d: Dir) {
    Consistent(v, d) && Readable(d) && (Settled(d) ==> d.lock)
  }

  lemma {:induction false} CallsKeepPowered(v: Validator, d: Dir, events: seq<Event>)
    requires Powered(v, d) && OnlyCalls(events)
    ensures Powered(v, After(v, d, events))
    decreases |events|
  {
    if events != [] {
      StepKeepsConsistent(v, d, events[0]);
      CallKeepsReadable(v, d, events[0].call);
      CallKeepsLock(v, d, events[0].call);
      CallsKeepPowered(v, Step(v, d, events[0]).dir, events[1..]);
    }
  }

  /** A call that finds the paths in order and takes the lock. */
  predicate GetsTheLock(call: Call) {
    && !(call.canonical && (call.pathUnsafe || call.directoryRefused))
    && call.outerBootstrap == Ready && call.lock == Opens
  }

  /**
   After any calls, deaths among them, on an empty directory: a call that finds a terminal answers with it exactly when
   it gets the lock and no temporary entry was left; it changes nothing and never runs the effect.
   */
  lemma {:induction false} SettledAnswersExactlyWhenClean(v: Validator, events: seq<Event>, call: Call)
    requires OnlyCalls(events) && Settled(After(v, EmptyDir(), events))
    ensures var d := After(v, EmptyDir(), events);
            var o := Next(v, d, call);
            && d.terminal.file.Doc? && o.dir == d && !o.ran
            && (o.reply.Answer? <==> GetsTheLock(call) && NoTemps(d))
            && (o.reply.Answer? ==> o.reply.terminal == d.terminal.file.d)
            && (GetsTheLock(call) && !NoTemps(d) ==> o.reply == Blocked(TERMINAL_STALE_TEMP))
  {
    CallsKeepPowered(v, EmptyDir(), events);
    var d := After(v, EmptyDir(), events);
    RecallOfReachable(v, d);
    SettledCallChangesNothing(v, d, call);
    assert d.(lock := true) == d;
  }

  /** A reachable success terminal means that the stored report is its report, and that every gate in it passed. */
  lemma {:induction false} SuccessMeansEveryGatePassed(d: Dir, t: Terminal, gate: Gate)
    requires Consistent(ReportVerdict, d) && d.terminal.file == Doc(t) && t.status == GatesPassed
    ensures d.report.text.Some? && t.reportSha == Some(ShaOf(d.report.text.value)) && ValidReport(d.report.text.value)
    ensures var p := PartsOf(d.report.text.value.parsed.value).value;
            && SuccessOk(p.frozen.fields[CoverageThreshold], p.pytest, p.scanners)
            && Of(gate) in p.gates && p.gates[Of(gate)].JObj?
            && ExitCode in p.gates[Of(gate)].fields && p.gates[Of(gate)].fields[ExitCode] == JInt(0)
  {
    var p := PartsOf(d.report.text.value.parsed.value).value;
    assert p.status == GatesPassed;
    SuccessReportMeansAllPassed(p.gates, gate);
  }

  // ---------------------------------------------------------------- calls in which nothing goes wrong

  /** A call in which nothing goes wrong outside the effect. */
  predicate Smooth(call: Call) {
    && !call.pathUnsafe && call.outerBootstrap == Ready && !call.directoryRefused && call.lock == Opens
    && call.cleaning == Cleaned && Admission(call).0.Some? && call.markerWrite == Created
    && call.reportWrite == Written && !call.readFails && call.terminalWrite == Written
  }

  /** After a marker without a terminal, one smooth call settles the directory, and does not run the effect. */
  lemma {:induction false} SmoothRecoverySettles(v: Validator, d: Dir, call: Call)
    requires Marked(d) && !Settled(d) && d.temps.others != Stuck && Smooth(call)
    ensures var o := Next(v, d, call);
            && o.reply == Answer(OrphanTerminal(d.marker.file)) && !o.ran
            && o.dir.terminal == TerminalEntry(Doc(OrphanTerminal(d.marker.file)), false) && NoTemps(o.dir)
  {
  }

  /** An effect that comes back, with a report whose check does not raise if a failed gate carries it. */
  predicate ComesBack(v: Validator, effect: Effect) {
    effect != EffectDies && (effect.GateFailure? ==> !v(effect.report).VerdictRaises?)
  }

  /** The terminal that a smooth first call writes. */
  function FirstTerminal(v: Validator, attempt: Id, effect: Effect): Terminal
    requires effect != EffectDies
  {
    match effect
    case Returns(report) =>
      if v(report) == Valid(GatesPassed) then
        Terminal(attempt, ALL_GATES_PASSED, Some(ShaOf(report)), GatesPassed, true)
      else Negative(attempt, INTERNAL_ERROR, None)
    case GateFailure(report) =>
      if v(report) == Valid(HonestNegative) then Negative(attempt, GATE_FAILED, Some(ShaOf(report)))
      else Negative(attempt, INTERNAL_ERROR, None)
    case Raises => Negative(attempt, INTERNAL_ERROR, None)
  }

  /** A smooth first call runs the effect and settles the directory with the terminal of its outcome. */
  lemma {:induction false} SmoothFirstCallSettles(v: Validator, d: Dir, call: Call)
    requires Fresh(d) && d.temps.others != Stuck && Smooth(call) && ComesBack(v, call.effect)
    ensures var o := Next(v, d, call);
            var t := FirstTerminal(v, Admission(call).0.value.attempt, call.effect);
            && o.reply == Answer(t) && o.ran && o.dir.terminal == TerminalEntry(Doc(t), false)
            && o.dir.temps == Temps(false, false, call.effectLeaves)
            && (t.reportSha.Some? ==> ReportMatches(v, o.dir.report.text, t) && !o.dir.report.pending)
  {
    var cleaned := AfterCleaning(d.(lock := true), Cleaned);
    assert Locked(v, d.(lock := true), call) == Attempt(v, cleaned, call);
    SmoothAttemptSettles(v, cleaned, call);
  }

  lemma {:induction false} SmoothAttemptSettles(v: Validator, d: Dir, call: Call)
    requires d.temps == NO_TEMPS && Smooth(call) && ComesBack(v, call.effect)
    ensures var o := Attempt(v, d, call);
            var t := FirstTerminal(v, Admission(call).0.value.attempt, call.effect);
            && o.reply == Answer(t) && o.ran && o.dir.terminal == TerminalEntry(Doc(t), false)
            && o.dir.temps == Temps(false, false, call.effectLeaves)
            && (t.reportSha.Some? ==> ReportMatches(v, o.dir.report.text, t) && !o.dir.report.pending)
  {
    var marker := Admission(call).0.value;
    var marked := EffectLeft(AfterMarker(d, marker, call.markerWrite), call.effectLeaves);
    var stored := Store(v, marked, marker.attempt, call);
    assert stored.Terminates? && stored.terminal == FirstTerminal(v, marker.attempt, call.effect);
    assert Attempt(v, d, call) == Conclude(stored.dir, stored.terminal, Written, true);
  }

  function ZeroDigits(n: nat): (s: string)
    ensures LowerHex(s, n)
  {
    if n == 0 then "" else ZeroDigits(n - 1) + "0"
  }

  function ZeroMarker(): Marker {
    Marker(Hash(ZeroDigits(40), ZeroDigits(64)), ZeroDigits(40), ZeroDigits(64), true)
  }

  function SmoothCall(effect: Effect): Call {
    Call(false, false, Ready, false, Opens, Cleaned, Ready, Some((ZeroDigits(40), ZeroDigits(64))), Ready, Created,
         effect, Clean, Written, false, Written)
  }

  lemma {:induction false} SmoothCallIsSmooth(effect: Effect)
    ensures Smooth(SmoothCall(effect))
    ensures Admission(SmoothCall(effect)).0 == Some(ZeroMarker())
  {
  }

  // ---------------------------------------------------------------- a call that ran the effect and left no terminal

  /** The write got as far as the rename. */
  predicate Renamed(w: AtomicWrite) {
    w.Written? || w.stage in {Replaced, ReplacedSynced}
  }

  /** What strikes a failed gate's report outside any handler: its check raises, or storing or reading it fails. */
  predicate Escapes(v: Validator, call: Call) {
    && call.effect.GateFailure?
    && (|| v(call.effect.report).VerdictRaises?
        || (v(call.effect.report) == Valid(HonestNegative) && (call.reportWrite.WriteStopped? || call.readFails)))
  }

  /**
   A call that ran the effect and whose process lived leaves a terminal if and only if the terminal's write got as
   far as the rename and no error struck while the report of a failed gate was checked and stored.
   */
  lemma {:induction false} RanLeavesTerminalExactlyWhen(v: Validator, d: Dir, call: Call)
    requires Next(v, d, call).ran && Next(v, d, call).reply != Died
    ensures Settled(Next(v, d, call).dir) <==> Renamed(call.terminalWrite) && !Escapes(v, call)
  {
    var cleaned := AfterCleaning(d.(lock := true), CleaningOf(d.(lock := true), call));
    var marker := Admission(call).0.value;
    FinishedLeavesTerminalExactlyWhen(
      v, EffectLeft(AfterMarker(cleaned, marker, call.markerWrite), call.effectLeaves), marker.attempt, call);
  }

  lemma {:induction false} FinishedLeavesTerminalExactlyWhen(v: Validator, d: Dir, attempt: Id, call: Call)
    requires !Settled(d) && Finish(v, d, attempt, call).reply != Died
    ensures Settled(Finish(v, d, attempt, call).dir) <==> Renamed(call.terminalWrite) && !Escapes(v, call)
  {
    var stored := Store(v, d, attempt, call);
    StoreSettlesNothing(v, d, attempt, call);
    assert stored.Ends? && stored.reply != Died ==> Escapes(v, call);
    assert Escapes(v, call) ==> stored.Ends?;
  }

  lemma {:induction false} StoreSettlesNothing(v: Validator, d: Dir, attempt: Id, call: Call)
    ensures Store(v, d, attempt, call).dir.terminal.file == d.terminal.file
  {
  }

  /** Such a call on an empty directory: the report of a failed gate could not be written. */
  lemma {:induction false} FailureMayLeaveNoTerminal(v: Validator, report: Text)
    requires v(report) == Valid(HonestNegative)
    ensures var call := SmoothCall(GateFailure(report)).(reportWrite := WriteStopped(TempLeft, Errs));
            var o := Next(v, EmptyDir(), call);
            o.ran && o.reply == Raised(true) && !Settled(o.dir) && o.dir.temps.report && Owned(o.dir)
  {
    SmoothCallIsSmooth(GateFailure(report));
    var call := SmoothCall(GateFailure(report)).(reportWrite := WriteStopped(TempLeft, Errs));
    var cleaned := AfterCleaning(EmptyDir().(lock := true), Cleaned);
    assert Admission(call) == Admission(SmoothCall(GateFailure(report)));
    assert Locked(v, EmptyDir().(lock := true), call) == Attempt(v, cleaned, call);
  }

  // ---------------------------------------------------------------- a leftover beside a terminal

  /**
   Such a directory, reached from an empty one: the report of a success could not be written, the call answered with an
   internal error, and its temporary entry keeps every later call from answering.
   */
  lemma {:induction false} AnsweredTerminalMayBeBlocked(v: Validator, report: Text)
    requires v(report) == Valid(GatesPassed)
    ensures var call := SmoothCall(Returns(report)).(reportWrite := WriteStopped(TempLeft, Errs));
            var o := Next(v, EmptyDir(), call);
            && o.reply == Answer(Negative(ZeroMarker().attempt, INTERNAL_ERROR, None))
            && Settled(o.dir) && !NoTemps(o.dir)
            && forall events | OnlyCalls(events) :: Answers(v, o.dir, events) == []
  {
    SmoothCallIsSmooth(Returns(report));
    var call := SmoothCall(Returns(report)).(reportWrite := WriteStopped(TempLeft, Errs));
    var cleaned := AfterCleaning(EmptyDir().(lock := true), Cleaned);
    assert Admission(call) == Admission(SmoothCall(Returns(report)));
    assert Locked(v, EmptyDir().(lock := true), call) == Attempt(v, cleaned, call);
    var o := Next(v, EmptyDir(), call);
    forall events | OnlyCalls(events)
      ensures Answers(v, o.dir, events) == []
    {
      LeftoverBlocksForever(v, o.dir, events);
    }
  }

  // ---------------------------------------------------------------- a power loss before the last sync

  /**
   A success that was answered is answered for ever, power losses included, exactly when the entry of its terminal had
   been synced. A call that finds a terminal answers without syncing, so a terminal whose writer died between the
   rename and the sync can be answered, lost, and replaced by an interrupted attempt.
   */
  lemma {:induction false} SuccessIsPermanentExactlyWhenSynced(v: Validator, d: Dir, t: Terminal)
    requires Consistent(v, d) && d.terminal.file == Doc(t) && t.status == GatesPassed && d.lock
    ensures (forall events: seq<Event>, u: Terminal | u in Answers(v, d, events) :: u == t) <==> !d.terminal.pending
  {
    if d.terminal.pending {
      var loss := PowerLoss(Loss(MarkerKept, false, true, NO_TEMPS, true));
      var lost := Step(v, d, loss).dir;
      var call := SmoothCall(Raises);
      SmoothCallIsSmooth(Raises);
      SmoothRecoverySettles(v, lost, call);
      var orphan := OrphanTerminal(lost.marker.file);
      LossThenCall(v, d, loss, call, orphan);
      assert orphan in Answers(v, d, [loss, Invoke(call)]) && orphan != t;
    } else {
      forall events: seq<Event>, u: Terminal | u in Answers(v, d, events)
        ensures u == t
      {
        SyncedTerminalIsFinal(v, d, events);
      }
    }
  }

  lemma {:induction false} LossThenCall(v: Validator, d: Dir, loss: Event, call: Call, t: Terminal)
    requires loss.PowerLoss? && Next(v, Step(v, d, loss).dir, call).reply == Answer(t)
    ensures t in Answers(v, d, [loss, Invoke(call)])
  {
    var events := [loss, Invoke(call)];
    var rest := events[1..];
    assert rest == [Invoke(call)];
    assert Answers(v, Step(v, d, loss).dir, rest)[0] == t;
    assert Answers(v, d, events) == [] + Answers(v, Step(v, d, loss).dir, rest);
  }

  /** From an empty directory: a success that a call answers, a power loss takes, and an interruption replaces. */
  lemma {:induction false} AnsweredSuccessMayBeLost(v: Validator, report: Text)
    returns (events: seq<Event>, success: Terminal)
    requires v(report) == Valid(GatesPassed)
    ensures |events| == 4 && events[2].PowerLoss? && success.status == GatesPassed
    ensures Answers(v, EmptyDir(), events) == [success, Negative(success.attempt, INTERRUPTED_AFTER_MARKER, None)]
  {
    var d, dying;
    d, dying, success := DiedBeforeSync(v, report);
    var again := SmoothCall(Raises);
    SmoothCallIsSmooth(Raises);
    var loss := Loss(MarkerKept, false, true, NO_TEMPS, true);
    var lost := AfterLoss(d, loss);
    SmoothRecoverySettles(v, lost, again);
    events := [Invoke(dying), Invoke(again), PowerLoss(loss), Invoke(again)];
    assert events[1..] == [Invoke(again), PowerLoss(loss), Invoke(again)];
    assert events[1..][1..] == [PowerLoss(loss), Invoke(again)];
    assert events[1..][1..][1..] == [Invoke(again)];
    SettledCallChangesNothing(v, d, again);
    var interrupted := Negative(success.attempt, INTERRUPTED_AFTER_MARKER, None);
    assert Answers(v, lost, [Invoke(again)]) == [interrupted];
    assert Answers(v, d, events[1..][1..]) == [interrupted];
    assert Answers(v, d, events[1..]) == [success, interrupted];
  }

  /** The first call writes its success and dies before the directory is synced; what it left answers. */
  lemma {:induction false} DiedBeforeSync(v: Validator, report: Text) returns (d: Dir, call: Call, success: Terminal)
    requires v(report) == Valid(GatesPassed)
    ensures Next(v, EmptyDir(), call) == Outcome(d, Died, true)
    ensures success.status == GatesPassed && d.terminal == TerminalEntry(Doc(success), true) && d.lock
    ensures MarkerId(d.marker.file) == Some(success.attempt) && !d.marker.pending && d.marker.safe
    ensures Next(v, d, SmoothCall(Raises)) == Outcome(d, Answer(success), false)
  {
    call := SmoothCall(Returns(report)).(terminalWrite := WriteStopped(Replaced, Dies));
    SmoothCallIsSmooth(Returns(report));
    assert Admission(call) == Admission(SmoothCall(Returns(report)));
    var cleaned := AfterCleaning(EmptyDir().(lock := true), Cleaned);
    assert Locked(v, EmptyDir().(lock := true), call) == Attempt(v, cleaned, call);
    success := Terminal(ZeroMarker().attempt, ALL_GATES_PASSED, Some(ShaOf(report)), GatesPassed, true);
    d := Next(v, EmptyDir(), call).dir;
    StepKeepsConsistent(v, EmptyDir(), Invoke(call));
    RecallOfReachable(v, d);
    assert d.(lock := true) == d;
  }
}
