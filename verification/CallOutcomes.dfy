/** What one call of the final gate needs in order to run the effect, and how it answers when it does not. */
module CallOutcomes {
  import opened Sql
  import opened DurableWrite
  import opened ReportWords
  import opened FinalReport
  import opened FinalOnce
  import opened FinalHistory

  /** The bootstrap, the identity of the frozen commit and protocol, and the preflight are in order. */
  predicate InOrder(call: Call) {
    && call.bootstrap == Ready && call.preflight == Ready
    && call.identity.Some? && LowerHex(call.identity.value.0, 40) && LowerHex(call.identity.value.1, 64)
  }

  /**
   The effect runs exactly when the paths are in order, the lock is taken, there is neither a terminal nor a marker, the
   cleanup is done, bootstrap, identity and preflight are in order, and the marker was written and synced.
   */
  lemma {:induction false} EffectRunsExactlyWhen(v: Validator, d: Dir, call: Call)
    ensures Next(v, d, call).ran <==>
            && GetsTheLock(call) && d.terminal.file.Absent? && d.marker.file.Absent?
            && call.cleaning == Cleaned && d.temps.others != Stuck
            && InOrder(call) && call.markerWrite == Created
  {
    var locked := d.(lock := true);
    var cleaned := AfterCleaning(locked, CleaningOf(locked, call));
    assert cleaned.marker.file == d.marker.file && cleaned.terminal.file == d.terminal.file;
    AttemptRunsExactlyWhen(v, cleaned, call);
  }

  lemma {:induction false} AttemptRunsExactlyWhen(v: Validator, d: Dir, call: Call)
    ensures Attempt(v, d, call).ran <==> InOrder(call) && call.markerWrite == Created
  {
    var (marker, code) := Admission(call);
    if marker.Some? && call.markerWrite == Created {
      FinishKeepsMarker(
        v, EffectLeft(AfterMarker(d, marker.value, call.markerWrite), call.effectLeaves), marker.value.attempt, call);
    }
  }

  /** How a call is refused that has the lock and is not in order: the first probe that is not decides. */
  function Refusal(call: Call): Code {
    if call.bootstrap == NotReady then PREFLIGHT_FAILED
    else if call.bootstrap != Ready then PREFLIGHT_INTERNAL
    else if call.identity.None? || !LowerHex(call.identity.value.0, 40) || !LowerHex(call.identity.value.1, 64) then
      PREFLIGHT_INTERNAL
    else if call.preflight == NotReady then PREFLIGHT_FAILED
    else PREFLIGHT_INTERNAL
  }

  /**
   On a directory without marker and terminal a call that is not in order writes neither, nor a report, and keeps the
   one attempt; once it has the lock and has cleaned up, it answers what the first probe that is not in order says.
   */
  lemma {:induction false} UnreadyCallKeepsTheAttempt(v: Validator, d: Dir, call: Call)
    requires Fresh(d) && !InOrder(call)
    ensures var o := Next(v, d, call);
            && !o.ran && Fresh(o.dir) && o.dir.report.text == d.report.text
            && (GetsTheLock(call) && call.cleaning == Cleaned && d.temps.others != Stuck ==>
                  o.reply == Blocked(Refusal(call)))
  {
    EffectRunsExactlyWhen(v, d, call);
  }

  /** A call that does not get the lock runs nothing, answers no terminal, and creates at most the lock file. */
  lemma {:induction false} UnlockedCallDoesNothing(v: Validator, d: Dir, call: Call)
    requires !GetsTheLock(call)
    ensures var o := Next(v, d, call);
            !o.ran && !o.reply.Answer? && o.dir.(lock := d.lock) == d
  {
  }

  /** And why: the paths first, then the probe of the surroundings, a missing lock file beside a terminal, the lock. */
  lemma {:induction false} UnlockedCallAnswers(v: Validator, d: Dir, call: Call)
    requires !GetsTheLock(call)
    ensures var reply := Next(v, d, call).reply;
            if call.canonical && call.pathUnsafe then reply == Blocked(REPORTS_PARENT_UNSAFE)
            else if call.outerBootstrap == NotReady then reply == Blocked(PREFLIGHT_FAILED)
            else if call.outerBootstrap == ProbeError then reply == Raised(false)
            else if call.outerBootstrap == ProbeOSError || (call.canonical && call.directoryRefused) then
              reply == Blocked(REPORTS_PARENT_UNSAFE)
            else if Settled(d) && !d.lock then reply == Blocked(TERMINAL_LOCK_UNSAFE)
            else if call.lock == Held then reply == Blocked(LOCK_HELD)
            else reply == if call.canonical then Blocked(REPORTS_PARENT_UNSAFE) else Raised(true)
  {
  }

  /** A call whose cleanup stops runs nothing and says so, unless the process died. */
  lemma {:induction false} StoppedCleanupRunsNothing(v: Validator, d: Dir, call: Call)
    requires GetsTheLock(call) && !Settled(d) && (call.cleaning.CleaningStopped? || d.temps.others == Stuck)
    ensures var o := Next(v, d, call);
            && !o.ran && o.dir.marker.file == d.marker.file && !Settled(o.dir) && o.dir.report.text == d.report.text
            && o.reply in {Died, Blocked(STALE_TEMP_INVALID)}
            && (call.cleaning.Cleaned? ==> o.reply == Blocked(STALE_TEMP_INVALID))
  {
  }

  /**
   A call that finds a marker without a terminal never runs the effect again: it records the interruption under the
   marker's own attempt, or an internal error of no attempt when the marker is unreadable, and neither names a report.
   */
  lemma {:induction false} MarkedCallRecordsInterruption(v: Validator, d: Dir, call: Call)
    requires Marked(d) && !Settled(d)
    ensures var o := Next(v, d, call);
            && !o.ran && o.dir.report.text == d.report.text && o.dir.marker.file == d.marker.file
            && (o.reply.Answer? || Settled(o.dir) ==>
                  && o.dir.terminal.file.Doc?
                  && var t := o.dir.terminal.file.d;
                     && t.status == HonestNegative && t.reportSha.None? && t.exact
                     && (o.reply.Answer? ==> o.reply.terminal == t)
                     && match MarkerId(d.marker.file)
                        case Some(attempt) => t.attempt == attempt && t.reason == INTERRUPTED_AFTER_MARKER
                        case None => t.attempt == Zeros && t.reason == INTERNAL_ERROR)
  {
  }

  /** The documents a marker file may hold: exact, with lower-case digests, under the attempt of both. */
  lemma {:induction false} MarkersNameTheirAttempt(file: File<Marker>, id: Id)
    ensures MarkerId(file) == Some(id) <==>
            && file.Doc? && file.d.exact && LowerHex(file.d.commit, 40) && LowerHex(file.d.protocol, 64)
            && id == file.d.attempt == Hash(file.d.commit, file.d.protocol)
  {
  }

  /** A terminal that is answered as a success names the stored report, which is a valid success, under the marker. */
  lemma {:induction false} AnswersAreGenuine(v: Validator, d: Dir, t: Terminal)
    requires Recall(v, d) == Answer(t)
    ensures NoTemps(d) && d.terminal.file == Doc(t) && t.exact
    ensures t.status == GatesPassed ==> t.reason == ALL_GATES_PASSED && t.reportSha.Some?
    ensures t.status != GatesPassed ==>
              && t.status == HonestNegative && t.reason in {GATE_FAILED, INTERNAL_ERROR, INTERRUPTED_AFTER_MARKER}
              && (t.reason == GATE_FAILED <==> t.reportSha.Some?)
    ensures MarkerId(d.marker.file).Some? && t.reportSha.Some? ==>
              && d.report.text.Some? && t.reportSha == Some(ShaOf(d.report.text.value))
              && v(d.report.text.value) == Valid(if t.status == GatesPassed then GatesPassed else HonestNegative)
    ensures t.attempt == match MarkerId(d.marker.file) case Some(attempt) => attempt case None => Zeros
  {
    RecallAnswersExactlyWhen(v, d, t);
  }

  /**
   Why a terminal is not answered: a temporary entry first; then a marker that names no attempt beside anything but a
   valid terminal of no attempt; a terminal that is no document; one of another attempt; one that is not valid; and last
   a stored report that is not the one it names, unless the check of that report raises.
   */
  lemma {:induction false} RecallRefusals(v: Validator, d: Dir)
    ensures var reply, file := Recall(v, d), d.terminal.file;
            if d.temps != NO_TEMPS then reply == Blocked(TERMINAL_STALE_TEMP)
            else if MarkerId(d.marker.file).None? then
              if file.Doc? && ValidTerminal(file.d, Zeros) then reply == Answer(file.d)
              else reply == Blocked(TERMINAL_MARKER_MISMATCH)
            else if !file.Doc? then reply == Blocked(TERMINAL_INVALID)
            else if file.d.attempt != MarkerId(d.marker.file).value then reply == Blocked(TERMINAL_ATTEMPT_MISMATCH)
            else if !ValidTerminal(file.d, file.d.attempt) then reply == Blocked(TERMINAL_INVALID)
            else if file.d.reportSha.Some? && d.report.text.Some? && v(d.report.text.value).VerdictRaises? then
              reply == Raised(false)
            else if file.d.reportSha.Some? && !ReportMatches(v, d.report.text, file.d) then
              reply == Blocked(TERMINAL_REPORT_MISMATCH)
            else reply == Answer(file.d)
  {
  }

  // ---------------------------------------------------------------- what a call that stops leaves

  /** How a call ends at a durable operation: its process dies, or the error is answered as the caller sees it. */
  function Stopped(call: Call, ending: Ending): Reply {
    if ending == Dies then Died else if call.canonical then Blocked(REPORTS_PARENT_UNSAFE) else Raised(true)
  }

  /** A cleanup that stops leaves what it had not come to: the report's entry, the terminal's, and then the others. */
  lemma {:induction false} StoppedCleanupLeaves(v: Validator, d: Dir, call: Call)
    requires GetsTheLock(call) && !Settled(d) && call.cleaning.CleaningStopped?
    ensures var left, stage := Next(v, d, call).dir.temps, call.cleaning.stage;
            && left.report == (d.temps.report && stage == AtReportTemp)
            && left.terminal == (d.temps.terminal && (stage == AtReportTemp || stage == AtTerminalTemp))
            && left.others == if stage in {AtReportTemp, AtTerminalTemp, AtOthers} || d.temps.others == Stuck
                              then d.temps.others else Clean
  {
  }

  /**
   A marker whose write stops is missing, torn, whole but not synced, whole and synced with its entry pending, or all of
   it synced, as far as the write had come; the effect has not run and nothing else was written.
   */
  lemma {:induction false} StoppedMarkerLeaves(v: Validator, d: Dir, call: Call)
    requires GetsTheLock(call) && Fresh(d) && d.temps.others != Stuck && call.cleaning == Cleaned && InOrder(call)
    requires call.markerWrite.CreateStopped?
    ensures var o := Next(v, d, call);
            && !o.ran && !Settled(o.dir) && o.dir.report.text == d.report.text && NoTemps(o.dir)
            && o.reply == Stopped(call, call.markerWrite.ending)
            && match call.markerWrite.left
               case NotCreated => o.dir.marker.file.Absent?
               case Torn => o.dir.marker == MarkerEntry(Junk, true, false)
               case Whole => MarkerId(o.dir.marker.file).Some? && o.dir.marker.pending && !o.dir.marker.safe
               case WholeSafe => MarkerId(o.dir.marker.file).Some? && o.dir.marker.pending && o.dir.marker.safe
               case WholeSynced => MarkerId(o.dir.marker.file).Some? && !o.dir.marker.pending && o.dir.marker.safe
  {
    AdmittedMarkerIsValid(call);
  }

  /** The terminal of an interruption whose write stops: a temporary entry, or the terminal, synced or not. */
  lemma {:induction false} StoppedTerminalLeaves(v: Validator, d: Dir, call: Call)
    requires GetsTheLock(call) && Marked(d) && !Settled(d) && d.temps.others != Stuck && call.cleaning == Cleaned
    requires call.terminalWrite.WriteStopped?
    ensures var o := Next(v, d, call);
            && o.reply == Stopped(call, call.terminalWrite.ending) && !o.dir.temps.report
            && match call.terminalWrite.stage
               case NotOpened => !Settled(o.dir) && !o.dir.temps.terminal
               case TempLeft => !Settled(o.dir) && o.dir.temps.terminal
               case Replaced => Settled(o.dir) && o.dir.terminal.pending && !o.dir.temps.terminal
               case ReplacedSynced => Settled(o.dir) && !o.dir.terminal.pending && !o.dir.temps.terminal
  {
  }

  /** A call that is ready to store the report its effect returned. */
  predicate ReadyToStore(v: Validator, d: Dir, call: Call, report: Text) {
    && GetsTheLock(call) && Fresh(d) && d.temps.others != Stuck && call.cleaning == Cleaned && InOrder(call)
    && call.markerWrite == Created && call.effect == Returns(report) && v(report) == Valid(GatesPassed)
  }

  lemma {:induction false} ReadyCallStores(v: Validator, d: Dir, call: Call, report: Text)
    requires ReadyToStore(v, d, call, report)
    ensures Admission(call).0.Some?
    ensures var marker := Admission(call).0.value;
            var marked := EffectLeft(AfterMarker(AfterCleaning(d.(lock := true), Cleaned), marker, Created),
                                     call.effectLeaves);
            && marked.report.text == d.report.text && marked.temps == Temps(false, false, call.effectLeaves)
            && !Settled(marked)
            && (var o := Finish(v, marked, marker.attempt, call);
                Next(v, d, call) ==
                if call.canonical && o.reply == Raised(true) then o.(reply := Blocked(REPORTS_PARENT_UNSAFE)) else o)
  {
    var cleaned := AfterCleaning(d.(lock := true), Cleaned);
    assert Locked(v, d.(lock := true), call) == Attempt(v, cleaned, call);
  }

  /**
   A process that dies while it stores the report of a success leaves the old report, the old report and a temporary
   entry, or the new one, which a power loss may revert to the old as long as it is not synced; and no terminal.
   */
  lemma {:induction false} StoppedReportLeaves(v: Validator, d: Dir, call: Call, report: Text, loss: Loss)
    requires ReadyToStore(v, d, call, report)
    requires call.reportWrite.WriteStopped? && call.reportWrite.ending == Dies
    ensures var o := Next(v, d, call);
            && o.ran && o.reply == Died && !Settled(o.dir)
            && o.dir.temps.report == (call.reportWrite.stage == TempLeft)
            && o.dir.report.text == (if call.reportWrite.stage in {Replaced, ReplacedSynced} then Some(report)
                                     else d.report.text)
            && (call.reportWrite.stage == Replaced && loss.reportReverts ==>
                  AfterLoss(o.dir, loss).report.text == d.report.text)
            && (call.reportWrite.stage == ReplacedSynced ==> AfterLoss(o.dir, loss).report.text == Some(report))
  {
    ReadyCallStores(v, d, call, report);
  }

  /** A success whose report could not be written, or read back, ends as an internal error that names no report. */
  lemma {:induction false} UnstoredSuccessIsAnError(v: Validator, d: Dir, call: Call, report: Text)
    requires ReadyToStore(v, d, call, report) && call.terminalWrite == Written
    requires call.readFails || (call.reportWrite.WriteStopped? && call.reportWrite.ending == Errs)
    requires call.reportWrite.WriteStopped? ==> call.reportWrite.ending == Errs
    ensures Next(v, d, call).reply == Answer(Negative(Admission(call).0.value.attempt, INTERNAL_ERROR, None))
  {
    ReadyCallStores(v, d, call, report);
  }
}
