/**
 The run-once protocol of src/migration_rehearsal/final_once.py over a directory that outlives its processes. A
 process may die at any durable operation, and the machine may lose what was not yet synced.
 */
module FinalOnce {
  import opened Sql
  import opened DurableWrite
  import opened ReportWords
  import opened FinalReport

  // ---------------------------------------------------------------- documents

  /** SHA-256 of an identity, the id of sixty-four zeros, or any other text. */
  datatype Id = Zeros | Hash(commit: string, protocol: string) | OtherText(text: string)

  /** `exact`: the key set and the schema version are exact, and so are the fixed values of a marker. */
  datatype Marker = Marker(attempt: Id, commit: string, protocol: string, exact: bool)

  datatype Reason =
    | ALL_GATES_PASSED | GATE_FAILED | INTERRUPTED_AFTER_MARKER | INTERNAL_ERROR | OtherReason(text: string)

  datatype ReportSha = ShaOf(report: Text) | OtherString(text: string)

  datatype Terminal = Terminal(attempt: Id, reason: Reason, reportSha: Option<ReportSha>, status: Name, exact: bool)

  /** A file: missing, holding a canonical document, or holding anything else, as after a torn write. */
  datatype File<D> = Absent | Doc(d: D) | Junk

  predicate LowerHex(s: string, length: nat) {
    |s| == length && forall i | 0 <= i < |s| :: '0' <= s[i] <= '9' || 'a' <= s[i] <= 'f'
  }

  /** `_attempt_id`. */
  function AttemptId(commit: string, protocol: string): Option<Id> {
    if LowerHex(commit, 40) && LowerHex(protocol, 64) then Some(Hash(commit, protocol)) else None
  }

  /** `_negative_terminal`. */
  function Negative(attempt: Id, reason: Reason, sha: Option<ReportSha>): Terminal {
    Terminal(attempt, reason, sha, HonestNegative, true)
  }

  /** `_valid_marker`, on whatever the marker file holds. */
  function MarkerId(marker: File<Marker>): Option<Id> {
    if marker.Doc? && marker.d.exact && AttemptId(marker.d.commit, marker.d.protocol) == Some(marker.d.attempt) then
      Some(marker.d.attempt)
    else None
  }

  /** `_valid_terminal`. */
  predicate ValidTerminal(t: Terminal, attempt: Id) {
    && t.exact && t.attempt == attempt
    && if t.status == GatesPassed then t.reason == ALL_GATES_PASSED && t.reportSha.Some? && t.reportSha.value.ShaOf?
       else
         && t.status == HonestNegative
         && match t.reason
            case GATE_FAILED => t.reportSha.Some? && t.reportSha.value.ShaOf?
            case INTERRUPTED_AFTER_MARKER => t.reportSha.None?
            case INTERNAL_ERROR => t.reportSha.None?
            case _ => false
  }

  // ---------------------------------------------------------------- the directory

  /** Entries of other steps: none, ones the cleanup removes, or one it must not touch. */
  datatype Entries = Clean | Removable | Stuck

  /**
   A pending entry was created or replaced and the directory not synced since. A marker is safe once its content was
   synced.
   */
  datatype MarkerEntry = MarkerEntry(file: File<Marker>, pending: bool, safe: bool)
  datatype ReportEntry = ReportEntry(text: Option<Text>, pending: bool, before: Option<Text>)
  datatype TerminalEntry = TerminalEntry(file: File<Terminal>, pending: bool)

  datatype Temps = Temps(report: bool, terminal: bool, others: Entries)

  /** The final directory. */
  datatype Dir = Dir(marker: MarkerEntry, report: ReportEntry, terminal: TerminalEntry, temps: Temps, lock: bool)

  const NO_TEMPS: Temps := Temps(false, false, Clean)

  function EmptyDir(): Dir {
    Dir(MarkerEntry(Absent, false, false), ReportEntry(None, false, None), TerminalEntry(Absent, false), NO_TEMPS,
        false)
  }

  predicate Settled(d: Dir) {
    !d.terminal.file.Absent?
  }

  predicate Marked(d: Dir) {
    !d.marker.file.Absent?
  }

  predicate NoTemps(d: Dir) {
    d.temps == NO_TEMPS
  }

  /** `_fsync_directory`. */
  function Synced(d: Dir): Dir {
    d.(marker := d.marker.(pending := false), report := d.report.(pending := false),
       terminal := d.terminal.(pending := false))
  }

  // ---------------------------------------------------------------- one call, and how its operations turn out

  datatype Probe = Ready | NotReady | ProbeOSError | ProbeError

  datatype LockOpening = Opens | Held | Refused

  /** Where a cleanup stops: at one of its removals, before the directory is synced, or right after. */
  datatype CleaningStage = AtReportTemp | AtTerminalTemp | AtOthers | AtSync | AfterSync

  datatype Cleaning = Cleaned | CleaningStopped(stage: CleaningStage, ending: Ending)

  /** `_cleanup_stale_temps`: three removals, of which the last refuses what it must not touch, and the directory. */
  function CleaningOutcome(world: World, others: Entries): Cleaning {
    match (world(0), world(1), world(2))
    case (Stops(ending), _, _) => CleaningStopped(AtReportTemp, ending)
    case (_, Stops(ending), _) => CleaningStopped(AtTerminalTemp, ending)
    case (_, _, Stops(ending)) => CleaningStopped(AtOthers, ending)
    case _ =>
      if others == Stuck then CleaningStopped(AtOthers, Errs)
      else
        match SyncOutcome(world, 3)
        case NotSynced(ending) => CleaningStopped(AtSync, ending)
        case SyncedButStopped(ending) => CleaningStopped(AfterSync, ending)
        case SyncDone => Cleaned
  }

  datatype Effect = Returns(report: Text) | GateFailure(report: Text) | Raises | EffectDies

  datatype Call = Call(
    canonical: bool, pathUnsafe: bool, outerBootstrap: Probe, directoryRefused: bool, lock: LockOpening,
    cleaning: Cleaning, bootstrap: Probe, identity: Option<(string, string)>, preflight: Probe,
    markerWrite: ExclusiveWrite, effect: Effect, effectLeaves: Entries, reportWrite: AtomicWrite, readFails: bool,
    terminalWrite: AtomicWrite)

  datatype Code =
    | LOCK_HELD | TERMINAL_LOCK_UNSAFE | TERMINAL_STALE_TEMP | TERMINAL_MARKER_MISMATCH | TERMINAL_INVALID
    | TERMINAL_ATTEMPT_MISMATCH | TERMINAL_REPORT_MISMATCH | STALE_TEMP_INVALID | PREFLIGHT_FAILED
    | PREFLIGHT_INTERNAL | REPORTS_PARENT_UNSAFE

  datatype Reply = Blocked(code: Code) | Answer(terminal: Terminal) | Raised(osError: bool) | Died

  function Ended(ending: Ending): Reply {
    if ending == Dies then Died else Raised(true)
  }

  // ---------------------------------------------------------------- what each durable operation leaves

  function AfterCleaning(d: Dir, c: Cleaning): Dir {
    match c
    case Cleaned => Synced(d.(temps := NO_TEMPS))
    case CleaningStopped(AtReportTemp, _) => d
    case CleaningStopped(AtTerminalTemp, _) => d.(temps := d.temps.(report := false))
    case CleaningStopped(AtOthers, _) => d.(temps := d.temps.(report := false, terminal := false))
    case CleaningStopped(AtSync, _) => d.(temps := NO_TEMPS)
    case CleaningStopped(AfterSync, _) => Synced(d.(temps := NO_TEMPS))
  }

  /** A cleanup that meets an entry it must not remove stops there. */
  function CleaningOf(d: Dir, call: Call): Cleaning {
    if d.temps.others == Stuck && (call.cleaning.Cleaned? || call.cleaning.stage in {AtSync, AfterSync}) then
      CleaningStopped(AtOthers, Errs)
    else call.cleaning
  }

  function AfterMarker(d: Dir, m: Marker, w: ExclusiveWrite): Dir {
    match w
    case Created => Synced(d.(marker := MarkerEntry(Doc(m), true, true)))
    case CreateStopped(NotCreated, _) => d
    case CreateStopped(Torn, _) => d.(marker := MarkerEntry(Junk, true, false))
    case CreateStopped(Whole, _) => d.(marker := MarkerEntry(Doc(m), true, false))
    case CreateStopped(WholeSafe, _) => d.(marker := MarkerEntry(Doc(m), true, true))
    case CreateStopped(WholeSynced, _) => Synced(d.(marker := MarkerEntry(Doc(m), true, true)))
  }

  function EffectLeft(d: Dir, leaves: Entries): Dir {
    d.(temps := d.temps.(others := leaves))
  }

  function AfterReport(d: Dir, report: Text, w: AtomicWrite): Dir {
    var replaced := d.(report := ReportEntry(Some(report), true, d.report.text), temps := d.temps.(report := false));
    match w
    case Written => Synced(replaced)
    case WriteStopped(NotOpened, _) => d
    case WriteStopped(TempLeft, _) => d.(temps := d.temps.(report := true))
    case WriteStopped(Replaced, _) => replaced
    case WriteStopped(ReplacedSynced, _) => Synced(replaced)
  }

  function AfterTerminal(d: Dir, t: Terminal, w: AtomicWrite): Dir {
    var replaced := d.(terminal := TerminalEntry(Doc(t), true), temps := d.temps.(terminal := false));
    match w
    case Written => Synced(replaced)
    case WriteStopped(NotOpened, _) => d
    case WriteStopped(TempLeft, _) => d.(temps := d.temps.(terminal := true))
    case WriteStopped(Replaced, _) => replaced
    case WriteStopped(ReplacedSynced, _) => Synced(replaced)
  }

  // ---------------------------------------------------------------- what a call does

  /** What the report validator says of a report; `ReportVerdict` is the one in use. */
  type Validator = Text -> Verdict

  datatype Outcome = Outcome(dir: Dir, reply: Reply, ran: bool)

  /** The status a terminal asks of its report. */
  function StatusOf(t: Terminal): Name {
    if t.status == GatesPassed then GatesPassed else HonestNegative
  }

  /** The stored report is the one a terminal names. */
  predicate ReportMatches(v: Validator, report: Option<Text>, t: Terminal) {
    report.Some? && v(report.value) == Valid(StatusOf(t)) && t.reportSha == Some(ShaOf(report.value))
  }

  /** The answer of a call that finds a terminal. */
  function Recall(v: Validator, d: Dir): Reply {
    if !NoTemps(d) then Blocked(TERMINAL_STALE_TEMP)
    else
      match MarkerId(d.marker.file)
      case None =>
        if d.terminal.file.Doc? && ValidTerminal(d.terminal.file.d, Zeros) then Answer(d.terminal.file.d)
        else Blocked(TERMINAL_MARKER_MISMATCH)
      case Some(attempt) =>
        if !d.terminal.file.Doc? then Blocked(TERMINAL_INVALID)
        else if d.terminal.file.d.attempt != attempt then Blocked(TERMINAL_ATTEMPT_MISMATCH)
        else if !ValidTerminal(d.terminal.file.d, attempt) then Blocked(TERMINAL_INVALID)
        else if d.terminal.file.d.reportSha.Some? && d.report.text.Some? && v(d.report.text.value).VerdictRaises? then
          Raised(false)
        else if d.terminal.file.d.reportSha.Some? && !ReportMatches(v, d.report.text, d.terminal.file.d) then
          Blocked(TERMINAL_REPORT_MISMATCH)
        else Answer(d.terminal.file.d)
  }

  /** The terminal of a call that finds a marker and no terminal. */
  function OrphanTerminal(marker: File<Marker>): Terminal {
    match MarkerId(marker)
    case Some(attempt) => Negative(attempt, INTERRUPTED_AFTER_MARKER, None)
    case None => Negative(Zeros, INTERNAL_ERROR, None)
  }

  function Conclude(d: Dir, t: Terminal, w: AtomicWrite, ran: bool): Outcome {
    Outcome(AfterTerminal(d, t, w), if w.Written? then Answer(t) else Ended(w.ending), ran)
  }

  /** The marker an attempt writes, or why there is none. */
  function Admission(call: Call): (Option<Marker>, Code) {
    AdmissionOf(call.bootstrap, call.identity, call.preflight)
  }

  function AdmissionOf(bootstrap: Probe, identity: Option<(string, string)>, preflight: Probe): (Option<Marker>, Code) {
    if bootstrap != Ready then (None, if bootstrap == NotReady then PREFLIGHT_FAILED else PREFLIGHT_INTERNAL)
    else if identity.None? then (None, PREFLIGHT_INTERNAL)
    else
      var (commit, protocol) := identity.value;
      match AttemptId(commit, protocol)
      case None => (None, PREFLIGHT_INTERNAL)
      case Some(attempt) =>
        if preflight != Ready then (None, if preflight == NotReady then PREFLIGHT_FAILED else PREFLIGHT_INTERNAL)
        else (Some(Marker(attempt, commit, protocol, true)), PREFLIGHT_FAILED)
  }

  /** What the effect leaves: a terminal to write, or a reply that ends the call without one. */
  datatype Stored = Terminates(dir: Dir, terminal: Terminal) | Ends(dir: Dir, reply: Reply)

  /** The effect's report is stored when it is one; a failed write turns a success into an internal error. */
  function StoreSuccess(v: Validator, d: Dir, attempt: Id, report: Text, call: Call): Stored {
    if v(report) != Valid(GatesPassed) then Terminates(d, Negative(attempt, INTERNAL_ERROR, None))
    else
      var stored := AfterReport(d, report, call.reportWrite);
      match call.reportWrite
      case WriteStopped(_, Dies) => Ends(stored, Died)
      case WriteStopped(_, Errs) => Terminates(stored, Negative(attempt, INTERNAL_ERROR, None))
      case Written =>
        if call.readFails then Terminates(stored, Negative(attempt, INTERNAL_ERROR, None))
        else Terminates(stored, Terminal(attempt, ALL_GATES_PASSED, Some(ShaOf(report)), GatesPassed, true))
  }

  /** The report a failed gate carries; an error in its check or its storage is not caught: no terminal is written. */
  function StoreFailure(v: Validator, d: Dir, attempt: Id, report: Text, call: Call): Stored {
    if v(report).VerdictRaises? then Ends(d, Raised(false))
    else if v(report) != Valid(HonestNegative) then Terminates(d, Negative(attempt, INTERNAL_ERROR, None))
    else
      var stored := AfterReport(d, report, call.reportWrite);
      match call.reportWrite
      case WriteStopped(_, ending) => Ends(stored, Ended(ending))
      case Written =>
        if call.readFails then Ends(stored, Raised(true))
        else Terminates(stored, Negative(attempt, GATE_FAILED, Some(ShaOf(report))))
  }

  function Store(v: Validator, d: Dir, attempt: Id, call: Call): Stored {
    match call.effect
    case EffectDies => Ends(d, Died)
    case Raises => Terminates(d, Negative(attempt, INTERNAL_ERROR, None))
    case Returns(report) => StoreSuccess(v, d, attempt, report, call)
    case GateFailure(report) => StoreFailure(v, d, attempt, report, call)
  }

  function Finish(v: Validator, d: Dir, attempt: Id, call: Call): Outcome {
    match Store(v, d, attempt, call)
    case Terminates(stored, terminal) => Conclude(stored, terminal, call.terminalWrite, true)
    case Ends(stored, reply) => Outcome(stored, reply, true)
  }

  /** A call that finds neither a terminal nor a marker. */
  function Attempt(v: Validator, d: Dir, call: Call): Outcome {
    match Admission(call)
    case (None, code) => Outcome(d, Blocked(code), false)
    case (Some(marker), _) =>
      var marked := AfterMarker(d, marker, call.markerWrite);
      if call.markerWrite.CreateStopped? then Outcome(marked, Ended(call.markerWrite.ending), false)
      else Finish(v, EffectLeft(marked, call.effectLeaves), marker.attempt, call)
  }

  /** Everything under the lock. */
  function Locked(v: Validator, d: Dir, call: Call): Outcome {
    if Settled(d) then Outcome(d, Recall(v, d), false)
    else
      var cleaning := CleaningOf(d, call);
      var cleaned := AfterCleaning(d, cleaning);
      if cleaning.CleaningStopped? then
        Outcome(cleaned, if cleaning.ending == Dies then Died else Blocked(STALE_TEMP_INVALID), false)
      else if Marked(cleaned) then Conclude(cleaned, OrphanTerminal(cleaned.marker.file), call.terminalWrite, false)
      else Attempt(v, cleaned, call)
  }

  function Protocol(v: Validator, d: Dir, call: Call): Outcome {
    if Settled(d) && !d.lock then Outcome(d, Blocked(TERMINAL_LOCK_UNSAFE), false)
    else if call.lock == Refused then Outcome(d, Raised(true), false)
    else if call.lock == Held then Outcome(d.(lock := true), Blocked(LOCK_HELD), false)
    else Locked(v, d.(lock := true), call)
  }

  /** A whole call. */
  function Next(v: Validator, d: Dir, call: Call): Outcome {
    if call.canonical && call.pathUnsafe then Outcome(d, Blocked(REPORTS_PARENT_UNSAFE), false)
    else
      match call.outerBootstrap
      case NotReady => Outcome(d, Blocked(PREFLIGHT_FAILED), false)
      case ProbeOSError => Outcome(d, Blocked(REPORTS_PARENT_UNSAFE), false)
      case ProbeError => Outcome(d, Raised(false), false)
      case Ready =>
        if call.canonical && call.directoryRefused then Outcome(d, Blocked(REPORTS_PARENT_UNSAFE), false)
        else
          var inner := Protocol(v, d, call);
          if call.canonical && inner.reply == Raised(true) then inner.(reply := Blocked(REPORTS_PARENT_UNSAFE))
          else inner
  }
}
