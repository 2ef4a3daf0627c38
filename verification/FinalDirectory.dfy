/** The final directory and the calls that change it, one system call at a time. */
module FinalDirectory {
  import opened Sql
  import opened DurableWrite
  import opened ReportWords
  import opened FinalReport
  import opened FinalOnce
  import opened FinalHistory

  /** The canonical texts of the documents, and how the text of a marker file is read. */
  datatype Codec = Codec(
    markerText: Marker -> string, readMarker: string -> File<Marker>, reportText: Text -> string,
    terminalText: Terminal -> string)

  /** A marker's text is canonical and reads as that marker; a text that is not canonical reads as no marker. */
  ghost predicate CodecOk(c: Codec) {
    && (forall m :: Canonical(c.markerText(m)) && c.readMarker(c.markerText(m)) == Doc(m))
    && (forall text :: !Canonical(text) ==> c.readMarker(text) == Junk)
  }

  /** What surrounds one call: the checks before it, the effect, and every system call of every durable operation. */
  datatype Conditions = Conditions(
    canonical: bool, pathUnsafe: bool, outerBootstrap: Probe, directoryRefused: bool, lock: LockOpening,
    cleaning: World, bootstrap: Probe, identity: Option<(string, string)>, preflight: Probe, marker: World,
    effect: Effect, effectLeaves: Entries, report: World, readFails: bool, terminal: World)

  /** The call those conditions amount to, for the entries it finds and the length of the terminal it writes. */
  function CallOf(codec: Codec, c: Conditions, others: Entries, terminalSize: nat): Call {
    Call(
      c.canonical, c.pathUnsafe, c.outerBootstrap, c.directoryRefused, c.lock, CleaningOutcome(c.cleaning, others),
      c.bootstrap, c.identity, c.preflight, ExclusiveOutcome(c.marker, MarkerSize(codec, c)), c.effect, c.effectLeaves,
      AtomicOutcome(c.report, ReportSize(codec, c.effect)), c.readFails, AtomicOutcome(c.terminal, terminalSize))
  }

  function MarkerSize(codec: Codec, c: Conditions): nat {
    match AdmissionOf(c.bootstrap, c.identity, c.preflight).0
    case None => 0
    case Some(marker) => |codec.markerText(marker)|
  }

  function ReportSize(codec: Codec, effect: Effect): nat {
    if effect.Returns? || effect.GateFailure? then |codec.reportText(effect.report)| else 0
  }

  function EndingOf(w: AtomicWrite): Option<Ending> {
    if w.WriteStopped? then Some(w.ending) else None
  }

  class Directory {
    var dir: Dir

    const validator: Validator
    const codec: Codec

    constructor (validator: Validator, codec: Codec)
      ensures dir == EmptyDir() && this.validator == validator && this.codec == codec
    {
      dir := EmptyDir();
      this.validator, this.codec := validator, codec;
    }

    /** `_fsync_directory`. */
    method SyncDirectory(world: World, first: nat) returns (stopped: Option<Ending>)
      modifies this
      ensures match SyncOutcome(world, first)
              case SyncDone => dir == Synced(old(dir)) && stopped == None
              case NotSynced(ending) => dir == old(dir) && stopped == Some(ending)
              case SyncedButStopped(ending) => dir == Synced(old(dir)) && stopped == Some(ending)
    {
      if world(first).Stops? {
        return Some(world(first).ending);
      }
      if world(first + 1).Stops? {
        return Some(AfterClose(world, first + 2, world(first + 1).ending));
      }
      dir := Synced(dir);
      return if world(first + 2).Stops? then Some(world(first + 2).ending) else None;
    }

    /** `_cleanup_stale_temps`: what is left is that of the stage at which its calls stop. */
    method CleanUp(world: World) returns (stopped: Option<Ending>)
      modifies this
      ensures var cleaning := CleaningOutcome(world, old(dir).temps.others);
              && dir == AfterCleaning(old(dir), cleaning)
              && stopped == if cleaning.CleaningStopped? then Some(cleaning.ending) else None
    {
      if world(0).Stops? {
        return Some(world(0).ending);
      }
      dir := dir.(temps := dir.temps.(report := false));
      if world(1).Stops? {
        return Some(world(1).ending);
      }
      dir := dir.(temps := dir.temps.(terminal := false));
      if world(2).Stops? {
        return Some(world(2).ending);
      }
      if dir.temps.others == Stuck {
        return Some(Errs);
      }
      dir := dir.(temps := dir.temps.(others := Clean));
      stopped := SyncDirectory(world, 3);
    }

    /**
     `_write_exclusive` of the marker, call by call: wherever its calls stop, the directory is that of one of the
     outcomes, and a part of the marker's text reads as no marker.
     */
    method WriteMarker(marker: Marker, world: World) returns (stopped: Option<Ending>)
      requires !Marked(dir) && CodecOk(codec)
      modifies this
      ensures var w := ExclusiveOutcome(world, |codec.markerText(marker)|);
              && dir == AfterMarker(old(dir), marker, w)
              && stopped == if w.CreateStopped? then Some(w.ending) else None
    {
      if world(0).Stops? {
        return Some(world(0).ending);
      }
      var text := codec.markerText(marker);
      var file := new OpenFile();
      dir := dir.(marker := MarkerEntry(codec.readMarker(file.contents), true, false));
      var next;
      stopped, next := file.WriteAll(text, world, 1);
      dir := dir.(marker := MarkerEntry(codec.readMarker(file.contents), true, false));
      if stopped.Some? {
        ghost var k :| 0 <= k < |text| && file.contents == text[..k];
        TornTextIsNotCanonical(text, k);
        return Some(AfterClose(world, next, stopped.value));
      }
      assert file.contents == text;
      assert codec.readMarker(text) == Doc(marker);
      if world(next).Stops? {
        return Some(AfterClose(world, next + 1, world(next).ending));
      }
      dir := dir.(marker := dir.marker.(safe := true));
      if world(next + 1).Stops? {
        return Some(world(next + 1).ending);
      }
      stopped := SyncDirectory(world, next + 2);
    }

    /** `_write_atomic` of the report, call by call; nothing but the whole text is ever renamed. */
    method WriteReport(report: Text, world: World) returns (stopped: Option<Ending>)
      modifies this
      ensures var w := AtomicOutcome(world, |codec.reportText(report)|);
              dir == AfterReport(old(dir), report, w) && stopped == EndingOf(w)
    {
      if world(0).Stops? {
        return Some(world(0).ending);
      }
      dir := dir.(temps := dir.temps.(report := true));
      var next;
      stopped, next := WriteTemporary(codec.reportText(report), world);
      if stopped.Some? {
        return;
      }
      if world(next).Stops? {
        return Some(world(next).ending);
      }
      dir := dir.(report := ReportEntry(Some(report), true, dir.report.text), temps := dir.temps.(report := false));
      stopped := SyncDirectory(world, next + 1);
    }

    /** The temporary file of an atomic write: its text is written whole, synced and closed before any rename. */
    method WriteTemporary(text: string, world: World) returns (stopped: Option<Ending>, next: nat)
      ensures var w := Writes(world, 1, |text|);
              if w.stopped.Some? then stopped == Some(AfterClose(world, w.next, w.stopped.value))
              else if world(w.next).Stops? then stopped == Some(AfterClose(world, w.next + 1, world(w.next).ending))
              else if world(w.next + 1).Stops? then stopped == Some(world(w.next + 1).ending)
              else stopped == None && next == w.next + 2
    {
      var file := new OpenFile();
      stopped, next := file.WriteAll(text, world, 1);
      if stopped.Some? {
        return Some(AfterClose(world, next, stopped.value)), next;
      }
      assert file.contents == text;
      if world(next).Stops? {
        return Some(AfterClose(world, next + 1, world(next).ending)), next;
      }
      if world(next + 1).Stops? {
        return Some(world(next + 1).ending), next;
      }
      return None, next + 2;
    }

    /** `_write_atomic` of the terminal, call by call, and the answer that follows it. */
    method Conclude(terminal: Terminal, world: World) returns (reply: Reply)
      requires !Settled(dir)
      modifies this
      ensures var w := AtomicOutcome(world, |codec.terminalText(terminal)|);
              && dir == AfterTerminal(old(dir), terminal, w)
              && reply == if w.Written? then Answer(terminal) else Ended(w.ending)
      ensures reply.Answer? ==> dir.terminal.file == Doc(reply.terminal) && !dir.terminal.pending
    {
      if world(0).Stops? {
        return Ended(world(0).ending);
      }
      dir := dir.(temps := dir.temps.(terminal := true));
      var stopped, next := WriteTemporary(codec.terminalText(terminal), world);
      if stopped.Some? {
        return Ended(stopped.value);
      }
      if world(next).Stops? {
        return Ended(world(next).ending);
      }
      dir := dir.(terminal := TerminalEntry(Doc(terminal), true), temps := dir.temps.(terminal := false));
      stopped := SyncDirectory(world, next + 1);
      return if stopped.Some? then Ended(stopped.value) else Answer(terminal);
    }

    /** The branch for an existing terminal; it only reads. */
    method Recall() returns (reply: Reply)
      ensures reply == FinalOnce.Recall(validator, dir)
    {
      if dir.temps != NO_TEMPS {
        return Blocked(TERMINAL_STALE_TEMP);
      }
      var attempt := MarkerId(dir.marker.file);
      if attempt.None? {
        if dir.terminal.file.Doc? && ValidTerminal(dir.terminal.file.d, Zeros) {
          return Answer(dir.terminal.file.d);
        }
        return Blocked(TERMINAL_MARKER_MISMATCH);
      }
      if !dir.terminal.file.Doc? {
        return Blocked(TERMINAL_INVALID);
      }
      var terminal := dir.terminal.file.d;
      if terminal.attempt != attempt.value {
        return Blocked(TERMINAL_ATTEMPT_MISMATCH);
      }
      if !ValidTerminal(terminal, attempt.value) {
        return Blocked(TERMINAL_INVALID);
      }
      if terminal.reportSha.Some? {
        if dir.report.text.Some? && validator(dir.report.text.value).VerdictRaises? {
          return Raised(false);
        }
        if !ReportMatches(validator, dir.report.text, terminal) {
          return Blocked(TERMINAL_REPORT_MISMATCH);
        }
      }
      return Answer(terminal);
    }

    /** The effect has run: its report is stored when it is one; then there is a terminal to write, or a reply. */
    method StoreReport(attempt: Id, c: Conditions, ghost call: Call) returns (terminal: Option<Terminal>, reply: Reply)
      requires call.effect == c.effect && call.readFails == c.readFails
      requires call.reportWrite == AtomicOutcome(c.report, ReportSize(codec, c.effect))
      modifies this
      ensures match Store(validator, old(dir), attempt, call)
              case Terminates(stored, t) => dir == stored && terminal == Some(t)
              case Ends(stored, r) => dir == stored && terminal == None && reply == r
    {
      reply := Died;
      var internal := Some(Negative(attempt, INTERNAL_ERROR, None));
      match c.effect
      case EffectDies => return None, Died;
      case Raises => return internal, Died;
      case Returns(report) =>
        if validator(report) != Valid(GatesPassed) {
          return internal, Died;
        }
        var stopped := WriteReport(report, c.report);
        if stopped == Some(Dies) {
          return None, Died;
        }
        if stopped.Some? || c.readFails {
          return internal, Died;
        }
        return Some(Terminal(attempt, ALL_GATES_PASSED, Some(ShaOf(report)), GatesPassed, true)), Died;
      case GateFailure(report) =>
        if validator(report).VerdictRaises? {
          return None, Raised(false);
        }
        if validator(report) != Valid(HonestNegative) {
          return internal, Died;
        }
        var stopped := WriteReport(report, c.report);
        if stopped.Some? {
          return None, Ended(stopped.value);
        }
        if c.readFails {
          return None, Raised(true);
        }
        return Some(Negative(attempt, GATE_FAILED, Some(ShaOf(report)))), Died;
    }

    /** After the effect: the report, then the terminal. */
    method Finish(attempt: Id, c: Conditions, ghost others: Entries) returns (reply: Reply, ghost size: nat)
      requires !Settled(dir)
      modifies this
      ensures Outcome(dir, reply, true) ==
              FinalOnce.Finish(validator, old(dir), attempt, CallOf(codec, c, others, size))
    {
      size := 0;
      var terminal;
      StoreKeepsUnsettled(validator, dir, attempt, CallOf(codec, c, others, 0));
      ghost var before := dir;
      terminal, reply := StoreReport(attempt, c, CallOf(codec, c, others, 0));
      if terminal.Some? {
        size := |codec.terminalText(terminal.value)|;
        reply := Conclude(terminal.value, c.terminal);
      }
      StoreIgnoresTerminalWrite(
        validator, before, attempt, CallOf(codec, c, others, 0), CallOf(codec, c, others, size));
    }

    /** The preflight, and the marker it allows. */
    method Admit(c: Conditions) returns (marker: Option<Marker>, code: Code)
      ensures (marker, code) == AdmissionOf(c.bootstrap, c.identity, c.preflight)
      ensures marker.Some? ==> MarkerId(Doc(marker.value)) == Some(marker.value.attempt)
    {
      if c.bootstrap == NotReady {
        return None, PREFLIGHT_FAILED;
      }
      if c.bootstrap != Ready || c.identity.None? {
        return None, PREFLIGHT_INTERNAL;
      }
      var (commit, protocol) := c.identity.value;
      var attempt := AttemptId(commit, protocol);
      if attempt.None? {
        return None, PREFLIGHT_INTERNAL;
      }
      if c.preflight != Ready {
        return None, if c.preflight == NotReady then PREFLIGHT_FAILED else PREFLIGHT_INTERNAL;
      }
      return Some(Marker(attempt.value, commit, protocol, true)), PREFLIGHT_FAILED;
    }

    /** The first attempt: preflight, marker, effect. */
    method Attempt(c: Conditions, ghost others: Entries) returns (reply: Reply, ran: bool, ghost size: nat)
      requires !Settled(dir) && !Marked(dir) && CodecOk(codec)
      modifies this
      ensures Outcome(dir, reply, ran) == FinalOnce.Attempt(validator, old(dir), CallOf(codec, c, others, size))
    {
      size := 0;
      var marker, code := Admit(c);
      if marker.None? {
        return Blocked(code), false, size;
      }
      var stopped := WriteMarker(marker.value, c.marker);
      if stopped.Some? {
        return Ended(stopped.value), false, size;
      }
      // From here on the effect has run.
      dir := EffectLeft(dir, c.effectLeaves);
      reply, size := Finish(marker.value.attempt, c, others);
      ran := true;
    }

    /** `_run_final_once_marker_protocol`. */
    method Protocol(c: Conditions) returns (reply: Reply, ran: bool, ghost size: nat)
      requires CodecOk(codec)
      modifies this
      ensures Outcome(dir, reply, ran) ==
              FinalOnce.Protocol(validator, old(dir), CallOf(codec, c, old(dir).temps.others, size))
    {
      size := 0;
      ghost var others := dir.temps.others;
      if Settled(dir) && !dir.lock {
        return Blocked(TERMINAL_LOCK_UNSAFE), false, size;
      }
      if c.lock == Refused {
        return Raised(true), false, size;
      }
      dir := dir.(lock := true);
      if c.lock == Held {
        return Blocked(LOCK_HELD), false, size;
      }
      reply, ran, size := Locked(c);
    }

    /** Everything under the lock. */
    method Locked(c: Conditions) returns (reply: Reply, ran: bool, ghost size: nat)
      requires CodecOk(codec)
      modifies this
      ensures Outcome(dir, reply, ran) ==
              FinalOnce.Locked(validator, old(dir), CallOf(codec, c, old(dir).temps.others, size))
    {
      size := 0;
      ghost var others := dir.temps.others;
      if Settled(dir) {
        reply := Recall();
        return reply, false, size;
      }
      var stopped := CleanUp(c.cleaning);
      if stopped.Some? {
        return if stopped.value == Dies then Died else Blocked(STALE_TEMP_INVALID), false, size;
      }
      if Marked(dir) {
        var terminal := OrphanTerminal(dir.marker.file);
        size := |codec.terminalText(terminal)|;
        reply := Conclude(terminal, c.terminal);
        return reply, false, size;
      }
      reply, ran, size := Attempt(c, others);
    }

    /**
     `run_final_once_marker_protocol`, for whatever its system calls do: it is the transition of the call that its
     conditions amount to.
     */
    method Run(c: Conditions) returns (reply: Reply, ran: bool, ghost size: nat)
      requires CodecOk(codec)
      modifies this
      ensures Outcome(dir, reply, ran) == Next(validator, old(dir), CallOf(codec, c, old(dir).temps.others, size))
    {
      size := 0;
      if c.canonical && c.pathUnsafe {
        return Blocked(REPORTS_PARENT_UNSAFE), false, size;
      }
      match c.outerBootstrap {
        case NotReady => return Blocked(PREFLIGHT_FAILED), false, size;
        case ProbeOSError => return Blocked(REPORTS_PARENT_UNSAFE), false, size;
        case ProbeError => return Raised(false), false, size;
        case Ready =>
      }
      if c.canonical && c.directoryRefused {
        return Blocked(REPORTS_PARENT_UNSAFE), false, size;
      }
      reply, ran, size := Protocol(c);
      if c.canonical && reply == Raised(true) {
        reply := Blocked(REPORTS_PARENT_UNSAFE);
      }
    }
  }

  lemma {:induction false} StoreKeepsUnsettled(v: Validator, d: Dir, attempt: Id, call: Call)
    requires !Settled(d)
    ensures !Settled(Store(v, d, attempt, call).dir)
  {
  }

  lemma {:induction false} StoreIgnoresTerminalWrite(v: Validator, d: Dir, attempt: Id, one: Call, other: Call)
    requires other == one.(terminalWrite := other.terminalWrite)
    ensures Store(v, d, attempt, one) == Store(v, d, attempt, other)
  {
  }

  // ---------------------------------------------------------------- outcomes are those of system calls

  /** A cleanup can end so beside such entries: what must not be touched is never passed. */
  predicate CleaningFits(cleaning: Cleaning, others: Entries) {
    others == Stuck ==> cleaning.CleaningStopped? && cleaning.stage !in {AtSync, AfterSync}
  }

  lemma {:induction false} CleaningOutcomesAreReached(cleaning: Cleaning, others: Entries)
    requires CleaningFits(cleaning, others)
    ensures exists world :: CleaningOutcome(world, others) == cleaning
  {
    if cleaning.Cleaned? {
      var world := i => Proceeds(1);
      assert CleaningOutcome(world, others) == cleaning;
    } else {
      var k := match cleaning.stage
        case AtReportTemp => 0
        case AtTerminalTemp => 1
        case AtOthers => 2
        case AtSync => 3
        case AfterSync => 5;
      var world := StopsAt(k, cleaning.ending, 1);
      assert CleaningOutcome(world, others) == cleaning;
    }
  }

  /**
   The calls that histories are made of are exactly those that system calls can make: every admitted call whose
   cleanup respects the entries it finds is what some conditions amount to.
   */
  lemma {:induction false} EveryCallIsMet(codec: Codec, call: Call, others: Entries, size: nat)
    requires CodecOk(codec) && Admission(call).0.Some? && CleaningFits(call.cleaning, others)
    ensures exists c :: CallOf(codec, c, others, size) == call
  {
    var marker := Admission(call).0.value;
    CleaningOutcomesAreReached(call.cleaning, others);
    assert Canonical(codec.markerText(marker));
    ExclusiveOutcomesAreReached(call.markerWrite, |codec.markerText(marker)|);
    AtomicOutcomesAreReached(call.reportWrite, ReportSize(codec, call.effect));
    AtomicOutcomesAreReached(call.terminalWrite, size);
    var cleaning :| CleaningOutcome(cleaning, others) == call.cleaning;
    var create :| ExclusiveOutcome(create, |codec.markerText(marker)|) == call.markerWrite;
    var report :| AtomicOutcome(report, ReportSize(codec, call.effect)) == call.reportWrite;
    var terminal :| AtomicOutcome(terminal, size) == call.terminalWrite;
    var c := Conditions(
      call.canonical, call.pathUnsafe, call.outerBootstrap, call.directoryRefused, call.lock, cleaning, call.bootstrap,
      call.identity, call.preflight, create, call.effect, call.effectLeaves, report, call.readFails, terminal);
    assert CallOf(codec, c, others, size) == call;
  }

  // ---------------------------------------------------------------- nothing goes wrong

  /** Conditions in which nothing goes wrong outside the effect. */
  ghost predicate SmoothConditions(c: Conditions) {
    && !c.pathUnsafe && c.outerBootstrap == Ready && !c.directoryRefused && c.lock == Opens
    && c.bootstrap == Ready && c.preflight == Ready
    && c.identity.Some? && AttemptId(c.identity.value.0, c.identity.value.1).Some?
    && Undisturbed(c.cleaning) && Undisturbed(c.marker) && Undisturbed(c.report) && !c.readFails
    && Undisturbed(c.terminal)
  }

  lemma {:induction false} SmoothConditionsMakeSmoothCalls(codec: Codec, c: Conditions, others: Entries, size: nat)
    requires SmoothConditions(c) && others != Stuck
    ensures Smooth(CallOf(codec, c, others, size))
  {
    UndisturbedSucceeds(c.marker, MarkerSize(codec, c));
    UndisturbedSucceeds(c.report, ReportSize(codec, c.effect));
    UndisturbedSucceeds(c.terminal, size);
  }
}
