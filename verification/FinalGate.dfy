/** The final gate as a whole: the gate runner as the effect of the run-once protocol. */
module FinalGate {
  import opened Sql
  import opened ReportWords
  import opened FinalReport
  import opened ReportRendering
  import Runner = GateRunner
  import opened FinalOnce
  import opened FinalHistory
  import opened FinalDirectory

  /** The run ends without a report: the first gate that is not good parses an output that makes it raise. */
  predicate NoReport(env: Runner.Environment, freeze: Runner.Freeze) {
    exists f: Gate :: Runner.FirstBad(env, freeze, f) && Runner.GateRaises(env, freeze, f)
  }

  /** The reason a smooth first call records, from what the gates would do. */
  function ExpectedReason(env: Runner.Environment, freeze: Runner.Freeze, length: nat): Reason {
    if NoReport(env, freeze) || !(0 < length <= REPORT_LIMIT && VersionsClean(freeze.versions)) then INTERNAL_ERROR
    else if forall g: Gate :: Runner.GateGood(env, freeze, g) then ALL_GATES_PASSED
    else GATE_FAILED
  }

  /**
   The same freeze with "pid" as the version of pytest is as good a freeze; every report of it is refused, and the first
   call ends in an internal error whatever the gates do.
   */
  lemma {:induction false} PidVersionIsAnInternalError(env: Runner.Environment, freeze: Runner.Freeze, length: nat)
    requires Runner.FreezeOk(freeze)
    ensures var pid := freeze.(versions := freeze.versions[Pytest := JStr(Plain("pid"))]);
            && Runner.FreezeOk(pid) && !VersionsClean(pid.versions)
            && ExpectedReason(env, pid, length) == INTERNAL_ERROR
  {
    PidVersionIsFound(freeze.versions);
    PidFreezeIsOk(freeze);
  }

  lemma {:induction false} PidFreezeIsOk(freeze: Runner.Freeze)
    requires Runner.FreezeOk(freeze)
    ensures Runner.FreezeOk(freeze.(versions := freeze.versions[Pytest := JStr(Plain("pid"))]))
  {
    var versions := freeze.versions[Pytest := JStr(Plain("pid"))];
    assert Pytest in TOOLS && versions.Keys == TOOLS;
  }

  /** The effect that the gate runner is: it returns a success report, raises with any other, or raises without one. */
  method EffectOf(env: Runner.Environment, freeze: Runner.Freeze, length: nat) returns (effect: Effect)
    requires Runner.FreezeOk(freeze)
    ensures ComesBack(ReportVerdict, effect)
    ensures forall attempt ::
              FirstTerminal(ReportVerdict, attempt, effect).reason == ExpectedReason(env, freeze, length)
  {
    var run, commands := Runner.RunGates(env, freeze);
    if run.Escaped? {
      return Raises;
    }
    var text := Text(Parsed(run.report), true, length);
    effect := if run.normal then Returns(text) else GateFailure(text);
    EffectIsReported(effect, env, freeze, length, run.normal);
  }

  lemma {:induction false} EffectIsReported(
    effect: Effect, env: Runner.Environment, freeze: Runner.Freeze, length: nat, normal: bool)
    requires effect.Returns? || effect.GateFailure?
    requires effect.Returns? <==> normal
    requires !NoReport(env, freeze)
    requires ReportVerdict(effect.report) == if 0 < length <= REPORT_LIMIT && VersionsClean(freeze.versions)
                                             then Valid(if normal then GatesPassed else HonestNegative) else Invalid
    requires normal <==> forall g: Gate :: Runner.GateGood(env, freeze, g)
    ensures ComesBack(ReportVerdict, effect)
    ensures forall attempt ::
              FirstTerminal(ReportVerdict, attempt, effect).reason == ExpectedReason(env, freeze, length)
  {
  }

  /**
   One call of the final gate: a transition of the histories whose effect is the gate runner's. When it is the first and
   nothing goes wrong around the gates, its terminal says exactly what the gates did; it is an internal error exactly
   when no report was produced or no validator would accept it.
   */
  method RunFinal(
    directory: Directory, env: Runner.Environment, freeze: Runner.Freeze, length: nat, surroundings: Conditions)
    returns (reply: Reply, ran: bool, ghost call: Call)
    requires Runner.FreezeOk(freeze) && directory.validator == ReportVerdict && CodecOk(directory.codec)
    modifies directory
    ensures Outcome(directory.dir, reply, ran) == Next(ReportVerdict, old(directory.dir), call)
    ensures exists size ::
              call == CallOf(directory.codec, surroundings.(effect := call.effect),
                      old(directory.dir).temps.others, size)
    ensures ComesBack(ReportVerdict, call.effect)
    ensures forall attempt ::
              FirstTerminal(ReportVerdict, attempt, call.effect).reason == ExpectedReason(env, freeze, length)
    ensures ran ==> Fresh(old(directory.dir))
    ensures Fresh(old(directory.dir)) && old(directory.dir).temps.others != Stuck && SmoothConditions(surroundings) ==>
              && ran && reply.Answer? && directory.dir.terminal == TerminalEntry(Doc(reply.terminal), false)
              && reply.terminal.reason == ExpectedReason(env, freeze, length)
    ensures Settled(old(directory.dir)) ==>
              && directory.dir == old(directory.dir)
              && (reply.Answer? ==> Doc(reply.terminal) == old(directory.dir).terminal.file)
  {
    var effect := EffectOf(env, freeze, length);
    var c := surroundings.(effect := effect);
    ghost var before := directory.dir;
    ghost var size;
    reply, ran, size := directory.Run(c);
    call := CallOf(directory.codec, c, before.temps.others, size);
    RunningNeedsAFreshMarker(ReportVerdict, before, Invoke(call));
    if Settled(before) {
      SettledCallChangesNothing(ReportVerdict, before, call);
    }
    if Fresh(before) && before.temps.others != Stuck && SmoothConditions(surroundings) {
      SmoothConditionsMakeSmoothCalls(directory.codec, c, before.temps.others, size);
      SmoothFirstCallSettles(ReportVerdict, before, call);
    }
  }
}
