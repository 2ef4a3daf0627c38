/**
 The gate runner of src/migration_rehearsal/final_runner.py. The executor, the temporary store and the scanner
 cache are an environment that may answer anything at every call.
 */
module GateRunner {
  import opened Sql
  import opened ReportWords
  import opened FinalReport
  import opened ScannerOutputs

  datatype Command =
    | GateCommand(gate: Gate)
    | UvExport | PipAuditRun | ComposePs | Inspect | CoverageRun | ComposeDown

  /** Standard output: its bytes, what they parse to, their lines, and their value without surrounding blanks. */
  datatype Output = Output(bytes: string, json: Parse, lines: seq<string>, stripped: Str)

  datatype CommandResult = CommandResult(exitCode: int, stdout: Output, stderr: string)

  datatype ExecutorReply = Raised(kind: string) | Returned(command: Command, result: CommandResult)

  datatype DigestReply = DigestRaised | Digest(value: Str)

  /** How the n-th call of each collaborator turns out. */
  datatype Environment = Environment(
    executor: nat -> ExecutorReply, storeFails: nat -> bool, cacheDigest: Option<nat -> DigestReply>)

  /** The operations of the temporary store. */
  datatype StoreAction = WriteRequirements | CreateAuditCache | RemoveRequirements | RemoveAuditCache

  /** The calls made so far. */
  datatype Trace = Trace(commands: seq<Command>, stores: seq<StoreAction>, digestReads: nat)

  datatype Summaries = Summaries(pytest: Json, scanners: map<Gate, Scan>)

  /** The frozen values a report repeats. */
  datatype Freeze = Freeze(threshold: Json, imageId: Sha, scannerDb: Sha, versions: map<Name, Json>)

  const NO_OUTPUT: Output := Output("", NotJson, [], Plain(""))

  /** What `validate_freeze` has established about those values. */
  predicate FreezeOk(f: Freeze) {
    && IsNumber(f.threshold) && 0.0 <= Number(f.threshold) <= 100.0
    && f.versions.Keys == TOOLS
    && forall t | t in f.versions :: f.versions[t].JStr? && Spelled(f.versions[t].s) != ""
  }

  // ---------------------------------------------------------------- the order of gates and commands

  /** The gate a command belongs to. */
  function Stage(c: Command): nat {
    match c
    case GateCommand(gate) => gate
    case UvExport => 5
    case PipAuditRun => 5
    case ComposePs => 9
    case Inspect => 9
    case CoverageRun => 10
    case ComposeDown => 11
  }

  /** The place of a command in the one order in which commands may run. */
  function Rank(c: Command): nat {
    2 * Stage(c) + if c.PipAuditRun? || c.Inspect? then 1 else 0
  }

  /** Commands run in gate order and none runs twice. */
  predicate Increasing(commands: seq<Command>) {
    forall i, j | 0 <= i < j < |commands| :: Rank(commands[i]) < Rank(commands[j])
  }

  // ---------------------------------------------------------------- commands

  /** What the n-th command yields: its own answer, or a failure without output. */
  function Received(env: Environment, n: nat, command: Command): CommandResult {
    match env.executor(n)
    case Raised(kind) => CommandResult(1, NO_OUTPUT, kind)
    case Returned(echoed, answer) => if echoed == command then answer else CommandResult(1, NO_OUTPUT, "AssertionError")
  }

  /** `_safe_execute`. */
  method SafeExecute(env: Environment, trace: Trace, command: Command) returns (result: CommandResult, t: Trace)
    ensures t == trace.(commands := trace.commands + [command])
    ensures result.exitCode == 0 <==> Succeeds(env, |trace.commands|, command)
    ensures result.exitCode == 0 ==> result == env.executor(|trace.commands|).result
    ensures result == Received(env, |trace.commands|, command)
  {
    t := trace.(commands := trace.commands + [command]);
    match env.executor(|trace.commands|)
    case Raised(kind) => return CommandResult(1, NO_OUTPUT, kind), t;
    case Returned(echoed, answer) =>
      if echoed != command {
        return CommandResult(1, NO_OUTPUT, "AssertionError"), t;
      }
      return answer, t;
  }

  function Failed(result: CommandResult): CommandResult {
    result.(exitCode := 1)
  }

  /** `_record`. */
  function Record(result: CommandResult): (record: Json)
    ensures GateRecordOk(record)
    ensures WordOf(record.fields[Status]) == if result.exitCode == 0 then Pass else Fail
    ensures record.fields[StdoutSha256] == JStr(Hex(Sha256(result.stdout.bytes)))
    ensures record.fields[StderrSha256] == JStr(Hex(Sha256(result.stderr)))
  {
    var fields := map[
      ExitCode := JInt(result.exitCode),
      Status := JStr(Word(if result.exitCode == 0 then Pass else Fail)),
      StderrSha256 := JStr(Hex(Sha256(result.stderr))),
      StdoutSha256 := JStr(Hex(Sha256(result.stdout.bytes)))];
    assert fields.Keys == {ExitCode, Status, StdoutSha256, StderrSha256};
    JObj(fields)
  }

  // ---------------------------------------------------------------- scanners

  /** A scanner gate passes only with exit code zero, a valid surface and no finding. */
  function Judged(result: CommandResult, valid: bool, scan: Scan): CommandResult {
    if result.exitCode != 0 || !valid || scan.findings > 0 then
      CommandResult(1, result.stdout,
                    if result.stderr != "" then result.stderr
                    else if scan.findings > 0 then "findings-present" else "invalid-scanner-json")
    else result
  }

  // ---------------------------------------------------------------- when a gate passes

  /** The commands run before a gate when every earlier gate passed. */
  function Offset(gate: nat): nat {
    if gate <= 5 then gate else if gate <= 9 then gate + 1 else gate + 2
  }

  /** The collaborators stand where they stand when every gate before this one passed. */
  predicate OnTrack(env: Environment, trace: Trace, gate: nat) {
    && |trace.commands| == Offset(gate)
    && |trace.stores| == (if gate > 5 then 4 else 0)
    && (env.cacheDigest.Some? ==> trace.digestReads == if gate > 7 then 4 else if gate > 6 then 2 else 0)
  }

  /** The n-th command is this one, its answer is its own, and it exits with zero. */
  predicate Succeeds(env: Environment, n: nat, command: Command) {
    var reply := env.executor(n);
    reply.Returned? && reply.command == command && reply.result.exitCode == 0
  }

  /** What the n-th command prints. */
  function Printed(env: Environment, n: nat): Output {
    var reply := env.executor(n);
    if reply.Returned? then reply.result.stdout else NO_OUTPUT
  }

  function ScanIn(surface: Surface): Scan {
    if surface.Surface? then surface.scan else Scan(0, 0)
  }

  predicate CacheFrozen(env: Environment, n: nat, frozen: Sha) {
    env.cacheDigest.Some? ==> env.cacheDigest.value(n) == Digest(Ref(frozen))
  }

  /** What a gate needs to pass, once every gate before it has passed. */
  predicate GateGood(env: Environment, freeze: Freeze, gate: Gate) {
    var n := Offset(gate);
    if gate == GITLEAKS then
      Succeeds(env, n, GateCommand(gate)) && CleanSurface(LeaksSurface(Printed(env, n).json))
    else if gate == PIP_AUDIT then
      && Succeeds(env, n, UvExport) && Printed(env, n).bytes != ""
      && (forall op: nat | op < 4 :: !env.storeFails(op))
      && Succeeds(env, n + 1, PipAuditRun) && CleanSurface(AuditSurface(Printed(env, n + 1).json))
    else if gate == TRIVY_FS || gate == TRIVY_IMAGE then
      && CacheFrozen(env, 2 * (gate - TRIVY_FS), freeze.scannerDb)
      && Succeeds(env, n, GateCommand(gate)) && CleanSurface(SummarySurface(Printed(env, n).json))
      && CacheFrozen(env, 2 * (gate - TRIVY_FS) + 1, freeze.scannerDb)
    else if gate == IMAGE_IDENTITY then
      && Succeeds(env, n, ComposePs) && |Printed(env, n).lines| == 1 && Printed(env, n).lines[0] != ""
      && Succeeds(env, n + 1, Inspect) && Printed(env, n + 1).stripped == Ref(freeze.imageId)
    else if gate == PYTEST_COVERAGE then
      && Succeeds(env, n, CoverageRun)
      && Printed(env, n).json.Parsed? && CoverageAnswer(Printed(env, n).json.value, freeze.threshold)
    else if gate == COMPOSE_CLEANUP then Succeeds(env, n, ComposeDown)
    else Succeeds(env, n, GateCommand(gate))
  }

  /** The answer to the last command of a passed gate. */
  function Answered(env: Environment, gate: Gate): CommandResult {
    var reply := env.executor(Offset(gate + 1) - 1);
    if reply.Returned? then reply.result else CommandResult(1, NO_OUTPUT, "")
  }

  /** What a scanner gate makes of an output. */
  function SurfaceFor(gate: Gate, json: Parse): Surface {
    if gate == GITLEAKS then LeaksSurface(json)
    else if gate == PIP_AUDIT then AuditSurface(json)
    else SummarySurface(json)
  }

  /** What a passed scanner gate found, by its last answer. */
  function ScanOf(env: Environment, gate: Gate): Scan {
    ScanIn(SurfaceFor(gate, Answered(env, gate).stdout.json))
  }

  /** What a scanner gate that runs finds, by the output it parses, whether it passes or fails. */
  function ScanSeen(env: Environment, freeze: Freeze, gate: Gate): Scan {
    ScanIn(SurfaceFor(gate, ParsedBy(env, freeze, gate).json))
  }

  /** The output whose digest a gate's record states, once every gate before it has passed. */
  function GateOutput(env: Environment, freeze: Freeze, gate: Gate): Output {
    var n := Offset(gate);
    if gate in SCANNERS || gate == PYTEST_COVERAGE then ParsedBy(env, freeze, gate)
    else if gate == IMAGE_IDENTITY then
      var listed := Received(env, n, ComposePs);
      if listed.exitCode == 0 && |listed.stdout.lines| == 1 && listed.stdout.lines[0] != "" then
        Received(env, n + 1, Inspect).stdout
      else listed.stdout
    else Received(env, n, GateCommand(gate)).stdout
  }

  /** The output a gate parses, once every gate before it has passed. */
  function ParsedBy(env: Environment, freeze: Freeze, gate: Gate): Output {
    var n := Offset(gate);
    if gate == GITLEAKS then Received(env, n, GateCommand(gate)).stdout
    else if gate == PIP_AUDIT then
      var exported := Received(env, n, UvExport);
      if exported.exitCode != 0 || exported.stdout.bytes == "" || env.storeFails(0) || env.storeFails(1) then
        exported.stdout
      else Received(env, n + 1, PipAuditRun).stdout
    else if gate == TRIVY_FS || gate == TRIVY_IMAGE then
      if CacheFrozen(env, 2 * (gate - TRIVY_FS), freeze.scannerDb) then Received(env, n, GateCommand(gate)).stdout
      else NO_OUTPUT
    else if gate == PYTEST_COVERAGE then Received(env, n, CoverageRun).stdout
    else NO_OUTPUT
  }

  /** The first integer that does not fit a float: the largest finite float and half a step, 2^1024 - 2^970. */
  function FloatLimit(): int {
    TwoTo(FLOAT_BITS) - TwoTo(FLOAT_BITS - 54)
  }

  const FLOAT_BITS: nat := 1024

  function TwoTo(n: nat): nat {
    if n == 0 then 1 else 2 * TwoTo(n - 1)
  }

  predicate FloatRaises(j: Json) {
    j.JInt? && (j.n >= FloatLimit() || j.n <= -FloatLimit())
  }

  /** The checks of a coverage answer up to the percentage hold, and the percentage does not fit a float. */
  predicate PercentRaises(j: Json) {
    CoverageCounts(j) && FloatRaises(j.fields[BranchCoveragePercent])
  }

  /**
   The output a gate parses makes it raise: its parse raises something else than a decode error, or it is a coverage
   answer whose percentage does not fit a float. Nothing catches that inside the run.
   */
  predicate GateRaises(env: Environment, freeze: Freeze, gate: Gate) {
    var json := ParsedBy(env, freeze, gate).json;
    || (gate in SCANNERS && json.ParseRaises?)
    || (gate == PYTEST_COVERAGE && (json.ParseRaises? || (json.Parsed? && PercentRaises(json.value))))
  }

  /** How a gate's turn ends: with a result, or by an error that nothing catches. */
  datatype Turn = Result(result: CommandResult) | Escapes

  predicate Passes(turn: Turn) {
    turn.Result? && turn.result.exitCode == 0
  }

  /**
   A gate that starts on track escapes exactly when the output it parses makes it raise, and passes exactly when it is
   good; its result is then the answer to its last command, and the run stays on track.
   */
  predicate Decided(env: Environment, freeze: Freeze, gate: Gate, before: Trace, turn: Turn, after: Trace) {
    OnTrack(env, before, gate) ==>
      && (turn.Escapes? <==> GateRaises(env, freeze, gate))
      && (Passes(turn) <==> GateGood(env, freeze, gate))
      && (Passes(turn) ==> OnTrack(env, after, gate + 1) && turn.result == Answered(env, gate))
      && (turn.Result? ==> turn.result.stdout == GateOutput(env, freeze, gate))
  }

  /** The summary of a passed gate holds the numbers of its output. */
  predicate SummaryTrue(env: Environment, gate: Gate, s: Summaries) {
    && (gate in SCANNERS ==> gate in s.scanners && s.scanners[gate] == ScanOf(env, gate))
    && (gate == PYTEST_COVERAGE ==> PytestTrue(env, s.pytest))
  }

  /** The summary of a scanner gate that ran holds the numbers of the output it parsed. */
  predicate SummarySeen(env: Environment, freeze: Freeze, gate: Gate, s: Summaries) {
    gate in SCANNERS ==> gate in s.scanners && s.scanners[gate] == ScanSeen(env, freeze, gate)
  }

  predicate PytestTrue(env: Environment, pytest: Json) {
    var json := Answered(env, PYTEST_COVERAGE).stdout.json;
    json.Parsed? && pytest.JObj? && forall k | k in pytest.fields :: pytest.fields[k] == Lookup(json.value, k)
  }

  /** What it takes to pass the gates that look at more than an exit code. */
  lemma {:induction false} GoodGatesKeepTheirPromise(env: Environment, freeze: Freeze)
    ensures GateGood(env, freeze, IMAGE_IDENTITY) ==>
              && env.executor(10).Returned? && env.executor(10).command == ComposePs
              && env.executor(10).result.exitCode == 0
              && (exists id :: id != "" && env.executor(10).result.stdout.lines == [id])
              && env.executor(11).Returned? && env.executor(11).command == Inspect
              && env.executor(11).result.exitCode == 0
              && env.executor(11).result.stdout.stripped == Ref(freeze.imageId)
    ensures GateGood(env, freeze, PIP_AUDIT) ==>
              && env.executor(5).Returned? && env.executor(5).command == UvExport
              && env.executor(5).result.exitCode == 0 && env.executor(5).result.stdout.bytes != ""
              && !env.storeFails(0) && !env.storeFails(1) && !env.storeFails(2) && !env.storeFails(3)
              && env.executor(6).Returned? && env.executor(6).command == PipAuditRun
              && env.executor(6).result.exitCode == 0
              && CleanSurface(AuditSurface(env.executor(6).result.stdout.json))
    ensures forall gate | gate in {TRIVY_FS, TRIVY_IMAGE} && GateGood(env, freeze, gate) ::
              && env.executor(gate + 1).Returned? && env.executor(gate + 1).command == GateCommand(gate)
              && env.executor(gate + 1).result.exitCode == 0
              && CleanSurface(SummarySurface(env.executor(gate + 1).result.stdout.json))
    ensures GateGood(env, freeze, TRIVY_FS) && env.cacheDigest.Some? ==>
              env.cacheDigest.value(0) == env.cacheDigest.value(1) == Digest(Ref(freeze.scannerDb))
    ensures GateGood(env, freeze, TRIVY_IMAGE) && env.cacheDigest.Some? ==>
              env.cacheDigest.value(2) == env.cacheDigest.value(3) == Digest(Ref(freeze.scannerDb))
    ensures GateGood(env, freeze, GITLEAKS) ==>
              && env.executor(4).Returned? && env.executor(4).command == GateCommand(GITLEAKS)
              && env.executor(4).result.exitCode == 0 && env.executor(4).result.stdout.json == Parsed(JArr([]))
  {
    LeaksAreListed(Printed(env, 4).json);
    if GateGood(env, freeze, IMAGE_IDENTITY) {
      var lines := env.executor(10).result.stdout.lines;
      assert lines == [lines[0]];
    }
  }

  /** A passed coverage gate: tests ran, and the branches they covered reach the frozen threshold. */
  lemma {:induction false} GoodCoverageReachesTheThreshold(env: Environment, freeze: Freeze)
    requires GateGood(env, freeze, PYTEST_COVERAGE)
    ensures env.executor(12).Returned? && env.executor(12).command == CoverageRun
    ensures env.executor(12).result.exitCode == 0 && env.executor(12).result.stdout.json.Parsed?
    ensures var j := env.executor(12).result.stdout.json.value;
            && j.JObj? && j.fields.Keys == {BranchCount, BranchCoveragePercent, CoveredBranchCount, PytestStderrSha256,
                                            PytestStdoutSha256, SchemaVersion, TestCount}
            && j.fields[SchemaVersion] == JInt(1)
            && j.fields[TestCount].JInt? && 0 < j.fields[TestCount].n
            && j.fields[BranchCount].JInt? && 0 < j.fields[BranchCount].n
            && j.fields[CoveredBranchCount].JInt?
            && 0 <= j.fields[CoveredBranchCount].n <= j.fields[BranchCount].n
            && IsHex(j.fields[PytestStdoutSha256]) && IsHex(j.fields[PytestStderrSha256])
            && IsNumber(j.fields[BranchCoveragePercent])
            && var percent := Number(j.fields[BranchCoveragePercent]);
               var ratio := 100.0 * (j.fields[CoveredBranchCount].n as real) / (j.fields[BranchCount].n as real);
               && 0.0 <= percent <= 100.0 && Number(freeze.threshold) <= percent
               && ratio - 0.000000000001 <= percent <= ratio + 0.000000000001
  {
  }

  // ---------------------------------------------------------------- gates

  /** A gate's commands are its own, in order, after those already run. */
  predicate Extends(before: Trace, after: Trace, gate: nat) {
    && before.commands <= after.commands
    && (Increasing(before.commands) && (forall c | c in before.commands :: Stage(c) < gate) ==>
          Increasing(after.commands))
    && forall k | |before.commands| <= k < |after.commands| :: Stage(after.commands[k]) == gate
  }

  method RunImageIdentity(env: Environment, trace: Trace, freeze: Freeze) returns (result: CommandResult, t: Trace)
    ensures Extends(trace, t, 9) && Decided(env, freeze, IMAGE_IDENTITY, trace, Result(result), t)
  {
    var container;
    container, t := SafeExecute(env, trace, ComposePs);
    if container.exitCode == 0 && |container.stdout.lines| == 1 && container.stdout.lines[0] != "" {
      result, t := SafeExecute(env, t, Inspect);
      if result.exitCode == 0 && result.stdout.stripped != Ref(freeze.imageId) {
        result := Failed(result);
      }
    } else {
      result := Failed(container);
    }
    if OnTrack(env, trace, IMAGE_IDENTITY) {
      ImageIsDecided(env, freeze, container, result);
    }
  }

  /** The container's name leads to its image: only one name, and only the frozen image. */
  lemma {:induction false} ImageIsDecided(
    env: Environment, freeze: Freeze, container: CommandResult, result: CommandResult)
    requires container == Received(env, Offset(IMAGE_IDENTITY), ComposePs)
    requires result ==
             if container.exitCode == 0 && |container.stdout.lines| == 1 && container.stdout.lines[0] != "" then
               var inspected := Received(env, Offset(IMAGE_IDENTITY) + 1, Inspect);
               if inspected.exitCode == 0 && inspected.stdout.stripped != Ref(freeze.imageId) then Failed(inspected)
               else inspected
             else Failed(container)
    ensures result.exitCode == 0 <==> GateGood(env, freeze, IMAGE_IDENTITY)
    ensures result.exitCode == 0 ==> result == Answered(env, IMAGE_IDENTITY)
    ensures result.stdout == GateOutput(env, freeze, IMAGE_IDENTITY)
  {
  }

  /** The checks of the coverage child's answer that come before its percentage. */
  predicate CoverageCounts(j: Json) {
    && Has(j, {BranchCount, BranchCoveragePercent, CoveredBranchCount, PytestStderrSha256, PytestStdoutSha256,
               SchemaVersion, TestCount})
    && j.fields[SchemaVersion] == JInt(1)
    && j.fields[TestCount].JInt? && 0 < j.fields[TestCount].n
    && j.fields[BranchCount].JInt? && 0 < j.fields[BranchCount].n
    && j.fields[CoveredBranchCount].JInt? && 0 <= j.fields[CoveredBranchCount].n <= j.fields[BranchCount].n
  }

  /** A percentage of at most a hundred fits a float. */
  lemma {:induction false} ValidPercentFits(j: Json, threshold: Json)
    requires CoverageAnswer(j, threshold)
    ensures !PercentRaises(j)
  {
    TwoToGrows(7, FLOAT_BITS - 54);
    TwoToGrows(FLOAT_BITS - 53, FLOAT_BITS);
    assert TwoTo(7) == 128;
  }

  lemma {:induction false} TwoToGrows(m: nat, n: nat)
    requires m <= n
    ensures TwoTo(m) <= TwoTo(n)
    decreases n
  {
    if m < n {
      TwoToGrows(m, n - 1);
    }
  }

  /** The exact shape of the coverage child's answer. */
  predicate CoverageAnswer(j: Json, threshold: Json) {
    && CoverageCounts(j)
    && IsNumber(j.fields[BranchCoveragePercent]) && 0.0 <= Number(j.fields[BranchCoveragePercent]) <= 100.0
    && IsClose(Number(j.fields[BranchCoveragePercent]),
               100.0 * (j.fields[CoveredBranchCount].n as real) / (j.fields[BranchCount].n as real))
    && Number(threshold) <= Number(j.fields[BranchCoveragePercent])
    && IsHex(j.fields[PytestStdoutSha256]) && IsHex(j.fields[PytestStderrSha256])
  }

  predicate PytestGood(pytest: Json, threshold: Json) {
    && PytestOk(pytest)
    && 0 < pytest.fields[TestCount].n && 0 < pytest.fields[BranchCount].n
    && Number(threshold) <= Number(pytest.fields[BranchCoveragePercent])
  }

  method RunCoverage(env: Environment, trace: Trace, freeze: Freeze, before: Json)
    returns (turn: Turn, t: Trace, pytest: Json)
    requires PytestOk(before)
    ensures Extends(trace, t, 10) && Decided(env, freeze, PYTEST_COVERAGE, trace, turn, t) && PytestOk(pytest)
    ensures Passes(turn) ==> PytestGood(pytest, freeze.threshold)
    ensures OnTrack(env, trace, PYTEST_COVERAGE) && Passes(turn) ==> PytestTrue(env, pytest)
    ensures !Passes(turn) ==> pytest == before
  {
    var result;
    result, t := SafeExecute(env, trace, CoverageRun);
    turn, pytest := CoverageTurn(result, freeze.threshold), before;
    if Passes(turn) {
      CoverageIsGood(result.stdout.json.value, freeze.threshold);
      pytest := CoverageSummary(result.stdout.json.value);
    }
    if OnTrack(env, trace, PYTEST_COVERAGE) {
      CoverageIsDecided(env, freeze, result, turn);
    }
  }

  /** How the coverage gate takes its child's answer. */
  function CoverageTurn(result: CommandResult, threshold: Json): Turn {
    var json := result.stdout.json;
    if json.ParseRaises? || (json.Parsed? && PercentRaises(json.value)) then Escapes
    else if result.exitCode != 0 || !json.Parsed? || !CoverageAnswer(json.value, threshold) then Result(Failed(result))
    else Result(result)
  }

  lemma {:induction false} CoverageIsDecided(env: Environment, freeze: Freeze, result: CommandResult, turn: Turn)
    requires result == Received(env, Offset(PYTEST_COVERAGE), CoverageRun)
    requires turn == CoverageTurn(result, freeze.threshold)
    ensures turn.Escapes? <==> GateRaises(env, freeze, PYTEST_COVERAGE)
    ensures Passes(turn) <==> GateGood(env, freeze, PYTEST_COVERAGE)
    ensures Passes(turn) ==> turn.result == Answered(env, PYTEST_COVERAGE)
    ensures turn.Result? ==> turn.result.stdout == GateOutput(env, freeze, PYTEST_COVERAGE)
  {
    var json := result.stdout.json;
    if json.Parsed? && CoverageAnswer(json.value, freeze.threshold) {
      ValidPercentFits(json.value, freeze.threshold);
    }
  }

  /** The summary of a coverage answer: the same fields without the schema version. */
  function CoverageSummary(answer: Json): Json {
    JObj(map[
      BranchCount := Lookup(answer, BranchCount), BranchCoveragePercent := Lookup(answer, BranchCoveragePercent),
      CoveredBranchCount := Lookup(answer, CoveredBranchCount),
      PytestStderrSha256 := Lookup(answer, PytestStderrSha256),
      PytestStdoutSha256 := Lookup(answer, PytestStdoutSha256), TestCount := Lookup(answer, TestCount)])
  }

  lemma {:induction false} CoverageSummaryFields(answer: Json)
    ensures var fields := CoverageSummary(answer).fields;
            && fields.Keys == {BranchCount, BranchCoveragePercent, CoveredBranchCount, PytestStderrSha256,
                               PytestStdoutSha256, TestCount}
            && forall k | k in fields :: fields[k] == Lookup(answer, k)
  {
  }

  lemma {:induction false} CoverageIsGood(answer: Json, threshold: Json)
    requires CoverageAnswer(answer, threshold)
    ensures PytestGood(CoverageSummary(answer), threshold)
    ensures forall k | k in CoverageSummary(answer).fields :: CoverageSummary(answer).fields[k] == Lookup(answer, k)
  {
    CoverageSummaryFields(answer);
  }

  predicate ScanGood(scan: Scan) {
    scan.findings == 0 && 0 < scan.targets
  }

  /** One operation of the temporary store; it may raise `OSError`. */
  method StoreOp(env: Environment, trace: Trace, action: StoreAction) returns (failed: bool, t: Trace)
    ensures t == trace.(stores := trace.stores + [action])
    ensures failed == env.storeFails(|trace.stores|)
  {
    return env.storeFails(|trace.stores|), trace.(stores := trace.stores + [action]);
  }

  /** Between two moments at most the two temporary entries of the audit were created, in their order. */
  predicate Created(before: Trace, after: Trace) {
    && before.stores <= after.stores
    && after.stores[|before.stores|..] <= [WriteRequirements, CreateAuditCache]
  }

  /** And after that the removal of both was attempted. */
  predicate CreatedAndRemoved(before: Trace, after: Trace) {
    && |before.stores| + 2 <= |after.stores|
    && Created(before, after.(stores := after.stores[..|after.stores| - 2]))
    && after.stores[|after.stores| - 2..] == [RemoveRequirements, RemoveAuditCache]
  }

  /** The export, the two temporary entries and the audit itself. */
  method ExportAndAudit(env: Environment, trace: Trace, ghost freeze: Freeze)
    returns (result: CommandResult, t: Trace)
    ensures Extends(trace, t, 5)
    ensures result.exitCode == 0 <==>
              && Succeeds(env, |trace.commands|, UvExport) && Printed(env, |trace.commands|).bytes != ""
              && !env.storeFails(|trace.stores|) && !env.storeFails(|trace.stores| + 1)
              && Succeeds(env, |trace.commands| + 1, PipAuditRun)
    ensures result.exitCode == 0 ==>
              && result == env.executor(|trace.commands| + 1).result
              && |t.commands| == |trace.commands| + 2 && |t.stores| == |trace.stores| + 2
    ensures Created(trace, t)
    ensures t.digestReads == trace.digestReads
    ensures OnTrack(env, trace, PIP_AUDIT) ==> result.stdout == ParsedBy(env, freeze, PIP_AUDIT)
  {
    result, t := SafeExecute(env, trace, UvExport);
    if result.exitCode != 0 || result.stdout.bytes == "" {
      return CommandResult(1, result.stdout, if result.stderr != "" then result.stderr else "empty-export"), t;
    }
    var failed;
    failed, t := StoreOp(env, t, WriteRequirements);
    if !failed {
      failed, t := StoreOp(env, t, CreateAuditCache);
    }
    if failed {
      return CommandResult(1, result.stdout, "OSError"), t;
    }
    result, t := SafeExecute(env, t, PipAuditRun);
  }

  method RunPipAudit(env: Environment, trace: Trace, freeze: Freeze) returns (turn: Turn, t: Trace, scan: Scan)
    ensures Extends(trace, t, 5) && Decided(env, freeze, PIP_AUDIT, trace, turn, t) && CreatedAndRemoved(trace, t)
    ensures Passes(turn) ==> ScanGood(scan)
    ensures OnTrack(env, trace, PIP_AUDIT) && Passes(turn) ==> scan == ScanOf(env, PIP_AUDIT)
    ensures OnTrack(env, trace, PIP_AUDIT) && turn.Result? ==> scan == ScanSeen(env, freeze, PIP_AUDIT)
  {
    var result;
    result, t := ExportAndAudit(env, trace, freeze);
    ghost var audited := t;
    // Both removals are attempted whatever happened.
    var unlinkFailed, removeFailed;
    unlinkFailed, t := StoreOp(env, t, RemoveRequirements);
    removeFailed, t := StoreOp(env, t, RemoveAuditCache);
    assert t.stores[..|t.stores| - 2] == audited.stores;
    if unlinkFailed || removeFailed {
      result := CommandResult(1, result.stdout, if result.stderr != "" then result.stderr else "OSError");
    }
    turn, scan := Judge(result, AuditSurface(result.stdout.json));
  }

  /** The end of every scanner gate: an error that escapes, or the judged result and what was found. */
  method Judge(result: CommandResult, surface: Surface) returns (turn: Turn, scan: Scan)
    ensures turn.Escapes? <==> surface.SurfaceRaises?
    ensures Passes(turn) <==> result.exitCode == 0 && CleanSurface(surface)
    ensures Passes(turn) ==> turn.result == result
    ensures turn.Result? ==> turn.result.stdout == result.stdout
    ensures turn.Result? && !Passes(turn) ==>
              && turn.result.exitCode == 1
              && (result.stderr != "" ==> turn.result.stderr == result.stderr)
              && (result.stderr == "" ==>
                    turn.result.stderr == if scan.findings > 0 then "findings-present" else "invalid-scanner-json")
    ensures scan == ScanIn(surface)
  {
    if surface.SurfaceRaises? {
      return Escapes, Scan(0, 0);
    }
    return Result(Judged(result, surface.valid, surface.scan)), surface.scan;
  }

  /** Whether the scanner cache no longer has the frozen digest, or cannot be read. */
  method CacheChanged(env: Environment, trace: Trace, frozen: Sha) returns (changed: bool, t: Trace)
    ensures t == trace.(digestReads := trace.digestReads + if env.cacheDigest.Some? then 1 else 0)
    ensures changed <==> !CacheFrozen(env, trace.digestReads, frozen)
  {
    if env.cacheDigest.None? {
      return false, trace;
    }
    var reply := env.cacheDigest.value(trace.digestReads);
    return reply != Digest(Ref(frozen)), trace.(digestReads := trace.digestReads + 1);
  }

  method RunTrivy(env: Environment, trace: Trace, freeze: Freeze, gate: Gate)
    returns (turn: Turn, t: Trace, scan: Scan)
    requires gate in {TRIVY_FS, TRIVY_IMAGE}
    ensures Extends(trace, t, gate) && Decided(env, freeze, gate, trace, turn, t)
    ensures Passes(turn) ==> ScanGood(scan)
    ensures OnTrack(env, trace, gate) && Passes(turn) ==> scan == ScanOf(env, gate)
    ensures OnTrack(env, trace, gate) && turn.Result? ==> scan == ScanSeen(env, freeze, gate)
  {
    var changed, result;
    changed, t := CacheChanged(env, trace, freeze.scannerDb);
    if changed {
      result := CommandResult(1, NO_OUTPUT, "scanner-cache-digest-mismatch");
    } else {
      result, t := SafeExecute(env, t, GateCommand(gate));
      changed, t := CacheChanged(env, t, freeze.scannerDb);
      if changed {
        result := CommandResult(1, result.stdout, "scanner-cache-digest-mismatch");
      }
    }
    var surface := ScannerSummary(result.stdout.json);
    turn, scan := Judge(result, surface);
  }

  method RunGitleaks(env: Environment, trace: Trace, freeze: Freeze) returns (turn: Turn, t: Trace, scan: Scan)
    ensures Extends(trace, t, 4) && Decided(env, freeze, GITLEAKS, trace, turn, t)
    ensures Passes(turn) ==> ScanGood(scan)
    ensures OnTrack(env, trace, GITLEAKS) && Passes(turn) ==> scan == ScanOf(env, GITLEAKS)
    ensures OnTrack(env, trace, GITLEAKS) && turn.Result? ==> scan == ScanSeen(env, freeze, GITLEAKS)
  {
    var result;
    result, t := SafeExecute(env, trace, GateCommand(GITLEAKS));
    turn, scan := Judge(result, LeaksSurface(result.stdout.json));
  }

  // ---------------------------------------------------------------- the run

  function EmptyPytest(): (pytest: Json)
    ensures PytestOk(pytest)
  {
    var fields := map[
      BranchCount := JInt(0), BranchCoveragePercent := JReal(0.0), CoveredBranchCount := JInt(0),
      PytestStderrSha256 := JStr(Hex(Sha256(""))), PytestStdoutSha256 := JStr(Hex(Sha256(""))), TestCount := JInt(0)];
    assert fields.Keys ==
           {BranchCount, BranchCoveragePercent, CoveredBranchCount, PytestStderrSha256, PytestStdoutSha256, TestCount};
    JObj(fields)
  }

  const NO_SCANS: map<Gate, Scan> :=
    map[GITLEAKS := Scan(0, 1), PIP_AUDIT := Scan(0, 0), TRIVY_FS := Scan(0, 0), TRIVY_IMAGE := Scan(0, 0)]

  predicate SummariesOk(s: Summaries) {
    PytestOk(s.pytest) && s.scanners.Keys == SCANNERS
  }

  /** The summary a passed gate leaves behind. */
  predicate SummaryGood(gate: Gate, s: Summaries, threshold: Json) {
    && (gate in SCANNERS ==> gate in s.scanners && ScanGood(s.scanners[gate]))
    && (gate == PYTEST_COVERAGE ==> PytestGood(s.pytest, threshold))
  }

  /** A gate leaves every other gate's summary alone. */
  predicate OthersKept(gate: Gate, before: Summaries, after: Summaries) {
    && before.scanners.Keys == after.scanners.Keys
    && (forall s | s in before.scanners && s != gate :: after.scanners[s] == before.scanners[s])
    && (gate != PYTEST_COVERAGE ==> after.pytest == before.pytest)
  }

  method RunScanner(env: Environment, trace: Trace, freeze: Freeze, gate: Gate)
    returns (turn: Turn, t: Trace, scan: Scan)
    requires gate in SCANNERS
    ensures Extends(trace, t, gate) && Decided(env, freeze, gate, trace, turn, t)
    ensures Passes(turn) ==> ScanGood(scan)
    ensures OnTrack(env, trace, gate) && Passes(turn) ==> scan == ScanOf(env, gate)
    ensures OnTrack(env, trace, gate) && turn.Result? ==> scan == ScanSeen(env, freeze, gate)
  {
    if gate == PIP_AUDIT {
      turn, t, scan := RunPipAudit(env, trace, freeze);
    } else if gate == GITLEAKS {
      turn, t, scan := RunGitleaks(env, trace, freeze);
    } else {
      turn, t, scan := RunTrivy(env, trace, freeze, gate);
    }
  }

  /** One gate of the loop. */
  method RunGate(env: Environment, trace: Trace, freeze: Freeze, gate: Gate, before: Summaries)
    returns (turn: Turn, t: Trace, after: Summaries)
    requires gate < 11 && SummariesOk(before)
    ensures Extends(trace, t, gate) && Decided(env, freeze, gate, trace, turn, t)
    ensures SummariesOk(after) && OthersKept(gate, before, after)
    ensures Passes(turn) ==> SummaryGood(gate, after, freeze.threshold)
    ensures OnTrack(env, trace, gate) && Passes(turn) ==> SummaryTrue(env, gate, after)
    ensures OnTrack(env, trace, gate) && turn.Result? ==> SummarySeen(env, freeze, gate, after)
    ensures !Passes(turn) ==> after.pytest == before.pytest
    ensures gate == COMPOSE_START ==> |trace.commands| < |t.commands|
  {
    after := before;
    if gate == IMAGE_IDENTITY {
      var result;
      result, t := RunImageIdentity(env, trace, freeze);
      turn := Result(result);
    } else if gate == PYTEST_COVERAGE {
      var pytest;
      turn, t, pytest := RunCoverage(env, trace, freeze, before.pytest);
      after := before.(pytest := pytest);
    } else if gate in SCANNERS {
      var scan;
      turn, t, scan := RunScanner(env, trace, freeze, gate);
      if turn.Result? {
        after := before.(scanners := before.scanners[gate := scan]);
      }
    } else {
      var result;
      result, t := SafeExecute(env, trace, GateCommand(gate));
      turn := Result(result);
    }
  }

  // ---------------------------------------------------------------- the report

  function FrozenJson(f: Freeze): Json {
    JObj(map[CoverageThreshold := f.threshold, ImageId := JStr(Ref(f.imageId)),
             ScannerDbDigest := JStr(Ref(f.scannerDb)), ToolVersions := JObj(f.versions)])
  }

  function ScanJson(scan: Scan): Json {
    JObj(map[Findings := JInt(scan.findings), Targets := JInt(scan.targets)])
  }

  function ScannersJson(scanners: map<Gate, Scan>): Json {
    JObj(map g | g in scanners :: Of(g) := ScanJson(scanners[g]))
  }

  function SummaryJson(s: Summaries): (j: Json)
    ensures Has(j, {Pytest, Scanners})
  {
    JObj(map[Pytest := s.pytest, Scanners := ScannersJson(s.scanners)])
  }

  function Document(order: Json, gates: Json, frozen: Json, version: Json, status: Json, summary: Json): Json {
    JObj(map[GateOrder := order, Gates := gates, Frozen := frozen, SchemaVersion := version, Status := status,
             Summary := summary])
  }

  lemma {:induction false} DocumentFields(
    order: Json, gates: Json, frozen: Json, version: Json, status: Json, summary: Json)
    ensures var fields := Document(order, gates, frozen, version, status, summary).fields;
            && fields.Keys == {Frozen, GateOrder, Gates, SchemaVersion, Status, Summary}
            && fields[GateOrder] == order && fields[Gates] == gates && fields[Frozen] == frozen
            && fields[SchemaVersion] == version && fields[Status] == status && fields[Summary] == summary
  {
  }

  function Render(freeze: Freeze, gates: map<Name, Json>, status: Name, s: Summaries): Json {
    Document(OrderJson(), JObj(gates), FrozenJson(freeze), JInt(2), JStr(Word(status)), SummaryJson(s))
  }

  lemma {:induction false} RenderedFrozen(f: Freeze)
    requires FreezeOk(f)
    ensures FrozenOk(FrozenJson(f))
  {
    assert FrozenJson(f).fields.Keys == {CoverageThreshold, ImageId, ScannerDbDigest, ToolVersions};
  }

  lemma {:induction false} RenderedScanners(scanners: map<Gate, Scan>)
    requires scanners.Keys == SCANNERS
    ensures ScannersOk(ScannersJson(scanners))
    ensures forall g | g in SCANNERS :: ScannersJson(scanners).fields[Of(g)] == ScanJson(scanners[g])
  {
    forall g | g in scanners
      ensures ScanOk(ScanJson(scanners[g]))
    {
      assert ScanJson(scanners[g]).fields.Keys == {Findings, Targets};
    }
  }

  function PartsFor(freeze: Freeze, gates: map<Name, Json>, status: Name, s: Summaries): Parts {
    Parts(status, gates, FrozenJson(freeze), s.pytest, ScannersJson(s.scanners))
  }

  /** A report assembled from well-formed parts passes every check of its parts. */
  lemma {:induction false} AssembledPartsAreValid(
    freeze: Freeze, gates: map<Name, Json>, status: Name, s: Summaries, failed: bool)
    requires FreezeOk(freeze) && SummariesFit(s, failed, freeze.threshold)
    requires status in {GatesPassed, HonestNegative} && GatesOk(status, gates)
    requires status == GatesPassed ==> !failed
    ensures ValidParts(PartsFor(freeze, gates, status, s))
  {
    RenderedFrozen(freeze);
    SummariesAreOk(s, failed, freeze.threshold);
    FrozenParts(freeze);
  }

  lemma {:induction false} FrozenParts(f: Freeze)
    ensures FrozenJson(f).fields[CoverageThreshold] == f.threshold
    ensures FrozenJson(f).fields[ToolVersions] == JObj(f.versions)
  {
  }

  lemma {:induction false} SummariesAreOk(s: Summaries, failed: bool, threshold: Json)
    requires SummariesFit(s, failed, threshold)
    ensures ScannersOk(ScannersJson(s.scanners))
    ensures !failed ==> SuccessOk(threshold, s.pytest, ScannersJson(s.scanners))
  {
    RenderedScanners(s.scanners);
  }

  lemma {:induction false} RenderedParts(freeze: Freeze, gates: map<Name, Json>, status: Name, s: Summaries)
    ensures PartsOf(Render(freeze, gates, status, s)) == Some(PartsFor(freeze, gates, status, s))
  {
    DocumentFields(OrderJson(), JObj(gates), FrozenJson(freeze), JInt(2), JStr(Word(status)), SummaryJson(s));
    RenderedSummary(s);
    PartsOfFields(Render(freeze, gates, status, s), freeze, gates, status, s);
  }

  lemma {:induction false} RenderedSummary(s: Summaries)
    ensures SummaryJson(s).fields[Pytest] == s.pytest && SummaryJson(s).fields[Scanners] == ScannersJson(s.scanners)
  {
  }

  lemma {:induction false} PartsOfFields(
    report: Json, freeze: Freeze, gates: map<Name, Json>, status: Name, s: Summaries)
    requires Has(report, {Frozen, GateOrder, Gates, SchemaVersion, Status, Summary})
    requires report.fields[GateOrder] == OrderJson() && report.fields[SchemaVersion] == JInt(2)
    requires report.fields[Gates] == JObj(gates) && report.fields[Frozen] == FrozenJson(freeze)
    requires report.fields[Status] == JStr(Word(status))
    requires Has(report.fields[Summary], {Pytest, Scanners})
    requires report.fields[Summary].fields[Pytest] == s.pytest
    requires report.fields[Summary].fields[Scanners] == ScannersJson(s.scanners)
    ensures PartsOf(report) == Some(PartsFor(freeze, gates, status, s))
  {
  }

  // ---------------------------------------------------------------- the loop over the gates

  /** The status a recorded gate has once the first failure, if any, is known. */
  function StatusAt(k: nat, failed: bool, f: nat): Name {
    if !failed || k < f then Pass else if k == f then Fail else NotRun
  }

  /** The gates recorded after `i` turns of the loop. */
  ghost predicate Recorded(gates: map<Name, Json>, i: nat, failed: bool, f: nat) {
    && (forall n | n in gates :: n.Of? && n.gate < i && GateRecordOk(gates[n]))
    && (forall g: Gate | g < i :: Of(g) in gates && StatusOf(gates, g) == StatusAt(g, failed, f))
  }

  const NOT_RUN: Json := JObj(map[Status := JStr(Word(NotRun))])
  const NOT_NEEDED: Json := JObj(map[Status := JStr(Word(NotNeeded))])

  lemma {:induction false} RecordOne(
    gates: map<Name, Json>, gate: Gate, failed: bool, f: nat, record: Json, failed': bool, f': nat)
    requires Recorded(gates, gate, failed, f) && GateRecordOk(record)
    requires if failed then failed' && f' == f && f < gate else !failed' || f' == gate
    requires WordOf(record.fields[Status]) == StatusAt(gate, failed', f')
    ensures Recorded(gates[Of(gate) := record], gate + 1, failed', f')
  {
    var next := gates[Of(gate) := record];
    forall g: Gate | g < gate + 1
      ensures Of(g) in next && StatusOf(next, g) == StatusAt(g, failed', f')
    {
    }
  }

  /** The recorded gates and the cleanup's record form a valid gate table. */
  lemma {:induction false} RecordedIsOk(gates: map<Name, Json>, failed: bool, f: nat, cleanup: Json, status: Name)
    requires Recorded(gates, 11, failed, f) && (failed ==> f < 11)
    requires GateRecordOk(cleanup)
    requires var c := WordOf(cleanup.fields[Status]);
             && (if failed && f < 8 then c == NotNeeded else c in {Pass, Fail})
             && status == if !failed && c == Pass then GatesPassed else HonestNegative
    ensures GatesOk(status, gates[Of(COMPOSE_CLEANUP) := cleanup])
  {
    var all := gates[Of(COMPOSE_CLEANUP) := cleanup];
    AllGatesRecorded(gates, failed, f, cleanup);
    AllStatusesRecorded(gates, failed, f, cleanup);
    StatusesFit(Statuses(all), failed, f, status);
  }

  lemma {:induction false} AllGatesRecorded(gates: map<Name, Json>, failed: bool, f: nat, cleanup: Json)
    requires Recorded(gates, 11, failed, f) && GateRecordOk(cleanup)
    ensures var all := gates[Of(COMPOSE_CLEANUP) := cleanup];
            all.Keys == GATE_KEYS && forall n | n in all :: GateRecordOk(all[n])
  {
    assert forall n :: n in gates[Of(COMPOSE_CLEANUP) := cleanup] <==> n in GATE_KEYS;
  }

  lemma {:induction false} AllStatusesRecorded(gates: map<Name, Json>, failed: bool, f: nat, cleanup: Json)
    requires Recorded(gates, 11, failed, f) && GateRecordOk(cleanup)
    ensures var s := Statuses(gates[Of(COMPOSE_CLEANUP) := cleanup]);
            (forall g: nat | g < 11 :: s[g] == StatusAt(g, failed, f)) && s[11] == WordOf(cleanup.fields[Status])
  {
    forall g: nat | g < 11
      ensures StatusOf(gates[Of(COMPOSE_CLEANUP) := cleanup], g) == StatusAt(g, failed, f)
    {
      OtherStatusKept(gates, COMPOSE_CLEANUP, cleanup, g);
    }
    assert StatusOf(gates[Of(COMPOSE_CLEANUP) := cleanup], COMPOSE_CLEANUP) == WordOf(cleanup.fields[Status]);
  }

  lemma {:induction false} OtherStatusKept(gates: map<Name, Json>, gate: Gate, record: Json, g: Gate)
    requires g != gate
    ensures StatusOf(gates[Of(gate) := record], g) == StatusOf(gates, g)
  {
  }

  lemma {:induction false} StatusesFit(s: seq<Name>, failed: bool, f: nat, status: Name)
    requires |s| == 12 && (failed ==> f < 11)
    requires forall g: nat | g < 11 :: s[g] == StatusAt(g, failed, f)
    requires if failed && f < 8 then s[11] == NotNeeded else s[11] in {Pass, Fail}
    requires status == if !failed && s[11] == Pass then GatesPassed else HonestNegative
    ensures StatusesOk(status, s)
  {
    if failed {
      assert s[f] == Fail;
    } else if s[11] == Pass {
      assert forall g: nat | g < 12 :: s[g] == Pass;
    } else {
      assert s[11] == Fail;
    }
    forall first | FirstFailure(s, first)
      ensures FailureShapeOk(s, first)
    {
      assert first == if failed then f else 11;
    }
  }

  // ---------------------------------------------------------------- the run

  /** What the loop has established after `i` gates; `f` is the first failed gate once one has failed. */
  ghost predicate LoopFits(i: nat, failed: bool, f: nat, attempted: bool, trace: Trace, s: Summaries, threshold: Json) {
    && (failed ==> f < i)
    && SummariesOk(s)
    && (!failed ==> forall g: Gate | g < i :: SummaryGood(g, s, threshold))
    && (attempted <==> if failed then COMPOSE_START <= f else COMPOSE_START < i)
    && Increasing(trace.commands)
    && (forall c | c in trace.commands :: if failed then Stage(c) <= f else Stage(c) < i)
    && (attempted ==> exists c :: c in trace.commands && Stage(c) == COMPOSE_START)
  }

  /** The first failed gate is the first that is not good, and did not escape; while none failed the run is on track. */
  ghost predicate LoopFaithful(env: Environment, freeze: Freeze, i: nat, failed: bool, f: nat, trace: Trace) {
    && (forall g: Gate | g < i && (failed ==> g < f) :: GateGood(env, freeze, g))
    && (failed ==> f < 11 && !GateGood(env, freeze, f) && !GateRaises(env, freeze, f))
    && (!failed ==> OnTrack(env, trace, i))
  }

  /** The record and the summary of every passed gate repeat the answer to its last command. */
  ghost predicate PassedTold(env: Environment, i: nat, failed: bool, f: nat, gates: map<Name, Json>, s: Summaries) {
    forall g: Gate | g < i && (failed ==> g < f) :: GateTold(env, g, gates, s)
  }

  predicate GateTold(env: Environment, g: Gate, gates: map<Name, Json>, s: Summaries) {
    Of(g) in gates && gates[Of(g)] == Record(Answered(env, g)) && SummaryTrue(env, g, s)
  }

  /** A gate's turn adds what it tells and leaves what the gates before it told. */
  lemma {:induction false} TurnKeepsTold(
    env: Environment, freeze: Freeze, gate: Gate, gates: map<Name, Json>, before: Summaries, ran: Trace,
    result: CommandResult, trace: Trace, after: Summaries, f: nat, f': nat)
    requires gate < 11 && PassedTold(env, gate, false, f, gates, before) && OnTrack(env, ran, gate)
    requires Decided(env, freeze, gate, ran, Result(result), trace) && OthersKept(gate, before, after)
    requires result.exitCode == 0 ==> SummaryTrue(env, gate, after)
    requires f' == if result.exitCode != 0 then gate else f
    ensures PassedTold(env, gate + 1, result.exitCode != 0, f', gates[Of(gate) := Record(result)], after)
  {
    var next := gates[Of(gate) := Record(result)];
    forall g: Gate | g < gate + 1 && (result.exitCode != 0 ==> g < f')
      ensures GateTold(env, g, next, after)
    {
      assert g < gate ==> GateTold(env, g, gates, before);
    }
  }

  lemma {:induction false} NotRunKeepsTold(env: Environment, gate: Gate, f: nat, gates: map<Name, Json>, s: Summaries)
    requires f < gate && PassedTold(env, gate, true, f, gates, s)
    ensures PassedTold(env, gate + 1, true, f, gates[Of(gate) := NOT_RUN], s)
  {
    var next := gates[Of(gate) := NOT_RUN];
    forall g: Gate | g < f
      ensures GateTold(env, g, next, s)
    {
      assert GateTold(env, g, gates, s);
    }
  }

  /** The summaries of gates that have not run are the ones the run starts with. */
  predicate Untouched(from: nat, s: Summaries) {
    && (forall g | g in SCANNERS && from <= g :: g in s.scanners && s.scanners[g] == NO_SCANS[g])
    && (from <= PYTEST_COVERAGE ==> s.pytest == EmptyPytest())
  }

  /** The record states the digest of the output. */
  predicate StatesOutput(gates: map<Name, Json>, gate: Gate, output: Output) {
    && Of(gate) in gates && gates[Of(gate)].JObj? && StdoutSha256 in gates[Of(gate)].fields
    && gates[Of(gate)].fields[StdoutSha256] == JStr(Hex(Sha256(output.bytes)))
  }

  /** The first failed gate's record and summary tell its output; those after it tell nothing. */
  ghost predicate FailureTold(
    env: Environment, freeze: Freeze, i: nat, failed: bool, f: nat, gates: map<Name, Json>, s: Summaries)
  {
    if failed then
      && f < i <= 11 && StatesOutput(gates, f, GateOutput(env, freeze, f)) && SummarySeen(env, freeze, f, s)
      && Untouched(f + 1, s) && s.pytest == EmptyPytest()
    else Untouched(i, s)
  }

  lemma {:induction false} TurnKeepsFailure(
    env: Environment, freeze: Freeze, gate: Gate, gates: map<Name, Json>, before: Summaries, ran: Trace,
    result: CommandResult, trace: Trace, after: Summaries, f: nat, f': nat)
    requires gate < 11 && FailureTold(env, freeze, gate, false, f, gates, before) && OnTrack(env, ran, gate)
    requires Decided(env, freeze, gate, ran, Result(result), trace) && OthersKept(gate, before, after)
    requires SummarySeen(env, freeze, gate, after) && (result.exitCode != 0 ==> after.pytest == before.pytest)
    requires f' == if result.exitCode != 0 then gate else f
    ensures FailureTold(env, freeze, gate + 1, result.exitCode != 0, f', gates[Of(gate) := Record(result)], after)
  {
  }

  lemma {:induction false} NotRunKeepsFailure(
    env: Environment, freeze: Freeze, gate: Gate, f: nat, gates: map<Name, Json>, s: Summaries)
    requires f < gate < 11 && FailureTold(env, freeze, gate, true, f, gates, s)
    ensures FailureTold(env, freeze, gate + 1, true, f, gates[Of(gate) := NOT_RUN], s)
  {
  }

  /** The variables of the loop. */
  datatype Progress = Progress(
    gates: map<Name, Json>, summaries: Summaries, failed: bool, trace: Trace, attempted: bool)

  ghost predicate Progressed(env: Environment, freeze: Freeze, i: nat, p: Progress, f: nat) {
    LoopInv(env, freeze, i, p.gates, p.failed, f, p.attempted, p.trace, p.summaries)
  }

  ghost predicate Escaping(env: Environment, freeze: Freeze, f: nat, p: Progress) {
    && f < 11 && FirstBad(env, freeze, f) && GateRaises(env, freeze, f)
    && LoopFits(f + 1, true, f, p.attempted, p.trace, p.summaries, freeze.threshold)
  }

  /** The turns of the loop; `f` is the gate that failed first or escaped, if any did. */
  method RunLoop(env: Environment, freeze: Freeze) returns (end: Progress, escaped: bool, ghost f: nat)
    ensures if escaped then Escaping(env, freeze, f, end) else Progressed(env, freeze, 11, end, f)
  {
    end, escaped, f := LoopStart(), false, 0;
    LoopStarts(env, freeze);
    for gate := 0 to 11
      invariant Progressed(env, freeze, gate, end, f)
    {
      end, escaped, f := TakeTurn(env, freeze, gate, end, f);
      if escaped {
        return;
      }
    }
    escaped := false;
  }

  function LoopStart(): Progress {
    Progress(map[], Summaries(EmptyPytest(), NO_SCANS), false, Trace([], [], 0), false)
  }

  lemma {:induction false} LoopStarts(env: Environment, freeze: Freeze)
    ensures Progressed(env, freeze, 0, LoopStart(), 0)
  {
  }

  /** One turn: a gate after the first failure is not run. */
  method TakeTurn(env: Environment, freeze: Freeze, gate: Gate, p: Progress, ghost f: nat)
    returns (next: Progress, escaped: bool, ghost f': nat)
    requires gate < 11 && Progressed(env, freeze, gate, p, f)
    ensures if escaped then Escaping(env, freeze, f', next) else Progressed(env, freeze, gate + 1, next, f')
  {
    if p.failed {
      SkippedKeepsAll(env, freeze, gate, p.gates, p.trace, p.summaries, p.attempted, f);
      return p.(gates := p.gates[Of(gate) := NOT_RUN]), false, f;
    }
    next, escaped, f' := RunTurn(env, freeze, gate, p, f);
  }

  /** A turn while no gate has failed. */
  method RunTurn(env: Environment, freeze: Freeze, gate: Gate, p: Progress, ghost f: nat)
    returns (next: Progress, escaped: bool, ghost f': nat)
    requires gate < 11 && !p.failed && Progressed(env, freeze, gate, p, f)
    ensures if escaped then Escaping(env, freeze, f', next) else Progressed(env, freeze, gate + 1, next, f')
  {
    var attempted := p.attempted;
    if gate == COMPOSE_START {
      attempted := true;
    }
    var turn, trace, after := RunGate(env, p.trace, freeze, gate, p.summaries);
    if turn.Escapes? {
      EscapedTurn(env, freeze, gate, p.gates, p.summaries, p.trace, trace, after, attempted, f);
      return p.(trace := trace, summaries := after, attempted := attempted), true, gate;
    }
    TurnKeepsAll(env, freeze, gate, p.gates, p.summaries, p.trace, turn.result, trace, after, attempted, f);
    var failed := turn.result.exitCode != 0;
    f' := if failed then gate else f;
    return Progress(p.gates[Of(gate) := Record(turn.result)], after, failed, trace, attempted), false, f';
  }

  /** A turn whose gate escapes. */
  lemma {:induction false} EscapedTurn(
    env: Environment, freeze: Freeze, gate: Gate, gates: map<Name, Json>, before: Summaries, ran: Trace,
    trace: Trace, after: Summaries, attempted: bool, f: nat)
    requires gate < 11 && LoopInv(env, freeze, gate, gates, false, f, attempted && gate != COMPOSE_START, ran, before)
    requires attempted <==> COMPOSE_START <= gate
    requires Extends(ran, trace, gate) && Decided(env, freeze, gate, ran, Escapes, trace)
    requires SummariesOk(after) && OthersKept(gate, before, after)
    requires gate == COMPOSE_START ==> |ran.commands| < |trace.commands|
    ensures FirstBad(env, freeze, gate) && GateRaises(env, freeze, gate)
    ensures LoopFits(gate + 1, true, gate, attempted, trace, after, freeze.threshold)
  {
    GateKeepsLoop(gate, ran, trace, before, after, attempted, true, f, gate, freeze.threshold);
  }

  /** The first gate that is not good. */
  predicate FirstBad(env: Environment, freeze: Freeze, f: int) {
    0 <= f < 11 && !GateGood(env, freeze, f) && forall h: Gate | h < f :: GateGood(env, freeze, h)
  }

  ghost predicate LoopInv(
    env: Environment, freeze: Freeze, i: nat, gates: map<Name, Json>, failed: bool, f: nat, attempted: bool,
    trace: Trace, s: Summaries)
  {
    && Recorded(gates, i, failed, f) && LoopFits(i, failed, f, attempted, trace, s, freeze.threshold)
    && LoopFaithful(env, freeze, i, failed, f, trace) && PassedTold(env, i, failed, f, gates, s)
    && FailureTold(env, freeze, i, failed, f, gates, s)
  }

  /** A turn that runs its gate. */
  lemma {:induction false} TurnKeepsAll(
    env: Environment, freeze: Freeze, gate: Gate, gates: map<Name, Json>, before: Summaries, ran: Trace,
    result: CommandResult, trace: Trace, after: Summaries, attempted: bool, f: nat)
    requires gate < 11 && LoopInv(env, freeze, gate, gates, false, f, attempted && gate != COMPOSE_START, ran, before)
    requires attempted <==> COMPOSE_START <= gate
    requires Extends(ran, trace, gate) && Decided(env, freeze, gate, ran, Result(result), trace)
    requires SummariesOk(after) && OthersKept(gate, before, after)
    requires result.exitCode == 0 ==> SummaryGood(gate, after, freeze.threshold)
    requires OnTrack(env, ran, gate) && result.exitCode == 0 ==> SummaryTrue(env, gate, after)
    requires OnTrack(env, ran, gate) ==> SummarySeen(env, freeze, gate, after)
    requires result.exitCode != 0 ==> after.pytest == before.pytest
    requires gate == COMPOSE_START ==> |ran.commands| < |trace.commands|
    ensures var failed := result.exitCode != 0;
            LoopInv(env, freeze, gate + 1, gates[Of(gate) := Record(result)], failed, if failed then gate else f,
                    attempted, trace, after)
  {
    var failed := result.exitCode != 0;
    var f' := if failed then gate else f;
    RecordOne(gates, gate, false, f, Record(result), failed, f');
    GateKeepsLoop(gate, ran, trace, before, after, attempted, failed, f, f', freeze.threshold);
    GateKeepsFaith(env, freeze, gate, ran, result, trace, f, f');
    TurnKeepsTold(env, freeze, gate, gates, before, ran, result, trace, after, f, f');
    TurnKeepsFailure(env, freeze, gate, gates, before, ran, result, trace, after, f, f');
  }

  /** A turn after the first failure. */
  lemma {:induction false} SkippedKeepsAll(
    env: Environment, freeze: Freeze, gate: Gate, gates: map<Name, Json>, trace: Trace, s: Summaries, attempted: bool,
    f: nat)
    requires gate < 11 && LoopInv(env, freeze, gate, gates, true, f, attempted, trace, s)
    ensures LoopInv(env, freeze, gate + 1, gates[Of(gate) := NOT_RUN], true, f, attempted, trace, s)
  {
    SkippedKeepsRecords(gates, gate, f);
    SkippedKeepsLoop(env, freeze, gate, trace, s, attempted, f);
    NotRunKeepsTold(env, gate, f, gates, s);
    NotRunKeepsFailure(env, freeze, gate, f, gates, s);
  }

  lemma {:induction false} SkippedKeepsRecords(gates: map<Name, Json>, gate: Gate, f: nat)
    requires f < gate < 11 && Recorded(gates, gate, true, f)
    ensures Recorded(gates[Of(gate) := NOT_RUN], gate + 1, true, f)
  {
    RecordOne(gates, gate, true, f, NOT_RUN, true, f);
  }

  lemma {:induction false} SkippedKeepsLoop(
    env: Environment, freeze: Freeze, gate: Gate, trace: Trace, s: Summaries, attempted: bool, f: nat)
    requires gate < 11 && LoopFits(gate, true, f, attempted, trace, s, freeze.threshold)
    requires LoopFaithful(env, freeze, gate, true, f, trace)
    ensures LoopFits(gate + 1, true, f, attempted, trace, s, freeze.threshold)
    ensures LoopFaithful(env, freeze, gate + 1, true, f, trace)
  {
  }

  lemma {:induction false} GateKeepsFaith(
    env: Environment, freeze: Freeze, gate: Gate, ran: Trace, result: CommandResult, trace: Trace, f: nat, f': nat)
    requires gate < 11 && LoopFaithful(env, freeze, gate, false, f, ran)
    requires Decided(env, freeze, gate, ran, Result(result), trace)
    requires f' == if result.exitCode != 0 then gate else f
    ensures LoopFaithful(env, freeze, gate + 1, result.exitCode != 0, f', trace)
  {
  }

  lemma {:induction false} GateKeepsLoop(
    gate: Gate, ran: Trace, trace: Trace, before: Summaries, after: Summaries, attempted: bool, failed: bool, f: nat,
    f': nat, threshold: Json)
    requires gate < 11 && f' == if failed then gate else f
    requires LoopFits(gate, false, f, attempted && gate != COMPOSE_START, ran, before, threshold)
    requires attempted <==> COMPOSE_START <= gate
    requires Extends(ran, trace, gate) && SummariesOk(after) && OthersKept(gate, before, after)
    requires !failed ==> SummaryGood(gate, after, threshold)
    requires gate == COMPOSE_START ==> |ran.commands| < |trace.commands|
    ensures LoopFits(gate + 1, failed, f', attempted, trace, after, threshold)
  {
    if attempted {
      var c := if gate == COMPOSE_START then trace.commands[|ran.commands|]
               else var c :| c in ran.commands && Stage(c) == COMPOSE_START; c;
      assert c in trace.commands && Stage(c) == COMPOSE_START;
    }
    forall c | c in trace.commands
      ensures Stage(c) <= gate
    {
      var k :| 0 <= k < |trace.commands| && trace.commands[k] == c;
      assert k < |ran.commands| ==> c in ran.commands;
    }
    forall g: Gate | g < gate + 1 && !failed
      ensures SummaryGood(g, after, threshold)
    {
      assert g < gate ==> SummaryGood(g, before, threshold);
    }
  }

  /** The commands of a run: gate order, nothing after the first gate that is not good, and one cleanup at the end. */
  ghost predicate CommandsOk(env: Environment, freeze: Freeze, commands: seq<Command>) {
    && Increasing(commands)
    && (forall c, f | c in commands && FirstBad(env, freeze, f) :: c == ComposeDown || Stage(c) <= f)
    && (ComposeDown in commands <==> exists c :: c in commands && Stage(c) == COMPOSE_START)
    && (ComposeDown in commands ==> commands[|commands| - 1] == ComposeDown)
  }

  lemma {:induction false} LoopCommandsAreOk(
    env: Environment, freeze: Freeze, i: nat, failed: bool, f: nat, attempted: bool, trace: Trace, s: Summaries,
    commands: seq<Command>)
    requires i <= 11 && LoopFits(i, failed, f, attempted, trace, s, freeze.threshold)
    requires if failed then FirstBad(env, freeze, f) else i == 11 && forall g: Gate | g < 11 :: GateGood(env, freeze, g)
    requires commands == if attempted then trace.commands + [ComposeDown] else trace.commands
    ensures CommandsOk(env, freeze, commands)
  {
    assert ComposeDown !in trace.commands by {
      assert Stage(ComposeDown) == 11;
    }
    forall i, j | 0 <= i < j < |commands|
      ensures Rank(commands[i]) < Rank(commands[j])
    {
      assert commands[i] in trace.commands;
      assert j < |trace.commands| ==> commands[j] == trace.commands[j];
    }
    forall c, first | c in commands && FirstBad(env, freeze, first)
      ensures c == ComposeDown || Stage(c) <= first
    {
      assert first == f;
    }
    if attempted {
      var c :| c in trace.commands && Stage(c) == COMPOSE_START;
      assert c in commands;
    } else {
      forall c | c in commands
        ensures Stage(c) != COMPOSE_START
      {
      }
    }
  }

  /**
   The statuses say what happened: a gate passes when it and every gate before it are good, fails when it is the
   first that is not, and has not run after that. The cleanup passes when the last command, compose down, succeeds.
   */
  ghost predicate StatusesFaithful(env: Environment, freeze: Freeze, commands: seq<Command>, s: seq<Name>)
    requires |s| == 12
  {
    && (forall g: Gate | g < 11 ::
          s[g] == if exists h: Gate :: h < g && !GateGood(env, freeze, h) then NotRun
                  else if GateGood(env, freeze, g) then Pass else Fail)
    && s[COMPOSE_CLEANUP] == if ComposeDown !in commands then NotNeeded
                             else if Succeeds(env, |commands| - 1, ComposeDown) then Pass else Fail
  }

  lemma {:induction false} LoopIsFaithful(
    env: Environment, freeze: Freeze, failed: bool, f: nat, trace: Trace, commands: seq<Command>, s: seq<Name>)
    requires LoopFaithful(env, freeze, 11, failed, f, trace)
    requires |s| == 12 && forall g: nat | g < 11 :: s[g] == StatusAt(g, failed, f)
    requires s[11] == if ComposeDown !in commands then NotNeeded
                      else if Succeeds(env, |commands| - 1, ComposeDown) then Pass else Fail
    ensures StatusesFaithful(env, freeze, commands, s)
  {
  }

  /** A run ends normally exactly when every gate, the cleanup among them, is good. */
  lemma {:induction false} PassedExactlyWhenAllGood(
    env: Environment, freeze: Freeze, failed: bool, f: nat, trace: Trace, passed: bool)
    requires LoopFaithful(env, freeze, 11, failed, f, trace)
    requires passed <==> !failed && Succeeds(env, |trace.commands|, ComposeDown)
    ensures passed <==> forall g: Gate :: GateGood(env, freeze, g)
  {
    if !failed {
      assert GateGood(env, freeze, COMPOSE_CLEANUP) <==> Succeeds(env, 13, ComposeDown);
      assert forall g: Gate | g < 11 :: GateGood(env, freeze, g);
    }
  }

  /** The report repeats, for every gate that passed, the answer to its last command. */
  ghost predicate PassedReported(env: Environment, freeze: Freeze, p: Parts) {
    forall g: Gate | g < 11 && (forall h: Gate | h <= g :: GateGood(env, freeze, h)) :: GateReported(env, g, p)
  }

  predicate GateReported(env: Environment, g: Gate, p: Parts) {
    && Of(g) in p.gates && p.gates[Of(g)] == Record(Answered(env, g))
    && (g in SCANNERS ==>
          && p.scanners.JObj? && Of(g) in p.scanners.fields
          && p.scanners.fields[Of(g)] == ScanJson(ScanOf(env, g)))
    && (g == PYTEST_COVERAGE ==> PytestTrue(env, p.pytest))
  }

  /**
   The report shows of the first gate that is not good what its output says: the digest and, for a scanner, what was
   found; of the scanners and the coverage after it, nothing.
   */
  ghost predicate FailureReported(env: Environment, freeze: Freeze, p: Parts) {
    forall f: Gate | FirstBad(env, freeze, f) ::
      && StatesOutput(p.gates, f, GateOutput(env, freeze, f))
      && p.pytest == EmptyPytest() && p.scanners.JObj?
      && forall g | g in SCANNERS && f <= g ::
           && Of(g) in p.scanners.fields
           && p.scanners.fields[Of(g)] == ScanJson(if g == f then ScanSeen(env, freeze, f) else NO_SCANS[g])
  }

  lemma {:induction false} FailureIsReported(
    env: Environment, freeze: Freeze, failed: bool, f: nat, trace: Trace, gates: map<Name, Json>, s: Summaries,
    cleanup: Json, p: Parts)
    requires LoopFaithful(env, freeze, 11, failed, f, trace) && FailureTold(env, freeze, 11, failed, f, gates, s)
    requires p.gates == gates[Of(COMPOSE_CLEANUP) := cleanup] && p.pytest == s.pytest
    requires p.scanners == ScannersJson(s.scanners)
    ensures FailureReported(env, freeze, p)
  {
    forall first: Gate | FirstBad(env, freeze, first)
      ensures failed && first == f
    {
      if failed {
        var bad: Gate := f;
        assert GateGood(env, freeze, bad) || first <= bad;
      }
    }
  }

  lemma {:induction false} ToldIsReported(
    env: Environment, freeze: Freeze, failed: bool, f: nat, trace: Trace, gates: map<Name, Json>, s: Summaries,
    cleanup: Json, p: Parts)
    requires LoopFaithful(env, freeze, 11, failed, f, trace) && PassedTold(env, 11, failed, f, gates, s)
    requires p.gates == gates[Of(COMPOSE_CLEANUP) := cleanup] && p.pytest == s.pytest
    requires p.scanners == ScannersJson(s.scanners)
    ensures PassedReported(env, freeze, p)
  {
    forall g: Gate | g < 11 && (forall h: Gate | h <= g :: GateGood(env, freeze, h))
      ensures GateReported(env, g, p)
    {
      assert failed ==> g < f;
      assert GateTold(env, g, gates, s);
    }
  }

  /** What each command answers where only the output of gitleaks makes its parser raise, as deep nesting does. */
  function DeepOutputs(): Environment {
    Environment(
      (n: nat) => Returned(if n < 12 then GateCommand(n) else ComposeDown,
                    CommandResult(0, Output("[", if n == GITLEAKS then ParseRaises else NotJson, [], Plain("")), "")),
      n => false, None)
  }

  /** Such a run passes four gates and then ends without a report. */
  lemma {:induction false} DeepOutputEscapes(freeze: Freeze)
    ensures FirstBad(DeepOutputs(), freeze, GITLEAKS) && GateRaises(DeepOutputs(), freeze, GITLEAKS)
  {
  }

  /** Every coverage answer whose percentage is an integer too large for a float makes the run end without a report. */
  lemma {:induction false} HugePercentEscapes(env: Environment, freeze: Freeze, answer: Json)
    requires forall g: Gate | g < PYTEST_COVERAGE :: GateGood(env, freeze, g)
    requires ParsedBy(env, freeze, PYTEST_COVERAGE).json == Parsed(answer) && CoverageCounts(answer)
    requires FloatRaises(answer.fields[BranchCoveragePercent])
    ensures FirstBad(env, freeze, PYTEST_COVERAGE) && GateRaises(env, freeze, PYTEST_COVERAGE)
  {
    CoverageIsDecided(env, freeze, Received(env, Offset(PYTEST_COVERAGE), CoverageRun), Escapes);
  }

  /** How a run ends: with a report, returned or carried by the error of a failed gate, or by an error without one. */
  datatype GatesRun = Reported(normal: bool, report: Json) | Escaped

  /**
   `run_gates`. Whatever the environment answers: the run ends without a report exactly when the output that the first
   gate that is not good parses makes it raise. Otherwise its report is one the validator accepts exactly when it is
   within the size limit and no frozen tool version names a forbidden term; it ends normally exactly when the report
   is a success, which is exactly when every gate is good; every status says what happened; what a passed gate
   reports is what its last command answered, and what the first other gate reports is what its output says. In either
   case the commands run in gate order, none twice and none of a gate after the first that is not good, with compose
   down as the last command exactly when compose start was attempted.
   */
  method RunGates(env: Environment, freeze: Freeze) returns (run: GatesRun, commands: seq<Command>)
    requires FreezeOk(freeze)
    ensures run.Escaped? <==> exists f: Gate :: FirstBad(env, freeze, f) && GateRaises(env, freeze, f)
    ensures run.Reported? ==>
              && (forall n: nat :: ReportVerdict(Text(Parsed(run.report), true, n)) ==
                    if 0 < n <= REPORT_LIMIT && VersionsClean(freeze.versions) then Valid(StatusFor(run.normal))
                    else Invalid)
              && PartsOf(run.report).Some?
              && PartsOf(run.report).value.status == StatusFor(run.normal)
              && StatusesFaithful(env, freeze, commands, Statuses(PartsOf(run.report).value.gates))
              && PartsOf(run.report).value.frozen == FrozenJson(freeze)
              && PassedReported(env, freeze, PartsOf(run.report).value)
              && FailureReported(env, freeze, PartsOf(run.report).value)
    ensures run.Reported? && run.normal <==> forall g: Gate :: GateGood(env, freeze, g)
    ensures CommandsOk(env, freeze, commands)
  {
    var end, escaped;
    ghost var f;
    end, escaped, f := RunLoop(env, freeze);
    if escaped {
      commands := end.trace.commands;
      if end.attempted {
        var down, after := SafeExecute(env, end.trace, ComposeDown);
        commands := after.commands;
      }
      LoopCommandsAreOk(env, freeze, f + 1, true, f, end.attempted, end.trace, end.summaries, commands);
      return Escaped, commands;
    }
    var normal, gates;
    normal, gates, commands :=
      FinishRun(env, freeze, end.gates, end.summaries, end.trace, end.failed, end.attempted, f);
    var report := Rendered(freeze, gates, StatusFor(normal), end.summaries);
    run := Reported(normal, report);
  }

  /** The cleanup of a run whose gates are all recorded, and the account of the whole. */
  method FinishRun(
    env: Environment, freeze: Freeze, recorded: map<Name, Json>, summaries: Summaries, trace: Trace, failed: bool,
    attempted: bool, ghost f: nat)
    returns (normal: bool, gates: map<Name, Json>, commands: seq<Command>)
    requires FreezeOk(freeze) && LoopInv(env, freeze, 11, recorded, failed, f, attempted, trace, summaries)
    ensures ValidParts(PartsFor(freeze, gates, StatusFor(normal), summaries))
    ensures normal <==> forall g: Gate :: GateGood(env, freeze, g)
    ensures CommandsOk(env, freeze, commands) && StatusesFaithful(env, freeze, commands, Statuses(gates))
    ensures PassedReported(env, freeze, PartsFor(freeze, gates, StatusFor(normal), summaries))
    ensures FailureReported(env, freeze, PartsFor(freeze, gates, StatusFor(normal), summaries))
    ensures !exists g: Gate :: FirstBad(env, freeze, g) && GateRaises(env, freeze, g)
  {
    var cleanup;
    normal, cleanup, commands := CleanUp(env, trace, failed, attempted);
    gates := recorded[Of(COMPOSE_CLEANUP) := cleanup];
    LoopIsReported(recorded, summaries, trace, failed, attempted, f, freeze, cleanup, StatusFor(normal), gates);
    ToldIsReported(env, freeze, failed, f, trace, recorded, summaries, cleanup,
                   PartsFor(freeze, gates, StatusFor(normal), summaries));
    FailureIsReported(env, freeze, failed, f, trace, recorded, summaries, cleanup,
                      PartsFor(freeze, gates, StatusFor(normal), summaries));
    RunIsAccounted(env, freeze, recorded, summaries, trace, failed, attempted, f, normal, cleanup, commands, gates);
  }

  lemma {:induction false} RunIsAccounted(
    env: Environment, freeze: Freeze, gates: map<Name, Json>, s: Summaries, trace: Trace, failed: bool, attempted: bool,
    f: nat, normal: bool, cleanup: Json, commands: seq<Command>, all: map<Name, Json>)
    requires Recorded(gates, 11, failed, f) && LoopFits(11, failed, f, attempted, trace, s, freeze.threshold)
    requires LoopFaithful(env, freeze, 11, failed, f, trace)
    requires GateRecordOk(cleanup) && CleanupFaithful(env, trace, failed, attempted, normal, cleanup, commands)
    requires all == gates[Of(COMPOSE_CLEANUP) := cleanup]
    ensures normal <==> forall g: Gate :: GateGood(env, freeze, g)
    ensures CommandsOk(env, freeze, commands) && StatusesFaithful(env, freeze, commands, Statuses(all))
  {
    PassedExactlyWhenAllGood(env, freeze, failed, f, trace, normal);
    LoopCommandsAreOk(env, freeze, 11, failed, f, attempted, trace, s, commands);
    CleanedUpFaithfully(env, freeze, gates, s, trace, failed, attempted, f, normal, cleanup, commands);
  }

  lemma {:induction false} CleanedUpFaithfully(
    env: Environment, freeze: Freeze, gates: map<Name, Json>, s: Summaries, trace: Trace, failed: bool, attempted: bool,
    f: nat, normal: bool, cleanup: Json, commands: seq<Command>)
    requires Recorded(gates, 11, failed, f) && LoopFits(11, failed, f, attempted, trace, s, freeze.threshold)
    requires LoopFaithful(env, freeze, 11, failed, f, trace)
    requires GateRecordOk(cleanup) && CleanupFaithful(env, trace, failed, attempted, normal, cleanup, commands)
    ensures StatusesFaithful(env, freeze, commands, Statuses(gates[Of(COMPOSE_CLEANUP) := cleanup]))
  {
    CleanupRunsWhenAttempted(failed, f, attempted, trace, s, freeze.threshold, commands);
    RecordedIsFaithful(env, freeze, gates, trace, failed, f, cleanup, commands);
  }

  lemma {:induction false} CleanupRunsWhenAttempted(
    failed: bool, f: nat, attempted: bool, trace: Trace, s: Summaries, threshold: Json, commands: seq<Command>)
    requires LoopFits(11, failed, f, attempted, trace, s, threshold)
    requires commands == if attempted then trace.commands + [ComposeDown] else trace.commands
    ensures ComposeDown in commands <==> attempted
  {
    assert Stage(ComposeDown) == 11;
  }

  lemma {:induction false} RecordedIsFaithful(
    env: Environment, freeze: Freeze, gates: map<Name, Json>, trace: Trace, failed: bool, f: nat, cleanup: Json,
    commands: seq<Command>)
    requires LoopFaithful(env, freeze, 11, failed, f, trace)
    requires Recorded(gates, 11, failed, f) && GateRecordOk(cleanup)
    requires WordOf(cleanup.fields[Status]) == if ComposeDown !in commands then NotNeeded
                                               else if Succeeds(env, |commands| - 1, ComposeDown) then Pass else Fail
    ensures StatusesFaithful(env, freeze, commands, Statuses(gates[Of(COMPOSE_CLEANUP) := cleanup]))
  {
    AllStatusesRecorded(gates, failed, f, cleanup);
    LoopIsFaithful(env, freeze, failed, f, trace, commands, Statuses(gates[Of(COMPOSE_CLEANUP) := cleanup]));
  }

  function StatusFor(normal: bool): Name {
    if normal then GatesPassed else HonestNegative
  }

  /** What the cleanup does and records. */
  predicate CleanupFaithful(
    env: Environment, trace: Trace, failed: bool, attempted: bool, normal: bool, cleanup: Json, commands: seq<Command>)
    requires GateRecordOk(cleanup)
  {
    && commands == (if attempted then trace.commands + [ComposeDown] else trace.commands)
    && (normal <==> attempted && !failed && Succeeds(env, |trace.commands|, ComposeDown))
    && WordOf(cleanup.fields[Status]) == if !attempted then NotNeeded
                                         else if Succeeds(env, |trace.commands|, ComposeDown) then Pass else Fail
  }

  /** The cleanup, which runs on every path that attempted the start. */
  method CleanUp(env: Environment, trace: Trace, failed: bool, attempted: bool)
    returns (normal: bool, cleanup: Json, commands: seq<Command>)
    ensures CleanupFits(cleanup, failed, attempted, StatusFor(normal))
    ensures CleanupFaithful(env, trace, failed, attempted, normal, cleanup, commands)
  {
    if !attempted {
      return false, NOT_NEEDED, trace.commands;
    }
    var down, t := SafeExecute(env, trace, ComposeDown);
    cleanup, commands := Record(down), t.commands;
    normal := !failed && WordOf(cleanup.fields[Status]) == Pass;
  }

  /** The report, with what the validator says of it. */
  method Rendered(freeze: Freeze, gates: map<Name, Json>, status: Name, s: Summaries) returns (report: Json)
    requires ValidParts(PartsFor(freeze, gates, status, s))
    ensures PartsOf(report) == Some(PartsFor(freeze, gates, status, s))
    ensures forall n: nat :: ReportVerdict(Text(Parsed(report), true, n)) ==
              if 0 < n <= REPORT_LIMIT && VersionsClean(freeze.versions) then Valid(status) else Invalid
  {
    RenderedIsJudged(freeze, gates, status, s, Render(freeze, gates, status, s));
    report := Render(freeze, gates, status, s);
  }

  lemma {:induction false} RenderedIsJudged(
    freeze: Freeze, gates: map<Name, Json>, status: Name, s: Summaries, report: Json)
    requires ValidParts(PartsFor(freeze, gates, status, s)) && report == Render(freeze, gates, status, s)
    ensures PartsOf(report) == Some(PartsFor(freeze, gates, status, s))
    ensures forall n: nat :: ReportVerdict(Text(Parsed(report), true, n)) ==
              if 0 < n <= REPORT_LIMIT && VersionsClean(freeze.versions) then Valid(status) else Invalid
  {
    RenderedParts(freeze, gates, status, s);
    FrozenParts(freeze);
    VerdictOfParts(report, PartsFor(freeze, gates, status, s));
  }

  lemma {:induction false} VerdictOfParts(report: Json, p: Parts)
    requires PartsOf(report) == Some(p) && ValidParts(p)
    ensures forall n: nat :: ReportVerdict(Text(Parsed(report), true, n)) ==
              if 0 < n <= REPORT_LIMIT && VersionsClean(p.frozen.fields[ToolVersions].fields) then Valid(p.status)
              else Invalid
  {
    RenderedContent(report, p);
  }

  lemma {:induction false} RenderedContent(report: Json, p: Parts)
    requires PartsOf(report) == Some(p) && ValidParts(p)
    ensures ValidContent(report) <==> VersionsClean(p.frozen.fields[ToolVersions].fields)
  {
    WordMentionsIsSilent();
    OnlyVersionsMention(WordMentions, report);
  }

  /** The summaries a report may carry. */
  ghost predicate SummariesFit(s: Summaries, failed: bool, threshold: Json) {
    && SummariesOk(s)
    && (!failed ==> PytestGood(s.pytest, threshold) && forall g | g in SCANNERS :: ScanGood(s.scanners[g]))
  }

  lemma {:induction false} LoopSummariesFit(
    failed: bool, f: nat, attempted: bool, trace: Trace, s: Summaries, threshold: Json)
    requires LoopFits(11, failed, f, attempted, trace, s, threshold)
    ensures SummariesFit(s, failed, threshold)
  {
    if !failed {
      assert SummaryGood(PYTEST_COVERAGE, s, threshold);
      forall g: Gate | g in SCANNERS
        ensures ScanGood(s.scanners[g])
      {
        assert SummaryGood(g, s, threshold);
      }
    }
  }

  predicate CleanupFits(cleanup: Json, failed: bool, attempted: bool, status: Name) {
    && GateRecordOk(cleanup)
    && WordOf(cleanup.fields[Status]) in (if attempted then {Pass, Fail} else {NotNeeded})
    && status == if !failed && WordOf(cleanup.fields[Status]) == Pass then GatesPassed else HonestNegative
  }

  lemma {:induction false} LoopGatesAreOk(
    gates: map<Name, Json>, s: Summaries, trace: Trace, failed: bool, attempted: bool, f: nat, threshold: Json,
    cleanup: Json, status: Name)
    requires Recorded(gates, 11, failed, f) && LoopFits(11, failed, f, attempted, trace, s, threshold)
    requires CleanupFits(cleanup, failed, attempted, status)
    ensures GatesOk(status, gates[Of(COMPOSE_CLEANUP) := cleanup])
  {
    RecordedIsOk(gates, failed, f, cleanup, status);
  }

  lemma {:induction false} LoopIsReported(
    gates: map<Name, Json>, s: Summaries, ran: Trace, failed: bool, attempted: bool, f: nat, freeze: Freeze,
    cleanup: Json, status: Name, all: map<Name, Json>)
    requires FreezeOk(freeze)
    requires Recorded(gates, 11, failed, f) && LoopFits(11, failed, f, attempted, ran, s, freeze.threshold)
    requires CleanupFits(cleanup, failed, attempted, status) && all == gates[Of(COMPOSE_CLEANUP) := cleanup]
    ensures ValidParts(PartsFor(freeze, all, status, s))
  {
    LoopGatesAreOk(gates, s, ran, failed, attempted, f, freeze.threshold, cleanup, status);
    LoopSummariesFit(failed, f, attempted, ran, s, freeze.threshold);
    AssembledPartsAreValid(freeze, all, status, s, failed);
  }
}
