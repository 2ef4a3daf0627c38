/** The report of the final gate, and the validator of src/migration_rehearsal/final_once.py. */
module FinalReport {
  import opened Sql
  import opened ReportWords

  /** SHA-256, as a constructor: equal digests have equal contents. */
  datatype Sha = Sha256(content: string)

  /** Strings by what the checks ask of them: a fixed word, 64 hex digits, those behind "sha256:", or any other text. */
  datatype Str = Word(w: Name) | Hex(h: Sha) | Ref(h: Sha) | Plain(text: string)

  datatype Json =
    | JNull
    | JBool(b: bool)
    | JInt(n: int)
    | JReal(r: real)
    | JStr(s: Str)
    | JArr(items: seq<Json>)
    | JObj(fields: map<Name, Json>)

  /** What a JSON parser makes of some bytes: a decode error, a value, or any other exception. */
  datatype Parse = NotJson | Parsed(value: Json) | ParseRaises

  /** The bytes of a report: what they parse to, whether they are its canonical encoding, and their length. */
  datatype Text = Text(parsed: Parse, canonical: bool, length: nat)

  const REPORT_LIMIT: nat := 5 * 1024 * 1024

  const SCANNERS: set<Gate> := {GITLEAKS, PIP_AUDIT, TRIVY_FS, TRIVY_IMAGE}

  const TOOLS: set<Name> := {
    Coverage, Docker, DockerCompose, Of(GITLEAKS), Of(MYPY), Of(PIP_AUDIT), Postgresql, Psycopg, Pytest, Python, Ruff,
    Sqlite, Trivy, Uv}

  const TOLERANCE: real := 0.000000000001

  predicate IsNumber(j: Json) {
    j.JInt? || j.JReal?
  }

  function Number(j: Json): real {
    if j.JInt? then j.n as real else if j.JReal? then j.r else 0.0
  }

  predicate IsHex(j: Json) {
    j.JStr? && j.s.Hex?
  }

  predicate IsRef(j: Json) {
    j.JStr? && j.s.Ref?
  }

  predicate Has(j: Json, keys: set<Name>) {
    j.JObj? && j.fields.Keys == keys
  }

  function WordOf(j: Json): Name {
    if j.JStr? && j.s.Word? then j.s.w else Other("")
  }

  /** The text of a string; only an arbitrary one can be empty. */
  function Spelled(s: Str): string {
    match s
    case Plain(text) => text
    case Word(Other(text)) => text
    case _ => "-"
  }

  /** Which words hold a forbidden term when they are rendered; `WordMentions` says it. */
  type Saying = Name -> bool

  /** The rendered string holds a forbidden term; a digest cannot, by `DigestsAreClean`. */
  predicate StrMentions(says: Saying, s: Str) {
    match s
    case Plain(text) => MentionsForbidden(Escaped(text))
    case Word(w) => says(w)
    case Hex(_) => false
    case Ref(_) => false
  }

  /** A string or a key holds a forbidden term; `ReportRendering` shows that then and only then the text does. */
  predicate Mentions(says: Saying, j: Json) {
    match j
    case JStr(s) => StrMentions(says, s)
    case JArr(items) => exists i | 0 <= i < |items| :: Mentions(says, items[i])
    case JObj(fields) => exists k | k in fields :: says(k) || Mentions(says, fields[k])
    case _ => false
  }

  // ---------------------------------------------------------------- the validator, check by check

  function StatusOf(gates: map<Name, Json>, gate: Gate): Name {
    if Of(gate) in gates && gates[Of(gate)].JObj? && Status in gates[Of(gate)].fields then
      WordOf(gates[Of(gate)].fields[Status])
    else Other("")
  }

  predicate GateRecordOk(gate: Json) {
    && gate.JObj? && Status in gate.fields
    && var status := WordOf(gate.fields[Status]);
       && status in {Pass, Fail, NotRun, NotNeeded}
       && if status in {Pass, Fail} then
            && gate.fields.Keys == {ExitCode, Status, StdoutSha256, StderrSha256}
            && gate.fields[ExitCode].JInt?
            && (status == Pass ==> gate.fields[ExitCode].n == 0)
            && (status == Fail ==> gate.fields[ExitCode].n != 0)
            && IsHex(gate.fields[StdoutSha256]) && IsHex(gate.fields[StderrSha256])
          else gate.fields.Keys == {Status}
  }

  /** The statuses of the gates in order. */
  function Statuses(gates: map<Name, Json>): seq<Name> {
    seq(12, g requires 0 <= g < 12 => StatusOf(gates, g))
  }

  /** `f` is the first failed gate in the order. */
  predicate FirstFailure(s: seq<Name>, f: int) {
    0 <= f < |s| && s[f] == Fail && forall g | 0 <= g < f :: s[g] != Fail
  }

  /** The statuses around the first failed gate. */
  predicate FailureShapeOk(s: seq<Name>, f: int)
    requires |s| == 12 && 0 <= f < 12
  {
    && (forall g | 0 <= g < f :: s[g] == Pass)
    && (forall g | f < g < COMPOSE_CLEANUP :: s[g] == NotRun)
    && (f < COMPOSE_START ==> s[COMPOSE_CLEANUP] == NotNeeded)
    && (f >= COMPOSE_START ==> s[COMPOSE_CLEANUP] in {Pass, Fail})
  }

  const GATE_KEYS: set<Name> := set g: Gate | 0 <= g < 12 :: Of(g)

  predicate StatusesOk(status: Name, s: seq<Name>)
    requires |s| == 12
  {
    && (status == GatesPassed ==> forall g | 0 <= g < 12 :: s[g] == Pass)
    && (status == HonestNegative ==> exists g | 0 <= g < 12 :: s[g] == Fail)
    && forall f | 0 <= f < 12 && FirstFailure(s, f) :: FailureShapeOk(s, f)
  }

  predicate GatesOk(status: Name, gates: map<Name, Json>) {
    && gates.Keys == GATE_KEYS
    && (forall n | n in gates :: GateRecordOk(gates[n]))
    && StatusesOk(status, Statuses(gates))
  }

  predicate FrozenOk(j: Json) {
    && Has(j, {CoverageThreshold, ImageId, ScannerDbDigest, ToolVersions})
    && IsNumber(j.fields[CoverageThreshold]) && 0.0 <= Number(j.fields[CoverageThreshold]) <= 100.0
    && IsRef(j.fields[ImageId]) && IsRef(j.fields[ScannerDbDigest])
    && Has(j.fields[ToolVersions], TOOLS)
    && forall t | t in j.fields[ToolVersions].fields ::
         var v := j.fields[ToolVersions].fields[t]; v.JStr? && Spelled(v.s) != ""
  }

  predicate PytestOk(j: Json) {
    && Has(j, {BranchCount, BranchCoveragePercent, CoveredBranchCount, PytestStderrSha256, PytestStdoutSha256,
               TestCount})
    && j.fields[TestCount].JInt? && 0 <= j.fields[TestCount].n
    && IsNumber(j.fields[BranchCoveragePercent]) && 0.0 <= Number(j.fields[BranchCoveragePercent]) <= 100.0
    && j.fields[BranchCount].JInt? && 0 <= j.fields[BranchCount].n
    && j.fields[CoveredBranchCount].JInt? && 0 <= j.fields[CoveredBranchCount].n <= j.fields[BranchCount].n
    && IsHex(j.fields[PytestStderrSha256]) && IsHex(j.fields[PytestStdoutSha256])
    && IsClose(Number(j.fields[BranchCoveragePercent]),
               Percent(j.fields[CoveredBranchCount].n, j.fields[BranchCount].n))
  }

  function Percent(covered: int, total: int): real {
    if total == 0 then 0.0 else 100.0 * (covered as real) / (total as real)
  }

  /** `math.isclose` with no relative tolerance. */
  predicate IsClose(a: real, b: real) {
    -TOLERANCE <= a - b <= TOLERANCE
  }

  predicate ScanOk(j: Json) {
    && Has(j, {Findings, Targets})
    && j.fields[Findings].JInt? && 0 <= j.fields[Findings].n
    && j.fields[Targets].JInt? && 0 <= j.fields[Targets].n
  }

  predicate ScannersOk(j: Json) {
    Has(j, set g | g in SCANNERS :: Of(g)) && forall s | s in j.fields :: ScanOk(j.fields[s])
  }

  /** What a success status asks of the summaries. */
  predicate SuccessOk(threshold: Json, pytest: Json, scanners: Json)
    requires PytestOk(pytest) && ScannersOk(scanners)
  {
    && 0 < pytest.fields[TestCount].n && 0 < pytest.fields[BranchCount].n
    && Number(threshold) <= Number(pytest.fields[BranchCoveragePercent])
    && forall s | s in scanners.fields ::
         0 < scanners.fields[s].fields[Targets].n && scanners.fields[s].fields[Findings].n == 0
  }

  /** No frozen tool version names a forbidden term. */
  predicate VersionsClean(versions: map<Name, Json>) {
    VersionsMute(WordMentions, versions)
  }

  predicate VersionsMute(says: Saying, versions: map<Name, Json>) {
    forall t | t in versions :: versions[t].JStr? ==> !StrMentions(says, versions[t].s)
  }

  datatype Parts = Parts(status: Name, gates: map<Name, Json>, frozen: Json, pytest: Json, scanners: Json)

  /** The checks on the parts of a report. */
  predicate ValidParts(p: Parts) {
    && p.status in {GatesPassed, HonestNegative} && GatesOk(p.status, p.gates)
    && FrozenOk(p.frozen) && PytestOk(p.pytest) && ScannersOk(p.scanners)
    && (p.status == GatesPassed ==> SuccessOk(p.frozen.fields[CoverageThreshold], p.pytest, p.scanners))
  }

  function OrderJson(): Json {
    JArr(seq(12, i requires 0 <= i < 12 => JStr(Word(Of(i)))))
  }

  /** The parts of a report with the exact outer keys, schema version and gate order. */
  function PartsOf(j: Json): Option<Parts> {
    if
      && Has(j, {Frozen, GateOrder, Gates, SchemaVersion, Status, Summary})
      && j.fields[SchemaVersion] == JInt(2)
      && j.fields[GateOrder] == OrderJson()
      && j.fields[Gates].JObj?
      && Has(j.fields[Summary], {Pytest, Scanners})
    then
      Some(Parts(WordOf(j.fields[Status]), j.fields[Gates].fields, j.fields[Frozen],
                 j.fields[Summary].fields[Pytest], j.fields[Summary].fields[Scanners]))
    else None
  }

  predicate ValidContent(j: Json) {
    PartsOf(j).Some? && ValidParts(PartsOf(j).value) && !Mentions(WordMentions, j)
  }

  /** `_valid_report`, on bytes whose parse does not raise. */
  predicate ValidReport(report: Text) {
    && 0 < report.length <= REPORT_LIMIT
    && report.parsed.Parsed? && report.canonical
    && ValidContent(report.parsed.value)
  }

  datatype Verdict = Valid(status: Name) | Invalid | VerdictRaises

  /** `_report_status`; bytes beyond the limit are not parsed. */
  function ReportVerdict(report: Text): Verdict {
    if 0 < report.length <= REPORT_LIMIT && report.parsed.ParseRaises? then VerdictRaises
    else if ValidReport(report) then Valid(PartsOf(report.parsed.value).value.status)
    else Invalid
  }

  // ---------------------------------------------------------------- where a valid report can mention a term

  /** No word that reports are made of holds a forbidden term. */
  ghost predicate Silent(says: Saying) {
    forall n | InReports(n) :: !says(n)
  }

  lemma {:induction false} WordMentionsIsSilent()
    ensures Silent(WordMentions)
  {
    forall n | InReports(n)
      ensures !WordMentions(n)
    {
      WordsAreClean(n);
    }
  }

  /** An object whose keys are words of reports mentions a term exactly when one of its values does. */
  lemma {:induction false} ObjectMentions(says: Saying, j: Json)
    requires Silent(says)
    requires j.JObj? && forall k | k in j.fields :: InReports(k)
    ensures Mentions(says, j) <==> exists k | k in j.fields :: Mentions(says, j.fields[k])
  {
  }

  lemma {:induction false} WordMentionsNothing(says: Saying, j: Json)
    requires Silent(says)
    requires j.JStr? && j.s.Word? && InReports(j.s.w)
    ensures !Mentions(says, j)
  {
  }

  /** Numbers, digests and words of reports. */
  predicate Mute(j: Json) {
    j.JInt? || j.JReal? || IsHex(j) || IsRef(j) || (j.JStr? && j.s.Word? && InReports(j.s.w))
  }

  lemma {:induction false} MuteMentionsNothing(says: Saying, j: Json)
    requires Silent(says)
    requires Mute(j) || (j.JObj? && forall k | k in j.fields :: InReports(k) && Mute(j.fields[k]))
    ensures !Mentions(says, j)
  {
    if j.JObj? {
      ObjectMentions(says, j);
    }
  }

  lemma {:induction false} RecordMentionsNothing(says: Saying, gate: Json)
    requires Silent(says)
    requires GateRecordOk(gate)
    ensures !Mentions(says, gate)
  {
    RecordIsMute(gate);
    MuteMentionsNothing(says, gate);
  }

  lemma {:induction false} RecordIsMute(gate: Json)
    requires GateRecordOk(gate)
    ensures forall k | k in gate.fields :: InReports(k) && Mute(gate.fields[k])
  {
  }

  lemma {:induction false} GatesMentionNothing(says: Saying, status: Name, gates: map<Name, Json>)
    requires Silent(says)
    requires GatesOk(status, gates)
    ensures !Mentions(says, JObj(gates))
  {
    ObjectMentions(says, JObj(gates));
    forall n | n in gates
      ensures !Mentions(says, gates[n])
    {
      RecordMentionsNothing(says, gates[n]);
    }
  }

  lemma {:induction false} OrderMentionsNothing(says: Saying)
    requires Silent(says)
    ensures !Mentions(says, OrderJson())
  {
    forall i | 0 <= i < 12
      ensures !Mentions(says, OrderJson().items[i])
    {
      WordMentionsNothing(says, OrderJson().items[i]);
    }
  }

  lemma {:induction false} FrozenMentions(says: Saying, j: Json)
    requires Silent(says)
    requires FrozenOk(j)
    ensures Mentions(says, j) <==> !VersionsMute(says, j.fields[ToolVersions].fields)
  {
    FrozenIsMuteButVersions(j);
    OnlyOneFieldMentions(says, j, ToolVersions);
    ToolsAreInReports(j.fields[ToolVersions]);
    ObjectMentions(says, j.fields[ToolVersions]);
    VersionsMention(says, j.fields[ToolVersions].fields);
  }

  lemma {:induction false} FrozenIsMuteButVersions(j: Json)
    requires FrozenOk(j)
    ensures ToolVersions in j.fields && InReports(ToolVersions)
    ensures forall k | k in j.fields && k != ToolVersions :: InReports(k) && Mute(j.fields[k])
  {
  }

  lemma {:induction false} ToolsAreInReports(versions: Json)
    requires Has(versions, TOOLS)
    ensures forall k | k in versions.fields :: InReports(k)
  {
  }

  lemma {:induction false} VersionsMention(says: Saying, versions: map<Name, Json>)
    requires forall t | t in versions :: versions[t].JStr?
    ensures (exists t | t in versions :: Mentions(says, versions[t])) <==> !VersionsMute(says, versions)
  {
  }

  /** An object whose other fields are mute mentions a term exactly when the remaining one does. */
  lemma {:induction false} OnlyOneFieldMentions(says: Saying, j: Json, key: Name)
    requires Silent(says)
    requires j.JObj? && key in j.fields && InReports(key)
    requires forall k | k in j.fields && k != key :: !Mentions(says, j.fields[k]) || Mute(j.fields[k])
    requires forall k | k in j.fields :: InReports(k)
    ensures Mentions(says, j) <==> Mentions(says, j.fields[key])
  {
    forall k | k in j.fields && k != key
      ensures !Mentions(says, j.fields[k])
    {
      if Mute(j.fields[k]) {
        MuteMentionsNothing(says, j.fields[k]);
      }
    }
    ObjectMentions(says, j);
  }

  lemma {:induction false} PytestMentionsNothing(says: Saying, j: Json)
    requires Silent(says)
    requires PytestOk(j)
    ensures !Mentions(says, j)
  {
    PytestIsMute(j);
    MuteMentionsNothing(says, j);
  }

  lemma {:induction false} PytestIsMute(j: Json)
    requires PytestOk(j)
    ensures forall k | k in j.fields :: InReports(k) && Mute(j.fields[k])
  {
  }

  lemma {:induction false} ScannersMentionNothing(says: Saying, j: Json)
    requires Silent(says)
    requires ScannersOk(j)
    ensures !Mentions(says, j)
  {
    ObjectMentions(says, j);
    forall k | k in j.fields
      ensures !Mentions(says, j.fields[k])
    {
      ScanIsMute(j.fields[k]);
      MuteMentionsNothing(says, j.fields[k]);
    }
  }

  lemma {:induction false} ScanIsMute(j: Json)
    requires ScanOk(j)
    ensures forall k | k in j.fields :: InReports(k) && Mute(j.fields[k])
  {
  }

  /** A report that passes every other check mentions a forbidden term exactly when a frozen tool version does. */
  lemma {:induction false} OnlyVersionsMention(says: Saying, j: Json)
    requires Silent(says)
    requires PartsOf(j).Some? && ValidParts(PartsOf(j).value)
    ensures Mentions(says, j) <==> !VersionsMute(says, PartsOf(j).value.frozen.fields[ToolVersions].fields)
  {
    var p := PartsOf(j).value;
    GatesMentionNothing(says, p.status, p.gates);
    FrozenMentions(says, p.frozen);
    SummaryMentionsNothing(says, j.fields[Summary]);
    OrderMentionsNothing(says);
    PartsAreFields(j, p);
    OuterFields(says, j, p);
    OnlyOneFieldMentions(says, j, Frozen);
  }

  lemma {:induction false} PartsAreFields(j: Json, p: Parts)
    requires PartsOf(j) == Some(p)
    ensures Has(j, {Frozen, GateOrder, Gates, SchemaVersion, Status, Summary})
    ensures j.fields[Frozen] == p.frozen && j.fields[Gates] == JObj(p.gates) && j.fields[GateOrder] == OrderJson()
    ensures j.fields[SchemaVersion] == JInt(2) && WordOf(j.fields[Status]) == p.status
  {
  }

  lemma {:induction false} OuterFields(says: Saying, j: Json, p: Parts)
    requires Has(j, {Frozen, GateOrder, Gates, SchemaVersion, Status, Summary})
    requires j.fields[Frozen] == p.frozen && j.fields[SchemaVersion] == JInt(2)
    requires WordOf(j.fields[Status]) == p.status && p.status in {GatesPassed, HonestNegative}
    requires !Mentions(says, j.fields[Gates]) && !Mentions(says, j.fields[GateOrder])
    requires !Mentions(says, j.fields[Summary])
    ensures Frozen in j.fields && InReports(Frozen) && j.fields[Frozen] == p.frozen
    ensures forall k | k in j.fields :: InReports(k)
    ensures forall k | k in j.fields && k != Frozen :: !Mentions(says, j.fields[k]) || Mute(j.fields[k])
  {
  }

  lemma {:induction false} SummaryMentionsNothing(says: Saying, j: Json)
    requires Silent(says)
    requires Has(j, {Pytest, Scanners}) && PytestOk(j.fields[Pytest]) && ScannersOk(j.fields[Scanners])
    ensures !Mentions(says, j)
  {
    ObjectMentions(says, j);
    PytestMentionsNothing(says, j.fields[Pytest]);
    ScannersMentionNothing(says, j.fields[Scanners]);
  }

  // ---------------------------------------------------------------- what a valid report means

  /** In a valid negative report everything before the first failure passed; at most the cleanup has run after it. */
  lemma {:induction false} NegativeReportHasOneFirstFailure(s: seq<Name>)
    requires |s| == 12 && StatusesOk(HonestNegative, s)
    ensures exists f ::
              && FirstFailure(s, f)
              && (forall g | 0 <= g < 11 && g != f :: s[g] == if g < f then Pass else NotRun)
              && (f < COMPOSE_START <==> s[COMPOSE_CLEANUP] == NotNeeded)
  {
    var g :| 0 <= g < 12 && s[g] == Fail;
    var f := EarliestFailure(s, g);
    assert FailureShapeOk(s, f);
  }

  lemma {:induction false} EarliestFailure(s: seq<Name>, g: nat) returns (f: int)
    requires g < |s| && s[g] == Fail
    ensures FirstFailure(s, f)
    decreases g
  {
    if h: nat :| h < g && s[h] == Fail {
      f := EarliestFailure(s, h);
    } else {
      f := g;
    }
  }

  /** In a valid success report every gate passed with exit code zero. */
  lemma {:induction false} SuccessReportMeansAllPassed(gates: map<Name, Json>, gate: Gate)
    requires GatesOk(GatesPassed, gates)
    ensures Of(gate) in gates && GateRecordOk(gates[Of(gate)])
    ensures gates[Of(gate)].fields.Keys == {ExitCode, Status, StdoutSha256, StderrSha256}
    ensures gates[Of(gate)].fields[ExitCode] == JInt(0)
  {
    assert Of(gate) in GATE_KEYS;
    assert GateRecordOk(gates[Of(gate)]) && Statuses(gates)[gate] == Pass;
  }

  /** The reports that are accepted are canonical, within the limit, of schema 2 and with the twelve gates in order. */
  lemma {:induction false} ValidReportsAreClosed(report: Text)
    requires ValidReport(report)
    ensures 0 < report.length <= 5242880 && report.canonical && report.parsed.Parsed?
    ensures var j := report.parsed.value;
            && j.JObj? && j.fields.Keys == {Frozen, GateOrder, Gates, SchemaVersion, Status, Summary}
            && j.fields[SchemaVersion] == JInt(2)
            && j.fields[GateOrder].JArr? && |j.fields[GateOrder].items| == 12
            && (forall g: Gate | g < 12 :: j.fields[GateOrder].items[g] == JStr(Word(Of(g))))
            && j.fields[Status] in {JStr(Word(GatesPassed)), JStr(Word(HonestNegative))}
            && j.fields[Gates].JObj? && |j.fields[Gates].fields.Keys| == 12
            && (forall g: Gate | g < 12 :: Of(g) in j.fields[Gates].fields)
            && !Mentions(WordMentions, j)
  {
    GateKeysAreTwelve();
    var p := PartsOf(report.parsed.value).value;
    assert forall g: Gate | g < 12 :: Of(g) in GATE_KEYS;
  }

  lemma {:induction false} GateKeysAreTwelve()
    ensures |GATE_KEYS| == 12
  {
    KeysBelow(12);
    assert GATE_KEYS == set g: Gate | 0 <= g < 12 :: Of(g);
  }

  lemma {:induction false} KeysBelow(n: nat)
    requires n <= 12
    ensures |set g: Gate | 0 <= g < n :: Of(g)| == n
  {
    var keys := set g: Gate | 0 <= g < n :: Of(g);
    if n == 0 {
      assert keys == {};
    } else {
      KeysBelow(n - 1);
      var last: Gate := n - 1;
      assert keys == (set g: Gate | 0 <= g < n - 1 :: Of(g)) + {Of(last)};
    }
  }

  /** Every gate's record in an accepted report tells one of four things, and nothing else. */
  lemma {:induction false} ValidRecordsTellOneThing(status: Name, gates: map<Name, Json>, gate: Gate)
    requires GatesOk(status, gates)
    ensures Of(gate) in gates && gates[Of(gate)].JObj? && Status in gates[Of(gate)].fields
    ensures var fields := gates[Of(gate)].fields;
            || fields == map[Status := JStr(Word(NotRun))]
            || fields == map[Status := JStr(Word(NotNeeded))]
            || (&& fields.Keys == {ExitCode, Status, StdoutSha256, StderrSha256}
                && fields[ExitCode].JInt? && IsHex(fields[StdoutSha256]) && IsHex(fields[StderrSha256])
                && fields[Status] == JStr(Word(if fields[ExitCode].n == 0 then Pass else Fail)))
  {
    assert Of(gate) in GATE_KEYS;
    RecordTellsOneThing(gates[Of(gate)]);
  }

  lemma {:induction false} RecordTellsOneThing(record: Json)
    requires GateRecordOk(record)
    ensures record.JObj?
    ensures var fields := record.fields;
            || fields == map[Status := JStr(Word(NotRun))]
            || fields == map[Status := JStr(Word(NotNeeded))]
            || (&& fields.Keys == {ExitCode, Status, StdoutSha256, StderrSha256}
                && fields[ExitCode].JInt? && IsHex(fields[StdoutSha256]) && IsHex(fields[StderrSha256])
                && fields[Status] == JStr(Word(if fields[ExitCode].n == 0 then Pass else Fail)))
  {
  }

  /** The frozen values of an accepted report. */
  lemma {:induction false} ValidFreezesAreComplete(j: Json, tool: Name)
    requires FrozenOk(j)
    ensures j.JObj? && j.fields.Keys == {CoverageThreshold, ImageId, ScannerDbDigest, ToolVersions}
    ensures IsNumber(j.fields[CoverageThreshold]) && 0.0 <= Number(j.fields[CoverageThreshold]) <= 100.0
    ensures IsRef(j.fields[ImageId]) && IsRef(j.fields[ScannerDbDigest]) && j.fields[ToolVersions].JObj?
    ensures tool in j.fields[ToolVersions].fields <==>
            || tool in {Coverage, Docker, DockerCompose, Postgresql, Psycopg, Pytest, Python, Ruff, Sqlite, Trivy, Uv}
            || tool in {Of(GITLEAKS), Of(MYPY), Of(PIP_AUDIT)}
    ensures tool in j.fields[ToolVersions].fields ==>
              && j.fields[ToolVersions].fields[tool].JStr? && Spelled(j.fields[ToolVersions].fields[tool].s) != ""
  {
  }

  /** The numbers of an accepted coverage summary agree with each other. */
  lemma {:induction false} ValidCoverageAddsUp(j: Json)
    requires PytestOk(j)
    ensures j.JObj? && j.fields.Keys == {BranchCount, BranchCoveragePercent, CoveredBranchCount, PytestStderrSha256,
                                         PytestStdoutSha256, TestCount}
    ensures j.fields[TestCount].JInt? && j.fields[BranchCount].JInt? && j.fields[CoveredBranchCount].JInt?
    ensures 0 <= j.fields[TestCount].n && 0 <= j.fields[CoveredBranchCount].n <= j.fields[BranchCount].n
    ensures IsHex(j.fields[PytestStderrSha256]) && IsHex(j.fields[PytestStdoutSha256])
    ensures IsNumber(j.fields[BranchCoveragePercent])
    ensures var percent, branches := Number(j.fields[BranchCoveragePercent]), j.fields[BranchCount].n;
            && 0.0 <= percent <= 100.0
            && var ratio := if branches == 0 then 0.0
                            else 100.0 * (j.fields[CoveredBranchCount].n as real) / (branches as real);
               ratio - 0.000000000001 <= percent <= ratio + 0.000000000001
  {
  }

  /** The scanners of an accepted report, and those of a success: each looked at something and found nothing. */
  lemma {:induction false} ValidScansAreCounted(p: Parts, gate: Gate)
    requires ValidParts(p) && gate in {GITLEAKS, PIP_AUDIT, TRIVY_FS, TRIVY_IMAGE}
    ensures p.scanners.JObj? && |p.scanners.fields.Keys| <= 4 && Of(gate) in p.scanners.fields
    ensures var scan := p.scanners.fields[Of(gate)];
            && scan.JObj? && scan.fields.Keys == {Findings, Targets}
            && scan.fields[Findings].JInt? && 0 <= scan.fields[Findings].n
            && scan.fields[Targets].JInt? && 0 <= scan.fields[Targets].n
            && (p.status == GatesPassed ==> scan.fields[Findings].n == 0 && 0 < scan.fields[Targets].n)
  {
    ScannersAreFour(p.scanners);
  }

  lemma {:induction false} ScannersAreFour(j: Json)
    requires ScannersOk(j)
    ensures |j.fields.Keys| <= 4 && forall g | g in SCANNERS :: Of(g) in j.fields
  {
    assert j.fields.Keys == {Of(GITLEAKS), Of(PIP_AUDIT), Of(TRIVY_FS), Of(TRIVY_IMAGE)};
  }

  /** A success also ran tests, measured branches and reached the threshold. */
  lemma {:induction false} SuccessReachesTheThreshold(p: Parts)
    requires ValidParts(p) && p.status == GatesPassed
    ensures p.pytest.JObj? && {TestCount, BranchCount, BranchCoveragePercent} <= p.pytest.fields.Keys
    ensures p.pytest.fields[TestCount].JInt? && 0 < p.pytest.fields[TestCount].n
    ensures p.pytest.fields[BranchCount].JInt? && 0 < p.pytest.fields[BranchCount].n
    ensures p.frozen.JObj? && CoverageThreshold in p.frozen.fields
    ensures Number(p.frozen.fields[CoverageThreshold]) <= Number(p.pytest.fields[BranchCoveragePercent])
  {
  }
}
