/** The words of a final report, how they are spelled, and the terms a report must not mention. */
module ReportWords {

  /** A gate, by its place in the frozen order. */
  type Gate = g: nat | g < 12

  const CI_STATIC: Gate := 0
  const RUFF_FORMAT: Gate := 1
  const RUFF_LINT: Gate := 2
  const MYPY: Gate := 3
  const GITLEAKS: Gate := 4
  const PIP_AUDIT: Gate := 5
  const TRIVY_FS: Gate := 6
  const TRIVY_IMAGE: Gate := 7
  const COMPOSE_START: Gate := 8
  const IMAGE_IDENTITY: Gate := 9
  const PYTEST_COVERAGE: Gate := 10
  const COMPOSE_CLEANUP: Gate := 11

  /**
   The words of the reports and tool outputs: a gate's name, a fixed word, or a text that none of those spells. A value
   that writes a fixed word as another text stands for no document.
   */
  datatype Name =
    | Of(gate: Gate)
    | Frozen | GateOrder | Gates | SchemaVersion | Status | Summary
    | ExitCode | StdoutSha256 | StderrSha256
    | CoverageThreshold | ImageId | ScannerDbDigest | ToolVersions
    | Pytest | Scanners | BranchCount | BranchCoveragePercent | CoveredBranchCount
    | PytestStderrSha256 | PytestStdoutSha256 | TestCount | Findings | Targets
    | Coverage | Docker | DockerCompose | Postgresql | Psycopg | Python | Ruff | Sqlite | Trivy | Uv
    | Results | Target | Vulnerabilities | Misconfigurations | Secrets
    | Dependencies | Fixes | PackageName | PackageVersion | Vulns
    | Pass | Fail | NotRun | NotNeeded | GatesPassed | HonestNegative
    | Other(text: string)

  // ---------------------------------------------------------------- the forbidden terms

  const FORBIDDEN: seq<string> := ["dsn", "duration", "environment", "pid", "production", "raw_log"]

  function HexDigit(n: nat): char
    requires n < 16
  {
    "0123456789abcdef"[n]
  }

  /** One UTF-16 unit, escaped. */
  function Unit(n: nat): string
    requires n < 0x1_0000
  {
    ['\\', 'u', HexDigit(n / 0x1000), HexDigit(n / 0x100 % 16), HexDigit(n / 16 % 16), HexDigit(n % 16)]
  }

  /** How the rendered report writes a character of a string. */
  function EscapedChar(c: char): string {
    var n := c as int;
    if c == '"' || c == '\\' then ['\\', c]
    else if ' ' <= c <= '~' then [c]
    else if n == 8 then "\\b" else if n == 9 then "\\t" else if n == 10 then "\\n"
    else if n == 12 then "\\f" else if n == 13 then "\\r"
    else if n < 0x1_0000 then Unit(n)
    else Unit(0xd800 + (n - 0x1_0000) / 0x400) + Unit(0xdc00 + (n - 0x1_0000) % 0x400)
  }

  function Escaped(text: string): string {
    if text == "" then "" else EscapedChar(text[0]) + Escaped(text[1..])
  }

  function LowerChar(c: char): char {
    if 'A' <= c <= 'Z' then ((c as int) + 32) as char else c
  }

  predicate ContainsAt(text: string, term: string, i: nat) {
    i + |term| <= |text| && forall k | 0 <= k < |term| :: LowerChar(text[i + k]) == term[k]
  }

  predicate MentionsForbidden(text: string) {
    exists t, i | 0 <= t < |FORBIDDEN| && 0 <= i < |text| :: ContainsAt(text, FORBIDDEN[t], i)
  }

  // ---------------------------------------------------------------- no word of a report mentions a term

  /** Two or three characters with which a forbidden term begins. */
  predicate TermBegins(text: string, i: nat)
    requires i + 1 < |text|
  {
    var a, b := LowerChar(text[i]), LowerChar(text[i + 1]);
    || (a == 'd' && (b == 's' || b == 'u'))
    || (a == 'p' && b == 'r')
    || (i + 2 < |text| &&
        var c := LowerChar(text[i + 2]);
        || (a == 'e' && b == 'n' && c == 'v')
        || (a == 'p' && b == 'i' && c == 'd')
        || (a == 'r' && b == 'a' && c == 'w'))
  }

  predicate NoTermBegins(text: string) {
    forall i | 0 <= i < |text| - 1 :: !TermBegins(text, i)
  }

  lemma {:induction false} TermsBegin(text: string, t: nat, i: nat)
    requires t < |FORBIDDEN| && ContainsAt(text, FORBIDDEN[t], i)
    ensures i + 1 < |text| && TermBegins(text, i)
  {
    var term := FORBIDDEN[t];
    assert |term| >= 3;
    assert LowerChar(text[i + 0]) == term[0] && LowerChar(text[i + 1]) == term[1] && LowerChar(text[i + 2]) == term[2];
  }

  lemma {:induction false} MentionsBegin(text: string)
    requires MentionsForbidden(text)
    ensures !NoTermBegins(text)
  {
    var t, i :| 0 <= t < |FORBIDDEN| && 0 <= i < |text| && ContainsAt(text, FORBIDDEN[t], i);
    TermsBegin(text, t, i);
  }

  /** The same, one position after the other. */
  predicate NoTermBeginsFrom(text: string, i: nat)
    decreases |text| - i
  {
    i + 1 >= |text| || (!TermBegins(text, i) && NoTermBeginsFrom(text, i + 1))
  }

  lemma {:induction false} FromMeansNone(text: string, i: nat)
    requires NoTermBeginsFrom(text, i)
    ensures forall j | i <= j < |text| - 1 :: !TermBegins(text, j)
    decreases |text| - i
  {
    if i + 1 < |text| {
      FromMeansNone(text, i + 1);
    }
  }

  lemma {:induction false} NoneMeansFrom(text: string, i: nat)
    requires forall j | i <= j < |text| - 1 :: !TermBegins(text, j)
    ensures NoTermBeginsFrom(text, i)
    decreases |text| - i
  {
    if i + 1 < |text| {
      NoneMeansFrom(text, i + 1);
    }
  }

  /** No term begins anywhere in the text. */
  predicate Clean(text: string) {
    NoTermBeginsFrom(text, 0)
  }

  /** An underscore between two texts begins, continues and ends no term's beginning. */
  lemma {:induction false} JoinIsClean(a: string, b: string)
    requires Clean(a) && Clean(b)
    ensures Clean(a + "_" + b)
  {
    FromMeansNone(a, 0);
    FromMeansNone(b, 0);
    var text := a + "_" + b;
    forall i | 0 <= i < |text| - 1
      ensures !TermBegins(text, i)
    {
      if i + 1 < |a| {
        assert !TermBegins(a, i);
      } else if i > |a| {
        assert !TermBegins(b, i - |a| - 1);
      }
    }
    NoneMeansFrom(text, 0);
  }

  // ---------------------------------------------------------------- how words are spelled

  /** A word of two parts. */
  function Join(a: string, b: string): (s: string)
    requires Clean(a) && Clean(b)
    ensures Clean(s)
  {
    JoinIsClean(a, b);
    a + "_" + b
  }

  function GateWord(gate: Gate): (s: string)
    ensures Clean(s)
  {
    match gate
    case 0 => "ci_static"
    case 1 => "ruff_format"
    case 2 => "ruff_lint"
    case 3 => "mypy"
    case 4 => "gitleaks"
    case 5 => "pip_audit"
    case 6 => "trivy_fs"
    case 7 => "trivy_image"
    case 8 => "compose_start"
    case 9 => "image_identity"
    case 10 => "pytest_coverage"
    case _ => "compose_cleanup"
  }

  function ReviewWord(): (s: string)
    ensures Clean(s)
  {
    Join("AWAITING", Join("ADVERSARIAL", "REVIEW"))
  }

  function PassedWord(): (s: string)
    ensures Clean(s)
  {
    Join("PHASE_B_GATES", Join("PASSED", ReviewWord()))
  }

  /** The words of statuses. */
  function StatusWord(n: Name): (s: string)
    ensures Clean(s)
  {
    match n
    case Pass => "PASS"
    case Fail => "FAIL"
    case NotRun => "NOT_RUN"
    case NotNeeded => "NOT_NEEDED"
    case GatesPassed => PassedWord()
    case HonestNegative => "HONEST_NEGATIVE"
    case _ => ""
  }

  /** The names of tools. */
  function ToolWord(n: Name): (s: string)
    ensures Clean(s)
  {
    match n
    case Coverage => "coverage"
    case Docker => "docker"
    case DockerCompose => "docker_compose"
    case Postgresql => "postgresql"
    case Psycopg => "psycopg"
    case Python => "python"
    case Ruff => "ruff"
    case Sqlite => "sqlite"
    case Trivy => "trivy"
    case Uv => "uv"
    case _ => ""
  }

  /** The counts of the coverage summary. */
  function CoverageWord(n: Name): (s: string)
    ensures Clean(s)
  {
    match n
    case BranchCount => "branch_count"
    case BranchCoveragePercent => Join("branch", Join("coverage", "percent"))
    case CoveredBranchCount => Join("covered", "branch_count")
    case TestCount => "test_count"
    case _ => ""
  }

  /** The digests of the coverage summary. */
  function DigestWord(n: Name): (s: string)
    ensures Clean(s)
  {
    match n
    case PytestStderrSha256 => Join("pytest", "stderr_sha256")
    case PytestStdoutSha256 => Join("pytest", "stdout_sha256")
    case _ => ""
  }

  /** The keys of a gate's record and of the scanners' summary. */
  function RecordWord(n: Name): (s: string)
    ensures Clean(s)
  {
    match n
    case Status => "status"
    case ExitCode => "exit_code"
    case StdoutSha256 => "stdout_sha256"
    case StderrSha256 => "stderr_sha256"
    case Findings => "findings"
    case Targets => "targets"
    case _ => ""
  }

  /** The keys of the frozen values. */
  function FrozenWord(n: Name): (s: string)
    ensures Clean(s)
  {
    match n
    case CoverageThreshold => Join("coverage", "threshold")
    case ImageId => "image_id"
    case ScannerDbDigest => Join("scanner", "db_digest")
    case ToolVersions => "tool_versions"
    case _ => ""
  }

  /** The outer keys. */
  function OuterWord(n: Name): (s: string)
    ensures Clean(s)
  {
    match n
    case Frozen => "frozen"
    case GateOrder => "gate_order"
    case Gates => "gates"
    case SchemaVersion => "schema_version"
    case Summary => "summary"
    case Pytest => "pytest"
    case Scanners => "scanners"
    case _ => ""
  }

  /** A word that reports are made of; tool outputs have others, which no report repeats. */
  predicate InReports(n: Name) {
    && !n.Other? && !n.Results? && !n.Target? && !n.Vulnerabilities? && !n.Misconfigurations? && !n.Secrets?
    && !n.Dependencies? && !n.Fixes? && !n.PackageName? && !n.PackageVersion? && !n.Vulns?
  }

  function ReportWord(n: Name): (s: string)
    ensures Clean(s)
  {
    match n
    case Of(gate) => GateWord(gate)
    case Pass | Fail | NotRun | NotNeeded | GatesPassed | HonestNegative => StatusWord(n)
    case BranchCount | BranchCoveragePercent | CoveredBranchCount | TestCount => CoverageWord(n)
    case PytestStderrSha256 | PytestStdoutSha256 => DigestWord(n)
    case Status | ExitCode | StdoutSha256 | StderrSha256 | Findings | Targets => RecordWord(n)
    case CoverageThreshold | ImageId | ScannerDbDigest | ToolVersions => FrozenWord(n)
    case Frozen | GateOrder | Gates | SchemaVersion | Summary | Pytest | Scanners => OuterWord(n)
    case _ => ToolWord(n)
  }

  /** How the rendered report writes a word. */
  function Spelling(n: Name): string {
    match n
    case Other(text) => Escaped(text)
    case Results => "Results"
    case Target => "Target"
    case Vulnerabilities => "Vulnerabilities"
    case Misconfigurations => "Misconfigurations"
    case Secrets => "Secrets"
    case Dependencies => "dependencies"
    case Fixes => "fixes"
    case PackageName => "name"
    case PackageVersion => "version"
    case Vulns => "vulns"
    case _ => ReportWord(n)
  }

  /** No word that reports are made of mentions a forbidden term. */
  lemma {:induction false} WordsAreClean(n: Name)
    requires InReports(n)
    ensures !MentionsForbidden(Spelling(n))
  {
    CleanMentionsNothing(ReportWord(n));
  }

  lemma {:induction false} CleanMentionsNothing(text: string)
    requires Clean(text)
    ensures !MentionsForbidden(text)
  {
    FromMeansNone(text, 0);
    if MentionsForbidden(text) {
      MentionsBegin(text);
    }
  }

  /** The rendered word holds a forbidden term. */
  predicate WordMentions(n: Name) {
    MentionsForbidden(Spelling(n))
  }

  /** The characters of a digest, with or without its prefix. */
  predicate DigestChar(c: char) {
    '0' <= c <= '9' || 'a' <= c <= 'f' || c == 's' || c == 'h' || c == ':'
  }

  /** No text of hexadecimal digits, with or without "sha256:" before it, mentions a forbidden term. */
  lemma {:induction false} DigestsAreClean(text: string)
    requires forall i | 0 <= i < |text| :: DigestChar(text[i])
    ensures !MentionsForbidden(text)
  {
    forall t, i | 0 <= t < |FORBIDDEN| && 0 <= i < |text|
      ensures !ContainsAt(text, FORBIDDEN[t], i)
    {
      // The n of dsn and environment, the u of duration, the p of pid and production, the r of raw_log.
      var k := if t == 0 then 2 else if t == 1 || t == 2 then 1 else 0;
      assert !DigestChar(FORBIDDEN[t][k]) && k < |FORBIDDEN[t]|;
      assert i + |FORBIDDEN[t]| <= |text| ==> LowerChar(text[i + k]) == text[i + k];
    }
  }
}
