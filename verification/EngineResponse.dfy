/**
 What the engine answers, and what the adapter accepts: `_response` of scripts/control_room_engine.py against
 `_validate_engine_response` of src/migration_rehearsal/control_room_adapter.py.
 */
module EngineResponse {
  import opened Sql
  import opened CompatibilityTrigger
  import opened InvoiceDatabase
  import opened RehearsalDatabase
  import opened RehearsalEngine

  datatype Scenario = SmallShop | EmptyLedger | InvalidNegativeAmount | OtherScenario(id: string)

  datatype Verdict = NoRowsToMigrate | LocalRehearsalPassed | OtherVerdict(text: string)

  datatype StageId = BaselineStage | ExpandStage | BackfillStage | SwitchStage | ContractStage

  datatype StageStatus = StageComplete | StageNotNeeded | OtherStatus(text: string)

  datatype Stage = Stage(id: StageId, status: StageStatus)

  /** SHA-256 of the fixture's canonical text, and of that text followed by the migrations' digests. */
  datatype Hash =
    | FixtureHash(rows: seq<Invoice>) | RunHash(rows: seq<Invoice>, digests: map<Version, Digest>) | OtherHash(n: nat)

  datatype Backfills = Backfills(first: Cycle, cycles: int, second: Cycle)

  datatype Rollback = Rollback(downPhase: Phase, legacyRowsRestored: bool, rollForwardComplete: bool)

  datatype Integrity = Integrity(
    finalPhase: Phase, ledgerComplete: bool, rowCount: int, destinationMatchesSource: bool, noTargetNulls: bool,
    legacyColumnAbsent: bool)

  /** The free texts of a response. */
  datatype Texts = Texts(
    verdictLabel: string, summary: string, nextAction: string, stageLabels: seq<string>, explanations: seq<string>,
    checkLabel: string, checkDetail: string, warningLabel: string, warningDetail: string, rollbackLabels: seq<string>,
    operationLimit: string)

  datatype Response = Response(
    scenario: Scenario, runId: Hash, verdict: Verdict, source: seq<Invoice>, destination: seq<Target>,
    stages: seq<Stage>, checkPassed: bool, rollbackObserved: seq<bool>, interfaces: seq<string>, postgresql: string,
    digests: map<Version, Digest>, fixtureHash: Hash, backfills: Backfills, rollback: Rollback, integrity: Integrity,
    cleaned: bool, texts: Texts)

  const STAGES: seq<StageId> := [BaselineStage, ExpandStage, BackfillStage, SwitchStage, ContractStage]

  const INTERFACES: seq<string> := [
    "contract._apply_migration", "contract._start_backfill", "contract._run_backfill_batch",
    "contract._finish_backfill_enable_v2", "contract.attempt_down"]

  const POSTGRESQL: string := "18.6"

  // ---------------------------------------------------------------- the engine

  function StagesFor(rows: seq<Invoice>): seq<Stage> {
    seq(5, i requires 0 <= i < 5 =>
      Stage(STAGES[i], if STAGES[i] == BackfillStage && rows == [] then StageNotNeeded else StageComplete))
  }

  /** `_response`, from what the run observed. */
  function Built(
    scenario: Scenario, rows: seq<Invoice>, digests: map<Version, Digest>, first: Cycle, second: Cycle,
    destination: seq<Target>, restored: bool, observed: Observed, texts: Texts): Response
  {
    Response(
      scenario, RunHash(rows, digests), if rows == [] then NoRowsToMigrate else LocalRehearsalPassed, rows, destination,
      StagesFor(rows), true, [restored, observed.phase == Contract], INTERFACES, POSTGRESQL, digests, FixtureHash(rows),
      Backfills(first, 2, second), Rollback(Initial, restored, observed.phase == Contract),
      Integrity(observed.phase, observed.ledgerComplete, |destination|, destination == Expected(rows),
                observed.noTargetNulls, observed.legacyColumnAbsent), true, texts)
  }

  /** The texts the engine puts in. */
  function EngineTexts(rows: seq<Invoice>): Texts {
    var observed := "Observed locally.";
    Texts(
      if rows == [] then "No rows to migrate" else "Local rehearsal passed",
      "The disposable local database completed the bounded migration path.",
      "Review the local evidence and reset when ready.",
      ["Baseline", "Expand", "Backfill", "Switch", "Contract"],
      [observed, observed, if rows == [] then "No existing values needed copying." else observed, observed, observed],
      "Destination matches source", "Observed in the disposable database.",
      "Bounded scope", "This six-row rehearsal does not exercise the full-volume or concurrent-client paths.",
      ["Return to the baseline shape", "Roll forward through the contract"],
      "No full-volume, concurrent-client, or failpoint exercise.")
  }

  // ---------------------------------------------------------------- the adapter

  predicate DestinationRowOk(t: Target) {
    1 <= t.id && t.minor.Val? && 1 <= t.minor.v <= 100000000 && t.currency == EUR
  }

  predicate Bounded(text: string, maximum: nat) {
    0 < |text| <= maximum
  }

  predicate AllBounded(texts: seq<string>, count: nat, maximum: nat) {
    |texts| == count && forall i | 0 <= i < count :: Bounded(texts[i], maximum)
  }

  predicate TextsBounded(t: Texts) {
    && Bounded(t.verdictLabel, 120) && Bounded(t.summary, 1024) && Bounded(t.nextAction, 240)
    && AllBounded(t.stageLabels, 5, 80) && AllBounded(t.explanations, 5, 240)
    && Bounded(t.checkLabel, 120) && Bounded(t.checkDetail, 240)
    && Bounded(t.warningLabel, 120) && Bounded(t.warningDetail, 320)
    && AllBounded(t.rollbackLabels, 2, 160) && Bounded(t.operationLimit, 320)
  }

  /** `_validate_engine_response`, for the scenario and the rows the adapter expects. */
  predicate Accepts(r: Response, scenario: Scenario, rows: seq<Invoice>, digests: map<Version, Digest>) {
    && r.scenario in {SmallShop, EmptyLedger} && r.scenario == scenario && r.cleaned
    && ValidFixture(r.source) && r.source == rows
    && |r.destination| <= 6 && (forall i | 0 <= i < |r.destination| :: DestinationRowOk(r.destination[i]))
    && r.destination == Expected(r.source)
    && r.verdict == (if r.source == [] then NoRowsToMigrate else LocalRehearsalPassed)
    && |r.stages| == 5
    && (forall i | 0 <= i < 5 ::
          && r.stages[i].id == STAGES[i]
          && r.stages[i].status ==
             if r.source == [] && STAGES[i] == BackfillStage then StageNotNeeded else StageComplete)
    && r.checkPassed
    && |r.rollbackObserved| == 2 && (forall i | 0 <= i < 2 :: r.rollbackObserved[i])
    && r.digests == digests && r.fixtureHash == FixtureHash(r.source) && r.runId == RunHash(r.source, digests)
    && r.backfills.first.firstPass <= 6 && r.backfills.first == Cycle(|r.source|, 0)
    && r.backfills.second.firstPass <= 6 && r.backfills.second == Cycle(|r.source|, 0) && r.backfills.cycles == 2
    && r.rollback == Rollback(Initial, true, true)
    && r.integrity == Integrity(Contract, true, |r.source|, true, true, true)
    && r.interfaces == INTERFACES && r.postgresql == POSTGRESQL && TextsBounded(r.texts)
  }

  predicate Runnable(scenario: Scenario) {
    scenario == SmallShop || scenario == EmptyLedger
  }

  lemma {:induction false} ExpectedRowsAreOk(rows: seq<Invoice>)
    requires forall i | 0 <= i < |rows| :: FixtureBounds(rows[i])
    ensures |Expected(rows)| == |rows| && forall i | 0 <= i < |rows| :: DestinationRowOk(Expected(rows)[i])
  {
    if rows != [] {
      ExpectedRowsAreOk(rows[1..]);
    }
  }

  /**
   For a scenario and its rows the adapter accepts exactly one response, up to free texts within their bounds: that of
   a run in which both backfills filled every row once, the down restored the fixture and the end shows it in EUR.
   */
  lemma {:induction false} AcceptedResponseIsUnique(
    r: Response, scenario: Scenario, rows: seq<Invoice>, digests: map<Version, Digest>)
    ensures Accepts(r, scenario, rows, digests) <==>
            && Runnable(scenario) && ValidFixture(rows) && TextsBounded(r.texts)
            && r == Built(scenario, rows, digests, Cycle(|rows|, 0), Cycle(|rows|, 0), Expected(rows), true,
                          FINAL_SHAPE, r.texts)
  {
    if ValidFixture(rows) {
      ExpectedRowsAreOk(rows);
    }
    if Accepts(r, scenario, rows, digests) {
      assert r.rollbackObserved == [true, true];
      assert r.stages == StagesFor(rows);
    }
  }

  /** No accepted text is empty or longer than it may be, and each list of texts has its length. */
  lemma {:induction false} AcceptedTextsAreBounded(
    r: Response, scenario: Scenario, rows: seq<Invoice>, digests: map<Version, Digest>)
    requires Accepts(r, scenario, rows, digests)
    ensures 0 < |r.texts.verdictLabel| <= 120 && 0 < |r.texts.summary| <= 1024 && 0 < |r.texts.nextAction| <= 240
    ensures |r.texts.stageLabels| == 5 && forall text | text in r.texts.stageLabels :: 0 < |text| <= 80
    ensures |r.texts.explanations| == 5 && forall text | text in r.texts.explanations :: 0 < |text| <= 240
    ensures 0 < |r.texts.checkLabel| <= 120 && 0 < |r.texts.checkDetail| <= 240
    ensures 0 < |r.texts.warningLabel| <= 120 && 0 < |r.texts.warningDetail| <= 320
    ensures |r.texts.rollbackLabels| == 2 && forall text | text in r.texts.rollbackLabels :: 0 < |text| <= 160
    ensures 0 < |r.texts.operationLimit| <= 320
  {
  }

  lemma {:induction false} EngineTextsAreBounded(rows: seq<Invoice>)
    ensures TextsBounded(EngineTexts(rows))
  {
    var t := EngineTexts(rows);
    assert AllBounded(t.stageLabels, 5, 80);
    EngineExplanationsAreBounded(rows);
    assert AllBounded(t.rollbackLabels, 2, 160);
  }

  lemma {:induction false} EngineExplanationsAreBounded(rows: seq<Invoice>)
    ensures AllBounded(EngineTexts(rows).explanations, 5, 240)
  {
  }

  /** What `run` does with rows that were loaded: it answers exactly on the valid fixtures in ascending order. */
  method RunRows(scenario: Scenario, rows: seq<Invoice>, files: map<Version, Digest>)
    returns (response: Option<Response>)
    requires AllFiles(files)
    ensures response.Some? <==> ValidFixture(rows) && Ascending(rows)
    ensures response.Some? ==>
              forall digests ::
                Accepts(response.value, scenario, rows, digests) <==> Runnable(scenario) && digests == files
  {
    var report;
    ghost var steps;
    report, steps := Rehearse(rows, files);
    if !report.Passed? {
      return None;
    }
    response := Some(Built(scenario, rows, files, report.first, report.second, report.destination,
                           report.restored == rows, report.observed, EngineTexts(rows)));
    EngineTextsAreBounded(rows);
    forall digests
      ensures Accepts(response.value, scenario, rows, digests) <==> Runnable(scenario) && digests == files
    {
      AcceptedResponseIsUnique(response.value, scenario, rows, digests);
    }
  }

  // ---------------------------------------------------------------- the fixture document

  /** A scenario of the document; `closed` when its keys, title, purpose and outcome are the approved ones. */
  datatype Item = Item(id: Scenario, closed: bool, rows: seq<Invoice>)

  /** The document; `approved` when its keys, version, default scenario and source are. */
  datatype Document = Document(approved: bool, items: seq<Item>)

  const SCENARIO_IDS: seq<Scenario> := [SmallShop, EmptyLedger, InvalidNegativeAmount]

  /** The rows a scenario is pinned to. */
  function PinnedRows(scenario: Scenario): seq<Invoice> {
    match scenario
    case SmallShop => [
      Invoice(101, 1250), Invoice(102, 2400), Invoice(103, 99), Invoice(104, 5000), Invoice(105, 725),
      Invoice(106, 3100)]
    case InvalidNegativeAmount => [Invoice(201, -1)]
    case _ => []
  }

  predicate ItemOk(item: Item) {
    item.id in SCENARIO_IDS && item.closed && item.rows == PinnedRows(item.id)
  }

  function ItemIds(items: seq<Item>): seq<Scenario> {
    seq(|items|, i requires 0 <= i < |items| => items[i].id)
  }

  /** A document with the allowed scenarios, in their order, each with its pinned rows. */
  predicate DocumentOk(document: Document) {
    && document.approved && ItemIds(document.items) == SCENARIO_IDS
    && forall i | 0 <= i < |document.items| :: ItemOk(document.items[i])
  }

  /** There is one such document. */
  lemma {:induction false} ApprovedDocumentIsUnique(document: Document)
    ensures DocumentOk(document) <==>
            document == Document(true, [
              Item(SmallShop, true, [
                Invoice(101, 1250), Invoice(102, 2400), Invoice(103, 99), Invoice(104, 5000), Invoice(105, 725),
                Invoice(106, 3100)]),
              Item(EmptyLedger, true, []), Item(InvalidNegativeAmount, true, [Invoice(201, -1)])])
  {
    var items := document.items;
    if DocumentOk(document) {
      assert |items| == |ItemIds(items)| == 3;
      assert ItemIds(items)[0] == SmallShop && ItemIds(items)[1] == EmptyLedger;
      assert ItemIds(items)[2] == InvalidNegativeAmount;
      assert items == [items[0], items[1], items[2]];
    }
  }

  datatype Loading = Loaded(rows: seq<Invoice>) | DocumentRefused | UnknownScenario | RowsRejected

  lemma {:induction false} PinnedRowsAreValid(scenario: Scenario)
    ensures ValidFixture(PinnedRows(scenario)) <==> scenario != InvalidNegativeAmount
    ensures Ascending(PinnedRows(scenario))
  {
    if scenario == InvalidNegativeAmount {
      assert !FixtureBounds(PinnedRows(scenario)[0]);
    }
  }

  /** The checks on one scenario of the document. */
  method CheckItem(item: Item) returns (ok: bool)
    ensures ok <==> ItemOk(item)
  {
    if item.id !in SCENARIO_IDS || !item.closed {
      return false;
    }
    if item.id == InvalidNegativeAmount {
      return item.rows == PinnedRows(item.id);
    }
    PinnedRowsAreValid(item.id);
    var valid := ValidateRows(item.rows);
    return valid && item.rows == PinnedRows(item.id);
  }

  /** A scenario that was there before makes the list of scenarios another than the approved one. */
  lemma {:induction false} RepeatedIdIsRefused(items: seq<Item>, i: nat)
    requires i < |items| && items[i].id in ItemIds(items[..i])
    ensures ItemIds(items) != SCENARIO_IDS
  {
    var k :| 0 <= k < i && ItemIds(items[..i])[k] == items[i].id;
    assert ItemIds(items)[k] == ItemIds(items)[i];
  }

  /** The loop of `load_scenarios`: the scenarios of the document in order, each checked, none twice. */
  method CollectScenarios(items: seq<Item>) returns (ok: bool, rows: map<Scenario, seq<Invoice>>)
    ensures ok <==> ItemIds(items) == SCENARIO_IDS && forall i | 0 <= i < |items| :: ItemOk(items[i])
    ensures ok ==> rows.Keys == (set s | s in SCENARIO_IDS) && forall s | s in rows :: rows[s] == PinnedRows(s)
  {
    var ids: seq<Scenario> := [];
    rows := map[];
    for i := 0 to |items|
      invariant ids == ItemIds(items[..i])
      invariant forall k | 0 <= k < i :: ItemOk(items[k])
      invariant forall s :: s in ids <==> s in rows
      invariant forall s | s in rows :: rows[s] == PinnedRows(s)
    {
      ok := CheckItem(items[i]);
      if !ok {
        return;
      }
      if items[i].id in rows {
        RepeatedIdIsRefused(items, i);
        return false, rows;
      }
      rows := rows[items[i].id := items[i].rows];
      ids := ids + [items[i].id];
    }
    assert items[..|items|] == items;
    ok := ids == SCENARIO_IDS;
  }

  /** `load_scenarios` for a selected scenario: what it selects is pinned, whatever the document holds. */
  method LoadScenario(document: Document, scenario: Scenario) returns (loading: Loading)
    ensures loading ==
            if !DocumentOk(document) then DocumentRefused
            else if scenario.OtherScenario? then UnknownScenario
            else if scenario == InvalidNegativeAmount then RowsRejected
            else Loaded(PinnedRows(scenario))
  {
    if !document.approved {
      return DocumentRefused;
    }
    var ok, rows := CollectScenarios(document.items);
    if !ok {
      return DocumentRefused;
    }
    if scenario !in rows {
      return UnknownScenario;
    }
    PinnedRowsAreValid(scenario);
    var valid := ValidateRows(rows[scenario]);
    return if valid then Loaded(rows[scenario]) else RowsRejected;
  }

  /**
   The engine answers exactly on the approved document in the runnable scenarios, so it never meets rows out of order;
   and an adapter that reads an approved document accepts its answer exactly when it reads the same migration files.
   */
  method RunEngine(scenario: Scenario, document: Document, files: map<Version, Digest>)
    returns (response: Option<Response>)
    requires AllFiles(files)
    ensures response.Some? <==> DocumentOk(document) && Runnable(scenario)
    ensures response.Some? ==>
              forall digests :: Accepts(response.value, scenario, PinnedRows(scenario), digests) <==> digests == files
  {
    if scenario !in SCENARIO_IDS {
      return None;
    }
    var loading := LoadScenario(document, scenario);
    if !loading.Loaded? {
      return None;
    }
    PinnedRowsAreValid(scenario);
    response := RunRows(scenario, loading.rows, files);
  }
}
