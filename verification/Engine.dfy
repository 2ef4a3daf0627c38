/** The rehearsal script of scripts/control_room_engine.py: forward, down, forward again, contract. */
module RehearsalEngine {
  import opened Sql
  import opened CompatibilityTrigger
  import opened Selection
  import opened InvoiceDatabase
  import opened Protocol
  import opened ChunkedBackfill
  import opened RehearsalDatabase

  datatype Target = Target(id: int, minor: Cell<int>, currency: Cell<string>)

  datatype Cycle = Cycle(firstPass: nat, secondPass: nat)

  /** What is read from the database at the end, besides the rows. */
  datatype Observed = Observed(
    phase: Phase, ledgerComplete: bool, noTargetNulls: bool, legacyColumnAbsent: bool, finalConstraints: bool)

  datatype Report =
    | Passed(first: Cycle, second: Cycle, restored: seq<Invoice>, destination: seq<Target>, observed: Observed)
    | FixtureRejected
    | SwitchRowsMismatch
    | RollbackMismatch
    | FinalMismatch

  /** The bounds of `_validate_rows`. */
  predicate FixtureBounds(row: Invoice) {
    1 <= row.id <= 2147483647 && 1 <= row.cents <= 100000000
  }

  predicate ValidFixture(rows: seq<Invoice>) {
    && |rows| <= 6
    && (forall i | 0 <= i < |rows| :: FixtureBounds(rows[i]))
    && (forall i, j | 0 <= i < j < |rows| :: rows[i].id != rows[j].id)
  }

  predicate Ascending(rows: seq<Invoice>) {
    forall i, j | 0 <= i < j < |rows| :: rows[i].id < rows[j].id
  }

  /** `_validate_rows` on rows of two whole numbers. */
  method ValidateRows(rows: seq<Invoice>) returns (valid: bool)
    ensures valid <==> ValidFixture(rows)
  {
    if |rows| > 6 {
      return false;
    }
    var ids: set<int> := {};
    for i := 0 to |rows|
      invariant ids == set k | 0 <= k < i :: rows[k].id
      invariant forall k | 0 <= k < i :: FixtureBounds(rows[k])
      invariant forall j, k | 0 <= j < k < i :: rows[j].id != rows[k].id
    {
      if !(1 <= rows[i].id <= 2147483647) {
        return false;
      }
      if rows[i].id in ids {
        assert exists k | 0 <= k < i :: rows[k].id == rows[i].id;
        return false;
      }
      if !(1 <= rows[i].cents <= 100000000) {
        return false;
      }
      ids := ids + {rows[i].id};
    }
    return true;
  }

  /** `SELECT id, amount_cents FROM invoices ORDER BY id`. */
  function LegacyRowsInOrder(rows: map<int, Row>): seq<Invoice> {
    LegacyRowsOf(rows, Smallest(rows.Keys, |rows.Keys|))
  }

  function LegacyRowsOf(rows: map<int, Row>, ids: seq<int>): seq<Invoice> {
    if ids == [] then []
    else [Invoice(ids[0], if ids[0] in rows then AmountOf(rows[ids[0]]) else 0)] + LegacyRowsOf(rows, ids[1..])
  }

  /** `SELECT id, amount_minor, currency_code FROM invoices ORDER BY id`. */
  function TargetRowsInOrder(rows: map<int, Row>): seq<Target> {
    TargetRowsOf(rows, Smallest(rows.Keys, |rows.Keys|))
  }

  function TargetRowsOf(rows: map<int, Row>, ids: seq<int>): seq<Target> {
    if ids == [] then []
    else
      [TargetOf(ids[0], if ids[0] in rows then rows[ids[0]] else Row(Null, Null, Null))] + TargetRowsOf(rows, ids[1..])
  }

  function TargetOf(id: int, r: Row): Target {
    Target(id, r.minor, r.currency)
  }

  /** The destination the engine compares with, in the fixture's own order. */
  function Expected(rows: seq<Invoice>): seq<Target> {
    if rows == [] then [] else [Target(rows[0].id, Val(rows[0].cents), EUR)] + Expected(rows[1..])
  }

  function Ids(rows: seq<Invoice>): seq<int> {
    if rows == [] then [] else [rows[0].id] + Ids(rows[1..])
  }

  // ---------------------------------------------------------------- fixtures and ordered reads

  lemma {:induction false} FixtureHolds(rows: seq<Invoice>)
    requires forall i, j | 0 <= i < j < |rows| :: rows[i].id != rows[j].id
    ensures forall i | 0 <= i < |rows| ::
              rows[i].id in FixtureTable(rows) && FixtureTable(rows)[rows[i].id] == rows[i].cents
    ensures |FixtureTable(rows).Keys| == |rows|
  {
    if rows != [] {
      var init, last := rows[..|rows| - 1], rows[|rows| - 1];
      FixtureHolds(init);
      FixtureKeys(init);
      assert FixtureTable(rows).Keys == FixtureTable(init).Keys + {last.id};
      forall i | 0 <= i < |rows| - 1
        ensures FixtureTable(rows)[rows[i].id] == rows[i].cents
      {
        assert init[i] == rows[i];
      }
    }
  }

  lemma {:induction false} IdsAt(rows: seq<Invoice>)
    ensures |Ids(rows)| == |rows| && forall i | 0 <= i < |rows| :: Ids(rows)[i] == rows[i].id
  {
    if rows != [] {
      IdsAt(rows[1..]);
    }
  }

  /** Reading the ids in order gives back the fixture's ids exactly when the fixture was ascending. */
  lemma {:induction false} OrderedReadMatches(rows: seq<Invoice>)
    requires forall i, j | 0 <= i < j < |rows| :: rows[i].id != rows[j].id
    ensures Smallest(FixtureTable(rows).Keys, |rows|) == Ids(rows) <==> Ascending(rows)
  {
    FixtureHolds(rows);
    FixtureKeys(rows);
    IdsAt(rows);
    var keys := FixtureTable(rows).Keys;
    if Ascending(rows) {
      forall x | x in keys
        ensures x in Ids(rows)
      {
        var k :| 0 <= k < |rows| && rows[k].id == x;
        assert Ids(rows)[k] == x;
      }
      SmallestIsUnique(keys, |rows|, Ids(rows));
    }
  }

  lemma {:induction false} TargetRowsTellIds(rows: map<int, Row>, a: seq<int>, b: seq<int>)
    ensures TargetRowsOf(rows, a) == TargetRowsOf(rows, b) <==> a == b
    decreases |a|
  {
    if a != [] && b != [] {
      var read, other := TargetRowsOf(rows, a), TargetRowsOf(rows, b);
      assert read[0].id == a[0] && other[0].id == b[0];
      assert read[1..] == TargetRowsOf(rows, a[1..]) && other[1..] == TargetRowsOf(rows, b[1..]);
      TargetRowsTellIds(rows, a[1..], b[1..]);
      assert a == [a[0]] + a[1..] && b == [b[0]] + b[1..];
    }
  }

  lemma {:induction false} CompleteRowsReadAsExpected(table: map<int, Row>, rows: seq<Invoice>)
    requires forall i | 0 <= i < |rows| :: rows[i].id in table && table[rows[i].id] == CompleteRow(rows[i].cents)
    ensures TargetRowsOf(table, Ids(rows)) == Expected(rows)
  {
    if rows != [] {
      CompleteRowsReadAsExpected(table, rows[1..]);
      assert Ids(rows)[1..] == Ids(rows[1..]);
    }
  }

  /** The final read shows the fixture with its amounts in EUR exactly when the fixture was ascending. */
  lemma {:induction false} TargetReadMatches(rows: seq<Invoice>)
    requires forall i, j | 0 <= i < j < |rows| :: rows[i].id != rows[j].id
    ensures TargetRowsInOrder(CompleteTable(FixtureTable(rows))) == Expected(rows) <==> Ascending(rows)
  {
    FixtureHolds(rows);
    OrderedReadMatches(rows);
    CompleteReadTellsOrder(FixtureTable(rows), rows);
  }

  /** A fixture the row validation accepts, and whose final read is not what the engine compares it with. */
  lemma {:induction false} DescendingFixtureMismatch()
    ensures var rows := [Invoice(2, 5), Invoice(1, 7)];
            && ValidFixture(rows) && !Ascending(rows)
            && TargetRowsInOrder(CompleteTable(FixtureTable(rows))) != Expected(rows)
  {
    var rows := [Invoice(2, 5), Invoice(1, 7)];
    assert rows[0].id == 2 && rows[1].id == 1;
    TargetReadMatches(rows);
  }

  lemma {:induction false} CompleteReadTellsOrder(amounts: map<int, int>, rows: seq<Invoice>)
    requires forall i | 0 <= i < |rows| :: rows[i].id in amounts && amounts[rows[i].id] == rows[i].cents
    ensures TargetRowsInOrder(CompleteTable(amounts)) == Expected(rows) <==>
            Smallest(amounts.Keys, |amounts.Keys|) == Ids(rows)
  {
    var table := CompleteTable(amounts);
    assert table.Keys == amounts.Keys;
    ReadTellsOrder(table, rows);
  }

  lemma {:induction false} ReadTellsOrder(table: map<int, Row>, rows: seq<Invoice>)
    requires forall i | 0 <= i < |rows| :: rows[i].id in table && table[rows[i].id] == CompleteRow(rows[i].cents)
    ensures TargetRowsInOrder(table) == Expected(rows) <==> Smallest(table.Keys, |table.Keys|) == Ids(rows)
  {
    CompleteRowsReadAsExpected(table, rows);
    TargetRowsTellIds(table, Smallest(table.Keys, |table.Keys|), Ids(rows));
  }

  lemma {:induction false} LegacyRowsReadBack(table: map<int, Row>, rows: seq<Invoice>)
    requires forall i | 0 <= i < |rows| :: rows[i].id in table && AmountOf(table[rows[i].id]) == rows[i].cents
    ensures LegacyRowsOf(table, Ids(rows)) == rows
  {
    if rows != [] {
      LegacyRowsReadBack(table, rows[1..]);
      assert Ids(rows)[1..] == Ids(rows[1..]);
    }
  }

  lemma {:induction false} LegacyReadMatches(rows: seq<Invoice>)
    requires Ascending(rows)
    ensures LegacyRowsInOrder(LegacyRows(FixtureTable(rows))) == rows
  {
    FixtureHolds(rows);
    OrderedReadMatches(rows);
    assert LegacyRows(FixtureTable(rows)).Keys == FixtureTable(rows).Keys;
    LegacyRowsReadBack(LegacyRows(FixtureTable(rows)), rows);
  }

  // ---------------------------------------------------------------- the script

  /** How many batches a backfill of so many rows runs, the one that finds nothing included. */
  function Calls(rows: nat): nat {
    (rows + 255) / 256 + 1
  }

  /** `_start_backfill` bootstraps through 0003 first, which finds all three in the ledger. */
  function StartSteps(files: map<Version, Digest>): seq<Step>
    requires M0001 in files && M0002 in files && M0003 in files
  {
    [Apply(M0001, files[M0001], false), Apply(M0002, files[M0002], false), Apply(M0003, files[M0003], false),
     Step.EnterBackfill]
  }

  /** The transactions of one backfill cycle. */
  function CycleSteps(files: map<Version, Digest>, rows: nat): seq<Step>
    requires M0001 in files && M0002 in files && M0003 in files
  {
    StartSteps(files) + Batches(Calls(rows)) + [Finish] + [Batch(false)]
  }

  /** The transactions that bring an initial database to compatibility. */
  function ExpandSteps(files: map<Version, Digest>): seq<Step>
    requires M0002 in files && M0003 in files
  {
    [Apply(M0002, files[M0002], false), Apply(M0003, files[M0003], false)]
  }

  /** The transactions that take an initial database to switch. */
  function ForwardSteps(files: map<Version, Digest>, rows: nat): seq<Step>
    requires AllFiles(files)
  {
    ExpandSteps(files) + CycleSteps(files, rows) + [Apply(M0004, files[M0004], false)]
  }

  /** The transactions of a whole rehearsal: forward, down, forward again, contract. */
  function RehearsalSteps(files: map<Version, Digest>, rows: nat): seq<Step>
    requires AllFiles(files)
  {
    ForwardSteps(files, rows) + [Down(files)] + ForwardSteps(files, rows) + [Apply(M0005, files[M0005], false)]
  }

  lemma {:induction false} InARow(h: seq<Step>, a: seq<Step>, b: seq<Step>, c: seq<Step>, d: seq<Step>)
    ensures h + a + b + c + d == h + (a + b + c + d)
  {
  }

  lemma {:induction false} ForwardInARow(h: seq<Step>, files: map<Version, Digest>, rows: nat)
    requires AllFiles(files)
    ensures h + ExpandSteps(files) + CycleSteps(files, rows) + [Apply(M0004, files[M0004], false)] ==
            h + ForwardSteps(files, rows)
  {
  }

  method StartBackfill(db: Database, files: map<Version, Digest>)
    requires db.Valid() && db.committed.control.phase == Compatibility && FilesUnchanged(db.committed, files)
    modifies db
    ensures db.Valid()
    ensures db.committed == old(db.committed).(control := old(db.committed).control.(phase := Backfill))
    ensures db.origin == old(db.origin) && db.history == old(db.history) + StartSteps(files)
  {
    var reply := db.ApplyMigration(M0001, files[M0001], false);
    reply := db.ApplyMigration(M0002, files[M0002], false);
    reply := db.ApplyMigration(M0003, files[M0003], false);
    reply := db.MoveToBackfill();
  }

  /** The loop, and v2 with it; the table is then complete or v2 is refused. */
  method DrainAndEnable(db: Database) returns (ok: bool, rows: nat)
    requires db.Valid() && db.committed.control.phase == Backfill
    modifies db
    ensures db.Valid()
    ensures ok <==> forall id | id in old(db.committed).rows && id <= 0 :: old(db.committed).rows[id].minor.Val?
    ensures ok ==> db.committed == Next(Drain(old(db.committed)).state, Finish) && Candidates(db.committed) == {}
                   && db.committed.control.phase == Backfill
    ensures rows == |Candidates(old(db.committed))|
    ensures db.origin == old(db.origin) && db.history == old(db.history) + Batches(Calls(rows)) + [Finish]
  {
    DrainCalls(db.committed);
    FinishPassesExactlyWhen(db.committed);
    var calls;
    calls, rows := db.RunBatchesUntilDry();
    assert Candidates(db.committed) == {};
    var reply := db.FinishBackfillEnableV2();
    ok := !reply.Refused?;
  }

  /** `_backfill_cycle`: start, batches until dry, enable v2, one more batch. */
  method BackfillCycle(db: Database, files: map<Version, Digest>) returns (ok: bool, cycle: Cycle)
    requires db.Valid() && db.committed.control.phase == Compatibility && FilesUnchanged(db.committed, files)
    modifies db
    ensures db.Valid()
    ensures var start := old(db.committed).(control := old(db.committed).control.(phase := Backfill));
            && Filling(start)
            && (ok <==> forall id | id in start.rows && id <= 0 :: start.rows[id].minor.Val?)
            && (ok ==> db.committed == Next(Drain(start).state, Finish) && cycle == Cycle(|Candidates(start)|, 0))
            && (ok ==> db.history == old(db.history) + CycleSteps(files, |Candidates(start)|))
    ensures db.origin == old(db.origin)
  {
    cycle := Cycle(0, 0);
    StartBackfill(db, files);
    var enabled, firstPass := DrainAndEnable(db);
    if !enabled {
      return false, cycle;
    }
    var reply := db.RunBackfillBatch(false);
    if reply != Done(0) {
      return false, cycle;
    }
    InARow(old(db.history), StartSteps(files), Batches(Calls(firstPass)), [Finish], [Batch(false)]);
    return true, Cycle(firstPass, reply.count);
  }

  /** The backfill of a table of pending rows with positive ids completes every row. */
  lemma {:induction false} CycleCompletes(start: State)
    requires Filling(start) && start.control.lastId == 0
    requires forall id | id in start.rows :: 0 < id && start.rows[id].minor.Null?
    ensures Candidates(start) == start.rows.Keys
    ensures var t := Next(Drain(start).state, Finish);
            && t.control.phase == Backfill && t.control.v2Enabled && t.ledger == start.ledger
            && t.rows == CompleteTable(Amounts(start))
  {
    assert Candidates(start) == start.rows.Keys;
    DrainIsOneFill(start);
    FinishPassesExactlyWhen(start);
    var t := Drain(start).state;
    assert Next(t, Finish).rows == t.rows;
    FillOfAllCompletes(start);
  }

  lemma {:induction false} FillOfAllCompletes(s: State)
    requires Filling(s)
    ensures FillRows(s.rows, s.rows.Keys) == CompleteTable(Amounts(s))
  {
    var filled := FillRows(s.rows, s.rows.Keys);
    assert filled.Keys == CompleteTable(Amounts(s)).Keys;
    forall id | id in s.rows
      ensures filled[id] == CompleteTable(Amounts(s))[id]
    {
      assert RowFits(s.control, s.rows[id]);
    }
  }

  /** The cycle on a table of pending rows with positive ids. */
  method CompleteCycle(db: Database, files: map<Version, Digest>) returns (ok: bool, cycle: Cycle)
    requires db.Valid() && db.committed.control.phase == Compatibility && FilesUnchanged(db.committed, files)
    requires forall id | id in db.committed.rows :: 0 < id && db.committed.rows[id].minor.Null?
    modifies db
    ensures db.Valid() && ok && cycle == Cycle(|old(db.committed).rows.Keys|, 0)
    ensures db.committed.control.phase == Backfill && db.committed.control.v2Enabled
    ensures db.committed.ledger == old(db.committed).ledger
    ensures db.committed.rows == CompleteTable(Amounts(old(db.committed)))
    ensures db.origin == old(db.origin)
    ensures db.history == old(db.history) + CycleSteps(files, |old(db.committed).rows.Keys|)
  {
    ghost var filling := db.committed.(control := db.committed.control.(phase := Backfill));
    ok, cycle := BackfillCycle(db, files);
    CycleCompletes(filling);
    assert Amounts(filling) == Amounts(old(db.committed));
  }

  /** Migration 0004, once v2 is enabled. */
  method SwitchOver(db: Database, files: map<Version, Digest>)
    requires db.Valid() && db.committed.control.phase == Backfill && db.committed.control.v2Enabled
    requires FilesUnchanged(db.committed, files) && M0004 in files
    modifies db
    ensures db.Valid() && db.committed.control.phase == Switch && FilesUnchanged(db.committed, files)
    ensures M0001 in db.committed.ledger && M0001 in old(db.committed).ledger
    ensures db.committed.ledger[M0001] == old(db.committed).ledger[M0001]
    ensures db.committed.rows == old(db.committed).rows
    ensures db.origin == old(db.origin)
    ensures db.history == old(db.history) + [Apply(M0004, files[M0004], false)]
  {
    var reply := db.ApplyMigration(M0004, files[M0004], false);
  }

  /** Forward from an initial database to switch. */
  method Forward(db: Database, files: map<Version, Digest>) returns (ok: bool, cycle: Cycle)
    requires db.Valid() && db.committed.control.phase == Initial
    requires FilesUnchanged(db.committed, files) && AllFiles(files)
    requires forall id | id in db.committed.rows :: 0 < id
    modifies db
    ensures db.Valid() && ok && cycle == Cycle(|old(db.committed).rows.Keys|, 0)
    ensures db.committed.control.phase == Switch && FilesUnchanged(db.committed, files)
    ensures db.committed.ledger[M0001] == old(db.committed).ledger[M0001]
    ensures db.committed.rows == CompleteTable(Amounts(old(db.committed)))
    ensures db.origin == old(db.origin)
    ensures db.history == old(db.history) + ForwardSteps(files, |old(db.committed).rows.Keys|)
  {
    ghost var start := db.committed;
    Expand(db, files);
    ghost var expanded := db.committed;
    assert Amounts(expanded) == Amounts(start);
    ok, cycle := CompleteCycle(db, files);
    SwitchOver(db, files);
    ForwardInARow(old(db.history), files, |start.rows.Keys|);
  }

  /** Migrations 0002 and 0003, from an initial database. */
  method Expand(db: Database, files: map<Version, Digest>)
    requires db.Valid() && db.committed.control.phase == Initial
    requires FilesUnchanged(db.committed, files) && M0002 in files && M0003 in files
    modifies db
    ensures db.Valid() && db.committed.control.phase == Compatibility && FilesUnchanged(db.committed, files)
    ensures db.committed.ledger[M0001] == old(db.committed).ledger[M0001]
    ensures db.committed.rows == old(db.committed).rows
    ensures forall id | id in db.committed.rows :: db.committed.rows[id].minor.Null?
    ensures db.origin == old(db.origin)
    ensures db.history == old(db.history) + ExpandSteps(files)
  {
    assert forall id | id in db.committed.rows :: RowFits(db.committed.control, db.committed.rows[id]);
    var reply := db.ApplyMigration(M0002, files[M0002], false);
    reply := db.ApplyMigration(M0003, files[M0003], false);
  }

  lemma {:induction false} CompleteTableHolds(s: State, amounts: map<int, int>)
    requires s.rows == CompleteTable(amounts)
    ensures Amounts(s) == amounts
  {
    assert Amounts(s).Keys == amounts.Keys;
    forall id | id in amounts
      ensures Amounts(s)[id] == amounts[id]
    {
      assert s.rows[id] == CompleteRow(amounts[id]);
    }
  }

  function ObservedIn(s: State, files: map<Version, Digest>): Observed {
    Observed(s.control.phase, s.ledger.Keys == VersionsOf(Contract) && FilesUnchanged(s, files),
             forall id | id in s.rows :: s.rows[id].minor.Val? && s.rows[id].currency.Val?,
             !s.schema.legacyColumn, s.schema.finalChecks)
  }

  /** What `_observe_final` demands of it. */
  const FINAL_SHAPE: Observed := Observed(Contract, true, true, true, true)

  /**
   `run`: on every fixture the row validation accepts, both backfill cycles fill n rows and then none, the down
   restores the legacy rows exactly, and the end shows every amount in EUR; all of it exactly when the fixture
   is in ascending id order, because the reads are ordered and the expectation is not. A passed report is read from the
   database after exactly the transactions of forward, down, forward and contract.
   */
  method Rehearse(rows: seq<Invoice>, files: map<Version, Digest>) returns (report: Report, ghost steps: seq<Step>)
    requires AllFiles(files)
    ensures report ==
            if !ValidFixture(rows) then FixtureRejected
            else if !Ascending(rows) then SwitchRowsMismatch
            else Passed(Cycle(|rows|, 0), Cycle(|rows|, 0), rows, Expected(rows), FINAL_SHAPE)
    ensures report.Passed? ==>
              && steps == RehearsalSteps(files, |rows|)
              && var end := Run(InitialState(FixtureTable(rows), files[M0001]), steps);
                 report.destination == TargetRowsInOrder(end.rows) && report.observed == ObservedIn(end, files)
  {
    steps := [];
    var valid := ValidateRows(rows);
    if !valid {
      return FixtureRejected, steps;
    }
    ghost var table := FixtureTable(rows);
    ValidFixtureTable(rows);
    TargetReadMatches(rows);
    var db := new Database.Seeded(files[M0001]);
    var reply := db.ResetFixture(rows);
    var ok, first := ForwardFrom(db, files, table);
    if TargetRowsInOrder(db.committed.rows) != Expected(rows) {
      return SwitchRowsMismatch, db.history;
    }
    report := ReturnAndContract(db, rows, files, first);
    steps := db.history;
  }

  /** What is left of the script from the first switch on: down, forward again, contract. */
  method ReturnAndContract(db: Database, rows: seq<Invoice>, files: map<Version, Digest>, first: Cycle)
    returns (report: Report)
    requires AllFiles(files) && ValidFixture(rows) && Ascending(rows)
    requires db.Valid() && AtSwitch(db.committed, files, FixtureTable(rows))
    requires db.history == ForwardSteps(files, |rows|)
    modifies db
    ensures db.Valid() && db.origin == old(db.origin) && db.history == RehearsalSteps(files, |rows|)
    ensures report == Passed(first, Cycle(|rows|, 0), rows, Expected(rows), FINAL_SHAPE)
    ensures report.destination == TargetRowsInOrder(db.committed.rows)
    ensures report.observed == ObservedIn(db.committed, files)
  {
    ghost var table := FixtureTable(rows);
    ValidFixtureTable(rows);
    TargetReadMatches(rows);
    DownFrom(db, files, table);
    var restored := LegacyRowsInOrder(db.committed.rows);
    LegacyReadMatches(rows);
    if restored != rows {
      return RollbackMismatch;
    }
    var ok, second := ForwardFrom(db, files, table);
    ContractFrom(db, files, table);
    var destination := TargetRowsInOrder(db.committed.rows);
    var observed := ObservedIn(db.committed, files);
    if observed != FINAL_SHAPE || destination != Expected(rows) {
      return FinalMismatch;
    }
    return Passed(first, second, restored, destination, observed);
  }

  lemma {:induction false} ValidFixtureTable(rows: seq<Invoice>)
    requires ValidFixture(rows)
    ensures LegalFixture(rows) && |FixtureTable(rows).Keys| == |rows|
    ensures forall id | id in FixtureTable(rows) :: 0 < id
  {
    FixtureHolds(rows);
    FixtureKeys(rows);
  }

  predicate AllFiles(files: map<Version, Digest>) {
    M0001 in files && M0002 in files && M0003 in files && M0004 in files && M0005 in files
  }

  method ForwardFrom(db: Database, files: map<Version, Digest>, ghost table: map<int, int>)
    returns (ok: bool, cycle: Cycle)
    requires AllFiles(files)
    requires db.Valid() && db.committed == InitialState(table, files[M0001])
    requires forall id | id in table :: 0 < id
    modifies db
    ensures db.Valid() && ok && cycle == Cycle(|table.Keys|, 0)
    ensures AtSwitch(db.committed, files, table)
    ensures db.origin == old(db.origin) && db.history == old(db.history) + ForwardSteps(files, |table.Keys|)
  {
    InitialAmounts(table, files[M0001]);
    assert LegacyRows(table).Keys == table.Keys;
    ok, cycle := Forward(db, files);
  }

  ghost predicate AtSwitch(s: State, files: map<Version, Digest>, table: map<int, int>) {
    && s.control.phase == Switch && FilesUnchanged(s, files) && M0001 in s.ledger
    && s.rows == CompleteTable(table)
  }

  method DownFrom(db: Database, files: map<Version, Digest>, ghost table: map<int, int>)
    requires AllFiles(files) && db.Valid() && AtSwitch(db.committed, files, table)
    modifies db
    ensures db.Valid() && db.committed == InitialState(table, files[M0001])
    ensures db.origin == old(db.origin) && db.history == old(db.history) + [Down(files)]
  {
    CompleteTableHolds(db.committed, table);
    var reply := db.AttemptDown(files);
  }

  method ContractFrom(db: Database, files: map<Version, Digest>, ghost table: map<int, int>)
    requires AllFiles(files) && db.Valid() && AtSwitch(db.committed, files, table)
    modifies db
    ensures db.Valid() && ObservedIn(db.committed, files) == FINAL_SHAPE
    ensures TargetRowsInOrder(db.committed.rows) == TargetRowsInOrder(CompleteTable(table))
    ensures db.origin == old(db.origin)
    ensures db.history == old(db.history) + [Apply(M0005, files[M0005], false)]
  {
    ghost var before := db.committed;
    var reply := db.ApplyMigration(M0005, files[M0005], false);
    assert forall id | id in db.committed.rows :: RowFits(db.committed.control, db.committed.rows[id]);
    assert db.committed.rows.Keys == before.rows.Keys;
    TargetReadIgnoresLegacy(before.rows, db.committed.rows, Smallest(before.rows.Keys, |before.rows.Keys|));
  }

  /** Dropping the legacy column changes nothing the target read shows. */
  lemma {:induction false} TargetReadIgnoresLegacy(before: map<int, Row>, after: map<int, Row>, ids: seq<int>)
    requires after.Keys == before.Keys
    requires forall id | id in before :: after[id] == before[id].(cents := Null)
    ensures TargetRowsOf(after, ids) == TargetRowsOf(before, ids)
  {
    if ids != [] {
      TargetReadIgnoresLegacy(before, after, ids[1..]);
    }
  }
}
