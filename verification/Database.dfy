/**
 The transactions of src/migration_rehearsal/contract.py and src/migration_rehearsal/clients.py, statement by
 statement. Each works on a copy of the committed state and installs the copy only when it commits, so every
 early return is a rollback.
 */
module RehearsalDatabase {
  import opened Sql
  import opened CompatibilityTrigger
  import opened Selection
  import opened InvoiceDatabase
  import opened Protocol
  import opened ChunkedBackfill

  // ---------------------------------------------------------------- the migration files

  function Script0002(s: State): Result<State> {
    var s :- AddTargetColumns(s);
    var s :- AddExpandChecks(s);
    SetControl(s, s.control.(phase := Expand), true)
  }

  function Script0003(s: State): Result<State> {
    var s :- CreateTrigger(s);
    SetControl(s, s.control.(phase := Compatibility), true)
  }

  function Script0004(s: State): Result<State> {
    var s :- ValidateExpandChecks(s);
    var s :- SetTargetNotNull(s);
    var s :- SetControl(s, s.control.(phase := Switch), true);
    Ok(s.(v1Granted := false))
  }

  function Script0005(s: State): Result<State> {
    var s :- DropTrigger(s);
    var s :- DropExpandChecks(s);
    var s :- AddFinalChecks(s);
    var s :- DropLegacyColumn(s);
    SetControl(s, s.control.(phase := Contract), true)
  }

  /** The script of a migration that is not in the ledger yet; 0001 fails on the objects it finds. */
  function Script(v: Version, s: State): Result<State> {
    match v
    case M0001 => Err(StatementFailed)
    case M0002 => Script0002(s)
    case M0003 => Script0003(s)
    case M0004 => Script0004(s)
    case M0005 => Script0005(s)
  }

  /**
   From the phase it expects, each script runs every statement and leaves the shape the next phase fixes; for 0004
   the two validations and both `SET NOT NULL` need v2 enabled, and nothing more.
   */
  lemma {:induction false} ScriptAdvances(s: State, v: Version)
    requires Inv(s) && v != M0001 && s.control.phase == Before(v)
    requires v == M0004 ==> s.control.v2Enabled
    ensures Script(v, s) == Ok(Advanced(s, v, "").(ledger := s.ledger))
  {
    assert forall id | id in s.rows :: RowFits(s.control, s.rows[id]);
    if v == M0002 {
      SameRows(s);
    }
  }

  /** Statements of an accepted down, in order. */
  function UndoScript(s: State): Result<State> {
    var phase := s.control.phase;
    var s := s.(v2Granted := false);
    var s :- if phase == Switch then DropTargetNotNull(s) else Ok(s);
    var s :- if phase in {Compatibility, Backfill, Switch} then DropTrigger(s) else Ok(s);
    var s :- DropExpandChecks(s);
    var s :- DropTargetColumns(s);
    var s :- SetControl(s, Control(Initial, 0, 0, false), true);
    Ok(s.(ledger := map v | v in s.ledger && v == M0001 :: s.ledger[v], v1Granted := true))
  }

  /** From each of the four middle phases the down script runs to its end and leaves an initial database. */
  lemma {:induction false} UndoReturnsToInitial(s: State)
    requires Inv(s) && MiddlePhase(s.control.phase)
    ensures UndoScript(s) == Ok(InitialState(Amounts(s), s.ledger[M0001]))
  {
    LegacyTableIsLeft(s);
  }

  lemma {:induction false} LegacyTableIsLeft(s: State)
    requires Inv(s) && s.control.phase != Contract
    ensures (map id | id in s.rows :: s.rows[id].(minor := Null, currency := Null))
            == InitialState(Amounts(s), s.ledger[M0001]).rows
    ensures (map v | v in s.ledger && v == M0001 :: s.ledger[v]) == map[M0001 := s.ledger[M0001]]
  {
    var rows := map id | id in s.rows :: s.rows[id].(minor := Null, currency := Null);
    var t := InitialState(Amounts(s), s.ledger[M0001]);
    assert rows.Keys == t.rows.Keys;
    forall id | id in s.rows
      ensures rows[id] == t.rows[id]
    {
      assert RowFits(s.control, s.rows[id]);
    }
  }

  /** Adding the nullable columns leaves every row of the expand phase as it was. */
  lemma {:induction false} SameRows(s: State)
    requires Inv(s) && s.control.phase == Initial
    ensures (map id | id in s.rows :: s.rows[id].(minor := Null, currency := Null)) == s.rows
  {
    var rows := map id | id in s.rows :: s.rows[id].(minor := Null, currency := Null);
    assert rows.Keys == s.rows.Keys;
    forall id | id in s.rows
      ensures rows[id] == s.rows[id]
    {
      assert RowFits(s.control, s.rows[id]);
    }
  }

  /** An `UPDATE` of `invoices`: the trigger and the constraints on each row it matches, all rows or none. */
  method UpdateInvoices(s: State, targets: map<int, Row>) returns (r: Result<State>)
    ensures r == if UpdatePasses(s.schema, s.rows, targets) then Ok(s.(rows := Updated(s.schema, s.rows, targets)))
                 else Err(CheckViolation)
  {
    var rows := s.rows;
    var todo := targets.Keys * s.rows.Keys;
    while todo != {}
      invariant todo <= targets.Keys * s.rows.Keys
      invariant rows.Keys == s.rows.Keys
      invariant forall id | id in s.rows && (id !in targets || id in todo) :: rows[id] == s.rows[id]
      invariant forall id | id in s.rows && id in targets && id !in todo ::
          RowUpdate(s.schema, s.rows[id], targets[id]) == Accepted(rows[id])
      decreases todo
    {
      var id := PickAny(todo);
      var out := Accepted(targets[id]);
      if s.schema.trigger {
        out := OnUpdate(rows[id], targets[id]);
      }
      if out.Rejected? || !ConstraintsHold(s.schema, out.row) {
        return Err(CheckViolation);
      }
      rows := rows[id := out.row];
      todo := todo - {id};
    }
    AllUpdated(s.schema, s.rows, targets, rows);
    return Ok(s.(rows := rows));
  }

  lemma {:induction false} AllUpdated(
    schema: Schema, before: map<int, Row>, targets: map<int, Row>, after: map<int, Row>)
    requires after.Keys == before.Keys
    requires forall id | id in before && id !in targets :: after[id] == before[id]
    requires forall id | id in before && id in targets ::
               RowUpdate(schema, before[id], targets[id]) == Accepted(after[id])
    ensures UpdatePasses(schema, before, targets) && Updated(schema, before, targets) == after
  {
    var updated := Updated(schema, before, targets);
    assert updated.Keys == after.Keys;
    forall id | id in before
      ensures updated[id] == after[id]
    {
    }
  }

  // ---------------------------------------------------------------- checks the transactions count rows with

  /** The rows `attempt_down` refuses to leave behind. */
  predicate Unrepresentable(r: Row) {
    Holds(Or(FromBool(r.minor.Null? != r.currency.Null?),
             And(Not(IsNull(r.minor)), Or(IsDistinct(r.minor, r.cents), IsDistinct(r.currency, EUR)))))
  }

  /** With the joint invariant the representability check of a down never fires. */
  lemma {:induction false} EveryRowIsRepresentable(s: State, id: int)
    requires Inv(s) && s.control.phase != Contract && id in s.rows
    ensures !Unrepresentable(s.rows[id])
  {
    assert RowFits(s.control, s.rows[id]);
  }

  /** The versions a down expects in the ledger. */
  function ExpectedVersions(phase: Phase): set<Version> {
    {M0001}
    + (if phase in {Expand, Compatibility, Backfill, Switch} then {M0002} else {})
    + (if phase in {Compatibility, Backfill, Switch} then {M0003} else {})
    + (if phase == Switch then {M0004} else {})
  }

  // ---------------------------------------------------------------- legacy tables

  datatype Invoice = Invoice(id: int, cents: int)

  /** The rows `_seed_invoices` inserts. */
  function SeedTable(): (t: map<int, int>)
    ensures LegalTable(t)
  {
    map id | 1 <= id <= 4096 :: (id * 7919) % 1_000_000 + 1
  }

  predicate LegalFixture(fixture: seq<Invoice>) {
    && (forall i | 0 <= i < |fixture| :: IsBigint(fixture[i].id) && 0 <= fixture[i].cents && IsBigint(fixture[i].cents))
    && (forall i, j | 0 <= i < j < |fixture| :: fixture[i].id != fixture[j].id)
  }

  function FixtureTable(fixture: seq<Invoice>): map<int, int> {
    if fixture == [] then map[]
    else FixtureTable(fixture[..|fixture| - 1])[fixture[|fixture| - 1].id := fixture[|fixture| - 1].cents]
  }

  lemma {:induction false} FixtureKeys(fixture: seq<Invoice>)
    ensures forall id :: id in FixtureTable(fixture) <==> exists k | 0 <= k < |fixture| :: fixture[k].id == id
  {
    if fixture != [] {
      FixtureKeys(fixture[..|fixture| - 1]);
    }
  }

  lemma {:induction false} LegalFixtureMakesLegalTable(fixture: seq<Invoice>)
    requires LegalFixture(fixture)
    ensures LegalTable(FixtureTable(fixture))
  {
    if fixture != [] {
      LegalFixtureMakesLegalTable(fixture[..|fixture| - 1]);
    }
  }

  /** One insert per invoice into an empty table of the initial shape. */
  method InsertAll(fixture: seq<Invoice>) returns (rows: map<int, Row>, reply: Reply)
    ensures reply == Done(|fixture|) <==> LegalFixture(fixture)
    ensures if LegalFixture(fixture) then rows == LegacyRows(FixtureTable(fixture)) else reply.Refused?
  {
    rows := map[];
    for i := 0 to |fixture|
      invariant LegalFixture(fixture[..i])
      invariant rows == LegacyRows(FixtureTable(fixture[..i]))
    {
      var row := Row(Val(fixture[i].cents), Null, Null);
      if !ConstraintsHold(SchemaOf(Initial), row) || !IsBigint(fixture[i].id) {
        return rows, Refused(CheckViolation);
      }
      FixtureKeys(fixture[..i]);
      if fixture[i].id in rows {
        return rows, Refused(UniqueViolation);
      }
      rows := rows[fixture[i].id := row];
      assert fixture[..i + 1][..i] == fixture[..i];
    }
    assert fixture[..|fixture|] == fixture;
    return rows, Done(|fixture|);
  }

  // ---------------------------------------------------------------- the database

  /** So many batches that are to commit. */
  function Batches(n: nat): seq<Step> {
    seq(n, i => Batch(false))
  }

  lemma {:induction false} BatchesOneMore(h: seq<Step>, n: nat)
    ensures h + Batches(n) + [Batch(false)] == h + Batches(n + 1)
  {
    assert Batches(n) + [Batch(false)] == Batches(n + 1);
  }

  /** `history` holds the transactions since `origin`, the state after the last reset. */
  class Database {
    var committed: State
    ghost var origin: State
    ghost var history: seq<Step>

    ghost predicate Valid()
      reads this
    {
      Inv(committed) && committed == Run(origin, history)
    }

    ghost method Begin(step: Step)
      requires Valid()
      modifies this`history
      ensures history == old(history) + [step]
      ensures Run(origin, history) == Next(committed, step) && Inv(Next(committed, step))
    {
      StepKeepsInv(committed, step);
      RunsCompose(origin, history, [step]);
      assert Run(committed, [step]) == Next(committed, step);
      history := history + [step];
    }

    /** A database that migration 0001 has just created, holding the given legacy table. */
    constructor (amounts: map<int, int>, digest: Digest)
      requires LegalTable(amounts)
      ensures Valid() && committed == InitialState(amounts, digest) && origin == committed && history == []
    {
      committed := InitialState(amounts, digest);
      origin, history := InitialState(amounts, digest), [];
    }

    /** A database that migration 0001 has just created, with the rows it is seeded with. */
    constructor Seeded(digest: Digest)
      ensures Valid() && committed == InitialState(SeedTable(), digest) && origin == committed && history == []
    {
      committed := InitialState(SeedTable(), digest);
      origin, history := InitialState(SeedTable(), digest), [];
    }

    /** The fixture reset of the engine: every invoice is deleted and the given ones are inserted, in one go. */
    method ResetFixture(fixture: seq<Invoice>) returns (reply: Reply)
      requires Valid() && committed.control.phase == Initial
      modifies this
      ensures Valid()
      ensures if LegalFixture(fixture)
              then reply == Done(|fixture|)
                   && committed == InitialState(FixtureTable(fixture), old(committed).ledger[M0001])
                   && origin == committed && history == []
              else reply.Refused? && committed == old(committed) && origin == old(origin) && history == old(history)
    {
      InitialPhaseIsInitialState(committed);
      if LegalFixture(fixture) {
        LegalFixtureMakesLegalTable(fixture);
      }
      var rows, inserted := InsertAll(fixture);
      if inserted.Refused? {
        return inserted;
      }
      committed := committed.(rows := rows);
      origin, history := committed, [];
      return Done(|fixture|);
    }

    /** `_apply_migration`. */
    method ApplyMigration(version: Version, digest: Digest, failBeforeCommit: bool) returns (reply: Reply)
      requires Valid()
      modifies this
      ensures Valid()
      ensures Effect(committed, reply) == Transact(old(committed), Apply(version, digest, failBeforeCommit))
      ensures origin == old(origin) && history == old(history) + [Apply(version, digest, failBeforeCommit)]
      ensures failBeforeCommit ==> committed == old(committed)
      ensures reply == Refused(InjectedFailure) <==>
              failBeforeCommit && Transact(old(committed), Apply(version, digest, false)).reply == Done(1)
    {
      Begin(Apply(version, digest, failBeforeCommit));
      var work := committed;
      if version in work.ledger {
        if work.ledger[version] != digest {
          return Refused(ChecksumMismatch);
        }
        return Skipped;
      }
      if work.control.phase != Before(version) {
        return Refused(UnexpectedPhase);
      }
      if version == M0004 {
        if !work.control.v2Enabled {
          return Refused(SwitchRequiresV2);
        }
        if exists id | id in work.rows :: Mismatched(work.rows[id]) {
          return Refused(SwitchRequiresBackfill);
        }
      }
      ScriptAdvances(work, version);
      var script := Script(version, work);
      if failBeforeCommit && script.Ok? {
        return Refused(InjectedFailure);
      }
      reply := Answer(script, 1);
      if script.Ok? {
        committed := script.value.(ledger := script.value.ledger[version := digest]);
      }
    }

    /** The transaction of `_start_backfill` that moves the phase. */
    method MoveToBackfill() returns (reply: Reply)
      requires Valid()
      modifies this
      ensures Valid()
      ensures Effect(committed, reply) == Transact(old(committed), Step.EnterBackfill)
      ensures origin == old(origin) && history == old(history) + [Step.EnterBackfill]
    {
      Begin(Step.EnterBackfill);
      var moved := SetControl(committed, committed.control.(phase := Backfill), true);
      reply := Answer(moved, 1);
      if moved.Ok? {
        committed := moved.value;
      }
    }

    /** `_run_backfill_batch`. */
    method RunBackfillBatch(rollbackAfterUpdate: bool) returns (reply: Reply)
      requires Valid()
      modifies this
      ensures Valid()
      ensures Effect(committed, reply) == Transact(old(committed), Batch(rollbackAfterUpdate))
      ensures origin == old(origin) && history == old(history) + [Batch(rollbackAfterUpdate)]
      ensures rollbackAfterUpdate ==> committed == old(committed)
      ensures reply == Transact(old(committed), Batch(false)).reply
    {
      Begin(Batch(rollbackAfterUpdate));
      if committed.control.phase != Backfill {
        return Refused(BackfillPhaseRejected);
      }
      var ids := Smallest(Candidates(committed), BATCH_SIZE);
      if ids == [] {
        return Done(0);
      }
      var batch := BatchUpdate(committed, ids);
      reply := Answer(batch, |ids|);
      if batch.Ok? && !rollbackAfterUpdate {
        committed := batch.value;
      }
    }

    /** `_finish_backfill_enable_v2`. */
    method FinishBackfillEnableV2() returns (reply: Reply)
      requires Valid()
      modifies this
      ensures Valid()
      ensures Effect(committed, reply) == Transact(old(committed), Finish)
      ensures origin == old(origin) && history == old(history) + [Finish]
    {
      Begin(Finish);
      var work := committed;
      if work.control.phase != Backfill {
        return Refused(CannotEnableOutsideBackfill);
      }
      if exists id | id in work.rows :: Mismatched(work.rows[id]) {
        return Refused(CannotEnableBeforeBackfill);
      }
      work := work.(v2Granted := true);
      work := work.(control := work.control.(v2Enabled := true));
      committed := work;
      return Done(1);
    }

    /** `attempt_down`. */
    method AttemptDown(digests: map<Version, Digest>) returns (reply: Reply)
      requires Valid()
      modifies this
      ensures Valid()
      ensures Effect(committed, reply) == Transact(old(committed), Down(digests))
      ensures origin == old(origin) && history == old(history) + [Down(digests)]
    {
      Begin(Down(digests));
      var work := committed;
      var phase := work.control.phase;
      if phase == Contract {
        if exists id | id in work.rows :: work.rows[id].currency == Val("USD") {
          return Refused(DownForbiddenUsd);
        }
        return Refused(DownPhaseRejected);
      }
      if phase !in {Expand, Compatibility, Backfill, Switch} {
        return Refused(DownPhaseRejected);
      }
      var versions := ExpectedVersions(phase);
      if work.ledger.Keys != versions
         || exists v | v in versions && v in work.ledger :: v !in digests || digests[v] != work.ledger[v] {
        return Refused(DownLedgerRejected);
      }
      if exists id | id in work.rows :: Unrepresentable(work.rows[id]) {
        ghost var id :| id in work.rows && Unrepresentable(work.rows[id]);
        EveryRowIsRepresentable(work, id);
        return Refused(DownRepresentabilityRejected);
      }
      UndoReturnsToInitial(work);
      var undone := UndoScript(work);
      reply := Answer(undone, 1);
      if undone.Ok? {
        committed := undone.value;
      }
    }

    /** A client transaction of v1: any update of `amount_cents`. */
    method WriteV1(cents: map<int, Cell<int>>) returns (reply: Reply)
      requires Valid()
      modifies this
      ensures Valid()
      ensures Effect(committed, reply) == Transact(old(committed), V1Update(cents))
      ensures origin == old(origin) && history == old(history) + [V1Update(cents)]
    {
      Begin(V1Update(cents));
      if !committed.v1Granted {
        return Refused(PermissionDenied);
      }
      var targets := V1Targets(committed.rows, cents);
      var updated := UpdateInvoices(committed, targets);
      reply := Answer(updated, |targets.Keys * committed.rows.Keys|);
      if updated.Ok? {
        committed := updated.value;
      }
    }

    /** A client transaction of v2: any update of the target pair. */
    method WriteV2(pairs: map<int, (Cell<int>, Cell<string>)>) returns (reply: Reply)
      requires Valid()
      modifies this
      ensures Valid()
      ensures Effect(committed, reply) == Transact(old(committed), V2Update(pairs))
      ensures origin == old(origin) && history == old(history) + [V2Update(pairs)]
    {
      Begin(V2Update(pairs));
      if !committed.v2Granted {
        return Refused(PermissionDenied);
      }
      var targets := V2Targets(committed.rows, pairs);
      var updated := UpdateInvoices(committed, targets);
      reply := Answer(updated, |targets.Keys * committed.rows.Keys|);
      if updated.Ok? {
        committed := updated.value;
      }
    }

    /** A client transaction of v2: one insert of a target pair. */
    method InsertV2(id: int, minor: Cell<int>, currency: Cell<string>) returns (reply: Reply)
      requires Valid()
      modifies this
      ensures Valid()
      ensures Effect(committed, reply) == Transact(old(committed), V2Insert(id, minor, currency))
      ensures origin == old(origin) && history == old(history) + [V2Insert(id, minor, currency)]
    {
      Begin(V2Insert(id, minor, currency));
      if !committed.v2Granted {
        return Refused(PermissionDenied);
      }
      var row := Row(Null, minor, currency);
      var out := Accepted(row);
      if committed.schema.trigger {
        out := OnInsert(row);
      }
      if out.Rejected? || !ConstraintsHold(committed.schema, out.row) || !IsBigint(id) {
        return Refused(CheckViolation);
      }
      if id in committed.rows {
        return Refused(UniqueViolation);
      }
      committed := committed.(rows := committed.rows[id := out.row]);
      return Done(1);
    }

    /** `attempt_v1_write`: the phase check of an admitted v1 client, then its update. */
    method AttemptV1Write() returns (reply: Reply)
      requires Valid()
      modifies this
      ensures Valid()
      ensures Effect(committed, reply) ==
              if V1Phase(old(committed).control.phase)
              then Transact(old(committed), V1Update(V1Increments(old(committed).rows)))
              else Effect(old(committed), Refused(ClientPhaseRejected))
    {
      if committed.control.phase !in {Initial, Expand, Compatibility, Backfill} {
        return Refused(ClientPhaseRejected);
      }
      reply := WriteV1(V1Increments(committed.rows));
    }

    /** The transaction of a concurrent client, which also needs the backfill phase and, for v2, the v2 flag. */
    method ClientActor(v2: bool) returns (reply: Reply)
      requires Valid()
      modifies this
      ensures Valid()
      ensures Effect(committed, reply) ==
              if old(committed).control.phase != Backfill || (v2 && !old(committed).control.v2Enabled)
              then Effect(old(committed), Refused(ClientPhaseRejected))
              else Transact(old(committed), if v2 then V2Update(V2Increments(old(committed).rows))
                                            else V1Update(V1Increments(old(committed).rows)))
    {
      if committed.control.phase != Backfill || (v2 && !committed.control.v2Enabled) {
        return Refused(ClientPhaseRejected);
      }
      if v2 {
        reply := WriteV2(V2Increments(committed.rows));
      } else {
        reply := WriteV1(V1Increments(committed.rows));
      }
    }

    /** The loop of `_enter_backfill`: batches until one finds nothing, then v2. `calls` counts the batches. */
    method FillAndEnableV2() returns (calls: nat, reply: Reply)
      requires Valid() && committed.control.phase == Backfill
      modifies this
      ensures Valid()
      ensures calls == (|Candidates(old(committed))| + BATCH_SIZE - 1) / BATCH_SIZE + 1
      ensures reply == Done(1) <==>
              forall id | id in old(committed).rows && id <= 0 :: old(committed).rows[id].minor.Val?
      ensures Effect(committed, reply) == Transact(Drain(old(committed)).state, Finish)
      ensures origin == old(origin) && history == old(history) + Batches(calls) + [Finish]
    {
      DrainCalls(committed);
      FinishPassesExactlyWhen(committed);
      var rows;
      calls, rows := RunBatchesUntilDry();
      reply := FinishBackfillEnableV2();
    }

    /** One batch of the loop, and what is left of the drain after it. */
    method DrainOnce() returns (count: nat)
      requires Valid() && committed.control.phase == Backfill
      modifies this
      ensures Valid() && committed.control.phase == Backfill
      ensures origin == old(origin) && history == old(history) + [Batch(false)]
      ensures count + |Candidates(committed)| == |Candidates(old(committed))|
      ensures Drain(old(committed)) ==
              if count == 0 then Drained(committed, 1)
              else Drained(Drain(committed).state, Drain(committed).calls + 1)
      ensures count == 0 ==> Candidates(committed) == {}
    {
      DrainUnfolds(committed);
      var batch := RunBackfillBatch(false);
      count := batch.count;
    }

    /** Batches until one finds nothing: how many calls, and how many rows they reported together. */
    method RunBatchesUntilDry() returns (calls: nat, rows: nat)
      requires Valid() && committed.control.phase == Backfill
      modifies this
      ensures Valid() && Drained(committed, calls) == Drain(old(committed))
      ensures origin == old(origin) && history == old(history) + Batches(calls)
      ensures rows == |Candidates(old(committed))|
    {
      ghost var drained, before := Drain(committed), history;
      calls, rows := 0, 0;
      var more := true;
      while more
        invariant Valid() && committed.control.phase == Backfill
        invariant origin == old(origin) && history == before + Batches(calls)
        invariant drained ==
                  if more then Drained(Drain(committed).state, Drain(committed).calls + calls)
                  else Drained(committed, calls)
        invariant !more ==> Candidates(committed) == {}
        invariant rows + |Candidates(committed)| == |Candidates(old(committed))|
        decreases |Candidates(committed)|, more
      {
        var count := DrainOnce();
        BatchesOneMore(before, calls);
        calls := calls + 1;
        rows := rows + count;
        more := count > 0;
      }
    }
  }

  /** The update and the checkpoint of one batch, before it commits or rolls back. */
  method BatchUpdate(s: State, ids: seq<int>) returns (r: Result<State>)
    requires Filling(s) && ids != [] && Members(ids) <= s.rows.Keys
    ensures r == Ok(FillStep(s, ids))
  {
    var taken := Members(ids);
    var targets := map id | id in s.rows && id in taken :: s.rows[id].(minor := s.rows[id].cents, currency := EUR);
    BatchUpdatePasses(s, targets, taken);
    var updated := UpdateInvoices(s, targets);
    r := WithCheckpoint(updated, ids[|ids| - 1], |ids|);
  }

  function WithCheckpoint(r: Result<State>, lastId: int, count: nat): Result<State> {
    var s :- r;
    SetControl(s, s.control.(lastId := lastId, scanned := s.control.scanned + count), false)
  }

  /** What the caller of a transaction sees. */
  function Answer(r: Result<State>, count: nat): Reply {
    match r
    case Ok(_) => Done(count)
    case Err(error) => Refused(error)
  }

  /** The batch's own update passes the trigger and the constraints on every row it takes. */
  lemma {:induction false} BatchUpdatePasses(s: State, targets: map<int, Row>, ids: set<int>)
    requires Inv(s) && s.control.phase == Backfill && ids <= s.rows.Keys
    requires targets == map id | id in s.rows && id in ids :: s.rows[id].(minor := s.rows[id].cents, currency := EUR)
    ensures UpdatePasses(s.schema, s.rows, targets)
    ensures Updated(s.schema, s.rows, targets) == FillRows(s.rows, ids)
  {
    forall id | id in s.rows && id in ids
      ensures RowUpdate(s.schema, s.rows[id], targets[id]) == Accepted(FillRows(s.rows, ids)[id])
    {
      assert RowFits(s.control, s.rows[id]);
      FillPasses(s.rows[id]);
    }
    assert Updated(s.schema, s.rows, targets).Keys == FillRows(s.rows, ids).Keys;
  }
}
