/**
 The rehearsal database: its committed state, the SQL statements the migrations are made of, and
 what every transaction of src/migration_rehearsal/contract.py does to it.
 */
module InvoiceDatabase {
  import opened Sql
  import opened CompatibilityTrigger
  import opened Selection

  datatype Phase = Initial | Expand | Compatibility | Backfill | Switch | Contract

  datatype Version = M0001 | M0002 | M0003 | M0004 | M0005

  /** The SHA-256 of a migration file. */
  type Digest = string

  datatype Control = Control(phase: Phase, lastId: int, scanned: int, v2Enabled: bool)

  /** The shape of `invoices`: its columns, its row trigger and its constraints beyond migration 0001's. */
  datatype Schema = Schema(
    legacyColumn: bool, targetColumns: bool, trigger: bool,
    expandChecks: bool, targetNotNull: bool, finalChecks: bool)

  /** A cell of a column the table does not have is stored as `Null`. */
  datatype State = State(
    control: Control, ledger: map<Version, Digest>, schema: Schema,
    v1Granted: bool, v2Granted: bool, rows: map<int, Row>)

  datatype Error =
    | ChecksumMismatch | UnexpectedPhase | SwitchRequiresV2 | SwitchRequiresBackfill | InjectedFailure
    | InvalidPhaseTransition | BackfillPhaseRejected
    | CannotEnableOutsideBackfill | CannotEnableBeforeBackfill
    | DownForbiddenUsd | DownPhaseRejected | DownLedgerRejected | DownRepresentabilityRejected
    | ClientPhaseRejected | PermissionDenied | CheckViolation | UniqueViolation | StatementFailed

  datatype Result<+T> = Ok(value: T) | Err(error: Error) {
    predicate IsFailure() {
      Err?
    }

    function PropagateFailure<U>(): Result<U>
      requires Err?
    {
      Err(error)
    }

    function Extract(): T
      requires Ok?
    {
      value
    }
  }

  const BATCH_SIZE: nat := 256

  // ---------------------------------------------------------------- rows

  /** The constraints of `invoices` on one row, in its current shape. */
  predicate ConstraintsHold(schema: Schema, r: Row) {
    && (if schema.legacyColumn then r.cents.Val? && 0 <= r.cents.v && IsBigint(r.cents.v) else r.cents.Null?)
    && (r.minor.Val? ==> schema.targetColumns && IsBigint(r.minor.v))
    && (r.currency.Val? ==> schema.targetColumns)
    && (schema.expandChecks ==> Passes(ExpandChecks(r)))
    && (schema.targetNotNull ==> r.minor.Val? && r.currency.Val?)
    && (schema.finalChecks ==> Passes(FinalChecks(r)))
  }

  function ExpandChecks(r: Row): Tri {
    And(Or(IsNull(r.minor), Not(Less(r.minor, 0))), Or(IsNull(r.currency), Equal(r.currency, EUR)))
  }

  function FinalChecks(r: Row): Tri {
    And(Not(Less(r.minor, 0)), Or(Equal(r.currency, EUR), Equal(r.currency, Val("USD"))))
  }

  /** The outcome of updating one row: the trigger first, then the constraints. */
  function RowUpdate(schema: Schema, before: Row, after: Row): Outcome {
    var out := if schema.trigger then UpdateOutcome(before, after) else Accepted(after);
    if out.Accepted? && ConstraintsHold(schema, out.row) then out else Rejected
  }

  function RowInsert(schema: Schema, after: Row): Outcome {
    var out := if schema.trigger then InsertOutcome(after) else Accepted(after);
    if out.Accepted? && ConstraintsHold(schema, out.row) then out else Rejected
  }

  predicate UpdatePasses(schema: Schema, rows: map<int, Row>, targets: map<int, Row>) {
    forall id | id in targets && id in rows :: RowUpdate(schema, rows[id], targets[id]).Accepted?
  }

  /** The table after an `UPDATE` that gives each row of `targets` new values; absent rows match nothing. */
  function Updated(schema: Schema, rows: map<int, Row>, targets: map<int, Row>): map<int, Row>
    requires UpdatePasses(schema, rows, targets)
  {
    map id | id in rows :: if id in targets then RowUpdate(schema, rows[id], targets[id]).row else rows[id]
  }

  // ---------------------------------------------------------------- statements

  function AddTargetColumns(s: State): Result<State> {
    if s.schema.targetColumns then Err(StatementFailed)
    else Ok(s.(schema := s.schema.(targetColumns := true),
               rows := map id | id in s.rows :: s.rows[id].(minor := Null, currency := Null)))
  }

  /** `ADD CONSTRAINT ... NOT VALID`: later writes are checked, present rows are not. */
  function AddExpandChecks(s: State): Result<State> {
    if s.schema.expandChecks || !s.schema.targetColumns then Err(StatementFailed)
    else Ok(s.(schema := s.schema.(expandChecks := true)))
  }

  function ValidateExpandChecks(s: State): Result<State> {
    if !s.schema.expandChecks then Err(StatementFailed)
    else if exists id | id in s.rows :: !Passes(ExpandChecks(s.rows[id])) then Err(CheckViolation)
    else Ok(s)
  }

  function CreateTrigger(s: State): Result<State> {
    if s.schema.trigger then Err(StatementFailed) else Ok(s.(schema := s.schema.(trigger := true)))
  }

  function DropTrigger(s: State): Result<State> {
    if !s.schema.trigger then Err(StatementFailed) else Ok(s.(schema := s.schema.(trigger := false)))
  }

  function SetTargetNotNull(s: State): Result<State> {
    if !s.schema.targetColumns then Err(StatementFailed)
    else if exists id | id in s.rows :: s.rows[id].minor.Null? || s.rows[id].currency.Null? then Err(CheckViolation)
    else Ok(s.(schema := s.schema.(targetNotNull := true)))
  }

  function DropTargetNotNull(s: State): Result<State> {
    if !s.schema.targetColumns then Err(StatementFailed)
    else Ok(s.(schema := s.schema.(targetNotNull := false)))
  }

  function DropExpandChecks(s: State): Result<State> {
    if !s.schema.expandChecks then Err(StatementFailed) else Ok(s.(schema := s.schema.(expandChecks := false)))
  }

  function AddFinalChecks(s: State): Result<State> {
    if s.schema.finalChecks || !s.schema.targetColumns then Err(StatementFailed)
    else if exists id | id in s.rows :: !Passes(FinalChecks(s.rows[id])) then Err(CheckViolation)
    else Ok(s.(schema := s.schema.(finalChecks := true)))
  }

  function DropTargetColumns(s: State): Result<State> {
    if !s.schema.targetColumns then Err(StatementFailed)
    else Ok(s.(schema := s.schema.(targetColumns := false),
               rows := map id | id in s.rows :: s.rows[id].(minor := Null, currency := Null)))
  }

  function DropLegacyColumn(s: State): Result<State> {
    if !s.schema.legacyColumn then Err(StatementFailed)
    else Ok(s.(schema := s.schema.(legacyColumn := false),
               rows := map id | id in s.rows :: s.rows[id].(cents := Null)))
  }

  /** The phase trigger on `migration_control`; every caller here that goes down holds the exclusive lock. */
  predicate PhaseMoves(from: Phase, to: Phase, exclusive: bool) {
    || from == to
    || (from, to) in {(Initial, Expand), (Expand, Compatibility), (Compatibility, Backfill),
                      (Backfill, Switch), (Switch, Contract)}
    || (exclusive && to == Initial && from in {Expand, Compatibility, Backfill, Switch})
  }

  function SetControl(s: State, to: Control, exclusive: bool): Result<State> {
    if PhaseMoves(s.control.phase, to.phase, exclusive) then Ok(s.(control := to)) else Err(InvalidPhaseTransition)
  }

  // ---------------------------------------------------------------- the shape each phase fixes

  function VersionsOf(phase: Phase): set<Version> {
    match phase
    case Initial => {M0001}
    case Expand => {M0001, M0002}
    case Compatibility => {M0001, M0002, M0003}
    case Backfill => {M0001, M0002, M0003}
    case Switch => {M0001, M0002, M0003, M0004}
    case Contract => {M0001, M0002, M0003, M0004, M0005}
  }

  function SchemaOf(phase: Phase): Schema {
    match phase
    case Initial => Schema(true, false, false, false, false, false)
    case Expand => Schema(true, true, false, true, false, false)
    case Compatibility => Schema(true, true, true, true, false, false)
    case Backfill => Schema(true, true, true, true, false, false)
    case Switch => Schema(true, true, true, true, true, false)
    case Contract => Schema(false, true, false, false, true, true)
  }

  predicate V1Phase(phase: Phase) {
    phase in {Initial, Expand, Compatibility, Backfill}
  }

  predicate MiddlePhase(phase: Phase) {
    phase in {Expand, Compatibility, Backfill, Switch}
  }

  function Before(v: Version): Phase
    requires v != M0001
  {
    match v
    case M0002 => Initial
    case M0003 => Expand
    case M0004 => Backfill
    case M0005 => Switch
  }

  function After(v: Version): Phase {
    match v
    case M0001 => Initial
    case M0002 => Expand
    case M0003 => Compatibility
    case M0004 => Switch
    case M0005 => Contract
  }

  // ---------------------------------------------------------------- transactions

  /** One transaction against the database. Client writes carry the new value of each row they name. */
  datatype Step =
    | Apply(version: Version, digest: Digest, failBeforeCommit: bool)
    | EnterBackfill
    | Batch(rollback: bool)
    | Finish
    | Down(digests: map<Version, Digest>)
    | V1Update(cents: map<int, Cell<int>>)
    | V2Update(pairs: map<int, (Cell<int>, Cell<string>)>)
    | V2Insert(id: int, minor: Cell<int>, currency: Cell<string>)

  datatype Reply = Done(count: nat) | Skipped | Refused(error: Error)

  datatype Effect = Effect(state: State, reply: Reply)

  /** The rows the next batch would look at. */
  function Candidates(s: State): set<int> {
    set id | id in s.rows && s.control.lastId < id && s.rows[id].minor.Null?
  }

  function BatchIds(s: State): seq<int> {
    Smallest(Candidates(s), BATCH_SIZE)
  }

  /** The rows of `ids` filled from their legacy amount. */
  function FillRows(rows: map<int, Row>, ids: set<int>): map<int, Row> {
    map id | id in rows ::
      if id in ids then rows[id].(minor := rows[id].cents, currency := EUR) else rows[id]
  }

  /** The rows that keep v2 from being enabled. */
  predicate Mismatched(r: Row) {
    Holds(Or(Or(IsNull(r.minor), Not(Equal(r.cents, r.minor))), IsDistinct(r.currency, EUR)))
  }

  function Advanced(s: State, v: Version, digest: Digest): State {
    State(s.control.(phase := After(v)), s.ledger[v := digest], SchemaOf(After(v)), V1Phase(After(v)), s.v2Granted,
          if v == M0005 then map id | id in s.rows :: s.rows[id].(cents := Null) else s.rows)
  }

  /** A database that holds the given legacy table and nothing else. */
  function InitialState(amounts: map<int, int>, digest: Digest): State {
    State(Control(Initial, 0, 0, false), map[M0001 := digest], SchemaOf(Initial), true, false, LegacyRows(amounts))
  }

  function LegacyRows(amounts: map<int, int>): map<int, Row> {
    map id | id in amounts :: Row(Val(amounts[id]), Null, Null)
  }

  /** The amount each invoice holds, whichever column holds it. */
  function Amounts(s: State): map<int, int> {
    map id | id in s.rows :: AmountOf(s.rows[id])
  }

  function AmountOf(r: Row): int {
    if r.cents.Val? then r.cents.v else if r.minor.Val? then r.minor.v else 0
  }

  function ApplyEffect(s: State, v: Version, digest: Digest, failBeforeCommit: bool): Effect {
    if v in s.ledger then
      Effect(s, if s.ledger[v] == digest then Skipped else Refused(ChecksumMismatch))
    else if v == M0001 || s.control.phase != Before(v) then Effect(s, Refused(UnexpectedPhase))
    else if v == M0004 && !s.control.v2Enabled then Effect(s, Refused(SwitchRequiresV2))
    else if failBeforeCommit then Effect(s, Refused(InjectedFailure))
    else Effect(Advanced(s, v, digest), Done(1))
  }

  /** The update and the checkpoint of one batch. */
  function FillStep(s: State, ids: seq<int>): State {
    if ids == [] then s
    else s.(rows := FillRows(s.rows, Members(ids)),
            control := s.control.(lastId := ids[|ids| - 1], scanned := s.control.scanned + |ids|))
  }

  function BatchEffect(s: State, rollback: bool): Effect {
    if s.control.phase != Backfill then Effect(s, Refused(BackfillPhaseRejected))
    else
      var ids := BatchIds(s);
      Effect(if rollback then s else FillStep(s, ids), Done(|ids|))
  }

  function FinishEffect(s: State): Effect {
    if s.control.phase != Backfill then Effect(s, Refused(CannotEnableOutsideBackfill))
    else if exists id | id in s.rows :: Mismatched(s.rows[id]) then Effect(s, Refused(CannotEnableBeforeBackfill))
    else Effect(s.(v2Granted := true, control := s.control.(v2Enabled := true)), Done(1))
  }

  /** The migration files still have the digests the ledger recorded. */
  predicate FilesUnchanged(s: State, digests: map<Version, Digest>) {
    forall v | v in s.ledger :: v in digests && digests[v] == s.ledger[v]
  }

  function DownEffect(s: State, digests: map<Version, Digest>): Effect {
    if s.control.phase == Contract then
      Effect(s, Refused(if exists id | id in s.rows :: s.rows[id].currency == Val("USD") then DownForbiddenUsd
                        else DownPhaseRejected))
    else if !MiddlePhase(s.control.phase) then Effect(s, Refused(DownPhaseRejected))
    else if !FilesUnchanged(s, digests) || M0001 !in s.ledger then Effect(s, Refused(DownLedgerRejected))
    else Effect(InitialState(Amounts(s), s.ledger[M0001]), Done(1))
  }

  function UpdateEffect(s: State, targets: map<int, Row>): Effect {
    if UpdatePasses(s.schema, s.rows, targets) then
      Effect(s.(rows := Updated(s.schema, s.rows, targets)), Done(|targets.Keys * s.rows.Keys|))
    else Effect(s, Refused(CheckViolation))
  }

  function V1Targets(rows: map<int, Row>, cents: map<int, Cell<int>>): map<int, Row> {
    map id | id in cents && id in rows :: rows[id].(cents := cents[id])
  }

  function V2Targets(rows: map<int, Row>, pairs: map<int, (Cell<int>, Cell<string>)>): map<int, Row> {
    map id | id in pairs && id in rows :: rows[id].(minor := pairs[id].0, currency := pairs[id].1)
  }

  function InsertEffect(s: State, id: int, row: Row): Effect {
    var out := RowInsert(s.schema, row);
    if out.Rejected? || !IsBigint(id) then Effect(s, Refused(CheckViolation))
    else if id in s.rows then Effect(s, Refused(UniqueViolation))
    else Effect(s.(rows := s.rows[id := out.row]), Done(1))
  }

  /** What one transaction does to a database that satisfies the joint invariant. */
  function Transact(s: State, step: Step): Effect {
    match step
    case Apply(v, digest, fail) => ApplyEffect(s, v, digest, fail)
    case EnterBackfill =>
      if s.control.phase in {Compatibility, Backfill} then
        Effect(s.(control := s.control.(phase := Backfill)), Done(1))
      else Effect(s, Refused(InvalidPhaseTransition))
    case Batch(rollback) => BatchEffect(s, rollback)
    case Finish => FinishEffect(s)
    case Down(digests) => DownEffect(s, digests)
    case V1Update(cents) =>
      if s.v1Granted then UpdateEffect(s, V1Targets(s.rows, cents)) else Effect(s, Refused(PermissionDenied))
    case V2Update(pairs) =>
      if s.v2Granted then UpdateEffect(s, V2Targets(s.rows, pairs)) else Effect(s, Refused(PermissionDenied))
    case V2Insert(id, minor, currency) =>
      if s.v2Granted then InsertEffect(s, id, Row(Null, minor, currency)) else Effect(s, Refused(PermissionDenied))
  }

  function Next(s: State, step: Step): State {
    Transact(s, step).state
  }

  // ---------------------------------------------------------------- the joint invariant

  /** What the phase and the v2 flag say about one row. */
  predicate RowFits(control: Control, r: Row) {
    match control.phase
    case Initial => Pending(r) && IsBigint(r.cents.v)
    case Expand => Pending(r) && IsBigint(r.cents.v)
    case Compatibility => (Pending(r) || Complete(r)) && IsBigint(r.cents.v)
    case Backfill => (if control.v2Enabled then Complete(r) else Pending(r) || Complete(r)) && IsBigint(r.cents.v)
    case Switch => Complete(r) && IsBigint(r.cents.v)
    case Contract =>
      && r.cents.Null? && r.minor.Val? && 0 <= r.minor.v && IsBigint(r.minor.v)
      && r.currency in {EUR, Val("USD")}
  }

  /** The control row before the backfill, and after v2 is on. */
  predicate ControlFits(c: Control) {
    && (c.phase in {Initial, Expand, Compatibility} ==> c.lastId == 0 && c.scanned == 0 && !c.v2Enabled)
    && (c.phase in {Switch, Contract} ==> c.v2Enabled)
    && 0 <= c.lastId && 0 <= c.scanned
  }

  /** Every positive id up to the checkpoint has been filled. */
  predicate CheckpointFits(s: State) {
    forall id | id in s.rows && 0 < id <= s.control.lastId :: s.rows[id].minor.Val?
  }

  predicate Inv(s: State) {
    && s.ledger.Keys == VersionsOf(s.control.phase)
    && s.schema == SchemaOf(s.control.phase)
    && s.v1Granted == V1Phase(s.control.phase)
    && s.v2Granted == s.control.v2Enabled
    && ControlFits(s.control)
    && CheckpointFits(s)
    && forall id | id in s.rows :: IsBigint(id) && RowFits(s.control, s.rows[id])
  }
}
