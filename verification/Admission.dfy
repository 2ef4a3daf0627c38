/**
 The advisory lock. Clients and batches hold it shared from admission to commit; migrations, the start of the
 backfill, enabling v2 and going down hold it exclusive. Every interleaving of such transactions is considered.
 */
module Admission {
  import opened Sql
  import opened CompatibilityTrigger
  import opened Selection
  import opened InvoiceDatabase
  import opened Protocol
  import opened ChunkedBackfill

  type Tid = nat

  /** What a shared transaction reads the phase for. */
  datatype Gate = V1Attempt | V1Actor | V2Actor | BatchGate

  /** The condition a shared transaction checks once, after it has the lock. */
  predicate Admits(gate: Gate, c: Control) {
    match gate
    case V1Attempt => V1Phase(c.phase)
    case V1Actor => c.phase == Backfill
    case V2Actor => c.phase == Backfill && c.v2Enabled
    case BatchGate => c.phase == Backfill
  }

  /** The steps a transaction with the given gate may commit. */
  predicate MayCommit(gate: Gate, step: Step) {
    match gate
    case V1Attempt => step.V1Update?
    case V1Actor => step.V1Update?
    case V2Actor => step.V2Update?
    case BatchGate => step == Batch(false)
  }

  predicate NeedsExclusive(step: Step) {
    step.Apply? || step.EnterBackfill? || step.Finish? || step.Down?
  }

  /**
   An open transaction. An admitted batch has locked the control row and the rows in `locked`. A client that wrote
   and a batch that filled have locked the rows in `rows`, whose new values nobody else sees before the commit.
   */
  datatype Session =
    | Waiting(gate: Gate)
    | Admitted(gate: Gate, locked: seq<int>)
    | Wrote(gate: Gate, step: Step, rows: map<int, Row>)
    | FilledBatch(locked: seq<int>, rows: map<int, Row>)
    | Exclusive

  /** A committed transaction, with the phase and v2 flag it committed under. */
  datatype Entry = Entry(gate: Gate, committedUnder: Control)

  datatype System = System(db: State, open: map<Tid, Session>, log: seq<Entry>)

  datatype Event =
    | AcquireShared(t: Tid, gate: Gate)
    | AcquireExclusive(t: Tid)
    | Admit(t: Tid)
    | Write(t: Tid, step: Step)
    | CommitShared(t: Tid)
    | CommitExclusive(t: Tid, step: Step)
    | Rollback(t: Tid)
    | CommitUnlocked(step: Step)

  predicate ExclusiveHeld(y: System) {
    exists t | t in y.open :: y.open[t].Exclusive?
  }

  /** The rows a session has locked. */
  function Locks(session: Session): set<int> {
    match session
    case Admitted(_, locked) => Members(locked)
    case Wrote(_, _, rows) => rows.Keys
    case FilledBatch(_, rows) => rows.Keys
    case _ => {}
  }

  /** No other session has locked a row the step names. */
  predicate Unlocked(others: map<Tid, Session>, ids: set<int>) {
    forall t | t in others :: Locks(others[t]) !! ids
  }

  function WrittenIds(step: Step): set<int> {
    match step
    case V1Update(cents) => cents.Keys
    case V2Update(pairs) => pairs.Keys
    case V2Insert(id, _, _) => {id}
    case _ => {}
  }

  predicate IsBatch(session: Session) {
    session.FilledBatch? || (session.Admitted? && session.gate == BatchGate)
  }

  predicate BatchOpen(y: System) {
    exists t | t in y.open :: IsBatch(y.open[t])
  }

  /**
   Whether the event can happen now: the lock manager grants shared next to shared and exclusive only alone, the
   control row admits one batch at a time, and whoever locks a row waits for the one that has locked it.
   */
  predicate Enabled(y: System, e: Event) {
    match e
    case AcquireShared(t, gate) => t !in y.open && !ExclusiveHeld(y)
    case AcquireExclusive(t) => y.open == map[]
    case Admit(t) =>
      && t in y.open && y.open[t].Waiting?
      && (y.open[t].gate == BatchGate ==> !BatchOpen(y) && Unlocked(Close(y, t), Members(BatchIds(y.db))))
    case Write(t, step) =>
      && t in y.open && y.open[t].Admitted? && MayCommit(y.open[t].gate, step)
      && Unlocked(Close(y, t), WrittenIds(step))
    case CommitShared(t) => t in y.open && (y.open[t].Wrote? || y.open[t].FilledBatch?)
    case CommitExclusive(t, step) => t in y.open && y.open[t].Exclusive? && NeedsExclusive(step)
    case Rollback(t) => t in y.open
    case CommitUnlocked(step) => IsClient(step) && Unlocked(y.open, WrittenIds(step))
  }

  function Close(y: System, t: Tid): map<Tid, Session> {
    y.open - {t}
  }

  /** The step on the rows that are there when it is executed. */
  function Narrowed(db: State, step: Step): Step {
    match step
    case V1Update(cents) => V1Update(map id | id in cents && id in db.rows :: cents[id])
    case V2Update(pairs) => V2Update(map id | id in pairs && id in db.rows :: pairs[id])
    case _ => step
  }

  /** The rows an update writes, with the values it gives them, if it is executed now. */
  function Written(db: State, step: Step): map<int, Row> {
    map id | id in db.rows && id in WrittenIds(step) && id in Next(db, step).rows :: Next(db, step).rows[id]
  }

  /** The rows a batch fills, with the values it gives them. */
  function BatchRows(db: State, locked: seq<int>): map<int, Row> {
    map id | id in db.rows && id in Members(locked) :: db.rows[id].(minor := db.rows[id].cents, currency := EUR)
  }

  /** Rows that appear in the table. */
  function Installed(db: State, rows: map<int, Row>): State {
    db.(rows := map id | id in db.rows :: if id in rows then rows[id] else db.rows[id])
  }

  /** The database when a session commits what it wrote; a batch also moves the checkpoint. */
  function Committed(db: State, session: Session): State
    requires session.Wrote? || session.FilledBatch?
  {
    if session.Wrote? || session.locked == [] then Installed(db, session.rows)
    else
      Installed(db, session.rows).(
        control := db.control.(lastId := session.locked[|session.locked| - 1],
                               scanned := db.control.scanned + |session.locked|))
  }

  function GateOf(session: Session): Gate {
    match session
    case Waiting(gate) => gate
    case Admitted(gate, _) => gate
    case Wrote(gate, _, _) => gate
    case _ => BatchGate
  }

  /** An executed step: refused and rolled back, or its rows written and locked. */
  function AfterWrite(y: System, t: Tid, step: Step): map<Tid, Session>
    requires t in y.open && y.open[t].Admitted?
  {
    var session, narrow := y.open[t], Narrowed(y.db, step);
    if Transact(y.db, narrow).reply.Refused? then Close(y, t)
    else if session.gate == BatchGate then
      y.open[t := FilledBatch(session.locked, BatchRows(y.db, session.locked))]
    else y.open[t := Wrote(session.gate, narrow, Written(y.db, narrow))]
  }

  function Happen(y: System, e: Event): System
    requires Enabled(y, e)
  {
    match e
    case AcquireShared(t, gate) => y.(open := y.open[t := Waiting(gate)])
    case AcquireExclusive(t) => y.(open := y.open[t := Exclusive])
    case Admit(t) =>
      var gate := y.open[t].gate;
      if !Admits(gate, y.db.control) then y.(open := Close(y, t))
      else y.(open := y.open[t := Admitted(gate, if gate == BatchGate then BatchIds(y.db) else [])])
    case Write(t, step) => y.(open := AfterWrite(y, t, step))
    case CommitShared(t) =>
      System(Committed(y.db, y.open[t]), Close(y, t), y.log + [Entry(GateOf(y.open[t]), y.db.control)])
    case CommitExclusive(t, step) => y.(db := Next(y.db, step), open := Close(y, t))
    case Rollback(t) => y.(open := Close(y, t))
    case CommitUnlocked(step) => y.(db := Next(y.db, step))
  }

  // ---------------------------------------------------------------- what every event keeps

  /**
   The check a session made still holds, a batch's locked rows are still the ones it would take, and what a session
   wrote is what its step would write now.
   */
  predicate SessionFits(db: State, session: Session) {
    match session
    case Admitted(gate, locked) => Admits(gate, db.control) && locked == if gate == BatchGate then BatchIds(db) else []
    case Wrote(gate, step, rows) => Admits(gate, db.control) && MayCommit(gate, step) && WroteFits(db, step, rows)
    case FilledBatch(locked, rows) =>
      Admits(BatchGate, db.control) && locked == BatchIds(db) && rows == BatchRows(db, locked)
    case _ => true
  }

  predicate WroteFits(db: State, step: Step, rows: map<int, Row>) {
    && (step.V1Update? || step.V2Update?) && WrittenIds(step) <= db.rows.Keys
    && Transact(db, step).reply.Done? && rows == Written(db, step)
  }

  predicate LogFits(log: seq<Entry>) {
    forall i | 0 <= i < |log| :: Admits(log[i].gate, log[i].committedUnder)
  }

  predicate LockInv(y: System) {
    && Inv(y.db)
    && (forall t | t in y.open && y.open[t].Exclusive? :: y.open == map[t := Exclusive])
    && (forall t, u | t in y.open && u in y.open && t != u ::
          Locks(y.open[t]) !! Locks(y.open[u]) && !(IsBatch(y.open[t]) && IsBatch(y.open[u])))
    && (forall t | t in y.open :: SessionFits(y.db, y.open[t]))
    && LogFits(y.log)
  }

  /** A client write keeps the phase and the v2 flag, and never adds a row to fill. */
  lemma {:induction false} ClientWriteKeepsControl(s: State, step: Step)
    requires Inv(s) && IsClient(step)
    ensures Inv(Next(s, step)) && Next(s, step).control == s.control
    ensures s.control.phase == Backfill ==> Candidates(Next(s, step)) <= Candidates(s)
    ensures s.control.phase == Backfill ==>
              forall id | id in Candidates(s) && id !in WrittenIds(step) :: id in Candidates(Next(s, step))
  {
    StepKeepsInv(s, step);
    if s.control.phase == Backfill {
      StepKeepsFilling(s, step);
    }
  }

  /** A write that leaves a batch's locked rows alone leaves the batch the same rows to take. */
  lemma {:induction false} ClientWriteKeepsBatch(s: State, step: Step)
    requires Inv(s) && s.control.phase == Backfill && IsClient(step)
    requires Members(BatchIds(s)) !! WrittenIds(step)
    ensures BatchIds(Next(s, step)) == BatchIds(s)
  {
    ClientWriteKeepsControl(s, step);
    var ids := BatchIds(s);
    forall i | 0 <= i < |ids|
      ensures ids[i] in Candidates(Next(s, step))
    {
      assert ids[i] in Members(ids);
    }
    SmallestOfSubset(Candidates(s), Candidates(Next(s, step)), BATCH_SIZE);
  }

  /** A client write leaves every row it does not name alone. */
  lemma {:induction false} ClientWriteIsLocal(s: State, step: Step)
    requires IsClient(step)
    ensures s.rows.Keys <= Next(s, step).rows.Keys
    ensures !step.V2Insert? ==> Next(s, step).rows.Keys == s.rows.Keys
    ensures forall id | id in s.rows && id !in WrittenIds(step) :: Next(s, step).rows[id] == s.rows[id]
  {
    match step
    case V1Update(cents) => UpdateIsLocal(s, V1Targets(s.rows, cents));
    case V2Update(pairs) => UpdateIsLocal(s, V2Targets(s.rows, pairs));
    case V2Insert(id, minor, currency) =>
  }

  lemma {:induction false} UpdateIsLocal(s: State, targets: map<int, Row>)
    ensures var t := UpdateEffect(s, targets).state;
            && t.rows.Keys == s.rows.Keys
            && forall id | id in s.rows && id !in targets :: t.rows[id] == s.rows[id]
  {
  }

  /** What an update does depends on nothing but the shape, the grants and the rows it names. */
  lemma {:induction false} EffectDependsOnItsRows(s: State, t: State, targets: map<int, Row>)
    requires t.schema == s.schema && targets.Keys <= s.rows.Keys && targets.Keys <= t.rows.Keys
    requires forall id | id in targets :: t.rows[id] == s.rows[id]
    ensures UpdateEffect(t, targets).reply.Done? <==> UpdateEffect(s, targets).reply.Done?
    ensures forall id | id in targets ::
              && id in UpdateEffect(s, targets).state.rows && id in UpdateEffect(t, targets).state.rows
              && UpdateEffect(t, targets).state.rows[id] == UpdateEffect(s, targets).state.rows[id]
  {
    assert UpdatePasses(s.schema, s.rows, targets) <==> UpdatePasses(t.schema, t.rows, targets);
  }

  lemma {:induction false} UpdateDependsOnItsRows(s: State, t: State, step: Step)
    requires step.V1Update? || step.V2Update?
    requires t.schema == s.schema && t.v1Granted == s.v1Granted && t.v2Granted == s.v2Granted
    requires WrittenIds(step) <= s.rows.Keys && WrittenIds(step) <= t.rows.Keys
    requires forall id | id in WrittenIds(step) :: t.rows[id] == s.rows[id]
    ensures Transact(t, step).reply.Done? <==> Transact(s, step).reply.Done?
    ensures Written(t, step) == Written(s, step)
  {
    SameTargets(s, t, step);
    if step.V1Update? {
      EffectDependsOnItsRows(s, t, V1Targets(s.rows, step.cents));
    } else {
      EffectDependsOnItsRows(s, t, V2Targets(s.rows, step.pairs));
    }
    SameWritten(s, t, step);
  }

  lemma {:induction false} SameWritten(s: State, t: State, step: Step)
    requires WrittenIds(step) <= s.rows.Keys && WrittenIds(step) <= t.rows.Keys
    requires forall id | id in WrittenIds(step) ::
               (id in Next(t, step).rows <==> id in Next(s, step).rows)
               && (id in Next(s, step).rows ==> Next(t, step).rows[id] == Next(s, step).rows[id])
    ensures Written(t, step) == Written(s, step)
  {
    var before, after := Written(s, step), Written(t, step);
    assert after.Keys == before.Keys;
    assert forall id | id in before :: after[id] == before[id];
  }

  lemma {:induction false} SameTargets(s: State, t: State, step: Step)
    requires step.V1Update? || step.V2Update?
    requires WrittenIds(step) <= s.rows.Keys && WrittenIds(step) <= t.rows.Keys
    requires forall id | id in WrittenIds(step) :: t.rows[id] == s.rows[id]
    ensures step.V1Update? ==>
              V1Targets(t.rows, step.cents) == V1Targets(s.rows, step.cents)
              && V1Targets(s.rows, step.cents).Keys == WrittenIds(step)
    ensures step.V2Update? ==>
              V2Targets(t.rows, step.pairs) == V2Targets(s.rows, step.pairs)
              && V2Targets(s.rows, step.pairs).Keys == WrittenIds(step)
  {
    if step.V1Update? {
      var before, after := V1Targets(s.rows, step.cents), V1Targets(t.rows, step.cents);
      assert after.Keys == before.Keys == WrittenIds(step);
      assert forall id | id in before :: after[id] == before[id];
      assert after == before;
    } else {
      var before, after := V2Targets(s.rows, step.pairs), V2Targets(t.rows, step.pairs);
      assert after.Keys == before.Keys == WrittenIds(step);
      assert forall id | id in before :: after[id] == before[id];
      assert after == before;
    }
  }

  /** The rows a commit makes visible and the control row it leaves do not disturb a session that locked other rows. */
  ghost predicate Undisturbed(s: State, t: State, session: Session) {
    && t.schema == s.schema && t.v1Granted == s.v1Granted && t.v2Granted == s.v2Granted
    && t.control.phase == s.control.phase && t.control.v2Enabled == s.control.v2Enabled
    && s.rows.Keys <= t.rows.Keys
    && (forall id | id in Locks(session) && id in s.rows :: t.rows[id] == s.rows[id])
    && (IsBatch(session) ==> BatchIds(t) == BatchIds(s))
  }

  lemma {:induction false} UndisturbedSessionFits(s: State, t: State, session: Session)
    requires SessionFits(s, session) && Undisturbed(s, t, session)
    ensures SessionFits(t, session)
  {
    match session
    case Wrote(gate, step, rows) =>
      UpdateDependsOnItsRows(s, t, step);
    case FilledBatch(locked, rows) =>
      UndisturbedBatchFits(s, t, locked);
    case _ =>
  }

  lemma {:induction false} UndisturbedBatchFits(s: State, t: State, locked: seq<int>)
    requires locked == BatchIds(s) && s.rows.Keys <= t.rows.Keys
    requires forall id | id in BatchRows(s, locked) :: t.rows[id] == s.rows[id]
    ensures BatchRows(t, locked) == BatchRows(s, locked)
  {
    assert forall id | id in Members(locked) :: id in Candidates(s);
    assert BatchRows(t, locked).Keys == BatchRows(s, locked).Keys;
  }

  lemma {:induction false} ClientWriteDisturbsNobody(s: State, step: Step, session: Session)
    requires Inv(s) && IsClient(step) && SessionFits(s, session) && Locks(session) !! WrittenIds(step)
    ensures Undisturbed(s, Next(s, step), session)
  {
    ClientWriteKeepsControl(s, step);
    ClientWriteIsLocal(s, step);
    if IsBatch(session) {
      assert Members(BatchIds(s)) <= Locks(session);
      ClientWriteKeepsBatch(s, step);
    }
  }

  lemma {:induction false} BatchDisturbsNobody(s: State, session: Session)
    requires Inv(s) && s.control.phase == Backfill && SessionFits(s, session) && !IsBatch(session)
    requires Locks(session) !! Members(BatchIds(s))
    ensures Undisturbed(s, Next(s, Batch(false)), session)
  {
  }

  // ---------------------------------------------------------------- each kind of event

  /** The step an event commits, if it commits anything. */
  function CommittedBy(y: System, e: Event): seq<Step> {
    match e
    case CommitShared(t) =>
      if t !in y.open then []
      else if y.open[t].Wrote? then [y.open[t].step]
      else if y.open[t].FilledBatch? then [Batch(false)]
      else []
    case CommitExclusive(t, step) => [step]
    case CommitUnlocked(step) => [step]
    case _ => []
  }

  /** What a client wrote when it executed its step is the whole step, done at the moment of the commit. */
  lemma {:induction false} WrittenIsAtomic(db: State, step: Step)
    requires WroteFits(db, step, Written(db, step))
    ensures Installed(db, Written(db, step)).rows == Next(db, step).rows
  {
    ClientWriteIsLocal(db, step);
    InstalledRows(db, Written(db, step), Next(db, step).rows);
  }

  lemma {:induction false} InstalledRows(db: State, rows: map<int, Row>, after: map<int, Row>)
    requires after.Keys == db.rows.Keys && rows.Keys <= after.Keys
    requires forall id | id in rows :: after[id] == rows[id]
    requires forall id | id in after && id !in rows :: after[id] == db.rows[id]
    ensures Installed(db, rows).rows == after
  {
    var installed := Installed(db, rows).rows;
    assert installed.Keys == after.Keys;
    forall id | id in after
      ensures installed[id] == after[id]
    {
    }
  }

  /** What a batch filled is the whole batch, done at the moment of the commit. */
  lemma {:induction false} FilledIsAtomic(db: State)
    requires db.control.phase == Backfill
    ensures Installed(db, BatchRows(db, BatchIds(db))).rows == Next(db, Batch(false)).rows
    ensures BatchRows(db, BatchIds(db)).Keys == Members(BatchIds(db))
  {
    var ids := BatchIds(db);
    assert forall id | id in Members(ids) :: id in Candidates(db);
    assert BatchRows(db, ids).Keys == Members(ids);
    InstalledRows(db, BatchRows(db, ids), FillRows(db.rows, Members(ids)));
    assert FillRows(db.rows, {}) == db.rows;
  }

  lemma {:induction false} CommitIsAtomic(db: State, session: Session)
    requires Inv(db) && SessionFits(db, session) && (session.Wrote? || session.FilledBatch?)
    ensures Committed(db, session) == Next(db, if session.Wrote? then session.step else Batch(false))
  {
    if session.Wrote? {
      WrittenIsAtomic(db, session.step);
      ClientWriteKeepsControl(db, session.step);
    } else {
      FilledIsAtomic(db);
    }
  }

  lemma {:induction false} CommitDisturbsNobody(db: State, session: Session, other: Session)
    requires Inv(db) && SessionFits(db, session) && (session.Wrote? || session.FilledBatch?)
    requires SessionFits(db, other) && Locks(session) !! Locks(other) && !(IsBatch(session) && IsBatch(other))
    ensures SessionFits(Committed(db, session), other)
  {
    CommitIsAtomic(db, session);
    if session.Wrote? {
      assert Written(db, session.step).Keys == WrittenIds(session.step) by {
        ClientWriteIsLocal(db, session.step);
      }
      ClientWriteDisturbsNobody(db, session.step, other);
    } else {
      FilledIsAtomic(db);
      BatchDisturbsNobody(db, other);
    }
    UndisturbedSessionFits(db, Committed(db, session), other);
  }

  lemma {:induction false} CommitSharedKeepsLockInv(y: System, t: Tid)
    requires LockInv(y) && Enabled(y, CommitShared(t))
    ensures LockInv(Happen(y, CommitShared(t)))
    ensures Happen(y, CommitShared(t)).db == Next(y.db, if y.open[t].Wrote? then y.open[t].step else Batch(false))
  {
    var session := y.open[t];
    CommitIsAtomic(y.db, session);
    StepKeepsInv(y.db, if session.Wrote? then session.step else Batch(false));
    forall u | u in Close(y, t)
      ensures SessionFits(Committed(y.db, session), y.open[u])
    {
      CommitDisturbsNobody(y.db, session, y.open[u]);
    }
  }

  lemma {:induction false} CommitUnlockedKeepsLockInv(y: System, step: Step)
    requires LockInv(y) && Enabled(y, CommitUnlocked(step))
    ensures LockInv(Happen(y, CommitUnlocked(step)))
  {
    StepKeepsInv(y.db, step);
    forall u | u in y.open
      ensures SessionFits(Next(y.db, step), y.open[u])
    {
      ClientWriteDisturbsNobody(y.db, step, y.open[u]);
      UndisturbedSessionFits(y.db, Next(y.db, step), y.open[u]);
    }
  }

  /** A session that fits and locks nothing of the others may stand in the place of another, or of none. */
  lemma {:induction false} SessionMayStand(y: System, t: Tid, session: Session)
    requires LockInv(y) && !ExclusiveHeld(y) && !session.Exclusive? && SessionFits(y.db, session)
    requires forall u | u in y.open && u != t ::
               Locks(y.open[u]) !! Locks(session) && !(IsBatch(y.open[u]) && IsBatch(session))
    ensures LockInv(y.(open := y.open[t := session]))
  {
  }

  lemma {:induction false} SessionMayClose(y: System, t: Tid)
    requires LockInv(y) && t in y.open
    ensures LockInv(y.(open := Close(y, t)))
  {
  }

  /** Next to a shared session no exclusive one is open. */
  lemma {:induction false} SharedStandsAlone(y: System, t: Tid)
    requires LockInv(y) && t in y.open && !y.open[t].Exclusive?
    ensures !ExclusiveHeld(y)
  {
  }

  /** Executing a step locks its rows, and changes nothing that others see. */
  lemma {:induction false} WriteKeepsLockInv(y: System, t: Tid, step: Step)
    requires LockInv(y) && Enabled(y, Write(t, step))
    ensures LockInv(Happen(y, Write(t, step))) && Happen(y, Write(t, step)).db == y.db
  {
    var session, narrow := y.open[t], Narrowed(y.db, step);
    if Transact(y.db, narrow).reply.Refused? {
      SessionMayClose(y, t);
    } else {
      var written := if session.gate == BatchGate then FilledBatch(session.locked, BatchRows(y.db, session.locked))
                     else Wrote(session.gate, narrow, Written(y.db, narrow));
      ExecutedFits(y.db, session, step);
      SharedStandsAlone(y, t);
      WrittenMayStand(y, t, step, written);
    }
  }

  lemma {:induction false} WrittenMayStand(y: System, t: Tid, step: Step, written: Session)
    requires LockInv(y) && !ExclusiveHeld(y) && t in y.open && Unlocked(Close(y, t), WrittenIds(step))
    requires !written.Exclusive? && SessionFits(y.db, written) && IsBatch(written) == IsBatch(y.open[t])
    requires Locks(written) <= WrittenIds(step) + Locks(y.open[t])
    ensures LockInv(y.(open := y.open[t := written]))
  {
    forall u | u in y.open && u != t
      ensures Locks(y.open[u]) !! Locks(written) && !(IsBatch(y.open[u]) && IsBatch(written))
    {
      assert u in Close(y, t) && Close(y, t)[u] == y.open[u];
      assert Locks(y.open[u]) !! Locks(y.open[t]) && !(IsBatch(y.open[u]) && IsBatch(y.open[t]));
    }
    SessionMayStand(y, t, written);
  }

  lemma {:induction false} AdmitKeepsLockInv(y: System, t: Tid)
    requires LockInv(y) && Enabled(y, Admit(t))
    ensures LockInv(Happen(y, Admit(t))) && Happen(y, Admit(t)).db == y.db
  {
    var gate := y.open[t].gate;
    if Admits(gate, y.db.control) {
      var admitted := Admitted(gate, if gate == BatchGate then BatchIds(y.db) else []);
      SharedStandsAlone(y, t);
      forall u | u in y.open && u != t
        ensures Locks(y.open[u]) !! Locks(admitted) && !(IsBatch(y.open[u]) && IsBatch(admitted))
      {
        assert u in Close(y, t) && Close(y, t)[u] == y.open[u];
      }
      SessionMayStand(y, t, admitted);
    } else {
      SessionMayClose(y, t);
    }
  }

  lemma {:induction false} ExecutedFits(db: State, session: Session, step: Step)
    requires session.Admitted? && SessionFits(db, session) && MayCommit(session.gate, step)
    requires Transact(db, Narrowed(db, step)).reply.Done?
    ensures session.gate == BatchGate ==>
              && SessionFits(db, FilledBatch(session.locked, BatchRows(db, session.locked)))
              && BatchRows(db, session.locked).Keys <= Members(session.locked)
    ensures session.gate != BatchGate ==>
              && SessionFits(db, Wrote(session.gate, Narrowed(db, step), Written(db, Narrowed(db, step))))
              && Written(db, Narrowed(db, step)).Keys <= WrittenIds(step)
  {
  }

  lemma {:induction false} LockManagerKeepsLockInv(y: System, e: Event)
    requires LockInv(y) && Enabled(y, e) && (e.AcquireShared? || e.AcquireExclusive? || e.Rollback?)
    ensures LockInv(Happen(y, e)) && Happen(y, e).db == y.db
  {
    match e
    case AcquireShared(t, gate) => SessionMayStand(y, t, Waiting(gate));
    case Rollback(t) => SessionMayClose(y, t);
    case _ =>
  }

  lemma {:induction false} EventKeepsLockInv(y: System, e: Event)
    requires LockInv(y) && Enabled(y, e)
    ensures LockInv(Happen(y, e))
    ensures Happen(y, e).db == Run(y.db, CommittedBy(y, e))
  {
    match e
    case CommitShared(t) => CommitSharedKeepsLockInv(y, t);
    case CommitExclusive(t, step) => StepKeepsInv(y.db, step);
    case CommitUnlocked(step) => CommitUnlockedKeepsLockInv(y, step);
    case Write(t, step) => WriteKeepsLockInv(y, t, step);
    case Admit(t) => AdmitKeepsLockInv(y, t);
    case _ => LockManagerKeepsLockInv(y, e);
  }

  // ---------------------------------------------------------------- every interleaving

  predicate Playable(y: System, events: seq<Event>)
    decreases |events|
  {
    events == [] || (Enabled(y, events[0]) && Playable(Happen(y, events[0]), events[1..]))
  }

  function Play(y: System, events: seq<Event>): System
    requires Playable(y, events)
    decreases |events|
  {
    if events == [] then y else Play(Happen(y, events[0]), events[1..])
  }

  /** The transactions of an interleaving in the order they commit. */
  function CommitOrder(y: System, events: seq<Event>): seq<Step>
    requires Playable(y, events)
    decreases |events|
  {
    if events == [] then [] else CommittedBy(y, events[0]) + CommitOrder(Happen(y, events[0]), events[1..])
  }

  /**
   Every interleaving is the serial run of its transactions in commit order, each on the rows it found when it was
   executed; and every check made at admission still holds at every point up to the commit.
   */
  lemma {:induction false} InterleavingsAreSerial(y: System, events: seq<Event>)
    requires LockInv(y) && Playable(y, events)
    ensures LockInv(Play(y, events))
    ensures Play(y, events).db == Run(y.db, CommitOrder(y, events))
    decreases |events|
  {
    if events != [] {
      EventKeepsLockInv(y, events[0]);
      InterleavingsAreSerial(Happen(y, events[0]), events[1..]);
      RunsCompose(y.db, CommittedBy(y, events[0]), CommitOrder(Happen(y, events[0]), events[1..]));
    }
  }

  function FreshSystem(amounts: map<int, int>, digest: Digest): System {
    System(InitialState(amounts, digest), map[], [])
  }

  /**
   In every interleaving from a fresh database no admitted v1 write commits in switch or contract, no client actor
   and no batch commits outside backfill, and no v2 actor commits before v2 is enabled.
   */
  lemma {:induction false} CommitsHonourTheirGate(amounts: map<int, int>, digest: Digest, events: seq<Event>)
    requires LegalTable(amounts) && Playable(FreshSystem(amounts, digest), events)
    ensures var log := Play(FreshSystem(amounts, digest), events).log;
            forall i | 0 <= i < |log| ::
              && (log[i].gate == V1Attempt ==> log[i].committedUnder.phase !in {Switch, Contract})
              && (log[i].gate != V1Attempt ==> log[i].committedUnder.phase == Backfill)
              && (log[i].gate == V2Actor ==> log[i].committedUnder.v2Enabled)
  {
    EveryReachableStateIsConsistent(amounts, digest, []);
    InterleavingsAreSerial(FreshSystem(amounts, digest), events);
  }

  /** A step that was executed is never refused for a missing grant or a wrong phase up to its commit. */
  lemma {:induction false} AdmittedIsPermitted(y: System, t: Tid, step: Step)
    requires LockInv(y) && t in y.open && y.open[t].Admitted? && MayCommit(y.open[t].gate, step)
    ensures Transact(y.db, step).reply !in {Refused(PermissionDenied), Refused(BackfillPhaseRejected)}
  {
  }

  /** In every interleaving from a fresh database an exclusive transaction is alone, and no two batches are admitted. */
  lemma {:induction false} ExclusiveIsAlone(
    amounts: map<int, int>, digest: Digest, events: seq<Event>, t: Tid, u: Tid)
    requires LegalTable(amounts) && Playable(FreshSystem(amounts, digest), events)
    ensures var open := Play(FreshSystem(amounts, digest), events).open;
            t in open && u in open && t != u ==>
              && !open[t].Exclusive? && !(IsBatch(open[t]) && IsBatch(open[u]))
              && Locks(open[t]) !! Locks(open[u])
  {
    EveryReachableStateIsConsistent(amounts, digest, []);
    InterleavingsAreSerial(FreshSystem(amounts, digest), events);
  }

  /** A client's writes and the tids of two sessions that are open at once. */
  const CLIENT: Tid := 1
  const BATCH: Tid := 2

  /** Two sessions are open. */
  function Two(client: Session, batch: Session): map<Tid, Session> {
    map[CLIENT := client, BATCH := batch]
  }

  lemma {:induction false} TwoMoves(client: Session, batch: Session, next: Session)
    ensures Two(client, batch)[CLIENT := next] == Two(next, batch)
    ensures Two(client, batch)[BATCH := next] == Two(client, next)
    ensures Two(client, batch) - {CLIENT} == map[BATCH := batch]
    ensures Two(client, batch) - {BATCH} == map[CLIENT := client]
    ensures map[CLIENT := client][BATCH := batch] == Two(client, batch)
    ensures map[BATCH := batch] - {BATCH} == map[]
  {
  }

  lemma {:induction false} PlayOneMore(y: System, events: seq<Event>, e: Event)
    requires Playable(y, events) && Enabled(Play(y, events), e)
    ensures Playable(y, events + [e]) && Play(y, events + [e]) == Happen(Play(y, events), e)
    decreases |events|
  {
    var longer := events + [e];
    if events == [] {
      assert longer[1..] == [];
    } else {
      PlayOneMore(Happen(y, events[0]), events[1..], e);
      assert longer[1..] == events[1..] + [e];
    }
  }

  /** One event more. */
  lemma {:induction false} Then(start: System, events: seq<Event>, y: System, e: Event)
    returns (longer: seq<Event>, after: System)
    requires Playable(start, events) && y == Play(start, events) && Enabled(y, e)
    ensures Playable(start, longer) && after == Happen(y, e) && after == Play(start, longer)
  {
    longer, after := events + [e], Happen(y, e);
    PlayOneMore(start, events, e);
  }

  lemma {:induction false} BothMayWait(db: State) returns (events: seq<Event>, y: System)
    ensures Playable(System(db, map[], []), events) && y == Play(System(db, map[], []), events)
    ensures y == System(db, Two(Waiting(V1Actor), Waiting(BatchGate)), [])
  {
    y := System(db, map[], []);
    events, y := Then(y, [], y, AcquireShared(CLIENT, V1Actor));
    events, y := Then(System(db, map[], []), events, y, AcquireShared(BATCH, BatchGate));
  }

  /** A client and a batch are admitted together, in a backfill. */
  lemma {:induction false} BothMayBeAdmitted(db: State) returns (events: seq<Event>, y: System)
    requires db.control.phase == Backfill
    ensures Playable(System(db, map[], []), events) && y == Play(System(db, map[], []), events)
    ensures y == System(db, Two(Admitted(V1Actor, []), Admitted(BatchGate, BatchIds(db))), [])
  {
    events, y := BothMayWait(db);
    AdmitsClient(db);
    events, y := Then(System(db, map[], []), events, y, Admit(CLIENT));
    AdmitsBatch(db);
    events, y := Then(System(db, map[], []), events, y, Admit(BATCH));
  }

  lemma {:induction false} AdmitsClient(db: State)
    requires db.control.phase == Backfill
    ensures var y := System(db, Two(Waiting(V1Actor), Waiting(BatchGate)), []);
            && Enabled(y, Admit(CLIENT))
            && Happen(y, Admit(CLIENT)) == System(db, Two(Admitted(V1Actor, []), Waiting(BatchGate)), [])
  {
    TwoMoves(Waiting(V1Actor), Waiting(BatchGate), Admitted(V1Actor, []));
  }

  lemma {:induction false} AdmitsBatch(db: State)
    requires db.control.phase == Backfill
    ensures var y := System(db, Two(Admitted(V1Actor, []), Waiting(BatchGate)), []);
            && Enabled(y, Admit(BATCH))
            && Happen(y, Admit(BATCH)) ==
               System(db, Two(Admitted(V1Actor, []), Admitted(BatchGate, BatchIds(db))), [])
  {
    TwoMoves(Admitted(V1Actor, []), Waiting(BatchGate), Admitted(BatchGate, BatchIds(db)));
  }

  /** The rows of a batch, filled but not committed. */
  function Filled(db: State): Session {
    FilledBatch(BatchIds(db), BatchRows(db, BatchIds(db)))
  }

  lemma {:induction false} WritesBatch(db: State)
    requires db.control.phase == Backfill
    ensures var y := System(db, Two(Admitted(V1Actor, []), Admitted(BatchGate, BatchIds(db))), []);
            && Enabled(y, Write(BATCH, Batch(false)))
            && Happen(y, Write(BATCH, Batch(false))) == System(db, Two(Admitted(V1Actor, []), Filled(db)), [])
  {
    TwoMoves(Admitted(V1Actor, []), Admitted(BatchGate, BatchIds(db)), Filled(db));
  }

  lemma {:induction false} WritesClient(db: State, step: Step)
    requires db.control.phase == Backfill && step.V1Update? && step.cents.Keys <= db.rows.Keys
    requires step.cents.Keys !! Members(BatchIds(db)) && Transact(db, step).reply.Done?
    ensures var y := System(db, Two(Admitted(V1Actor, []), Filled(db)), []);
            && Enabled(y, Write(CLIENT, step))
            && Happen(y, Write(CLIENT, step)) ==
               System(db, Two(Wrote(V1Actor, step, Written(db, step)), Filled(db)), [])
  {
    TwoMoves(Admitted(V1Actor, []), Filled(db), Wrote(V1Actor, step, Written(db, step)));
    assert Locks(Filled(db)) <= Members(BatchIds(db));
    NarrowsNothing(db, step);
  }

  lemma {:induction false} NarrowsNothing(db: State, step: Step)
    requires step.V1Update? && step.cents.Keys <= db.rows.Keys
    ensures Narrowed(db, step) == step
  {
    assert Narrowed(db, step).cents == step.cents;
  }

  lemma {:induction false} BothMayWrite(db: State, step: Step) returns (events: seq<Event>, y: System)
    requires db.control.phase == Backfill && step.V1Update? && step.cents.Keys <= db.rows.Keys
    requires step.cents.Keys !! Members(BatchIds(db)) && Transact(db, step).reply.Done?
    ensures Playable(System(db, map[], []), events) && y == Play(System(db, map[], []), events)
    ensures y == System(db, Two(Wrote(V1Actor, step, Written(db, step)), Filled(db)), [])
  {
    events, y := BothMayBeAdmitted(db);
    WritesBatch(db);
    events, y := Then(System(db, map[], []), events, y, Write(BATCH, Batch(false)));
    WritesClient(db, step);
    events, y := Then(System(db, map[], []), events, y, Write(CLIENT, step));
  }

  lemma {:induction false} CommitsClient(db: State, step: Step)
    ensures var y := System(db, Two(Wrote(V1Actor, step, Written(db, step)), Filled(db)), []);
            && Enabled(y, CommitShared(CLIENT))
            && Happen(y, CommitShared(CLIENT)) ==
               System(Installed(db, Written(db, step)), map[BATCH := Filled(db)], [Entry(V1Actor, db.control)])
  {
    TwoMoves(Wrote(V1Actor, step, Written(db, step)), Filled(db), Filled(db));
  }

  /**
   Some interleaving commits a client's update while a batch that locks other rows is open, and then the batch; nothing
   is open after that, and an exclusive transaction may follow.
   */
  lemma {:induction false} ClientAndBatchOverlap(db: State, step: Step) returns (events: seq<Event>, y: System)
    requires db.control.phase == Backfill && step.V1Update? && step.cents.Keys <= db.rows.Keys
    requires step.cents.Keys !! Members(BatchIds(db)) && Transact(db, step).reply.Done?
    ensures Playable(System(db, map[], []), events) && y == Play(System(db, map[], []), events)
    ensures |y.log| == 2 && y.log[0].gate == V1Actor && y.log[1].gate == BatchGate
    ensures y.open == map[] && Enabled(y, AcquireExclusive(CLIENT))
  {
    events, y := BothMayWrite(db, step);
    CommitsClient(db, step);
    events, y := Then(System(db, map[], []), events, y, CommitShared(CLIENT));
    TwoMoves(Filled(db), Filled(db), Filled(db));
    events, y := Then(System(db, map[], []), events, y, CommitShared(BATCH));
  }
}
