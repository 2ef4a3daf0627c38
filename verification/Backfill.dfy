/** The chunked backfill against a single unbounded fill. */
module ChunkedBackfill {
  import opened Sql
  import opened CompatibilityTrigger
  import opened Selection
  import opened InvoiceDatabase
  import opened Protocol

  predicate Filling(s: State) {
    Inv(s) && s.control.phase == Backfill
  }

  predicate BackfillStep(step: Step) {
    step.Batch? || IsClient(step)
  }

  /** `UPDATE invoices SET amount_minor = amount_cents, currency_code = 'EUR' WHERE amount_minor IS NULL`. */
  function OneShotFill(rows: map<int, Row>): map<int, Row> {
    FillRows(rows, set id | id in rows && rows[id].minor.Null?)
  }

  function CompleteTable(ledger: map<int, int>): map<int, Row> {
    map id | id in ledger :: CompleteRow(ledger[id])
  }

  lemma {:induction false} OneShotFillCompletes(s: State)
    requires Filling(s)
    ensures OneShotFill(s.rows) == CompleteTable(Amounts(s))
  {
    forall id | id in s.rows
      ensures OneShotFill(s.rows)[id] == CompleteRow(AmountOf(s.rows[id]))
    {
    }
  }

  // ---------------------------------------------------------------- what one batch does

  lemma {:induction false} BatchTakesCandidates(s: State)
    requires Filling(s)
    ensures var t := Next(s, Batch(false));
            && Filling(t)
            && Candidates(t) == Candidates(s) - Members(BatchIds(s))
            && |Candidates(t)| == |Candidates(s)| - |BatchIds(s)|
  {
    BatchKeepsInv(s, false);
    CandidatesTaken(s);
    TakenSize(Candidates(s), BatchIds(s));
  }

  lemma {:induction false} TakenSize(c: set<int>, ids: seq<int>)
    requires forall i, j | 0 <= i < j < |ids| :: ids[i] < ids[j]
    requires forall i | 0 <= i < |ids| :: ids[i] in c
    ensures |c - Members(ids)| == |c| - |ids|
    ensures Members(ids) + (c - Members(ids)) == c
  {
    SizeOfMembers(ids);
    var taken := Members(ids);
    assert taken + (c - taken) == c;
  }

  lemma {:induction false} CandidatesTaken(s: State)
    requires s.control.phase == Backfill && forall id | id in s.rows :: s.rows[id].cents.Val?
    ensures Candidates(Next(s, Batch(false))) == Candidates(s) - Members(BatchIds(s))
  {
    var t := Next(s, Batch(false));
    var ids := BatchIds(s);
    forall id
      ensures id in Candidates(t) <==> id in Candidates(s) && id !in ids
    {
      if ids != [] && id in Candidates(s) && id !in ids {
        assert ids[|ids| - 1] < id;
      }
    }
  }

  /** No client write and no batch ever adds a row to fill. */
  lemma {:induction false} StepKeepsFilling(s: State, step: Step)
    requires Filling(s) && BackfillStep(step)
    ensures Filling(Next(s, step)) && Candidates(Next(s, step)) <= Candidates(s)
  {
    StepKeepsInv(s, step);
    match step
    case Batch(rollback) => BatchTakesCandidates(s);
    case V1Update(cents) =>
      if Transact(s, step).reply.Done? {
        var targets := V1Targets(s.rows, cents);
        forall id | id in targets
          ensures s.rows[id].minor.Val? ==> Updated(s.schema, s.rows, targets)[id].minor.Val?
        {
          RowUpdateFits(s.control, s.rows[id], targets[id]);
        }
      }
    case V2Update(pairs) =>
    case V2Insert(id, minor, currency) =>
  }

  // ---------------------------------------------------------------- any schedule of batches and writes

  /** A batch that finds nothing leaves every positive id complete. */
  lemma {:induction false} DryBatchMeansFilled(s: State)
    requires Filling(s) && Transact(s, Batch(false)).reply == Done(0)
    ensures Candidates(s) == {}
    ensures forall id | id in s.rows && 0 < id :: s.rows[id] == CompleteRow(AmountOf(s.rows[id]))
  {
    assert BatchIds(s) == [];
    forall id | id in s.rows && 0 < id
      ensures Complete(s.rows[id])
    {
      assert id !in Candidates(s);
    }
  }

  lemma {:induction false} ScheduleKeepsFilling(s: State, steps: seq<Step>)
    requires Filling(s) && forall i | 0 <= i < |steps| :: BackfillStep(steps[i])
    ensures Filling(Run(s, steps)) && Candidates(Run(s, steps)) <= Candidates(s)
    decreases |steps|
  {
    if steps != [] {
      StepKeepsFilling(s, steps[0]);
      ScheduleKeepsFilling(Next(s, steps[0]), steps[1..]);
    }
  }

  /**
   Any schedule of committed and rolled-back batches among client writes, run until a batch finds nothing,
   completes every row with a positive id at the amount that the writes accepted in that schedule give it.
   */
  lemma {:induction false} AnyScheduleFollowsTheLedger(s: State, steps: seq<Step>)
    requires Filling(s) && forall i | 0 <= i < |steps| :: BackfillStep(steps[i])
    requires Transact(Run(s, steps), Batch(false)).reply == Done(0)
    ensures var t := Run(s, steps);
            var ledger := Replay(Amounts(s), AcceptedWrites(s, steps));
            && t.rows.Keys == ledger.Keys
            && (forall id | id in t.rows && 0 < id :: t.rows[id] == CompleteRow(ledger[id]))
            && ((forall id | id in t.rows :: 0 < id) ==> t.rows == CompleteTable(ledger))
  {
    ScheduleKeepsFilling(s, steps);
    AmountsFollowWrites(s, steps);
    var t := Run(s, steps);
    DryBatchMeansFilled(t);
    OneShotFillCompletes(t);
    assert forall id | id in t.rows :: Amounts(t)[id] == AmountOf(t.rows[id]);
    if forall id | id in t.rows :: 0 < id {
      assert t.rows == CompleteTable(Amounts(t));
    }
  }

  function CommittedBatches(steps: seq<Step>): nat {
    if steps == [] then 0 else (if steps[0] == Batch(false) then 1 else 0) + CommittedBatches(steps[1..])
  }

  function Less(n: nat, k: nat): nat {
    if n < k then 0 else n - k
  }

  /** Whatever clients write in between, every committed batch takes 256 rows off the work or all that is left. */
  lemma {:induction false} BatchesMakeProgress(s: State, steps: seq<Step>)
    requires Filling(s) && forall i | 0 <= i < |steps| :: BackfillStep(steps[i])
    ensures |Candidates(Run(s, steps))| <= Less(|Candidates(s)|, BATCH_SIZE * CommittedBatches(steps))
    decreases |steps|
  {
    if steps != [] {
      var t := Next(s, steps[0]);
      StepKeepsFilling(s, steps[0]);
      SubsetSize(Candidates(t), Candidates(s));
      BatchesMakeProgress(t, steps[1..]);
      if steps[0] == Batch(false) {
        BatchTakesCandidates(s);
      }
    }
  }

  // ---------------------------------------------------------------- the loop without clients

  /** Batches committed until one finds nothing, and how many calls that takes. */
  datatype Drained = Drained(state: State, calls: nat)

  ghost function Drain(s: State): Drained
    requires Filling(s)
    decreases |Candidates(s)|
  {
    BatchTakesCandidates(s);
    if BatchIds(s) == [] then Drained(s, 1)
    else
      var rest := Drain(Next(s, Batch(false)));
      Drained(rest.state, rest.calls + 1)
  }

  /** One turn of the loop, on the function it computes. */
  lemma {:induction false} DrainUnfolds(s: State)
    requires Filling(s)
    ensures var e := Transact(s, Batch(false));
            && e.reply.Done? && Filling(e.state)
            && |Candidates(e.state)| + e.reply.count == |Candidates(s)|
            && if e.reply.count == 0 then Drain(s) == Drained(s, 1) && e.state == s && Candidates(s) == {}
               else Drain(s) == Drained(Drain(e.state).state, Drain(e.state).calls + 1)
  {
    BatchTakesCandidates(s);
    if BatchIds(s) == [] {
      DryBatchMeansFilled(s);
    }
  }

  /** Without clients the loop takes exactly ceil(n / 256) + 1 calls and leaves nothing to fill. */
  lemma {:induction false} DrainCalls(s: State)
    requires Filling(s)
    ensures Filling(Drain(s).state) && Candidates(Drain(s).state) == {}
    ensures Drain(s).calls == (|Candidates(s)| + BATCH_SIZE - 1) / BATCH_SIZE + 1
    decreases |Candidates(s)|
  {
    BatchTakesCandidates(s);
    if BatchIds(s) != [] {
      DrainCalls(Next(s, Batch(false)));
    } else {
      DryBatchMeansFilled(s);
    }
  }

  /** The state after one fill of every candidate, with the checkpoint at `lastId`. */
  function FilledTo(s: State, lastId: int): State {
    s.(rows := FillRows(s.rows, Candidates(s)),
       control := s.control.(lastId := lastId, scanned := s.control.scanned + |Candidates(s)|))
  }

  /** The loop of 256-row batches is one fill of the candidates. */
  lemma {:induction false} DrainIsOneFill(s: State)
    requires Filling(s)
    ensures Drain(s).state == FilledTo(s, Drain(s).state.control.lastId)
    decreases |Candidates(s)|
  {
    DrainUnfolds(s);
    var t := Next(s, Batch(false));
    if t == s {
      NothingToFill(s);
    } else {
      DrainIsOneFill(t);
      FilledAfterBatch(s, Drain(t).state.control.lastId);
    }
  }

  lemma {:induction false} NothingToFill(s: State)
    requires Filling(s) && Next(s, Batch(false)) == s
    ensures Drain(s).state == FilledTo(s, s.control.lastId) == s
  {
    BatchTakesCandidates(s);
    DryBatchMeansFilled(s);
    assert FillRows(s.rows, {}) == s.rows;
  }

  lemma {:induction false} FilledAfterBatch(s: State, lastId: int)
    requires s.control.phase == Backfill && forall id | id in s.rows :: s.rows[id].cents.Val?
    ensures FilledTo(Next(s, Batch(false)), lastId) == FilledTo(s, lastId)
  {
    CandidatesTaken(s);
    TakenSize(Candidates(s), BatchIds(s));
    if BatchIds(s) != [] {
      FilledTwice(s, Next(s, Batch(false)), Members(BatchIds(s)), lastId);
    }
  }

  lemma {:induction false} FilledTwice(s: State, t: State, taken: set<int>, lastId: int)
    requires t.rows == FillRows(s.rows, taken)
    requires t == s.(rows := t.rows, control := s.control.(lastId := t.control.lastId, scanned := t.control.scanned))
    requires taken + Candidates(t) == Candidates(s)
    requires t.control.scanned + |Candidates(t)| == s.control.scanned + |Candidates(s)|
    ensures FilledTo(t, lastId) == FilledTo(s, lastId)
  {
    FillsCompose(s.rows, taken, Candidates(t));
  }

  lemma {:induction false} FillsCompose(rows: map<int, Row>, first: set<int>, second: set<int>)
    ensures FillRows(FillRows(rows, first), second) == FillRows(rows, first + second)
  {
  }

  /** A drained backfill changes nothing when another batch is run. */
  lemma {:induction false} DrainedIsIdempotent(s: State)
    requires Filling(s)
    ensures Transact(Drain(s).state, Batch(false)) == Effect(Drain(s).state, Done(0))
  {
    DrainCalls(s);
  }

  /**
   After the loop the finish check passes exactly when no row with an id below one is pending: the checkpoint
   starts at zero and the batches only look above it.
   */
  lemma {:induction false} FinishPassesExactlyWhen(s: State)
    requires Filling(s)
    ensures Transact(Drain(s).state, Finish).reply == Done(1) <==>
            forall id | id in s.rows && id <= 0 :: s.rows[id].minor.Val?
  {
    DrainCalls(s);
    DrainIsOneFill(s);
    var t := Drain(s).state;
    FinishMeansComplete(t);
    assert t.rows.Keys == s.rows.Keys;
    if forall id | id in s.rows && id <= 0 :: s.rows[id].minor.Val? {
      forall id | id in t.rows
        ensures Complete(t.rows[id])
      {
        assert RowFits(t.control, t.rows[id]);
        assert s.rows[id].minor.Null? ==> id in Candidates(s);
      }
    } else {
      var id :| id in s.rows && id <= 0 && s.rows[id].minor.Null?;
      assert id !in Candidates(s);
      assert t.rows[id] == s.rows[id];
    }
  }

  lemma {:induction false} PendingBelowOneStays(s: State, id: int)
    requires Filling(s) && id in s.rows && id <= 0 && s.rows[id].minor.Null?
    ensures Transact(Drain(s).state, Finish).reply == Refused(CannotEnableBeforeBackfill)
  {
    FinishPassesExactlyWhen(s);
    DrainCalls(s);
  }

  /** From a fresh database whose table names an id below one the backfill never completes. */
  lemma {:induction false} IdBelowOneIsNeverFilled(
    amounts: map<int, int>, id: int, first: Digest, second: Digest, third: Digest)
    requires LegalTable(amounts) && id in amounts && id <= 0
    ensures var s := Run(InitialState(amounts, first), ToBackfill(second, third));
            Filling(s) && Transact(Drain(s).state, Finish).reply == Refused(CannotEnableBeforeBackfill)
  {
    RunKeepsInv(InitialState(amounts, first), ToBackfill(second, third));
    BackfillStartIsReached(amounts, first, second, third);
    PendingBelowOneStays(BackfillStart(amounts, first, second, third), id);
  }

  /** Migration 0001 accepts such a table: invoice 0 is legal. */
  lemma {:induction false} InvoiceZeroIsNeverFilled()
    ensures var amounts := map[0 := 5];
            var s := Run(InitialState(amounts, "1"), ToBackfill("2", "3"));
            LegalTable(amounts) && Filling(s) && Transact(Drain(s).state, Finish).reply.Refused?
  {
    IdBelowOneIsNeverFilled(map[0 := 5], 0, "1", "2", "3");
  }
}
