/** What each transaction answers, and when it changes nothing, in terms of ledger, phase and rows alone. */
module TransactionOutcomes {
  import opened Sql
  import opened CompatibilityTrigger
  import opened Selection
  import opened InvoiceDatabase
  import opened Protocol

  /** Whatever a transaction is refused for, it leaves the database as it was; so does one that finds nothing to do. */
  lemma {:induction false} RefusedLeavesNoTrace(s: State, step: Step)
    ensures !Transact(s, step).reply.Done? ==> Next(s, step) == s
  {
  }

  /**
   A migration that is to fail before its commit leaves no trace: it is refused for that exactly when it would have been
   applied, and otherwise answers what it would have answered.
   */
  lemma {:induction false} FailingMigrationLeavesNoTrace(s: State, v: Version, digest: Digest)
    ensures var failing, normal := Transact(s, Apply(v, digest, true)), Transact(s, Apply(v, digest, false));
            && failing.state == s
            && (failing.reply == Refused(InjectedFailure) <==> normal.reply == Done(1))
            && (normal.reply != Done(1) ==> failing.reply == normal.reply)
            && normal.reply != Refused(InjectedFailure)
  {
  }

  /** A batch that is rolled back leaves no trace, and answers what it would have filled. */
  lemma {:induction false} RolledBackBatchLeavesNoTrace(s: State)
    ensures Next(s, Batch(true)) == s && Transact(s, Batch(true)).reply == Transact(s, Batch(false)).reply
  {
  }

  /** The one phase each migration moves, and where to. */
  predicate Moves(v: Version, from: Phase, to: Phase) {
    (v, from, to) in {(M0002, Initial, Expand), (M0003, Expand, Compatibility), (M0004, Backfill, Switch),
                      (M0005, Switch, Contract)}
  }

  /**
   A migration in the ledger is skipped or, with another digest, refused; any other is applied exactly when the database
   is in its phase and, for 0004, v2 is enabled. Then it is in the ledger, the phase has moved, and no amount has.
   */
  lemma {:induction false} MigrationOutcome(s: State, v: Version, digest: Digest)
    requires Inv(s)
    ensures var e := Transact(s, Apply(v, digest, false));
            && (e.reply == Skipped <==> v in s.ledger && s.ledger[v] == digest)
            && (e.reply == Refused(ChecksumMismatch) <==> v in s.ledger && s.ledger[v] != digest)
            && (e.reply == Done(1) <==>
                  && v !in s.ledger && (exists to :: Moves(v, s.control.phase, to))
                  && (v == M0004 ==> s.control.v2Enabled))
            && (e.reply == Refused(SwitchRequiresV2) <==>
                  v == M0004 && s.control.phase == Backfill && !s.control.v2Enabled)
            && (e.reply == Refused(UnexpectedPhase) <==>
                  v !in s.ledger && !exists to :: Moves(v, s.control.phase, to))
            && (e.reply == Done(1) ==>
                  && Moves(v, s.control.phase, e.state.control.phase)
                  && e.state.ledger == s.ledger[v := digest] && Amounts(e.state) == Amounts(s))
  {
    PhaseMovesOnce(s.control.phase, v);
    if Transact(s, Apply(v, digest, false)).reply == Done(1) {
      StepMovesAmounts(s, Apply(v, digest, false));
    }
  }

  lemma {:induction false} PhaseMovesOnce(phase: Phase, v: Version)
    ensures (exists to :: Moves(v, phase, to)) <==> v != M0001 && phase == Before(v)
    ensures v != M0001 ==> Moves(v, Before(v), InvoiceDatabase.After(v))
  {
    assert Moves(M0002, Initial, Expand) && Moves(M0003, Expand, Compatibility);
    assert Moves(M0004, Backfill, Switch) && Moves(M0005, Switch, Contract);
  }

  /** The backfill is started from compatibility, and may be started again. */
  lemma {:induction false} StartOutcome(s: State)
    ensures var e := Transact(s, EnterBackfill);
            && (e.reply == Done(1) <==> s.control.phase == Compatibility || s.control.phase == Backfill)
            && (e.reply != Done(1) ==> e.reply == Refused(InvalidPhaseTransition))
            && e.state == if e.reply == Done(1) then s.(control := s.control.(phase := Backfill)) else s
  {
  }

  /**
   In the backfill a batch fills 256 rows or all that are left beyond the checkpoint, the smallest ids first, each from
   its own legacy amount in EUR; it moves the checkpoint to the last of them, counts them, and touches nothing else.
   */
  lemma {:induction false} BatchOutcome(s: State)
    requires s.control.phase == Backfill
    ensures var e, ids := Transact(s, Batch(false)), BatchIds(s);
            && e.reply == Done(|ids|) && |ids| <= 256
            && (|ids| < 256 ==>
                  forall id | id in s.rows && s.control.lastId < id && s.rows[id].minor.Null? :: id in ids)
            && (forall id | id in ids :: id in s.rows && s.control.lastId < id && s.rows[id].minor.Null?)
            && (forall id, i | id in s.rows && s.control.lastId < id && s.rows[id].minor.Null? && id !in ids
                               && 0 <= i < |ids| :: ids[i] < id)
            && e.state.rows.Keys == s.rows.Keys
            && (forall id | id in s.rows ::
                  e.state.rows[id] == if id in ids then Row(s.rows[id].cents, s.rows[id].cents, EUR) else s.rows[id])
            && e.state.control.scanned == s.control.scanned + |ids|
            && e.state.control.lastId == (if ids == [] then s.control.lastId else ids[|ids| - 1])
            && e.state.control.phase == Backfill && e.state.control.v2Enabled == s.control.v2Enabled
            && e.state.(control := s.control, rows := s.rows) == s
  {
    SmallestTakesAll(s);
  }

  lemma {:induction false} SmallestTakesAll(s: State)
    ensures var ids := BatchIds(s);
            && |ids| <= 256 && (forall id | id in ids :: id in Candidates(s))
            && (|ids| < 256 ==> forall id | id in Candidates(s) :: id in ids)
            && (forall id, i | id in Candidates(s) && id !in ids && 0 <= i < |ids| :: ids[i] < id)
  {
    var ids := BatchIds(s);
    SizeOfMembers(ids);
    if |ids| < 256 && Members(ids) != Candidates(s) {
      var missing := Member(Candidates(s) - Members(ids));
      SubsetSize(Members(ids) + {missing}, Candidates(s));
    }
  }

  /** Outside the backfill a batch is refused. */
  lemma {:induction false} BatchRefused(s: State, rollback: bool)
    ensures Transact(s, Batch(rollback)).reply == Refused(BackfillPhaseRejected) <==> s.control.phase != Backfill
  {
  }

  /** V2 is enabled exactly in the backfill of a table without a null or mismatched row; nothing but the grant moves. */
  lemma {:induction false} FinishOutcome(s: State)
    requires Inv(s)
    ensures var e := Transact(s, Finish);
            && (e.reply == Refused(CannotEnableOutsideBackfill) <==> s.control.phase != Backfill)
            && (e.reply == Refused(CannotEnableBeforeBackfill) <==>
                  s.control.phase == Backfill && exists id :: id in s.rows && !Complete(s.rows[id]))
            && (e.reply.Refused? || e.reply == Done(1))
            && (e.reply == Done(1) ==>
                  e.state == s.(v2Granted := true, control := s.control.(v2Enabled := true)))
  {
    if s.control.phase == Backfill {
      FinishMeansComplete(s);
    }
  }

  /** The refusals of a down, in the order in which they are decided. */
  lemma {:induction false} DownOutcome(s: State, digests: map<Version, Digest>)
    requires Inv(s)
    ensures var e := Transact(s, Down(digests));
            && (e.reply == Refused(DownForbiddenUsd) <==>
                  s.control.phase == Contract && exists id :: id in s.rows && s.rows[id].currency == Val("USD"))
            && (e.reply == Refused(DownPhaseRejected) <==>
                  || s.control.phase == Initial
                  || (s.control.phase == Contract && forall id | id in s.rows :: s.rows[id].currency != Val("USD")))
            && (e.reply == Refused(DownLedgerRejected) <==>
                  && s.control.phase != Initial && s.control.phase != Contract
                  && exists v :: v in s.ledger && (v !in digests || digests[v] != s.ledger[v]))
            && (e.reply.Refused? || e.reply == Done(1))
  {
  }

  /** Client writes need their grant: v1's until the switch, v2's from the moment v2 is enabled. */
  lemma {:induction false} ClientOutcome(s: State, step: Step)
    requires Inv(s) && IsClient(step)
    ensures Transact(s, step).reply == Refused(PermissionDenied) <==>
            if step.V1Update? then s.control.phase == Switch || s.control.phase == Contract else !s.control.v2Enabled
  {
  }

  /** An accepted v1 update answers how many of the rows it names are there, and leaves every other row alone. */
  lemma {:induction false} V1UpdateCounts(s: State, cents: map<int, Cell<int>>)
    ensures var e := Transact(s, V1Update(cents));
            && (e.reply.Done? ==> e.reply.count == |cents.Keys * s.rows.Keys|)
            && e.state.rows.Keys == s.rows.Keys
            && forall id | id in s.rows && id !in cents :: e.state.rows[id] == s.rows[id]
  {
    assert V1Targets(s.rows, cents).Keys * s.rows.Keys == cents.Keys * s.rows.Keys;
  }

  /** And so does an accepted v2 update. */
  lemma {:induction false} V2UpdateCounts(s: State, pairs: map<int, (Cell<int>, Cell<string>)>)
    ensures var e := Transact(s, V2Update(pairs));
            && (e.reply.Done? ==> e.reply.count == |pairs.Keys * s.rows.Keys|)
            && e.state.rows.Keys == s.rows.Keys
            && forall id | id in s.rows && id !in pairs :: e.state.rows[id] == s.rows[id]
  {
    assert V2Targets(s.rows, pairs).Keys * s.rows.Keys == pairs.Keys * s.rows.Keys;
  }
}
