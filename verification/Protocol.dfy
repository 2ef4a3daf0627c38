/** What holds over every run of the expand/contract protocol. */
module Protocol {
  import opened Sql
  import opened CompatibilityTrigger
  import opened Selection
  import opened InvoiceDatabase

  function Run(s: State, steps: seq<Step>): State
    decreases |steps|
  {
    if steps == [] then s else Run(Next(s, steps[0]), steps[1..])
  }

  lemma {:induction false} RunsCompose(s: State, first: seq<Step>, second: seq<Step>)
    ensures Run(s, first + second) == Run(Run(s, first), second)
    decreases |first|
  {
    if first == [] {
      assert first + second == second;
    } else {
      assert (first + second)[1..] == first[1..] + second;
      RunsCompose(Next(s, first[0]), first[1..], second);
    }
  }

  /** The run that brings a fresh database to the start of its backfill. */
  function ToBackfill(second: Digest, third: Digest): seq<Step> {
    [Apply(M0002, second, false), Apply(M0003, third, false), EnterBackfill]
  }

  /** The state that run reaches. */
  function BackfillStart(amounts: map<int, int>, first: Digest, second: Digest, third: Digest): State {
    State(Control(Backfill, 0, 0, false), map[M0001 := first, M0002 := second, M0003 := third], SchemaOf(Backfill),
          true, false, LegacyRows(amounts))
  }

  lemma {:induction false} BackfillStartIsReached(amounts: map<int, int>, first: Digest, second: Digest, third: Digest)
    ensures Run(InitialState(amounts, first), ToBackfill(second, third)) == BackfillStart(amounts, first, second, third)
  {
    var s := InitialState(amounts, first);
    var steps := ToBackfill(second, third);
    var expanded := Next(s, steps[0]);
    var compatible := Next(expanded, steps[1]);
    assert expanded == Advanced(s, M0002, second) && compatible == Advanced(expanded, M0003, third);
    assert steps[1..] == [steps[1], steps[2]] && steps[1..][1..] == [steps[2]];
    assert Run(compatible, [steps[2]]) == Next(compatible, steps[2]);
  }

  // ---------------------------------------------------------------- one row

  /** The write leaves alone what the phase does not let a client touch. */
  predicate Touches(phase: Phase, before: Row, after: Row) {
    && (phase in {Initial, Expand} ==> after.minor == before.minor && after.currency == before.currency)
    && (phase == Contract ==> after.cents == before.cents)
  }

  lemma {:induction false} RowUpdateFits(c: Control, before: Row, after: Row)
    requires RowFits(c, before) && Touches(c.phase, before, after)
    requires RowUpdate(SchemaOf(c.phase), before, after).Accepted?
    ensures RowFits(c, RowUpdate(SchemaOf(c.phase), before, after).row)
    ensures before.minor.Val? ==> RowUpdate(SchemaOf(c.phase), before, after).row.minor.Val?
    ensures var row := RowUpdate(SchemaOf(c.phase), before, after).row;
            && (after.cents != before.cents ==> Val(AmountOf(row)) == after.cents)
            && (after.minor != before.minor || after.currency != before.currency ==> Val(AmountOf(row)) == after.minor)
            && (before == after ==> row == before)
  {
    if SchemaOf(c.phase).trigger {
      UpdateStoresOneAmount(before, after);
    }
  }

  lemma {:induction false} RowInsertFits(c: Control, minor: Cell<int>, currency: Cell<string>)
    requires c.v2Enabled && ControlFits(c)
    requires RowInsert(SchemaOf(c.phase), Row(Null, minor, currency)).Accepted?
    ensures RowFits(c, RowInsert(SchemaOf(c.phase), Row(Null, minor, currency)).row)
    ensures Val(AmountOf(RowInsert(SchemaOf(c.phase), Row(Null, minor, currency)).row)) == minor
  {
    if SchemaOf(c.phase).trigger {
      InsertStoresOneAmount(Row(Null, minor, currency));
    }
  }

  // ---------------------------------------------------------------- every step keeps the invariant

  lemma {:induction false} UpdateKeepsInv(s: State, targets: map<int, Row>)
    requires Inv(s)
    requires forall id | id in targets && id in s.rows :: Touches(s.control.phase, s.rows[id], targets[id])
    ensures Inv(UpdateEffect(s, targets).state)
  {
    forall id | id in s.rows && id in targets && UpdatePasses(s.schema, s.rows, targets)
      ensures RowFits(s.control, Updated(s.schema, s.rows, targets)[id])
      ensures s.rows[id].minor.Val? ==> Updated(s.schema, s.rows, targets)[id].minor.Val?
    {
      RowUpdateFits(s.control, s.rows[id], targets[id]);
    }
  }

  lemma {:induction false} BatchKeepsInv(s: State, rollback: bool)
    requires Inv(s)
    ensures Inv(BatchEffect(s, rollback).state)
  {
    var t := BatchEffect(s, rollback).state;
    var ids := BatchIds(s);
    if s.control.phase == Backfill && ids != [] && !rollback {
      var filled := Members(ids);
      forall id | id in t.rows && 0 < id <= t.control.lastId
        ensures t.rows[id].minor.Val?
      {
        assert id in Candidates(s) ==> id in ids;
      }
      assert ids[|ids| - 1] in Candidates(s);
    }
  }

  lemma {:induction false} DownKeepsInv(s: State, digests: map<Version, Digest>)
    requires Inv(s)
    ensures Inv(DownEffect(s, digests).state)
  {
  }

  lemma {:induction false} StepKeepsInv(s: State, step: Step)
    requires Inv(s)
    ensures Inv(Next(s, step))
  {
    match step
    case Apply(v, digest, fail) =>
    case EnterBackfill =>
    case Batch(rollback) => BatchKeepsInv(s, rollback);
    case Finish =>
      if s.control.phase == Backfill {
        FinishMeansComplete(s);
      }
    case Down(digests) => DownKeepsInv(s, digests);
    case V1Update(cents) =>
      if s.v1Granted {
        UpdateKeepsInv(s, V1Targets(s.rows, cents));
      }
    case V2Update(pairs) =>
      if s.v2Granted {
        UpdateKeepsInv(s, V2Targets(s.rows, pairs));
      }
    case V2Insert(id, minor, currency) =>
      if Transact(s, step).reply.Done? {
        RowInsertFits(s.control, minor, currency);
      }
  }

  /** The finish check passes exactly on a table that has no pending row left. */
  lemma {:induction false} FinishMeansComplete(s: State)
    requires Inv(s) && s.control.phase == Backfill
    ensures FinishEffect(s).reply.Done? <==> forall id | id in s.rows :: Complete(s.rows[id])
  {
    forall id | id in s.rows
      ensures Mismatched(s.rows[id]) <==> !Complete(s.rows[id])
    {
    }
  }

  /** A legacy table that migration 0001 accepts. */
  predicate LegalTable(amounts: map<int, int>) {
    forall id | id in amounts :: IsBigint(id) && 0 <= amounts[id] && IsBigint(amounts[id])
  }

  lemma {:induction false} RunKeepsInv(s: State, steps: seq<Step>)
    requires Inv(s)
    ensures Inv(Run(s, steps))
    decreases |steps|
  {
    if steps != [] {
      StepKeepsInv(s, steps[0]);
      RunKeepsInv(Next(s, steps[0]), steps[1..]);
    }
  }

  /** The joint invariant holds in every state that any run reaches from any legal legacy table. */
  lemma {:induction false} EveryReachableStateIsConsistent(amounts: map<int, int>, digest: Digest, steps: seq<Step>)
    requires LegalTable(amounts)
    ensures Inv(Run(InitialState(amounts, digest), steps))
  {
    RunKeepsInv(InitialState(amounts, digest), steps);
  }

  // ---------------------------------------------------------------- amounts

  /** What an accepted client transaction says about the amounts. */
  datatype Write = Set(amounts: map<int, int>) | Add(id: int, amount: int)

  predicate IsClient(step: Step) {
    step.V1Update? || step.V2Update? || step.V2Insert?
  }

  function WriteOf(step: Step): Write
    requires IsClient(step)
  {
    match step
    case V1Update(cents) => Set(map id | id in cents && cents[id].Val? :: cents[id].v)
    case V2Update(pairs) => Set(map id | id in pairs && pairs[id].0.Val? :: pairs[id].0.v)
    case V2Insert(id, minor, currency) => Add(id, if minor.Val? then minor.v else 0)
  }

  /** The client transactions of a run that were accepted, in order. */
  function AcceptedWrites(s: State, steps: seq<Step>): seq<Write>
    decreases |steps|
  {
    if steps == [] then []
    else
      (if IsClient(steps[0]) && Transact(s, steps[0]).reply.Done? then [WriteOf(steps[0])] else [])
      + AcceptedWrites(Next(s, steps[0]), steps[1..])
  }

  /** A plain one-column ledger of amounts. */
  function Posted(ledger: map<int, int>, w: Write): map<int, int> {
    match w
    case Set(amounts) => map id | id in ledger :: if id in amounts then amounts[id] else ledger[id]
    case Add(id, amount) => ledger[id := amount]
  }

  function Replay(ledger: map<int, int>, writes: seq<Write>): map<int, int>
    decreases |writes|
  {
    if writes == [] then ledger else Replay(Posted(ledger, writes[0]), writes[1..])
  }

  lemma {:induction false} V1RowHolds(c: Control, before: Row, cents: Cell<int>)
    requires RowFits(c, before) && V1Phase(c.phase)
    requires RowUpdate(SchemaOf(c.phase), before, before.(cents := cents)).Accepted?
    ensures cents == Val(AmountOf(RowUpdate(SchemaOf(c.phase), before, before.(cents := cents)).row))
  {
    RowUpdateFits(c, before, before.(cents := cents));
  }

  lemma {:induction false} V2RowHolds(c: Control, before: Row, minor: Cell<int>, currency: Cell<string>)
    requires RowFits(c, before) && ControlFits(c) && c.v2Enabled
    requires RowUpdate(SchemaOf(c.phase), before, before.(minor := minor, currency := currency)).Accepted?
    ensures minor ==
            Val(AmountOf(RowUpdate(SchemaOf(c.phase), before, before.(minor := minor, currency := currency)).row))
  {
    RowUpdateFits(c, before, before.(minor := minor, currency := currency));
  }

  lemma {:induction false} V1UpdateMovesAmounts(s: State, cents: map<int, Cell<int>>)
    requires Inv(s) && s.v1Granted && UpdatePasses(s.schema, s.rows, V1Targets(s.rows, cents))
    ensures Amounts(UpdateEffect(s, V1Targets(s.rows, cents)).state) == Posted(Amounts(s), WriteOf(V1Update(cents)))
  {
    var targets := V1Targets(s.rows, cents);
    forall id | id in targets
      ensures cents[id] == Val(AmountOf(Updated(s.schema, s.rows, targets)[id]))
    {
      V1RowHolds(s.control, s.rows[id], cents[id]);
    }
  }

  lemma {:induction false} V2UpdateMovesAmounts(s: State, pairs: map<int, (Cell<int>, Cell<string>)>)
    requires Inv(s) && s.v2Granted && UpdatePasses(s.schema, s.rows, V2Targets(s.rows, pairs))
    ensures Amounts(UpdateEffect(s, V2Targets(s.rows, pairs)).state) == Posted(Amounts(s), WriteOf(V2Update(pairs)))
  {
    var targets := V2Targets(s.rows, pairs);
    forall id | id in targets
      ensures pairs[id].0 == Val(AmountOf(Updated(s.schema, s.rows, targets)[id]))
    {
      V2RowHolds(s.control, s.rows[id], pairs[id].0, pairs[id].1);
    }
  }

  lemma {:induction false} InitialAmounts(amounts: map<int, int>, digest: Digest)
    ensures Amounts(InitialState(amounts, digest)) == amounts
  {
    var s := InitialState(amounts, digest);
    forall id | id in amounts
      ensures Amounts(s)[id] == amounts[id]
    {
      assert s.rows[id] == Row(Val(amounts[id]), Null, Null);
    }
  }

  /** Migrations, batches, finishing and going down never change an amount. */
  lemma {:induction false} MaintenanceKeepsAmounts(s: State, step: Step)
    requires Inv(s) && !IsClient(step)
    ensures Amounts(Next(s, step)) == Amounts(s)
  {
    match step
    case Apply(v, digest, fail) => ApplyKeepsAmounts(s, v, digest, fail);
    case Batch(rollback) => BatchKeepsAmounts(s, rollback);
    case Down(digests) => DownKeepsAmounts(s, digests);
    case _ =>
  }

  lemma {:induction false} ApplyKeepsAmounts(s: State, v: Version, digest: Digest, failBeforeCommit: bool)
    requires Inv(s)
    ensures Amounts(ApplyEffect(s, v, digest, failBeforeCommit).state) == Amounts(s)
  {
    if ApplyEffect(s, v, digest, failBeforeCommit).reply.Done? {
      AdvanceKeepsAmounts(s, v, digest);
    }
  }

  lemma {:induction false} BatchKeepsAmounts(s: State, rollback: bool)
    requires Inv(s)
    ensures Amounts(BatchEffect(s, rollback).state) == Amounts(s)
  {
    if s.control.phase == Backfill {
      FillKeepsAmounts(s, Members(BatchIds(s)));
    }
  }

  lemma {:induction false} DownKeepsAmounts(s: State, digests: map<Version, Digest>)
    requires M0001 in s.ledger
    ensures Amounts(DownEffect(s, digests).state) == Amounts(s)
  {
    InitialAmounts(Amounts(s), s.ledger[M0001]);
  }

  lemma {:induction false} AdvanceKeepsAmounts(s: State, v: Version, digest: Digest)
    requires v == M0005 ==> forall id | id in s.rows :: Complete(s.rows[id])
    ensures Amounts(Advanced(s, v, digest)) == Amounts(s)
  {
    SameAmounts(s, Advanced(s, v, digest));
  }

  lemma {:induction false} FillKeepsAmounts(s: State, ids: set<int>)
    requires forall id | id in s.rows && id in ids :: s.rows[id].cents.Val?
    ensures Amounts(s.(rows := FillRows(s.rows, ids))) == Amounts(s)
  {
    SameAmounts(s, s.(rows := FillRows(s.rows, ids)));
  }

  lemma {:induction false} SameAmounts(s: State, t: State)
    requires t.rows.Keys == s.rows.Keys
    requires forall id | id in s.rows :: AmountOf(t.rows[id]) == AmountOf(s.rows[id])
    ensures Amounts(t) == Amounts(s)
  {
    assert Amounts(t).Keys == Amounts(s).Keys;
    forall id | id in Amounts(s)
      ensures Amounts(t)[id] == Amounts(s)[id]
    {
    }
  }

  /** The v1 application's update: 101 more on invoices 4001 to 4008. */
  function V1Increments(rows: map<int, Row>): map<int, Cell<int>> {
    map id | id in rows && 4001 <= id <= 4008 && rows[id].cents.Val? :: Val(rows[id].cents.v + 101)
  }

  /** The v2 application's update: 202 more on invoices 4017 to 4024, in EUR; null plus 202 is null. */
  function V2Increments(rows: map<int, Row>): map<int, (Cell<int>, Cell<string>)> {
    map id | id in rows && 4017 <= id <= 4024 ::
      (if rows[id].minor.Val? then Val(rows[id].minor.v + 202) else Null, EUR)
  }

  lemma {:induction false} V1IncrementFits(c: Control, r: Row)
    requires RowFits(c, r) && V1Phase(c.phase)
    ensures r.cents.Val?
    ensures RowUpdate(SchemaOf(c.phase), r, r.(cents := Val(r.cents.v + 101))).Accepted? <==>
            IsBigint(AmountOf(r) + 101)
  {
  }

  lemma {:induction false} V2IncrementFits(c: Control, r: Row)
    requires RowFits(c, r) && ControlFits(c) && c.v2Enabled && c.phase != Contract
    ensures r.minor.Val?
    ensures RowUpdate(SchemaOf(c.phase), r, r.(minor := Val(r.minor.v + 202), currency := EUR)).Accepted? <==>
            IsBigint(AmountOf(r) + 202)
  {
  }

  /** In every phase that has the v1 grant the v1 application's update is accepted unless an amount overflows. */
  lemma {:induction false} V1IncrementsAccepted(s: State)
    requires Inv(s) && s.v1Granted
    ensures Transact(s, V1Update(V1Increments(s.rows))).reply.Done? <==>
            forall id | id in s.rows && 4001 <= id <= 4008 :: IsBigint(Amounts(s)[id] + 101)
  {
    var targets := V1Targets(s.rows, V1Increments(s.rows));
    forall id | id in targets
      ensures RowUpdate(s.schema, s.rows[id], targets[id]).Accepted? <==> IsBigint(Amounts(s)[id] + 101)
    {
      V1IncrementFits(s.control, s.rows[id]);
    }
    assert forall id :: id in targets <==> id in s.rows && 4001 <= id <= 4008;
  }

  /** Once v2 is enabled, until contract, the same holds of the v2 application's update. */
  lemma {:induction false} V2IncrementsAccepted(s: State)
    requires Inv(s) && s.v2Granted && s.control.phase != Contract
    ensures Transact(s, V2Update(V2Increments(s.rows))).reply.Done? <==>
            forall id | id in s.rows && 4017 <= id <= 4024 :: IsBigint(Amounts(s)[id] + 202)
  {
    var targets := V2Targets(s.rows, V2Increments(s.rows));
    forall id | id in targets
      ensures RowUpdate(s.schema, s.rows[id], targets[id]).Accepted? <==> IsBigint(Amounts(s)[id] + 202)
    {
      V2IncrementFits(s.control, s.rows[id]);
    }
    assert forall id :: id in targets <==> id in s.rows && 4017 <= id <= 4024;
  }

  /** Every accepted client transaction posts to the amounts; every other step leaves them as they are. */
  lemma {:induction false} StepMovesAmounts(s: State, step: Step)
    requires Inv(s)
    ensures Amounts(Next(s, step)) ==
            if IsClient(step) && Transact(s, step).reply.Done? then Posted(Amounts(s), WriteOf(step)) else Amounts(s)
  {
    match step
    case V1Update(cents) =>
      if Transact(s, step).reply.Done? {
        V1UpdateMovesAmounts(s, cents);
      }
    case V2Update(pairs) =>
      if Transact(s, step).reply.Done? {
        V2UpdateMovesAmounts(s, pairs);
      }
    case V2Insert(id, minor, currency) =>
      if Transact(s, step).reply.Done? {
        RowInsertFits(s.control, minor, currency);
      }
    case _ => MaintenanceKeepsAmounts(s, step);
  }

  /** Conservation over a whole run: the amounts are the starting ones with the accepted writes replayed. */
  lemma {:induction false} AmountsFollowWrites(s: State, steps: seq<Step>)
    requires Inv(s)
    ensures Amounts(Run(s, steps)) == Replay(Amounts(s), AcceptedWrites(s, steps))
    decreases |steps|
  {
    if steps != [] {
      StepKeepsInv(s, steps[0]);
      StepMovesAmounts(s, steps[0]);
      AmountsFollowWrites(Next(s, steps[0]), steps[1..]);
      var here := if IsClient(steps[0]) && Transact(s, steps[0]).reply.Done? then [WriteOf(steps[0])] else [];
      var later := AcceptedWrites(Next(s, steps[0]), steps[1..]);
      assert here == [] ==> here + later == later;
      assert here != [] ==> (here + later)[1..] == later;
    }
  }

  /** The two-column table refines a plain ledger: each view a client may read shows the replayed amount. */
  lemma {:induction false} BothViewsFollowTheLedger(amounts: map<int, int>, digest: Digest, steps: seq<Step>)
    requires LegalTable(amounts)
    ensures var t := Run(InitialState(amounts, digest), steps);
            var ledger := Replay(amounts, AcceptedWrites(InitialState(amounts, digest), steps));
            && t.rows.Keys == ledger.Keys
            && (t.schema.legacyColumn ==> forall id | id in ledger :: t.rows[id].cents == Val(ledger[id]))
            && (forall id | id in ledger && t.rows[id].minor.Val? :: t.rows[id].minor == Val(ledger[id]))
            && (t.v2Granted ==> forall id | id in ledger :: t.rows[id].minor == Val(ledger[id]))
  {
    var s := InitialState(amounts, digest);
    EveryReachableStateIsConsistent(amounts, digest, steps);
    AmountsFollowWrites(s, steps);
    InitialAmounts(amounts, digest);
    ViewsShowAmounts(Run(s, steps));
  }

  lemma {:induction false} ViewsShowAmounts(t: State)
    requires Inv(t)
    ensures t.schema.legacyColumn ==> forall id | id in t.rows :: t.rows[id].cents == Val(Amounts(t)[id])
    ensures forall id | id in t.rows && t.rows[id].minor.Val? :: t.rows[id].minor == Val(Amounts(t)[id])
    ensures t.v2Granted ==> forall id | id in t.rows :: t.rows[id].minor == Val(Amounts(t)[id])
  {
    forall id | id in t.rows
      ensures t.schema.legacyColumn ==> t.rows[id].cents == Val(Amounts(t)[id])
      ensures t.v2Granted || t.rows[id].minor.Val? ==> t.rows[id].minor == Val(Amounts(t)[id])
    {
      assert RowFits(t.control, t.rows[id]);
    }
  }

  // ---------------------------------------------------------------- going down

  lemma {:induction false} StepKeepsFirstDigest(s: State, step: Step)
    requires M0001 in s.ledger
    ensures M0001 in Next(s, step).ledger && Next(s, step).ledger[M0001] == s.ledger[M0001]
  {
  }

  lemma {:induction false} FirstDigestStays(s: State, steps: seq<Step>)
    requires Inv(s)
    ensures Inv(Run(s, steps)) && Run(s, steps).ledger[M0001] == s.ledger[M0001]
    decreases |steps|
  {
    if steps != [] {
      StepKeepsInv(s, steps[0]);
      StepKeepsFirstDigest(s, steps[0]);
      FirstDigestStays(Next(s, steps[0]), steps[1..]);
    }
  }

  /**
   Any run that is back in the initial phase, after any number of forward and down cycles, is in the very
   initial state its accepted client writes lead to: nothing of schema, grants, ledger or control row is left.
   */
  lemma {:induction false} BackInInitialIsInitial(amounts: map<int, int>, digest: Digest, steps: seq<Step>)
    requires LegalTable(amounts)
    requires Run(InitialState(amounts, digest), steps).control.phase == Initial
    ensures var s := InitialState(amounts, digest);
            Run(s, steps) == InitialState(Replay(amounts, AcceptedWrites(s, steps)), digest)
  {
    var s := InitialState(amounts, digest);
    FirstDigestStays(s, steps);
    AmountsFollowWrites(s, steps);
    InitialAmounts(amounts, digest);
    InitialPhaseIsInitialState(Run(s, steps));
  }

  /**
   In every reachable state a down is accepted exactly in the four middle phases with unchanged migration files, and
   then it leaves the initial database of the amounts as they are.
   */
  lemma {:induction false} DownIsAnInverse(
    amounts: map<int, int>, digest: Digest, steps: seq<Step>, digests: map<Version, Digest>)
    requires LegalTable(amounts)
    ensures var start := InitialState(amounts, digest);
            var s := Run(start, steps);
            var down := Transact(s, Down(digests));
            && (down.reply.Done? <==> MiddlePhase(s.control.phase) && FilesUnchanged(s, digests))
            && (down.reply.Done? ==> down.state == InitialState(Replay(amounts, AcceptedWrites(start, steps)), digest))
            && Amounts(down.state) == Amounts(s)
  {
    var start := InitialState(amounts, digest);
    FirstDigestStays(start, steps);
    AmountsFollowWrites(start, steps);
    InitialAmounts(amounts, digest);
    DownKeepsAmounts(Run(start, steps), digests);
  }

  lemma {:induction false} InitialPhaseIsInitialState(s: State)
    requires Inv(s) && s.control.phase == Initial
    ensures s == InitialState(Amounts(s), s.ledger[M0001])
  {
    var t := InitialState(Amounts(s), s.ledger[M0001]);
    assert s.ledger.Keys == {M0001};
    assert s.ledger == t.ledger;
    forall id | id in s.rows
      ensures s.rows[id] == t.rows[id]
    {
      assert RowFits(s.control, s.rows[id]);
    }
    assert s.rows == t.rows;
  }

  /** Without client writes, any forward and down cycles that end in the initial phase are the identity. */
  lemma {:induction false} CyclesAreTheIdentity(amounts: map<int, int>, digest: Digest, steps: seq<Step>)
    requires LegalTable(amounts)
    requires forall i | 0 <= i < |steps| :: !IsClient(steps[i])
    requires Run(InitialState(amounts, digest), steps).control.phase == Initial
    ensures Run(InitialState(amounts, digest), steps) == InitialState(amounts, digest)
  {
    BackInInitialIsInitial(amounts, digest, steps);
    NoClientsNoWrites(InitialState(amounts, digest), steps);
  }

  lemma {:induction false} NoClientsNoWrites(s: State, steps: seq<Step>)
    requires forall i | 0 <= i < |steps| :: !IsClient(steps[i])
    ensures AcceptedWrites(s, steps) == []
    decreases |steps|
  {
    if steps != [] {
      NoClientsNoWrites(Next(s, steps[0]), steps[1..]);
    }
  }

  // ---------------------------------------------------------------- phases and the v2 window

  /** Contract is absorbing, and in it no transaction of the rehearsal except a v2 write is accepted. */
  lemma {:induction false} ContractIsAbsorbing(s: State, steps: seq<Step>, last: Step)
    requires Inv(s) && s.control.phase == Contract
    ensures Run(s, steps).control.phase == Contract
    ensures Transact(Run(s, steps), last).reply.Done? ==> last.V2Update? || last.V2Insert?
    decreases |steps|
  {
    if steps != [] {
      StepKeepsInv(s, steps[0]);
      ContractIsAbsorbing(Next(s, steps[0]), steps[1..], last);
    }
  }

  /** A step keeps the phase, moves it along the chain, or is an accepted down that returns it to initial. */
  lemma {:induction false} PhaseFollowsTheChain(s: State, step: Step)
    requires Inv(s)
    ensures var t := Next(s, step);
            || PhaseMoves(s.control.phase, t.control.phase, false)
            || (step.Down? && MiddlePhase(s.control.phase) && t.control.phase == Initial)
    ensures Next(s, step).control.phase != s.control.phase ==> !IsClient(step) && !step.Batch? && !step.Finish?
  {
  }

  /** Some step of the run takes the database down. */
  predicate GoesDown(s: State, steps: seq<Step>)
    decreases |steps|
  {
    steps != [] && ((steps[0].Down? && Transact(s, steps[0]).reply.Done?) || GoesDown(Next(s, steps[0]), steps[1..]))
  }

  /**
   Once v2 is enabled no run brings back a null or mismatched row before the next down, so from then on
   migration 0004 is accepted whenever the phase is backfill.
   */
  lemma {:induction false} EnabledStaysComplete(s: State, steps: seq<Step>, digest: Digest)
    requires Inv(s) && s.control.v2Enabled && !GoesDown(s, steps)
    ensures var t := Run(s, steps);
            && t.control.v2Enabled && t.v2Granted
            && (forall id | id in t.rows :: t.rows[id].minor.Val? && t.rows[id].currency.Val?)
            && (t.control.phase != Contract ==> forall id | id in t.rows :: Complete(t.rows[id]))
            && (t.control.phase == Backfill ==> Transact(t, Apply(M0004, digest, false)).reply == Done(1))
    decreases |steps|
  {
    if steps != [] {
      StepKeepsInv(s, steps[0]);
      EnabledStaysComplete(Next(s, steps[0]), steps[1..], digest);
    }
  }
}
