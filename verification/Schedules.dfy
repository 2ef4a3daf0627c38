/** Client writes among the batches of a backfill, against the same writes run alone and filled afterwards. */
module ClientSchedules {
  import opened Sql
  import opened CompatibilityTrigger
  import opened Selection
  import opened InvoiceDatabase
  import opened Protocol
  import opened ChunkedBackfill

  predicate Schedule(steps: seq<Step>) {
    forall i | 0 <= i < |steps| :: BackfillStep(steps[i])
  }

  /** The client writes of a schedule, in order. */
  function Clients(steps: seq<Step>): seq<Step> {
    if steps == [] then []
    else (if IsClient(steps[0]) then [steps[0]] else []) + Clients(steps[1..])
  }

  /** One fill of every row the backfill still looks at. */
  function Filled(s: State): map<int, Row> {
    FillRows(s.rows, Candidates(s))
  }

  /** With positive ids that is the unbounded fill of the null rows. */
  lemma {:induction false} FilledIsOneShot(s: State)
    requires Filling(s) && forall id | id in s.rows :: 0 < id
    ensures Filled(s) == OneShotFill(s.rows)
  {
    assert Candidates(s) == set id | id in s.rows && s.rows[id].minor.Null?;
  }

  /** A batch would find nothing. */
  predicate Dry(s: State) {
    Transact(s, Batch(false)).reply == Done(0)
  }

  // ---------------------------------------------------------------- what decides one row of a write

  predicate Legal(cell: Cell<int>) {
    cell.Val? && 0 <= cell.v && IsBigint(cell.v)
  }

  /** A v1 write is refused on a pending row that it does not change. */
  lemma {:induction false} V1RowOutcome(r: Row, cents: Cell<int>)
    requires (Pending(r) || Complete(r)) && IsBigint(r.cents.v)
    ensures RowUpdate(SchemaOf(Backfill), r, r.(cents := cents)) ==
            if Legal(cents) && !(Pending(r) && cents == r.cents) then Accepted(CompleteRow(cents.v)) else Rejected
  {
    if cents == r.cents {
      assert r.(cents := cents) == r;
    }
  }

  /** The named rows that a v1 write leaves at their amount although they are still to be filled. */
  predicate Waits(s: State, cents: map<int, Cell<int>>, id: int) {
    id in cents && id in s.rows && Pending(s.rows[id]) && cents[id] == s.rows[id].cents
  }

  predicate AllLegal(s: State, cents: map<int, Cell<int>>) {
    forall id | id in cents && id in s.rows :: Legal(cents[id])
  }

  predicate ChangesSome(s: State, cents: map<int, Cell<int>>) {
    exists id :: id in cents && id in s.rows && cents[id] != s.rows[id].cents
  }

  /**
   The guard of the trigger branch for an unchanged row: a v1 write that would change some row is refused only for
   rows it names without changing, all of which a batch will have filled sooner or later.
   */
  predicate Stalls(s: State, step: Step) {
    && step.V1Update? && AllLegal(s, step.cents) && ChangesSome(s, step.cents)
    && (exists id :: id in step.cents && Waits(s, step.cents, id))
    && (forall id | id in step.cents && Waits(s, step.cents, id) :: 0 < id)
  }

  lemma {:induction false} V1RowsAccepted(s: State, cents: map<int, Cell<int>>)
    requires Filling(s)
    ensures forall id | id in cents && id in s.rows ::
              RowUpdate(s.schema, s.rows[id], s.rows[id].(cents := cents[id])) ==
              if Legal(cents[id]) && !Waits(s, cents, id) then Accepted(CompleteRow(cents[id].v)) else Rejected
  {
    forall id | id in cents && id in s.rows
      ensures RowUpdate(s.schema, s.rows[id], s.rows[id].(cents := cents[id])) ==
              if Legal(cents[id]) && !Waits(s, cents, id) then Accepted(CompleteRow(cents[id].v)) else Rejected
    {
      assert RowFits(s.control, s.rows[id]);
      V1RowOutcome(s.rows[id], cents[id]);
    }
  }

  lemma {:induction false} V1PassesExactlyWhen(s: State, cents: map<int, Cell<int>>)
    requires Filling(s)
    ensures UpdatePasses(s.schema, s.rows, V1Targets(s.rows, cents)) <==>
            AllLegal(s, cents) && !exists id :: Waits(s, cents, id)
  {
    V1RowsAccepted(s, cents);
    var targets := V1Targets(s.rows, cents);
    assert forall id | id in targets :: targets[id] == s.rows[id].(cents := cents[id]);
    assert forall id :: id in targets <==> id in cents && id in s.rows;
  }

  lemma {:induction false} V1RowsAfter(s: State, cents: map<int, Cell<int>>)
    requires Filling(s) && UpdatePasses(s.schema, s.rows, V1Targets(s.rows, cents))
    ensures var rows := Updated(s.schema, s.rows, V1Targets(s.rows, cents));
            && rows.Keys == s.rows.Keys
            && forall id | id in s.rows ::
                 rows[id] == if id in cents && cents[id].Val? then CompleteRow(cents[id].v) else s.rows[id]
  {
    V1RowsAccepted(s, cents);
    V1PassesExactlyWhen(s, cents);
    assert forall id | id in cents && id in s.rows :: !Waits(s, cents, id) && Legal(cents[id]);
  }

  lemma {:induction false} V1Accepted(s: State, cents: map<int, Cell<int>>)
    requires Filling(s)
    ensures Transact(s, V1Update(cents)).reply.Done? <==> AllLegal(s, cents) && !exists id :: Waits(s, cents, id)
    ensures var t := Next(s, V1Update(cents));
            && t.control == s.control && t.rows.Keys == s.rows.Keys
            && forall id | id in s.rows ::
                 t.rows[id] == if Transact(s, V1Update(cents)).reply.Done? && id in cents then CompleteRow(cents[id].v)
                               else s.rows[id]
  {
    V1PassesExactlyWhen(s, cents);
    if UpdatePasses(s.schema, s.rows, V1Targets(s.rows, cents)) {
      V1RowsAfter(s, cents);
    }
  }

  // ---------------------------------------------------------------- the schedule is ahead of the writes alone

  /** The second state is the first with some of the rows to fill already filled. */
  ghost predicate Ahead(u: State, w: State) {
    && Filling(u) && Filling(w) && w.control.v2Enabled == u.control.v2Enabled && w.rows.Keys == u.rows.Keys
    && forall id | id in u.rows :: RowAhead(id, u.rows[id], w.rows[id])
  }

  predicate RowAhead(id: int, r: Row, q: Row) {
    q == r || (0 < id && Pending(r) && q == CompleteRow(r.cents.v))
  }

  lemma {:induction false} BatchKeepsAhead(u: State, w: State, rollback: bool)
    requires Ahead(u, w)
    ensures Ahead(u, Next(w, Batch(rollback)))
  {
    BatchKeepsInv(w, rollback);
    var t := Next(w, Batch(rollback));
    BatchFillsRows(w, rollback);
    forall id | id in u.rows
      ensures RowAhead(id, u.rows[id], t.rows[id])
    {
      assert RowAhead(id, u.rows[id], w.rows[id]);
    }
  }

  /** A batch leaves a row alone, or completes a pending row with a positive id. */
  lemma {:induction false} BatchFillsRows(w: State, rollback: bool)
    requires Filling(w)
    ensures var t := Next(w, Batch(rollback));
            && t.control.phase == Backfill && t.control.v2Enabled == w.control.v2Enabled && t.rows.Keys == w.rows.Keys
            && forall id | id in w.rows :: RowAhead(id, w.rows[id], t.rows[id])
  {
    var t := Next(w, Batch(rollback));
    forall id | id in w.rows
      ensures RowAhead(id, w.rows[id], t.rows[id])
    {
      assert RowFits(w.control, w.rows[id]);
      if t.rows[id] != w.rows[id] {
        assert id in Candidates(w);
      }
    }
  }

  /** A row after a v1 write that the two states took or refused alike, or that only the second took to no effect. */
  lemma {:induction false} V1RowStaysAhead(id: int, r: Row, q: Row, cents: Cell<int>, alone: bool, ahead: bool)
    requires RowAhead(id, r, q) && (alone ==> ahead)
    requires ahead && !alone ==> cents == r.cents && Complete(q)
    ensures RowAhead(id, if alone then CompleteRow(if cents.Val? then cents.v else 0) else r,
                     if ahead then CompleteRow(if cents.Val? then cents.v else 0) else q)
  {
  }

  /** What is refused alone is refused ahead, or changes nothing there. */
  lemma {:induction false} V1RefusedAlike(u: State, w: State, cents: map<int, Cell<int>>)
    requires Ahead(u, w) && !Stalls(u, V1Update(cents))
    ensures var alone, ahead := Transact(u, V1Update(cents)).reply.Done?, Transact(w, V1Update(cents)).reply.Done?;
            && (alone ==> ahead)
            && (ahead && !alone ==>
                  forall id | id in cents && id in u.rows :: cents[id] == u.rows[id].cents && Complete(w.rows[id]))
  {
    V1Accepted(u, cents);
    V1Accepted(w, cents);
    forall id | id in cents && id in u.rows
      ensures Waits(w, cents, id) ==> Waits(u, cents, id)
      ensures Waits(u, cents, id) && !Waits(w, cents, id) ==> 0 < id
      ensures cents[id] == u.rows[id].cents && !Waits(w, cents, id) ==> Complete(w.rows[id])
    {
      assert RowAhead(id, u.rows[id], w.rows[id]) && RowFits(w.control, w.rows[id]);
    }
  }

  lemma {:induction false} V1KeepsAhead(u: State, w: State, cents: map<int, Cell<int>>)
    requires Ahead(u, w) && !Stalls(u, V1Update(cents))
    ensures Ahead(Next(u, V1Update(cents)), Next(w, V1Update(cents)))
  {
    StepKeepsInv(u, V1Update(cents));
    StepKeepsInv(w, V1Update(cents));
    V1RefusedAlike(u, w, cents);
    V1RowsStayAhead(u, w, cents);
  }

  lemma {:induction false} V1RowsStayAhead(u: State, w: State, cents: map<int, Cell<int>>)
    requires Ahead(u, w)
    requires var alone, ahead := Transact(u, V1Update(cents)).reply.Done?, Transact(w, V1Update(cents)).reply.Done?;
             && (alone ==> ahead)
             && (ahead && !alone ==>
                   forall id | id in cents && id in u.rows :: cents[id] == u.rows[id].cents && Complete(w.rows[id]))
    ensures var t, x := Next(u, V1Update(cents)), Next(w, V1Update(cents));
            && t.control == u.control && x.control == w.control && x.rows.Keys == t.rows.Keys == u.rows.Keys
            && forall id | id in u.rows :: RowAhead(id, t.rows[id], x.rows[id])
  {
    V1Accepted(u, cents);
    V1Accepted(w, cents);
    var alone, ahead := Transact(u, V1Update(cents)).reply.Done?, Transact(w, V1Update(cents)).reply.Done?;
    forall id | id in u.rows
      ensures RowAhead(id, Next(u, V1Update(cents)).rows[id], Next(w, V1Update(cents)).rows[id])
    {
      assert RowAhead(id, u.rows[id], w.rows[id]);
      if id in cents {
        V1RowStaysAhead(id, u.rows[id], w.rows[id], cents[id], alone, ahead);
      }
    }
  }

  /** Once v2 is enabled no row is left to fill, and both states hold the same rows. */
  lemma {:induction false} EnabledRowsAreAlike(u: State, w: State)
    requires Ahead(u, w) && u.v2Granted
    ensures w.rows == u.rows
  {
    forall id | id in u.rows
      ensures w.rows[id] == u.rows[id]
    {
      assert RowAhead(id, u.rows[id], w.rows[id]) && RowFits(u.control, u.rows[id]);
    }
  }

  lemma {:induction false} V2KeepsAhead(u: State, w: State, step: Step)
    requires Ahead(u, w) && (step.V2Update? || step.V2Insert?)
    ensures Ahead(Next(u, step), Next(w, step))
  {
    StepKeepsInv(u, step);
    StepKeepsInv(w, step);
    if u.v2Granted {
      EnabledRowsAreAlike(u, w);
    }
  }

  lemma {:induction false} ClientKeepsAhead(u: State, w: State, step: Step)
    requires Ahead(u, w) && IsClient(step) && !Stalls(u, step)
    ensures Ahead(Next(u, step), Next(w, step))
  {
    if step.V1Update? {
      V1KeepsAhead(u, w, step.cents);
    } else {
      V2KeepsAhead(u, w, step);
    }
  }

  /** No write of the list, run alone, stalls. */
  predicate NoneStalls(s: State, clients: seq<Step>)
    decreases |clients|
  {
    clients == [] || (!Stalls(s, clients[0]) && NoneStalls(Next(s, clients[0]), clients[1..]))
  }

  lemma {:induction false} ScheduleStaysAhead(u: State, w: State, steps: seq<Step>)
    requires Ahead(u, w) && Schedule(steps) && NoneStalls(u, Clients(steps))
    ensures Ahead(Run(u, Clients(steps)), Run(w, steps))
    decreases |steps|
  {
    if steps != [] {
      var rest := steps[1..];
      if IsClient(steps[0]) {
        ClientKeepsAhead(u, w, steps[0]);
        assert Clients(steps)[1..] == Clients(rest);
        ScheduleStaysAhead(Next(u, steps[0]), Next(w, steps[0]), rest);
      } else {
        BatchKeepsAhead(u, w, steps[0].rollback);
        assert Clients(steps) == Clients(rest);
        ScheduleStaysAhead(u, Next(w, steps[0]), rest);
      }
    }
  }

  lemma {:induction false} DryAheadIsFilled(u: State, w: State)
    requires Ahead(u, w) && Dry(w)
    ensures w.rows == Filled(u)
  {
    DryBatchMeansFilled(w);
    assert Filled(u).Keys == u.rows.Keys;
    forall id | id in u.rows
      ensures w.rows[id] == Filled(u)[id]
    {
      assert RowAhead(id, u.rows[id], w.rows[id]) && RowFits(u.control, u.rows[id]);
      assert 0 < id ==> Complete(w.rows[id]);
      assert id in Candidates(u) <==> 0 < id && Pending(u.rows[id]);
    }
  }

  // ---------------------------------------------------------------- exactly when a schedule is the writes and a fill

  /** Every schedule with these client writes, run until it is dry, leaves what the writes alone and one fill leave. */
  ghost predicate FillsLikeAlone(s: State, clients: seq<Step>) {
    forall steps | Schedule(steps) && Clients(steps) == clients && Dry(Run(s, steps)) ::
      Run(s, steps).rows == Filled(Run(s, clients))
  }

  lemma {:induction false} NoStallFillsLikeAlone(s: State, clients: seq<Step>)
    requires Filling(s) && NoneStalls(s, clients)
    ensures FillsLikeAlone(s, clients)
  {
    forall steps | Schedule(steps) && Clients(steps) == clients && Dry(Run(s, steps))
      ensures Run(s, steps).rows == Filled(Run(s, clients))
    {
      ScheduleStaysAhead(s, s, steps);
      DryAheadIsFilled(Run(s, clients), Run(s, steps));
    }
  }

  lemma {:induction false} PrefixDoesNotStall(s: State, clients: seq<Step>, n: nat)
    requires n <= |clients| && NoneStalls(s, clients)
    ensures NoneStalls(s, clients[..n])
    decreases n
  {
    if n > 0 {
      PrefixDoesNotStall(Next(s, clients[0]), clients[1..], n - 1);
      assert clients[..n][1..] == clients[1..][..n - 1];
    }
  }

  lemma {:induction false} FindStall(s: State, clients: seq<Step>) returns (k: nat)
    requires !NoneStalls(s, clients)
    ensures k < |clients| && Stalls(Run(s, clients[..k]), clients[k])
    decreases |clients|
  {
    if Stalls(s, clients[0]) {
      k := 0;
    } else {
      var j := FindStall(Next(s, clients[0]), clients[1..]);
      k := j + 1;
      assert clients[..k][1..] == clients[1..][..j];
    }
  }

  // ---------------------------------------------------------------- the other direction

  /** Enough batches to leave nothing to fill, before the first client comes. */
  function Drainage(s: State): seq<Step> {
    seq(|Candidates(s)|, i => Batch(false))
  }

  lemma {:induction false} BatchesAreNoClients(n: nat, clients: seq<Step>)
    requires forall i | 0 <= i < |clients| :: IsClient(clients[i])
    ensures var steps := seq(n, i => Batch(false)) + clients;
            Schedule(steps) && Clients(steps) == clients && CommittedBatches(seq(n, i => Batch(false))) == n
    decreases n
  {
    var batches := seq(n, i => Batch(false));
    if n == 0 {
      assert batches + clients == clients;
      OnlyClients(clients);
    } else {
      BatchesAreNoClients(n - 1, clients);
      assert batches[1..] == seq(n - 1, i => Batch(false));
      assert (batches + clients)[1..] == seq(n - 1, i => Batch(false)) + clients;
    }
  }

  lemma {:induction false} OnlyClients(clients: seq<Step>)
    requires forall i | 0 <= i < |clients| :: IsClient(clients[i])
    ensures Clients(clients) == clients
    decreases |clients|
  {
    if clients != [] {
      OnlyClients(clients[1..]);
    }
  }

  /** After a full drainage any writes end dry. */
  lemma {:induction false} DrainedFirst(s: State, clients: seq<Step>)
    requires Filling(s) && forall i | 0 <= i < |clients| :: IsClient(clients[i])
    ensures var steps := Drainage(s) + clients;
            && Schedule(steps) && Clients(steps) == clients && Run(s, steps) == Run(Run(s, Drainage(s)), clients)
            && Filling(Run(s, steps)) && Candidates(Run(s, steps)) == {} && Dry(Run(s, steps))
  {
    var batches := Drainage(s);
    BatchesAreNoClients(|Candidates(s)|, clients);
    BatchesMakeProgress(s, batches);
    ScheduleKeepsFilling(s, batches);
    var drained := Run(s, batches);
    assert Candidates(drained) == {};
    RunsCompose(s, batches, clients);
    ScheduleKeepsFilling(drained, clients);
  }

  /** A stalling write is accepted once the table has been filled, and then the amounts differ. */
  lemma {:induction false} StallShows(s: State, clients: seq<Step>, k: nat)
    requires Filling(s) && k < |clients| && (forall i | 0 <= i < |clients| :: IsClient(clients[i]))
    requires Stalls(Run(s, clients[..k]), clients[k])
    ensures !FillsLikeAlone(s, clients[..k]) || !FillsLikeAlone(s, clients[..k + 1])
  {
    var u := Run(s, clients[..k]);
    DrainedFirst(s, clients[..k]);
    DrainedFirst(s, clients[..k + 1]);
    OneMore(s, clients, k);
    OneMore(Run(s, Drainage(s)), clients, k);
    ScheduleKeepsFilling(s, clients[..k]);
    RefusedStaysPut(u, clients[k]);
    var w := Run(s, Drainage(s) + clients[..k]);
    if w.rows == Filled(u) {
      StalledIsAccepted(u, w, clients[k]);
    }
  }

  lemma {:induction false} RefusedStaysPut(u: State, step: Step)
    requires Filling(u) && Stalls(u, step)
    ensures Next(u, step) == u
  {
    V1Accepted(u, step.cents);
  }

  lemma {:induction false} OneMore(s: State, clients: seq<Step>, k: nat)
    requires k < |clients|
    ensures Run(s, clients[..k + 1]) == Next(Run(s, clients[..k]), clients[k])
  {
    assert clients[..k + 1] == clients[..k] + [clients[k]];
    RunsCompose(s, clients[..k], [clients[k]]);
    assert Run(Run(s, clients[..k]), [clients[k]]) == Next(Run(s, clients[..k]), clients[k]);
  }

  /** In the filled table no row waits any more. */
  lemma {:induction false} OnlyFullRowsWait(u: State, w: State, step: Step)
    requires Filling(u) && Filling(w) && Stalls(u, step) && w.rows == Filled(u)
    ensures AllLegal(w, step.cents) && forall id :: !Waits(w, step.cents, id)
  {
    forall id | id in step.cents && id in u.rows
      ensures !Waits(w, step.cents, id)
    {
      assert RowFits(u.control, u.rows[id]) && w.rows[id] == Filled(u)[id];
      assert Waits(u, step.cents, id) ==> 0 < id;
      assert Pending(u.rows[id]) && 0 < id ==> id in Candidates(u);
    }
  }

  lemma {:induction false} StalledIsAccepted(u: State, w: State, step: Step)
    requires Filling(u) && Filling(w) && Stalls(u, step) && w.rows == Filled(u)
    ensures Next(w, step).rows != Filled(u)
  {
    OnlyFullRowsWait(u, w, step);
    V1Accepted(w, step.cents);
    var id :| id in step.cents && id in u.rows && step.cents[id] != u.rows[id].cents;
    assert Filled(u)[id].cents == u.rows[id].cents;
  }

  /**
   Wherever the client writes stop, every schedule of them among committed and rolled-back batches leaves what they
   alone followed by one fill leave, if and only if none of them stalls when run alone.
   */
  lemma {:induction false} SchedulesFillLikeAloneExactlyWhen(s: State, clients: seq<Step>)
    requires Filling(s) && forall i | 0 <= i < |clients| :: IsClient(clients[i])
    ensures (forall n: nat | n <= |clients| :: FillsLikeAlone(s, clients[..n])) <==> NoneStalls(s, clients)
  {
    if NoneStalls(s, clients) {
      forall n: nat | n <= |clients|
        ensures FillsLikeAlone(s, clients[..n])
      {
        PrefixDoesNotStall(s, clients, n);
        NoStallFillsLikeAlone(s, clients[..n]);
      }
    } else {
      var k := FindStall(s, clients);
      StallShows(s, clients, k);
    }
  }

  // ---------------------------------------------------------------- updates relative to what they find

  /** A v1 update that adds amounts to the legacy column, the shipped update of v2, or a batch. */
  datatype Action = AddV1(amounts: map<int, int>) | AddV2 | FillSome(rollback: bool)

  /** What a v1 update that adds amounts writes. */
  function Added(rows: map<int, Row>, amounts: map<int, int>): map<int, Cell<int>> {
    map id | id in rows && id in amounts && rows[id].cents.Val? :: Val(rows[id].cents.v + amounts[id])
  }

  /** The amounts of the shipped v1 update. */
  const SHIPPED_AMOUNTS: map<int, int> := map id | 4001 <= id <= 4008 :: 101

  lemma {:induction false} ShippedUpdateAdds(rows: map<int, Row>)
    ensures V1Increments(rows) == Added(rows, SHIPPED_AMOUNTS)
  {
  }

  /** The transaction that an action is in a state. */
  function StepOf(s: State, action: Action): Step {
    match action
    case AddV1(amounts) => V1Update(Added(s.rows, amounts))
    case AddV2 => V2Update(V2Increments(s.rows))
    case FillSome(rollback) => Batch(rollback)
  }

  function Perform(s: State, actions: seq<Action>): State
    decreases |actions|
  {
    if actions == [] then s else Perform(Next(s, StepOf(s, actions[0])), actions[1..])
  }

  function Additions(actions: seq<Action>): seq<Action> {
    if actions == [] then []
    else (if actions[0].FillSome? then [] else [actions[0]]) + Additions(actions[1..])
  }

  predicate AddsSomething(action: Action) {
    action.AddV1? ==> forall id | id in action.amounts :: action.amounts[id] != 0
  }

  /** What adds something changes every row it names, and writes the same whether or not the rows were filled. */
  lemma {:induction false} AddingIsAlike(u: State, w: State, amounts: map<int, int>)
    requires Ahead(u, w) && forall id | id in amounts :: amounts[id] != 0
    ensures Added(w.rows, amounts) == Added(u.rows, amounts) && !Stalls(u, V1Update(Added(u.rows, amounts)))
  {
    forall id | id in u.rows
      ensures w.rows[id].cents == u.rows[id].cents
    {
      assert RowAhead(id, u.rows[id], w.rows[id]) && RowFits(u.control, u.rows[id]);
    }
    assert forall id :: !Waits(u, Added(u.rows, amounts), id);
  }

  lemma {:induction false} AddV2KeepsAhead(u: State, w: State)
    requires Ahead(u, w)
    ensures Ahead(Next(u, StepOf(u, AddV2)), Next(w, StepOf(w, AddV2)))
  {
    V2KeepsAhead(u, w, StepOf(u, AddV2));
    if u.v2Granted {
      EnabledRowsAreAlike(u, w);
    }
  }

  lemma {:induction false} ActionKeepsAhead(u: State, w: State, action: Action)
    requires Ahead(u, w) && AddsSomething(action) && !action.FillSome?
    ensures Ahead(Next(u, StepOf(u, action)), Next(w, StepOf(w, action)))
  {
    if action.AddV1? {
      AddingIsAlike(u, w, action.amounts);
      V1KeepsAhead(u, w, Added(u.rows, action.amounts));
    } else {
      AddV2KeepsAhead(u, w);
    }
  }

  lemma {:induction false} ActionsStayAhead(u: State, w: State, actions: seq<Action>)
    requires Ahead(u, w) && forall a | a in actions :: AddsSomething(a)
    ensures Ahead(Perform(u, Additions(actions)), Perform(w, actions))
    decreases |actions|
  {
    if actions != [] {
      var rest := actions[1..];
      if actions[0].FillSome? {
        BatchKeepsAhead(u, w, actions[0].rollback);
        assert Additions(actions) == Additions(rest);
        ActionsStayAhead(u, Next(w, StepOf(w, actions[0])), rest);
      } else {
        ActionKeepsAhead(u, w, actions[0]);
        assert Additions(actions)[1..] == Additions(rest);
        ActionsStayAhead(Next(u, StepOf(u, actions[0])), Next(w, StepOf(w, actions[0])), rest);
      }
    }
  }

  /**
   Updates that add something, each to what it finds, leave among batches run dry exactly what they alone and one fill
   leave; the shipped updates of both applications are such.
   */
  lemma {:induction false} AdditionsFillLikeAlone(s: State, actions: seq<Action>)
    requires Filling(s) && Dry(Perform(s, actions)) && forall a | a in actions :: AddsSomething(a)
    ensures Perform(s, actions).rows == Filled(Perform(s, Additions(actions)))
    ensures AddsSomething(AddV1(SHIPPED_AMOUNTS)) && AddsSomething(AddV2)
    ensures forall u: State :: StepOf(u, AddV1(SHIPPED_AMOUNTS)) == V1Update(V1Increments(u.rows))
  {
    ActionsStayAhead(s, s, actions);
    DryAheadIsFilled(Perform(s, Additions(actions)), Perform(s, actions));
    forall u: State
      ensures StepOf(u, AddV1(SHIPPED_AMOUNTS)) == V1Update(V1Increments(u.rows))
    {
      ShippedUpdateAdds(u.rows);
    }
  }

  // ---------------------------------------------------------------- a write that stalls

  /** A stalling write is refused alone; after a batch that drains the table it is accepted, and the tables differ. */
  lemma {:induction false} StallingWriteDepends(s: State, step: Step, id: int)
    requires Filling(s) && |Candidates(s)| <= BATCH_SIZE && Stalls(s, step)
    requires 0 < id && id in s.rows && id in step.cents && step.cents[id] != s.rows[id].cents
    ensures id in Filled(Run(s, [step])) && Filled(Run(s, [step]))[id] == CompleteRow(AmountOf(s.rows[id]))
    ensures var among := Run(s, [Batch(false), step]);
            && Dry(among) && id in among.rows
            && among.rows[id] == CompleteRow(if step.cents[id].Val? then step.cents[id].v else 0)
  {
    StalledAlone(s, step, id);
    OneBatchDrains(s);
    DrainedTakesWrite(s, Next(s, Batch(false)), step, id);
    assert [Batch(false), step][1..] == [step];
    assert Run(Next(s, Batch(false)), [step]) == Next(Next(s, Batch(false)), step);
  }

  lemma {:induction false} StalledAlone(s: State, step: Step, id: int)
    requires Filling(s) && Stalls(s, step) && 0 < id && id in s.rows
    ensures id in Filled(Run(s, [step])) && Filled(Run(s, [step]))[id] == CompleteRow(AmountOf(s.rows[id]))
  {
    RefusedStaysPut(s, step);
    assert Run(s, [step]) == Next(s, step);
    assert RowFits(s.control, s.rows[id]);
  }

  lemma {:induction false} DrainedTakesWrite(s: State, t: State, step: Step, id: int)
    requires Filling(s) && Filling(t) && Stalls(s, step) && t.rows == Filled(s) && Candidates(t) == {}
    requires id in s.rows && id in step.cents
    ensures var among := Next(t, step);
            && Dry(among) && id in among.rows
            && among.rows[id] == CompleteRow(if step.cents[id].Val? then step.cents[id].v else 0)
  {
    OnlyFullRowsWait(s, t, step);
    V1Accepted(t, step.cents);
    FilledStaysDry(t, step);
  }

  lemma {:induction false} FilledStaysDry(t: State, step: Step)
    requires Filling(t) && Candidates(t) == {} && step.V1Update?
    ensures Dry(Next(t, step))
  {
    StepKeepsFilling(t, step);
  }

  lemma {:induction false} OneBatchDrains(s: State)
    requires Filling(s) && |Candidates(s)| <= BATCH_SIZE
    ensures var t := Next(s, Batch(false));
            Filling(t) && Candidates(t) == {} && Dry(t) && t.rows == Filled(s)
  {
    BatchTakesCandidates(s);
    BatchKeepsAhead(s, s, false);
    DryAheadIsFilled(s, Next(s, Batch(false)));
  }

  /** Two pending invoices, 1 of 5 cents and 2 of 7, at the start of their backfill. */
  ghost const TWO_PENDING: State := BackfillStart(map[1 := 5, 2 := 7], "1", "2", "3")

  /** Names invoice 1 with the amount it has, and gives invoice 2 another. */
  const TOUCHING_CENTS: map<int, Cell<int>> := map[1 := Val(5), 2 := Val(9)]

  /** Such a write from a state that a fresh database reaches: alone it leaves 7 cents, after one batch 9. */
  lemma {:induction false} TouchingWriteStalls()
    ensures TWO_PENDING == Run(InitialState(map[1 := 5, 2 := 7], "1"), ToBackfill("2", "3")) && Filling(TWO_PENDING)
    ensures Stalls(TWO_PENDING, V1Update(TOUCHING_CENTS))
    ensures var alone, among := Filled(Run(TWO_PENDING, [V1Update(TOUCHING_CENTS)])),
                                Run(TWO_PENDING, [Batch(false), V1Update(TOUCHING_CENTS)]);
            && 2 in alone && alone[2] == CompleteRow(7)
            && Dry(among) && 2 in among.rows && among.rows[2] == CompleteRow(9)
  {
    var amounts := map[1 := 5, 2 := 7];
    BackfillStartIsReached(amounts, "1", "2", "3");
    RunKeepsInv(InitialState(amounts, "1"), ToBackfill("2", "3"));
    TwoPendingRows();
    TouchingStalls(TWO_PENDING, V1Update(TOUCHING_CENTS));
    StallingWriteDepends(TWO_PENDING, V1Update(TOUCHING_CENTS), 2);
  }

  lemma {:induction false} TwoPendingRows()
    ensures TWO_PENDING.rows.Keys == {1, 2} && TWO_PENDING.control == Control(Backfill, 0, 0, false)
    ensures TWO_PENDING.rows[1] == Row(Val(5), Null, Null) && TWO_PENDING.rows[2] == Row(Val(7), Null, Null)
  {
  }

  lemma {:induction false} TouchingStalls(s: State, step: Step)
    requires s.rows.Keys == {1, 2} && s.control == Control(Backfill, 0, 0, false)
    requires s.rows[1] == Row(Val(5), Null, Null) && s.rows[2] == Row(Val(7), Null, Null)
    requires step.V1Update? && step.cents.Keys == {1, 2} && step.cents[1] == Val(5) && step.cents[2] == Val(9)
    ensures Stalls(s, step) && |Candidates(s)| <= BATCH_SIZE
  {
    assert Candidates(s) == {1, 2};
    assert Waits(s, step.cents, 1) && step.cents[2] != s.rows[2].cents;
  }
}
