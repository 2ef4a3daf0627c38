/**
 Ownership of the local runtime in src/migration_rehearsal/control_room_adapter.py: what one engine run may create and
 remove, and the receipt it leaves. Container inventories, inspections and commands may answer anything.
 */
module OwnedRuntime {
  import opened Sql

  /** A container, network or volume. */
  type Resource = nat

  datatype ReceiptState = Complete | NotNeeded | BlockedIdentityDrift

  datatype Reason =
    | Success | PreflightRejected | SpawnFailed | EngineError | EngineTimeout | IdentityDrift
    | ClientDisconnected | ResponseWriteFailed | ValidationRejected

  datatype ChildExit = NotStarted | ChildSuccess | ChildError | ChildTimeout | ChildSignal

  datatype Receipt = Receipt(nonce: string, state: ReceiptState, reason: Reason, remaining: nat, child: ChildExit)

  /** What happened, in order. An inventory, an inspection, a command or a write may fail. */
  datatype Action =
    | Listed(ids: set<Resource>) | Identified(ids: set<Resource>) | Drifted | Up(ok: bool) | Down(ok: bool)
    | RelayStarted | BodyEnded(raised: bool, child: ChildExit) | RelayProven | RelayClosed | Wrote(receipt: Receipt)
    | Failed

  datatype Inspection = Same | Different | InspectionFails

  datatype Body = Completes(child: ChildExit) | RaisesWith(child: ChildExit)

  /** How the n-th action turns out. */
  datatype World = World(
    verified: bool, list: nat -> Option<set<Resource>>, inspect: nat -> Inspection, command: nat -> bool,
    relayStarts: bool, body: Body, relayProven: bool, writes: nat -> bool)

  function Found(inspection: Inspection, ids: set<Resource>): Action {
    match inspection
    case Same => Identified(ids)
    case Different => Drifted
    case InspectionFails => Action.Failed
  }

  // ---------------------------------------------------------------- what may follow what

  function LastListed(log: seq<Action>): Option<set<Resource>> {
    if log == [] then None
    else
      var last := log[|log| - 1];
      if last.Listed? then Some(last.ids) else LastListed(log[..|log| - 1])
  }

  predicate EndsWith(log: seq<Action>, a: Action) {
    log != [] && log[|log| - 1] == a
  }

  predicate Successful(log: seq<Action>) {
    log != [] && log[|log| - 1].Wrote? && log[|log| - 1].receipt.reason == Success
  }

  predicate HasReceipt(log: seq<Action>) {
    exists i :: 0 <= i < |log| && log[i].Wrote?
  }

  predicate Attempted(log: seq<Action>) {
    Up(true) in log || Up(false) in log
  }

  /** The resources have been inspected and found to be this project's own, and are all there is just now. */
  predicate OwnedNow(log: seq<Action>, ids: set<Resource>) {
    ids != {} && Identified(ids) in log && (EndsWith(log, Listed(ids)) || EndsWith(log, Identified(ids)))
  }

  /** The last inspection or inventory showed resources that are not the ones known as this project's own. */
  ghost predicate Drift(log: seq<Action>) {
    || EndsWith(log, Drifted)
    || exists ids ::
         && EndsWith(log, Listed(ids))
         && ((Down(true) in log && ids != {}) || exists owned :: Identified(owned) in log && owned != ids)
  }

  /** When an action may happen. */
  ghost predicate Allowed(log: seq<Action>, a: Action, nonce: string) {
    && !HasReceipt(log)
    && match a
       case Up(_) => !Attempted(log) && EndsWith(log, Listed({}))
       case Listed(_) => RelayStarted in log ==> RelayClosed in log
       case Identified(ids) => EndsWith(log, Listed(ids))
       case Down(_) => Attempted(log) && exists ids :: OwnedNow(log, ids)
       case Wrote(r) =>
         && r.nonce == nonce
         && (r.state == Complete ==> r.remaining == 0 && EndsWith(log, Listed({})) && Down(true) in log)
         && (r.state == NotNeeded ==> r.remaining == 0 && (Attempted(log) ==> EndsWith(log, Listed({}))))
         && (r.state == BlockedIdentityDrift ==>
               && Drift(log) && LastListed(log).Some? && r.remaining == |LastListed(log).value|
               && r.reason == IdentityDrift)
         && (r.reason == Success ==>
               && r.state == Complete && RelayProven in log
               && exists child :: BodyEnded(false, child) in log && child == r.child)
       case _ => true
  }

  ghost predicate Proper(log: seq<Action>, nonce: string) {
    log == [] || (Proper(log[..|log| - 1], nonce) && Allowed(log[..|log| - 1], log[|log| - 1], nonce))
  }

  /** Every action tells what the world answered when it happened. */
  predicate Told(a: Action, i: nat, w: World) {
    match a
    case Listed(ids) => w.list(i) == Some(ids)
    case Identified(_) => w.inspect(i) == Same
    case Drifted => w.inspect(i) == Different
    case Up(ok) => ok == w.command(i)
    case Down(ok) => ok == w.command(i)
    case RelayStarted => w.relayStarts
    case BodyEnded(raised, child) => raised == w.body.RaisesWith? && child == w.body.child
    case RelayProven => w.relayProven
    case RelayClosed => true
    case Wrote(_) => w.writes(i)
    case Failed => w.list(i).None? || w.inspect(i) == InspectionFails || !w.writes(i)
  }

  predicate Truthful(log: seq<Action>, w: World) {
    forall i | 0 <= i < |log| :: Told(log[i], i, w)
  }

  lemma {:induction false} Follows(log: seq<Action>, a: Action, nonce: string)
    requires Proper(log, nonce) && Allowed(log, a, nonce)
    ensures Proper(log + [a], nonce)
    ensures LastListed(log + [a]) == if a.Listed? then Some(a.ids) else LastListed(log)
    ensures forall b :: b in log + [a] <==> b in log || b == a
    ensures HasReceipt(log + [a]) <==> HasReceipt(log) || a.Wrote?
  {
    var longer := log + [a];
    assert longer[..|longer| - 1] == log;
    if a.Wrote? {
      assert longer[|log|].Wrote?;
    }
  }

  lemma {:induction false} DriftAfterDown(log: seq<Action>, ids: set<Resource>)
    requires Down(true) in log && EndsWith(log, Listed(ids)) && ids != {}
    ensures Drift(log)
  {
  }

  lemma {:induction false} DriftFromOwned(log: seq<Action>, ids: set<Resource>, owned: set<Resource>)
    requires EndsWith(log, Listed(ids)) && Identified(owned) in log && owned != ids
    ensures Drift(log)
  {
  }

  lemma {:induction false} ProperPrefix(log: seq<Action>, n: nat, nonce: string)
    requires Proper(log, nonce) && n < |log|
    ensures Proper(log[..n], nonce) && Allowed(log[..n], log[n], nonce)
  {
    if n < |log| - 1 {
      ProperPrefix(log[..|log| - 1], n, nonce);
      assert log[..|log| - 1][..n] == log[..n];
    }
  }

  // ---------------------------------------------------------------- what follows for every proper history

  /** Right before the i-th action an inventory listed exactly these, which had been, or were then, inspected as own. */
  predicate OwnedAt(log: seq<Action>, i: nat, ids: set<Resource>)
    requires i <= |log|
  {
    && ids != {} && Identified(ids) in log[..i]
    && ((i > 0 && log[i - 1] == Listed(ids)) || (i > 1 && log[i - 1] == Identified(ids) && log[i - 2] == Listed(ids)))
  }

  lemma {:induction false} DownTouchesOnlyOwned(log: seq<Action>, i: nat, nonce: string)
    requires Proper(log, nonce) && i < |log| && log[i].Down?
    ensures exists ids :: OwnedAt(log, i, ids)
  {
    ProperPrefix(log, i, nonce);
    var ids :| OwnedNow(log[..i], ids);
    if log[i - 1] == Identified(ids) {
      ProperPrefix(log, i - 1, nonce);
    }
    assert OwnedAt(log, i, ids);
  }

  /** Every compose down touches exactly what was then known to be the project's own. */
  ghost predicate DownsAreOwned(log: seq<Action>) {
    forall i | 0 <= i < |log| && log[i].Down? :: exists ids :: OwnedAt(log, i, ids)
  }

  lemma {:induction false} AllDownsAreOwned(log: seq<Action>, nonce: string)
    requires Proper(log, nonce)
    ensures DownsAreOwned(log)
  {
    forall i | 0 <= i < |log| && log[i].Down?
      ensures exists ids :: OwnedAt(log, i, ids)
    {
      DownTouchesOnlyOwned(log, i, nonce);
    }
  }

  /** A receipt is the last thing that happens, and one that says complete follows an empty inventory. */
  lemma {:induction false} ReceiptIsLastAndTrue(log: seq<Action>, i: nat, nonce: string)
    requires Proper(log, nonce) && i < |log| && log[i].Wrote?
    ensures i == |log| - 1 && log[i].receipt.nonce == nonce
    ensures log[i].receipt.state == Complete ==> i > 0 && log[i - 1] == Listed({}) && Down(true) in log
    ensures log[i].receipt.reason == Success ==> RelayProven in log && log[i].receipt.state == Complete
  {
    ProperPrefix(log, i, nonce);
  }

  // ---------------------------------------------------------------- the run

  /** A start that brings up an identified runtime and its relay, action by action. */
  predicate GoodStart(w: World) {
    && w.command(1) && w.list(2).Some? && w.list(2).value != {} && w.inspect(3) == Same && w.relayStarts
  }

  /** Everything that must go well for a run to end in success, action by action. */
  predicate GoodWorld(w: World) {
    w.verified && w.list(0) == Some({}) && GoodRun(w) && w.writes(11)
  }

  predicate GoodRun(w: World) {
    && GoodStart(w) && w.body.Completes? && w.relayProven
    && w.list(8) == w.list(2) && w.command(9) && w.list(10) == Some({})
  }

  /** What a receipt gives as its reason, unless the cleanup met resources that had drifted. */
  function ReasonFor(w: World): Reason {
    if !w.verified || w.list(0) != Some({}) then PreflightRejected
    else if !GoodStart(w) || w.body == RaisesWith(NotStarted) then SpawnFailed
    else if w.body == RaisesWith(ChildTimeout) then EngineTimeout
    else if w.body.RaisesWith? || !w.relayProven then EngineError
    else Success
  }

  /** How the child process ended: not at all before the relay was up. */
  function ChildFor(w: World): ChildExit {
    if w.verified && w.list(0) == Some({}) && GoodStart(w) then w.body.child else NotStarted
  }

  /** A receipt tells what the world did. */
  predicate ReceiptFits(r: Receipt, w: World) {
    && r.child == ChildFor(w)
    && (r.state != BlockedIdentityDrift ==> r.reason == ReasonFor(w))
  }

  predicate ReceiptsFit(log: seq<Action>, w: World) {
    forall i | 0 <= i < |log| && log[i].Wrote? :: ReceiptFits(log[i].receipt, w)
  }

  class Runtime {
    const nonce: string
    const world: World
    var log: seq<Action>

    ghost predicate Valid()
      reads this
    {
      Proper(log, nonce) && Truthful(log, world) && ReceiptsFit(log, world)
    }

    constructor (nonce: string, world: World)
      ensures Valid() && log == [] && this.nonce == nonce && this.world == world
    {
      this.nonce, this.world, log := nonce, world, [];
    }

    method Note(a: Action)
      requires Valid() && Allowed(log, a, nonce) && Told(a, |log|, world)
      requires a.Wrote? ==> ReceiptFits(a.receipt, world)
      modifies this
      ensures Valid() && log == old(log) + [a]
      ensures LastListed(log) == if a.Listed? then Some(a.ids) else LastListed(old(log))
      ensures forall b :: b in log <==> b in old(log) || b == a
      ensures HasReceipt(log) <==> a.Wrote?
    {
      Follows(log, a, nonce);
      log := log + [a];
    }

    /** `_resource_ids`. */
    method List() returns (ids: Option<set<Resource>>)
      requires Valid() && !HasReceipt(log) && (RelayStarted in log ==> RelayClosed in log)
      modifies this
      ensures Valid() && !HasReceipt(log)
      ensures ids == world.list(|old(log)|)
      ensures log == old(log) + [if ids.Some? then Listed(ids.value) else Action.Failed]
      ensures LastListed(log) == if ids.Some? then ids else LastListed(old(log))
      ensures ids.Some? ==> EndsWith(log, Listed(ids.value))
      ensures forall b :: b in log <==> b in old(log) || b == log[|log| - 1]
    {
      ids := world.list(|log|);
      Note(if ids.Some? then Listed(ids.value) else Action.Failed);
    }

    /** `_started_runtime` on the resources listed last. */
    method Inspect(ids: set<Resource>) returns (found: Inspection)
      requires Valid() && !HasReceipt(log) && EndsWith(log, Listed(ids))
      modifies this
      ensures found == world.inspect(|old(log)|)
      ensures Valid() && !HasReceipt(log) && LastListed(log) == Some(ids)
      ensures log == old(log) + [Found(found, ids)]
      ensures forall b :: b in log <==> b in old(log) || b == log[|log| - 1]
    {
      found := world.inspect(|log|);
      Note(Found(found, ids));
    }

    /** `_cleanup_receipt`. */
    method Write(receipt: Receipt) returns (ok: bool)
      requires Valid() && Allowed(log, Wrote(receipt), nonce) && ReceiptFits(receipt, world)
      modifies this
      ensures ok == world.writes(|old(log)|)
      ensures Valid() && log == old(log) + [if ok then Wrote(receipt) else Action.Failed]
      ensures HasReceipt(log) <==> ok
      ensures forall b :: b in log <==> b in old(log) || b == log[|log| - 1]
    {
      ok := world.writes(|log|);
      Note(if ok then Wrote(receipt) else Action.Failed);
    }

    /** The receipt of a cleanup that met resources it must not touch. */
    method Block(ids: set<Resource>, child: ChildExit)
      requires Valid() && !HasReceipt(log) && Drift(log) && LastListed(log) == Some(ids) && child == ChildFor(world)
      modifies this
      ensures Valid() && old(log) <= log && !Successful(log)
      ensures HasReceipt(log) || Action.Failed in log
    {
      var written := Write(Receipt(nonce, BlockedIdentityDrift, IdentityDrift, |ids|, child));
    }

    /** Compose down on the identified set listed last, and the inventory that confirms it. */
    method TearDown(child: ChildExit) returns (removed: bool)
      requires Valid() && Allowed(log, Down(true), nonce) && child == ChildFor(world)
      requires RelayStarted in log ==> RelayClosed in log
      modifies this
      ensures Valid() && old(log) <= log
      ensures removed <==> world.command(|old(log)|) && world.list(|old(log)| + 1) == Some({})
      ensures removed ==> |log| == |old(log)| + 2
      ensures removed ==> !HasReceipt(log) && EndsWith(log, Listed({})) && Down(true) in log
      ensures !removed ==> HasReceipt(log) || Action.Failed in log || Down(false) in log
      ensures !Successful(log)
    {
      var down := world.command(|log|);
      Note(Down(down));
      if !down {
        return false;
      }
      var remaining := List();
      if remaining.None? {
        return false;
      }
      if remaining.value != {} {
        DriftAfterDown(log, remaining.value);
        Block(remaining.value, child);
        return false;
      }
      return true;
    }

    /** The cleanup of a runtime that was started and identified. */
    method CleanStarted(owned: set<Resource>, child: ChildExit) returns (removed: bool)
      requires Valid() && !HasReceipt(log) && Attempted(log) && owned != {} && Identified(owned) in log
      requires child == ChildFor(world) && (RelayStarted in log ==> RelayClosed in log)
      modifies this
      ensures Valid() && old(log) <= log
      ensures removed <==>
              && world.list(|old(log)|) == Some(owned)
              && world.command(|old(log)| + 1) && world.list(|old(log)| + 2) == Some({})
      ensures removed ==> |log| == |old(log)| + 3
      ensures removed ==> !HasReceipt(log) && EndsWith(log, Listed({})) && Down(true) in log
      ensures !removed ==> HasReceipt(log) || Action.Failed in log || Down(false) in log
      ensures !Successful(log)
    {
      var current := List();
      if current.None? {
        return false;
      }
      if current.value != owned {
        DriftFromOwned(log, current.value, owned);
        Block(current.value, child);
        return false;
      }
      assert OwnedNow(log, owned);
      removed := TearDown(child);
    }

    /** The cleanup after a start that did not complete. */
    method CleanPartial() returns (state: Option<ReceiptState>)
      requires Valid() && !HasReceipt(log) && Attempted(log) && RelayStarted !in log && ChildFor(world) == NotStarted
      modifies this
      ensures Valid() && old(log) <= log
      ensures state.Some? ==> !HasReceipt(log) && EndsWith(log, Listed({}))
      ensures state == Some(Complete) ==> Down(true) in log
      ensures state.Some? ==> state.value in {Complete, NotNeeded}
      ensures state.None? ==> HasReceipt(log) || Action.Failed in log || Down(false) in log
      ensures !Successful(log)
    {
      var partial := List();
      if partial.None? {
        return None;
      }
      if partial.value == {} {
        return Some(NotNeeded);
      }
      var found := Inspect(partial.value);
      if found == Different {
        Block(partial.value, NotStarted);
        return None;
      }
      if found == InspectionFails {
        return None;
      }
      assert OwnedNow(log, partial.value);
      var removed := TearDown(NotStarted);
      state := if removed then Some(Complete) else None;
    }

    /** From the empty inventory to an identified runtime and its relay, or an early end. */
    method Start() returns (owned: Option<set<Resource>>, relay: bool)
      requires Valid() && log == [Listed({})]
      modifies this
      ensures Valid() && !HasReceipt(log) && Attempted(log) && BodyFree(log) && old(log) <= log
      ensures owned.Some? ==> owned.value != {} && Identified(owned.value) in log
      ensures relay <==> GoodStart(world)
      ensures RelayStarted in log <==> relay
      ensures relay ==> owned == world.list(2) && |log| == 5
    {
      var up := world.command(|log|);
      Note(Up(up));
      if !up {
        return None, false;
      }
      var listed := List();
      if listed.None? || listed.value == {} {
        return None, false;
      }
      var found := Inspect(listed.value);
      if found != Same {
        return None, false;
      }
      if world.relayStarts {
        Note(RelayStarted);
      }
      return listed, world.relayStarts;
    }

    /** What is done with the running runtime, and what the receipt will say about it. */
    method UseRuntime() returns (reason: Reason, child: ChildExit)
      requires Valid() && !HasReceipt(log) && BodyFree(log)
      modifies this
      ensures Valid() && !HasReceipt(log) && old(log) <= log
      ensures child == world.body.child
      ensures reason == if world.body == RaisesWith(NotStarted) then SpawnFailed
                        else if world.body == RaisesWith(ChildTimeout) then EngineTimeout
                        else if world.body.RaisesWith? || !world.relayProven then EngineError
                        else Success
      ensures reason == Success ==> RelayProven in log && BodyEnded(false, child) in log && |log| == |old(log)| + 2
    {
      child := world.body.child;
      Note(BodyEnded(world.body.RaisesWith?, child));
      if world.body.RaisesWith? {
        reason := if child == NotStarted then SpawnFailed
                  else if child == ChildTimeout then EngineTimeout
                  else EngineError;
        return;
      }
      reason := EngineError;
      if world.relayProven {
        Note(RelayProven);
        reason := Success;
      }
    }

    /**
     `_owned_compose_runtime`. Every run keeps the history proper. It succeeds exactly when every action goes well, and
     exactly then it leaves a success receipt; it leaves some receipt unless an inventory, an inspection, compose down
     or the write itself failed; it starts containers exactly on a verified host without resources of the project; and
     every compose down runs right after an inventory of exactly the resources that were inspected as its own.
     */
    method Run() returns (ok: bool)
      requires Valid() && log == []
      modifies this
      ensures Valid()
      ensures ok <==> Successful(log)
      ensures ok <==> GoodWorld(world)
      ensures HasReceipt(log) || Action.Failed in log || Down(false) in log
      ensures Attempted(log) <==> world.verified && world.list(0) == Some({})
      ensures DownsAreOwned(log)
      ensures forall i | 0 <= i < |log| && log[i].Wrote? :: ReceiptFits(log[i].receipt, world)
    {
      ok := RunAndRecord();
      AllDownsAreOwned(log, nonce);
    }

    method RunAndRecord() returns (ok: bool)
      requires Valid() && log == []
      modifies this
      ensures Valid()
      ensures ok <==> Successful(log)
      ensures ok <==> GoodWorld(world)
      ensures HasReceipt(log) || Action.Failed in log || Down(false) in log
      ensures Attempted(log) <==> world.verified && world.list(0) == Some({})
    {
      var state, reason, child := Some(NotNeeded), PreflightRejected, NotStarted;
      var before: Option<set<Resource>> := None;
      if world.verified {
        before := List();
      }
      if before == Some({}) {
        assert log == [Listed({})];
        state, reason, child := RunFresh();
        if state.None? {
          return false;
        }
      }
      var written := Write(Receipt(nonce, state.value, reason, 0, child));
      ok := written && reason == Success;
    }

    /** From the empty inventory through start, use and cleanup; no state when the cleanup was blocked or failed. */
    method RunFresh() returns (state: Option<ReceiptState>, reason: Reason, child: ChildExit)
      requires Valid() && log == [Listed({})] && world.verified
      modifies this
      ensures Valid() && old(log) <= log && Attempted(log) && !Successful(log)
      ensures reason == ReasonFor(world) && child == ChildFor(world)
      ensures state.Some? ==> !HasReceipt(log) && EndsWith(log, Listed({})) && state.value in {Complete, NotNeeded}
      ensures state == Some(Complete) ==> Down(true) in log
      ensures state.None? ==> HasReceipt(log) || Action.Failed in log || Down(false) in log
      ensures state.Some? && reason == Success <==> GoodRun(world)
      ensures state.Some? && reason == Success ==>
                |log| == 11 && state == Some(Complete) && RelayProven in log && BodyEnded(false, child) in log
    {
      var owned, relay := Start();
      reason, child := SpawnFailed, NotStarted;
      if relay {
        reason, child := UseRuntime();
        Note(RelayClosed);
      }
      if owned.Some? {
        var removed := CleanStarted(owned.value, child);
        state := if removed then Some(Complete) else None;
      } else {
        state := CleanPartial();
      }
    }
  }

  /** Nothing has run in the runtime yet. */
  predicate BodyFree(log: seq<Action>) {
    forall i | 0 <= i < |log| :: !log[i].BodyEnded? && log[i] != RelayProven
  }

  // ---------------------------------------------------------------- a response that could not be delivered

  class ReceiptStore {
    var stored: Option<Receipt>

    constructor (receipt: Option<Receipt>)
      ensures stored == receipt
    {
      stored := receipt;
    }

    /** `record_delivery_failure`: only the success receipt of the same run is rewritten, and only its reason. */
    method RecordDeliveryFailure(nonce: string, reason: Reason) returns (ok: bool)
      modifies this
      ensures ok <==> reason in {ClientDisconnected, ResponseWriteFailed}
                      && old(stored) == Some(Receipt(nonce, Complete, Success, 0, ChildSuccess))
      ensures stored == if ok then Some(old(stored).value.(reason := reason)) else old(stored)
    {
      if reason != ClientDisconnected && reason != ResponseWriteFailed {
        return false;
      }
      if stored != Some(Receipt(nonce, Complete, Success, 0, ChildSuccess)) {
        return false;
      }
      stored := Some(Receipt(nonce, Complete, reason, 0, ChildSuccess));
      ok := true;
    }
  }
}
