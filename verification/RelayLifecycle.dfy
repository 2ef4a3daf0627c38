/**
 The threads, slots and sockets of the relay in src/migration_rehearsal/control_room_runtime/relay.py: the accept
 thread, any number of workers, and a racing `close`, interleaved step by step.
 */
module RelayLifecycle {

  const MAX_CONNECTIONS: nat := 20

  /** How far a connection has come: first in the hands of the accept thread, then in its worker. */
  datatype Pc =
    | Accepted | Slotted | Registered | StartRefused | Dropped | DroppedReleased | Unstarted | Abandoned
    | Started | ClientKnown | UpstreamOpen | Pumping | PumpOver
    | UpstreamForgotten | UpstreamClosed | ClientForgotten | ClientClosed | SlotReturned | Finished

  datatype Socket = Client(conn: nat) | Upstream(conn: nat)

  /** The bounded semaphore; the multisets only record its operations, per connection. */
  datatype Slots = Slots(free: int, acquires: multiset<nat>, releases: multiset<nat>)

  /** Sockets in the relay's registry, and sockets that are open. */
  datatype Sockets = Sockets(listed: set<Socket>, open: set<Socket>, listenerOpen: bool)

  datatype Acceptor = Listening | Handling(conn: nat) | Exited

  datatype Closer =
    | NotCalled | StopSet | ListenerClosed | AcceptJoined | ClosingSockets(todo: set<Socket>) | Checking
    | Joining(waiting: set<nat>) | Returned

  datatype State = State(
    pcs: map<nat, Pc>, slots: Slots, workers: set<nat>, sockets: Sockets, stop: bool, acceptor: Acceptor,
    closer: Closer)

  datatype AcceptorMove =
    | Connect(conn: nat) | Refuse | Acquire | AddWorker | StartWorker | StartFails | DropWorker | ReleaseDropped
    | CloseDropped | AcceptEnds

  /**
   A worker leaves before the pump when it is stopped or fails. A pump ends when a peer or a socket ends it, when it was
   idle for too long, or at its next turn once the stop flag is set.
   */
  datatype WorkerMove =
    | RegisterClient | OpenUpstream | LeaveFailed | LeaveStopped | RegisterUpstream | PumpEnds | PumpExpires | PumpStops
    | ForgetUpstream | CloseUpstream | ForgetClient | CloseClient | ReturnSlot | Finish

  /** A move that waits for nobody: no peer, no connection, no identity check, and not for the idle clock. */
  predicate ByItself(w: WorkerMove) {
    !w.OpenUpstream? && !w.LeaveFailed? && !w.PumpEnds? && !w.PumpExpires?
  }

  datatype CloserMove =
    | CallClose | CloseListener | JoinAcceptor | SnapshotSockets | CloseSocket(socket: Socket) | SocketsDone
    | SnapshotWorkers | Join(conn: nat) | Joined

  datatype Event = ByAcceptor(a: AcceptorMove) | ByWorker(conn: nat, w: WorkerMove) | ByCloser(k: CloserMove)

  function Initial(): State {
    State(map[], Slots(MAX_CONNECTIONS, multiset{}, multiset{}), {}, Sockets({}, {}, true), false,
          Listening, NotCalled)
  }

  // ---------------------------------------------------------------- what a place in the program means

  predicate WithAcceptor(pc: Pc) {
    pc in {Accepted, Slotted, Registered, StartRefused, Dropped, DroppedReleased}
  }

  predicate HasStarted(pc: Pc) {
    pc in {Started, ClientKnown, UpstreamOpen, Pumping, PumpOver, UpstreamForgotten, UpstreamClosed, ClientForgotten,
           ClientClosed, SlotReturned, Finished}
  }

  predicate IsWorker(pc: Pc) {
    pc in {Registered, StartRefused} || (HasStarted(pc) && pc != Finished)
  }

  predicate HasAcquired(pc: Pc) {
    pc != Accepted && pc != Abandoned
  }

  predicate HasReleased(pc: Pc) {
    pc in {DroppedReleased, Unstarted, SlotReturned, Finished}
  }

  predicate HoldsSlot(pc: Pc) {
    HasAcquired(pc) && !HasReleased(pc)
  }

  predicate ClientListed(pc: Pc) {
    pc in {ClientKnown, UpstreamOpen, Pumping, PumpOver, UpstreamForgotten, UpstreamClosed}
  }

  predicate ClientMayBeOpen(pc: Pc) {
    pc !in {Abandoned, Unstarted, ClientClosed, SlotReturned, Finished}
  }

  predicate UpstreamMayBeOpen(pc: Pc) {
    pc in {UpstreamOpen, Pumping, PumpOver, UpstreamForgotten}
  }

  // ---------------------------------------------------------------- the steps

  function At(s: State, c: nat): Pc {
    if c in s.pcs then s.pcs[c] else Abandoned
  }

  function Go(s: State, c: nat, pc: Pc): State {
    s.(pcs := s.pcs[c := pc])
  }

  function Taken(slots: Slots, c: nat): Slots {
    slots.(free := slots.free - 1, acquires := slots.acquires[c := slots.acquires[c] + 1])
  }

  function Released(slots: Slots, c: nat): Slots {
    slots.(free := slots.free + 1, releases := slots.releases[c := slots.releases[c] + 1])
  }

  function Opened(s: Sockets, socket: Socket): Sockets {
    s.(open := s.open + {socket})
  }

  function Closed(s: Sockets, socket: Socket): Sockets {
    s.(open := s.open - {socket})
  }

  function Listed(s: Sockets, socket: Socket): Sockets {
    s.(listed := s.listed + {socket})
  }

  function Forgotten(s: Sockets, socket: Socket): Sockets {
    s.(listed := s.listed - {socket})
  }

  /** Where a move of the accept thread starts; `Connect` and `AcceptEnds` start while it listens. */
  function AcceptorFrom(a: AcceptorMove): Pc {
    match a
    case Refuse => Accepted
    case Acquire => Accepted
    case AddWorker => Slotted
    case StartWorker => Registered
    case StartFails => Registered
    case DropWorker => StartRefused
    case ReleaseDropped => Dropped
    case CloseDropped => DroppedReleased
    case _ => Abandoned
  }

  /** `_accept_connections`; a move that is not possible leaves the state alone. */
  function AcceptorStep(s: State, a: AcceptorMove): State {
    if s.acceptor == Listening then
      match a
      case Connect(c) =>
        if c !in s.pcs && s.sockets.listenerOpen then
          Go(s, c, Accepted).(acceptor := Handling(c), sockets := Opened(s.sockets, Client(c)))
        else s
      case AcceptEnds => s.(acceptor := Exited)
      case _ => s
    else if s.acceptor.Handling? && At(s, s.acceptor.conn) == AcceptorFrom(a) then HandlingStep(s, s.acceptor.conn, a)
    else s
  }

  function HandlingStep(s: State, c: nat, a: AcceptorMove): State {
    match a
    case Refuse => Go(s, c, Abandoned).(sockets := Closed(s.sockets, Client(c)), acceptor := Listening)
    case Acquire => if s.slots.free > 0 then Go(s, c, Slotted).(slots := Taken(s.slots, c)) else s
    case AddWorker => Go(s, c, Registered).(workers := s.workers + {c})
    case StartWorker => Go(s, c, Started).(acceptor := Listening)
    case StartFails => Go(s, c, StartRefused)
    case DropWorker => Go(s, c, Dropped).(workers := s.workers - {c})
    case ReleaseDropped => Go(s, c, DroppedReleased).(slots := Released(s.slots, c))
    case CloseDropped => Go(s, c, Unstarted).(sockets := Closed(s.sockets, Client(c)), stop := true,
                                          acceptor := Exited)
    case _ => s
  }

  function WorkerFrom(w: WorkerMove): Pc {
    match w
    case RegisterClient => Started
    case OpenUpstream => ClientKnown
    case RegisterUpstream => UpstreamOpen
    case LeaveFailed => ClientKnown
    case LeaveStopped => ClientKnown
    case PumpEnds => Pumping
    case PumpExpires => Pumping
    case PumpStops => Pumping
    case ForgetUpstream => PumpOver
    case CloseUpstream => UpstreamForgotten
    case ForgetClient => UpstreamClosed
    case CloseClient => ClientForgotten
    case ReturnSlot => ClientClosed
    case Finish => SlotReturned
  }

  /** `_serve_connection`. */
  function WorkerStep(s: State, c: nat, w: WorkerMove): State {
    if At(s, c) != WorkerFrom(w) || ((w.LeaveStopped? || w.PumpStops?) && !s.stop) then s
    else
      match w
      case RegisterClient => Go(s, c, ClientKnown).(sockets := Listed(s.sockets, Client(c)))
      case OpenUpstream => Go(s, c, UpstreamOpen).(sockets := Opened(s.sockets, Upstream(c)))
      case RegisterUpstream => Go(s, c, Pumping).(sockets := Listed(s.sockets, Upstream(c)))
      case LeaveFailed => Go(s, c, UpstreamClosed)
      case LeaveStopped => Go(s, c, UpstreamClosed)
      case PumpEnds => Go(s, c, PumpOver)
      case PumpExpires => Go(s, c, PumpOver)
      case PumpStops => Go(s, c, PumpOver)
      case ForgetUpstream => Go(s, c, UpstreamForgotten).(sockets := Forgotten(s.sockets, Upstream(c)))
      case CloseUpstream => Go(s, c, UpstreamClosed).(sockets := Closed(s.sockets, Upstream(c)))
      case ForgetClient => Go(s, c, ClientForgotten).(sockets := Forgotten(s.sockets, Client(c)))
      case CloseClient => Go(s, c, ClientClosed).(sockets := Closed(s.sockets, Client(c)))
      case ReturnSlot => Go(s, c, SlotReturned).(slots := Released(s.slots, c))
      case Finish => Go(s, c, Finished).(workers := s.workers - {c})
  }

  /** `close`. */
  function CloserStep(s: State, k: CloserMove): State {
    match (s.closer, k)
    case (NotCalled, CallClose) => s.(stop := true, closer := StopSet)
    case (StopSet, CloseListener) => s.(sockets := s.sockets.(listenerOpen := false), closer := ListenerClosed)
    case (ListenerClosed, JoinAcceptor) => if s.acceptor == Exited then s.(closer := AcceptJoined) else s
    case (AcceptJoined, SnapshotSockets) => s.(closer := ClosingSockets(s.sockets.listed))
    case (ClosingSockets(todo), CloseSocket(socket)) =>
      if socket in todo then s.(sockets := Closed(s.sockets, socket), closer := ClosingSockets(todo - {socket})) else s
    case (ClosingSockets(todo), SocketsDone) => if todo == {} then s.(closer := Checking) else s
    case (Checking, SnapshotWorkers) => s.(closer := if s.workers == {} then Returned else Joining(s.workers))
    case (Joining(waiting), Join(c)) =>
      if c in waiting && At(s, c) == Finished then s.(closer := Joining(waiting - {c})) else s
    case (Joining(waiting), Joined) => if waiting == {} then s.(closer := Checking) else s
    case _ => s
  }

  function Step(s: State, e: Event): State {
    match e
    case ByAcceptor(a) => AcceptorStep(s, a)
    case ByWorker(c, w) => WorkerStep(s, c, w)
    case ByCloser(k) => CloserStep(s, k)
  }

  function Run(s: State, events: seq<Event>): State {
    if events == [] then s else Step(Run(s, events[..|events| - 1]), events[|events| - 1])
  }

  // ---------------------------------------------------------------- the invariant

  function Holders(pcs: map<nat, Pc>): set<nat> {
    set c | c in pcs && HoldsSlot(pcs[c])
  }

  /** Which registries a connection is in follows from how far it has come. */
  predicate ConnFits(pc: Pc, c: nat, slots: Slots, workers: set<nat>, sockets: Sockets) {
    && (c in workers <==> IsWorker(pc))
    && (Client(c) in sockets.listed <==> ClientListed(pc))
    && (Upstream(c) in sockets.listed <==> pc == Pumping || pc == PumpOver)
    && (Client(c) in sockets.open ==> ClientMayBeOpen(pc))
    && (Upstream(c) in sockets.open ==> UpstreamMayBeOpen(pc))
    && slots.acquires[c] == (if HasAcquired(pc) then 1 else 0)
    && slots.releases[c] == (if HasReleased(pc) then 1 else 0)
  }

  ghost predicate Fits(s: State, c: nat) {
    ConnFits(At(s, c), c, s.slots, s.workers, s.sockets)
  }

  ghost predicate ConnsFit(s: State) {
    forall c: nat :: Fits(s, c)
  }

  /** A connection whose worker has not started is the one the accept thread is busy with. */
  ghost predicate AcceptorFits(s: State) {
    forall c: nat :: WithAcceptor(At(s, c)) ==> s.acceptor == Handling(c)
  }

  ghost predicate SlotsFit(s: State) {
    s.slots.free == MAX_CONNECTIONS - |Holders(s.pcs)| && 0 <= s.slots.free
  }

  predicate PastAcceptor(closer: Closer) {
    closer !in {NotCalled, StopSet, ListenerClosed}
  }

  ghost predicate CloserFits(s: State) {
    && (PastAcceptor(s.closer) ==> s.acceptor == Exited)
    && (PastAcceptor(s.closer) || s.closer == ListenerClosed ==> !s.sockets.listenerOpen)
    && (s.closer.Joining? ==> forall c | c in s.closer.waiting :: HasStarted(At(s, c)))
    && (s.closer == Returned ==> s.workers == {})
    && (s.closer != NotCalled ==> s.stop)
  }

  ghost predicate Inv(s: State) {
    SlotsFit(s) && ConnsFit(s) && AcceptorFits(s) && CloserFits(s)
  }

  lemma {:induction false} HoldersAfter(pcs: map<nat, Pc>, c: nat, pc: Pc)
    ensures Holders(pcs[c := pc]) == if HoldsSlot(pc) then Holders(pcs) + {c} else Holders(pcs) - {c}
    ensures c in Holders(pcs) <==> c in pcs && HoldsSlot(pcs[c])
  {
  }

  /** A step moves one connection, and leaves everything about every other alone. */
  ghost predicate Moves(s: State, after: State, c: nat) {
    && after.pcs == s.pcs[c := At(after, c)]
    && forall d: nat | d != c ::
         && (d in after.workers <==> d in s.workers)
         && (Client(d) in after.sockets.listed <==> Client(d) in s.sockets.listed)
         && (Upstream(d) in after.sockets.listed <==> Upstream(d) in s.sockets.listed)
         && (Client(d) in after.sockets.open <==> Client(d) in s.sockets.open)
         && (Upstream(d) in after.sockets.open <==> Upstream(d) in s.sockets.open)
         && after.slots.acquires[d] == s.slots.acquires[d] && after.slots.releases[d] == s.slots.releases[d]
  }

  function Slot(pc: Pc): int {
    if HoldsSlot(pc) then 1 else 0
  }

  lemma {:induction false} MoveKeepsConns(s: State, after: State, c: nat)
    requires ConnsFit(s) && Moves(s, after, c) && Fits(after, c)
    ensures ConnsFit(after)
  {
    forall d: nat
      ensures Fits(after, d)
    {
      assert Fits(s, d);
      assert d != c ==> At(after, d) == At(s, d);
    }
  }

  lemma {:induction false} MoveKeepsSlots(s: State, after: State, c: nat)
    requires SlotsFit(s) && Moves(s, after, c) && 0 <= after.slots.free
    requires after.slots.free == s.slots.free + Slot(At(s, c)) - Slot(At(after, c))
    ensures SlotsFit(after)
  {
    HoldersAfter(s.pcs, c, At(after, c));
  }

  lemma {:induction false} WorkerMovesOne(s: State, c: nat, w: WorkerMove)
    requires At(s, c) == WorkerFrom(w)
    ensures Moves(s, WorkerStep(s, c, w), c)
  {
  }

  lemma {:induction false} WorkerFits(s: State, c: nat, w: WorkerMove)
    requires Fits(s, c) && At(s, c) == WorkerFrom(w)
    ensures Fits(WorkerStep(s, c, w), c) && HasStarted(At(WorkerStep(s, c, w), c))
  {
    if w in {RegisterClient, OpenUpstream, LeaveFailed, LeaveStopped, RegisterUpstream, PumpEnds} {
      ServingFits(s, c, w);
    } else {
      EndingFits(s, c, w);
    }
  }

  lemma {:induction false} ServingFits(s: State, c: nat, w: WorkerMove)
    requires Fits(s, c) && At(s, c) == WorkerFrom(w)
    requires || w.RegisterClient? || w.OpenUpstream? || w.LeaveFailed? || w.LeaveStopped? || w.RegisterUpstream?
             || w.PumpEnds?
    ensures Fits(WorkerStep(s, c, w), c) && HasStarted(At(WorkerStep(s, c, w), c))
  {
  }

  lemma {:induction false} EndingFits(s: State, c: nat, w: WorkerMove)
    requires Fits(s, c) && At(s, c) == WorkerFrom(w)
    requires !w.RegisterClient? && !w.OpenUpstream? && !w.LeaveFailed? && !w.LeaveStopped? && !w.RegisterUpstream?
    requires !w.PumpEnds?
    ensures Fits(WorkerStep(s, c, w), c) && HasStarted(At(WorkerStep(s, c, w), c))
  {
  }

  lemma {:induction false} WorkerCountsSlots(s: State, c: nat, w: WorkerMove)
    requires At(s, c) == WorkerFrom(w)
    ensures var after := WorkerStep(s, c, w);
            after.slots.free == s.slots.free + Slot(At(s, c)) - Slot(At(after, c)) && s.slots.free <= after.slots.free
  {
  }

  lemma {:induction false} WorkerKeepsInv(s: State, c: nat, w: WorkerMove)
    requires Inv(s)
    ensures Inv(WorkerStep(s, c, w))
  {
    var after := WorkerStep(s, c, w);
    if At(s, c) == WorkerFrom(w) {
      assert Fits(s, c);
      WorkerMovesOne(s, c, w);
      WorkerFits(s, c, w);
      WorkerCountsSlots(s, c, w);
      MoveKeepsConns(s, after, c);
      MoveKeepsSlots(s, after, c);
      MoveKeepsCloser(s, after, c);
    }
  }

  lemma {:induction false} MoveKeepsCloser(s: State, after: State, c: nat)
    requires CloserFits(s) && AcceptorFits(s) && Moves(s, after, c) && HasStarted(At(after, c)) && HasStarted(At(s, c))
    requires after.closer == s.closer && after.acceptor == s.acceptor && after.stop == s.stop
    requires after.workers <= s.workers
    requires after.sockets.listenerOpen == s.sockets.listenerOpen
    ensures CloserFits(after) && AcceptorFits(after)
  {
    assert forall d: nat | d != c :: At(after, d) == At(s, d);
  }

  lemma {:induction false} HandlingMovesOne(s: State, c: nat, a: AcceptorMove)
    requires c in s.pcs
    ensures Moves(s, HandlingStep(s, c, a), c)
  {
  }

  lemma {:induction false} HandlingFits(s: State, c: nat, a: AcceptorMove)
    requires Fits(s, c) && s.acceptor == Handling(c) && At(s, c) == AcceptorFrom(a) && c in s.pcs
    ensures Fits(HandlingStep(s, c, a), c)
    ensures WithAcceptor(At(HandlingStep(s, c, a), c)) ==> HandlingStep(s, c, a).acceptor == Handling(c)
  {
  }

  lemma {:induction false} HandlingCountsSlots(s: State, c: nat, a: AcceptorMove)
    requires At(s, c) == AcceptorFrom(a) && c in s.pcs
    ensures var after := HandlingStep(s, c, a);
            && after.slots.free == s.slots.free + Slot(At(s, c)) - Slot(At(after, c))
            && (0 <= s.slots.free ==> 0 <= after.slots.free)
  {
  }

  lemma {:induction false} HandlingKeepsInv(s: State, c: nat, a: AcceptorMove)
    requires Inv(s) && s.acceptor == Handling(c) && At(s, c) == AcceptorFrom(a) && c in s.pcs
    ensures Inv(HandlingStep(s, c, a))
  {
    var after := HandlingStep(s, c, a);
    assert Fits(s, c);
    HandlingMovesOne(s, c, a);
    HandlingFits(s, c, a);
    HandlingCountsSlots(s, c, a);
    MoveKeepsConns(s, after, c);
    MoveKeepsSlots(s, after, c);
    forall d: nat | WithAcceptor(At(after, d))
      ensures after.acceptor == Handling(d)
    {
      assert d != c ==> At(after, d) == At(s, d);
    }
  }

  lemma {:induction false} ConnectKeepsInv(s: State, c: nat)
    requires Inv(s) && s.acceptor == Listening
    ensures Inv(AcceptorStep(s, Connect(c)))
  {
    var after := AcceptorStep(s, Connect(c));
    if after != s {
      assert Fits(s, c);
      assert Moves(s, after, c) && Fits(after, c);
      MoveKeepsConns(s, after, c);
      MoveKeepsSlots(s, after, c);
      assert forall d: nat | d != c :: At(after, d) == At(s, d);
    }
  }

  lemma {:induction false} AcceptorKeepsInv(s: State, a: AcceptorMove)
    requires Inv(s)
    ensures Inv(AcceptorStep(s, a))
  {
    if s.acceptor == Listening && a.Connect? {
      ConnectKeepsInv(s, a.conn);
    } else if s.acceptor.Handling? && At(s, s.acceptor.conn) == AcceptorFrom(a) {
      if s.acceptor.conn in s.pcs {
        HandlingKeepsInv(s, s.acceptor.conn, a);
      }
    } else {
      forall c: nat
        ensures Fits(AcceptorStep(s, a), c)
      {
        assert Fits(s, c);
      }
    }
  }

  lemma {:induction false} CloserKeepsInv(s: State, k: CloserMove)
    requires Inv(s)
    ensures Inv(CloserStep(s, k))
  {
    var after := CloserStep(s, k);
    forall d: nat
      ensures Fits(after, d)
    {
      assert Fits(s, d);
    }
    if s.closer == Checking && k == SnapshotWorkers {
      forall c | c in s.workers
        ensures HasStarted(At(s, c))
      {
        assert Fits(s, c);
      }
    }
  }

  lemma {:induction false} StepKeepsInv(s: State, e: Event)
    requires Inv(s)
    ensures Inv(Step(s, e))
  {
    match e
    case ByAcceptor(a) => AcceptorKeepsInv(s, a);
    case ByWorker(c, w) => WorkerKeepsInv(s, c, w);
    case ByCloser(k) => CloserKeepsInv(s, k);
  }

  lemma {:induction false} EveryReachableStateFits(events: seq<Event>)
    ensures Inv(Run(Initial(), events))
  {
    if events == [] {
      assert Holders(Initial().pcs) == {};
    } else {
      EveryReachableStateFits(events[..|events| - 1]);
      StepKeepsInv(Run(Initial(), events[..|events| - 1]), events[|events| - 1]);
    }
  }

  // ---------------------------------------------------------------- what follows over every interleaving

  /** At most twenty connections hold a slot, and the semaphore counts exactly those. */
  lemma {:induction false} SlotsAreBounded(events: seq<Event>)
    ensures var s := Run(Initial(), events);
            && 0 <= s.slots.free <= 20 && |Holders(s.pcs)| <= 20 && s.slots.free + |Holders(s.pcs)| == 20
  {
    EveryReachableStateFits(events);
  }

  /** A connection acquires at most one slot, releases at most that one, and keeps none when it ends. */
  lemma {:induction false} EverySlotIsReleasedOnce(events: seq<Event>, c: nat)
    ensures var s := Run(Initial(), events);
            && s.slots.releases[c] <= s.slots.acquires[c] <= 1
            && (c in Holders(s.pcs) <==> s.slots.releases[c] < s.slots.acquires[c])
            && (At(s, c) in {Finished, Unstarted} ==> s.slots.releases[c] == 1)
  {
    EveryReachableStateFits(events);
    assert Fits(Run(Initial(), events), c);
  }

  /** `close` only ever waits for workers whose thread has started. */
  lemma {:induction false} CloseJoinsStartedWorkers(events: seq<Event>, c: nat)
    requires var s := Run(Initial(), events); s.closer.Joining? && c in s.closer.waiting
    ensures HasStarted(At(Run(Initial(), events), c))
  {
    EveryReachableStateFits(events);
  }

  /**
   When `close` returns, no worker and no socket is registered, no socket is open, the listener is closed and every
   slot is free again; and nothing that happens later changes that.
   */
  lemma {:induction false} CloseLeavesNothing(events: seq<Event>)
    requires Run(Initial(), events).closer == Returned
    ensures var s := Run(Initial(), events);
            && s.workers == {} && s.sockets == Sockets({}, {}, false) && s.slots.free == MAX_CONNECTIONS
            && forall e :: Step(s, e) == s
  {
    EveryReachableStateFits(events);
    var s := Run(Initial(), events);
    forall c: nat
      ensures Fits(s, c) && At(s, c) in {Unstarted, Abandoned, Finished}
    {
      assert Fits(s, c);
    }
    forall socket: Socket
      ensures socket !in s.sockets.listed && socket !in s.sockets.open
    {
      assert Fits(s, socket.conn);
    }
    forall c | c in s.pcs
      ensures !HoldsSlot(s.pcs[c])
    {
      assert s.pcs[c] == At(s, c);
    }
    assert Holders(s.pcs) == {};
  }

  /**
   While `close` waits for a worker, that worker has ended or can take a step that brings it nearer to its end and that
   waits for nobody: the stop flag alone ends its pump.
   */
  lemma {:induction false} WaitingWorkersCanMove(events: seq<Event>, c: nat)
    requires var s := Run(Initial(), events); s.closer.Joining? && c in s.closer.waiting
    ensures var s := Run(Initial(), events);
            || At(s, c) == Finished
            || exists w :: ByItself(w) && Remaining(At(WorkerStep(s, c, w), c)) < Remaining(At(s, c))
  {
    EveryReachableStateFits(events);
    var s := Run(Initial(), events);
    assert HasStarted(At(s, c));
    if At(s, c) != Finished {
      var w := NextMove(At(s, c));
      WorkerMovesOn(s, c);
      assert ByItself(w);
    }
  }

  lemma {:induction false} OthersLeavePumps(s: State, c: nat, e: Event)
    requires At(s, c) == Pumping && (e.ByWorker? ==> e.conn != c)
    ensures At(Step(s, e), c) == Pumping
  {
    if e.ByAcceptor? && s.acceptor.Handling? && At(s, s.acceptor.conn) == AcceptorFrom(e.a) {
      assert s.acceptor.conn != c;
    }
  }

  /**
   In every state, so over every interleaving, a pump is left only when a peer or a socket ends it, when the idle clock
   runs out, or when the stop flag is set: without the flag only the clock ends it without its peers.
   */
  lemma {:induction false} PumpsEndExactlyBy(s: State, c: nat, e: Event)
    requires At(s, c) == Pumping
    ensures At(Step(s, e), c) ==
            if e.ByWorker? && e.conn == c && (e.w.PumpEnds? || e.w.PumpExpires? || (e.w.PumpStops? && s.stop))
            then PumpOver else Pumping
  {
    if e.ByWorker? && e.conn == c {
      assert WorkerFrom(e.w) == Pumping <==> e.w.PumpEnds? || e.w.PumpExpires? || e.w.PumpStops?;
    } else {
      OthersLeavePumps(s, c, e);
    }
  }

  /** The steps a worker still has before it ends. */
  function Remaining(pc: Pc): nat {
    match pc
    case Started => 10
    case ClientKnown => 9
    case UpstreamOpen => 8
    case Pumping => 7
    case PumpOver => 6
    case UpstreamForgotten => 5
    case UpstreamClosed => 4
    case ClientForgotten => 3
    case ClientClosed => 2
    case SlotReturned => 1
    case _ => 0
  }

  function NextMove(pc: Pc): WorkerMove {
    match pc
    case Started => RegisterClient
    case ClientKnown => LeaveStopped
    case UpstreamOpen => RegisterUpstream
    case Pumping => PumpStops
    case PumpOver => ForgetUpstream
    case UpstreamForgotten => CloseUpstream
    case UpstreamClosed => ForgetClient
    case ClientForgotten => CloseClient
    case ClientClosed => ReturnSlot
    case _ => Finish
  }

  // ---------------------------------------------------------------- close can always return

  /** The accept thread is busy with a connection that is still in its hands. */
  predicate AcceptorBusy(s: State) {
    s.acceptor.Handling? ==> WithAcceptor(At(s, s.acceptor.conn)) && s.acceptor.conn in s.pcs
  }

  lemma {:induction false} StepKeepsBusy(s: State, e: Event)
    requires AcceptorBusy(s)
    ensures AcceptorBusy(Step(s, e))
  {
    match e
    case ByAcceptor(a) => AcceptorStaysBusy(s, a);
    case ByWorker(c, w) =>
      assert s.acceptor.Handling? && s.acceptor.conn == c ==> At(s, c) != WorkerFrom(w);
    case ByCloser(k) =>
  }

  lemma {:induction false} AcceptorStaysBusy(s: State, a: AcceptorMove)
    requires AcceptorBusy(s)
    ensures AcceptorBusy(AcceptorStep(s, a))
  {
  }

  lemma {:induction false} EveryReachableAcceptorIsBusy(events: seq<Event>)
    ensures AcceptorBusy(Run(Initial(), events))
  {
    if events != [] {
      EveryReachableAcceptorIsBusy(events[..|events| - 1]);
      StepKeepsBusy(Run(Initial(), events[..|events| - 1]), events[|events| - 1]);
    }
  }

  /** One event more. */
  lemma {:induction false} Continue(start: State, events: seq<Event>, s: State, e: Event)
    returns (longer: seq<Event>, after: State)
    requires s == Run(start, events) && Inv(s) && AcceptorBusy(s)
    ensures after == Step(s, e) && after == Run(start, longer) && Inv(after) && AcceptorBusy(after)
  {
    longer, after := events + [e], Step(s, e);
    assert longer[..|longer| - 1] == events;
    StepKeepsInv(s, e);
    StepKeepsBusy(s, e);
  }

  /** The accept thread's next move towards its end. */
  function NextAcceptorMove(pc: Pc): AcceptorMove {
    match pc
    case Accepted => Refuse
    case Slotted => AddWorker
    case Registered => StartWorker
    case StartRefused => DropWorker
    case Dropped => ReleaseDropped
    case _ => CloseDropped
  }

  function AcceptorRemaining(s: State): nat {
    match s.acceptor
    case Exited => 0
    case Listening => 1
    case Handling(c) =>
      match At(s, c)
      case Slotted => 6
      case StartRefused => 4
      case Dropped => 3
      case _ => 2
  }

  lemma {:induction false} AcceptorMovesOn(s: State)
    requires AcceptorBusy(s) && s.acceptor.Handling?
    ensures var t := AcceptorStep(s, NextAcceptorMove(At(s, s.acceptor.conn)));
            AcceptorRemaining(t) < AcceptorRemaining(s) && t.closer == s.closer && (s.stop ==> t.stop)
  {
  }

  lemma {:induction false} AcceptorCanExit(start: State, events: seq<Event>, s: State)
    returns (longer: seq<Event>, t: State)
    requires s == Run(start, events) && Inv(s) && AcceptorBusy(s)
    ensures t == Run(start, longer) && Inv(t) && AcceptorBusy(t)
    ensures t.acceptor == Exited && t.closer == s.closer && (s.stop ==> t.stop)
    decreases AcceptorRemaining(s)
  {
    longer, t := events, s;
    if s.acceptor == Listening {
      longer, t := Continue(start, longer, t, ByAcceptor(AcceptEnds));
    } else if s.acceptor.Handling? {
      AcceptorMovesOn(s);
      longer, t := Continue(start, longer, t, ByAcceptor(NextAcceptorMove(At(s, s.acceptor.conn))));
      longer, t := AcceptorCanExit(start, longer, t);
    }
  }

  lemma {:induction false} WorkerMovesOn(s: State, c: nat)
    requires HasStarted(At(s, c)) && At(s, c) != Finished && s.stop
    ensures var t := WorkerStep(s, c, NextMove(At(s, c)));
            && HasStarted(At(t, c)) && Remaining(At(t, c)) < Remaining(At(s, c))
            && t.stop && t.closer == s.closer && t.acceptor == s.acceptor
            && t.workers == if At(t, c) == Finished then s.workers - {c} else s.workers
  {
  }

  lemma {:induction false} WorkerCanFinish(start: State, events: seq<Event>, s: State, c: nat)
    returns (longer: seq<Event>, t: State)
    requires s == Run(start, events) && Inv(s) && AcceptorBusy(s) && s.stop
    requires HasStarted(At(s, c)) && At(s, c) != Finished
    ensures t == Run(start, longer) && Inv(t) && AcceptorBusy(t) && t.stop
    ensures t.closer == s.closer && t.acceptor == s.acceptor && t.workers == s.workers - {c}
    decreases Remaining(At(s, c))
  {
    WorkerMovesOn(s, c);
    longer, t := Continue(start, events, s, ByWorker(c, NextMove(At(s, c))));
    if At(t, c) != Finished {
      longer, t := WorkerCanFinish(start, longer, t, c);
    }
  }

  /** Once the accept thread has ended, every worker can end. */
  lemma {:induction false} WorkersCanFinish(start: State, events: seq<Event>, s: State)
    returns (longer: seq<Event>, t: State)
    requires s == Run(start, events) && Inv(s) && AcceptorBusy(s) && s.stop && s.acceptor == Exited
    ensures t == Run(start, longer) && Inv(t) && AcceptorBusy(t)
    ensures t.closer == s.closer && t.acceptor == Exited && t.workers == {}
    decreases |s.workers|
  {
    longer, t := events, s;
    if c :| c in s.workers {
      assert Fits(s, c);
      longer, t := WorkerCanFinish(start, longer, t, c);
      longer, t := WorkersCanFinish(start, longer, t);
    }
  }

  /** Then `close` can go through what it still has to do. */
  lemma {:induction false} CloserCanReturn(start: State, events: seq<Event>, s: State)
    returns (longer: seq<Event>, t: State)
    requires s == Run(start, events) && Inv(s) && AcceptorBusy(s)
    requires s.closer != NotCalled && s.acceptor == Exited && s.workers == {}
    ensures t == Run(start, longer) && t.closer == Returned
    decreases CloserRemaining(s.closer), CloserTodo(s.closer)
  {
    longer, t := events, s;
    if s.closer != Returned {
      CloserMovesOn(s);
      longer, t := Continue(start, longer, t, ByCloser(NextCloserMove(s.closer)));
      longer, t := CloserCanReturn(start, longer, t);
    }
  }

  function CloserRemaining(closer: Closer): nat {
    match closer
    case NotCalled => 8
    case StopSet => 7
    case ListenerClosed => 6
    case AcceptJoined => 5
    case ClosingSockets(_) => 4
    case Joining(_) => 3
    case Checking => 2
    case Returned => 0
  }

  /** How many sockets or workers it still has before it. */
  function CloserTodo(closer: Closer): nat {
    match closer
    case ClosingSockets(todo) => |todo|
    case Joining(waiting) => |waiting|
    case _ => 0
  }

  ghost function NextCloserMove(closer: Closer): CloserMove {
    match closer
    case NotCalled => CallClose
    case StopSet => CloseListener
    case ListenerClosed => JoinAcceptor
    case AcceptJoined => SnapshotSockets
    case ClosingSockets(todo) => if todo == {} then SocketsDone else var socket :| socket in todo; CloseSocket(socket)
    case Joining(waiting) => if waiting == {} then Joined else var c :| c in waiting; Join(c)
    case _ => SnapshotWorkers
  }

  /** The step brings `close` nearer to its return. */
  predicate Nearer(before: Closer, after: Closer) {
    || CloserRemaining(after) < CloserRemaining(before)
    || (CloserRemaining(after) == CloserRemaining(before) && CloserTodo(after) < CloserTodo(before))
  }

  lemma {:induction false} CloserMovesOn(s: State)
    requires Inv(s) && s.closer != NotCalled && s.closer != Returned && s.acceptor == Exited && s.workers == {}
    ensures var t := CloserStep(s, NextCloserMove(s.closer));
            t.closer != NotCalled && t.acceptor == Exited && t.workers == {} && Nearer(s.closer, t.closer)
  {
    if s.closer.Joining? {
      WaitedForHaveFinished(s);
      CloserJoins(s);
    } else {
      CloserGoesOn(s);
    }
  }

  lemma {:induction false} WaitedForHaveFinished(s: State)
    requires Inv(s) && s.closer.Joining? && s.workers == {}
    ensures forall c | c in s.closer.waiting :: At(s, c) == Finished
  {
    forall c | c in s.closer.waiting
      ensures At(s, c) == Finished
    {
      assert Fits(s, c);
    }
  }

  lemma {:induction false} CloserJoins(s: State)
    requires s.closer.Joining? && forall c | c in s.closer.waiting :: At(s, c) == Finished
    ensures var t := CloserStep(s, NextCloserMove(s.closer));
            t.(closer := s.closer) == s && t.closer != NotCalled && Nearer(s.closer, t.closer)
  {
  }

  lemma {:induction false} CloserGoesOn(s: State)
    requires s.closer != NotCalled && s.closer != Returned && !s.closer.Joining?
    requires s.acceptor == Exited && s.workers == {}
    ensures var t := CloserStep(s, NextCloserMove(s.closer));
            t.closer != NotCalled && t.acceptor == Exited && t.workers == {} && Nearer(s.closer, t.closer)
  {
  }

  /** From every reachable state, whether `close` was called yet or not, some continuation lets it return. */
  lemma {:induction false} CloseCanReturn(events: seq<Event>) returns (more: seq<Event>)
    ensures Run(Run(Initial(), events), more).closer == Returned
  {
    EveryReachableStateFits(events);
    EveryReachableAcceptorIsBusy(events);
    var s := Run(Initial(), events);
    var t := s;
    more := [];
    if s.closer == NotCalled {
      more, t := Continue(s, more, t, ByCloser(CallClose));
    }
    more, t := AcceptorCanExit(s, more, t);
    more, t := WorkersCanFinish(s, more, t);
    more, t := CloserCanReturn(s, more, t);
  }

  lemma {:induction false} Then(events: seq<Event>, s: State, e: Event) returns (longer: seq<Event>, after: State)
    requires s == Run(Initial(), events)
    ensures after == Step(s, e) && after == Run(Initial(), longer)
  {
    longer, after := events + [e], Step(s, e);
    assert longer[..|longer| - 1] == events;
  }

  /** Some run serves a connection: its worker pumps while it holds a slot and both sockets are registered. */
  lemma {:induction false} SomeRunPumps(c: nat) returns (events: seq<Event>)
    ensures var s := Run(Initial(), events);
            && At(s, c) == Pumping && s.acceptor == Listening && s.slots.free == MAX_CONNECTIONS - 1
            && s.sockets == Sockets({Client(c), Upstream(c)}, {Client(c), Upstream(c)}, true) && s.workers == {c}
  {
    var s;
    events, s := SomeRunStarts(c);
    events, s := Then(events, s, ByWorker(c, RegisterClient));
    events, s := Then(events, s, ByWorker(c, OpenUpstream));
    events, s := Then(events, s, ByWorker(c, RegisterUpstream));
  }

  /** Some connection fails before it reaches its destination: its worker leaves. */
  lemma {:induction false} SomeConnectionLeaves(c: nat) returns (events: seq<Event>, s: State)
    ensures s == Run(Initial(), events)
    ensures s.pcs == map[c := UpstreamClosed] && s.acceptor == Listening && s.slots.free == MAX_CONNECTIONS - 1
    ensures s.sockets == Sockets({Client(c)}, {Client(c)}, true) && s.workers == {c} && !s.stop
  {
    events, s := SomeRunStarts(c);
    events, s := Then(events, s, ByWorker(c, RegisterClient));
    events, s := Then(events, s, ByWorker(c, LeaveFailed));
  }

  /** Some connection is registered for a thread that is yet to start. */
  lemma {:induction false} SomeRunRegisters(c: nat) returns (events: seq<Event>, s: State)
    ensures s == Run(Initial(), events)
    ensures s.pcs == map[c := Registered] && s.acceptor == Handling(c) && s.slots.free == MAX_CONNECTIONS - 1
    ensures s.sockets == Sockets({}, {Client(c)}, true) && s.workers == {c} && !s.stop
  {
    s := Initial();
    events, s := Then([], s, ByAcceptor(Connect(c)));
    events, s := Then(events, s, ByAcceptor(Acquire));
    events, s := Then(events, s, ByAcceptor(AddWorker));
  }

  /** Its thread does not start. */
  lemma {:induction false} SomeStartFails(c: nat) returns (events: seq<Event>, s: State)
    ensures s == Run(Initial(), events)
    ensures s.pcs == map[c := StartRefused] && s.acceptor == Handling(c) && s.workers == {c}
  {
    events, s := SomeRunRegisters(c);
    events, s := Then(events, s, ByAcceptor(StartFails));
  }

  /** Its thread starts. */
  lemma {:induction false} SomeRunStarts(c: nat) returns (events: seq<Event>, s: State)
    ensures s == Run(Initial(), events)
    ensures s.pcs == map[c := Started] && s.acceptor == Listening && s.slots.free == MAX_CONNECTIONS - 1
    ensures s.sockets == Sockets({}, {Client(c)}, true) && s.workers == {c} && !s.stop
  {
    events, s := SomeRunRegisters(c);
    events, s := Then(events, s, ByAcceptor(StartWorker));
  }
}
