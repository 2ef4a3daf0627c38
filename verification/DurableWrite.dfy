/**
 The system calls behind the durable files of src/migration_rehearsal/final_once.py, any of which may err or be the
 last.
 */
module DurableWrite {
  import opened Sql

  /** How an operation stops short: it raises `OSError`, or the process dies. */
  datatype Ending = Errs | Dies

  /** How one system call turns out; a write takes at most `n` bytes of what it is given. */
  datatype SystemCall = Proceeds(n: nat) | Stops(ending: Ending)

  /** The n-th system call of an operation. */
  type World = nat -> SystemCall

  const NEWLINE: char := '\n'

  /** Canonical JSON text ends with its only line break. */
  predicate Canonical(text: string) {
    text != [] && text[|text| - 1] == NEWLINE && forall i | 0 <= i < |text| - 1 :: text[i] != NEWLINE
  }

  /** A torn write is never mistaken for the document. */
  lemma {:induction false} TornTextIsNotCanonical(text: string, k: nat)
    requires Canonical(text) && k < |text|
    ensures !Canonical(text[..k])
  {
    if k > 0 {
      assert text[..k][k - 1] == text[k - 1];
    }
  }

  // ---------------------------------------------------------------- one write loop

  /** How far a write loop gets: the bytes taken, the next call, and why it stopped, if it did. */
  datatype Progress = Progress(taken: nat, next: nat, stopped: Option<Ending>)

  function Writes(world: World, first: nat, size: nat): Progress
    decreases size
  {
    if size == 0 then Progress(0, first, None)
    else
      match world(first)
      case Stops(ending) => Progress(0, first + 1, Some(ending))
      case Proceeds(n) =>
        if n == 0 then Progress(0, first + 1, Some(Errs))
        else if n >= size then Progress(size, first + 1, None)
        else var rest := Writes(world, first + 1, size - n); rest.(taken := n + rest.taken)
  }

  lemma {:induction false} WritesAllOrStops(world: World, first: nat, size: nat)
    ensures var w := Writes(world, first, size); w.taken <= size && (w.stopped.None? <==> w.taken == size)
    decreases size
  {
    if size > 0 && world(first).Proceeds? && 0 < world(first).n < size {
      WritesAllOrStops(world, first + 1, size - world(first).n);
    }
  }

  /** The ending of an operation that stopped and then still closes its descriptor. */
  function AfterClose(world: World, close: nat, ending: Ending): Ending {
    if ending == Dies || world(close) == Stops(Dies) then Dies else Errs
  }

  class OpenFile {
    var contents: string

    constructor ()
      ensures contents == ""
    {
      contents := "";
    }

    /** `_write_all`: the file gains exactly the bytes that were taken, all of them unless the loop stopped. */
    method WriteAll(payload: string, world: World, first: nat) returns (stopped: Option<Ending>, next: nat)
      modifies this
      ensures var w := Writes(world, first, |payload|);
              && w.taken <= |payload| && contents == old(contents) + payload[..w.taken]
              && stopped == w.stopped && next == w.next
      ensures stopped.None? ==> contents == old(contents) + payload
      ensures stopped.Some? ==> exists k :: 0 <= k < |payload| && contents == old(contents) + payload[..k]
    {
      var offset := 0;
      next := first;
      WritesAllOrStops(world, first, |payload|);
      ghost var whole := Writes(world, first, |payload|);
      while offset < |payload|
        invariant 0 <= offset <= |payload|
        invariant contents == old(contents) + payload[..offset]
        invariant var rest := Writes(world, next, |payload| - offset); whole == rest.(taken := offset + rest.taken)
        decreases |payload| - offset
      {
        var call := world(next);
        next := next + 1;
        if call.Stops? {
          return Some(call.ending), next;
        }
        if call.n == 0 {
          return Some(Errs), next;
        }
        var end := if offset + call.n > |payload| then |payload| else offset + call.n;
        contents := contents + payload[offset..end];
        assert payload[..offset] + payload[offset..end] == payload[..end];
        offset := end;
      }
      assert payload[..offset] == payload;
      stopped := None;
    }
  }

  // ---------------------------------------------------------------- syncing a directory

  datatype DirectorySync = SyncDone | NotSynced(ending: Ending) | SyncedButStopped(ending: Ending)

  /** `_fsync_directory`, from its first call on: open, sync, close. */
  function SyncOutcome(world: World, first: nat): DirectorySync {
    match world(first)
    case Stops(ending) => NotSynced(ending)
    case Proceeds(_) =>
      match world(first + 1)
      case Stops(ending) => NotSynced(AfterClose(world, first + 2, ending))
      case Proceeds(_) =>
        match world(first + 2)
        case Stops(ending) => SyncedButStopped(ending)
        case Proceeds(_) => SyncDone
  }

  // ---------------------------------------------------------------- creating a file exclusively

  /** What is there when an exclusive write stops: nothing, a part, or the whole, which may be synced and durable. */
  datatype ExclusiveLeft = NotCreated | Torn | Whole | WholeSafe | WholeSynced

  datatype ExclusiveWrite = Created | CreateStopped(left: ExclusiveLeft, ending: Ending)

  /** `_write_exclusive` of so many bytes: open, writes, sync, close, and the directory. */
  function ExclusiveOutcome(world: World, size: nat): ExclusiveWrite {
    match world(0)
    case Stops(ending) => CreateStopped(NotCreated, ending)
    case Proceeds(_) =>
      var w := Writes(world, 1, size);
      if w.stopped.Some? then CreateStopped(Torn, AfterClose(world, w.next, w.stopped.value))
      else
        match world(w.next)
        case Stops(ending) => CreateStopped(Whole, AfterClose(world, w.next + 1, ending))
        case Proceeds(_) =>
          match world(w.next + 1)
          case Stops(ending) => CreateStopped(WholeSafe, ending)
          case Proceeds(_) =>
            match SyncOutcome(world, w.next + 2)
            case NotSynced(ending) => CreateStopped(WholeSafe, ending)
            case SyncedButStopped(ending) => CreateStopped(WholeSynced, ending)
            case SyncDone => Created
  }

  // ---------------------------------------------------------------- replacing a file atomically

  datatype AtomicStage = NotOpened | TempLeft | Replaced | ReplacedSynced

  datatype AtomicWrite = Written | WriteStopped(stage: AtomicStage, ending: Ending)

  /** `_write_atomic` of so many bytes: a temporary file is written and synced, renamed, and the directory synced. */
  function AtomicOutcome(world: World, size: nat): AtomicWrite {
    match world(0)
    case Stops(ending) => WriteStopped(NotOpened, ending)
    case Proceeds(_) =>
      var w := Writes(world, 1, size);
      if w.stopped.Some? then WriteStopped(TempLeft, AfterClose(world, w.next, w.stopped.value))
      else RenameOutcome(world, w.next)
  }

  /** The rest of an atomic write once the temporary file holds everything. */
  function RenameOutcome(world: World, first: nat): AtomicWrite {
    match world(first)
    case Stops(ending) => WriteStopped(TempLeft, AfterClose(world, first + 1, ending))
    case Proceeds(_) =>
      match (world(first + 1), world(first + 2))
      case (Stops(ending), _) => WriteStopped(TempLeft, ending)
      case (_, Stops(ending)) => WriteStopped(TempLeft, ending)
      case _ =>
        match SyncOutcome(world, first + 3)
        case NotSynced(ending) => WriteStopped(Replaced, ending)
        case SyncedButStopped(ending) => WriteStopped(ReplacedSynced, ending)
        case SyncDone => Written
  }

  // ---------------------------------------------------------------- what durable means

  /** A loop that was not stopped made only calls that took something; one that was met the first that did not. */
  lemma {:induction false} FullWritesTookSomething(world: World, first: nat, size: nat)
    ensures var w := Writes(world, first, size);
            && first <= w.next && (size > 0 ==> first < w.next)
            && (forall i | first <= i < w.next - 1 :: world(i).Proceeds? && 0 < world(i).n)
            && (size > 0 ==> (w.stopped.None? <==> world(w.next - 1).Proceeds? && 0 < world(w.next - 1).n))
    decreases size
  {
    if size > 0 && world(first).Proceeds? && 0 < world(first).n < size {
      FullWritesTookSomething(world, first + 1, size - world(first).n);
    }
  }

  /** An exclusive write is done exactly when open, every write, sync, close and the calls on the directory are. */
  lemma {:induction false} CreatedMeansEveryCall(world: World, size: nat)
    ensures var w := Writes(world, 1, size);
            && (ExclusiveOutcome(world, size) == Created <==>
                  && world(0).Proceeds? && w.stopped.None?
                  && forall i | w.next <= i < w.next + 5 :: world(i).Proceeds?)
            && (ExclusiveOutcome(world, size).CreateStopped? && ExclusiveOutcome(world, size).left == WholeSynced ==>
                  forall i | w.next <= i < w.next + 4 :: world(i).Proceeds?)
            && (ExclusiveOutcome(world, size).CreateStopped? && ExclusiveOutcome(world, size).left == WholeSafe ==>
                  world(w.next).Proceeds?)
  {
  }

  /** An atomic write is done exactly when open, every write, sync, close, rename and the calls on the directory are. */
  lemma {:induction false} WrittenMeansEveryCall(world: World, size: nat)
    ensures var w := Writes(world, 1, size);
            && (AtomicOutcome(world, size) == Written <==>
                  && world(0).Proceeds? && w.stopped.None?
                  && forall i | w.next <= i < w.next + 6 :: world(i).Proceeds?)
            && (&& AtomicOutcome(world, size).WriteStopped?
                && AtomicOutcome(world, size).stage in {Replaced, ReplacedSynced} ==>
                  w.stopped.None? && forall i | w.next <= i < w.next + 3 :: world(i).Proceeds?)
            && (AtomicOutcome(world, size).WriteStopped? && AtomicOutcome(world, size).stage == ReplacedSynced ==>
                  forall i | w.next <= i < w.next + 5 :: world(i).Proceeds?)
  {
  }

  // ---------------------------------------------------------------- every outcome is reached

  /** All calls proceed, taking everything they are given, up to one that stops. */
  function StopsAt(k: nat, ending: Ending, size: nat): World {
    i => if i == k then Stops(ending) else Proceeds(size)
  }

  /** Every call proceeds, and every write takes something. */
  ghost predicate Undisturbed(world: World) {
    forall i: nat :: world(i).Proceeds? && 0 < world(i).n
  }

  lemma {:induction false} UndisturbedWrites(world: World, first: nat, size: nat)
    requires Undisturbed(world)
    ensures Writes(world, first, size).stopped.None?
    decreases size
  {
    if size > 0 && world(first).n < size {
      UndisturbedWrites(world, first + 1, size - world(first).n);
    }
  }

  lemma {:induction false} UndisturbedSucceeds(world: World, size: nat)
    requires Undisturbed(world)
    ensures ExclusiveOutcome(world, size) == Created && AtomicOutcome(world, size) == Written
  {
    UndisturbedWrites(world, 1, size);
  }

  /** No outcome of an exclusive write is listed in vain: each is where some sequence of calls ends. */
  lemma {:induction false} ExclusiveOutcomesAreReached(w: ExclusiveWrite, size: nat)
    requires size > 0
    ensures exists world :: ExclusiveOutcome(world, size) == w
  {
    if w.Created? {
      var world := i => Proceeds(size);
      UndisturbedSucceeds(world, size);
      assert ExclusiveOutcome(world, size) == w;
    } else {
      var k := match w.left
        case NotCreated => 0
        case Torn => 1
        case Whole => 2
        case WholeSafe => 3
        case WholeSynced => 6;
      var world := StopsAt(k, w.ending, size);
      assert Writes(world, 1, size) == if k == 1 then Progress(0, 2, Some(w.ending)) else Progress(size, 2, None);
      assert ExclusiveOutcome(world, size) == w;
    }
  }

  lemma {:induction false} AtomicOutcomesAreReached(w: AtomicWrite, size: nat)
    ensures exists world :: AtomicOutcome(world, size) == w
  {
    if w.Written? {
      var world := i => Proceeds(size + 1);
      UndisturbedSucceeds(world, size);
      assert AtomicOutcome(world, size) == w;
    } else {
      var sync := if size == 0 then 1 else 2;
      var k := match w.stage
        case NotOpened => 0
        case TempLeft => sync
        case Replaced => sync + 3
        case ReplacedSynced => sync + 5;
      var world := StopsAt(k, w.ending, size + 1);
      assert k > 0 ==> Writes(world, 1, size) == Progress(size, sync, None);
      assert AtomicOutcome(world, size) == w;
    }
  }
}
