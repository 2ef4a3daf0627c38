/** The two-way pump of src/migration_rehearsal/control_room_runtime/relay.py. */
module Pump {

  datatype Side = Client | Upstream

  function Peer(s: Side): Side {
    if s == Client then Upstream else Client
  }

  type Byte = b: int | 0 <= b < 256

  const MAX_BUFFER_BYTES: nat := 1_048_576
  const CHUNK_BYTES: nat := 65_536

  /** What one successful `recv` yields. */
  type Chunk = s: seq<Byte> | 0 < |s| <= CHUNK_BYTES witness [0]

  // ---------------------------------------------------------------- what happens on the two sockets

  datatype Op =
    | Received(side: Side, data: seq<Byte>) | Eof(side: Side) | Sent(side: Side, data: seq<Byte>) | Shut(side: Side)

  /** Everything read from a side, in order. */
  function Input(log: seq<Op>, s: Side): seq<Byte> {
    if log == [] then []
    else
      var last := log[|log| - 1];
      Input(log[..|log| - 1], s) + if last.Received? && last.side == s then last.data else []
  }

  /** Everything written to a side, in order. */
  function Output(log: seq<Op>, s: Side): seq<Byte> {
    if log == [] then []
    else
      var last := log[|log| - 1];
      Output(log[..|log| - 1], s) + if last.Sent? && last.side == s then last.data else []
  }

  predicate IsPrefix(a: seq<Byte>, b: seq<Byte>) {
    |a| <= |b| && a == b[..|a|]
  }

  /** When an operation may follow what has happened. */
  predicate Allowed(log: seq<Op>, op: Op) {
    match op
    case Received(s, data) =>
      && Eof(s) !in log && 0 < |data| <= CHUNK_BYTES
      && |Input(log, s)| - |Output(log, Peer(s))| < MAX_BUFFER_BYTES
    case Eof(s) => Eof(s) !in log
    case Sent(d, data) => Shut(d) !in log && IsPrefix(Output(log, d) + data, Input(log, Peer(d)))
    case Shut(d) => Shut(d) !in log && Eof(Peer(d)) in log && Output(log, d) == Input(log, Peer(d))
  }

  /** Every operation was allowed when it happened. */
  predicate Orderly(log: seq<Op>) {
    log == [] || (Orderly(log[..|log| - 1]) && Allowed(log[..|log| - 1], log[|log| - 1]))
  }

  lemma {:induction false} Extended(log: seq<Op>, op: Op)
    requires Orderly(log) && Allowed(log, op)
    ensures Orderly(log + [op])
    ensures forall s :: Input(log + [op], s) == Input(log, s) + if op.Received? && op.side == s then op.data else []
    ensures forall s :: Output(log + [op], s) == Output(log, s) + if op.Sent? && op.side == s then op.data else []
    ensures forall o :: o in log + [op] <==> o in log || o == op
  {
    var next := log + [op];
    assert next[..|next| - 1] == log && next[|next| - 1] == op;
  }

  lemma {:induction false} PrefixIsOrderly(log: seq<Op>, n: nat)
    requires Orderly(log) && n <= |log|
    ensures Orderly(log[..n])
    ensures n < |log| ==> Allowed(log[..n], log[n])
  {
    if n < |log| {
      PrefixIsOrderly(log[..|log| - 1], if n < |log| - 1 then n else |log| - 1);
      assert log[..|log| - 1][..n] == log[..n];
    } else {
      assert log[..n] == log;
    }
  }

  lemma {:induction false} DeliveredIsAPrefix(log: seq<Op>, d: Side)
    requires Orderly(log)
    ensures IsPrefix(Output(log, d), Input(log, Peer(d)))
  {
    if log != [] {
      DeliveredIsAPrefix(log[..|log| - 1], d);
    }
  }

  /** At every moment each side has been sent a prefix of what its peer sent, and what waits in between is bounded. */
  lemma {:induction false} BoundedFifo(log: seq<Op>, n: nat, d: Side)
    requires Orderly(log) && n <= |log|
    ensures IsPrefix(Output(log[..n], d), Input(log[..n], Peer(d)))
    ensures |Input(log[..n], Peer(d))| - |Output(log[..n], d)| <= 1_048_575 + 65_536
    decreases n
  {
    PrefixIsOrderly(log, n);
    DeliveredIsAPrefix(log[..n], d);
    if n > 0 {
      BoundedFifo(log, n - 1, d);
      PrefixIsOrderly(log, n - 1);
      assert log[..n][..n - 1] == log[..n - 1];
    }
  }

  /**
   A side is half-closed at most once, only after its peer ended and everything was delivered; after that nothing is
   sent to it, and nothing more is read from the peer.
   */
  lemma {:induction false} HalfCloseIsFinal(log: seq<Op>, i: nat, j: nat, d: Side)
    requires Orderly(log) && i < j < |log| && log[i] == Shut(d)
    ensures Eof(Peer(d)) in log[..i] && Output(log[..i], d) == Input(log[..i], Peer(d))
    ensures log[j] != Shut(d) && !(log[j].Sent? && log[j].side == d) && !(log[j].Received? && log[j].side == Peer(d))
  {
    PrefixIsOrderly(log, i);
    PrefixIsOrderly(log, j);
    assert log[i] == log[..j][i];
    var k :| 0 <= k < i && log[..i][k] == Eof(Peer(d));
    assert log[..j][k] == Eof(Peer(d));
  }

  // ---------------------------------------------------------------- the pump

  datatype RecvReply = Data(chunk: Chunk) | End | RecvWouldBlock | RecvBroken

  datatype SendReply = Took(n: int) | SendWouldBlock | SendBroken

  datatype SelectReply = Ready(readable: seq<Side>, writable: seq<Side>) | SelectError(stopped: bool)

  /** One turn of the loop: the stop flag, the idle clock, `select`, and what each socket does when asked. */
  datatype Round = Round(stop: bool, idle: bool, select: SelectReply, recv: Side -> RecvReply, send: Side -> SendReply)

  datatype Ending = Stopped | Complete | IdleExpired | SelectFailed | Broken | Running

  /** The pump's variables. */
  datatype State = State(buffers: map<Side, seq<Byte>>, readers: set<Side>, writeShutdown: set<Side>)

  /** A buffer holds exactly what was read for its side and not yet sent, and the flags say what was seen and done. */
  ghost predicate SideFits(log: seq<Op>, p: State, d: Side) {
    && d in p.buffers && Output(log, d) + p.buffers[d] == Input(log, Peer(d))
    && |p.buffers[d]| <= MAX_BUFFER_BYTES - 1 + CHUNK_BYTES
    && (d in p.readers <==> Eof(d) !in log)
    && (d in p.writeShutdown <==> Shut(d) in log)
    && (d in p.writeShutdown ==> Peer(d) !in p.readers && p.buffers[d] == [])
  }

  ghost predicate Fits(log: seq<Op>, p: State) {
    Orderly(log) && SideFits(log, p, Client) && SideFits(log, p, Upstream)
  }

  function AfterShut(p: State, d: Side): State {
    p.(writeShutdown := p.writeShutdown + {d})
  }

  function AfterEof(p: State, s: Side): State {
    p.(readers := p.readers - {s})
  }

  function AfterReceived(p: State, s: Side, data: seq<Byte>): State
    requires Peer(s) in p.buffers
  {
    p.(buffers := p.buffers[Peer(s) := p.buffers[Peer(s)] + data])
  }

  function AfterSent(p: State, d: Side, n: nat): State
    requires d in p.buffers && n <= |p.buffers[d]|
  {
    p.(buffers := p.buffers[d := p.buffers[d][n..]])
  }

  /** Between two moments this much more was read from a side and written to it, and nothing on the other side. */
  predicate Moved(before: seq<Op>, after: seq<Op>, s: Side, input: seq<Byte>, output: seq<Byte>) {
    && Input(after, s) == Input(before, s) + input && Output(after, s) == Output(before, s) + output
    && Input(after, Peer(s)) == Input(before, Peer(s)) && Output(after, Peer(s)) == Output(before, Peer(s))
  }

  lemma {:induction false} ShutFits(log: seq<Op>, p: State, d: Side)
    requires Fits(log, p) && Peer(d) !in p.readers && p.buffers[d] == [] && d !in p.writeShutdown
    ensures Fits(log + [Shut(d)], AfterShut(p, d))
  {
    Extended(log, Shut(d));
  }

  lemma {:induction false} EofFits(log: seq<Op>, p: State, s: Side)
    requires Fits(log, p) && s in p.readers
    ensures Fits(log + [Eof(s)], AfterEof(p, s))
  {
    Extended(log, Eof(s));
    assert Eof(Peer(s)) != Eof(s);
  }

  lemma {:induction false} ReceivedFits(log: seq<Op>, p: State, s: Side, data: Chunk)
    requires Fits(log, p) && s in p.readers && |p.buffers[Peer(s)]| < MAX_BUFFER_BYTES
    ensures Fits(log + [Received(s, data)], AfterReceived(p, s, data))
    ensures Moved(log, log + [Received(s, data)], s, data, [])
  {
    var d := Peer(s);
    assert |Output(log, d)| + |p.buffers[d]| == |Input(log, s)|;
    Extended(log, Received(s, data));
    assert Output(log, d) + (p.buffers[d] + data) == (Output(log, d) + p.buffers[d]) + data;
    assert Input(log + [Received(s, data)], d) == Input(log, d) + [];
    assert Output(log + [Received(s, data)], s) == Output(log, s) + [];
    assert Output(log + [Received(s, data)], d) == Output(log, d) + [];
  }

  lemma {:induction false} SentFits(log: seq<Op>, p: State, d: Side, n: nat)
    requires Fits(log, p) && 0 < n <= |p.buffers[d]|
    ensures Fits(log + [Sent(d, p.buffers[d][..n])], AfterSent(p, d, n))
    ensures Moved(log, log + [Sent(d, p.buffers[d][..n])], d, [], p.buffers[d][..n])
  {
    var data := p.buffers[d][..n];
    assert Output(log, d) + p.buffers[d] == (Output(log, d) + data) + p.buffers[d][n..];
    Extended(log, Sent(d, data));
  }

  lemma {:induction false} CompleteMeansDelivered(log: seq<Op>, p: State, d: Side)
    requires Fits(log, p) && p.readers == {} && d in p.writeShutdown && p.buffers[d] == []
    ensures Delivered(log, d)
  {
  }

  /** The peer of a side has ended, everything it sent was delivered, and the side is half-closed. */
  predicate Delivered(log: seq<Op>, d: Side) {
    Eof(Peer(d)) in log && Shut(d) in log && Output(log, d) == Input(log, Peer(d))
  }

  /** Destinations with something to send. */
  predicate Waiting(buffers: map<Side, seq<Byte>>, sides: set<Side>) {
    forall d | d in sides :: d in buffers && buffers[d] != []
  }

  /** Sources that may be read. */
  predicate MayRead(buffers: map<Side, seq<Byte>>, readers: set<Side>, sides: set<Side>) {
    forall s | s in sides :: s in readers && Peer(s) in buffers && |buffers[Peer(s)]| < MAX_BUFFER_BYTES
  }

  /** The front of a buffer that a successful `send` takes. */
  function Taken(reply: SendReply, buffer: seq<Byte>): seq<Byte> {
    if reply.Took? && reply.n > 0 then buffer[..if reply.n > |buffer| then |buffer| else reply.n] else []
  }

  /** What was read from a side, and what was written to it, between two moments. */
  predicate Gained(before: seq<Op>, after: seq<Op>, s: Side, input: seq<Byte>, output: seq<Byte>) {
    Input(after, s) == Input(before, s) + input && Output(after, s) == Output(before, s) + output
  }

  /** What one pass over the ready sources reads from a side. */
  function ReadFrom(s: Side, readable: seq<Side>, asked: set<Side>, recv: Side -> RecvReply): seq<Byte> {
    if s in readable && s in asked && recv(s).Data? then recv(s).chunk else []
  }

  /** The sources that one pass over the ready ones finds at their end. */
  function Ends(readable: seq<Side>, asked: set<Side>, recv: Side -> RecvReply): set<Side> {
    set s | s in asked && s in readable && recv(s).End?
  }

  /** What one pass over the ready destinations writes to a side. */
  function WrittenTo(d: Side, writable: seq<Side>, asked: set<Side>, send: Side -> SendReply, buffer: seq<Byte>)
    : seq<Byte>
  {
    if d in writable && d in asked then Taken(send(d), buffer) else []
  }

  /**
   One round moves a chunk from each ready source that has not ended and whose peer's buffer is not full, and a front
   of each ready buffer that held something: of what it held, followed by what was just read.
   */
  predicate Exchanged(
    before: seq<Op>, after: seq<Op>, buffers: map<Side, seq<Byte>>, readers: set<Side>, round: Round, s: Side)
    requires Client in buffers && Upstream in buffers && round.select.Ready?
  {
    var readable, open := round.select.readable, Open(buffers, readers);
    Gained(before, after, s, ReadFrom(s, readable, open, round.recv),
           if s in round.select.writable && s in Held(buffers) then
             Taken(round.send(s), buffers[s] + ReadFrom(Peer(s), readable, open, round.recv))
           else [])
  }

  /** The sources that have not ended and whose peer's buffer is not full. */
  function Open(buffers: map<Side, seq<Byte>>, readers: set<Side>): set<Side>
    requires Client in buffers && Upstream in buffers
  {
    set s | s in readers && |buffers[Peer(s)]| < MAX_BUFFER_BYTES
  }

  /** The destinations with something to send. */
  function Held(buffers: map<Side, seq<Byte>>): set<Side> {
    set d | d in buffers && buffers[d] != []
  }

  /** A buffer grows by what was read for its side while nothing is sent to it. */
  lemma {:induction false} BufferGrows(
    before: seq<Op>, p: State, after: seq<Op>, q: State, d: Side, input: seq<Byte>)
    requires Fits(before, p) && Fits(after, q)
    requires Input(after, Peer(d)) == Input(before, Peer(d)) + input && Output(after, d) == Output(before, d)
    ensures q.buffers[d] == p.buffers[d] + input
  {
    assert SideFits(before, p, d) && SideFits(after, q, d);
    var sent := Output(before, d);
    assert sent + q.buffers[d] == sent + (p.buffers[d] + input);
    assert q.buffers[d] == (sent + q.buffers[d])[|sent|..];
    assert p.buffers[d] + input == (sent + (p.buffers[d] + input))[|sent|..];
  }

  lemma {:induction false} GainedTwice(
    a: seq<Op>, b: seq<Op>, c: seq<Op>, s: Side, input: seq<Byte>, output: seq<Byte>, input': seq<Byte>,
    output': seq<Byte>)
    requires Gained(a, b, s, input, output) && Gained(b, c, s, input', output')
    ensures Gained(a, c, s, input + input', output + output')
  {
    assert Input(c, s) == Input(a, s) + (input + input');
    assert Output(c, s) == Output(a, s) + (output + output');
  }

  /** The ready sources of a list have been served, and these are still due. */
  ghost predicate ReadSoFar(
    a: seq<Op>, b: seq<Op>, list: seq<Side>, asked: set<Side>, due: set<Side>, recv: Side -> RecvReply)
  {
    && (forall s: Side :: s in due <==> s in asked && s !in list)
    && Gained(a, b, Client, ReadFrom(Client, list, asked, recv), [])
    && Gained(a, b, Upstream, ReadFrom(Upstream, list, asked, recv), [])
  }

  lemma {:induction false} ReadOne(
    a: seq<Op>, b: seq<Op>, c: seq<Op>, list: seq<Side>, s: Side, asked: set<Side>, due: set<Side>,
    recv: Side -> RecvReply)
    requires ReadSoFar(a, b, list, asked, due, recv)
    requires Moved(b, c, s, if s in due && recv(s).Data? then recv(s).chunk else [], [])
    ensures ReadSoFar(a, c, list + [s], asked, due - {s}, recv)
  {
    ReadOneSide(a, b, c, list, s, asked, due, recv, Client);
    ReadOneSide(a, b, c, list, s, asked, due, recv, Upstream);
  }

  lemma {:induction false} ReadOneSide(
    a: seq<Op>, b: seq<Op>, c: seq<Op>, list: seq<Side>, s: Side, asked: set<Side>, due: set<Side>,
    recv: Side -> RecvReply, t: Side)
    requires t in due <==> t in asked && t !in list
    requires Gained(a, b, t, ReadFrom(t, list, asked, recv), [])
    requires Moved(b, c, s, if s in due && recv(s).Data? then recv(s).chunk else [], [])
    ensures Gained(a, c, t, ReadFrom(t, list + [s], asked, recv), [])
  {
    assert t == s || t == Peer(s);
    GainedTwice(a, b, c, t, ReadFrom(t, list, asked, recv), [],
                if t == s && s in due && recv(s).Data? then recv(s).chunk else [], []);
  }

  /** The ready destinations of a list have been served, and these are still due. */
  ghost predicate WrittenSoFar(
    a: seq<Op>, b: seq<Op>, list: seq<Side>, asked: set<Side>, due: set<Side>, send: Side -> SendReply,
    buffers: map<Side, seq<Byte>>)
    requires Client in buffers && Upstream in buffers
  {
    && (forall d: Side :: d in due <==> d in asked && d !in list)
    && Gained(a, b, Client, [], WrittenTo(Client, list, asked, send, buffers[Client]))
    && Gained(a, b, Upstream, [], WrittenTo(Upstream, list, asked, send, buffers[Upstream]))
  }

  lemma {:induction false} WriteOne(
    a: seq<Op>, b: seq<Op>, c: seq<Op>, list: seq<Side>, d: Side, asked: set<Side>, due: set<Side>,
    send: Side -> SendReply, buffers: map<Side, seq<Byte>>)
    requires Client in buffers && Upstream in buffers
    requires WrittenSoFar(a, b, list, asked, due, send, buffers)
    requires Moved(b, c, d, [], if d in due then Taken(send(d), buffers[d]) else [])
    ensures WrittenSoFar(a, c, list + [d], asked, due - {d}, send, buffers)
  {
    WriteOneSide(a, b, c, list, d, asked, due, send, buffers, Client);
    WriteOneSide(a, b, c, list, d, asked, due, send, buffers, Upstream);
  }

  lemma {:induction false} WriteOneSide(
    a: seq<Op>, b: seq<Op>, c: seq<Op>, list: seq<Side>, d: Side, asked: set<Side>, due: set<Side>,
    send: Side -> SendReply, buffers: map<Side, seq<Byte>>, t: Side)
    requires d in buffers && t in buffers && (t in due <==> t in asked && t !in list)
    requires Gained(a, b, t, [], WrittenTo(t, list, asked, send, buffers[t]))
    requires Moved(b, c, d, [], if d in due then Taken(send(d), buffers[d]) else [])
    ensures Gained(a, c, t, [], WrittenTo(t, list + [d], asked, send, buffers[t]))
  {
    assert t == d || t == Peer(d);
    GainedTwice(a, b, c, t, [], WrittenTo(t, list, asked, send, buffers[t]), [],
                if t == d && d in due then Taken(send(d), buffers[d]) else []);
  }

  lemma {:induction false} ExchangeComposes(
    before: seq<Op>, p: State, between: seq<Op>, q: State, after: seq<Op>, round: Round, s: Side)
    requires Fits(before, p) && Fits(between, q) && round.select.Ready?
    requires Gained(before, between, s, ReadFrom(s, round.select.readable, Open(p.buffers, p.readers), round.recv), [])
    requires Gained(before, between, Peer(s),
                    ReadFrom(Peer(s), round.select.readable, Open(p.buffers, p.readers), round.recv), [])
    requires Gained(between, after, s, [],
                    WrittenTo(s, round.select.writable, Held(p.buffers), round.send, q.buffers[s]))
    ensures Exchanged(before, after, p.buffers, p.readers, round, s)
  {
    var arrived := ReadFrom(Peer(s), round.select.readable, Open(p.buffers, p.readers), round.recv);
    BufferGrows(before, p, between, q, s, arrived);
    GainedTwice(
      before, between, after, s, ReadFrom(s, round.select.readable, Open(p.buffers, p.readers), round.recv), [], [],
      WrittenTo(s, round.select.writable, Held(p.buffers), round.send, q.buffers[s]));
  }

  lemma {:induction false} ShutThenExchanged(
    before: seq<Op>, shut: seq<Op>, after: seq<Op>, buffers: map<Side, seq<Byte>>, readers: set<Side>, round: Round)
    requires Client in buffers && Upstream in buffers && round.select.Ready?
    requires Moved(before, shut, Client, [], [])
    requires forall s: Side :: Exchanged(shut, after, buffers, readers, round, s)
    ensures forall s: Side :: Exchanged(before, after, buffers, readers, round, s)
  {
    forall s: Side
      ensures Exchanged(before, after, buffers, readers, round, s)
    {
      assert s == Client || s == Peer(Client);
      assert Exchanged(shut, after, buffers, readers, round, s);
    }
  }

  predicate WriteBreaks(reply: SendReply) {
    reply.SendBroken? || (reply.Took? && reply.n <= 0)
  }

  /** One of the ready sources that are asked for breaks. */
  predicate ReadBreaks(readable: seq<Side>, asked: set<Side>, recv: Side -> RecvReply) {
    exists s | s in asked :: s in readable && recv(s).RecvBroken?
  }

  /** One of the ready destinations that are asked for breaks. */
  predicate SendBreaks(writable: seq<Side>, asked: set<Side>, send: Side -> SendReply) {
    exists d | d in asked :: d in writable && WriteBreaks(send(d))
  }

  /** How a round ends a pump, or that it goes on. */
  function EndingOf(p: State, round: Round): Ending
    requires Client in p.buffers && Upstream in p.buffers
  {
    if round.stop then Stopped
    else if Drained(p) then Complete
    else if round.idle then IdleExpired
    else if round.select.SelectError? then if round.select.stopped then Stopped else SelectFailed
    else if ReadBreaks(round.select.readable, Asked(p), round.recv) then Broken
    else if SendBreaks(round.select.writable, Held(p.buffers), round.send) then Broken
    else Running
  }

  /** The pump between two turns, with what has happened so far. */
  datatype Moment = Moment(log: seq<Op>, state: State)

  /** The peer of a side has ended and everything it sent was delivered: the side is to be half-closed. */
  predicate DueToClose(log: seq<Op>, d: Side) {
    Eof(Peer(d)) in log && Output(log, d) == Input(log, Peer(d))
  }

  /** What was due is half-closed. */
  predicate HalfClosed(before: seq<Op>, after: seq<Op>) {
    && (DueToClose(before, Client) ==> Shut(Client) in after)
    && (DueToClose(before, Upstream) ==> Shut(Upstream) in after)
  }

  /** A side is due exactly when its source is no longer read and its buffer is empty. */
  lemma {:induction false} DueWhenDrained(log: seq<Op>, p: State, d: Side)
    requires Fits(log, p)
    ensures d in p.buffers && (DueToClose(log, d) <==> Peer(d) !in p.readers && p.buffers[d] == [])
  {
    assert SideFits(log, p, d) && SideFits(log, p, Peer(d));
    assert Output(log, d) + p.buffers[d] == Input(log, Peer(d));
  }

  /** A round that goes on moves exactly what it found ready, and has half-closed what was due. */
  ghost predicate GoesOn(before: Moment, round: Round, after: Moment) {
    && Client in before.state.buffers && Upstream in before.state.buffers
    && EndingOf(before.state, round) == Running
    && Exchanged(before.log, after.log, before.state.buffers, before.state.readers, round, Client)
    && Exchanged(before.log, after.log, before.state.buffers, before.state.readers, round, Upstream)
    && after.state.readers == before.state.readers - Ends(round.select.readable, Asked(before.state), round.recv)
    && HalfClosed(before.log, after.log)
  }

  /** The sources that `select` is asked for. */
  function Asked(p: State): set<Side>
    requires Client in p.buffers && Upstream in p.buffers
  {
    Open(p.buffers, p.readers)
  }

  /** Nothing is left to read or to send. */
  predicate Drained(p: State)
    requires Client in p.buffers && Upstream in p.buffers
  {
    p.readers == {} && p.buffers[Client] == [] && p.buffers[Upstream] == []
  }

  /** The rounds a pump went through, one moment before the first and one after each. */
  ghost predicate WentOn(moments: seq<Moment>, rounds: seq<Round>) {
    && 0 < |moments| <= |rounds| + 1
    && (forall k | 0 <= k < |moments| :: Fits(moments[k].log, moments[k].state))
    && forall k | 0 <= k < |moments| - 1 :: GoesOn(moments[k], rounds[k], moments[k + 1])
  }

  lemma {:induction false} WentOnOneMore(moments: seq<Moment>, rounds: seq<Round>, next: Moment)
    requires WentOn(moments, rounds) && |moments| <= |rounds|
    requires Fits(next.log, next.state) && GoesOn(moments[|moments| - 1], rounds[|moments| - 1], next)
    ensures WentOn(moments + [next], rounds)
  {
    var after := moments + [next];
    forall k | 0 <= k < |after|
      ensures Fits(after[k].log, after[k].state)
    {
      assert k < |moments| ==> after[k] == moments[k];
    }
    forall k | 0 <= k < |after| - 1
      ensures GoesOn(after[k], rounds[k], after[k + 1])
    {
      assert after[k] == moments[k];
      assert k + 1 < |moments| ==> after[k + 1] == moments[k + 1];
    }
  }

  lemma {:induction false} TakeOne(list: seq<Side>, i: nat)
    requires i < |list|
    ensures list[..i + 1] == list[..i] + [list[i]]
  {
  }

  /** One more ready source leaves the readers when it is due and found at its end. */
  lemma {:induction false} EndsOneMore(
    readers: set<Side>, list: seq<Side>, i: nat, asked: set<Side>, due: set<Side>, recv: Side -> RecvReply)
    requires i < |list| && (list[i] in due <==> list[i] in asked && list[i] !in list[..i])
    ensures readers - Ends(list[..i], asked, recv) - (if list[i] in due && recv(list[i]).End? then {list[i]} else {}) ==
            readers - Ends(list[..i + 1], asked, recv)
    ensures ReadBreaks(list[..i + 1], asked, recv) <==>
            ReadBreaks(list[..i], asked, recv) || (list[i] in asked && recv(list[i]).RecvBroken?)
  {
    TakeOne(list, i);
  }

  // ---------------------------------------------------------------- how long a pump can go on

  /** How much the two peers send in all. */
  datatype Supply = Supply(client: nat, upstream: nat)

  function From(supply: Supply, s: Side): nat {
    if s == Client then supply.client else supply.upstream
  }

  /** What a side has sent, and sends in this round, is no more than it has. */
  predicate SuppliedBy(m: Moment, round: Round, supply: Supply, s: Side)
    requires Client in m.state.buffers && Upstream in m.state.buffers && round.select.Ready?
  {
    |Input(m.log, s) + ReadFrom(s, round.select.readable, Asked(m.state), round.recv)| <= From(supply, s)
  }

  /** No stop, no idle deadline and no error ends the pump in this round. */
  ghost predicate Healthy(m: Moment, round: Round, supply: Supply) {
    && Client in m.state.buffers && Upstream in m.state.buffers
    && EndingOf(m.state, round) in {Complete, Running}
    && (round.select.Ready? ==> SuppliedBy(m, round, supply, Client) && SuppliedBy(m, round, supply, Upstream))
  }

  /** The round serves a socket that `select` was asked for. */
  predicate ServesSide(m: Moment, round: Round, s: Side)
    requires Client in m.state.buffers && Upstream in m.state.buffers && s in m.state.buffers && round.select.Ready?
  {
    || (s in round.select.readable && s in Asked(m.state) && (round.recv(s).Data? || round.recv(s).End?))
    || (s in round.select.writable && m.state.buffers[s] != [] && round.send(s).Took? && round.send(s).n > 0)
  }

  predicate Serves(m: Moment, round: Round) {
    && round.select.Ready? && Client in m.state.buffers && Upstream in m.state.buffers
    && (ServesSide(m, round, Client) || ServesSide(m, round, Upstream))
  }

  /** What a side still has to do: bytes to come from it and to go to it, and its end. */
  function SideWork(m: Moment, supply: Supply, s: Side): int {
    (From(supply, s) - |Input(m.log, s)|) + (From(supply, Peer(s)) - |Output(m.log, s)|)
    + if s in m.state.readers then 1 else 0
  }

  function Work(m: Moment, supply: Supply): int {
    SideWork(m, supply, Client) + SideWork(m, supply, Upstream)
  }

  predicate WithinSupply(m: Moment, supply: Supply) {
    |Input(m.log, Client)| <= supply.client && |Input(m.log, Upstream)| <= supply.upstream
  }

  lemma {:induction false} WorkIsNatural(m: Moment, supply: Supply)
    requires Fits(m.log, m.state) && WithinSupply(m, supply)
    ensures Work(m, supply) >= 0
  {
    assert SideFits(m.log, m.state, Client) && SideFits(m.log, m.state, Upstream);
    assert |Output(m.log, Client)| <= |Input(m.log, Upstream)| && |Output(m.log, Upstream)| <= |Input(m.log, Client)|;
  }

  lemma {:induction false} RoundDoesWork(m: Moment, round: Round, after: Moment, supply: Supply, s: Side)
    requires GoesOn(m, round, after) && s in m.state.buffers
    ensures SideWork(after, supply, s) <= SideWork(m, supply, s) - if ServesSide(m, round, s) then 1 else 0
  {
    assert s == Client || s == Upstream;
    assert Exchanged(m.log, after.log, m.state.buffers, m.state.readers, round, s);
  }

  /** A round does the work it serves. */
  predicate Progresses(m: Moment, round: Round, after: Moment, supply: Supply) {
    Work(after, supply) <= Work(m, supply) - (if Serves(m, round) then 1 else 0) && WithinSupply(after, supply)
  }

  lemma {:induction false} HealthyRoundDoesWork(m: Moment, round: Round, after: Moment, supply: Supply)
    requires GoesOn(m, round, after) && Healthy(m, round, supply)
    ensures Progresses(m, round, after, supply)
  {
    RoundDoesWork(m, round, after, supply, Client);
    RoundDoesWork(m, round, after, supply, Upstream);
  }

  /** How many of the first rounds serve a socket. */
  function Served(moments: seq<Moment>, rounds: seq<Round>, n: nat): nat
    requires n <= |moments| && n <= |rounds|
  {
    if n == 0 then 0
    else Served(moments, rounds, n - 1) + if Serves(moments[n - 1], rounds[n - 1]) then 1 else 0
  }

  ghost predicate AllHealthy(moments: seq<Moment>, rounds: seq<Round>, supply: Supply) {
    && |moments| > 0 && WithinSupply(moments[0], supply)
    && forall k | 0 <= k < |moments| && k < |rounds| :: Healthy(moments[k], rounds[k], supply)
  }

  lemma {:induction false} RoundIsHealthy(moments: seq<Moment>, rounds: seq<Round>, supply: Supply, k: nat)
    requires WentOn(moments, rounds) && AllHealthy(moments, rounds, supply) && k + 1 < |moments|
    ensures GoesOn(moments[k], rounds[k], moments[k + 1]) && Healthy(moments[k], rounds[k], supply)
  {
  }

  lemma {:induction false} ServedIsWorkDone(moments: seq<Moment>, rounds: seq<Round>, supply: Supply, n: nat)
    requires n < |moments| && n <= |rounds| && WithinSupply(moments[0], supply)
    requires forall k | 0 <= k < n :: Progresses(moments[k], rounds[k], moments[k + 1], supply)
    ensures Served(moments, rounds, n) <= Work(moments[0], supply) - Work(moments[n], supply)
    ensures WithinSupply(moments[n], supply)
    decreases n
  {
    if n > 0 {
      ServedIsWorkDone(moments, rounds, supply, n - 1);
      assert Progresses(moments[n - 1], rounds[n - 1], moments[n - 1 + 1], supply);
    }
  }

  /** The rounds of a pump that ended, or went through all of them. */
  ghost predicate Account(moments: seq<Moment>, rounds: seq<Round>, ending: Ending) {
    && WentOn(moments, rounds)
    && if ending == Running then |moments| == |rounds| + 1
       else
         && |moments| <= |rounds|
         && Client in moments[|moments| - 1].state.buffers && Upstream in moments[|moments| - 1].state.buffers
         && ending == EndingOf(moments[|moments| - 1].state, rounds[|moments| - 1])
  }

  /**
   A pump that nothing ends otherwise ends complete: it goes on for no more rounds that serve a socket than there are
   bytes to come, bytes to deliver and ends to see.
   */
  lemma {:induction false} HealthyPumpsComplete(
    moments: seq<Moment>, rounds: seq<Round>, ending: Ending, supply: Supply)
    requires Account(moments, rounds, ending) && AllHealthy(moments, rounds, supply)
    ensures || ending == Complete
            || (ending == Running && Served(moments, rounds, |rounds|) <= Work(moments[0], supply))
  {
    if ending == Running {
      forall k | 0 <= k < |rounds|
        ensures Progresses(moments[k], rounds[k], moments[k + 1], supply)
      {
        RoundIsHealthy(moments, rounds, supply, k);
        HealthyRoundDoesWork(moments[k], rounds[k], moments[k + 1], supply);
      }
      ServedIsWorkDone(moments, rounds, supply, |rounds|);
      WorkIsNatural(moments[|rounds|], supply);
    } else {
      assert Healthy(moments[|moments| - 1], rounds[|moments| - 1], supply);
    }
  }

  /** Until nothing is left to do, `select` is asked for some socket. */
  lemma {:induction false} SomethingIsAskedFor(log: seq<Op>, p: State)
    requires Fits(log, p)
    ensures Drained(p) <==> Asked(p) == {} && Held(p.buffers) == {}
  {
    assert p.buffers[Client] == [] <==> Client !in Held(p.buffers);
    assert p.buffers[Upstream] == [] <==> Upstream !in Held(p.buffers);
    if Held(p.buffers) == {} {
      assert p.readers == Asked(p);
    } else {
      var d :| d in Held(p.buffers);
      assert d == Client || d == Upstream;
    }
  }

  class Forwarder {
    var buffers: map<Side, seq<Byte>>
    var readers: set<Side>
    var writeShutdown: set<Side>
    ghost var log: seq<Op>

    ghost predicate Valid()
      reads this
    {
      Fits(log, State(buffers, readers, writeShutdown))
    }

    constructor ()
      ensures Valid() && log == []
    {
      buffers := map[Client := [], Upstream := []];
      readers := {Client, Upstream};
      writeShutdown := {};
      log := [];
    }

    /** Half-close a side whose peer has ended and whose buffer is empty. */
    method ShutDrained(d: Side)
      requires Valid()
      modifies this`writeShutdown, this`log
      ensures Valid()
      ensures var now := Peer(d) !in readers && buffers[d] == [] && d !in old(writeShutdown);
              && writeShutdown == old(writeShutdown) + (if now then {d} else {})
              && log == old(log) + if now then [Shut(d)] else []
      ensures Moved(old(log), log, d, [], [])
    {
      if Peer(d) !in readers && buffers[d] == [] && d !in writeShutdown {
        ShutFits(log, State(buffers, readers, writeShutdown), d);
        log := log + [Shut(d)];
        writeShutdown := writeShutdown + {d};
      }
    }

    /** One ready source: read a chunk, or note its end. */
    method Read(source: Side, reply: RecvReply) returns (broken: bool)
      requires Valid() && source in readers && |buffers[Peer(source)]| < MAX_BUFFER_BYTES
      modifies this`buffers, this`readers, this`log
      ensures Valid() && broken == reply.RecvBroken?
      ensures old(log) <= log && readers == old(readers) - if reply.End? then {source} else {}
      ensures Moved(old(log), log, source, if reply.Data? then reply.chunk else [], [])
      ensures source in buffers && buffers[source] == old(buffers[source])
      ensures forall sides :: Waiting(old(buffers), sides) ==> Waiting(buffers, sides)
    {
      ghost var p := State(buffers, readers, writeShutdown);
      match reply
      case RecvWouldBlock => return false;
      case RecvBroken => return true;
      case End =>
        EofFits(log, p, source);
        log := log + [Eof(source)];
        readers := readers - {source};
        return false;
      case Data(chunk) =>
        ReceivedFits(log, p, source, chunk);
        log := log + [Received(source, chunk)];
        buffers := buffers[Peer(source) := buffers[Peer(source)] + chunk];
        return false;
    }

    /** One ready destination: send the front of its buffer, and drop what was taken. */
    method Write(destination: Side, reply: SendReply) returns (broken: bool)
      requires Valid() && buffers[destination] != []
      modifies this`buffers, this`log
      ensures Valid() && broken == WriteBreaks(reply)
      ensures old(log) <= log
      ensures Moved(old(log), log, destination, [], Taken(reply, old(buffers[destination])))
      ensures Peer(destination) in buffers && buffers[Peer(destination)] == old(buffers[Peer(destination)])
    {
      match reply
      case SendWouldBlock => return false;
      case SendBroken => return true;
      case Took(n) =>
        if n <= 0 {
          return true;
        }
        var taken := if n > |buffers[destination]| then |buffers[destination]| else n;
        SentFits(log, State(buffers, readers, writeShutdown), destination, taken);
        log := log + [Sent(destination, buffers[destination][..taken])];
        buffers := buffers[destination := buffers[destination][taken..]];
        return false;
    }

    /** A ready source is read once, when it was asked for. */
    method ReadWhenDue(source: Side, recv: Side -> RecvReply, due: set<Side>, ghost waiting: set<Side>)
      returns (broken: bool)
      requires Valid() && Waiting(buffers, waiting) && MayRead(buffers, readers, due)
      modifies this`buffers, this`readers, this`log
      ensures Valid() && old(log) <= log && Waiting(buffers, waiting) && MayRead(buffers, readers, due - {source})
      ensures Moved(old(log), log, source, if source in due && recv(source).Data? then recv(source).chunk else [], [])
      ensures readers == old(readers) - if source in due && recv(source).End? then {source} else {}
      ensures broken <==> source in due && recv(source).RecvBroken?
    {
      broken := false;
      if source in due {
        broken := Read(source, recv(source));
      }
    }

    /** A ready destination is written once, when it was asked for. */
    method WriteWhenDue(destination: Side, send: Side -> SendReply, due: set<Side>) returns (broken: bool)
      requires Valid() && Waiting(buffers, due)
      modifies this`buffers, this`log
      ensures Valid() && old(log) <= log && Waiting(buffers, due - {destination})
      ensures Moved(old(log), log, destination, [],
                    if destination in due then Taken(send(destination), old(buffers[destination])) else [])
      ensures forall d | d in due - {destination} :: buffers[d] == old(buffers[d])
      ensures broken <==> destination in due && WriteBreaks(send(destination))
    {
      broken := false;
      if destination in due {
        assert forall d | d in due - {destination} :: d == Peer(destination);
        broken := Write(destination, send(destination));
      }
    }

    /** The sources `select` reports, among those that were asked for. */
    method ReadReady(readable: seq<Side>, recv: Side -> RecvReply, asked: set<Side>, ghost waiting: set<Side>)
      returns (broken: bool)
      requires Valid() && Waiting(buffers, waiting) && MayRead(buffers, readers, asked)
      modifies this`buffers, this`readers, this`log
      ensures Valid() && old(log) <= log && Waiting(buffers, waiting)
      ensures !broken ==> exists due :: ReadSoFar(old(log), log, readable, asked, due, recv)
      ensures !broken ==> readers == old(readers) - Ends(readable, asked, recv)
      ensures broken <==> ReadBreaks(readable, asked, recv)
    {
      var due := asked;
      ghost var start := log;
      assert ReadSoFar(start, start, [], asked, asked, recv);
      var i := 0;
      while i < |readable|
        invariant 0 <= i <= |readable|
        invariant Valid() && start <= log && Waiting(buffers, waiting) && MayRead(buffers, readers, due)
        invariant ReadSoFar(start, log, readable[..i], asked, due, recv)
        invariant readers == old(readers) - Ends(readable[..i], asked, recv)
        invariant !ReadBreaks(readable[..i], asked, recv)
      {
        ghost var before := log;
        broken := ReadWhenDue(readable[i], recv, due, waiting);
        if broken {
          assert readable[i] in asked && readable[i] in readable;
          return true;
        }
        ReadOne(start, before, log, readable[..i], readable[i], asked, due, recv);
        EndsOneMore(old(readers), readable, i, asked, due, recv);
        due := due - {readable[i]};
        TakeOne(readable, i);
        i := i + 1;
      }
      assert readable[..i] == readable;
      broken := false;
    }

    /** The destinations `select` reports, among those that were asked for. */
    method WriteReady(writable: seq<Side>, send: Side -> SendReply, asked: set<Side>) returns (broken: bool)
      requires Valid() && Waiting(buffers, asked)
      modifies this`buffers, this`log
      ensures Valid() && old(log) <= log
      ensures !broken ==>
                && Gained(old(log), log, Client, [], WrittenTo(Client, writable, asked, send, old(buffers[Client])))
                && Gained(
                     old(log), log, Upstream, [], WrittenTo(Upstream, writable, asked, send, old(buffers[Upstream])))
      ensures broken <==> SendBreaks(writable, asked, send)
    {
      var due := asked;
      ghost var held := buffers;
      for i := 0 to |writable|
        invariant Valid() && old(log) <= log && Waiting(buffers, due)
        invariant WrittenSoFar(old(log), log, writable[..i], asked, due, send, held)
        invariant forall d | d in due :: buffers[d] == held[d]
        invariant !SendBreaks(writable[..i], asked, send)
      {
        ghost var before := log;
        broken := WriteWhenDue(writable[i], send, due);
        if broken {
          assert writable[i] in asked && writable[i] in writable;
          return true;
        }
        assert forall d :: d in writable[..i + 1] <==> d in writable[..i] || d == writable[i];
        WriteOne(old(log), before, log, writable[..i], writable[i], asked, due, send, held);
        due := due - {writable[i]};
        TakeOne(writable, i);
      }
      assert writable[..|writable|] == writable;
      broken := false;
    }

    /** Half-close what is drained; `complete` when nothing is left to read or to send. */
    method ShutAllDrained() returns (complete: bool)
      requires Valid()
      modifies this`writeShutdown, this`log
      ensures Valid() && old(log) <= log
      ensures complete <==> readers == {} && buffers[Client] == [] && buffers[Upstream] == []
      ensures complete ==> Delivered(log, Client) && Delivered(log, Upstream)
      ensures Moved(old(log), log, Client, [], []) && HalfClosed(old(log), log)
    {
      DueWhenDrained(log, State(buffers, readers, writeShutdown), Client);
      DueWhenDrained(log, State(buffers, readers, writeShutdown), Upstream);
      ShutDrained(Client);
      ShutDrained(Upstream);
      complete := readers == {} && buffers[Client] == [] && buffers[Upstream] == [];
      if complete {
        CompleteMeansDelivered(log, State(buffers, readers, writeShutdown), Client);
        CompleteMeansDelivered(log, State(buffers, readers, writeShutdown), Upstream);
      }
    }

    ghost function Now(): Moment
      reads this
    {
      Moment(log, State(buffers, readers, writeShutdown))
    }

    /** One turn of the loop. */
    method Turn(round: Round) returns (ending: Ending)
      requires Valid()
      modifies this
      ensures Valid() && old(log) <= log
      ensures ending == Complete <==>
              !round.stop && old(readers) == {} && old(buffers[Client]) == [] && old(buffers[Upstream]) == []
      ensures ending == Complete ==> Delivered(log, Client) && Delivered(log, Upstream)
      ensures ending == Running ==> GoesOn(old(Now()), round, Now())
      ensures !round.stop ==> HalfClosed(old(log), log)
      ensures ending == EndingOf(old(Now()).state, round)
      ensures round.stop ==> ending == Stopped && log == old(log)
    {
      if round.stop {
        return Stopped;
      }
      var complete := ShutAllDrained();
      if complete {
        return Complete;
      }
      if round.idle {
        return IdleExpired;
      }
      if round.select.SelectError? {
        return if round.select.stopped then Stopped else SelectFailed;
      }
      ghost var shut := log;
      var broken := Exchange(round);
      ending := if broken then Broken else Running;
      if !broken {
        ShutThenExchanged(old(log), shut, log, old(buffers), old(readers), round);
      }
    }

    /** What `select` found ready is read, then written: a full chunk from each source, a front of each buffer. */
    method Exchange(round: Round) returns (broken: bool)
      requires Valid() && round.select.Ready?
      modifies this`buffers, this`readers, this`log
      ensures Valid() && old(log) <= log
      ensures !broken ==> forall s: Side :: Exchanged(old(log), log, old(buffers), old(readers), round, s)
      ensures !broken ==> readers == old(readers) - Ends(round.select.readable, Open(old(buffers), old(readers)),
                                                         round.recv)
      ensures broken <==> || ReadBreaks(round.select.readable, Open(old(buffers), old(readers)), round.recv)
                          || SendBreaks(round.select.writable, Held(old(buffers)), round.send)
    {
      var open := Open(buffers, readers);
      var waiting := Held(buffers);
      ghost var before, p := log, State(buffers, readers, writeShutdown);
      broken := ReadReady(round.select.readable, round.recv, open, waiting);
      if broken {
        return;
      }
      ghost var between, q := log, State(buffers, readers, writeShutdown);
      broken := WriteReady(round.select.writable, round.send, waiting);
      if !broken {
        forall s: Side
          ensures Exchanged(before, log, p.buffers, p.readers, round, s)
        {
          assert s == Client || s == Upstream;
          ExchangeComposes(before, p, between, q, log, round, s);
        }
      }
    }

    /**
     `_forward`, for as many turns as are given. Every round it goes through moves exactly what it found ready; it
     stops going through them as soon as a round ends it; and it ends complete only when both peers ended, both
     streams were delivered whole and both sides half-closed.
     */
    method Forward(rounds: seq<Round>) returns (ending: Ending, ghost moments: seq<Moment>)
      requires Valid()
      modifies this
      ensures Valid() && old(log) <= log
      ensures Account(moments, rounds, ending) && moments[0] == old(Now())
      ensures ending == Running ==> moments[|rounds|] == Now()
      ensures ending == Complete ==> Delivered(log, Client) && Delivered(log, Upstream)
    {
      moments := [Now()];
      for i := 0 to |rounds|
        invariant Valid() && old(log) <= log
        invariant WentOn(moments, rounds) && |moments| == i + 1 && moments[0] == old(Now()) && moments[i] == Now()
      {
        ending := Turn(rounds[i]);
        if ending != Running {
          return;
        }
        WentOnOneMore(moments, rounds, Now());
        moments := moments + [Now()];
      }
      ending := Running;
    }
  }
}
