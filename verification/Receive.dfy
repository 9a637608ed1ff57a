/**
  Reading from a socket: SOCKFS's recvmsg with the datagram patch, the pending error
  it shares with getsockopt(SO_ERROR), its agreement with wasm_poll_socket, and the
  blocking wasm_recvfrom built on it.
*/
module Receive {
  import opened Common
  import P = PollSocket
  import S = SocketOptions
  import H = SocketHistory

  type Message = seq<byte>

  /** The receiving side of a socket; `peer` is the readyState of its destination's WebSocket. */
  datatype Sock = Sock(kind: SockType, queue: seq<Message>, error: Option<Errno>, peer: Option<Ready>)

  datatype Recv = Data(bytes: Message) | Eof | Failed(errno: Errno)

  function Min(a: int, b: int): (m: int) { if a < b then a else b }

  /** SOCKFS's recvmsg: datagrams are cut to the length, stream data left over is requeued. */
  function SockfsRecv(s: Sock, len: nat): (r: (Recv, Sock)) {
    if s.queue == [] then
      if s.kind == DatagramSock then (Failed(EAGAIN), s)
      else if s.peer.None? then (Failed(ENOTCONN), s)
      else if Ending(s.peer.value) then (Eof, s)
      else (Failed(EAGAIN), s)
    else
      var n := Min(len, |s.queue[0]|);
      var rest := s.queue[0][n..];
      (Data(s.queue[0][..n]),
       s.(queue := if s.kind == StreamSock && rest != [] then [rest] + s.queue[1..] else s.queue[1..]))
  }

  /** The patched recvmsg: an empty datagram socket reports its pending error once. */
  function RecvMsg(s: Sock, len: nat): (r: (Recv, Sock)) {
    if s.kind == DatagramSock && s.queue == [] && s.error.Some?
    then (Failed(s.error.value), s.(error := None))
    else SockfsRecv(s, len)
  }

  /** getsockopt(SO_ERROR): cleared even when the caller's buffer is too short. */
  function SoError(s: Sock, len: int): (r: (Option<Option<Errno>>, Sock)) {
    (if len < 4 then None else Some(s.error), s.(error := None))
  }

  datatype Op =
    | Arrive(msg: Message)
    | ErrorEvent
    | PeerMoves(ready: Ready)
    | CallRecv(len: nat)
    | CallSoError(buffer: int)

  function Apply(s: Sock, op: Op): (r: Sock) {
    match op
    case Arrive(msg) => s.(queue := s.queue + [msg])
    case ErrorEvent => s.(error := Some(ECONNREFUSED))
    case PeerMoves(ready) => s.(peer := Some(ready))
    case CallRecv(len) => RecvMsg(s, len).1
    case CallSoError(len) => SoError(s, len).1
  }

  function Run(kind: SockType, ops: seq<Op>): (s: Sock) {
    if ops == [] then Sock(kind, [], None, None)
    else Apply(Run(kind, ops[..|ops| - 1]), ops[|ops| - 1])
  }

  // ---------------------------------------------------------------- datagrams

  function Arrived(ops: seq<Op>): (ms: seq<Message>) {
    if ops == [] then []
    else
      var before := Arrived(ops[..|ops| - 1]);
      if ops[|ops| - 1].Arrive? then before + [ops[|ops| - 1].msg] else before
  }

  /** How many reads of a history found a datagram: each takes the next one. */
  function Reads(ops: seq<Op>): (n: nat)
    ensures n <= |Arrived(ops)|
  {
    if ops == [] then 0
    else
      var before := ops[..|ops| - 1];
      if ops[|ops| - 1].CallRecv? && Reads(before) < |Arrived(before)| then Reads(before) + 1 else Reads(before)
  }

  /** Whether an error is pending after a history: raised and not yet handed over or swallowed. */
  predicate Pending(ops: seq<Op>) {
    if ops == [] then false
    else
      var before := ops[..|ops| - 1];
      match ops[|ops| - 1]
      case ErrorEvent => true
      case CallSoError(_) => false
      case CallRecv(_) => Pending(before) && Reads(before) < |Arrived(before)|
      case _ => Pending(before)
  }

  /** One operation on the datagrams not yet read. */
  lemma {:induction false} DatagramStep(s: Sock, all: seq<Message>, k: nat, op: Op)
    requires s.kind == DatagramSock && k <= |all| && s.queue == all[k..]
    ensures
      var t := Apply(s, op);
      && t.kind == DatagramSock
      && (op.Arrive? ==> t.queue == (all + [op.msg])[k..])
      && (op.CallRecv? && k < |all| ==> t.queue == all[k + 1..])
      && (!op.Arrive? && !(op.CallRecv? && k < |all|) ==> t.queue == all[k..])
  {
  }

  lemma {:induction false} DatagramHistory(ops: seq<Op>)
    ensures Run(DatagramSock, ops).kind == DatagramSock
    ensures Run(DatagramSock, ops).queue == Arrived(ops)[Reads(ops)..]
    ensures Run(DatagramSock, ops).error == if Pending(ops) then Some(ECONNREFUSED) else None
  {
    if ops != [] {
      var before := ops[..|ops| - 1];
      DatagramHistory(before);
      DatagramStep(Run(DatagramSock, before), Arrived(before), Reads(before), ops[|ops| - 1]);
    }
  }

  /**
    A datagram read after any history: the k-th successful one returns the k-th
    datagram that arrived, cut to the length asked for. The pending error is reported
    only once every datagram that arrived has been read, and EAGAIN only when
    neither is left.
  */
  lemma {:induction false} DatagramRead(ops: seq<Op>, len: nat)
    ensures
      var r := RecvMsg(Run(DatagramSock, ops), len).0;
      var k := Reads(ops);
      && (k < |Arrived(ops)| ==> r == Data(Arrived(ops)[k][..Min(len, |Arrived(ops)[k]|)]))
      && (k == |Arrived(ops)| ==> r == Failed(if Pending(ops) then ECONNREFUSED else EAGAIN))
  {
    DatagramHistory(ops);
  }

  /** How a history disposed of the errors it raised. */
  datatype Ledger = Ledger(raised: nat, reported: nat, swallowed: nat, replaced: nat)

  /** Counts the answers actually given: by recvmsg, by SO_ERROR, lost to a short buffer, overwritten. */
  function Account(ops: seq<Op>): (l: Ledger) {
    if ops == [] then Ledger(0, 0, 0, 0)
    else
      var before := ops[..|ops| - 1];
      var l, s := Account(before), Run(DatagramSock, before);
      match ops[|ops| - 1]
      case ErrorEvent =>
        l.(raised := l.raised + 1, replaced := l.replaced + if s.error.Some? then 1 else 0)
      case CallRecv(len) =>
        var answer := RecvMsg(s, len).0;
        if answer.Failed? && answer.errno != EAGAIN then l.(reported := l.reported + 1) else l
      case CallSoError(len) =>
        var answer := SoError(s, len).0;
        if answer.None? then (if s.error.Some? then l.(swallowed := l.swallowed + 1) else l)
        else if answer.value.Some? then l.(reported := l.reported + 1)
        else l
      case _ => l
  }

  /**
    Each error is delivered at most once across recvmsg and SO_ERROR: the answers that
    report an error, those lost, those overwritten by a newer one and the one pending
    add up to the errors raised.
  */
  lemma {:induction false} ErrorsAddUp(ops: seq<Op>)
    ensures
      var l := Account(ops);
      l.raised == l.reported + l.swallowed + l.replaced + (if Pending(ops) then 1 else 0)
  {
    if ops != [] {
      var before := ops[..|ops| - 1];
      ErrorsAddUp(before);
      DatagramHistory(before);
    }
  }

  // ---------------------------------------------------------------- streams

  function Flat(ms: seq<Message>): (b: seq<byte>) {
    if ms == [] then [] else ms[0] + Flat(ms[1..])
  }

  lemma {:induction false} FlatAppend(ms: seq<Message>, m: Message)
    ensures Flat(ms + [m]) == Flat(ms) + m
  {
    if ms == [] {
      assert [m][1..] == [];
    } else {
      FlatAppend(ms[1..], m);
      assert (ms + [m])[1..] == ms[1..] + [m];
    }
  }

  /** The bytes an operation hands to the caller. */
  function Returned(s: Sock, op: Op): (b: seq<byte>) {
    if op.CallRecv? && RecvMsg(s, op.len).0.Data? then RecvMsg(s, op.len).0.bytes else []
  }

  /** The bytes the reads of a history returned, in order. */
  function Got(ops: seq<Op>): (b: seq<byte>) {
    if ops == [] then []
    else Got(ops[..|ops| - 1]) + Returned(Run(StreamSock, ops[..|ops| - 1]), ops[|ops| - 1])
  }

  /** The bytes an operation puts into the queue. */
  function Incoming(op: Op): (b: seq<byte>) {
    if op.Arrive? then op.msg else []
  }

  lemma {:induction false} FlatCons(m: Message, ms: seq<Message>)
    ensures Flat([m] + ms) == m + Flat(ms)
  {
    assert ([m] + ms)[1..] == ms;
  }

  lemma {:induction false} RecvSplitsStream(s: Sock, len: nat)
    requires s.kind == StreamSock && s.queue != []
    ensures
      var (r, t) := RecvMsg(s, len);
      r.Data? && t.kind == StreamSock && Flat(s.queue) == r.bytes + Flat(t.queue)
  {
    var first, later := s.queue[0], s.queue[1..];
    var n := Min(len, |first|);
    var rest := first[n..];
    assert Flat(s.queue) == first + Flat(later);
    assert first == first[..n] + rest;
    FlatCons(rest, later);
    if rest == [] {
      assert first[..n] == first;
    } else {
      assert first + Flat(later) == first[..n] + (rest + Flat(later));
    }
  }

  /** An operation takes from the front of the stream what it returns, and adds at its end. */
  lemma {:induction false} StreamStep(s: Sock, op: Op)
    requires s.kind == StreamSock
    ensures Apply(s, op).kind == StreamSock
    ensures Flat(s.queue) + Incoming(op) == Returned(s, op) + Flat(Apply(s, op).queue)
  {
    if op.Arrive? {
      FlatAppend(s.queue, op.msg);
    } else if op.CallRecv? && s.queue != [] {
      RecvSplitsStream(s, op.len);
    }
  }

  lemma {:induction false} ArrivedStep(ops: seq<Op>)
    requires ops != []
    ensures Flat(Arrived(ops)) == Flat(Arrived(ops[..|ops| - 1])) + Incoming(ops[|ops| - 1])
  {
    if ops[|ops| - 1].Arrive? {
      FlatAppend(Arrived(ops[..|ops| - 1]), ops[|ops| - 1].msg);
    }
  }

  /** No byte of a stream is lost, repeated or reordered, whatever the reads' lengths. */
  lemma {:induction false} StreamConserved(ops: seq<Op>)
    ensures Run(StreamSock, ops).kind == StreamSock
    ensures Flat(Arrived(ops)) == Got(ops) + Flat(Run(StreamSock, ops).queue)
  {
    if ops != [] {
      var before, op := ops[..|ops| - 1], ops[|ops| - 1];
      var s := Run(StreamSock, before);
      StreamConserved(before);
      ArrivedStep(ops);
      StreamStep(s, op);
      Regroup(Got(before), Flat(s.queue), Incoming(op), Returned(s, op), Flat(Apply(s, op).queue));
    }
  }

  lemma {:induction false} Regroup(got: seq<byte>, queued: seq<byte>, more: seq<byte>, taken: seq<byte>, left: seq<byte>)
    requires queued + more == taken + left
    ensures got + queued + more == got + taken + left
  {
    assert got + queued + more == got + (queued + more);
    assert got + taken + left == got + (taken + left);
  }

  /** Where a stream's reader stands: which arrived message is in front, and how much of it was read. */
  datatype Place = Place(msg: nat, read: nat)

  /** What a read of `len` bytes may take: up to that many, but never past the end of a message. */
  function Share(arrived: seq<Message>, at: Place, len: nat): (n: nat)
    requires at.msg < |arrived| && at.read <= |arrived[at.msg]|
    ensures n <= len && at.read + n <= |arrived[at.msg]|
    ensures n == len || at.read + n == |arrived[at.msg]|
  {
    Min(len, |arrived[at.msg]| - at.read)
  }

  ghost predicate Stands(arrived: seq<Message>, at: Place) {
    && at.msg <= |arrived|
    && (at.msg == |arrived| ==> at.read == 0)
    && (at.msg < |arrived| ==> at.read <= |arrived[at.msg]|)
  }

  /** A read moves on in the message in front, or past its end. */
  function NextPlace(arrived: seq<Message>, at: Place, op: Op): (next: Place)
    requires Stands(arrived, at)
    ensures Stands(arrived, next)
  {
    if !op.CallRecv? || at.msg == |arrived| then at
    else if at.read + Share(arrived, at, op.len) == |arrived[at.msg]| then Place(at.msg + 1, 0)
    else Place(at.msg, at.read + Share(arrived, at, op.len))
  }

  /** The place after a history, from the lengths of its messages and reads alone. */
  function PlaceOf(ops: seq<Op>): (at: Place)
    ensures Stands(Arrived(ops), at)
  {
    if ops == [] then Place(0, 0)
    else NextPlace(Arrived(ops[..|ops| - 1]), PlaceOf(ops[..|ops| - 1]), ops[|ops| - 1])
  }

  /** The WebSocket's readyState after a history, if there was ever one. */
  function PeerOf(ops: seq<Op>): (peer: Option<Ready>) {
    if ops == [] then None
    else if ops[|ops| - 1].PeerMoves? then Some(ops[|ops| - 1].ready)
    else PeerOf(ops[..|ops| - 1])
  }

  function Unread(arrived: seq<Message>, at: Place): (queue: seq<Message>)
    requires Stands(arrived, at)
  {
    if at.msg == |arrived| then [] else [arrived[at.msg][at.read..]] + arrived[at.msg + 1..]
  }

  lemma {:induction false} StreamArrives(arrived: seq<Message>, at: Place, msg: Message)
    requires Stands(arrived, at)
    ensures Stands(arrived + [msg], at) && Unread(arrived + [msg], at) == Unread(arrived, at) + [msg]
  {
    if at.msg == |arrived| {
      assert msg[0..] == msg;
    }
  }

  /** A read from a queue with `front` at its head. */
  lemma {:induction false} FrontTaken(s: Sock, front: Message, later: seq<Message>, len: nat)
    requires s.kind == StreamSock && s.queue == [front] + later
    ensures
      var n := Min(len, |front|);
      RecvMsg(s, len) == (Data(front[..n]), s.(queue := if n < |front| then [front[n..]] + later else later))
  {
    assert s.queue[0] == front && s.queue[1..] == later;
  }

  /** What is unread once a message has been read to its end. */
  lemma {:induction false} UnreadNext(arrived: seq<Message>, k: nat)
    requires k < |arrived|
    ensures Unread(arrived, Place(k + 1, 0)) == arrived[k + 1..]
  {
    if k + 1 < |arrived| {
      assert arrived[k + 1][0..] == arrived[k + 1];
      assert arrived[k + 1..] == [arrived[k + 1]] + arrived[k + 2..];
    }
  }

  lemma {:induction false} SliceOfRest(m: Message, j: nat, n: nat)
    requires j + n <= |m|
    ensures m[j..][..n] == m[j..j + n] && m[j..][n..] == m[j + n..]
  {
  }

  /** What is unread after a read, in terms of the message in front. */
  lemma {:induction false} UnreadAfter(arrived: seq<Message>, at: Place, len: nat)
    requires Stands(arrived, at) && at.msg < |arrived|
    ensures
      var n, front, later := Share(arrived, at, len), arrived[at.msg][at.read..], arrived[at.msg + 1..];
      Unread(arrived, NextPlace(arrived, at, CallRecv(len))) == if n < |front| then [front[n..]] + later else later
  {
    var n, m := Share(arrived, at, len), arrived[at.msg];
    SliceOfRest(m, at.read, n);
    if at.read + n == |m| {
      UnreadNext(arrived, at.msg);
    }
  }

  lemma {:induction false} StreamTakes(s: Sock, arrived: seq<Message>, at: Place, len: nat)
    requires s.kind == StreamSock && Stands(arrived, at) && at.msg < |arrived| && s.queue == Unread(arrived, at)
    ensures RecvMsg(s, len).0 == Data(arrived[at.msg][at.read..at.read + Share(arrived, at, len)])
    ensures RecvMsg(s, len).1 == s.(queue := Unread(arrived, NextPlace(arrived, at, CallRecv(len))))
  {
    SliceOfRest(arrived[at.msg], at.read, Share(arrived, at, len));
    UnreadAfter(arrived, at, len);
    FrontTaken(s, arrived[at.msg][at.read..], arrived[at.msg + 1..], len);
  }

  lemma {:induction false} ReadMovesOn(s: Sock, arrived: seq<Message>, at: Place, len: nat)
    requires s.kind == StreamSock && Stands(arrived, at) && s.queue == Unread(arrived, at)
    ensures RecvMsg(s, len).1 == s.(queue := Unread(arrived, NextPlace(arrived, at, CallRecv(len))))
  {
    if at.msg < |arrived| {
      StreamTakes(s, arrived, at, len);
    }
  }

  /** One operation on the stream not yet read. */
  lemma {:induction false} StreamMovesOn(s: Sock, arrived: seq<Message>, at: Place, op: Op)
    requires s.kind == StreamSock && Stands(arrived, at) && s.queue == Unread(arrived, at)
    ensures
      var t := Apply(s, op);
      && t.kind == StreamSock && t.peer == (if op.PeerMoves? then Some(op.ready) else s.peer)
      && (op.Arrive? ==> Stands(arrived + [op.msg], at) && t.queue == Unread(arrived + [op.msg], at))
      && (!op.Arrive? ==> t.queue == Unread(arrived, NextPlace(arrived, at, op)))
  {
    match op
    case Arrive(msg) => StreamArrives(arrived, at, msg);
    case CallRecv(len) => ReadMovesOn(s, arrived, at, len);
    case ErrorEvent =>
    case PeerMoves(_) =>
    case CallSoError(_) =>
  }

  lemma {:induction false} StreamHistory(ops: seq<Op>)
    ensures Run(StreamSock, ops).kind == StreamSock
    ensures Run(StreamSock, ops).peer == PeerOf(ops)
    ensures Run(StreamSock, ops).queue == Unread(Arrived(ops), PlaceOf(ops))
  {
    if ops != [] {
      var before := ops[..|ops| - 1];
      StreamHistory(before);
      StreamMovesOn(Run(StreamSock, before), Arrived(before), PlaceOf(before), ops[|ops| - 1]);
    }
  }

  lemma {:induction false} NextBytes(all: seq<byte>, got: seq<byte>, taken: seq<byte>, left: seq<byte>)
    requires all == got + (taken + left)
    ensures |got| + |taken| <= |all| && all[|got|..|got| + |taken|] == taken
  {
  }

  /** Whatever a read returns is what comes next in the stream. */
  lemma {:induction false} ReadIsNext(ops: seq<Op>, len: nat)
    requires Run(StreamSock, ops).queue != []
    ensures
      var r, got, all := RecvMsg(Run(StreamSock, ops), len).0, Got(ops), Flat(Arrived(ops));
      r.Data? && |got| + |r.bytes| <= |all| && r.bytes == all[|got|..|got| + |r.bytes|]
  {
    var s := Run(StreamSock, ops);
    StreamConserved(ops);
    RecvSplitsStream(s, len);
    NextBytes(Flat(Arrived(ops)), Got(ops), RecvMsg(s, len).0.bytes, Flat(RecvMsg(s, len).1.queue));
  }

  lemma {:induction false} AllRead(ops: seq<Op>)
    requires Run(StreamSock, ops).queue == []
    ensures Got(ops) == Flat(Arrived(ops))
  {
    StreamConserved(ops);
    assert Got(ops) + [] == Got(ops);
  }

  /**
    The right answer to a stream read. While a message is unread: the bytes that come
    next, as many as were asked for or to the end of the message in front, so at least
    one if both have any. With nothing unread the answer tells the state of the
    connection: no peer, EOF if it is ending, and EAGAIN otherwise.
  */
  ghost predicate RightAnswer(r: Recv, arrived: seq<Message>, at: Place, peer: Option<Ready>, len: nat)
    requires Stands(arrived, at)
  {
    if at.msg < |arrived| then r == Data(arrived[at.msg][at.read..at.read + Share(arrived, at, len)])
    else if peer.None? then r == Failed(ENOTCONN)
    else r == if Ending(peer.value) then Eof else Failed(EAGAIN)
  }

  lemma {:induction false} StreamAnswer(s: Sock, arrived: seq<Message>, at: Place, len: nat)
    requires s.kind == StreamSock && Stands(arrived, at) && s.queue == Unread(arrived, at)
    ensures RightAnswer(RecvMsg(s, len).0, arrived, at, s.peer, len)
  {
    if at.msg < |arrived| {
      StreamTakes(s, arrived, at, len);
    }
  }

  /** After any history a stream read gives the right answer. */
  lemma {:induction false} StreamRead(ops: seq<Op>, len: nat)
    ensures RightAnswer(RecvMsg(Run(StreamSock, ops), len).0, Arrived(ops), PlaceOf(ops), PeerOf(ops), len)
  {
    StreamHistory(ops);
    StreamAnswer(Run(StreamSock, ops), Arrived(ops), PlaceOf(ops), len);
  }

  /** The reader's place is the number of bytes it got: none is left exactly at the end. */
  lemma {:induction false} StreamReadsOn(ops: seq<Op>, len: nat)
    ensures
      var r, got, all := RecvMsg(Run(StreamSock, ops), len).0, Got(ops), Flat(Arrived(ops));
      if PlaceOf(ops).msg < |Arrived(ops)|
      then r.Data? && |got| + |r.bytes| <= |all| && r.bytes == all[|got|..|got| + |r.bytes|]
      else got == all
  {
    StreamHistory(ops);
    if PlaceOf(ops).msg < |Arrived(ops)| {
      ReadIsNext(ops, len);
    } else {
      AllRead(ops);
    }
  }

  // ---------------------------------------------------------------- agreement with poll

  function ViewOf(s: Sock, webSockets: seq<Ready>): (v: P.View) {
    P.View(s.kind, false, [], |s.queue|, s.error.Some?, webSockets)
  }

  /** "Ready now", as poll answers it. */
  predicate PollsReady(s: Sock, webSockets: seq<Ready>, want: P.Want, timeout: int) {
    P.Decide(ViewOf(s, webSockets), want, timeout) == P.WakeNow(1)
  }

  /**
    A read poll of a datagram socket is right about the next recvmsg exactly unless an
    error is pending behind an empty queue while no peer WebSocket is closing: then
    poll waits although recvmsg has something to report. In particular it is always
    right with a closing or closed peer.
  */
  lemma {:induction false} DatagramPollAgrees(s: Sock, webSockets: seq<Ready>, want: P.Want, timeout: int, len: nat)
    requires s.kind == DatagramSock && P.Readable(want) && s.error != Some(EAGAIN)
    ensures
      var wouldRead := RecvMsg(s, len).0 != Failed(EAGAIN);
      var ending := P.SomeEnding(ViewOf(s, webSockets));
      && ((PollsReady(s, webSockets, want, timeout) == wouldRead)
          <==> !(s.queue == [] && s.error.Some? && !ending))
      && (ending ==> PollsReady(s, webSockets, want, timeout) == wouldRead)
  {
  }

  /** A connected stream socket: with its peer ending poll is ready, and so is the read (data or EOF). */
  lemma {:induction false} StreamPollAgrees(s: Sock, want: P.Want, timeout: int, len: nat)
    requires s.kind == StreamSock && P.Readable(want) && s.peer.Some?
    ensures PollsReady(s, [s.peer.value], want, timeout) == (RecvMsg(s, len).0 != Failed(EAGAIN))
  {
    assert [s.peer.value][0] == s.peer.value;
  }

  // ---------------------------------------------------------------- wasm_recvfrom

  /** What decides whether recvfrom may wait, and for how long (SO_RCVTIMEO in ms). */
  datatype Config = Config(nonBlocking: bool, dontWait: bool, receiveTimeout: Option<nat>)

  /** Between two attempts the world moves on, and the clock (in microseconds) advances. */
  datatype Gap = Gap(world: seq<Op>, micros: nat)

  /** The outcome over a finite stretch of time: None while still suspended. */
  datatype Outcome = Outcome(result: Option<Recv>, sock: Sock)

  function World(s: Sock, ops: seq<Op>): (r: Sock)
    decreases |ops|
  {
    if ops == [] then s else World(Apply(s, ops[0]), ops[1..])
  }

  predicate TimedOut(cfg: Config, start: nat, now: nat) {
    cfg.receiveTimeout.Some? && cfg.receiveTimeout.value > 0
    && now / 1000 - start / 1000 >= cfg.receiveTimeout.value
  }

  /** The `poll` closure, one attempt per gap. */
  function Attempts(s: Sock, len: nat, cfg: Config, start: nat, gaps: seq<Gap>): (o: Outcome)
    decreases |gaps|
  {
    if gaps == [] then Outcome(None, s)
    else
      var w := World(s, gaps[0].world);
      var (r, t) := RecvMsg(w, len);
      if r != Failed(EAGAIN) then Outcome(Some(r), t)
      else if TimedOut(cfg, start, gaps[0].micros) then Outcome(Some(r), t)
      else Attempts(t, len, cfg, start, gaps[1..])
  }

  function RecvFrom(s: Sock, len: nat, cfg: Config, start: nat, gaps: seq<Gap>): (o: Outcome) {
    var (r, t) := RecvMsg(s, len);
    if r != Failed(EAGAIN) || cfg.nonBlocking || cfg.dontWait then Outcome(Some(r), t)
    else Attempts(t, len, cfg, start, gaps)
  }

  /** The world's part of the first k gaps. */
  function WorldOf(s: Sock, gaps: seq<Gap>, k: nat): (r: Sock)
    requires k <= |gaps|
  {
    if k == 0 then s else World(WorldOf(s, gaps, k - 1), gaps[k - 1].world)
  }

  ghost predicate NeverEagain(s: Sock) { s.error != Some(EAGAIN) }

  lemma {:induction false} WorldKeepsError(s: Sock, ops: seq<Op>)
    requires NeverEagain(s)
    ensures NeverEagain(World(s, ops))
    decreases |ops|
  {
    if ops != [] {
      WorldKeepsError(Apply(s, ops[0]), ops[1..]);
    }
  }

  /** An attempt that answers EAGAIN has changed nothing. */
  lemma {:induction false} EagainChangesNothing(s: Sock, len: nat)
    requires NeverEagain(s) && RecvMsg(s, len).0 == Failed(EAGAIN)
    ensures RecvMsg(s, len).1 == s
  {
  }

  lemma {:induction false} WorldOfShift(s: Sock, gaps: seq<Gap>, k: nat)
    requires 0 < k <= |gaps|
    ensures WorldOf(s, gaps, k) == WorldOf(World(s, gaps[0].world), gaps[1..], k - 1)
  {
    if k > 1 {
      WorldOfShift(s, gaps, k - 1);
    }
  }

  /** The attempt that ended the call: everything before it answered EAGAIN in time. */
  ghost predicate EndedAt(s: Sock, len: nat, cfg: Config, start: nat, gaps: seq<Gap>, k: nat, o: Outcome)
    requires k < |gaps|
  {
    var (r, t) := RecvMsg(WorldOf(s, gaps, k + 1), len);
    && o == Outcome(Some(r), t)
    && (r == Failed(EAGAIN) ==> TimedOut(cfg, start, gaps[k].micros))
    && forall j :: 0 <= j < k ==>
         RecvMsg(WorldOf(s, gaps, j + 1), len).0 == Failed(EAGAIN) && !TimedOut(cfg, start, gaps[j].micros)
  }

  lemma {:induction false} AttemptsAreOneRecv(s: Sock, len: nat, cfg: Config, start: nat, gaps: seq<Gap>) returns (k: nat)
    requires NeverEagain(s)
    ensures k <= |gaps|
    ensures
      var o := Attempts(s, len, cfg, start, gaps);
      if k < |gaps| then EndedAt(s, len, cfg, start, gaps, k, o)
      else
        && o == Outcome(None, WorldOf(s, gaps, |gaps|))
        && forall j :: 0 <= j < |gaps| ==>
             RecvMsg(WorldOf(s, gaps, j + 1), len).0 == Failed(EAGAIN) && !TimedOut(cfg, start, gaps[j].micros)
    decreases |gaps|
  {
    if gaps == [] {
      return 0;
    }
    var w := World(s, gaps[0].world);
    WorldKeepsError(s, gaps[0].world);
    assert WorldOf(s, gaps, 1) == w;
    if RecvMsg(w, len).0 != Failed(EAGAIN) || TimedOut(cfg, start, gaps[0].micros) {
      return 0;
    }
    EagainChangesNothing(w, len);
    var rest := AttemptsAreOneRecv(w, len, cfg, start, gaps[1..]);
    forall j | 0 < j <= |gaps| ensures WorldOf(s, gaps, j) == WorldOf(w, gaps[1..], j - 1) {
      WorldOfShift(s, gaps, j);
    }
    k := rest + 1;
    forall j | 0 <= j < k && j < |gaps|
      ensures RecvMsg(WorldOf(s, gaps, j + 1), len).0 == Failed(EAGAIN) && !TimedOut(cfg, start, gaps[j].micros)
    {
      if j > 0 {
        assert gaps[1..][j - 1] == gaps[j];
      }
    }
  }

  /**
    However often it retried, a recvfrom that returned took exactly one recvmsg's worth
    out of the socket, at the first attempt that had an answer (or that timed out); one
    still suspended took nothing. So no message is lost, repeated or reordered.
  */
  lemma {:induction false} RecvFromIsOneRecv(s: Sock, len: nat, cfg: Config, start: nat, gaps: seq<Gap>)
    requires NeverEagain(s)
    ensures
      var o := RecvFrom(s, len, cfg, start, gaps);
      || (o == Outcome(Some(RecvMsg(s, len).0), RecvMsg(s, len).1)
          && (RecvMsg(s, len).0 != Failed(EAGAIN) || cfg.nonBlocking || cfg.dontWait))
      || o == Outcome(None, WorldOf(s, gaps, |gaps|))
      || exists k :: 0 <= k < |gaps| && EndedAt(s, len, cfg, start, gaps, k, o)
  {
    if RecvMsg(s, len).0 == Failed(EAGAIN) && !cfg.nonBlocking && !cfg.dontWait {
      EagainChangesNothing(s, len);
      var k := AttemptsAreOneRecv(s, len, cfg, start, gaps);
    }
  }

  /** Once an attempt falls at or after the timeout, the call has returned. */
  lemma {:induction false} TimeoutEndsTheCall(s: Sock, len: nat, cfg: Config, start: nat, gaps: seq<Gap>, k: nat)
    requires NeverEagain(s) && k < |gaps| && TimedOut(cfg, start, gaps[k].micros)
    ensures RecvFrom(s, len, cfg, start, gaps).result.Some?
  {
    if RecvMsg(s, len).0 == Failed(EAGAIN) && !cfg.nonBlocking && !cfg.dontWait {
      EagainChangesNothing(s, len);
      var j := AttemptsAreOneRecv(s, len, cfg, start, gaps);
    }
  }

  /** A clock that does not go back, from the start of the call on. */
  ghost predicate Timed(start: nat, gaps: seq<Gap>) {
    && (forall k :: 0 <= k < |gaps| ==> start <= gaps[k].micros)
    && (forall j, k :: 0 <= j < k < |gaps| ==> gaps[j].micros <= gaps[k].micros)
  }

  /** recvfrom suspended and its k-th attempt answered EAGAIN to the caller. */
  ghost predicate GivesUpAt(s: Sock, len: nat, cfg: Config, start: nat, gaps: seq<Gap>, k: nat) {
    var o := RecvFrom(s, len, cfg, start, gaps);
    && NeverEagain(s) && Timed(start, gaps) && k < |gaps|
    && o.result == Some(Failed(EAGAIN)) && EndedAt(s, len, cfg, start, gaps, k, o)
  }

  /**
    A blocking recvfrom that answers EAGAIN has suspended, has a positive timeout, and
    ended at an attempt that falls less than a millisecond before the timeout is over.
  */
  lemma {:induction false} EagainNotEarly(s: Sock, len: nat, cfg: Config, start: nat, gaps: seq<Gap>)
    requires NeverEagain(s) && Timed(start, gaps) && !cfg.nonBlocking && !cfg.dontWait
    requires RecvFrom(s, len, cfg, start, gaps).result == Some(Failed(EAGAIN))
    ensures cfg.receiveTimeout.Some? && cfg.receiveTimeout.value > 0
    ensures exists k :: 0 <= k < |gaps| && GivesUpAt(s, len, cfg, start, gaps, k)
    ensures forall k :: 0 <= k < |gaps| && GivesUpAt(s, len, cfg, start, gaps, k) ==>
              gaps[k].micros - start > (cfg.receiveTimeout.value - 1) * 1000
  {
    EagainChangesNothing(s, len);
    var k := AttemptsAreOneRecv(s, len, cfg, start, gaps);
    assert GivesUpAt(s, len, cfg, start, gaps, k);
  }

  /** The configuration of a blocking read after setsockopt(SO_RCVTIMEO) stored a timeval. */
  function Waiting(arg: S.OptArg): (cfg: Config) { Config(false, false, S.ParseTimeout(arg)) }

  /** It is what wasm_recvfrom finds stored: the receive timeout, and not the send timeout. */
  lemma {:induction false} WaitsAsSet(ops: seq<S.Op>, fd: int, arg: S.OptArg)
    requires H.IsSocket(H.Holder(ops, fd)) && S.ParseTimeout(arg).Some?
    ensures
      var sock := H.Holder(ops, fd).value.sock;
      var t := S.Run(ops + [S.SetOpt(fd, S.SOL_SOCKET, S.SO_RCVTIMEO, arg)]);
      S.TimeoutsOf(t, sock).receive == Waiting(arg).receiveTimeout
  {
    var ops' := ops + [S.SetOpt(fd, S.SOL_SOCKET, S.SO_RCVTIMEO, arg)];
    assert ops'[..|ops|] == ops;
    H.TimeoutFields(ops', H.Holder(ops, fd).value.sock);
  }

  lemma {:induction false} GiveUpTime(arg: S.OptArg, start: nat, now: nat)
    requires S.ParseTimeout(arg).Some? && S.AskedMicros(arg) > 0
    ensures
      var ms := S.ParseTimeout(arg).value;
      ms > 0 && (TimedOut(Waiting(arg), start, now) <==> now >= (start / 1000 + ms) * 1000)
  {
  }

  /**
    Date.now() counts whole milliseconds, so the time really spent waiting can fall
    short of the request. No call that begins at `start` ever gives up early, whatever
    the socket, the events and the clock do, exactly when it began no further into its
    millisecond than rounding the request up had added.
  */
  lemma {:induction false} FullTimeoutGuaranteed(arg: S.OptArg, start: nat)
    requires S.ParseTimeout(arg).Some? && S.AskedMicros(arg) > 0
    ensures
      (forall s: Sock, len: nat, gaps: seq<Gap>, k: nat :: GivesUpAt(s, len, Waiting(arg), start, gaps, k) ==>
         gaps[k].micros - start >= S.AskedMicros(arg))
      <==> start % 1000 <= S.ParseTimeout(arg).value * 1000 - S.AskedMicros(arg)
  {
    var cfg, ms := Waiting(arg), S.ParseTimeout(arg).value;
    var earliest := (start / 1000 + ms) * 1000;
    assert earliest - start == ms * 1000 - start % 1000;
    forall s: Sock, len: nat, gaps: seq<Gap>, k: nat | GivesUpAt(s, len, cfg, start, gaps, k)
      ensures gaps[k].micros >= earliest
    {
      GiveUpTime(arg, start, gaps[k].micros);
    }
    GiveUpTime(arg, start, earliest);
    GivesUpOnce(cfg, start, earliest);
  }

  /** An idle socket whose one attempt falls at `now`. */
  lemma {:induction false} GivesUpOnce(cfg: Config, start: nat, now: nat)
    requires !cfg.nonBlocking && !cfg.dontWait && start <= now && TimedOut(cfg, start, now)
    ensures GivesUpAt(Sock(DatagramSock, [], None, None), 0, cfg, start, [Gap([], now)], 0)
  {
    var s, gaps := Sock(DatagramSock, [], None, None), [Gap([], now)];
    assert WorldOf(s, gaps, 1) == World(s, []) == s;
  }

  /** A millisecond was asked for at 999 us; the clock ticks, and EAGAIN comes after 1 us. */
  lemma {:induction false} GivesUpEarly()
    ensures
      var arg, s, gaps := S.Timeval(0, 1000), Sock(DatagramSock, [], None, None), [Gap([], 1000)];
      && S.AskedMicros(arg) == 1000
      && RecvFrom(s, 1, Waiting(arg), 999, gaps).result == Some(Failed(EAGAIN))
      && gaps[0].micros - 999 == 1
  {
  }

  // ---------------------------------------------------------------- the calls

  class Socket {
    const kind: SockType
    var queue: seq<Message>
    var error: Option<Errno>
    var peer: Option<Ready>

    ghost function Abs(): (s: Sock)
      reads this
    {
      Sock(kind, queue, error, peer)
    }

    constructor (kind: SockType)
      ensures Abs() == Run(kind, [])
    {
      this.kind := kind;
      queue, error, peer := [], None, None;
    }

    /** The patched recvmsg: shift the queue, push back what a stream read left over. */
    method Recvmsg(len: nat) returns (r: Recv)
      modifies this`queue, this`error
      ensures (r, Abs()) == RecvMsg(old(Abs()), len)
    {
      if kind == DatagramSock && |queue| == 0 && error.Some? {
        r := Failed(error.value);
        error := None;
        return;
      }
      if |queue| == 0 {
        if kind == StreamSock {
          if peer.None? {
            return Failed(ENOTCONN);
          }
          if peer.value == Closing || peer.value == Closed {
            return Eof;
          }
        }
        return Failed(EAGAIN);
      }
      var queued := queue[0];
      queue := queue[1..];
      var n := if len < |queued| then len else |queued|;
      if kind == StreamSock && n < |queued| {
        queue := [queued[n..]] + queue;
      }
      return Data(queued[..n]);
    }

    /** The event loop runs between two attempts. */
    method Elapse(world: seq<Op>)
      modifies this
      ensures Abs() == World(old(Abs()), world)
    {
      ghost var start := Abs();
      var i := 0;
      while i < |world|
        invariant 0 <= i <= |world|
        invariant World(Abs(), world[i..]) == World(start, world)
      {
        var op := world[i];
        match op {
          case Arrive(msg) => queue := queue + [msg];
          case ErrorEvent => error := Some(ECONNREFUSED);
          case PeerMoves(ready) => peer := Some(ready);
          case CallRecv(len) => var _ := Recvmsg(len);
          case CallSoError(_) => error := None;
        }
        assert world[i..][1..] == world[i + 1..];
        i := i + 1;
      }
    }

    /** wasm_recvfrom over a finite stretch of time; None means still suspended. */
    method WasmRecvfrom(len: nat, cfg: Config, start: nat, gaps: seq<Gap>) returns (result: Option<Recv>)
      modifies this
      ensures Outcome(result, Abs()) == RecvFrom(old(Abs()), len, cfg, start, gaps)
    {
      var r := Recvmsg(len);
      if r != Failed(EAGAIN) {
        return Some(r);
      }
      if cfg.nonBlocking || cfg.dontWait {
        return Some(r);
      }
      ghost var suspended := Abs();
      var startedAt := start / 1000;
      var i := 0;
      while i < |gaps|
        invariant 0 <= i <= |gaps|
        invariant Attempts(Abs(), len, cfg, start, gaps[i..]) == Attempts(suspended, len, cfg, start, gaps)
      {
        assert gaps[i..][0] == gaps[i] && gaps[i..][1..] == gaps[i + 1..];
        Elapse(gaps[i].world);
        var n := Recvmsg(len);
        if n != Failed(EAGAIN) {
          return Some(n);
        }
        if cfg.receiveTimeout.Some? && cfg.receiveTimeout.value > 0
           && gaps[i].micros / 1000 - startedAt >= cfg.receiveTimeout.value {
          return Some(n);
        }
        i := i + 1;
      }
      return None;
    }
  }
}
