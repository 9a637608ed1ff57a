/**
  wasm_connect: a connect(2) that waits for its WebSocket, until the first of an 'open',
  'error' or 'close' event and a timer. Further events may follow in any order.
*/
module Connect {
  import opened Common
  import S = SocketOptions
  import H = SocketHistory

  /** What a suspended or immediate connect answers: None is 0, Some(e) is -e. */
  type Ret = Option<Errno>

  /** A call into SOCKFS that may throw: an ErrnoError, or anything else. */
  datatype Call = Done | Threw(errno: Errno) | ThrewOther

  /** Everything wasm_connect looks at before it can wait. */
  datatype Env = Env(
    jspi: bool,                // "Suspending" in WebAssembly
    found: bool,               // the descriptor is a socket
    kind: SockType,
    nonBlocking: bool,         // stream.flags & O_NONBLOCK
    address: Call,             // getSocketAddress
    connect: Call,             // sock_ops.connect
    webSockets: seq<Ready>,    // readyState of each WebSocket after connect
    peerFound: bool,           // getAllPeers has the one of webSockets[0]
    sendTimeout: Option<nat>,  // SO_SNDTIMEO in milliseconds, if ever set
    error: Option<Errno>)      // sock.error before the call

  /**
    The suspended call and the socket it works on: the `resolved` latch, the armed
    timer's delay, the three listeners, the WebSocket's readyState, whether its peer
    is still listed, `sock.connecting`, `sock.error`, and every answer given so far.
  */
  datatype Conn = Conn(
    resolved: bool,
    timer: Option<nat>,
    onOpen: bool, onError: bool, onClose: bool,
    ready: Ready,
    listed: bool,
    connecting: bool,
    error: Option<Errno>,
    wakes: seq<Ret>)

  /** What ws.close() does besides starting to close: nothing, throw, or emit 'error' and 'close'. */
  datatype CloseWay = Quiet | Throws | Emits

  datatype Kind = OpenEv | ErrorEv | CloseEv | TimerEv

  /** One event, the readyState when it is dispatched, and how a ws.close() would behave. */
  datatype Event = Event(kind: Kind, ready: Ready, closing: CloseWay)

  const DEFAULT_TIMEOUT: nat := 30000

  // ---------------------------------------------------------------- before waiting

  /** The answer given without waiting, in the source's order of tests; None means it waits. */
  function Immediate(env: Env): (r: Option<Ret>) {
    if !env.jspi then Some(None)
    else if env.found && (env.kind == DatagramSock || env.nonBlocking) then
      if !env.address.Done? then Some(Some(Refusal(env.address, ECONNREFUSED)))
      else if !env.connect.Done? then Some(Some(Refusal(env.connect, ECONNREFUSED)))
      else if env.kind == DatagramSock then Some(None)
      else Some(Some(EINPROGRESS))
    else if !env.found then Some(Some(EBADF))
    else if !env.address.Done? then Some(Some(Refusal(env.address, EFAULT)))
    else if !env.connect.Done? then Some(Some(Refusal(env.connect, ECONNREFUSED)))
    else if env.webSockets == [] then Some(Some(ECONNREFUSED))
    else match env.webSockets[0]
      case Open => Some(None)
      case Connecting => None
      case _ => Some(Some(ECONNREFUSED))
  }

  function Refusal(call: Call, other: Errno): (e: Errno) {
    if call.Threw? then call.errno else other
  }

  /** Both calls into SOCKFS went through. */
  predicate Started(env: Env) { env.found && env.address.Done? && env.connect.Done? }

  /**
    When connect waits, and what it answers if it does not. It waits exactly for a
    blocking stream socket whose WebSocket is CONNECTING. A non-blocking stream socket
    gets EINPROGRESS, a datagram socket 0, a blocking one 0 if its WebSocket is already
    open and ECONNREFUSED if it is not even CONNECTING. A call that SOCKFS refuses gets
    the errno it threw.
  */
  lemma {:induction false} ImmediateAnswers(env: Env)
    requires env.jspi
    ensures
      var r, blocking := Immediate(env), env.kind == StreamSock && !env.nonBlocking;
      && (r.None? <==> Started(env) && blocking && env.webSockets != [] && env.webSockets[0] == Connecting)
      && (Started(env) && !blocking ==> r == Some(if env.kind == StreamSock then Some(EINPROGRESS) else None))
      && (Started(env) && blocking ==>
            && (r == Some(None) <==> env.webSockets != [] && env.webSockets[0] == Open)
            && (r.Some? && r != Some(None) ==> r == Some(Some(ECONNREFUSED))))
      && (!env.found ==> r == Some(Some(EBADF)))
      && (env.found && env.address.Threw? ==> r == Some(Some(env.address.errno)))
      && (env.found && env.address.Done? && env.connect.Threw? ==> r == Some(Some(env.connect.errno)))
      && (env.found && env.address.ThrewOther? ==> r == Some(Some(if blocking then EFAULT else ECONNREFUSED)))
      && (env.found && env.address.Done? && env.connect.ThrewOther? ==> r == Some(Some(ECONNREFUSED)))
  {
  }

  /** The state after the synchronous part, for a call that got past SOCKFS's connect. */
  function Begin(env: Env): (c: Conn)
    requires env.found && env.connect.Done? && env.webSockets != []
  {
    var answer := Immediate(env);
    var base := Conn(false, None, false, false, false, env.webSockets[0], true, true, env.error, []);
    if answer.Some? then base.(wakes := [answer.value])
    else
      var timeout := if env.sendTimeout.Some? then env.sendTimeout.value else DEFAULT_TIMEOUT;
      base.(timer := if timeout > 0 then Some(timeout) else None, onOpen := true, onError := true, onClose := true)
  }

  // ---------------------------------------------------------------- events

  /** SOCKFS's own listeners, registered when it made the peer, run before any other. */
  function SockfsHears(c: Conn, e: Event): (r: Conn) {
    match e.kind
    case OpenEv => c.(connecting := false, ready := e.ready)
    case ErrorEv => c.(error := Some(ECONNREFUSED), ready := e.ready)
    case CloseEv => c.(ready := e.ready)
    case TimerEv => c
  }

  function Heard(c: Conn, kind: Kind): (b: bool) {
    match kind
    case OpenEv => c.onOpen
    case ErrorEv => c.onError
    case CloseEv => c.onClose
    case TimerEv => c.timer.Some?
  }

  function Verdict(kind: Kind): (r: Ret) {
    match kind
    case OpenEv => None
    case TimerEv => Some(ETIMEDOUT)
    case _ => Some(ECONNREFUSED)
  }

  /** finishConnect. */
  function Finish(c: Conn, result: Ret, peerFound: bool, closing: CloseWay): (r: Conn) {
    if c.resolved then c
    else
      var q := c.(resolved := true, timer := None, onOpen := false, onError := false, onClose := false);
      var woken := q.(wakes := q.wakes + [result]);
      if result.None? then woken
      else woken.(
        ready := if Ending(c.ready) || closing.Throws? then c.ready else Closing,
        listed := c.listed && !peerFound,
        connecting := false,
        error := result)
  }

  function Deliver(c: Conn, e: Event, peerFound: bool): (r: Conn) {
    var h := SockfsHears(c, e);
    if Heard(c, e.kind) then
      Finish(if e.kind == TimerEv then h.(timer := None) else h, Verdict(e.kind), peerFound, e.closing)
    else h
  }

  function After(env: Env, events: seq<Event>): (c: Conn)
    requires env.found && env.connect.Done? && env.webSockets != []
  {
    if events == [] then Begin(env)
    else Deliver(After(env, events[..|events| - 1]), events[|events| - 1], env.peerFound)
  }

  // ---------------------------------------------------------------- what every run does

  ghost predicate Waits(env: Env) {
    env.found && env.connect.Done? && env.webSockets != [] && Immediate(env).None?
  }

  predicate Armed(env: Env) { env.sendTimeout != Some(0) }

  /** The events that can decide the call: all of them, the timer only if there is one. */
  predicate Decisive(env: Env, e: Event) {
    e.kind != TimerEv || Armed(env)
  }

  /** The position of the first decisive event, or the length when there is none. */
  function First(env: Env, events: seq<Event>): (i: nat)
    ensures i <= |events|
    ensures forall j :: 0 <= j < i ==> !Decisive(env, events[j])
    ensures i < |events| ==> Decisive(env, events[i])
  {
    if events == [] then 0
    else
      var i := First(env, events[..|events| - 1]);
      if i < |events| - 1 then i
      else if Decisive(env, events[|events| - 1]) then |events| - 1
      else |events|
  }

  /** The timer of a waiting connect, in milliseconds: SO_SNDTIMEO, half a minute if never set, none for 0. */
  function Delay(sendTimeout: Option<nat>): (ms: Option<nat>)
    ensures sendTimeout.None? ==> ms == Some(30000)
    ensures sendTimeout == Some(0) ==> ms.None?
    ensures sendTimeout.Some? && sendTimeout.value > 0 ==> ms == sendTimeout
  {
    match sendTimeout
    case None => Some(30000)
    case Some(n) => if n == 0 then None else sendTimeout
  }

  ghost predicate Quiescent(c: Conn) {
    c.timer.None? && !c.onOpen && !c.onError && !c.onClose
  }

  /**
    While no decisive event has come, nothing has been answered and everything is
    registered; from then on the one answer is the first decisive event's, and
    nothing is registered any more.
  */
  ghost predicate Told(env: Env, events: seq<Event>, c: Conn) {
    var i := First(env, events);
    && (i == |events| ==> c.wakes == [] && !c.resolved && c.onOpen && c.onError && c.onClose
                          && c.timer == Delay(env.sendTimeout))
    && (i < |events| ==> c.wakes == [Verdict(events[i].kind)] && c.resolved && Quiescent(c))
  }

  lemma {:induction false} EveryRun(env: Env, events: seq<Event>)
    requires Waits(env)
    ensures Told(env, events, After(env, events))
  {
    if events != [] {
      EveryRun(env, events[..|events| - 1]);
    }
  }

  /**
    A blocking connect wakes its caller at most once whatever events come, in whatever
    order and number: with 0 exactly when 'open' was the first decisive event. After
    the wake no listener and no timer of it is left.
  */
  lemma {:induction false} WakesOnce(env: Env, events: seq<Event>)
    requires Waits(env)
    ensures
      var c, i := After(env, events), First(env, events);
      && |c.wakes| <= 1
      && (|c.wakes| == 1 <==> i < |events|)
      && (c.wakes == [None] <==> i < |events| && events[i].kind == OpenEv)
      && (c.wakes == [Some(ETIMEDOUT)] <==> i < |events| && events[i].kind == TimerEv)
      && (c.wakes != [] ==> Quiescent(c))
  {
    EveryRun(env, events);
  }

  /**
    The timer, in terms of the whole history of the socket that connects: until a
    decisive event comes it is armed with the SO_SNDTIMEO last set on that very socket,
    with 30 seconds if none was ever set, and not at all if that was 0.
  */
  lemma {:induction false} TimerIsSendTimeout(env: Env, events: seq<Event>, ops: seq<S.Op>, sock: S.SockId)
    requires Waits(env) && First(env, events) == |events|
    requires env.sendTimeout == S.TimeoutsOf(S.Run(ops), sock).send
    ensures After(env, events).timer == Delay(H.LastTimeout(ops, sock, S.SO_SNDTIMEO))
  {
    EveryRun(env, events);
    H.TimeoutFields(ops, sock);
  }

  /** What a failed connect must leave behind, `errno` being the answer it gave. */
  ghost predicate CleanedUp(c: Conn, errno: Errno) {
    !c.listed && !c.connecting && c.error == Some(errno)
  }

  /** At the wake itself the socket is cleaned up and its error is the one reported. */
  lemma {:induction false} FailureCleansUp(env: Env, events: seq<Event>)
    requires Waits(env) && env.peerFound && events != []
    requires First(env, events) == |events| - 1 && events[|events| - 1].kind != OpenEv
    ensures
      var c := After(env, events);
      && |c.wakes| == 1 && c.wakes[0].Some? && CleanedUp(c, c.wakes[0].value)
      && (Ending(c.ready) || events[|events| - 1].closing.Throws?)
  {
    var before := events[..|events| - 1];
    EveryRun(env, before);
    assert First(env, before) == |before|;
  }

  /** At a successful wake the socket is connected: peer listed, `connecting` over, no error added. */
  lemma {:induction false} SuccessKeepsTheSocket(env: Env, events: seq<Event>)
    requires Waits(env) && events != []
    requires First(env, events) == |events| - 1 && events[|events| - 1].kind == OpenEv
    ensures
      var c := After(env, events);
      && c.wakes == [None] && c.listed && !c.connecting
      && c.error == env.error && c.ready == events[|events| - 1].ready
  {
    var before := events[..|events| - 1];
    EveryRun(env, before);
    assert First(env, before) == |before|;
    NothingYet(env, before);
  }

  /** Until a decisive event comes nothing changes. */
  lemma {:induction false} NothingYet(env: Env, events: seq<Event>)
    requires Waits(env) && First(env, events) == |events|
    ensures After(env, events) == Begin(env)
  {
    if events != [] {
      var n := |events| - 1;
      assert First(env, events[..n]) == n;
      NothingYet(env, events[..n]);
    }
  }

  /** The index after which every later 'error' event finds the caller already awake. */
  ghost predicate LaterError(events: seq<Event>, i: nat) {
    exists j :: i < j < |events| && events[j].kind == ErrorEv
  }

  /**
    SOCKFS keeps its own 'error' listener. So after a failed connect the socket stays
    cleaned up, and its error stays the one reported exactly as long as no 'error'
    event follows a timeout: such an event turns ETIMEDOUT into ECONNREFUSED.
  */
  lemma {:induction false} ErrorLaterOn(env: Env, events: seq<Event>)
    requires Waits(env) && env.peerFound
    requires First(env, events) < |events| && events[First(env, events)].kind != OpenEv
    ensures
      var c, i := After(env, events), First(env, events);
      && !c.listed && !c.connecting
      && c.error == (if LaterError(events, i) then Some(ECONNREFUSED) else Verdict(events[i].kind))
      && |c.wakes| == 1
      && (c.error == c.wakes[0] <==> !(events[i].kind == TimerEv && LaterError(events, i)))
  {
    var i, n := First(env, events), |events| - 1;
    EveryRun(env, events);
    if i == n {
      FailureCleansUp(env, events);
    } else {
      var before := events[..n];
      EveryRun(env, before);
      ErrorLaterOn(env, before);
      if LaterError(before, i) {
        var j :| i < j < |before| && before[j].kind == ErrorEv;
        assert events[j].kind == ErrorEv;
      }
      if LaterError(events, i) && events[n].kind != ErrorEv {
        var j :| i < j < |events| && events[j].kind == ErrorEv;
        assert before[j].kind == ErrorEv;
      }
    }
  }

  /**
    A connect that got past SOCKFS's connect and then failed has cleaned up after
    itself exactly when it waited: a WebSocket already CLOSING or CLOSED is refused
    at once, with the peer still listed and `connecting` still set.
  */
  lemma {:induction false} CleanUpNeedsTheWait(env: Env, events: seq<Event>)
    requires env.jspi && env.found && env.kind == StreamSock && !env.nonBlocking && env.peerFound
    requires env.address.Done? && env.connect.Done? && env.webSockets != []
    requires
      var c := After(env, events);
      |c.wakes| == 1 && c.wakes[0].Some? && !LaterError(events, First(env, events))
    ensures
      var c := After(env, events);
      CleanedUp(c, c.wakes[0].value) <==> env.webSockets[0] == Connecting
  {
    if env.webSockets[0] == Connecting {
      EveryRun(env, events);
      ErrorLaterOn(env, events);
    } else {
      RefusedAtOnce(env, events);
    }
  }

  lemma {:induction false} RefusedAtOnce(env: Env, events: seq<Event>)
    requires env.found && env.connect.Done? && env.webSockets != []
    requires Immediate(env).Some?
    ensures
      var c := After(env, events);
      c.wakes == [Immediate(env).value] && c.listed && Quiescent(c)
  {
    if events != [] {
      RefusedAtOnce(env, events[..|events| - 1]);
    }
  }

  // ---------------------------------------------------------------- the closures

  /** The suspended call as the library runs it: closures over shared variables. */
  class ConnectCall {
    var resolved: bool
    var timer: Option<nat>
    var onOpen: bool
    var onError: bool
    var onClose: bool
    var ready: Ready
    var listed: bool
    var connecting: bool
    var error: Option<Errno>
    var wakes: seq<Ret>
    const peerFound: bool

    ghost function Abs(): (c: Conn)
      reads this
    {
      Conn(resolved, timer, onOpen, onError, onClose, ready, listed, connecting, error, wakes)
    }

    /** The synchronous part, for a call that got past SOCKFS's connect. */
    constructor (env: Env)
      requires Waits(env)
      ensures peerFound == env.peerFound
      ensures Abs() == After(env, [])
    {
      resolved, timer, wakes := false, None, [];
      onOpen, onError, onClose := true, true, true;
      ready, listed, connecting, error := env.webSockets[0], true, true, env.error;
      peerFound := env.peerFound;
      new;
      var timeout := if env.sendTimeout.Some? then env.sendTimeout.value else DEFAULT_TIMEOUT;
      if timeout > 0 {
        timer := Some(timeout);
      }
    }

    method CleanupConnectListeners()
      modifies this`timer, this`onOpen, this`onError, this`onClose
      ensures Quiescent(Abs())
    {
      timer := None;
      onOpen := false;
      onError := false;
      onClose := false;
    }

    /**
      ws.close(). It may throw, or emit 'error' and 'close' before it returns: with
      the listeners already removed only SOCKFS hears them.
    */
    method CloseWebSocket(closing: CloseWay)
      requires Quiescent(Abs())
      modifies this`ready, this`error
      ensures ready == if closing.Throws? then old(ready) else Closing
      ensures error == if closing.Emits? then Some(ECONNREFUSED) else old(error)
    {
      if !closing.Throws? {
        ready := Closing;
      }
      if closing.Emits? {
        error := Some(ECONNREFUSED);
      }
    }

    method CleanupFailedConnect(errno: Errno, closing: CloseWay)
      requires Quiescent(Abs())
      modifies this`ready, this`listed, this`connecting, this`error
      ensures ready == if Ending(old(ready)) || closing.Throws? then old(ready) else Closing
      ensures listed == (old(listed) && !peerFound) && !connecting && error == Some(errno)
    {
      if ready != Closing && ready != Closed {
        CloseWebSocket(closing);
      }
      if peerFound {
        listed := false;
      }
      connecting := false;
      error := Some(errno);
    }

    method FinishConnect(result: Ret, closing: CloseWay)
      modifies this
      ensures Abs() == Finish(old(Abs()), result, peerFound, closing)
    {
      if !resolved {
        resolved := true;
        CleanupConnectListeners();
        if result.Some? {
          CleanupFailedConnect(result.value, closing);
        }
        wakes := wakes + [result];
      }
    }

    /** One event: SOCKFS's listener, then this call's own handler if it is registered. */
    method Dispatch(e: Event)
      modifies this
      ensures Abs() == Deliver(old(Abs()), e, peerFound)
    {
      match e.kind {
        case OpenEv =>
          ready, connecting := e.ready, false;
          if onOpen {
            FinishConnect(None, e.closing);
          }
        case ErrorEv =>
          ready, error := e.ready, Some(ECONNREFUSED);
          if onError {
            FinishConnect(Some(ECONNREFUSED), e.closing);
          }
        case CloseEv =>
          ready := e.ready;
          if onClose {
            FinishConnect(Some(ECONNREFUSED), e.closing);
          }
        case TimerEv =>
          if timer.Some? {
            timer := None;
            FinishConnect(Some(ETIMEDOUT), e.closing);
          }
      }
    }
  }
}
