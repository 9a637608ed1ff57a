/**
  Socket options: the per-socket tables behind setsockopt and getsockopt, the options sent
  to the WebSocket proxy, and the handler that resends them when a connection opens.
*/
module SocketOptions {
  import opened Common

  type SockId = nat
  type WsId = nat

  const SOL_SOCKET := 1
  const SO_TYPE := 3
  const SO_ERROR := 4
  const SO_KEEPALIVE := 9
  const SO_RCVTIMEO := 66
  const SO_SNDTIMEO := 67
  const IPPROTO_TCP := 6
  const TCP_NODELAY := 1

  /** The "level:name" key of the option Map. */
  datatype Key = Key(level: int, name: int)
  type Options = map<Key, int>

  /** { receive, send }, in milliseconds; None is a property never assigned. */
  datatype Timeouts = Timeouts(receive: Option<nat>, send: Option<nat>)

  datatype Descriptor = File | Socket(sock: SockId)

  /** A SOCKFS socket object. */
  datatype Sock = Sock(kind: SockType, error: Option<Errno>)

  /**
    A WebSocket made by connect: the socket whose peer it was made as, whether it is
    still among that socket's peers, its readyState, whether its class has
    setSocketOpt(), how many send-on-open handlers are registered on it, and what
    the proxy at its other end has been told.
  */
  datatype Ws = Ws(owner: SockId, listed: bool, ready: Ready, canSet: bool, handlers: nat, proxy: Options)

  /**
    Every descriptor, socket object and WebSocket of the process. A run is any sequence
    of operations: system calls, and moves of the outside world (a readyState change, an
    'open' or 'error' event), interleaved freely.
  */
  datatype State = State(
    fds: map<int, Descriptor>,
    socks: map<SockId, Sock>,
    wss: map<WsId, Ws>,
    timeouts: map<SockId, Timeouts>,
    options: map<SockId, Options>,
    nextSock: SockId,
    nextWs: WsId)

  const Initial := State(map[], map[], map[], map[], map[], 0, 0)

  /** What the typed-array views read at the option pointer. */
  datatype OptArg = NullArg | Arg(len: int, byte0: int, word32: (int, int), word64: (int, int))

  datatype GetResult =
    | GotInt(n: int)
    | GotType(kind: SockType)
    | GotError(error: Option<Errno>)
    | GotTimeval(seconds: int, microseconds: int)
    | GetFailed(errno: Errno)

  datatype Op =
    | OpenSocket(fd: int, kind: SockType)
    | OpenFile(fd: int)
    | CloseFd(fd: int)
    | Shutdown(fd: int, ws: WsId)
    | SetOpt(fd: int, level: int, name: int, arg: OptArg)
    | GetOpt(fd: int, level: int, name: int, len: int)
    | Connect(fd: int, canSet: bool)
    | FailConnect(ws: WsId, errno: Errno, throws: bool)
    | ReadyChange(ws: WsId, ready: Ready)
    | OpenEvent(ws: WsId)
    | ErrorEvent(ws: WsId)

  // ---------------------------------------------------------------- decoding

  function CeilDiv(a: nat, b: nat): (r: nat)
    requires b > 0
  {
    if a % b == 0 then a / b else a / b + 1
  }

  /** parseSocketTimeout: a timeval as milliseconds, rounded up; None is `null`. */
  function ParseTimeout(arg: OptArg): (ms: Option<nat>) {
    if arg.NullArg? || arg.len < 8 then None
    else
      var (seconds, microseconds) := if arg.len >= 16 then arg.word64 else arg.word32;
      if seconds < 0 || microseconds < 0 then None
      else Some(seconds * 1000 + CeilDiv(microseconds, 1000))
  }

  /** The timeval of an argument long enough for one, in microseconds. */
  function AskedMicros(arg: OptArg): (us: int)
    requires arg.Arg?
  {
    var (seconds, microseconds) := if arg.len >= 16 then arg.word64 else arg.word32;
    seconds * 1000000 + microseconds
  }

  /** The int flag of a proxied option as 0 or 1; None when the argument is unusable. */
  function ParseFlag(arg: OptArg): (v: Option<int>) {
    if arg.NullArg? || arg.len < 1 then None
    else if (if arg.len >= 4 then arg.word32.0 else arg.byte0) != 0 then Some(1)
    else Some(0)
  }

  predicate IsTimeout(level: int, name: int) {
    level == SOL_SOCKET && (name == SO_RCVTIMEO || name == SO_SNDTIMEO)
  }

  predicate IsProxied(kind: SockType, level: int, name: int) {
    || (level == SOL_SOCKET && name == SO_KEEPALIVE)
    || (level == IPPROTO_TCP && name == TCP_NODELAY && kind == StreamSock)
  }

  function Pick(t: Timeouts, name: int): (ms: Option<nat>) {
    if name == SO_RCVTIMEO then t.receive else t.send
  }

  function Put(t: Timeouts, name: int, ms: nat): (r: Timeouts) {
    if name == SO_RCVTIMEO then t.(receive := Some(ms)) else t.(send := Some(ms))
  }

  function TimeoutsOf(s: State, sock: SockId): (t: Timeouts) {
    if sock in s.timeouts then s.timeouts[sock] else Timeouts(None, None)
  }

  function OptionsOf(s: State, sock: SockId): (m: Options) {
    if sock in s.options then s.options[sock] else map[]
  }

  function OrZero(v: Option<nat>): (n: nat) {
    if v.Some? then v.value else 0
  }

  // ---------------------------------------------------------------- one WebSocket

  /** sendSocketOption: reaches the proxy only when the class has setSocketOpt(). */
  function Sent(ws: Ws, key: Key, value: int): (r: Ws) {
    if ws.canSet then ws.(proxy := ws.proxy[key := value]) else ws
  }

  function SentAll(ws: Ws, options: Options): (r: Ws) {
    if ws.canSet then ws.(proxy := ws.proxy + options) else ws
  }

  /** What setsockopt does to a WebSocket of the socket. */
  function AfterSet(ws: Ws, key: Key, value: int): (r: Ws) {
    if ws.ready == Open then Sent(ws, key, value) else ws
  }

  /** What sendSocketOptionsOnOpen does to a WebSocket of the socket. */
  function AfterConnect(ws: Ws, options: Options): (r: Ws) {
    match ws.ready
    case Open => SentAll(ws, options)
    case Connecting => ws.(handlers := ws.handlers + 1)
    case _ => ws
  }

  /** The 'open' event: every registered handler runs once and is gone. */
  function AfterOpenEvent(ws: Ws, options: Options): (r: Ws) {
    if ws.handlers > 0 then SentAll(ws, options).(handlers := 0) else ws
  }

  function Rank(r: Ready): (n: nat) {
    match r case Connecting => 0 case Open => 1 case Closing => 2 case Closed => 3
  }

  /** ws.close() and removePeer: one already closing or closed keeps its readyState. */
  function AfterClose(ws: Ws): (r: Ws) {
    ws.(listed := false, ready := if Rank(ws.ready) < 2 then Closing else ws.ready)
  }

  /** cleanupFailedConnect: the peer is removed even when ws.close() throws. */
  function AfterFailure(ws: Ws, throws: bool): (r: Ws) {
    ws.(listed := false, ready := if Rank(ws.ready) < 2 && !throws then Closing else ws.ready)
  }

  /** A live WebSocket that no socket lists any more: later options do not reach it. */
  predicate Orphan(ws: Ws) { Rank(ws.ready) < 2 && !ws.listed }

  // ---------------------------------------------------------------- operations

  predicate HasSock(s: State, fd: int) {
    fd in s.fds && s.fds[fd].Socket? && s.fds[fd].sock in s.socks
  }

  /** getAllWebSockets: the WebSockets of the peers of a socket object. */
  function WebSockets(s: State, sock: SockId): (r: set<WsId>) {
    set w | w in s.wss && s.wss[w].owner == sock && s.wss[w].listed
  }

  /** The errno js_setsockopt answers, None for success, tests in the source's order. */
  function SetOptError(s: State, fd: int, level: int, name: int, arg: OptArg): (e: Option<Errno>) {
    if fd !in s.fds then Some(EBADF)
    else if !HasSock(s, fd) then Some(ENOTSOCK)
    else if IsTimeout(level, name) then
      if ParseTimeout(arg).None? then Some(EINVAL) else None
    else if !IsProxied(s.socks[s.fds[fd].sock].kind, level, name) then Some(ENOPROTOOPT)
    else if ParseFlag(arg).None? then Some(EINVAL)
    else None
  }

  function StoreTimeout(s: State, sock: SockId, name: int, ms: nat): (r: State) {
    s.(timeouts := s.timeouts[sock := Put(TimeoutsOf(s, sock), name, ms)])
  }

  /** Stores a flag and sends it to every OPEN WebSocket of the socket. */
  function StoreFlag(s: State, sock: SockId, key: Key, value: int): (r: State) {
    s.(options := s.options[sock := OptionsOf(s, sock)[key := value]],
       wss := map w | w in s.wss ::
         if w in WebSockets(s, sock) then AfterSet(s.wss[w], key, value) else s.wss[w])
  }

  function ApplySetOpt(s: State, fd: int, level: int, name: int, arg: OptArg): (r: State) {
    if SetOptError(s, fd, level, name, arg).Some? then s
    else if IsTimeout(level, name) then StoreTimeout(s, s.fds[fd].sock, name, ParseTimeout(arg).value)
    else StoreFlag(s, s.fds[fd].sock, Key(level, name), ParseFlag(arg).value)
  }

  /** __syscall_getsockopt's answer; `len` is the caller's buffer length. */
  function GetOptResult(s: State, fd: int, level: int, name: int, len: int): (r: GetResult) {
    if fd !in s.fds then GetFailed(EBADF)
    else if !HasSock(s, fd) then GetFailed(ENOTSOCK)
    else
      var sock := s.fds[fd].sock;
      if level == SOL_SOCKET && name == SO_ERROR then
        if len < 4 then GetFailed(EINVAL) else GotError(s.socks[sock].error)
      else if level == SOL_SOCKET && name == SO_TYPE then
        if len < 4 then GetFailed(EINVAL) else GotType(s.socks[sock].kind)
      else if IsTimeout(level, name) then
        if len < 16 then GetFailed(EINVAL)
        else
          var ms := OrZero(Pick(TimeoutsOf(s, sock), name));
          GotTimeval(ms / 1000, (ms % 1000) * 1000)
      else if IsProxied(s.socks[sock].kind, level, name) then
        if len < 4 then GetFailed(EINVAL)
        else if Key(level, name) in OptionsOf(s, sock) then GotInt(OptionsOf(s, sock)[Key(level, name)])
        else GotInt(0)
      else GetFailed(ENOPROTOOPT)
  }

  /** SOCKFS's own connect: a new CONNECTING WebSocket among the socket's peers. */
  function AddPeer(s: State, sock: SockId, canSet: bool): (r: State) {
    s.(wss := s.wss[s.nextWs := Ws(sock, true, Connecting, canSet, 0, map[])], nextWs := s.nextWs + 1)
  }

  /** sendSocketOptionsOnOpen, for every WebSocket of the socket. */
  function SendOnOpen(s: State, sock: SockId): (r: State) {
    s.(wss := map w | w in s.wss ::
      if w in WebSockets(s, sock) then AfterConnect(s.wss[w], OptionsOf(s, sock)) else s.wss[w])
  }

  /** SOCKFS's close: every peer is closed and removed. */
  function DropAll(s: State, sock: SockId): (r: State) {
    s.(wss := map w | w in s.wss :: if w in WebSockets(s, sock) then AfterClose(s.wss[w]) else s.wss[w])
  }

  /** shutdownSocket closes and removes one peer. */
  function DropOne(s: State, ws: WsId): (r: State)
    requires ws in s.wss
  {
    s.(wss := s.wss[ws := AfterClose(s.wss[ws])])
  }

  function SetReady(s: State, ws: WsId, ready: Ready): (r: State)
    requires ws in s.wss
  {
    s.(wss := s.wss[ws := s.wss[ws].(ready := ready)])
  }

  /** The handlers of the 'open' event read the options stored when the event fires. */
  function FireOpen(s: State, ws: WsId): (r: State)
    requires ws in s.wss
  {
    s.(wss := s.wss[ws := AfterOpenEvent(s.wss[ws], OptionsOf(s, s.wss[ws].owner))])
  }

  function SetError(s: State, sock: SockId, error: Option<Errno>): (r: State)
    requires sock in s.socks
  {
    s.(socks := s.socks[sock := s.socks[sock].(error := error)])
  }

  /** The clean-up of a wasm_connect that timed out or was refused while it waited. */
  function CleanUp(s: State, ws: WsId, errno: Errno, throws: bool): (r: State)
    requires ws in s.wss && s.wss[ws].owner in s.socks
  {
    SetError(s.(wss := s.wss[ws := AfterFailure(s.wss[ws], throws)]), s.wss[ws].owner, Some(errno))
  }

  function OpenSock(s: State, fd: int, kind: SockType): (r: State) {
    s.(fds := s.fds[fd := Socket(s.nextSock)],
       socks := s.socks[s.nextSock := Sock(kind, None)],
       nextSock := s.nextSock + 1)
  }

  /**
    One operation. An operation that the outside world cannot perform in a state
    (an unknown WebSocket, a readyState going backwards, a number in use) changes
    nothing. Reading SO_ERROR clears it, also when the buffer is too short.
  */
  function Apply(s: State, op: Op): (r: State) {
    match op
    case OpenSocket(fd, kind) => if fd in s.fds then s else OpenSock(s, fd, kind)
    case OpenFile(fd) => if fd in s.fds then s else s.(fds := s.fds[fd := File])
    case CloseFd(fd) =>
      var t := if HasSock(s, fd) then DropAll(s, s.fds[fd].sock) else s;
      t.(fds := s.fds - {fd})
    case Shutdown(fd, ws) =>
      if HasSock(s, fd) && ws in WebSockets(s, s.fds[fd].sock) then DropOne(s, ws) else s
    case SetOpt(fd, level, name, arg) => ApplySetOpt(s, fd, level, name, arg)
    case GetOpt(fd, level, name, _) =>
      if HasSock(s, fd) && level == SOL_SOCKET && name == SO_ERROR then SetError(s, s.fds[fd].sock, None) else s
    case Connect(fd, canSet) =>
      if HasSock(s, fd) then SendOnOpen(AddPeer(s, s.fds[fd].sock, canSet), s.fds[fd].sock) else s
    case FailConnect(ws, errno, throws) =>
      if ws in s.wss && s.wss[ws].owner in s.socks then CleanUp(s, ws, errno, throws) else s
    case ReadyChange(ws, ready) =>
      if ws in s.wss && Rank(s.wss[ws].ready) < Rank(ready) then SetReady(s, ws, ready) else s
    case OpenEvent(ws) => if ws in s.wss && s.wss[ws].ready != Connecting then FireOpen(s, ws) else s
    case ErrorEvent(ws) =>
      if ws in s.wss && s.wss[ws].owner in s.socks then SetError(s, s.wss[ws].owner, Some(ECONNREFUSED)) else s
  }

  function Run(ops: seq<Op>): (s: State) {
    if ops == [] then Initial else Apply(Run(ops[..|ops| - 1]), ops[|ops| - 1])
  }

  // ---------------------------------------------------------------- the invariant

  /**
    The promise of the library for one WebSocket: it still has its send-on-open handler,
    or, once OPEN, its proxy holds exactly the options stored locally; and while it is
    OPEN the proxy never holds anything but current values.
  */
  ghost predicate Promise(ws: Ws, options: Options) {
    && (ws.ready == Connecting ==> ws.handlers > 0)
    && (ws.ready == Open && ws.canSet ==>
          && (forall k :: k in ws.proxy ==> k in options && options[k] == ws.proxy[k])
          && (ws.handlers == 0 ==> ws.proxy == options))
  }

  /** What every state keeps: the promise, and no message before OPEN; an orphan may lag behind. */
  ghost predicate Agrees(ws: Ws, options: Options) {
    && (ws.ready == Connecting ==> ws.handlers > 0 && ws.proxy == map[])
    && (!ws.canSet ==> ws.proxy == map[])
    && (Orphan(ws) || Promise(ws, options))
  }

  ghost predicate TablesFit(s: State) {
    && (forall fd :: fd in s.fds && s.fds[fd].Socket? ==> s.fds[fd].sock in s.socks)
    && (forall k :: k in s.socks ==> k < s.nextSock)
    && (forall k :: k in s.options ==> k in s.socks)
    && (forall k :: k in s.timeouts ==> k in s.socks)
    && (forall w :: w in s.wss ==> w < s.nextWs && s.wss[w].owner in s.socks)
  }

  ghost predicate AgreesAt(s: State, w: WsId)
    requires w in s.wss
  {
    Agrees(s.wss[w], OptionsOf(s, s.wss[w].owner))
  }

  ghost predicate AllAgree(s: State) {
    forall w :: w in s.wss ==> AgreesAt(s, w)
  }

  ghost predicate Inv(s: State) {
    TablesFit(s) && AllAgree(s)
  }

  lemma {:induction false} StoreFlagKeeps(s: State, sock: SockId, key: Key, value: int)
    requires Inv(s) && sock in s.socks
    ensures Inv(StoreFlag(s, sock, key, value))
  {
    var t := StoreFlag(s, sock, key, value);
    forall w | w in t.wss ensures AgreesAt(t, w) {
      assert AgreesAt(s, w);
    }
  }

  lemma {:induction false} ConnectFits(s: State, sock: SockId, canSet: bool)
    requires TablesFit(s) && sock in s.socks
    ensures TablesFit(SendOnOpen(AddPeer(s, sock, canSet), sock))
  {
    assert TablesFit(AddPeer(s, sock, canSet));
  }

  lemma {:induction false} ConnectAgreesAt(s: State, sock: SockId, canSet: bool, w: WsId)
    requires w in s.wss ==> AgreesAt(s, w) && w != s.nextWs
    requires w in s.wss || w == s.nextWs
    ensures AgreesAt(SendOnOpen(AddPeer(s, sock, canSet), sock), w)
  {
    if w in s.wss {
      AllSentAgrees(s.wss[w], OptionsOf(s, s.wss[w].owner));
    }
  }

  lemma {:induction false} ConnectKeeps(s: State, sock: SockId, canSet: bool)
    requires Inv(s) && sock in s.socks
    ensures Inv(SendOnOpen(AddPeer(s, sock, canSet), sock))
  {
    ConnectFits(s, sock, canSet);
    var t := SendOnOpen(AddPeer(s, sock, canSet), sock);
    forall w | w in t.wss ensures AgreesAt(t, w) {
      ConnectAgreesAt(s, sock, canSet, w);
    }
  }

  lemma {:induction false} DropAllKeeps(s: State, sock: SockId)
    requires Inv(s)
    ensures Inv(DropAll(s, sock))
  {
    var t := DropAll(s, sock);
    forall w | w in t.wss ensures AgreesAt(t, w) {
      assert AgreesAt(s, w);
    }
  }

  lemma {:induction false} DropOneKeeps(s: State, ws: WsId)
    requires Inv(s) && ws in s.wss
    ensures Inv(DropOne(s, ws))
  {
    var t := DropOne(s, ws);
    forall w | w in t.wss ensures AgreesAt(t, w) {
      assert AgreesAt(s, w);
    }
  }

  lemma {:induction false} CleanUpKeeps(s: State, ws: WsId, errno: Errno, throws: bool)
    requires Inv(s) && ws in s.wss
    ensures Inv(CleanUp(s, ws, errno, throws))
  {
    var t := CleanUp(s, ws, errno, throws);
    forall w | w in t.wss ensures AgreesAt(t, w) {
      assert AgreesAt(s, w);
    }
  }

  lemma {:induction false} SetReadyKeeps(s: State, ws: WsId, ready: Ready)
    requires Inv(s) && ws in s.wss && Rank(s.wss[ws].ready) < Rank(ready)
    ensures Inv(SetReady(s, ws, ready))
  {
    var t := SetReady(s, ws, ready);
    forall w | w in t.wss ensures AgreesAt(t, w) {
      assert AgreesAt(s, w);
    }
  }

  lemma {:induction false} FireOpenKeeps(s: State, ws: WsId)
    requires Inv(s) && ws in s.wss && s.wss[ws].ready != Connecting
    ensures Inv(FireOpen(s, ws))
  {
    var t := FireOpen(s, ws);
    forall w | w in t.wss ensures AgreesAt(t, w) {
      assert AgreesAt(s, w);
      AllSentAgrees(s.wss[w], OptionsOf(s, s.wss[w].owner));
    }
  }

  /** A change of descriptors and socket objects alone keeps the invariant. */
  lemma {:induction false} SameWssKeeps(s: State, t: State)
    requires Inv(s) && TablesFit(t) && t.wss == s.wss && t.options == s.options
    ensures Inv(t)
  {
    forall w | w in t.wss ensures AgreesAt(t, w) {
      assert AgreesAt(s, w);
    }
  }

  /** Sending everything makes an OPEN proxy that held only current values hold all of them. */
  lemma {:induction false} AllSentAgrees(ws: Ws, options: Options)
    requires Agrees(ws, options)
    ensures Agrees(AfterConnect(ws, options), options)
    ensures ws.ready != Connecting ==> Agrees(AfterOpenEvent(ws, options), options)
  {
    if ws.ready == Open && ws.canSet && ws.listed {
      assert ws.proxy + options == options;
    }
  }

  lemma {:induction false} SetOptKeeps(s: State, fd: int, level: int, name: int, arg: OptArg)
    requires Inv(s)
    ensures Inv(ApplySetOpt(s, fd, level, name, arg))
  {
    if SetOptError(s, fd, level, name, arg).None? {
      var sock := s.fds[fd].sock;
      if IsTimeout(level, name) {
        SameWssKeeps(s, StoreTimeout(s, sock, name, ParseTimeout(arg).value));
      } else {
        StoreFlagKeeps(s, sock, Key(level, name), ParseFlag(arg).value);
      }
    }
  }

  lemma {:induction false} CloseKeeps(s: State, fd: int)
    requires Inv(s)
    ensures Inv(Apply(s, CloseFd(fd)))
  {
    var t := if HasSock(s, fd) then DropAll(s, s.fds[fd].sock) else s;
    if HasSock(s, fd) {
      DropAllKeeps(s, s.fds[fd].sock);
    }
    SameWssKeeps(t, t.(fds := s.fds - {fd}));
  }

  lemma {:induction false} TableOpKeeps(s: State, op: Op)
    requires Inv(s)
    requires op.OpenSocket? || op.OpenFile? || op.GetOpt? || op.ErrorEvent?
    ensures Inv(Apply(s, op))
  {
    match op
    case OpenSocket(fd, kind) =>
      if fd !in s.fds {
        SameWssKeeps(s, OpenSock(s, fd, kind));
      }
    case OpenFile(fd) =>
      if fd !in s.fds {
        SameWssKeeps(s, s.(fds := s.fds[fd := File]));
      }
    case GetOpt(fd, _, _, _) =>
      if HasSock(s, fd) {
        SameWssKeeps(s, SetError(s, s.fds[fd].sock, None));
      }
    case ErrorEvent(ws) =>
      if ws in s.wss {
        SameWssKeeps(s, SetError(s, s.wss[ws].owner, Some(ECONNREFUSED)));
      }
  }

  lemma {:induction false} WsOpKeeps(s: State, op: Op)
    requires Inv(s)
    requires op.OpenEvent? || op.Shutdown? || op.ReadyChange? || op.FailConnect?
    ensures Inv(Apply(s, op))
  {
    match op
    case OpenEvent(ws) =>
      if ws in s.wss && s.wss[ws].ready != Connecting {
        FireOpenKeeps(s, ws);
      }
    case Shutdown(fd, ws) =>
      if HasSock(s, fd) && ws in WebSockets(s, s.fds[fd].sock) {
        DropOneKeeps(s, ws);
      }
    case FailConnect(ws, errno, throws) =>
      if ws in s.wss {
        CleanUpKeeps(s, ws, errno, throws);
      }
    case ReadyChange(ws, ready) =>
      if ws in s.wss && Rank(s.wss[ws].ready) < Rank(ready) {
        SetReadyKeeps(s, ws, ready);
      }
  }

  /** Every operation keeps the invariant. */
  lemma {:induction false} StepKeeps(s: State, op: Op)
    requires Inv(s)
    ensures Inv(Apply(s, op))
  {
    match op
    case SetOpt(fd, level, name, arg) => SetOptKeeps(s, fd, level, name, arg);
    case Connect(fd, canSet) =>
      if HasSock(s, fd) {
        ConnectKeeps(s, s.fds[fd].sock, canSet);
      }
    case CloseFd(fd) => CloseKeeps(s, fd);
    case OpenEvent(_) => WsOpKeeps(s, op);
    case Shutdown(_, _) => WsOpKeeps(s, op);
    case FailConnect(_, _, _) => WsOpKeeps(s, op);
    case ReadyChange(_, _) => WsOpKeeps(s, op);
    case OpenSocket(_, _) => TableOpKeeps(s, op);
    case OpenFile(_) => TableOpKeeps(s, op);
    case GetOpt(_, _, _, _) => TableOpKeeps(s, op);
    case ErrorEvent(_) => TableOpKeeps(s, op);
  }

  lemma {:induction false} RunKeeps(ops: seq<Op>)
    ensures Inv(Run(ops))
  {
    if ops != [] {
      RunKeeps(ops[..|ops| - 1]);
      StepKeeps(Run(ops[..|ops| - 1]), ops[|ops| - 1]);
    }
  }

  // ---------------------------------------------------------------- the promise over runs

  /** The WebSocket exists and the promise is kept for it. */
  ghost predicate Kept(s: State, w: WsId) {
    w in s.wss && Promise(s.wss[w], OptionsOf(s, s.wss[w].owner))
  }

  /** A clean-up took the WebSocket off its socket while close() threw and left it live. */
  ghost predicate Orphaned(ops: seq<Op>, w: WsId) {
    if ops == [] then false
    else
      var before, op := ops[..|ops| - 1], ops[|ops| - 1];
      || Orphaned(before, w)
      || (op.FailConnect? && op.ws == w && op.throws && w in Run(before).wss && Rank(Run(before).wss[w].ready) < 2)
  }

  /** The same WebSocket later: same socket, same class, orphaned only if it was before. */
  ghost predicate Follows(a: Ws, b: Ws) {
    b.owner == a.owner && b.canSet == a.canSet && (Orphan(b) ==> Orphan(a)) && (b.listed ==> a.listed)
  }

  lemma {:induction false} ConnectOnWs(s: State, fd: int, canSet: bool, w: WsId)
    requires w in s.wss && w < s.nextWs
    ensures w in Apply(s, Connect(fd, canSet)).wss && Follows(s.wss[w], Apply(s, Connect(fd, canSet)).wss[w])
  {
    if HasSock(s, fd) {
      assert AddPeer(s, s.fds[fd].sock, canSet).wss[w] == s.wss[w];
    }
  }

  lemma {:induction false} SetOptOnWs(s: State, fd: int, level: int, name: int, arg: OptArg, w: WsId)
    requires w in s.wss
    ensures
      var t := Apply(s, SetOpt(fd, level, name, arg));
      w in t.wss && Follows(s.wss[w], t.wss[w])
  {
  }

  lemma {:induction false} WsOpOnWs(s: State, op: Op, w: WsId)
    requires w in s.wss
    requires op.OpenEvent? || op.Shutdown? || op.ReadyChange?
    ensures w in Apply(s, op).wss && Follows(s.wss[w], Apply(s, op).wss[w])
  {
    match op
    case OpenEvent(ws) =>
      if ws in s.wss {
        EventOnWs(s, ws, w);
      }
    case Shutdown(_, _) =>
    case ReadyChange(_, _) =>
  }

  lemma {:induction false} EventOnWs(s: State, ws: WsId, w: WsId)
    requires w in s.wss && ws in s.wss
    ensures w in FireOpen(s, ws).wss && Follows(s.wss[w], FireOpen(s, ws).wss[w])
  {
  }

  lemma {:induction false} CloseOnWs(s: State, fd: int, w: WsId)
    requires w in s.wss
    ensures w in Apply(s, CloseFd(fd)).wss && Follows(s.wss[w], Apply(s, CloseFd(fd)).wss[w])
  {
  }

  lemma {:induction false} TableOpOnWs(s: State, op: Op)
    requires op.OpenSocket? || op.OpenFile? || op.GetOpt? || op.ErrorEvent?
    ensures Apply(s, op).wss == s.wss
  {
  }

  lemma {:induction false} FailureOnWs(s: State, ws: WsId, errno: Errno, throws: bool, w: WsId)
    requires w in s.wss
    ensures
      var t := Apply(s, FailConnect(ws, errno, throws));
      && w in t.wss
      && t.wss[w].owner == s.wss[w].owner
      && (Follows(s.wss[w], t.wss[w]) || (ws == w && throws && Rank(s.wss[w].ready) < 2))
  {
  }

  /** One operation on one WebSocket: it stays, and only a throwing clean-up can orphan it. */
  lemma {:induction false} StepOnWs(s: State, op: Op, w: WsId)
    requires Inv(s) && w in s.wss
    ensures w in Apply(s, op).wss && Apply(s, op).wss[w].owner == s.wss[w].owner
    ensures
      || Follows(s.wss[w], Apply(s, op).wss[w])
      || (op.FailConnect? && op.ws == w && op.throws && Rank(s.wss[w].ready) < 2)
  {
    match op
    case SetOpt(fd, level, name, arg) => SetOptOnWs(s, fd, level, name, arg, w);
    case Connect(fd, canSet) => ConnectOnWs(s, fd, canSet, w);
    case CloseFd(fd) => CloseOnWs(s, fd, w);
    case OpenEvent(_) => WsOpOnWs(s, op, w);
    case Shutdown(_, _) => WsOpOnWs(s, op, w);
    case ReadyChange(_, _) => WsOpOnWs(s, op, w);
    case FailConnect(ws, errno, throws) => FailureOnWs(s, ws, errno, throws, w);
    case OpenSocket(_, _) => TableOpOnWs(s, op);
    case OpenFile(_) => TableOpOnWs(s, op);
    case GetOpt(_, _, _, _) => TableOpOnWs(s, op);
    case ErrorEvent(_) => TableOpOnWs(s, op);
  }

  /** A WebSocket appears listed. */
  lemma {:induction false} NewWsIsListed(s: State, op: Op, w: WsId)
    requires w !in s.wss && w in Apply(s, op).wss
    ensures !Orphan(Apply(s, op).wss[w])
  {
  }

  lemma {:induction false} OrphansWereOrphaned(ops: seq<Op>, w: WsId)
    requires w in Run(ops).wss && Orphan(Run(ops).wss[w])
    ensures Orphaned(ops, w)
  {
    var before, op := ops[..|ops| - 1], ops[|ops| - 1];
    if w in Run(before).wss {
      RunKeeps(before);
      StepOnWs(Run(before), op, w);
      if Orphan(Run(before).wss[w]) {
        OrphansWereOrphaned(before, w);
      }
    } else {
      NewWsIsListed(Run(before), op, w);
    }
  }

  /**
    In every run the promise is kept for each WebSocket made by connect, unless a failed
    connect removed it from its socket after close() had thrown.
  */
  lemma {:induction false} ProxyAgreement(ops: seq<Op>, w: WsId)
    requires w in Run(ops).wss && !Orphaned(ops, w)
    ensures Kept(Run(ops), w)
  {
    RunKeeps(ops);
    assert AgreesAt(Run(ops), w);
    if Orphan(Run(ops).wss[w]) {
      OrphansWereOrphaned(ops, w);
    }
  }

  lemma {:induction false} RunAppend(ops: seq<Op>, op: Op)
    ensures Run(ops + [op]) == Apply(Run(ops), op)
  {
    assert (ops + [op])[..|ops|] == ops;
  }

  lemma {:induction false} StepStays(ops: seq<Op>, op: Op, w: WsId)
    requires w in Run(ops).wss
    ensures w in Run(ops + [op]).wss
  {
    RunAppend(ops, op);
    RunKeeps(ops);
    StepOnWs(Run(ops), op, w);
  }

  lemma {:induction false} WsStays(ops: seq<Op>, more: seq<Op>, w: WsId)
    requires w in Run(ops).wss
    ensures w in Run(ops + more).wss
  {
    if more == [] {
      assert ops + more == ops;
    } else {
      var m := |more| - 1;
      WsStays(ops, more[..m], w);
      assert ops + more == (ops + more[..m]) + [more[m]];
      StepStays(ops + more[..m], more[m], w);
    }
  }

  lemma {:induction false} StaysUnlisted(s: State, op: Op, w: WsId)
    requires Inv(s) && w in s.wss && !s.wss[w].listed
    ensures w in Apply(s, op).wss && !Apply(s, op).wss[w].listed
  {
    StepOnWs(s, op, w);
  }

  lemma {:induction false} OrphanedStaysUnlisted(ops: seq<Op>, w: WsId)
    requires Orphaned(ops, w)
    ensures w in Run(ops).wss && !Run(ops).wss[w].listed
  {
    var before, op := ops[..|ops| - 1], ops[|ops| - 1];
    RunKeeps(before);
    if Orphaned(before, w) {
      OrphanedStaysUnlisted(before, w);
      StaysUnlisted(Run(before), op, w);
    }
  }

  function Flag(on: bool): (a: OptArg) { Arg(4, 0, (if on then 1 else 0, 0), (0, 0)) }

  /** An orphan that waits to be told: OPEN, its handlers gone. */
  ghost predicate OpenOrphan(s: State, w: WsId, fd: int) {
    && w in s.wss && s.wss[w].ready == Open && !s.wss[w].listed && s.wss[w].canSet && s.wss[w].handlers == 0
    && HasSock(s, fd) && s.fds[fd].sock == s.wss[w].owner
  }

  lemma {:induction false} OrphanOpens(s: State, w: WsId, fd: int)
    requires w in s.wss && Orphan(s.wss[w]) && s.wss[w].canSet
    requires HasSock(s, fd) && s.fds[fd].sock == s.wss[w].owner
    ensures OpenOrphan(Apply(Apply(s, ReadyChange(w, Open)), OpenEvent(w)), w, fd)
  {
  }

  /** The next setsockopt passes an orphan by. */
  lemma {:induction false} FlagPassesBy(s: State, w: WsId, fd: int, on: bool)
    requires OpenOrphan(s, w, fd)
    requires
      var key := Key(SOL_SOCKET, SO_KEEPALIVE);
      key in s.wss[w].proxy ==> s.wss[w].proxy[key] != if on then 1 else 0
    ensures !Kept(Apply(s, SetOpt(fd, SOL_SOCKET, SO_KEEPALIVE, Flag(on))), w)
  {
    var key := Key(SOL_SOCKET, SO_KEEPALIVE);
    var t := Apply(s, SetOpt(fd, SOL_SOCKET, SO_KEEPALIVE, Flag(on)));
    assert t == StoreFlag(s, s.wss[w].owner, key, if on then 1 else 0);
    assert t.wss[w] == s.wss[w];
    assert key in OptionsOf(t, s.wss[w].owner);
  }

  lemma {:induction false} PassingFlag(ops: seq<Op>, w: WsId, fd: int) returns (op: Op)
    requires OpenOrphan(Run(ops), w, fd)
    ensures !Kept(Run(ops + [op]), w)
  {
    var s, key := Run(ops), Key(SOL_SOCKET, SO_KEEPALIVE);
    var on := !(key in s.wss[w].proxy && s.wss[w].proxy[key] == 1);
    op := SetOpt(fd, SOL_SOCKET, SO_KEEPALIVE, Flag(on));
    RunAppend(ops, op);
    FlagPassesBy(s, w, fd, on);
  }

  /** An orphan of an open descriptor breaks the promise once it opens and an option is set. */
  lemma {:induction false} OrphanBreaks(ops: seq<Op>, w: WsId, fd: int) returns (more: seq<Op>)
    requires w in Run(ops).wss && Orphan(Run(ops).wss[w]) && Run(ops).wss[w].canSet
    requires HasSock(Run(ops), fd) && Run(ops).fds[fd].sock == Run(ops).wss[w].owner
    ensures !Kept(Run(ops + more), w)
  {
    var one, two := ReadyChange(w, Open), OpenEvent(w);
    RunAppend(ops, one);
    RunAppend(ops + [one], two);
    OrphanOpens(Run(ops), w, fd);
    var three := PassingFlag(ops + [one] + [two], w, fd);
    more := [one, two, three];
    assert ops + more == ops + [one] + [two] + [three];
  }

  /** Whatever comes, unless it orphans the WebSocket, the promise is kept for it. */
  ghost predicate KeptFrom(ops: seq<Op>, more: seq<Op>, w: WsId) {
    (Orphaned(ops + more, w) ==> Orphaned(ops, w)) ==> Kept(Run(ops + more), w)
  }

  /**
    The exact condition. For a live WebSocket of an open descriptor, after any run: the
    promise is kept through every continuation that does not orphan it, if and only if
    the run has not orphaned it, that is, no failed connect took it off its socket
    after close() had thrown on it.
  */
  lemma {:induction false} PromiseExactly(ops: seq<Op>, w: WsId, fd: int)
    requires w in Run(ops).wss && Rank(Run(ops).wss[w].ready) < 2 && Run(ops).wss[w].canSet
    requires HasSock(Run(ops), fd) && Run(ops).fds[fd].sock == Run(ops).wss[w].owner
    ensures (forall more :: KeptFrom(ops, more, w)) <==> !Orphaned(ops, w)
  {
    if Orphaned(ops, w) {
      OrphanedStaysUnlisted(ops, w);
      var more := OrphanBreaks(ops, w, fd);
      assert !KeptFrom(ops, more, w);
    } else {
      forall more ensures KeptFrom(ops, more, w) {
        WsStays(ops, more, w);
        if !Orphaned(ops + more, w) {
          ProxyAgreement(ops + more, w);
        }
      }
    }
  }

  // ---------------------------------------------------------------- timeval round trip

  function Timeval(seconds: int, microseconds: int): (a: OptArg) {
    Arg(16, 0, (0, 0), (seconds, microseconds))
  }

  /**
    A timeout that was accepted reads back at least as long as requested, less than
    a millisecond longer, in normal form; setting what was read changes nothing.
  */
  lemma {:induction false} TimevalRoundTrip(s: State, fd: int, name: int, arg: OptArg)
    requires Inv(s)
    requires IsTimeout(SOL_SOCKET, name)
    requires SetOptError(s, fd, SOL_SOCKET, name, arg).None?
    ensures
      var t := ApplySetOpt(s, fd, SOL_SOCKET, name, arg);
      var r := GetOptResult(t, fd, SOL_SOCKET, name, 16);
      var asked := AskedMicros(arg);
      && r.GotTimeval? && 0 <= r.seconds && 0 <= r.microseconds < 1000000
      && asked <= r.seconds * 1000000 + r.microseconds < asked + 1000
      && ApplySetOpt(t, fd, SOL_SOCKET, name, Timeval(r.seconds, r.microseconds)) == t
  {
    var t := ApplySetOpt(s, fd, SOL_SOCKET, name, arg);
    var ms := ParseTimeout(arg).value;
    var r := GetOptResult(t, fd, SOL_SOCKET, name, 16);
    assert r == GotTimeval(ms / 1000, (ms % 1000) * 1000);
    assert ParseTimeout(Timeval(r.seconds, r.microseconds)) == Some(ms) by {
      assert (ms % 1000) * 1000 % 1000 == 0;
    }
    var sock := s.fds[fd].sock;
    assert t.timeouts[sock := t.timeouts[sock]] == t.timeouts;
  }
}
