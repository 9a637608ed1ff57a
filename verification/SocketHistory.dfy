/**
  What a history of socket calls and events amounts to. The answers of getsockopt and
  setsockopt, and what the proxy is told, are proved against functions of it alone.
*/
module SocketHistory {
  import opened Common
  import opened SocketOptions

  /** How many sockets a history opened: the identity the next one gets. */
  function Opened(ops: seq<Op>): (n: nat) {
    if ops == [] then 0
    else
      var before := ops[..|ops| - 1];
      match ops[|ops| - 1]
      case OpenSocket(fd, _) => if Holder(before, fd).None? then Opened(before) + 1 else Opened(before)
      case _ => Opened(before)
  }

  /** Who holds a descriptor after a history: the last open of it not yet closed. */
  function Holder(ops: seq<Op>, fd: int): (d: Option<Descriptor>) {
    if ops == [] then None
    else
      var before := ops[..|ops| - 1];
      match ops[|ops| - 1]
      case OpenSocket(f, _) =>
        if f == fd && Holder(before, fd).None? then Some(Socket(Opened(before))) else Holder(before, fd)
      case OpenFile(f) =>
        if f == fd && Holder(before, fd).None? then Some(File) else Holder(before, fd)
      case CloseFd(f) => if f == fd then None else Holder(before, fd)
      case _ => Holder(before, fd)
  }

  /** The type a socket was opened with. */
  function KindOf(ops: seq<Op>, sock: SockId): (k: Option<SockType>) {
    if ops == [] then None
    else
      var before := ops[..|ops| - 1];
      match ops[|ops| - 1]
      case OpenSocket(fd, kind) =>
        if Holder(before, fd).None? && Opened(before) == sock then Some(kind) else KindOf(before, sock)
      case _ => KindOf(before, sock)
  }

  /** The last timeout a history stored for a socket, whatever descriptor it used. */
  function LastTimeout(ops: seq<Op>, sock: SockId, name: int): (ms: Option<nat>) {
    if ops == [] then None
    else
      var before := ops[..|ops| - 1];
      match ops[|ops| - 1]
      case SetOpt(fd, SOL, n, arg) =>
        if SOL == SOL_SOCKET && n == name && Holder(before, fd) == Some(Socket(sock)) && ParseTimeout(arg).Some?
        then ParseTimeout(arg)
        else LastTimeout(before, sock, name)
      case _ => LastTimeout(before, sock, name)
  }

  /** The last flag a history stored for a socket under a key. */
  function LastFlag(ops: seq<Op>, sock: SockId, key: Key): (v: Option<int>) {
    if ops == [] then None
    else
      var before := ops[..|ops| - 1];
      match ops[|ops| - 1]
      case SetOpt(fd, level, n, arg) =>
        if Key(level, n) == key && Holder(before, fd) == Some(Socket(sock)) && ParseFlag(arg).Some?
        then ParseFlag(arg)
        else LastFlag(before, sock, key)
      case _ => LastFlag(before, sock, key)
  }

  /** How many WebSockets a history's connects made: the identity the next one gets. */
  function Made(ops: seq<Op>): (n: nat) {
    if ops == [] then 0
    else
      var before := ops[..|ops| - 1];
      match ops[|ops| - 1]
      case Connect(fd, _) => if IsSocket(Holder(before, fd)) then Made(before) + 1 else Made(before)
      case _ => Made(before)
  }

  predicate IsSocket(holder: Option<Descriptor>) { holder.Some? && holder.value.Socket? }

  /** The socket whose connect made a WebSocket. */
  function OwnerOf(ops: seq<Op>, w: WsId): (sock: Option<SockId>) {
    if ops == [] then None
    else
      var before := ops[..|ops| - 1];
      match ops[|ops| - 1]
      case Connect(fd, _) =>
        if IsSocket(Holder(before, fd)) && Made(before) == w then Some(Holder(before, fd).value.sock) else OwnerOf(before, w)
      case _ => OwnerOf(before, w)
  }

  /** The error a socket has pending: of the last failure of one of its WebSockets, unless read since. */
  function PendingError(ops: seq<Op>, sock: SockId): (e: Option<Errno>) {
    if ops == [] then None
    else
      var before := ops[..|ops| - 1];
      match ops[|ops| - 1]
      case ErrorEvent(ws) => if OwnerOf(before, ws) == Some(sock) then Some(ECONNREFUSED) else PendingError(before, sock)
      case FailConnect(ws, errno, _) => if OwnerOf(before, ws) == Some(sock) then Some(errno) else PendingError(before, sock)
      case GetOpt(fd, level, name, _) =>
        if level == SOL_SOCKET && name == SO_ERROR && Holder(before, fd) == Some(Socket(sock)) then None
        else PendingError(before, sock)
      case _ => PendingError(before, sock)
  }

  /** The parts of the state that an operation leaves alone. */
  lemma {:induction false} StepFrame(s: State, op: Op)
    ensures var t := Apply(s, op);
      && (!op.SetOpt? ==> t.timeouts == s.timeouts && t.options == s.options)
      && (!op.OpenSocket? ==> t.nextSock == s.nextSock && t.socks.Keys == s.socks.Keys)
      && (!op.OpenSocket? && !op.OpenFile? && !op.CloseFd? ==> t.fds == s.fds)
      && (!op.GetOpt? && !op.OpenSocket? && !op.ErrorEvent? && !op.FailConnect? ==> t.socks == s.socks)
  {
    match op
    case SetOpt(fd, level, name, arg) => SetFrame(s, fd, level, name, arg);
    case Connect(fd, _) =>
    case CloseFd(_) =>
    case _ =>
  }

  lemma {:induction false} SetFrame(s: State, fd: int, level: int, name: int, arg: OptArg)
    ensures
      var t := ApplySetOpt(s, fd, level, name, arg);
      t.nextSock == s.nextSock && t.socks == s.socks && t.fds == s.fds
  {
  }

  /** No operation changes the type of a socket object. */
  lemma {:induction false} KindFrame(s: State, op: Op, sock: SockId)
    requires sock in s.socks && sock < s.nextSock
    ensures sock in Apply(s, op).socks && Apply(s, op).socks[sock].kind == s.socks[sock].kind
  {
    StepFrame(s, op);
  }

  lemma {:induction false} HistoryOfHolder(ops: seq<Op>, fd: int)
    ensures Run(ops).nextSock == Opened(ops)
    ensures Holder(ops, fd) == if fd in Run(ops).fds then Some(Run(ops).fds[fd]) else None
    decreases |ops|
  {
    if ops != [] {
      var before, op := ops[..|ops| - 1], ops[|ops| - 1];
      HistoryOfHolder(before, fd);
      StepFrame(Run(before), op);
      if op.OpenSocket? {
        HistoryOfHolder(before, op.fd);
      }
    }
  }

  lemma {:induction false} HistoryOfKind(ops: seq<Op>, sock: SockId)
    ensures KindOf(ops, sock) == if sock in Run(ops).socks then Some(Run(ops).socks[sock].kind) else None
  {
    if ops != [] {
      var before, op := ops[..|ops| - 1], ops[|ops| - 1];
      HistoryOfKind(before, sock);
      RunKeeps(before);
      StepFrame(Run(before), op);
      if op.OpenSocket? {
        HistoryOfHolder(before, op.fd);
      }
      if sock in Run(before).socks {
        KindFrame(Run(before), op, sock);
      }
    }
  }

  lemma {:induction false} NewWs(s: State, op: Op)
    ensures
      var made := op.Connect? && HasSock(s, op.fd);
      && Apply(s, op).nextWs == (if made then s.nextWs + 1 else s.nextWs)
      && Apply(s, op).wss.Keys == s.wss.Keys + (if made then {s.nextWs} else {})
      && (made ==> Apply(s, op).wss[s.nextWs].owner == s.fds[op.fd].sock)
  {
  }

  lemma {:induction false} HistoryOfMade(ops: seq<Op>)
    ensures Run(ops).nextWs == Made(ops)
  {
    if ops != [] {
      var before, op := ops[..|ops| - 1], ops[|ops| - 1];
      HistoryOfMade(before);
      NewWs(Run(before), op);
      if op.Connect? {
        RunKeeps(before);
        HistoryOfHolder(before, op.fd);
      }
    }
  }

  /** The WebSockets of a state are those its history made, each of the socket that connected. */
  lemma {:induction false} HistoryOfOwners(ops: seq<Op>, w: WsId)
    ensures OwnerOf(ops, w) == if w in Run(ops).wss then Some(Run(ops).wss[w].owner) else None
  {
    if ops != [] {
      var before, op := ops[..|ops| - 1], ops[|ops| - 1];
      HistoryOfOwners(before, w);
      HistoryOfMade(before);
      RunKeeps(before);
      NewWs(Run(before), op);
      if w in Run(before).wss {
        StepOnWs(Run(before), op, w);
      }
      if op.Connect? {
        HistoryOfHolder(before, op.fd);
      }
    }
  }

  /** What one operation does to the error of a socket. */
  lemma {:induction false} ErrorStep(s: State, op: Op, sock: SockId)
    requires Inv(s) && sock in s.socks
    ensures
      var t := Apply(s, op);
      && sock in t.socks
      && t.socks[sock].error ==
           if op.ErrorEvent? && op.ws in s.wss && s.wss[op.ws].owner == sock then Some(ECONNREFUSED)
           else if op.FailConnect? && op.ws in s.wss && s.wss[op.ws].owner == sock then Some(op.errno)
           else if op.GetOpt? && HasSock(s, op.fd) && s.fds[op.fd].sock == sock
                   && op.level == SOL_SOCKET && op.name == SO_ERROR then None
           else s.socks[sock].error
  {
    StepFrame(s, op);
  }

  lemma {:induction false} NoErrorYet(ops: seq<Op>, sock: SockId)
    requires sock !in Run(ops).socks
    ensures PendingError(ops, sock).None?
  {
    if ops != [] {
      var before, op := ops[..|ops| - 1], ops[|ops| - 1];
      HistoryOfKind(ops, sock);
      HistoryOfKind(before, sock);
      NoErrorYet(before, sock);
      RunKeeps(before);
      if op.ErrorEvent? || op.FailConnect? {
        HistoryOfOwners(before, op.ws);
      }
    }
  }

  lemma {:induction false} FreshSocketHasNoError(s: State, op: Op, sock: SockId)
    requires sock !in s.socks && sock in Apply(s, op).socks
    ensures Apply(s, op).socks[sock].error.None? && op.OpenSocket?
  {
    StepFrame(s, op);
  }

  lemma {:induction false} HistoryOfErrors(ops: seq<Op>, sock: SockId)
    requires sock in Run(ops).socks
    ensures Run(ops).socks[sock].error == PendingError(ops, sock)
  {
    var before, op := ops[..|ops| - 1], ops[|ops| - 1];
    RunKeeps(before);
    if sock in Run(before).socks {
      HistoryOfErrors(before, sock);
      ErrorStep(Run(before), op, sock);
      if op.ErrorEvent? || op.FailConnect? {
        HistoryOfOwners(before, op.ws);
      }
      if op.GetOpt? {
        HistoryOfHolder(before, op.fd);
      }
    } else {
      FreshSocketHasNoError(Run(before), op, sock);
      NoErrorYet(before, sock);
    }
  }

  /** The two timeouts of a socket object are those last set, each in its own field. */
  lemma {:induction false} TimeoutFields(ops: seq<Op>, sock: SockId)
    ensures TimeoutsOf(Run(ops), sock).receive == LastTimeout(ops, sock, SO_RCVTIMEO)
    ensures TimeoutsOf(Run(ops), sock).send == LastTimeout(ops, sock, SO_SNDTIMEO)
  {
    HistoryOfTimeouts(ops, sock, SO_RCVTIMEO);
    HistoryOfTimeouts(ops, sock, SO_SNDTIMEO);
  }

  lemma {:induction false} HistoryOfTimeouts(ops: seq<Op>, sock: SockId, name: int)
    requires name == SO_RCVTIMEO || name == SO_SNDTIMEO
    ensures Pick(TimeoutsOf(Run(ops), sock), name) == LastTimeout(ops, sock, name)
  {
    if ops != [] {
      var before, op := ops[..|ops| - 1], ops[|ops| - 1];
      HistoryOfTimeouts(before, sock, name);
      StepFrame(Run(before), op);
      if op.SetOpt? {
        HistoryOfHolder(before, op.fd);
        RunKeeps(before);
      }
    }
  }

  lemma {:induction false} HistoryOfFlags(ops: seq<Op>, sock: SockId, key: Key)
    requires KindOf(ops, sock).Some? && IsProxied(KindOf(ops, sock).value, key.level, key.name)
    ensures LastFlag(ops, sock, key) ==
      if key in OptionsOf(Run(ops), sock) then Some(OptionsOf(Run(ops), sock)[key]) else None
  {
    var before, op := ops[..|ops| - 1], ops[|ops| - 1];
    StepFrame(Run(before), op);
    if KindOf(before, sock).Some? {
      HistoryOfKind(before, sock);
      HistoryOfKind(ops, sock);
      RunKeeps(before);
      KindFrame(Run(before), op, sock);
      HistoryOfFlags(before, sock, key);
      if op.SetOpt? {
        HistoryOfHolder(before, op.fd);
      }
    } else {
      NoFlagYet(before, sock, key);
    }
  }

  /** A socket object that does not exist yet has no history. */
  lemma {:induction false} NoFlagYet(ops: seq<Op>, sock: SockId, key: Key)
    requires KindOf(ops, sock).None?
    ensures LastFlag(ops, sock, key).None? && sock !in Run(ops).options
  {
    HistoryOfKind(ops, sock);
    RunKeeps(ops);
    if ops != [] {
      var before, op := ops[..|ops| - 1], ops[|ops| - 1];
      NoFlagYet(before, sock, key);
      if op.SetOpt? {
        HistoryOfHolder(before, op.fd);
        HistoryOfKind(before, sock);
        RunKeeps(before);
      }
    }
  }

  /**
    getsockopt refines the history: on a socket descriptor it answers the last value
    stored for the very socket object that holds the descriptor now, 0 when that
    object never had one; SO_ERROR the error that object has pending, SO_TYPE the type
    it was opened with. What an earlier holder of the number stored is never seen.
  */
  lemma {:induction false} GetRefinesHistory(ops: seq<Op>, fd: int, level: int, name: int, len: int)
    requires Holder(ops, fd).Some? && Holder(ops, fd).value.Socket?
    ensures
      var sock := Holder(ops, fd).value.sock;
      var r := GetOptResult(Run(ops), fd, level, name, len);
      && KindOf(ops, sock).Some?
      && (IsTimeout(level, name) && len >= 16 ==>
            var ms := OrZero(LastTimeout(ops, sock, name));
            r.GotTimeval? && r.seconds * 1000000 + r.microseconds == ms * 1000 && 0 <= r.microseconds < 1000000)
      && (IsProxied(KindOf(ops, sock).value, level, name) && len >= 4 ==>
            var v := LastFlag(ops, sock, Key(level, name));
            r == GotInt(if v.Some? then v.value else 0))
      && (level == SOL_SOCKET && name == SO_ERROR && len >= 4 ==> r == GotError(PendingError(ops, sock)))
      && (level == SOL_SOCKET && name == SO_TYPE && len >= 4 ==> r == GotType(KindOf(ops, sock).value))
  {
    HistoryOfHolder(ops, fd);
    RunKeeps(ops);
    var sock := Holder(ops, fd).value.sock;
    HistoryOfKind(ops, sock);
    assert fd in Run(ops).fds && Run(ops).fds[fd].sock in Run(ops).socks;
    HistoryOfErrors(ops, sock);
    if IsTimeout(level, name) {
      HistoryOfTimeouts(ops, sock, name);
    }
    if IsProxied(KindOf(ops, sock).value, level, name) {
      HistoryOfFlags(ops, sock, Key(level, name));
    }
  }

  lemma {:induction false} NewSocketReadsZero(s: State, fd: int, kind: SockType, level: int, name: int, len: int)
    requires TablesFit(s) && fd !in s.fds
    ensures
      var r := GetOptResult(OpenSock(s, fd, kind), fd, level, name, len);
      && (IsTimeout(level, name) && len >= 16 ==> r == GotTimeval(0, 0))
      && (IsProxied(kind, level, name) && len >= 4 ==> r == GotInt(0))
  {
    assert s.nextSock !in s.timeouts && s.nextSock !in s.options;
  }

  /** A socket just opened on a reused number reads 0 everywhere. */
  lemma {:induction false} ReusedDescriptorReadsZero(ops: seq<Op>, fd: int, kind: SockType, level: int, name: int, len: int)
    requires Holder(ops, fd).None?
    ensures
      var r := GetOptResult(Run(ops + [OpenSocket(fd, kind)]), fd, level, name, len);
      && (IsTimeout(level, name) && len >= 16 ==> r == GotTimeval(0, 0))
      && (IsProxied(kind, level, name) && len >= 4 ==> r == GotInt(0))
  {
    HistoryOfHolder(ops, fd);
    RunKeeps(ops);
    RunAppend(ops, OpenSocket(fd, kind));
    NewSocketReadsZero(Run(ops), fd, kind, level, name, len);
  }

  // ---------------------------------------------------------------- errors

  /** The options of a socket that can be set, by the numbers of the C headers. */
  predicate Settable(kind: SockType, level: int, name: int) {
    || (level == 1 && (name == 9 || name == 66 || name == 67))   // SO_KEEPALIVE, SO_RCVTIMEO, SO_SNDTIMEO
    || (level == 6 && name == 1 && kind == StreamSock)           // TCP_NODELAY
  }

  /** An argument that setsockopt can use: a whole timeval without a negative part, or a byte or more. */
  predicate Usable(name: int, arg: OptArg) {
    && arg.Arg?
    && (if name == 66 || name == 67 then
          && arg.len >= 8
          && (arg.len < 16 ==> arg.word32.0 >= 0 && arg.word32.1 >= 0)
          && (arg.len >= 16 ==> arg.word64.0 >= 0 && arg.word64.1 >= 0)
        else arg.len >= 1)
  }

  /** What setsockopt answers after any history: success exactly for a socket, a known option and a usable argument. */
  lemma {:induction false} SetAnswers(ops: seq<Op>, fd: int, level: int, name: int, arg: OptArg)
    ensures
      var e, holder := SetOptError(Run(ops), fd, level, name, arg), Holder(ops, fd);
      && (holder.None? ==> e == Some(EBADF))
      && (holder == Some(File) ==> e == Some(ENOTSOCK))
      && (IsSocket(holder) ==>
            && KindOf(ops, holder.value.sock).Some?
            && var known := Settable(KindOf(ops, holder.value.sock).value, level, name);
            && (!known ==> e == Some(ENOPROTOOPT))
            && (known && !Usable(name, arg) ==> e == Some(EINVAL))
            && (known && Usable(name, arg) ==> e.None?))
  {
    HistoryOfHolder(ops, fd);
    RunKeeps(ops);
    if IsSocket(Holder(ops, fd)) {
      HistoryOfKind(ops, Holder(ops, fd).value.sock);
    }
  }

  /** When getsockopt fails after any history. */
  lemma {:induction false} GetFailures(ops: seq<Op>, fd: int, level: int, name: int, len: int)
    ensures
      var r, holder := GetOptResult(Run(ops), fd, level, name, len), Holder(ops, fd);
      && (holder.None? ==> r == GetFailed(EBADF))
      && (holder == Some(File) ==> r == GetFailed(ENOTSOCK))
      && (IsSocket(holder) ==>
            && KindOf(ops, holder.value.sock).Some?
            && var known := Settable(KindOf(ops, holder.value.sock).value, level, name) || (level == 1 && (name == 3 || name == 4));
            && var size := if level == 1 && (name == 66 || name == 67) then 16 else 4;
            && (!known ==> r == GetFailed(ENOPROTOOPT))
            && (known && len < size ==> r == GetFailed(EINVAL))
            && (known && len >= size ==> !r.GetFailed?))
  {
    HistoryOfHolder(ops, fd);
    RunKeeps(ops);
    if IsSocket(Holder(ops, fd)) {
      HistoryOfKind(ops, Holder(ops, fd).value.sock);
    }
  }

  // ---------------------------------------------------------------- peers

  /** A WebSocket as closing and removing it leaves it. */
  ghost predicate Gone(before: Ws, after: Ws) {
    && !after.listed && Ending(after.ready) && (Ending(before.ready) ==> after.ready == before.ready)
    && after == before.(listed := false, ready := after.ready)
  }

  /** shutdown closes and removes the one peer and leaves everything else alone. */
  lemma {:induction false} ShutdownCloses(s: State, fd: int, ws: WsId)
    requires HasSock(s, fd) && ws in WebSockets(s, s.fds[fd].sock)
    ensures
      var t := Apply(s, Shutdown(fd, ws));
      && t.wss.Keys == s.wss.Keys && t == s.(wss := t.wss) && Gone(s.wss[ws], t.wss[ws])
      && forall w :: w in s.wss && w != ws ==> t.wss[w] == s.wss[w]
  {
  }

  /** close removes the descriptor, and closes and removes every peer of its socket and no other. */
  lemma {:induction false} CloseClosesPeers(s: State, fd: int)
    requires HasSock(s, fd)
    ensures
      var t := Apply(s, CloseFd(fd));
      && t.fds == s.fds - {fd} && t.wss.Keys == s.wss.Keys && t == s.(fds := t.fds, wss := t.wss)
      && WebSockets(t, s.fds[fd].sock) == {}
      && forall w :: w in s.wss ==>
           if w in WebSockets(s, s.fds[fd].sock) then Gone(s.wss[w], t.wss[w]) else t.wss[w] == s.wss[w]
  {
  }

  /** connect makes one WebSocket: CONNECTING, listed, with its handler and nothing sent. */
  lemma {:induction false} ConnectMakes(s: State, fd: int, canSet: bool)
    requires Inv(s) && HasSock(s, fd)
    ensures
      var t := Apply(s, Connect(fd, canSet));
      && s.nextWs !in s.wss && t.wss.Keys == s.wss.Keys + {s.nextWs}
      && t.wss[s.nextWs] == Ws(s.fds[fd].sock, true, Connecting, canSet, 1, map[])
      && forall w :: w in s.wss && (s.wss[w].owner != s.fds[fd].sock || !s.wss[w].listed) ==> t.wss[w] == s.wss[w]
  {
    var sock := s.fds[fd].sock;
    assert AddPeer(s, sock, canSet).wss[s.nextWs] == Ws(sock, true, Connecting, canSet, 0, map[]);
  }

  /** A WebSocket whose class has no setSocketOpt() is never told anything. */
  lemma {:induction false} NotToldWithoutSetter(ops: seq<Op>, w: WsId)
    requires w in Run(ops).wss && !Run(ops).wss[w].canSet
    ensures Run(ops).wss[w].proxy == map[]
  {
    RunKeeps(ops);
    assert AgreesAt(Run(ops), w);
  }

  /** setsockopt tells every OPEN WebSocket of its socket at once, its 'open' event delivered or not. */
  lemma {:induction false} SetReachesOpen(ops: seq<Op>, fd: int, level: int, name: int, arg: OptArg, w: WsId)
    requires IsSocket(Holder(ops, fd)) && w in Run(ops).wss
    requires OwnerOf(ops, w) == Some(Holder(ops, fd).value.sock)
    requires Run(ops).wss[w].listed && Run(ops).wss[w].ready == Open && Run(ops).wss[w].canSet
    requires SetOptError(Run(ops), fd, level, name, arg).None? && !IsTimeout(level, name)
    ensures
      var t := Run(ops + [SetOpt(fd, level, name, arg)]);
      && w in t.wss && Key(level, name) in t.wss[w].proxy
      && ParseFlag(arg) == Some(t.wss[w].proxy[Key(level, name)])
  {
    RunAppend(ops, SetOpt(fd, level, name, arg));
    HistoryOfHolder(ops, fd);
    HistoryOfOwners(ops, w);
    StoreReachesOpen(Run(ops), Holder(ops, fd).value.sock, Key(level, name), ParseFlag(arg).value, w);
  }

  lemma {:induction false} StoreReachesOpen(s: State, sock: SockId, key: Key, value: int, w: WsId)
    requires w in WebSockets(s, sock) && s.wss[w].ready == Open && s.wss[w].canSet
    ensures
      var t := StoreFlag(s, sock, key, value);
      w in t.wss && key in t.wss[w].proxy && t.wss[w].proxy[key] == value
  {
  }

  /** The 'open' event has been delivered to a WebSocket. */
  ghost predicate Fired(ops: seq<Op>, w: WsId) {
    if ops == [] then false
    else
      var before := ops[..|ops| - 1];
      || Fired(before, w)
      || (ops[|ops| - 1] == OpenEvent(w) && w in Run(before).wss && Run(before).wss[w].ready != Connecting)
  }

  ghost predicate HasOpened(ws: Ws) { ws.handlers == 0 && ws.ready != Connecting }

  lemma {:induction false} SetKeepsOpened(s: State, fd: int, level: int, name: int, arg: OptArg, w: WsId)
    requires w in s.wss && HasOpened(s.wss[w])
    ensures
      var t := Apply(s, SetOpt(fd, level, name, arg));
      w in t.wss && HasOpened(t.wss[w])
  {
  }

  lemma {:induction false} ConnectKeepsOpened(s: State, fd: int, canSet: bool, w: WsId)
    requires w in s.wss && w < s.nextWs && HasOpened(s.wss[w])
    ensures
      var t := Apply(s, Connect(fd, canSet));
      w in t.wss && HasOpened(t.wss[w])
  {
    if HasSock(s, fd) {
      assert AddPeer(s, s.fds[fd].sock, canSet).wss[w] == s.wss[w];
    }
  }

  lemma {:induction false} CloseKeepsOpened(s: State, fd: int, w: WsId)
    requires w in s.wss && HasOpened(s.wss[w])
    ensures w in Apply(s, CloseFd(fd)).wss && HasOpened(Apply(s, CloseFd(fd)).wss[w])
  {
  }

  lemma {:induction false} FailureKeepsOpened(s: State, ws: WsId, errno: Errno, throws: bool, w: WsId)
    requires w in s.wss && HasOpened(s.wss[w])
    ensures
      var t := Apply(s, FailConnect(ws, errno, throws));
      w in t.wss && HasOpened(t.wss[w])
  {
  }

  lemma {:induction false} WsOpKeepsOpened(s: State, op: Op, w: WsId)
    requires w in s.wss && HasOpened(s.wss[w]) && (op.OpenEvent? || op.Shutdown? || op.ReadyChange?)
    ensures w in Apply(s, op).wss && HasOpened(Apply(s, op).wss[w])
  {
  }

  lemma {:induction false} StaysOpened(s: State, op: Op, w: WsId)
    requires Inv(s) && w in s.wss && HasOpened(s.wss[w])
    ensures w in Apply(s, op).wss && HasOpened(Apply(s, op).wss[w])
  {
    match op
    case SetOpt(fd, level, name, arg) => SetKeepsOpened(s, fd, level, name, arg, w);
    case Connect(fd, canSet) => ConnectKeepsOpened(s, fd, canSet, w);
    case CloseFd(fd) => CloseKeepsOpened(s, fd, w);
    case OpenEvent(_) => WsOpKeepsOpened(s, op, w);
    case Shutdown(_, _) => WsOpKeepsOpened(s, op, w);
    case ReadyChange(_, _) => WsOpKeepsOpened(s, op, w);
    case FailConnect(ws, errno, throws) => FailureKeepsOpened(s, ws, errno, throws, w);
    case OpenSocket(_, _) => TableOpOnWs(s, op);
    case OpenFile(_) => TableOpOnWs(s, op);
    case GetOpt(_, _, _, _) => TableOpOnWs(s, op);
    case ErrorEvent(_) => TableOpOnWs(s, op);
  }

  lemma {:induction false} FiredHasOpened(ops: seq<Op>, w: WsId)
    requires Fired(ops, w)
    ensures w in Run(ops).wss && HasOpened(Run(ops).wss[w])
  {
    var before, op := ops[..|ops| - 1], ops[|ops| - 1];
    if Fired(before, w) {
      FiredHasOpened(before, w);
      RunKeeps(before);
      StaysOpened(Run(before), op, w);
    }
  }

  /**
    From the 'open' event on, for as long as the WebSocket is OPEN and unless it was
    orphaned, the proxy has been told exactly what the history stored last for the
    socket, option by option.
  */
  lemma {:induction false} ToldFromOpenOn(ops: seq<Op>, w: WsId, key: Key)
    requires Fired(ops, w) && !Orphaned(ops, w)
    requires w in Run(ops).wss && Run(ops).wss[w].ready == Open && Run(ops).wss[w].canSet
    ensures
      var ws := Run(ops).wss[w];
      && OwnerOf(ops, w) == Some(ws.owner)
      && ws.proxy == OptionsOf(Run(ops), ws.owner)
      && KindOf(ops, ws.owner).Some?
      && (IsProxied(KindOf(ops, ws.owner).value, key.level, key.name) ==>
            LastFlag(ops, ws.owner, key) == if key in ws.proxy then Some(ws.proxy[key]) else None)
  {
    FiredHasOpened(ops, w);
    ProxyAgreement(ops, w);
    RunKeeps(ops);
    HistoryOfOwners(ops, w);
    var sock := Run(ops).wss[w].owner;
    HistoryOfKind(ops, sock);
    if IsProxied(KindOf(ops, sock).value, key.level, key.name) {
      HistoryOfFlags(ops, sock, key);
    }
  }

  lemma {:induction false} OpensAndTells(s: State, w: WsId)
    requires w in s.wss && s.wss[w].ready == Connecting && s.wss[w].handlers > 0 && s.wss[w].canSet && s.wss[w].proxy == map[]
    ensures
      var t := Apply(Apply(s, ReadyChange(w, Open)), OpenEvent(w));
      && w in t.wss && t.options == s.options
      && t.wss[w] == s.wss[w].(ready := Open, handlers := 0, proxy := OptionsOf(s, s.wss[w].owner))
  {
    var r := Apply(s, ReadyChange(w, Open));
    assert r.wss[w] == s.wss[w].(ready := Open);
    assert map[] + OptionsOf(s, s.wss[w].owner) == OptionsOf(s, s.wss[w].owner);
  }

  /** After any run, a connection that is made and opens is told every option set on its socket before. */
  lemma {:induction false} OptionsArrive(ops: seq<Op>, fd: int)
    requires IsSocket(Holder(ops, fd))
    ensures
      var w, sock := Made(ops), Holder(ops, fd).value.sock;
      var t := Run(ops + [Connect(fd, true)] + [ReadyChange(w, Open)] + [OpenEvent(w)]);
      w in t.wss && t.wss[w] == Ws(sock, true, Open, true, 0, OptionsOf(Run(ops), sock))
  {
    var w := Made(ops);
    HistoryOfMade(ops);
    HistoryOfHolder(ops, fd);
    RunKeeps(ops);
    RunAppend(ops, Connect(fd, true));
    RunAppend(ops + [Connect(fd, true)], ReadyChange(w, Open));
    RunAppend(ops + [Connect(fd, true)] + [ReadyChange(w, Open)], OpenEvent(w));
    ConnectMakes(Run(ops), fd, true);
    StepFrame(Run(ops), Connect(fd, true));
    OpensAndTells(Run(ops + [Connect(fd, true)]), w);
  }

  // ---------------------------------------------------------------- round trips

  /** A flag that was accepted reads back as 1 if any bit of the int (or the byte) passed was set, else 0. */
  lemma {:induction false} FlagRoundTrip(ops: seq<Op>, fd: int, level: int, name: int, arg: OptArg)
    requires IsSocket(Holder(ops, fd)) && KindOf(ops, Holder(ops, fd).value.sock).Some?
    requires Settable(KindOf(ops, Holder(ops, fd).value.sock).value, level, name) && !IsTimeout(level, name)
    requires Usable(name, arg)
    ensures
      var passed := if arg.len >= 4 then arg.word32.0 else arg.byte0;
      GetOptResult(Run(ops + [SetOpt(fd, level, name, arg)]), fd, level, name, 4) == GotInt(if passed == 0 then 0 else 1)
  {
    RunAppend(ops, SetOpt(fd, level, name, arg));
    HistoryOfHolder(ops, fd);
    RunKeeps(ops);
    HistoryOfKind(ops, Holder(ops, fd).value.sock);
  }
}
