/**
  The socket calls as the library runs them: objects updated in place, one table
  write or one message to the proxy at a time. Each call is proved equal to its
  operation in SocketOptions, whose runs carry the invariants.
*/
module SocketLayer {
  import opened Common
  import opened SocketOptions

  class Library {
    var fds: map<int, Descriptor>
    var socks: map<SockId, Sock>
    var wss: map<WsId, Ws>
    var timeouts: map<SockId, Timeouts>
    var options: map<SockId, Options>
    var nextSock: SockId
    var nextWs: WsId

    ghost function Abs(): (s: State)
      reads this
    {
      State(fds, socks, wss, timeouts, options, nextSock, nextWs)
    }

    constructor ()
      ensures Abs() == Run([])
    {
      fds, socks, wss, timeouts, options := map[], map[], map[], map[], map[];
      nextSock, nextWs := 0, 0;
    }

    /** sendSocketOption. */
    method SendSocketOption(ws: WsId, key: Key, value: int)
      requires ws in wss
      modifies this`wss
      ensures wss == old(wss)[ws := Sent(old(wss[ws]), key, value)]
    {
      if wss[ws].canSet {
        wss := wss[ws := wss[ws].(proxy := wss[ws].proxy[key := value])];
      }
    }

    /** The sendAll closure: one message for every stored option, in any order. */
    method SendAll(sock: SockId, ws: WsId)
      requires ws in wss
      modifies this`wss
      ensures wss == old(wss)[ws := SentAll(old(wss[ws]), OptionsOf(old(Abs()), sock))]
    {
      var all := if sock in options then options[sock] else map[];
      var todo := all.Keys;
      ghost var start := wss[ws];
      assert start.proxy + (all - todo) == start.proxy;
      while todo != {}
        invariant todo <= all.Keys && ws in wss
        invariant wss == old(wss)[ws := SentAll(start, all - todo)]
        decreases todo
      {
        var key :| key in todo;
        ghost var sent := all - todo;
        SendSocketOption(ws, key, all[key]);
        todo := todo - {key};
        assert start.proxy + (all - todo) == (start.proxy + sent)[key := all[key]];
      }
      assert all - {} == all;
    }

    /** What sendSocketOptionsOnOpen does for one WebSocket. */
    method SendOrRegister(sock: SockId, ws: WsId)
      requires ws in wss
      modifies this`wss
      ensures wss == old(wss)[ws := AfterConnect(old(wss[ws]), OptionsOf(old(Abs()), sock))]
    {
      if wss[ws].ready == Open {
        SendAll(sock, ws);
      } else if wss[ws].ready == Connecting {
        wss := wss[ws := wss[ws].(handlers := wss[ws].handlers + 1)];
      }
    }

    /** sendSocketOptionsOnOpen. */
    method SendSocketOptionsOnOpen(sock: SockId)
      modifies this`wss
      ensures Abs() == SendOnOpen(old(Abs()), sock)
    {
      var all := set w | w in wss && wss[w].owner == sock && wss[w].listed;
      var todo := all;
      ghost var target := SendOnOpen(Abs(), sock).wss;
      while todo != {}
        invariant todo <= all == WebSockets(old(Abs()), sock)
        invariant wss.Keys == old(wss).Keys
        invariant forall w :: w in wss ==> wss[w] == if w in todo then old(wss)[w] else target[w]
        decreases todo
      {
        var ws :| ws in todo;
        SendOrRegister(sock, ws);
        todo := todo - {ws};
      }
      assert wss == target;
    }

    /** The patched connect: SOCKFS's own first, then the options. */
    method ConnectSocket(fd: int, canSet: bool)
      requires HasSock(Abs(), fd)
      modifies this
      ensures Abs() == Apply(old(Abs()), Connect(fd, canSet))
    {
      var sock := fds[fd].sock;
      wss := wss[nextWs := Ws(sock, true, Connecting, canSet, 0, map[])];
      nextWs := nextWs + 1;
      SendSocketOptionsOnOpen(sock);
    }

    /** The 'open' event: each handler registered with once() runs sendAll and is gone. */
    method HandleOpen(ws: WsId)
      requires ws in wss && wss[ws].ready != Connecting
      modifies this`wss
      ensures Abs() == Apply(old(Abs()), OpenEvent(ws))
    {
      ghost var start := wss[ws];
      ghost var all := OptionsOf(Abs(), start.owner);
      while wss[ws].handlers > 0
        invariant ws in wss
        invariant wss[ws].handlers <= start.handlers
        invariant wss == old(wss)[ws := if wss[ws].handlers == start.handlers then start
                                        else SentAll(start, all).(handlers := wss[ws].handlers)]
        decreases wss[ws].handlers
      {
        wss := wss[ws := wss[ws].(handlers := wss[ws].handlers - 1)];
        SendAll(wss[ws].owner, ws);
        assert start.proxy + all + all == start.proxy + all;
      }
    }

    /** js_setsockopt; None is the 0 of success. */
    method SetSockOpt(fd: int, level: int, name: int, arg: OptArg) returns (errno: Option<Errno>)
      modifies this
      ensures errno == SetOptError(old(Abs()), fd, level, name, arg)
      ensures Abs() == Apply(old(Abs()), SetOpt(fd, level, name, arg))
    {
      if fd !in fds {
        return Some(EBADF);
      }
      if fds[fd].File? || fds[fd].sock !in socks {
        return Some(ENOTSOCK);
      }
      var sock := fds[fd].sock;
      if level == SOL_SOCKET && (name == SO_RCVTIMEO || name == SO_SNDTIMEO) {
        var ms := ParseTimeout(arg);
        if ms.None? {
          return Some(EINVAL);
        }
        var t := if sock in timeouts then timeouts[sock] else Timeouts(None, None);
        if name == SO_RCVTIMEO {
          t := t.(receive := ms);
        } else {
          t := t.(send := ms);
        }
        timeouts := timeouts[sock := t];
        return None;
      }
      if !IsProxied(socks[sock].kind, level, name) {
        return Some(ENOPROTOOPT);
      }
      var value := ParseFlag(arg);
      if value.None? {
        return Some(EINVAL);
      }
      StoreAndSend(sock, Key(level, name), value.value);
      return None;
    }

    /** What js_setsockopt does for one WebSocket. */
    method SendIfOpen(ws: WsId, key: Key, value: int)
      requires ws in wss
      modifies this`wss
      ensures wss == old(wss)[ws := AfterSet(old(wss[ws]), key, value)]
    {
      if wss[ws].ready == Open {
        SendSocketOption(ws, key, value);
      }
    }

    /** The end of js_setsockopt: the Map entry, then every OPEN WebSocket. */
    method StoreAndSend(sock: SockId, key: Key, value: int)
      modifies this`options, this`wss
      ensures Abs() == StoreFlag(old(Abs()), sock, key, value)
    {
      options := options[sock := (if sock in options then options[sock] else map[])[key := value]];
      var all := set w | w in wss && wss[w].owner == sock && wss[w].listed;
      var todo := all;
      ghost var target := StoreFlag(old(Abs()), sock, key, value).wss;
      while todo != {}
        modifies this`wss
        invariant todo <= all == WebSockets(old(Abs()), sock)
        invariant wss.Keys == old(wss).Keys
        invariant forall w :: w in wss ==> wss[w] == if w in todo then old(wss)[w] else target[w]
        decreases todo
      {
        var ws :| ws in todo;
        SendIfOpen(ws, key, value);
        todo := todo - {ws};
      }
      assert wss == target;
    }

    /** __syscall_getsockopt; `len` is the length the caller's buffer has. */
    method GetSockOpt(fd: int, level: int, name: int, len: int) returns (r: GetResult)
      modifies this`socks
      ensures r == GetOptResult(old(Abs()), fd, level, name, len)
      ensures Abs() == Apply(old(Abs()), GetOpt(fd, level, name, len))
    {
      if fd !in fds {
        return GetFailed(EBADF);
      }
      if fds[fd].File? || fds[fd].sock !in socks {
        return GetFailed(ENOTSOCK);
      }
      var sock := fds[fd].sock;
      if level == SOL_SOCKET && name == SO_ERROR {
        var error := socks[sock].error;
        socks := socks[sock := socks[sock].(error := None)];
        return if len < 4 then GetFailed(EINVAL) else GotError(error);
      }
      if level == SOL_SOCKET && name == SO_TYPE {
        return if len < 4 then GetFailed(EINVAL) else GotType(socks[sock].kind);
      }
      if level == SOL_SOCKET && (name == SO_RCVTIMEO || name == SO_SNDTIMEO) {
        if len < 16 {
          return GetFailed(EINVAL);
        }
        var t := if sock in timeouts then timeouts[sock] else Timeouts(None, None);
        var ms := OrZero(if name == SO_RCVTIMEO then t.receive else t.send);
        return GotTimeval(ms / 1000, (ms % 1000) * 1000);
      }
      if IsProxied(socks[sock].kind, level, name) {
        var m := if sock in options then options[sock] else map[];
        var value := if Key(level, name) in m then m[Key(level, name)] else 0;
        return if len < 4 then GetFailed(EINVAL) else GotInt(value);
      }
      return GetFailed(ENOPROTOOPT);
    }

    /** close() unless the WebSocket is ending already, and removePeer whether it threw or not. */
    method DropPeer(ws: WsId, throws: bool)
      requires ws in wss
      modifies this`wss
      ensures wss == old(wss)[ws := AfterFailure(old(wss[ws]), throws)]
    {
      if wss[ws].ready != Closing && wss[ws].ready != Closed && !throws {
        wss := wss[ws := wss[ws].(ready := Closing)];
      }
      wss := wss[ws := wss[ws].(listed := false)];
    }

    /** cleanupFailedConnect, `throws` telling whether ws.close() does. */
    method CleanupFailedConnect(ws: WsId, errno: Errno, throws: bool)
      requires ws in wss && wss[ws].owner in socks
      modifies this`wss, this`socks
      ensures Abs() == Apply(old(Abs()), FailConnect(ws, errno, throws))
      ensures Orphan(wss[ws]) <==> throws && Rank(old(wss[ws].ready)) < 2
    {
      var sock := wss[ws].owner;
      DropPeer(ws, throws);
      socks := socks[sock := socks[sock].(error := Some(errno))];
    }

    /** shutdownSocket on the peer SOCKFS lists first. */
    method ShutdownSocket(fd: int, ws: WsId)
      requires HasSock(Abs(), fd) && ws in WebSockets(Abs(), fds[fd].sock)
      modifies this`wss
      ensures Abs() == Apply(old(Abs()), Shutdown(fd, ws))
    {
      if wss[ws].ready != Closing && wss[ws].ready != Closed {
        wss := wss[ws := wss[ws].(ready := Closing)];
      }
      wss := wss[ws := wss[ws].(listed := false)];
    }
  }
}
