/**
  dba_open and dba_close as the extension runs them: streams opened one by one, the
  connection's fields assigned as they come, and one clean-up for every failure exit.
  Each call is proved equal to its operation in DbaTable.
*/
module DbaCalls {
  import opened Common
  import opened DbaTable

  class Dba {
    var connections: seq<Entry>
    var counter: nat
    var open: set<StreamId>
    var closed: seq<StreamId>
    var next: StreamId

    ghost function Abs(): (s: State)
      reads this
    {
      State(connections, counter, open, closed, next)
    }

    /** Stream numbers are handed out in order. */
    ghost predicate Valid()
      reads this
    {
      forall x :: x in open ==> x < next
    }

    constructor ()
      ensures Valid() && Abs() == Run([])
    {
      connections, counter, open, closed, next := [], 0, {}, [], 0;
    }

    /** php_dba_find. */
    method FindConnection(path: string) returns (r: Option<Entry>)
      ensures r == Find(connections, path)
    {
      var i := 0;
      while i < |connections|
        invariant 0 <= i <= |connections|
        invariant Find(connections[i..], path) == Find(connections, path)
      {
        if connections[i].path == path {
          return Some(connections[i]);
        }
        assert connections[i..][1..] == connections[i + 1..];
        i := i + 1;
      }
      return None;
    }

    /** php_stream_open_wrapper. */
    method OpenStream(works: bool) returns (fp: Option<StreamId>)
      requires Valid()
      modifies this`open, this`next
      ensures Valid()
      ensures fp == if works then Some(old(next)) else None
      ensures open == old(open) + (if works then {old(next)} else {})
      ensures next == old(next) + if works then 1 else 0
    {
      fp := None;
      if works {
        fp := Some(next);
        open := open + {next};
        next := next + 1;
      }
    }

    /** php_stream_free. */
    method FreeStream(id: StreamId)
      requires Valid() && id in open
      modifies this`open, this`closed
      ensures Valid()
      ensures open == old(open) - {id} && closed == old(closed) + [id]
    {
      open := open - {id};
      closed := closed + [id];
    }

    /** dba_close_info: a stream shared by database and lock is closed once. */
    method CloseInfo(fp: Option<StreamId>, lockFp: Option<StreamId>)
      requires Valid()
      requires (fp.Some? ==> fp.value in open) && (lockFp.Some? ==> lockFp.value in open)
      modifies this`open, this`closed
      ensures Valid()
      ensures open == old(open) - SetOf(Streams(fp, lockFp))
      ensures closed == old(closed) + Streams(fp, lockFp)
    {
      if fp.Some? && fp != lockFp {
        FreeStream(fp.value);
      }
      if lockFp.Some? {
        FreeStream(lockFp.value);
      }
    }

    /** From "if (!error && lock_mode)" to the lock itself. */
    method EstablishLock(p: Parsed, path: string, env: Env)
      returns (lockFp: Option<StreamId>, path': string, goesOn: bool)
      requires Valid() && p.Parsed?
      modifies this`open, this`next
      ensures Valid()
      ensures LockStage(p, path, env, old(next)) == Locked(lockFp, path', goesOn, next)
      ensures open == old(open) + SetOf(Streams(None, lockFp))
    {
      lockFp, path', goesOn := None, path, true;
      if p.lock == NoLock {
        return;
      }
      if !p.dbLock && p.rw == Reader {
        lockFp := OpenStream(env.lckExists);
      }
      if lockFp.None? {
        lockFp := OpenStream(env.lockOpens);
        if lockFp.Some? && p.dbLock {
          if env.openedPath.Some? {
            path' := env.openedPath.value;
          } else {
            goesOn := false;
          }
        }
      }
      if lockFp.None? {
        goesOn := false;
        return;
      }
      if goesOn && !env.supportsLock {
        goesOn := false;
      }
      if goesOn && !env.lockGranted {
        goesOn := false;
      }
    }

    /** The centralised stream for built-in handlers, then the driver's own open. */
    method OpenDatabase(p: Parsed, flags: bv16, lockFp: Option<StreamId>, env: Env)
      returns (fp: Option<StreamId>, ok: bool)
      requires Valid() && p.Parsed? && (lockFp.Some? ==> lockFp.value in open)
      modifies this`open, this`next
      ensures Valid()
      ensures forall path :: DataStage(p, flags, Locked(lockFp, path, true, old(next)), env)
                             == Outcome(ok, path, fp, lockFp, next)
      ensures open == old(open) + if fp == lockFp then {} else SetOf(Streams(fp, None))
    {
      fp, ok := None, true;
      if flags & DBA_STREAM_OPEN == DBA_STREAM_OPEN {
        if lockFp.Some? && p.dbLock {
          fp := lockFp;
        } else {
          fp := OpenStream(env.dataOpens);
        }
        if fp.None? {
          ok := false;
          return;
        }
        // DBA_NO_APPEND and DBA_CAST_AS_FD both contain the DBA_STREAM_OPEN bit.
        if flags & (DBA_NO_APPEND | DBA_CAST_AS_FD) != 0 && !env.castWorks {
          ok := false;
          return;
        }
      }
      ok := env.driverOpens;
    }

    /** The check against connections already open. */
    method Admit(path: string, lock: Lock, flags: bv16) returns (ok: bool)
      ensures ok == Admitted(connections, path, lock, flags)
    {
      ok := true;
      if flags & DBA_LOCK_ALL != 0 {
        var other := FindConnection(path);
        if other.Some? && ((lock == Exclusive && other.value.lock != NoLock)
                           || (other.value.lock == Exclusive && lock != NoLock)) {
          ok := false;
        }
      }
    }

    /** Both stages: on success every stream opened is in the two fields, on failure none is left open. */
    method OpenStreams(p: Parsed, q: Request, env: Env)
      returns (fp: Option<StreamId>, lockFp: Option<StreamId>, path: string, ok: bool)
      requires Valid() && p.Parsed?
      modifies this`open, this`next, this`closed
      ensures Valid()
      ensures DataStage(p, q.flags, LockStage(p, q.path, env, old(next)), env) == Outcome(ok, path, fp, lockFp, next)
      ensures open == if ok then old(open) + SetOf(Streams(fp, lockFp)) else old(open)
      ensures closed == if ok then old(closed) else old(closed) + Streams(fp, lockFp)
    {
      ghost var start := open;
      lockFp, path, ok := EstablishLock(p, q.path, env);
      fp := None;
      if ok {
        fp, ok := OpenDatabase(p, q.flags, lockFp, env);
      }
      assert open == start + SetOf(Streams(fp, lockFp));
      if !ok {
        assert forall x :: x in Streams(fp, lockFp) ==> x !in start;
        CloseInfo(fp, lockFp);
        assert open == start;
      }
    }

    /** dba_open; the key of the new connection, or None for the false it returns. */
    method Open(q: Request, env: Env) returns (key: Option<nat>)
      requires Valid()
      modifies this
      ensures Valid()
      ensures Abs() == Apply(old(Abs()), DbaOpen(q, env))
      ensures key == if |connections| > |old(connections)| then Some(old(counter)) else None
    {
      if q.path == "" || q.mode == "" {
        return None;
      }
      var mine := counter;
      counter := counter + 1;
      var p := ParseMode(q.mode, q.flags);
      if p.Refused? {
        assert closed + [] == closed;
        return None;
      }
      var admitted := Admit(q.path, p.lock, q.flags);
      if !admitted {
        CloseInfo(None, None);
        return None;
      }
      var fp, lockFp, path, ok := OpenStreams(p, q, env);
      if !ok {
        return None;
      }
      connections := connections + [Entry(mine, path, p.lock, fp, lockFp)];
      return Some(mine);
    }

    /** dba_close; false is the exception for a connection already closed. */
    method Close(key: nat) returns (ok: bool)
      requires Valid() && Accounted(Abs())
      modifies this
      ensures Valid()
      ensures Abs() == Apply(old(Abs()), DbaClose(key))
      ensures ok == IndexOf(old(connections), key).Some?
    {
      var at := IndexOf(connections, key);
      if at.None? {
        return false;
      }
      var e := connections[at.value];
      assert forall x :: x in Streams(e.fp, e.lockFp) ==> x in open by {
        forall x | x in Streams(e.fp, e.lockFp) ensures x in open {
          assert AccountedAt(Abs(), x);
          OwnersRemove(connections, at.value, x);
        }
      }
      CloseInfo(e.fp, e.lockFp);
      connections := connections[..at.value] + connections[at.value + 1..];
      return true;
    }
  }
}
