/**
  The connection table of the dba extension: how dba_open parses its mode, decides
  admission by looking at one entry, opens the lock and database streams with their
  many failure exits, and how dba_close gives them back.
*/
module DbaTable {
  import opened Common

  type StreamId = nat

  const DBA_LOCK_READER: bv16 := 0x0001
  const DBA_LOCK_WRITER: bv16 := 0x0002
  const DBA_LOCK_CREAT: bv16 := 0x0004
  const DBA_LOCK_TRUNC: bv16 := 0x0008
  const DBA_LOCK_ALL: bv16 := 0x000F
  const DBA_STREAM_OPEN: bv16 := 0x0010
  const DBA_CAST_AS_FD: bv16 := 0x0050
  const DBA_NO_APPEND: bv16 := 0x00D0

  datatype Lock = NoLock | Shared | Exclusive
  datatype OpenMode = Reader | Writer | Creat | Trunc

  /** Arguments of dba_open, `flags` being those of the handler that was found. */
  datatype Request = Request(path: string, mode: string, flags: bv16)

  datatype Parsed = Refused | Parsed(rw: OpenMode, lock: Lock, dbLock: bool)

  /** How the calls into the stream layer and the driver turn out. */
  datatype Env = Env(
    lckExists: bool,              // "<path>.lck" opens read-only
    lockOpens: bool,              // the lock file opens
    openedPath: Option<string>,   // the real path of a lock file that is the database
    supportsLock: bool,
    lockGranted: bool,
    dataOpens: bool,
    castWorks: bool,
    driverOpens: bool)

  datatype Entry = Entry(key: nat, path: string, lock: Lock, fp: Option<StreamId>, lockFp: Option<StreamId>)

  datatype State = State(
    table: seq<Entry>,
    counter: nat,
    open: set<StreamId>,
    closed: seq<StreamId>,
    next: StreamId)

  const Initial := State([], 0, {}, [], 0)

  // ---------------------------------------------------------------- mode parsing

  /** lock_flag and is_db_lock from the second character, or None for a refused mode. */
  function LockFlag(mode: string, flags: bv16): (r: Option<(bv16, bool)>)
    requires mode != ""
  {
    if |mode| == 1 then Some((flags & DBA_LOCK_ALL, true))
    else match mode[1]
      case 't' => Some((0, false))
      case '-' => if flags & DBA_LOCK_ALL == 0 then None else Some((0, false))
      case 'd' => Some((if flags & DBA_LOCK_ALL == 0 then 0 else DBA_LOCK_ALL, true))
      case 'l' => Some((DBA_LOCK_ALL, false))
      case _ => None
  }

  predicate IsTest(mode: string) {
    |mode| == 3 || (|mode| >= 2 && mode[1] == 't')
  }

  function ParseMode(mode: string, flags: bv16): (p: Parsed)
    requires mode != ""
  {
    if |mode| > 3 || (|mode| == 3 && mode[2] != 't') || LockFlag(mode, flags).None? then Refused
    else
      var (lockFlag, dbLock) := LockFlag(mode, flags).value;
      var p := match mode[0]
        case 'r' => Parsed(Reader, if lockFlag & DBA_LOCK_READER != 0 then Shared else NoLock, dbLock)
        case 'w' => Parsed(Writer, if lockFlag & DBA_LOCK_WRITER != 0 then Exclusive else NoLock, dbLock)
        case 'c' => Parsed(Creat, if lockFlag & DBA_LOCK_CREAT != 0 then Exclusive else NoLock, dbLock)
        case 'n' => Parsed(Trunc, if lockFlag & DBA_LOCK_TRUNC != 0 then Exclusive else NoLock, dbLock)
        case _ => Refused;
      // A test lock with nothing to test is refused, and so is "t" together with "-".
      if p.Parsed? && IsTest(mode) && p.lock == NoLock then Refused else p
  }

  // ---------------------------------------------------------------- admission

  /** php_dba_find: the first entry on the path, in insertion order. */
  function Find(table: seq<Entry>, path: string): (r: Option<Entry>) {
    if table == [] then None
    else if table[0].path == path then Some(table[0])
    else Find(table[1..], path)
  }

  predicate Conflict(a: Lock, b: Lock) {
    (a == Exclusive && b != NoLock) || (b == Exclusive && a != NoLock)
  }

  predicate Admitted(table: seq<Entry>, path: string, lock: Lock, flags: bv16) {
    flags & DBA_LOCK_ALL == 0 || Find(table, path).None? || !Conflict(lock, Find(table, path).value.lock)
  }

  // ---------------------------------------------------------------- streams

  /** After the lock stage: the lock stream, the path, whether the open goes on, the next stream number. */
  datatype Locked = Locked(lockFp: Option<StreamId>, path: string, goesOn: bool, next: StreamId)

  function LockStage(p: Parsed, path: string, env: Env, next: StreamId): (r: Locked)
    requires p.Parsed?
  {
    if p.lock == NoLock then Locked(None, path, true, next)
    else if !p.dbLock && p.rw == Reader && env.lckExists then
      Locked(Some(next), path, env.supportsLock && env.lockGranted, next + 1)
    else if !env.lockOpens then Locked(None, path, false, next)
    else if p.dbLock then
      if env.openedPath.None? then Locked(Some(next), path, false, next + 1)
      else Locked(Some(next), env.openedPath.value, env.supportsLock && env.lockGranted, next + 1)
    else Locked(Some(next), path, env.supportsLock && env.lockGranted, next + 1)
  }

  datatype Outcome = Outcome(ok: bool, path: string, fp: Option<StreamId>, lockFp: Option<StreamId>, next: StreamId)

  /** The database stream: shared with the lock when both are the database file. */
  function DataStage(p: Parsed, flags: bv16, l: Locked, env: Env): (r: Outcome)
    requires p.Parsed?
  {
    if !l.goesOn then Outcome(false, l.path, None, l.lockFp, l.next)
    else if flags & DBA_STREAM_OPEN != DBA_STREAM_OPEN then Outcome(env.driverOpens, l.path, None, l.lockFp, l.next)
    else if l.lockFp.Some? && p.dbLock then Outcome(env.castWorks && env.driverOpens, l.path, l.lockFp, l.lockFp, l.next)
    else if !env.dataOpens then Outcome(false, l.path, None, l.lockFp, l.next)
    else Outcome(env.castWorks && env.driverOpens, l.path, Some(l.next), l.lockFp, l.next + 1)
  }

  function Plan(s: State, q: Request, env: Env): (r: Outcome)
    requires q.mode != ""
  {
    var p := ParseMode(q.mode, q.flags);
    if p.Refused? || !Admitted(s.table, q.path, p.lock, q.flags)
    then Outcome(false, q.path, None, None, s.next)
    else DataStage(p, q.flags, LockStage(p, q.path, env, s.next), env)
  }

  /** dba_close_info: the streams of a connection in the order it closes them. */
  function Streams(fp: Option<StreamId>, lockFp: Option<StreamId>): (r: seq<StreamId>) {
    (if fp.Some? && fp != lockFp then [fp.value] else []) + (if lockFp.Some? then [lockFp.value] else [])
  }

  function SetOf(ids: seq<StreamId>): (r: set<StreamId>) { set x | x in ids }

  function ApplyOpen(s: State, q: Request, env: Env): (r: State) {
    if q.path == "" || q.mode == "" then s
    else
      var o := Plan(s, q, env);
      var ids := Streams(o.fp, o.lockFp);
      var t := s.(counter := s.counter + 1, next := o.next);
      if o.ok then
        t.(table := s.table + [Entry(s.counter, o.path, ParseMode(q.mode, q.flags).lock, o.fp, o.lockFp)],
           open := s.open + SetOf(ids))
      else t.(closed := s.closed + ids)
  }

  function IndexOf(table: seq<Entry>, key: nat): (r: Option<nat>)
    ensures r.Some? ==> r.value < |table| && table[r.value].key == key
    ensures r.None? ==> forall i :: 0 <= i < |table| ==> table[i].key != key
  {
    if table == [] then None
    else if table[0].key == key then Some(0)
    else
      var r := IndexOf(table[1..], key);
      if r.None? then None else Some(r.value + 1)
  }

  function ApplyClose(s: State, key: nat): (r: State) {
    var i := IndexOf(s.table, key);
    if i.None? then s
    else
      var e := s.table[i.value];
      var ids := Streams(e.fp, e.lockFp);
      s.(table := s.table[..i.value] + s.table[i.value + 1..],
         open := s.open - SetOf(ids),
         closed := s.closed + ids)
  }

  datatype Op = DbaOpen(q: Request, env: Env) | DbaClose(key: nat)

  function Apply(s: State, op: Op): (r: State) {
    match op
    case DbaOpen(q, env) => ApplyOpen(s, q, env)
    case DbaClose(key) => ApplyClose(s, key)
  }

  function Run(ops: seq<Op>): (s: State) {
    if ops == [] then Initial else Apply(Run(ops[..|ops| - 1]), ops[|ops| - 1])
  }

  // ---------------------------------------------------------------- readers and writers

  /** On one path, an exclusive connection is the only locking one. */
  ghost predicate Disciplined(table: seq<Entry>) {
    forall i, j :: 0 <= i < j < |table| && table[i].path == table[j].path
      ==> !Conflict(table[i].lock, table[j].lock)
  }

  ghost predicate AllLocked(table: seq<Entry>) {
    forall i :: 0 <= i < |table| ==> table[i].lock != NoLock
  }

  lemma {:induction false} FindIsFirst(table: seq<Entry>, path: string)
    ensures Find(table, path).None? ==> forall i :: 0 <= i < |table| ==> table[i].path != path
    ensures Find(table, path).Some? ==>
      exists i :: 0 <= i < |table| && table[i] == Find(table, path).value && table[i].path == path
                  && forall j :: 0 <= j < i ==> table[j].path != path
  {
    if table != [] && table[0].path != path {
      FindIsFirst(table[1..], path);
      if Find(table, path).Some? {
        var i :| 0 <= i < |table[1..]| && table[1..][i] == Find(table, path).value && table[1..][i].path == path
                 && forall j :: 0 <= j < i ==> table[1..][j].path != path;
        assert table[i + 1] == Find(table, path).value;
        assert forall j :: 0 <= j < i + 1 ==> j == 0 || table[j] == table[1..][j - 1];
      }
    }
  }

  /** A connection that does not lock, ahead of one that does, hides it from the check. */
  ghost predicate Masked(table: seq<Entry>, path: string) {
    && Find(table, path).Some? && Find(table, path).value.lock == NoLock
    && exists i :: 0 <= i < |table| && table[i].path == path && table[i].lock != NoLock
  }

  predicate Clashes(table: seq<Entry>, path: string, lock: Lock) {
    exists i :: 0 <= i < |table| && table[i].path == path && Conflict(lock, table[i].lock)
  }

  /** The local check speaks for the whole table exactly when no connection is masked. */
  lemma {:induction false} FirstMatchDecides(table: seq<Entry>, path: string, flags: bv16)
    requires Disciplined(table) && flags & DBA_LOCK_ALL != 0
    ensures (forall lock :: Admitted(table, path, lock, flags) ==> !Clashes(table, path, lock))
            <==> !Masked(table, path)
  {
    FindIsFirst(table, path);
    if Masked(table, path) {
      var i :| 0 <= i < |table| && table[i].path == path && table[i].lock != NoLock;
      assert Admitted(table, path, Exclusive, flags);
      assert Conflict(Exclusive, table[i].lock);
      assert Clashes(table, path, Exclusive);
    } else if Find(table, path).Some? {
      var f :| 0 <= f < |table| && table[f] == Find(table, path).value && table[f].path == path
               && forall j :: 0 <= j < f ==> table[j].path != path;
      forall lock | Admitted(table, path, lock, flags) ensures !Clashes(table, path, lock) {
      }
    }
  }

  /** An environment in which everything works and the database's real path is `actual`. */
  function Smooth(actual: string): (env: Env) {
    Env(true, true, Some(actual), true, true, true, true, true)
  }

  /** An open that is admitted and that nothing hinders. */
  lemma {:induction false} AdmittedOpen(s: State, path: string, mode: string, actual: string)
    requires path != "" && mode != "" && ParseMode(mode, DBA_LOCK_ALL).Parsed?
    requires ParseMode(mode, DBA_LOCK_ALL).dbLock || ParseMode(mode, DBA_LOCK_ALL).lock == NoLock
    requires Admitted(s.table, path, ParseMode(mode, DBA_LOCK_ALL).lock, DBA_LOCK_ALL)
    ensures
      var t := ApplyOpen(s, Request(path, mode, DBA_LOCK_ALL), Smooth(actual));
      var lock := ParseMode(mode, DBA_LOCK_ALL).lock;
      t.table == s.table + [if lock == NoLock then Entry(s.counter, path, lock, None, None)
                            else Entry(s.counter, actual, lock, None, Some(s.next))]
  {
  }

  /** In an unmasked table an open is refused exactly when it clashes; a handler that does not lock never is. */
  lemma {:induction false} AdmittedExactly(table: seq<Entry>, path: string, lock: Lock, flags: bv16)
    requires Disciplined(table) && !Masked(table, path)
    ensures Admitted(table, path, lock, flags) <==> flags & DBA_LOCK_ALL == 0 || !Clashes(table, path, lock)
  {
    FindIsFirst(table, path);
    if flags & DBA_LOCK_ALL != 0 {
      FirstMatchDecides(table, path, flags);
      if !Admitted(table, path, lock, flags) {
        var i :| 0 <= i < |table| && table[i] == Find(table, path).value && table[i].path == path;
        assert Conflict(lock, table[i].lock);
      }
    }
  }

  /** One unlocked open, then two that lock: both locks are exclusive. */
  lemma {:induction false} MaskingBreaksDiscipline(path: string)
    requires path != ""
    ensures
      var w := DbaOpen(Request(path, "w", DBA_LOCK_ALL), Smooth(path));
      var t := Run([DbaOpen(Request(path, "r-", DBA_LOCK_ALL), Smooth(path)), w, w]).table;
      |t| == 3 && !Disciplined(t) && t[1].path == t[2].path && t[1].lock == t[2].lock == Exclusive
  {
    var r := DbaOpen(Request(path, "r-", DBA_LOCK_ALL), Smooth(path));
    var w := DbaOpen(Request(path, "w", DBA_LOCK_ALL), Smooth(path));
    assert [r][..0] == [] && [r, w][..1] == [r] && [r, w, w][..2] == [r, w];
    assert ParseMode("r-", DBA_LOCK_ALL) == Parsed(Reader, NoLock, false);
    assert ParseMode("w", DBA_LOCK_ALL) == Parsed(Writer, Exclusive, true);
    AdmittedOpen(Run([]), path, "r-", path);
    AdmittedOpen(Run([r]), path, "w", path);
    AdmittedOpen(Run([r, w]), path, "w", path);
    var t := Run([r, w, w]).table;
    assert Conflict(t[1].lock, t[2].lock);
  }

  /** The modes that lock: any of r, w, c, n with nothing, "d" or "l", and then perhaps "t". */
  ghost predicate PlainOp(op: Op) {
    op.DbaOpen? ==>
      && op.q.flags & DBA_LOCK_ALL == DBA_LOCK_ALL
      && (|op.q.mode| >= 2 ==> op.q.mode[1] != '-')
      && (op.q.path != "" && op.env.openedPath.Some? ==> op.env.openedPath.value == op.q.path)
  }

  /** A locking handler without "-" always locks: shared to read, exclusive otherwise. */
  lemma {:induction false} PlainModeLocks(mode: string, flags: bv16)
    requires mode != "" && flags & DBA_LOCK_ALL == DBA_LOCK_ALL && (|mode| >= 2 ==> mode[1] != '-')
    requires ParseMode(mode, flags).Parsed?
    ensures ParseMode(mode, flags).lock == if mode[0] == 'r' then Shared else Exclusive
  {
    var f := LockFlag(mode, flags).value.0;
    assert f == DBA_LOCK_ALL || f == 0;
  }

  /**
    The mode comment allows "rt": a test lock without "d" or "l". The code leaves
    lock_flag at 0 there, so no such open ever succeeds.
  */
  lemma {:induction false} BareTestLockNeverOpens(s: State, q: Request, env: Env)
    requires q.path != "" && |q.mode| >= 2 && q.mode[1] == 't'
    ensures ApplyOpen(s, q, env) == s.(counter := s.counter + 1)
  {
    assert ParseMode(q.mode, q.flags).Refused?;
    assert s.closed + [] == s.closed;
  }

  lemma {:induction false} OpenKeepsDiscipline(s: State, q: Request, env: Env)
    requires PlainOp(DbaOpen(q, env)) && Disciplined(s.table) && AllLocked(s.table)
    ensures Disciplined(ApplyOpen(s, q, env).table) && AllLocked(ApplyOpen(s, q, env).table)
  {
    if q.path != "" && q.mode != "" && Plan(s, q, env).ok {
      PlainModeLocks(q.mode, q.flags);
      var p := ParseMode(q.mode, q.flags);
      assert !Masked(s.table, q.path) by {
        FindIsFirst(s.table, q.path);
      }
      FirstMatchDecides(s.table, q.path, q.flags);
      assert Plan(s, q, env).path == q.path;
      assert !Clashes(s.table, q.path, p.lock);
    }
  }

  lemma {:induction false} CloseKeepsDiscipline(s: State, key: nat)
    requires Disciplined(s.table) && AllLocked(s.table)
    ensures Disciplined(ApplyClose(s, key).table) && AllLocked(ApplyClose(s, key).table)
  {
  }

  /**
    In every run of opens and closes on locking handlers, without "-" and with canonical
    paths, each path has only shared connections or exactly one exclusive one, although
    admission looks at the first match alone.
  */
  lemma {:induction false} ReadersOrOneWriter(ops: seq<Op>)
    requires forall i :: 0 <= i < |ops| ==> PlainOp(ops[i])
    ensures Disciplined(Run(ops).table) && AllLocked(Run(ops).table)
    ensures
      var t := Run(ops).table;
      forall i, j :: 0 <= i < j < |t| && t[i].path == t[j].path ==> t[i].lock == Shared && t[j].lock == Shared
  {
    if ops != [] {
      var before := ops[..|ops| - 1];
      assert forall i :: 0 <= i < |before| ==> before[i] == ops[i];
      ReadersOrOneWriter(before);
      var op := ops[|ops| - 1];
      assert PlainOp(op);
      match op {
        case DbaOpen(q, env) => OpenKeepsDiscipline(Run(before), q, env);
        case DbaClose(key) => CloseKeepsDiscipline(Run(before), key);
      }
    }
  }

  /** A mode that locks the database file itself. */
  ghost predicate LocksDatabase(mode: string) {
    mode != "" && ParseMode(mode, DBA_LOCK_ALL).Parsed? && ParseMode(mode, DBA_LOCK_ALL).dbLock
  }

  /** An open of a database-locking mode that nothing hinders adds an entry under the real path. */
  lemma {:induction false} SmoothOpen(s: State, path: string, mode: string, actual: string)
    requires path != "" && LocksDatabase(mode)
    requires Find(s.table, path).None?
    ensures
      var t := ApplyOpen(s, Request(path, mode, DBA_LOCK_ALL), Smooth(actual));
      var lock := if mode[0] == 'r' then Shared else Exclusive;
      t.table == s.table + [Entry(s.counter, actual, lock, None, Some(s.next))]
  {
    PlainModeLocks(mode, DBA_LOCK_ALL);
    AdmittedOpen(s, path, mode, actual);
  }

  /**
    The path is looked up as given but stored as the stream layer resolved it. So two
    opens of one path that is not the real one never meet, in whatever modes lock the
    database: both are admitted, and that breaks the discipline unless both only read.
  */
  lemma {:induction false} AliasedOpens(path: string, actual: string, first: string, second: string)
    requires path != "" && path != actual
    requires LocksDatabase(first)
    requires LocksDatabase(second)
    ensures
      var t := Run([DbaOpen(Request(path, first, DBA_LOCK_ALL), Smooth(actual)),
                    DbaOpen(Request(path, second, DBA_LOCK_ALL), Smooth(actual))]).table;
      && |t| == 2 && t[0].path == t[1].path == actual
      && (Disciplined(t) <==> first[0] == 'r' && second[0] == 'r')
  {
    var a := DbaOpen(Request(path, first, DBA_LOCK_ALL), Smooth(actual));
    var b := DbaOpen(Request(path, second, DBA_LOCK_ALL), Smooth(actual));
    assert [a][..0] == [] && [a, b][..1] == [a];
    SmoothOpen(Run([]), path, first, actual);
    SmoothOpen(Run([a]), path, second, actual);
  }

  /** A run on locking handlers, without "-", on a system that resolves paths by `resolve`. */
  ghost predicate ResolvedBy(resolve: string -> string, op: Op) {
    op.DbaOpen? ==>
      && op.q.flags & DBA_LOCK_ALL == DBA_LOCK_ALL
      && (|op.q.mode| >= 2 ==> op.q.mode[1] != '-')
      && (op.env.openedPath.Some? ==> op.env.openedPath.value == resolve(op.q.path))
  }

  ghost predicate AllResolvedBy(resolve: string -> string, ops: seq<Op>) {
    forall i :: 0 <= i < |ops| ==> ResolvedBy(resolve, ops[i])
  }

  /**
    Canonical paths are exactly what the discipline needs: on a system that resolves
    paths by a given function, every run of opens in any locking modes and closes keeps
    the discipline if and only if that function leaves every path as it is.
  */
  lemma {:induction false} CanonicalPathNeeded(resolve: string -> string)
    ensures (forall ops :: AllResolvedBy(resolve, ops) ==> Disciplined(Run(ops).table))
            <==> (forall path :: path != "" ==> resolve(path) == path)
  {
    if forall path :: path != "" ==> resolve(path) == path {
      forall ops | AllResolvedBy(resolve, ops) ensures Disciplined(Run(ops).table) {
        forall i | 0 <= i < |ops| ensures PlainOp(ops[i]) {
          assert ResolvedBy(resolve, ops[i]);
        }
        ReadersOrOneWriter(ops);
      }
    } else {
      var path :| path != "" && resolve(path) != path;
      var w := DbaOpen(Request(path, "w", DBA_LOCK_ALL), Smooth(resolve(path)));
      AliasedOpens(path, resolve(path), "w", "w");
      assert AllResolvedBy(resolve, [w, w]);
      assert !Disciplined(Run([w, w]).table);
    }
  }

  // ---------------------------------------------------------------- stream ownership

  function Count(ids: seq<StreamId>, x: StreamId): (n: nat)
    ensures n > 0 <==> x in ids
  {
    if ids == [] then 0 else Count(ids[..|ids| - 1], x) + if ids[|ids| - 1] == x then 1 else 0
  }

  /** How often the entries of a table own a stream. */
  function Owners(table: seq<Entry>, x: StreamId): (n: nat) {
    if table == [] then 0
    else
      var e := table[|table| - 1];
      Owners(table[..|table| - 1], x) + Count(Streams(e.fp, e.lockFp), x)
  }

  /**
    Every stream ever opened is owned by exactly one entry or was closed exactly once,
    never both; and the open ones are those owned.
  */
  ghost predicate AccountedAt(s: State, x: StreamId) {
    && Owners(s.table, x) + Count(s.closed, x) == (if x < s.next then 1 else 0)
    && (x in s.open <==> Owners(s.table, x) == 1)
  }

  ghost predicate Accounted(s: State) {
    forall x: StreamId :: AccountedAt(s, x)
  }

  lemma {:induction false} CountPair(a: StreamId, b: StreamId, x: StreamId)
    ensures Count([a], x) == if a == x then 1 else 0
    ensures Count([a, b], x) == (if a == x then 1 else 0) + if b == x then 1 else 0
  {
    assert [a][..0] == [];
    assert [a, b][..1] == [a];
  }

  lemma {:induction false} CountStreams(fp: Option<StreamId>, lockFp: Option<StreamId>, x: StreamId)
    ensures Count(Streams(fp, lockFp), x) == if fp == Some(x) || lockFp == Some(x) then 1 else 0
  {
    if fp.Some? && lockFp.Some? && fp != lockFp {
      assert Streams(fp, lockFp) == [fp.value, lockFp.value];
      CountPair(fp.value, lockFp.value, x);
    } else if lockFp.Some? {
      assert Streams(fp, lockFp) == [lockFp.value];
      CountPair(lockFp.value, 0, x);
    } else if fp.Some? {
      assert Streams(fp, lockFp) == [fp.value];
      CountPair(fp.value, 0, x);
    } else {
      assert Streams(fp, lockFp) == [];
    }
  }

  lemma {:induction false} CountConcat(a: seq<StreamId>, b: seq<StreamId>, x: StreamId)
    ensures Count(a + b, x) == Count(a, x) + Count(b, x)
  {
    if b == [] {
      assert a + b == a;
    } else {
      CountConcat(a, b[..|b| - 1], x);
      assert (a + b)[..|a + b| - 1] == a + b[..|b| - 1];
    }
  }

  /** Whatever exit an open takes, its two fields hold all it opened. */
  lemma {:induction false} PlanHoldsItsStreams(s: State, q: Request, env: Env, x: StreamId)
    requires q.mode != ""
    ensures
      var o := Plan(s, q, env);
      && s.next <= o.next
      && (o.fp == Some(x) || o.lockFp == Some(x) <==> s.next <= x < o.next)
  {
  }

  lemma {:induction false} OwnersConcat(a: seq<Entry>, b: seq<Entry>, x: StreamId)
    ensures Owners(a + b, x) == Owners(a, x) + Owners(b, x)
  {
    if b == [] {
      assert a + b == a;
    } else {
      OwnersConcat(a, b[..|b| - 1], x);
      assert (a + b)[..|a + b| - 1] == a + b[..|b| - 1];
    }
  }

  lemma {:induction false} OwnersRemove(table: seq<Entry>, k: nat, x: StreamId)
    requires k < |table|
    ensures Owners(table, x) ==
            Owners(table[..k] + table[k + 1..], x) + Count(Streams(table[k].fp, table[k].lockFp), x)
  {
    var before, one, after := table[..k], [table[k]], table[k + 1..];
    assert table == before + one + after;
    OwnersConcat(before + one, after, x);
    OwnersConcat(before, one, x);
    OwnersConcat(before, after, x);
    assert one[..0] == [] && Owners([], x) == 0;
  }

  lemma {:induction false} OpenKeepsAccounts(s: State, q: Request, env: Env, x: StreamId)
    requires AccountedAt(s, x)
    ensures AccountedAt(ApplyOpen(s, q, env), x)
  {
    if q.path != "" && q.mode != "" {
      PlanHoldsItsStreams(s, q, env, x);
      var o := Plan(s, q, env);
      var ids := Streams(o.fp, o.lockFp);
      CountStreams(o.fp, o.lockFp, x);
      if o.ok {
        assert ApplyOpen(s, q, env).table[..|s.table|] == s.table;
      } else {
        CountConcat(s.closed, ids, x);
      }
    }
  }

  lemma {:induction false} CloseKeepsAccounts(s: State, key: nat, x: StreamId)
    requires AccountedAt(s, x)
    ensures AccountedAt(ApplyClose(s, key), x)
  {
    var at := IndexOf(s.table, key);
    if at.Some? {
      OwnersRemove(s.table, at.value, x);
      var e := s.table[at.value];
      CountStreams(e.fp, e.lockFp, x);
      CountConcat(s.closed, Streams(e.fp, e.lockFp), x);
    }
  }

  /**
    In every run of opens, successful or failing at any exit, and closes, the open
    streams are exactly those the table's entries own, each by one entry, and every
    other stream ever opened was closed exactly once, a shared one too.
  */
  lemma {:induction false} NoStreamLeaksOrClosesTwice(ops: seq<Op>)
    ensures Accounted(Run(ops))
  {
    if ops != [] {
      var before := ops[..|ops| - 1];
      NoStreamLeaksOrClosesTwice(before);
      match ops[|ops| - 1] {
        case DbaOpen(q, env) =>
          forall x: StreamId ensures AccountedAt(Run(ops), x) {
            OpenKeepsAccounts(Run(before), q, env, x);
          }
        case DbaClose(key) =>
          forall x: StreamId ensures AccountedAt(Run(ops), x) {
            CloseKeepsAccounts(Run(before), key, x);
          }
      }
    }
  }

  // ---------------------------------------------------------------- modes

  /** What may follow the first letter of a mode. */
  predicate LegalTail(mode: string, locking: bool)
    requires mode != ""
  {
    match |mode|
    case 1 => true
    case 2 => mode[1] == 'd' || mode[1] == 'l' || (mode[1] == '-' && locking)
    case 3 => mode[2] == 't' && (mode[1] == 'l' || (mode[1] == 'd' && locking))
    case _ => false
  }

  /** The part of a handler's flags that says whether it wants a lock for a first letter. */
  function LetterFlag(letter: char): (f: bv16) {
    match letter
    case 'r' => DBA_LOCK_READER
    case 'w' => DBA_LOCK_WRITER
    case 'c' => DBA_LOCK_CREAT
    case _ => DBA_LOCK_TRUNC
  }

  /** Whether an open in a legal mode locks. */
  predicate Locks(mode: string, flags: bv16)
    requires mode != ""
  {
    if |mode| == 1 then flags & LetterFlag(mode[0]) != 0
    else mode[1] == 'l' || (mode[1] == 'd' && flags & DBA_LOCK_ALL != 0)
  }

  /**
    The modes that are accepted, for every handler: r, w, c or n; then nothing, "d", "l"
    or, on a locking handler, "-"; and a final "t" only after something that locks. The
    letter decides between a shared and an exclusive lock, and without "l" and "-" it is
    the database itself that is locked.
  */
  lemma {:induction false} ModesAccepted(mode: string, flags: bv16)
    requires mode != ""
    ensures
      var p := ParseMode(mode, flags);
      && (p.Parsed? <==> mode[0] in "rwcn" && LegalTail(mode, flags & DBA_LOCK_ALL != 0))
      && (p.Parsed? ==>
            && p.rw == (match mode[0] case 'r' => Reader case 'w' => Writer case 'c' => Creat case _ => Trunc)
            && p.lock == (if !Locks(mode, flags) then NoLock else if mode[0] == 'r' then Shared else Exclusive)
            && (p.dbLock <==> |mode| == 1 || mode[1] == 'd'))
  {
    AllLocks();
    FlagOfAll(flags, LetterFlag(mode[0]));
  }

  lemma {:induction false} AllLocks()
    ensures DBA_LOCK_ALL & DBA_LOCK_READER != 0 && DBA_LOCK_ALL & DBA_LOCK_WRITER != 0
    ensures DBA_LOCK_ALL & DBA_LOCK_CREAT != 0 && DBA_LOCK_ALL & DBA_LOCK_TRUNC != 0
  {
  }

  lemma {:induction false} FlagOfAll(flags: bv16, f: bv16)
    requires f == DBA_LOCK_READER || f == DBA_LOCK_WRITER || f == DBA_LOCK_CREAT || f == DBA_LOCK_TRUNC
    ensures (flags & DBA_LOCK_ALL) & f == flags & f
  {
  }

  // ---------------------------------------------------------------- what an open takes

  /** The lock is had: its file opens (a reader takes an existing .lck), can be locked and is. */
  predicate LockHad(p: Parsed, env: Env)
    requires p.Parsed?
  {
    && env.supportsLock && env.lockGranted
    && ((!p.dbLock && p.rw == Reader && env.lckExists) || (env.lockOpens && (p.dbLock ==> env.openedPath.Some?)))
  }

  /** The stream is had: the lock's own if that is the database, else another; and it has a descriptor. */
  predicate StreamHad(p: Parsed, env: Env)
    requires p.Parsed?
  {
    env.castWorks && ((p.lock != NoLock && p.dbLock) || env.dataOpens)
  }

  predicate Opens(s: State, q: Request, env: Env)
    requires q.mode != ""
  {
    var p := ParseMode(q.mode, q.flags);
    && p.Parsed? && Admitted(s.table, q.path, p.lock, q.flags)
    && (p.lock != NoLock ==> LockHad(p, env))
    && (q.flags & DBA_STREAM_OPEN != 0 ==> StreamHad(p, env))
    && env.driverOpens
  }

  /**
    An open adds a connection exactly when its mode is legal, the table admits it, a lock
    it needs is had, a stream it needs is had and the driver opens. The new connection
    has its lock stream exactly if it locks, its database stream exactly if the handler
    wants one, and one for both exactly if the database is what it locks.
  */
  lemma {:induction false} OpenSucceedsExactly(s: State, q: Request, env: Env)
    requires q.path != "" && q.mode != ""
    ensures
      var t, n := ApplyOpen(s, q, env), |s.table|;
      if Opens(s, q, env) then
        && |t.table| == n + 1 && t.table[..n] == s.table && t.closed == s.closed
        && var p, e := ParseMode(q.mode, q.flags), t.table[n];
        && e.key == s.counter && e.lock == p.lock
        && e.path == (if p.lock != NoLock && p.dbLock then env.openedPath.value else q.path)
        && (e.lockFp.Some? <==> p.lock != NoLock)
        && (e.fp.Some? <==> q.flags & DBA_STREAM_OPEN != 0)
        && (e.fp.Some? && e.lockFp.Some? ==> (e.fp == e.lockFp <==> p.dbLock))
      else t.table == s.table && t.open == s.open
  {
    StreamBit(q.flags);
  }

  lemma {:induction false} StreamBit(flags: bv16)
    ensures flags & DBA_STREAM_OPEN == DBA_STREAM_OPEN <==> flags & DBA_STREAM_OPEN != 0
  {
  }

  // ---------------------------------------------------------------- what a close does

  /** Keys come from the counter and are never used twice. */
  ghost predicate KeysFit(s: State) {
    && (forall i :: 0 <= i < |s.table| ==> s.table[i].key < s.counter)
    && (forall i, j :: 0 <= i < j < |s.table| ==> s.table[i].key != s.table[j].key)
  }

  lemma {:induction false} RunKeysFit(ops: seq<Op>)
    ensures KeysFit(Run(ops))
  {
    if ops != [] {
      RunKeysFit(ops[..|ops| - 1]);
      match ops[|ops| - 1] {
        case DbaOpen(q, env) => OpenKeepsKeys(Run(ops[..|ops| - 1]), q, env);
        case DbaClose(key) => CloseKeepsKeys(Run(ops[..|ops| - 1]), key);
      }
    }
  }

  lemma {:induction false} OpenKeepsKeys(s: State, q: Request, env: Env)
    requires KeysFit(s)
    ensures KeysFit(ApplyOpen(s, q, env))
  {
    if q.path != "" && q.mode != "" {
      OpenSucceedsExactly(s, q, env);
    }
  }

  lemma {:induction false} CloseKeepsKeys(s: State, key: nat)
    requires KeysFit(s)
    ensures KeysFit(ApplyClose(s, key))
  {
  }

  lemma {:induction false} RunAppend(ops: seq<Op>, op: Op)
    ensures Run(ops + [op]) == Apply(Run(ops), op)
  {
    assert (ops + [op])[..|ops|] == ops;
  }

  lemma {:induction false} KeyAt(table: seq<Entry>, i: nat)
    requires i < |table| && forall j :: 0 <= j < |table| && j != i ==> table[j].key != table[i].key
    ensures IndexOf(table, table[i].key) == Some(i)
  {
    var at := IndexOf(table, table[i].key);
    assert at.Some?;
  }

  /** How a close moves one stream. */
  ghost predicate StreamMoved(s: State, t: State, e: Entry, x: StreamId) {
    if x in Streams(e.fp, e.lockFp)
    then x in s.open && x !in t.open && Count(s.closed, x) == 0 && Count(t.closed, x) == 1
    else (x in t.open <==> x in s.open) && Count(t.closed, x) == Count(s.closed, x)
  }

  /**
    After any run, closing connection i removes exactly that entry, the others keep their
    order and no entry has its key any more; its streams, open until then and never
    closed before, are closed once each, and no other stream is touched.
  */
  lemma {:induction false} CloseCloses(ops: seq<Op>, i: nat)
    requires i < |Run(ops).table|
    ensures
      var s := Run(ops);
      var t := Run(ops + [DbaClose(s.table[i].key)]);
      && t.table == s.table[..i] + s.table[i + 1..]
      && (forall j :: 0 <= j < |t.table| ==> t.table[j].key != s.table[i].key)
      && (forall x: StreamId :: StreamMoved(s, t, s.table[i], x))
  {
    var s := Run(ops);
    RunKeysFit(ops);
    RunAppend(ops, DbaClose(s.table[i].key));
    KeyAt(s.table, i);
    NoStreamLeaksOrClosesTwice(ops);
    forall x: StreamId ensures StreamMoved(s, ApplyClose(s, s.table[i].key), s.table[i], x) {
      assert AccountedAt(s, x);
      CloseMovesStream(s, i, x);
    }
  }

  lemma {:induction false} CloseMovesStream(s: State, i: nat, x: StreamId)
    requires i < |s.table| && IndexOf(s.table, s.table[i].key) == Some(i) && AccountedAt(s, x)
    ensures StreamMoved(s, ApplyClose(s, s.table[i].key), s.table[i], x)
  {
    var e := s.table[i];
    OwnersRemove(s.table, i, x);
    CountStreams(e.fp, e.lockFp, x);
    CountConcat(s.closed, Streams(e.fp, e.lockFp), x);
  }

  /** Closing a key that is not in the table changes nothing. */
  lemma {:induction false} CloseTwice(s: State, key: nat)
    requires forall i :: 0 <= i < |s.table| ==> s.table[i].key != key
    ensures ApplyClose(s, key) == s
  {
  }

  /** An open and the close of what it opened leave the table as it was. */
  lemma {:induction false} OpenCloseRestores(ops: seq<Op>, q: Request, env: Env)
    requires q.path != "" && q.mode != "" && Opens(Run(ops), q, env)
    ensures Run(ops + [DbaOpen(q, env)] + [DbaClose(Run(ops).counter)]).table == Run(ops).table
  {
    var s := Run(ops);
    RunAppend(ops, DbaOpen(q, env));
    OpenSucceedsExactly(s, q, env);
    CloseCloses(ops + [DbaOpen(q, env)], |s.table|);
  }

  /** How an unhindered open counts its key and its stream. */
  lemma {:induction false} SmoothCounts(s: State, path: string, mode: string, actual: string)
    requires path != "" && LocksDatabase(mode) && Find(s.table, path).None?
    ensures
      var q := Request(path, mode, DBA_LOCK_ALL);
      var t := ApplyOpen(s, q, Smooth(actual));
      t.counter == s.counter + 1 && t.next == s.next + 1 && Opens(s, q, Smooth(actual))
  {
    PlainModeLocks(mode, DBA_LOCK_ALL);
  }

  /**
    So a database that was closed can be opened again. After any run with no connection
    on a path, opening it, closing that connection and opening it once more, in any modes
    that lock the database, adds exactly one connection, the last.
  */
  lemma {:induction false} ReopenAfterClose(ops: seq<Op>, path: string, first: string, second: string)
    requires path != "" && LocksDatabase(first) && LocksDatabase(second) && Find(Run(ops).table, path).None?
    ensures
      var s := Run(ops);
      var a := DbaOpen(Request(path, first, DBA_LOCK_ALL), Smooth(path));
      var b := DbaOpen(Request(path, second, DBA_LOCK_ALL), Smooth(path));
      Run(ops + [a] + [DbaClose(s.counter)] + [b]).table ==
        s.table + [Entry(s.counter + 1, path, if second[0] == 'r' then Shared else Exclusive, None, Some(s.next + 1))]
  {
    var a := DbaOpen(Request(path, first, DBA_LOCK_ALL), Smooth(path));
    OpenedAndClosed(ops, path, first);
    SmoothRun(ops + [a] + [DbaClose(Run(ops).counter)], path, second);
  }

  lemma {:induction false} SmoothRun(ops: seq<Op>, path: string, mode: string)
    requires path != "" && LocksDatabase(mode) && Find(Run(ops).table, path).None?
    ensures
      var s, lock := Run(ops), if mode[0] == 'r' then Shared else Exclusive;
      Run(ops + [DbaOpen(Request(path, mode, DBA_LOCK_ALL), Smooth(path))]).table ==
        s.table + [Entry(s.counter, path, lock, None, Some(s.next))]
  {
    RunAppend(ops, DbaOpen(Request(path, mode, DBA_LOCK_ALL), Smooth(path)));
    SmoothOpen(Run(ops), path, mode, path);
  }

  lemma {:induction false} OpenedAndClosed(ops: seq<Op>, path: string, mode: string)
    requires path != "" && LocksDatabase(mode) && Find(Run(ops).table, path).None?
    ensures
      var s, a := Run(ops), DbaOpen(Request(path, mode, DBA_LOCK_ALL), Smooth(path));
      var t := Run(ops + [a] + [DbaClose(s.counter)]);
      t.table == s.table && t.counter == s.counter + 1 && t.next == s.next + 1
  {
    var s, a := Run(ops), DbaOpen(Request(path, mode, DBA_LOCK_ALL), Smooth(path));
    SmoothCounts(s, path, mode, path);
    OpenCloseRestores(ops, a.q, a.env);
    RunAppend(ops, a);
    RunAppend(ops + [a], DbaClose(s.counter));
    CloseCounts(Run(ops + [a]), s.counter);
  }

  lemma {:induction false} CloseCounts(s: State, key: nat)
    ensures ApplyClose(s, key).counter == s.counter && ApplyClose(s, key).next == s.next
  {
  }
}
