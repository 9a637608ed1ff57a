/**
  __wrap_poll and __wrap_select: waiting calls built from checks that never wait. Time is
  a real number of milliseconds.
*/
module PollLoop {
  // ---------------------------------------------------------------- poll

  /**
    What the k-th turn of the loop meets: when __real_poll looks at the descriptors, what
    it answers, and what the clock then says. `start` is the clock when poll is called.
  */
  datatype Env = Env(start: real, check: nat -> real, answer: nat -> int, read: nat -> real)

  const STEP_MS := 5.0

  function Deadline(timeout: int, env: Env): (d: real) { env.start + timeout as real }

  function Remaining(timeout: int, env: Env, k: nat): (r: real) {
    if timeout < 0 then STEP_MS else Deadline(timeout, env) - env.read(k)
  }

  /** The argument of emscripten_sleep. */
  function SleepFor(remaining: real): (ms: nat)
    requires remaining > 0.0
  {
    if remaining < STEP_MS then remaining.Floor + 1 else 5
  }

  /** The turn at which the loop returns: something is ready, no waiting was asked for, or time is up. */
  predicate Stops(timeout: int, env: Env, k: nat) {
    env.answer(k) != 0 || timeout == 0 || Remaining(timeout, env, k) <= 0.0
  }

  /** A clock that only goes forward, and a sleep that lasts at least as long as asked. */
  ghost predicate Turn(timeout: int, env: Env, k: nat) {
    && env.check(k) <= env.read(k)
    && (Remaining(timeout, env, k) > 0.0 ==>
          env.read(k) + SleepFor(Remaining(timeout, env, k)) as real <= env.check(k + 1))
  }

  ghost predicate Clocked(timeout: int, env: Env) {
    env.start <= env.check(0) && forall k: nat :: Turn(timeout, env, k)
  }

  /** poll returns at turn k. */
  ghost predicate ReturnsAt(timeout: int, env: Env, k: nat) {
    Stops(timeout, env, k) && forall j :: 0 <= j < k ==> !Stops(timeout, env, j)
  }

  /** A short rest is slept through to its end: the turn after it is the last. */
  lemma {:induction false} ShortRestEnds(timeout: int, env: Env, k: nat)
    requires Clocked(timeout, env) && timeout >= 0
    ensures 0.0 < Remaining(timeout, env, k) < STEP_MS ==> Stops(timeout, env, k + 1)
  {
    assert Turn(timeout, env, k) && Turn(timeout, env, k + 1);
  }

  lemma {:induction false} RestShrinks(timeout: int, env: Env, k: nat)
    requires Clocked(timeout, env) && timeout > 0
    requires forall j :: 0 <= j <= k ==> !Stops(timeout, env, j)
    ensures Remaining(timeout, env, k) <= timeout as real - 5.0 * k as real
  {
    assert !Stops(timeout, env, k);
    assert Turn(timeout, env, k);
    if k > 0 {
      RestShrinks(timeout, env, k - 1);
      assert !Stops(timeout, env, k - 1) && Turn(timeout, env, k - 1);
      ShortRestEnds(timeout, env, k - 1);
      assert (k - 1) as real + 1.0 == k as real;
    }
  }

  /** poll with a finite timeout makes at most timeout / 5 + 2 checks. */
  lemma {:induction false} ChecksBounded(timeout: int, env: Env, k: nat)
    requires Clocked(timeout, env) && timeout >= 0
    requires forall j :: 0 <= j < k ==> !Stops(timeout, env, j)
    ensures k + 1 <= timeout / 5 + 2
  {
    if k > 0 {
      assert !Stops(timeout, env, k - 1);
      RestShrinks(timeout, env, k - 1);
      assert 5.0 * (k - 1) as real < timeout as real;
      assert (5 * (k - 1)) as real == 5.0 * (k - 1) as real;
      assert 5 * (k - 1) < timeout;
    }
  }

  /**
    __wrap_poll. Without a deadline it returns only if some check answers: the ghost
    argument names one. `k` is the turn of the return.
  */
  method WrapPoll(timeout: int, env: Env, ghost ready: nat) returns (n: int, k: nat)
    requires Clocked(timeout, env)
    requires timeout < 0 ==> env.answer(ready) != 0
    ensures ReturnsAt(timeout, env, k) && n == env.answer(k)
    ensures timeout >= 0 ==> k + 1 <= timeout / 5 + 2
  {
    var deadline := env.start + timeout as real;
    k := 0;
    while true
      invariant forall j :: 0 <= j < k ==> !Stops(timeout, env, j)
      invariant timeout < 0 ==> k <= ready
      decreases if timeout < 0 then ready - k else timeout / 5 + 2 - k
    {
      if timeout >= 0 {
        ChecksBounded(timeout, env, k);
      }
      n := env.answer(k);
      if n != 0 || timeout == 0 {
        return;
      }
      var remaining := if timeout < 0 then STEP_MS else deadline - env.read(k);
      if remaining <= 0.0 {
        return 0, k;
      }
      k := k + 1;
    }
  }

  /**
    poll never answers 0 before its deadline, never sleeps past it by more than a
    millisecond, and waits forever only when asked to.
  */
  lemma {:induction false} PollKeepsTime(timeout: int, env: Env, k: nat)
    requires Clocked(timeout, env) && timeout >= 0 && ReturnsAt(timeout, env, k)
    ensures timeout > 0 && env.answer(k) == 0 ==> env.read(k) >= Deadline(timeout, env)
    ensures forall j :: 0 <= j < k ==>
      0.0 < Remaining(timeout, env, j)
      && env.read(j) + SleepFor(Remaining(timeout, env, j)) as real <= Deadline(timeout, env) + 1.0
  {
    forall j | 0 <= j < k
      ensures 0.0 < Remaining(timeout, env, j)
      ensures env.read(j) + SleepFor(Remaining(timeout, env, j)) as real <= Deadline(timeout, env) + 1.0
    {
      assert !Stops(timeout, env, j);
    }
  }

  /**
    Without a deadline poll returns only with an answer; a poll that must not wait looks
    once; and whatever the timeout, it never sleeps after an answer.
  */
  lemma {:induction false} PollWaitsAsAsked(timeout: int, env: Env, k: nat)
    requires ReturnsAt(timeout, env, k)
    ensures timeout < 0 ==> env.answer(k) != 0
    ensures timeout == 0 ==> k == 0
    ensures forall j :: 0 <= j < k ==> env.answer(j) == 0
  {
    assert k > 0 ==> !Stops(timeout, env, 0);
    forall j | 0 <= j < k ensures env.answer(j) == 0 {
      assert !Stops(timeout, env, j);
    }
  }

  /** A descriptor that is ready from some moment on: a check sees it exactly from then on. */
  ghost predicate ReadyFrom(env: Env, moment: real) {
    forall k :: env.answer(k) != 0 <==> env.check(k) >= moment
  }

  /** The same clock, watching a descriptor that is ready from `moment` on. */
  function Watching(env: Env, moment: real): (r: Env) {
    env.(answer := (k: nat) => if env.check(k) >= moment then 1 else 0)
  }

  /** The turn at which time is up: the last look a poll that sees nothing takes. */
  ghost predicate LastLook(timeout: int, env: Env, q: nat) {
    Remaining(timeout, env, q) <= 0.0 && forall j :: 0 <= j < q ==> Remaining(timeout, env, j) > 0.0
  }

  ghost predicate Misses(timeout: int, env: Env, moment: real) {
    exists k: nat :: ReturnsAt(timeout, Watching(env, moment), k) && Watching(env, moment).answer(k) == 0
  }

  lemma {:induction false} ChecksRise(timeout: int, env: Env, j: nat, q: nat)
    requires Clocked(timeout, env) && j <= q
    requires forall i :: 0 <= i < q ==> Remaining(timeout, env, i) > 0.0
    ensures env.check(j) <= env.check(q)
  {
    if j < q {
      ChecksRise(timeout, env, j, q - 1);
      assert Turn(timeout, env, q - 1);
    }
  }

  lemma {:induction false} MissIsAtLastLook(timeout: int, env: Env, q: nat, moment: real)
    requires Clocked(timeout, env) && timeout > 0 && LastLook(timeout, env, q)
    requires moment <= Deadline(timeout, env)
    ensures Misses(timeout, env, moment) <==> env.check(q) < moment
  {
    var w := Watching(env, moment);
    assert forall j: nat :: Remaining(timeout, w, j) == Remaining(timeout, env, j);
    if Misses(timeout, env, moment) {
      var k: nat :| ReturnsAt(timeout, w, k) && w.answer(k) == 0;
      assert k == q by {
        assert k < q ==> !Stops(timeout, w, k);
        assert q < k ==> Stops(timeout, w, q);
      }
    }
    if env.check(q) < moment {
      forall j | 0 <= j < q ensures !Stops(timeout, w, j) {
        ChecksRise(timeout, env, j, q);
        assert Remaining(timeout, w, j) == Remaining(timeout, env, j) > 0.0;
      }
      assert ReturnsAt(timeout, w, q) && w.answer(q) == 0;
    }
  }

  /**
    On a given clock, no descriptor that becomes ready by the deadline and stays so is
    ever missed exactly when the last look is taken at or after the deadline.
  */
  lemma {:induction false} ReadyIsNeverMissed(timeout: int, env: Env, q: nat)
    requires Clocked(timeout, env) && timeout > 0 && LastLook(timeout, env, q)
    ensures (forall moment :: moment <= Deadline(timeout, env) ==> !Misses(timeout, env, moment))
            <==> env.check(q) >= Deadline(timeout, env)
  {
    MissIsAtLastLook(timeout, env, q, Deadline(timeout, env));
    forall moment | moment <= Deadline(timeout, env)
      ensures Misses(timeout, env, moment) <==> env.check(q) < moment
    {
      MissIsAtLastLook(timeout, env, q, moment);
    }
  }

  /**
    What a miss takes: the deadline passes inside the last check, between the look and
    the reading of the clock, and the rest before it, if there was one, was longer than
    five milliseconds. A shorter rest is slept out, so the look after it is in time.
  */
  lemma {:induction false} MissedInsideTheCheck(timeout: int, env: Env, k: nat, moment: real)
    requires Clocked(timeout, env) && timeout > 0 && ReturnsAt(timeout, env, k)
    requires ReadyFrom(env, moment) && moment <= Deadline(timeout, env)
    ensures env.answer(k) == 0 <==> env.check(k) < moment
    ensures env.answer(k) == 0 ==> env.check(k) < Deadline(timeout, env) <= env.read(k)
    ensures env.answer(k) == 0 && k > 0 ==> Remaining(timeout, env, k - 1) > STEP_MS
  {
    if k > 0 {
      assert !Stops(timeout, env, k - 1) && Turn(timeout, env, k - 1);
    }
  }

  /** If looking takes time, it can be missed: ready at 9.5, looked at 9, the clock read at 10. */
  lemma {:induction false} SlowCheckMisses()
    ensures
      var env := Env(0.0, k => 9.0 + 10.0 * k as real, k => if k == 0 then 0 else 1, k => 10.0 + 10.0 * k as real);
      Clocked(10, env) && ReadyFrom(env, 9.5) && ReturnsAt(10, env, 0) && env.answer(0) == 0
  {
  }

  // ---------------------------------------------------------------- select

  /** An fd_set that select updates in place. */
  class FdSet {
    var bits: set<nat>

    constructor (bits: set<nat>)
      ensures this.bits == bits
    {
      this.bits := bits;
    }

    method Clear(fd: nat)
      modifies this
      ensures bits == old(bits) - {fd}
    {
      bits := bits - {fd};
    }
  }

  function BitsOf(f: FdSet?): (r: set<nat>)
    reads if f == null then {} else {f}
  {
    if f == null then {} else f.bits
  }

  function Below(bits: set<nat>, max: nat): (r: set<nat>) { set x | x in bits && x < max }

  /** Which descriptors of a set stay: those not watched, and those whose poll said ready. */
  function Kept(bits: set<nat>, ready: nat -> bool, max: nat): (r: set<nat>) {
    set x | x in bits && (x >= max || ready(x))
  }

  lemma {:induction false} BelowGrows(bits: set<nat>, i: nat)
    ensures |Below(bits, i + 1)| == |Below(bits, i)| + if i in bits then 1 else 0
    ensures Below(bits, i + 1) == Below(bits, i) + if i in bits then {i} else {}
  {
    if i in bits {
      assert Below(bits, i + 1) == Below(bits, i) + {i};
    } else {
      assert Below(bits, i + 1) == Below(bits, i);
    }
  }

  lemma {:induction false} KeptStep(bits: set<nat>, ready: nat -> bool, i: nat)
    ensures i in Kept(bits, ready, i) <==> i in bits
    ensures Kept(bits, ready, i + 1) == Kept(bits, ready, i) - if ready(i) then {} else {i}
  {
  }

  /** One set at one descriptor: polled if watched, cleared unless ready. */
  method Watch(f: FdSet?, i: nat, ready: bool) returns (watched: bool, counted: nat)
    modifies if f == null then {} else {f}
    ensures watched == (i in old(BitsOf(f)))
    ensures BitsOf(f) == old(BitsOf(f)) - if ready then {} else {i}
    ensures counted == if watched && ready then 1 else 0
  {
    watched, counted := false, 0;
    if f != null && i in f.bits {
      watched := true;
      if ready {
        counted := 1;
      } else {
        f.Clear(i);
      }
    }
  }

  /** The sets before select, and what polling each descriptor says. */
  datatype Call = Call(r: set<nat>, w: set<nat>, e: set<nat>, readable: nat -> bool, writable: nat -> bool)

  /** The sets, the count and the flag after the first i descriptors. */
  datatype Progress = Progress(r: set<nat>, w: set<nat>, e: set<nat>, n: nat, polled: bool)

  function Counted(c: Call, i: nat): (n: nat) {
    if i == 0 then 0
    else Counted(c, i - 1) + (if i - 1 in c.r && c.readable(i - 1) then 1 else 0)
                           + (if i - 1 in c.w && c.writable(i - 1) then 1 else 0)
  }

  ghost predicate SetsAfter(c: Call, i: nat, p: Progress) {
    p.r == Kept(c.r, c.readable, i) && p.w == Kept(c.w, c.writable, i) && p.e == c.e - Below(c.e, i)
  }

  ghost predicate After(c: Call, i: nat, p: Progress) {
    SetsAfter(c, i, p) && p.n == Counted(c, i) && (p.polled <==> Below(c.r + c.w, i) != {})
  }

  lemma {:induction false} ExceptStep(bits: set<nat>, i: nat)
    ensures bits - Below(bits, i + 1) == bits - Below(bits, i) - {i}
  {
    BelowGrows(bits, i);
  }

  lemma {:induction false} SetsStep(c: Call, i: nat, p: Progress, q: Progress)
    requires SetsAfter(c, i, p)
    requires q.r == p.r - if c.readable(i) then {} else {i}
    requires q.w == p.w - if c.writable(i) then {} else {i}
    requires q.e == p.e - {i}
    ensures SetsAfter(c, i + 1, q)
    ensures (i in p.r <==> i in c.r) && (i in p.w <==> i in c.w)
  {
    KeptStep(c.r, c.readable, i);
    KeptStep(c.w, c.writable, i);
    ExceptStep(c.e, i);
  }

  lemma {:induction false} PolledStep(c: Call, i: nat)
    ensures Below(c.r + c.w, i + 1) != {} <==> Below(c.r + c.w, i) != {} || i in c.r || i in c.w
  {
    BelowGrows(c.r + c.w, i);
  }

  lemma {:induction false} OneMore(c: Call, i: nat, p: Progress, q: Progress)
    requires After(c, i, p)
    requires q.r == p.r - if c.readable(i) then {} else {i}
    requires q.w == p.w - if c.writable(i) then {} else {i}
    requires q.e == p.e - {i}
    requires q.polled == (p.polled || i in p.r || i in p.w)
    requires q.n == p.n + (if i in p.r && c.readable(i) then 1 else 0) + (if i in p.w && c.writable(i) then 1 else 0)
    ensures After(c, i + 1, q)
  {
    SetsStep(c, i, p, q);
    PolledStep(c, i);
  }

  /** The count is the number of bits left below max. */
  lemma {:induction false} CountedIsLeft(c: Call, max: nat, i: nat)
    requires i <= max
    ensures Counted(c, i) == |Below(Kept(c.r, c.readable, max), i)| + |Below(Kept(c.w, c.writable, max), i)|
  {
    if i > 0 {
      CountedIsLeft(c, max, i - 1);
      BelowGrows(Kept(c.r, c.readable, max), i - 1);
      BelowGrows(Kept(c.w, c.writable, max), i - 1);
    }
  }

  /** The body of the loop over descriptors. */
  method SelectOne(i: nat, readFds: FdSet?, writeFds: FdSet?, exceptFds: FdSet?, readable: bool, writable: bool)
    returns (polled: bool, counted: nat)
    requires readFds != null ==> readFds != writeFds && readFds != exceptFds
    requires writeFds != null ==> writeFds != exceptFds
    modifies if readFds == null then {} else {readFds}, if writeFds == null then {} else {writeFds},
             if exceptFds == null then {} else {exceptFds}
    ensures BitsOf(readFds) == old(BitsOf(readFds)) - if readable then {} else {i}
    ensures BitsOf(writeFds) == old(BitsOf(writeFds)) - if writable then {} else {i}
    ensures BitsOf(exceptFds) == old(BitsOf(exceptFds)) - {i}
    ensures polled == (i in old(BitsOf(readFds)) || i in old(BitsOf(writeFds)))
    ensures counted == (if i in old(BitsOf(readFds)) && readable then 1 else 0)
                       + if i in old(BitsOf(writeFds)) && writable then 1 else 0
  {
    var inRead, r := Watch(readFds, i, readable);
    var inWrite, w := Watch(writeFds, i, writable);
    var _, _ := Watch(exceptFds, i, false);
    polled, counted := inRead || inWrite, r + w;
  }

  /**
    __wrap_select: each descriptor is polled in turn, for reading and for writing; those
    not ready are cleared, exceptional ones always. It returns exactly the number of
    bits left below max_fd in the read and write sets, and sleeps out the timeout when
    there was nothing to poll. The sets are distinct objects or NULL, as select(2)'s
    restrict-qualified parameters demand.
  */
  method WrapSelect(maxFd: nat, readFds: FdSet?, writeFds: FdSet?, exceptFds: FdSet?,
                    readable: nat -> bool, writable: nat -> bool, timeout: int)
    returns (n: nat, slept: int)
    requires readFds != null ==> readFds != writeFds && readFds != exceptFds
    requires writeFds != null ==> writeFds != exceptFds
    modifies if readFds == null then {} else {readFds}, if writeFds == null then {} else {writeFds},
             if exceptFds == null then {} else {exceptFds}
    ensures BitsOf(readFds) == Kept(old(BitsOf(readFds)), readable, maxFd)
    ensures BitsOf(writeFds) == Kept(old(BitsOf(writeFds)), writable, maxFd)
    ensures BitsOf(exceptFds) == old(BitsOf(exceptFds)) - Below(old(BitsOf(exceptFds)), maxFd)
    ensures n == |Below(BitsOf(readFds), maxFd)| + |Below(BitsOf(writeFds), maxFd)|
    ensures slept == if Below(old(BitsOf(readFds)) + old(BitsOf(writeFds)), maxFd) == {} && timeout > 0 then timeout else 0
  {
    n, slept := 0, 0;
    var polled := false;
    ghost var c := Call(BitsOf(readFds), BitsOf(writeFds), BitsOf(exceptFds), readable, writable);
    ghost var p := Progress(c.r, c.w, c.e, n, polled);
    for i := 0 to maxFd
      invariant p == Progress(BitsOf(readFds), BitsOf(writeFds), BitsOf(exceptFds), n, polled)
      invariant After(c, i, p)
    {
      var here, counted := SelectOne(i, readFds, writeFds, exceptFds, readable(i), writable(i));
      n := n + counted;
      polled := polled || here;
      ghost var q := Progress(BitsOf(readFds), BitsOf(writeFds), BitsOf(exceptFds), n, polled);
      OneMore(c, i, p, q);
      p := q;
    }
    CountedIsLeft(c, maxFd, maxFd);
    if !polled && timeout > 0 {
      slept := timeout;
    }
  }
}
