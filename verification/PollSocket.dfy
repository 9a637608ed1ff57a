/**
  wasm_poll_socket on a socket: what it answers at once, and the race it runs between
  socket events and a timeout when it has to wait.
*/
module PollSocket {
  import opened Common

  /** The `events` bit mask. */
  datatype Want = Want(pollin: bool, pollpri: bool, pollout: bool, pollerr: bool, pollhup: bool, pollnval: bool)

  /** What wasm_poll_socket reads of a SOCKFS socket. */
  datatype View = View(
    kind: SockType,
    server: bool,
    pending: seq<nat>,         // queued messages of each pending client, on a server
    queued: nat,               // sock.recv_queue.length
    error: bool,               // sock.error is set
    webSockets: seq<Ready>)    // getAllWebSockets, by readyState

  datatype EventKind = MessageEv | OpenEv | CloseEv | ErrorEv

  /** A promise of awaitData, awaitConnection, awaitClose or awaitError. */
  datatype Await = Await(ws: nat, event: EventKind, already: bool)

  datatype Decision =
    | WakeNow(n: int)
    | WakeAfter(n: int)        // setTimeout(() => wakeUp(n), timeout)
    | NeverWakes               // nothing was scheduled
    | Race(awaits: seq<Await>)

  // ---------------------------------------------------------------- at once

  predicate Readable(want: Want) { want.pollin || want.pollpri }

  predicate HasQueued(v: View) {
    if v.server then exists i :: 0 <= i < |v.pending| && v.pending[i] > 0 else v.queued > 0
  }

  predicate SomeEnding(v: View) {
    exists i :: 0 <= i < |v.webSockets| && Ending(v.webSockets[i])
  }

  function Awaits(ready: Ready, ws: nat, want: Want): (r: seq<Await>) {
    (if Readable(want) then [Await(ws, MessageEv, false)] else []) +
    (if want.pollout then [Await(ws, OpenEv, ready == Open)] else []) +
    (if want.pollhup || want.pollin || want.pollout || want.pollerr
     then [Await(ws, CloseEv, Ending(ready))] else []) +
    (if want.pollerr || want.pollnval then [Await(ws, ErrorEv, Ending(ready))] else [])
  }

  function AllAwaits(readies: seq<Ready>, want: Want): (r: seq<Await>) {
    if readies == [] then []
    else
      var n := |readies| - 1;
      AllAwaits(readies[..n], want) + Awaits(readies[n], n, want)
  }

  function Decide(v: View, want: Want, timeout: int): (d: Decision) {
    if Readable(want) && HasQueued(v) then WakeNow(1)
    else if v.webSockets == [] then WakeNow(0)
    else if SomeEnding(v) then
      if v.kind != DatagramSock || v.error || v.queued > 0 then WakeNow(1)
      else if timeout != -1 then WakeAfter(0)
      else NeverWakes
    else
      var awaits := AllAwaits(v.webSockets, want);
      if awaits == [] then WakeAfter(0) else Race(awaits)
  }

  /** The promises pushed for one WebSocket. */
  method PushPolls(polls: seq<Await>, ready: Ready, ws: nat, want: Want) returns (r: seq<Await>)
    ensures r == polls + Awaits(ready, ws, want)
  {
    r := polls;
    if want.pollin || want.pollpri {
      r := r + [Await(ws, MessageEv, false)];
    }
    if want.pollout {
      r := r + [Await(ws, OpenEv, ready == Open)];
    }
    if want.pollhup || want.pollin || want.pollout || want.pollerr {
      r := r + [Await(ws, CloseEv, Ending(ready))];
    }
    if want.pollerr || want.pollnval {
      r := r + [Await(ws, ErrorEv, Ending(ready))];
    }
  }

  method BuildPolls(webSockets: seq<Ready>, want: Want) returns (polls: seq<Await>)
    ensures polls == AllAwaits(webSockets, want)
  {
    polls := [];
    for i := 0 to |webSockets|
      invariant polls == AllAwaits(webSockets[..i], want)
    {
      polls := PushPolls(polls, webSockets[i], i, want);
      assert webSockets[..i + 1][..i] == webSockets[..i];
    }
    assert webSockets[..|webSockets|] == webSockets;
  }

  /** The body of wasm_poll_socket up to the race, its loops over clients and WebSockets included. */
  method PollNow(v: View, want: Want, timeout: int) returns (d: Decision)
    ensures d == Decide(v, want, timeout)
  {
    if want.pollin || want.pollpri {
      if v.server {
        for i := 0 to |v.pending|
          invariant forall j :: 0 <= j < i ==> v.pending[j] == 0
        {
          if v.pending[i] > 0 {
            return WakeNow(1);
          }
        }
      } else if v.queued > 0 {
        return WakeNow(1);
      }
    }
    if |v.webSockets| == 0 {
      return WakeNow(0);
    }
    var ending := false;
    for i := 0 to |v.webSockets|
      invariant ending <==> exists j :: 0 <= j < i && Ending(v.webSockets[j])
    {
      ending := ending || v.webSockets[i] == Closing || v.webSockets[i] == Closed;
    }
    if ending {
      if v.kind != DatagramSock || v.error || v.queued > 0 {
        return WakeNow(1);
      } else if timeout != -1 {
        return WakeAfter(0);
      }
      return NeverWakes;
    }
    var polls := BuildPolls(v.webSockets, want);
    return if polls == [] then WakeAfter(0) else Race(polls);
  }

  lemma {:induction false} AwaitsInside(readies: seq<Ready>, want: Want, ws: nat)
    requires ws < |readies|
    ensures forall a :: a in Awaits(readies[ws], ws, want) ==> a in AllAwaits(readies, want)
  {
    var n := |readies| - 1;
    if ws < n {
      AwaitsInside(readies[..n], want, ws);
    }
  }

  /** Which events a poll waits for on a WebSocket. */
  predicate Asks(want: Want, event: EventKind) {
    match event
    case MessageEv => want.pollin || want.pollpri
    case OpenEv => want.pollout
    case CloseEv => want.pollin || want.pollout || want.pollhup || want.pollerr
    case ErrorEv => want.pollerr || want.pollnval
  }

  lemma {:induction false} OwnAwaits(ready: Ready, ws: nat, want: Want, a: Await)
    requires !Ending(ready)
    ensures a in Awaits(ready, ws, want) <==>
            a.ws == ws && Asks(want, a.event) && a.already == (a.event == OpenEv && ready == Open)
  {
    var m := if Readable(want) then [Await(ws, MessageEv, false)] else [];
    var o := if want.pollout then [Await(ws, OpenEv, ready == Open)] else [];
    var c := if want.pollhup || want.pollin || want.pollout || want.pollerr then [Await(ws, CloseEv, Ending(ready))] else [];
    var e := if want.pollerr || want.pollnval then [Await(ws, ErrorEv, Ending(ready))] else [];
    assert Awaits(ready, ws, want) == m + o + c + e;
    assert a in m + o + c + e <==> a in m || a in o || a in c || a in e;
  }

  lemma {:induction false} AwaitsOnly(readies: seq<Ready>, want: Want, a: Await)
    requires a in AllAwaits(readies, want)
    ensures a.ws < |readies| && a in Awaits(readies[a.ws], a.ws, want)
  {
    var n := |readies| - 1;
    if a in AllAwaits(readies[..n], want) {
      AwaitsOnly(readies[..n], want, a);
    } else {
      assert a in Awaits(readies[n], n, want);
      AwaitsNameTheirSocket(readies[n], n, want, a);
    }
  }

  lemma {:induction false} AwaitsNameTheirSocket(ready: Ready, ws: nat, want: Want, a: Await)
    requires a in Awaits(ready, ws, want)
    ensures a.ws == ws
  {
  }

  /**
    A poll that waits awaits, on each of its WebSockets, exactly the events asked for,
    the close among them for a read or write poll; and only the opening of one already
    open counts as having come.
  */
  lemma {:induction false} RaceCoversEveryWebSocket(v: View, want: Want, timeout: int, a: Await)
    requires Decide(v, want, timeout).Race?
    ensures
      a in Decide(v, want, timeout).awaits <==>
        a.ws < |v.webSockets| && Asks(want, a.event) && a.already == (a.event == OpenEv && v.webSockets[a.ws] == Open)
  {
    if a.ws < |v.webSockets| {
      AwaitsInside(v.webSockets, want, a.ws);
      OwnAwaits(v.webSockets[a.ws], a.ws, want, a);
    }
    if a in AllAwaits(v.webSockets, want) {
      AwaitsOnly(v.webSockets, want, a);
    }
  }

  /** Something is queued for a read poll: in its own queue, or for a listening socket in a client's. */
  ghost predicate DataFor(v: View, want: Want) {
    && Readable(want)
    && (v.server ==> exists i :: 0 <= i < |v.pending| && v.pending[i] > 0)
    && (!v.server ==> v.queued > 0)
  }

  /** A closing peer leaves something to report: always on a stream, on a datagram socket what is pending. */
  ghost predicate EndFor(v: View) {
    SomeEnding(v) && (v.kind == StreamSock || v.error || v.queued > 0)
  }

  lemma {:induction false} NothingAwaited(readies: seq<Ready>, want: Want)
    ensures AllAwaits(readies, want) == [] <==> readies == [] || forall event :: !Asks(want, event)
  {
    if readies != [] {
      NothingAwaited(readies[..|readies| - 1], want);
      assert Asks(want, MessageEv) || Asks(want, OpenEv) || Asks(want, CloseEv) || Asks(want, ErrorEv)
             <==> exists event :: Asks(want, event);
    }
  }

  /**
    What a poll answers without a race, from the caller's side. It is 1 at once exactly
    when there is data for it or a closing peer leaves something to report, a write poll
    and one on a listening socket included; 0 at once exactly when there is nothing and
    no WebSocket it could come from. Otherwise it waits: for its race, or, when nothing
    can come any more or nothing was asked for, until the timeout, and then answers 0.
    It is never answered only if it has no timeout and nothing can come any more.
  */
  lemma {:induction false} PollAnswers(v: View, want: Want, timeout: int)
    ensures
      var d := Decide(v, want, timeout);
      var now := DataFor(v, want) || EndFor(v);
      && (d == WakeNow(1) <==> now)
      && (d == WakeNow(0) <==> !now && v.webSockets == [])
      && (d.WakeNow? ==> d.n == 0 || d.n == 1)
      && (d.Race? <==> !now && v.webSockets != [] && !SomeEnding(v) && exists event :: Asks(want, event))
      && (d.NeverWakes? <==> !now && SomeEnding(v) && timeout == -1)
      && (d.WakeAfter? ==> d.n == 0)
  {
    NothingAwaited(v.webSockets, want);
  }

  // ---------------------------------------------------------------- the race

  /**
    One promise of the race: the event it waits for, whether its once() listener is
    registered, whether it is resolved, whether a late setTimeout(resolve) is
    scheduled, and whether its cancel function is awaitEvent's (or the no-op).
  */
  datatype Poll = Poll(ws: nat, event: EventKind, listening: bool, resolved: bool, late: bool, cancels: bool)

  /** Promise.race: not settled, settled with its callback queued, or callback run. */
  datatype RaceState = Unsettled | Queued | Ran

  datatype State = State(polls: seq<Poll>, race: RaceState, awaken: bool, timer: bool, wakes: seq<int>)

  datatype Step =
    | Emit(ws: nat, event: EventKind)
    | RaceCallback
    | TimerFires
    | LateResolve(i: nat)

  function Made(a: Await): (p: Poll) {
    Poll(a.ws, a.event, !a.already, a.already, false, !a.already)
  }

  function MadeAll(awaits: seq<Await>): (ps: seq<Poll>)
    ensures |ps| == |awaits|
    ensures forall i :: 0 <= i < |ps| ==> ps[i] == Made(awaits[i])
  {
    seq(|awaits|, i requires 0 <= i < |awaits| => Made(awaits[i]))
  }

  predicate AnyResolved(ps: seq<Poll>) {
    exists i :: 0 <= i < |ps| && ps[i].resolved
  }

  function Start(awaits: seq<Await>, timeout: int): (s: State) {
    var ps := MadeAll(awaits);
    State(ps, if AnyResolved(ps) then Queued else Unsettled, false, timeout != -1, [])
  }

  function Settle(race: RaceState, resolved: bool): (r: RaceState) {
    if race == Unsettled && resolved then Queued else race
  }

  predicate Hears(p: Poll, ws: nat, event: EventKind) {
    p.listening && p.ws == ws && p.event == event
  }

  /** An event: its once() listeners are removed and resolve their promises. */
  function Emitted(p: Poll, ws: nat, event: EventKind): (r: Poll) {
    if Hears(p, ws, event) then p.(listening := false, resolved := true) else p
  }

  function EmittedAll(ps: seq<Poll>, ws: nat, event: EventKind): (r: seq<Poll>)
    ensures |r| == |ps|
    ensures forall i :: 0 <= i < |ps| ==> r[i] == Emitted(ps[i], ws, event)
  {
    seq(|ps|, i requires 0 <= i < |ps| => Emitted(ps[i], ws, event))
  }

  /** cancel: the listener goes, and the promise is resolved on a later tick. */
  function Cancelled(p: Poll): (r: Poll) {
    if p.cancels then p.(listening := false, late := true) else p
  }

  function CancelledAll(ps: seq<Poll>): (r: seq<Poll>)
    ensures |r| == |ps|
    ensures forall i :: 0 <= i < |ps| ==> r[i] == Cancelled(ps[i])
  {
    seq(|ps|, i requires 0 <= i < |ps| => Cancelled(ps[i]))
  }

  function Wake(s: State, n: int): (r: State) {
    if s.awaken then s
    else s.(awaken := true, wakes := s.wakes + [n], polls := CancelledAll(s.polls))
  }

  function Next(s: State, step: Step): (r: State) {
    match step
    case Emit(ws, event) =>
      var ps := EmittedAll(s.polls, ws, event);
      s.(polls := ps, race := Settle(s.race, AnyResolved(ps)))
    case RaceCallback =>
      if s.race == Queued
      then Wake(s.(race := Ran), 1).(timer := s.awaken && s.timer)
      else s
    case TimerFires =>
      if s.timer then Wake(s.(timer := false), 0) else s
    case LateResolve(i) =>
      if i < |s.polls| && s.polls[i].late
      then s.(polls := s.polls[i := s.polls[i].(late := false, resolved := true)], race := Settle(s.race, true))
      else s
  }

  function Run(awaits: seq<Await>, timeout: int, steps: seq<Step>): (s: State) {
    if steps == [] then Start(awaits, timeout)
    else Next(Run(awaits, timeout, steps[..|steps| - 1]), steps[|steps| - 1])
  }

  /** An event the race waited for came, or was there from the start. */
  predicate Awaited(awaits: seq<Await>, steps: seq<Step>) {
    || (exists i :: 0 <= i < |awaits| && awaits[i].already)
    || (exists i, j :: 0 <= i < |awaits| && 0 <= j < |steps| && steps[j] == Emit(awaits[i].ws, awaits[i].event))
  }

  predicate NoListener(s: State) {
    forall i :: 0 <= i < |s.polls| ==> !s.polls[i].listening
  }

  /** Which promise is which never changes, and only those that cancel ever listen. */
  ghost predicate SameAwaits(awaits: seq<Await>, s: State) {
    && |s.polls| == |awaits|
    && forall i :: 0 <= i < |awaits| ==>
         && s.polls[i].ws == awaits[i].ws && s.polls[i].event == awaits[i].event
         && s.polls[i].cancels == !awaits[i].already
         && (s.polls[i].listening ==> s.polls[i].cancels)
  }

  /** Before the wake: no answer, nothing cancelled, and a settled race has a cause. */
  ghost predicate Asleep(awaits: seq<Await>, timeout: int, s: State) {
    && s.wakes == [] && s.timer == (timeout != -1) && s.race != Ran
    && (forall i :: 0 <= i < |s.polls| ==> !s.polls[i].late)
    && (s.race == Queued <==> AnyResolved(s.polls))
    && (forall i :: 0 <= i < |s.polls| ==> s.polls[i].resolved == !s.polls[i].listening)
  }

  ghost predicate Awake(s: State) {
    |s.wakes| == 1 && NoListener(s) && !s.timer
  }

  ghost predicate Inv(awaits: seq<Await>, timeout: int, s: State) {
    && SameAwaits(awaits, s)
    && if s.awaken then Awake(s) else Asleep(awaits, timeout, s)
  }

  lemma {:induction false} NextKeeps(awaits: seq<Await>, timeout: int, s: State, step: Step)
    requires Inv(awaits, timeout, s)
    ensures Inv(awaits, timeout, Next(s, step))
  {
    if step.Emit? {
      var ps := EmittedAll(s.polls, step.ws, step.event);
      if AnyResolved(s.polls) {
        var i :| 0 <= i < |s.polls| && s.polls[i].resolved;
        assert ps[i].resolved;
      }
    }
  }

  lemma {:induction false} RunKeeps(awaits: seq<Await>, timeout: int, steps: seq<Step>)
    ensures Inv(awaits, timeout, Run(awaits, timeout, steps))
  {
    if steps != [] {
      RunKeeps(awaits, timeout, steps[..|steps| - 1]);
      NextKeeps(awaits, timeout, Run(awaits, timeout, steps[..|steps| - 1]), steps[|steps| - 1]);
    }
  }

  lemma {:induction false} AwaitedGrows(awaits: seq<Await>, steps: seq<Step>)
    requires steps != [] && Awaited(awaits, steps[..|steps| - 1])
    ensures Awaited(awaits, steps)
  {
    var before := steps[..|steps| - 1];
    if i, j :| 0 <= i < |awaits| && 0 <= j < |before| && before[j] == Emit(awaits[i].ws, awaits[i].event) {
      assert steps[j] == Emit(awaits[i].ws, awaits[i].event);
    }
  }

  /** Before the wake, a promise is resolved only because its event was emitted. */
  lemma {:induction false} ResolvedWasAwaited(awaits: seq<Await>, timeout: int, steps: seq<Step>, i: nat)
    requires var s := Run(awaits, timeout, steps); !s.awaken && i < |s.polls| && s.polls[i].resolved
    ensures Awaited(awaits, steps)
  {
    RunKeeps(awaits, timeout, steps);
    if steps == [] {
      assert awaits[i].already;
    } else {
      var before, step := steps[..|steps| - 1], steps[|steps| - 1];
      RunKeeps(awaits, timeout, before);
      var s := Run(awaits, timeout, before);
      if s.polls[i].resolved {
        ResolvedWasAwaited(awaits, timeout, before, i);
        AwaitedGrows(awaits, steps);
      } else {
        assert step.Emit? && Hears(s.polls[i], step.ws, step.event);
        assert steps[|steps| - 1] == Emit(awaits[i].ws, awaits[i].event);
      }
    }
  }

  /**
    Whatever the interleaving of socket events, the race callback, the timeout and the
    late resolutions that cancelling causes: the caller wakes at most once, and after
    the wake no listener registered through awaitEvent is left and no timer is armed.
  */
  lemma {:induction false} WakesOnceAndLeavesNothing(awaits: seq<Await>, timeout: int, steps: seq<Step>)
    ensures
      var s := Run(awaits, timeout, steps);
      && |s.wakes| <= 1
      && (s.wakes != [] ==> NoListener(s) && !s.timer)
  {
    RunKeeps(awaits, timeout, steps);
  }

  /**
    The answer is never wrong: 1 only if an awaited event came (or was there from the
    start), 0 only if there was a timeout and it fired. So the promises that cancel
    resolves later never count as an event.
  */
  lemma {:induction false} AnswerHasItsCause(awaits: seq<Await>, timeout: int, steps: seq<Step>)
    ensures
      var w := Run(awaits, timeout, steps).wakes;
      w == [] || (w == [1] && Awaited(awaits, steps)) || (w == [0] && timeout != -1 && TimerFires in steps)
  {
    if steps != [] {
      var before, step := steps[..|steps| - 1], steps[|steps| - 1];
      AnswerHasItsCause(awaits, timeout, before);
      RunKeeps(awaits, timeout, before);
      var s := Run(awaits, timeout, before);
      if Awaited(awaits, before) {
        AwaitedGrows(awaits, steps);
      }
      if !s.awaken && step.RaceCallback? && s.race == Queued {
        var i :| 0 <= i < |s.polls| && s.polls[i].resolved;
        ResolvedWasAwaited(awaits, timeout, before, i);
        AwaitedGrows(awaits, steps);
      }
    }
  }

  /** Nothing is missed: an awaited event settles the race, and its callback wakes the caller. */
  lemma {:induction false} EventWakes(awaits: seq<Await>, timeout: int, steps: seq<Step>, i: nat)
    requires i < |awaits| && !awaits[i].already
    ensures
      var e := Emit(awaits[i].ws, awaits[i].event);
      |Run(awaits, timeout, steps + [e] + [RaceCallback]).wakes| == 1
  {
    var e := Emit(awaits[i].ws, awaits[i].event);
    var s := Run(awaits, timeout, steps);
    RunKeeps(awaits, timeout, steps);
    assert (steps + [e])[..|steps|] == steps;
    assert (steps + [e] + [RaceCallback])[..|steps| + 1] == steps + [e];
    var t := Next(s, e);
    assert Run(awaits, timeout, steps + [e]) == t;
    RunKeeps(awaits, timeout, steps + [e]);
    if !s.awaken {
      assert t.polls[i].resolved;
    }
  }

  /**
    A poll with a finite timeout is always answered: at once, after the timeout, or by
    its race, which the timeout ends at the latest, whatever has happened before.
  */
  lemma {:induction false} FiniteTimeoutAnswers(v: View, want: Want, timeout: int, steps: seq<Step>)
    requires timeout != -1
    ensures
      var d := Decide(v, want, timeout);
      && !d.NeverWakes?
      && (d.Race? ==> |Run(d.awaits, timeout, steps + [TimerFires]).wakes| == 1)
      && (d.Race? && Run(d.awaits, timeout, steps).wakes == [] ==>
            Run(d.awaits, timeout, steps + [TimerFires]).wakes == [0])
  {
    PollAnswers(v, want, timeout);
    var d := Decide(v, want, timeout);
    if d.Race? {
      RunKeeps(d.awaits, timeout, steps);
      assert (steps + [TimerFires])[..|steps|] == steps;
      RunKeeps(d.awaits, timeout, steps + [TimerFires]);
    }
  }

  /** A write poll on a connection that is open, none of the others ending, is answered 1 without an event. */
  lemma {:induction false} OpenIsWritable(v: View, want: Want, timeout: int, ws: nat)
    requires want.pollout && !DataFor(v, want) && ws < |v.webSockets| && v.webSockets[ws] == Open && !SomeEnding(v)
    ensures
      var d := Decide(v, want, timeout);
      d.Race? && Run(d.awaits, timeout, [RaceCallback]).wakes == [1]
  {
    assert Asks(want, OpenEv);
    PollAnswers(v, want, timeout);
    var awaits := Decide(v, want, timeout).awaits;
    RaceCoversEveryWebSocket(v, want, timeout, Await(ws, OpenEv, true));
    var i :| 0 <= i < |awaits| && awaits[i] == Await(ws, OpenEv, true);
    var s := Start(awaits, timeout);
    assert s.polls[i].resolved;
    assert [RaceCallback][..0] == [];
    assert Run(awaits, timeout, []) == s;
  }

  // ---------------------------------------------------------------- the closures

  class PollCall {
    var polls: seq<Poll>
    var race: RaceState
    var awaken: bool
    var timer: bool
    var wakes: seq<int>

    ghost function Abs(): (s: State)
      reads this
    {
      State(polls, race, awaken, timer, wakes)
    }

    constructor (awaits: seq<Await>, timeout: int)
      ensures Abs() == Run(awaits, timeout, [])
    {
      polls := MadeAll(awaits);
      race := if AnyResolved(MadeAll(awaits)) then Queued else Unsettled;
      awaken, timer, wakes := false, timeout != -1, [];
    }

    /** polls.forEach(([, clear]) => clear()). */
    method ClearPolling()
      modifies this`polls
      ensures polls == CancelledAll(old(polls))
    {
      var i := 0;
      while i < |polls|
        invariant 0 <= i <= |polls| == |old(polls)|
        invariant forall j :: 0 <= j < i ==> polls[j] == Cancelled(old(polls)[j])
        invariant forall j :: i <= j < |polls| ==> polls[j] == old(polls)[j]
      {
        if polls[i].cancels {
          polls := polls[i := polls[i].(listening := false)];
          polls := polls[i := polls[i].(late := true)];
        }
        i := i + 1;
      }
    }

    /** The callback of Promise.race(promises).then. */
    method OnRace()
      requires race == Queued
      modifies this
      ensures Abs() == Next(old(Abs()), RaceCallback)
    {
      race := Ran;
      if !awaken {
        awaken := true;
        wakes := wakes + [1];
        timer := false;
        ClearPolling();
      }
    }

    method OnTimeout()
      requires timer
      modifies this
      ensures Abs() == Next(old(Abs()), TimerFires)
    {
      timer := false;
      if !awaken {
        awaken := true;
        wakes := wakes + [0];
        ClearPolling();
      }
    }
  }
}
