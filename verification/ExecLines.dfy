/**
  wasm_php_exec: lines read piecewise into a buffer that grows, handed to handle_line
  when they are complete, and the last one returned. A chunk is what one
  php_stream_get_line call delivers, and whether php_stream_eof holds after it.
*/
module ExecLines {
  import opened Common

  const NEWLINE: byte := 10
  const EXEC_INPUT_BUF: nat := 4096
  const SIZE_MOD := 0x1_0000_0000

  datatype Chunk = Chunk(bytes: Bytes, eof: bool)

  /**
    The rule of php_stream_get_line: at least one byte, room for the NUL, a newline
    only at the end; and end of file only once everything has been delivered.
  */
  predicate Delivered(cs: seq<Chunk>) {
    && (forall i :: 0 <= i < |cs| ==> 1 <= |cs[i].bytes| < EXEC_INPUT_BUF)
    && (forall i :: 0 <= i < |cs| ==> NEWLINE !in cs[i].bytes[..|cs[i].bytes| - 1])
    && (forall i :: 0 <= i < |cs| - 1 ==> !cs[i].eof)
  }

  predicate Completes(c: Chunk)
    requires c.bytes != []
  {
    c.bytes[|c.bytes| - 1] == NEWLINE || c.eof
  }

  // ---------------------------------------------------------------- stripping

  predicate IsSpace(b: byte) { b == 32 || 9 <= b <= 13 }

  function Strip(s: Bytes): (r: Bytes)
    ensures r <= s
    ensures r != [] ==> !IsSpace(r[|r| - 1])
    ensures forall i :: |r| <= i < |s| ==> IsSpace(s[i])
  {
    if s == [] || !IsSpace(s[|s| - 1]) then s else Strip(s[..|s| - 1])
  }

  /** The conditions of Strip determine it. */
  lemma {:induction false} StripUnique(s: Bytes, n: nat)
    requires n <= |s| && (n > 0 ==> !IsSpace(s[n - 1]))
    requires forall i :: n <= i < |s| ==> IsSpace(s[i])
    ensures Strip(s) == s[..n]
  {
    var r := Strip(s);
    assert r == s[..|r|];
    assert |r| == n;
  }

  lemma {:induction false} StripTwice(s: Bytes)
    ensures Strip(Strip(s)) == Strip(s)
  {
  }

  /** strip_trailing_whitespace, with size_t running through 0 to its maximum. */
  method StripTrailing(buf: array<byte>, bufl: nat) returns (r: nat)
    requires bufl <= buf.Length && bufl < SIZE_MOD
    modifies buf
    ensures r <= bufl && buf[..r] == Strip(old(buf[..bufl]))
    ensures forall j :: 0 <= j < buf.Length && j != r ==> buf[j] == old(buf[j])
  {
    var l := bufl;
    r := bufl;
    while true
      invariant 0 <= l <= bufl
      invariant forall j :: l <= j < bufl ==> IsSpace(buf[j])
      decreases l
    {
      var more := l > 0;
      l := (l + SIZE_MOD - 1) % SIZE_MOD;
      if !more || !IsSpace(buf[l]) {
        break;
      }
    }
    ghost var n := (l + 1) % SIZE_MOD;
    ghost var line := buf[..bufl];
    StripUnique(line, n);
    if l != (bufl + SIZE_MOD - 1) % SIZE_MOD {
      r := (l + 1) % SIZE_MOD;
      buf[r] := 0;
    }
    assert buf[..r] == line[..n];
  }

  // ---------------------------------------------------------------- lines

  /** Adding a piece to the line that is open, or as a new line. */
  function Extend(ls: seq<Bytes>, open: bool, piece: Bytes): (r: seq<Bytes>)
    requires open ==> ls != []
    ensures r != []
  {
    if open then ls[..|ls| - 1] + [ls[|ls| - 1] + piece] else ls + [piece]
  }

  function LinesTo(s: Bytes, n: nat): (ls: seq<Bytes>)
    requires n <= |s|
    ensures n > 0 ==> ls != []
  {
    if n == 0 then [] else Extend(LinesTo(s, n - 1), n > 1 && s[n - 2] != NEWLINE, [s[n - 1]])
  }

  /** The lines of an output, each with its newline; the last may lack one. */
  function Lines(s: Bytes): (ls: seq<Bytes>)
    ensures s != [] ==> ls != []
  {
    LinesTo(s, |s|)
  }

  predicate Unfinished(s: Bytes) { s != [] && s[|s| - 1] != NEWLINE }

  lemma {:induction false} LinesPrefix(s: Bytes, t: Bytes, n: nat)
    requires n <= |s|
    ensures LinesTo(s + t, n) == LinesTo(s, n)
  {
    if n > 0 {
      LinesPrefix(s, t, n - 1);
    }
  }

  lemma {:induction false} LinesAddByte(s: Bytes, x: byte)
    ensures Lines(s + [x]) == Extend(Lines(s), Unfinished(s), [x])
  {
    LinesPrefix(s, [x], |s|);
  }

  lemma {:induction false} ExtendTwice(ls: seq<Bytes>, open: bool, a: Bytes, b: Bytes)
    requires open ==> ls != []
    ensures Extend(Extend(ls, open, a), true, b) == Extend(ls, open, a + b)
  {
    var once := Extend(ls, open, a);
    if open {
      assert once[..|once| - 1] == ls[..|ls| - 1];
      assert ls[|ls| - 1] + a + b == ls[|ls| - 1] + (a + b);
    } else {
      assert once[..|once| - 1] == ls;
    }
  }

  /** A piece with no newline before its end extends the output by at most one line. */
  lemma {:induction false} LinesExtend(s: Bytes, t: Bytes)
    requires t != [] && NEWLINE !in t[..|t| - 1]
    ensures Lines(s + t) == Extend(Lines(s), Unfinished(s), t)
  {
    var m := |t| - 1;
    var init := t[..m];
    assert t == init + [t[m]];
    if m == 0 {
      assert t == [t[m]];
      LinesAddByte(s, t[m]);
    } else {
      assert init[..m - 1] == t[..m][..m - 1];
      LinesExtend(s, init);
      LinesAddByte(s + init, t[m]);
      assert s + t == s + init + [t[m]];
      assert (s + init)[|s + init| - 1] == init[m - 1];
      ExtendTwice(Lines(s), Unfinished(s), init, [t[m]]);
    }
  }

  // ---------------------------------------------------------------- what the loop does

  function OutputTo(cs: seq<Chunk>, n: nat): (s: Bytes)
    requires n <= |cs|
  {
    if n == 0 then [] else OutputTo(cs, n - 1) + cs[n - 1].bytes
  }

  /** Everything the command wrote. */
  function Output(cs: seq<Chunk>): (s: Bytes) { OutputTo(cs, |cs|) }

  /** The incomplete line in the buffer after n chunks. */
  function PendTo(cs: seq<Chunk>, n: nat): (s: Bytes)
    requires n <= |cs| && Delivered(cs)
  {
    if n == 0 || Completes(cs[n - 1]) then [] else PendTo(cs, n - 1) + cs[n - 1].bytes
  }

  /** The lines handed over inside the loop. */
  function DoneTo(cs: seq<Chunk>, n: nat): (ls: seq<Bytes>)
    requires n <= |cs| && Delivered(cs)
  {
    if n == 0 then []
    else if Completes(cs[n - 1]) then DoneTo(cs, n - 1) + [PendTo(cs, n - 1) + cs[n - 1].bytes]
    else DoneTo(cs, n - 1)
  }

  /** The longest incomplete line so far: what the buffer has grown for. */
  function MaxPend(cs: seq<Chunk>, n: nat): (m: nat)
    requires n <= |cs| && Delivered(cs)
    ensures |PendTo(cs, n)| <= m
  {
    if n == 0 then 0
    else if |PendTo(cs, n)| > MaxPend(cs, n - 1) then |PendTo(cs, n)|
    else MaxPend(cs, n - 1)
  }

  /** `bufl` after n chunks when a line is incomplete: its length, unless the buffer did not have to grow. */
  function PendLen(cs: seq<Chunk>, n: nat): (m: nat)
    requires 0 < n <= |cs| && Delivered(cs)
    ensures m <= |PendTo(cs, n)| || PendTo(cs, n) == []
  {
    if |PendTo(cs, n)| > MaxPend(cs, n - 1) then |PendTo(cs, n)| else |cs[n - 1].bytes|
  }

  /** All lines handed to handle_line, the one left over at the end of the stream included. */
  function Handled(cs: seq<Chunk>): (ls: seq<Bytes>)
    requires Delivered(cs)
  {
    var n := |cs|;
    if PendTo(cs, n) == [] then DoneTo(cs, n)
    else DoneTo(cs, n) + [PendTo(cs, n)[..PendLen(cs, n)]]
  }

  function WithPending(done: seq<Bytes>, pend: Bytes): (ls: seq<Bytes>) {
    if pend == [] then done else done + [pend]
  }

  lemma {:induction false} ExtendPending(done: seq<Bytes>, pend: Bytes, c: Bytes)
    ensures Extend(WithPending(done, pend), pend != [], c) == done + [pend + c]
  {
    if pend == [] {
      assert pend + c == c;
    } else {
      assert (done + [pend])[..|done|] == done;
    }
  }

  lemma {:induction false} LinesOfChunk(out: Bytes, done: seq<Bytes>, pend: Bytes, c: Bytes)
    requires c != [] && NEWLINE !in c[..|c| - 1]
    requires Lines(out) == WithPending(done, pend) && Unfinished(out) == (pend != [])
    ensures Lines(out + c) == done + [pend + c]
    ensures Unfinished(out + c) == (c[|c| - 1] != NEWLINE)
  {
    LinesExtend(out, c);
    ExtendPending(done, pend, c);
  }

  lemma {:induction false} OutputSplits(cs: seq<Chunk>, n: nat)
    requires n <= |cs| && Delivered(cs)
    ensures
      var out, pend := OutputTo(cs, n), PendTo(cs, n);
      && (n < |cs| || pend != [] ==> Unfinished(out) == (pend != []))
      && Lines(out) == WithPending(DoneTo(cs, n), pend)
  {
    if n > 0 {
      OutputSplits(cs, n - 1);
      var out, c := OutputTo(cs, n - 1), cs[n - 1].bytes;
      LinesOfChunk(out, DoneTo(cs, n - 1), PendTo(cs, n - 1), c);
      assert WithPending(DoneTo(cs, n), PendTo(cs, n)) == DoneTo(cs, n - 1) + [PendTo(cs, n - 1) + c];
    }
  }

  /** The command ends in the middle of a line whose end-of-file had not been noticed yet. */
  predicate Dangling(cs: seq<Chunk>) requires Delivered(cs) { PendTo(cs, |cs|) != [] }

  /**
    A dangling last line read in two chunks or more, when an earlier line had already
    grown the buffer to hold it: `bufl` then only counts the last chunk.
  */
  predicate Lossy(cs: seq<Chunk>) requires Delivered(cs) {
    Dangling(cs) && |cs[|cs| - 1].bytes| < |PendTo(cs, |cs|)| <= MaxPend(cs, |cs| - 1)
  }

  /** Every line of the output is handed over, whole and in order, exactly when the end is not lossy. */
  lemma {:induction false} HandlesTheLines(cs: seq<Chunk>)
    requires Delivered(cs)
    ensures Handled(cs) == Lines(Output(cs)) <==> !Lossy(cs)
    ensures !Dangling(cs) ==> Handled(cs) == Lines(Output(cs))
  {
    var n := |cs|;
    OutputSplits(cs, n);
    if Dangling(cs) {
      var p := PendTo(cs, n);
      var shown := p[..PendLen(cs, n)];
      assert p[..|p|] == p;
      if Lossy(cs) {
        assert |shown| < |p|;
        assert Handled(cs)[|DoneTo(cs, n)|] != Lines(Output(cs))[|DoneTo(cs, n)|];
      }
    }
  }

  lemma {:induction false} MaxPendIsMax(cs: seq<Chunk>, i: nat, n: nat)
    requires i <= n <= |cs| && Delivered(cs)
    ensures |PendTo(cs, i)| <= MaxPend(cs, n)
  {
    if i < n {
      MaxPendIsMax(cs, i, n - 1);
    }
  }

  /** A line of 8190 bytes and then 8190 more without a newline: half of those are lost. */
  lemma {:induction false} LossyExample(x: Bytes, y: Bytes)
    requires |x| == |y| == EXEC_INPUT_BUF - 1 && NEWLINE !in x && NEWLINE !in y
    ensures
      var cs := [Chunk(x, false), Chunk(x, false), Chunk([NEWLINE], false), Chunk(y, false), Chunk(y, false)];
      Delivered(cs) && PendLen(cs, 5) == |y| && Handled(cs) != Lines(Output(cs))
  {
    var cs := [Chunk(x, false), Chunk(x, false), Chunk([NEWLINE], false), Chunk(y, false), Chunk(y, false)];
    assert !Completes(cs[0]) && !Completes(cs[1]) && Completes(cs[2]) && !Completes(cs[3]) && !Completes(cs[4]);
    assert |PendTo(cs, 1)| == |x|;
    assert |PendTo(cs, 2)| == 2 * |x|;
    assert |PendTo(cs, 3)| == 0;
    assert |PendTo(cs, 4)| == |y|;
    assert |PendTo(cs, 5)| == 2 * |y|;
    MaxPendIsMax(cs, 2, 4);
    HandlesTheLines(cs);
  }

  function Flat(ls: seq<Bytes>): (s: Bytes) {
    if ls == [] then [] else Flat(ls[..|ls| - 1]) + ls[|ls| - 1]
  }

  function StripAll(ls: seq<Bytes>): (r: seq<Bytes>)
    ensures |r| == |ls|
    ensures forall i :: 0 <= i < |ls| ==> r[i] == Strip(ls[i])
  {
    seq(|ls|, i requires 0 <= i < |ls| => Strip(ls[i]))
  }

  lemma {:induction false} FlatMore(ls: seq<Bytes>, line: Bytes)
    ensures Flat(ls + [line]) == Flat(ls) + line
  {
    assert (ls + [line])[..|ls|] == ls;
  }

  /** A newline can only be the last byte of a line, and only the last line can lack one. */
  ghost predicate ProperLines(ls: seq<Bytes>) {
    && (forall i :: 0 <= i < |ls| ==> ls[i] != [] && NEWLINE !in ls[i][..|ls[i]| - 1])
    && (forall i :: 0 <= i < |ls| - 1 ==> ls[i][|ls[i]| - 1] == NEWLINE)
  }

  lemma {:induction false} LongerLastLine(ls: seq<Bytes>, x: byte)
    requires ls != [] && ProperLines(ls) && ls[|ls| - 1][|ls[|ls| - 1]| - 1] != NEWLINE
    ensures ProperLines(Extend(ls, true, [x])) && Flat(Extend(ls, true, [x])) == Flat(ls) + [x]
  {
    var n := |ls| - 1;
    var last := ls[n];
    assert ls == ls[..n] + [last];
    FlatMore(ls[..n], last);
    FlatMore(ls[..n], last + [x]);
    assert (last + [x])[..|last|] == last == last[..|last| - 1] + [last[|last| - 1]];
    assert Flat(ls[..n]) + (last + [x]) == Flat(ls[..n]) + last + [x];
  }

  lemma {:induction false} OneMoreLine(ls: seq<Bytes>, x: byte)
    requires ProperLines(ls) && (ls != [] ==> ls[|ls| - 1][|ls[|ls| - 1]| - 1] == NEWLINE)
    ensures ProperLines(ls + [[x]]) && Flat(ls + [[x]]) == Flat(ls) + [x]
  {
    FlatMore(ls, [x]);
  }

  /** The lines of an output are just that: together the output, cut after every newline. */
  lemma {:induction false} LinesAreLines(s: Bytes, n: nat)
    requires n <= |s|
    ensures LinesOf(LinesTo(s, n), s[..n])
  {
    if n > 0 {
      LinesAreLines(s, n - 1);
      assert s[..n] == s[..n - 1] + [s[n - 1]];
      ByteAdded(LinesTo(s, n - 1), s[..n - 1], s[n - 1]);
    }
  }

  ghost predicate LinesOf(ls: seq<Bytes>, s: Bytes) {
    && ProperLines(ls) && Flat(ls) == s && (ls == [] <==> s == [])
    && (s != [] ==> ls[|ls| - 1][|ls[|ls| - 1]| - 1] == s[|s| - 1])
  }

  lemma {:induction false} ByteAdded(ls: seq<Bytes>, s: Bytes, x: byte)
    requires LinesOf(ls, s)
    ensures LinesOf(Extend(ls, s != [] && s[|s| - 1] != NEWLINE, [x]), s + [x])
  {
    if s != [] && s[|s| - 1] != NEWLINE {
      LongerLastLine(ls, x);
    } else {
      OneMoreLine(ls, x);
    }
  }

  /** The lines handed over and the incomplete one are all that was delivered. */
  lemma {:induction false} DoneIsOutput(cs: seq<Chunk>, n: nat)
    requires n <= |cs| && Delivered(cs)
    ensures Flat(DoneTo(cs, n)) + PendTo(cs, n) == OutputTo(cs, n)
  {
    if n > 0 {
      DoneIsOutput(cs, n - 1);
      var done, pending, more := DoneTo(cs, n - 1), PendTo(cs, n - 1), cs[n - 1].bytes;
      Associate(Flat(done), pending, more);
      if Completes(cs[n - 1]) {
        FlatMore(done, pending + more);
        NothingAdded(Flat(done + [pending + more]));
      }
    }
  }

  lemma {:induction false} Associate(a: Bytes, b: Bytes, c: Bytes)
    ensures a + b + c == a + (b + c)
  {
  }

  lemma {:induction false} NothingAdded(a: Bytes)
    ensures a + [] == a
  {
  }

  // ---------------------------------------------------------------- the method

  /** What is printed, what is stored in the array. */
  datatype Effect = Effect(printed: Bytes, stored: seq<Bytes>)

  /** The effect of handing lines to handle_line: type 1 prints, type 2 stores. */
  function Shown(kind: int, ls: seq<Bytes>): (e: Effect) {
    Effect(if kind == 1 then Flat(ls) else [], if kind == 2 then StripAll(ls) else [])
  }

  /** What is left in the buffer after a line: type 2 strips it in place. */
  function LeftBy(kind: int, line: Bytes): (s: Bytes) {
    if kind == 2 then Strip(line) else line
  }

  lemma {:induction false} ShownMore(kind: int, ls: seq<Bytes>, line: Bytes)
    ensures Shown(kind, ls + [line]).printed == Shown(kind, ls).printed + if kind == 1 then line else []
    ensures Shown(kind, ls + [line]).stored == Shown(kind, ls).stored + if kind == 2 then [Strip(line)] else []
  {
    assert (ls + [line])[..|ls|] == ls;
    assert StripAll(ls + [line]) == StripAll(ls) + [Strip(line)];
  }

  method HandleLine(kind: int, buf: array<byte>, bufl: nat, ghost ls: seq<Bytes>, e: Effect)
    returns (r: nat, e': Effect)
    requires bufl <= buf.Length && bufl < SIZE_MOD && e == Shown(kind, ls)
    modifies buf
    ensures r <= bufl && buf[..r] == LeftBy(kind, old(buf[..bufl]))
    ensures e' == Shown(kind, ls + [old(buf[..bufl])])
  {
    ShownMore(kind, ls, buf[..bufl]);
    r, e' := bufl, e;
    if kind == 1 {
      e' := e'.(printed := e'.printed + buf[..bufl]);
    } else if kind == 2 {
      r := StripTrailing(buf, bufl);
      e' := e'.(stored := e'.stored + [buf[..r]]);
    }
  }

  /** php_stream_get_line at offset `b`: EXEC_INPUT_BUF bytes must be there. */
  method GetLine(buf: array<byte>, b: nat, c: Chunk)
    requires |c.bytes| < EXEC_INPUT_BUF && b + EXEC_INPUT_BUF <= buf.Length
    modifies buf
    ensures buf[..b] == old(buf[..b]) && buf[b..b + |c.bytes|] == c.bytes
  {
    for i := 0 to |c.bytes|
      invariant buf[..b] == old(buf[..b])
      invariant buf[b..b + i] == c.bytes[..i]
    {
      buf[b + i] := c.bytes[i];
      assert buf[b..b + i + 1] == buf[b..b + i] + [c.bytes[i]];
    }
    buf[b + |c.bytes|] := 0;
  }

  /** erealloc. */
  method Grow(buf: array<byte>, size: nat) returns (r: array<byte>)
    requires buf.Length <= size
    ensures fresh(r) && r.Length == size && r[..buf.Length] == buf[..]
  {
    r := new byte[size](_ => 0);
    for i := 0 to buf.Length
      invariant r[..i] == buf[..i]
    {
      r[i] := buf[i];
    }
    assert r[..buf.Length] == buf[..buf.Length] == buf[..];
  }

  /** The last line handed over, empty when there was none. */
  function LastOf(ls: seq<Bytes>): (s: Bytes) {
    if ls == [] then [] else ls[|ls| - 1]
  }

  /** `bufl` and the buffer after n chunks. */
  ghost predicate Holds(kind: int, cs: seq<Chunk>, n: nat, held: Bytes, b: nat, bufl: nat)
    requires n <= |cs| && Delivered(cs)
  {
    && b == |PendTo(cs, n)| <= |held| && held[..b] == PendTo(cs, n)
    && (b > 0 ==> n > 0 && bufl == PendLen(cs, n))
    && (b == 0 ==> bufl <= |held| && held[..bufl] == LeftBy(kind, LastOf(DoneTo(cs, n))))
  }

  /** Room for another chunk behind the b + bufl bytes held, and the cursor behind them. */
  method MakeRoom(buf0: array<byte>, b0: nat, bufl0: nat) returns (buf: array<byte>, b: nat, bufl: nat)
    requires b0 + bufl0 <= buf0.Length
    ensures buf == buf0 || fresh(buf)
    ensures b == b0 + bufl0 <= buf.Length && buf[..b] == buf0[..b]
    ensures
      if buf0.Length < b + EXEC_INPUT_BUF then buf.Length == b + EXEC_INPUT_BUF && bufl == b
      else buf == buf0 && bufl == bufl0
  {
    buf, b, bufl := buf0, b0, bufl0;
    if buf.Length < bufl + b + EXEC_INPUT_BUF {
      bufl := bufl + b;
      buf := Grow(buf0, bufl + EXEC_INPUT_BUF);
      b := bufl;
      assert buf[..b] == buf[..buf0.Length][..b] == buf0[..b];
    } else {
      b := b + bufl;
    }
  }

  lemma {:induction false} TwoSlices(s: Bytes, i: nat, j: nat)
    requires i <= j <= |s|
    ensures s[..j] == s[..i] + s[i..j]
  {
  }

  lemma {:induction false} StillPending(kind: int, cs: seq<Chunk>, n: nat, held: Bytes, b: nat, bufl: nat)
    requires n < |cs| && Delivered(cs) && !Completes(cs[n])
    requires b == |PendTo(cs, n)| + |cs[n].bytes| <= |held| && held[..b] == PendTo(cs, n) + cs[n].bytes
    requires bufl == if b > MaxPend(cs, n) then b else |cs[n].bytes|
    ensures MaxPend(cs, n + 1) == if b > MaxPend(cs, n) then b else MaxPend(cs, n)
    ensures Holds(kind, cs, n + 1, held, b, bufl)
  {
  }

  /** One turn of the loop: a chunk that leaves its line incomplete. */
  method Continue(buf0: array<byte>, b0: nat, bufl0: nat, kind: int, ghost cs: seq<Chunk>, ghost n: nat)
    returns (buf: array<byte>, b: nat, bufl: nat)
    requires n < |cs| && Delivered(cs) && !Completes(cs[n]) && bufl0 == |cs[n].bytes|
    requires b0 == |PendTo(cs, n)| && buf0.Length == EXEC_INPUT_BUF + MaxPend(cs, n)
    requires buf0[..b0] == PendTo(cs, n) && buf0[b0..b0 + bufl0] == cs[n].bytes
    ensures buf == buf0 || fresh(buf)
    ensures buf.Length == EXEC_INPUT_BUF + MaxPend(cs, n + 1)
    ensures Holds(kind, cs, n + 1, buf[..], b, bufl)
  {
    TwoSlices(buf0[..], b0, b0 + bufl0);
    buf, b, bufl := MakeRoom(buf0, b0, bufl0);
    assert buf[..][..b] == buf[..b] == buf0[..][..b];
    StillPending(kind, cs, n, buf[..], b, bufl);
  }

  lemma {:induction false} PendFits(cs: seq<Chunk>, n: nat)
    requires n <= |cs| && Delivered(cs)
    ensures |PendTo(cs, n)| <= |OutputTo(cs, n)|
  {
    if n > 0 {
      PendFits(cs, n - 1);
    }
  }

  lemma {:induction false} OutputGrows(cs: seq<Chunk>, n: nat, m: nat)
    requires n <= m <= |cs|
    ensures |OutputTo(cs, n)| <= |OutputTo(cs, m)|
  {
    if n < m {
      OutputGrows(cs, n, m - 1);
    }
  }

  /** What the buffer holds when the stream has ended in the middle of a line. */
  lemma {:induction false} AtTheEnd(cs: seq<Chunk>, held: Bytes, b: nat, bufl: nat)
    requires Delivered(cs) && |cs| > 0 && 0 < b == |PendTo(cs, |cs|)| <= |held|
    requires held[..b] == PendTo(cs, |cs|) && bufl == PendLen(cs, |cs|)
    ensures 0 < bufl <= b && Handled(cs) == DoneTo(cs, |cs|) + [held[..bufl]]
  {
    assert held[..bufl] == held[..b][..bufl];
  }

  lemma {:induction false} StripLeft(kind: int, line: Bytes)
    ensures Strip(LeftBy(kind, line)) == Strip(line)
  {
    StripTwice(line);
  }

  /** After the loop: the line left over, and the last line returned. */
  method Finish(kind: int, cs: seq<Chunk>, buf: array<byte>, b: nat, bufl0: nat, e0: Effect)
    returns (e: Effect, last: Bytes)
    requires Delivered(cs) && buf.Length < SIZE_MOD
    requires Holds(kind, cs, |cs|, buf[..], b, bufl0)
    requires e0 == Shown(kind, DoneTo(cs, |cs|))
    modifies buf
    ensures e == Shown(kind, Handled(cs))
    ensures last == Strip(LastOf(Handled(cs)))
  {
    ghost var held := buf[..];
    ghost var line := LastOf(Handled(cs));
    StripLeft(kind, line);
    var bufl := bufl0;
    e, last := e0, [];
    if b != 0 {
      AtTheEnd(cs, held, b, bufl);
      assert LastOf(DoneTo(cs, |cs|) + [held[..bufl]]) == held[..bufl];
    }
    assert held[..bufl] == buf[..bufl];
    if bufl != 0 {
      if b != 0 {
        bufl, e := HandleLine(kind, buf, bufl, DoneTo(cs, |cs|), e);
      }
      bufl := StripTrailing(buf, bufl);
      last := buf[..bufl];
    }
  }

  /** The state of the loop after n chunks. */
  ghost predicate LoopInv(kind: int, cs: seq<Chunk>, n: nat, held: Bytes, b: nat, bufl: nat, e: Effect)
    requires n <= |cs| && Delivered(cs)
  {
    && |held| == EXEC_INPUT_BUF + MaxPend(cs, n)
    && Holds(kind, cs, n, held, b, bufl)
    && e == Shown(kind, DoneTo(cs, n))
  }

  /** One turn of the loop: a chunk that completes its line. */
  method Complete(buf: array<byte>, bufl0: nat, kind: int, ghost cs: seq<Chunk>, ghost n: nat, e0: Effect)
    returns (bufl: nat, e: Effect)
    requires n < |cs| && Delivered(cs) && Completes(cs[n]) && bufl0 < SIZE_MOD
    requires buf.Length == EXEC_INPUT_BUF + MaxPend(cs, n) && bufl0 <= buf.Length
    requires buf[..bufl0] == PendTo(cs, n) + cs[n].bytes && e0 == Shown(kind, DoneTo(cs, n))
    modifies buf
    ensures LoopInv(kind, cs, n + 1, buf[..], 0, bufl, e)
  {
    ghost var line := buf[..bufl0];
    assert DoneTo(cs, n + 1) == DoneTo(cs, n) + [line];
    bufl, e := HandleLine(kind, buf, bufl0, DoneTo(cs, n), e0);
    assert buf[..][..bufl] == buf[..bufl];
  }

  /** The while loop's body for one chunk. */
  method Turn(kind: int, cs: seq<Chunk>, n: nat, buf0: array<byte>, b0: nat, ghost bufl0: nat, e0: Effect)
    returns (buf: array<byte>, b: nat, bufl: nat, e: Effect)
    requires n < |cs| && Delivered(cs) && |PendTo(cs, n)| + |cs[n].bytes| < SIZE_MOD
    requires LoopInv(kind, cs, n, buf0[..], b0, bufl0, e0)
    modifies buf0
    ensures buf == buf0 || fresh(buf)
    ensures LoopInv(kind, cs, n + 1, buf[..], b, bufl, e)
  {
    buf, b, e := buf0, b0, e0;
    assert buf[..b] == buf[..][..b];
    GetLine(buf, b, cs[n]);
    bufl := |cs[n].bytes|;
    assert buf[b + bufl - 1] == buf[b..b + bufl][bufl - 1];
    if buf[b + bufl - 1] != NEWLINE && !cs[n].eof {
      buf, b, bufl := Continue(buf, b, bufl, kind, cs, n);
    } else {
      assert buf[..b + bufl] == PendTo(cs, n) + cs[n].bytes;
      bufl, e := Complete(buf, b + bufl, kind, cs, n, e);
      b := 0;
    }
  }

  /** The part of wasm_php_exec for types 0, 1 and 2: prints, stores, and returns the last line. */
  method Exec(kind: int, cs: seq<Chunk>) returns (e: Effect, last: Bytes)
    requires Delivered(cs) && EXEC_INPUT_BUF + |Output(cs)| < SIZE_MOD
    ensures e == Shown(kind, Handled(cs))
    ensures last == Strip(LastOf(Handled(cs)))
  {
    var buf := new byte[EXEC_INPUT_BUF](_ => 0);
    var b: nat, bufl: nat := 0, 0;
    e := Effect([], []);
    for n := 0 to |cs|
      invariant fresh(buf) && LoopInv(kind, cs, n, buf[..], b, bufl, e)
      invariant MaxPend(cs, n) <= |Output(cs)|
    {
      PendFits(cs, n);
      PendFits(cs, n + 1);
      OutputGrows(cs, n + 1, |cs|);
      buf, b, bufl, e := Turn(kind, cs, n, buf, b, bufl, e);
    }
    e, last := Finish(kind, cs, buf, b, bufl, e);
  }

  /**
    For every output and every way the reader cuts it, unless the end is lossy: the
    stream is printed verbatim, every line is stored stripped, and the stripped last
    line is returned.
  */
  lemma {:induction false} ExecIsRight(kind: int, cs: seq<Chunk>)
    requires Delivered(cs) && !Lossy(cs)
    ensures
      var e, ls := Shown(kind, Handled(cs)), Lines(Output(cs));
      && Handled(cs) == ls
      && e.printed == (if kind == 1 then Output(cs) else [])
      && (kind != 2 ==> e.stored == [])
      && (kind == 2 ==> |e.stored| == |ls| && forall i :: 0 <= i < |ls| ==> e.stored[i] == Strip(ls[i]))
  {
    HandlesTheLines(cs);
    var done, pend := DoneTo(cs, |cs|), PendTo(cs, |cs|);
    DoneIsOutput(cs, |cs|);
    OutputSplits(cs, |cs|);
    if pend != [] {
      FlatMore(done, pend);
    }
  }

  /** The white space that is stripped: space, tab, newline, vertical tab, form feed, carriage return. */
  lemma {:induction false} WhiteSpace(b: byte)
    ensures IsSpace(b) <==> b in {9, 10, 11, 12, 13, 32}
  {
  }

  /** A line that ends in a newline, or in a carriage return and a newline, is returned without. */
  lemma {:induction false} LineEndStripped(line: Bytes)
    requires line != [] && line[|line| - 1] !in {9, 10, 11, 12, 13, 32}
    ensures Strip(line + [10]) == line && Strip(line + [13, 10]) == line
  {
    WhiteSpace(line[|line| - 1]);
    StripUnique(line + [10], |line|);
    StripUnique(line + [13, 10], |line|);
    assert (line + [10])[..|line|] == line && (line + [13, 10])[..|line|] == line;
  }

  /** "line" and a newline: type 1 prints all of it, type 2 stores and every type returns "line". */
  lemma {:induction false} OneLine()
    ensures
      var line: Bytes := [108, 105, 110, 101];
      var cs := [Chunk(line + [10], false)];
      && Delivered(cs) && Handled(cs) == [line + [10]]
      && Shown(1, Handled(cs)).printed == line + [10] && Shown(2, Handled(cs)).stored == [line]
      && Strip(LastOf(Handled(cs))) == line
  {
    var line: Bytes := [108, 105, 110, 101];
    var cs := [Chunk(line + [10], false)];
    LineEndStripped(line);
    OneChunk(cs);
    ShownMore(1, [], line + [10]);
    ShownMore(2, [], line + [10]);
  }

  lemma {:induction false} OneChunk(cs: seq<Chunk>)
    requires Delivered(cs) && |cs| == 1 && Completes(cs[0])
    ensures Handled(cs) == [cs[0].bytes]
  {
    assert DoneTo(cs, 0) == [] && PendTo(cs, 0) == [];
    assert PendTo(cs, 0) + cs[0].bytes == cs[0].bytes;
  }
}
