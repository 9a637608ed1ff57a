/**
  The environment of proc_open: _php_array_to_envp sizes and then fills one block of
  NUL-terminated "key=value" strings with an array of pointers into it, and
  js_open_process reads the pointers back into an object.
*/
module EnvBlock {
  import opened Common

  const NUL: byte := 0
  const EQUALS: byte := 61

  /** One element of the PHP array; None is a numeric key. */
  datatype Entry = Entry(key: Option<Bytes>, value: Bytes)

  predicate Keyed(e: Entry) { e.key.Some? && e.key.value != [] }

  /** The first n elements without those whose value is empty: the sizing pass drops them. */
  function KeptTo(env: seq<Entry>, n: nat): (r: seq<Entry>)
    requires n <= |env|
    ensures |r| <= n
  {
    if n == 0 then []
    else if env[n - 1].value == [] then KeptTo(env, n - 1)
    else KeptTo(env, n - 1) + [env[n - 1]]
  }

  function Kept(env: seq<Entry>): (r: seq<Entry>) { KeptTo(env, |env|) }

  function Prefix(e: Entry): (t: Bytes) {
    if Keyed(e) then e.key.value + [EQUALS] else []
  }

  /** What the writing pass copies for an element, without the final NUL. */
  function Text(e: Entry): (t: Bytes) { Prefix(e) + e.value }

  /** The strings of the first n elements, one after another. */
  function FlatTo(es: seq<Entry>, n: nat): (b: Bytes)
    requires n <= |es|
  {
    if n == 0 then [] else FlatTo(es, n - 1) + Text(es[n - 1]) + [NUL]
  }

  function Flat(es: seq<Entry>): (b: Bytes) { FlatTo(es, |es|) }

  /** Only the first n elements matter. */
  lemma {:induction false} FlatPrefix(es: seq<Entry>, more: seq<Entry>, n: nat)
    requires n <= |es|
    ensures FlatTo(es + more, n) == FlatTo(es, n)
  {
    if n > 0 {
      FlatPrefix(es, more, n - 1);
    }
  }

  lemma {:induction false} FlatGrows(es: seq<Entry>, i: nat, n: nat)
    requires i < n <= |es|
    ensures |FlatTo(es, i)| + |Text(es[i])| + 1 <= |FlatTo(es, n)|
  {
    if i < n - 1 {
      FlatGrows(es, i, n - 1);
    }
  }

  // ---------------------------------------------------------------- the C side

  /** The sizing pass: what it adds up is what the writing pass will copy. */
  method SizeEnv(env: seq<Entry>) returns (sizeenv: nat, kept: seq<Entry>)
    ensures kept == Kept(env)
    ensures sizeenv == |Flat(kept)|
  {
    sizeenv, kept := 0, [];
    for i := 0 to |env|
      invariant kept == KeptTo(env, i)
      invariant sizeenv == |Flat(kept)|
    {
      if |env[i].value| != 0 {
        sizeenv := sizeenv + |env[i].value| + 1;
        if env[i].key.Some? && |env[i].key.value| != 0 {
          sizeenv := sizeenv + |env[i].key.value| + 1;
        }
        FlatPrefix(kept, [env[i]], |kept|);
        kept := kept + [env[i]];
      }
    }
  }

  /** memcpy(block + at, src, n). */
  method Copy(block: array<byte>, at: nat, src: Bytes)
    requires at + |src| <= block.Length
    modifies block
    ensures block[..] == old(block[..at]) + src + old(block[at + |src|..])
  {
    for i := 0 to |src|
      invariant block[..at] == old(block[..at])
      invariant block[at..at + i] == src[..i]
      invariant block[at + i..] == old(block[at + i..])
    {
      block[at + i] := src[i];
      assert block[at..at + i + 1] == block[at..at + i] + [src[i]];
      assert forall j :: at + i + 1 <= j < block.Length ==> block[j] == block[at + i..][j - at - i];
    }
    assert block[..] == block[..at] + block[at..at + |src|] + block[at + |src|..];
  }

  ghost function Zeros(n: nat): (z: Bytes)
    ensures |z| == n && forall i :: 0 <= i < n ==> z[i] == NUL
  {
    seq(n, _ => NUL)
  }

  /** The pointers of the first k slots, the rest still NULL. */
  ghost predicate SlotsUpTo(slots: seq<Option<nat>>, kept: seq<Entry>, k: nat) {
    && k <= |kept| <= |slots|
    && (forall i :: 0 <= i < k ==> slots[i] == Some(|FlatTo(kept, i)|))
    && (forall i :: k <= i < |slots| ==> slots[i] == None)
  }

  /** A copy to the first zero byte: everything before `p` stays, zeros follow. */
  method Append(block: array<byte>, p: nat, src: Bytes) returns (p': nat)
    requires p + |src| <= block.Length
    requires forall j :: p <= j < block.Length ==> block[j] == NUL
    modifies block
    ensures p' == p + |src|
    ensures block[..p'] == old(block[..p]) + src
    ensures forall j :: p' <= j < block.Length ==> block[j] == NUL
  {
    Copy(block, p, src);
    p' := p + |src|;
    ghost var rest := old(block[p + |src|..]);
    assert forall j :: p' <= j < block.Length ==> block[..][j] == rest[j - p'];
  }

  /** "key=", if the element has a key. */
  method WriteKey(block: array<byte>, p: nat, e: Entry) returns (p': nat)
    requires p + |Prefix(e)| <= block.Length
    requires forall j :: p <= j < block.Length ==> block[j] == NUL
    modifies block
    ensures p' == p + |Prefix(e)|
    ensures block[..p'] == old(block[..p]) + Prefix(e)
    ensures forall j :: p' <= j < block.Length ==> block[j] == NUL
  {
    p' := p;
    if Keyed(e) {
      p' := Append(block, p', e.key.value);
      p' := Append(block, p', [EQUALS]);
    }
  }

  /** One turn of the writing pass: key, '=', value and NUL at `p`. */
  method WriteEntry(block: array<byte>, p: nat, e: Entry) returns (p': nat)
    requires p + |Text(e)| + 1 <= block.Length
    requires forall j :: p <= j < block.Length ==> block[j] == NUL
    modifies block
    ensures p' == p + |Text(e)| + 1
    ensures block[..p'] == old(block[..p]) + Text(e) + [NUL]
    ensures forall j :: p' <= j < block.Length ==> block[j] == NUL
  {
    p' := WriteKey(block, p, e);
    p' := Append(block, p', e.value);
    p' := Append(block, p', [NUL]);
    ghost var start := old(block[..p]);
    assert start + Prefix(e) + e.value == start + Text(e);
  }

  /** The writing pass into zeroed memory of the size that was counted. */
  method WriteAll(kept: seq<Entry>, slots: array<Option<nat>>, block: array<byte>)
    requires slots.Length > |kept| && block.Length == |Flat(kept)| + 4
    requires forall j :: 0 <= j < slots.Length ==> slots[j] == None
    requires forall j :: 0 <= j < block.Length ==> block[j] == NUL
    modifies slots, block
    ensures SlotsUpTo(slots[..], kept, |kept|)
    ensures block[..|Flat(kept)|] == Flat(kept)
    ensures forall j :: |Flat(kept)| <= j < block.Length ==> block[j] == NUL
  {
    var p := 0;
    for i := 0 to |kept|
      invariant p == |FlatTo(kept, i)| <= block.Length
      invariant block[..p] == FlatTo(kept, i)
      invariant forall j :: p <= j < block.Length ==> block[j] == NUL
      invariant SlotsUpTo(slots[..], kept, i)
    {
      FlatGrows(kept, i, |kept|);
      slots[i] := Some(p);
      p := WriteEntry(block, p, kept[i]);
    }
  }

  /**
    _php_array_to_envp: the writing pass fills exactly the bytes the sizing pass
    counted, leaving the four spare zero bytes and every unused slot NULL.
  */
  method ArrayToEnvp(env: seq<Entry>) returns (slots: array<Option<nat>>, block: array<byte>)
    ensures fresh(slots) && fresh(block)
    ensures slots.Length == |env| + 1 && SlotsUpTo(slots[..], Kept(env), |Kept(env)|)
    ensures block[..] == Flat(Kept(env)) + Zeros(4)
  {
    var sizeenv, kept := SizeEnv(env);
    slots := new Option<nat>[|env| + 1](_ => None);
    block := new byte[sizeenv + 4](_ => NUL);
    WriteAll(kept, slots, block);
    assert block[sizeenv..] == Zeros(4);
    assert block[..] == block[..sizeenv] + block[sizeenv..];
  }

  // ---------------------------------------------------------------- the JavaScript side

  /** UTF8ToString at a pointer, as bytes: up to the first NUL. */
  function CStr(s: Bytes): (r: Bytes)
    ensures NUL !in r && |r| <= |s|
  {
    if s == [] || s[0] == NUL then [] else [s[0]] + CStr(s[1..])
  }

  /** indexOf('='), with the length standing for -1. */
  function SplitAt(s: Bytes): (i: nat)
    ensures i <= |s| && EQUALS !in s[..i]
    ensures i < |s| ==> s[i] == EQUALS
  {
    if s == [] then 0 else if s[0] == EQUALS then 0 else SplitAt(s[1..]) + 1
  }

  /** A key and a value, or nothing. */
  type Pair = Option<(Bytes, Bytes)>

  /** The key and value of one string, if it has an '='. */
  function Parse(s: Bytes): (r: Pair) {
    var i := SplitAt(s);
    if i == |s| then None else Some((s[..i], s[i + 1..]))
  }

  /** "__proto__": assigning a string to it on an object literal stores nothing. */
  const PROTO: Bytes := [95, 95, 112, 114, 111, 116, 111, 95, 95]

  function Assign(obj: map<Bytes, Bytes>, entry: Pair): (r: map<Bytes, Bytes>) {
    if entry.None? || entry.value.0 == PROTO then obj else obj[entry.value.0 := entry.value.1]
  }

  /** What a slot holds: a NULL pointer reads as the empty string. */
  function SlotText(slot: Option<nat>, block: Bytes): (t: Bytes) {
    if slot.None? || slot.value > |block| then [] else CStr(block[slot.value..])
  }

  /** The object after the first n assignments. */
  function FoldTo(pairs: seq<Pair>, n: nat): (obj: map<Bytes, Bytes>)
    requires n <= |pairs|
  {
    if n == 0 then map[] else Assign(FoldTo(pairs, n - 1), pairs[n - 1])
  }

  function SlotPairs(slots: seq<Option<nat>>, block: Bytes): (pairs: seq<Pair>) {
    seq(|slots|, i requires 0 <= i < |slots| => Parse(SlotText(slots[i], block)))
  }

  /** One turn of the decoding loop. */
  method DecodeOne(obj: map<Bytes, Bytes>, s: Bytes) returns (r: map<Bytes, Bytes>)
    ensures r == Assign(obj, Parse(s))
  {
    r := obj;
    var splitAt := SplitAt(s);
    if splitAt < |s| {
      var key, value := s[..splitAt], s[splitAt + 1..];
      if key != PROTO {
        r := obj[key := value];
      }
    }
  }

  /** js_open_process: envLength slots into an object; None is the null that inherits the environment. */
  method DecodeEnv(slots: seq<Option<nat>>, block: Bytes, envLength: nat) returns (env: Option<map<Bytes, Bytes>>)
    requires envLength <= |slots|
    ensures env == if envLength == 0 then None else Some(FoldTo(SlotPairs(slots, block), envLength))
  {
    if envLength == 0 {
      return None;
    }
    var obj := map[];
    for i := 0 to envLength
      invariant obj == FoldTo(SlotPairs(slots, block), i)
    {
      obj := DecodeOne(obj, SlotText(slots[i], block));
    }
    return Some(obj);
  }

  // ---------------------------------------------------------------- round trip

  lemma {:induction false} CStrStops(s: Bytes, t: Bytes)
    requires |t| < |s| && s[..|t|] == t && s[|t|] == NUL
    ensures CStr(s) == CStr(t)
  {
    if t != [] {
      assert s[0] == s[..|t|][0];
      if t[0] != NUL {
        assert s[1..][..|t[1..]|] == s[..|t|][1..];
        CStrStops(s[1..], t[1..]);
      }
    }
  }

  lemma {:induction false} CStrWhole(t: Bytes)
    ensures CStr(t) == t <==> NUL !in t
  {
    if t != [] && t[0] != NUL {
      CStrWhole(t[1..]);
      assert t == [t[0]] + t[1..];
    }
  }

  /** A string and its NUL stand at a place in a block. */
  ghost predicate StandsAt(b: Bytes, at: nat, t: Bytes) {
    at + |t| < |b| && b[at..at + |t|] == t && b[at + |t|] == NUL
  }

  lemma {:induction false} LastStands(b: Bytes, t: Bytes)
    ensures StandsAt(b + t + [NUL], |b|, t)
  {
  }

  lemma {:induction false} StandsOn(b: Bytes, more: Bytes, at: nat, t: Bytes)
    requires StandsAt(b, at, t)
    ensures StandsAt(b + more, at, t)
  {
    assert (b + more)[at..at + |t|] == b[at..at + |t|];
  }

  /** The string of element i stands at its offset. */
  lemma {:induction false} FlatHolds(es: seq<Entry>, i: nat, n: nat)
    requires i < n <= |es|
    ensures StandsAt(FlatTo(es, n), |FlatTo(es, i)|, Text(es[i]))
  {
    var b, t := FlatTo(es, n - 1), Text(es[n - 1]);
    if i == n - 1 {
      LastStands(b, t);
    } else {
      FlatHolds(es, i, n - 1);
      StandsOn(b, t + [NUL], |FlatTo(es, i)|, Text(es[i]));
      assert b + (t + [NUL]) == FlatTo(es, n);
    }
  }

  /** What the string of an element, read up to its first NUL, is taken for. */
  function ReadBack(e: Entry): (p: Pair) { Parse(CStr(Text(e))) }

  function Pairs(es: seq<Entry>): (pairs: seq<Pair>) {
    seq(|es|, i requires 0 <= i < |es| => ReadBack(es[i]))
  }

  function Arrives(es: seq<Entry>): (obj: map<Bytes, Bytes>) { FoldTo(Pairs(es), |es|) }

  lemma {:induction false} FoldSame(a: seq<Pair>, b: seq<Pair>, n: nat)
    requires n <= |a| && n <= |b| && forall i :: 0 <= i < n ==> a[i] == b[i]
    ensures FoldTo(a, n) == FoldTo(b, n)
  {
    if n > 0 {
      FoldSame(a, b, n - 1);
    }
  }

  /** Empty strings have no '=' and change nothing. */
  lemma {:induction false} FoldPad(a: seq<Pair>, m: nat, n: nat)
    requires m <= n <= |a| && forall i :: m <= i < n ==> a[i].None?
    ensures FoldTo(a, n) == FoldTo(a, m)
  {
    if m < n {
      FoldPad(a, m, n - 1);
    }
  }

  lemma {:induction false} SliceOfPrefix(b: Bytes, f: Bytes, at: nat, m: nat)
    requires at + m <= |f| <= |b| && b[..|f|] == f
    ensures b[at..][..m] == f[at..at + m]
  {
    forall i | 0 <= i < m ensures b[at..][..m][i] == f[at..at + m][i] {
      assert b[..|f|][at + i] == f[at + i];
    }
  }

  /** UTF8ToString at a string that stands in the block. */
  lemma {:induction false} ReadsString(b: Bytes, f: Bytes, at: nat, t: Bytes)
    requires |f| <= |b| && b[..|f|] == f && StandsAt(f, at, t)
    ensures CStr(b[at..]) == CStr(t)
  {
    assert b[at + |t|] == f[at + |t|];
    SliceOfPrefix(b, f, at, |t|);
    CStrStops(b[at..], t);
  }

  lemma {:induction false} SlotReads(es: seq<Entry>, slots: seq<Option<nat>>, block: Bytes, i: nat)
    requires SlotsUpTo(slots, es, |es|) && i < |slots|
    requires |block| == |Flat(es)| + 4 && block[..|Flat(es)|] == Flat(es)
    ensures SlotText(slots[i], block) == if i < |es| then CStr(Text(es[i])) else []
  {
    if i < |es| {
      FlatHolds(es, i, |es|);
      ReadsString(block, Flat(es), |FlatTo(es, i)|, Text(es[i]));
    }
  }

  /** Reading the slots back reads the elements' strings, and nothing else. */
  lemma {:induction false} DecodeFollows(es: seq<Entry>, slots: seq<Option<nat>>, block: Bytes, n: nat)
    requires SlotsUpTo(slots, es, |es|) && |es| <= n <= |slots|
    requires |block| == |Flat(es)| + 4 && block[..|Flat(es)|] == Flat(es)
    ensures FoldTo(SlotPairs(slots, block), n) == Arrives(es)
  {
    var a, b := SlotPairs(slots, block), Pairs(es);
    forall i | 0 <= i < n ensures a[i] == if i < |es| then b[i] else None {
      SlotReads(es, slots, block, i);
    }
    FoldPad(a, |es|, n);
    FoldSame(a, b, |es|);
  }

  /**
    Both sides together, as proc_open joins them: num_env is the size of the PHP array,
    so the slots of dropped elements are read too, as NULL.
  */
  method ThroughProcOpen(env: seq<Entry>) returns (got: Option<map<Bytes, Bytes>>)
    ensures got == if env == [] then None else Some(Arrives(Kept(env)))
  {
    var slots, block := ArrayToEnvp(env);
    got := DecodeEnv(slots[..], block[..], |env|);
    if env != [] {
      DecodeFollows(Kept(env), slots[..], block[..], |env|);
    }
  }

  /** An element survives the trip: keyed, no NUL anywhere, no '=' in the key, not "__proto__". */
  predicate Survives(e: Entry) {
    Keyed(e) && EQUALS !in e.key.value && NUL !in e.key.value && NUL !in e.value && e.key.value != PROTO
  }

  lemma {:induction false} SplitFinds(k: Bytes, v: Bytes)
    requires EQUALS !in k
    ensures SplitAt(k + [EQUALS] + v) == |k|
  {
    if k != [] {
      SplitFinds(k[1..], v);
      assert (k + [EQUALS] + v)[1..] == k[1..] + [EQUALS] + v;
    }
  }

  lemma {:induction false} ParsesBack(e: Entry)
    requires Survives(e)
    ensures Parse(CStr(Text(e))) == Some((e.key.value, e.value))
  {
    var t := e.key.value + [EQUALS] + e.value;
    CStrWhole(t);
    SplitFinds(e.key.value, e.value);
    assert t[..|e.key.value|] == e.key.value && t[|e.key.value| + 1..] == e.value;
  }

  /** A string that parses is its key, '=' and its value; it has no NUL, its key no '='. */
  lemma {:induction false} ParseIsSplit(t: Bytes)
    requires Parse(CStr(t)).Some?
    ensures
      var (k, v) := Parse(CStr(t)).value;
      EQUALS !in k && NUL !in k && NUL !in v && |k| + 1 + |v| == |CStr(t)|
  {
    var c := CStr(t);
    var i := SplitAt(c);
    assert forall x :: x in c[..i] ==> x in c;
    assert forall x :: x in c[i + 1..] ==> x in c;
  }

  /** No NUL, no '=' in the key, and not "__proto__". */
  predicate CleanPair(k: Bytes, v: Bytes) { EQUALS !in k && NUL !in k && k != PROTO && NUL !in v }

  ghost predicate CleanPairs(ps: seq<Pair>) {
    forall i :: 0 <= i < |ps| && ps[i].Some? && ps[i].value.0 != PROTO ==> CleanPair(ps[i].value.0, ps[i].value.1)
  }

  lemma {:induction false} FoldIsClean(ps: seq<Pair>, n: nat, k: Bytes)
    requires n <= |ps| && CleanPairs(ps) && k in FoldTo(ps, n)
    ensures CleanPair(k, FoldTo(ps, n)[k])
  {
    var p := ps[n - 1];
    if !(p.Some? && p.value.0 == k && k != PROTO) {
      FoldIsClean(ps, n - 1, k);
    }
  }

  /** All that an object can hold after decoding is clean. */
  lemma {:induction false} DecodedIsClean(es: seq<Entry>, k: Bytes)
    requires k in Arrives(es)
    ensures CleanPair(k, Arrives(es)[k])
  {
    var ps := Pairs(es);
    forall i | 0 <= i < |ps| && ps[i].Some? && ps[i].value.0 != PROTO
      ensures CleanPair(ps[i].value.0, ps[i].value.1)
    {
      ParseIsSplit(Text(es[i]));
    }
    FoldIsClean(ps, |es|, k);
  }

  ghost predicate UniqueKeys(env: seq<Entry>) {
    forall i, j :: 0 <= i < j < |env| && env[i].key.Some? ==> env[i].key != env[j].key
  }

  /** Assignments that all take effect, to different keys. */
  ghost predicate Distinct(ps: seq<Pair>) {
    && (forall i :: 0 <= i < |ps| ==> ps[i].Some? && ps[i].value.0 != PROTO)
    && (forall i, j :: 0 <= i < j < |ps| ==> ps[i].value.0 != ps[j].value.0)
  }

  /** Every one of them is seen. */
  lemma {:induction false} EachArrives(ps: seq<Pair>, i: nat, n: nat)
    requires i < n <= |ps| && Distinct(ps)
    ensures ps[i].value.0 in FoldTo(ps, n) && FoldTo(ps, n)[ps[i].value.0] == ps[i].value.1
  {
    if i < n - 1 {
      EachArrives(ps, i, n - 1);
      assert ps[i].value.0 != ps[n - 1].value.0;
    }
  }

  /** Nothing else is. */
  lemma {:induction false} OnlyTheyArrive(ps: seq<Pair>, n: nat, k: Bytes) returns (i: nat)
    requires n <= |ps| && Distinct(ps) && k in FoldTo(ps, n)
    ensures i < n && ps[i].value.0 == k
  {
    if ps[n - 1].value.0 == k {
      i := n - 1;
    } else {
      i := OnlyTheyArrive(ps, n - 1, k);
    }
  }

  lemma {:induction false} KeptIsFilter(env: seq<Entry>, n: nat)
    requires n <= |env|
    ensures forall e :: e in KeptTo(env, n) <==> e.value != [] && e in env[..n]
  {
    if n > 0 {
      KeptIsFilter(env, n - 1);
      assert env[..n] == env[..n - 1] + [env[n - 1]];
    }
  }

  lemma {:induction false} KeptUnique(env: seq<Entry>, n: nat)
    requires n <= |env| && UniqueKeys(env)
    ensures UniqueKeys(KeptTo(env, n))
  {
    if n > 0 {
      KeptUnique(env, n - 1);
      KeptIsFilter(env, n - 1);
      var ks := KeptTo(env, n - 1);
      forall i | 0 <= i < |ks| && ks[i].key.Some? ensures ks[i].key != env[n - 1].key {
        assert ks[i] in env[..n - 1];
      }
    }
  }

  /** Which keys the child sees, and with which values. */
  ghost predicate SeesExactly(env: seq<Entry>, got: map<Bytes, Bytes>) {
    && (forall k :: k in got ==> exists e :: e in env && e.value != [] && e.key == Some(k))
    && (forall e :: e in env && e.value != [] && e.key.Some? ==>
          e.key.value in got && got[e.key.value] == e.value)
  }

  lemma {:induction false} SurvivorsAreDistinct(es: seq<Entry>)
    requires UniqueKeys(es) && forall e :: e in es ==> Survives(e)
    ensures Distinct(Pairs(es))
    ensures forall i :: 0 <= i < |es| ==> es[i].key.Some? && Pairs(es)[i] == Some((es[i].key.value, es[i].value))
  {
    var ps := Pairs(es);
    forall i | 0 <= i < |es| ensures es[i].key.Some? && ps[i] == Some((es[i].key.value, es[i].value))
      ensures ps[i].value.0 != PROTO
    {
      assert es[i] in es;
      ParsesBack(es[i]);
    }
    forall i, j | 0 <= i < j < |ps| ensures ps[i].value.0 != ps[j].value.0 {
      assert es[i].key != es[j].key;
    }
  }

  lemma {:induction false} KeptArrive(env: seq<Entry>)
    requires UniqueKeys(env) && forall e :: e in env && e.value != [] ==> Survives(e)
    ensures SeesExactly(env, Arrives(Kept(env)))
  {
    var ks := Kept(env);
    KeptUnique(env, |env|);
    KeptIsFilter(env, |env|);
    assert env[..|env|] == env;
    SurvivorsAreDistinct(ks);
    var got := Arrives(ks);
    forall k | k in got ensures exists e :: e in env && e.value != [] && e.key == Some(k) {
      var i := OnlyTheyArrive(Pairs(ks), |ks|, k);
      assert ks[i] in ks && ks[i].key == Some(k);
    }
    forall e | e in env && e.value != [] && e.key.Some? ensures e.key.value in got && got[e.key.value] == e.value {
      var i :| 0 <= i < |ks| && ks[i] == e;
      EachArrives(Pairs(ks), i, |ks|);
    }
  }

  /** The non-empty elements are keyed: the array has no positional ones. */
  ghost predicate NoPositional(env: seq<Entry>) {
    forall e :: e in env && e.value != [] ==> Keyed(e)
  }

  /**
    The child sees exactly the non-empty elements, with their values, if and only if
    each of them survives: no NUL, no '=' in the key, and not "__proto__".
  */
  lemma {:induction false} SurvivesExactly(env: seq<Entry>)
    requires UniqueKeys(env) && NoPositional(env)
    ensures SeesExactly(env, Arrives(Kept(env))) <==> forall e :: e in env && e.value != [] ==> Survives(e)
  {
    var ks := Kept(env);
    if SeesExactly(env, Arrives(ks)) {
      forall e | e in env && e.value != [] ensures Survives(e) {
        DecodedIsClean(ks, e.key.value);
      }
    } else if forall e :: e in env && e.value != [] ==> Survives(e) {
      KeptArrive(env);
    }
  }

  /**
    proc_open and js_open_process together, for every array without positional elements:
    the environment of the child is exactly the non-empty elements if and only if those
    survive; an empty array gives no environment object at all.
  */
  method RoundTrip(env: seq<Entry>) returns (got: Option<map<Bytes, Bytes>>)
    requires UniqueKeys(env) && NoPositional(env)
    ensures env == [] <==> got.None?
    ensures got.Some? ==>
      (SeesExactly(env, got.value) <==> forall e :: e in env && e.value != [] ==> Survives(e))
  {
    got := ThroughProcOpen(env);
    SurvivesExactly(env);
  }
}
