/**
  Walking a constant database (the cdb format of D. J. Bernstein, cdb.txt): dba's
  firstkey and nextkey keep two 32-bit cursors over a file of a 2048-byte header,
  length-prefixed records, and hash tables.
*/
module Cdb {
  import opened Common

  const U32 := 0x1_0000_0000
  const HEADER: nat := 2048

  datatype Record = Record(key: Bytes, data: Bytes)

  // ---------------------------------------------------------------- the format

  function Pack(n: nat): (b: Bytes)
    requires n < U32
    ensures |b| == 4
  {
    [(n % 256) as byte, (n / 256 % 256) as byte, (n / 65536 % 256) as byte, (n / 16777216) as byte]
  }

  /** uint32_unpack. */
  function Unpack(b: Bytes): (n: nat)
    requires |b| == 4
    ensures n < U32
  {
    b[0] as nat + 256 * b[1] as nat + 65536 * b[2] as nat + 16777216 * b[3] as nat
  }

  lemma {:induction false} PackRoundTrip(n: nat)
    requires n < U32
    ensures Unpack(Pack(n)) == n
  {
    var a, b := n / 256, n / 65536;
    assert a / 256 == b && n / 16777216 == b / 256;
    assert n == n % 256 + 256 * a && a == a % 256 + 256 * b && b == b % 256 + 256 * (b / 256);
  }

  function Size(r: Record): (n: nat) { 8 + |r.key| + |r.data| }

  predicate Fits(r: Record) { Size(r) < U32 }

  function Encode(r: Record): (b: Bytes)
    requires Fits(r)
    ensures |b| == Size(r)
  {
    Pack(|r.key|) + Pack(|r.data|) + r.key + r.data
  }

  /** Where record i begins; for i == |rs| the end of the records. */
  function Offset(rs: seq<Record>, i: nat): (n: nat)
    requires i <= |rs|
    ensures n >= HEADER
  {
    if i == 0 then HEADER else Offset(rs, i - 1) + Size(rs[i - 1])
  }

  /** The first n records stand one after another behind the header. */
  ghost predicate HoldsTo(file: Bytes, rs: seq<Record>, n: nat)
    requires n <= |rs|
  {
    n == 0 || (HoldsTo(file, rs, n - 1) && HoldsAt(file, Offset(rs, n - 1), rs[n - 1]))
  }

  /** The file holds exactly these records, and its first word points past them. */
  ghost predicate WellFormed(file: Bytes, rs: seq<Record>) {
    && |file| < U32 && Offset(rs, |rs|) <= |file|
    && file[..4] == Pack(Offset(rs, |rs|))
    && HoldsTo(file, rs, |rs|)
  }

  ghost predicate HoldsAt(file: Bytes, at: nat, r: Record) {
    Fits(r) && at + Size(r) <= |file| && file[at..at + Size(r)] == Encode(r)
  }

  // ---------------------------------------------------------------- one step of the walk

  /** Nothing read and no cursor moved, or the cursor moved past a record. */
  datatype Step = Stay | Moved(key: Option<Bytes>, pos: nat)

  /** CSEEK(pos), CREAD(8), then the key: the arithmetic of the cursor is 32-bit. */
  function StepAt(file: Bytes, eod: nat, pos: nat): (s: Step) {
    if pos >= eod || |file| < pos + 8 then Stay
    else
      var klen, dlen := Unpack(file[pos..pos + 4]), Unpack(file[pos + 4..pos + 8]);
      Moved(if |file| - (pos + 8) < klen then None else Some(file[pos + 8..pos + 8 + klen]),
            (pos + 8 + klen + dlen) % U32)
  }

  /** What firstkey leaves in cdb->eod. */
  function EodOf(file: Bytes): (n: nat) {
    if |file| < 4 then U32 - 1 else Unpack(file[..4])
  }

  lemma {:induction false} SliceSlice(s: Bytes, at: nat, n: nat, i: nat, j: nat)
    requires at + n <= |s| && i <= j <= n
    ensures s[at..at + n][i..j] == s[at + i..at + j]
  {
    var a, b := s[at..at + n][i..j], s[at + i..at + j];
    assert forall k :: 0 <= k < |a| ==> a[k] == b[k];
  }

  lemma {:induction false} EncodeParts(r: Record)
    requires Fits(r)
    ensures Encode(r)[0..4] == Pack(|r.key|) && Encode(r)[4..8] == Pack(|r.data|)
    ensures Encode(r)[8..8 + |r.key|] == r.key
  {
    var k, d := Pack(|r.key|), Pack(|r.data|);
    assert k + d + r.key + r.data == k + (d + (r.key + r.data));
    assert Encode(r)[4..8] == (d + (r.key + r.data))[..4];
  }

  /** The two lengths and the key of a record, where they stand in the file. */
  lemma {:induction false} RecordParts(file: Bytes, pos: nat, r: Record)
    requires HoldsAt(file, pos, r)
    ensures file[pos..pos + 4] == Pack(|r.key|)
    ensures file[pos + 4..pos + 8] == Pack(|r.data|)
    ensures file[pos + 8..pos + 8 + |r.key|] == r.key
  {
    EncodeParts(r);
    SliceSlice(file, pos, Size(r), 0, 4);
    SliceSlice(file, pos, Size(r), 4, 8);
    SliceSlice(file, pos, Size(r), 8, 8 + |r.key|);
  }

  lemma {:induction false} StepFromLengths(file: Bytes, eod: nat, pos: nat, klen: nat, dlen: nat)
    requires pos < eod && pos + 8 + klen + dlen <= |file| < U32
    requires Unpack(file[pos..pos + 4]) == klen && Unpack(file[pos + 4..pos + 8]) == dlen
    ensures StepAt(file, eod, pos) == Moved(Some(file[pos + 8..pos + 8 + klen]), pos + 8 + klen + dlen)
  {
  }

  /** A record is read back where it begins, and the cursor lands where it ends. */
  lemma {:induction false} StepReadsRecord(file: Bytes, eod: nat, pos: nat, r: Record)
    requires HoldsAt(file, pos, r) && pos < eod && |file| < U32
    ensures StepAt(file, eod, pos) == Moved(Some(r.key), pos + Size(r))
  {
    RecordParts(file, pos, r);
    PackRoundTrip(|r.key|);
    PackRoundTrip(|r.data|);
    StepFromLengths(file, eod, pos, |r.key|, |r.data|);
  }

  lemma {:induction false} OffsetGrows(rs: seq<Record>, i: nat, n: nat)
    requires i < n <= |rs|
    ensures Offset(rs, i) + Size(rs[i]) <= Offset(rs, n)
  {
    if i < n - 1 {
      OffsetGrows(rs, i, n - 1);
    }
  }

  lemma {:induction false} EodIsEndOfRecords(file: Bytes, rs: seq<Record>)
    requires WellFormed(file, rs)
    ensures EodOf(file) == Offset(rs, |rs|)
  {
    PackRoundTrip(Offset(rs, |rs|));
  }

  lemma {:induction false} RecordHolds(file: Bytes, rs: seq<Record>, i: nat, n: nat)
    requires i < n <= |rs| && HoldsTo(file, rs, n)
    ensures HoldsAt(file, Offset(rs, i), rs[i])
  {
    if i < n - 1 {
      RecordHolds(file, rs, i, n - 1);
    }
  }

  lemma {:induction false} StepInside(file: Bytes, rs: seq<Record>, i: nat)
    requires WellFormed(file, rs) && i < |rs|
    ensures Offset(rs, i) < U32
    ensures StepAt(file, Offset(rs, |rs|), Offset(rs, i)) == Moved(Some(rs[i].key), Offset(rs, i + 1))
  {
    OffsetGrows(rs, i, |rs|);
    RecordHolds(file, rs, i, |rs|);
    StepReadsRecord(file, Offset(rs, |rs|), Offset(rs, i), rs[i]);
  }

  /**
    In a well-formed file the cursor goes from one record boundary to the next, below
    2^32 all along, and each step yields that record's key; at the end it stays.
  */
  lemma {:induction false} WalkFollowsRecords(file: Bytes, rs: seq<Record>, i: nat)
    requires WellFormed(file, rs) && i <= |rs|
    ensures EodOf(file) == Offset(rs, |rs|) && Offset(rs, i) < U32
    ensures StepAt(file, EodOf(file), Offset(rs, i)) ==
            if i < |rs| then Moved(Some(rs[i].key), Offset(rs, i + 1)) else Stay
  {
    EodIsEndOfRecords(file, rs);
    if i < |rs| {
      StepInside(file, rs, i);
    }
  }

  /** Without records the header is no record, and at position 0 it would be taken for one. */
  lemma {:induction false} HeaderAsRecord(file: Bytes)
    requires WellFormed(file, [])
    ensures StepAt(file, EodOf(file), HEADER) == Stay
    ensures
      var next := StepAt(file, EodOf(file), 0);
      next.Moved? && next.key == if |file| < HEADER + 8 then None else Some(file[8..HEADER + 8])
  {
    WalkFollowsRecords(file, [], 0);
    assert file[0..4] == file[..4];
  }

  // ---------------------------------------------------------------- the handler

  class Cursor {
    const file: Bytes
    var at: nat    // position of the stream
    var eod: nat
    var pos: nat

    /** DBA_OPEN_FUNC(cdb), for reading: the structure is zeroed. */
    constructor (file: Bytes)
      ensures this.file == file && eod == 0 && pos == 0
    {
      this.file := file;
      at, eod, pos := 0, 0, 0;
    }

    /** cdb_file_read: what is there, at most n bytes. */
    method Read(n: nat) returns (b: Bytes)
      modifies this`at
      ensures b == if old(at) >= |file| then [] else if |file| - old(at) < n then file[old(at)..] else file[old(at)..old(at) + n]
      ensures at == old(at) + |b|
    {
      var end := if at + n <= |file| then at + n else |file|;
      b := if at >= |file| then [] else file[at..end];
      at := at + |b|;
    }

    /** CSEEK. */
    method Seek(n: nat) returns (ok: bool)
      modifies this`at
      ensures ok == (n < eod)
      ensures ok ==> at == n
    {
      if n >= eod {
        return false;
      }
      at := n;
      return true;
    }

    /** From CREAD(8) on: both lengths, then the key; the new cursor is start + 8 + klen + dlen. */
    method ReadRecord(start: nat) returns (moved: bool, key: Option<Bytes>, next: nat)
      requires at == start < eod
      modifies this`at
      ensures StepAt(file, eod, start) == if moved then Moved(key, next) else Stay
    {
      moved, key, next := false, None, 0;
      var buf := Read(8);
      if |buf| < 8 {
        return;
      }
      assert buf == file[start..start + 8];
      assert buf[..4] == file[start..start + 4] && buf[4..] == file[start + 4..start + 8];
      var klen, dlen := Unpack(buf[..4]), Unpack(buf[4..]);
      var k := Read(klen);
      if |k| >= klen {
        key := Some(k);
      }
      moved, next := true, (start + 8 + klen + dlen) % U32;
    }

    /** DBA_FIRSTKEY_FUNC(cdb). */
    method FirstKey() returns (key: Option<Bytes>)
      modifies this
      ensures eod == EodOf(file)
      ensures
        var s := StepAt(file, eod, HEADER);
        if |file| < 4 || s.Stay? then key.None? && pos == old(pos) else key == s.key && pos == s.pos
    {
      eod := U32 - 1;
      var _ := Seek(0);
      var buf := Read(4);
      if |buf| < 4 {
        return None;
      }
      assert buf == file[..4];
      eod := Unpack(buf);
      var ok := Seek(HEADER);
      if !ok {
        return None;
      }
      var moved, k, next := ReadRecord(HEADER);
      if !moved {
        return None;
      }
      pos := next;
      return k;
    }

    /** DBA_NEXTKEY_FUNC(cdb). */
    method NextKey() returns (key: Option<Bytes>)
      modifies this`at, this`pos
      ensures
        var s := StepAt(file, eod, old(pos));
        if s.Stay? then key.None? && pos == old(pos) else key == s.key && pos == s.pos
    {
      var ok := Seek(pos);
      if !ok {
        return None;
      }
      var moved, k, next := ReadRecord(pos);
      if !moved {
        return None;
      }
      pos := next;
      return k;
    }
  }

  function KeyAt(rs: seq<Record>, i: nat): (k: Option<Bytes>) {
    if i < |rs| then Some(rs[i].key) else None
  }

  /** firstkey on a well-formed file, in terms of its records. */
  method First(cursor: Cursor, ghost rs: seq<Record>) returns (key: Option<Bytes>)
    requires WellFormed(cursor.file, rs)
    modifies cursor
    ensures cursor.eod == EodOf(cursor.file) && key == KeyAt(rs, 0)
    ensures |rs| > 0 ==> cursor.pos == Offset(rs, 1)
  {
    WalkFollowsRecords(cursor.file, rs, 0);
    key := cursor.FirstKey();
  }

  /** nextkey with the cursor on a record boundary. */
  method Next(cursor: Cursor, ghost rs: seq<Record>, ghost i: nat) returns (key: Option<Bytes>)
    requires WellFormed(cursor.file, rs) && i <= |rs|
    requires cursor.eod == EodOf(cursor.file) && cursor.pos == Offset(rs, i)
    modifies cursor
    ensures cursor.eod == old(cursor.eod) && key == KeyAt(rs, i)
    ensures cursor.pos == Offset(rs, if i < |rs| then i + 1 else i)
  {
    WalkFollowsRecords(cursor.file, rs, i);
    key := cursor.NextKey();
  }

  /**
    firstkey and then nextkey until NULL, as PHP code walks a database: exactly the
    keys of the records, in order and with duplicates.
  */
  method AllKeys(file: Bytes, ghost rs: seq<Record>) returns (keys: seq<Bytes>)
    requires WellFormed(file, rs)
    ensures |keys| == |rs| && forall i :: 0 <= i < |rs| ==> keys[i] == rs[i].key
  {
    var cursor := new Cursor(file);
    var key := First(cursor, rs);
    keys := [];
    while key.Some?
      invariant cursor.file == file && cursor.eod == EodOf(file)
      invariant |keys| <= |rs| && forall i :: 0 <= i < |keys| ==> keys[i] == rs[i].key
      invariant key == KeyAt(rs, |keys|)
      invariant key.Some? ==> cursor.pos == Offset(rs, |keys| + 1)
      decreases |rs| - |keys|, key.Some?
    {
      keys := keys + [key.value];
      key := Next(cursor, rs, |keys|);
    }
  }

  /**
    A database without records: firstkey answers NULL and leaves pos at 0. The nextkey
    after it takes the header for a record, whose key would be 2048 bytes long: it
    answers NULL exactly when the file is too short for that, as one made by cdb_make
    is, and otherwise bytes that are no key.
  */
  method EmptyDatabase(file: Bytes) returns (first: Option<Bytes>, next: Option<Bytes>)
    requires WellFormed(file, [])
    ensures first.None?
    ensures next == if |file| < HEADER + 8 then None else Some(file[8..HEADER + 8])
  {
    HeaderAsRecord(file);
    var cursor := new Cursor(file);
    first := cursor.FirstKey();
    next := cursor.NextKey();
  }
}
