/**
  wasm_sapi_send_headers writes the response status and headers as JSON text. Here is that
  writer, a reader of JSON text, and the proof of when they agree.
*/
module JsonHeaders {
  import opened Common

  // ---------------------------------------------------------------- the writer

  function EscapedChar(c: char): (r: string) {
    if c == '\"' || c == '\\' then ['\\', c] else [c]
  }

  function Escaped(h: string): (r: string) {
    if h == "" then "" else EscapedChar(h[0]) + Escaped(h[1..])
  }

  const TERMINATOR := "__terminator__"

  /** What is written between the brackets for a list of headers. */
  function Items(hs: seq<string>): (r: string) {
    if hs == [] then "\"" + TERMINATOR + "\""
    else "\"" + Escaped(hs[0]) + "\"" + (",\n" + Items(hs[1..]))
  }

  function Digits(n: nat): (r: string)
    ensures r != "" && forall i :: 0 <= i < |r| ==> '0' <= r[i] <= '9'
  {
    if n < 10 then [Digit(n)] else Digits(n / 10) + [Digit(n % 10)]
  }

  function Digit(n: nat): (c: char)
    requires n < 10
    ensures '0' <= c <= '9'
  {
    (n + '0' as int) as char
  }

  /** int_to_string: "%d". */
  function Decimal(n: int): (r: string) {
    if n < 0 then "-" + Digits(-n) else Digits(n)
  }

  /** From the second member on. */
  function Tail(hs: seq<string>): (r: string) {
    " \"headers\":" + (" [" + (Items(hs) + "]" + "}"))
  }

  function Emit(status: int, hs: seq<string>): (r: string) {
    "{" + (" \"status\":" + (" " + (Decimal(status) + ("," + Tail(hs)))))
  }

  // ---------------------------------------------------------------- the reader

  // The grammar of RFC 8259: objects, arrays, strings with all of section 7's escapes,
  // integers. A char stands for one byte.

  datatype Json =
    | Num(n: int)
    | Str(s: string)
    | Arr(items: seq<Json>)
    | Obj(members: seq<(string, Json)>)

  predicate IsSpace(c: char) { c == ' ' || c == '\t' || c == '\n' || c == '\r' }

  function Skip(s: string): (r: string)
    ensures |r| <= |s|
  {
    if s != "" && IsSpace(s[0]) then Skip(s[1..]) else s
  }

  predicate IsDigit(c: char) { '0' <= c <= '9' }

  function DigitOf(c: char): (n: nat)
    requires IsDigit(c)
    ensures n < 10 && Digit(n) == c
  {
    c as nat - '0' as nat
  }

  function Hex(c: char): (v: Option<nat>)
    ensures v.Some? ==> v.value < 16
  {
    if '0' <= c <= '9' then Some(c as nat - '0' as nat)
    else if 'a' <= c <= 'f' then Some(c as nat - 'a' as nat + 10)
    else if 'A' <= c <= 'F' then Some(c as nat - 'A' as nat + 10)
    else None
  }

  /** The character after a backslash, None if it is not an escape; \u is read separately. */
  function Unescape(c: char): (r: Option<char>) {
    match c
    case '\"' => Some('\"')
    case '\\' => Some('\\')
    case '/' => Some('/')
    case 'b' => Some('\U{8}')
    case 'f' => Some('\U{c}')
    case 'n' => Some('\n')
    case 'r' => Some('\r')
    case 't' => Some('\t')
    case _ => None
  }

  /** The rest of a string after its opening quote: its value and what follows it. */
  function Chars(s: string): (r: Option<(string, string)>)
    ensures r.Some? ==> |r.value.1| < |s|
  {
    if s == "" || s[0] < ' ' then None
    else if s[0] == '\"' then Some(("", s[1..]))
    else if s[0] != '\\' then Prepend(s[0], Chars(s[1..]))
    else if |s| >= 2 && Unescape(s[1]).Some? then Prepend(Unescape(s[1]).value, Chars(s[2..]))
    else if |s| >= 6 && s[1] == 'u' then
      var (a, b, c, d) := (Hex(s[2]), Hex(s[3]), Hex(s[4]), Hex(s[5]));
      if a.None? || b.None? || c.None? || d.None? then None
      else
        var code := a.value * 4096 + b.value * 256 + c.value * 16 + d.value;
        if 0xD800 <= code < 0xE000 then None else Prepend(code as char, Chars(s[6..]))
    else None
  }

  function Prepend(c: char, r: Option<(string, string)>): (q: Option<(string, string)>) {
    if r.None? then None else Some(([c] + r.value.0, r.value.1))
  }

  /** Digits from the front of a text. */
  function Natural(s: string, sofar: nat): (r: (nat, string))
    ensures |r.1| <= |s|
  {
    if s != "" && IsDigit(s[0]) then Natural(s[1..], sofar * 10 + DigitOf(s[0])) else (sofar, s)
  }

  /** A digit and more digits, without a leading zero. */
  function Unsigned(s: string): (r: Option<(nat, string)>)
    ensures r.Some? ==> |r.value.1| < |s|
  {
    if s == "" || !IsDigit(s[0]) then None
    else if s[0] == '0' then Some((0, s[1..]))
    else
      var (n, rest) := Natural(s[1..], DigitOf(s[0]));
      Some((n, rest))
  }

  function Number(s: string): (r: Option<(int, string)>)
    ensures r.Some? ==> |r.value.1| < |s|
  {
    if s != "" && s[0] == '-' then
      var m := Unsigned(s[1..]);
      if m.None? then None else Some((-(m.value.0 as int), m.value.1))
    else
      var m := Unsigned(s);
      if m.None? then None else Some((m.value.0 as int, m.value.1))
  }

  function Value(t: string): (r: Option<(Json, string)>)
    ensures r.Some? ==> |r.value.1| < |t|
    decreases |t|, 1
  {
    var s := Skip(t);
    if s == "" then None
    else if s[0] == '\"' then
      var q := Chars(s[1..]);
      if q.None? then None else Some((Str(q.value.0), q.value.1))
    else if s[0] == '[' then
      if Skip(s[1..]) != "" && Skip(s[1..])[0] == ']' then Some((Arr([]), Skip(s[1..])[1..]))
      else
        var q := Elements(s[1..]);
        if q.None? then None else Some((Arr(q.value.0), q.value.1))
    else if s[0] == '{' then
      if Skip(s[1..]) != "" && Skip(s[1..])[0] == '}' then Some((Obj([]), Skip(s[1..])[1..]))
      else
        var q := Members(s[1..]);
        if q.None? then None else Some((Obj(q.value.0), q.value.1))
    else
      var q := Number(s);
      if q.None? then None else Some((Num(q.value.0), q.value.1))
  }

  /** value ("," value)* "]" */
  function Elements(t: string): (r: Option<(seq<Json>, string)>)
    ensures r.Some? ==> |r.value.1| < |t|
    decreases |t|, 2
  {
    var v := Value(t);
    if v.None? then None
    else
      var s := Skip(v.value.1);
      if s == "" then None
      else if s[0] == ']' then Some(([v.value.0], s[1..]))
      else if s[0] == ',' then
        var more := Elements(s[1..]);
        if more.None? then None else Some(([v.value.0] + more.value.0, more.value.1))
      else None
  }

  /** string ":" value, its name and value, and the text after it. */
  function Member(t: string): (r: Option<((string, Json), string)>)
    ensures r.Some? ==> |r.value.1| < |t|
    decreases |t|, 2
  {
    var s := Skip(t);
    if s == "" || s[0] != '\"' then None
    else
      var name := Chars(s[1..]);
      if name.None? then None
      else
        var u := Skip(name.value.1);
        if u == "" || u[0] != ':' then None
        else
          var v := Value(u[1..]);
          if v.None? then None else Some(((name.value.0, v.value.0), v.value.1))
  }

  /** member ("," member)* "}" */
  function Members(t: string): (r: Option<(seq<(string, Json)>, string)>)
    ensures r.Some? ==> |r.value.1| < |t|
    decreases |t|, 3
  {
    var m := Member(t);
    if m.None? then None
    else
      var s := Skip(m.value.1);
      if s == "" then None
      else if s[0] == '}' then Some(([m.value.0], s[1..]))
      else if s[0] == ',' then
        var more := Members(s[1..]);
        if more.None? then None else Some(([m.value.0] + more.value.0, more.value.1))
      else None
  }

  function Parse(t: string): (r: Option<Json>) {
    var v := Value(t);
    if v.None? || Skip(v.value.1) != "" then None else Some(v.value.0)
  }

  // ---------------------------------------------------------------- agreement

  predicate Printable(h: string) { forall i :: 0 <= i < |h| ==> h[i] >= ' ' }

  /** An escaped string reads back exactly when it has no control character. */
  lemma {:induction false} CharsOfEscaped(h: string, rest: string)
    ensures Chars(Escaped(h) + "\"" + rest) == if Printable(h) then Some((h, rest)) else None
  {
    var s := Escaped(h) + "\"" + rest;
    if h == "" {
      assert s == "\"" + rest;
      assert s[1..] == rest;
    } else {
      var tail := Escaped(h[1..]) + "\"" + rest;
      CharsOfEscaped(h[1..], rest);
      assert s == EscapedChar(h[0]) + tail;
      assert Printable(h) <==> h[0] >= ' ' && Printable(h[1..]) by {
        assert forall i :: 1 <= i < |h| ==> h[i] == h[1..][i - 1];
        assert forall i :: 0 <= i < |h[1..]| ==> h[1..][i] == h[i + 1];
      }
      assert h == [h[0]] + h[1..];
      if h[0] == '\"' || h[0] == '\\' {
        assert s[2..] == tail;
      } else {
        assert s[1..] == tail;
      }
    }
  }

  lemma {:induction false} EscapedPlain(h: string)
    requires '\"' !in h && '\\' !in h
    ensures Escaped(h) == h
  {
    if h != "" {
      EscapedPlain(h[1..]);
    }
  }

  /** A quoted, escaped string as a value. */
  lemma {:induction false} ValueOfString(h: string, rest: string)
    ensures Value("\"" + Escaped(h) + "\"" + rest) == if Printable(h) then Some((Str(h), rest)) else None
  {
    var s := "\"" + Escaped(h) + "\"" + rest;
    assert s[1..] == Escaped(h) + "\"" + rest;
    assert Skip(s) == s;
    CharsOfEscaped(h, rest);
  }

  ghost predicate AllPrintable(hs: seq<string>) {
    forall i :: 0 <= i < |hs| ==> Printable(hs[i])
  }

  function Values(hs: seq<string>): (vs: seq<Json>) {
    if hs == [] then [Str(TERMINATOR)] else [Str(hs[0])] + Values(hs[1..])
  }

  lemma {:induction false} ElementsGoOn(t: string, v: Json, after: string)
    requires Value(t) == Some((v, "," + after))
    ensures
      var more := Elements(after);
      Elements(t) == if more.None? then None else Some(([v] + more.value.0, more.value.1))
  {
    assert Skip("," + after) == "," + after;
    assert ("," + after)[1..] == after;
  }

  lemma {:induction false} ElementsEnd(t: string, v: Json, after: string)
    requires Value(t) == Some((v, "]" + after))
    ensures Elements(t) == Some(([v], after))
  {
    assert Skip("]" + after) == "]" + after;
    assert ("]" + after)[1..] == after;
  }

  lemma {:induction false} ElementsAfterNewline(t: string)
    ensures Elements("\n" + t) == Elements(t)
  {
    var s := "\n" + t;
    assert s[1..] == t;
    assert Skip(s) == Skip(t);
    assert Value(s) == Value(t);
  }

  lemma {:induction false} PrintableParts(hs: seq<string>)
    requires hs != []
    ensures AllPrintable(hs) <==> Printable(hs[0]) && AllPrintable(hs[1..])
  {
    assert forall i :: 1 <= i < |hs| ==> hs[i] == hs[1..][i - 1];
    assert forall i :: 0 <= i < |hs[1..]| ==> hs[1..][i] == hs[i + 1];
  }

  lemma {:induction false} Glue(a: string, b: string, rest: string)
    ensures a + (",\n" + b) + "]" + rest == a + ("," + ("\n" + (b + "]" + rest)))
  {
    assert ",\n" + b == "," + ("\n" + b);
  }

  /** One header, its comma and newline, then whatever the rest of the list reads as. */
  lemma {:induction false} ElementsOfOne(h: string, tail: string)
    ensures
      var more := Elements(tail);
      Elements("\"" + Escaped(h) + "\"" + ("," + ("\n" + tail))) ==
        if !Printable(h) || more.None? then None else Some(([Str(h)] + more.value.0, more.value.1))
  {
    var after := "\n" + tail;
    var s := "\"" + Escaped(h) + "\"" + ("," + after);
    ValueOfString(h, "," + after);
    if Printable(h) {
      ElementsGoOn(s, Str(h), after);
      ElementsAfterNewline(tail);
    }
  }

  lemma {:induction false} ElementsOfLast(h: string, rest: string)
    requires '\"' !in h && '\\' !in h && Printable(h)
    ensures Elements("\"" + h + "\"" + "]" + rest) == Some(([Str(h)], rest))
  {
    var s := "\"" + h + "\"" + ("]" + rest);
    assert s == "\"" + h + "\"" + "]" + rest;
    EscapedPlain(h);
    ValueOfString(h, "]" + rest);
    ElementsEnd(s, Str(h), rest);
  }

  /** The list between the brackets reads back exactly when every header is printable. */
  lemma {:induction false} ElementsOfItems(hs: seq<string>, rest: string)
    ensures Elements(Items(hs) + "]" + rest) == if AllPrintable(hs) then Some((Values(hs), rest)) else None
  {
    if hs == [] {
      ElementsOfLast(TERMINATOR, rest);
    } else {
      ItemsShape(hs, rest);
      ElementsOfOne(hs[0], Items(hs[1..]) + "]" + rest);
      PrintableParts(hs);
      ElementsOfItems(hs[1..], rest);
    }
  }

  lemma {:induction false} ItemsShape(hs: seq<string>, rest: string)
    requires hs != []
    ensures Items(hs) + "]" + rest ==
            "\"" + Escaped(hs[0]) + "\"" + ("," + ("\n" + (Items(hs[1..]) + "]" + rest)))
  {
    Glue("\"" + Escaped(hs[0]) + "\"", Items(hs[1..]), rest);
  }

  // ---------------------------------------------------------------- numbers

  lemma {:induction false} NaturalSplits(a: string, rest: string, sofar: nat)
    requires forall i :: 0 <= i < |a| ==> IsDigit(a[i])
    ensures Natural(a + rest, sofar) == Natural(rest, Natural(a, sofar).0)
    ensures Natural(a, sofar).1 == ""
  {
    if a == "" {
      assert a + rest == rest;
    } else {
      assert (a + rest)[1..] == a[1..] + rest;
      NaturalSplits(a[1..], rest, sofar * 10 + DigitOf(a[0]));
    }
  }

  lemma {:induction false} NaturalOfDigits(n: nat)
    ensures Natural(Digits(n), 0).0 == n
  {
    if n < 10 {
      assert Digits(n)[1..] == "";
    } else {
      var a, last := Digits(n / 10), [Digit(n % 10)];
      NaturalOfDigits(n / 10);
      NaturalSplits(a, last, 0);
      assert last[1..] == "";
    }
  }

  /** A digit and the digits after it, up to something else. */
  lemma {:induction false} NaturalReads(d: string, rest: string)
    requires d != "" && forall i :: 0 <= i < |d| ==> IsDigit(d[i])
    requires rest == "" || !IsDigit(rest[0])
    ensures Natural(d[1..] + rest, DigitOf(d[0])) == (Natural(d, 0).0, rest)
  {
    NaturalSplits(d[1..], rest, DigitOf(d[0]));
  }

  lemma {:induction false} NoLeadingZero(n: nat)
    ensures Digits(n)[0] == '0' <==> n == 0
    ensures n == 0 ==> Digits(n) == "0"
  {
    if n >= 10 {
      NoLeadingZero(n / 10);
      assert Digits(n)[0] == Digits(n / 10)[0];
    }
  }

  lemma {:induction false} UnsignedOfDigits(n: nat, rest: string)
    requires rest == "" || !IsDigit(rest[0])
    ensures Unsigned(Digits(n) + rest) == Some((n, rest))
  {
    var d := Digits(n);
    NoLeadingZero(n);
    NaturalOfDigits(n);
    NaturalReads(d, rest);
    assert (d + rest)[0] == d[0] && (d + rest)[1..] == d[1..] + rest;
  }

  lemma {:induction false} NumberOfDecimal(n: int, rest: string)
    requires rest == "" || !IsDigit(rest[0])
    ensures Number(Decimal(n) + rest) == Some((n, rest))
  {
    var d := Digits(if n < 0 then -n else n) + rest;
    UnsignedOfDigits(if n < 0 then -n else n, rest);
    assert d[0] != '-';
    if n < 0 {
      var s := "-" + d;
      assert Decimal(n) + rest == s;
      assert s[1..] == d;
    }
  }

  // ---------------------------------------------------------------- the whole text

  lemma {:induction false} ValueOfDecimal(n: int, rest: string)
    requires rest == "" || !IsDigit(rest[0])
    ensures Value(" " + (Decimal(n) + rest)) == Some((Num(n), rest))
  {
    var u := Decimal(n) + rest;
    var s := " " + u;
    NumberOfDecimal(n, rest);
    assert s[1..] == u;
    assert IsDigit(u[0]) || u[0] == '-';
    assert Skip(u) == u;
    assert Skip(s) == u;
  }

  lemma {:induction false} ValueOfList(hs: seq<string>, rest: string)
    ensures Value(" [" + (Items(hs) + "]" + rest)) == if AllPrintable(hs) then Some((Arr(Values(hs)), rest)) else None
  {
    var body := Items(hs) + "]" + rest;
    var s := " [" + body;
    ElementsOfItems(hs, rest);
    assert s[1..] == "[" + body;
    assert Skip("[" + body) == "[" + body;
    assert Skip(s) == "[" + body;
    assert ("[" + body)[1..] == body;
    assert body[0] == '\"' && Skip(body) == body;
  }

  /** The name of a member, up to its colon. */
  lemma {:induction false} NameOf(name: string, after: string)
    requires '\"' !in name && '\\' !in name && Printable(name)
    ensures Chars(name + "\":" + after) == Some((name, ":" + after))
  {
    EscapedPlain(name);
    CharsOfEscaped(name, ":" + after);
    assert name + "\"" + (":" + after) == name + "\":" + after;
  }

  /** A member with a plain name, up to its value. */
  lemma {:induction false} MemberOf(name: string, after: string)
    requires '\"' !in name && '\\' !in name && Printable(name)
    ensures
      var v := Value(after);
      Member(" \"" + name + "\":" + after) ==
        if v.None? then None else Some(((name, v.value.0), v.value.1))
  {
    var inner := name + "\":" + after;
    var s := "\"" + inner;
    var t := " " + s;
    assert t == " \"" + name + "\":" + after;
    NameOf(name, after);
    assert t[1..] == s && Skip(s) == s && Skip(t) == s;
    assert s[1..] == inner;
    assert Skip(":" + after) == ":" + after;
    assert (":" + after)[1..] == after;
  }

  lemma {:induction false} MembersGoOn(t: string, m: (string, Json), after: string)
    requires Member(t) == Some((m, "," + after))
    ensures
      var more := Members(after);
      Members(t) == if more.None? then None else Some(([m] + more.value.0, more.value.1))
  {
    assert Skip("," + after) == "," + after;
    assert ("," + after)[1..] == after;
  }

  lemma {:induction false} MembersEnd(t: string, m: (string, Json), after: string)
    requires Member(t) == Some((m, "}" + after))
    ensures Members(t) == Some(([m], after))
  {
    assert Skip("}" + after) == "}" + after;
    assert ("}" + after)[1..] == after;
  }

  lemma {:induction false} MembersFail(t: string)
    requires Member(t).None?
    ensures Members(t).None?
  {
  }

  function Expected(status: int, hs: seq<string>): (j: Json) {
    Obj([("status", Num(status)), ("headers", Arr(Values(hs)))])
  }

  /** The last member, a list. */
  lemma {:induction false} ListMember(name: string, hs: seq<string>)
    requires '\"' !in name && '\\' !in name && Printable(name)
    ensures Members(" \"" + name + "\":" + (" [" + (Items(hs) + "]" + "}"))) ==
            if AllPrintable(hs) then Some(([(name, Arr(Values(hs)))], "")) else None
  {
    var list := " [" + (Items(hs) + "]" + "}");
    var t := " \"" + name + "\":" + list;
    ValueOfList(hs, "}");
    MemberOf(name, list);
    if AllPrintable(hs) {
      assert "}" == "}" + "";
      MembersEnd(t, (name, Arr(Values(hs))), "");
    } else {
      MembersFail(t);
    }
  }

  lemma {:induction false} HeadersMember(hs: seq<string>)
    ensures Members(Tail(hs)) == if AllPrintable(hs) then Some(([("headers", Arr(Values(hs)))], "")) else None
  {
    ListMember("headers", hs);
    assert " \"headers\":" == " \"" + "headers" + "\":";
  }

  /** A member with a number, more members after it. */
  lemma {:induction false} NumberMember(name: string, n: int, rest: string)
    requires '\"' !in name && '\\' !in name && Printable(name)
    ensures
      var more := Members(rest);
      Members(" \"" + name + "\":" + (" " + (Decimal(n) + ("," + rest)))) ==
        if more.None? then None else Some(([(name, Num(n))] + more.value.0, more.value.1))
  {
    var value := " " + (Decimal(n) + ("," + rest));
    ValueOfDecimal(n, "," + rest);
    MemberOf(name, value);
    MembersGoOn(" \"" + name + "\":" + value, (name, Num(n)), rest);
  }

  lemma {:induction false} StatusMember(status: int, rest: string)
    ensures
      var more := Members(rest);
      Members(" \"status\":" + (" " + (Decimal(status) + ("," + rest)))) ==
        if more.None? then None else Some(([("status", Num(status))] + more.value.0, more.value.1))
  {
    NumberMember("status", status, rest);
    assert " \"status\":" == " \"" + "status" + "\":";
  }

  /** An object is its members, and nothing after them. */
  lemma {:induction false} ParseObject(body: string)
    requires |body| >= 2 && body[0] == ' ' && body[1] == '\"'
    ensures
      var ms := Members(body);
      Parse("{" + body) == if ms.None? || Skip(ms.value.1) != "" then None else Some(Obj(ms.value.0))
  {
    var s := "{" + body;
    assert s[1..] == body && Skip(s) == s;
    assert body[1..][0] == '\"';
    assert Skip(body) == body[1..];
  }

  /**
    For every status and header list: the text written is a JSON object with that
    status and those headers followed by the terminator, exactly when no header has a
    byte below 0x20. A header with a tab, say, makes the whole text unreadable.
  */
  lemma {:induction false} EmitReadsBack(status: int, hs: seq<string>)
    ensures Parse(Emit(status, hs)) == if AllPrintable(hs) then Some(Expected(status, hs)) else None
  {
    StatusMember(status, Tail(hs));
    HeadersMember(hs);
    ParseObject(" \"status\":" + (" " + (Decimal(status) + ("," + Tail(hs)))));
    assert [("status", Num(status))] + [("headers", Arr(Values(hs)))] == [("status", Num(status)), ("headers", Arr(Values(hs)))];
  }

  // ---------------------------------------------------------------- the calls

  class Sapi {
    var file: string

    constructor ()
      ensures file == ""
    {
      file := "";
    }

    /** The loop over the bytes of one header. */
    method WriteEscaped(h: string)
      modifies this`file
      ensures file == old(file) + Escaped(h)
    {
      assert h[0..] == h;
      for i := 0 to |h|
        invariant file + Escaped(h[i..]) == old(file) + Escaped(h)
      {
        assert h[i..][1..] == h[i + 1..];
        ghost var before := file;
        if h[i] == '\"' || h[i] == '\\' {
          file := file + "\\";
        }
        file := file + [h[i]];
        assert file == before + EscapedChar(h[i]);
        assert file + Escaped(h[i + 1..]) == before + (EscapedChar(h[i]) + Escaped(h[i + 1..]));
      }
      assert h[|h|..] == "";
    }

    /** wasm_sapi_send_header; None is the NULL that ends the list. */
    method SendHeader(header: Option<string>)
      modifies this`file
      ensures file == old(file) + if header.None? then "\"" + TERMINATOR + "\""
                                  else "\"" + Escaped(header.value) + "\",\n"
    {
      if header.None? {
        file := file + "\"__terminator__\"";
        return;
      }
      file := file + "\"";
      WriteEscaped(header.value);
      file := file + "\",\n";
    }

    /** The headers and then the NULL one. */
    method SendList(all: seq<string>)
      modifies this`file
      ensures file == old(file) + Items(all)
    {
      assert all[0..] == all;
      for i := 0 to |all|
        invariant file + Items(all[i..]) == old(file) + Items(all)
      {
        ItemsStep(file, all, i);
        SendHeader(Some(all[i]));
      }
      assert all[|all|..] == [];
      SendHeader(None);
    }

    /** wasm_sapi_send_headers: the headers, the default content type if asked for, the end. */
    method SendHeaders(status: int, headers: seq<string>, contentType: Option<string>)
      modifies this`file
      ensures file == Emit(status, headers + if contentType.Some? then [contentType.value] else [])
    {
      var all := headers + if contentType.Some? then [contentType.value] else [];
      file := "";
      file := file + "{ \"status\": ";
      file := file + Decimal(status);
      file := file + ", \"headers\": [";
      SendList(all);
      file := file + "]}";
      EmitShape(Decimal(status), Items(all));
    }
  }

  lemma {:induction false} Regroup(file: string, a: string, b: string)
    ensures file + (a + "\",\n") + b == file + (a + "\"" + (",\n" + b))
  {
    assert "\",\n" == "\"" + ",\n";
    assert a + "\",\n" + b == a + "\"" + (",\n" + b);
  }

  /** One more header written is one less to write. */
  lemma {:induction false} ItemsStep(file: string, all: seq<string>, i: nat)
    requires i < |all|
    ensures file + ("\"" + Escaped(all[i]) + "\",\n") + Items(all[i + 1..]) == file + Items(all[i..])
  {
    assert all[i..][1..] == all[i + 1..];
    Regroup(file, "\"" + Escaped(all[i]), Items(all[i + 1..]));
  }

  /** The pieces as they are written make the text as it is read. */
  lemma {:induction false} EmitShape(d: string, i: string)
    ensures "" + "{ \"status\": " + d + ", \"headers\": [" + i + "]}"
            == "{" + (" \"status\":" + (" " + (d + ("," + (" \"headers\":" + (" [" + (i + "]" + "}")))))))
  {
    var head, mid := "{ \"status\": ", ", \"headers\": [";
    assert head == "{" + (" \"status\":" + " ");
    assert mid == "," + (" \"headers\":" + " [");
    assert i + "]}" == i + "]" + "}";
    var end := i + "]" + "}";
    assert mid + end == "," + (" \"headers\":" + (" [" + end));
    assert head + (d + (mid + end)) == "{" + (" \"status\":" + (" " + (d + (mid + end))));
    assert head + d + mid + i + "]}" == head + (d + (mid + end));
  }
}
