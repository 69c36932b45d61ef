/**
 The canonical JSON of a StartEngagement request: its allow-listed fields go into an ordered map by
 successive inserts, absent optional fields are left out, and the map is printed with ascending keys
 and no whitespace. Characters are Unicode scalar values; strings are escaped as serde_json does.
 The reader accepts no other spelling than the one that section 3.2.2.2 of RFC 8785 prescribes.
 */
module CanonicalJson {
  import opened Prelude

  datatype Value = Str(text: string) | Bool(flag: bool)

  datatype Entry = Entry(key: string, value: Value)

  // ----- the ordered map -----

  /** Lexicographic order of code points; for the ASCII keys used here also that of UTF-16 code units. */
  predicate Less(a: string, b: string) {
    b != [] && (a == [] || a[0] < b[0] || (a[0] == b[0] && Less(a[1..], b[1..])))
  }

  function Insert(m: seq<Entry>, k: string, v: Value): seq<Entry> {
    if m == [] || Less(k, m[0].key) then [Entry(k, v)] + m
    else if k == m[0].key then [Entry(k, v)] + m[1..]
    else [m[0]] + Insert(m[1..], k, v)
  }

  function Lookup(m: seq<Entry>, k: string): Option<Value> {
    if m == [] then None else if m[0].key == k then Some(m[0].value) else Lookup(m[1..], k)
  }

  predicate Ascending(m: seq<Entry>) {
    forall i, j :: 0 <= i < j < |m| ==> Less(m[i].key, m[j].key)
  }

  lemma LessTrans(a: string, b: string, c: string)
    requires Less(a, b) && Less(b, c)
    ensures Less(a, c)
  {
  }

  lemma LessIrreflexive(a: string)
    ensures !Less(a, a)
  {
  }

  lemma LessTotal(a: string, b: string)
    ensures Less(a, b) || a == b || Less(b, a)
  {
    if a != [] && b != [] && a[0] == b[0] {
      LessTotal(a[1..], b[1..]);
      assert a == [a[0]] + a[1..] && b == [b[0]] + b[1..];
    }
  }

  /** A common prefix and then a smaller character. */
  lemma LessAt(a: string, b: string, n: nat)
    requires n < |a| && n < |b| && a[..n] == b[..n] && a[n] < b[n]
    ensures Less(a, b)
  {
    if n > 0 {
      assert a[0] == a[..n][0] && b[0] == b[..n][0];
      assert a[1..][..n - 1] == a[..n][1..] && b[1..][..n - 1] == b[..n][1..];
      LessAt(a[1..], b[1..], n - 1);
    }
  }

  lemma InsertLookup(m: seq<Entry>, k: string, v: Value, j: string)
    ensures Lookup(Insert(m, k, v), j) == if j == k then Some(v) else Lookup(m, j)
  {
    if m != [] && !Less(k, m[0].key) && k != m[0].key {
      InsertLookup(m[1..], k, v, j);
    }
  }

  /** Every key of `m` is above `k`. */
  predicate Above(k: string, m: seq<Entry>) {
    forall i :: 0 <= i < |m| ==> Less(k, m[i].key)
  }

  lemma AscendingCons(e: Entry, m: seq<Entry>)
    ensures Ascending([e] + m) <==> Above(e.key, m) && Ascending(m)
  {
    var r := [e] + m;
    assert r[0] == e && forall i :: 0 <= i < |m| ==> r[i + 1] == m[i];
    if Ascending(r) {
      forall i | 0 <= i < |m| ensures Less(e.key, m[i].key) {
        assert Less(r[0].key, r[i + 1].key);
      }
      forall i, j | 0 <= i < j < |m| ensures Less(m[i].key, m[j].key) {
        assert Less(r[i + 1].key, r[j + 1].key);
      }
    }
  }

  lemma AboveTrans(k: string, l: string, m: seq<Entry>)
    requires Less(k, l) && Above(l, m)
    ensures Above(k, m)
  {
    forall i | 0 <= i < |m| ensures Less(k, m[i].key) {
      LessTrans(k, l, m[i].key);
    }
  }

  lemma InsertAbove(m: seq<Entry>, k: string, v: Value, l: string)
    requires Above(l, m) && Less(l, k)
    ensures Above(l, Insert(m, k, v))
  {
    if m != [] && !Less(k, m[0].key) && k != m[0].key {
      InsertAbove(m[1..], k, v, l);
    }
  }

  lemma {:induction false} InsertAscending(m: seq<Entry>, k: string, v: Value)
    requires Ascending(m)
    ensures Ascending(Insert(m, k, v))
  {
    if m == [] {
      AscendingCons(Entry(k, v), m);
    } else {
      assert m == [m[0]] + m[1..];
      AscendingCons(m[0], m[1..]);
      if Less(k, m[0].key) {
        AboveTrans(k, m[0].key, m[1..]);
        AscendingCons(Entry(k, v), m);
      } else if k == m[0].key {
        AscendingCons(Entry(k, v), m[1..]);
      } else {
        LessTotal(k, m[0].key);
        InsertAscending(m[1..], k, v);
        InsertAbove(m[1..], k, v, m[0].key);
        AscendingCons(m[0], Insert(m[1..], k, v));
      }
    }
  }

  lemma LookupAbsent(m: seq<Entry>, k: string)
    requires forall i :: 0 <= i < |m| ==> Less(k, m[i].key)
    ensures Lookup(m, k) == None
  {
    LessIrreflexive(k);
  }

  /** An ordered map is determined by its contents: the order of the inserts does not matter. */
  lemma {:induction false} AscendingUnique(a: seq<Entry>, b: seq<Entry>)
    requires Ascending(a) && Ascending(b)
    requires forall k: string :: Lookup(a, k) == Lookup(b, k)
    ensures a == b
    decreases |a|
  {
    var ka, kb := if a == [] then "" else a[0].key, if b == [] then "" else b[0].key;
    assert Lookup(a, ka) == Lookup(b, ka) && Lookup(a, kb) == Lookup(b, kb);
    if a != [] && b != [] {
      LessTotal(a[0].key, b[0].key);
      if Less(a[0].key, b[0].key) {
        HeadBelow(a[0].key, b);
      } else if Less(b[0].key, a[0].key) {
        HeadBelow(b[0].key, a);
      }
      assert a[0] == b[0];
      forall k: string ensures Lookup(a[1..], k) == Lookup(b[1..], k) {
        assert Lookup(a, k) == Lookup(b, k);
        if k == a[0].key {
          LookupAbsent(a[1..], k);
          LookupAbsent(b[1..], k);
        }
      }
      AscendingUnique(a[1..], b[1..]);
      assert a == [a[0]] + a[1..] && b == [b[0]] + b[1..];
    }
  }

  lemma HeadBelow(k: string, m: seq<Entry>)
    requires Ascending(m) && m != [] && Less(k, m[0].key)
    ensures Lookup(m, k) == None
  {
    forall i | 0 <= i < |m| ensures Less(k, m[i].key) {
      if i > 0 { LessTrans(k, m[0].key, m[i].key); }
    }
    LookupAbsent(m, k);
  }

  // ----- printing -----

  const HEX: string := "0123456789abcdef"

  function Escape(c: char): string {
    if c == '\"' then ['\\', '\"']
    else if c == '\\' then ['\\', '\\']
    else if c as int == 8 then ['\\', 'b']
    else if c as int == 12 then ['\\', 'f']
    else if c as int == 10 then ['\\', 'n']
    else if c as int == 13 then ['\\', 'r']
    else if c as int == 9 then ['\\', 't']
    else if c as int < 32 then ['\\', 'u', '0', '0', HEX[c as int / 16], HEX[c as int % 16]]
    else [c]
  }

  function EscapeAll(s: string): string {
    if s == [] then [] else Escape(s[0]) + EscapeAll(s[1..])
  }

  function PrintString(s: string): string {
    ['\"'] + EscapeAll(s) + ['\"']
  }

  function PrintValue(v: Value): string {
    match v
    case Str(s) => PrintString(s)
    case Bool(b) => if b then "true" else "false"
  }

  function PrintMember(e: Entry): string {
    PrintString(e.key) + [':'] + PrintValue(e.value)
  }

  function PrintMembers(m: seq<Entry>): string
    requires m != []
  {
    if |m| == 1 then PrintMember(m[0]) else PrintMember(m[0]) + ([','] + PrintMembers(m[1..]))
  }

  function Print(m: seq<Entry>): string {
    if m == [] then "{}" else ['{'] + PrintMembers(m) + ['}']
  }

  // ----- an independent reader, of canonical texts only -----

  datatype Read<T> = Fail | Done(value: T, rest: string)

  /** Lower-case hexadecimal digits. */
  function HexDigit(c: char): int {
    if '0' <= c <= '9' then c as int - '0' as int
    else if 'a' <= c <= 'f' then c as int - 'a' as int + 10
    else -1
  }

  function Simple(c: char): Option<char> {
    match c
    case '\"' => Some('\"')
    case '\\' => Some('\\')
    case 'b' => Some(8 as char)
    case 'f' => Some(12 as char)
    case 'n' => Some(10 as char)
    case 'r' => Some(13 as char)
    case 't' => Some(9 as char)
    case _ => None
  }

  /** The control characters that have an escape of two characters. */
  const SHORT: set<int> := {8, 9, 10, 12, 13}

  /** One character of a string literal: itself, if it is at least U+0020 and neither a quote nor a backslash;
      a two-character escape, for these two and the five short ones; four hexadecimal digits, in lower case,
      for the other control characters and for nothing else. */
  function ReadChar(t: string): (r: Read<char>)
    ensures r.Done? ==> |r.rest| < |t|
  {
    if t == [] || t[0] == '\"' || t[0] as int < 32 then Fail
    else if t[0] != '\\' then Done(t[0], t[1..])
    else if |t| >= 2 && Simple(t[1]).Some? then Done(Simple(t[1]).value, t[2..])
    else if |t| >= 6 && t[1..4] == "u00" then
      var hi, lo := HexDigit(t[4]), HexDigit(t[5]);
      if 0 <= hi < 2 && 0 <= lo && hi * 16 + lo !in SHORT then Done((hi * 16 + lo) as char, t[6..]) else Fail
    else Fail
  }

  /** The characters up to the closing quote. */
  function ReadBody(t: string): (r: Read<string>)
    ensures r.Done? ==> |r.rest| < |t|
    decreases |t|
  {
    if t != [] && t[0] == '\"' then Done([], t[1..])
    else
      var c := ReadChar(t);
      if c.Fail? then Fail
      else
        var s := ReadBody(c.rest);
        if s.Fail? then Fail else Done([c.value] + s.value, s.rest)
  }

  function ReadString(t: string): (r: Read<string>)
    ensures r.Done? ==> |r.rest| < |t|
  {
    if t != [] && t[0] == '\"' then ReadBody(t[1..]) else Fail
  }

  function ReadValue(t: string): (r: Read<Value>)
    ensures r.Done? ==> |r.rest| < |t|
  {
    if |t| >= 4 && t[..4] == "true" then Done(Bool(true), t[4..])
    else if |t| >= 5 && t[..5] == "false" then Done(Bool(false), t[5..])
    else
      var s := ReadString(t);
      if s.Fail? then Fail else Done(Str(s.value), s.rest)
  }

  function ReadMember(t: string): (r: Read<Entry>)
    ensures r.Done? ==> |r.rest| < |t|
  {
    var k := ReadString(t);
    if k.Fail? || k.rest == [] || k.rest[0] != ':' then Fail
    else
      var v := ReadValue(k.rest[1..]);
      if v.Fail? then Fail else Done(Entry(k.value, v.value), v.rest)
  }

  /** One or more members, up to and including the closing brace. */
  function ReadMembers(t: string): (r: Read<seq<Entry>>)
    ensures r.Done? ==> |r.rest| < |t|
    decreases |t|
  {
    var e := ReadMember(t);
    if e.Fail? || e.rest == [] then Fail
    else if e.rest[0] == '}' then Done([e.value], e.rest[1..])
    else if e.rest[0] != ',' then Fail
    else
      var m := ReadMembers(e.rest[1..]);
      if m.Fail? then Fail else Done([e.value] + m.value, m.rest)
  }

  function Parse(t: string): Option<seq<Entry>> {
    if t == [] || t[0] != '{' then None
    else if t[1..] == "}" then Some([])
    else
      var m := ReadMembers(t[1..]);
      if m.Done? && m.rest == [] then Some(m.value) else None
  }

  // ----- the reader undoes the printer -----

  lemma ReadUnicode(c: char, rest: string)
    requires c as int < 32 && c as int !in SHORT
    ensures ReadChar(['\\', 'u', '0', '0', HEX[c as int / 16], HEX[c as int % 16]] + rest) == Done(c, rest)
  {
    var hi, lo := c as int / 16, c as int % 16;
    var t := ['\\', 'u', '0', '0', HEX[hi], HEX[lo]] + rest;
    HexRoundTrip(hi);
    HexRoundTrip(lo);
    assert t[0] == '\\' && t[1..4] == "u00" && t[4] == HEX[hi] && t[5] == HEX[lo];
    assert t[6..] == rest;
    assert (hi * 16 + lo) as char == c;
  }

  lemma ReadSimple(c: char, d: char, rest: string)
    requires Simple(d) == Some(c)
    ensures ReadChar(['\\', d] + rest) == Done(c, rest)
  {
    var t := ['\\', d] + rest;
    assert t[0] == '\\' && t[1] == d && t[2..] == rest;
  }

  lemma ReadEscape(c: char, rest: string)
    ensures Escape(c) != [] && Escape(c)[0] != '\"' && ReadChar(Escape(c) + rest) == Done(c, rest)
  {
    if |Escape(c)| == 2 {
      ReadSimple(c, Escape(c)[1], rest);
    } else if |Escape(c)| == 6 {
      ReadUnicode(c, rest);
    } else {
      assert ([c] + rest)[1..] == rest;
    }
  }

  lemma HexRoundTrip(d: nat)
    requires d < 16
    ensures HexDigit(HEX[d]) == d
  {
    assert d == 0 || d == 1 || d == 2 || d == 3 || d == 4 || d == 5 || d == 6 || d == 7 || d == 8 || d == 9
        || d == 10 || d == 11 || d == 12 || d == 13 || d == 14 || d == 15;
  }

  lemma {:induction false} ReadEscaped(s: string, rest: string)
    ensures ReadBody(EscapeAll(s) + ['\"'] + rest) == Done(s, rest)
  {
    if s == [] {
      assert EscapeAll(s) + ['\"'] + rest == ['\"'] + rest;
    } else {
      var tail := EscapeAll(s[1..]) + ['\"'] + rest;
      Regroup3(Escape(s[0]), EscapeAll(s[1..]), rest);
      ReadEscape(s[0], tail);
      ReadEscaped(s[1..], rest);
      ReadOne(Escape(s[0]) + tail, s[0], tail, s[1..], rest);
      assert s == [s[0]] + s[1..];
    }
  }

  lemma Regroup3(a: string, b: string, rest: string)
    ensures a + b + ['\"'] + rest == a + (b + ['\"'] + rest)
  {
  }

  lemma ReadOne(t: string, c: char, tail: string, s: string, rest: string)
    requires t != [] && t[0] != '\"' && ReadChar(t) == Done(c, tail) && ReadBody(tail) == Done(s, rest)
    ensures ReadBody(t) == Done([c] + s, rest)
  {
  }

  /** Every string, whatever quotes, backslashes and control characters it holds, is read back. */
  lemma ReadPrinted(s: string, rest: string)
    ensures ReadString(PrintString(s) + rest) == Done(s, rest)
  {
    ReadEscaped(s, rest);
    Unquote(EscapeAll(s), rest);
  }

  lemma Unquote(e: string, rest: string)
    ensures var t := ['\"'] + e + ['\"'] + rest; t[0] == '\"' && t[1..] == e + ['\"'] + rest
  {
  }

  lemma ReadPrintedValue(v: Value, rest: string)
    ensures ReadValue(PrintValue(v) + rest) == Done(v, rest)
  {
    match v
    case Str(s) =>
      var t := PrintString(s) + rest;
      assert t[0] == '\"';
      assert |t| >= 4 ==> t[..4][0] == '\"';
      assert |t| >= 5 ==> t[..5][0] == '\"';
      ReadPrinted(s, rest);
    case Bool(b) =>
      var t := PrintValue(v) + rest;
      if b {
        assert t[..4] == "true" && t[4..] == rest;
      } else {
        assert t[..5] == "false" && t[5..] == rest;
        assert t[0] == 'f' && t[..4][0] == 'f';
      }
  }

  lemma ReadPrintedMember(e: Entry, rest: string)
    ensures ReadMember(PrintMember(e) + rest) == Done(e, rest)
  {
    var value := PrintValue(e.value) + rest;
    Regroup4(PrintString(e.key), [':'], PrintValue(e.value), rest);
    ReadPrinted(e.key, [':'] + value);
    assert ([':'] + value)[1..] == value;
    ReadPrintedValue(e.value, rest);
  }

  lemma ReadLastMember(t: string, e: Entry, rest: string)
    requires ReadMember(t) == Done(e, ['}'] + rest)
    ensures ReadMembers(t) == Done([e], rest)
  {
  }

  lemma ReadNextMember(t: string, e: Entry, tail: string, m: seq<Entry>, rest: string)
    requires ReadMember(t) == Done(e, [','] + tail) && ReadMembers(tail) == Done(m, rest)
    ensures ReadMembers(t) == Done([e] + m, rest)
  {
    assert ([','] + tail)[1..] == tail;
  }

  lemma Regroup(first: string, others: string, rest: string)
    ensures first + ['}'] + rest == first + (['}'] + rest)
    ensures first + ([','] + others) + ['}'] + rest == first + ([','] + (others + ['}'] + rest))
  {
  }

  lemma {:induction false} ReadPrintedMembers(m: seq<Entry>, rest: string)
    requires m != []
    ensures ReadMembers(PrintMembers(m) + ['}'] + rest) == Done(m, rest)
    decreases |m|
  {
    var t := PrintMembers(m) + ['}'] + rest;
    Regroup(PrintMember(m[0]), if |m| == 1 then "" else PrintMembers(m[1..]), rest);
    if |m| == 1 {
      assert m == [m[0]];
      ReadPrintedMember(m[0], ['}'] + rest);
      ReadLastMember(t, m[0], rest);
    } else {
      var tail := PrintMembers(m[1..]) + ['}'] + rest;
      ReadPrintedMember(m[0], [','] + tail);
      ReadPrintedMembers(m[1..], rest);
      ReadNextMember(t, m[0], tail, m[1..], rest);
      assert m == [m[0]] + m[1..];
    }
  }

  lemma MembersStart(m: seq<Entry>)
    requires m != []
    ensures PrintMembers(m) != [] && PrintMembers(m)[0] == '\"'
  {
    assert PrintMember(m[0])[0] == '\"';
  }

  lemma Braces(members: string)
    ensures var t := ['{'] + members + ['}']; t[0] == '{' && t[1..] == members + ['}'] + []
  {
  }

  lemma PrintRoundTrip(m: seq<Entry>)
    ensures Parse(Print(m)) == Some(m)
  {
    if m != [] {
      var members := PrintMembers(m);
      ReadPrintedMembers(m, []);
      Braces(members);
      MembersStart(m);
      assert (members + ['}'] + [])[0] == '\"';
    }
  }

  // ----- and nothing else reads so -----

  lemma HexInverse(c: char)
    requires HexDigit(c) >= 0
    ensures HexDigit(c) < 16 && HEX[HexDigit(c)] == c
  {
    var d := HexDigit(c);
    assert d == 0 || d == 1 || d == 2 || d == 3 || d == 4 || d == 5 || d == 6 || d == 7 || d == 8 || d == 9
        || d == 10 || d == 11 || d == 12 || d == 13 || d == 14 || d == 15;
  }

  lemma UnicodeExact(t: string)
    requires |t| >= 6 && t[0] == '\\' && t[1..4] == "u00" && 0 <= HexDigit(t[4]) < 2 && 0 <= HexDigit(t[5])
    requires HexDigit(t[4]) * 16 + HexDigit(t[5]) !in SHORT
    ensures Escape((HexDigit(t[4]) * 16 + HexDigit(t[5])) as char) + t[6..] == t
  {
    HexInverse(t[4]);
    HexInverse(t[5]);
    var hi, lo := HexDigit(t[4]), HexDigit(t[5]);
    var c := (hi * 16 + lo) as char;
    assert c as int / 16 == hi && c as int % 16 == lo;
    assert t[1] == t[1..4][0] && t[2] == t[1..4][1] && t[3] == t[1..4][2];
    assert t == [t[0], t[1], t[2], t[3], t[4], t[5]] + t[6..];
  }

  /** A character is read only from its canonical spelling. */
  lemma ReadCharExact(t: string)
    requires ReadChar(t).Done?
    ensures t == Escape(ReadChar(t).value) + ReadChar(t).rest
  {
    if t[0] != '\\' {
      assert t == [t[0]] + t[1..];
    } else if |t| >= 2 && Simple(t[1]).Some? {
      assert t == [t[0], t[1]] + t[2..];
    } else {
      UnicodeExact(t);
    }
  }

  lemma {:induction false} ReadBodyExact(t: string)
    requires ReadBody(t).Done?
    ensures t == EscapeAll(ReadBody(t).value) + ['\"'] + ReadBody(t).rest
    decreases |t|
  {
    if t != [] && t[0] == '\"' {
      assert t == [] + ['\"'] + t[1..];
    } else {
      var c := ReadChar(t);
      ReadCharExact(t);
      ReadBodyExact(c.rest);
      var s := ReadBody(c.rest);
      assert ([c.value] + s.value)[1..] == s.value;
      Regroup3(Escape(c.value), EscapeAll(s.value), s.rest);
    }
  }

  lemma Quoted(t: string, e: string, rest: string)
    requires t != [] && t[0] == '\"' && t[1..] == e + ['\"'] + rest
    ensures t == ['\"'] + e + ['\"'] + rest
  {
    assert t == [t[0]] + t[1..];
  }

  lemma ReadStringExact(t: string)
    requires ReadString(t).Done?
    ensures t == PrintString(ReadString(t).value) + ReadString(t).rest
  {
    ReadBodyExact(t[1..]);
    var r := ReadBody(t[1..]);
    Quoted(t, EscapeAll(r.value), r.rest);
  }

  lemma ReadValueExact(t: string)
    requires ReadValue(t).Done?
    ensures t == PrintValue(ReadValue(t).value) + ReadValue(t).rest
  {
    if |t| >= 4 && t[..4] == "true" {
      assert t == t[..4] + t[4..];
    } else if |t| >= 5 && t[..5] == "false" {
      assert t == t[..5] + t[5..];
    } else {
      ReadStringExact(t);
    }
  }

  lemma ReadMemberExact(t: string)
    requires ReadMember(t).Done?
    ensures t == PrintMember(ReadMember(t).value) + ReadMember(t).rest
  {
    var k := ReadString(t);
    ReadStringExact(t);
    ReadValueExact(k.rest[1..]);
    var v := ReadValue(k.rest[1..]);
    assert k.rest == [':'] + k.rest[1..];
    Regroup4(PrintString(k.value), [':'], PrintValue(v.value), v.rest);
  }

  lemma Regroup4(a: string, b: string, c: string, rest: string)
    ensures a + (b + (c + rest)) == a + b + c + rest
  {
  }

  lemma PrintNext(e: Entry, m: seq<Entry>)
    requires m != []
    ensures PrintMembers([e] + m) == PrintMember(e) + ([','] + PrintMembers(m))
  {
    assert ([e] + m)[1..] == m;
  }

  lemma {:induction false} ReadMembersExact(t: string)
    requires ReadMembers(t).Done?
    ensures ReadMembers(t).value != []
    ensures t == PrintMembers(ReadMembers(t).value) + ['}'] + ReadMembers(t).rest
    decreases |t|
  {
    var e := ReadMember(t);
    ReadMemberExact(t);
    assert e.rest == [e.rest[0]] + e.rest[1..];
    if e.rest[0] == '}' {
      Regroup(PrintMember(e.value), "", e.rest[1..]);
    } else {
      ReadMembersExact(e.rest[1..]);
      var m := ReadMembers(e.rest[1..]);
      PrintNext(e.value, m.value);
      Regroup(PrintMember(e.value), PrintMembers(m.value), m.rest);
    }
  }

  /** A member list has one canonical text: the reader accepts no other. */
  lemma ParseExact(t: string)
    requires Parse(t).Some?
    ensures t == Print(Parse(t).value)
  {
    assert t == ['{'] + t[1..];
    if t[1..] != "}" {
      ReadMembersExact(t[1..]);
      var m := ReadMembers(t[1..]).value;
      assert ['{'] + (PrintMembers(m) + ['}'] + []) == ['{'] + PrintMembers(m) + ['}'];
    }
  }

  // ----- the StartEngagement fields -----

  datatype Fields = Fields(
    orgId: string,
    channel: string,
    mode: string,
    journeyVersion: string,
    contactKind: string,
    contactId: Option<string>,
    contactPhone: Option<string>,
    batchId: Option<string>,
    voiceProfileId: Option<string>,
    testMode: bool,
    language: Option<string>)

  datatype Slot = Slot(key: string, value: Option<Value>)

  function OptStr(s: Option<string>): Option<Value> {
    if s.Some? then Some(Str(s.value)) else None
  }

  /** All eleven allow-listed fields under their keys, keys ascending. */
  function Slots(f: Fields): seq<Slot> {
    [ Slot("batch_id", OptStr(f.batchId)),
      Slot("channel", Some(Str(f.channel))),
      Slot("contact_id", OptStr(f.contactId)),
      Slot("contact_kind", Some(Str(f.contactKind))),
      Slot("contact_phone", OptStr(f.contactPhone)),
      Slot("journey_version", Some(Str(f.journeyVersion))),
      Slot("language", OptStr(f.language)),
      Slot("mode", Some(Str(f.mode))),
      Slot("org_id", Some(Str(f.orgId))),
      Slot("test_mode", Some(Bool(f.testMode))),
      Slot("voice_profile_id", OptStr(f.voiceProfileId)) ]
  }

  /** The slots that are present. */
  function Present(slots: seq<Slot>): seq<Entry> {
    if slots == [] then []
    else (if slots[0].value.Some? then [Entry(slots[0].key, slots[0].value.value)] else []) + Present(slots[1..])
  }

  /** The canonical text: present fields only, keys ascending, no whitespace. */
  function CanonicalText(f: Fields): string {
    Print(Present(Slots(f)))
  }

  predicate SlotsAscending(slots: seq<Slot>) {
    forall i, j :: 0 <= i < j < |slots| ==> Less(slots[i].key, slots[j].key)
  }

  lemma {:induction false} ChainAscending(slots: seq<Slot>)
    requires forall i :: 0 <= i < |slots| - 1 ==> Less(slots[i].key, slots[i + 1].key)
    ensures SlotsAscending(slots)
  {
    if |slots| > 1 {
      var init := slots[..|slots| - 1];
      ChainAscending(init);
      forall i | 0 <= i < |slots| - 1 ensures Less(slots[i].key, slots[|slots| - 1].key) {
        if i < |slots| - 2 {
          assert Less(init[i].key, init[|init| - 1].key);
          LessTrans(slots[i].key, slots[|slots| - 2].key, slots[|slots| - 1].key);
        }
      }
      forall i, j | 0 <= i < j < |slots| ensures Less(slots[i].key, slots[j].key) {
        if j < |slots| - 1 { assert Less(init[i].key, init[j].key); }
      }
    }
  }

  lemma ContactKeys()
    ensures Less("contact_id", "contact_kind") && Less("contact_kind", "contact_phone")
  {
    assert "contact_id"[..8] == "contact_kind"[..8] == "contact_phone"[..8] == "contact_";
    LessAt("contact_id", "contact_kind", 8);
    LessAt("contact_kind", "contact_phone", 8);
  }

  lemma OtherKeys()
    ensures Less("batch_id", "channel") && Less("channel", "contact_id") && Less("contact_phone", "journey_version")
    ensures Less("journey_version", "language") && Less("language", "mode") && Less("mode", "org_id")
    ensures Less("org_id", "test_mode") && Less("test_mode", "voice_profile_id")
  {
    LessAt("channel", "contact_id", 1);
  }

  lemma ElevenAscend(k: seq<Slot>)
    requires |k| == 11
    requires Less(k[0].key, k[1].key) && Less(k[1].key, k[2].key)
    requires Less(k[2].key, k[3].key) && Less(k[3].key, k[4].key)
    requires Less(k[4].key, k[5].key) && Less(k[5].key, k[6].key)
    requires Less(k[6].key, k[7].key) && Less(k[7].key, k[8].key)
    requires Less(k[8].key, k[9].key) && Less(k[9].key, k[10].key)
    ensures SlotsAscending(k)
  {
    ChainAscending(k);
  }

  lemma FirstKeys(k: seq<Slot>, f: Fields)
    requires k == Slots(f)
    ensures Less(k[0].key, k[1].key) && Less(k[1].key, k[2].key)
  {
    OtherKeys();
  }

  lemma ContactSlots(k: seq<Slot>, f: Fields)
    requires k == Slots(f)
    ensures k[2].key == "contact_id" && k[3].key == "contact_kind" && k[4].key == "contact_phone"
  {
  }

  lemma ContactSlotsAscend(k: seq<Slot>)
    requires |k| == 11 && k[2].key == "contact_id" && k[3].key == "contact_kind" && k[4].key == "contact_phone"
    ensures Less(k[2].key, k[3].key) && Less(k[3].key, k[4].key)
  {
    ContactKeys();
  }

  lemma MiddleKeys(k: seq<Slot>, f: Fields)
    requires k == Slots(f)
    ensures Less(k[4].key, k[5].key) && Less(k[5].key, k[6].key) && Less(k[6].key, k[7].key)
  {
    OtherKeys();
  }

  lemma LastKeys(k: seq<Slot>, f: Fields)
    requires k == Slots(f)
    ensures Less(k[7].key, k[8].key) && Less(k[8].key, k[9].key) && Less(k[9].key, k[10].key)
  {
    OtherKeys();
  }

  lemma KeysAscend(f: Fields)
    ensures SlotsAscending(Slots(f))
  {
    var k := Slots(f);
    FirstKeys(k, f);
    ContactSlots(k, f);
    ContactSlotsAscend(k);
    MiddleKeys(k, f);
    LastKeys(k, f);
    ElevenAscend(k);
  }

  lemma {:induction false} PresentAbove(slots: seq<Slot>, k: string)
    requires forall i :: 0 <= i < |slots| ==> Less(k, slots[i].key)
    ensures Above(k, Present(slots))
  {
    if slots != [] {
      PresentAbove(slots[1..], k);
      var first := if slots[0].value.Some? then [Entry(slots[0].key, slots[0].value.value)] else [];
      assert Present(slots) == first + Present(slots[1..]);
    }
  }

  lemma {:induction false} PresentAscending(slots: seq<Slot>)
    requires SlotsAscending(slots)
    ensures Ascending(Present(slots))
  {
    if slots != [] {
      var rest := slots[1..];
      PresentAscending(rest);
      PresentAbove(rest, slots[0].key);
      if slots[0].value.Some? {
        AscendingCons(Entry(slots[0].key, slots[0].value.value), Present(rest));
      } else {
        assert Present(slots) == Present(rest);
      }
    }
  }

  /** The fields' keys come out strictly ascending (section 3.2.3 of RFC 8785). */
  lemma CanonicalKeysAscend(f: Fields)
    ensures Ascending(Present(Slots(f)))
  {
    KeysAscend(f);
    PresentAscending(Slots(f));
  }

  /** No key has two different slots. */
  ghost predicate Functional(slots: seq<Slot>) {
    forall x, y :: x in slots && y in slots && x.key == y.key ==> x == y
  }

  lemma AscendingFunctional(slots: seq<Slot>)
    requires SlotsAscending(slots)
    ensures Functional(slots)
  {
    forall x, y | x in slots && y in slots && x.key == y.key ensures x == y {
      LessIrreflexive(x.key);
      var i, j :| 0 <= i < |slots| && 0 <= j < |slots| && slots[i] == x && slots[j] == y;
    }
  }

  /** The map `m` holds what the slots say: a present slot's value, nothing for an absent or missing one. */
  ghost predicate Holds(m: seq<Entry>, slots: seq<Slot>) {
    && (forall x :: x in slots ==> Lookup(m, x.key) == x.value)
    && (forall k: string :: (forall x :: x in slots ==> x.key != k) ==> Lookup(m, k) == None)
  }

  lemma {:induction false} PresentHolds(slots: seq<Slot>)
    requires SlotsAscending(slots)
    ensures Holds(Present(slots), slots)
  {
    if slots != [] {
      var rest, first := slots[1..], slots[0];
      PresentHolds(rest);
      assert slots == [first] + rest;
      var p, q := Present(slots), Present(rest);
      forall x | x in rest ensures x.key != first.key {
        LessIrreflexive(x.key);
      }
      assert Lookup(q, first.key) == None;
      assert p == if first.value.Some? then [Entry(first.key, first.value.value)] + q else q;
      assert first.value.Some? ==> p[1..] == q;
      forall k: string ensures Lookup(p, k) == if k == first.key then first.value else Lookup(q, k) {
      }
      forall k: string | forall x :: x in slots ==> x.key != k ensures Lookup(p, k) == None {
        assert first in slots && forall x :: x in rest ==> x in slots;
      }
    }
  }

  // ----- decoding -----

  function TextAt(m: seq<Entry>, k: string): Option<string> {
    match Lookup(m, k)
    case Some(Str(s)) => Some(s)
    case _ => None
  }

  /** The eleven keys. */
  const KEYS: seq<string> :=
    [ "batch_id", "channel", "contact_id", "contact_kind", "contact_phone", "journey_version", "language", "mode",
      "org_id", "test_mode", "voice_profile_id" ]

  /** The map holds the fields, and the optional ones that are present, under their keys. */
  ghost predicate HoldsFields(m: seq<Entry>, f: Fields) {
    && Lookup(m, "batch_id") == OptStr(f.batchId) && Lookup(m, "channel") == Some(Str(f.channel))
    && Lookup(m, "contact_id") == OptStr(f.contactId) && Lookup(m, "contact_kind") == Some(Str(f.contactKind))
    && Lookup(m, "contact_phone") == OptStr(f.contactPhone)
    && Lookup(m, "journey_version") == Some(Str(f.journeyVersion)) && Lookup(m, "language") == OptStr(f.language)
    && Lookup(m, "mode") == Some(Str(f.mode)) && Lookup(m, "org_id") == Some(Str(f.orgId))
    && Lookup(m, "test_mode") == Some(Bool(f.testMode))
    && Lookup(m, "voice_profile_id") == OptStr(f.voiceProfileId)
  }

  /** No flag stands where a text belongs. */
  predicate TextOrAbsent(m: seq<Entry>, k: string) {
    Lookup(m, k).None? || Lookup(m, k).value.Str?
  }

  function FieldsOf(m: seq<Entry>): Option<Fields> {
    var org, channel, mode := TextAt(m, "org_id"), TextAt(m, "channel"), TextAt(m, "mode");
    var version, kind, test := TextAt(m, "journey_version"), TextAt(m, "contact_kind"), Lookup(m, "test_mode");
    if org.None? || channel.None? || mode.None? || version.None? || kind.None? then None
    else if test.None? || test.value.Str? then None
    else if !TextOrAbsent(m, "contact_id") || !TextOrAbsent(m, "contact_phone") || !TextOrAbsent(m, "batch_id")
            || !TextOrAbsent(m, "voice_profile_id") || !TextOrAbsent(m, "language") then None
    else Some(Fields(org.value, channel.value, mode.value, version.value, kind.value,
                     TextAt(m, "contact_id"), TextAt(m, "contact_phone"), TextAt(m, "batch_id"),
                     TextAt(m, "voice_profile_id"), test.value.flag, TextAt(m, "language")))
  }

  lemma FieldsHeld(m: seq<Entry>, f: Fields)
    ensures FieldsOf(m) == Some(f) <==> HoldsFields(m, f)
  {
  }

  predicate Known(m: seq<Entry>) {
    forall i :: 0 <= i < |m| ==> m[i].key in KEYS
  }

  /** Read the fields back from a canonical text: known keys only, strictly ascending. */
  function Decode(t: string): Option<Fields> {
    match Parse(t)
    case None => None
    case Some(m) => if Ascending(m) && Known(m) then FieldsOf(m) else None
  }

  lemma SlotKeys(f: Fields)
    ensures forall n :: 0 <= n < 11 ==> Slots(f)[n].key == KEYS[n]
  {
  }

  lemma {:induction false} PresentKey(slots: seq<Slot>, i: nat) returns (n: nat)
    requires i < |Present(slots)|
    ensures n < |slots| && slots[n].key == Present(slots)[i].key
  {
    var rest := slots[1..];
    var first := if slots[0].value.Some? then [Entry(slots[0].key, slots[0].value.value)] else [];
    assert Present(slots) == first + Present(rest);
    if i < |first| {
      n := 0;
    } else {
      n := PresentKey(rest, i - |first|);
      n := n + 1;
    }
  }

  lemma KeysKnown(f: Fields)
    ensures Known(Present(Slots(f)))
  {
    var slots, m := Slots(f), Present(Slots(f));
    SlotKeys(f);
    forall i | 0 <= i < |m| ensures m[i].key in KEYS {
      var n := PresentKey(slots, i);
      assert KEYS[n] == m[i].key;
    }
  }

  lemma HeldSlots(m: seq<Entry>, slots: seq<Slot>, f: Fields)
    requires slots == Slots(f)
    ensures HoldsFields(m, f) <==> forall n: nat :: n < 11 ==> Lookup(m, slots[n].key) == slots[n].value
  {
    assert slots[0].key == "batch_id" && slots[1].key == "channel" && slots[2].key == "contact_id";
    assert slots[3].key == "contact_kind" && slots[4].key == "contact_phone" && slots[5].key == "journey_version";
    assert slots[6].key == "language" && slots[7].key == "mode" && slots[8].key == "org_id";
    assert slots[9].key == "test_mode" && slots[10].key == "voice_profile_id";
    forall n: nat | HoldsFields(m, f) && n < 11 ensures Lookup(m, slots[n].key) == slots[n].value {
      assert n == 0 || n == 1 || n == 2 || n == 3 || n == 4 || n == 5
          || n == 6 || n == 7 || n == 8 || n == 9 || n == 10;
    }
  }

  /** The canonical text determines every field, and which optional ones are present. */
  lemma CanonicalRoundTrip(f: Fields)
    ensures Decode(CanonicalText(f)) == Some(f)
  {
    var slots := Slots(f);
    var m := Present(slots);
    KeysAscend(f);
    PresentAscending(slots);
    KeysKnown(f);
    PresentHolds(slots);
    PrintRoundTrip(m);
    forall n: nat | n < 11 ensures Lookup(m, slots[n].key) == slots[n].value {
      assert slots[n] in slots;
    }
    HeldSlots(m, slots, f);
    FieldsHeld(m, f);
  }

  lemma LookupMissing(m: seq<Entry>, k: string)
    requires forall i :: 0 <= i < |m| ==> m[i].key != k
    ensures Lookup(m, k) == None
  {
  }

  lemma HoldsOnly(m: seq<Entry>, slots: seq<Slot>, f: Fields)
    requires slots == Slots(f) && HoldsFields(m, f) && Known(m)
    ensures Holds(m, slots)
  {
    HeldSlots(m, slots, f);
    SlotKeys(f);
    forall x | x in slots ensures Lookup(m, x.key) == x.value {
      var n: nat :| n < 11 && slots[n] == x;
    }
    forall k: string | forall x :: x in slots ==> x.key != k ensures Lookup(m, k) == None {
      forall i | 0 <= i < |m| ensures m[i].key != k {
        var n :| 0 <= n < |KEYS| && KEYS[n] == m[i].key;
        assert slots[n] in slots;
      }
      LookupMissing(m, k);
    }
  }

  lemma SameHolds(a: seq<Entry>, b: seq<Entry>, slots: seq<Slot>)
    requires Ascending(a) && Ascending(b) && Holds(a, slots) && Holds(b, slots)
    ensures a == b
  {
    forall k: string ensures Lookup(a, k) == Lookup(b, k) {
      if x :| x in slots && x.key == k {
      }
    }
    AscendingUnique(a, b);
  }

  /**
   A request has one canonical text: the reader, which accepts one spelling of each character, known keys
   and ascending order only, reads these fields from no other text.
   */
  lemma CanonicalExact(t: string, f: Fields)
    ensures Decode(t) == Some(f) <==> t == CanonicalText(f)
  {
    CanonicalRoundTrip(f);
    if Decode(t) == Some(f) {
      var m, slots := Parse(t).value, Slots(f);
      ParseExact(t);
      FieldsHeld(m, f);
      HoldsOnly(m, slots, f);
      KeysAscend(f);
      PresentAscending(slots);
      PresentHolds(slots);
      SameHolds(m, Present(slots), slots);
    }
  }

  /** So two requests with the same canonical text agree in every allow-listed field. */
  lemma CanonicalInjective(f: Fields, g: Fields)
    requires CanonicalText(f) == CanonicalText(g)
    ensures f == g
  {
    CanonicalRoundTrip(f);
    CanonicalRoundTrip(g);
  }

  // ----- building the map by successive inserts -----

  /** Insert the present slots one after the other. */
  function InsertAll(slots: seq<Slot>): seq<Entry> {
    if slots == [] then []
    else
      var m, last := InsertAll(slots[..|slots| - 1]), slots[|slots| - 1];
      if last.value.Some? then Insert(m, last.key, last.value.value) else m
  }

  lemma {:induction false} InsertAllHolds(slots: seq<Slot>)
    requires Functional(slots)
    ensures Ascending(InsertAll(slots)) && Holds(InsertAll(slots), slots)
  {
    if slots != [] {
      var init, last := slots[..|slots| - 1], slots[|slots| - 1];
      assert slots == init + [last];
      InsertAllHolds(init);
      var m, r := InsertAll(init), InsertAll(slots);
      assert last in slots && forall x :: x in init ==> x in slots;
      if last.value.Some? {
        InsertAscending(m, last.key, last.value.value);
        forall k: string ensures Lookup(r, k) == if k == last.key then last.value else Lookup(m, k) {
          InsertLookup(m, last.key, last.value.value, k);
        }
      } else if last !in init {
        assert Lookup(m, last.key) == None;
      }
    }
  }

  /** The text does not depend on the order of the inserts. */
  lemma InsertOrderIrrelevant(a: seq<Slot>, sorted: seq<Slot>)
    requires SlotsAscending(sorted) && forall x :: x in a <==> x in sorted
    ensures InsertAll(a) == Present(sorted)
  {
    AscendingFunctional(sorted);
    assert Functional(a);
    InsertAllHolds(a);
    PresentHolds(sorted);
    PresentAscending(sorted);
    var m, p := InsertAll(a), Present(sorted);
    forall k: string ensures Lookup(m, k) == Lookup(p, k) {
      if x :| x in a && x.key == k {
        assert x in sorted;
      }
    }
    AscendingUnique(m, p);
  }

  /** The eleven `if let Some(v) … map.insert(key, v)` in a row. */
  method InsertPresent(slots: seq<Slot>) returns (m: seq<Entry>)
    ensures m == InsertAll(slots)
  {
    m := [];
    for i := 0 to |slots|
      invariant m == InsertAll(slots[..i])
    {
      assert slots[..i + 1][..i] == slots[..i];
      if slots[i].value.Some? {
        m := Insert(m, slots[i].key, slots[i].value.value);
      }
    }
    assert slots[..|slots|] == slots;
  }

  /** The text as the service builds it: successive inserts into an ordered map, then one print. */
  method CanonicalJsonStartEngagement(f: Fields) returns (text: string)
    ensures text == CanonicalText(f) && Decode(text) == Some(f)
  {
    SourceOrderText(f);
    CanonicalRoundTrip(f);
    var m := InsertPresent(SourceOrder(f));
    text := Print(m);
  }

  /** The slots in the order the service inserts them. */
  function SourceOrder(f: Fields): seq<Slot> {
    [ Slot("channel", Some(Str(f.channel))),
      Slot("contact_kind", Some(Str(f.contactKind))),
      Slot("contact_id", OptStr(f.contactId)),
      Slot("contact_phone", OptStr(f.contactPhone)),
      Slot("batch_id", OptStr(f.batchId)),
      Slot("language", OptStr(f.language)),
      Slot("journey_version", Some(Str(f.journeyVersion))),
      Slot("mode", Some(Str(f.mode))),
      Slot("org_id", Some(Str(f.orgId))),
      Slot("test_mode", Some(Bool(f.testMode))),
      Slot("voice_profile_id", OptStr(f.voiceProfileId)) ]
  }

  lemma SourceOrderText(f: Fields)
    ensures InsertAll(SourceOrder(f)) == Present(Slots(f))
  {
    var slots := Slots(f);
    KeysAscend(f);
    SameSlots(SourceOrder(f), slots);
    InsertOrderIrrelevant(SourceOrder(f), slots);
  }

  lemma SameSlots(done: seq<Slot>, slots: seq<Slot>)
    requires |slots| == 11
    requires done == [slots[1], slots[3], slots[2], slots[4], slots[0],
                      slots[6], slots[5], slots[7], slots[8], slots[9], slots[10]]
    ensures forall x :: x in done <==> x in slots
  {
    forall x | x in slots ensures x in done {
      var i :| 0 <= i < 11 && slots[i] == x;
      var at := [4, 0, 2, 1, 3, 6, 5, 7, 8, 9, 10][i];
      assert done[at] == x;
    }
  }
}
