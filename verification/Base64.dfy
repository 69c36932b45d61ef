/**
 The hand-written base64 encoder used for the Basic authorisation header, against section 4 of
 RFC 4648: 24-bit groups cut into four 6-bit values, the alphabet of table 1, and '=' padding.
 */
module Base64 {
  import opened Prelude

  const UPPER: string := "ABCDEFGHIJKLMNOPQRSTUVWXYZ"
  const LOWER: string := "abcdefghijklmnopqrstuvwxyz"
  const DIGITS: string := "0123456789+/"

  const TABLE: string := UPPER + LOWER + DIGITS

  // ----- the alphabet -----

  function Letter(v: bv8): char
    requires v < 64
  {
    SmallIndex(v);
    TABLE[v as int]
  }

  lemma SmallIndex(v: bv8)
    requires v < 64
    ensures 0 <= v as int < 64 && |TABLE| == 64
  {
  }

  /** The value of an alphabet character, by the ranges of table 1; -1 for any other character. */
  function Position(c: char): int {
    if 'A' <= c <= 'Z' then c as int - 65
    else if 'a' <= c <= 'z' then c as int - 71
    else if '0' <= c <= '9' then c as int + 4
    else if c == '+' then 62
    else if c == '/' then 63
    else -1
  }

  lemma UpperCase(n: nat)
    requires n < 26
    ensures UPPER[n] as int == n + 65
  {
    assert n == 0 || n == 1 || n == 2 || n == 3 || n == 4 || n == 5 || n == 6 || n == 7 || n == 8
        || n == 9 || n == 10 || n == 11 || n == 12 || n == 13 || n == 14 || n == 15 || n == 16 || n == 17
        || n == 18 || n == 19 || n == 20 || n == 21 || n == 22 || n == 23 || n == 24 || n == 25;
  }

  lemma LowerCase(n: nat)
    requires n < 26
    ensures LOWER[n] as int == n + 97
  {
    assert n == 0 || n == 1 || n == 2 || n == 3 || n == 4 || n == 5 || n == 6 || n == 7 || n == 8
        || n == 9 || n == 10 || n == 11 || n == 12 || n == 13 || n == 14 || n == 15 || n == 16 || n == 17
        || n == 18 || n == 19 || n == 20 || n == 21 || n == 22 || n == 23 || n == 24 || n == 25;
  }

  lemma Digits(n: nat)
    requires n < 12
    ensures DIGITS[n] as int == if n < 10 then n + 48 else if n == 10 then 43 else 47
  {
    assert n == 0 || n == 1 || n == 2 || n == 3 || n == 4 || n == 5 || n == 6 || n == 7 || n == 8
        || n == 9 || n == 10 || n == 11;
  }

  lemma Section(n: nat)
    requires n < 64
    ensures TABLE[n] as int ==
            if n < 26 then n + 65 else if n < 52 then n + 71 else if n < 62 then n - 4 else if n == 62 then 43 else 47
  {
    if n < 26 { UpperCase(n); } else if n < 52 { LowerCase(n - 26); } else { Digits(n - 52); }
  }

  /** The table and the ranges are inverse to each other. */
  lemma TableAt(n: nat)
    requires n < 64
    ensures Position(TABLE[n]) == n && TABLE[n] != '='
  {
    Section(n);
  }

  lemma SameBits(v: bv8, w: bv8)
    requires v as int == w as int
    ensures v == w
  {
  }

  /** No two values share a letter. */
  lemma LettersDiffer(v: bv8, w: bv8)
    requires v < 64 && w < 64 && Letter(v) == Letter(w)
    ensures v == w
  {
    SmallIndex(v);
    SmallIndex(w);
    TableAt(v as int);
    TableAt(w as int);
    SameBits(v, w);
  }

  /** The 6-bit value of a character: the one that it is the letter of. */
  ghost function Value(c: char): Option<bv8> {
    if v: bv8 :| v < 64 && Letter(v) == c then Some(v) else None
  }

  lemma LetterValue(v: bv8)
    requires v < 64
    ensures Value(Letter(v)) == Some(v) && Letter(v) != '='
    ensures v as int == Position(Letter(v))
  {
    SmallIndex(v);
    TableAt(v as int);
    var w := Value(Letter(v)).value;
    LettersDiffer(v, w);
  }

  lemma ValueLetter(c: char)
    requires Value(c).Some?
    ensures Value(c).value < 64 && Letter(Value(c).value) == c
  {
  }

  // ----- 24-bit groups -----

  function Group(a: bv8, b: bv8, c: bv8): bv24 {
    ((a as bv24) << 16) | ((b as bv24) << 8) | (c as bv24)
  }

  /** The i-th 6-bit value of a group, most significant first. */
  function Sextet(g: bv24, i: nat): (v: bv8)
    requires i < 4
    ensures v < 64
  {
    var low: bv24 := if i == 0 then g >> 18 else if i == 1 then g >> 12 else if i == 2 then g >> 6 else g;
    (low & 0x3f) as bv8
  }

  function Pad(s: seq<bv8>, i: nat): bv8 {
    if i < |s| then s[i] else 0
  }

  /** One to three bytes as four characters. */
  function Quartet(s: seq<bv8>): string
    requires 1 <= |s| <= 3
  {
    var g := Group(s[0], Pad(s, 1), Pad(s, 2));
    [ Letter(Sextet(g, 0)), Letter(Sextet(g, 1)),
      if |s| > 1 then Letter(Sextet(g, 2)) else '=',
      if |s| > 2 then Letter(Sextet(g, 3)) else '=' ]
  }

  /** The encoding, group by group. */
  function Encode(s: seq<bv8>): string {
    if s == [] then [] else Quartet(s[..Chunk(s)]) + Encode(s[Chunk(s)..])
  }

  /** The length of the first group. */
  function Chunk(s: seq<bv8>): (n: nat)
    ensures n <= |s| && n <= 3 && (s != [] ==> n >= 1)
  {
    if |s| < 3 then |s| else 3
  }

  // ----- the decoder -----

  function Bytes(v: bv8, w: bv8, x: bv8, y: bv8): (bv8, bv8, bv8) {
    ((v << 2) | (w >> 4), (w << 4) | (x >> 2), (x << 6) | y)
  }

  /** Four characters as one to three bytes; unused bits must be zero. */
  ghost function ReadQuartet(t: string): (r: Option<seq<bv8>>)
    requires |t| == 4
    ensures r.Some? ==> 1 <= |r.value| <= 3
  {
    var v, w, x, y := Value(t[0]), Value(t[1]), Value(t[2]), Value(t[3]);
    if v.None? || w.None? then None
    else if t[2] == '=' && t[3] == '=' then
      if w.value & 0xf != 0 then None else Some([Bytes(v.value, w.value, 0, 0).0])
    else if x.None? then None
    else if t[3] == '=' then
      if x.value & 3 != 0 then None
      else Some([Bytes(v.value, w.value, x.value, 0).0, Bytes(v.value, w.value, x.value, 0).1])
    else if y.None? then None
    else
      var bytes := Bytes(v.value, w.value, x.value, y.value);
      Some([bytes.0, bytes.1, bytes.2])
  }

  /** Padding is accepted in the last group only. */
  ghost function Decode(t: string): Option<seq<bv8>> {
    if t == [] then Some([])
    else if |t| < 4 then None
    else
      var first := ReadQuartet(t[..4]);
      if first.None? then None
      else if |t| == 4 then first
      else if |first.value| < 3 then None
      else
        var rest := Decode(t[4..]);
        if rest.None? then None else Some(first.value + rest.value)
  }

  // ----- the encoder and the decoder are inverse -----

  lemma GroupBytes(a: bv8, b: bv8, c: bv8)
    ensures var g := Group(a, b, c);
            Bytes(Sextet(g, 0), Sextet(g, 1), Sextet(g, 2), Sextet(g, 3)) == (a, b, c)
  {
  }

  lemma BytesGroup(v: bv8, w: bv8, x: bv8, y: bv8)
    requires v < 64 && w < 64 && x < 64 && y < 64
    ensures var (a, b, c) := Bytes(v, w, x, y);
            var g := Group(a, b, c);
            Sextet(g, 0) == v && Sextet(g, 1) == w && Sextet(g, 2) == x && Sextet(g, 3) == y
  {
  }

  lemma QuartetRoundTrip(s: seq<bv8>)
    requires 1 <= |s| <= 3
    ensures ReadQuartet(Quartet(s)) == Some(s)
  {
    var a, b, c := s[0], Pad(s, 1), Pad(s, 2);
    var g, t := Group(a, b, c), Quartet(s);
    LetterValue(Sextet(g, 0));
    LetterValue(Sextet(g, 1));
    LetterValue(Sextet(g, 2));
    LetterValue(Sextet(g, 3));
    GroupBytes(a, b, c);
    if |s| == 1 {
      UnusedBits(a, 0);
      assert ReadQuartet(t) == Some([a]) && s == [a];
    } else if |s| == 2 {
      UnusedBits(a, b);
      assert ReadQuartet(t) == Some([a, b]) && s == [a, b];
    } else {
      assert ReadQuartet(t) == Some([a, b, c]) && s == [a, b, c];
    }
  }

  /** Missing bytes leave zero bits behind. */
  lemma UnusedBits(a: bv8, b: bv8)
    ensures Sextet(Group(a, 0, 0), 1) & 0xf == 0 && Sextet(Group(a, 0, 0), 2) == 0 && Sextet(Group(a, 0, 0), 3) == 0
    ensures Sextet(Group(a, b, 0), 2) & 3 == 0 && Sextet(Group(a, b, 0), 3) == 0
  {
  }

  lemma PaddedBytes(v: bv8, w: bv8, x: bv8)
    requires v < 64 && w < 64 && x < 64
    ensures w & 0xf == 0 ==> Bytes(v, w, 0, 0).1 == 0 && Bytes(v, w, 0, 0).2 == 0
    ensures x & 3 == 0 ==> Bytes(v, w, x, 0).2 == 0
  {
  }

  lemma OneByte(v: bv8, w: bv8)
    requires v < 64 && w < 64 && w & 0xf == 0
    ensures Quartet([Bytes(v, w, 0, 0).0]) == [Letter(v), Letter(w), '=', '=']
  {
    BytesGroup(v, w, 0, 0);
    PaddedBytes(v, w, 0);
  }

  lemma TwoBytes(v: bv8, w: bv8, x: bv8)
    requires v < 64 && w < 64 && x < 64 && x & 3 == 0
    ensures Quartet([Bytes(v, w, x, 0).0, Bytes(v, w, x, 0).1]) == [Letter(v), Letter(w), Letter(x), '=']
  {
    BytesGroup(v, w, x, 0);
    PaddedBytes(v, w, x);
  }

  lemma ThreeBytes(v: bv8, w: bv8, x: bv8, y: bv8)
    requires v < 64 && w < 64 && x < 64 && y < 64
    ensures var b := Bytes(v, w, x, y);
            Quartet([b.0, b.1, b.2]) == [Letter(v), Letter(w), Letter(x), Letter(y)]
  {
    BytesGroup(v, w, x, y);
  }

  lemma ReadQuartetExact(t: string)
    requires |t| == 4 && ReadQuartet(t).Some?
    ensures Quartet(ReadQuartet(t).value) == t
  {
    ValueLetter(t[0]);
    ValueLetter(t[1]);
    var v, w, r := Value(t[0]).value, Value(t[1]).value, ReadQuartet(t).value;
    if t[2] == '=' && t[3] == '=' {
      OneByte(v, w);
      assert r == [Bytes(v, w, 0, 0).0];
    } else {
      ValueLetter(t[2]);
      var x := Value(t[2]).value;
      if t[3] == '=' {
        TwoBytes(v, w, x);
        assert r == [Bytes(v, w, x, 0).0, Bytes(v, w, x, 0).1];
      } else {
        ValueLetter(t[3]);
        var y := Value(t[3]).value;
        ThreeBytes(v, w, x, y);
        assert r == [Bytes(v, w, x, y).0, Bytes(v, w, x, y).1, Bytes(v, w, x, y).2];
      }
    }
    assert t == [t[0], t[1], t[2], t[3]];
  }

  /** Decoding undoes encoding, for every byte sequence. */
  lemma {:induction false} RoundTrip(s: seq<bv8>)
    ensures Decode(Encode(s)) == Some(s)
    decreases |s|
  {
    if s != [] {
      var n := Chunk(s);
      var first, rest := Quartet(s[..n]), Encode(s[n..]);
      QuartetRoundTrip(s[..n]);
      RoundTrip(s[n..]);
      assert Encode(s)[..4] == first && Encode(s)[4..] == rest;
      assert s == s[..n] + s[n..];
      assert s[n..] == [] ==> s[..n] == s && rest == [];
      assert s[n..] != [] ==> |rest| >= 4;
    }
  }

  /** And the decoder accepts nothing but encodings: a text decodes to `s` only if it is the encoding of `s`. */
  lemma {:induction false} DecodeExact(t: string)
    requires Decode(t).Some?
    ensures Encode(Decode(t).value) == t
    decreases |t|
  {
    if t != [] {
      ReadQuartetExact(t[..4]);
      assert t == t[..4] + t[4..];
      var first, all := ReadQuartet(t[..4]).value, Decode(t).value;
      if |t| > 4 {
        DecodeExact(t[4..]);
        assert all[..3] == first && all[3..] == Decode(t[4..]).value && Chunk(all) == 3;
      } else {
        assert all == first && all[..Chunk(all)] == all && all[Chunk(all)..] == [];
        assert Encode(all[Chunk(all)..]) == [] && t[..4] == t;
      }
    }
  }

  /** Four characters per started group of three bytes; padding at most in the last two of them. */
  lemma {:induction false} EncodeShape(s: seq<bv8>)
    ensures |Encode(s)| == 4 * ((|s| + 2) / 3)
    ensures forall i :: 0 <= i < |Encode(s)| && Encode(s)[i] == '=' ==> i >= |Encode(s)| - 2 && |s| % 3 != 0
    decreases |s|
  {
    if s != [] {
      QuartetPadding(s[..Chunk(s)]);
      EncodeShape(s[Chunk(s)..]);
    }
  }

  lemma QuartetPadding(s: seq<bv8>)
    requires 1 <= |s| <= 3
    ensures forall i :: 0 <= i < 4 ==> (Quartet(s)[i] == '=' <==> i > |s|)
  {
    var g := Group(s[0], Pad(s, 1), Pad(s, 2));
    LetterValue(Sextet(g, 0));
    LetterValue(Sextet(g, 1));
    LetterValue(Sextet(g, 2));
    LetterValue(Sextet(g, 3));
  }

  // ----- the loop -----

  lemma FirstShift(a: bv8, b: bv8, c: bv8)
    ensures (a >> 2) == Sextet(Group(a, b, c), 0)
  {
    assert Group(a, b, c) >> 18 == (a as bv24) >> 2;
    assert ((a as bv24) >> 2) & 0x3f == (a >> 2) as bv24;
  }

  lemma SecondShift(a: bv8, b: bv8, c: bv8)
    ensures (((a & 3) << 4) | (b >> 4)) == Sextet(Group(a, b, c), 1)
  {
  }

  lemma ThirdShift(a: bv8, b: bv8, c: bv8)
    ensures (((b & 0xf) << 2) | (c >> 6)) == Sextet(Group(a, b, c), 2)
  {
  }

  lemma FourthShift(a: bv8, b: bv8, c: bv8)
    ensures (c & 0x3f) == Sextet(Group(a, b, c), 3)
  {
  }

  /** One chunk, with the loop's own shifts and masks. */
  method PushChunk(out: string, chunk: seq<bv8>) returns (r: string)
    requires 1 <= |chunk| <= 3
    ensures r == out + Quartet(chunk)
  {
    var b0 := chunk[0];
    var b1 := if |chunk| > 1 then chunk[1] else 0;
    var b2 := if |chunk| > 2 then chunk[2] else 0;
    FirstShift(b0, b1, b2);
    SecondShift(b0, b1, b2);
    ThirdShift(b0, b1, b2);
    FourthShift(b0, b1, b2);
    r := out + [Letter(b0 >> 2)];
    r := r + [Letter(((b0 & 3) << 4) | (b1 >> 4))];
    r := r + [if |chunk| > 1 then Letter(((b1 & 0xf) << 2) | (b2 >> 6)) else '='];
    r := r + [if |chunk| > 2 then Letter(b2 & 0x3f) else '='];
  }

  /** Where the loop stands after one more chunk. */
  lemma NextChunk(bytes: seq<bv8>, i: nat, out: string)
    requires i < |bytes|
    ensures var n := Chunk(bytes[i..]);
            && i + n <= |bytes| && 1 <= n <= 3
            && out + Encode(bytes[i..]) == (out + Quartet(bytes[i..i + n])) + Encode(bytes[i + n..])
  {
    var rest := bytes[i..];
    var n := Chunk(rest);
    assert rest[..n] == bytes[i..i + n] && rest[n..] == bytes[i + n..];
    Associate(out, Quartet(rest[..n]), Encode(rest[n..]));
  }

  lemma Associate(a: string, b: string, c: string)
    ensures a + (b + c) == (a + b) + c
  {
  }

  method Base64Encode(bytes: seq<bv8>) returns (out: string)
    ensures out == Encode(bytes)
  {
    out := [];
    var i := 0;
    assert bytes[0..] == bytes;
    while i < |bytes|
      invariant 0 <= i <= |bytes|
      invariant out + Encode(bytes[i..]) == Encode(bytes)
    {
      NextChunk(bytes, i, out);
      var chunk := bytes[i..if i + 3 <= |bytes| then i + 3 else |bytes|];
      out := PushChunk(out, chunk);
      i := i + |chunk|;
    }
  }
}
