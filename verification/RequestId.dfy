/**
 The name from which the outbound dispatcher derives its UUIDv5 request id: batch, contact and attempt
 joined by colons.
 */
module RequestId {
  import opened Prelude

  datatype Attempt = Attempt(batchId: string, contactNumber: string, attemptNumber: string)

  function Join(a: string, b: string): string {
    a + [':'] + b
  }

  function Preimage(a: Attempt): string {
    Join(Join(a.batchId, a.contactNumber), a.attemptNumber)
  }

  /** The name fed to UUIDv5, or none where the function panics: an empty argument. */
  function Name(a: Attempt): Option<string> {
    if a.batchId == "" || a.contactNumber == "" || a.attemptNumber == "" then None else Some(Preimage(a))
  }

  /** There is a name exactly if no part is empty; it opens with the batch and ends with the attempt, each set off
      by a colon, with the contact between them. */
  lemma NameReads(a: Attempt)
    ensures Name(a).None? <==> |a.batchId| == 0 || |a.contactNumber| == 0 || |a.attemptNumber| == 0
    ensures Name(a).Some? ==>
              var n, b, c := Name(a).value, |a.batchId|, |a.contactNumber|;
              && |n| == b + 1 + c + 1 + |a.attemptNumber|
              && n[..b] == a.batchId && n[b] == ':' && n[b + 1..b + 1 + c] == a.contactNumber
              && n[b + 1 + c] == ':' && n[b + 1 + c + 1..] == a.attemptNumber
  {
  }

  predicate Decimal(s: string) {
    s != "" && forall i :: 0 <= i < |s| ==> '0' <= s[i] <= '9'
  }

  lemma ColonInside(s: string, a: string, t: string, b: string)
    requires Join(s, a) == Join(t, b)
    ensures |s| < |t| ==> ':' in a
  {
    if |s| < |t| {
      assert Join(t, b)[|t|] == ':' && Join(s, a)[|t|] == a[|t| - |s| - 1];
    }
  }

  /** The last colon of a joined name is the one before the attempt. */
  lemma LastColon(s: string, a: string, t: string, b: string)
    requires ':' !in a && ':' !in b && Join(s, a) == Join(t, b)
    ensures s == t && a == b
  {
    ColonInside(s, a, t, b);
    ColonInside(t, b, s, a);
    assert s == Join(s, a)[..|s|] && t == Join(t, b)[..|t|];
    assert a == Join(s, a)[|s| + 1..] && b == Join(t, b)[|t| + 1..];
  }

  /** `x` moves from the end of one batch id to the start of the other contact number. */
  ghost predicate Shifted(p: Attempt, q: Attempt) {
    exists x: string :: p.batchId == Join(q.batchId, x) && q.contactNumber == Join(x, p.contactNumber)
  }

  lemma JoinSplit(b: string, c: string, d: string, e: string)
    requires Join(b, c) == Join(d, e) && |b| > |d|
    ensures exists x: string :: b == Join(d, x) && e == Join(x, c)
  {
    var j, x := Join(b, c), b[|d| + 1..];
    assert j[|d|] == ':' && b[|d|] == j[|d|];
    assert b == j[..|b|] && d == Join(d, e)[..|d|] && d == b[..|d|];
    assert b == Join(d, x);
    assert e == Join(d, e)[|d| + 1..] && j[|d| + 1..] == Join(x, c);
  }

  lemma ShiftedCollide(p: Attempt, q: Attempt)
    requires p.attemptNumber == q.attemptNumber
    ensures Shifted(p, q) ==> Preimage(p) == Preimage(q)
  {
    if x: string :| p.batchId == Join(q.batchId, x) && q.contactNumber == Join(x, p.contactNumber) {
      assert Join(Join(q.batchId, x), p.contactNumber) == Join(q.batchId, Join(x, p.contactNumber));
    }
  }

  /**
   Exactly when two different attempts get the same name: same attempt number, and one batch id is the
   other followed by a colon and a text that opens the other contact number.
   */
  lemma NamesCollide(p: Attempt, q: Attempt)
    requires Decimal(p.attemptNumber) && Decimal(q.attemptNumber)
    ensures Preimage(p) == Preimage(q) <==>
            p == q || (p.attemptNumber == q.attemptNumber && (Shifted(p, q) || Shifted(q, p)))
  {
    if Preimage(p) == Preimage(q) {
      LastColon(Join(p.batchId, p.contactNumber), p.attemptNumber, Join(q.batchId, q.contactNumber), q.attemptNumber);
      if |p.batchId| > |q.batchId| {
        JoinSplit(p.batchId, p.contactNumber, q.batchId, q.contactNumber);
      } else if |q.batchId| > |p.batchId| {
        JoinSplit(q.batchId, q.contactNumber, p.batchId, p.contactNumber);
      } else {
        var j, k := Join(p.batchId, p.contactNumber), Join(q.batchId, q.contactNumber);
        assert p.batchId == j[..|p.batchId|] && q.batchId == k[..|q.batchId|];
        assert p.contactNumber == j[|p.batchId| + 1..] && q.contactNumber == k[|q.batchId| + 1..];
      }
    }
    if p.attemptNumber == q.attemptNumber {
      ShiftedCollide(p, q);
      ShiftedCollide(q, p);
    }
  }

  /** Without colons in the batch ids (or without colons in the contact numbers), distinct attempts feed
      distinct names to UUIDv5. */
  lemma NamesDistinct(p: Attempt, q: Attempt)
    requires Decimal(p.attemptNumber) && Decimal(q.attemptNumber)
    requires (':' !in p.batchId && ':' !in q.batchId) || (':' !in p.contactNumber && ':' !in q.contactNumber)
    requires Name(p).Some? && Name(p) == Name(q)
    ensures p == q
  {
    NamesCollide(p, q);
    assert forall a: string, b: string :: Join(a, b)[|a|] == ':' && ':' in Join(a, b);
  }

  /** Colons on both sides do collide. */
  lemma ColonsCollide()
    ensures var p, q := Attempt("a:b", "c", "1"), Attempt("a", "b:c", "1");
            p != q && Name(p).Some? && Name(p) == Name(q)
  {
    var p, q := Attempt("a:b", "c", "1"), Attempt("a", "b:c", "1");
    assert p.batchId == Join(q.batchId, "b") && q.contactNumber == Join("b", p.contactNumber);
    ShiftedCollide(p, q);
  }
}
