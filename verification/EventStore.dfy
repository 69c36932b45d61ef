/**
 Event writers. Each writer runs one transaction: take the transaction-scoped advisory lock on the
 hash of the engagement id, insert a row whose sequence is the largest committed one plus one, commit.
 Any number of transactions interleave, any of them may roll back at any point, and two engagements
 may hash to the same lock. A transaction reads only committed rows and its lock is released after
 its row became visible. `event_pk` comes from a sequence that a rollback does not give back.
 */
module EventStore {
  import opened Prelude
  import opened Fanout

  type TxId = nat

  /** What the writers depend on: `hashtext` of an engagement id, and each engagement's batch. */
  datatype Env = Env(lockKey: Uuid -> int, batchOf: Uuid -> Option<Uuid>)

  datatype Tx = Locked(engagementId: Uuid) | Inserted(row: Payload)

  function Target(tx: Tx): Uuid {
    match tx
    case Locked(e) => e
    case Inserted(row) => row.engagementId
  }

  /** `rows` are the committed events in commit order; `locks` maps a lock to the holding transaction. */
  datatype Store = Store(rows: seq<Payload>, nextPk: int, txs: map<TxId, Tx>, locks: map<int, TxId>)

  const EMPTY: Store := Store([], 1, map[], map[])

  datatype Step =
    | Lock(tx: TxId, engagementId: Uuid)
    | Insert(tx: TxId, organizationId: Uuid, eventType: int, traceparent: Option<string>)
    | Commit(tx: TxId)
    | Rollback(tx: TxId)

  /** `COALESCE(MAX(sequence), 0)` over the committed rows of one engagement. */
  function MaxSequence(rows: seq<Payload>, e: Uuid): int {
    if rows == [] then 0
    else
      var rest, last := MaxSequence(rows[..|rows| - 1], e), rows[|rows| - 1];
      if last.engagementId == e && last.sequence > rest then last.sequence else rest
  }

  function Release(env: Env, s: Store, t: TxId): Store
    requires t in s.txs
  {
    s.(txs := s.txs - {t}, locks := s.locks - {env.lockKey(Target(s.txs[t]))})
  }

  /** A step that is not enabled (a busy lock, a transaction in the wrong state) leaves the store alone. */
  function Apply(env: Env, s: Store, step: Step): Store {
    match step
    case Lock(t, e) =>
      if t in s.txs || env.lockKey(e) in s.locks then s
      else s.(txs := s.txs[t := Locked(e)], locks := s.locks[env.lockKey(e) := t])
    case Insert(t, org, ty, tp) =>
      if t in s.txs && s.txs[t].Locked? then
        var e := s.txs[t].engagementId;
        var row := Payload(e, org, env.batchOf(e), MaxSequence(s.rows, e) + 1, s.nextPk, ty, tp);
        s.(txs := s.txs[t := Inserted(row)], nextPk := s.nextPk + 1)
      else s
    case Commit(t) =>
      if t !in s.txs then s
      else if s.txs[t].Inserted? then Release(env, s, t).(rows := s.rows + [s.txs[t].row])
      else Release(env, s, t)
    case Rollback(t) =>
      if t in s.txs then Release(env, s, t) else s
  }

  function Run(env: Env, s: Store, steps: seq<Step>): Store {
    if steps == [] then s
    else Apply(env, Run(env, s, steps[..|steps| - 1]), steps[|steps| - 1])
  }

  /** The committed events of one engagement, in commit order. */
  function EventsOf(s: Store, e: Uuid): seq<Payload> {
    Select(Engagement(e), s.rows)
  }

  /** The committed sequences of `e` run 1, 2, 3, … and `event_pk` ascends with them. */
  predicate Gapless(rows: seq<Payload>, e: Uuid) {
    var events := Select(Engagement(e), rows);
    && (forall k :: 0 <= k < |events| ==> events[k].sequence == k + 1 && events[k].engagementId == e)
    && (forall j, k :: 0 <= j < k < |events| ==> events[j].eventPk < events[k].eventPk)
  }

  predicate LocksHeld(env: Env, s: Store) {
    && (forall t :: t in s.txs ==>
          env.lockKey(Target(s.txs[t])) in s.locks && s.locks[env.lockKey(Target(s.txs[t]))] == t)
    && (forall k :: k in s.locks ==> s.locks[k] in s.txs && env.lockKey(Target(s.txs[s.locks[k]])) == k)
  }

  /** An uncommitted row is the next one of its engagement. */
  predicate NextRow(env: Env, s: Store, row: Payload) {
    var events := EventsOf(s, row.engagementId);
    && row.sequence == |events| + 1
    && row.eventPk < s.nextPk
    && row.batchId == env.batchOf(row.engagementId)
    && forall k :: 0 <= k < |events| ==> events[k].eventPk < row.eventPk
  }

  ghost predicate Invariant(env: Env, s: Store) {
    && LocksHeld(env, s)
    && (forall e: Uuid :: Gapless(s.rows, e))
    && (forall k :: 0 <= k < |s.rows| ==>
          s.rows[k].eventPk < s.nextPk && s.rows[k].batchId == env.batchOf(s.rows[k].engagementId))
    && (forall t :: t in s.txs && s.txs[t].Inserted? ==> NextRow(env, s, s.txs[t].row))
  }

  lemma SelectMembers(t: Topic, s: seq<Payload>)
    ensures forall p :: p in Select(t, s) <==> p in s && Matches(t, p)
  {
    if s != [] {
      SelectMembers(t, s[..|s| - 1]);
      assert s == s[..|s| - 1] + [s[|s| - 1]];
    }
  }

  /** With gapless sequences the `MAX` that a writer reads is the number of committed events. */
  lemma MaxIsCount(rows: seq<Payload>, e: Uuid)
    requires Gapless(rows, e)
    ensures MaxSequence(rows, e) == |Select(Engagement(e), rows)|
  {
    if rows != [] {
      var init, last := rows[..|rows| - 1], rows[|rows| - 1];
      var all, some := Select(Engagement(e), rows), Select(Engagement(e), init);
      assert all == some || all == some + [last];
      assert Gapless(init, e) by {
        assert forall k :: 0 <= k < |some| ==> all[k] == some[k];
      }
      MaxIsCount(init, e);
      assert all != some ==> all[|some|] == last;
    }
  }

  /** Two open transactions never work on the same engagement, nor on two that share a lock. */
  lemma Exclusive(env: Env, s: Store, t: TxId, u: TxId)
    requires LocksHeld(env, s) && t in s.txs && u in s.txs && t != u
    ensures env.lockKey(Target(s.txs[t])) != env.lockKey(Target(s.txs[u]))
    ensures Target(s.txs[t]) != Target(s.txs[u])
  {
  }

  lemma LockStep(env: Env, s: Store, t: TxId, e: Uuid)
    requires Invariant(env, s)
    ensures Invariant(env, Apply(env, s, Lock(t, e)))
  {
  }

  lemma ReleaseStep(env: Env, s: Store, t: TxId)
    requires Invariant(env, s) && t in s.txs
    ensures Invariant(env, Release(env, s, t))
  {
    var q := Release(env, s, t);
    forall u | u in q.txs ensures env.lockKey(Target(q.txs[u])) in q.locks {
      Exclusive(env, s, t, u);
    }
  }

  lemma InsertStep(env: Env, s: Store, t: TxId, org: Uuid, ty: int, tp: Option<string>)
    requires Invariant(env, s)
    ensures Invariant(env, Apply(env, s, Insert(t, org, ty, tp)))
  {
    if t in s.txs && s.txs[t].Locked? {
      var e, q := s.txs[t].engagementId, Apply(env, s, Insert(t, org, ty, tp));
      assert Gapless(s.rows, e);
      MaxIsCount(s.rows, e);
      SelectMembers(Engagement(e), s.rows);
      var events := EventsOf(s, e);
      assert EventsOf(q, e) == events;
      forall k | 0 <= k < |events| ensures events[k].eventPk < s.nextPk {
        assert events[k] in s.rows;
      }
      assert NextRow(env, q, q.txs[t].row);
      forall u | u in q.txs && q.txs[u].Inserted? ensures NextRow(env, q, q.txs[u].row) {
        if u != t {
          assert NextRow(env, s, s.txs[u].row);
        }
      }
    }
  }

  lemma CommitStep(env: Env, s: Store, t: TxId)
    requires Invariant(env, s) && t in s.txs && s.txs[t].Inserted?
    ensures Invariant(env, Apply(env, s, Commit(t)))
  {
    var row, r := s.txs[t].row, Release(env, s, t);
    var q := Apply(env, s, Commit(t));
    ReleaseStep(env, s, t);
    assert NextRow(env, s, row);
    forall e: Uuid
      ensures EventsOf(q, e) == EventsOf(s, e) + if e == row.engagementId then [row] else []
      ensures Gapless(q.rows, e)
    {
      SelectAppend(Engagement(e), s.rows, row);
      assert Gapless(s.rows, e);
    }
    forall u | u in q.txs && q.txs[u].Inserted? ensures NextRow(env, q, q.txs[u].row) {
      Exclusive(env, s, t, u);
      assert NextRow(env, s, s.txs[u].row);
    }
  }

  lemma StepKeeps(env: Env, s: Store, step: Step)
    requires Invariant(env, s)
    ensures Invariant(env, Apply(env, s, step))
  {
    match step
    case Lock(t, e) => LockStep(env, s, t, e);
    case Insert(t, org, ty, tp) => InsertStep(env, s, t, org, ty, tp);
    case Commit(t) =>
      if t in s.txs {
        if s.txs[t].Inserted? { CommitStep(env, s, t); } else { ReleaseStep(env, s, t); }
      }
    case Rollback(t) => if t in s.txs { ReleaseStep(env, s, t); }
  }

  lemma {:induction false} RunKeeps(env: Env, s: Store, steps: seq<Step>)
    requires Invariant(env, s)
    ensures Invariant(env, Run(env, s, steps))
  {
    if steps != [] {
      RunKeeps(env, s, steps[..|steps| - 1]);
      StepKeeps(env, Run(env, s, steps[..|steps| - 1]), steps[|steps| - 1]);
    }
  }

  /**
   In every reachable state, whatever the interleaving, the rollbacks and the lock hash: each
   engagement's committed sequences are exactly 1..n, event_pk ascends with them, and a row about to
   commit clashes with no other row, committed or not (the unique constraint never fires).
   */
  lemma CommittedSequencesAreGapless(env: Env, steps: seq<Step>)
    ensures var s := Run(env, EMPTY, steps);
            && (forall e: Uuid :: Gapless(s.rows, e))
            && (forall t :: t in s.txs && s.txs[t].Inserted? ==>
                  && s.txs[t].row.sequence == |EventsOf(s, s.txs[t].row.engagementId)| + 1
                  && forall u :: u in s.txs && u != t ==> Target(s.txs[u]) != s.txs[t].row.engagementId)
  {
    RunKeeps(env, EMPTY, steps);
    var s := Run(env, EMPTY, steps);
    forall t | t in s.txs && s.txs[t].Inserted?
      ensures s.txs[t].row.sequence == |EventsOf(s, s.txs[t].row.engagementId)| + 1
    {
      assert NextRow(env, s, s.txs[t].row);
    }
  }

  /** A writer's transaction with no other statement in between. */
  function Written(env: Env, s: Store, t: TxId, e: Uuid, org: Uuid, ty: int, tp: Option<string>, last: Step): Store {
    Apply(env, Apply(env, Apply(env, s, Lock(t, e)), Insert(t, org, ty, tp)), last)
  }

  /**
   From every reachable state in which the engagement's lock is free, a writer that commits adds exactly one row:
   the next sequence of its engagement, and the next event_pk. One that rolls back leaves rows, locks and
   transactions as they were and gives its sequence, but not its event_pk, to the next writer.
   */
  lemma WriterEffect(env: Env, before: seq<Step>, s: Store, t: TxId, e: Uuid, org: Uuid, ty: int, tp: Option<string>)
    requires s == Run(env, EMPTY, before) && t !in s.txs && env.lockKey(e) !in s.locks
    ensures var row := Payload(e, org, env.batchOf(e), |EventsOf(s, e)| + 1, s.nextPk, ty, tp);
            && Written(env, s, t, e, org, ty, tp, Commit(t)) == s.(rows := s.rows + [row], nextPk := s.nextPk + 1)
            && Written(env, s, t, e, org, ty, tp, Rollback(t)) == s.(nextPk := s.nextPk + 1)
  {
    RunKeeps(env, EMPTY, before);
    assert Gapless(s.rows, e);
    MaxIsCount(s.rows, e);
    var q := Apply(env, Apply(env, s, Lock(t, e)), Insert(t, org, ty, tp));
    assert q.txs - {t} == s.txs && q.locks - {env.lockKey(e)} == s.locks;
  }

  /** One step shows at most one new event per engagement, after all those already visible. */
  lemma StepVisible(env: Env, s: Store, step: Step, e: Uuid)
    ensures EventsOf(s, e) <= EventsOf(Apply(env, s, step), e)
  {
    if step.Commit? && step.tx in s.txs && s.txs[step.tx].Inserted? {
      SelectAppend(Engagement(e), s.rows, s.txs[step.tx].row);
    }
  }

  lemma {:induction false} VisibleExtends(env: Env, s: Store, steps: seq<Step>, e: Uuid)
    ensures EventsOf(s, e) <= EventsOf(Run(env, s, steps), e)
  {
    if steps != [] {
      var init := steps[..|steps| - 1];
      VisibleExtends(env, s, init, e);
      StepVisible(env, Run(env, s, init), steps[|steps| - 1], e);
    }
  }

  /**
   Sequences become visible in order: an event of `e` that a reader does not see yet in a reachable
   state, and sees after any further steps, has a larger sequence and a larger event_pk than every
   event of `e` that it saw. So nothing ever appears behind a cursor.
   */
  lemma VisibleInOrder(env: Env, before: seq<Step>, after: seq<Step>, e: Uuid, seen: Payload, later: Payload)
    requires var s := Run(env, EMPTY, before);
             seen in EventsOf(s, e) && later !in EventsOf(s, e) && later in EventsOf(Run(env, s, after), e)
    ensures seen.sequence < later.sequence && seen.eventPk < later.eventPk
  {
    var s := Run(env, EMPTY, before);
    RunKeeps(env, EMPTY, before);
    RunKeeps(env, s, after);
    VisibleExtends(env, s, after, e);
    var seenThen, seenNow := EventsOf(s, e), EventsOf(Run(env, s, after), e);
    assert Gapless(Run(env, s, after).rows, e);
    var j :| 0 <= j < |seenThen| && seenThen[j] == seen;
    var k :| 0 <= k < |seenNow| && seenNow[k] == later;
    assert seenNow[j] == seen && k >= |seenThen|;
  }
}
