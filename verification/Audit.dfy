/**
 The two-phase audit writer. Phase 1 inserts a pending row inside the caller's transaction; phase 2
 updates outcome, finalisation time and error code by audit id, outside any transaction, with up to
 five attempts. The update has no guard on the row's state, and an attempt may report an error although
 its update was applied. Transactions and finalisations interleave freely.
 */
module Audit {
  import opened Prelude
  import opened Retry

  type AuditId = nat
  type TxId = nat

  datatype AuditOutcome = Pending | Success | ClientError | ServerError

  datatype Row = Row(outcome: AuditOutcome, finalizedAt: Option<int>, errorCode: Option<string>)

  const INSERTED := Row(Pending, None, None)

  const MAX_ATTEMPTS: nat := 5
  const FIRST_DELAY: nat := 50

  /** The UPDATE: it touches only the row of `id`, and none if there is none. */
  function Updated(rows: map<AuditId, Row>, id: AuditId, outcome: AuditOutcome, errorCode: Option<string>,
                   now: int): map<AuditId, Row> {
    if id in rows then rows[id := Row(outcome, Some(now), errorCode)] else rows
  }

  datatype Fate = Fate(applied: bool, reportsError: bool)

  // ----- one finalisation -----

  /** The rows after the first `n` attempts of a finalisation. */
  function AfterAttempts(rows: map<AuditId, Row>, id: AuditId, outcome: AuditOutcome, errorCode: Option<string>,
                         fates: nat -> Fate, clock: nat -> int, n: nat): map<AuditId, Row> {
    if n == 0 then rows
    else
      var r := AfterAttempts(rows, id, outcome, errorCode, fates, clock, n - 1);
      if fates(n - 1).applied then Updated(r, id, outcome, errorCode, clock(n - 1)) else r
  }

  /** The last of the first `n` attempts whose update was applied. */
  function LastApplied(fates: nat -> Fate, n: nat): (k: Option<nat>)
    ensures k.Some? ==> k.value < n && fates(k.value).applied
    ensures forall l :: (if k.Some? then k.value + 1 else 0) <= l < n ==> !fates(l).applied
  {
    if n == 0 then None else if fates(n - 1).applied then Some(n - 1) else LastApplied(fates, n - 1)
  }

  /** Retrying an update that was applied and reported as failed is harmless: only the last applied
      attempt shows, and no attempt adds a row or touches another one. */
  lemma {:induction false} OnlyTheLastApplicationShows(
    rows: map<AuditId, Row>, id: AuditId, outcome: AuditOutcome, errorCode: Option<string>,
    fates: nat -> Fate, clock: nat -> int, n: nat)
    ensures var k := LastApplied(fates, n);
            AfterAttempts(rows, id, outcome, errorCode, fates, clock, n) ==
            if k.None? then rows else Updated(rows, id, outcome, errorCode, clock(k.value))
  {
    if n > 0 {
      OnlyTheLastApplicationShows(rows, id, outcome, errorCode, fates, clock, n - 1);
    }
  }

  class AuditDatabase {
    var rows: map<AuditId, Row>
    var failures: nat

    constructor ()
      ensures rows == map[] && failures == 0
    {
      rows, failures := map[], 0;
    }

    /**
     Phase 2: at most five attempts, each but the last failed, sleeping 50 ms doubled each time between
     them (750 ms in all); the failure counter moves exactly when the fifth attempt fails too.
     */
    method Phase2Finalize(id: AuditId, outcome: AuditOutcome, errorCode: Option<string>,
                          fates: nat -> Fate, clock: nat -> int)
      returns (attempts: nat, slept: nat)
      modifies this
      ensures 1 <= attempts <= 5
      ensures forall k :: 0 <= k < attempts - 1 ==> fates(k).reportsError
      ensures attempts == 5 || !fates(attempts - 1).reportsError
      ensures rows == AfterAttempts(old(rows), id, outcome, errorCode, fates, clock, attempts)
      ensures failures == old(failures) + if fates(attempts - 1).reportsError then 1 else 0
      ensures slept == 50 * (Pow2(attempts - 1) - 1) && slept <= 750
    {
      var delay := FIRST_DELAY;
      attempts, slept := 0, 0;
      while attempts < MAX_ATTEMPTS
        invariant attempts < MAX_ATTEMPTS
        invariant forall k :: 0 <= k < attempts ==> fates(k).reportsError
        invariant rows == AfterAttempts(old(rows), id, outcome, errorCode, fates, clock, attempts)
        invariant failures == old(failures)
        invariant delay == FIRST_DELAY * Pow2(attempts) && slept == FIRST_DELAY * (Pow2(attempts) - 1)
        decreases MAX_ATTEMPTS - attempts
      {
        var fate := fates(attempts);
        if fate.applied {
          rows := Updated(rows, id, outcome, errorCode, clock(attempts));
        }
        attempts := attempts + 1;
        AtMost750(attempts);
        if !fate.reportsError {
          return;
        }
        if attempts < MAX_ATTEMPTS {
          slept := slept + delay;
          delay := delay * 2;
        } else {
          failures := failures + 1;
          return;
        }
      }
    }
  }

  lemma AtMost750(n: nat)
    requires 1 <= n <= MAX_ATTEMPTS
    ensures FIRST_DELAY * (Pow2(n - 1) - 1) <= 750
  {
    assert Pow2(0) == 1 && Pow2(1) == 2 && Pow2(2) == 4 && Pow2(3) == 8 && Pow2(4) == 16;
    assert n == 1 || n == 2 || n == 3 || n == 4 || n == 5;
  }

  // ----- transactions and finalisations together -----

  datatype Finalisation = Finalisation(
    auditId: AuditId, outcome: AuditOutcome, errorCode: Option<string>, attempts: nat, ended: bool, exhausted: bool)

  /** An update that reached a visible row. */
  datatype Update = Update(auditId: AuditId, outcome: AuditOutcome, errorCode: Option<string>, now: int)

  /** `open` maps a running transaction to the rows it inserted; `broken` are those in which an insert failed
      and which can no longer commit. `inserts`, `committed`, `rolledBack` and `updates` only grow: they are
      the history. */
  datatype State = State(
    rows: map<AuditId, Row>,
    open: map<TxId, set<AuditId>>,
    broken: set<TxId>,
    inserts: set<(TxId, AuditId)>,
    committed: set<TxId>,
    rolledBack: set<TxId>,
    updates: seq<Update>,
    finalisations: seq<Finalisation>,
    failures: nat)

  const EMPTY := State(map[], map[], {}, {}, {}, {}, [], [], 0)

  datatype Step =
    | BeginTx(tx: TxId)
    | Phase1(tx: TxId, auditId: AuditId, databaseFails: bool)
    | Commit(tx: TxId)
    | Rollback(tx: TxId)
    | Phase2(auditId: AuditId, outcome: AuditOutcome, errorCode: Option<string>)
    | Attempt(finalisation: nat, now: int, fate: Fate)

  /** The id is taken by a visible row or by an uncommitted insert. */
  predicate Taken(s: State, id: AuditId) {
    id in s.rows || exists t :: t in s.open && id in s.open[t]
  }

  /** A transaction that ends without committing. */
  function Undone(s: State, t: TxId): State {
    s.(open := s.open - {t}, broken := s.broken - {t}, rolledBack := s.rolledBack + {t})
  }

  /** A finalisation after one more attempt: it ends on success, or exhausted after the fifth failure. */
  function Tried(f: Finalisation, failed: bool): Finalisation {
    var last := f.attempts + 1 == MAX_ATTEMPTS;
    f.(attempts := f.attempts + 1, ended := !failed || last, exhausted := failed && last)
  }

  function Apply(s: State, step: Step): State {
    match step
    case BeginTx(t) =>
      if t in s.open || t in s.committed || t in s.rolledBack then s else s.(open := s.open[t := {}])
    case Phase1(t, id, fails) =>
      if t !in s.open then s
      else if fails || t in s.broken || Taken(s, id) then
        s.(failures := s.failures + 1, broken := s.broken + {t})
      else s.(open := s.open[t := s.open[t] + {id}], inserts := s.inserts + {(t, id)})
    case Commit(t) =>
      if t !in s.open then s
      else if t in s.broken then Undone(s, t)
      else
        s.(open := s.open - {t}, committed := s.committed + {t},
           rows := s.rows + map id | id in s.open[t] :: INSERTED)
    case Rollback(t) => if t !in s.open then s else Undone(s, t)
    case Phase2(id, o, code) => s.(finalisations := s.finalisations + [Finalisation(id, o, code, 0, false, false)])
    case Attempt(n, now, fate) =>
      if n >= |s.finalisations| || s.finalisations[n].ended then s
      else
        var f, g := s.finalisations[n], Tried(s.finalisations[n], fate.reportsError);
        s.(rows := if fate.applied then Updated(s.rows, f.auditId, f.outcome, f.errorCode, now) else s.rows,
           updates := if fate.applied && f.auditId in s.rows
                      then s.updates + [Update(f.auditId, f.outcome, f.errorCode, now)] else s.updates,
           finalisations := s.finalisations[n := g],
           failures := s.failures + if g.exhausted then 1 else 0)
  }

  function Run(s: State, steps: seq<Step>): State {
    if steps == [] then s else Apply(Run(s, steps[..|steps| - 1]), steps[|steps| - 1])
  }

  function Exhausted(fs: seq<Finalisation>): nat {
    if fs == [] then 0 else Exhausted(fs[..|fs| - 1]) + if fs[|fs| - 1].exhausted then 1 else 0
  }

  predicate FinalisationOk(f: Finalisation) {
    && f.attempts <= MAX_ATTEMPTS
    && (f.attempts == MAX_ATTEMPTS ==> f.ended)
    && (f.exhausted ==> f.ended && f.attempts == MAX_ATTEMPTS)
  }

  /** The insert fails: the database refuses it, or the id is taken, or an earlier one of its transaction failed. */
  predicate InsertFails(s: State, failed: set<TxId>, step: Step)
    requires step.Phase1?
  {
    step.tx in s.open && (step.databaseFails || step.tx in failed || Taken(s, step.auditId))
  }

  /** The transactions of a run in which an insert failed. */
  function FailedTxs(steps: seq<Step>): set<TxId> {
    if steps == [] then {}
    else
      var failed, last := FailedTxs(steps[..|steps| - 1]), steps[|steps| - 1];
      if last.Phase1? && InsertFails(Run(EMPTY, steps[..|steps| - 1]), failed, last) then failed + {last.tx} else failed
  }

  /** How many inserts of a run failed. */
  function FailedInserts(steps: seq<Step>): nat {
    if steps == [] then 0
    else
      var init, last := steps[..|steps| - 1], steps[|steps| - 1];
      FailedInserts(init) + if last.Phase1? && InsertFails(Run(EMPTY, init), FailedTxs(init), last) then 1 else 0
  }

  /** The inserts of a run that did not fail. */
  function Inserted(steps: seq<Step>): set<(TxId, AuditId)> {
    if steps == [] then {}
    else
      var init, last := steps[..|steps| - 1], steps[|steps| - 1];
      var s := Run(EMPTY, init);
      Inserted(init) + if last.Phase1? && last.tx in s.open && !InsertFails(s, FailedTxs(init), last)
                       then {(last.tx, last.auditId)} else {}
  }

  /** The transactions of a run that committed: running ones, no insert of which had failed. */
  function Committed(steps: seq<Step>): set<TxId> {
    if steps == [] then {}
    else
      var init, last := steps[..|steps| - 1], steps[|steps| - 1];
      Committed(init) + if last.Commit? && last.tx in Run(EMPTY, init).open && last.tx !in FailedTxs(init)
                        then {last.tx} else {}
  }

  /** The running transactions that a run rolled back. */
  function RolledBack(steps: seq<Step>): set<TxId> {
    if steps == [] then {}
    else
      var init, last := steps[..|steps| - 1], steps[|steps| - 1];
      RolledBack(init) + if last.Rollback? && last.tx in Run(EMPTY, init).open then {last.tx} else {}
  }

  /** A transaction is broken exactly while it runs after a failed insert. */
  ghost predicate Broken(s: State, failed: set<TxId>) {
    && (forall t :: t in s.open ==> (t in s.broken <==> t in failed))
    && (forall t :: t in s.broken ==> t in s.open)
    && (forall t :: t in failed ==> t in s.open || t in s.rolledBack)
  }

  lemma StepBreaks(s: State, failed: set<TxId>, step: Step)
    requires Broken(s, failed) && forall t :: t in s.open ==> t !in s.rolledBack
    ensures Broken(Apply(s, step), if step.Phase1? && InsertFails(s, failed, step) then failed + {step.tx} else failed)
  {
  }

  lemma StepHistory(s: State, failed: set<TxId>, step: Step)
    requires Broken(s, failed)
    ensures var q := Apply(s, step);
            var fails := step.Phase1? && InsertFails(s, failed, step);
            && q.inserts == s.inserts +
               (if step.Phase1? && step.tx in s.open && !fails then {(step.tx, step.auditId)} else {})
            && q.rolledBack >= s.rolledBack + (if step.Rollback? && step.tx in s.open then {step.tx} else {})
            && q.committed == s.committed +
               (if step.Commit? && step.tx in s.open && step.tx !in failed then {step.tx} else {})
  {
  }

  predicate Counted(s: State, failedInserts: nat) {
    && s.failures == failedInserts + Exhausted(s.finalisations)
    && forall n :: 0 <= n < |s.finalisations| ==> FinalisationOk(s.finalisations[n])
  }

  /** Where each insert ended up. */
  ghost predicate Visible(s: State) {
    && (forall id :: id in s.rows ==> exists t :: (t, id) in s.inserts && t in s.committed)
    && (forall t, id :: (t, id) in s.inserts ==>
          || (t in s.committed && id in s.rows)
          || (t in s.open && id in s.open[t])
          || t in s.rolledBack)
    && (forall t, id :: t in s.open && id in s.open[t] ==> (t, id) in s.inserts && id !in s.rows)
    && (forall t, u, id :: t in s.open && u in s.open && id in s.open[t] && id in s.open[u] ==> t == u)
    && (forall t :: t in s.open ==> t !in s.committed && t !in s.rolledBack)
    && (forall t :: t in s.committed ==> t !in s.rolledBack)
  }

  /** The last update that reached the row of `id`. */
  function LastUpdate(updates: seq<Update>, id: AuditId): Option<Update> {
    if updates == [] then None
    else if updates[|updates| - 1].auditId == id then Some(updates[|updates| - 1])
    else LastUpdate(updates[..|updates| - 1], id)
  }

  /** What a row holds after its last update `u`. */
  function RowAfter(u: Option<Update>): Row {
    match u
    case None => INSERTED
    case Some(u) => Row(u.outcome, Some(u.now), u.errorCode)
  }

  ghost predicate Written(rows: map<AuditId, Row>, updates: seq<Update>) {
    && (forall id :: id in rows ==> rows[id] == RowAfter(LastUpdate(updates, id)))
    && (forall id :: id !in rows ==> LastUpdate(updates, id) == None)
  }

  lemma ExhaustedUpdate(fs: seq<Finalisation>, n: nat, f: Finalisation)
    requires n < |fs| && !fs[n].exhausted
    ensures Exhausted(fs[n := f]) == Exhausted(fs) + if f.exhausted then 1 else 0
  {
    if n == |fs| - 1 {
      assert fs[n := f][..|fs| - 1] == fs[..|fs| - 1];
    } else {
      ExhaustedUpdate(fs[..|fs| - 1], n, f);
      assert fs[n := f][..|fs| - 1] == fs[..|fs| - 1][n := f];
    }
  }

  lemma ExhaustedOn(fs: seq<Finalisation>, f: Finalisation)
    ensures Exhausted(fs + [f]) == Exhausted(fs) + if f.exhausted then 1 else 0
  {
    assert (fs + [f])[..|fs|] == fs;
  }

  lemma AttemptCounts(s: State, k: nat, n: nat, now: int, fate: Fate)
    requires Counted(s, k) && n < |s.finalisations| && !s.finalisations[n].ended
    ensures Counted(Apply(s, Attempt(n, now, fate)), k)
  {
    assert FinalisationOk(s.finalisations[n]);
    ExhaustedUpdate(s.finalisations, n, Tried(s.finalisations[n], fate.reportsError));
  }

  lemma Phase2Counts(s: State, k: nat, id: AuditId, o: AuditOutcome, code: Option<string>)
    requires Counted(s, k)
    ensures Counted(Apply(s, Phase2(id, o, code)), k)
  {
    ExhaustedOn(s.finalisations, Finalisation(id, o, code, 0, false, false));
  }

  lemma StepCounts(s: State, k: nat, failed: set<TxId>, step: Step)
    requires Counted(s, k) && Broken(s, failed)
    ensures Counted(Apply(s, step), k + if step.Phase1? && InsertFails(s, failed, step) then 1 else 0)
  {
    match step
    case Phase2(id, o, code) => Phase2Counts(s, k, id, o, code);
    case Attempt(n, now, fate) =>
      if n < |s.finalisations| && !s.finalisations[n].ended { AttemptCounts(s, k, n, now, fate); }
    case _ =>
  }

  lemma CommitVisible(s: State, t: TxId)
    requires Visible(s) && t in s.open && t !in s.broken
    ensures Visible(Apply(s, Commit(t)))
  {
    var q := Apply(s, Commit(t));
    forall id | id in q.rows ensures exists t :: (t, id) in q.inserts && t in q.committed {
      if id in s.rows {
        var u :| (u, id) in s.inserts && u in s.committed;
        assert (u, id) in q.inserts && u in q.committed;
      } else {
        assert (t, id) in q.inserts && t in q.committed;
      }
    }
    forall u, id | u in q.open && id in q.open[u] ensures id !in q.rows {
      assert (u, id) in s.inserts;
    }
  }

  lemma InsertVisible(s: State, t: TxId, id: AuditId, fails: bool)
    requires Visible(s)
    ensures Visible(Apply(s, Phase1(t, id, fails)))
  {
  }

  lemma UndoneVisible(s: State, t: TxId)
    requires Visible(s) && t in s.open
    ensures Visible(Undone(s, t))
  {
  }

  lemma StepVisible(s: State, step: Step)
    requires Visible(s)
    ensures Visible(Apply(s, step))
  {
    match step
    case Phase1(t, id, fails) => InsertVisible(s, t, id, fails);
    case Commit(t) => if t in s.open { if t in s.broken { UndoneVisible(s, t); } else { CommitVisible(s, t); } }
    case Rollback(t) => if t in s.open { UndoneVisible(s, t); }
    case _ =>
  }

  lemma LastUpdateOn(updates: seq<Update>, u: Update, id: AuditId)
    ensures LastUpdate(updates + [u], id) == if u.auditId == id then Some(u) else LastUpdate(updates, id)
  {
    assert (updates + [u])[..|updates|] == updates;
  }

  lemma UpdateWrites(rows: map<AuditId, Row>, updates: seq<Update>, u: Update)
    requires Written(rows, updates) && u.auditId in rows
    ensures Written(Updated(rows, u.auditId, u.outcome, u.errorCode, u.now), updates + [u])
  {
    forall id: AuditId
      ensures LastUpdate(updates + [u], id) == if u.auditId == id then Some(u) else LastUpdate(updates, id)
    {
      LastUpdateOn(updates, u, id);
    }
  }

  lemma CommitWrites(rows: map<AuditId, Row>, updates: seq<Update>, ids: set<AuditId>)
    requires Written(rows, updates) && forall id :: id in ids ==> id !in rows
    ensures Written(rows + map id | id in ids :: INSERTED, updates)
  {
  }

  lemma StepWrites(s: State, step: Step)
    requires Visible(s) && Written(s.rows, s.updates)
    ensures var q := Apply(s, step); Written(q.rows, q.updates)
  {
    match step
    case Commit(t) => if t in s.open { CommitWrites(s.rows, s.updates, s.open[t]); }
    case Attempt(n, now, fate) =>
      if n < |s.finalisations| && s.finalisations[n].auditId in s.rows {
        var f := s.finalisations[n];
        UpdateWrites(s.rows, s.updates, Update(f.auditId, f.outcome, f.errorCode, now));
      }
    case _ =>
  }

  lemma {:induction false} RunKeeps(steps: seq<Step>)
    ensures var s := Run(EMPTY, steps);
            && Broken(s, FailedTxs(steps)) && Visible(s) && Written(s.rows, s.updates)
            && Counted(s, FailedInserts(steps))
  {
    if steps != [] {
      var init, last := steps[..|steps| - 1], steps[|steps| - 1];
      RunKeeps(init);
      var s, failed := Run(EMPTY, init), FailedTxs(init);
      StepBreaks(s, failed, last);
      StepCounts(s, FailedInserts(init), failed, last);
      StepVisible(s, last);
      StepWrites(s, last);
    }
  }

  lemma {:induction false} RunHistory(steps: seq<Step>)
    ensures Run(EMPTY, steps).inserts == Inserted(steps) && Run(EMPTY, steps).committed == Committed(steps)
    ensures RolledBack(steps) <= Run(EMPTY, steps).rolledBack
  {
    if steps != [] {
      var init := steps[..|steps| - 1];
      RunHistory(init);
      RunKeeps(init);
      StepHistory(Run(EMPTY, init), FailedTxs(init), steps[|steps| - 1]);
    }
  }

  /**
   Over every run: a row is visible if and only if some transaction that inserted it committed (so a
   rolled-back insert leaves nothing); it holds what its last applied update wrote, or is as inserted if
   there was none; no transaction commits after one of its inserts failed or after it was rolled back; and
   the failure counter is the number of inserts that failed plus that of finalisations whose five attempts
   all failed.
   */
  lemma AuditTrail(steps: seq<Step>)
    ensures var s := Run(EMPTY, steps);
            && (forall id :: id in s.rows <==> exists t :: (t, id) in Inserted(steps) && t in Committed(steps))
            && (forall id :: id in s.rows ==> s.rows[id] == RowAfter(LastUpdate(s.updates, id)))
            && Committed(steps) !! FailedTxs(steps) && Committed(steps) !! RolledBack(steps)
            && s.failures == FailedInserts(steps) + Exhausted(s.finalisations)
            && (forall n :: 0 <= n < |s.finalisations| ==> s.finalisations[n].attempts <= 5)
  {
    RunKeeps(steps);
    RunHistory(steps);
    var s := Run(EMPTY, steps);
    forall n | 0 <= n < |s.finalisations| ensures s.finalisations[n].attempts <= 5 {
      assert FinalisationOk(s.finalisations[n]);
    }
  }

  /**
   A visible row is pending exactly while it has no finalisation time, if and only if the last update
   applied to it, if any, was not itself `Pending`.
   */
  lemma PendingExact(steps: seq<Step>, id: AuditId)
    requires id in Run(EMPTY, steps).rows
    ensures var s := Run(EMPTY, steps);
            var last := LastUpdate(s.updates, id);
            (s.rows[id].outcome.Pending? <==> s.rows[id].finalizedAt.None?) <==>
            (last.None? || !last.value.outcome.Pending?)
  {
    RunKeeps(steps);
  }

  lemma FirstInsert(id: AuditId)
    ensures var s := Apply(Apply(EMPTY, BeginTx(0)), Phase1(0, id, false));
            s.open == map[0 := {id}] && s.broken == {} && s.rows == map[] && s.finalisations == []
  {
    var begun := Apply(EMPTY, BeginTx(0));
    assert begun == EMPTY.(open := map[0 := {}]);
    assert !Taken(begun, id);
    assert {} + {id} == {id};
  }

  /** A run that makes one pending row visible. */
  lemma PendingRow(id: AuditId) returns (steps: seq<Step>)
    ensures var s := Run(EMPTY, steps); s.rows == map[id := INSERTED] && s.finalisations == []
  {
    FirstInsert(id);
    RunOn(EMPTY, [], BeginTx(0));
    RunOn(EMPTY, [] + [BeginTx(0)], Phase1(0, id, false));
    steps := [] + [BeginTx(0)] + [Phase1(0, id, false)];
    RunOn(EMPTY, steps, Commit(0));
    steps := steps + [Commit(0)];
  }

  /** A run that leaves a row pending with a finalisation time: insert, commit, finalise as pending. */
  lemma FinalisedAsPending(id: AuditId, now: int) returns (steps: seq<Step>)
    ensures var s := Run(EMPTY, steps);
            id in s.rows && s.rows[id].outcome.Pending? && s.rows[id].finalizedAt == Some(now)
  {
    steps := PendingRow(id);
    RunOn(EMPTY, steps, Phase2(id, Pending, None));
    steps := steps + [Phase2(id, Pending, None)];
    assert Run(EMPTY, steps).finalisations == [Finalisation(id, Pending, None, 0, false, false)];
    RunOn(EMPTY, steps, Attempt(0, now, Fate(true, false)));
    OneAttempt(Run(EMPTY, steps), 0, now, Fate(true, false));
    steps := steps + [Attempt(0, now, Fate(true, false))];
  }

  // ----- a finalisation among other steps is the retry loop -----

  /** The first `k` attempts of finalisation `n`, one after another. */
  function AttemptsOf(n: nat, fates: nat -> Fate, clock: nat -> int, k: nat): seq<Step> {
    if k == 0 then [] else AttemptsOf(n, fates, clock, k - 1) + [Attempt(n, clock(k - 1), fates(k - 1))]
  }

  lemma OneAttempt(s: State, n: nat, now: int, fate: Fate)
    requires n < |s.finalisations| && !s.finalisations[n].ended
    ensures var q, f := Apply(s, Attempt(n, now, fate)), s.finalisations[n];
            && q.rows == (if fate.applied then Updated(s.rows, f.auditId, f.outcome, f.errorCode, now) else s.rows)
            && |q.finalisations| == |s.finalisations| && q.finalisations[n] == Tried(f, fate.reportsError)
            && q.failures == s.failures + if Tried(f, fate.reportsError).exhausted then 1 else 0
  {
  }

  lemma RunOn(s: State, steps: seq<Step>, step: Step)
    ensures Run(s, steps + [step]) == Apply(Run(s, steps), step)
  {
    assert (steps + [step])[..|steps|] == steps;
  }

  /** Where the finalisation `f` is after `k` attempts. */
  function FinalisationAfter(f: Finalisation, fates: nat -> Fate, k: nat): Finalisation {
    if k == 0 then f
    else
      var failed := fates(k - 1).reportsError;
      f.(attempts := k, ended := !failed || k == MAX_ATTEMPTS, exhausted := failed && k == MAX_ATTEMPTS)
  }

  lemma TriedAfter(f: Finalisation, fates: nat -> Fate, k: nat)
    requires f.attempts == 0 && !f.ended && !f.exhausted && k < MAX_ATTEMPTS
    requires k > 0 ==> fates(k - 1).reportsError
    ensures var g := FinalisationAfter(f, fates, k);
            !g.ended && !g.exhausted && Tried(g, fates(k).reportsError) == FinalisationAfter(f, fates, k + 1)
  {
  }

  /**
   The steps of one finalisation do what `Phase2Finalize` does: after `k` attempts of which all but the
   last reported an error, the rows are those of the retry loop, the finalisation has ended exactly when
   the loop returns, and the failure counter has moved exactly when the fifth attempt failed too.
   */
  lemma {:induction false} FinalisationsAreRetries(s: State, n: nat, f: Finalisation, fates: nat -> Fate,
                                                   clock: nat -> int, k: nat)
    requires n < |s.finalisations| && s.finalisations[n] == f
    requires f.attempts == 0 && !f.ended && !f.exhausted && k <= MAX_ATTEMPTS
    requires forall j :: 0 <= j < k - 1 ==> fates(j).reportsError
    ensures var q := Run(s, AttemptsOf(n, fates, clock, k));
            && q.rows == AfterAttempts(s.rows, f.auditId, f.outcome, f.errorCode, fates, clock, k)
            && |q.finalisations| == |s.finalisations| && q.finalisations[n] == FinalisationAfter(f, fates, k)
            && q.failures == s.failures + if FinalisationAfter(f, fates, k).exhausted then 1 else 0
  {
    if k > 0 {
      FinalisationsAreRetries(s, n, f, fates, clock, k - 1);
      var init := AttemptsOf(n, fates, clock, k - 1);
      RunOn(s, init, Attempt(n, clock(k - 1), fates(k - 1)));
      TriedAfter(f, fates, k - 1);
      OneAttempt(Run(s, init), n, clock(k - 1), fates(k - 1));
    }
  }
}
