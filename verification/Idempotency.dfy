/**
 The AIP-155 flow of a mutating request: select the row of (organisation, request id); if there is one
 compare hashes and answer replay or conflict; if there is none insert on conflict do nothing, and when
 another request won go back to the select. Any number of callers interleave at these statements. An
 insert waits for a concurrent uncommitted one on the same key; transactions may roll back; statuses
 change at any time; rows are not deleted.
 */
module Idempotency {
  import opened Prelude
  import opened CanonicalJson

  /** A digest; SHA-256 is a function parameter. */
  type Digest = nat

  /** The hash of the canonical text of a request. */
  function CanonicalHash(sha: string -> Digest): Fields -> Digest {
    f => sha(CanonicalText(f))
  }

  /** The canonical texts of two requests do not collide: they have one digest only if they are one text. */
  predicate Apart(sha: string -> Digest, f: Fields, g: Fields) {
    sha(CanonicalText(f)) == sha(CanonicalText(g)) ==> CanonicalText(f) == CanonicalText(g)
  }

  /** The hash tells two requests apart if and only if their texts do not collide. */
  lemma HashDecides(sha: string -> Digest, f: Fields, g: Fields)
    ensures Apart(sha, f, g) <==> (CanonicalHash(sha)(f) == CanonicalHash(sha)(g) <==> f == g)
  {
    if CanonicalText(f) == CanonicalText(g) {
      CanonicalInjective(f, g);
    }
  }

  // ----- the check -----

  datatype Row = Row(payloadHash: Digest, status: int, engagementId: Uuid)

  datatype CheckResult = New | Replay(engagementId: Uuid, isTerminal: bool) | Conflict

  /** Statuses 4, 5 and 6 (success, cancelled, failed) are terminal. */
  predicate Terminal(status: int) {
    4 <= status <= 6
  }

  function Check(row: Option<Row>, computed: Digest): CheckResult {
    match row
    case None => New
    case Some(r) => if r.payloadHash == computed then Replay(r.engagementId, Terminal(r.status)) else Conflict
  }

  // ----- concurrent callers -----

  type CallerId = nat

  datatype Key = Key(organizationId: Uuid, requestId: Uuid)

  datatype Answer = Created(engagementId: Uuid) | Found(result: CheckResult) | Aborted

  datatype Pc = Selecting | Inserting | Uncommitted(engagementId: Uuid) | Answered(answer: Answer)

  datatype Caller = Caller(key: Key, fields: Fields, pc: Pc, loops: nat)

  /** `rows` are the committed rows, `pending` the keys of uncommitted inserts, `creators` the history of
      who committed each row. */
  datatype State = State(
    rows: map<Key, Row>,
    pending: map<Key, CallerId>,
    callers: map<CallerId, Caller>,
    creators: map<Key, CallerId>)

  const EMPTY: State := State(map[], map[], map[], map[])

  datatype Step =
    | Arrive(caller: CallerId, key: Key, fields: Fields)
    | Select(caller: CallerId)
    | Insert(caller: CallerId, engagementId: Uuid)
    | Commit(caller: CallerId)
    | Rollback(caller: CallerId)
    | SetStatus(key: Key, status: int)

  function RowAt(s: State, k: Key): Option<Row> {
    if k in s.rows then Some(s.rows[k]) else None
  }

  function Move(s: State, c: CallerId, pc: Pc): State
    requires c in s.callers
  {
    s.(callers := s.callers[c := s.callers[c].(pc := pc)])
  }

  function Apply(hash: Fields -> Digest, s: State, step: Step): State {
    match step
    case Arrive(c, k, f) => if c in s.callers then s else s.(callers := s.callers[c := Caller(k, f, Selecting, 0)])
    case Select(c) =>
      if c !in s.callers || !s.callers[c].pc.Selecting? then s
      else
        var found := Check(RowAt(s, s.callers[c].key), hash(s.callers[c].fields));
        if found.New? then Move(s, c, Inserting) else Move(s, c, Answered(Found(found)))
    case Insert(c, e) =>
      if c !in s.callers || !s.callers[c].pc.Inserting? || s.callers[c].key in s.pending then s
      else if s.callers[c].key in s.rows then
        s.(callers := s.callers[c := s.callers[c].(pc := Selecting, loops := s.callers[c].loops + 1)])
      else Move(s, c, Uncommitted(e)).(pending := s.pending[s.callers[c].key := c])
    case Commit(c) =>
      if c !in s.callers || !s.callers[c].pc.Uncommitted? then s
      else
        var k, e := s.callers[c].key, s.callers[c].pc.engagementId;
        Move(s, c, Answered(Created(e))).(
          rows := s.rows[k := Row(hash(s.callers[c].fields), 1, e)],
          pending := s.pending - {k}, creators := s.creators[k := c])
    case Rollback(c) =>
      if c !in s.callers || !s.callers[c].pc.Uncommitted? then s
      else Move(s, c, Answered(Aborted)).(pending := s.pending - {s.callers[c].key})
    case SetStatus(k, st) => if k in s.rows then s.(rows := s.rows[k := s.rows[k].(status := st)]) else s
  }

  function Run(hash: Fields -> Digest, s: State, steps: seq<Step>): State {
    if steps == [] then s else Apply(hash, Run(hash, s, steps[..|steps| - 1]), steps[|steps| - 1])
  }

  /** The engagement an answer names. */
  function EngagementOf(a: Answer): Option<Uuid> {
    match a
    case Created(e) => Some(e)
    case Found(Replay(e, _)) => Some(e)
    case _ => None
  }

  predicate CallerOk(hash: Fields -> Digest, s: State, c: CallerId)
    requires c in s.callers
  {
    var me := s.callers[c];
    && me.loops <= 1
    && (me.loops == 1 ==> me.key in s.rows && (me.pc.Selecting? || me.pc.Answered?))
    && match me.pc
       case Selecting => true
       case Inserting => true
       case Uncommitted(e) => me.key !in s.rows && me.key in s.pending && s.pending[me.key] == c
       case Answered(Aborted) => me.loops == 0
       case Answered(Found(New)) => false
       case Answered(a) =>
         && me.key in s.rows
         && (EngagementOf(a).Some? <==> s.rows[me.key].payloadHash == hash(me.fields))
         && (EngagementOf(a).Some? ==> EngagementOf(a).value == s.rows[me.key].engagementId)
         && (a.Created? ==> me.key in s.creators && s.creators[me.key] == c)
  }

  predicate RowsOk(hash: Fields -> Digest, s: State) {
    && s.creators.Keys == s.rows.Keys
    && (forall k :: k in s.rows ==>
          && s.creators[k] in s.callers
          && s.callers[s.creators[k]].key == k
          && s.callers[s.creators[k]].pc == Answered(Created(s.rows[k].engagementId)))
    && (forall k :: k in s.pending ==>
          s.pending[k] in s.callers && s.callers[s.pending[k]].key == k && s.callers[s.pending[k]].pc.Uncommitted?)
  }

  ghost predicate Invariant(hash: Fields -> Digest, s: State) {
    RowsOk(hash, s) && forall c :: c in s.callers ==> CallerOk(hash, s, c)
  }

  /** A caller moving between statements that touch neither rows nor pending inserts. */
  lemma MoveKeepsRows(hash: Fields -> Digest, s: State, c: CallerId, me: Caller)
    requires RowsOk(hash, s) && (c in s.callers ==> !s.callers[c].pc.Uncommitted? && !s.callers[c].pc.Answered?)
    ensures RowsOk(hash, s.(callers := s.callers[c := me]))
  {
  }

  lemma InsertKeepsRows(hash: Fields -> Digest, s: State, c: CallerId, e: Uuid)
    requires RowsOk(hash, s)
    ensures RowsOk(hash, Apply(hash, s, Insert(c, e)))
  {
  }

  lemma CommitKeepsRows(hash: Fields -> Digest, s: State, c: CallerId)
    requires RowsOk(hash, s) && (c in s.callers ==> CallerOk(hash, s, c))
    ensures RowsOk(hash, Apply(hash, s, Commit(c)))
  {
    if c in s.callers && s.callers[c].pc.Uncommitted? {
      var q := Apply(hash, s, Commit(c));
      assert q.creators.Keys == q.rows.Keys;
    }
  }

  lemma RollbackKeepsRows(hash: Fields -> Digest, s: State, c: CallerId)
    requires RowsOk(hash, s) && (c in s.callers ==> CallerOk(hash, s, c))
    ensures RowsOk(hash, Apply(hash, s, Rollback(c)))
  {
  }

  lemma StatusKeepsRows(hash: Fields -> Digest, s: State, k: Key, st: int)
    requires RowsOk(hash, s)
    ensures RowsOk(hash, Apply(hash, s, SetStatus(k, st)))
  {
    assert Apply(hash, s, SetStatus(k, st)).rows.Keys == s.rows.Keys;
  }

  lemma StepKeepsRows(hash: Fields -> Digest, s: State, step: Step)
    requires Invariant(hash, s)
    ensures RowsOk(hash, Apply(hash, s, step))
  {
    match step
    case Arrive(c, k, f) => if c !in s.callers { MoveKeepsRows(hash, s, c, Caller(k, f, Selecting, 0)); }
    case Select(c) =>
      if c in s.callers && s.callers[c].pc.Selecting? {
        MoveKeepsRows(hash, s, c, Apply(hash, s, Select(c)).callers[c]);
      }
    case Insert(c, e) => InsertKeepsRows(hash, s, c, e);
    case Commit(c) => CommitKeepsRows(hash, s, c);
    case Rollback(c) => RollbackKeepsRows(hash, s, c);
    case SetStatus(k, st) => StatusKeepsRows(hash, s, k, st);
  }

  /** What one step can change behind a caller's back. */
  ghost predicate Extends(s: State, q: State, c: CallerId)
    requires c in s.callers
  {
    && c in q.callers && q.callers[c] == s.callers[c]
    && (forall k :: k in s.rows ==> k in q.rows && q.rows[k].payloadHash == s.rows[k].payloadHash
                                    && q.rows[k].engagementId == s.rows[k].engagementId)
    && (forall k :: k in s.creators ==> k in q.creators && q.creators[k] == s.creators[k])
    && (s.callers[c].pc.Uncommitted? ==>
          (s.callers[c].key in q.rows ==> s.callers[c].key in s.rows)
          && (s.callers[c].key in s.pending && s.pending[s.callers[c].key] == c ==>
                s.callers[c].key in q.pending && q.pending[s.callers[c].key] == c))
  }

  lemma OthersKeepCaller(hash: Fields -> Digest, s: State, q: State, c: CallerId)
    requires c in s.callers && CallerOk(hash, s, c) && Extends(s, q, c)
    ensures CallerOk(hash, q, c)
  {
  }

  predicate By(step: Step, c: CallerId) {
    match step
    case SetStatus(k, st) => false
    case _ => step.caller == c
  }

  lemma OthersCommit(hash: Fields -> Digest, s: State, d: CallerId, c: CallerId)
    requires Invariant(hash, s) && c in s.callers && c != d
    ensures Extends(s, Apply(hash, s, Commit(d)), c)
  {
    assert CallerOk(hash, s, c);
    if d in s.callers {
      assert CallerOk(hash, s, d);
    }
  }

  lemma OthersRollback(hash: Fields -> Digest, s: State, d: CallerId, c: CallerId)
    requires Invariant(hash, s) && c in s.callers && c != d
    ensures Extends(s, Apply(hash, s, Rollback(d)), c)
  {
    assert CallerOk(hash, s, c);
    if d in s.callers {
      assert CallerOk(hash, s, d);
    }
  }

  lemma OthersInsert(hash: Fields -> Digest, s: State, d: CallerId, e: Uuid, c: CallerId)
    requires c in s.callers && c != d
    ensures Extends(s, Apply(hash, s, Insert(d, e)), c)
  {
  }

  lemma OthersSelect(hash: Fields -> Digest, s: State, d: CallerId, c: CallerId)
    requires c in s.callers && c != d
    ensures Extends(s, Apply(hash, s, Select(d)), c)
  {
  }

  lemma OthersArrive(hash: Fields -> Digest, s: State, d: CallerId, k: Key, f: Fields, c: CallerId)
    requires c in s.callers && c != d
    ensures Extends(s, Apply(hash, s, Arrive(d, k, f)), c)
  {
  }

  lemma StatusChanges(hash: Fields -> Digest, s: State, k: Key, st: int, c: CallerId)
    requires c in s.callers
    ensures Extends(s, Apply(hash, s, SetStatus(k, st)), c)
  {
  }

  lemma OtherSteps(hash: Fields -> Digest, s: State, step: Step, c: CallerId)
    requires Invariant(hash, s) && c in s.callers && !By(step, c)
    ensures Extends(s, Apply(hash, s, step), c)
  {
    match step
    case Commit(d) => OthersCommit(hash, s, d, c);
    case Rollback(d) => OthersRollback(hash, s, d, c);
    case Insert(d, e) => OthersInsert(hash, s, d, e, c);
    case Select(d) => OthersSelect(hash, s, d, c);
    case Arrive(d, k, f) => OthersArrive(hash, s, d, k, f, c);
    case SetStatus(k, st) => StatusChanges(hash, s, k, st, c);
  }

  lemma OwnStep(hash: Fields -> Digest, s: State, step: Step, c: CallerId)
    requires By(step, c) && (c in s.callers ==> CallerOk(hash, s, c)) && c in Apply(hash, s, step).callers
    ensures CallerOk(hash, Apply(hash, s, step), c)
  {
  }

  lemma StepKeepsCaller(hash: Fields -> Digest, s: State, step: Step, c: CallerId)
    requires Invariant(hash, s) && c in Apply(hash, s, step).callers
    ensures CallerOk(hash, Apply(hash, s, step), c)
  {
    if By(step, c) {
      OwnStep(hash, s, step, c);
    } else {
      OtherSteps(hash, s, step, c);
      OthersKeepCaller(hash, s, Apply(hash, s, step), c);
    }
  }

  lemma {:induction false} RunKeeps(hash: Fields -> Digest, s: State, steps: seq<Step>)
    requires Invariant(hash, s)
    ensures Invariant(hash, Run(hash, s, steps))
  {
    if steps != [] {
      var q, last := Run(hash, s, steps[..|steps| - 1]), steps[|steps| - 1];
      RunKeeps(hash, s, steps[..|steps| - 1]);
      StepKeepsRows(hash, q, last);
      forall c | c in Apply(hash, q, last).callers ensures CallerOk(hash, Apply(hash, q, last), c) {
        StepKeepsCaller(hash, q, last, c);
      }
    }
  }

  predicate Settled(s: State, c: CallerId) {
    c in s.callers && s.callers[c].pc.Answered? && !s.callers[c].pc.answer.Aborted?
  }

  /** The creator of the row on a settled caller's key: a caller on that key, answered with the row's
      engagement, and the caller itself if that was answered `Created`. */
  ghost predicate HasCreator(s: State, c: CallerId)
    requires Settled(s, c)
  {
    var me := s.callers[c];
    && me.key in s.rows && me.key in s.creators && s.creators[me.key] in s.callers
    && s.callers[s.creators[me.key]].key == me.key
    && s.callers[s.creators[me.key]].pc == Answered(Created(s.rows[me.key].engagementId))
    && (me.pc.answer.Created? ==> s.creators[me.key] == c)
  }

  function CreatorFields(s: State, k: Key): Fields
    requires k in s.creators && s.creators[k] in s.callers
  {
    s.callers[s.creators[k]].fields
  }

  /** A settled caller is named the row's engagement if `same`, and is answered a conflict otherwise. */
  ghost predicate AnsweredAs(s: State, c: CallerId, same: bool)
    requires Settled(s, c) && HasCreator(s, c)
  {
    var me := s.callers[c];
    && (EngagementOf(me.pc.answer) == Some(s.rows[me.key].engagementId) <==> same)
    && (me.pc.answer == Found(Conflict) <==> !same)
  }

  lemma SettledAnswer(hash: Fields -> Digest, s: State, c: CallerId)
    requires Invariant(hash, s) && Settled(s, c)
    ensures HasCreator(s, c)
    ensures AnsweredAs(s, c, hash(s.callers[c].fields) == hash(CreatorFields(s, s.callers[c].key)))
  {
    assert CallerOk(hash, s, c);
    assert CallerOk(hash, s, s.creators[s.callers[c].key]);
  }

  lemma OneAnswer(s: State, c: CallerId, x: bool, y: bool)
    requires Settled(s, c) && HasCreator(s, c) && AnsweredAs(s, c, x)
    ensures AnsweredAs(s, c, y) <==> x == y
  {
  }

  /**
   Over every run, every row has exactly one creator, and a settled caller is named the row's engagement
   if and only if its hash is the creator's, and is otherwise answered a conflict. It is named the
   engagement if and only if its fields are the creator's, exactly if the two texts do not collide.
   */
  lemma AnswersFollowTheCreator(sha: string -> Digest, steps: seq<Step>, s: State, c: CallerId)
    requires s == Run(CanonicalHash(sha), EMPTY, steps) && Settled(s, c)
    ensures HasCreator(s, c)
    ensures var mine, theirs := s.callers[c].fields, CreatorFields(s, s.callers[c].key);
            && AnsweredAs(s, c, CanonicalHash(sha)(mine) == CanonicalHash(sha)(theirs))
            && (AnsweredAs(s, c, mine == theirs) <==> Apart(sha, mine, theirs))
  {
    RunKeeps(CanonicalHash(sha), EMPTY, steps);
    SettledAnswer(CanonicalHash(sha), s, c);
    var mine, theirs := s.callers[c].fields, CreatorFields(s, s.callers[c].key);
    HashDecides(sha, mine, theirs);
    OneAnswer(s, c, CanonicalHash(sha)(mine) == CanonicalHash(sha)(theirs), mine == theirs);
  }

  /** No two callers on one key have colliding texts. */
  ghost predicate CollisionFree(sha: string -> Digest, s: State) {
    forall c, d :: c in s.callers && d in s.callers && s.callers[c].key == s.callers[d].key ==>
      Apart(sha, s.callers[c].fields, s.callers[d].fields)
  }

  /**
   Two settled callers on one key, no two of whose callers collide: with equal fields they get the same
   engagement (or both a conflict with a third, different, creator); with different fields they are never
   both given an engagement. If all the callers of a key send the same fields, none of them gets a conflict.
   */
  lemma EqualRequestsAgree(sha: string -> Digest, steps: seq<Step>, s: State, a: CallerId, b: CallerId)
    requires s == Run(CanonicalHash(sha), EMPTY, steps) && CollisionFree(sha, s)
    requires Settled(s, a) && Settled(s, b) && s.callers[a].key == s.callers[b].key
    ensures var x, y := s.callers[a], s.callers[b];
            && (x.fields == y.fields ==> EngagementOf(x.pc.answer) == EngagementOf(y.pc.answer))
            && (x.fields != y.fields ==> x.pc.answer == Found(Conflict) || y.pc.answer == Found(Conflict))
            && ((forall c :: c in s.callers && s.callers[c].key == x.key ==> s.callers[c].fields == x.fields) ==>
                  && x.key in s.rows
                  && EngagementOf(x.pc.answer) == EngagementOf(y.pc.answer) == Some(s.rows[x.key].engagementId))
  {
    AnswersFollowTheCreator(sha, steps, s, a);
    AnswersFollowTheCreator(sha, steps, s, b);
  }

  lemma RunOn(hash: Fields -> Digest, steps: seq<Step>, step: Step)
    ensures Run(hash, EMPTY, steps + [step]) == Apply(hash, Run(hash, EMPTY, steps), step)
  {
    assert (steps + [step])[..|steps|] == steps;
  }

  /** A caller arrives after the row of its key was committed, and selects. */
  lemma LateCaller(hash: Fields -> Digest, steps: seq<Step>, c: CallerId, k: Key, f: Fields)
    returns (more: seq<Step>)
    requires var s := Run(hash, EMPTY, steps); c !in s.callers && k in s.rows
    ensures var s, q := Run(hash, EMPTY, steps), Run(hash, EMPTY, more);
            && q.rows == s.rows
            && q.callers == s.callers[c := Caller(k, f, Answered(Found(Check(Some(s.rows[k]), hash(f)))), 0)]
  {
    RunOn(hash, steps, Arrive(c, k, f));
    RunOn(hash, steps + [Arrive(c, k, f)], Select(c));
    more := steps + [Arrive(c, k, f)] + [Select(c)];
  }

  /** A caller alone on a fresh key commits its row. */
  lemma FirstCaller(hash: Fields -> Digest, c: CallerId, k: Key, f: Fields, e: Uuid) returns (steps: seq<Step>)
    ensures var s := Run(hash, EMPTY, steps);
            s.rows == map[k := Row(hash(f), 1, e)] && s.callers == map[c := Caller(k, f, Answered(Created(e)), 0)]
  {
    RunOn(hash, [], Arrive(c, k, f));
    steps := [] + [Arrive(c, k, f)];
    RunOn(hash, steps, Select(c));
    steps := steps + [Select(c)];
    RunOn(hash, steps, Insert(c, e));
    steps := steps + [Insert(c, e)];
    RunOn(hash, steps, Commit(c));
    steps := steps + [Commit(c)];
  }

  /**
   Equal requests need not all succeed: for every two requests whose hashes differ there is a run in which
   one of them is committed first and two callers that both send the other are both answered a conflict.
   */
  lemma EqualRequestsCanConflict(hash: Fields -> Digest, k: Key, f: Fields, g: Fields, e: Uuid)
    returns (steps: seq<Step>)
    requires hash(f) != hash(g)
    ensures var s := Run(hash, EMPTY, steps);
            && 0 in s.callers && s.callers[0] == Caller(k, g, Answered(Found(Conflict)), 0)
            && 1 in s.callers && s.callers[1] == Caller(k, g, Answered(Found(Conflict)), 0)
  {
    steps := FirstCaller(hash, 2, k, f, e);
    steps := LateCaller(hash, steps, 0, k, g);
    steps := LateCaller(hash, steps, 1, k, g);
  }

  /** Every caller goes back to the select at most once. */
  lemma LoopsAtMostOnce(hash: Fields -> Digest, steps: seq<Step>, c: CallerId)
    requires c in Run(hash, EMPTY, steps).callers
    ensures var s := Run(hash, EMPTY, steps);
            && s.callers[c].loops <= 1
            && (s.callers[c].loops == 1 && s.callers[c].pc.Selecting? ==>
                  Apply(hash, s, Select(c)).callers[c].pc.Answered?)
  {
    RunKeeps(hash, EMPTY, steps);
    assert CallerOk(hash, Run(hash, EMPTY, steps), c);
  }

  /** What a select finds: no row, a row with the same hash, whose engagement it names together with whether
      its status is success, cancelled or failed (4, 5, 6), or a conflict. It changes nothing else. */
  lemma SelectAnswers(hash: Fields -> Digest, s: State, c: CallerId)
    requires c in s.callers && s.callers[c].pc.Selecting?
    ensures var k, q := s.callers[c].key, Apply(hash, s, Select(c));
            && c in q.callers && q == s.(callers := s.callers[c := s.callers[c].(pc := q.callers[c].pc)])
            && (k !in s.rows ==> q.callers[c].pc == Inserting)
            && (k in s.rows && s.rows[k].payloadHash != hash(s.callers[c].fields) ==>
                  q.callers[c].pc == Answered(Found(Conflict)))
            && (k in s.rows && s.rows[k].payloadHash == hash(s.callers[c].fields) ==>
                  q.callers[c].pc == Answered(Found(Replay(s.rows[k].engagementId, s.rows[k].status in {4, 5, 6}))))
  {
  }

  /** A caller that lost the race goes back to the select, and that answers it: with the winner's engagement if
      and only if the hashes agree, and with a conflict otherwise. */
  lemma LoserIsAnswered(hash: Fields -> Digest, s: State, c: CallerId, e: Uuid)
    requires c in s.callers && s.callers[c].pc.Inserting?
    requires s.callers[c].key in s.rows && s.callers[c].key !in s.pending
    ensures var q := Apply(hash, Apply(hash, s, Insert(c, e)), Select(c));
            var row := s.rows[s.callers[c].key];
            var same := row.payloadHash == hash(s.callers[c].fields);
            && Settled(q, c) && q.rows == s.rows && q.callers[c].loops == s.callers[c].loops + 1
            && (EngagementOf(q.callers[c].pc.answer) == Some(row.engagementId) <==> same)
            && (q.callers[c].pc.answer == Found(Conflict) <==> !same)
  {
  }

  lemma StepAborts(hash: Fields -> Digest, s: State, step: Step, c: CallerId)
    requires c in Apply(hash, s, step).callers && Apply(hash, s, step).callers[c].pc == Answered(Aborted)
    ensures step == Rollback(c) || (c in s.callers && s.callers[c].pc == Answered(Aborted))
  {
  }

  /** Over every run a caller is left without an answer only if its own transaction was rolled back. */
  lemma {:induction false} AbortedOnlyByRollback(hash: Fields -> Digest, steps: seq<Step>, c: CallerId)
    requires var s := Run(hash, EMPTY, steps); c in s.callers && s.callers[c].pc == Answered(Aborted)
    ensures Rollback(c) in steps
  {
    var init, last := steps[..|steps| - 1], steps[|steps| - 1];
    StepAborts(hash, Run(hash, EMPTY, init), last, c);
    if last != Rollback(c) {
      AbortedOnlyByRollback(hash, init, c);
    }
  }

  lemma Winner(hash: Fields -> Digest, s: State, c: CallerId, e: Uuid)
    requires c in s.callers && s.callers[c].pc.Inserting?
    requires s.callers[c].key !in s.rows && s.callers[c].key !in s.pending
    ensures var k, m := s.callers[c].key, Apply(hash, s, Insert(c, e));
            var q := Apply(hash, m, Commit(c));
            && c in m.callers && m.callers[c].pc == Uncommitted(e)
            && q.rows == s.rows[k := Row(hash(s.callers[c].fields), 1, e)]
            && c in q.callers && q.callers[c].pc == Answered(Created(e))
  {
  }

  lemma Several(hash: Fields -> Digest, s: State, a: Step, b: Step, c: Step)
    ensures Run(hash, s, [a]) == Apply(hash, s, a)
    ensures Run(hash, s, [a, b]) == Apply(hash, Apply(hash, s, a), b)
    ensures Run(hash, s, [a, b, c]) == Apply(hash, Apply(hash, Apply(hash, s, a), b), c)
  {
    assert [a, b][..1] == [a] && [a, b, c][..2] == [a, b];
  }

  /** The statements a caller has left, if nobody else interferes. */
  function Rest(s: State, c: CallerId, e: Uuid): seq<Step>
    requires c in s.callers
  {
    match s.callers[c].pc
    case Selecting => if s.callers[c].key in s.rows then [Select(c)] else [Select(c), Insert(c, e), Commit(c)]
    case Inserting => if s.callers[c].key in s.rows then [Insert(c, e), Select(c)] else [Insert(c, e), Commit(c)]
    case Uncommitted(_) => [Commit(c)]
    case Answered(_) => []
  }

  /** A settled caller, its row, and that the row was there before or is its own creation. */
  ghost predicate Finished(hash: Fields -> Digest, s: State, q: State, c: CallerId)
    requires c in s.callers
  {
    var k := s.callers[c].key;
    && Settled(q, c) && k in q.rows
    && (k in s.rows ==> q.rows == s.rows)
    && (k !in s.rows ==> q.rows[k].payloadHash == hash(s.callers[c].fields)
                         && q.callers[c].pc == Answered(Created(q.rows[k].engagementId)))
  }

  lemma SelectingFinishes(hash: Fields -> Digest, s: State, c: CallerId, e: Uuid)
    requires c in s.callers && s.callers[c].pc.Selecting? && s.callers[c].key !in s.pending
    ensures Finished(hash, s, Run(hash, s, Rest(s, c, e)), c)
  {
    Several(hash, s, Select(c), Insert(c, e), Commit(c));
    SelectAnswers(hash, s, c);
    if s.callers[c].key !in s.rows {
      Winner(hash, Apply(hash, s, Select(c)), c, e);
    }
  }

  lemma InsertingFinishes(hash: Fields -> Digest, s: State, c: CallerId, e: Uuid)
    requires c in s.callers && s.callers[c].pc.Inserting? && s.callers[c].key !in s.pending
    ensures Finished(hash, s, Run(hash, s, Rest(s, c, e)), c)
  {
    if s.callers[c].key in s.rows {
      Several(hash, s, Insert(c, e), Select(c), Select(c));
      LoserIsAnswered(hash, s, c, e);
    } else {
      Several(hash, s, Insert(c, e), Commit(c), Commit(c));
      Winner(hash, s, c, e);
    }
  }

  /**
   From every reachable state, a caller that is not held up by another's uncommitted insert on its key is
   settled by at most three more statements of its own: it finds the row there is, or creates one with its
   own hash and is answered with that row's engagement.
   */
  lemma EveryCallerCanFinish(hash: Fields -> Digest, steps: seq<Step>, s: State, c: CallerId, e: Uuid)
    requires s == Run(hash, EMPTY, steps) && c in s.callers && !s.callers[c].pc.Answered?
    requires s.callers[c].key in s.pending ==> s.pending[s.callers[c].key] == c
    ensures |Rest(s, c, e)| <= 3 && Finished(hash, s, Run(hash, s, Rest(s, c, e)), c)
  {
    RunKeeps(hash, EMPTY, steps);
    assert CallerOk(hash, s, c);
    match s.callers[c].pc
    case Selecting => SelectingFinishes(hash, s, c, e);
    case Inserting => InsertingFinishes(hash, s, c, e);
    case Uncommitted(f) => Several(hash, s, Commit(c), Commit(c), Commit(c));
  }

  /** A rollback leaves no row and frees the key for the next insert. */
  lemma RollbackFrees(hash: Fields -> Digest, s: State, c: CallerId)
    requires c in s.callers && s.callers[c].pc.Uncommitted?
    ensures var q := Apply(hash, s, Rollback(c));
            && q.rows == s.rows && s.callers[c].key !in q.pending
            && c in q.callers && q.callers[c].pc == Answered(Aborted)
  {
  }

  lemma RowStays(hash: Fields -> Digest, s: State, step: Step, k: Key)
    requires Invariant(hash, s) && k in s.rows
    ensures var q := Apply(hash, s, step);
            && k in q.rows && q.rows[k].payloadHash == s.rows[k].payloadHash
            && q.rows[k].engagementId == s.rows[k].engagementId
  {
    if step.Commit? && step.caller in s.callers {
      assert CallerOk(hash, s, step.caller);
    }
  }

  /** Once committed, a row keeps its hash and engagement id for ever; only its status moves. */
  lemma {:induction false} RowsArePermanent(hash: Fields -> Digest, s: State, more: seq<Step>, k: Key)
    requires Invariant(hash, s) && k in s.rows
    ensures var q := Run(hash, s, more);
            && k in q.rows && q.rows[k].payloadHash == s.rows[k].payloadHash
            && q.rows[k].engagementId == s.rows[k].engagementId
  {
    if more != [] {
      var init := more[..|more| - 1];
      RowsArePermanent(hash, s, init, k);
      RunKeeps(hash, s, init);
      RowStays(hash, Run(hash, s, init), more[|more| - 1], k);
    }
  }
}
