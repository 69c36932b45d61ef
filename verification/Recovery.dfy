/**
 The whole event path: writers commit rows, the database notifies the LISTEN connection in commit
 order, the manager fans notifications out, connections drop and lose what was in flight, subscribers
 come, read and go, and gap-fills read the table and fan its rows out one at a time between all of
 these. Steps interleave freely; a step that is not enabled changes nothing.
 */
module Recovery {
  import opened Prelude
  import opened Fanout
  import S = EventStore

  // ----- the gap-fill query -----

  /** Rows of `e` with `sequence > cursor`, in table order. */
  function Beyond(rows: seq<Payload>, e: Uuid, cursor: int): seq<Payload> {
    if rows == [] then []
    else
      var rest, last := Beyond(rows[..|rows| - 1], e, cursor), rows[|rows| - 1];
      if last.engagementId == e && last.sequence > cursor then rest + [last] else rest
  }

  function InsertBySequence(s: seq<Payload>, p: Payload): seq<Payload> {
    if s == [] || s[|s| - 1].sequence <= p.sequence then s + [p]
    else InsertBySequence(s[..|s| - 1], p) + [s[|s| - 1]]
  }

  /** `ORDER BY sequence ASC`. */
  function OrderBySequence(s: seq<Payload>): seq<Payload> {
    if s == [] then [] else InsertBySequence(OrderBySequence(s[..|s| - 1]), s[|s| - 1])
  }

  function GapRows(rows: seq<Payload>, e: Uuid, cursor: int): seq<Payload> {
    OrderBySequence(Beyond(rows, e, cursor))
  }

  /** The part of `events` after the first `cursor` ones. */
  function Tail(events: seq<Payload>, cursor: int): seq<Payload> {
    if cursor <= 0 then events else if cursor >= |events| then [] else events[cursor..]
  }

  lemma BeyondIsTail(rows: seq<Payload>, e: Uuid, cursor: int)
    requires S.Gapless(rows, e)
    ensures Beyond(rows, e, cursor) == Tail(Select(Engagement(e), rows), cursor)
  {
    if rows != [] {
      var init, last := rows[..|rows| - 1], rows[|rows| - 1];
      var all, some := Select(Engagement(e), rows), Select(Engagement(e), init);
      assert all == some || all == some + [last];
      assert S.Gapless(init, e) by {
        assert forall k :: 0 <= k < |some| ==> all[k] == some[k];
      }
      BeyondIsTail(init, e, cursor);
      if last.engagementId == e {
        assert all[|some|] == last;
      }
    }
  }

  predicate Increasing(s: seq<Payload>) {
    forall k :: 0 < k < |s| ==> s[k - 1].sequence < s[k].sequence
  }

  lemma {:induction false} OrderKeepsIncreasing(s: seq<Payload>)
    requires Increasing(s)
    ensures OrderBySequence(s) == s
  {
    if s != [] {
      var init, last := s[..|s| - 1], s[|s| - 1];
      assert Increasing(init);
      OrderKeepsIncreasing(init);
      assert init != [] ==> init[|init| - 1].sequence < last.sequence;
      assert s == init + [last];
    }
  }

  /** On gapless tables the query returns exactly the events after the cursor. */
  lemma GapRowsAreTheTail(rows: seq<Payload>, e: Uuid, cursor: int)
    requires S.Gapless(rows, e)
    ensures GapRows(rows, e, cursor) == Tail(Select(Engagement(e), rows), cursor)
  {
    BeyondIsTail(rows, e, cursor);
    var tail := Tail(Select(Engagement(e), rows), cursor);
    assert Increasing(tail);
    OrderKeepsIncreasing(tail);
  }

  // ----- the system -----

  /**
   `link` is the LISTEN connection: none, or the notifications it has in flight. `fills` holds, per
   running gap-fill, the rows it has read and not yet fanned out.
   */
  datatype System = System(
    store: S.Store,
    link: Option<seq<Payload>>,
    registry: Registry,
    fills: map<nat, seq<Payload>>)

  const INITIAL: System := System(S.EMPTY, None, EMPTY, map[])

  datatype Step =
    | Database(write: S.Step)
    | Connect
    | Disconnect
    | Notify
    | LoseNotification
    | Join(topic: Topic)
    | Read(rx: nat)
    | Leave(rx: nat)
    | Query(fill: nat, engagementId: Uuid, cursor: int)
    | Emit(fill: nat)

  /** The row that a database step makes visible, if any. */
  function NewRows(s: S.Store, w: S.Step): seq<Payload> {
    if w.Commit? && w.tx in s.txs && s.txs[w.tx].Inserted? then [s.txs[w.tx].row] else []
  }

  function Apply(env: S.Env, s: System, step: Step): System {
    match step
    case Database(w) =>
      s.(store := S.Apply(env, s.store, w),
         link := if s.link.Some? then Some(s.link.value + NewRows(s.store, w)) else None)
    case Connect => if s.link.None? then s.(link := Some([])) else s
    case Disconnect => s.(link := None)
    case Notify =>
      if s.link.Some? && s.link.value != [] then
        s.(link := Some(s.link.value[1..]), registry := Published(s.registry, s.link.value[0]))
      else s
    case LoseNotification =>
      if s.link.Some? && s.link.value != [] then s.(link := Some(s.link.value[1..])) else s
    case Join(t) => s.(registry := Subscribed(s.registry, t))
    case Read(i) => s.(registry := Polled(s.registry, i))
    case Leave(i) => s.(registry := Dropped(s.registry, i))
    case Query(f, e, c) =>
      if f in s.fills then s else s.(fills := s.fills[f := GapRows(s.store.rows, e, c)])
    case Emit(f) =>
      if f in s.fills && s.fills[f] != [] then
        s.(fills := s.fills[f := s.fills[f][1..]], registry := Published(s.registry, s.fills[f][0]))
      else s
  }

  /** What a step does to the registry, as a registry operation (`None` when it does nothing to it). */
  function RegistryOp(s: System, step: Step): Option<Op> {
    match step
    case Notify => if s.link.Some? && s.link.value != [] then Some(Publish(s.link.value[0])) else None
    case Emit(f) => if f in s.fills && s.fills[f] != [] then Some(Publish(s.fills[f][0])) else None
    case Join(t) => Some(Subscribe(t))
    case Read(i) => Some(Receive(i))
    case Leave(i) => Some(Drop(i))
    case _ => None
  }

  lemma ApplyRegistry(env: S.Env, s: System, step: Step)
    ensures var q, op := Apply(env, s, step), RegistryOp(s, step);
            q.registry == if op.Some? then Fanout.Apply(s.registry, op.value) else s.registry
  {
  }

  function Run(env: S.Env, s: System, steps: seq<Step>): System {
    if steps == [] then s else Apply(env, Run(env, s, steps[..|steps| - 1]), steps[|steps| - 1])
  }

  // ----- nothing uncommitted is ever delivered -----

  ghost predicate Within(ps: seq<Payload>, rows: seq<Payload>) {
    forall p :: p in ps ==> p in rows
  }

  ghost predicate OnTopic(c: Channel) {
    forall p :: p in Transcript(c) ==> Matches(c.topic, p)
  }

  ghost predicate ChannelOk(c: Channel, rows: seq<Payload>) {
    Bounded(c) && Within(Transcript(c), rows) && OnTopic(c)
  }

  ghost predicate Invariant(env: S.Env, s: System) {
    && S.Invariant(env, s.store)
    && (s.link.Some? ==> Within(s.link.value, s.store.rows))
    && (forall f :: f in s.fills ==> Within(s.fills[f], s.store.rows))
    && (forall i :: 0 <= i < |s.registry.channels| ==> ChannelOk(s.registry.channels[i], s.store.rows))
  }

  lemma StoreGrows(env: S.Env, s: S.Store, w: S.Step)
    ensures S.Apply(env, s, w).rows == s.rows + NewRows(s, w)
  {
  }

  lemma OpKeepsChannels(r: Registry, op: Op, rows: seq<Payload>)
    requires op.Publish? ==> op.payload in rows
    requires forall i :: 0 <= i < |r.channels| ==> ChannelOk(r.channels[i], rows)
    ensures var q := Fanout.Apply(r, op); forall i :: 0 <= i < |q.channels| ==> ChannelOk(q.channels[i], rows)
  {
    var q := Fanout.Apply(r, op);
    forall i | 0 <= i < |q.channels| ensures ChannelOk(q.channels[i], rows) {
      if i < |r.channels| {
        assert ChannelOk(r.channels[i], rows);
        ApplyChannel(r, op, i);
        ApplyBounded(r, op, i);
      } else {
        assert Transcript(q.channels[i]) == [];
      }
    }
  }

  lemma GapRowsWithin(rows: seq<Payload>, e: Uuid, cursor: int)
    requires S.Gapless(rows, e)
    ensures Within(GapRows(rows, e, cursor), rows)
  {
    GapRowsAreTheTail(rows, e, cursor);
    S.SelectMembers(Engagement(e), rows);
  }

  lemma StepKeeps(env: S.Env, s: System, step: Step)
    requires Invariant(env, s)
    ensures Invariant(env, Apply(env, s, step))
  {
    var q := Apply(env, s, step);
    ApplyRegistry(env, s, step);
    var op := RegistryOp(s, step);
    if op.Some? {
      OpKeepsChannels(s.registry, op.value, s.store.rows);
    }
    match step {
      case Database(w) =>
        S.StepKeeps(env, s.store, w);
        StoreGrows(env, s.store, w);
        forall i | 0 <= i < |s.registry.channels| ensures ChannelOk(s.registry.channels[i], q.store.rows) {
          assert ChannelOk(s.registry.channels[i], s.store.rows);
        }
      case Query(f, e, c) =>
        assert S.Gapless(s.store.rows, e);
        GapRowsWithin(s.store.rows, e, c);
      case _ =>
    }
  }

  lemma {:induction false} RunKeeps(env: S.Env, s: System, steps: seq<Step>)
    requires Invariant(env, s)
    ensures Invariant(env, Run(env, s, steps))
  {
    if steps != [] {
      RunKeeps(env, s, steps[..|steps| - 1]);
      StepKeeps(env, Run(env, s, steps[..|steps| - 1]), steps[|steps| - 1]);
    }
  }

  /** In every reachable state each subscriber has been sent committed rows of its own topic only. */
  lemma OnlyCommittedRowsAreDelivered(env: S.Env, steps: seq<Step>, i: nat)
    requires i < |Run(env, INITIAL, steps).registry.channels|
    ensures var s := Run(env, INITIAL, steps);
            forall p :: p in Transcript(s.registry.channels[i]) ==>
              p in s.store.rows && Matches(s.registry.channels[i].topic, p)
  {
    RunKeeps(env, INITIAL, steps);
    var s := Run(env, INITIAL, steps);
    assert ChannelOk(s.registry.channels[i], s.store.rows);
  }

  // ----- one gap-fill among any other activity -----

  /** The client has read `p` from the channel or will find it there. */
  ghost predicate Holds(c: Channel, p: Payload) {
    Received(p) in c.past || p in c.buffer
  }

  /** The client has the event with sequence `k`. Entries overwritten before they were read do not count. */
  ghost predicate Has(c: Channel, k: int) {
    exists p :: Holds(c, p) && p.sequence == k
  }

  /** How a channel evolves: it keeps its topic and its history, and is not reopened. */
  ghost predicate Grows(c: Channel, d: Channel) {
    && d.topic == c.topic && (d.open ==> c.open)
    && c.past <= d.past && Transcript(c) <= Transcript(d)
  }

  /** `p` was sent on the channel between `c` and `d`. */
  ghost predicate SentBetween(c: Channel, d: Channel, p: Payload) {
    |Transcript(c)| <= |Transcript(d)| && p in Transcript(d)[|Transcript(c)|..]
  }

  /** How a channel and the rows a fill has left evolve: a row leaves the fill only to be sent on every
      open channel of its topic. */
  ghost predicate Progress(c: Channel, left: seq<Payload>, d: Channel, rest: seq<Payload>) {
    && Grows(c, d)
    && forall p :: p in left && Matches(c.topic, p) && d.open ==> p in rest || SentBetween(c, d, p)
  }

  lemma GrowsOn(c: Channel, d: Channel, e: Channel)
    requires Grows(c, d) && Grows(d, e)
    ensures Grows(c, e)
    ensures forall p :: SentBetween(c, d, p) || SentBetween(d, e, p) ==> SentBetween(c, e, p)
  {
    var k, m := |Transcript(c)|, |Transcript(d)|;
    assert Transcript(e)[k..] == Transcript(d)[k..] + Transcript(e)[m..];
  }

  lemma ProgressOn(c: Channel, left: seq<Payload>, d: Channel, rest: seq<Payload>, e: Channel, end: seq<Payload>)
    requires Progress(c, left, d, rest) && Progress(d, rest, e, end)
    ensures Progress(c, left, e, end)
  {
    GrowsOn(c, d, e);
  }

  lemma StepGrows(env: S.Env, s: System, step: Step, i: nat)
    requires i < |s.registry.channels|
    ensures i < |Apply(env, s, step).registry.channels|
    ensures Grows(s.registry.channels[i], Apply(env, s, step).registry.channels[i])
  {
    ApplyRegistry(env, s, step);
    var op := RegistryOp(s, step);
    if op.Some? {
      ApplyChannel(s.registry, op.value, i);
    }
  }

  /** Emitting the next row of a fill sends it on an open channel of its topic. */
  lemma EmitSends(env: S.Env, s: System, i: nat, f: nat)
    requires i < |s.registry.channels| && s.registry.channels[i].open
    requires f in s.fills && s.fills[f] != [] && Matches(s.registry.channels[i].topic, s.fills[f][0])
    ensures var q := Apply(env, s, Emit(f));
            i < |q.registry.channels| && SentBetween(s.registry.channels[i], q.registry.channels[i], s.fills[f][0])
  {
    ApplyRegistry(env, s, Emit(f));
    ApplyChannel(s.registry, Publish(s.fills[f][0]), i);
    var c, d := s.registry.channels[i], Apply(env, s, Emit(f)).registry.channels[i];
    assert Transcript(d)[|Transcript(c)|..] == [s.fills[f][0]];
  }

  lemma StepProgress(env: S.Env, s: System, step: Step, i: nat, f: nat)
    requires i < |s.registry.channels| && f in s.fills
    ensures var q := Apply(env, s, step);
            && i < |q.registry.channels| && f in q.fills
            && Progress(s.registry.channels[i], s.fills[f], q.registry.channels[i], q.fills[f])
  {
    StepGrows(env, s, step, i);
    if step == Emit(f) && s.fills[f] != [] {
      assert s.fills[f] == [s.fills[f][0]] + s.fills[f][1..];
      if s.registry.channels[i].open && Matches(s.registry.channels[i].topic, s.fills[f][0]) {
        EmitSends(env, s, i, f);
      }
    }
  }

  lemma {:induction false} RunProgress(env: S.Env, s: System, steps: seq<Step>, i: nat, f: nat)
    requires i < |s.registry.channels| && f in s.fills
    ensures var q := Run(env, s, steps);
            && i < |q.registry.channels| && f in q.fills
            && Progress(s.registry.channels[i], s.fills[f], q.registry.channels[i], q.fills[f])
  {
    if steps != [] {
      var init := steps[..|steps| - 1];
      var m, q := Run(env, s, init), Run(env, s, steps);
      RunProgress(env, s, init, i, f);
      StepProgress(env, m, steps[|steps| - 1], i, f);
      ProgressOn(s.registry.channels[i], s.fills[f], m.registry.channels[i], m.fills[f],
                 q.registry.channels[i], q.fills[f]);
    }
  }

  /** The client has `p` at `d`, unless `p` was overwritten between `c` and `d`. */
  ghost predicate Kept(c: Channel, d: Channel, p: Payload) {
    Holds(d, p) || (|c.past| <= |d.past| && Overwritten(p) in d.past[|c.past|..])
  }

  lemma KeptAt(c: Channel, d: Channel, k: nat)
    requires Grows(c, d) && |c.past| <= k < |Transcript(d)|
    ensures Kept(c, d, Transcript(d)[k])
  {
    var p := Transcript(d)[k];
    if k < |d.past| {
      assert d.past[k] == d.past[|c.past|..][k - |c.past|];
      assert d.past[k] == Received(p) || d.past[k] == Overwritten(p);
    } else {
      assert p == d.buffer[k - |d.past|];
    }
  }

  /** What the client had, and what the finished fill read, it has; unless it was overwritten meanwhile. */
  lemma ProgressKeeps(c: Channel, left: seq<Payload>, d: Channel, p: Payload)
    requires Progress(c, left, d, []) && d.open && Matches(c.topic, p) && (p in left || Holds(c, p))
    ensures Kept(c, d, p)
  {
    if p in left {
      var k :| 0 <= k < |Transcript(d)[|Transcript(c)|..]| && Transcript(d)[|Transcript(c)|..][k] == p;
      KeptAt(c, d, |Transcript(c)| + k);
    } else if p in c.buffer {
      var k :| 0 <= k < |c.buffer| && c.buffer[k] == p;
      assert Transcript(d)[|c.past| + k] == Transcript(c)[|c.past| + k];
      KeptAt(c, d, |c.past| + k);
    } else {
      var k :| 0 <= k < |c.past| && c.past[k] == Received(p);
      assert d.past[k] == c.past[k];
    }
  }

  /** The database's part of a run. */
  function Writes(steps: seq<Step>): seq<S.Step> {
    if steps == [] then []
    else
      var rest, last := Writes(steps[..|steps| - 1]), steps[|steps| - 1];
      if last.Database? then rest + [last.write] else rest
  }

  lemma WritesOn(steps: seq<S.Step>, w: S.Step, env: S.Env, s: S.Store)
    ensures S.Run(env, s, steps + [w]) == S.Apply(env, S.Run(env, s, steps), w)
  {
    assert (steps + [w])[..|steps|] == steps;
  }

  lemma StoreStep(env: S.Env, s: System, step: Step)
    ensures Apply(env, s, step).store == if step.Database? then S.Apply(env, s.store, step.write) else s.store
  {
  }

  lemma {:induction false} StoreRuns(env: S.Env, s: System, steps: seq<Step>)
    ensures Run(env, s, steps).store == S.Run(env, s.store, Writes(steps))
  {
    if steps != [] {
      var init, last := steps[..|steps| - 1], steps[|steps| - 1];
      StoreRuns(env, s, init);
      StoreStep(env, Run(env, s, init), last);
      if last.Database? {
        WritesOn(Writes(init), last.write, env, s.store);
      }
    }
  }

  /** An event that becomes visible after a fill read the table is not behind the events it read. */
  lemma NothingBehind(env: S.Env, before: seq<S.Step>, after: seq<S.Step>, e: Uuid, p: Payload)
    requires var s := S.Run(env, S.EMPTY, before);
             p in S.EventsOf(S.Run(env, s, after), e) && p.sequence <= |S.EventsOf(s, e)|
    ensures var events := S.EventsOf(S.Run(env, S.EMPTY, before), e);
            1 <= p.sequence <= |events| && events[p.sequence - 1] == p
  {
    var s := S.Run(env, S.EMPTY, before);
    S.RunKeeps(env, S.EMPTY, before);
    S.RunKeeps(env, s, after);
    assert S.Gapless(s.rows, e) && S.Gapless(S.Run(env, s, after).rows, e);
    if p !in S.EventsOf(s, e) {
      S.VisibleInOrder(env, before, after, e, S.EventsOf(s, e)[p.sequence - 1], p);
    }
  }

  /** The k-th event is among the rows a fill read, if it is beyond the cursor. */
  lemma InGapRows(rows: seq<Payload>, e: Uuid, c: int, k: int)
    requires S.Gapless(rows, e) && c < k && 1 <= k <= |Select(Engagement(e), rows)|
    ensures Select(Engagement(e), rows)[k - 1] in GapRows(rows, e, c)
  {
    GapRowsAreTheTail(rows, e, c);
    var at := if c <= 0 then k - 1 else k - 1 - c;
    assert GapRows(rows, e, c)[at] == Select(Engagement(e), rows)[k - 1];
  }

  /** What a subscriber of `e` was sent under sequence `k` is the k-th committed event of `e`. */
  lemma OneRowPerSequence(rows: seq<Payload>, e: Uuid, c: Channel, p: Payload)
    requires S.Gapless(rows, e) && c.topic == Engagement(e) && ChannelOk(c, rows)
    requires Holds(c, p)
    ensures var events := Select(Engagement(e), rows);
            1 <= p.sequence <= |events| && events[p.sequence - 1] == p
  {
    HeldWasSent(c, p);
    S.SelectMembers(Engagement(e), rows);
    var events := Select(Engagement(e), rows);
    var j :| 0 <= j < |events| && events[j] == p;
  }

  lemma HeldWasSent(c: Channel, p: Payload)
    requires Holds(c, p)
    ensures p in Transcript(c)
  {
    if Received(p) in c.past {
      var k :| 0 <= k < |c.past| && c.past[k] == Received(p);
      assert Transcript(c)[k] == p;
    }
  }

  /** The event is among the rows the fill read or the client had it. */
  lemma ReadOrHeld(rows: seq<Payload>, e: Uuid, c: int, mine: Channel, p: Payload)
    requires S.Gapless(rows, e) && mine.topic == Engagement(e) && ChannelOk(mine, rows)
    requires var events := Select(Engagement(e), rows);
             1 <= p.sequence <= |events| && events[p.sequence - 1] == p
    requires p.sequence <= c ==> Has(mine, p.sequence)
    ensures p in GapRows(rows, e, c) || Holds(mine, p)
    ensures Matches(Engagement(e), p)
  {
    if p.sequence > c {
      InGapRows(rows, e, c, p.sequence);
    } else {
      var r :| Holds(mine, r) && r.sequence == p.sequence;
      OneRowPerSequence(rows, e, mine, r);
    }
  }

  /**
   Recovery loses nothing. Take any run, then a gap-fill that reads the table at cursor `c`, then any
   further run (writers, lost notifications, reconnects, other fills, other subscribers) by whose end
   the fill has emitted all it read. Let `p` be any event of the engagement then visible whose sequence
   is one of those committed when the fill read the table, and take a subscriber that is still open.
   If the event is beyond the cursor, or the client had it before the fill, then the client has
   received it or has it waiting, unless this very event was overwritten in the client's channel since
   the fill read the table. Earlier overruns of the same channel do not matter.
   */
  lemma RecoveryLosesNothing(env: S.Env, before: seq<Step>, f: nat, e: Uuid, c: int, after: seq<Step>,
                             i: nat, p: Payload)
    requires var s := Run(env, INITIAL, before);
             && f !in s.fills && i < |s.registry.channels| && s.registry.channels[i].topic == Engagement(e)
             && p.sequence <= |S.EventsOf(s.store, e)|
             && (p.sequence <= c ==> Has(s.registry.channels[i], p.sequence))
    requires var q := Run(env, Apply(env, Run(env, INITIAL, before), Query(f, e, c)), after);
             && f in q.fills && q.fills[f] == [] && i < |q.registry.channels| && q.registry.channels[i].open
             && p in S.EventsOf(q.store, e)
    ensures var s := Run(env, INITIAL, before);
            var q := Run(env, Apply(env, s, Query(f, e, c)), after);
            Kept(s.registry.channels[i], q.registry.channels[i], p)
  {
    var s := Run(env, INITIAL, before);
    RunKeeps(env, INITIAL, before);
    var s1 := Queried(env, s, f, e, c);
    StoreRuns(env, INITIAL, before);
    StoreRuns(env, s1, after);
    NothingBehind(env, Writes(before), Writes(after), e, p);
    RunProgress(env, s1, after, i, f);
    assert S.Gapless(s.store.rows, e);
    ReadOrHeld(s.store.rows, e, c, s.registry.channels[i], p);
    ProgressKeeps(s.registry.channels[i], s1.fills[f], Run(env, s1, after).registry.channels[i], p);
  }

  lemma Queried(env: S.Env, s: System, f: nat, e: Uuid, c: int) returns (s1: System)
    requires f !in s.fills
    ensures s1 == Apply(env, s, Query(f, e, c))
    ensures s1.store == s.store && s1.registry == s.registry
    ensures f in s1.fills && s1.fills[f] == GapRows(s.store.rows, e, c)
  {
    s1 := Apply(env, s, Query(f, e, c));
  }

  // ----- exactly when a gap-fill call recovers everything -----

  function PublishedAll(r: Registry, ps: seq<Payload>): Registry {
    if ps == [] then r else Published(PublishedAll(r, ps[..|ps| - 1]), ps[|ps| - 1])
  }

  function Emits(f: nat, n: nat): seq<Step> {
    if n == 0 then [] else Emits(f, n - 1) + [Emit(f)]
  }

  lemma EmitOne(env: S.Env, s: System, f: nat)
    requires f in s.fills && s.fills[f] != []
    ensures var q := Apply(env, s, Emit(f));
            && q.registry == Published(s.registry, s.fills[f][0])
            && f in q.fills && q.fills[f] == s.fills[f][1..] && q.store == s.store && q.link == s.link
  {
  }

  lemma PublishedNext(r: Registry, ps: seq<Payload>, n: nat)
    requires 0 < n <= |ps|
    ensures PublishedAll(r, ps[..n]) == Published(PublishedAll(r, ps[..n - 1]), ps[n - 1])
    ensures ps[n - 1..][0] == ps[n - 1] && ps[n - 1..][1..] == ps[n..]
  {
    assert ps[..n][..n - 1] == ps[..n - 1];
  }

  /** A fill left to itself sends the rows it has left, in order, and is then finished: its steps are the loop of
      the gap-fill call. */
  lemma {:induction false} EmitsAreTheCall(env: S.Env, s: System, f: nat, n: nat)
    requires f in s.fills && n <= |s.fills[f]|
    ensures var q := Run(env, s, Emits(f, n));
            && q.registry == PublishedAll(s.registry, s.fills[f][..n])
            && f in q.fills && q.fills[f] == s.fills[f][n..] && q.store == s.store && q.link == s.link
  {
    if n > 0 {
      EmitsAreTheCall(env, s, f, n - 1);
      var init := Emits(f, n - 1);
      assert (init + [Emit(f)])[..|init|] == init;
      PublishedNext(s.registry, s.fills[f], n);
      EmitOne(env, Run(env, s, init), f);
    }
  }

  function Overflow(n: nat): nat {
    if n <= CHANNEL_CAP then 0 else n - CHANNEL_CAP
  }

  function Overwrites(ps: seq<Payload>): seq<Fate> {
    seq(|ps|, i requires 0 <= i < |ps| => Overwritten(ps[i]))
  }

  /** A channel after `ps` were sent on it with nobody reading: of the unread entries followed by `ps`,
      the latest 256 are waiting and those before them are overwritten. */
  function Burst(c: Channel, ps: seq<Payload>): Channel {
    var all := c.buffer + ps;
    c.(past := c.past + Overwrites(all[..Overflow(|all|)]), buffer := all[Overflow(|all|)..])
  }

  lemma BurstPush(c: Channel, ps: seq<Payload>, p: Payload)
    requires |c.buffer| <= CHANNEL_CAP
    ensures Push(Burst(c, ps), p) == Burst(c, ps + [p])
  {
    var some, all := c.buffer + ps, c.buffer + (ps + [p]);
    assert all == some + [p];
    var m, n := Overflow(|some|), Overflow(|all|);
    if |some| >= CHANNEL_CAP {
      assert all[..n] == some[..m] + [some[m]];
      assert Overwrites(all[..n]) == Overwrites(some[..m]) + [Overwritten(some[m])];
      assert all[n..] == some[m..][1..] + [p];
      assert c.past + Overwrites(all[..n]) == c.past + Overwrites(some[..m]) + [Overwritten(some[m])];
    }
  }

  /** A burst of fan-outs is a burst of the matching payloads on each open channel. */
  lemma {:induction false} BurstOnChannel(r: Registry, ps: seq<Payload>, i: nat)
    requires i < |r.channels| && r.channels[i].open && |r.channels[i].buffer| <= CHANNEL_CAP
    ensures var q := PublishedAll(r, ps);
            |q.channels| == |r.channels| && q.channels[i] == Burst(r.channels[i], Select(r.channels[i].topic, ps))
  {
    var c := r.channels[i];
    if ps == [] {
      assert c.buffer + [] == c.buffer;
      assert c.past + Overwrites([]) == c.past;
    } else {
      BurstOnChannel(r, ps[..|ps| - 1], i);
      BurstPush(c, Select(c.topic, ps[..|ps| - 1]), ps[|ps| - 1]);
    }
  }

  lemma SelectAll(t: Topic, s: seq<Payload>)
    requires forall k :: 0 <= k < |s| ==> Matches(t, s[k])
    ensures Select(t, s) == s
  {
    if s != [] {
      SelectAll(t, s[..|s| - 1]);
      assert s == s[..|s| - 1] + [s[|s| - 1]];
    }
  }

  lemma TailNumbers(events: seq<Payload>, c: int)
    requires forall k :: 0 <= k < |events| ==> events[k].sequence == k + 1
    ensures var tail := Tail(events, c);
            && |events| - |tail| == (if c <= 0 then 0 else Min(c, |events|))
            && forall k :: 0 <= k < |tail| ==> tail[k].sequence == |events| - |tail| + k + 1
  {
  }

  /** The call sends exactly the events after the cursor. */
  lemma FillRows(rows: seq<Payload>, e: Uuid, c: int)
    requires S.Gapless(rows, e)
    ensures var found, n := GapRows(rows, e, c), |Select(Engagement(e), rows)|;
            && n - |found| == (if c <= 0 then 0 else Min(c, n))
            && Select(Engagement(e), found) == found
            && forall k :: 0 <= k < |found| ==> found[k].sequence == n - |found| + k + 1
  {
    GapRowsAreTheTail(rows, e, c);
    TailNumbers(Select(Engagement(e), rows), c);
    SelectAll(Engagement(e), Tail(Select(Engagement(e), rows), c));
  }

  /** The event with sequence `k` is in `ps`. */
  ghost predicate Numbered(ps: seq<Payload>, k: int) {
    exists p :: p in ps && p.sequence == k
  }

  /** The client holds `k` already, or has read it from the channel. */
  ghost predicate Owned(held: set<int>, c: Channel, k: int) {
    k in held || exists p :: Received(p) in c.past && p.sequence == k
  }

  /** The client has each of the sequences 1..n: held from before, read, or waiting in the channel. */
  ghost predicate Complete(n: int, held: set<int>, c: Channel) {
    forall k :: 1 <= k <= n ==> k in held || Has(c, k)
  }

  lemma HasMeans(held: set<int>, c: Channel, k: int)
    ensures k in held || Has(c, k) <==> Owned(held, c, k) || Numbered(c.buffer, k)
  {
    forall p | Holds(c, p) && p.sequence == k ensures Owned(held, c, k) || Numbered(c.buffer, k) {
    }
    forall p: Payload | (Received(p) in c.past || p in c.buffer) && p.sequence == k ensures Has(c, k) {
      assert Holds(c, p);
    }
  }

  /** Overwriting does not change what was read. */
  lemma BurstOwned(held: set<int>, c: Channel, ps: seq<Payload>, k: int)
    ensures Owned(held, Burst(c, ps), k) <==> Owned(held, c, k)
  {
    var d := Burst(c, ps);
    assert forall j :: |c.past| <= j < |d.past| ==> d.past[j].Overwritten?;
    forall p ensures Received(p) in d.past <==> Received(p) in c.past {
    }
  }

  lemma NumberedSplit(a: seq<Payload>, b: seq<Payload>, n: nat, k: int)
    requires n <= |a + b|
    ensures Numbered(a, k) || Numbered(b, k) <==> Numbered((a + b)[..n], k) || Numbered((a + b)[n..], k)
  {
    assert a + b == (a + b)[..n] + (a + b)[n..];
    assert forall p :: p in a + b <==> p in a || p in b;
    assert forall p :: p in a + b <==> p in (a + b)[..n] || p in (a + b)[n..];
  }

  /** What a client has after a burst, in terms of what it had before. */
  ghost predicate Spared(held: set<int>, c: Channel, ps: seq<Payload>, k: int) {
    Owned(held, c, k) || Numbered((c.buffer + ps)[Overflow(|c.buffer + ps|)..], k)
  }

  lemma BurstHas(held: set<int>, c: Channel, ps: seq<Payload>, k: int)
    ensures k in held || Has(Burst(c, ps), k) <==> Spared(held, c, ps, k)
  {
    HasMeans(held, Burst(c, ps), k);
    BurstOwned(held, c, ps, k);
  }
  lemma SparedBelow(held: set<int>, c: Channel, ps: seq<Payload>, k: int)
    requires Spared(held, c, ps, k) && forall j :: 0 <= j < |ps| ==> ps[j].sequence > k
    ensures k in held || Has(c, k)
  {
    HasMeans(held, c, k);
    NumberedSplit(c.buffer, ps, Overflow(|c.buffer + ps|), k);
  }

  lemma SparedAll(held: set<int>, c: Channel, ps: seq<Payload>, k: int)
    requires k in held || Has(c, k) || Numbered(ps, k)
    requires var all := c.buffer + ps;
             forall p :: p in all[..Overflow(|all|)] ==> Spared(held, c, ps, p.sequence)
    ensures Spared(held, c, ps, k)
  {
    HasMeans(held, c, k);
    NumberedSplit(c.buffer, ps, Overflow(|c.buffer + ps|), k);
  }

  /** Sending the events `from + 1 .. n` completes a view up to `n` exactly if it was complete up to
      `from` and the client can spare every entry that is overwritten. */
  lemma BurstCompletes(held: set<int>, c: Channel, ps: seq<Payload>, from: nat)
    requires forall k :: 0 <= k < |ps| ==> ps[k].sequence == from + k + 1
    requires forall p :: p in c.buffer ==> 1 <= p.sequence <= from + |ps|
    ensures var all := c.buffer + ps;
            Complete(from + |ps|, held, Burst(c, ps)) <==>
            Complete(from, held, c) && forall p :: p in all[..Overflow(|all|)] ==> Spared(held, c, ps, p.sequence)
  {
    var n, d, all := from + |ps|, Burst(c, ps), c.buffer + ps;
    if Complete(n, held, d) {
      forall k | 1 <= k <= from ensures k in held || Has(c, k) {
        BurstHas(held, c, ps, k);
        SparedBelow(held, c, ps, k);
      }
      forall p | p in all[..Overflow(|all|)] ensures Spared(held, c, ps, p.sequence) {
        BurstHas(held, c, ps, p.sequence);
      }
    }
    if Complete(from, held, c) && forall p :: p in all[..Overflow(|all|)] ==> Spared(held, c, ps, p.sequence) {
      forall k | 1 <= k <= n ensures k in held || Has(d, k) {
        if k > from {
          assert ps[k - from - 1] in ps;
        }
        SparedAll(held, c, ps, k);
        BurstHas(held, c, ps, k);
      }
    }
  }

  lemma BufferedNumbers(rows: seq<Payload>, e: Uuid, c: Channel)
    requires S.Gapless(rows, e) && c.topic == Engagement(e) && ChannelOk(c, rows)
    ensures forall p :: p in c.buffer ==> 1 <= p.sequence <= |Select(Engagement(e), rows)|
  {
    forall p | p in c.buffer ensures 1 <= p.sequence <= |Select(Engagement(e), rows)| {
      OneRowPerSequence(rows, e, c, p);
    }
  }

  /**
   One gap-fill call at any cursor, in any reachable state. `lost` are the entries that the call
   overwrites: the oldest of the unread ones followed by the events beyond the cursor, as many as do
   not fit. The call leaves the client with every committed event of the engagement (held from an
   earlier subscription, read, or waiting) if and only if the client had every event up to its cursor
   before, and has each of the lost ones otherwise. When the unread and the missing events fit the
   channel nothing is lost and the first condition alone decides.
   */
  lemma RecoveryExact(env: S.Env, steps: seq<Step>, e: Uuid, c: int, i: nat, held: set<int>)
    requires var s := Run(env, INITIAL, steps);
             i < |s.registry.channels| && s.registry.channels[i].open && s.registry.channels[i].topic == Engagement(e)
    ensures var s := Run(env, INITIAL, steps);
            var q, found := PublishedAll(s.registry, GapRows(s.store.rows, e, c)), GapRows(s.store.rows, e, c);
            var mine, n := s.registry.channels[i], |S.EventsOf(s.store, e)|;
            var all := mine.buffer + found;
            var lost := all[..Overflow(|all|)];
            && |found| == n - (if c <= 0 then 0 else Min(c, n))
            && |q.channels| == |s.registry.channels| && q.channels[i] == Burst(mine, found)
            && (Complete(n, held, q.channels[i]) <==>
                Complete(Min(c, n), held, mine) && forall p :: p in lost ==> Spared(held, mine, found, p.sequence))
  {
    RunKeeps(env, INITIAL, steps);
    var s := Run(env, INITIAL, steps);
    var mine, found := s.registry.channels[i], GapRows(s.store.rows, e, c);
    assert S.Gapless(s.store.rows, e);
    FillRows(s.store.rows, e, c);
    BurstOnChannel(s.registry, found, i);
    BufferedNumbers(s.store.rows, e, mine);
    BurstCompletes(held, mine, found, |S.EventsOf(s.store, e)| - |found|);
  }

  /** A client that comes back on a fresh subscription and fills from its cursor, reading nothing until the
      call is over, is left with the latest 256 of the events it missed and with nothing before them. */
  lemma ResubscribeExact(env: S.Env, steps: seq<Step>, e: Uuid, c: int, i: nat, k: int)
    requires var s := Run(env, INITIAL, steps);
             i < |s.registry.channels| && s.registry.channels[i] == Channel(Engagement(e), [], [], true)
    ensures var s := Run(env, INITIAL, steps);
            var q, n := PublishedAll(s.registry, GapRows(s.store.rows, e, c)), |S.EventsOf(s.store, e)|;
            && |q.channels| == |s.registry.channels|
            && (Has(q.channels[i], k) <==> 1 <= k <= n && k > c && k > n - 256)
  {
    RunKeeps(env, INITIAL, steps);
    var s := Run(env, INITIAL, steps);
    var mine, found := s.registry.channels[i], GapRows(s.store.rows, e, c);
    assert S.Gapless(s.store.rows, e);
    FillRows(s.store.rows, e, c);
    BurstOnChannel(s.registry, found, i);
    BurstHas({}, mine, found, k);
    FreshBurst(mine, found, |S.EventsOf(s.store, e)| - |found|, k);
  }

  lemma FreshBurst(c: Channel, ps: seq<Payload>, from: nat, k: int)
    requires c.past == [] && c.buffer == [] && forall j :: 0 <= j < |ps| ==> ps[j].sequence == from + j + 1
    ensures Spared({}, c, ps, k) <==> from + Overflow(|ps|) < k <= from + |ps|
  {
    assert c.buffer + ps == ps;
    var o := Overflow(|ps|);
    if from + o < k <= from + |ps| {
      assert ps[o..][k - from - 1 - o] == ps[k - from - 1];
      assert ps[k - from - 1] in ps[o..];
    }
  }

  /** The gap-fill as the manager runs it: query, then one fan-out per row; a failed query sends nothing. */
  method GapFillEngagement(queryFails: bool, rows: seq<Payload>, engagementId: Uuid, lastSeen: int,
                           registry: SubscriberRegistry)
    returns (r: Result<(), string>)
    requires Valid(registry.State())
    modifies registry
    ensures Valid(registry.State()) && r.Ok? == !queryFails
    ensures registry.State() ==
            if queryFails then old(registry.State())
            else PublishedAll(old(registry.State()), GapRows(rows, engagementId, lastSeen))
  {
    if queryFails {
      return Err("gap-fill query failed");
    }
    var found := GapRows(rows, engagementId, lastSeen);
    for n := 0 to |found|
      invariant Valid(registry.State())
      invariant registry.State() == PublishedAll(old(registry.State()), found[..n])
    {
      assert found[..n + 1][..n] == found[..n];
      registry.Fanout(found[n]);
    }
    assert found[..|found|] == found;
    return Ok(());
  }

  // ----- the highest sequence seen is not a safe cursor -----

  lemma Extend(env: S.Env, steps: seq<Step>, step: Step)
    ensures Run(env, INITIAL, steps + [step]) == Apply(env, Run(env, INITIAL, steps), step)
  {
    assert (steps + [step])[..|steps|] == steps;
  }

  function Row(env: S.Env, e: Uuid, org: Uuid, k: int): Payload {
    Payload(e, org, env.batchOf(e), k, k, 1, None)
  }

  /** One writer's transaction with nobody else at work, on the store alone. */
  lemma WriteOnStore(env: S.Env, s: S.Store, e: Uuid, org: Uuid, k: nat)
    requires s.txs == map[] && s.locks == map[] && s.nextPk == k && S.MaxSequence(s.rows, e) == k - 1
    ensures var s1 := S.Apply(env, s, S.Lock(k, e));
            var s2 := S.Apply(env, s1, S.Insert(k, org, 1, None));
            && NewRows(s, S.Lock(k, e)) == [] && NewRows(s1, S.Insert(k, org, 1, None)) == []
            && NewRows(s2, S.Commit(k)) == [Row(env, e, org, k)]
            && S.Apply(env, s2, S.Commit(k)) == s.(rows := s.rows + [Row(env, e, org, k)], nextPk := k + 1)
  {
    var s1 := S.Apply(env, s, S.Lock(k, e));
    var s2 := S.Apply(env, s1, S.Insert(k, org, 1, None));
    assert s2.txs - {k} == map[] && s2.locks - {env.lockKey(e)} == map[];
  }

  lemma WriteOne(env: S.Env, steps: seq<Step>, e: Uuid, org: Uuid, k: nat) returns (more: seq<Step>)
    requires var s := Run(env, INITIAL, steps).store;
             s.txs == map[] && s.locks == map[] && s.nextPk == k && S.MaxSequence(s.rows, e) == k - 1
    ensures var s, q := Run(env, INITIAL, steps), Run(env, INITIAL, more);
            && q.store == s.store.(rows := s.store.rows + [Row(env, e, org, k)], nextPk := k + 1)
            && q.link == (if s.link.Some? then Some(s.link.value + [Row(env, e, org, k)]) else None)
            && q.registry == s.registry && q.fills == s.fills
  {
    WriteOnStore(env, Run(env, INITIAL, steps).store, e, org, k);
    var lock, insert, commit := Database(S.Lock(k, e)), Database(S.Insert(k, org, 1, None)), Database(S.Commit(k));
    Extend(env, steps, lock);
    Extend(env, steps + [lock], insert);
    Extend(env, steps + [lock] + [insert], commit);
    more := steps + [lock] + [insert] + [commit];
    var s := Run(env, INITIAL, steps);
    if s.link.Some? {
      assert s.link.value + [] + [] + [Row(env, e, org, k)] == s.link.value + [Row(env, e, org, k)];
    }
  }

  /** How a notification can miss the manager: there is no connection, it is lost on the way, or the connection
      fails before it arrives. */
  datatype Loss = NotConnected | OnTheWay | ConnectionFails

  /**
   A subscriber whose highest seen sequence is 2, and a gap-fill from there: event 1 was committed and
   its notification lost, in any of the three ways, event 2 was notified, and the fill from 2 sends
   nothing, so event 1 is never sent.
   */
  lemma HighestSeenCursorCanSkip(env: S.Env, e: Uuid, org: Uuid, how: Loss) returns (steps: seq<Step>)
    ensures var s := Run(env, INITIAL, steps);
            var q := PublishedAll(s.registry, GapRows(s.store.rows, e, 2));
            && |q.channels| == |s.registry.channels| == 1
            && s.registry.channels[0].open && s.registry.channels[0].topic == Engagement(e)
            && |S.EventsOf(s.store, e)| == 2
            && Has(s.registry.channels[0], 2) && (forall k :: Has(s.registry.channels[0], k) ==> k <= 2)
            && !Has(q.channels[0], 1)
  {
    var first, second := Row(env, e, org, 1), Row(env, e, org, 2);
    steps := LateEvent(env, e, org, how);
    var s := Run(env, INITIAL, steps);
    RunKeeps(env, INITIAL, steps);
    SelectAll(Engagement(e), [first, second]);
    NothingToFill(s.store.rows, e, 2);
    OnlyHas(s.registry.channels[0], second);
  }

  lemma NothingToFill(rows: seq<Payload>, e: Uuid, c: nat)
    requires S.Gapless(rows, e) && |Select(Engagement(e), rows)| == c
    ensures GapRows(rows, e, c) == []
  {
    GapRowsAreTheTail(rows, e, c);
  }

  lemma OnlyHas(c: Channel, p: Payload)
    requires c.past == [] && c.buffer == [p]
    ensures forall k :: Has(c, k) <==> k == p.sequence
  {
    assert Holds(c, p);
  }

  /** A registry with one open channel on `e`, holding just `waiting`. */
  ghost predicate Alone(r: Registry, e: Uuid, waiting: seq<Payload>) {
    r.channels == [Channel(Engagement(e), [], waiting, true)]
  }

  /** Join, miss event 1, and be connected. */
  lemma MissedEvent(env: S.Env, e: Uuid, org: Uuid, how: Loss) returns (steps: seq<Step>)
    ensures var s := Run(env, INITIAL, steps);
            && s.store == S.Store([Row(env, e, org, 1)], 2, map[], map[])
            && s.link == Some([]) && Alone(s.registry, e, [])
  {
    Extend(env, [], Join(Engagement(e)));
    steps := [] + [Join(Engagement(e))];
    var s := Run(env, INITIAL, steps);
    assert s == INITIAL.(registry := Subscribed(EMPTY, Engagement(e)));
    if how.NotConnected? {
      steps := WriteOne(env, steps, e, org, 1);
      Extend(env, steps, Connect);
      steps := steps + [Connect];
    } else {
      Extend(env, steps, Connect);
      steps := WriteOne(env, steps + [Connect], e, org, 1);
      steps := Missed(env, steps, Row(env, e, org, 1), how);
    }
  }

  lemma Missed(env: S.Env, steps: seq<Step>, p: Payload, how: Loss) returns (more: seq<Step>)
    requires Run(env, INITIAL, steps).link == Some([] + [p]) && !how.NotConnected?
    ensures Run(env, INITIAL, more) == Run(env, INITIAL, steps).(link := Some([]))
  {
    if how.OnTheWay? {
      assert ([] + [p])[1..] == [];
      Extend(env, steps, LoseNotification);
      more := steps + [LoseNotification];
    } else {
      Extend(env, steps, Disconnect);
      Extend(env, steps + [Disconnect], Connect);
      more := steps + [Disconnect] + [Connect];
    }
  }

  /** After that, be notified of event 2. */
  lemma LateEvent(env: S.Env, e: Uuid, org: Uuid, how: Loss) returns (steps: seq<Step>)
    ensures var s := Run(env, INITIAL, steps);
            && s.store.rows == [Row(env, e, org, 1), Row(env, e, org, 2)]
            && Alone(s.registry, e, [Row(env, e, org, 2)])
  {
    var first, second := Row(env, e, org, 1), Row(env, e, org, 2);
    steps := MissedEvent(env, e, org, how);
    assert S.MaxSequence([first], e) == 1;
    steps := WriteOne(env, steps, e, org, 2);
    assert [first] + [second] == [first, second] && [] + [second] == [second];
    steps := Notified(env, steps, e, second);
  }

  lemma NotifyOne(r: Registry, e: Uuid, p: Payload)
    requires Alone(r, e, []) && p.engagementId == e
    ensures Alone(Published(r, p), e, [p])
  {
    assert r.channels[0].buffer + [p] == [p];
  }

  lemma Notified(env: S.Env, steps: seq<Step>, e: Uuid, p: Payload) returns (more: seq<Step>)
    requires var s := Run(env, INITIAL, steps);
             s.link == Some([p]) && Alone(s.registry, e, []) && p.engagementId == e
    ensures var s, q := Run(env, INITIAL, steps), Run(env, INITIAL, more);
            q.store == s.store && Alone(q.registry, e, [p])
  {
    NotifyOne(Run(env, INITIAL, steps).registry, e, p);
    Extend(env, steps, Notify);
    more := steps + [Notify];
  }

  // ----- a fill can overrun the channel it fills -----

  /** A run that commits `n` events of `e`, and a subscriber that joins afterwards. */
  lemma {:induction false} Written(env: S.Env, e: Uuid, org: Uuid, n: nat) returns (steps: seq<Step>)
    ensures var s := Run(env, INITIAL, steps);
            && s.store.txs == map[] && s.store.locks == map[] && s.store.nextPk == n + 1
            && |S.EventsOf(s.store, e)| == n && s.registry == EMPTY
  {
    steps := [];
    if n > 0 {
      steps := Written(env, e, org, n - 1);
      var store := Run(env, INITIAL, steps).store;
      RunKeeps(env, INITIAL, steps);
      assert S.Gapless(store.rows, e);
      S.MaxIsCount(store.rows, e);
      steps := WriteOne(env, steps, e, org, n);
      SelectAppend(Engagement(e), store.rows, Row(env, e, org, n));
    }
  }

  /**
   A client without any hole below its cursor can still miss events: it joins an engagement with more
   than 256 events and fills from 0, and the call overwrites event 1 before the client can read it.
   */
  lemma FillCanOverrun(env: S.Env, e: Uuid, org: Uuid, n: nat) returns (steps: seq<Step>)
    requires n > 256
    ensures var s := Run(env, INITIAL, steps);
            var q := PublishedAll(s.registry, GapRows(s.store.rows, e, 0));
            && s.registry.channels == [Channel(Engagement(e), [], [], true)] && |q.channels| == 1
            && |S.EventsOf(s.store, e)| == n && !Has(q.channels[0], 1)
  {
    var written := Written(env, e, org, n);
    Extend(env, written, Join(Engagement(e)));
    steps := written + [Join(Engagement(e))];
    ResubscribeExact(env, steps, e, 0, 0, 1);
  }
}
