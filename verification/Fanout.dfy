/**
 The subscriber registry of the LISTEN/NOTIFY manager: two maps of sender vectors, one bounded
 broadcast channel per subscription, and the fan-out that sends a payload to every matching channel
 while pruning senders whose receiver is gone.

 A broadcast channel overwrites its oldest unread entry when it is full; `send` fails only when no
 receiver is left.
 */
module Fanout {
  import opened Prelude

  const CHANNEL_CAP: nat := 256

  datatype Payload = Payload(
    engagementId: Uuid,
    organizationId: Uuid,
    batchId: Option<Uuid>,
    sequence: int,
    eventPk: int,
    eventType: int,
    traceparent: Option<string>)

  datatype Topic = Engagement(id: Uuid) | Batch(id: Uuid)

  predicate Matches(t: Topic, p: Payload) {
    match t
    case Engagement(e) => p.engagementId == e
    case Batch(b) => p.batchId == Some(b)
  }

  /** The payloads of `s` that a subscriber to `t` is entitled to, in order: those of its engagement, or
      those of its batch. */
  function Select(t: Topic, s: seq<Payload>): seq<Payload> {
    if s == [] then []
    else
      var rest, last := Select(t, s[..|s| - 1]), s[|s| - 1];
      if t == Engagement(last.engagementId) || (last.batchId.Some? && t == Batch(last.batchId.value))
      then rest + [last] else rest
  }

  lemma SelectAppend(t: Topic, s: seq<Payload>, p: Payload)
    ensures Select(t, s + [p]) == if Matches(t, p) then Select(t, s) + [p] else Select(t, s)
  {
    assert (s + [p])[..|s|] == s;
  }

  // ----- one broadcast channel -----

  /** How an entry left a channel's buffer: read by the receiver, or overwritten unread. */
  datatype Fate = Received(payload: Payload) | Overwritten(payload: Payload)

  /** `past` lists the entries that left the buffer, oldest first; `buffer` the unread ones. */
  datatype Channel = Channel(topic: Topic, past: seq<Fate>, buffer: seq<Payload>, open: bool)

  function Payloads(past: seq<Fate>): seq<Payload> {
    seq(|past|, i requires 0 <= i < |past| => past[i].payload)
  }

  /** Everything ever sent on the channel, in order. */
  function Transcript(c: Channel): seq<Payload> {
    Payloads(c.past) + c.buffer
  }

  function Push(c: Channel, p: Payload): Channel {
    if |c.buffer| < CHANNEL_CAP then c.(buffer := c.buffer + [p])
    else c.(past := c.past + [Overwritten(c.buffer[0])], buffer := c.buffer[1..] + [p])
  }

  function Pop(c: Channel): Channel {
    if !c.open || c.buffer == [] then c
    else c.(past := c.past + [Received(c.buffer[0])], buffer := c.buffer[1..])
  }

  /** An entry is overwritten only once more than `CHANNEL_CAP` entries were sent. */
  predicate Bounded(c: Channel) {
    && |c.buffer| <= CHANNEL_CAP
    && ((exists i :: 0 <= i < |c.past| && c.past[i].Overwritten?) ==> |c.past| + |c.buffer| > CHANNEL_CAP)
  }

  lemma PushExtends(c: Channel, p: Payload)
    ensures Transcript(Push(c, p)) == Transcript(c) + [p] && (Bounded(c) ==> Bounded(Push(c, p)))
  {
    var d := Push(c, p);
    assert |Transcript(d)| == |Transcript(c)| + 1;
    assert forall i :: 0 <= i < |Transcript(c)| ==> Transcript(d)[i] == Transcript(c)[i];
    assert forall i :: 0 <= i < |c.past| ==> d.past[i] == c.past[i];
  }

  lemma PopKeeps(c: Channel)
    ensures Transcript(Pop(c)) == Transcript(c) && (Bounded(c) ==> Bounded(Pop(c)))
  {
    assert forall i :: 0 <= i < |c.past| ==> Pop(c).past[i] == c.past[i];
  }

  // ----- the registry -----

  type Senders = map<Uuid, seq<nat>>

  /** A sender is the index of its channel. */
  datatype Registry = Registry(byEngagement: Senders, byBatch: Senders, channels: seq<Channel>)

  const EMPTY: Registry := Registry(map[], map[], [])

  function Lookup(m: Senders, k: Uuid): seq<nat> {
    if k in m then m[k] else []
  }

  function Registered(r: Registry, t: Topic): seq<nat> {
    match t
    case Engagement(e) => Lookup(r.byEngagement, e)
    case Batch(b) => Lookup(r.byBatch, b)
  }

  predicate Distinct(s: seq<nat>) {
    forall i, j :: 0 <= i < j < |s| ==> s[i] != s[j]
  }

  /** A sender list holds each of its channels once, and only channels of its topic. */
  predicate SendersOf(r: Registry, t: Topic, s: seq<nat>) {
    && Distinct(s)
    && forall i :: 0 <= i < |s| ==> s[i] < |r.channels| && r.channels[s[i]].topic == t
  }

  ghost predicate Valid(r: Registry) {
    && (forall e :: e in r.byEngagement ==> r.byEngagement[e] != [] && SendersOf(r, Engagement(e), r.byEngagement[e]))
    && (forall b :: b in r.byBatch ==> r.byBatch[b] != [] && SendersOf(r, Batch(b), r.byBatch[b]))
    && (forall i :: 0 <= i < |r.channels| && r.channels[i].open ==> i in Registered(r, r.channels[i].topic))
    && (forall i :: 0 <= i < |r.channels| ==> Bounded(r.channels[i]))
  }

  function Subscribed(r: Registry, t: Topic): Registry {
    var id := |r.channels|;
    var q := r.(channels := r.channels + [Channel(t, [], [], true)]);
    match t
    case Engagement(e) => q.(byEngagement := r.byEngagement[e := Lookup(r.byEngagement, e) + [id]])
    case Batch(b) => q.(byBatch := r.byBatch[b := Lookup(r.byBatch, b) + [id]])
  }

  /** The senders of `s` with a live receiver. */
  function Alive(channels: seq<Channel>, s: seq<nat>): seq<nat> {
    if s == [] then []
    else
      var rest, last := Alive(channels, s[..|s| - 1]), s[|s| - 1];
      if last < |channels| && channels[last].open then rest + [last] else rest
  }

  /** The sender map after a fan-out to key `k`: dead senders gone, and the key with its last sender. */
  function Pruned(channels: seq<Channel>, m: Senders, k: Uuid): Senders {
    if k !in m then m
    else
      var kept := Alive(channels, m[k]);
      if kept == [] then m - {k} else m[k := kept]
  }

  /** The channels after a fan-out: every open channel on a matching topic gets `p` once. */
  function Broadcast(channels: seq<Channel>, p: Payload): (r: seq<Channel>)
    ensures |r| == |channels|
  {
    seq(|channels|, i requires 0 <= i < |channels| =>
      if channels[i].open && Matches(channels[i].topic, p) then Push(channels[i], p) else channels[i])
  }

  function Published(r: Registry, p: Payload): Registry {
    Registry(
      Pruned(r.channels, r.byEngagement, p.engagementId),
      if p.batchId.Some? then Pruned(r.channels, r.byBatch, p.batchId.value) else r.byBatch,
      Broadcast(r.channels, p))
  }

  function Polled(r: Registry, i: nat): Registry {
    if i < |r.channels| then r.(channels := r.channels[i := Pop(r.channels[i])]) else r
  }

  function Dropped(r: Registry, i: nat): Registry {
    if i < |r.channels| then r.(channels := r.channels[i := r.channels[i].(open := false)]) else r
  }

  // ----- every operation keeps the registry valid -----

  lemma AliveProperties(r: Registry, t: Topic, s: seq<nat>)
    requires SendersOf(r, t, s)
    ensures SendersOf(r, t, Alive(r.channels, s))
    ensures forall i :: i in Alive(r.channels, s) <==> i in s && i < |r.channels| && r.channels[i].open
  {
    if s != [] {
      var init := s[..|s| - 1];
      AliveProperties(r, t, init);
      assert s == init + [s[|s| - 1]];
      assert s[|s| - 1] !in init;
    }
  }

  lemma SendersOfStays(r: Registry, q: Registry, t: Topic, s: seq<nat>)
    requires SendersOf(r, t, s) && |r.channels| <= |q.channels|
    requires forall i :: 0 <= i < |r.channels| ==> q.channels[i].topic == r.channels[i].topic
    ensures SendersOf(q, t, s)
  {
  }

  lemma SubscribedSenders(r: Registry, t: Topic)
    requires Valid(r)
    ensures var q := Subscribed(r, t);
            && (forall e :: e in q.byEngagement ==>
                  q.byEngagement[e] != [] && SendersOf(q, Engagement(e), q.byEngagement[e]))
            && (forall b :: b in q.byBatch ==> q.byBatch[b] != [] && SendersOf(q, Batch(b), q.byBatch[b]))
  {
    var q := Subscribed(r, t);
    assert SendersOf(r, t, Registered(r, t));
    assert SendersOf(q, t, Registered(r, t) + [|r.channels|]);
    forall e | e in r.byEngagement ensures SendersOf(q, Engagement(e), r.byEngagement[e]) {
      SendersOfStays(r, q, Engagement(e), r.byEngagement[e]);
    }
    forall b | b in r.byBatch ensures SendersOf(q, Batch(b), r.byBatch[b]) {
      SendersOfStays(r, q, Batch(b), r.byBatch[b]);
    }
  }

  lemma SubscribedRegistered(r: Registry, t: Topic, i: nat)
    requires Valid(r) && i < |Subscribed(r, t).channels| && Subscribed(r, t).channels[i].open
    ensures i in Registered(Subscribed(r, t), Subscribed(r, t).channels[i].topic)
  {
    var q := Subscribed(r, t);
    if i < |r.channels| {
      assert q.channels[i] == r.channels[i];
      assert i in Registered(r, r.channels[i].topic);
    } else {
      assert Registered(q, t)[|Registered(r, t)|] == i;
    }
  }

  lemma SubscribedValid(r: Registry, t: Topic)
    requires Valid(r)
    ensures Valid(Subscribed(r, t))
  {
    var q := Subscribed(r, t);
    SubscribedSenders(r, t);
    forall i | 0 <= i < |q.channels| && q.channels[i].open
      ensures i in Registered(q, q.channels[i].topic)
    {
      SubscribedRegistered(r, t, i);
    }
  }

  lemma BroadcastChannel(r: Registry, p: Payload, i: nat)
    requires i < |r.channels|
    ensures var c, d := r.channels[i], Broadcast(r.channels, p)[i];
            && d.topic == c.topic && d.open == c.open && (Bounded(c) ==> Bounded(d))
            && Transcript(d) == Transcript(c) + if c.open && Matches(c.topic, p) then [p] else []
  {
    var c := r.channels[i];
    if c.open && Matches(c.topic, p) {
      PushExtends(c, p);
    }
  }

  lemma PublishedSenders(r: Registry, p: Payload)
    requires Valid(r)
    ensures var q := Published(r, p);
            && (forall e :: e in q.byEngagement ==>
                  q.byEngagement[e] != [] && SendersOf(r, Engagement(e), q.byEngagement[e]))
            && (forall b :: b in q.byBatch ==> q.byBatch[b] != [] && SendersOf(r, Batch(b), q.byBatch[b]))
            && (forall i :: 0 <= i < |r.channels| && r.channels[i].open ==> i in Registered(q, r.channels[i].topic))
  {
    var q := Published(r, p);
    if p.engagementId in r.byEngagement {
      AliveProperties(r, Engagement(p.engagementId), r.byEngagement[p.engagementId]);
    }
    if p.batchId.Some? && p.batchId.value in r.byBatch {
      AliveProperties(r, Batch(p.batchId.value), r.byBatch[p.batchId.value]);
    }
    forall i | 0 <= i < |r.channels| && r.channels[i].open
      ensures i in Registered(q, r.channels[i].topic)
    {
      assert i in Registered(r, r.channels[i].topic);
    }
  }

  lemma PublishedValid(r: Registry, p: Payload)
    requires Valid(r)
    ensures Valid(Published(r, p))
  {
    var q := Published(r, p);
    PublishedSenders(r, p);
    forall i | 0 <= i < |q.channels|
      ensures Bounded(q.channels[i])
      ensures q.channels[i].topic == r.channels[i].topic && q.channels[i].open == r.channels[i].open
    {
      BroadcastChannel(r, p, i);
    }
    forall e | e in q.byEngagement ensures SendersOf(q, Engagement(e), q.byEngagement[e]) {
      SendersOfStays(r, q, Engagement(e), q.byEngagement[e]);
    }
    forall b | b in q.byBatch ensures SendersOf(q, Batch(b), q.byBatch[b]) {
      SendersOfStays(r, q, Batch(b), q.byBatch[b]);
    }
  }

  /** Changing one channel keeps validity when it stays bounded, on its topic, and is not reopened. */
  lemma UpdatedValid(r: Registry, i: nat, c: Channel)
    requires Valid(r) && i < |r.channels| && Bounded(c)
    requires c.topic == r.channels[i].topic && (c.open ==> r.channels[i].open)
    ensures Valid(r.(channels := r.channels[i := c]))
  {
    var q := r.(channels := r.channels[i := c]);
    forall e | e in r.byEngagement ensures SendersOf(q, Engagement(e), r.byEngagement[e]) {
      SendersOfStays(r, q, Engagement(e), r.byEngagement[e]);
    }
    forall b | b in r.byBatch ensures SendersOf(q, Batch(b), r.byBatch[b]) {
      SendersOfStays(r, q, Batch(b), r.byBatch[b]);
    }
    forall j | 0 <= j < |q.channels| && q.channels[j].open
      ensures j in Registered(q, q.channels[j].topic)
    {
      assert r.channels[j].open && q.channels[j].topic == r.channels[j].topic;
      assert j in Registered(r, r.channels[j].topic);
    }
  }

  lemma PolledValid(r: Registry, i: nat)
    requires Valid(r)
    ensures Valid(Polled(r, i)) && Valid(Dropped(r, i))
  {
    if i < |r.channels| {
      PopKeeps(r.channels[i]);
      UpdatedValid(r, i, Pop(r.channels[i]));
      UpdatedValid(r, i, r.channels[i].(open := false));
    }
  }

  // ----- runs: the registry refines a filtered log -----

  datatype Op = Subscribe(topic: Topic) | Publish(payload: Payload) | Receive(rx: nat) | Drop(rx: nat)

  function Apply(r: Registry, op: Op): Registry {
    match op
    case Subscribe(t) => Subscribed(r, t)
    case Publish(p) => Published(r, p)
    case Receive(i) => Polled(r, i)
    case Drop(i) => Dropped(r, i)
  }

  lemma ApplyValid(r: Registry, op: Op)
    requires Valid(r)
    ensures Valid(Apply(r, op))
  {
    match op
    case Subscribe(t) => SubscribedValid(r, t);
    case Publish(p) => PublishedValid(r, p);
    case Receive(i) => PolledValid(r, i);
    case Drop(i) => PolledValid(r, i);
  }

  /** What one operation does to the channel of an existing subscription. */
  lemma ApplyChannel(r: Registry, op: Op, i: nat)
    requires i < |r.channels|
    ensures var q := Apply(r, op);
            && |r.channels| <= |q.channels|
            && q.channels[i].topic == r.channels[i].topic
            && q.channels[i].open == (r.channels[i].open && op != Drop(i))
            && r.channels[i].past <= q.channels[i].past
            && Transcript(q.channels[i]) == Transcript(r.channels[i]) +
               if op.Publish? && r.channels[i].open && Matches(r.channels[i].topic, op.payload)
               then [op.payload] else []
  {
    match op
    case Subscribe(t) =>
    case Publish(p) => BroadcastChannel(r, p, i);
    case Receive(j) => PopKeeps(r.channels[i]);
    case Drop(j) =>
  }

  lemma ApplyBounded(r: Registry, op: Op, i: nat)
    requires i < |r.channels| && Bounded(r.channels[i])
    ensures var q := Apply(r, op); i < |q.channels| && Bounded(q.channels[i])
  {
    match op
    case Subscribe(t) =>
    case Publish(p) => BroadcastChannel(r, p, i);
    case Receive(j) => PopKeeps(r.channels[i]);
    case Drop(j) =>
  }

  function Run(r: Registry, ops: seq<Op>): Registry {
    if ops == [] then r else Apply(Run(r, ops[..|ops| - 1]), ops[|ops| - 1])
  }

  /** Every run keeps the registry valid: each open channel is in the one sender list of its topic, once,
      and no list is empty. */
  lemma {:induction false} RunValid(r: Registry, ops: seq<Op>)
    requires Valid(r)
    ensures Valid(Run(r, ops))
  {
    if ops != [] {
      RunValid(r, ops[..|ops| - 1]);
      ApplyValid(Run(r, ops[..|ops| - 1]), ops[|ops| - 1]);
    }
  }

  /** The payloads fanned out by a run, in order. */
  function Feed(ops: seq<Op>): seq<Payload> {
    if ops == [] then []
    else
      var rest := Feed(ops[..|ops| - 1]);
      if ops[|ops| - 1].Publish? then rest + [ops[|ops| - 1].payload] else rest
  }

  /**
   A subscription that stays open has been sent exactly the payloads of its topic that were fanned
   out since it subscribed: in order, each once, nothing else, whatever the other subscribers do.
   */
  lemma {:induction false} LiveTranscript(before: Registry, t: Topic, during: seq<Op>)
    requires Drop(|before.channels|) !in during
    ensures var i, after := |before.channels|, Run(Subscribed(before, t), during);
            && i < |after.channels| && after.channels[i].topic == t && after.channels[i].open
            && Transcript(after.channels[i]) == Select(t, Feed(during)) && Bounded(after.channels[i])
  {
    if during != [] {
      var init, last := during[..|during| - 1], during[|during| - 1];
      LiveTranscript(before, t, init);
      ApplyChannel(Run(Subscribed(before, t), init), last, |before.channels|);
      ApplyBounded(Run(Subscribed(before, t), init), last, |before.channels|);
      if last.Publish? {
        SelectAppend(t, Feed(init), last.payload);
      }
    }
  }

  /** How a fan-out of `p` takes a subscriber's channel from `c` to `d`: an open channel of the payload's
      engagement, and an open channel of its batch, is sent it once, at the end; any other stays as it was. */
  ghost predicate Sent(c: Channel, d: Channel, p: Payload) {
    if c.open && (c.topic == Engagement(p.engagementId) || (p.batchId.Some? && c.topic == Batch(p.batchId.value)))
    then d.open && d.topic == c.topic && Transcript(d) == Transcript(c) + [p]
    else d == c
  }

  lemma FanoutReaches(r: Registry, p: Payload)
    ensures var q := Apply(r, Publish(p));
            |q.channels| == |r.channels| && forall i :: 0 <= i < |r.channels| ==> Sent(r.channels[i], q.channels[i], p)
  {
    forall i | 0 <= i < |r.channels| {
      BroadcastChannel(r, p, i);
    }
  }

  function Receives(i: nat, n: nat): seq<Op> {
    if n == 0 then [] else Receives(i, n - 1) + [Receive(i)]
  }

  function AllReceived(ps: seq<Payload>): seq<Fate> {
    seq(|ps|, k requires 0 <= k < |ps| => Received(ps[k]))
  }

  /** A subscriber that reads `n` times gets the `n` oldest unread entries, in order, and no others. */
  lemma {:induction false} ReceivesInOrder(r: Registry, i: nat, n: nat)
    requires i < |r.channels| && r.channels[i].open && n <= |r.channels[i].buffer|
    ensures var c, q := r.channels[i], Run(r, Receives(i, n));
            && |q.channels| == |r.channels|
            && q.channels[i] == c.(past := c.past + AllReceived(c.buffer[..n]), buffer := c.buffer[n..])
            && forall j :: 0 <= j < |r.channels| && j != i ==> q.channels[j] == r.channels[j]
  {
    var c := r.channels[i];
    if n == 0 {
      assert c.past + AllReceived(c.buffer[..0]) == c.past;
    } else {
      ReceivesInOrder(r, i, n - 1);
      var init := Receives(i, n - 1);
      assert (init + [Receive(i)])[..|init|] == init;
      ReceiveOne(c, n);
    }
  }

  lemma ReceiveOne(c: Channel, n: nat)
    requires c.open && 0 < n <= |c.buffer|
    ensures var d := c.(past := c.past + AllReceived(c.buffer[..n - 1]), buffer := c.buffer[n - 1..]);
            Pop(d) == c.(past := c.past + AllReceived(c.buffer[..n]), buffer := c.buffer[n..])
  {
    assert AllReceived(c.buffer[..n]) == AllReceived(c.buffer[..n - 1]) + [Received(c.buffer[n - 1])];
    assert c.past + AllReceived(c.buffer[..n - 1]) + [Received(c.buffer[n - 1])] == c.past + AllReceived(c.buffer[..n]);
    assert c.buffer[n - 1..][1..] == c.buffer[n..];
  }

  /** A sender list that a fan-out left behind: there is one exactly if someone is listening, and it holds
      only live senders. */
  ghost predicate Live(m: Senders, k: Uuid, channels: seq<Channel>, t: Topic) {
    && (k in m <==> exists i :: 0 <= i < |channels| && channels[i].open && channels[i].topic == t)
    && (k in m ==> forall i :: i in m[k] ==> i < |channels| && channels[i].open && channels[i].topic == t)
  }

  /** The sender map `m` with the list of `k` alone changed. */
  ghost predicate Others(m: Senders, was: Senders, k: Uuid) {
    forall j :: j != k ==> (j in m <==> j in was) && (j in m ==> m[j] == was[j])
  }

  lemma PrunedLive(r: Registry, m: Senders, k: Uuid, t: Topic)
    requires k in m ==> SendersOf(r, t, m[k])
    requires forall i :: 0 <= i < |r.channels| && r.channels[i].open && r.channels[i].topic == t ==> i in Lookup(m, k)
    ensures Live(Pruned(r.channels, m, k), k, r.channels, t) && Others(Pruned(r.channels, m, k), m, k)
  {
    if k in m {
      AliveProperties(r, t, m[k]);
      var kept := Alive(r.channels, m[k]);
      if kept != [] {
        assert kept[0] in kept;
      }
    }
  }

  lemma LiveStays(m: Senders, k: Uuid, a: seq<Channel>, b: seq<Channel>, t: Topic)
    requires Live(m, k, a, t) && |a| == |b|
    requires forall i :: 0 <= i < |a| ==> a[i].open == b[i].open && a[i].topic == b[i].topic
    ensures Live(m, k, b, t)
  {
  }

  /** What a fan-out of `p` does to the sender lists: those it used hold exactly live senders, their keys are
      gone if there are none, and no other key changes. */
  ghost predicate Swept(r: Registry, q: Registry, p: Payload) {
    && Live(q.byEngagement, p.engagementId, q.channels, Engagement(p.engagementId))
    && Others(q.byEngagement, r.byEngagement, p.engagementId)
    && (p.batchId.None? ==> q.byBatch == r.byBatch)
    && (p.batchId.Some? ==>
          && Live(q.byBatch, p.batchId.value, q.channels, Batch(p.batchId.value))
          && Others(q.byBatch, r.byBatch, p.batchId.value))
  }

  lemma FanoutSweeps(r: Registry, p: Payload)
    requires Valid(r)
    ensures Swept(r, Apply(r, Publish(p)), p)
  {
    var q := Published(r, p);
    forall i | 0 <= i < |r.channels|
      ensures q.channels[i].open == r.channels[i].open && q.channels[i].topic == r.channels[i].topic
    {
      BroadcastChannel(r, p, i);
    }
    PrunedLive(r, r.byEngagement, p.engagementId, Engagement(p.engagementId));
    LiveStays(q.byEngagement, p.engagementId, r.channels, q.channels, Engagement(p.engagementId));
    if p.batchId.Some? {
      PrunedLive(r, r.byBatch, p.batchId.value, Batch(p.batchId.value));
      LiveStays(q.byBatch, p.batchId.value, r.channels, q.channels, Batch(p.batchId.value));
    }
  }

  /** A dropped subscription is never sent anything again. */
  lemma {:induction false} DroppedTranscript(r: Registry, i: nat, after: seq<Op>)
    requires i < |r.channels| && !r.channels[i].open
    ensures var q := Run(r, after);
            i < |q.channels| && !q.channels[i].open && Transcript(q.channels[i]) == Transcript(r.channels[i])
  {
    if after != [] {
      DroppedTranscript(r, i, after[..|after| - 1]);
      ApplyChannel(Run(r, after[..|after| - 1]), after[|after| - 1], i);
    }
  }

  /** A subscriber sent at most `CHANNEL_CAP` payloads has lost none of them. */
  lemma NothingLostWithinCapacity(before: Registry, t: Topic, during: seq<Op>)
    requires Drop(|before.channels|) !in during && |Select(t, Feed(during))| <= 256
    ensures var i, after := |before.channels|, Run(Subscribed(before, t), during);
            && i < |after.channels|
            && forall k :: 0 <= k < |after.channels[i].past| ==> after.channels[i].past[k].Received?
  {
    LiveTranscript(before, t, during);
    var c := Run(Subscribed(before, t), during).channels[|before.channels|];
    assert Bounded(c) && |Transcript(c)| == |c.past| + |c.buffer|;
  }

  // ----- the registry as the manager keeps it: maps updated in place under one lock -----

  class SubscriberRegistry {
    var byEngagement: Senders
    var byBatch: Senders
    var channels: seq<Channel>

    function State(): Registry
      reads this
    {
      Registry(byEngagement, byBatch, channels)
    }

    constructor ()
      ensures State() == EMPTY && Valid(State())
    {
      byEngagement, byBatch, channels := map[], map[], [];
    }

    method SubscribeEngagement(engagementId: Uuid) returns (rx: nat)
      requires Valid(State())
      modifies this
      ensures rx == old(|channels|)
      ensures State() == Subscribed(old(State()), Engagement(engagementId)) && Valid(State())
    {
      SubscribedValid(State(), Engagement(engagementId));
      rx := |channels|;
      channels := channels + [Channel(Engagement(engagementId), [], [], true)];
      byEngagement := byEngagement[engagementId := Lookup(byEngagement, engagementId) + [rx]];
    }

    method SubscribeBatch(batchId: Uuid) returns (rx: nat)
      requires Valid(State())
      modifies this
      ensures rx == old(|channels|)
      ensures State() == Subscribed(old(State()), Batch(batchId)) && Valid(State())
    {
      SubscribedValid(State(), Batch(batchId));
      rx := |channels|;
      channels := channels + [Channel(Batch(batchId), [], [], true)];
      byBatch := byBatch[batchId := Lookup(byBatch, batchId) + [rx]];
    }

    /** `senders.retain(|tx| tx.send(payload).is_ok())`. */
    method Retain(senders: seq<nat>, p: Payload) returns (kept: seq<nat>)
      requires Distinct(senders) && forall i :: 0 <= i < |senders| ==> senders[i] < |channels|
      modifies this`channels
      ensures |channels| == old(|channels|)
      ensures kept == Alive(old(channels), senders)
      ensures forall c :: 0 <= c < |channels| ==>
                channels[c] ==
                if c in senders && old(channels[c]).open then Push(old(channels[c]), p) else old(channels[c])
    {
      kept := [];
      for n := 0 to |senders|
        invariant |channels| == old(|channels|)
        invariant kept == Alive(old(channels), senders[..n])
        invariant forall c :: 0 <= c < |channels| ==>
                    channels[c] ==
                    if c in senders[..n] && old(channels[c]).open then Push(old(channels[c]), p)
                    else old(channels[c])
      {
        var tx := senders[n];
        assert tx !in senders[..n];
        assert senders[..n + 1] == senders[..n] + [tx];
        assert senders[..n + 1][..n] == senders[..n];
        if channels[tx].open {
          channels := channels[tx := Push(channels[tx], p)];
          kept := kept + [tx];
        }
      }
      assert senders[..|senders|] == senders;
    }

    /** One half of a fan-out: send to the senders under `k`, prune them, drop the key with its last one. */
    method FanoutKey(m: Senders, k: Uuid, ghost t: Topic, p: Payload) returns (pruned: Senders)
      requires k in m ==> SendersOf(State(), t, m[k])
      modifies this`channels
      ensures |channels| == old(|channels|) && pruned == Pruned(old(channels), m, k)
      ensures forall c :: 0 <= c < |channels| ==>
                channels[c] ==
                if c in Lookup(m, k) && old(channels[c]).open then Push(old(channels[c]), p)
                else old(channels[c])
    {
      pruned := m;
      if k in m {
        var kept := Retain(m[k], p);
        pruned := if kept == [] then m - {k} else m[k := kept];
      }
    }

    /** Send `p` once to every open channel of its engagement and of its batch; of the sender lists it
        used, keep the live senders, and drop the key with its last one. */
    method Fanout(p: Payload)
      requires Valid(State())
      modifies this
      ensures State() == Published(old(State()), p) && Valid(State())
      ensures Swept(old(State()), State(), p) && |channels| == old(|channels|)
      ensures forall c :: 0 <= c < |channels| ==> Sent(old(channels[c]), channels[c], p)
    {
      ghost var r := State();
      PublishedValid(r, p);
      byEngagement := FanoutKey(byEngagement, p.engagementId, Engagement(p.engagementId), p);
      ghost var mid := channels;
      if p.batchId.Some? {
        var b := p.batchId.value;
        if b in byBatch {
          SendersOfStays(r, State(), Batch(b), byBatch[b]);
          SameAlive(r.channels, mid, byBatch[b]);
        }
        byBatch := FanoutKey(byBatch, b, Batch(b), p);
      }
      forall c | 0 <= c < |channels|
        ensures channels[c] == Broadcast(r.channels, p)[c]
      {
        FanoutChannel(r, p, c);
      }
      assert channels == Broadcast(r.channels, p);
      FanoutSweeps(r, p);
      FanoutReaches(r, p);
    }
  }

  /** An open channel sits in the one sender list of its topic and in no other. */
  lemma FanoutChannel(r: Registry, p: Payload, c: nat)
    requires Valid(r) && c < |r.channels|
    ensures c in Lookup(r.byEngagement, p.engagementId) ==> r.channels[c].topic == Engagement(p.engagementId)
    ensures p.batchId.Some? && c in Lookup(r.byBatch, p.batchId.value) ==> r.channels[c].topic == Batch(p.batchId.value)
    ensures r.channels[c].open && Matches(r.channels[c].topic, p) ==>
              || c in Lookup(r.byEngagement, p.engagementId)
              || (p.batchId.Some? && c in Lookup(r.byBatch, p.batchId.value))
  {
  }

  lemma SameAlive(a: seq<Channel>, b: seq<Channel>, s: seq<nat>)
    requires |a| == |b| && forall c :: 0 <= c < |a| ==> a[c].open == b[c].open
    ensures Alive(a, s) == Alive(b, s)
  {
  }
}
