/**
 The bounded-queue span processor: `on_end` offers a span to a bounded channel without waiting; one
 background task moves spans into a batch and exports it when it is full or on a tick; shutdown closes
 the channel and drains it. `on_end` runs concurrently, so it may fall between any two steps of the
 task, in particular while an export is awaited.
 */
module SpanProcessor {
  const QUEUE_CAPACITY: nat := 2048
  const MAX_BATCH: nat := 512

  /** Spans are moved, never inspected. */
  type Span = nat

  datatype Outcome = Delivered | Failed | TimedOut

  /** One completed export call. */
  datatype Call = Call(spans: seq<Span>, delivered: bool)

  /** Where the task goes on after an export. */
  datatype Resume = ToSelect | ToDrain | ToEnd

  datatype Phase = Selecting | Draining | Exporting(spans: seq<Span>, resume: Resume) | Finished

  /**
   `offered`, `rejected` and `calls` record, in order, the spans given to `on_end`, those the channel
   refused, and the completed exports; `dropped` is the counter the processor publishes.
   */
  datatype State = State(
    capacity: nat,
    queue: seq<Span>,
    closed: bool,
    batch: seq<Span>,
    phase: Phase,
    dropped: nat,
    offered: seq<Span>,
    rejected: seq<Span>,
    calls: seq<Call>)

  function Initial(capacity: nat): State {
    State(capacity, [], false, [], Selecting, 0, [], [], [])
  }

  datatype Step = Offer(span: Span) | Tick | Receive | Exported(outcome: Outcome) | ShutdownSignal | DrainOne

  /** Move the oldest queued span into the batch, and export a full batch. */
  function TakeOne(s: State, idle: Phase, resume: Resume): State
    requires s.queue != []
  {
    var batch := s.batch + [s.queue[0]];
    if |batch| >= MAX_BATCH then s.(queue := s.queue[1..], batch := [], phase := Exporting(batch, resume))
    else s.(queue := s.queue[1..], batch := batch, phase := idle)
  }

  function After(r: Resume): Phase {
    match r
    case ToSelect => Selecting
    case ToDrain => Draining
    case ToEnd => Finished
  }

  /** A step that the current phase does not allow changes nothing. */
  function Apply(s: State, step: Step): State {
    match step
    case Offer(span) =>
      var t := s.(offered := s.offered + [span]);
      if s.closed || |s.queue| >= s.capacity then t.(dropped := s.dropped + 1, rejected := s.rejected + [span])
      else t.(queue := s.queue + [span])
    case Tick =>
      if s.phase.Selecting? && s.batch != [] then s.(batch := [], phase := Exporting(s.batch, ToSelect)) else s
    case Receive =>
      if s.phase.Selecting? && s.queue != [] then TakeOne(s, Selecting, ToSelect) else s
    case Exported(o) =>
      if s.phase.Exporting? then
        s.(phase := After(s.phase.resume),
           dropped := s.dropped + if o.Delivered? then 0 else |s.phase.spans|,
           calls := s.calls + [Call(s.phase.spans, o.Delivered?)])
      else s
    case ShutdownSignal =>
      if s.phase.Selecting? then s.(closed := true, phase := Draining) else s
    case DrainOne =>
      if !s.phase.Draining? then s
      else if s.queue != [] then TakeOne(s, Draining, ToDrain)
      else if s.batch != [] then s.(batch := [], phase := Exporting(s.batch, ToEnd))
      else s.(phase := Finished)
  }

  function Run(s: State, steps: seq<Step>): State {
    if steps == [] then s else Apply(Run(s, steps[..|steps| - 1]), steps[|steps| - 1])
  }

  // ----- conservation -----

  function SpansOf(calls: seq<Call>): seq<Span> {
    if calls == [] then [] else SpansOf(calls[..|calls| - 1]) + calls[|calls| - 1].spans
  }

  function Having(calls: seq<Call>, delivered: bool): seq<Span> {
    if calls == [] then []
    else
      var rest, last := Having(calls[..|calls| - 1], delivered), calls[|calls| - 1];
      if last.delivered == delivered then rest + last.spans else rest
  }

  function InFlight(s: State): seq<Span> {
    if s.phase.Exporting? then s.phase.spans else []
  }

  /** Everything the channel accepted, oldest first, wherever it is now. */
  function Accepted(s: State): seq<Span> {
    SpansOf(s.calls) + InFlight(s) + s.batch + s.queue
  }

  /** `a` is `b` with some elements left out. */
  predicate Subsequence(a: seq<Span>, b: seq<Span>)
    decreases |b|
  {
    a == [] || (b != [] && (Subsequence(a, b[..|b| - 1]) ||
                            (a[|a| - 1] == b[|b| - 1] && Subsequence(a[..|a| - 1], b[..|b| - 1]))))
  }

  predicate Sized(spans: seq<Span>) {
    1 <= |spans| <= MAX_BATCH
  }

  predicate PhaseOk(s: State) {
    match s.phase
    case Selecting => !s.closed && |s.batch| < MAX_BATCH
    case Draining => s.closed && |s.batch| < MAX_BATCH
    case Exporting(spans, ToSelect) => !s.closed && Sized(spans) && s.batch == []
    case Exporting(spans, ToDrain) => s.closed && Sized(spans) && s.batch == []
    case Exporting(spans, ToEnd) => s.closed && Sized(spans) && s.batch == [] && s.queue == []
    case Finished => s.closed && s.batch == [] && s.queue == []
  }

  /** Batch sizes, queue bound and counter. */
  predicate Shape(s: State) {
    && PhaseOk(s)
    && |s.queue| <= s.capacity
    && (forall i :: 0 <= i < |s.calls| ==> Sized(s.calls[i].spans))
    && s.dropped == |s.rejected| + |Having(s.calls, false)|
  }

  /** The accepted and the rejected spans make up the offered ones, the accepted ones in order. */
  ghost predicate Balance(accepted: seq<Span>, rejected: seq<Span>, offered: seq<Span>) {
    && Subsequence(accepted, offered)
    && multiset(offered) == multiset(accepted) + multiset(rejected)
  }

  ghost predicate Invariant(s: State) {
    Shape(s) && Balance(Accepted(s), s.rejected, s.offered)
  }

  lemma Snoc<T>(s: seq<T>, x: T)
    ensures (s + [x])[..|s|] == s && (s + [x])[|s|] == x && multiset(s + [x]) == multiset(s) + multiset{x}
  {
  }

  lemma BalanceOffer(accepted: seq<Span>, rejected: seq<Span>, offered: seq<Span>, span: Span)
    requires Balance(accepted, rejected, offered)
    ensures Balance(accepted + [span], rejected, offered + [span])
    ensures Balance(accepted, rejected + [span], offered + [span])
  {
    Snoc(accepted, span);
    Snoc(rejected, span);
    Snoc(offered, span);
  }

  /** An offer appends to the accepted spans or to the rejected ones. */
  lemma OfferAccepted(s: State, span: Span)
    ensures var q := Apply(s, Offer(span));
            && q.offered == s.offered + [span]
            && (|| (Accepted(q) == Accepted(s) && q.rejected == s.rejected + [span])
                || (Accepted(q) == Accepted(s) + [span] && q.rejected == s.rejected))
  {
    var moved := SpansOf(s.calls) + InFlight(s) + s.batch;
    assert moved + (s.queue + [span]) == (moved + s.queue) + [span];
  }

  lemma TakeKeepsAccepted(s: State, idle: Phase, resume: Resume)
    requires s.queue != [] && InFlight(s) == [] && !idle.Exporting?
    ensures var q := TakeOne(s, idle, resume);
            Accepted(q) == Accepted(s) && q.rejected == s.rejected && q.offered == s.offered
  {
    MoveHead(SpansOf(s.calls), s.batch, s.queue);
  }

  lemma MoveHead(done: seq<Span>, batch: seq<Span>, queue: seq<Span>)
    requires queue != []
    ensures done + [] + batch + queue == done + [] + (batch + [queue[0]]) + queue[1..]
    ensures done + [] + batch + queue == done + (batch + [queue[0]]) + [] + queue[1..]
  {
    assert queue == [queue[0]] + queue[1..];
  }

  lemma MoveBatch(done: seq<Span>, batch: seq<Span>, queue: seq<Span>)
    ensures done + [] + batch + queue == done + batch + [] + queue
    ensures done + batch + [] + queue == (done + batch) + [] + [] + queue
  {
  }

  /** Exporting the batch, on a tick or at the end of the drain. */
  lemma FlushKeepsAccepted(s: State, resume: Resume)
    requires InFlight(s) == []
    ensures var q := s.(batch := [], phase := Exporting(s.batch, resume)); Accepted(q) == Accepted(s)
  {
    MoveBatch(SpansOf(s.calls), s.batch, s.queue);
  }

  lemma ExportedKeepsAccepted(s: State, o: Outcome)
    requires s.phase.Exporting? && s.batch == []
    ensures Accepted(Apply(s, Exported(o))) == Accepted(s)
  {
    var spans := s.phase.spans;
    Snoc(s.calls, Call(spans, o.Delivered?));
    assert SpansOf(s.calls + [Call(spans, o.Delivered?)]) == SpansOf(s.calls) + spans;
    MoveBatch(SpansOf(s.calls), spans, s.queue);
  }

  /** The task only moves spans along: accepted spans stay, in order. */
  lemma TaskKeepsAccepted(s: State, step: Step)
    requires PhaseOk(s) && !step.Offer?
    ensures Accepted(Apply(s, step)) == Accepted(s)
  {
    match step
    case Tick => if s.phase.Selecting? { FlushKeepsAccepted(s, ToSelect); }
    case Receive => if s.phase.Selecting? && s.queue != [] { TakeKeepsAccepted(s, Selecting, ToSelect); }
    case DrainOne =>
      if s.phase.Draining? {
        if s.queue != [] { TakeKeepsAccepted(s, Draining, ToDrain); } else { FlushKeepsAccepted(s, ToEnd); }
      }
    case Exported(o) => if s.phase.Exporting? { ExportedKeepsAccepted(s, o); }
    case ShutdownSignal =>
  }

  lemma TaskKeepsOffers(s: State, step: Step)
    requires !step.Offer?
    ensures Apply(s, step).rejected == s.rejected && Apply(s, step).offered == s.offered
  {
  }

  lemma ShapeKeeps(s: State, step: Step)
    requires Shape(s)
    ensures Shape(Apply(s, step))
  {
    if step.Exported? && s.phase.Exporting? {
      Snoc(s.calls, Call(s.phase.spans, step.outcome.Delivered?));
    }
  }

  lemma StepKeeps(s: State, step: Step)
    requires Invariant(s)
    ensures Invariant(Apply(s, step))
  {
    ShapeKeeps(s, step);
    if step.Offer? {
      OfferAccepted(s, step.span);
      BalanceOffer(Accepted(s), s.rejected, s.offered, step.span);
    } else {
      TaskKeepsAccepted(s, step);
      TaskKeepsOffers(s, step);
    }
  }

  lemma {:induction false} RunKeeps(s: State, steps: seq<Step>)
    requires Invariant(s)
    ensures Invariant(Run(s, steps))
  {
    if steps != [] {
      RunKeeps(s, steps[..|steps| - 1]);
      StepKeeps(Run(s, steps[..|steps| - 1]), steps[|steps| - 1]);
    }
  }

  lemma CallsSplit(calls: seq<Call>)
    ensures multiset(SpansOf(calls)) == multiset(Having(calls, true)) + multiset(Having(calls, false))
    ensures Subsequence(Having(calls, true), SpansOf(calls))
  {
    if calls != [] {
      var init, last := calls[..|calls| - 1], calls[|calls| - 1];
      CallsSplit(init);
      if last.delivered {
        SubsequenceAppend(Having(init, true), SpansOf(init), last.spans);
      } else {
        SubsequenceSkip(Having(init, true), SpansOf(init), last.spans);
      }
    }
  }

  lemma {:induction false} SubsequenceAppend(a: seq<Span>, b: seq<Span>, c: seq<Span>)
    requires Subsequence(a, b)
    ensures Subsequence(a + c, b + c)
    decreases |c|
  {
    if c == [] {
      assert a + c == a && b + c == b;
    } else {
      var init, last := c[..|c| - 1], c[|c| - 1];
      SubsequenceAppend(a, b, init);
      assert a + c == (a + init) + [last] && b + c == (b + init) + [last];
      Snoc(a + init, last);
      Snoc(b + init, last);
    }
  }

  lemma {:induction false} SubsequenceSkip(a: seq<Span>, b: seq<Span>, c: seq<Span>)
    requires Subsequence(a, b)
    ensures Subsequence(a, b + c)
    decreases |c|
  {
    if c == [] {
      assert b + c == b;
    } else {
      var init, last := c[..|c| - 1], c[|c| - 1];
      SubsequenceSkip(a, b, init);
      assert b + c == (b + init) + [last];
      Snoc(b + init, last);
    }
  }

  /** What an invariant state says about every offered span. */
  lemma Accounted(s: State)
    requires Invariant(s)
    ensures multiset(s.offered) == multiset(Having(s.calls, true)) + multiset(s.rejected + Having(s.calls, false))
                                   + multiset(InFlight(s)) + multiset(s.batch) + multiset(s.queue)
  {
    CallsSplit(s.calls);
    assert multiset(Accepted(s)) ==
           multiset(SpansOf(s.calls)) + multiset(InFlight(s)) + multiset(s.batch) + multiset(s.queue);
  }

  /**
   Over every run: each offered span is in exactly one place (delivered, counted as dropped, being
   exported, batched, queued), the counter is the number of the dropped ones, accepted spans keep the
   order they were offered in, and every export call carries between 1 and 512 spans.
   */
  lemma Conservation(capacity: nat, steps: seq<Step>)
    ensures var s := Run(Initial(capacity), steps);
            var lost := s.rejected + Having(s.calls, false);
            && multiset(s.offered) == multiset(Having(s.calls, true)) + multiset(lost)
                                      + multiset(InFlight(s)) + multiset(s.batch) + multiset(s.queue)
            && s.dropped == |lost|
            && Subsequence(Accepted(s), s.offered)
            && (forall i :: 0 <= i < |s.calls| ==> 1 <= |s.calls[i].spans| <= 512)
            && (s.phase.Exporting? ==> 1 <= |InFlight(s)| <= 512)
            && |s.queue| <= capacity
  {
    var s := Run(Initial(capacity), steps);
    RunKeeps(Initial(capacity), steps);
    CapacityFixed(Initial(capacity), steps);
    Accounted(s);
  }

  lemma {:induction false} CapacityFixed(s: State, steps: seq<Step>)
    ensures Run(s, steps).capacity == s.capacity
  {
    if steps != [] {
      CapacityFixed(s, steps[..|steps| - 1]);
    }
  }

  /** The spans given to `on_end` in a run. */
  function Offers(steps: seq<Step>): seq<Span> {
    if steps == [] then []
    else Offers(steps[..|steps| - 1]) + if steps[|steps| - 1].Offer? then [steps[|steps| - 1].span] else []
  }

  /** Those of them that found the queue closed or full. */
  function Refused(capacity: nat, steps: seq<Step>): seq<Span> {
    if steps == [] then []
    else
      var init, last := steps[..|steps| - 1], steps[|steps| - 1];
      var s := Run(Initial(capacity), init);
      Refused(capacity, init) + if last.Offer? && (s.closed || |s.queue| == capacity) then [last.span] else []
  }

  lemma StepRecords(s: State, step: Step)
    requires |s.queue| <= s.capacity
    ensures var q := Apply(s, step);
            && q.offered == s.offered + (if step.Offer? then [step.span] else [])
            && q.rejected == s.rejected +
               (if step.Offer? && (s.closed || |s.queue| == s.capacity) then [step.span] else [])
            && (q.closed ==> s.closed || step == ShutdownSignal)
  {
  }

  /** Over every run a span is refused if and only if it finds the queue closed, which takes a shutdown
      signal, or holding `capacity` spans; nothing else is refused and nothing else is recorded. */
  lemma {:induction false} RefusedExactly(capacity: nat, steps: seq<Step>)
    ensures var s := Run(Initial(capacity), steps);
            && s.offered == Offers(steps) && s.rejected == Refused(capacity, steps)
            && (s.closed ==> ShutdownSignal in steps)
  {
    if steps != [] {
      var init := steps[..|steps| - 1];
      RefusedExactly(capacity, init);
      RunKeeps(Initial(capacity), init);
      CapacityFixed(Initial(capacity), init);
      StepRecords(Run(Initial(capacity), init), steps[|steps| - 1]);
    }
  }

  /** An export starts only on a tick with a batch, with a full batch, or with what the drain has left; and
      it takes the whole batch, with the span just received. */
  lemma ExportsWhenDue(s: State, step: Step)
    requires Shape(s) && !s.phase.Exporting? && Apply(s, step).phase.Exporting?
    ensures var spans := Apply(s, step).phase.spans;
            || (step == Tick && spans == s.batch && s.phase.Selecting?)
            || (|spans| == 512 && s.queue != [] && spans == s.batch + [s.queue[0]])
            || (step == DrainOne && spans == s.batch && s.queue == [] && s.closed)
  {
  }

  // ----- shutdown -----

  lemma {:induction false} FinishedStays(s: State, steps: seq<Step>)
    requires Shape(s) && s.phase.Finished?
    ensures var q := Run(s, steps);
            && Shape(q) && q.phase.Finished? && q.calls == s.calls
            && q.dropped == s.dropped + (|q.offered| - |s.offered|)
  {
    if steps != [] {
      FinishedStays(s, steps[..|steps| - 1]);
      ShapeKeeps(Run(s, steps[..|steps| - 1]), steps[|steps| - 1]);
    }
  }

  /** Once the task has returned it stays so; from then on every span offered is counted as dropped,
      and the offered spans are exactly the delivered and the dropped ones. */
  lemma AfterShutdown(capacity: nat, steps: seq<Step>, more: seq<Step>)
    requires Run(Initial(capacity), steps).phase.Finished?
    ensures var s := Run(Initial(capacity), steps);
            var q := Run(s, more);
            var lost := q.rejected + Having(q.calls, false);
            && q.phase.Finished? && q.queue == [] && q.batch == [] && q.calls == s.calls
            && multiset(q.offered) == multiset(Having(q.calls, true)) + multiset(lost)
            && q.dropped == |lost| && q.dropped == s.dropped + (|q.offered| - |s.offered|)
  {
    var s := Run(Initial(capacity), steps);
    RunKeeps(Initial(capacity), steps);
    RunKeeps(s, more);
    FinishedStays(s, more);
    Accounted(Run(s, more));
  }

  function CeilDiv(n: nat, d: nat): nat
    requires d > 0
  {
    (n + d - 1) / d
  }

  /** Export calls still to be made once the channel is closed. */
  function Pending(s: State): nat {
    (if s.phase.Exporting? then 1 else 0) + CeilDiv(|s.batch| + |s.queue|, MAX_BATCH)
  }

  lemma DrainStep(s: State, step: Step)
    requires Shape(s) && s.closed
    ensures var q := Apply(s, step); q.closed && |q.calls| + Pending(q) == |s.calls| + Pending(s)
  {
    if step == DrainOne && s.phase.Draining? && s.queue != [] && |s.batch| + 1 >= MAX_BATCH {
      assert CeilDiv(|s.batch| + |s.queue|, MAX_BATCH) == 1 + CeilDiv(|s.queue| - 1, MAX_BATCH);
    }
  }

  lemma {:induction false} DrainBalance(s: State, steps: seq<Step>)
    requires Shape(s) && s.closed
    ensures var q := Run(s, steps); Shape(q) && q.closed && |q.calls| + Pending(q) == |s.calls| + Pending(s)
  {
    if steps != [] {
      var init := steps[..|steps| - 1];
      DrainBalance(s, init);
      DrainStep(Run(s, init), steps[|steps| - 1]);
      ShapeKeeps(Run(s, init), steps[|steps| - 1]);
    }
  }

  /**
   Between closing the channel and the end of the task exactly ⌈(|batch| + |queue|) / 512⌉ exports are
   made, whatever their outcomes and whatever is offered meanwhile; at most 5 at the default capacity.
   */
  lemma DrainCalls(s: State, steps: seq<Step>)
    requires Invariant(s) && s.phase.Draining? && Run(s, steps).phase.Finished?
    ensures var made := |Run(s, steps).calls| - |s.calls|;
            && made == CeilDiv(|s.batch| + |s.queue|, 512)
            && (s.capacity <= 2048 ==> made <= 5)
  {
    DrainBalance(s, steps);
    var q := Run(s, steps);
    assert PhaseOk(q) && Pending(q) == 0;
    if s.capacity <= QUEUE_CAPACITY {
      assert |s.batch| + |s.queue| <= 511 + 2048;
    }
  }

  lemma Cons(step: Step, steps: seq<Step>)
    ensures |[step] + steps| == |steps| + 1
    ensures steps == [] ==> [step] + steps == [step] && [step][..0] == []
    ensures steps != [] ==>
              && ([step] + steps)[..|steps|] == [step] + steps[..|steps| - 1]
              && ([step] + steps)[|steps|] == steps[|steps| - 1]
  {
  }

  lemma {:induction false} RunOn(s: State, step: Step, steps: seq<Step>)
    ensures Run(s, [step] + steps) == Run(Apply(s, step), steps)
  {
    Cons(step, steps);
    if steps != [] {
      RunOn(s, step, steps[..|steps| - 1]);
    }
  }

  /** The task's next step towards its end. */
  function Onwards(s: State): Step {
    match s.phase
    case Selecting => ShutdownSignal
    case Draining => DrainOne
    case Exporting(_, _) => Exported(Delivered)
    case Finished => DrainOne
  }

  function Distance(s: State): nat {
    match s.phase
    case Finished => 0
    case Exporting(_, ToEnd) => 1
    case Draining => 2 + 2 * |s.queue|
    case Exporting(_, ToDrain) => 3 + 2 * |s.queue|
    case Selecting => 4 + 2 * |s.queue|
    case Exporting(_, ToSelect) => 5 + 2 * |s.queue|
  }

  /** From every state of the task the shutdown signal, the drain and the end of its exports lead to the end. */
  lemma {:induction false} ShutdownFinishes(s: State) returns (steps: seq<Step>)
    requires Shape(s)
    ensures Run(s, steps).phase.Finished?
    ensures forall i :: 0 <= i < |steps| ==> steps[i] in {ShutdownSignal, DrainOne, Exported(Delivered)}
    decreases Distance(s)
  {
    steps := [];
    if !s.phase.Finished? {
      ShapeKeeps(s, Onwards(s));
      var more := ShutdownFinishes(Apply(s, Onwards(s)));
      RunOn(s, Onwards(s), more);
      steps := [Onwards(s)] + more;
    }
  }

  // ----- the background task's methods, on fields updated in place -----

  /** The export calls that empty `spans` in batches of 512, with the outcomes numbered from `k`. */
  function Batches(outcomes: nat -> Outcome, k: nat, spans: seq<Span>): seq<Call>
    decreases |spans|
  {
    if spans == [] then []
    else if |spans| <= MAX_BATCH then [Call(spans, outcomes(k).Delivered?)]
    else [Call(spans[..MAX_BATCH], outcomes(k).Delivered?)] + Batches(outcomes, k + 1, spans[MAX_BATCH..])
  }

  class CountingSpanProcessor {
    const capacity: nat
    var queue: seq<Span>
    var closed: bool
    var batch: seq<Span>
    var finished: bool
    var dropped: nat
    ghost var offered: seq<Span>
    ghost var rejected: seq<Span>
    ghost var calls: seq<Call>

    ghost function Abstract(): State
      reads this
    {
      State(capacity, queue, closed, batch, if finished then Finished else if closed then Draining else Selecting,
            dropped, offered, rejected, calls)
    }

    constructor (capacity: nat)
      requires capacity > 0
      ensures Abstract() == Initial(capacity) && Invariant(Abstract())
    {
      this.capacity := capacity;
      queue, closed, batch, finished, dropped := [], false, [], false, 0;
      offered, rejected, calls := [], [], [];
    }

    method OnEnd(span: Span)
      requires Invariant(Abstract())
      modifies this
      ensures Abstract() == Apply(old(Abstract()), Offer(span)) && Invariant(Abstract())
      ensures !old(closed) && |old(queue)| < capacity ==>
                queue == old(queue) + [span] && dropped == old(dropped) && rejected == old(rejected)
      ensures old(closed) || |old(queue)| == capacity ==>
                queue == old(queue) && dropped == old(dropped) + 1 && rejected == old(rejected) + [span]
      ensures closed == old(closed) && batch == old(batch) && calls == old(calls) && offered == old(offered) + [span]
    {
      ghost var before := Abstract();
      offered := offered + [span];
      if closed || |queue| >= capacity {
        dropped := dropped + 1;
        rejected := rejected + [span];
      } else {
        queue := queue + [span];
      }
      assert Abstract() == Apply(before, Offer(span));
      StepKeeps(before, Offer(span));
    }

    ghost predicate Counted()
      reads this
    {
      dropped == |rejected| + |Having(calls, false)|
    }

    /** Export `spans` and count them as dropped unless the exporter accepted them in time. */
    method Export(spans: seq<Span>, o: Outcome)
      modifies this`dropped, this`calls
      ensures calls == old(calls) + [Call(spans, o.Delivered?)]
      ensures dropped == old(dropped) + if o.Delivered? then 0 else |spans|
      ensures old(Counted()) ==> Counted()
    {
      Snoc(calls, Call(spans, o.Delivered?));
      calls := calls + [Call(spans, o.Delivered?)];
      match o
      case Delivered =>
      case Failed => dropped := dropped + |spans|;
      case TimedOut => dropped := dropped + |spans|;
    }

    method OnTick(o: Outcome)
      requires Invariant(Abstract()) && !closed && !finished
      modifies this
      ensures Abstract() == Run(old(Abstract()), if old(batch) == [] then [Tick] else [Tick, Exported(o)])
      ensures batch == [] && queue == old(queue) && !closed && !finished
      ensures calls == old(calls) + if old(batch) == [] then [] else [Call(old(batch), o == Delivered)]
      ensures dropped == old(dropped) + if o == Delivered then 0 else |old(batch)|
      ensures offered == old(offered) && rejected == old(rejected)
    {
      ghost var before := Abstract();
      TwoSteps(before, Tick, Exported(o));
      if batch != [] {
        var toSend := batch;
        batch := [];
        Export(toSend, o);
      }
    }

    method OnReceive(o: Outcome)
      requires Invariant(Abstract()) && !closed && !finished && queue != []
      modifies this
      ensures Abstract() ==
              Run(old(Abstract()), if |old(batch)| + 1 < MAX_BATCH then [Receive] else [Receive, Exported(o)])
      ensures queue == old(queue[1..]) && !closed && !finished && offered == old(offered) && rejected == old(rejected)
      ensures |old(batch)| < 511 ==>
                batch == old(batch + [queue[0]]) && calls == old(calls) && dropped == old(dropped)
      ensures |old(batch)| == 511 ==>
                && batch == [] && calls == old(calls) + [Call(old(batch + [queue[0]]), o == Delivered)]
                && dropped == old(dropped) + if o == Delivered then 0 else 512
    {
      ghost var before := Abstract();
      TwoSteps(before, Receive, Exported(o));
      batch := batch + [queue[0]];
      queue := queue[1..];
      if |batch| >= MAX_BATCH {
        var toSend := batch;
        batch := [];
        Export(toSend, o);
      }
    }

    /** The calls made so far and those the rest of the drain will make. */
    ghost function Schedule(outcomes: nat -> Outcome, k: nat): seq<Call>
      reads this
    {
      calls + Batches(outcomes, k, batch + queue)
    }

    /** One turn of the drain loop. */
    method DrainTurn(outcomes: nat -> Outcome, k: nat) returns (next: nat)
      requires queue != [] && |batch| < MAX_BATCH && Counted()
      modifies this`queue, this`batch, this`dropped, this`calls
      ensures |queue| == |old(queue)| - 1 && |batch| < MAX_BATCH && Counted()
      ensures Schedule(outcomes, next) == old(Schedule(outcomes, k))
    {
      next := k;
      batch := batch + [queue[0]];
      queue := queue[1..];
      assert batch + queue == old(batch + queue);
      if |batch| >= MAX_BATCH {
        ghost var done, call := calls, Call(batch, outcomes(k).Delivered?);
        CutBatch(outcomes, k, batch, queue);
        var toSend := batch;
        batch, next := [], k + 1;
        Export(toSend, outcomes(k));
        assert batch + queue == queue;
        assert calls + Batches(outcomes, next, queue) == done + ([call] + Batches(outcomes, next, queue));
      }
    }

    /**
     The shutdown branch: close, drain in full batches, export the rest. It terminates with queue and
     batch empty, having exported exactly what was left, in order, cut into batches of 512.
     */
    method Shutdown(outcomes: nat -> Outcome)
      requires Shape(Abstract()) && !closed && !finished
      modifies this
      ensures finished && closed && queue == [] && batch == []
      ensures calls == old(calls) + Batches(outcomes, 0, old(batch + queue))
      ensures dropped == |rejected| + |Having(calls, false)|
      ensures offered == old(offered) && rejected == old(rejected)
    {
      closed := true;
      ghost var total := Schedule(outcomes, 0);
      var k := 0;
      while queue != []
        invariant |batch| < MAX_BATCH && Counted() && Schedule(outcomes, k) == total
        invariant closed && offered == old(offered) && rejected == old(rejected)
        decreases |queue|
      {
        k := DrainTurn(outcomes, k);
      }
      ExportRest(outcomes, k);
      finished := true;
    }

    /** What is left in the batch once the queue is empty. */
    method ExportRest(outcomes: nat -> Outcome, k: nat)
      requires queue == [] && |batch| < MAX_BATCH && Counted()
      modifies this`batch, this`dropped, this`calls
      ensures batch == [] && Counted() && calls == old(Schedule(outcomes, k))
    {
      assert batch + queue == batch;
      if batch != [] {
        var finalBatch := batch;
        batch := [];
        Export(finalBatch, outcomes(k));
      }
    }
  }

  lemma {:induction false} SpansOfCons(c: Call, calls: seq<Call>)
    ensures SpansOf([c] + calls) == c.spans + SpansOf(calls)
  {
    if calls == [] {
      assert [c] + calls == [c] && SpansOf([c][..0]) == [];
    } else {
      var init := calls[..|calls| - 1];
      SpansOfCons(c, init);
      assert ([c] + calls)[..|calls|] == [c] + init;
    }
  }

  /** The drain's calls carry all the remaining spans in order, in the fewest calls of at most 512. */
  lemma {:induction false} BatchesCarryAll(outcomes: nat -> Outcome, k: nat, spans: seq<Span>)
    ensures SpansOf(Batches(outcomes, k, spans)) == spans
    ensures |Batches(outcomes, k, spans)| == CeilDiv(|spans|, MAX_BATCH)
    ensures var calls := Batches(outcomes, k, spans);
            forall i :: 0 <= i < |calls| ==> Sized(calls[i].spans) && calls[i].delivered == outcomes(k + i).Delivered?
    decreases |spans|
  {
    if 0 < |spans| <= MAX_BATCH {
      SpansOfCons(Call(spans, outcomes(k).Delivered?), []);
    } else if |spans| > MAX_BATCH {
      var first, rest := spans[..MAX_BATCH], spans[MAX_BATCH..];
      assert spans == first + rest;
      CutBatch(outcomes, k, first, rest);
      BatchesCarryAll(outcomes, k + 1, rest);
      SpansOfCons(Call(first, outcomes(k).Delivered?), Batches(outcomes, k + 1, rest));
    }
  }

  lemma TwoSteps(s: State, a: Step, b: Step)
    ensures Run(s, [a]) == Apply(s, a) && Run(s, [a, b]) == Apply(Apply(s, a), b)
  {
    assert [a, b][..1] == [a];
  }

  lemma CutBatch(outcomes: nat -> Outcome, k: nat, batch: seq<Span>, queue: seq<Span>)
    requires |batch| == MAX_BATCH
    ensures Batches(outcomes, k, batch + queue) ==
            [Call(batch, outcomes(k).Delivered?)] + Batches(outcomes, k + 1, queue)
  {
    if queue == [] {
      assert batch + queue == batch;
    } else {
      assert (batch + queue)[..MAX_BATCH] == batch && (batch + queue)[MAX_BATCH..] == queue;
    }
  }
}
