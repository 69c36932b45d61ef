/**
 The gRPC adapters' calls over the retry combinator. Each call stamps one fresh request id and sends it
 with every attempt; the downstream remembers the ids it has served. Requests and replies may be lost
 on any attempt, requests may arrive late or repeatedly, and any number of calls run at once.
 */
module AtMostOnce {
  import opened Prelude
  import opened Retry

  datatype Code =
    | Cancelled | Unknown | InvalidArgument | DeadlineExceededCode | NotFound | AlreadyExists | PermissionDenied
    | ResourceExhausted | FailedPrecondition | Aborted | OutOfRange | Unimplemented | Internal | UnavailableCode
    | DataLoss | Unauthenticated

  /** How both adapters classify a gRPC status. */
  function MapStatus(code: Code, message: string): AdapterError {
    match code
    case NotFound => Permanent(message)
    case InvalidArgument => Permanent(message)
    case FailedPrecondition => Permanent(message)
    case AlreadyExists => Permanent(message)
    case PermissionDenied => Permanent(message)
    case Unauthenticated => Permanent(message)
    case Unimplemented => Permanent(message)
    case OutOfRange => Permanent(message)
    case Cancelled => Permanent(message)
    case UnavailableCode => Unavailable
    case _ => Transient(message)
  }

  type RequestId = nat
  type Resource = nat

  // ----- the downstream -----

  datatype Creation = Creation(requestId: RequestId, resource: Resource)

  /** `created` lists every resource ever made, oldest first. Resources are numbered as they are made. */
  datatype Downstream = Downstream(served: map<RequestId, Resource>, created: seq<Creation>)

  /** Serve a create request: a request id already served gets its resource again. */
  function Serve(d: Downstream, id: RequestId): Downstream {
    if id in d.served then d
    else Downstream(d.served[id := |d.created|], d.created + [Creation(id, |d.created|)])
  }

  // ----- one attempt -----

  datatype Reply =
    | Reference          // the resource's reference
    | EmptyReference
    | MalformedReference
    | Status(code: Code) // a status from the service or, the reply being lost, from the transport
    | ClientPanic

  /** Whether an attempt's request was served, and what the client got back. A reference can only come
      back from a served request. */
  datatype Fate = Fate(served: bool, reply: Reply)

  function ServedBy(d: Downstream, id: RequestId, fate: Fate): Downstream {
    if fate.served || fate.reply.Reference? then Serve(d, id) else d
  }

  /** The client's view of the attempt, after the downstream acted. */
  function Observe(d: Downstream, id: RequestId, reply: Reply): Outcome<Resource>
    requires reply.Reference? ==> id in d.served
  {
    match reply
    case Reference => Returned(Ok(d.served[id]))
    case EmptyReference => Returned(Err(Permanent("empty reference")))
    case MalformedReference => Returned(Err(Permanent("bad reference")))
    case Status(code) => Returned(Err(MapStatus(code, "")))
    case ClientPanic => Panicked
  }

  // ----- concurrent calls -----

  type CallId = nat

  datatype Call = Call(
    requestId: RequestId,
    outcomes: seq<Outcome<Resource>>,
    result: Option<Result<Resource, AdapterError>>)

  datatype State = State(downstream: Downstream, calls: map<CallId, Call>)

  const INITIAL: State := State(Downstream(map[], []), map[])

  /** `Arrive` is a request of the call that reaches the service late, or once more: after its attempt failed,
      or after the call returned. */
  datatype Step = Begin(call: CallId, requestId: RequestId) | Attempt(call: CallId, fate: Fate) | Arrive(call: CallId)

  predicate Fresh(s: State, id: RequestId) {
    id !in s.downstream.served && forall c :: c in s.calls ==> s.calls[c].requestId != id
  }

  /** A new call draws a fresh request id; a running one makes its next attempt and, unless the outcome is
      retryable and the policy allows another, returns it. */
  function Apply(c: RetryConfig, s: State, step: Step): State {
    match step
    case Begin(n, id) =>
      if n in s.calls || !Fresh(s, id) then s else s.(calls := s.calls[n := Call(id, [], None)])
    case Attempt(n, fate) =>
      if n !in s.calls || s.calls[n].result.Some? then s
      else
        var call := s.calls[n];
        var d := ServedBy(s.downstream, call.requestId, fate);
        var o := Observe(d, call.requestId, fate.reply);
        var outcomes := call.outcomes + [o];
        var again := Retryable(o) && |outcomes| < c.maxAttempts;
        State(d, s.calls[n := call.(outcomes := outcomes, result := if again then None else Some(Caught(o)))])
    case Arrive(n) =>
      if n !in s.calls || s.calls[n].outcomes == [] then s
      else s.(downstream := Serve(s.downstream, s.calls[n].requestId))
  }

  function Run(c: RetryConfig, s: State, steps: seq<Step>): State {
    if steps == [] then s else Apply(c, Run(c, s, steps[..|steps| - 1]), steps[|steps| - 1])
  }

  /** Each request id was served at most once and each resource belongs to one request. */
  predicate Deduplicated(d: Downstream) {
    && (forall i :: 0 <= i < |d.created| ==>
          d.created[i].resource == i && d.created[i].requestId in d.served && d.served[d.created[i].requestId] == i)
    && (forall id :: id in d.served ==> d.served[id] < |d.created| && d.created[d.served[id]].requestId == id)
  }

  predicate CallOk(c: RetryConfig, d: Downstream, call: Call) {
    && |call.outcomes| <= c.maxAttempts
    && (call.result.None? ==> |call.outcomes| < c.maxAttempts)
    && (forall k :: 0 <= k < |call.outcomes| - (if call.result.Some? then 1 else 0) ==> Retryable(call.outcomes[k]))
    && (call.result.Some? ==>
          && call.outcomes != []
          && call.result.value == Caught(call.outcomes[|call.outcomes| - 1])
          && (|call.outcomes| == c.maxAttempts || !Retryable(call.outcomes[|call.outcomes| - 1])))
    && (call.result.Some? && call.result.value.Ok? ==>
          call.requestId in d.served && d.served[call.requestId] == call.result.value.value)
  }

  predicate DistinctIds(calls: map<CallId, Call>) {
    forall m, n :: m in calls && n in calls && m != n ==> calls[m].requestId != calls[n].requestId
  }

  ghost predicate Invariant(c: RetryConfig, s: State) {
    && Deduplicated(s.downstream)
    && DistinctIds(s.calls)
    && forall n :: n in s.calls ==> CallOk(c, s.downstream, s.calls[n])
  }

  lemma ServeKeeps(d: Downstream, id: RequestId)
    requires Deduplicated(d)
    ensures var e := Serve(d, id);
            && Deduplicated(e)
            && (forall j :: j in d.served ==> j in e.served && e.served[j] == d.served[j])
  {
  }

  /** Serving a request spoils no call's record. */
  lemma ServeKeepsCalls(c: RetryConfig, s: State, id: RequestId)
    requires Invariant(c, s)
    ensures Invariant(c, s.(downstream := Serve(s.downstream, id)))
  {
    ServeKeeps(s.downstream, id);
    forall n | n in s.calls ensures CallOk(c, Serve(s.downstream, id), s.calls[n]) {
      assert CallOk(c, s.downstream, s.calls[n]);
    }
  }

  /** The client's half of an attempt. */
  lemma ObserveKeeps(c: RetryConfig, d: Downstream, call: Call, reply: Reply)
    requires CallOk(c, d, call) && call.result.None? && (reply.Reference? ==> call.requestId in d.served)
    ensures var o := Observe(d, call.requestId, reply);
            var again := Retryable(o) && |call.outcomes| + 1 < c.maxAttempts;
            CallOk(c, d, call.(outcomes := call.outcomes + [o], result := if again then None else Some(Caught(o))))
  {
  }

  lemma StepKeeps(c: RetryConfig, s: State, step: Step)
    requires c.maxAttempts > 0 && Invariant(c, s)
    ensures Invariant(c, Apply(c, s, step))
  {
    if !step.Begin? && step.call in s.calls {
      var call := s.calls[step.call];
      ServeKeepsCalls(c, s, call.requestId);
      if step.Attempt? && call.result.None? {
        ObserveKeeps(c, ServedBy(s.downstream, call.requestId, step.fate), call, step.fate.reply);
      }
    }
  }

  lemma {:induction false} RunKeeps(c: RetryConfig, s: State, steps: seq<Step>)
    requires c.maxAttempts > 0 && Invariant(c, s)
    ensures Invariant(c, Run(c, s, steps))
  {
    if steps != [] {
      RunKeeps(c, s, steps[..|steps| - 1]);
      StepKeeps(c, Run(c, s, steps[..|steps| - 1]), steps[|steps| - 1]);
    }
  }

  /**
   At most one effect per call: over every run, whatever requests and replies are lost, delayed or
   repeated, even beyond the end of the call, a call's request id has created at most one resource; an
   `Ok` answer names exactly that one; two calls are never answered with the same resource; and no call
   makes more attempts than its policy allows.
   */
  lemma AtMostOneEffect(c: RetryConfig, steps: seq<Step>, n: CallId)
    requires c.maxAttempts > 0 && n in Run(c, INITIAL, steps).calls
    ensures var s := Run(c, INITIAL, steps);
            var call, created := s.calls[n], s.downstream.created;
            && (forall i, j :: 0 <= i < |created| && 0 <= j < |created| ==>
                  created[i].requestId == call.requestId && created[j].requestId == call.requestId ==> i == j)
            && (call.result.Some? && call.result.value.Ok? ==>
                  Creation(call.requestId, call.result.value.value) in created
                  && forall m :: m in s.calls && m != n && s.calls[m].result.Some? && s.calls[m].result.value.Ok? ==>
                       s.calls[m].result.value.value != call.result.value.value)
            && |call.outcomes| <= c.maxAttempts
  {
    RunKeeps(c, INITIAL, steps);
    var s := Run(c, INITIAL, steps);
    var call, d := s.calls[n], s.downstream;
    assert CallOk(c, d, call);
    if call.result.Some? && call.result.value.Ok? {
      assert d.created[d.served[call.requestId]] == Creation(call.requestId, call.result.value.value);
      forall m | m in s.calls && m != n && s.calls[m].result.Some? && s.calls[m].result.value.Ok?
        ensures s.calls[m].result.value.value != call.result.value.value
      {
        assert CallOk(c, d, s.calls[m]);
      }
    }
  }

  /** The statuses after which a call is not tried again. */
  const FINAL: set<Code> :=
    {NotFound, InvalidArgument, FailedPrecondition, AlreadyExists, PermissionDenied, Unauthenticated,
     Unimplemented, OutOfRange, Cancelled}

  ghost predicate EndsPermanently(answer: Option<Result<Resource, AdapterError>>) {
    answer.Some? && answer.value.Err? && answer.value.error.Permanent?
  }

  /**
   What a reply comes to. A reference ends the call with the resource that the downstream created for its
   request id; an empty or malformed one ends it with a permanent error, a panic with `InternalPanic`; a
   status ends it with a permanent error if it is final, and otherwise the call goes on exactly if attempts
   are left.
   */
  ghost predicate AnswerTo(created: seq<Creation>, id: RequestId, reply: Reply, attemptsLeft: bool,
                           answer: Option<Result<Resource, AdapterError>>) {
    match reply
    case Reference => answer.Some? && answer.value.Ok? && Creation(id, answer.value.value) in created
    case EmptyReference => EndsPermanently(answer)
    case MalformedReference => EndsPermanently(answer)
    case ClientPanic => answer == Some(Err(InternalPanic))
    case Status(code) =>
      if code in FINAL then EndsPermanently(answer)
      else if attemptsLeft then answer == None
      else if code == UnavailableCode then answer == Some(Err(Unavailable))
      else answer.Some? && answer.value.Err? && answer.value.error.Transient?
  }

  lemma ReplyAnswers(d: Downstream, id: RequestId, reply: Reply, attemptsLeft: bool)
    requires Deduplicated(d) && (reply.Reference? ==> id in d.served)
    ensures var o := Observe(d, id, reply);
            AnswerTo(d.created, id, reply, attemptsLeft, if Retryable(o) && attemptsLeft then None else Some(Caught(o)))
  {
    if reply.Reference? {
      assert d.created[d.served[id]] == Creation(id, d.served[id]);
    }
  }

  /** Over every run, what an attempt of a running call comes to; and a request that was served has created its
      resource. */
  lemma AttemptAnswers(c: RetryConfig, steps: seq<Step>, s: State, n: CallId, fate: Fate)
    requires c.maxAttempts > 0 && s == Run(c, INITIAL, steps) && n in s.calls && s.calls[n].result.None?
    ensures var q := Apply(c, s, Attempt(n, fate));
            && n in q.calls && q.calls[n].requestId == s.calls[n].requestId
            && |q.calls[n].outcomes| == |s.calls[n].outcomes| + 1
            && AnswerTo(q.downstream.created, s.calls[n].requestId, fate.reply,
                        |q.calls[n].outcomes| < c.maxAttempts, q.calls[n].result)
            && (fate.served ==> exists r :: Creation(s.calls[n].requestId, r) in q.downstream.created)
  {
    RunKeeps(c, INITIAL, steps);
    var id := s.calls[n].requestId;
    ServeKeeps(s.downstream, id);
    var d := ServedBy(s.downstream, id, fate);
    ReplyAnswers(d, id, fate.reply, |s.calls[n].outcomes| + 1 < c.maxAttempts);
    if fate.served {
      assert d.created[d.served[id]] == Creation(id, d.served[id]);
    }
  }

  lemma RunOn(c: RetryConfig, steps: seq<Step>, step: Step)
    ensures Run(c, INITIAL, steps + [step]) == Apply(c, Run(c, INITIAL, steps), step)
  {
    assert (steps + [step])[..|steps|] == steps;
  }

  /**
   A run in which retrying is needed and harmless: the first request is served or arrives late, its reply is
   lost, and the second attempt is answered with the one resource that was created.
   */
  lemma LostReplyIsHarmless(c: RetryConfig, n: CallId, id: RequestId, late: bool) returns (steps: seq<Step>)
    requires c.maxAttempts >= 2
    ensures var s := Run(c, INITIAL, steps);
            && s.downstream.created == [Creation(id, 0)]
            && n in s.calls && s.calls[n].requestId == id && s.calls[n].result == Some(Ok(0))
  {
    var first, second := Attempt(n, Fate(!late, Status(UnavailableCode))), Attempt(n, Fate(false, Reference));
    RunOn(c, [], Begin(n, id));
    RunOn(c, [] + [Begin(n, id)], first);
    steps := [] + [Begin(n, id)] + [first];
    RunOn(c, steps, Arrive(n));
    steps := steps + [Arrive(n)];
    RunOn(c, steps, second);
    steps := steps + [second];
  }

  /** A finished call is one run of the combinator over the outcomes it saw, without a deadline: the same
      number of attempts, the same result. */
  lemma CallsAreRetryRuns(c: RetryConfig, steps: seq<Step>, n: CallId, w: World<Resource>)
    requires c.maxAttempts > 0 && n in Run(c, INITIAL, steps).calls && Run(c, INITIAL, steps).calls[n].result.Some?
    requires var outcomes := Run(c, INITIAL, steps).calls[n].outcomes;
             forall k :: 0 <= k < |outcomes| ==> w.outcome(k) == outcomes[k]
    ensures var call := Run(c, INITIAL, steps).calls[n];
            Attempts(c, None, w, |call.outcomes|) && call.result.value == Caught(w.outcome(|call.outcomes| - 1))
  {
    RunKeeps(c, INITIAL, steps);
    assert CallOk(c, Run(c, INITIAL, steps).downstream, Run(c, INITIAL, steps).calls[n]);
  }

  // ----- stopping a voice session -----

  datatype StopMode = Abort | Graceful

  function PolicyFor(mode: StopMode): RetryConfig {
    match mode
    case Abort => CLEANUP_RETRY
    case Graceful => GRACEFUL_STOP_RETRY
  }

  /** A graceful stop, which is not idempotent, sends one request whatever happens to it; an abort sends
      at most five, and fewer only if one of them was answered or failed for good. */
  method StopVoiceSession(mode: StopMode, w: World<()>) returns (result: Result<(), AdapterError>, sent: nat)
    ensures mode.Graceful? ==> sent == 1 && result == Caught(w.outcome(0))
    ensures mode.Abort? ==> 1 <= sent <= 5 && result == Caught(w.outcome(sent - 1))
    ensures mode.Abort? && sent < 5 ==> !FailedForNow(w.outcome(sent - 1))
    ensures forall k :: 0 <= k < sent - 1 ==> FailedForNow(w.outcome(k))
  {
    var retries, gated, slept;
    result, sent, retries, gated, slept := WithRetry(PolicyFor(mode), None, w);
  }
}
