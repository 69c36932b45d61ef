/**
 The manager's run loop: connect, signal the first connection, drive the LISTEN connection until it
 fails, count the reconnect, pause, connect again; return on shutdown. The outcome of every await is
 an input, so a statement about the loop is a statement about every behaviour of the database, the
 clock and the shutdown channel.
 */
module Manager {
  import opened Prelude
  import opened Fanout
  import opened Recovery

  /** What `select!` yields in the inner loop. A notification is its raw payload text. */
  datatype Wake =
    | Shutdown
    | HealthCheck(tryRecv: Result<Option<string>, string>)
    | Incoming(recv: Result<string, string>)

  /** The outcomes of the n-th look at the shutdown flag, connect, pause and wake. */
  datatype World = World(
    shutdownSet: nat -> bool,
    connects: nat -> bool,
    shutdownInPause: nat -> bool,
    wakes: nat -> Wake)

  /** The notification that a wake obtains, from the health check or from the blocking receive. */
  function Obtained(w: Wake): seq<string> {
    match w
    case HealthCheck(Ok(Some(raw))) => [raw]
    case Incoming(Ok(raw)) => [raw]
    case _ => []
  }

  /** The wake shows that the connection failed. */
  predicate Lost(w: Wake) {
    (w.HealthCheck? && w.tryRecv.Err?) || (w.Incoming? && w.recv.Err?)
  }

  /** None of the wakes from `first` up to but excluding `end` shows a shutdown or a lost connection. */
  ghost predicate Quiet(wakes: nat -> Wake, first: nat, end: int) {
    forall k :: first <= k < end ==> !Lost(wakes(k)) && !wakes(k).Shutdown?
  }

  function ObtainedIn(wakes: nat -> Wake, n: nat): seq<string> {
    if n == 0 then [] else ObtainedIn(wakes, n - 1) + Obtained(wakes(n - 1))
  }

  /** The payloads among raw notifications: the non-empty ones that parse. */
  function Parsed(parse: string -> Option<Payload>, raws: seq<string>): seq<Payload> {
    if raws == [] then []
    else
      var rest, raw := Parsed(parse, raws[..|raws| - 1]), raws[|raws| - 1];
      if raw != "" && parse(raw).Some? then rest + [parse(raw).value] else rest
  }

  lemma ParsedAppend(parse: string -> Option<Payload>, raws: seq<string>, raw: string)
    ensures Parsed(parse, raws + [raw]) ==
            Parsed(parse, raws) + if raw != "" && parse(raw).Some? then [parse(raw).value] else []
  {
    assert (raws + [raw])[..|raws|] == raws;
  }

  // ----- the registry after some wakes -----

  function Handled(parse: string -> Option<Payload>, r: Registry, raw: string): Registry {
    if raw != "" && parse(raw).Some? then Published(r, parse(raw).value) else r
  }

  /** A notification is fanned out if it is not empty and parses, and ignored otherwise. */
  ghost predicate Handles(parse: string -> Option<Payload>, raw: string, r: Registry, q: Registry) {
    match parse(raw)
    case Some(p) => if raw == "" then q == r else q == Published(r, p)
    case None => q == r
  }

  function Absorbed(parse: string -> Option<Payload>, r: Registry, w: Wake): Registry {
    match w
    case HealthCheck(Ok(Some(raw))) => Handled(parse, r, raw)
    case Incoming(Ok(raw)) => Handled(parse, r, raw)
    case _ => r
  }

  function AfterWakes(parse: string -> Option<Payload>, r: Registry, wakes: nat -> Wake, n: nat): Registry {
    if n == 0 then r else Absorbed(parse, AfterWakes(parse, r, wakes, n - 1), wakes(n - 1))
  }

  lemma {:induction false} AfterWakesValid(parse: string -> Option<Payload>, r: Registry, wakes: nat -> Wake, n: nat)
    requires Valid(r)
    ensures Valid(AfterWakes(parse, r, wakes, n))
  {
    if n > 0 {
      AfterWakesValid(parse, r, wakes, n - 1);
      AbsorbedValid(parse, AfterWakes(parse, r, wakes, n - 1), wakes(n - 1));
    }
  }

  lemma AbsorbedValid(parse: string -> Option<Payload>, r: Registry, w: Wake)
    requires Valid(r)
    ensures Valid(Absorbed(parse, r, w))
  {
    if Obtained(w) != [] && parse(Obtained(w)[0]).Some? {
      PublishedValid(r, parse(Obtained(w)[0]).value);
    }
  }

  lemma PublishedOn(r: Registry, ps: seq<Payload>, p: Payload)
    ensures PublishedAll(r, ps + [p]) == Published(PublishedAll(r, ps), p)
  {
    assert (ps + [p])[..|ps|] == ps;
  }

  lemma HandledOn(parse: string -> Option<Payload>, r: Registry, raws: seq<string>, raw: string)
    ensures PublishedAll(r, Parsed(parse, raws + [raw])) == Handled(parse, PublishedAll(r, Parsed(parse, raws)), raw)
  {
    ParsedAppend(parse, raws, raw);
    if raw != "" && parse(raw).Some? {
      PublishedOn(r, Parsed(parse, raws), parse(raw).value);
    }
  }

  /** Whatever the wakes were, the subscribers got exactly the parseable non-empty notifications that the
      health checks and the blocking receives obtained, in arrival order, each once. */
  lemma {:induction false} WakesAreFannedOut(parse: string -> Option<Payload>, r: Registry, wakes: nat -> Wake, n: nat)
    ensures AfterWakes(parse, r, wakes, n) == PublishedAll(r, Parsed(parse, ObtainedIn(wakes, n)))
  {
    if n > 0 {
      WakesAreFannedOut(parse, r, wakes, n - 1);
      var raws := ObtainedIn(wakes, n - 1);
      match wakes(n - 1) {
        case HealthCheck(Ok(Some(raw))) => HandledOn(parse, r, raws, raw);
        case Incoming(Ok(raw)) => HandledOn(parse, r, raws, raw);
        case _ => assert raws + [] == raws;
      }
    }
  }

  // ----- what the loop does, round by round -----

  /** Where a shutdown was noticed. */
  datatype Reason = BeforeConnect | WhileListening | InPause

  datatype Control = Connecting | Listening | Stopped(reason: Reason)

  /** How far the loop is: connect attempts, reconnects counted and wakes so far. */
  datatype Progress = Progress(control: Control, attempts: nat, reconnects: nat, wakes: nat)

  const START := Progress(Connecting, 0, 0, 0)

  /** A connection was not made or was lost: count it and pause. */
  function Paused(world: World, p: Progress): Progress {
    p.(reconnects := p.reconnects + 1,
       control := if world.shutdownInPause(p.reconnects) then Stopped(InPause) else Connecting)
  }

  /** One round: a connect attempt, or a wake on the connection. */
  function Next(world: World, p: Progress): Progress {
    match p.control
    case Connecting =>
      if world.shutdownSet(p.attempts) then p.(control := Stopped(BeforeConnect))
      else if world.connects(p.attempts) then p.(control := Listening, attempts := p.attempts + 1)
      else Paused(world, p.(attempts := p.attempts + 1))
    case Listening =>
      var wake, q := world.wakes(p.wakes), p.(wakes := p.wakes + 1);
      if wake.Shutdown? then q.(control := Stopped(WhileListening))
      else if Lost(wake) then Paused(world, q)
      else q
    case Stopped(_) => p
  }

  function After(world: World, n: nat): Progress {
    if n == 0 then START else Next(world, After(world, n - 1))
  }

  function FailedConnects(connects: nat -> bool, n: nat): nat {
    if n == 0 then 0 else FailedConnects(connects, n - 1) + if connects(n - 1) then 0 else 1
  }

  lemma SomeConnected(connects: nat -> bool, n: nat)
    ensures FailedConnects(connects, n) <= n
    ensures FailedConnects(connects, n) < n <==> exists k :: 0 <= k < n && connects(k)
  {
  }

  function LostConnections(wakes: nat -> Wake, n: nat): nat {
    if n == 0 then 0
    else
      LostConnections(wakes, n - 1) +
      match wakes(n - 1)
      case HealthCheck(Err(_)) => 1
      case Incoming(Err(_)) => 1
      case _ => 0
  }

  /** No shutdown was noticed earlier than the one that stopped the loop, if any. */
  ghost predicate Unnoticed(world: World, p: Progress) {
    && (forall k :: 0 <= k < p.attempts ==> !world.shutdownSet(k))
    && (forall k :: 0 <= k < p.reconnects - (if p.control == Stopped(InPause) then 1 else 0) ==>
          !world.shutdownInPause(k))
    && (forall k :: 0 <= k < p.wakes - (if p.control == Stopped(WhileListening) then 1 else 0) ==>
          !world.wakes(k).Shutdown?)
  }

  /** The loop stops only where a shutdown is. */
  ghost predicate StoppedBy(world: World, p: Progress) {
    match p.control
    case Stopped(BeforeConnect) => world.shutdownSet(p.attempts)
    case Stopped(WhileListening) => p.wakes > 0 && world.wakes(p.wakes - 1).Shutdown?
    case Stopped(InPause) => p.reconnects > 0 && world.shutdownInPause(p.reconnects - 1)
    case _ => true
  }

  /** Connect attempts are the reconnects, plus the connection in use; the reconnects are the attempts
      that failed and the connections that were lost. */
  predicate Counted(world: World, p: Progress) {
    && p.attempts == p.reconnects + (if p.control in {Listening, Stopped(WhileListening)} then 1 else 0)
    && p.reconnects == FailedConnects(world.connects, p.attempts) + LostConnections(world.wakes, p.wakes)
  }

  lemma NextUnnoticed(world: World, p: Progress)
    requires Unnoticed(world, p) && StoppedBy(world, p)
    ensures Unnoticed(world, Next(world, p)) && StoppedBy(world, Next(world, p))
  {
  }

  lemma NextCounted(world: World, p: Progress)
    requires Counted(world, p)
    ensures Counted(world, Next(world, p))
  {
  }

  /**
   After `n` rounds in any world: the counters are exact; no shutdown was passed over, and the loop has
   stopped only because of the one its reason names; and while it has not stopped, every round was
   either a connect attempt or a wake, so without a shutdown the loop goes on for ever.
   */
  lemma {:induction false} LoopProgress(world: World, n: nat)
    ensures var p := After(world, n);
            && Counted(world, p) && Unnoticed(world, p) && StoppedBy(world, p)
            && p.attempts + p.wakes <= n && (!p.control.Stopped? ==> p.attempts + p.wakes == n)
  {
    if n > 0 {
      LoopProgress(world, n - 1);
      NextUnnoticed(world, After(world, n - 1));
      NextCounted(world, After(world, n - 1));
    }
  }

  lemma {:induction false} StoppedStays(world: World, n: nat, m: nat)
    requires n <= m && After(world, n).control.Stopped?
    ensures After(world, m) == After(world, n)
  {
    if n < m {
      StoppedStays(world, n, m - 1);
    }
  }

  /** Where the loop is after the next connect attempt and the wakes up to `wakes` on the connection it
      made, the last of which alone may have ended it. */
  function Attempted(world: World, p: Progress, wakes: nat): Progress {
    var q, last := p.(attempts := p.attempts + 1, wakes := wakes), world.wakes(if wakes > 0 then wakes - 1 else 0);
    if world.shutdownSet(p.attempts) then p.(control := Stopped(BeforeConnect))
    else if !world.connects(p.attempts) then Paused(world, q)
    else if wakes > p.wakes && last.Shutdown? then q.(control := Stopped(WhileListening))
    else if wakes > p.wakes && Lost(last) then Paused(world, q)
    else q.(control := Listening)
  }

  /** A connect attempt and the wakes after it, as rounds. */
  lemma {:induction false} AttemptRounds(world: World, n: nat, p: Progress, wakes: nat)
    requires p == After(world, n) && p.control == Connecting
    requires p.wakes <= wakes && Quiet(world.wakes, p.wakes, wakes - 1)
    requires wakes > p.wakes ==> !world.shutdownSet(p.attempts) && world.connects(p.attempts)
    ensures After(world, n + 1 + (wakes - p.wakes)) == Attempted(world, p, wakes)
    decreases wakes
  {
    if wakes > p.wakes {
      AttemptRounds(world, n, p, wakes - 1);
    }
  }

  class ListenNotifyManager {
    const registry: SubscriberRegistry
    var signalArmed: bool
    var signalsFired: nat
    var connectAttempts: nat
    var reconnects: nat

    constructor (registry: SubscriberRegistry, withConnectedSignal: bool)
      ensures this.registry == registry && signalArmed == withConnectedSignal
      ensures signalsFired == 0 && connectAttempts == 0 && reconnects == 0
    {
      this.registry := registry;
      signalArmed, signalsFired, connectAttempts, reconnects := withConnectedSignal, 0, 0, 0;
    }

    method HandleNotification(parse: string -> Option<Payload>, raw: string)
      requires Valid(registry.State())
      modifies registry
      ensures registry.State() == Handled(parse, old(registry.State()), raw)
      ensures Handles(parse, raw, old(registry.State()), registry.State())
    {
      if raw == "" {
        return;
      }
      match parse(raw)
      case Some(payload) => registry.Fanout(payload);
      case None =>
    }

    /** One turn of the inner loop: handle what the wake obtained, and report whether the connection is
        lost. */
    method Turn(parse: string -> Option<Payload>, w: Wake) returns (stop: bool, disconnected: bool)
      requires Valid(registry.State())
      modifies registry
      ensures registry.State() == Absorbed(parse, old(registry.State()), w)
      ensures stop == w.Shutdown? && disconnected == Lost(w)
      ensures disconnected <==> (w.HealthCheck? && w.tryRecv.Err?) || (w.Incoming? && w.recv.Err?)
      ensures match w
              case HealthCheck(Ok(Some(raw))) => Handles(parse, raw, old(registry.State()), registry.State())
              case Incoming(Ok(raw)) => Handles(parse, raw, old(registry.State()), registry.State())
              case _ => registry.State() == old(registry.State())
    {
      stop, disconnected := false, false;
      match w {
        case Shutdown => stop := true;
        case HealthCheck(Ok(Some(raw))) => HandleNotification(parse, raw);
        case HealthCheck(Ok(None)) =>
        case HealthCheck(Err(e)) => disconnected := true;
        case Incoming(Err(e)) => disconnected := true;
        case Incoming(Ok(raw)) => HandleNotification(parse, raw);
      }
    }

    /**
     The inner loop, for at most `rounds` wakes: it takes wakes up to and including the first that shows
     a shutdown or a lost connection, and handles what they obtained.
     */
    method Listen(parse: string -> Option<Payload>, wakes: nat -> Wake, first: nat, rounds: nat, ghost start: Registry)
      returns (next: nat, stop: bool, disconnected: bool)
      requires Valid(start) && registry.State() == AfterWakes(parse, start, wakes, first)
      modifies registry
      ensures registry.State() == AfterWakes(parse, start, wakes, next)
      ensures first <= next <= first + rounds && (next < first + rounds ==> stop || disconnected)
      ensures Quiet(wakes, first, next - 1)
      ensures stop == (next > first && wakes(next - 1).Shutdown?)
      ensures disconnected == (next > first && Lost(wakes(next - 1)))
    {
      next, stop, disconnected := first, false, false;
      while !stop && !disconnected && next < first + rounds
        invariant first <= next <= first + rounds && registry.State() == AfterWakes(parse, start, wakes, next)
        invariant Quiet(wakes, first, next - 1)
        invariant stop == (next > first && wakes(next - 1).Shutdown?)
        invariant disconnected == (next > first && Lost(wakes(next - 1)))
      {
        AfterWakesValid(parse, start, wakes, next);
        stop, disconnected := Turn(parse, wakes(next));
        next := next + 1;
      }
    }

    /** The signal has fired at most once: if it was armed and one of the attempts so far connected. */
    ghost predicate Signalled(world: World, armed: bool)
      reads this
    {
      var some := FailedConnects(world.connects, connectAttempts) < connectAttempts;
      signalArmed == (armed && !some) && signalsFired == if armed && some then 1 else 0
    }

    /** One connect attempt of the outer loop. */
    method Connect(world: World, ghost armed: bool) returns (ok: bool)
      requires Signalled(world, armed)
      modifies this`connectAttempts, this`signalArmed, this`signalsFired
      ensures connectAttempts == old(connectAttempts) + 1
      ensures ok == world.connects(old(connectAttempts)) && Signalled(world, armed)
    {
      SomeConnected(world.connects, connectAttempts);
      connectAttempts := connectAttempts + 1;
      ok := world.connects(connectAttempts - 1);
      if ok && signalArmed {
        signalArmed, signalsFired := false, signalsFired + 1;
      }
    }

    /** The body of the outer loop: one connect attempt, at most `left` wakes on the connection it made,
        and the pause if there is no connection left. */
    method Connection(parse: string -> Option<Payload>, world: World, first: nat, left: nat,
                      ghost start: Registry, ghost armed: bool)
      returns (control: Control, wakes: nat)
      requires Valid(start) && registry.State() == AfterWakes(parse, start, world.wakes, first)
      requires Signalled(world, armed)
      modifies this, registry
      ensures Progress(control, connectAttempts, reconnects, wakes) ==
              Attempted(world, Progress(Connecting, old(connectAttempts), old(reconnects), first), wakes)
      ensures first <= wakes <= first + left && Quiet(world.wakes, first, wakes - 1)
      ensures control == Listening ==> wakes == first + left
      ensures wakes > first ==> !world.shutdownSet(old(connectAttempts)) && world.connects(old(connectAttempts))
      ensures registry.State() == AfterWakes(parse, start, world.wakes, wakes) && Signalled(world, armed)
    {
      wakes := first;
      if world.shutdownSet(connectAttempts) {
        return Stopped(BeforeConnect), wakes;
      }
      var connected := Connect(world, armed);
      if connected {
        var stop, disconnected;
        wakes, stop, disconnected := Listen(parse, world.wakes, first, left, start);
        if stop {
          return Stopped(WhileListening), wakes;
        }
        if !disconnected {
          return Listening, wakes;
        }
      }
      reconnects := reconnects + 1;
      control := if world.shutdownInPause(reconnects - 1) then Stopped(InPause) else Connecting;
    }

    /** After `n` rounds the loop is where the account says, and the registry is what `wakes` wakes make of it. */
    ghost predicate At(parse: string -> Option<Payload>, world: World, start: Registry,
                       n: nat, control: Control, wakes: nat)
      reads this, registry
    {
      && Progress(control, connectAttempts, reconnects, wakes) == After(world, n)
      && registry.State() == AfterWakes(parse, start, world.wakes, wakes)
    }

    /** The same, as rounds. */
    method Rounds(parse: string -> Option<Payload>, world: World, first: nat, left: nat,
                  ghost n: nat, ghost start: Registry, ghost armed: bool)
      returns (control: Control, wakes: nat)
      requires Valid(start) && At(parse, world, start, n, Connecting, first) && Signalled(world, armed)
      modifies this, registry
      ensures first <= wakes <= first + left && (control == Listening ==> wakes == first + left)
      ensures At(parse, world, start, n + 1 + (wakes - first), control, wakes) && Signalled(world, armed)
    {
      ghost var p := Progress(Connecting, connectAttempts, reconnects, first);
      control, wakes := Connection(parse, world, first, left, start, armed);
      AttemptRounds(world, n, p, wakes);
    }

    /**
     Run for `budget` rounds, or until a shutdown is noticed. Whatever the world does: the loop is where
     the round-by-round account says, so it neither stops early nor passes anything over; the subscribers
     have got exactly the parseable non-empty notifications of the wakes so far, from both sources, in
     arrival order, each once; and the connected signal fired at most once, namely if it was armed and
     some connect succeeded.
     */
    method Run(parse: string -> Option<Payload>, world: World, budget: nat) returns (control: Control, wakes: nat)
      requires Valid(registry.State())
      requires signalsFired == 0 && connectAttempts == 0 && reconnects == 0
      modifies this, registry
      ensures Progress(control, connectAttempts, reconnects, wakes) == After(world, budget)
      ensures registry.State() == PublishedAll(old(registry.State()), Parsed(parse, ObtainedIn(world.wakes, wakes)))
      ensures signalsFired ==
              if old(signalArmed) && (exists n :: 0 <= n < connectAttempts && world.connects(n)) then 1 else 0
    {
      ghost var start, armed := registry.State(), signalArmed;
      var done := 0;
      control, wakes := Connecting, 0;
      while control == Connecting && done < budget
        invariant done <= budget && (control == Listening ==> done == budget)
        invariant At(parse, world, start, done, control, wakes) && Signalled(world, armed)
        decreases budget - done
      {
        var first := wakes;
        control, wakes := Rounds(parse, world, first, budget - done - 1, done, start, armed);
        done := done + 1 + (wakes - first);
      }
      if control.Stopped? {
        StoppedStays(world, done, budget);
      }
      WakesAreFannedOut(parse, start, world.wakes, wakes);
      SomeConnected(world.connects, connectAttempts);
    }
  }
}
