/** The circuit breaker of pkg/provider/resilience/circuit.go, one method call at a
    time. CircuitRuns interleaves the atomic steps of the same methods. */
module Circuit {
  datatype State = Closed | Open | HalfOpen

  /** How a provider call turned out, as classified for the breaker. */
  datatype Outcome = Success | Retryable | RateLimited | NonRetryable

  datatype Settings = Settings(threshold: int, resetTimeout: int)

  /** The three atomic fields. */
  datatype Breaker = Breaker(state: State, failures: int, lastFailureTime: int) {
    function Swap(from: State, to: State): Breaker {
      if state == from then this.(state := to) else this
    }

    /** Whether a request is let through, for a clock reading `now`. */
    predicate Allows(settings: Settings, now: int) {
      state == Closed || (state == Open && now - lastFailureTime >= settings.resetTimeout)
    }

    function AfterAllow(settings: Settings, now: int): Breaker {
      if state == Open && Allows(settings, now) then this.(state := HalfOpen) else this
    }

    function AfterSuccess(): Breaker {
      this.(failures := 0, state := if state == HalfOpen then Closed else state)
    }

    function AfterFailure(settings: Settings, now: int): Breaker {
      var b := this.(lastFailureTime := now);
      match state
      case Closed => b.(failures := failures + 1, state := if failures + 1 >= settings.threshold then Open else Closed)
      case HalfOpen => b.(state := Open)
      case Open => b
    }
  }

  /** Failures, one after the other. */
  function Failing(settings: Settings, b: Breaker, times: seq<int>): Breaker {
    if times == [] then b else Failing(settings, b, times[..|times| - 1]).AfterFailure(settings, times[|times| - 1])
  }

  /** A closed breaker lets requests through for as long as fewer failures than the
      threshold have followed each other, and a success starts the count again. */
  lemma {:induction false} ClosedBelowThreshold(settings: Settings, b: Breaker, times: seq<int>, now: int)
    requires b.state == Closed && b.failures + |times| < settings.threshold
    ensures var after := Failing(settings, b, times);
      && after.state == Closed && after.failures == b.failures + |times|
      && after.Allows(settings, now) && after.AfterAllow(settings, now) == after
      && after.AfterSuccess() == after.(failures := 0)
  {
    if times != [] {
      ClosedBelowThreshold(settings, b, times[..|times| - 1], now);
    }
  }

  /** The failure that reaches the threshold opens it, and later ones put off the probe. */
  lemma {:induction false} OpenAtThreshold(settings: Settings, b: Breaker, times: seq<int>)
    requires b.state == Closed && b.failures < settings.threshold <= b.failures + |times|
    ensures var after := Failing(settings, b, times); after.state == Open && after.lastFailureTime == times[|times| - 1]
  {
    var init := times[..|times| - 1];
    if b.failures + |init| < settings.threshold {
      ClosedBelowThreshold(settings, b, init, 0);
    } else {
      OpenAtThreshold(settings, b, init);
    }
  }

  /** An open breaker refuses until the timeout has passed since the last failure; then it
      lets one probe through and refuses all others until the probe's outcome closes it
      with no failure counted, or opens it from the time of the new failure. */
  lemma {:induction false} OneProbeDecides(settings: Settings, b: Breaker, probe: int, later: int, failedAt: int)
    requires b.state == Open
    ensures b.Allows(settings, probe) <==> probe - b.lastFailureTime >= settings.resetTimeout
    ensures !b.Allows(settings, probe) ==> b.AfterAllow(settings, probe) == b
    ensures b.Allows(settings, probe) ==>
      var probing := b.AfterAllow(settings, probe);
      && !probing.Allows(settings, later) && probing.AfterAllow(settings, later) == probing
      && probing.AfterSuccess().state == Closed && probing.AfterSuccess().failures == 0
      && probing.AfterFailure(settings, failedAt).state == Open
      && probing.AfterFailure(settings, failedAt).lastFailureTime == failedAt
    ensures b.AfterSuccess().state == Open
  {
  }

  class CircuitBreaker {
    var state: State
    var failures: int
    var lastFailureTime: int
    const settings: Settings

    constructor (settings: Settings)
      ensures this.settings == settings && Value() == Breaker(Closed, 0, 0)
    {
      state, failures, lastFailureTime, this.settings := Closed, 0, 0, settings;
    }

    function Value(): Breaker
      reads this
    {
      Breaker(state, failures, lastFailureTime)
    }

    method CompareAndSwap(from: State, to: State) returns (swapped: bool)
      modifies `state
      ensures swapped <==> old(state) == from
      ensures state == if swapped then to else old(state)
    {
      swapped := state == from;
      if swapped {
        state := to;
      }
    }

    method Allow(now: int) returns (allowed: bool)
      modifies this
      ensures allowed == old(Value()).Allows(settings, now)
      ensures Value() == old(Value()).AfterAllow(settings, now)
    {
      match state {
        case Closed =>
          return true;
        case Open =>
          var lastFail := lastFailureTime;
          if now - lastFail < settings.resetTimeout {
            return false;
          }
          var swapped := CompareAndSwap(Open, HalfOpen);
          if swapped {
            return true;
          }
          return state == Closed;
        case HalfOpen =>
          return false;
      }
    }

    method RecordSuccess()
      modifies this
      ensures Value() == old(Value()).AfterSuccess()
    {
      failures := 0;
      var _ := CompareAndSwap(HalfOpen, Closed);
    }

    method RecordFailure(now: int)
      modifies this
      ensures Value() == old(Value()).AfterFailure(settings, now)
    {
      lastFailureTime := now;
      match state {
        case Closed =>
          failures := failures + 1;
          if failures >= settings.threshold {
            var _ := CompareAndSwap(Closed, Open);
          }
        case HalfOpen =>
          var _ := CompareAndSwap(HalfOpen, Open);
        case Open =>
      }
    }
  }
}

/** Any number of requests of pkg/provider/resilience/resilience.go on one breaker,
    interleaved at the atomic loads, stores, adds and compare-and-swaps. */
module CircuitRuns {
  import opened Circuit
  import opened Wrappers

  /** What a request does next; `again` says that the attempt may be followed by
      another one. */
  datatype Pc =
    | AllowLoad | AllowTime | AllowSwap | AllowReload
    | Calling
    | CheckHalfOpen(again: bool)
    | StoreZero(again: bool) | SwapClosed(again: bool)
    | StoreTime | LoadState | AddFailure | SwapOpen | SwapReopen
    | Waiting
    | Finished

  datatype Request = Request(pc: Pc, attempt: nat)

  /** What the environment decides in a step: the clock, the outcome of a call, and
      whether a waiting request goes on. */
  datatype Choice = Choice(now: int, outcome: Outcome, goesOn: bool)

  datatype Event = Arrive(id: nat) | Run(id: nat, choice: Choice)

  datatype Limits = Limits(settings: Settings, maxAttempts: nat)

  /** `winner` is the request, and its attempt, that won the latest swap from open to
      half-open; `entered` and `left` count the changes into and out of half-open. */
  datatype World = World(breaker: Breaker, requests: map<nat, Request>, winner: Option<(nat, nat)>, entered: nat, left: nat)

  const START: World := World(Breaker(Closed, 0, 0), map[], None, 0, 0)

  function Ended(again: bool): Pc {
    if again then Waiting else Finished
  }

  /** The next step of one request: its new position, and the breaker. */
  function Advance(limits: Limits, b: Breaker, r: Request, c: Choice): (Request, Breaker) {
    match r.pc
    case AllowLoad =>
      (r.(pc := match b.state case Closed => Calling case Open => AllowTime case HalfOpen => Finished), b)
    case AllowTime =>
      (r.(pc := if c.now - b.lastFailureTime < limits.settings.resetTimeout then Finished else AllowSwap), b)
    case AllowSwap =>
      (r.(pc := if b.state == Open then Calling else AllowReload), b.Swap(Open, HalfOpen))
    case AllowReload =>
      (r.(pc := if b.state == Closed then Calling else Finished), b)
    case Calling =>
      (r.(pc := match c.outcome
                case Success => StoreZero(false)
                case Retryable => StoreTime
                case RateLimited => CheckHalfOpen(true)
                case NonRetryable => CheckHalfOpen(false)), b)
    case CheckHalfOpen(again) =>
      (r.(pc := if b.state == HalfOpen then StoreZero(again) else Ended(again)), b)
    case StoreZero(again) => (r.(pc := SwapClosed(again)), b.(failures := 0))
    case SwapClosed(again) => (r.(pc := Ended(again)), b.Swap(HalfOpen, Closed))
    case StoreTime => (r.(pc := LoadState), b.(lastFailureTime := c.now))
    case LoadState =>
      (r.(pc := match b.state case Closed => AddFailure case HalfOpen => SwapReopen case Open => Waiting), b)
    case AddFailure =>
      (r.(pc := if b.failures + 1 >= limits.settings.threshold then SwapOpen else Waiting), b.(failures := b.failures + 1))
    case SwapOpen => (r.(pc := Waiting), b.Swap(Closed, Open))
    case SwapReopen => (r.(pc := Waiting), b.Swap(HalfOpen, Open))
    case Waiting =>
      if c.goesOn && r.attempt < limits.maxAttempts then (Request(AllowLoad, r.attempt + 1), b) else (r.(pc := Finished), b)
    case Finished => (r, b)
  }

  function Next(limits: Limits, w: World, e: Event): World {
    match e
    case Arrive(id) => if id in w.requests then w else w.(requests := w.requests[id := Request(AllowLoad, 1)])
    case Run(id, c) =>
      if id !in w.requests then w
      else
        var (r, b) := Advance(limits, w.breaker, w.requests[id], c);
        var enters := w.breaker.state != HalfOpen && b.state == HalfOpen;
        var leaves := w.breaker.state == HalfOpen && b.state != HalfOpen;
        World(b, w.requests[id := r],
              if enters then Some((id, r.attempt)) else w.winner,
              w.entered + (if enters then 1 else 0),
              w.left + (if leaves then 1 else 0))
  }

  function Exec(limits: Limits, w: World, events: seq<Event>): World
    decreases |events|
  {
    if events == [] then w else Exec(limits, Next(limits, w, events[0]), events[1..])
  }

  /** Positions of an admitted request that has yet to report to the breaker. */
  predicate Owes(pc: Pc) {
    pc.Calling? || pc.CheckHalfOpen? || pc.StoreZero? || pc.SwapClosed? || pc.StoreTime? || pc.LoadState? || pc.SwapReopen?
  }

  /** The winner's winning attempt has not recorded its outcome. */
  predicate WinnerOwes(w: World) {
    && w.winner.Some? && w.winner.value.0 in w.requests
    && var r := w.requests[w.winner.value.0];
       r.attempt == w.winner.value.1 && Owes(r.pc)
  }

  /** Half-open is never stranded, and is entered once more than left. */
  predicate Inv(w: World) {
    && (w.breaker.state == HalfOpen ==> WinnerOwes(w))
    && w.entered == w.left + (if w.breaker.state == HalfOpen then 1 else 0)
  }

  lemma NextKeepsInv(limits: Limits, w: World, e: Event)
    requires Inv(w)
    ensures Inv(Next(limits, w, e))
  {
  }

  lemma {:induction false} InvAlways(limits: Limits, w: World, events: seq<Event>)
    requires Inv(w)
    ensures Inv(Exec(limits, w, events))
    decreases |events|
  {
    if events != [] {
      NextKeepsInv(limits, w, events[0]);
      InvAlways(limits, Next(limits, w, events[0]), events[1..]);
    }
  }

  /** In every run of any requests: a half-open breaker waits for the winner of the
      latest swap, whose outcome is still out. */
  lemma HalfOpenNeverStranded(limits: Limits, events: seq<Event>)
    ensures var w := Exec(limits, START, events);
            && (w.breaker.state == HalfOpen ==> WinnerOwes(w))
            && 0 <= w.entered - w.left <= 1
            && (w.entered - w.left == 1 <==> w.breaker.state == HalfOpen)
  {
    InvAlways(limits, START, events);
  }

  /** How many steps of its own an owing request is from its closing swap. */
  function Distance(pc: Pc): nat {
    if pc.Calling? then 4
    else if pc.CheckHalfOpen? || pc.StoreTime? then 3
    else if pc.StoreZero? || pc.LoadState? then 2
    else 1
  }

  function StepsOf(events: seq<Event>, id: nat): nat {
    if events == [] then 0
    else (if events[0].Run? && events[0].id == id then 1 else 0) + StepsOf(events[1..], id)
  }

  /** Whatever the others do, half-open ends within four steps of the winner. */
  lemma {:induction false} HalfOpenEnds(limits: Limits, w: World, events: seq<Event>) returns (n: nat)
    requires Inv(w) && w.breaker.state == HalfOpen
    requires StepsOf(events, w.winner.value.0) >= Distance(w.requests[w.winner.value.0].pc)
    ensures 0 < n <= |events| && Exec(limits, w, events[..n]).breaker.state != HalfOpen
    decreases |events|
  {
    var w' := Next(limits, w, events[0]);
    NextKeepsInv(limits, w, events[0]);
    if w'.breaker.state != HalfOpen {
      n := 1;
      assert events[..1] == [events[0]] && [events[0]][1..] == [];
      assert Exec(limits, w, [events[0]]) == Exec(limits, w', []);
    } else {
      var m := HalfOpenEnds(limits, w', events[1..]);
      n := m + 1;
      assert events[..n][0] == events[0] && events[..n][1..] == events[1..][..m];
    }
  }

  /** While half-open no request is admitted; the swap into half-open admits one. */
  lemma OneProbe(limits: Limits, w: World, id: nat, c: Choice)
    requires id in w.requests && !w.requests[id].pc.Calling?
    requires Next(limits, w, Run(id, c)).requests[id].pc.Calling?
    ensures w.breaker.state != HalfOpen
    ensures var w' := Next(limits, w, Run(id, c));
            w'.breaker.state == HalfOpen ==> w'.winner == Some((id, w'.requests[id].attempt)) && w'.entered == w.entered + 1
  {
  }

  // ----- Steps that are not interleaved are the methods -----

  function Alone(limits: Limits, b: Breaker, r: Request, c: Choice, n: nat): (Request, Breaker)
    decreases n
  {
    if n == 0 then (r, b)
    else
      var (r', b') := Advance(limits, b, r, c);
      Alone(limits, b', r', c, n - 1)
  }

  lemma AllowAlone(limits: Limits, b: Breaker, r: Request, c: Choice) returns (n: nat)
    requires r.pc == AllowLoad
    ensures var (r', b') := Alone(limits, b, r, c, n);
            && b' == b.AfterAllow(limits.settings, c.now)
            && r'.pc == if b.Allows(limits.settings, c.now) then Calling else Finished
  {
    var (r1, b1) := Advance(limits, b, r, c);
    var (r2, b2) := Advance(limits, b1, r1, c);
    n := if b.state != Open then 1 else if b.Allows(limits.settings, c.now) then 3 else 2;
    assert n == 1 ==> Alone(limits, b1, r1, c, 0) == (r1, b1);
    assert n >= 2 ==> Alone(limits, b1, r1, c, n - 1) == Alone(limits, b2, r2, c, n - 2);
    assert n == 3 ==> Alone(limits, b2, r2, c, 1) == Advance(limits, b2, r2, c);
  }

  /** A call's outcome, recorded without interruption: a success clears the count and
      closes a half-open breaker; an error that can be retried counts as a failure; a rate
      limit or a final error closes a half-open breaker and changes nothing else. A rate
      limit and an error that can be retried may be followed by another attempt. */
  lemma {:induction false} OutcomeAlone(limits: Limits, b: Breaker, r: Request, c: Choice) returns (n: nat)
    requires r.pc == Calling
    ensures var (r', b') := Alone(limits, b, r, c, n);
            && r'.attempt == r.attempt
            && r'.pc == (if c.outcome == Retryable || c.outcome == RateLimited then Waiting else Finished)
            && b' == (if c.outcome == Success then b.AfterSuccess()
                      else if c.outcome == Retryable then b.AfterFailure(limits.settings, c.now)
                      else if b.state == HalfOpen then b.AfterSuccess() else b)
  {
    var (r1, b1) := Advance(limits, b, r, c);
    if c.outcome == Success {
      RecordSuccessAlone(limits, b1, r1, c);
      n := 3;
    } else if c.outcome == Retryable {
      var m := RecordFailureAlone(limits, b1, r1, c);
      n := m + 1;
    } else {
      var (r2, b2) := Advance(limits, b1, r1, c);
      n := if b.state == HalfOpen then 4 else 2;
      assert Alone(limits, b1, r1, c, n - 1) == Alone(limits, b2, r2, c, n - 2);
      if b.state == HalfOpen {
        var (r3, b3) := Advance(limits, b2, r2, c);
        assert Alone(limits, b2, r2, c, 2) == Alone(limits, b3, r3, c, 1);
        assert Alone(limits, b3, r3, c, 1) == Advance(limits, b3, r3, c);
      }
    }
  }

  /** A waiting request goes on to its next attempt, if it may and has one left. */
  lemma {:induction false} WaitingAlone(limits: Limits, b: Breaker, r: Request, c: Choice)
    requires r.pc == Waiting
    ensures Advance(limits, b, r, c)
         == (if c.goesOn && r.attempt < limits.maxAttempts then Request(AllowLoad, r.attempt + 1) else r.(pc := Finished), b)
  {
  }

  lemma RecordSuccessAlone(limits: Limits, b: Breaker, r: Request, c: Choice)
    requires r.pc == StoreZero(false)
    ensures Alone(limits, b, r, c, 2) == (r.(pc := Finished), b.AfterSuccess())
  {
    var (r1, b1) := Advance(limits, b, r, c);
    assert Alone(limits, b1, r1, c, 1) == Advance(limits, b1, r1, c);
  }

  lemma RecordFailureAlone(limits: Limits, b: Breaker, r: Request, c: Choice) returns (n: nat)
    requires r.pc == StoreTime
    ensures Alone(limits, b, r, c, n) == (r.(pc := Waiting), b.AfterFailure(limits.settings, c.now))
  {
    var (r1, b1) := Advance(limits, b, r, c);
    var (r2, b2) := Advance(limits, b1, r1, c);
    var (r3, b3) := Advance(limits, b2, r2, c);
    n := match b.state
         case Open => 2
         case HalfOpen => 3
         case Closed => if b.failures + 1 >= limits.settings.threshold then 4 else 3;
    assert Alone(limits, b2, r2, c, n - 2) == if n == 2 then (r2, b2) else Alone(limits, b3, r3, c, n - 3);
    assert n == 4 ==> Alone(limits, b3, r3, c, 1) == Advance(limits, b3, r3, c);
  }
}
