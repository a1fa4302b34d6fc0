/** The in-process limiter of pkg/auth/ratelimit.go. Clock readings are
    parameters, in nanoseconds. */
module RateLimit {
  const MINUTE: int := 60_000_000_000

  datatype Counter = Counter(count: nat, windowAt: int)

  // Every stored counter has counted the call that opened its window.
  type Counters = m: map<string, Counter> | forall key | key in m :: m[key].count >= 1

  /** One call of Allow: who asks, under which service tier, and when. */
  datatype Request = Request(subject: string, serviceTier: string, now: int)

  datatype Limits = Limits(tiers: map<string, int>, defaultRPM: int) {
    function Tier(req: Request): string {
      if req.serviceTier == "" then "default" else req.serviceTier
    }

    function Rpm(req: Request): int {
      if Tier(req) in tiers then tiers[Tier(req)] else defaultRPM
    }

    function Key(req: Request): string {
      req.subject + ":" + Tier(req)
    }

    /** The counter of the request's key after the call; requests without a
        limit are not counted. */
    function Counted(counters: Counters, req: Request): Counter {
      if Key(req) !in counters || req.now - counters[Key(req)].windowAt >= MINUTE
      then Counter(1, req.now)
      else counters[Key(req)].(count := counters[Key(req)].count + 1)
    }

    function After(counters: Counters, req: Request): Counters {
      if Rpm(req) <= 0 then counters else counters[Key(req) := Counted(counters, req)]
    }

    predicate Admits(counters: Counters, req: Request) {
      Rpm(req) <= 0 || Counted(counters, req).count == 1 || Counted(counters, req).count <= Rpm(req)
    }
  }

  /** The rate of a request: its tier's if that is listed, else the default; a request that
      names no tier is in the one called default. */
  lemma {:induction false} RateIsTheTiers(limits: Limits, req: Request)
    ensures req.serviceTier in limits.tiers && req.serviceTier != "" ==> limits.Rpm(req) == limits.tiers[req.serviceTier]
    ensures req.serviceTier == "" ==> limits.Rpm(req) == limits.Rpm(req.(serviceTier := "default"))
    ensures req.serviceTier !in limits.tiers && req.serviceTier != "" ==> limits.Rpm(req) == limits.defaultRPM
    ensures limits.Key(req) == req.subject + ":" + (if req.serviceTier == "" then "default" else req.serviceTier)
  {
  }

  /** A call without a positive rate is always admitted and counted nowhere; one with a rate
      changes the counter of its subject and tier alone, and is admitted if it opens a
      window or if no more than the rate have been counted in the window with it. */
  lemma {:induction false} CallsAreCounted(limits: Limits, counters: Counters, req: Request)
    ensures limits.Rpm(req) <= 0 ==> limits.Admits(counters, req) && limits.After(counters, req) == counters
    ensures limits.Rpm(req) > 0 ==>
      var (key, after) := (limits.Key(req), limits.After(counters, req));
      && after.Keys == counters.Keys + {key}
      && (forall k | k in counters && k != key :: after[k] == counters[k])
      && (if key in counters && req.now < counters[key].windowAt + MINUTE
          then after[key] == Counter(counters[key].count + 1, counters[key].windowAt)
               && (limits.Admits(counters, req) <==> counters[key].count < limits.Rpm(req))
          else after[key] == Counter(1, req.now) && limits.Admits(counters, req))
  {
  }

  class InProcessLimiter {
    const limits: Limits
    var counters: Counters

    constructor (limits: Limits)
      ensures this.limits == limits && counters == map[]
    {
      this.limits := limits;
      counters := map[];
    }

    method Allow(req: Request) returns (allowed: bool)
      modifies this
      ensures allowed == limits.Admits(old(counters), req)
      ensures counters == limits.After(old(counters), req)
    {
      var tier := req.serviceTier;
      if tier == "" {
        tier := "default";
      }
      var rpm := limits.defaultRPM;
      if tier in limits.tiers {
        rpm := limits.tiers[tier];
      }
      if rpm <= 0 {
        return true;
      }
      var key := req.subject + ":" + tier;
      if key !in counters || req.now - counters[key].windowAt >= MINUTE {
        counters := counters[key := Counter(1, req.now)];
        return true;
      }
      var c := counters[key];
      c := c.(count := c.count + 1);
      counters := counters[key := c];
      if c.count > rpm {
        return false;
      }
      return true;
    }
  }

  // ----- Runs: any sequence of calls, for any mix of callers -----

  predicate Monotone(reqs: seq<Request>) {
    forall i, j | 0 <= i < j < |reqs| :: reqs[i].now <= reqs[j].now
  }

  /** Every call counted under `key` is limited to the same positive rate. */
  ghost predicate FixedRate(limits: Limits, reqs: seq<Request>, key: string, rpm: int) {
    rpm > 0 && forall r | r in reqs && limits.Key(r) == key :: limits.Rpm(r) == rpm
  }

  /** How many calls under `key` made at a time in [from, from + MINUTE) a run admits. */
  ghost function AdmittedInMinute(limits: Limits, counters: Counters, reqs: seq<Request>, key: string, from: int): nat
    decreases |reqs|
  {
    if reqs == [] then 0
    else
      var r := reqs[0];
      (if limits.Key(r) == key && from <= r.now < from + MINUTE && limits.Admits(counters, r) then 1 else 0)
      + AdmittedInMinute(limits, limits.After(counters, r), reqs[1..], key, from)
  }

  /** How many calls under `key` a run admits into the window opened at `start`. */
  ghost function AdmittedInWindow(limits: Limits, counters: Counters, reqs: seq<Request>, key: string, start: int): nat
    decreases |reqs|
  {
    if reqs == [] then 0
    else
      var r := reqs[0];
      (if limits.Key(r) == key && limits.Counted(counters, r).windowAt == start && limits.Admits(counters, r) then 1 else 0)
      + AdmittedInWindow(limits, limits.After(counters, r), reqs[1..], key, start)
  }

  function Left(c: Counter, rpm: nat): nat {
    if c.count < rpm then rpm - c.count else 0
  }

  /** What a run can still admit in the minute once the clock has reached it: the
      rest of a window opened before it, and one window opened inside it. */
  function Budget(counters: Counters, key: string, rpm: nat, from: int): nat {
    if key !in counters then rpm
    else Left(counters[key], rpm) + (if counters[key].windowAt < from then rpm else 0)
  }

  lemma {:induction false} BudgetBounds(limits: Limits, counters: Counters, reqs: seq<Request>, key: string, rpm: nat, from: int)
    requires FixedRate(limits, reqs, key, rpm) && Monotone(reqs)
    requires forall r | r in reqs :: from <= r.now
    ensures AdmittedInMinute(limits, counters, reqs, key, from) <= Budget(counters, key, rpm, from)
    decreases |reqs|
  {
    if reqs != [] {
      assert limits.Key(reqs[0]) == key ==> limits.Rpm(reqs[0]) == rpm;
      if reqs[0].now < from + MINUTE {
        BudgetBounds(limits, limits.After(counters, reqs[0]), reqs[1..], key, rpm, from);
      } else {
        NothingAfter(limits, limits.After(counters, reqs[0]), reqs[1..], key, from);
      }
    }
  }

  lemma {:induction false} NothingAfter(limits: Limits, counters: Counters, reqs: seq<Request>, key: string, from: int)
    requires forall r | r in reqs :: from + MINUTE <= r.now
    ensures AdmittedInMinute(limits, counters, reqs, key, from) == 0
    decreases |reqs|
  {
    if reqs != [] {
      assert reqs[0] in reqs;
      NothingAfter(limits, limits.After(counters, reqs[0]), reqs[1..], key, from);
    }
  }

  /** Fixed windows let at most two windows' worth, less the call that opened the
      earlier one, through in any minute. */
  lemma {:induction false} AtMostTwiceTheRatePerMinute(limits: Limits, counters: Counters, reqs: seq<Request>, key: string, rpm: nat, from: int)
    requires FixedRate(limits, reqs, key, rpm) && Monotone(reqs)
    ensures AdmittedInMinute(limits, counters, reqs, key, from) <= 2 * rpm - 1
    decreases |reqs|
  {
    if reqs != [] && reqs[0].now < from {
      AtMostTwiceTheRatePerMinute(limits, limits.After(counters, reqs[0]), reqs[1..], key, rpm, from);
    } else {
      BudgetBounds(limits, counters, reqs, key, rpm, from);
    }
  }

  /** No window admits more than the rate, however many calls are refused in it. */
  lemma {:induction false} AtMostTheRatePerWindow(limits: Limits, counters: Counters, reqs: seq<Request>, key: string, rpm: nat, start: int)
    requires FixedRate(limits, reqs, key, rpm) && Monotone(reqs)
    ensures AdmittedInWindow(limits, counters, reqs, key, start) <=
            if key in counters && counters[key].windowAt == start then Left(counters[key], rpm) else rpm
    ensures (forall r | r in reqs :: start < r.now) && !(key in counters && counters[key].windowAt == start) ==>
            AdmittedInWindow(limits, counters, reqs, key, start) == 0
    decreases |reqs|
  {
    if reqs != [] {
      assert reqs[0] in reqs;
      assert limits.Key(reqs[0]) == key ==> limits.Rpm(reqs[0]) == rpm;
      AtMostTheRatePerWindow(limits, limits.After(counters, reqs[0]), reqs[1..], key, rpm, start);
    }
  }

  // ----- Against a sliding window -----

  const SECOND: int := 1_000_000_000

  const ANN_KEY: string := "ann:default"

  /** A limiter with one rate for everyone. */
  function Uniform(rpm: int): Limits {
    Limits(map[], rpm)
  }

  function AnnAt(seconds: int): Request {
    Request("ann", "", seconds * SECOND)
  }

  lemma {:induction false} AnnsCall(rpm: int, seconds: int)
    ensures Uniform(rpm).Key(AnnAt(seconds)) == ANN_KEY && Uniform(rpm).Rpm(AnnAt(seconds)) == rpm
  {
  }

  /** The same call n times. */
  function Many(n: nat, r: Request): seq<Request> {
    if n == 0 then [] else [r] + Many(n - 1, r)
  }

  lemma {:induction false} ManyAre(n: nat, r: Request)
    ensures |Many(n, r)| == n && forall i | 0 <= i < n :: Many(n, r)[i] == r
  {
    if n > 0 {
      ManyAre(n - 1, r);
    }
  }

  /** A limiter with a single counter. */
  function Single(key: string, count: nat, windowAt: int): Counters
    requires count > 0
  {
    map[key := Counter(count, windowAt)]
  }

  ghost predicate Limited(limits: Limits, r: Request, key: string, rpm: nat) {
    rpm > 0 && limits.Key(r) == key && limits.Rpm(r) == rpm
  }

  predicate InMinute(r: Request, from: int) {
    from <= r.now < from + MINUTE
  }

  lemma {:induction false} FirstCall(limits: Limits, counters: Counters, r: Request, rest: seq<Request>, key: string, from: int, next: Counters)
    requires limits.Key(r) == key && limits.Admits(counters, r) && limits.After(counters, r) == next
    ensures AdmittedInMinute(limits, counters, [r] + rest, key, from)
         == (if InMinute(r, from) then 1 else 0) + AdmittedInMinute(limits, next, rest, key, from)
  {
    assert ([r] + rest)[1..] == rest;
  }

  lemma {:induction false} NextCall(limits: Limits, r: Request, key: string, rpm: nat, count: nat, windowAt: int)
    requires Limited(limits, r, key, rpm) && 0 < count < rpm && r.now < windowAt + MINUTE
    ensures limits.After(Single(key, count, windowAt), r) == Single(key, count + 1, windowAt)
    ensures limits.Admits(Single(key, count, windowAt), r)
  {
  }

  /** The counter of the key, if there is one, has had its minute. */
  predicate Over(counters: Counters, key: string, now: int) {
    counters == map[] || (counters.Keys == {key} && counters[key].windowAt + MINUTE <= now)
  }

  lemma {:induction false} OpeningCall(limits: Limits, counters: Counters, r: Request, key: string, rpm: nat)
    requires Limited(limits, r, key, rpm) && Over(counters, key, r.now)
    ensures limits.After(counters, r) == Single(key, 1, r.now)
    ensures limits.Admits(counters, r)
  {
  }

  /** A burst inside one window is admitted whole, up to the rate. */
  lemma {:induction false} BurstAdmitted(limits: Limits, r: Request, key: string, rpm: nat, n: nat,
                                         run: seq<Request>, rest: seq<Request>, before: Counters, after: Counters, from: int)
    requires Limited(limits, r, key, rpm) && InMinute(r, from) && run == Many(n, r) + rest
    requires key in before && before == Single(key, before[key].count, before[key].windowAt)
    requires r.now < before[key].windowAt + MINUTE && before[key].count + n <= rpm
    requires after == Single(key, before[key].count + n, before[key].windowAt)
    ensures AdmittedInMinute(limits, before, run, key, from) == n + AdmittedInMinute(limits, after, rest, key, from)
    decreases n
  {
    if n == 0 {
      assert run == rest && before == after;
    } else {
      var more := Many(n - 1, r) + rest;
      var next := Single(key, before[key].count + 1, before[key].windowAt);
      assert run == [r] + more;
      NextCall(limits, r, key, rpm, before[key].count, before[key].windowAt);
      FirstCall(limits, before, r, more, key, from, next);
      BurstAdmitted(limits, r, key, rpm, n - 1, more, rest, next, after, from);
    }
  }

  /** A window that one call opens and a burst fills. */
  lemma {:induction false} WindowAdmitted(limits: Limits, counters: Counters, opening: Request, r: Request, key: string, rpm: nat,
                                          run: seq<Request>, rest: seq<Request>, full: Counters, from: int)
    requires Limited(limits, opening, key, rpm) && Limited(limits, r, key, rpm)
    requires Over(counters, key, opening.now) && r.now < opening.now + MINUTE && InMinute(r, from)
    requires run == [opening] + (Many(rpm - 1, r) + rest) && full == Single(key, rpm, opening.now)
    ensures AdmittedInMinute(limits, counters, run, key, from)
         == (if InMinute(opening, from) then rpm else rpm - 1) + AdmittedInMinute(limits, full, rest, key, from)
  {
    var more := Many(rpm - 1, r) + rest;
    var first := Single(key, 1, opening.now);
    OpeningCall(limits, counters, opening, key, rpm);
    FirstCall(limits, counters, opening, more, key, from, first);
    BurstAdmitted(limits, r, key, rpm, rpm - 1, more, rest, first, full, from);
  }

  /** One call opens a window, the rest of the rate follows at its end, and a whole rate
      at the start of the next. */
  function Straddle(rpm: nat): seq<Request>
    requires rpm > 0
  {
    [AnnAt(0)] + (Many(rpm - 1, AnnAt(59)) + ([AnnAt(60)] + (Many(rpm - 1, AnnAt(60)) + [])))
  }

  lemma {:induction false} StraddleIsARun(rpm: nat)
    requires rpm > 0
    ensures Monotone(Straddle(rpm)) && FixedRate(Uniform(rpm), Straddle(rpm), ANN_KEY, rpm)
  {
    ManyAre(rpm - 1, AnnAt(59));
    ManyAre(rpm - 1, AnnAt(60));
    var run := Straddle(rpm);
    forall i | 0 <= i < |run|
      ensures run[i] == if i == 0 then AnnAt(0) else if i < rpm then AnnAt(59) else AnnAt(60)
    {
    }
    forall r | r in run
      ensures Uniform(rpm).Rpm(r) == rpm
    {
    }
  }

  /** For every rate the bound is attained, so the limiter counts fixed windows and not,
      as its comment says, a sliding one. */
  lemma {:induction false} TwiceTheRateAttained(rpm: nat)
    requires rpm > 0
    ensures AdmittedInMinute(Uniform(rpm), map[], Straddle(rpm), ANN_KEY, 59 * SECOND) == 2 * rpm - 1
  {
    var (limits, next) := (Uniform(rpm), [AnnAt(60)] + (Many(rpm - 1, AnnAt(60)) + []));
    AnnsCall(rpm, 0);
    AnnsCall(rpm, 59);
    AnnsCall(rpm, 60);
    var (half, full) := (Single(ANN_KEY, rpm, 0), Single(ANN_KEY, rpm, 60 * SECOND));
    WindowAdmitted(limits, map[], AnnAt(0), AnnAt(59), ANN_KEY, rpm, Straddle(rpm), next, half, 59 * SECOND);
    WindowAdmitted(limits, half, AnnAt(60), AnnAt(60), ANN_KEY, rpm, next, [], full, 59 * SECOND);
  }

  /** What a sliding window would promise: from the empty limiter, no run at this rate
      ever admits more in a minute. */
  ghost predicate Slides(rpm: nat) {
    forall limits, reqs, key, from | FixedRate(limits, reqs, key, rpm) && Monotone(reqs) ::
      AdmittedInMinute(limits, map[], reqs, key, from) <= rpm
  }

  /** The limiter keeps that promise at one call a minute, and at no other rate. */
  lemma {:induction false} SlidesExactlyWhen(rpm: nat)
    requires rpm > 0
    ensures Slides(rpm) <==> rpm == 1
  {
    if rpm == 1 {
      forall limits, reqs, key, from | FixedRate(limits, reqs, key, rpm) && Monotone(reqs)
        ensures AdmittedInMinute(limits, map[], reqs, key, from) <= rpm
      {
        AtMostTwiceTheRatePerMinute(limits, map[], reqs, key, rpm, from);
      }
    } else {
      StraddleIsARun(rpm);
      TwiceTheRateAttained(rpm);
    }
  }
}
