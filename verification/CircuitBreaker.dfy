/** The injected monotonic clock: successive reads return successive entries of a tape. */
module MonotonicClock {
  type Tape = nat -> int

  ghost predicate Monotone(tape: Tape) {
    forall i: nat, j: nat :: i <= j ==> tape(i) <= tape(j)
  }

  class Clock {
    const tape: Tape
    var ticks: nat

    constructor (tape: Tape)
      ensures this.tape == tape && ticks == 0
    {
      this.tape := tape;
      ticks := 0;
    }

    method Now() returns (t: int)
      modifies this
      ensures t == tape(old(ticks)) && ticks == old(ticks) + 1
    {
      t := tape(ticks);
      ticks := ticks + 1;
    }
  }
}

/**
 * The three-state breaker of one provider. Times are milliseconds.
 *
 * `Breaker` and the functions on it give the state a value; class `CircuitBreaker` is the stateful
 * object, each of whose methods is proved to move that value by the function of the same name.
 */
module CircuitBreakers {
  import opened Common
  import opened MonotonicClock

  datatype BreakerState = Closed | Open | HalfOpen

  /** The configuration validates every field to be at least one. */
  datatype BreakerCfg = BreakerCfg(failureThreshold: nat, windowMs: nat, halfOpenAfterMs: nat) {
    predicate Valid() { 1 <= failureThreshold && 1 <= windowMs && 1 <= halfOpenAfterMs }
  }

  datatype Breaker = Breaker(failures: seq<int>, state: BreakerState, openedAt: Option<int>)

  const FRESH := Breaker([], Closed, None)

  predicate CoolingDown(b: Breaker) { b.state.Open? && b.openedAt.Some? }

  /** What looking at the breaker at time `now` turns it into. */
  function Resolve(cfg: BreakerCfg, b: Breaker, now: int): Breaker {
    if CoolingDown(b) && now - b.openedAt.value >= cfg.halfOpenAfterMs
    then b.(state := HalfOpen)
    else b
  }

  /** The failure times left after the expired ones are dropped from the front. */
  function Prune(failures: seq<int>, horizon: int): seq<int> {
    if failures != [] && failures[0] < horizon then Prune(failures[1..], horizon) else failures
  }

  function Trip(now: int): Breaker { Breaker([], Open, Some(now)) }

  /** A failure at `now`; `resolved` is the breaker as the second look of the same call saw it. */
  function Fail(cfg: BreakerCfg, resolved: Breaker, now: int): Breaker {
    if resolved.state.HalfOpen? then Trip(now)
    else
      var kept := Prune(resolved.failures + [now], now - cfg.windowMs);
      if |kept| >= cfg.failureThreshold then Trip(now) else resolved.(failures := kept)
  }

  // The same three operations with their clock reads spelled out: the clock is read only while open.

  function ResolveAt(cfg: BreakerCfg, b: Breaker, tape: Tape, ticks: nat): (Breaker, nat) {
    if CoolingDown(b) then (Resolve(cfg, b, tape(ticks)), ticks + 1) else (b, ticks)
  }

  function FailAt(cfg: BreakerCfg, b: Breaker, tape: Tape, ticks: nat): (Breaker, nat) {
    var now := tape(ticks);
    var (resolved, ticks') := ResolveAt(cfg, b, tape, ticks + 1);
    (Fail(cfg, resolved, now), ticks')
  }

  class CircuitBreaker {
    const cfg: BreakerCfg
    const clock: Clock
    var failures: seq<int>
    var state: BreakerState
    var openedAt: Option<int>

    ghost function Value(): Breaker
      reads this
    {
      Breaker(failures, state, openedAt)
    }

    constructor (cfg: BreakerCfg, clock: Clock)
      ensures this.cfg == cfg && this.clock == clock && Value() == FRESH
    {
      this.cfg, this.clock := cfg, clock;
      failures, state, openedAt := [], Closed, None;
    }

    method MaybeHalfOpen()
      modifies this`state, clock
      ensures (Value(), clock.ticks) == old(ResolveAt(cfg, Value(), clock.tape, clock.ticks))
    {
      if state.Open? && openedAt.Some? {
        var now := clock.Now();
        if now - openedAt.value >= cfg.halfOpenAfterMs {
          state := HalfOpen;
        }
      }
    }

    method Allows() returns (allowed: bool)
      modifies this`state, clock
      ensures (Value(), clock.ticks) == old(ResolveAt(cfg, Value(), clock.tape, clock.ticks))
      ensures allowed == !Value().state.Open?
    {
      MaybeHalfOpen();
      allowed := !state.Open?;
    }

    method DropExpired(now: int)
      modifies this`failures
      ensures failures == old(Prune(failures, now - cfg.windowMs))
    {
      var horizon := now - cfg.windowMs;
      while failures != [] && failures[0] < horizon
        invariant Prune(failures, horizon) == old(Prune(failures, horizon))
        decreases |failures|
      {
        failures := failures[1..];
      }
    }

    method RecordSuccess()
      modifies this
      ensures Value() == FRESH
    {
      failures, state, openedAt := [], Closed, None;
    }

    method RecordFailure()
      modifies this, clock
      ensures (Value(), clock.ticks) == old(FailAt(cfg, Value(), clock.tape, clock.ticks))
    {
      var now := clock.Now();
      MaybeHalfOpen();
      if state.HalfOpen? {
        DoTrip(now);
        return;
      }
      failures := failures + [now];
      DropExpired(now);
      if |failures| >= cfg.failureThreshold {
        DoTrip(now);
      }
    }

    method DoTrip(now: int)
      modifies this
      ensures Value() == Trip(now)
    {
      state, openedAt, failures := Open, Some(now), [];
    }
  }
}

/**
 * Refinement of the breaker by a machine that never forgets.
 *
 * The reference keeps every failure since the last reset and counts, at each new one, those inside
 * the window; it has no half-open state and no pruning. Under the gateway's discipline (ask, then
 * record the outcome of an allowed call) and a clock that never goes back, both machines allow the
 * same calls for ever.
 */
module BreakerRefinement {
  import opened Common
  import opened CircuitBreakers

  /** One time the gateway reaches the provider: when it asks, and when and how the call ends. */
  datatype Visit = Visit(asked: int, failed: bool, ended: int)

  ghost predicate InOrder(visits: seq<Visit>) {
    && (forall i :: 0 <= i < |visits| ==> visits[i].asked <= visits[i].ended)
    && (forall i, j :: 0 <= i < j < |visits| ==> visits[i].ended <= visits[j].asked)
  }

  /** Breaker after one visit, and whether the call was allowed. */
  function Pass(cfg: BreakerCfg, b: Breaker, v: Visit): (Breaker, bool) {
    var seen := Resolve(cfg, b, v.asked);
    if seen.state.Open? then (seen, false)
    else if v.failed then (Fail(cfg, seen, v.ended), true)
    else (FRESH, true)
  }

  function After(cfg: BreakerCfg, visits: seq<Visit>): Breaker {
    if visits == [] then FRESH
    else Pass(cfg, After(cfg, visits[..|visits| - 1]), visits[|visits| - 1]).0
  }

  predicate Allowed(cfg: BreakerCfg, visits: seq<Visit>, i: nat)
    requires i < |visits|
  {
    Pass(cfg, After(cfg, visits[..i]), visits[i]).1
  }

  // The reference machine.

  datatype History = Counting(since: seq<int>) | Tripped(at: int)

  function Recent(times: seq<int>, horizon: int): seq<int> {
    if times == [] then []
    else Recent(times[..|times| - 1], horizon)
         + if times[|times| - 1] >= horizon then [times[|times| - 1]] else []
  }

  predicate Lets(cfg: BreakerCfg, h: History, asked: int) {
    h.Counting? || asked - h.at >= cfg.halfOpenAfterMs
  }

  function Next(cfg: BreakerCfg, h: History, v: Visit): History {
    if !Lets(cfg, h, v.asked) then h
    else if !v.failed then Counting([])
    else if h.Tripped? then Tripped(v.ended)
    else
      var all := h.since + [v.ended];
      if |Recent(all, v.ended - cfg.windowMs)| >= cfg.failureThreshold then Tripped(v.ended)
      else Counting(all)
  }

  function Story(cfg: BreakerCfg, visits: seq<Visit>): History {
    if visits == [] then Counting([])
    else Next(cfg, Story(cfg, visits[..|visits| - 1]), visits[|visits| - 1])
  }

  // The refinement relation.

  ghost predicate Ascending(times: seq<int>) {
    forall i, j :: 0 <= i < j < |times| ==> times[i] <= times[j]
  }

  ghost predicate NoneAfter(times: seq<int>, now: int) {
    forall i :: 0 <= i < |times| ==> times[i] <= now
  }

  ghost predicate Refines(cfg: BreakerCfg, b: Breaker, h: History) {
    match h
    case Tripped(at) => b == Breaker([], Open, Some(at))
    case Counting(since) =>
      && b.state == Closed && b.openedAt == None && Ascending(since)
      && b.failures == (if since == [] then [] else Recent(since, since[|since| - 1] - cfg.windowMs))
  }

  /** Dropping expired entries from the front of an ascending list keeps exactly the recent ones. */
  lemma {:induction false} PruneKeepsRecent(times: seq<int>, horizon: int)
    requires Ascending(times)
    ensures Prune(times, horizon) == Recent(times, horizon)
  {
    if times != [] {
      if times[0] < horizon {
        PruneKeepsRecent(times[1..], horizon);
        RecentDropsFirst(times, horizon);
      } else {
        RecentKeepsAll(times, horizon);
      }
    }
  }

  lemma {:induction false} RecentDropsFirst(times: seq<int>, horizon: int)
    requires times != [] && times[0] < horizon
    ensures Recent(times, horizon) == Recent(times[1..], horizon)
  {
    if |times| > 1 {
      RecentDropsFirst(times[..|times| - 1], horizon);
      assert times[..|times| - 1][1..] == times[1..][..|times| - 2];
    } else {
      assert times[..0] == [];
    }
  }

  lemma {:induction false} RecentKeepsAll(times: seq<int>, horizon: int)
    requires forall i :: 0 <= i < |times| ==> times[i] >= horizon
    ensures Recent(times, horizon) == times
  {
    if times != [] {
      RecentKeepsAll(times[..|times| - 1], horizon);
      assert times == times[..|times| - 1] + [times[|times| - 1]];
    }
  }

  /** A later horizon can be applied to what an earlier one kept. */
  lemma {:induction false} RecentOfRecent(times: seq<int>, early: int, late: int)
    requires early <= late
    ensures Recent(Recent(times, early), late) == Recent(times, late)
  {
    if times != [] {
      var front, last := times[..|times| - 1], times[|times| - 1];
      RecentOfRecent(front, early, late);
      if last >= early {
        RecentSnoc(Recent(front, early), last, late);
      } else {
        assert Recent(times, early) == Recent(front, early);
      }
    }
  }

  lemma RecentSnoc(times: seq<int>, last: int, horizon: int)
    ensures Recent(times + [last], horizon)
         == Recent(times, horizon) + if last >= horizon then [last] else []
  {
    assert (times + [last])[..|times|] == times;
  }

  lemma {:induction false} RecentAscends(times: seq<int>, horizon: int, now: int)
    requires Ascending(times) && NoneAfter(times, now)
    ensures Ascending(Recent(times, horizon)) && NoneAfter(Recent(times, horizon), now)
  {
    if times != [] {
      RecentAscends(times[..|times| - 1], horizon, times[|times| - 1]);
    }
  }

  /** One counted failure keeps the relation, and the breaker opens exactly at the threshold. */
  lemma FailureStep(cfg: BreakerCfg, b: Breaker, since: seq<int>, now: int)
    requires Refines(cfg, b, Counting(since))
    requires NoneAfter(since, now)
    ensures var all := since + [now];
      Fail(cfg, b, now) ==
        if |Recent(all, now - cfg.windowMs)| >= cfg.failureThreshold then Trip(now)
        else b.(failures := Recent(all, now - cfg.windowMs))
  {
    var horizon := now - cfg.windowMs;
    assert !b.state.HalfOpen?;
    if since == [] {
      PruneKeepsRecent([now], horizon);
    } else {
      KeptWithNewFailure(since, since[|since| - 1] - cfg.windowMs, now, horizon);
    }
  }

  lemma KeptWithNewFailure(since: seq<int>, early: int, now: int, horizon: int)
    requires Ascending(since) && NoneAfter(since, now) && early <= horizon
    ensures Prune(Recent(since, early) + [now], horizon) == Recent(since + [now], horizon)
  {
    RecentAscends(since, early, now);
    AscendingSnoc(Recent(since, early), now);
    PruneKeepsRecent(Recent(since, early) + [now], horizon);
    RecentSnocOfRecent(since, early, now, horizon);
  }

  lemma RecentSnocOfRecent(since: seq<int>, early: int, now: int, horizon: int)
    requires early <= horizon
    ensures Recent(Recent(since, early) + [now], horizon) == Recent(since + [now], horizon)
  {
    RecentOfRecent(since, early, horizon);
    RecentSnoc(Recent(since, early), now, horizon);
    RecentSnoc(since, now, horizon);
  }

  lemma AscendingSnoc(times: seq<int>, now: int)
    requires Ascending(times) && NoneAfter(times, now)
    ensures Ascending(times + [now])
  {}

  lemma PassRefinesNext(cfg: BreakerCfg, b: Breaker, h: History, v: Visit)
    requires Refines(cfg, b, h) && v.asked <= v.ended
    requires h.Counting? ==> NoneAfter(h.since, v.asked)
    ensures Refines(cfg, Pass(cfg, b, v).0, Next(cfg, h, v))
    ensures Pass(cfg, b, v).1 <==> Lets(cfg, h, v.asked)
  {
    hide Recent;
    if h.Counting? && v.failed {
      FailureStep(cfg, b, h.since, v.ended);
    }
  }

  /** Failures the reference still counts all lie at or before the last visit's end. */
  lemma {:induction false} StoryIsPast(cfg: BreakerCfg, visits: seq<Visit>, now: int)
    requires InOrder(visits) && forall i :: 0 <= i < |visits| ==> visits[i].ended <= now
    ensures match Story(cfg, visits)
      case Counting(since) => NoneAfter(since, now)
      case Tripped(at) => at <= now
  {
    if visits != [] {
      StoryIsPast(cfg, visits[..|visits| - 1], now);
    }
  }

  /** The breaker refines the reference over every run of visits. */
  lemma {:induction false} BreakerRefinesHistory(cfg: BreakerCfg, visits: seq<Visit>)
    requires InOrder(visits)
    ensures Refines(cfg, After(cfg, visits), Story(cfg, visits))
  {
    if visits != [] {
      var front, last := visits[..|visits| - 1], visits[|visits| - 1];
      BreakerRefinesHistory(cfg, front);
      StoryIsPast(cfg, front, last.asked);
      PassRefinesNext(cfg, After(cfg, front), Story(cfg, front), last);
    }
  }

  /**
   * What is in the failure list of a closed breaker, and when it lets a call through: always while
   * closed, and once open from the moment the cool-down has elapsed and not before.
   */
  lemma AllowsExactlyOutsideCoolDown(cfg: BreakerCfg, visits: seq<Visit>, i: nat)
    requires InOrder(visits) && i < |visits|
    ensures Allowed(cfg, visits, i) <==> Lets(cfg, Story(cfg, visits[..i]), visits[i].asked)
  {
    BreakerRefinesHistory(cfg, visits[..i]);
    StoryIsPast(cfg, visits[..i], visits[i].asked);
    PassRefinesNext(cfg, After(cfg, visits[..i]), Story(cfg, visits[..i]), visits[i]);
  }

  /**
   * Once a failure has tripped the breaker, the next call it lets through starts at least a
   * cool-down after that failure, however many visits come in between; so the probes of a provider
   * that keeps failing are at least a cool-down apart.
   */
  lemma {:induction false} ProbesAreSpaced(cfg: BreakerCfg, visits: seq<Visit>, i: nat, j: nat)
    requires InOrder(visits) && i < j < |visits|
    requires forall k :: i <= k < j ==> visits[k].failed
    requires Allowed(cfg, visits, i) && After(cfg, visits[..i + 1]).state.Open?
    requires Allowed(cfg, visits, j)
    ensures visits[j].asked - visits[i].ended >= cfg.halfOpenAfterMs
  {
    OpenSince(cfg, visits, i, j);
    AllowsExactlyOutsideCoolDown(cfg, visits, j);
  }

  /** A provider that keeps failing after a trip leaves the breaker open, opened at the trip or later. */
  lemma {:induction false} OpenSince(cfg: BreakerCfg, visits: seq<Visit>, i: nat, j: nat)
    requires InOrder(visits) && i < j <= |visits|
    requires forall k :: i <= k < j ==> visits[k].failed
    requires Allowed(cfg, visits, i) && After(cfg, visits[..i + 1]).state.Open?
    ensures Story(cfg, visits[..j]).Tripped? && Story(cfg, visits[..j]).at >= visits[i].ended
  {
    BreakerRefinesHistory(cfg, visits[..j]);
    assert visits[..j][..j - 1] == visits[..j - 1];
    if j == i + 1 {
      AllowsExactlyOutsideCoolDown(cfg, visits, i);
    } else {
      OpenSince(cfg, visits, i, j - 1);
    }
  }
}
