/** The circuit breaker: a three-state machine driven by overlapping calls, with a
    consecutive-failure rule and an optional failure-rate rule over a sliding window. */
module CircuitBreaker {

  datatype CircuitState = CLOSED | OPEN | HALF_OPEN

  datatype Config = Config(
    failureThreshold: int, successThreshold: int, timeout: int, halfOpenMax: int,
    enabled: bool, windowSize: int, rateThreshold: real)

  /** How a guarded call ended; an excluded exception does not count as a failure. */
  datatype Outcome = Returned | Raised(excluded: bool)

  /** The value of a breaker's fields. `window` holds recent outcomes, true for a failure. */
  datatype Core = Core(
    state: CircuitState, failures: nat, successes: nat, changedAt: int, slots: nat, window: seq<bool>)

  function Failures(window: seq<bool>): (n: nat)
    ensures n <= |window|
  {
    if window == [] then 0 else Failures(window[..|window| - 1]) + if window[|window| - 1] then 1 else 0
  }

  /** The last `n` entries. */
  function Last<T>(s: seq<T>, n: int): seq<T> {
    if n <= 0 then [] else if |s| <= n then s else s[|s| - n..]
  }

  function Change(c: Core, state: CircuitState, now: int): Core {
    if c.state == state then c else c.(state := state, changedAt := now)
  }

  predicate ShouldTrip(c: Core, cfg: Config) { c.failures >= cfg.failureThreshold && cfg.enabled }

  /** The share of failures in a non-empty window. */
  function Rate(window: seq<bool>): real
    requires window != []
  {
    Failures(window) as real / |window| as real
  }

  predicate RateExceeded(c: Core, cfg: Config) {
    && cfg.windowSize > 0 && cfg.enabled && |c.window| >= cfg.windowSize
    && Rate(c.window) >= cfg.rateThreshold
  }

  predicate ShouldReset(c: Core, cfg: Config) { c.successes >= cfg.successThreshold && c.state == HALF_OPEN }

  predicate TimeoutElapsed(c: Core, cfg: Config, now: int) {
    cfg.enabled && c.state == OPEN && now - c.changedAt >= cfg.timeout
  }

  function Probed(c: Core, cfg: Config, now: int): Core {
    if TimeoutElapsed(c, cfg, now) then Change(c, HALF_OPEN, now).(slots := 0) else c
  }

  predicate Admits(c: Core, cfg: Config, now: int) {
    var c := Probed(c, cfg, now);
    c.state != OPEN && (c.state == HALF_OPEN ==> c.slots < cfg.halfOpenMax)
  }

  function Entered(c: Core, cfg: Config, now: int): Core {
    var p := Probed(c, cfg, now);
    if Admits(c, cfg, now) && p.state == HALF_OPEN then p.(slots := p.slots + 1) else p
  }

  /** The call's slot is released and its outcome recorded. */
  function Recorded(c: Core, cfg: Config, failed: bool): Core {
    c.(slots := if c.slots > 0 then c.slots - 1 else 0,
       failures := if failed then c.failures + 1 else 0,
       successes := if failed then 0 else c.successes + 1,
       window := if cfg.windowSize > 0 then Last(c.window + [failed], cfg.windowSize) else c.window)
  }

  /** The exit trips the breaker on its failure rate. */
  predicate RateTrips(c: Core, cfg: Config, failed: bool) {
    var c := Recorded(c, cfg, failed);
    && RateExceeded(c, cfg)
    && if failed then !ShouldTrip(c, cfg) else !ShouldReset(c, cfg) && c.state == CLOSED
  }

  function Exited(c: Core, cfg: Config, failed: bool, now: int): Core {
    var r := Recorded(c, cfg, failed);
    if RateTrips(c, cfg, failed) then Change(r, OPEN, now).(window := [])
    else if failed && (ShouldTrip(r, cfg) || (cfg.windowSize > 0 && r.state == HALF_OPEN)) then Change(r, OPEN, now)
    else if !failed && ShouldReset(r, cfg) then Change(r, CLOSED, now)
    else r
  }

  function ResetCore(c: Core, now: int): Core {
    Change(c, CLOSED, now).(failures := 0, successes := 0, slots := 0, window := [])
  }

  /** A direct assignment of the state fields: the timer restarts, the window is emptied. */
  function Assigned(c: Core, state: CircuitState, failures: nat, successes: nat, slots: nat, now: int): Core {
    Core(state, failures, successes, now, slots, [])
  }

  class Breaker {
    const config: Config
    var state: CircuitState
    var consecutiveFailures: nat
    var consecutiveSuccesses: nat
    var lastStateChange: int
    var halfOpenRequests: nat
    var window: seq<bool>

    function Value(): Core
      reads this
    {
      Core(state, consecutiveFailures, consecutiveSuccesses, lastStateChange, halfOpenRequests, window)
    }

    constructor (config: Config, now: int)
      ensures this.config == config && Value() == Core(CLOSED, 0, 0, now, 0, [])
    {
      this.config := config;
      state, consecutiveFailures, consecutiveSuccesses := CLOSED, 0, 0;
      lastStateChange, halfOpenRequests, window := now, 0, [];
    }

    method ChangeState(newState: CircuitState, now: int)
      modifies this
      ensures Value() == Change(old(Value()), newState, now)
    {
      if state != newState {
        state, lastStateChange := newState, now;
      }
    }

    method PushOutcome(failed: bool)
      requires config.windowSize > 0
      modifies this`window
      ensures window == Last(old(window) + [failed], config.windowSize)
    {
      window := window + [failed];
      ghost var all := window;
      while |window| > config.windowSize
        invariant |window| <= |all| && window == all[|all| - |window|..]
        invariant |window| >= config.windowSize || window == all
      {
        window := window[1..];
      }
    }

    method Enter(now: int) returns (admitted: bool)
      modifies this
      ensures admitted == Admits(old(Value()), config, now)
      ensures Value() == Entered(old(Value()), config, now)
    {
      if config.enabled && state == OPEN && now - lastStateChange >= config.timeout {
        ChangeState(HALF_OPEN, now);
        halfOpenRequests := 0;
      }
      if state == OPEN {
        return false;
      }
      if state == HALF_OPEN {
        if halfOpenRequests >= config.halfOpenMax {
          return false;
        }
        halfOpenRequests := halfOpenRequests + 1;
      }
      return true;
    }

    method TripOnFailureRate(now: int)
      modifies this
      ensures Value() == Change(old(Value()), OPEN, now).(window := [])
    {
      ChangeState(OPEN, now);
      window := [];
    }

    method RecordFailure()
      modifies this
      ensures Value() == old(Value()).(
                failures := old(Value()).failures + 1, successes := 0,
                window := if config.windowSize > 0 then Last(old(window) + [true], config.windowSize) else old(window))
    {
      consecutiveFailures, consecutiveSuccesses := consecutiveFailures + 1, 0;
      if config.windowSize > 0 { PushOutcome(true); }
    }

    method RecordSuccess()
      modifies this
      ensures Value() == old(Value()).(
                failures := 0, successes := old(Value()).successes + 1,
                window := if config.windowSize > 0 then Last(old(window) + [false], config.windowSize) else old(window))
    {
      consecutiveFailures, consecutiveSuccesses := 0, consecutiveSuccesses + 1;
      if config.windowSize > 0 { PushOutcome(false); }
    }

    method Exit(outcome: Outcome, now: int)
      modifies this
      ensures Value() == Exited(old(Value()), config, outcome == Raised(false), now)
    {
      if halfOpenRequests > 0 {
        halfOpenRequests := halfOpenRequests - 1;
      }
      if outcome.Raised? && !outcome.excluded {
        RecordFailure();
        assert Value() == Recorded(old(Value()), config, true);
        AfterFailure(now);
      } else {
        RecordSuccess();
        assert Value() == Recorded(old(Value()), config, false);
        AfterSuccess(now);
      }
    }

    method AfterFailure(now: int)
      modifies this
      ensures var r := old(Value());
              Value() == if ShouldTrip(r, config) then Change(r, OPEN, now)
                         else if RateExceeded(r, config) then Change(r, OPEN, now).(window := [])
                         else if config.windowSize > 0 && r.state == HALF_OPEN then Change(r, OPEN, now)
                         else r
    {
      if consecutiveFailures >= config.failureThreshold && config.enabled {
        ChangeState(OPEN, now);
      } else if RateExceeded(Value(), config) {
        TripOnFailureRate(now);
      } else if config.windowSize > 0 && state == HALF_OPEN {
        ChangeState(OPEN, now);
      }
    }

    method AfterSuccess(now: int)
      modifies this
      ensures var r := old(Value());
              Value() == if ShouldReset(r, config) then Change(r, CLOSED, now)
                         else if r.state == CLOSED && RateExceeded(r, config)
                         then Change(r, OPEN, now).(window := [])
                         else r
    {
      if consecutiveSuccesses >= config.successThreshold && state == HALF_OPEN {
        ChangeState(CLOSED, now);
      } else if state == CLOSED && RateExceeded(Value(), config) {
        TripOnFailureRate(now);
      }
    }

    method Reset(now: int)
      modifies this
      ensures Value() == ResetCore(old(Value()), now)
      ensures Value() == Core(CLOSED, 0, 0, if old(state) == CLOSED then old(lastStateChange) else now, 0, [])
    {
      ChangeState(CLOSED, now);
      consecutiveFailures, consecutiveSuccesses := 0, 0;
      halfOpenRequests, window := 0, [];
    }

    method ForceOpen(now: int)
      modifies this
      ensures Value() == Change(old(Value()), OPEN, now)
    {
      ChangeState(OPEN, now);
    }

    method SetState(state: CircuitState, failures: nat, successes: nat, slots: nat, now: int)
      modifies this
      ensures Value() == Assigned(old(Value()), state, failures, successes, slots, now)
      ensures Value() == Core(state, failures, successes, now, slots, [])
    {
      this.state := state;
      consecutiveFailures, consecutiveSuccesses, halfOpenRequests := failures, successes, slots;
      lastStateChange, window := now, [];
    }
  }

  /** The breaker a scope gives to its block. */
  function Isolated(now: int): Core { Core(CLOSED, 0, 0, now, 0, []) }

  /** What it puts back: everything but the timer. */
  function Restored(saved: Core, now: int): Core { saved.(changedAt := now) }

  /** Gives a block a closed breaker and puts the previous state back afterwards. */
  class Scope {
    const breaker: Breaker
    var saved: Core

    constructor (breaker: Breaker)
      ensures this.breaker == breaker
    {
      this.breaker := breaker;
      saved := Core(CLOSED, 0, 0, 0, 0, []);
    }

    method Open(now: int)
      modifies this`saved, breaker
      ensures saved == old(breaker.Value())
      ensures breaker.Value() == Isolated(now) == Core(CLOSED, 0, 0, now, 0, [])
    {
      saved := breaker.Value();
      breaker.SetState(CLOSED, 0, 0, 0, now);
    }

    method Close(now: int)
      modifies breaker
      ensures breaker.Value() == Restored(saved, now)
      ensures breaker.Value() == Core(saved.state, saved.failures, saved.successes, now, saved.slots, saved.window)
    {
      breaker.SetState(saved.state, saved.failures, saved.successes, saved.slots, now);
      breaker.window := breaker.window + saved.window;
    }
  }
}
