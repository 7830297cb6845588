/** What the circuit breaker keeps over every interleaving of calls, resets and clock readings. */
module BreakerGuarantees {
  import opened CircuitBreaker

  /** `trial` says whether the call that ends was admitted in the current half-open period. */
  datatype Event =
    | Enter(now: int)
    | Exit(failed: bool, trial: bool, now: int)
    | Reset(now: int)
    | ForceOpen(now: int)

  /** The breaker together with a record of the run so far.
      `older` and `trials` are the calls in flight admitted before and in the current half-open
      period, `late` the older ones that ended during it; `outcomes` lists every completed call,
      `cleared` how many of them came before the window was last emptied, and `trips` after how
      many of them each failure-rate trip happened; `enteredAt` is when the present state was
      entered, and `resetAt` how many calls had completed at the last reset. */
  datatype World = World(
    core: Core, older: nat, trials: nat, late: nat, cleanStart: bool, admitted: nat,
    outcomes: seq<bool>, cleared: nat, trips: seq<nat>, enteredAt: int, resetAt: nat)

  function Initial(now: int): World {
    World(Core(CLOSED, 0, 0, now, 0, []), 0, 0, 0, false, 0, [], 0, [], now, 0)
  }

  /** A call can only end when one of its kind is in flight. */
  predicate Possible(w: World, e: Event) {
    e.Exit? ==> if e.trial then w.trials > 0 else w.older > 0
  }

  function Step(w: World, cfg: Config, e: Event): World
    requires Possible(w, e)
  {
    var w' := Happened(w, cfg, e);
    if w'.core.state == w.core.state then w' else w'.(enteredAt := e.now)
  }

  function Happened(w: World, cfg: Config, e: Event): World
    requires Possible(w, e)
  {
    match e
    case Enter(now) =>
      var core := Entered(w.core, cfg, now);
      var w := if TimeoutElapsed(w.core, cfg, now)
               then w.(older := w.older + w.trials, trials := 0, late := 0, cleanStart := w.older + w.trials == 0)
               else w;
      var w' := w.(core := core);
      if !Admits(w.core, cfg, now) then w'
      else if core.state == HALF_OPEN then w'.(trials := w.trials + 1, admitted := w.admitted + 1)
      else w'.(older := w.older + 1, admitted := w.admitted + 1)
    case Exit(failed, trial, now) =>
      var done := w.outcomes + [failed];
      var w' := w.(core := Exited(w.core, cfg, failed, now), outcomes := done);
      var w' := if trial then w'.(trials := w.trials - 1) else w'.(older := w.older - 1, late := w.late + 1);
      if RateTrips(w.core, cfg, failed) then w'.(cleared := |done|, trips := w.trips + [|done|]) else w'
    case Reset(now) => w.(core := ResetCore(w.core, now), cleared := |w.outcomes|, resetAt := |w.outcomes|)
    case ForceOpen(now) => w.(core := Change(w.core, OPEN, now))
  }

  ghost predicate Runs(w: World, cfg: Config, events: seq<Event>)
    decreases |events|
  {
    events == [] || (Possible(w, events[0]) && Runs(Step(w, cfg, events[0]), cfg, events[1..]))
  }

  ghost function After(w: World, cfg: Config, events: seq<Event>): World
    requires Runs(w, cfg, events)
    decreases |events|
  {
    if events == [] then w else After(Step(w, cfg, events[0]), cfg, events[1..])
  }

  // ------------------------------------------------------------------
  // Trial slots
  // ------------------------------------------------------------------

  function InFlight(w: World): nat { w.older + w.trials }

  /** The slot counter is bounded by the configured maximum and by the trials in flight; in a
      half-open period it falls behind them by at most the older calls that ended during it,
      so it is exact when the period began with nothing in flight. */
  ghost predicate SlotsOk(w: World, cfg: Config) {
    && (w.core.slots == 0 || w.core.slots <= cfg.halfOpenMax)
    && w.core.slots <= w.trials
    && (w.core.state == HALF_OPEN ==> w.trials <= w.core.slots + w.late)
    && (w.core.state == HALF_OPEN && w.cleanStart ==> w.older == 0 && w.core.slots == w.trials)
    && (w.core.state == HALF_OPEN && w.cleanStart ==> w.late == 0)
  }

  // ------------------------------------------------------------------
  // The window and the failure-rate trips
  // ------------------------------------------------------------------

  /** The window holds the most recent outcomes since it was last emptied. */
  ghost predicate WindowOk(w: World, cfg: Config) {
    && w.cleared <= |w.outcomes|
    && w.core.window == Last(w.outcomes[w.cleared..], cfg.windowSize)
  }

  function Previous(trips: seq<nat>, i: nat): nat
    requires i < |trips|
  {
    if i == 0 then 0 else trips[i - 1]
  }

  /** Trip `i` comes at least a window's worth of completed calls after the one before it (or
      after creation), and enough of that last window failed. */
  ghost predicate TripOk(w: World, cfg: Config, i: nat)
    requires i < |w.trips|
  {
    && cfg.windowSize > 0
    && Previous(w.trips, i) + cfg.windowSize <= w.trips[i] <= |w.outcomes|
    && Rate(w.outcomes[w.trips[i] - cfg.windowSize..w.trips[i]]) >= cfg.rateThreshold
  }

  ghost predicate TripsOk(w: World, cfg: Config) {
    && (forall i :: 0 <= i < |w.trips| ==> TripOk(w, cfg, i))
    && (w.trips != [] ==> w.trips[|w.trips| - 1] <= w.cleared)
  }

  /** A closed, enabled breaker has not used up its consecutive failures. */
  ghost predicate ClosedOk(w: World, cfg: Config) {
    w.core.state == CLOSED && cfg.enabled && cfg.failureThreshold >= 1 ==> w.core.failures < cfg.failureThreshold
  }

  ghost predicate Invariant(w: World, cfg: Config) {
    SlotsOk(w, cfg) && WindowOk(w, cfg) && TripsOk(w, cfg) && ClosedOk(w, cfg)
  }

  lemma EnterSlots(w: World, cfg: Config, now: int)
    requires SlotsOk(w, cfg)
    ensures SlotsOk(Step(w, cfg, Enter(now)), cfg)
  {}

  lemma ExitSlots(w: World, cfg: Config, failed: bool, trial: bool, now: int)
    requires SlotsOk(w, cfg) && Possible(w, Exit(failed, trial, now))
    ensures SlotsOk(Step(w, cfg, Exit(failed, trial, now)), cfg)
  {
    hide Rate, Last;
  }

  lemma StepSlots(w: World, cfg: Config, e: Event)
    requires SlotsOk(w, cfg) && Possible(w, e)
    ensures SlotsOk(Step(w, cfg, e), cfg)
  {
    match e
    case Enter(now) => EnterSlots(w, cfg, now);
    case Exit(failed, trial, now) => ExitSlots(w, cfg, failed, trial, now);
    case Reset(now) =>
    case ForceOpen(now) =>
  }

  lemma StepClosed(w: World, cfg: Config, e: Event)
    requires ClosedOk(w, cfg) && Possible(w, e)
    ensures ClosedOk(Step(w, cfg, e), cfg)
  {
    hide Rate, Last;
  }

  lemma RecordedWindow(w: World, cfg: Config, failed: bool)
    requires WindowOk(w, cfg) && cfg.windowSize > 0
    ensures Recorded(w.core, cfg, failed).window == Last((w.outcomes + [failed])[w.cleared..], cfg.windowSize)
  {
    assert (w.outcomes + [failed])[w.cleared..] == w.outcomes[w.cleared..] + [failed];
  }

  /** What one step does to the outcomes, the window and the trips. */
  lemma StepRecord(w: World, cfg: Config, e: Event)
    requires Possible(w, e)
    ensures var w' := Step(w, cfg, e);
            if e.Exit? && RateTrips(w.core, cfg, e.failed) then
              && w'.outcomes == w.outcomes + [e.failed] && w'.core.window == []
              && w'.trips == w.trips + [|w'.outcomes|] && w'.cleared == |w'.outcomes|
            else if e.Exit? then
              && w'.outcomes == w.outcomes + [e.failed]
              && w'.core.window == Recorded(w.core, cfg, e.failed).window
              && w'.trips == w.trips && w'.cleared == w.cleared
            else
              && w'.outcomes == w.outcomes && w'.trips == w.trips
              && w'.core.window == (if e.Reset? then [] else w.core.window)
              && w'.cleared == if e.Reset? then |w.outcomes| else w.cleared
  {}

  lemma StepWindow(w: World, cfg: Config, e: Event)
    requires WindowOk(w, cfg) && Possible(w, e)
    ensures WindowOk(Step(w, cfg, e), cfg)
  {
    StepRecord(w, cfg, e);
    var w' := Step(w, cfg, e);
    hide Step;
    if e.Exit? && !RateTrips(w.core, cfg, e.failed) {
      if cfg.windowSize > 0 { RecordedWindow(w, cfg, e.failed); }
    } else if w'.cleared == |w'.outcomes| {
      assert w'.outcomes[w'.cleared..] == [];
    }
  }

  /** The trips before this step stay justified when outcomes are only added. */
  lemma TripsStay(w: World, w': World, cfg: Config, added: seq<bool>, i: nat)
    requires i < |w.trips| <= |w'.trips| && w.trips == w'.trips[..|w.trips|]
    requires TripOk(w, cfg, i) && w'.outcomes == w.outcomes + added
    ensures TripOk(w', cfg, i)
  {
    var from, to := w.trips[i] - cfg.windowSize, w.trips[i];
    assert w'.outcomes[from..to] == w.outcomes[from..to];
    assert w'.trips[i] == w.trips[i];
    if i > 0 { assert w'.trips[i - 1] == w.trips[i - 1]; }
  }

  lemma LastOf(s: seq<bool>, from: nat, n: int)
    requires from <= |s| && n > 0
    ensures |Last(s[from..], n)| >= n <==> |s| - from >= n
    ensures |s| - from >= n ==> Last(s[from..], n) == s[|s| - n..]
  {
    if |s| - from >= n { assert s[from..][|s| - from - n..] == s[|s| - n..]; }
  }

  lemma WindowAtTrip(w: World, cfg: Config, failed: bool)
    requires WindowOk(w, cfg) && RateTrips(w.core, cfg, failed)
    ensures var done := w.outcomes + [failed];
            && cfg.windowSize > 0 && |done| - cfg.windowSize >= w.cleared
            && Rate(done[|done| - cfg.windowSize..]) >= cfg.rateThreshold
  {
    hide Recorded, Rate, Last, ShouldTrip, ShouldReset;
    RecordedWindow(w, cfg, failed);
    LastOf(w.outcomes + [failed], w.cleared, cfg.windowSize);
  }

  lemma StepTrips(w: World, cfg: Config, e: Event)
    requires WindowOk(w, cfg) && TripsOk(w, cfg) && Possible(w, e)
    ensures TripsOk(Step(w, cfg, e), cfg)
  {
    hide Step, Rate, RateTrips, Last, Possible;
    var w' := Step(w, cfg, e);
    StepRecord(w, cfg, e);
    if e.Exit? && RateTrips(w.core, cfg, e.failed) {
      WindowAtTrip(w, cfg, e.failed);
      TripAdded(w, w', cfg, [e.failed]);
    } else {
      assert w'.outcomes == w.outcomes + if e.Exit? then [e.failed] else [];
      TripsKept(w, w', cfg, if e.Exit? then [e.failed] else []);
    }
  }

  lemma TripAdded(w: World, w': World, cfg: Config, added: seq<bool>)
    requires TripsOk(w, cfg) && w.cleared <= |w.outcomes| && w'.outcomes == w.outcomes + added
    requires w'.trips == w.trips + [|w'.outcomes|] && w'.cleared == |w'.outcomes|
    requires cfg.windowSize > 0 && |w'.outcomes| - cfg.windowSize >= w.cleared
    requires Rate(w'.outcomes[|w'.outcomes| - cfg.windowSize..]) >= cfg.rateThreshold
    ensures TripsOk(w', cfg)
  {
    var n := |w'.outcomes|;
    assert w'.outcomes[n - cfg.windowSize..n] == w'.outcomes[n - cfg.windowSize..];
    forall i | 0 <= i < |w'.trips| ensures TripOk(w', cfg, i) {
      if i < |w.trips| { TripsStay(w, w', cfg, added, i); }
    }
  }

  lemma TripsKept(w: World, w': World, cfg: Config, added: seq<bool>)
    requires TripsOk(w, cfg) && w'.outcomes == w.outcomes + added
    requires w'.trips == w.trips && w.cleared <= w'.cleared
    ensures TripsOk(w', cfg)
  {
    forall i | 0 <= i < |w'.trips| ensures TripOk(w', cfg, i) { TripsStay(w, w', cfg, added, i); }
  }

  /** Every run keeps the slot, window, trip and closed-state properties. */
  lemma {:induction false} RunsKeepInvariant(w: World, cfg: Config, events: seq<Event>)
    requires Invariant(w, cfg) && Runs(w, cfg, events)
    ensures Invariant(After(w, cfg, events), cfg)
    decreases |events|
  {
    if events != [] {
      StepSlots(w, cfg, events[0]);
      StepClosed(w, cfg, events[0]);
      StepWindow(w, cfg, events[0]);
      StepTrips(w, cfg, events[0]);
      RunsKeepInvariant(Step(w, cfg, events[0]), cfg, events[1..]);
    }
  }

  /** Over any run from creation the slot counter stays within its limit and the calls in
      flight, and in a half-open period that began with nothing in flight it is the exact
      number of trials in flight, which therefore never exceeds the limit. */
  lemma {:induction false} SlotsInEveryRun(now: int, cfg: Config, events: seq<Event>)
    requires Runs(Initial(now), cfg, events) && cfg.halfOpenMax >= 0
    ensures var w := After(Initial(now), cfg, events);
            && 0 <= w.core.slots <= cfg.halfOpenMax && w.core.slots <= InFlight(w)
            && (w.core.state == HALF_OPEN && w.cleanStart ==> InFlight(w) == w.trials == w.core.slots)
            && (w.core.state == HALF_OPEN ==> w.trials <= cfg.halfOpenMax + w.late)
  {
    RunsKeepInvariant(Initial(now), cfg, events);
  }

  lemma {:induction false} TripsAmortised(w: World, cfg: Config, i: nat)
    requires TripsOk(w, cfg) && i < |w.trips|
    ensures (i + 1) * cfg.windowSize <= w.trips[i]
  {
    assert TripOk(w, cfg, i);
    if i > 0 { TripsAmortised(w, cfg, i - 1); }
  }

  /** Over any run from creation, failure-rate trips are paid for by whole windows of completed
      calls, a sufficient share of which failed. */
  lemma {:induction false} RateTripsInEveryRun(now: int, cfg: Config, events: seq<Event>)
    requires Runs(Initial(now), cfg, events)
    ensures var w := After(Initial(now), cfg, events);
            && (forall i :: 0 <= i < |w.trips| ==> TripOk(w, cfg, i))
            && (cfg.windowSize > 0 ==> |w.trips| * cfg.windowSize <= |w.outcomes|)
            && w.cleared <= |w.outcomes| && w.core.window == Last(w.outcomes[w.cleared..], cfg.windowSize)
  {
    RunsKeepInvariant(Initial(now), cfg, events);
    var w := After(Initial(now), cfg, events);
    if w.trips != [] {
      assert TripOk(w, cfg, |w.trips| - 1);
      TripsAmortised(w, cfg, |w.trips| - 1);
    }
  }

  // ------------------------------------------------------------------
  // When trials exceed the limit
  // ------------------------------------------------------------------

  /** A run inside one half-open period. */
  ghost predicate StaysHalfOpen(w: World, cfg: Config, events: seq<Event>)
    decreases |events|
  {
    && w.core.state == HALF_OPEN
    && (events == [] || (Possible(w, events[0]) && StaysHalfOpen(Step(w, cfg, events[0]), cfg, events[1..])))
  }

  lemma {:induction false} StayingIsRunning(w: World, cfg: Config, events: seq<Event>)
    requires StaysHalfOpen(w, cfg, events)
    ensures Runs(w, cfg, events)
    decreases |events|
  {
    if events != [] { StayingIsRunning(Step(w, cfg, events[0]), cfg, events[1..]); }
  }

  /** Some continuation of the period has more trials in flight than the limit. */
  ghost predicate CanExceed(w: World, cfg: Config) {
    exists events ::
      StaysHalfOpen(w, cfg, events) && Runs(w, cfg, events) && After(w, cfg, events).trials > cfg.halfOpenMax
  }

  /** A call may end, one way or the other, without ending the half-open period. */
  predicate Survivable(c: Core, cfg: Config) {
    c.successes + 1 < cfg.successThreshold || (cfg.windowSize <= 0 && c.failures + 1 < cfg.failureThreshold)
  }

  /** So may `n` more after it: with both outcomes open they can alternate for ever, otherwise one
      counter has to last. */
  predicate Endures(c: Core, cfg: Config, n: nat) {
    || (cfg.windowSize <= 0 && cfg.successThreshold >= 2 && cfg.failureThreshold >= 2 && Survivable(c, cfg))
    || c.successes + n + 1 < cfg.successThreshold
    || (cfg.windowSize <= 0 && c.failures + n + 1 < cfg.failureThreshold)
  }

  lemma EnduresOnce(c: Core, cfg: Config)
    ensures Endures(c, cfg, 0) <==> Survivable(c, cfg)
  {}

  /** A call that ends without ending the period leaves counters that endure one call less, at most. */
  lemma ExitEndures(w: World, cfg: Config, e: Event, n: nat)
    requires w.core.state == HALF_OPEN && cfg.enabled && e.Exit? && Possible(w, e)
    requires Step(w, cfg, e).core.state == HALF_OPEN
    ensures Survivable(w.core, cfg)
    ensures Endures(Step(w, cfg, e).core, cfg, n) ==> Endures(w.core, cfg, n) && Endures(w.core, cfg, n + 1)
  {}

  /** The excess of slots over trials is more than the older calls can give back. */
  predicate Sealed(w: World, cfg: Config) {
    && w.trials <= w.core.slots <= cfg.halfOpenMax
    && (cfg.halfOpenMax == 0 || w.older <= w.core.slots - w.trials || !Endures(w.core, cfg, w.core.slots - w.trials))
  }

  lemma ExitStaysSealed(w: World, cfg: Config, failed: bool, trial: bool, now: int)
    requires w.core.state == HALF_OPEN && cfg.enabled && Sealed(w, cfg) && Possible(w, Exit(failed, trial, now))
    requires Step(w, cfg, Exit(failed, trial, now)).core.state == HALF_OPEN
    ensures Sealed(Step(w, cfg, Exit(failed, trial, now)), cfg)
  {
    var e, excess := Exit(failed, trial, now), w.core.slots - w.trials;
    ExitEndures(w, cfg, e, excess);
    EnduresOnce(w.core, cfg);
    if excess > 0 { ExitEndures(w, cfg, e, excess - 1); }
    ExitMoves(w, cfg, failed, trial, now);
    hide Step, Endures, Survivable;
  }

  lemma ExitMoves(w: World, cfg: Config, failed: bool, trial: bool, now: int)
    requires w.core.state == HALF_OPEN && Possible(w, Exit(failed, trial, now))
    ensures var w' := Step(w, cfg, Exit(failed, trial, now));
            && w'.core.slots == (if w.core.slots > 0 then w.core.slots - 1 else 0)
            && w'.trials == (if trial then w.trials - 1 else w.trials)
            && w'.older == (if trial then w.older else w.older - 1)
  {
    hide Rate, Last, RateExceeded, RateTrips, ShouldTrip, ShouldReset;
  }

  lemma StaysSealed(w: World, cfg: Config, e: Event)
    requires w.core.state == HALF_OPEN && cfg.enabled && Sealed(w, cfg) && Possible(w, e)
    requires Step(w, cfg, e).core.state == HALF_OPEN
    ensures Sealed(Step(w, cfg, e), cfg)
  {
    if e.Exit? { ExitStaysSealed(w, cfg, e.failed, e.trial, e.now); }
  }

  /** Sealed, the trials stay within the limit for the whole period. */
  lemma {:induction false} SealedKeepsLimit(w: World, cfg: Config, events: seq<Event>)
    requires StaysHalfOpen(w, cfg, events) && cfg.enabled && Sealed(w, cfg)
    ensures Runs(w, cfg, events) && After(w, cfg, events).trials <= cfg.halfOpenMax
    decreases |events|
  {
    if events != [] {
      var next := Step(w, cfg, events[0]);
      assert next.core.state == HALF_OPEN by { assert StaysHalfOpen(next, cfg, events[1..]); }
      StaysSealed(w, cfg, events[0]);
      SealedKeepsLimit(next, cfg, events[1..]);
    }
  }

  /** Calls that come in until the slots are used up. */
  lemma {:induction false} FillUp(w: World, cfg: Config) returns (events: seq<Event>)
    requires w.core.state == HALF_OPEN && w.core.slots < w.trials && w.core.slots <= cfg.halfOpenMax
    ensures StaysHalfOpen(w, cfg, events) && Runs(w, cfg, events) && After(w, cfg, events).trials > cfg.halfOpenMax
    decreases cfg.halfOpenMax - w.core.slots
  {
    if w.core.slots == cfg.halfOpenMax {
      events := [];
    } else {
      var rest := FillUp(Step(w, cfg, Enter(0)), cfg);
      events := Prefixed(w, cfg, Enter(0), rest);
    }
  }

  lemma Prefixed(w: World, cfg: Config, e: Event, rest: seq<Event>) returns (events: seq<Event>)
    requires w.core.state == HALF_OPEN && Possible(w, e)
    requires StaysHalfOpen(Step(w, cfg, e), cfg, rest) && Runs(Step(w, cfg, e), cfg, rest)
    ensures StaysHalfOpen(w, cfg, events) && Runs(w, cfg, events)
    ensures After(w, cfg, events) == After(Step(w, cfg, e), cfg, rest)
  {
    hide Step;
    events := [e] + rest;
    assert events[1..] == rest;
  }

  /** An older call gives back a slot that is not its own, and the period goes on. */
  lemma FreeForeignSlot(w: World, cfg: Config) returns (e: Event)
    requires w.core.state == HALF_OPEN && cfg.enabled && w.older > 0 && Survivable(w.core, cfg)
    requires 0 < w.core.slots <= w.trials
    ensures Possible(w, e)
    ensures var w' := Step(w, cfg, e);
            w'.core.state == HALF_OPEN && w'.core.slots < w'.trials && w'.core.slots <= w.core.slots
  {
    e := Exit(!(w.core.successes + 1 < cfg.successThreshold), false, 0);
  }

  lemma ExceedByForeignSlot(w: World, cfg: Config) returns (events: seq<Event>)
    requires w.core.state == HALF_OPEN && cfg.enabled && w.older > 0 && Survivable(w.core, cfg)
    requires 0 < w.core.slots <= w.trials && w.core.slots <= cfg.halfOpenMax
    ensures StaysHalfOpen(w, cfg, events) && Runs(w, cfg, events) && After(w, cfg, events).trials > cfg.halfOpenMax
  {
    hide Step, StaysHalfOpen, Runs, After;
    var e := FreeForeignSlot(w, cfg);
    var rest := FillUp(Step(w, cfg, e), cfg);
    events := Prefixed(w, cfg, e, rest);
  }

  /** With a slot for every trial: an older call gives one back, and another trial takes it. */
  lemma ExceedWithoutExcess(w: World, cfg: Config) returns (events: seq<Event>)
    requires w.core.state == HALF_OPEN && cfg.enabled && cfg.halfOpenMax >= 1
    requires w.trials == w.core.slots <= cfg.halfOpenMax && w.older > 0 && Survivable(w.core, cfg)
    ensures StaysHalfOpen(w, cfg, events) && Runs(w, cfg, events) && After(w, cfg, events).trials > cfg.halfOpenMax
  {
    hide Step, StaysHalfOpen, Runs, After;
    if w.core.slots > 0 {
      events := ExceedByForeignSlot(w, cfg);
    } else {
      OneTrialMore(w, cfg);
      var rest := ExceedByForeignSlot(Step(w, cfg, Enter(0)), cfg);
      events := Prefixed(w, cfg, Enter(0), rest);
    }
  }

  /** An older call ends so that the counters endure as many calls as before, less this one. */
  lemma EndOlderCall(w: World, cfg: Config, n: nat) returns (e: Event)
    requires w.core.state == HALF_OPEN && cfg.enabled && w.older > 0 && Endures(w.core, cfg, n + 1)
    ensures e.Exit? && !e.trial && Possible(w, e)
    ensures var w' := Step(w, cfg, e); w'.core.state == HALF_OPEN && Endures(w'.core, cfg, n)
  {
    var byFailure := cfg.windowSize <= 0 && w.core.failures + n + 2 < cfg.failureThreshold;
    e := Exit(if w.core.successes + n + 2 < cfg.successThreshold then false
              else byFailure || w.core.successes + 1 >= cfg.successThreshold, false, 0);
  }

  /** One older call ends for every slot in excess, then the limit can be passed. */
  lemma {:induction false} ExceedDespiteExcess(w: World, cfg: Config) returns (events: seq<Event>)
    requires w.core.state == HALF_OPEN && cfg.enabled && cfg.halfOpenMax >= 1
    requires w.trials <= w.core.slots <= cfg.halfOpenMax
    requires w.older > w.core.slots - w.trials && Endures(w.core, cfg, w.core.slots - w.trials)
    ensures StaysHalfOpen(w, cfg, events) && Runs(w, cfg, events) && After(w, cfg, events).trials > cfg.halfOpenMax
    decreases w.core.slots - w.trials
  {
    hide Step, StaysHalfOpen, Runs, After, Endures;
    var excess := w.core.slots - w.trials;
    if excess == 0 {
      EnduresOnce(w.core, cfg);
      events := ExceedWithoutExcess(w, cfg);
    } else {
      var e := EndOlderCall(w, cfg, excess - 1);
      ExitMoves(w, cfg, e.failed, e.trial, e.now);
      var rest := ExceedDespiteExcess(Step(w, cfg, e), cfg);
      events := Prefixed(w, cfg, e, rest);
    }
  }

  /** From any half-open moment the limit can be exceeded exactly when a foreign slot was given back
      already, or there are more older calls in flight than slots in excess of the trials and as many
      calls, and one more, can end without ending the period. */
  lemma ExceedsIff(w: World, cfg: Config)
    requires w.core.state == HALF_OPEN && cfg.enabled && w.core.slots <= cfg.halfOpenMax
    ensures CanExceed(w, cfg) <==>
              || w.core.slots < w.trials
              || (cfg.halfOpenMax >= 1 && w.older > w.core.slots - w.trials
                  && Endures(w.core, cfg, w.core.slots - w.trials))
  {
    hide Step, StaysHalfOpen, Runs, After, Endures;
    if w.core.slots < w.trials {
      var events := FillUp(w, cfg);
    } else if !Sealed(w, cfg) {
      var events := ExceedDespiteExcess(w, cfg);
    } else {
      forall events | StaysHalfOpen(w, cfg, events) && Runs(w, cfg, events)
        ensures After(w, cfg, events).trials <= cfg.halfOpenMax
      {
        SealedKeepsLimit(w, cfg, events);
      }
    }
  }

  lemma OneTrialMore(w: World, cfg: Config)
    requires w.core.state == HALF_OPEN && w.core.slots < cfg.halfOpenMax
    ensures var core := w.core.(slots := w.core.slots + 1);
            && Possible(w, Enter(0))
            && Step(w, cfg, Enter(0)) == w.(core := core, trials := w.trials + 1, admitted := w.admitted + 1)
  {}

  /** From its first call on, a half-open period respects its limit exactly unless trials are allowed,
      some call was already in flight and the counters let a call end without ending the period. */
  lemma PeriodExceedsIff(w: World, cfg: Config, now: int)
    requires TimeoutElapsed(w.core, cfg, now) && cfg.halfOpenMax >= 0
    ensures Step(w, cfg, Enter(now)).core.state == HALF_OPEN
    ensures CanExceed(Step(w, cfg, Enter(now)), cfg) <==>
              cfg.halfOpenMax >= 1 && InFlight(w) > 0 && Survivable(w.core, cfg)
  {
    hide CanExceed;
    var first := Step(w, cfg, Enter(now));
    EnduresOnce(first.core, cfg);
    ExceedsIff(first, cfg);
  }

  /** A whole run from creation in which it happens: two trials under a limit of one. */
  lemma TrialsCanExceedLimit() returns (cfg: Config, events: seq<Event>)
    ensures cfg.halfOpenMax == 1 && Runs(Initial(0), cfg, events)
    ensures var w := After(Initial(0), cfg, events); w.core.state == HALF_OPEN && w.trials == 2
  {
    hide Runs, After;
    cfg := Config(5, 3, 30, 1, true, 0, 0.5);
    var e0, e1, e2, e3, e4 := Enter(0), ForceOpen(1), Enter(31), Exit(false, false, 32), Enter(33);
    var w0 := Initial(0);
    var w1 := Step(w0, cfg, e0);
    var w2 := Step(w1, cfg, e1);
    assert w2.core.state == OPEN && w2.core.changedAt == 1 && w2.core.successes == 0 && w2.older == 1 && w2.trials == 0;
    TrialsPileUp(w2, cfg);
    events := FiveEvents(w0, cfg, e0, e1, e2, e3, e4);
  }

  lemma TrialsPileUp(w: World, cfg: Config)
    requires cfg.enabled && cfg.halfOpenMax == 1 && cfg.timeout == 30 && cfg.successThreshold == 3
    requires cfg.windowSize == 0
    requires w.core.state == OPEN && w.core.changedAt == 1 && w.core.successes == 0 && w.older == 1 && w.trials == 0
    ensures var half := Step(w, cfg, Enter(31));
            && Possible(half, Exit(false, false, 32))
            && var freed := Step(half, cfg, Exit(false, false, 32));
               var last := Step(freed, cfg, Enter(33));
               last.core.state == HALF_OPEN && last.trials == 2
  {}

  lemma FiveEvents(
      w: World, cfg: Config, e0: Event, e1: Event, e2: Event, e3: Event, e4: Event) returns (events: seq<Event>)
    requires !e0.Exit? && !e1.Exit? && !e2.Exit? && !e4.Exit?
    requires Possible(Step(Step(Step(w, cfg, e0), cfg, e1), cfg, e2), e3)
    ensures Runs(w, cfg, events)
    ensures After(w, cfg, events) == Step(Step(Step(Step(Step(w, cfg, e0), cfg, e1), cfg, e2), cfg, e3), cfg, e4)
  {
    hide Runs, After, Step;
    var w1 := Step(w, cfg, e0);
    var w2 := Step(w1, cfg, e1);
    var w3 := Step(w2, cfg, e2);
    var w4 := Step(w3, cfg, e3);
    RunOfOne(w4, cfg, e4);
    RunOfMore(w3, cfg, e3, [e4]);
    RunOfMore(w2, cfg, e2, [e3] + [e4]);
    RunOfMore(w1, cfg, e1, [e2] + ([e3] + [e4]));
    events := [e0] + ([e1] + ([e2] + ([e3] + [e4])));
    RunOfMore(w, cfg, e0, [e1] + ([e2] + ([e3] + [e4])));
  }

  lemma {:induction false} RunOfOne(w: World, cfg: Config, e: Event)
    requires Possible(w, e)
    ensures Runs(w, cfg, [e]) && After(w, cfg, [e]) == Step(w, cfg, e)
  {
    assert [e][1..] == [];
  }

  lemma {:induction false} RunOfMore(w: World, cfg: Config, e: Event, rest: seq<Event>)
    requires Possible(w, e) && Runs(Step(w, cfg, e), cfg, rest)
    ensures Runs(w, cfg, [e] + rest) && After(w, cfg, [e] + rest) == After(Step(w, cfg, e), cfg, rest)
  {
    assert ([e] + rest)[1..] == rest;
  }

  // ------------------------------------------------------------------
  // The state, by the history of the run
  // ------------------------------------------------------------------

  /** How many outcomes at the end of `s` are `failed`. */
  function Streak(s: seq<bool>, failed: bool): (n: nat)
    ensures n <= |s| && (forall i :: |s| - n <= i < |s| ==> s[i] == failed)
    ensures n < |s| ==> s[|s| - n - 1] != failed
  {
    if s == [] || s[|s| - 1] != failed then 0 else 1 + Streak(s[..|s| - 1], failed)
  }

  /** Timer and counters in terms of the run: when the state was entered, and the outcomes since the
      last reset. */
  ghost predicate HistoryOk(w: World) {
    && w.core.changedAt == w.enteredAt && w.resetAt <= |w.outcomes|
    && w.core.failures == Streak(w.outcomes[w.resetAt..], true)
    && w.core.successes == Streak(w.outcomes[w.resetAt..], false)
  }

  lemma StreakGrows(s: seq<bool>, last: bool)
    ensures Streak(s + [last], last) == Streak(s, last) + 1 && Streak(s + [last], !last) == 0
  {
    assert (s + [last])[..|s|] == s;
  }

  lemma StepTimes(w: World, cfg: Config, e: Event)
    requires Possible(w, e) && w.core.changedAt == w.enteredAt
    ensures Step(w, cfg, e).core.changedAt == Step(w, cfg, e).enteredAt
  {
    hide Rate, Last, RateExceeded, RateTrips, ShouldTrip, ShouldReset, TimeoutElapsed, Recorded;
    var recorded := if e.Exit? then Recorded(w.core, cfg, e.failed) else w.core;
    assert recorded.state == w.core.state && recorded.changedAt == w.core.changedAt by {
      RecordKeepsTimer(w.core, cfg);
    }
  }

  lemma RecordKeepsTimer(c: Core, cfg: Config)
    ensures forall failed :: var r := Recorded(c, cfg, failed); r.state == c.state && r.changedAt == c.changedAt
  {}

  lemma ExitCounts(w: World, cfg: Config, failed: bool, trial: bool, now: int)
    requires Possible(w, Exit(failed, trial, now))
    ensures var w' := Step(w, cfg, Exit(failed, trial, now));
            && w'.resetAt == w.resetAt && w'.outcomes == w.outcomes + [failed]
            && w'.core.failures == (if failed then w.core.failures + 1 else 0)
            && w'.core.successes == (if failed then 0 else w.core.successes + 1)
  {
    hide Rate, Last, RateExceeded, RateTrips, ShouldTrip, ShouldReset;
  }

  /** What one step does to the counters. */
  lemma StepCounts(w: World, cfg: Config, e: Event)
    requires Possible(w, e)
    ensures var w' := Step(w, cfg, e);
            && w'.resetAt == (if e.Reset? then |w.outcomes| else w.resetAt)
            && w'.outcomes == (if e.Exit? then w.outcomes + [e.failed] else w.outcomes)
            && w'.core.failures == (if e.Reset? || (e.Exit? && !e.failed) then 0
                                    else if e.Exit? then w.core.failures + 1 else w.core.failures)
            && w'.core.successes == (if e.Reset? || (e.Exit? && e.failed) then 0
                                     else if e.Exit? then w.core.successes + 1 else w.core.successes)
  {
    hide Exited, TimeoutElapsed, Admits;
    if e.Exit? { ExitCounts(w, cfg, e.failed, e.trial, e.now); }
  }

  lemma StepKeepsHistory(w: World, cfg: Config, e: Event)
    requires HistoryOk(w) && Possible(w, e)
    ensures HistoryOk(Step(w, cfg, e))
  {
    hide Step, Streak, Possible;
    StepTimes(w, cfg, e);
    StepCounts(w, cfg, e);
    if e.Exit? {
      StreakGrows(w.outcomes[w.resetAt..], e.failed);
      assert (w.outcomes + [e.failed])[w.resetAt..] == w.outcomes[w.resetAt..] + [e.failed];
    } else if e.Reset? {
      assert w.outcomes[|w.outcomes|..] == [];
    }
  }

  lemma {:induction false} RunsKeepHistory(w: World, cfg: Config, events: seq<Event>)
    requires HistoryOk(w) && Runs(w, cfg, events)
    ensures HistoryOk(After(w, cfg, events))
    decreases |events|
  {
    hide Step, HistoryOk;
    if events != [] {
      StepKeepsHistory(w, cfg, events[0]);
      RunsKeepHistory(Step(w, cfg, events[0]), cfg, events[1..]);
    }
  }

  /** As many failures in a row, since the last reset, as the threshold. */
  ghost predicate FailedEnough(w: World, cfg: Config, done: seq<bool>)
    requires w.resetAt <= |done|
  {
    cfg.enabled && Streak(done[w.resetAt..], true) >= cfg.failureThreshold
  }

  /** A whole window of outcomes since it was last emptied, a sufficient share of them failures. */
  ghost predicate FailedTooOften(w: World, cfg: Config, done: seq<bool>) {
    && cfg.enabled && 0 < cfg.windowSize <= |done| - w.cleared
    && multiset(done[|done| - cfg.windowSize..])[true] as real / cfg.windowSize as real >= cfg.rateThreshold
  }

  lemma {:induction false} FailuresCounted(window: seq<bool>)
    ensures Failures(window) == multiset(window)[true]
    ensures window != [] ==> Rate(window) == multiset(window)[true] as real / |window| as real
  {
    if window != [] {
      FailuresCounted(window[..|window| - 1]);
      assert window == window[..|window| - 1] + [window[|window| - 1]];
    }
  }

  lemma RateByHistory(w: World, cfg: Config, failed: bool)
    requires WindowOk(w, cfg)
    ensures RateExceeded(Recorded(w.core, cfg, failed), cfg) <==> FailedTooOften(w, cfg, w.outcomes + [failed])
  {
    hide Recorded, Rate, Last;
    if cfg.windowSize > 0 {
      RecordedWindow(w, cfg, failed);
      LastOf(w.outcomes + [failed], w.cleared, cfg.windowSize);
      FailuresCounted(Recorded(w.core, cfg, failed).window);
    }
  }

  /** What the end of a call does, in terms of the recorded counters. */
  lemma ExitMovesState(w: World, cfg: Config, failed: bool, trial: bool, at: int)
    requires Possible(w, Exit(failed, trial, at))
    ensures var w', r := Step(w, cfg, Exit(failed, trial, at)), Recorded(w.core, cfg, failed);
            && w'.core.state == (
                 if failed then
                   if (cfg.enabled && r.failures >= cfg.failureThreshold) || RateExceeded(r, cfg)
                      || (cfg.windowSize > 0 && w.core.state == HALF_OPEN) then OPEN else w.core.state
                 else if r.successes >= cfg.successThreshold && w.core.state == HALF_OPEN then CLOSED
                 else if w.core.state == CLOSED && RateExceeded(r, cfg) then OPEN
                 else w.core.state)
            && (w'.trips != w.trips <==>
                  && RateExceeded(r, cfg)
                  && if failed then !(cfg.enabled && r.failures >= cfg.failureThreshold) else w.core.state == CLOSED)
            && r.failures == (if failed then w.core.failures + 1 else 0)
            && r.successes == (if failed then 0 else w.core.successes + 1)
  {
    hide Rate, Last, RateExceeded;
  }

  /** After any run, what the end of a call does, told by the outcomes alone. */
  lemma {:induction false} ExitByHistory(now: int, cfg: Config, events: seq<Event>, failed: bool, trial: bool, at: int)
    requires Runs(Initial(now), cfg, events) && Possible(After(Initial(now), cfg, events), Exit(failed, trial, at))
    ensures var w := After(Initial(now), cfg, events);
            var w', done := Step(w, cfg, Exit(failed, trial, at)), w.outcomes + [failed];
            && w'.outcomes == done && w.resetAt <= |w.outcomes|
            && (w'.core.state == OPEN <==>
                  || w.core.state == OPEN
                  || (failed && (FailedEnough(w, cfg, done) || FailedTooOften(w, cfg, done)))
                  || (failed && w.core.state == HALF_OPEN && cfg.windowSize > 0)
                  || (!failed && w.core.state == CLOSED && FailedTooOften(w, cfg, done)))
            && (w'.core.state == CLOSED && w.core.state != CLOSED <==>
                  && !failed && w.core.state == HALF_OPEN
                  && Streak(done[w.resetAt..], false) >= cfg.successThreshold)
            && (w'.core.state == HALF_OPEN ==> w.core.state == HALF_OPEN)
            && (w'.trips != w.trips <==>
                  && FailedTooOften(w, cfg, done)
                  && if failed then !FailedEnough(w, cfg, done) else w.core.state == CLOSED)
  {
    hide Step, Recorded, Streak, FailedTooOften, RateExceeded, After, Runs, Possible;
    RunsKeepInvariant(Initial(now), cfg, events);
    RunsKeepHistory(Initial(now), cfg, events);
    var w := After(Initial(now), cfg, events);
    StepCounts(w, cfg, Exit(failed, trial, at));
    ExitMovesState(w, cfg, failed, trial, at);
    RateByHistory(w, cfg, failed);
    StreakGrows(w.outcomes[w.resetAt..], failed);
    assert (w.outcomes + [failed])[w.resetAt..] == w.outcomes[w.resetAt..] + [failed];
  }

  /** After any run, which calls are admitted: all while closed, none while open until the timeout has
      passed since the breaker was last opened, and as many as there are slots while half-open. */
  lemma {:induction false} AdmittedByHistory(now: int, cfg: Config, events: seq<Event>, at: int)
    requires Runs(Initial(now), cfg, events)
    ensures var w := After(Initial(now), cfg, events);
            var w' := Step(w, cfg, Enter(at));
            var due := w.core.state == OPEN && cfg.enabled && at - w.enteredAt >= cfg.timeout;
            && w'.admitted == w.admitted + (
                 if w.core.state == CLOSED || (due && cfg.halfOpenMax > 0)
                    || (w.core.state == HALF_OPEN && w.core.slots < cfg.halfOpenMax) then 1 else 0)
            && Admits(w.core, cfg, at) == (w'.admitted > w.admitted)
            && w'.core.state == (if due then HALF_OPEN else w.core.state)
            && InFlight(w') - InFlight(w) == w'.admitted - w.admitted
  {
    RunsKeepHistory(Initial(now), cfg, events);
    hide After, Runs, Streak;
  }

  // ------------------------------------------------------------------
  // The open timer
  // ------------------------------------------------------------------

  /** Before its timeout an open breaker admits nothing, and neither late exits nor a repeated
      opening change its state or restart its timer; only a reset could. */
  lemma {:induction false} OpenHolds(w: World, cfg: Config, events: seq<Event>)
    requires Runs(w, cfg, events) && w.core.state == OPEN && w.core.changedAt == w.enteredAt
    requires forall i :: 0 <= i < |events| ==> !events[i].Reset?
    requires forall i :: 0 <= i < |events| ==> cfg.enabled ==> events[i].now - w.enteredAt < cfg.timeout
    ensures var w' := After(w, cfg, events);
            && w'.core.state == OPEN && w'.core.changedAt == w'.enteredAt == w.enteredAt
            && w'.admitted == w.admitted && InFlight(w') <= InFlight(w)
    decreases |events|
  {
    if events != [] {
      OpenHolds(Step(w, cfg, events[0]), cfg, events[1..]);
    }
  }

  /** Whatever came before: from the very event that opens the breaker no call is admitted until the
      timeout has passed, unless it is reset. */
  lemma {:induction false} OpeningHolds(now: int, cfg: Config, before: seq<Event>, e: Event, later: seq<Event>)
    requires Runs(Initial(now), cfg, before) && Possible(After(Initial(now), cfg, before), e)
    requires var w := After(Initial(now), cfg, before);
             w.core.state != OPEN && Step(w, cfg, e).core.state == OPEN && Runs(Step(w, cfg, e), cfg, later)
    requires forall i :: 0 <= i < |later| ==> !later[i].Reset? && (cfg.enabled ==> later[i].now - e.now < cfg.timeout)
    ensures var w := After(Initial(now), cfg, before);
            var w' := After(Step(w, cfg, e), cfg, later);
            && w'.core.state == OPEN && w'.admitted == w.admitted && InFlight(w') <= InFlight(w)
  {
    RunsKeepHistory(Initial(now), cfg, before);
    var w := After(Initial(now), cfg, before);
    Opening(w, cfg, e);
    OpenHolds(Step(w, cfg, e), cfg, later);
  }

  /** The event that opens a breaker starts its timer and admits no call. */
  lemma Opening(w: World, cfg: Config, e: Event)
    requires HistoryOk(w) && Possible(w, e) && w.core.state != OPEN && Step(w, cfg, e).core.state == OPEN
    ensures var w' := Step(w, cfg, e);
            && w'.core.changedAt == w'.enteredAt == e.now && w'.admitted == w.admitted && InFlight(w') <= InFlight(w)
  {
    hide Streak, Rate, Last;
  }

  /** A call is admitted by an open breaker exactly when it is enabled, its timeout has passed
      and trials are allowed at all. */
  lemma OpenAdmits(c: Core, cfg: Config, now: int)
    requires c.state == OPEN
    ensures Admits(c, cfg, now) <==> cfg.enabled && now - c.changedAt >= cfg.timeout && cfg.halfOpenMax > 0
  {}

  // ------------------------------------------------------------------
  // Self-healing
  // ------------------------------------------------------------------

  /** One sequential successful call: in at `times.0`, out at `times.1`. */
  function Call(c: Core, cfg: Config, times: (int, int)): Core {
    Exited(Entered(c, cfg, times.0), cfg, false, times.1)
  }

  ghost predicate AllAdmitted(c: Core, cfg: Config, calls: seq<(int, int)>)
    decreases |calls|
  {
    calls == [] || (Admits(c, cfg, calls[0].0) && AllAdmitted(Call(c, cfg, calls[0]), cfg, calls[1..]))
  }

  ghost function AfterCalls(c: Core, cfg: Config, calls: seq<(int, int)>): Core
    decreases |calls|
  {
    if calls == [] then c else AfterCalls(Call(c, cfg, calls[0]), cfg, calls[1..])
  }

  /** How many successful calls close the breaker: successes counted before the half-open
      period, by calls that ended late, already count. */
  function Needed(c: Core, cfg: Config): nat {
    if cfg.successThreshold - c.successes > 1 then cfg.successThreshold - c.successes else 1
  }

  lemma {:induction false} TrialsHeal(c: Core, cfg: Config, calls: seq<(int, int)>)
    requires c.state == HALF_OPEN && c.slots == 0 && cfg.halfOpenMax >= 1
    requires 1 <= |calls| <= Needed(c, cfg)
    ensures AllAdmitted(c, cfg, calls)
    ensures AfterCalls(c, cfg, calls).state == if |calls| == Needed(c, cfg) then CLOSED else HALF_OPEN
    decreases |calls|
  {
    var c' := Call(c, cfg, calls[0]);
    assert c'.successes == c.successes + 1 && c'.slots == 0;
    if |calls| > 1 {
      TrialsHeal(c', cfg, calls[1..]);
    } else {
      assert calls[1..] == [];
    }
  }

  /** From any open state whose timeout has elapsed, sequential successful calls are never
      refused, leave the breaker half-open until the last, and close it after exactly
      `Needed` of them, at most the success threshold. */
  lemma {:induction false} SelfHealing(c: Core, cfg: Config, calls: seq<(int, int)>)
    requires c.state == OPEN && cfg.enabled && cfg.halfOpenMax >= 1 && cfg.successThreshold >= 1
    requires 1 <= |calls| <= Needed(c, cfg) && calls[0].0 - c.changedAt >= cfg.timeout
    ensures Needed(c, cfg) <= cfg.successThreshold
    ensures AllAdmitted(c, cfg, calls)
    ensures AfterCalls(c, cfg, calls).state == if |calls| == Needed(c, cfg) then CLOSED else HALF_OPEN
  {
    var c' := Call(c, cfg, calls[0]);
    assert c'.successes == c.successes + 1 && c'.slots == 0;
    if |calls| > 1 {
      TrialsHeal(c', cfg, calls[1..]);
    } else {
      assert calls[1..] == [];
    }
  }
}
