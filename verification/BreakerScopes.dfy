/** What a scope does to a half-open breaker: it gives its block an isolated breaker and restores the
    saved one, slots included, although calls went on meanwhile. */
module BreakerScopes {
  import opened CircuitBreaker
  import opened BreakerGuarantees

  /** An event inside a scope: one of the block's own calls, a reset, an opening, or the end of a call
      that was in flight when the scope opened. */
  datatype Inside = Own(e: Event) | OuterExit(trial: bool, failed: bool, now: int)

  /** The world inside a scope: to the isolated breaker every call in flight at its opening is an older
      one; `trialsLeft` and `olderLeft` of them have not ended yet. */
  datatype Scoped = Scoped(w: World, trialsLeft: nat, olderLeft: nat)

  function Opened(w: World, now: int): Scoped {
    Scoped(w.(core := Isolated(now), older := InFlight(w), trials := 0, late := 0, cleanStart := false,
              cleared := |w.outcomes|, enteredAt := now, resetAt := |w.outcomes|), w.trials, w.older)
  }

  predicate Can(s: Scoped, e: Inside) {
    match e
    case Own(e) => Possible(s.w, e) && (e.Exit? && !e.trial ==> s.w.older > s.trialsLeft + s.olderLeft)
    case OuterExit(trial, _, _) => s.w.older > 0 && if trial then s.trialsLeft > 0 else s.olderLeft > 0
  }

  function Move(s: Scoped, cfg: Config, e: Inside): Scoped
    requires Can(s, e)
  {
    match e
    case Own(e) => s.(w := Step(s.w, cfg, e))
    case OuterExit(trial, failed, now) =>
      var w := Step(s.w, cfg, Exit(failed, false, now));
      if trial then Scoped(w, s.trialsLeft - 1, s.olderLeft) else Scoped(w, s.trialsLeft, s.olderLeft - 1)
  }

  ghost predicate Block(s: Scoped, cfg: Config, events: seq<Inside>)
    decreases |events|
  {
    events == [] || (Can(s, events[0]) && Block(Move(s, cfg, events[0]), cfg, events[1..]))
  }

  ghost function AfterBlock(s: Scoped, cfg: Config, events: seq<Inside>): Scoped
    requires Block(s, cfg, events)
    decreases |events|
  {
    if events == [] then s else AfterBlock(Move(s, cfg, events[0]), cfg, events[1..])
  }

  /** The world after the scope: the saved breaker, the trials that are still in flight, and every
      other call in flight, the block's own among them, as older ones. */
  function Closed(before: World, s: Scoped, now: int): World
    requires s.trialsLeft <= InFlight(s.w)
  {
    s.w.(core := Restored(before.core, now), trials := s.trialsLeft, older := InFlight(s.w) - s.trialsLeft,
         late := before.late, cleanStart := before.cleanStart, enteredAt := now)
  }

  /** Calls that were in flight before are still there until they end. */
  ghost predicate Kept(before: World, s: Scoped) {
    s.trialsLeft <= before.trials && s.olderLeft <= before.older && s.trialsLeft + s.olderLeft <= s.w.older
  }

  lemma {:induction false} BlockKeeps(before: World, s: Scoped, cfg: Config, events: seq<Inside>)
    requires Kept(before, s) && Block(s, cfg, events)
    ensures Kept(before, AfterBlock(s, cfg, events))
    decreases |events|
  {
    if events != [] {
      BlockKeeps(before, Move(s, cfg, events[0]), cfg, events[1..]);
    }
  }

  /** A whole scope over any block. */
  ghost predicate IsScope(before: World, cfg: Config, opening: int, events: seq<Inside>, closing: int, after: World) {
    && Block(Opened(before, opening), cfg, events)
    && var s := AfterBlock(Opened(before, opening), cfg, events);
       s.trialsLeft <= InFlight(s.w) && after == Closed(before, s, closing)
  }

  lemma ScopeFacts(before: World, cfg: Config, opening: int, events: seq<Inside>, closing: int, after: World)
    requires IsScope(before, cfg, opening, events, closing, after)
    ensures after.core == Restored(before.core, closing) && after.trials <= before.trials
    ensures after.late == before.late && after.cleanStart == before.cleanStart
  {
    BlockKeeps(before, Opened(before, opening), cfg, events);
  }

  /** Every block can be closed. */
  lemma ScopesClose(before: World, cfg: Config, opening: int, events: seq<Inside>, closing: int) returns (after: World)
    requires Block(Opened(before, opening), cfg, events)
    ensures IsScope(before, cfg, opening, events, closing, after)
    ensures InFlight(after) == InFlight(AfterBlock(Opened(before, opening), cfg, events).w)
  {
    BlockKeeps(before, Opened(before, opening), cfg, events);
    after := Closed(before, AfterBlock(Opened(before, opening), cfg, events), closing);
  }

  /** Whatever the block did, the slot invariant survives the scope exactly when as many trials are
      still in flight as there are slots, and, in a period that began with nothing in flight, no
      other call is. */
  lemma RestoreKeepsInvariant(before: World, cfg: Config, opening: int, events: seq<Inside>, closing: int, after: World)
    requires SlotsOk(before, cfg) && IsScope(before, cfg, opening, events, closing, after)
    ensures SlotsOk(after, cfg) <==>
              && before.core.slots <= after.trials
              && (before.core.state == HALF_OPEN && before.cleanStart ==> after.older == 0)
  {
    ScopeFacts(before, cfg, opening, events, closing, after);
  }

  /** For a half-open period that began with nothing in flight: the counter is exact after the scope
      if and only if no trial ended inside it and no call admitted inside it is still in flight. */
  lemma RestoreKeepsSlots(before: World, cfg: Config, opening: int, events: seq<Inside>, closing: int, after: World)
    requires SlotsOk(before, cfg) && before.core.state == HALF_OPEN && before.cleanStart
    requires IsScope(before, cfg, opening, events, closing, after)
    ensures after.trials <= before.trials
    ensures after.core.slots == after.trials == InFlight(after) <==> after.trials == before.trials && after.older == 0
    ensures SlotsOk(after, cfg) <==> after.trials == before.trials && after.older == 0
  {
    ScopeFacts(before, cfg, opening, events, closing, after);
  }

  /** What follows when it is exact: it stays so for the rest of the period. */
  lemma {:induction false} ExactAfterScope(after: World, cfg: Config, later: seq<Event>)
    requires SlotsOk(after, cfg) && after.cleanStart && StaysHalfOpen(after, cfg, later) && cfg.halfOpenMax >= 0
    ensures Runs(after, cfg, later)
    ensures var w := After(after, cfg, later); w.core.slots == w.trials == InFlight(w) <= cfg.halfOpenMax
    decreases |later|
  {
    if later != [] {
      var next := Step(after, cfg, later[0]);
      StepSlots(after, cfg, later[0]);
      assert next.cleanStart by { assert next.core.state == HALF_OPEN; PeriodGoesOn(after, cfg, later[0]); }
      ExactAfterScope(next, cfg, later[1..]);
    }
  }

  lemma PeriodGoesOn(w: World, cfg: Config, e: Event)
    requires w.core.state == HALF_OPEN && Possible(w, e)
    ensures Step(w, cfg, e).cleanStart == w.cleanStart
  {}

  /** What follows for the limit after any scope of a half-open breaker, whatever ended or began inside. */
  lemma LimitAfterAnyScope(
    before: World, cfg: Config, opening: int, events: seq<Inside>, closing: int, after: World)
    requires SlotsOk(before, cfg) && before.core.state == HALF_OPEN && cfg.enabled && cfg.halfOpenMax >= 0
    requires IsScope(before, cfg, opening, events, closing, after)
    ensures CanExceed(after, cfg) <==>
              || before.core.slots < after.trials
              || (cfg.halfOpenMax >= 1 && after.older > before.core.slots - after.trials
                  && Endures(before.core, cfg, before.core.slots - after.trials))
  {
    hide CanExceed;
    ScopeFacts(before, cfg, opening, events, closing, after);
    ExceedsIff(after, cfg);
  }

  /** In a period that began with nothing in flight every trial that ended inside leaves a slot in
      excess: more trials than the limit can be in flight afterwards exactly when more calls admitted
      inside are still in flight than trials ended there, and that many calls, and one more, can end
      without ending the period. */
  lemma LimitAfterScope(
    before: World, cfg: Config, opening: int, events: seq<Inside>, closing: int, after: World)
    requires SlotsOk(before, cfg) && before.core.state == HALF_OPEN && before.cleanStart
    requires cfg.enabled && cfg.halfOpenMax >= 1
    requires IsScope(before, cfg, opening, events, closing, after)
    ensures after.trials <= before.trials
    ensures var ended := before.trials - after.trials;
            CanExceed(after, cfg) <==> after.older > ended && Endures(before.core, cfg, ended)
  {
    hide CanExceed, Endures;
    ScopeFacts(before, cfg, opening, events, closing, after);
    LimitAfterAnyScope(before, cfg, opening, events, closing, after);
  }

  /** Calls that come in one after the other with none ending are all refused. */
  ghost predicate Refused(c: Core, cfg: Config, times: seq<int>)
    decreases |times|
  {
    times == [] || (!Admits(c, cfg, times[0]) && Refused(Entered(c, cfg, times[0]), cfg, times[1..]))
  }

  /** A half-open breaker whose slots are all taken refuses every call until one ends. */
  lemma {:induction false} FullHalfOpenRefuses(c: Core, cfg: Config, times: seq<int>)
    requires c.state == HALF_OPEN && c.slots >= cfg.halfOpenMax
    ensures Refused(c, cfg, times)
    ensures forall i :: 0 <= i < |times| ==> !Admits(c, cfg, times[i]) && Entered(c, cfg, times[i]) == c
    decreases |times|
  {
    if times != [] {
      assert Entered(c, cfg, times[0]) == c;
      FullHalfOpenRefuses(c, cfg, times[1..]);
    }
  }

  /** What follows when nothing is in flight any more: the slots of the ended trials stay taken, and no
      later call is ever admitted exactly when those were all there are. */
  lemma {:induction false} WedgedIff(
      before: World, cfg: Config, opening: int, events: seq<Inside>, closing: int, after: World)
    requires SlotsOk(before, cfg) && before.core.state == HALF_OPEN
    requires IsScope(before, cfg, opening, events, closing, after) && InFlight(after) == 0
    ensures Wedged(after.core, cfg) <==> before.core.slots >= cfg.halfOpenMax
  {
    ScopeFacts(before, cfg, opening, events, closing, after);
    if before.core.slots >= cfg.halfOpenMax {
      forall times ensures Refused(after.core, cfg, times) { FullHalfOpenRefuses(after.core, cfg, times); }
    } else {
      var times := [0];
      assert times[0] == 0 && Admits(after.core, cfg, 0);
      assert !Refused(after.core, cfg, times);
    }
  }

  /** No later call is ever admitted. */
  ghost predicate Wedged(c: Core, cfg: Config) {
    forall times :: Refused(c, cfg, times)
  }

  lemma OneTrial(cfg: Config, created: int, openedAt: int, entered: int)
    requires cfg.enabled && cfg.halfOpenMax == 1 && entered - openedAt >= cfg.timeout
    ensures var w1 := Step(Initial(created), cfg, ForceOpen(openedAt));
            var w2 := Step(w1, cfg, Enter(entered));
            && w2.core.state == HALF_OPEN && w2.core.slots == 1
            && w2.cleanStart && w2.trials == 1 && w2.older == 0
  {}

  lemma TrialEndsInside(before: World, cfg: Config, opening: int, ended: int, closing: int)
    returns (events: seq<Inside>, after: World)
    requires before.trials == 1 && before.older == 0
    ensures IsScope(before, cfg, opening, events, closing, after) && InFlight(after) == 0
  {
    var s, e := Opened(before, opening), OuterExit(true, false, ended);
    events := [e];
    assert events[1..] == [] && Block(Move(s, cfg, e), cfg, []);
    after := ScopesClose(before, cfg, opening, events, closing);
  }

  /** A whole run in which it happens: the one trial ends inside the scope, and the restored breaker
      refuses every later call although nothing is in flight. */
  lemma RestoreCanWedge() returns (cfg: Config, run: seq<Event>, events: seq<Inside>, after: World)
    ensures cfg.enabled && cfg.halfOpenMax == 1 && Runs(Initial(0), cfg, run)
    ensures IsScope(After(Initial(0), cfg, run), cfg, 32, events, 40, after) && InFlight(after) == 0
    ensures Wedged(after.core, cfg)
  {
    cfg := Config(5, 3, 30, 1, true, 0, 0.5);
    var w1 := Step(Initial(0), cfg, ForceOpen(1));
    var w2 := Step(w1, cfg, Enter(31));
    OneTrial(cfg, 0, 1, 31);
    RunOfOne(w1, cfg, Enter(31));
    run := [ForceOpen(1)] + [Enter(31)];
    RunOfMore(Initial(0), cfg, ForceOpen(1), [Enter(31)]);
    events, after := TrialEndsInside(w2, cfg, 32, 35, 40);
    RunsKeepInvariant(Initial(0), cfg, run);
    WedgedIff(w2, cfg, 32, events, 40, after);
  }
}
