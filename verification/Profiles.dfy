/** Operating profiles on nested configuration trees. */
module Profiles {
  import opened Options
  import Text

  datatype Scalar =
    Flag(on: bool) | Number(n: int) | Decimal(x: real) | Word(text: string) | Null | Items(rendered: string)

  datatype Value = Leaf(scalar: Scalar) | Dict(entries: map<string, Value>)

  /** The number a scalar stands for in a comparison: Python's booleans are 0 and 1. */
  function Amount(s: Scalar): Option<real> {
    match s
    case Flag(on) => Some(if on then 1.0 else 0.0)
    case Number(n) => Some(n as real)
    case Decimal(x) => Some(x)
    case _ => None
  }

  /** Python's `==` on a configuration value and a scalar. */
  predicate Equals(v: Value, s: Scalar) {
    v.Leaf? && if Amount(v.scalar).Some? then Amount(v.scalar) == Amount(s) else v.scalar == s
  }

  /** The parts of a dotted path. */
  type Path = seq<string>

  function Get(v: Value, path: Path): Option<Value> {
    if path == [] then Some(v)
    else if v.Dict? && path[0] in v.entries then Get(v.entries[path[0]], path[1..])
    else None
  }

  function Child(v: Value, part: string): Value
    requires v.Dict?
  {
    if part in v.entries then v.entries[part] else Dict(map[])
  }

  /** Sets a path, creating the dictionaries on the way; nothing when one of them is something
      else. */
  function Set(v: Value, path: Path, x: Value): Option<Value>
    requires path != []
    decreases |path|
  {
    if v.Leaf? then None
    else if |path| == 1 then Some(Dict(v.entries[path[0] := x]))
    else
      var child := Set(Child(v, path[0]), path[1..], x);
      if child.None? then None else Some(Dict(v.entries[path[0] := child.value]))
  }

  predicate Related(p: Path, q: Path) { p <= q || q <= p }

  lemma {:induction false} GetOfSet(v: Value, path: Path, x: Value)
    requires path != [] && Set(v, path, x).Some?
    ensures Get(Set(v, path, x).value, path) == Some(x)
    decreases |path|
  {
    if |path| == 1 {
      assert path[1..] == [];
    } else {
      GetOfSet(Child(v, path[0]), path[1..], x);
    }
  }

  lemma {:induction false} GetInEmpty(path: Path)
    requires path != []
    ensures Get(Dict(map[]), path) == None
  {}

  /** Reading a path that is neither above nor below the one set gives what it gave before. */
  lemma {:induction false} SetKeepsUnrelated(v: Value, path: Path, x: Value, other: Path)
    requires path != [] && Set(v, path, x).Some? && !Related(path, other)
    ensures Get(Set(v, path, x).value, other) == Get(v, other)
    decreases |path|
  {
    if other != [] && other[0] == path[0] {
      assert |path| == 1 ==> path <= other;
      assert path == [path[0]] + path[1..] && other == [other[0]] + other[1..];
      SetKeepsUnrelated(Child(v, path[0]), path[1..], x, other[1..]);
      if path[0] !in v.entries && other[1..] != [] { GetInEmpty(other[1..]); }
    }
  }

  /** Setting a path to what it already reads changes nothing. */
  lemma {:induction false} SetWhatIsThere(v: Value, path: Path, x: Value)
    requires path != [] && Get(v, path) == Some(x)
    ensures Set(v, path, x) == Some(v)
    decreases |path|
  {
    if |path| == 1 {
      assert path[1..] == [];
      assert v.entries[path[0] := x] == v.entries;
    } else {
      SetWhatIsThere(v.entries[path[0]], path[1..], x);
      assert v.entries[path[0] := v.entries[path[0]]] == v.entries;
    }
  }

  /** Nothing above the path reads as a non-dictionary. */
  ghost predicate Settable(v: Value, path: Path) {
    forall k :: 0 <= k < |path| && Get(v, path[..k]).Some? ==> Get(v, path[..k]).value.Dict?
  }

  lemma {:induction false} SetSucceedsIff(v: Value, path: Path, x: Value)
    requires path != []
    ensures Set(v, path, x).Some? <==> Settable(v, path)
    decreases |path|
  {
    if v.Leaf? {
      assert path[..0] == [] && Get(v, path[..0]) == Some(v);
    } else if |path| > 1 {
      var child, rest := Child(v, path[0]), path[1..];
      SetSucceedsIff(child, rest, x);
      assert Settable(v, path) <==> Settable(child, rest) by {
        forall k | 0 <= k < |rest|
          ensures || Get(child, rest[..k]) == Get(v, path[..k + 1])
                  || (path[0] !in v.entries && Get(v, path[..k + 1]).None?)
        {
          assert path[..k + 1][0] == path[0] && path[..k + 1][1..] == rest[..k];
        }
        if Settable(v, path) {
          forall k | 0 <= k < |rest| && Get(child, rest[..k]).Some? ensures Get(child, rest[..k]).value.Dict? {
            if path[0] !in v.entries && k > 0 { GetInEmpty(rest[..k]); }
            if path[0] in v.entries { assert Get(child, rest[..k]) == Get(v, path[..k + 1]); }
          }
        }
        if Settable(child, rest) {
          forall k | 0 <= k < |path| && Get(v, path[..k]).Some? ensures Get(v, path[..k]).value.Dict? {
            if k > 0 {
              assert path[..k][0] == path[0] && path[..k][1..] == rest[..k - 1];
              assert Get(v, path[..k]) == Get(child, rest[..k - 1]);
            }
          }
        }
      }
    } else {
      assert forall k :: 0 <= k < |path| ==> path[..k] == [];
    }
  }

  lemma {:induction false} AboveSetIsDict(v: Value, path: Path, x: Value, k: nat)
    requires path != [] && Set(v, path, x).Some? && k < |path|
    ensures Get(Set(v, path, x).value, path[..k]).Some? && Get(Set(v, path, x).value, path[..k]).value.Dict?
    decreases |path|
  {
    if k > 0 {
      AboveSetIsDict(Child(v, path[0]), path[1..], x, k - 1);
      assert path[..k][0] == path[0] && path[..k][1..] == path[1..][..k - 1];
    } else {
      assert path[..0] == [];
    }
  }

  /** Setting one path neither blocks nor unblocks an unrelated one, nor itself. */
  lemma {:induction false} SetKeepsSettable(v: Value, path: Path, x: Value, other: Path)
    requires path != [] && Set(v, path, x).Some? && (path == other || !Related(path, other))
    ensures Settable(Set(v, path, x).value, other) <==> Settable(v, other)
  {
    var after := Set(v, path, x).value;
    SetSucceedsIff(v, path, x);
    forall k | 0 <= k < |other|
      ensures (Get(after, other[..k]).Some? ==> Get(after, other[..k]).value.Dict?)
              <==> (Get(v, other[..k]).Some? ==> Get(v, other[..k]).value.Dict?)
    {
      if other[..k] <= path && k < |path| {
        assert path[..k] == other[..k];
        AboveSetIsDict(v, path, x, k);
      } else {
        assert path <= other[..k] ==> path <= other;
        SetKeepsUnrelated(v, path, x, other[..k]);
      }
    }
  }

  // ------------------------------------------------------------------
  // The shipped tables
  // ------------------------------------------------------------------

  const ON := Leaf(Flag(true))
  const OFF := Leaf(Flag(false))

  function Num(n: int): Value { Leaf(Number(n)) }
  function Str(s: string): Value { Leaf(Word(s)) }

  const PASSIVE_FORCE_OFF: set<Path> := {
    ["privacy", "external_lookups"], ["validators", "active_enabled"], ["validators", "allow_mutating_replay"],
    ["autonomous_discovery", "enabled"], ["oracle", "enabled"],
    ["engagement", "auto_escalate"], ["engagement", "driver_execute"], ["engagement", "feature_crawl"],
    ["engagement", "coverage_drive_legs"], ["engagement", "discovery_ffuf"],
    ["coordinator", "cloud_primary"], ["coordinator", "cloud_reasoning"],
    ["business_context", "enabled"], ["driver_capture", "enabled"], ["iterative_agent", "enabled"],
    ["engagement", "experiments", "enabled"], ["engagement", "experiments", "planner"],
    ["engagement", "recrawl", "enabled"], ["engagement", "crawl_per_principal"],
    ["engagement", "retry_rounds", "enabled"], ["engagement", "server_errors", "max_lead_confirmations"]}

  const KNOB_DEFAULTS: map<Path, Scalar> := map[
    ["coordinator", "fail_open_mode"] := Word("all"),
    ["coordinator", "model"] := Word("qwen3:8b"),
    ["concurrency", "max_parallel_agents"] := Number(1),
    ["concurrency", "max_concurrent_validations"] := Number(6),
    ["concurrency", "early_termination_batch_size"] := Number(3),
    ["validators", "active_enabled"] := Flag(false),
    ["validators", "allow_mutating_replay"] := Flag(false),
    ["autonomous_discovery", "enabled"] := Flag(false),
    ["oracle", "enabled"] := Flag(false),
    ["agent_defaults", "model"] := Word("qwen3:8b"),
    ["reporting", "quarantine_unverified_leads"] := Flag(false)]

  const PASSIVE_ONLY: map<Path, Value> := map[
    ["coordinator", "fail_open_mode"] := Str("all"),
    ["concurrency", "max_parallel_agents"] := Num(1),
    ["validators", "active_enabled"] := OFF,
    ["validators", "allow_mutating_replay"] := OFF,
    ["autonomous_discovery", "enabled"] := OFF,
    ["oracle", "enabled"] := OFF]

  const LAPTOP: map<Path, Value> := map[
    ["coordinator", "fail_open_mode"] := Str("curated"),
    ["concurrency", "max_parallel_agents"] := Num(1),
    ["concurrency", "max_concurrent_validations"] := Num(3),
    ["concurrency", "early_termination_batch_size"] := Num(2),
    ["validators", "active_enabled"] := OFF,
    ["validators", "allow_mutating_replay"] := OFF,
    ["autonomous_discovery", "enabled"] := OFF,
    ["oracle", "enabled"] := OFF,
    ["agent_defaults", "model"] := Str("qwen3:8b")]

  const WORKSTATION: map<Path, Value> := map[
    ["coordinator", "fail_open_mode"] := Str("all"),
    ["concurrency", "max_parallel_agents"] := Num(3),
    ["concurrency", "max_concurrent_validations"] := Num(6),
    ["concurrency", "early_termination_batch_size"] := Num(3),
    ["validators", "active_enabled"] := ON,
    ["validators", "allow_mutating_replay"] := OFF,
    ["autonomous_discovery", "enabled"] := OFF,
    ["oracle", "enabled"] := OFF]

  const DEEP_ASSESSMENT: map<Path, Value> := map[
    ["coordinator", "fail_open_mode"] := Str("all"),
    ["concurrency", "max_parallel_agents"] := Num(3),
    ["concurrency", "max_concurrent_validations"] := Num(6),
    ["concurrency", "early_termination_batch_size"] := Num(5),
    ["validators", "active_enabled"] := ON,
    ["validators", "allow_mutating_replay"] := ON,
    ["autonomous_discovery", "enabled"] := ON,
    ["oracle", "enabled"] := ON]

  const CI_EVAL: map<Path, Value> := map[
    ["coordinator", "fail_open_mode"] := Str("curated"),
    ["concurrency", "max_parallel_agents"] := Num(1),
    ["validators", "active_enabled"] := OFF,
    ["validators", "allow_mutating_replay"] := OFF,
    ["autonomous_discovery", "enabled"] := OFF,
    ["oracle", "enabled"] := OFF,
    ["reporting", "quarantine_unverified_leads"] := ON]

  const PROFILES := {"passive-only", "laptop", "workstation", "deep-assessment", "ci-eval"}

  function Preset(name: string): map<Path, Value> {
    if name == "passive-only" then PASSIVE_ONLY
    else if name == "laptop" then LAPTOP
    else if name == "workstation" then WORKSTATION
    else if name == "deep-assessment" then DEEP_ASSESSMENT
    else CI_EVAL
  }

  predicate SafetyAuthoritative(name: string) { name == "passive-only" }

  /** What a profile forces off, whatever the operator set. */
  function ForcedOff(name: string): set<Path> { if SafetyAuthoritative(name) then PASSIVE_FORCE_OFF else {} }

  const NESTED := {"experiments", "recrawl", "retry_rounds", "server_errors"}

  /** The shape of every knob: section and name, with one more level under four of the
      engagement's names. */
  predicate IsKnob(p: Path) {
    if |p| == 3 then p[0] == "engagement" && p[1] in NESTED
    else |p| == 2 && !(p[0] == "engagement" && p[1] in NESTED)
  }

  lemma RelatedShare(p: Path, q: Path)
    requires Related(p, q) && |p| >= 2 && |q| >= 2
    ensures p[0] == q[0] && p[1] == q[1] && (|p| == |q| ==> p == q)
  {}

  lemma KnobsUnrelated(p: Path, q: Path)
    requires IsKnob(p) && IsKnob(q) && p != q
    ensures !Related(p, q)
  {
    if Related(p, q) { RelatedShare(p, q); }
  }

  lemma PresetsHoldKnobs(name: string)
    ensures forall p :: p in Preset(name) ==> IsKnob(p)
  {
    hide PASSIVE_FORCE_OFF, KNOB_DEFAULTS;
  }

  lemma ForcedAreKnobs()
    ensures forall p :: p in PASSIVE_FORCE_OFF ==> IsKnob(p)
  {
    hide Preset, KNOB_DEFAULTS;
  }

  /** The one safety-authoritative preset agrees with the forced values: its switches are exactly those
      it shares with them, and all are off. */
  lemma PassivePresetIsOff(p: Path)
    requires p in PASSIVE_ONLY
    ensures PASSIVE_ONLY[p] == OFF <==> p in PASSIVE_FORCE_OFF
  {
    assert p in PASSIVE_FORCE_OFF ==> p[0] != "concurrency" && p[1] != "fail_open_mode";
  }

  /** Everything the passive profile forces off, section by section. */
  lemma ForcedOffMeans(p: Path)
    ensures p in PASSIVE_FORCE_OFF <==>
              || p == ["privacy", "external_lookups"] || p == ["engagement", "experiments", "planner"]
              || p == ["engagement", "server_errors", "max_lead_confirmations"]
              || (|p| == 2 && p[0] == "validators" && p[1] in {"active_enabled", "allow_mutating_replay"})
              || (|p| == 2 && p[0] == "coordinator" && p[1] in {"cloud_primary", "cloud_reasoning"})
              || (|p| == 2 && p[1] == "enabled"
                  && p[0] in {"autonomous_discovery", "oracle", "business_context", "driver_capture",
                              "iterative_agent"})
              || (|p| == 2 && p[0] == "engagement"
                  && p[1] in {"auto_escalate", "driver_execute", "feature_crawl", "coverage_drive_legs",
                              "discovery_ffuf", "crawl_per_principal"})
              || (|p| == 3 && p[0] == "engagement" && p[1] in {"experiments", "recrawl", "retry_rounds"}
                  && p[2] == "enabled")
  {
    hide KNOB_DEFAULTS, Preset;
    assert |p| == 2 ==> p == [p[0], p[1]];
    assert |p| == 3 ==> p == [p[0], p[1], p[2]];
  }

  /** Every knob a preset sets has a shipped baseline, so that what the operator changed can be told; a
      baseline switch is off. */
  lemma PresetsHaveBaselines(name: string, p: Path)
    ensures p in Preset(name) ==> p in KNOB_DEFAULTS
    ensures p in KNOB_DEFAULTS && KNOB_DEFAULTS[p].Flag? ==> !KNOB_DEFAULTS[p].on
    ensures p in KNOB_DEFAULTS && p[1] == "model" ==> KNOB_DEFAULTS[p] == Word("qwen3:8b")
    ensures p in KNOB_DEFAULTS && p[0] == "concurrency" ==>
              KNOB_DEFAULTS[p] == Number(if p[1] == "max_parallel_agents" then 1
                                         else if p[1] == "max_concurrent_validations" then 6 else 3)
    ensures p in KNOB_DEFAULTS && p[1] == "fail_open_mode" ==> KNOB_DEFAULTS[p] == Word("all")
  {
    hide PASSIVE_FORCE_OFF;
  }

  /** How much the presets let run: the two big ones use three agents; three of them set the batch and
      validation counts. */
  lemma PresetsSize(name: string)
    requires name in {"passive-only", "laptop", "workstation", "deep-assessment", "ci-eval"}
    ensures var preset := Preset(name);
            var agents, validations := ["concurrency", "max_parallel_agents"],
                                       ["concurrency", "max_concurrent_validations"];
            var batch, mode := ["concurrency", "early_termination_batch_size"], ["coordinator", "fail_open_mode"];
            && agents in preset && preset[agents] == Num(if name in {"workstation", "deep-assessment"} then 3 else 1)
            && mode in preset && preset[mode] == Str(if name in {"laptop", "ci-eval"} then "curated" else "all")
            && (batch in preset <==> name in {"laptop", "workstation", "deep-assessment"})
            && (batch in preset ==>
                  preset[batch] == Num(if name == "laptop" then 2 else if name == "workstation" then 3 else 5))
            && (validations in preset <==> batch in preset)
            && (validations in preset ==> preset[validations] == Num(if name == "laptop" then 3 else 6))
            && (["agent_defaults", "model"] in preset <==> name == "laptop")
            && (name == "laptop" ==> preset[["agent_defaults", "model"]] == Str("qwen3:8b"))
            && (["reporting", "quarantine_unverified_leads"] in preset <==> name == "ci-eval")
            && (name == "ci-eval" ==> preset[["reporting", "quarantine_unverified_leads"]] == Leaf(Flag(true)))
  {
    hide KNOB_DEFAULTS, PASSIVE_FORCE_OFF;
  }

  /** Which shipped presets turn which switches on: active validation the two big ones, mutating replay,
      autonomous discovery and the oracle the deepest alone. */
  lemma PresetsTurnOn(name: string, p: Path)
    requires name in {"passive-only", "laptop", "workstation", "deep-assessment", "ci-eval"}
    ensures ["validators", "active_enabled"] in Preset(name)
            && Preset(name)[["validators", "active_enabled"]]
               == Leaf(Flag(name in {"workstation", "deep-assessment"}))
    ensures p in {["validators", "allow_mutating_replay"], ["autonomous_discovery", "enabled"], ["oracle", "enabled"]}
            ==> p in Preset(name) && Preset(name)[p] == Leaf(Flag(name == "deep-assessment"))
  {}

  // ------------------------------------------------------------------
  // Resolution
  // ------------------------------------------------------------------

  /** The operator set this knob: on record when provenance is known, otherwise when its value
      differs from the shipped baseline. */
  predicate IsExplicit(config: Value, p: Path, explicit: Option<set<Path>>) {
    if explicit.Some? then p in explicit.value
    else
      var current := Get(config, p);
      current.Some? && p in KNOB_DEFAULTS && !Equals(current.value, KNOB_DEFAULTS[p])
  }

  /** Without provenance a switch written as 0 counts as left off, and one written as 1 as set, just as
      `false` and `true` do. */
  lemma {:induction false} NumbersAreSwitches(config: Value, p: Path, on: bool)
    requires p in KNOB_DEFAULTS && KNOB_DEFAULTS[p].Flag?
    requires Get(config, p) in {Some(Leaf(Flag(on))), Some(Leaf(Number(if on then 1 else 0)))}
    ensures IsExplicit(config, p, None) <==> on != KNOB_DEFAULTS[p].on
  {
    hide KNOB_DEFAULTS, Get;
  }

  /** Who set a knob: with provenance the record says; without it, what differs from the baseline is the
      operator's, so absent knobs and those without a baseline are not. */
  lemma {:induction false} ExplicitMeans(config: Value, p: Path, explicit: Option<set<Path>>)
    ensures explicit.Some? ==> (IsExplicit(config, p, explicit) <==> p in explicit.value)
    ensures explicit.None? && (p !in KNOB_DEFAULTS || Get(config, p) == None) ==> !IsExplicit(config, p, explicit)
    ensures explicit.None? && p in KNOB_DEFAULTS && Get(config, p).Some? ==>
              match Get(config, p).value
              case Dict(_) => IsExplicit(config, p, explicit)
              case Leaf(current) => IsExplicit(config, p, explicit) <==> !SameScalar(current, KNOB_DEFAULTS[p])
  {
    hide KNOB_DEFAULTS, Get;
  }

  /** The same scalar, or the same number in another form. */
  ghost predicate SameScalar(a: Scalar, b: Scalar) {
    match (a, b)
    case (Flag(x), Number(n)) => n == if x then 1 else 0
    case (Number(n), Flag(x)) => n == if x then 1 else 0
    case (Number(n), Decimal(x)) => n as real == x
    case (Decimal(x), Number(n)) => n as real == x
    case (Flag(x), Decimal(y)) => y == if x then 1.0 else 0.0
    case (Decimal(y), Flag(x)) => y == if x then 1.0 else 0.0
    case _ => a == b
  }

  datatype Resolution = Resolved(config: Value) | UnknownProfile | NotADictionary

  const NO_PROFILE := {"", "none", "unset", "null", "default"}

  function ProfileName(name: Option<string>): string {
    Text.Lower(Text.Strip(if name.None? || name.value == "" then "none" else name.value))
  }

  /** No name is the name "none"; others count without padding and case. */
  lemma ProfileNames(before: string, name: string, after: string)
    requires Text.Blank(before) && Text.Blank(after)
    requires name != "" && !Text.IsSpace(name[0]) && !Text.IsSpace(name[|name| - 1])
    ensures ProfileName(None) == ProfileName(Some("")) == "none"
    ensures ProfileName(Some(before + name + after)) == Text.Lower(name)
  {
    Text.StripPadded(before, name, after);
    Text.StripPadded("", "none", "");
    assert "" + "none" + "" == "none";
  }

  /** What a resolution sets: preset knobs the operator did not set, and everything forced off. */
  predicate Touched(config: Value, preset: map<Path, Value>, off: set<Path>, explicit: Option<set<Path>>, p: Path) {
    (p in preset && !IsExplicit(config, p, explicit)) || p in off
  }

  /** `v` is `config` with these paths set: each reads its value, unrelated paths are as before,
      and whatever could be set still can. */
  ghost predicate SetSoFar(config: Value, v: Value, done: map<Path, Value>) {
    && (forall p :: p in done ==> IsKnob(p) && Get(v, p) == Some(done[p]))
    && (forall q :: (forall p :: p in done ==> !Related(p, q)) ==> Get(v, q) == Get(config, q))
    && (forall q :: IsKnob(q) ==> (Settable(v, q) <==> Settable(config, q)))
  }

  lemma {:induction false} SetOneMore(config: Value, v: Value, done: map<Path, Value>, p: Path, x: Value)
    requires SetSoFar(config, v, done) && IsKnob(p) && Set(v, p, x).Some?
    ensures SetSoFar(config, Set(v, p, x).value, done[p := x])
  {
    hide Get, Set, Settable, Related;
    var after := Set(v, p, x).value;
    GetOfSet(v, p, x);
    forall q | q in done && q != p ensures Get(after, q) == Some(done[q]) {
      KnobsUnrelated(p, q);
      SetKeepsUnrelated(v, p, x, q);
    }
    forall q | forall r :: r in done[p := x] ==> !Related(r, q) ensures Get(after, q) == Get(config, q) {
      assert p in done[p := x] && forall r :: r in done ==> r in done[p := x];
      SetKeepsUnrelated(v, p, x, q);
    }
    forall q | IsKnob(q) ensures Settable(after, q) <==> Settable(config, q) {
      if q != p { KnobsUnrelated(p, q); }
      SetKeepsSettable(v, p, x, q);
    }
  }

  method ApplyPreset(config: Value, preset: map<Path, Value>, explicit: Option<set<Path>>)
    returns (r: Option<Value>, ghost done: map<Path, Value>)
    requires forall p :: p in preset ==> IsKnob(p)
    ensures r.Some? <==> forall p :: p in preset && !IsExplicit(config, p, explicit) ==> Settable(config, p)
    ensures r.Some? ==>
              && SetSoFar(config, r.value, done)
              && (forall p :: p in done <==> p in preset && !IsExplicit(config, p, explicit))
              && (forall p :: p in done ==> done[p] == preset[p])
    ensures (forall p :: p in preset && !IsExplicit(config, p, explicit) ==> Get(config, p) == Some(preset[p]))
            ==> r == Some(config)
  {
    EmptySet(config);
    hide Settable, Get, IsKnob, IsExplicit, SetSoFar, Set;
    var v := config;
    done := map[];
    var rest := preset.Keys;
    while rest != {}
      invariant rest <= preset.Keys && SetSoFar(config, v, done)
      invariant forall p :: p in done <==> p in preset && p !in rest && !IsExplicit(config, p, explicit)
      invariant forall p :: p in done ==> done[p] == preset[p] && Settable(config, p)
      invariant (forall p :: p in preset && !IsExplicit(config, p, explicit) ==> Get(config, p) == Some(preset[p]))
                ==> v == config
      decreases |rest|
    {
      var p :| p in rest;
      if !IsExplicit(config, p, explicit) {
        KnobNotEmpty(p);
        SetSucceedsIff(v, p, preset[p]);
        if Get(v, p) == Some(preset[p]) { SetWhatIsThere(v, p, preset[p]); }
        SameSettable(config, v, done, p);
        var next := Set(v, p, preset[p]);
        if next.None? {
          return None, done;
        }
        SetOneMore(config, v, done, p, preset[p]);
        v, done := next.value, done[p := preset[p]];
      }
      rest := rest - {p};
    }
    return Some(v), done;
  }

  lemma EmptySet(config: Value)
    ensures SetSoFar(config, config, map[])
  {}

  lemma SameSettable(config: Value, v: Value, done: map<Path, Value>, p: Path)
    requires SetSoFar(config, v, done) && IsKnob(p)
    ensures Settable(v, p) <==> Settable(config, p)
  {}

  lemma {:induction false} DoneReads(config: Value, v: Value, done: map<Path, Value>, p: Path)
    requires SetSoFar(config, v, done) && p in done
    ensures Get(v, p) == Some(done[p])
  {}

  lemma KnobNotEmpty(p: Path)
    requires IsKnob(p)
    ensures p != []
  {}

  method ForceOff(config: Value, start: Value, knobs: set<Path>, ghost before: map<Path, Value>)
    returns (r: Option<Value>, ghost done: map<Path, Value>)
    requires SetSoFar(config, start, before) && forall p :: p in knobs ==> IsKnob(p)
    ensures r.Some? <==> forall p :: p in knobs ==> Settable(config, p)
    ensures r.Some? ==>
              && SetSoFar(config, r.value, done)
              && (forall p :: p in done <==> p in before || p in knobs)
              && (forall p :: p in done ==> done[p] == if p in knobs then OFF else before[p])
    ensures (forall p :: p in knobs ==> Get(start, p) == Some(OFF)) ==> r == Some(start)
  {
    hide Settable, Get, IsKnob, SetSoFar, Set;
    var v := start;
    done := before;
    var rest := knobs;
    while rest != {}
      invariant rest <= knobs && SetSoFar(config, v, done)
      invariant forall p :: p in done <==> p in before || (p in knobs && p !in rest)
      invariant forall p :: p in done ==> done[p] == if p in knobs && p !in rest then OFF else before[p]
      invariant forall p :: p in knobs && p !in rest ==> Settable(config, p)
      invariant (forall p :: p in knobs ==> Get(start, p) == Some(OFF)) ==> v == start
      decreases |rest|
    {
      var p :| p in rest;
      KnobNotEmpty(p);
      SetSucceedsIff(v, p, OFF);
      if Get(v, p) == Some(OFF) { SetWhatIsThere(v, p, OFF); }
      SameSettable(config, v, done, p);
      var next := Set(v, p, OFF);
      if next.None? {
        return None, done;
      }
      SetOneMore(config, v, done, p, OFF);
      v, done := next.value, done[p := OFF];
      rest := rest - {p};
    }
    return Some(v), done;
  }

  /** What a resolution delivers, for any preset and any knobs forced off. */
  ghost predicate Delivers(
      config: Value, preset: map<Path, Value>, off: set<Path>, explicit: Option<set<Path>>, r: Value) {
    && (forall p :: p in off ==> Get(r, p) == Some(OFF))
    && (forall p :: p in preset && p !in off ==>
          Get(r, p) == if IsExplicit(config, p, explicit) then Get(config, p) else Some(preset[p]))
    && (forall q :: (forall p :: Touched(config, preset, off, explicit, p) ==> !Related(p, q)) ==>
          Get(r, q) == Get(config, q))
  }

  function Wanted(preset: map<Path, Value>, off: set<Path>, p: Path): Option<Value> {
    if p in off then Some(OFF) else if p in preset then Some(preset[p]) else None
  }

  lemma SettingDelivers(
      config: Value, preset: map<Path, Value>, off: set<Path>, explicit: Option<set<Path>>, v: Value,
      done: map<Path, Value>)
    requires SetSoFar(config, v, done) && forall p :: p in preset ==> IsKnob(p)
    requires forall p :: p in done <==> Touched(config, preset, off, explicit, p)
    requires forall p :: p in done ==> Some(done[p]) == Wanted(preset, off, p)
    ensures Delivers(config, preset, off, explicit, v)
  {
    hide IsKnob, Get, Settable, IsExplicit;
    forall p | p in off ensures Get(v, p) == Some(OFF) { assert p in done; }
    forall p | p in preset && p !in off
      ensures Get(v, p) == if IsExplicit(config, p, explicit) then Get(config, p) else Some(preset[p])
    {
      if IsExplicit(config, p, explicit) {
        forall q | q in done ensures !Related(q, p) { KnobsUnrelated(q, p); }
      } else {
        assert p in done;
      }
    }
  }

  /** Every touched knob already reads what it would be set to. */
  ghost predicate AlreadySet(config: Value, preset: map<Path, Value>, off: set<Path>, explicit: Option<set<Path>>) {
    forall p :: Touched(config, preset, off, explicit, p) ==> Get(config, p) == Wanted(preset, off, p)
  }

  lemma {:induction false} AlreadyPreset(
      config: Value, preset: map<Path, Value>, off: set<Path>, explicit: Option<set<Path>>)
    requires AlreadySet(config, preset, off, explicit)
    requires forall p :: p in preset && p in off ==> preset[p] == OFF
    ensures forall p :: p in preset && !IsExplicit(config, p, explicit) ==> Get(config, p) == Some(preset[p])
    ensures forall p :: p in off ==> Get(config, p) == Some(OFF)
  {
    hide Get, IsExplicit;
    forall p | p in preset && !IsExplicit(config, p, explicit) ensures Get(config, p) == Some(preset[p]) {
      assert Touched(config, preset, off, explicit, p);
    }
    forall p | p in off ensures Get(config, p) == Some(OFF) {
      assert Touched(config, preset, off, explicit, p);
    }
  }

  /** No preset of a safety-authoritative profile disagrees with what it forces. */
  lemma PresetsAgree(name: string)
    ensures forall p :: p in Preset(name) && p in ForcedOff(name) ==> Preset(name)[p] == OFF
  {
    if SafetyAuthoritative(name) {
      forall p | p in PASSIVE_ONLY && p in PASSIVE_FORCE_OFF ensures PASSIVE_ONLY[p] == OFF { PassivePresetIsOff(p); }
    }
  }

  /** A delivered configuration already reads everything a second resolution would set. */
  lemma DeliveredIsSet(
      config: Value, preset: map<Path, Value>, off: set<Path>, explicit: Option<set<Path>>, r: Value)
    requires Delivers(config, preset, off, explicit, r)
    ensures AlreadySet(r, preset, off, explicit)
  {
    hide Get;
    forall p | Touched(r, preset, off, explicit, p) ensures Get(r, p) == Wanted(preset, off, p) {
      if p !in off {
        assert p in preset;
        assert !IsExplicit(config, p, explicit);
      }
    }
  }

  /** Resolving a resolved configuration changes nothing. */
  method ResolveTwice(config: Value, profile: Option<string>, explicit: Option<set<Path>>)
    returns (once: Resolution, twice: Resolution)
    ensures once.Resolved? ==> twice == once
  {
    once := Resolve(config, profile, explicit);
    twice := once;
    if once.Resolved? {
      hide ProfileName, Delivers, AlreadySet, Touched, Settable;
      var name := ProfileName(profile);
      if name !in NO_PROFILE {
        DeliveredIsSet(config, Preset(name), ForcedOff(name), explicit, once.config);
      }
      twice := Resolve(once.config, profile, explicit);
    }
  }

  /** Resolution succeeds exactly when nothing above a touched knob is a non-dictionary, and then
      forces, presets, keeps explicit values, and leaves every unrelated path alone. */
  method Resolve(config: Value, profile: Option<string>, explicit: Option<set<Path>>) returns (r: Resolution)
    ensures var name := ProfileName(profile);
            if name in {"", "none", "unset", "null", "default"} then r == Resolved(config)
            else if name !in {"passive-only", "laptop", "workstation", "deep-assessment", "ci-eval"} then
              r == UnknownProfile
            else if forall p :: Touched(config, Preset(name), ForcedOff(name), explicit, p) ==> Settable(config, p)
            then r.Resolved? && Delivers(config, Preset(name), ForcedOff(name), explicit, r.config)
            else r == NotADictionary
    ensures ProfileName(profile) == "passive-only" && r.Resolved? ==>
              forall p :: p in PASSIVE_FORCE_OFF ==> Get(r.config, p) == Some(Leaf(Flag(false)))
    ensures var name := ProfileName(profile);
            name in PROFILES && AlreadySet(config, Preset(name), ForcedOff(name), explicit) ==> r == Resolved(config)
  {
    hide Settable, Get, IsKnob, IsExplicit, Preset, ProfileName, SetSoFar, Delivers;
    var name := ProfileName(profile);
    if name in NO_PROFILE {
      return Resolved(config);
    }
    if name !in PROFILES {
      return UnknownProfile;
    }
    PresetsHoldKnobs(name);
    ForcedAreKnobs();
    PresetsAgree(name);
    if AlreadySet(config, Preset(name), ForcedOff(name), explicit) {
      AlreadyPreset(config, Preset(name), ForcedOff(name), explicit);
    }
    var applied, done := ApplyPreset(config, Preset(name), explicit);
    if applied.None? {
      return NotADictionary;
    }
    if !SafetyAuthoritative(name) {
      SettingDelivers(config, Preset(name), ForcedOff(name), explicit, applied.value, done);
      return Resolved(applied.value);
    }
    var forced, all := ForceOff(config, applied.value, PASSIVE_FORCE_OFF, done);
    if forced.None? {
      return NotADictionary;
    }
    SettingDelivers(config, Preset(name), ForcedOff(name), explicit, forced.value, all);
    forall p | p in PASSIVE_FORCE_OFF ensures Get(forced.value, p) == Some(Leaf(Flag(false))) {
      DoneReads(config, forced.value, all, p);
    }
    return Resolved(forced.value);
  }
}
