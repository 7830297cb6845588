/** Issue accounting: confirmed findings are resolved to stored proofs, proofs are grouped without
    crossing a boundary, and the export satisfies the separate check of its proof links. */
module Accounting {
  import opened Options

  /** An identifier, numbered in the order of the strings it stands for; 0 is a missing one. */
  type Id = nat

  datatype Case = Case(
    caseId: Id, runId: Option<string>, checkId: string,
    principal: string, paramLocation: string, paramName: string, workflow: string)

  datatype Proof = Proof(
    id: Id, case_: Case, validator: string, version: string, verdict: string, executed: bool, legacy: bool,
    baseline: Id, attack: Id, controls: seq<Id>, createdAt: int, policy: string)

  datatype Finding = Finding(
    caseId: Id, proofId: Id, confirmed: bool, cls: string, origin: string, path: string,
    rootCause: Id, fingerprint: string)

  datatype Reason = MissingPointer | NotFound | OtherRun | OtherCase | NotConfirmed

  datatype Excluded = Excluded(caseId: Id, proofId: Id, reason: Reason)

  const ORPHAN_REASONS := {NotFound, OtherRun, OtherCase}

  datatype Kind = Vulnerability | Hardening | Reconnaissance | Candidate

  /** The root of a group: a name (a root cause or a case), a site observation, or a mechanism. */
  datatype Root =
    | Named(id: Id)
    | Site(origin: string, validator: string, cls: string)
    | Mechanism(validator: string, version: string, policy: string)

  datatype Boundary = Boundary(principal: string, paramLocation: string, paramName: string, workflow: string)

  datatype GroupKey = GroupKey(
    kind: Kind, cls: string, validator: string, origin: string, root: Root, boundary: Boundary)

  datatype Group = Group(proofIds: seq<Id>, caseIds: set<Id>, routes: set<string>)

  datatype Instance = Instance(
    proofId: Id, kind: Kind, resolved: bool, referenced: bool, policy: string, reuses: Option<Id>)

  datatype Orphan = Orphan(entry: Excluded, repair: string)

  datatype Block = Block(
    instances: seq<Instance>, groups: map<GroupKey, Group>, excluded: seq<Excluded>,
    orphans: seq<Orphan>, orphanCount: nat)

  /** The proofs stored for a case, whether a proof's artifacts resolve, and lower-casing. */
  datatype Store = Store(lookup: Id -> seq<Proof>, resolves: Proof -> bool, lower: string -> string)

  const HARDENING_VALIDATORS := {
    "csp_validator", "crypto_validator", "verbose_error_validator", "security_headers_validator",
    "error_handling_validator"}
  const ROUTE_INDEPENDENT := {"jwt_forge"}

  // ------------------------------------------------------------------
  // Resolving the pointers of confirmed findings
  // ------------------------------------------------------------------

  function FirstWithId(proofs: seq<Proof>, id: Id): Option<Proof> {
    if proofs == [] then None else if proofs[0].id == id then Some(proofs[0]) else FirstWithId(proofs[1..], id)
  }

  /** Why a confirmed finding's pointer does not stand, or nothing. */
  function Refusal(f: Finding, run: string, lookup: Id -> seq<Proof>): Option<Reason> {
    if f.caseId == 0 || f.proofId == 0 then Some(MissingPointer)
    else
      var proof := FirstWithId(lookup(f.caseId), f.proofId);
      if proof.None? then Some(NotFound)
      else if proof.value.case_.runId != Some(run) then Some(OtherRun)
      else if proof.value.case_.caseId != f.caseId then Some(OtherCase)
      else if proof.value.verdict != "confirmed" then Some(NotConfirmed)
      else None
  }

  function ById(proofs: seq<Proof>): map<Id, Proof> {
    if proofs == [] then map[]
    else
      var before, p := ById(proofs[..|proofs| - 1]), proofs[|proofs| - 1];
      if p.id == 0 then before else before[p.id := p]
  }

  /** The reports on the confirmed findings that were refused, in order. */
  function Refused(findings: seq<Finding>, run: string, lookup: Id -> seq<Proof>): seq<Excluded> {
    if findings == [] then []
    else
      var front, f := findings[..|findings| - 1], findings[|findings| - 1];
      var r := if f.confirmed then Refusal(f, run, lookup) else None;
      Refused(front, run, lookup) + if r.Some? then [Excluded(f.caseId, f.proofId, r.value)] else []
  }

  predicate Accepted(f: Finding, run: string, lookup: Id -> seq<Proof>) {
    f.confirmed && Refusal(f, run, lookup).None?
  }

  /** The first accepted finding of each proof. */
  function ReferencedBy(findings: seq<Finding>, run: string, lookup: Id -> seq<Proof>): map<Id, Finding> {
    if findings == [] then map[]
    else
      var before, f := ReferencedBy(findings[..|findings| - 1], run, lookup), findings[|findings| - 1];
      if Accepted(f, run, lookup) && f.proofId !in before then before[f.proofId := f] else before
  }

  /** The case of a confirmed finding with both pointers is looked up, once. */
  predicate LooksUp(f: Finding) { f.confirmed && f.caseId != 0 && f.proofId != 0 }

  function LookedUp(findings: seq<Finding>): set<Id> { set f | f in findings && LooksUp(f) :: f.caseId }

  /** All proofs known after the findings were resolved: later records win. */
  function Known(findings: seq<Finding>, runProofs: seq<Proof>, lookup: Id -> seq<Proof>): map<Id, Proof> {
    if findings == [] then ById(runProofs)
    else
      var front, f := findings[..|findings| - 1], findings[|findings| - 1];
      var before := Known(front, runProofs, lookup);
      if LooksUp(f) && f.caseId !in LookedUp(front) then before + ById(lookup(f.caseId)) else before
  }

  function Policies(findings: seq<Finding>): map<Id, string> {
    if findings == [] then map[]
    else
      var before, f := Policies(findings[..|findings| - 1]), findings[|findings| - 1];
      if f.proofId != 0 && f.fingerprint != "" && f.proofId !in before then before[f.proofId := f.fingerprint]
      else before
  }

  method Resolve(findings: seq<Finding>, run: string, runProofs: seq<Proof>, store: Store)
    returns (proofs: map<Id, Proof>, referenced: map<Id, Finding>, excluded: seq<Excluded>)
    ensures proofs == Known(findings, runProofs, store.lookup)
    ensures referenced == ReferencedBy(findings, run, store.lookup)
    ensures excluded == Refused(findings, run, store.lookup)
  {
    hide Known, ReferencedBy, Refused, LookedUp, ById, FirstWithId;
    ResolveStart(run, runProofs, store.lookup);
    proofs := ById(runProofs);
    referenced, excluded := map[], [];
    assert findings[..0] == [];
    var cache: map<Id, seq<Proof>> := map[];
    for i := 0 to |findings|
      invariant proofs == Known(findings[..i], runProofs, store.lookup)
      invariant referenced == ReferencedBy(findings[..i], run, store.lookup)
      invariant excluded == Refused(findings[..i], run, store.lookup)
      invariant cache.Keys == LookedUp(findings[..i])
      invariant forall c :: c in cache ==> cache[c] == store.lookup(c)
    {
      var f := findings[i];
      assert findings[..i + 1] == findings[..i] + [f];
      ResolveStep(findings[..i], f, run, runProofs, store.lookup);
      if !f.confirmed {
        continue;
      }
      if f.caseId == 0 || f.proofId == 0 {
        excluded := excluded + [Excluded(f.caseId, f.proofId, MissingPointer)];
        continue;
      }
      if f.caseId !in cache {
        cache := cache[f.caseId := store.lookup(f.caseId)];
        proofs := proofs + ById(cache[f.caseId]);
      }
      var proof := FirstWithId(cache[f.caseId], f.proofId);
      var reason: Reason;
      if proof.None? {
        reason := NotFound;
      } else if proof.value.case_.runId != Some(run) {
        reason := OtherRun;
      } else if proof.value.case_.caseId != f.caseId {
        reason := OtherCase;
      } else if proof.value.verdict != "confirmed" {
        reason := NotConfirmed;
      } else {
        if f.proofId !in referenced {
          referenced := referenced[f.proofId := f];
        }
        continue;
      }
      excluded := excluded + [Excluded(f.caseId, f.proofId, reason)];
    }
    assert findings[..|findings|] == findings;
  }

  lemma {:induction false} ResolveStart(run: string, runProofs: seq<Proof>, lookup: Id -> seq<Proof>)
    ensures Known([], runProofs, lookup) == ById(runProofs)
    ensures ReferencedBy([], run, lookup) == map[] && Refused([], run, lookup) == [] && LookedUp([]) == {}
  {}

  lemma {:induction false} ResolveStep(
      front: seq<Finding>, f: Finding, run: string, runProofs: seq<Proof>, lookup: Id -> seq<Proof>)
    ensures LookedUp(front + [f]) == LookedUp(front) + if LooksUp(f) then {f.caseId} else {}
    ensures Known(front + [f], runProofs, lookup)
         == if LooksUp(f) && f.caseId !in LookedUp(front)
            then Known(front, runProofs, lookup) + ById(lookup(f.caseId)) else Known(front, runProofs, lookup)
    ensures ReferencedBy(front + [f], run, lookup)
         == if Accepted(f, run, lookup) && f.proofId !in ReferencedBy(front, run, lookup)
            then ReferencedBy(front, run, lookup)[f.proofId := f] else ReferencedBy(front, run, lookup)
    ensures Refused(front + [f], run, lookup)
         == Refused(front, run, lookup)
            + if f.confirmed && Refusal(f, run, lookup).Some?
              then [Excluded(f.caseId, f.proofId, Refusal(f, run, lookup).value)] else []
  {
    var all := front + [f];
    assert all[..|all| - 1] == front && all[|all| - 1] == f;
    assert forall x :: x in all <==> x in front || x == f;
  }

  // ------------------------------------------------------------------
  // First attempts
  // ------------------------------------------------------------------

  predicate InRun(p: Proof, run: string) { p.case_.runId == Some(run) }

  predicate IsAttempt(p: Proof, run: string) { InRun(p, run) && p.executed && p.attack != 0 }

  function Artifacts(p: Proof): (Id, Id) { (p.attack, p.baseline) }

  predicate Earlier(p: Proof, q: Proof) { p.createdAt < q.createdAt || (p.createdAt == q.createdAt && p.id <= q.id) }

  ghost predicate WellKeyed(proofs: map<Id, Proof>) { forall i :: i in proofs ==> i != 0 && proofs[i].id == i }

  /** Each pair of artifacts leads to the earliest attempt of the run that carries it. */
  ghost predicate FirstAttempts(first: map<(Id, Id), Id>, proofs: map<Id, Proof>, run: string, among: set<Id>) {
    && (forall a :: a in first ==>
          && first[a] in among && first[a] in proofs && IsAttempt(proofs[first[a]], run)
          && Artifacts(proofs[first[a]]) == a)
    && (forall i :: i in among && i in proofs && IsAttempt(proofs[i], run) ==>
          Artifacts(proofs[i]) in first && Earlier(proofs[first[Artifacts(proofs[i])]], proofs[i]))
  }

  lemma Earliest(proofs: map<Id, Proof>, rest: set<Id>) returns (k: Id)
    requires WellKeyed(proofs) && rest <= proofs.Keys && rest != {}
    ensures k in rest && forall j :: j in rest ==> Earlier(proofs[k], proofs[j])
    decreases |rest|
  {
    k :| k in rest;
    if rest != {k} {
      var other := Earliest(proofs, rest - {k});
      if !Earlier(proofs[k], proofs[other]) { k := other; }
    }
  }

  method FindAttempts(proofs: map<Id, Proof>, run: string) returns (first: map<(Id, Id), Id>)
    requires WellKeyed(proofs)
    ensures FirstAttempts(first, proofs, run, proofs.Keys)
  {
    first := map[];
    var rest := proofs.Keys;
    while rest != {}
      invariant rest <= proofs.Keys
      invariant FirstAttempts(first, proofs, run, proofs.Keys - rest)
      invariant forall i, j :: i in proofs && i !in rest && j in rest ==> Earlier(proofs[i], proofs[j])
      decreases |rest|
    {
      ghost var least := Earliest(proofs, rest);
      var i :| i in rest && forall j :: j in rest ==> Earlier(proofs[i], proofs[j]);
      var p := proofs[i];
      if IsAttempt(p, run) && Artifacts(p) !in first {
        first := first[Artifacts(p) := i];
      }
      rest := rest - {i};
    }
  }

  // ------------------------------------------------------------------
  // Instances and groups
  // ------------------------------------------------------------------

  function Claimed(validator: string): Kind {
    if validator in HARDENING_VALIDATORS then Hardening
    else if validator == "recon_validator" then Reconnaissance else Vulnerability
  }

  function Refs(p: Proof): seq<Id> { [p.baseline, p.attack] + p.controls }

  predicate Structured(p: Proof) {
    p.executed && !p.legacy && |set r | r in Refs(p)| >= 3 && 0 !in Refs(p)
  }

  function KindOf(p: Proof, store: Store): Kind {
    if Claimed(p.validator) != Vulnerability || (Structured(p) && store.resolves(p)) then Claimed(p.validator)
    else Candidate
  }

  function PolicyOf(p: Proof, policies: map<Id, string>): string {
    if p.policy != "" then p.policy else if p.id in policies then policies[p.id] else ""
  }

  function ClassOf(p: Proof, f: Option<Finding>, store: Store): string {
    store.lower(if f.Some? && f.value.cls != "" then f.value.cls
                else if p.case_.checkId != "" then p.case_.checkId else p.validator)
  }

  function BoundaryOf(c: Case): Boundary { Boundary(c.principal, c.paramLocation, c.paramName, c.workflow) }

  function RootOf(p: Proof, f: Finding, cls: string, policy: string): Root {
    if Claimed(p.validator) != Vulnerability then Site(f.origin, p.validator, cls)
    else if f.rootCause != 0 then Named(f.rootCause)
    else if p.validator in ROUTE_INDEPENDENT && policy != "" then Mechanism(p.validator, p.version, policy)
    else Named(p.case_.caseId)
  }

  function KeyOf(p: Proof, f: Finding, policies: map<Id, string>, store: Store): GroupKey {
    var cls := ClassOf(p, Some(f), store);
    GroupKey(
      KindOf(p, store), cls, p.validator, f.origin, RootOf(p, f, cls, PolicyOf(p, policies)), BoundaryOf(p.case_))
  }

  /** Everything the grouping loop reads. */
  datatype Context = Context(
    run: string, proofs: map<Id, Proof>, referenced: map<Id, Finding>, policies: map<Id, string>,
    first: map<(Id, Id), Id>)

  function Reuses(c: Context, p: Proof): Option<Id> {
    if Artifacts(p) in c.first && c.first[Artifacts(p)] != p.id then Some(c.first[Artifacts(p)]) else None
  }

  function InstanceOf(c: Context, p: Proof, store: Store): Instance {
    Instance(p.id, KindOf(p, store), Structured(p) && store.resolves(p), p.id in c.referenced,
             PolicyOf(p, c.policies), Reuses(c, p))
  }

  /** The group a proof belongs to, if it is of this run and referenced. */
  function EntryOf(c: Context, i: Id, store: Store): Option<GroupKey>
    requires i in c.proofs
  {
    if InRun(c.proofs[i], c.run) && i in c.referenced
    then Some(KeyOf(c.proofs[i], c.referenced[i], c.policies, store)) else None
  }

  function Joined(g: Group, p: Proof, f: Finding): Group {
    Group(g.proofIds + [p.id], g.caseIds + {p.case_.caseId}, g.routes + {f.origin + f.path})
  }

  ghost predicate Ascending(ids: seq<Id>) { forall i, j :: 0 <= i < j < |ids| ==> ids[i] < ids[j] }

  /** The in-run proofs among `ids`. */
  ghost function RunIds(c: Context, ids: seq<Id>): seq<Id>
    requires forall i :: i in ids ==> i in c.proofs
  {
    if ids == [] then []
    else
      var front, i := ids[..|ids| - 1], ids[|ids| - 1];
      RunIds(c, front) + if InRun(c.proofs[i], c.run) then [i] else []
  }

  /** The proofs among `ids` that belong to one group. */
  ghost function MembersOf(c: Context, ids: seq<Id>, key: GroupKey, store: Store): seq<Id>
    requires forall i :: i in ids ==> i in c.proofs
  {
    if ids == [] then []
    else
      var front, i := ids[..|ids| - 1], ids[|ids| - 1];
      MembersOf(c, front, key, store) + if EntryOf(c, i, store) == Some(key) then [i] else []
  }

  ghost predicate Grouped(
      c: Context, ids: seq<Id>, instances: seq<Instance>, groups: map<GroupKey, Group>, store: Store)
    requires forall i :: i in ids ==> i in c.proofs
  {
    var run := RunIds(c, ids);
    && |instances| == |run|
    && (forall n :: 0 <= n < |run| ==> run[n] in c.proofs && instances[n] == InstanceOf(c, c.proofs[run[n]], store))
    && (forall key :: key in groups <==> MembersOf(c, ids, key, store) != [])
    && (forall key :: key in groups ==> groups[key].proofIds == MembersOf(c, ids, key, store))
  }

  ghost function CasesOf(c: Context, ids: seq<Id>): set<Id> {
    set i | i in ids && i in c.proofs :: c.proofs[i].case_.caseId
  }

  ghost function RoutesOf(c: Context, ids: seq<Id>): set<string> {
    set i | i in ids && i in c.referenced :: c.referenced[i].origin + c.referenced[i].path
  }

  /** A group lists the cases of its proofs and the routes of their findings, and no others. */
  ghost predicate IsDescribed(c: Context, g: Group) {
    g.caseIds == CasesOf(c, g.proofIds) && g.routes == RoutesOf(c, g.proofIds)
  }

  ghost predicate Described(c: Context, groups: map<GroupKey, Group>) {
    forall key :: key in groups ==> IsDescribed(c, groups[key])
  }

  lemma JoinedDescribed(c: Context, g: Group, i: Id)
    requires WellKeyed(c.proofs) && i in c.proofs && i in c.referenced && IsDescribed(c, g)
    ensures IsDescribed(c, Joined(g, c.proofs[i], c.referenced[i]))
  {
    var more := g.proofIds + [i];
    assert forall j :: j in more <==> j in g.proofIds || j == i;
    assert CasesOf(c, more) == CasesOf(c, g.proofIds) + {c.proofs[i].case_.caseId};
    assert RoutesOf(c, more) == RoutesOf(c, g.proofIds) + {c.referenced[i].origin + c.referenced[i].path};
  }

  lemma NoMembers(c: Context)
    ensures CasesOf(c, []) == {} && RoutesOf(c, []) == {}
  {}

  lemma GroupedStart(c: Context, store: Store)
    ensures Grouped(c, [], [], map[], store)
  {}

  lemma GroupedStep(
      c: Context, ids: seq<Id>, i: Id, instances: seq<Instance>, groups: map<GroupKey, Group>, store: Store)
    requires WellKeyed(c.proofs) && i in c.proofs && (forall x :: x in ids ==> x in c.proofs)
    requires Grouped(c, ids, instances, groups, store)
    ensures forall x :: x in ids + [i] ==> x in c.proofs
    ensures var p, entry := c.proofs[i], EntryOf(c, i, store);
            var instances' := if InRun(p, c.run) then instances + [InstanceOf(c, p, store)] else instances;
            var groups' := if entry.None? then groups
                           else var prior := if entry.value in groups then groups[entry.value] else Group([], {}, {});
                                groups[entry.value := Joined(prior, p, c.referenced[i])];
            Grouped(c, ids + [i], instances', groups', store)
  {
    var all := ids + [i];
    assert all[..|all| - 1] == ids && all[|all| - 1] == i;
  }

  lemma LeastId(rest: set<Id>) returns (k: Id)
    requires rest != {}
    ensures k in rest && forall j :: j in rest ==> k <= j
    decreases |rest|
  {
    k :| k in rest;
    if rest != {k} {
      var other := LeastId(rest - {k});
      assert forall j :: j in rest ==> j == k || j in rest - {k};
      if other < k { k := other; }
    }
  }

  /** `ids` are the known ids outside `rest`, in order, and all below those in `rest`. */
  ghost predicate Visited(ids: seq<Id>, known: set<Id>, rest: set<Id>) {
    && rest <= known && Ascending(ids)
    && (forall i :: i in ids <==> i in known && i !in rest)
    && forall i, j :: i in ids && j in rest ==> i < j
  }

  lemma VisitNext(ids: seq<Id>, known: set<Id>, rest: set<Id>, i: Id)
    requires Visited(ids, known, rest) && i in rest && forall j :: j in rest ==> i <= j
    ensures Visited(ids + [i], known, rest - {i})
  {
    assert forall k :: 0 <= k < |ids| ==> ids[k] in ids && ids[k] < i;
  }

  lemma DescribedMore(c: Context, groups: map<GroupKey, Group>, key: GroupKey, i: Id)
    requires Described(c, groups) && WellKeyed(c.proofs) && i in c.proofs && i in c.referenced
    ensures var group := if key in groups then groups[key] else Group([], {}, {});
            Described(c, groups[key := Joined(group, c.proofs[i], c.referenced[i])])
  {
    hide CasesOf, RoutesOf, Joined;
    NoMembers(c);
    JoinedDescribed(c, if key in groups then groups[key] else Group([], {}, {}), i);
  }

  method GroupProofs(c: Context, store: Store)
    returns (instances: seq<Instance>, groups: map<GroupKey, Group>, ghost ids: seq<Id>)
    requires WellKeyed(c.proofs)
    ensures Ascending(ids) && (forall i :: i in ids <==> i in c.proofs)
    ensures Grouped(c, ids, instances, groups, store) && Described(c, groups)
  {
    hide Grouped, Described, KeyOf, InstanceOf, Joined;
    instances, groups, ids := [], map[], [];
    GroupedStart(c, store);
    assert Described(c, groups) by { NothingDescribed(c); }
    var rest := c.proofs.Keys;
    while rest != {}
      invariant Visited(ids, c.proofs.Keys, rest)
      invariant Grouped(c, ids, instances, groups, store) && Described(c, groups)
      decreases |rest|
    {
      ghost var least := LeastId(rest);
      var i :| i in rest && forall j :: j in rest ==> i <= j;
      var p := c.proofs[i];
      GroupedStep(c, ids, i, instances, groups, store);
      VisitNext(ids, c.proofs.Keys, rest, i);
      if InRun(p, c.run) {
        instances := instances + [InstanceOf(c, p, store)];
        if i in c.referenced {
          var f := c.referenced[i];
          var key := KeyOf(p, f, c.policies, store);
          var group := if key in groups then groups[key] else Group([], {}, {});
          DescribedMore(c, groups, key, i);
          groups := groups[key := Joined(group, p, f)];
        }
      }
      rest, ids := rest - {i}, ids + [i];
    }
  }

  lemma NothingDescribed(c: Context)
    ensures Described(c, map[])
  {}

  const REPAIR := "re-link the finding to a stored proof of this case and run, or re-run its check"

  function OrphansOf(excluded: seq<Excluded>): seq<Orphan> {
    if excluded == [] then []
    else
      var e := excluded[|excluded| - 1];
      OrphansOf(excluded[..|excluded| - 1]) + if e.reason in ORPHAN_REASONS then [Orphan(e, REPAIR)] else []
  }

  method Account(findings: seq<Finding>, run: string, runProofs: seq<Proof>, store: Store)
    returns (block: Block, ghost c: Context, ghost ids: seq<Id>)
    ensures c.run == run && c.policies == Policies(findings)
    ensures c.proofs == Known(findings, runProofs, store.lookup)
    ensures c.referenced == ReferencedBy(findings, run, store.lookup)
    ensures WellKeyed(c.proofs) && FirstAttempts(c.first, c.proofs, run, c.proofs.Keys)
    ensures Ascending(ids) && (forall i :: i in ids <==> i in c.proofs)
    ensures Grouped(c, ids, block.instances, block.groups, store) && Described(c, block.groups)
    ensures block.excluded == Refused(findings, run, store.lookup)
    ensures block.orphans == OrphansOf(block.excluded) && block.orphanCount == |block.orphans|
  {
    var proofs, referenced, excluded := Resolve(findings, run, runProofs, store);
    KnownIsWellKeyed(findings, runProofs, store.lookup);
    var first := FindAttempts(proofs, run);
    var context := Context(run, proofs, referenced, Policies(findings), first);
    var instances, groups, all := GroupProofs(context, store);
    var orphans := OrphansOf(excluded);
    block := Block(instances, groups, excluded, orphans, |orphans|);
    c, ids := context, all;
  }

  lemma {:induction false} ByIdIsWellKeyed(proofs: seq<Proof>)
    ensures WellKeyed(ById(proofs))
  {
    if proofs != [] { ByIdIsWellKeyed(proofs[..|proofs| - 1]); }
  }

  lemma {:induction false} KnownIsWellKeyed(findings: seq<Finding>, runProofs: seq<Proof>, lookup: Id -> seq<Proof>)
    ensures WellKeyed(Known(findings, runProofs, lookup))
  {
    if findings == [] {
      ByIdIsWellKeyed(runProofs);
    } else {
      KnownIsWellKeyed(findings[..|findings| - 1], runProofs, lookup);
      ByIdIsWellKeyed(lookup(findings[|findings| - 1].caseId));
    }
  }
}
