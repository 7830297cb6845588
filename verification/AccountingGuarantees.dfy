/** What the accounting block promises, and the separate check of its proof links. */
module AccountingGuarantees {
  import opened Options
  import opened Accounting

  // ------------------------------------------------------------------
  // The L5 criterion: proof links
  // ------------------------------------------------------------------

  /** Every proof a group shows is a listed instance, every orphaned exclusion is listed for
      repair, and the orphan count is the length of the list. */
  predicate ProofLinksPass(b: Block) {
    var known := set p | p in b.instances :: p.proofId;
    var listed := set o | o in b.orphans && o.repair != "" :: o.entry;
    && (forall key :: key in b.groups ==> forall pid :: pid in b.groups[key].proofIds ==> pid in known)
    && (forall e :: e in b.excluded && e.reason in {NotFound, OtherRun, OtherCase} ==> e in listed)
    && b.orphanCount == |b.orphans|
  }

  /** Listed for repair are exactly the refusals that name a proof no such finding can be shown with. */
  lemma {:induction false} OrphansListed(excluded: seq<Excluded>)
    ensures forall o :: o in OrphansOf(excluded) <==>
              o.repair == REPAIR && o.entry in excluded && o.entry.reason in {NotFound, OtherRun, OtherCase}
  {
    if excluded != [] {
      var front, last := excluded[..|excluded| - 1], excluded[|excluded| - 1];
      OrphansListed(front);
      assert forall e :: e in excluded <==> e in front || e == last;
    }
  }

  lemma {:induction false} RunIdsFacts(c: Context, ids: seq<Id>)
    requires forall i :: i in ids ==> i in c.proofs
    ensures forall i :: i in RunIds(c, ids) <==> i in ids && InRun(c.proofs[i], c.run)
  {
    if ids != [] {
      var front, last := ids[..|ids| - 1], ids[|ids| - 1];
      RunIdsFacts(c, front);
      assert forall i :: i in ids <==> i in front || i == last;
    }
  }

  lemma {:induction false} MembersFacts(c: Context, ids: seq<Id>, key: GroupKey, store: Store)
    requires forall i :: i in ids ==> i in c.proofs
    ensures forall i :: i in MembersOf(c, ids, key, store) <==> i in ids && EntryOf(c, i, store) == Some(key)
    ensures Ascending(ids) ==> Ascending(MembersOf(c, ids, key, store))
  {
    if ids != [] {
      var front, last := ids[..|ids| - 1], ids[|ids| - 1];
      MembersFacts(c, front, key, store);
      assert forall i :: i in ids <==> i in front || i == last;
      if Ascending(ids) {
        var ms := MembersOf(c, front, key, store);
        forall m | 0 <= m < |ms| ensures ms[m] < last {
          assert ms[m] in front;
          var k :| 0 <= k < |front| && front[k] == ms[m];
          assert ids[k] == ms[m];
        }
      }
    }
  }

  /** Every produced block passes the check of its proof links, whatever the findings and
      proofs are. */
  lemma {:induction false} BlocksPass(
      findings: seq<Finding>, run: string, c: Context, ids: seq<Id>, block: Block, store: Store)
    requires WellKeyed(c.proofs) && (forall i :: i in ids ==> i in c.proofs)
    requires Grouped(c, ids, block.instances, block.groups, store)
    requires block.excluded == Refused(findings, run, store.lookup)
    requires block.orphans == OrphansOf(block.excluded) && block.orphanCount == |block.orphans|
    ensures ProofLinksPass(block)
  {
    var known := set p | p in block.instances :: p.proofId;
    forall key, pid | key in block.groups && pid in block.groups[key].proofIds ensures pid in known {
      MembersFacts(c, ids, key, store);
      RunIdsFacts(c, ids);
      assert pid in RunIds(c, ids);
      var n :| 0 <= n < |RunIds(c, ids)| && RunIds(c, ids)[n] == pid;
      assert block.instances[n].proofId == pid;
    }
    OrphansListed(block.excluded);
    var listed := set o | o in block.orphans && o.repair != "" :: o.entry;
    forall e | e in block.excluded && e.reason in {NotFound, OtherRun, OtherCase} ensures e in listed {
      assert Orphan(e, REPAIR) in block.orphans && REPAIR != "";
    }
  }

  // ------------------------------------------------------------------
  // Every confirmed finding is accounted for
  // ------------------------------------------------------------------

  /** Why a pointer is refused, told on the record it names: the first one of that id, at `k`, among
      those stored for the finding's case. */
  lemma RefusalMeans(f: Finding, run: string, lookup: Id -> seq<Proof>, k: nat)
    requires k < |lookup(f.caseId)| && lookup(f.caseId)[k].id == f.proofId
    requires forall i :: 0 <= i < k ==> lookup(f.caseId)[i].id != f.proofId
    ensures var p, r := lookup(f.caseId)[k], Refusal(f, run, lookup);
            && (r == Some(MissingPointer) <==> f.caseId == 0 || f.proofId == 0)
            && (f.caseId != 0 && f.proofId != 0 ==>
                  && (r == Some(OtherRun) <==> p.case_.runId != Some(run))
                  && (r == Some(OtherCase) <==> p.case_.runId == Some(run) && p.case_.caseId != f.caseId)
                  && (r == Some(NotConfirmed) <==>
                        p.case_.runId == Some(run) && p.case_.caseId == f.caseId && p.verdict != "confirmed")
                  && (r == None <==>
                        p.case_.runId == Some(run) && p.case_.caseId == f.caseId && p.verdict == "confirmed"))
  {
    FirstWithIdAt(lookup(f.caseId), f.proofId, k);
  }

  lemma {:induction false} FirstWithIdAt(proofs: seq<Proof>, id: Id, k: nat)
    requires k < |proofs| && proofs[k].id == id && forall i :: 0 <= i < k ==> proofs[i].id != id
    ensures FirstWithId(proofs, id) == Some(proofs[k])
  {
    if k > 0 {
      assert proofs[0].id != id;
      FirstWithIdAt(proofs[1..], id, k - 1);
    }
  }

  lemma NotFoundMeans(f: Finding, run: string, lookup: Id -> seq<Proof>)
    ensures Refusal(f, run, lookup) == Some(NotFound) <==>
              f.caseId != 0 && f.proofId != 0 && forall p :: p in lookup(f.caseId) ==> p.id != f.proofId
  {
    if FirstWithId(lookup(f.caseId), f.proofId).None? { NoneWithId(lookup(f.caseId), f.proofId); }
    else { FirstWithIdFound(lookup(f.caseId), f.proofId); }
  }

  lemma {:induction false} NoneWithId(proofs: seq<Proof>, id: Id)
    requires FirstWithId(proofs, id).None?
    ensures forall p :: p in proofs ==> p.id != id
  {
    if proofs != [] { NoneWithId(proofs[1..], id); }
  }

  /** The policy a finding brings for its proof: that of the first finding that has one. */
  lemma {:induction false} PoliciesMean(findings: seq<Finding>, k: nat)
    requires k < |findings| && findings[k].proofId != 0 && findings[k].fingerprint != ""
    requires forall i :: 0 <= i < k ==> findings[i].proofId != findings[k].proofId || findings[i].fingerprint == ""
    ensures findings[k].proofId in Policies(findings)
            && Policies(findings)[findings[k].proofId] == findings[k].fingerprint
  {
    var front := findings[..|findings| - 1];
    if k < |front| {
      PoliciesMean(front, k);
    } else {
      PoliciesFrom(front, findings[k].proofId);
    }
  }

  lemma {:induction false} PoliciesFrom(findings: seq<Finding>, id: Id)
    ensures id in Policies(findings) ==>
              exists f ::
                f in findings && f.proofId == id && f.fingerprint != "" && Policies(findings)[id] == f.fingerprint
  {
    if findings != [] {
      var front := findings[..|findings| - 1];
      PoliciesFrom(front, id);
      assert forall f :: f in front ==> f in findings;
    }
  }

  /** A confirmed finding is the accepted reference to its proof, or it is excluded with the
      reason its pointer was refused; nothing else is excluded. */
  lemma {:induction false} ConfirmedAreAccounted(findings: seq<Finding>, run: string, lookup: Id -> seq<Proof>)
    ensures forall f :: f in findings && f.confirmed ==>
              if Refusal(f, run, lookup).None? then f.proofId in ReferencedBy(findings, run, lookup)
              else Excluded(f.caseId, f.proofId, Refusal(f, run, lookup).value) in Refused(findings, run, lookup)
    ensures forall i :: i in ReferencedBy(findings, run, lookup) ==>
              var f := ReferencedBy(findings, run, lookup)[i];
              f in findings && f.proofId == i && Accepted(f, run, lookup)
    ensures forall e :: e in Refused(findings, run, lookup) ==>
              exists f :: f in findings && f.confirmed && e == Excluded(f.caseId, f.proofId, e.reason)
                          && Refusal(f, run, lookup) == Some(e.reason)
  {
    if findings != [] {
      var front, last := findings[..|findings| - 1], findings[|findings| - 1];
      ConfirmedAreAccounted(front, run, lookup);
      assert forall f :: f in findings <==> f in front || f == last;
    }
  }

  // ------------------------------------------------------------------
  // Groups partition the referenced proofs
  // ------------------------------------------------------------------

  /** Each identifier names one proof, wherever it is read from; a missing one names none. */
  ghost predicate IdsIdentify(runProofs: seq<Proof>, lookup: Id -> seq<Proof>) {
    && (forall p, q :: p in runProofs && q in runProofs && p.id == q.id != 0 ==> p == q)
    && (forall p, k, q :: p in runProofs && q in lookup(k) && p.id == q.id != 0 ==> p == q)
    && (forall j, p, k, q :: p in lookup(j) && q in lookup(k) && p.id == q.id != 0 ==> p == q)
  }

  lemma {:induction false} FirstWithIdFound(proofs: seq<Proof>, id: Id)
    requires FirstWithId(proofs, id).Some?
    ensures FirstWithId(proofs, id).value in proofs && FirstWithId(proofs, id).value.id == id
  {
    if proofs[0].id != id { FirstWithIdFound(proofs[1..], id); }
  }

  lemma {:induction false} ByIdFacts(proofs: seq<Proof>)
    ensures forall i :: i in ById(proofs) ==> ById(proofs)[i] in proofs && ById(proofs)[i].id == i
    ensures forall p :: p in proofs && p.id != 0 ==> p.id in ById(proofs)
  {
    if proofs != [] {
      var front, last := proofs[..|proofs| - 1], proofs[|proofs| - 1];
      ByIdFacts(front);
      assert forall p :: p in proofs <==> p in front || p == last;
    }
  }

  /** A known proof came from the run's list or from the lookup of some case. */
  ghost predicate Stored(p: Proof, runProofs: seq<Proof>, lookup: Id -> seq<Proof>) {
    p in runProofs || exists k :: p in lookup(k)
  }

  lemma {:induction false} KnownFacts(findings: seq<Finding>, runProofs: seq<Proof>, lookup: Id -> seq<Proof>)
    ensures var known := Known(findings, runProofs, lookup);
            && (forall i :: i in known ==> Stored(known[i], runProofs, lookup) && known[i].id == i)
            && (forall k, p :: k in LookedUp(findings) && p in lookup(k) && p.id != 0 ==> p.id in known)
  {
    if findings == [] {
      ByIdFacts(runProofs);
    } else {
      var front, last := findings[..|findings| - 1], findings[|findings| - 1];
      KnownFacts(front, runProofs, lookup);
      ByIdFacts(lookup(last.caseId));
      assert findings == front + [last];
      ResolveStep(front, last, "", runProofs, lookup);
    }
  }

  /** When identifiers identify, the proof recorded for an accepted finding is the one it was
      accepted for, so it belongs to the run and to the finding's case. */
  lemma {:induction false} ReferencedAreInRun(
      findings: seq<Finding>, run: string, runProofs: seq<Proof>, lookup: Id -> seq<Proof>, i: Id)
    requires IdsIdentify(runProofs, lookup) && i in ReferencedBy(findings, run, lookup)
    ensures var known := Known(findings, runProofs, lookup);
            var f := ReferencedBy(findings, run, lookup)[i];
            i in known && InRun(known[i], run) && known[i].case_.caseId == f.caseId && known[i].verdict == "confirmed"
  {
    hide Known, ReferencedBy, Refused, FirstWithId;
    ConfirmedAreAccounted(findings, run, lookup);
    var f := ReferencedBy(findings, run, lookup)[i];
    FirstWithIdFound(lookup(f.caseId), i);
    var p := FirstWithId(lookup(f.caseId), i).value;
    assert f.caseId in LookedUp(findings);
    KnownFacts(findings, runProofs, lookup);
    var q := Known(findings, runProofs, lookup)[i];
    assert Stored(q, runProofs, lookup);
    SameProof(p, q, f.caseId, runProofs, lookup);
  }

  lemma SameProof(p: Proof, q: Proof, k: Id, runProofs: seq<Proof>, lookup: Id -> seq<Proof>)
    requires IdsIdentify(runProofs, lookup) && p in lookup(k) && Stored(q, runProofs, lookup) && p.id == q.id != 0
    ensures p == q
  {}

  /** A proof is shown exactly when it is referenced and recorded under the run, and then in
      exactly one group, once. */
  lemma GroupsPartition(c: Context, ids: seq<Id>, block: Block, store: Store, i: Id)
    requires WellKeyed(c.proofs) && Ascending(ids) && (forall x :: x in ids <==> x in c.proofs)
    requires Grouped(c, ids, block.instances, block.groups, store)
    ensures (exists key :: key in block.groups && i in block.groups[key].proofIds)
            <==> i in c.proofs && i in c.referenced && InRun(c.proofs[i], c.run)
    ensures forall k, l :: (k in block.groups && l in block.groups
                            && i in block.groups[k].proofIds && i in block.groups[l].proofIds) ==> k == l
    ensures forall key :: key in block.groups ==> Ascending(block.groups[key].proofIds)
  {
    forall key ensures Ascending(MembersOf(c, ids, key, store)) { MembersFacts(c, ids, key, store); }
    forall key | key in block.groups && i in block.groups[key].proofIds
      ensures i in c.proofs && EntryOf(c, i, store) == Some(key)
    {
      MembersFacts(c, ids, key, store);
    }
    if i in c.proofs && i in c.referenced && InRun(c.proofs[i], c.run) {
      var key := EntryOf(c, i, store).value;
      MembersFacts(c, ids, key, store);
      assert i in MembersOf(c, ids, key, store);
      assert key in block.groups && i in block.groups[key].proofIds;
    }
  }

  /** Two proofs of one group have the same principal, parameter and workflow boundary, the same
      validator, and the same kind. */
  lemma GroupsDoNotMix(c: Context, ids: seq<Id>, block: Block, store: Store, key: GroupKey, i: Id, j: Id)
    requires WellKeyed(c.proofs) && (forall x :: x in ids <==> x in c.proofs)
    requires Grouped(c, ids, block.instances, block.groups, store) && key in block.groups
    requires i in block.groups[key].proofIds && j in block.groups[key].proofIds
    ensures i in c.proofs && j in c.proofs
    ensures BoundaryOf(c.proofs[i].case_) == BoundaryOf(c.proofs[j].case_) == key.boundary
    ensures c.proofs[i].validator == c.proofs[j].validator && KindOf(c.proofs[i], store) == KindOf(c.proofs[j], store)
  {
    MembersFacts(c, ids, key, store);
  }

  /** A vulnerability group over different cases needs a recorded root cause or a known policy of
      a route-independent mechanism. */
  lemma VulnerabilitiesMergeOnlyByRoot(
      c: Context, ids: seq<Id>, block: Block, store: Store, key: GroupKey, i: Id, j: Id)
    requires WellKeyed(c.proofs) && (forall x :: x in ids <==> x in c.proofs)
    requires Grouped(c, ids, block.instances, block.groups, store) && key in block.groups
    requires i in block.groups[key].proofIds && j in block.groups[key].proofIds
    requires Claimed(key.validator) == Vulnerability
    ensures i in c.proofs && j in c.proofs && i in c.referenced && j in c.referenced
    ensures c.proofs[i].case_.caseId != c.proofs[j].case_.caseId ==>
              || (c.referenced[i].rootCause != 0 || c.referenced[j].rootCause != 0)
              || (key.validator in ROUTE_INDEPENDENT
                  && PolicyOf(c.proofs[i], c.policies) == PolicyOf(c.proofs[j], c.policies) != "")
  {
    MembersFacts(c, ids, key, store);
  }

  // ------------------------------------------------------------------
  // Which proofs share a group
  // ------------------------------------------------------------------

  /** An observation about the site rather than a vulnerability claim. */
  ghost predicate ObservesSite(p: Proof) {
    p.validator in {"csp_validator", "crypto_validator", "verbose_error_validator", "security_headers_validator",
                    "error_handling_validator", "recon_validator"}
  }

  /** The exchange is kept: executed, not a legacy record, with baseline, attack and a control among at
      least three different artifacts, none missing and all resolving. */
  ghost predicate HasEvidence(p: Proof, store: Store) {
    && p.executed && !p.legacy && store.resolves(p)
    && p.baseline != 0 && p.attack != 0 && 0 !in p.controls
    && |{p.baseline, p.attack} + (set r | r in p.controls)| >= 3
  }

  lemma KindMeans(p: Proof, store: Store)
    ensures var kind := KindOf(p, store);
            && (kind == Hardening <==> ObservesSite(p) && p.validator != "recon_validator")
            && (kind == Reconnaissance <==> p.validator == "recon_validator")
            && (kind == Vulnerability <==> !ObservesSite(p) && HasEvidence(p, store))
            && (kind == Candidate <==> !ObservesSite(p) && !HasEvidence(p, store))
  {
    assert (set r | r in Refs(p)) == {p.baseline, p.attack} + (set r | r in p.controls);
  }

  /** A class is the finding's, or the case's check, or the validator's name. */
  ghost function ClassFor(p: Proof, f: Finding, store: Store): string {
    store.lower(if f.cls != "" then f.cls else if p.case_.checkId != "" then p.case_.checkId else p.validator)
  }

  /** The policy recorded with a proof, or else the one its finding brought. */
  ghost function PolicyFor(p: Proof, policies: map<Id, string>): string {
    if p.policy == "" && p.id in policies then policies[p.id] else p.policy
  }

  /** A proof without a root cause whose mechanism does not depend on the route, under a known policy. */
  ghost predicate ByPolicy(p: Proof, f: Finding, policies: map<Id, string>) {
    f.rootCause == 0 && p.validator == "jwt_forge" && PolicyFor(p, policies) != ""
  }

  /** The root cause, or the case where there is none. */
  ghost function NameOf(p: Proof, f: Finding): Id { if f.rootCause != 0 then f.rootCause else p.case_.caseId }

  /** One issue: the same kind, class, validator, origin and boundary, and the same root: both observe
      the site, or both go by one policy and version, or neither goes by policy and they have one name. */
  ghost predicate SameIssue(p: Proof, f: Finding, q: Proof, g: Finding, policies: map<Id, string>, store: Store) {
    && p.validator == q.validator && f.origin == g.origin && ClassFor(p, f, store) == ClassFor(q, g, store)
    && p.case_.principal == q.case_.principal && p.case_.paramLocation == q.case_.paramLocation
    && p.case_.paramName == q.case_.paramName && p.case_.workflow == q.case_.workflow
    && (ObservesSite(p) ||
        (&& (HasEvidence(p, store) <==> HasEvidence(q, store))
         && if ByPolicy(p, f, policies) && ByPolicy(q, g, policies)
            then p.version == q.version && PolicyFor(p, policies) == PolicyFor(q, policies)
            else !ByPolicy(p, f, policies) && !ByPolicy(q, g, policies) && NameOf(p, f) == NameOf(q, g)))
  }

  lemma SameKeyIff(p: Proof, f: Finding, q: Proof, g: Finding, policies: map<Id, string>, store: Store)
    ensures KeyOf(p, f, policies, store) == KeyOf(q, g, policies, store) <==> SameIssue(p, f, q, g, policies, store)
  {
    hide HasEvidence, Structured;
    KindMeans(p, store);
    KindMeans(q, store);
    hide KindOf;
  }

  ghost predicate Together(b: Block, i: Id, j: Id) {
    exists key :: key in b.groups && i in b.groups[key].proofIds && j in b.groups[key].proofIds
  }

  /** Two shown proofs are in one group if and only if they are one issue. */
  lemma TogetherIff(c: Context, ids: seq<Id>, block: Block, store: Store, i: Id, j: Id)
    requires WellKeyed(c.proofs) && (forall x :: x in ids <==> x in c.proofs)
    requires Grouped(c, ids, block.instances, block.groups, store)
    requires i in c.proofs && i in c.referenced && InRun(c.proofs[i], c.run)
    requires j in c.proofs && j in c.referenced && InRun(c.proofs[j], c.run)
    ensures Together(block, i, j) <==>
              SameIssue(c.proofs[i], c.referenced[i], c.proofs[j], c.referenced[j], c.policies, store)
  {
    hide KeyOf, SameIssue;
    SameKeyIff(c.proofs[i], c.referenced[i], c.proofs[j], c.referenced[j], c.policies, store);
    forall key
      ensures forall x :: x in MembersOf(c, ids, key, store) <==> x in ids && EntryOf(c, x, store) == Some(key)
    {
      MembersFacts(c, ids, key, store);
    }
    var key := EntryOf(c, i, store).value;
    assert i in MembersOf(c, ids, key, store) && key in block.groups;
  }

  /** With names that tell root causes from cases, vulnerability claims of different cases share a group
      only by one recorded root cause or one known policy. */
  lemma CasesMergeOnlyByRoot(p: Proof, f: Finding, q: Proof, g: Finding, policies: map<Id, string>, store: Store)
    requires SameIssue(p, f, q, g, policies, store) && !ObservesSite(p) && p.case_.caseId != q.case_.caseId
    requires f.rootCause != q.case_.caseId && g.rootCause != p.case_.caseId
    ensures f.rootCause == g.rootCause
    ensures f.rootCause == 0 ==> p.validator == "jwt_forge" && PolicyFor(p, policies) == PolicyFor(q, policies) != ""
  {}

  /** The name of a root cause and that of a case share one space: where they are spelled alike, a claim
      with the root cause joins a claim of that case without one. */
  lemma NamesCanCollide(store: Store) returns (p: Proof, f: Finding, q: Proof, g: Finding)
    ensures SameIssue(p, f, q, g, map[], store) && !ObservesSite(p)
    ensures p.case_.caseId != q.case_.caseId && f.rootCause != 0 && g.rootCause == 0
  {
    var c := Case(1, None, "c", "", "", "", "");
    p := Proof(7, c, "v", "", "", false, true, 0, 0, [], 0, "");
    q := p.(id := 8, case_ := c.(caseId := 2));
    f := Finding(1, 7, true, "", "", "", 2, "");
    g := Finding(2, 8, true, "", "", "", 0, "");
  }

  /** What is shown of a proof besides its group. */
  lemma InstanceMeans(c: Context, p: Proof, store: Store)
    ensures var x := InstanceOf(c, p, store);
            && x.proofId == p.id && x.policy == PolicyFor(p, c.policies) && (x.referenced <==> p.id in c.referenced)
            && (x.resolved <==> HasEvidence(p, store))
            && (x.kind == Candidate <==> !ObservesSite(p) && !x.resolved)
  {
    assert (set r | r in Refs(p)) == {p.baseline, p.attack} + (set r | r in p.controls);
  }

  // ------------------------------------------------------------------
  // Reuse pointers
  // ------------------------------------------------------------------

  /** A reuse pointer leads in one step to the earliest attempt with the same artifacts, which is
      an instance of the run and points nowhere itself. */
  lemma ReusesNeverChain(c: Context, i: Id, store: Store)
    requires WellKeyed(c.proofs) && FirstAttempts(c.first, c.proofs, c.run, c.proofs.Keys)
    requires i in c.proofs && Reuses(c, c.proofs[i]).Some?
    ensures var o := Reuses(c, c.proofs[i]).value;
            && o != i && o in c.proofs && IsAttempt(c.proofs[o], c.run)
            && Artifacts(c.proofs[o]) == Artifacts(c.proofs[i])
            && Reuses(c, c.proofs[o]).None?
            && (IsAttempt(c.proofs[i], c.run) ==> Earlier(c.proofs[o], c.proofs[i]))
  {}

  /** An executed attempt of the run, with an attack artifact, on the very artifacts of `p`. */
  ghost predicate Attempts(q: Proof, p: Proof, run: string) {
    q.case_.runId == Some(run) && q.executed && q.attack != 0 && q.attack == p.attack && q.baseline == p.baseline
  }

  /** A proof is shown as a reuse exactly when another one attempted its artifacts, before it if it is
      an attempt itself; of attempts at one moment the lower id comes first. */
  lemma ReusesIff(c: Context, i: Id)
    requires WellKeyed(c.proofs) && FirstAttempts(c.first, c.proofs, c.run, c.proofs.Keys) && i in c.proofs
    ensures var p := c.proofs[i];
            Reuses(c, p).Some? <==>
              exists j :: j in c.proofs && j != i && Attempts(c.proofs[j], p, c.run)
                          && (Attempts(p, p, c.run) ==>
                                || c.proofs[j].createdAt < p.createdAt
                                || (c.proofs[j].createdAt == p.createdAt && j < i))
  {
    var p := c.proofs[i];
    if Reuses(c, p).Some? {
      assert Attempts(c.proofs[Reuses(c, p).value], p, c.run);
    }
  }

  /** From findings to checked block: the L5 criterion always passes, no proof is in two groups, and
      when identifiers identify, the proof of every accepted confirmation is shown in a group. */
  method AccountAndCheck(
      findings: seq<Finding>, run: string, runProofs: seq<Proof>, store: Store) returns (block: Block)
    ensures ProofLinksPass(block)
    ensures forall i, k, l :: (k in block.groups && l in block.groups
                               && i in block.groups[k].proofIds && i in block.groups[l].proofIds) ==> k == l
    ensures IdsIdentify(runProofs, store.lookup) ==>
              forall f :: f in findings && f.confirmed && Refusal(f, run, store.lookup).None? ==>
                  Shown(block, f.proofId)
    ensures forall i, j :: Shown(block, i) && Shown(block, j) ==>
              var proofs := Known(findings, runProofs, store.lookup);
              var findings' := ReferencedBy(findings, run, store.lookup);
              && i in proofs && j in proofs && i in findings' && j in findings'
              && (Together(block, i, j) <==>
                    SameIssue(proofs[i], findings'[i], proofs[j], findings'[j], Policies(findings), store))
  {
    hide SameIssue, Together;
    hide ProofLinksPass, Grouped, Described, IdsIdentify, Refusal, Known, ReferencedBy, Refused;
    ghost var c, ids;
    block, c, ids := Account(findings, run, runProofs, store);
    BlocksPass(findings, run, c, ids, block, store);
    ConfirmedAreAccounted(findings, run, store.lookup);
    forall i ensures Shown(block, i) <==> i in c.proofs && i in c.referenced && InRun(c.proofs[i], c.run) {
      GroupsPartition(c, ids, block, store, i);
    }
    forall i, k, l | k in block.groups && l in block.groups
                     && i in block.groups[k].proofIds && i in block.groups[l].proofIds
      ensures k == l
    {
      GroupsPartition(c, ids, block, store, i);
    }
    forall i, j | Shown(block, i) && Shown(block, j)
      ensures Together(block, i, j) <==>
                SameIssue(c.proofs[i], c.referenced[i], c.proofs[j], c.referenced[j], c.policies, store)
    {
      TogetherIff(c, ids, block, store, i, j);
    }
    if IdsIdentify(runProofs, store.lookup) {
      forall i | i in c.referenced ensures i in c.proofs && InRun(c.proofs[i], run) {
        ReferencedAreInRun(findings, run, runProofs, store.lookup, i);
      }
    }
  }

  predicate Shown(b: Block, i: Id) { exists key :: key in b.groups && i in b.groups[key].proofIds }
}
