/** The evidence audit: whether the proof a finding names really supports its confirmation,
    given the proofs, cases and exchange artifacts that were handed in. */
module Evidence {
  import Text

  /** A record under its id; the empty id stands for a missing one. */
  datatype Record<T> = Record(id: string, body: T)

  datatype Proof = Proof(
    caseId: string, nestedCase: string, verdict: string, executed: bool, legacy: bool,
    expected: string, observed: string, validator: string,
    baseline: string, attack: string, controls: seq<string>)

  datatype Case = Case(findingRef: string, findingId: string)

  datatype Artifact = Artifact(outcome: string)

  /** What a finding's `confirmed` field holds. */
  datatype Field = Missing | Bool(b: bool) | Number(n: real) | Other

  datatype Finding = Finding(id: string, confirmed: Field, proofId: string, caseId: string, validator: string)

  datatype Support = Unclaimed | Unverifiable | Supported | UnknownClaim

  /** Why, in the order in which the audit looks. */
  datatype Reason =
    | BareClaim | ProofAmbiguous | ProofAbsent
    | NoCase | OtherCase | CaseAmbiguous | CaseAbsent
    | OtherFinding | VerdictNotConfirmed | NotExecuted | LegacyProof | NoComparison | OtherValidator
    | NoEvidence | EvidenceMissing | EvidenceAmbiguous | BadOutcome
    | Matching | NotABoolean | NoClaim

  datatype Diagnosis = Diagnosis(
    findingId: string, claimed: bool, namesValidator: bool, namesProof: bool, support: Support, reasons: seq<Reason>)

  datatype Report = Report(
    counts: map<Support, nat>, claims: nat, validators: nat, proofs: nat, supported: nat, diagnostics: seq<Diagnosis>)

  // ------------------------------------------------------------------
  // What a bag of records says about an id
  // ------------------------------------------------------------------

  ghost predicate Named<T(!new)>(bag: multiset<Record<T>>, id: string) {
    id != "" && exists r :: r in bag && r.id == id
  }

  /** Two records hold this id. */
  ghost predicate Clashing<T(!new)>(bag: multiset<Record<T>>, id: string) {
    id != "" && exists r, s :: r in bag && s in bag && r.id == id && s.id == id && (r != s || bag[r] >= 2)
  }

  ghost predicate Sole<T(!new)>(bag: multiset<Record<T>>, id: string, r: Record<T>) {
    id != "" && r in bag && r.id == id && !Clashing(bag, id)
  }

  /** The first record of the list with this id. */
  ghost predicate IsFirst<T>(records: seq<Record<T>>, id: string, body: T) {
    exists i :: 0 <= i < |records| && records[i] == Record(id, body) && forall k :: 0 <= k < i ==> records[k].id != id
  }

  /** What indexing a list must give: the first record of each id, and the ids held twice. */
  ghost predicate IsIndex<T(!new)>(records: seq<Record<T>>, first: map<string, T>, duplicates: set<string>) {
    && (forall id :: id in first <==> Named(multiset(records), id))
    && (forall id :: id in first ==> IsFirst(records, id, first[id]))
    && (forall id :: id in duplicates <==> Clashing(multiset(records), id))
  }

  function FirstOf<T>(records: seq<Record<T>>): map<string, T> {
    if records == [] then map[]
    else
      var first, r := FirstOf(records[..|records| - 1]), records[|records| - 1];
      if r.id == "" || r.id in first then first else first[r.id := r.body]
  }

  function TwiceOf<T>(records: seq<Record<T>>): set<string> {
    if records == [] then {}
    else
      var front, r := records[..|records| - 1], records[|records| - 1];
      if r.id in FirstOf(front) then TwiceOf(front) + {r.id} else TwiceOf(front)
  }

  lemma {:induction false} OfIsIndex<T(!new)>(records: seq<Record<T>>)
    ensures IsIndex(records, FirstOf(records), TwiceOf(records))
  {
    hide IsIndex;
    if records == [] {
      IndexOfNone<T>();
    } else {
      var front, r := records[..|records| - 1], records[|records| - 1];
      OfIsIndex(front);
      IndexOneMore(front, FirstOf(front), TwiceOf(front), r);
      assert front + [r] == records;
    }
  }

  method Index<T(!new)>(records: seq<Record<T>>) returns (first: map<string, T>, duplicates: set<string>)
    ensures IsIndex(records, first, duplicates)
    ensures first == FirstOf(records) && duplicates == TwiceOf(records)
  {
    hide IsIndex;
    first, duplicates := map[], {};
    IndexOfNone<T>();
    for i := 0 to |records|
      invariant IsIndex(records[..i], first, duplicates)
      invariant first == FirstOf(records[..i]) && duplicates == TwiceOf(records[..i])
    {
      var r := records[i];
      assert records[..i + 1] == records[..i] + [r] && records[..i + 1][..i] == records[..i];
      IndexOneMore(records[..i], first, duplicates, r);
      NoEmptyId(records[..i], first, duplicates);
      if r.id == "" {
        continue;
      }
      if r.id in first {
        duplicates := duplicates + {r.id};
      } else {
        first := first[r.id := r.body];
      }
    }
    assert records[..|records|] == records;
  }

  lemma IndexOfNone<T(!new)>()
    ensures IsIndex<T>([], map[], {})
  {
    var none: seq<Record<T>> := [];
    assert multiset(none) == multiset{};
  }

  lemma IndexOneMore<T(!new)>(records: seq<Record<T>>, first: map<string, T>, duplicates: set<string>, r: Record<T>)
    requires IsIndex(records, first, duplicates)
    ensures IsIndex(records + [r],
                    if r.id == "" || r.id in first then first else first[r.id := r.body],
                    if r.id in first then duplicates + {r.id} else duplicates)
  {
    var more := records + [r];
    var first' := if r.id == "" || r.id in first then first else first[r.id := r.body];
    var duplicates' := if r.id in first then duplicates + {r.id} else duplicates;
    assert multiset(more) == multiset(records) + multiset{r};
    forall id ensures id in first' <==> Named(multiset(more), id) { NamedOneMore(multiset(records), r, id); }
    forall id ensures id in duplicates' <==> Clashing(multiset(more), id) { ClashingOneMore(multiset(records), r, id); }
    forall id | id in first' ensures IsFirst(more, id, first'[id]) {
      FirstOneMore(records, r, id, first'[id], id in first);
    }
  }

  lemma NamedOneMore<T(!new)>(bag: multiset<Record<T>>, r: Record<T>, id: string)
    ensures Named(bag + multiset{r}, id) <==> Named(bag, id) || (id == r.id != "")
  {
    if Named(bag, id) {
      var s :| s in bag && s.id == id;
      assert s in bag + multiset{r};
    }
    assert r in bag + multiset{r};
  }

  lemma ClashingOneMore<T(!new)>(bag: multiset<Record<T>>, r: Record<T>, id: string)
    ensures Clashing(bag + multiset{r}, id) <==> Clashing(bag, id) || (id == r.id && Named(bag, id))
  {
    var more := bag + multiset{r};
    if Clashing(bag, id) {
      var s, t :| s in bag && t in bag && s.id == id && t.id == id && (s != t || bag[s] >= 2);
      assert s in more && t in more && more[s] >= bag[s];
    }
    if id == r.id && Named(bag, id) {
      var s :| s in bag && s.id == id;
      assert s in more && r in more && (s == r ==> more[s] >= 2);
    }
  }

  lemma FirstOneMore<T>(records: seq<Record<T>>, r: Record<T>, id: string, body: T, known: bool)
    requires if known then IsFirst(records, id, body)
             else r == Record(id, body) && forall s :: s in records ==> s.id != id
    ensures IsFirst(records + [r], id, body)
  {
    var more := records + [r];
    if known {
      var i :| 0 <= i < |records| && records[i] == Record(id, body) && forall k :: 0 <= k < i ==> records[k].id != id;
      assert more[i] == Record(id, body) && forall k :: 0 <= k < i ==> more[k] == records[k];
    } else {
      assert more[|records|] == r && forall k :: 0 <= k < |records| ==> more[k] in records;
    }
  }

  // ------------------------------------------------------------------
  // The audit
  // ------------------------------------------------------------------

  function ProofCase(p: Proof): string { if p.nestedCase != "" then p.nestedCase else p.caseId }

  function CaseFinding(c: Case): string { if c.findingRef != "" then c.findingRef else c.findingId }

  function NonEmpty(id: string): seq<string> { if id != "" then [id] else [] }

  /** Every artifact a proof leans on; controls are taken as listed. */
  function EvidenceIds(p: Proof): seq<string> { NonEmpty(p.baseline) + NonEmpty(p.attack) + p.controls }

  predicate GoodOutcome(a: Artifact) { Text.Lower(a.outcome) in {"ok", "success"} }

  predicate SaysConfirmed(p: Proof) { Text.Lower(p.verdict) == "confirmed" }

  predicate Compares(p: Proof) { p.expected != "" && p.observed != "" }

  predicate Disagree(f: Finding, p: Proof) { f.validator != "" && p.validator != "" && f.validator != p.validator }

  predicate IsAbout(c: Case, f: Finding) { CaseFinding(c) == "" || CaseFinding(c) == f.id }

  /** What the proof itself must say. */
  predicate SoundProof(f: Finding, p: Proof) {
    && SaysConfirmed(p) && p.executed && !p.legacy && Compares(p) && !Disagree(f, p) && EvidenceIds(p) != []
  }

  /** The reference: one record, and one only, behind every id on the way from the finding to its
      evidence. It speaks of bags, so no order can matter. */
  ghost predicate IsSupported(f: Finding, proofs: multiset<Record<Proof>>, cases: multiset<Record<Case>>,
                              artifacts: multiset<Record<Artifact>>) {
    && f.confirmed == Bool(true)
    && (exists p :: Sole(proofs, f.proofId, p) && ProofCase(p.body) == f.caseId && SoundProof(f, p.body)
                    && EvidenceStands(p.body, artifacts))
    && exists c :: Sole(cases, f.caseId, c) && IsAbout(c.body, f)
  }

  ghost predicate EvidenceStands(p: Proof, artifacts: multiset<Record<Artifact>>) {
    forall id :: id in EvidenceIds(p) ==> exists a :: Sole(artifacts, id, a) && GoodOutcome(a.body)
  }

  /** A confirmed, executed, recent proof of the finding's case that compares what was expected with what
      was observed, by the same validator if both name one, and leans on some artifact. */
  ghost predicate Confirms(p: Proof, f: Finding) {
    && (p.nestedCase == f.caseId != "" || (p.nestedCase == "" && p.caseId == f.caseId))
    && Text.Lower(p.verdict) == "confirmed" && p.executed && !p.legacy && p.expected != "" && p.observed != ""
    && (f.validator == p.validator || f.validator == "" || p.validator == "")
    && (p.baseline != "" || p.attack != "" || p.controls != [])
  }

  ghost predicate LeansOn(p: Proof, id: string) {
    (id != "" && id in {p.baseline, p.attack}) || id in p.controls
  }

  /** The case names the finding, or none. */
  ghost predicate NamesFinding(c: Case, f: Finding) {
    c.findingRef == f.id != "" || (c.findingRef == "" && c.findingId in {"", f.id})
  }

  /** The reference, spelled out on the records' own fields. */
  lemma SupportSpelledOut(f: Finding, proofs: multiset<Record<Proof>>, cases: multiset<Record<Case>>,
                          artifacts: multiset<Record<Artifact>>)
    ensures IsSupported(f, proofs, cases, artifacts) <==>
              && f.confirmed == Bool(true)
              && (exists p :: Sole(proofs, f.proofId, p) && Confirms(p.body, f)
                              && forall id :: LeansOn(p.body, id) ==> HasGood(artifacts, id))
              && exists c :: Sole(cases, f.caseId, c) && NamesFinding(c.body, f)
  {
    forall p: Proof ensures EvidenceStands(p, artifacts) <==> forall id :: LeansOn(p, id) ==> HasGood(artifacts, id) {
      StandsSpelledOut(p, artifacts);
    }
    forall p: Proof ensures ProofCase(p) == f.caseId && SoundProof(f, p) <==> Confirms(p, f) { SoundSpelledOut(p, f); }
    forall c: Case ensures IsAbout(c, f) <==> NamesFinding(c, f) {}
    hide Sole, EvidenceStands, ProofCase, SoundProof, Confirms, IsAbout, NamesFinding, LeansOn, HasGood;
  }

  lemma SoundSpelledOut(p: Proof, f: Finding)
    ensures ProofCase(p) == f.caseId && SoundProof(f, p) <==> Confirms(p, f)
  {
    EvidenceIdsSome(p);
    hide EvidenceIds, Text.Lower;
  }

  lemma StandsSpelledOut(p: Proof, artifacts: multiset<Record<Artifact>>)
    ensures EvidenceStands(p, artifacts) <==> forall id :: LeansOn(p, id) ==> HasGood(artifacts, id)
  {
    hide Sole, GoodOutcome;
    forall id ensures id in EvidenceIds(p) <==> LeansOn(p, id) {}
    forall id { HasGoodMeans(artifacts, id); }
    hide EvidenceIds, LeansOn, HasGood;
  }

  ghost predicate HasGood(artifacts: multiset<Record<Artifact>>, id: string) {
    exists a :: Sole(artifacts, id, a) && Text.Lower(a.body.outcome) in {"ok", "success"}
  }

  lemma HasGoodMeans(artifacts: multiset<Record<Artifact>>, id: string)
    ensures HasGood(artifacts, id) <==> exists a :: Sole(artifacts, id, a) && GoodOutcome(a.body)
  {
    hide Sole;
  }

  lemma EvidenceIdsSome(p: Proof)
    ensures EvidenceIds(p) != [] <==> p.baseline != "" || p.attack != "" || p.controls != []
  {}

  ghost function SupportOf(f: Finding, proofs: multiset<Record<Proof>>, cases: multiset<Record<Case>>,
                           artifacts: multiset<Record<Artifact>>): Support {
    if IsSupported(f, proofs, cases, artifacts) then Supported
    else if f.confirmed == Bool(true) then Unverifiable
    else if f.confirmed in {Bool(false), Number(1.0), Number(0.0)} then Unclaimed
    else UnknownClaim
  }

  function Note(reasons: seq<Reason>, b: bool, r: Reason): seq<Reason> { if b then reasons + [r] else reasons }

  /** Every objection to a proof and its case once both are found, in order. */
  function Objections(
      f: Finding, p: Proof, c: Case, artifacts: map<string, Artifact>, twice: set<string>): seq<Reason> {
    ProofObjections(f, p, c) + EvidenceObjections(EvidenceIds(p), artifacts, twice)
  }

  function ProofObjections(f: Finding, p: Proof, c: Case): seq<Reason> {
    var elsewhere := Note([], !IsAbout(c, f), OtherFinding);
    var reasons := Note(Note(elsewhere, !SaysConfirmed(p), VerdictNotConfirmed), !p.executed, NotExecuted);
    Note(Note(Note(reasons, p.legacy, LegacyProof), !Compares(p), NoComparison), Disagree(f, p), OtherValidator)
  }

  function EvidenceObjections(ids: seq<string>, artifacts: map<string, Artifact>, twice: set<string>): seq<Reason> {
    if ids == [] then [NoEvidence] else
      var missing := Note([], exists id :: id in ids && id !in artifacts, EvidenceMissing);
      var unclear := Note(missing, exists id :: id in ids && id in twice, EvidenceAmbiguous);
      Note(unclear, exists id :: id in ids && id in artifacts && !GoodOutcome(artifacts[id]), BadOutcome)
  }

  /** Which objections are raised, on the records' own fields. */
  lemma ObjectionsMean(f: Finding, p: Proof, c: Case)
    ensures var rs := ProofObjections(f, p, c);
            && (OtherFinding in rs <==> !NamesFinding(c, f))
            && (VerdictNotConfirmed in rs <==> Text.Lower(p.verdict) != "confirmed")
            && (NotExecuted in rs <==> !p.executed) && (LegacyProof in rs <==> p.legacy)
            && (NoComparison in rs <==> p.expected == "" || p.observed == "")
            && (OtherValidator in rs <==> f.validator != p.validator && f.validator != "" && p.validator != "")
  {
    ObjectionsListed(f, p, c);
    hide ProofObjections, Text.Lower;
  }

  lemma ObjectionsListed(f: Finding, p: Proof, c: Case)
    ensures forall r :: r in ProofObjections(f, p, c) <==>
              || (r == OtherFinding && !IsAbout(c, f)) || (r == VerdictNotConfirmed && !SaysConfirmed(p))
              || (r == NotExecuted && !p.executed) || (r == LegacyProof && p.legacy)
              || (r == NoComparison && !Compares(p)) || (r == OtherValidator && Disagree(f, p))
  {
    hide Note, IsAbout, SaysConfirmed, Compares, Disagree;
    NoteIn([], !IsAbout(c, f), OtherFinding);
    var reasons := Note([], !IsAbout(c, f), OtherFinding);
    NoteIn(reasons, !SaysConfirmed(p), VerdictNotConfirmed);
    reasons := Note(reasons, !SaysConfirmed(p), VerdictNotConfirmed);
    NoteIn(reasons, !p.executed, NotExecuted);
    reasons := Note(reasons, !p.executed, NotExecuted);
    NoteIn(reasons, p.legacy, LegacyProof);
    reasons := Note(reasons, p.legacy, LegacyProof);
    NoteIn(reasons, !Compares(p), NoComparison);
    NoteIn(Note(reasons, !Compares(p), NoComparison), Disagree(f, p), OtherValidator);
  }

  lemma NoteIn(reasons: seq<Reason>, b: bool, r: Reason)
    ensures forall x :: x in Note(reasons, b, r) <==> x in reasons || (b && x == r)
  {}

  lemma EvidenceObjectionsMean(p: Proof, artifacts: map<string, Artifact>, twice: set<string>)
    ensures var rs := EvidenceObjections(EvidenceIds(p), artifacts, twice);
            && (NoEvidence in rs <==> p.baseline == "" && p.attack == "" && p.controls == [])
            && (EvidenceMissing in rs <==> exists id :: LeansOn(p, id) && id !in artifacts)
            && (EvidenceAmbiguous in rs <==> exists id :: LeansOn(p, id) && id in twice)
            && (BadOutcome in rs <==>
                  exists id :: LeansOn(p, id) && id in artifacts
                               && Text.Lower(artifacts[id].outcome) !in {"ok", "success"})
  {
    EvidenceIdsSome(p);
    forall id ensures id in EvidenceIds(p) <==> LeansOn(p, id) {}
    hide EvidenceIds, LeansOn, Text.Lower;
    OutcomesObjected(EvidenceIds(p), artifacts, twice);
  }

  lemma OutcomesObjected(ids: seq<string>, artifacts: map<string, Artifact>, twice: set<string>)
    ensures var rs := EvidenceObjections(ids, artifacts, twice);
            && (NoEvidence in rs <==> ids == [])
            && (EvidenceMissing in rs <==> exists id :: id in ids && id !in artifacts)
            && (EvidenceAmbiguous in rs <==> exists id :: id in ids && id in twice)
            && (BadOutcome in rs <==> exists id :: id in ids && id in artifacts && !GoodOutcome(artifacts[id]))
  {
    hide GoodOutcome;
  }

  lemma NoObjection(f: Finding, p: Proof, c: Case, artifacts: map<string, Artifact>, twice: set<string>)
    ensures Objections(f, p, c, artifacts, twice) == [] <==>
              IsAbout(c, f) && SoundProof(f, p)
              && forall id :: id in EvidenceIds(p) ==> id in artifacts && id !in twice && GoodOutcome(artifacts[id])
  {}

  method WeighEvidence(
      ids: seq<string>, artifacts: map<string, Artifact>, twice: set<string>) returns (reasons: seq<Reason>)
    ensures reasons == EvidenceObjections(ids, artifacts, twice)
  {
    if ids == [] {
      return [NoEvidence];
    }
    reasons := [];
    if exists id :: id in ids && id !in artifacts { reasons := reasons + [EvidenceMissing]; }
    if exists id :: id in ids && id in twice { reasons := reasons + [EvidenceAmbiguous]; }
    if exists id :: id in ids && id in artifacts && !GoodOutcome(artifacts[id]) { reasons := reasons + [BadOutcome]; }
  }

  method WeighProof(f: Finding, p: Proof, c: Case, artifacts: map<string, Artifact>, twice: set<string>)
    returns (reasons: seq<Reason>)
    ensures reasons == Objections(f, p, c, artifacts, twice)
  {
    hide EvidenceObjections, EvidenceIds, IsAbout, SaysConfirmed, Compares, Disagree;
    reasons := [];
    if !IsAbout(c, f) { reasons := reasons + [OtherFinding]; }
    if !SaysConfirmed(p) { reasons := reasons + [VerdictNotConfirmed]; }
    if !p.executed { reasons := reasons + [NotExecuted]; }
    if p.legacy { reasons := reasons + [LegacyProof]; }
    if !Compares(p) { reasons := reasons + [NoComparison]; }
    if Disagree(f, p) { reasons := reasons + [OtherValidator]; }
    var evidence := WeighEvidence(EvidenceIds(p), artifacts, twice);
    reasons := reasons + evidence;
  }

  /** The first objection to the way from a finding to its proof and its case, if any. */
  function PathFault(f: Finding, proofs: map<string, Proof>, twiceProofs: set<string>,
                     cases: map<string, Case>, twiceCases: set<string>): (r: seq<Reason>)
    ensures r == [] ==> f.proofId in proofs && f.caseId in cases
  {
    if f.proofId == "" then [BareClaim]
    else if f.proofId in twiceProofs then [ProofAmbiguous]
    else if f.proofId !in proofs then [ProofAbsent]
    else if f.caseId == "" then [NoCase]
    else if ProofCase(proofs[f.proofId]) != f.caseId then [OtherCase]
    else if f.caseId in twiceCases then [CaseAmbiguous]
    else if f.caseId !in cases then [CaseAbsent]
    else []
  }

  /** What each fault says, given the indexes; the first one found is reported. */
  lemma PathFaultMeans(f: Finding, proofs: map<string, Proof>, twiceProofs: set<string>,
                       cases: map<string, Case>, twiceCases: set<string>)
    requires "" !in proofs && "" !in twiceProofs && twiceProofs <= proofs.Keys
    ensures var r := PathFault(f, proofs, twiceProofs, cases, twiceCases);
            && (r == [BareClaim] <==> f.proofId == "")
            && (r == [ProofAmbiguous] <==> f.proofId in twiceProofs)
            && (r == [ProofAbsent] <==> f.proofId != "" && f.proofId !in proofs)
            && (r == [NoCase] <==> f.proofId in proofs.Keys - twiceProofs && f.caseId == "")
            && (f.proofId in proofs.Keys - twiceProofs && f.caseId != "" ==>
                  var p := proofs[f.proofId];
                  var same := p.nestedCase == f.caseId || (p.nestedCase == "" && p.caseId == f.caseId);
                  && (r == [OtherCase] <==> !same)
                  && (r == [CaseAmbiguous] <==> same && f.caseId in twiceCases)
                  && (r == [CaseAbsent] <==> same && f.caseId !in twiceCases && f.caseId !in cases)
                  && (r == [] <==> same && f.caseId in cases && f.caseId !in twiceCases))
  {}

  method Diagnose(
      f: Finding, proofs: seq<Record<Proof>>, cases: seq<Record<Case>>, artifacts: seq<Record<Artifact>>,
      proofOf: map<string, Proof>, twiceProofs: set<string>, caseOf: map<string, Case>, twiceCases: set<string>,
      artifactOf: map<string, Artifact>, twiceArtifacts: set<string>)
    returns (d: Diagnosis)
    requires IsIndex(proofs, proofOf, twiceProofs) && IsIndex(cases, caseOf, twiceCases)
    requires IsIndex(artifacts, artifactOf, twiceArtifacts)
    ensures d.support == SupportOf(f, multiset(proofs), multiset(cases), multiset(artifacts))
    ensures d.findingId == f.id && d.claimed == (f.confirmed == Bool(true))
    ensures d.namesValidator == (f.validator != "") && d.namesProof == (f.proofId != "")
    ensures d.reasons == Reasons(f, proofOf, twiceProofs, caseOf, twiceCases, artifactOf, twiceArtifacts)
    ensures d.support == Supported <==> d.reasons == [Matching]
  {
    hide IsIndex, IsSupported, SoundProof, EvidenceIds, GoodOutcome, PathFault, Objections;
    var support, reasons := Unclaimed, [];
    if f.confirmed == Bool(true) {
      support := Unverifiable;
      reasons := PathFault(f, proofOf, twiceProofs, caseOf, twiceCases);
      FaultsAreFaults(f, proofOf, twiceProofs, caseOf, twiceCases);
      SupportedMeans(f, proofs, cases, artifacts, proofOf, twiceProofs, caseOf, twiceCases, artifactOf, twiceArtifacts);
      if reasons == [] {
        reasons := WeighProof(f, proofOf[f.proofId], caseOf[f.caseId], artifactOf, twiceArtifacts);
        NoObjection(f, proofOf[f.proofId], caseOf[f.caseId], artifactOf, twiceArtifacts);
        ObjectionsAreFaults(f, proofOf[f.proofId], caseOf[f.caseId], artifactOf, twiceArtifacts);
        if reasons == [] {
          support, reasons := Supported, [Matching];
        }
      }
    } else {
      ClaimNeeded(f, multiset(proofs), multiset(cases), multiset(artifacts));
      if f.confirmed !in {Bool(false), Number(1.0), Number(0.0)} {
        support, reasons := UnknownClaim, [NotABoolean];
      } else {
        reasons := [NoClaim];
      }
    }
    d := Diagnosis(f.id, f.confirmed == Bool(true), f.validator != "", f.proofId != "", support, reasons);
  }

  /** What the audit says about a finding, given the indexes. */
  function Reasons(f: Finding, proofs: map<string, Proof>, twiceProofs: set<string>, cases: map<string, Case>,
                   twiceCases: set<string>, artifacts: map<string, Artifact>, twice: set<string>): seq<Reason> {
    if f.confirmed == Bool(true) then
      var fault := PathFault(f, proofs, twiceProofs, cases, twiceCases);
      if fault != [] then fault
      else
        var objections := Objections(f, proofs[f.proofId], cases[f.caseId], artifacts, twice);
        if objections == [] then [Matching] else objections
    else if f.confirmed in {Bool(false), Number(1.0), Number(0.0)} then [NoClaim]
    else [NotABoolean]
  }

  /** What the audit says about a finding, given the records. */
  function ReasonsOf(
      f: Finding, proofs: seq<Record<Proof>>, cases: seq<Record<Case>>, artifacts: seq<Record<Artifact>>): seq<Reason> {
    Reasons(f, FirstOf(proofs), TwiceOf(proofs), FirstOf(cases), TwiceOf(cases), FirstOf(artifacts), TwiceOf(artifacts))
  }

  lemma ObjectionsAreFaults(f: Finding, p: Proof, c: Case, artifacts: map<string, Artifact>, twice: set<string>)
    ensures Matching !in Objections(f, p, c, artifacts, twice)
  {
    hide IsAbout, SaysConfirmed, Compares, Disagree, EvidenceIds;
    assert Matching !in EvidenceObjections(EvidenceIds(p), artifacts, twice);
  }

  lemma FaultsAreFaults(f: Finding, proofs: map<string, Proof>, twiceProofs: set<string>,
                        cases: map<string, Case>, twiceCases: set<string>)
    ensures Matching !in PathFault(f, proofs, twiceProofs, cases, twiceCases)
  {}

  lemma ClaimNeeded(f: Finding, proofs: multiset<Record<Proof>>, cases: multiset<Record<Case>>,
                    artifacts: multiset<Record<Artifact>>)
    requires f.confirmed != Bool(true)
    ensures !IsSupported(f, proofs, cases, artifacts)
  {}

  lemma SoleIsIndexed<T(!new)>(
      records: seq<Record<T>>, first: map<string, T>, duplicates: set<string>, id: string, r: Record<T>)
    requires IsIndex(records, first, duplicates)
    ensures Sole(multiset(records), id, r) <==> id in first && id !in duplicates && r == Record(id, first[id])
  {
    if id in first {
      var i :| && 0 <= i < |records| && records[i] == Record(id, first[id])
               && forall k :: 0 <= k < i ==> records[k].id != id;
      assert records[i] in multiset(records);
    }
  }

  /** Through the indexes the reference reads as the audit computes it. */
  lemma SupportedMeans(
      f: Finding, proofs: seq<Record<Proof>>, cases: seq<Record<Case>>, artifacts: seq<Record<Artifact>>,
      proofOf: map<string, Proof>, twiceProofs: set<string>, caseOf: map<string, Case>, twiceCases: set<string>,
      artifactOf: map<string, Artifact>, twiceArtifacts: set<string>)
    requires f.confirmed == Bool(true)
    requires IsIndex(proofs, proofOf, twiceProofs) && IsIndex(cases, caseOf, twiceCases)
    requires IsIndex(artifacts, artifactOf, twiceArtifacts)
    ensures IsSupported(f, multiset(proofs), multiset(cases), multiset(artifacts)) <==>
              PathFault(f, proofOf, twiceProofs, caseOf, twiceCases) == []
              && IsAbout(caseOf[f.caseId], f) && SoundProof(f, proofOf[f.proofId])
              && forall id :: id in EvidenceIds(proofOf[f.proofId]) ==>
                   id in artifactOf && id !in twiceArtifacts && GoodOutcome(artifactOf[id])
  {
    hide IsIndex, Sole, SoundProof, EvidenceIds, GoodOutcome, EvidenceStands;
    forall p ensures Sole(multiset(proofs), f.proofId, p) <==>
                       f.proofId in proofOf && f.proofId !in twiceProofs && p == Record(f.proofId, proofOf[f.proofId])
    {
      SoleIsIndexed(proofs, proofOf, twiceProofs, f.proofId, p);
    }
    forall c ensures Sole(multiset(cases), f.caseId, c) <==>
                       f.caseId in caseOf && f.caseId !in twiceCases && c == Record(f.caseId, caseOf[f.caseId])
    {
      SoleIsIndexed(cases, caseOf, twiceCases, f.caseId, c);
    }
    var right := f.proofId in proofOf && f.proofId !in twiceProofs && f.caseId in caseOf && f.caseId !in twiceCases;
    if right {
      assert Sole(multiset(proofs), f.proofId, Record(f.proofId, proofOf[f.proofId]));
      assert Sole(multiset(cases), f.caseId, Record(f.caseId, caseOf[f.caseId]));
    }
    NoEmptyId(proofs, proofOf, twiceProofs);
    NoEmptyId(cases, caseOf, twiceCases);
    if f.proofId in proofOf { StandsMeans(proofOf[f.proofId], artifacts, artifactOf, twiceArtifacts); }
  }

  lemma NoEmptyId<T(!new)>(records: seq<Record<T>>, first: map<string, T>, duplicates: set<string>)
    requires IsIndex(records, first, duplicates)
    ensures "" !in first
  {}

  lemma StandsMeans(p: Proof, artifacts: seq<Record<Artifact>>, artifactOf: map<string, Artifact>, twice: set<string>)
    requires IsIndex(artifacts, artifactOf, twice)
    ensures EvidenceStands(p, multiset(artifacts)) <==>
              forall id :: id in EvidenceIds(p) ==> id in artifactOf && id !in twice && GoodOutcome(artifactOf[id])
  {
    hide IsIndex, EvidenceIds, GoodOutcome, Sole;
    forall id, a
      ensures Sole(multiset(artifacts), id, a) <==> id in artifactOf && id !in twice && a == Record(id, artifactOf[id])
    {
      SoleIsIndexed(artifacts, artifactOf, twice, id, a);
    }
    forall id ensures (exists a :: Sole(multiset(artifacts), id, a) && GoodOutcome(a.body)) <==>
                        id in artifactOf && id !in twice && GoodOutcome(artifactOf[id])
    {
      if id in artifactOf && id !in twice && GoodOutcome(artifactOf[id]) {
        assert Sole(multiset(artifacts), id, Record(id, artifactOf[id]));
      }
    }
  }

  function CountOf(diagnostics: seq<Diagnosis>, s: Support): nat {
    if diagnostics == [] then 0
    else CountOf(diagnostics[..|diagnostics| - 1], s) + if diagnostics[|diagnostics| - 1].support == s then 1 else 0
  }

  /** Every finding is counted under exactly one support. */
  lemma {:induction false} SupportsAddUp(diagnostics: seq<Diagnosis>)
    ensures CountOf(diagnostics, Unclaimed) + CountOf(diagnostics, Unverifiable)
            + CountOf(diagnostics, Supported) + CountOf(diagnostics, UnknownClaim) == |diagnostics|
  {
    if diagnostics != [] { SupportsAddUp(diagnostics[..|diagnostics| - 1]); }
  }

  method AuditFindings(
      findings: seq<Finding>, proofs: seq<Record<Proof>>, cases: seq<Record<Case>>, artifacts: seq<Record<Artifact>>)
    returns (report: Report)
    ensures |report.diagnostics| == |findings|
    ensures forall i :: 0 <= i < |findings| ==>
              report.diagnostics[i].support
              == SupportOf(findings[i], multiset(proofs), multiset(cases), multiset(artifacts))
    ensures forall i :: 0 <= i < |findings| ==>
              report.diagnostics[i].reasons == ReasonsOf(findings[i], proofs, cases, artifacts)
    ensures forall i :: 0 <= i < |findings| ==> Describes(report.diagnostics[i], findings[i])
    ensures forall s :: (s in report.counts <==> CountOf(report.diagnostics, s) > 0)
                        && (s in report.counts ==> report.counts[s] == CountOf(report.diagnostics, s))
    ensures report.supported == CountOf(report.diagnostics, Supported)
    ensures report.supported <= report.claims <= |findings|
    ensures report.claims == CountOf(report.diagnostics, Supported) + CountOf(report.diagnostics, Unverifiable)
    ensures report.validators == |ValidatorsNamed(report.diagnostics)|
    ensures report.proofs == |ProofsNamed(report.diagnostics)|
  {
    hide SupportOf, IsIndex, Reasons, FirstOf, TwiceOf;
    var proofOf, twiceProofs := Index(proofs);
    var caseOf, twiceCases := Index(cases);
    var artifactOf, twiceArtifacts := Index(artifacts);
    var diagnostics: seq<Diagnosis> := [];
    for i := 0 to |findings|
      invariant |diagnostics| == i
      invariant forall k :: 0 <= k < i ==>
                  diagnostics[k].support
                  == SupportOf(findings[k], multiset(proofs), multiset(cases), multiset(artifacts))
      invariant forall k :: 0 <= k < i ==> diagnostics[k].reasons == ReasonsOf(findings[k], proofs, cases, artifacts)
      invariant forall k :: 0 <= k < i ==> Describes(diagnostics[k], findings[k])
    {
      var d := Diagnose(findings[i], proofs, cases, artifacts,
                        proofOf, twiceProofs, caseOf, twiceCases, artifactOf, twiceArtifacts);
      SupportOfClaim(findings[i], multiset(proofs), multiset(cases), multiset(artifacts));
      diagnostics := diagnostics + [d];
    }
    report := Tally(diagnostics);
  }

  /** The part of a diagnosis that does not look at any record. */
  predicate Describes(d: Diagnosis, f: Finding) {
    && d.findingId == f.id && d.claimed == (f.confirmed == Bool(true))
    && d.namesValidator == (f.validator != "") && d.namesProof == (f.proofId != "")
    && (d.claimed <==> d.support in {Supported, Unverifiable})
    && (d.support == Supported <==> d.reasons == [Matching])
  }

  lemma SupportOfClaim(f: Finding, proofs: multiset<Record<Proof>>, cases: multiset<Record<Case>>,
                       artifacts: multiset<Record<Artifact>>)
    ensures SupportOf(f, proofs, cases, artifacts) in {Supported, Unverifiable} <==> f.confirmed == Bool(true)
  {}

  /** The findings that name a validator, and those that name a proof. */
  ghost function ValidatorsNamed(diagnostics: seq<Diagnosis>): set<nat> {
    set i | 0 <= i < |diagnostics| && diagnostics[i].namesValidator
  }

  ghost function ProofsNamed(diagnostics: seq<Diagnosis>): set<nat> {
    set i | 0 <= i < |diagnostics| && diagnostics[i].namesProof
  }

  lemma CountStep(diagnostics: seq<Diagnosis>, i: nat)
    requires i < |diagnostics|
    ensures forall s :: CountOf(diagnostics[..i + 1], s)
                        == CountOf(diagnostics[..i], s) + if diagnostics[i].support == s then 1 else 0
  {
    assert diagnostics[..i + 1][..i] == diagnostics[..i];
  }

  lemma NoneNamed(diagnostics: seq<Diagnosis>)
    ensures forall s :: CountOf(diagnostics[..0], s) == 0
    ensures ValidatorsNamed(diagnostics[..0]) == {} && ProofsNamed(diagnostics[..0]) == {}
  {}

  lemma NamedStep(diagnostics: seq<Diagnosis>, i: nat)
    requires i < |diagnostics|
    ensures |ValidatorsNamed(diagnostics[..i + 1])|
         == |ValidatorsNamed(diagnostics[..i])| + if diagnostics[i].namesValidator then 1 else 0
    ensures |ProofsNamed(diagnostics[..i + 1])|
         == |ProofsNamed(diagnostics[..i])| + if diagnostics[i].namesProof then 1 else 0
  {
    assert ValidatorsNamed(diagnostics[..i + 1])
        == ValidatorsNamed(diagnostics[..i]) + if diagnostics[i].namesValidator then {i} else {};
    assert ProofsNamed(diagnostics[..i + 1])
        == ProofsNamed(diagnostics[..i]) + if diagnostics[i].namesProof then {i} else {};
  }

  method Tally(diagnostics: seq<Diagnosis>) returns (report: Report)
    requires forall k :: 0 <= k < |diagnostics| ==>
              (diagnostics[k].claimed <==> diagnostics[k].support in {Supported, Unverifiable})
    ensures report.diagnostics == diagnostics
    ensures forall s :: (s in report.counts <==> CountOf(diagnostics, s) > 0)
                        && (s in report.counts ==> report.counts[s] == CountOf(diagnostics, s))
    ensures report.supported == CountOf(diagnostics, Supported)
    ensures report.claims == CountOf(diagnostics, Supported) + CountOf(diagnostics, Unverifiable) <= |diagnostics|
    ensures report.validators == |ValidatorsNamed(diagnostics)| && report.proofs == |ProofsNamed(diagnostics)|
  {
    hide ValidatorsNamed, ProofsNamed, CountOf;
    NoneNamed(diagnostics);
    var counts: map<Support, nat> := map[];
    var claims, validators, named, supported := 0, 0, 0, 0;
    for i := 0 to |diagnostics|
      invariant forall s :: (s in counts <==> CountOf(diagnostics[..i], s) > 0)
                            && (s in counts ==> counts[s] == CountOf(diagnostics[..i], s))
      invariant supported == CountOf(diagnostics[..i], Supported)
      invariant claims == CountOf(diagnostics[..i], Supported) + CountOf(diagnostics[..i], Unverifiable) <= i
      invariant validators == |ValidatorsNamed(diagnostics[..i])| && named == |ProofsNamed(diagnostics[..i])|
    {
      var d := diagnostics[i];
      NamedStep(diagnostics, i);
      CountStep(diagnostics, i);
      counts := counts[d.support := (if d.support in counts then counts[d.support] else 0) + 1];
      claims := claims + if d.claimed then 1 else 0;
      validators := validators + if d.namesValidator then 1 else 0;
      named := named + if d.namesProof then 1 else 0;
      supported := supported + if d.support == Supported then 1 else 0;
    }
    assert diagnostics[..|diagnostics|] == diagnostics;
    report := Report(counts, claims, validators, named, supported, diagnostics);
  }

  // ------------------------------------------------------------------
  // What the audit promises
  // ------------------------------------------------------------------

  /** Shuffling the proofs, the cases or the artifacts never changes a finding's support, although
      the indexes keep the first record of an id. */
  method AuditTwice(findings: seq<Finding>, proofs: seq<Record<Proof>>, proofs': seq<Record<Proof>>,
                    cases: seq<Record<Case>>, cases': seq<Record<Case>>,
                    artifacts: seq<Record<Artifact>>, artifacts': seq<Record<Artifact>>)
    returns (one: Report, two: Report)
    requires multiset(proofs) == multiset(proofs') && multiset(cases) == multiset(cases')
    requires multiset(artifacts) == multiset(artifacts')
    ensures |one.diagnostics| == |two.diagnostics| == |findings|
    ensures forall i :: 0 <= i < |findings| ==> one.diagnostics[i].support == two.diagnostics[i].support
    ensures one.supported == two.supported
  {
    one := AuditFindings(findings, proofs, cases, artifacts);
    two := AuditFindings(findings, proofs', cases', artifacts');
    SameSupportsSameCount(one.diagnostics, two.diagnostics, Supported);
  }

  lemma {:induction false} SameSupportsSameCount(ds: seq<Diagnosis>, es: seq<Diagnosis>, s: Support)
    requires |ds| == |es| && forall i :: 0 <= i < |ds| ==> ds[i].support == es[i].support
    ensures CountOf(ds, s) == CountOf(es, s)
  {
    if ds != [] { SameSupportsSameCount(ds[..|ds| - 1], es[..|es| - 1], s); }
  }

  /** One more record beside those there: a unique record stays unique unless the newcomer takes its id. */
  lemma SoleOneMore<T(!new)>(bag: multiset<Record<T>>, more: Record<T>, id: string, r: Record<T>)
    requires Named(bag, id) || more.id != id
    ensures Sole(bag + multiset{more}, id, r) <==> Sole(bag, id, r) && more.id != id
  {
    ClashingOneMore(bag, more, id);
    if more.id != id && r in bag + multiset{more} && r.id == id { assert r in bag; }
  }

  /** A supported finding survives one more proof exactly when that proof does not take its proof's
      id; and a proof under an id already in use never turns a finding into a supported one. */
  lemma OneMoreProof(f: Finding, proofs: multiset<Record<Proof>>, cases: multiset<Record<Case>>,
                     artifacts: multiset<Record<Artifact>>, more: Record<Proof>)
    requires Named(proofs, more.id) || IsSupported(f, proofs, cases, artifacts)
    ensures IsSupported(f, proofs + multiset{more}, cases, artifacts) <==>
              IsSupported(f, proofs, cases, artifacts) && more.id != f.proofId
  {
    hide Sole, Named, SoundProof, EvidenceStands, ProofCase;
    if IsSupported(f, proofs, cases, artifacts) { SupportedIsNamed(f, proofs, cases, artifacts); }
    if Named(proofs, f.proofId) || more.id != f.proofId {
      forall p { SoleOneMore(proofs, more, f.proofId, p); }
    }
  }

  lemma SupportedIsNamed(f: Finding, proofs: multiset<Record<Proof>>, cases: multiset<Record<Case>>,
                         artifacts: multiset<Record<Artifact>>)
    requires IsSupported(f, proofs, cases, artifacts)
    ensures Named(proofs, f.proofId) && Named(cases, f.caseId)
  {}

  /** The same for one more case. */
  lemma OneMoreCase(f: Finding, proofs: multiset<Record<Proof>>, cases: multiset<Record<Case>>,
                    artifacts: multiset<Record<Artifact>>, more: Record<Case>)
    requires Named(cases, more.id) || IsSupported(f, proofs, cases, artifacts)
    ensures IsSupported(f, proofs, cases + multiset{more}, artifacts) <==>
              IsSupported(f, proofs, cases, artifacts) && more.id != f.caseId
  {
    hide Sole, Named, SoundProof, EvidenceStands;
    if IsSupported(f, proofs, cases, artifacts) { SupportedIsNamed(f, proofs, cases, artifacts); }
    if Named(cases, f.caseId) || more.id != f.caseId {
      forall c { SoleOneMore(cases, more, f.caseId, c); }
    }
  }

  /** The same for one more artifact: what is lost is any evidence that leaned on its id. */
  lemma OneMoreArtifact(p: Proof, artifacts: multiset<Record<Artifact>>, more: Record<Artifact>)
    requires Named(artifacts, more.id) || EvidenceStands(p, artifacts)
    ensures EvidenceStands(p, artifacts + multiset{more}) <==>
              EvidenceStands(p, artifacts) && more.id !in EvidenceIds(p)
  {
    hide Sole, GoodOutcome, EvidenceIds;
    forall id, a | Named(artifacts, id) || more.id != id
      ensures Sole(artifacts + multiset{more}, id, a) <==> Sole(artifacts, id, a) && more.id != id
    {
      SoleOneMore(artifacts, more, id, a);
    }
    forall id, a | Sole(artifacts, id, a) ensures Named(artifacts, id) { SoleIsNamed(artifacts, id, a); }
  }

  lemma SoleIsNamed<T(!new)>(bag: multiset<Record<T>>, id: string, r: Record<T>)
    requires Sole(bag, id, r)
    ensures Named(bag, id)
  {}

  /** Adding artifacts under used ids keeps or loses support, never gains it. */
  lemma OneMoreArtifactNeverHelps(f: Finding, proofs: multiset<Record<Proof>>, cases: multiset<Record<Case>>,
                                  artifacts: multiset<Record<Artifact>>, more: Record<Artifact>)
    requires Named(artifacts, more.id)
    ensures IsSupported(f, proofs, cases, artifacts + multiset{more}) ==> IsSupported(f, proofs, cases, artifacts)
  {
    hide Sole, GoodOutcome, EvidenceIds, EvidenceStands, SoundProof, ProofCase;
    forall p: Proof { OneMoreArtifact(p, artifacts, more); }
  }

  /** Indexing a shuffled list gives the same ids and the same duplicates, and the same record under
      every id held once. */
  lemma ShuffledIndex<T(!new)>(
      records: seq<Record<T>>, shuffled: seq<Record<T>>, first: map<string, T>, twice: set<string>,
      first': map<string, T>, twice': set<string>)
    requires multiset(records) == multiset(shuffled)
    requires IsIndex(records, first, twice) && IsIndex(shuffled, first', twice')
    ensures first.Keys == first'.Keys && twice == twice'
    ensures forall id :: id in first && id !in twice ==> first[id] == first'[id]
  {
    SameIds(records, shuffled, first, twice, first', twice');
    hide IsIndex, Sole;
    forall id | id in first && id !in twice ensures first[id] == first'[id] {
      SoleIsIndexed(records, first, twice, id, Record(id, first[id]));
      SoleIsIndexed(shuffled, first', twice', id, Record(id, first[id]));
    }
  }

  lemma SameIds<T(!new)>(records: seq<Record<T>>, shuffled: seq<Record<T>>, first: map<string, T>, twice: set<string>,
                         first': map<string, T>, twice': set<string>)
    requires multiset(records) == multiset(shuffled)
    requires IsIndex(records, first, twice) && IsIndex(shuffled, first', twice')
    ensures first.Keys == first'.Keys && twice == twice'
  {
    hide Named, Clashing, IsFirst;
    var bag := multiset(records);
    assert forall id :: id in first <==> Named(bag, id);
    assert forall id :: id in first' <==> Named(bag, id);
  }
}
