/** When the order of the records shows in the reasons an evidence audit lists. */
module EvidenceOrder {
  import opened Evidence

  /** Some record under the id has an outcome of this kind. */
  ghost predicate HasOutcome(artifacts: multiset<Record<Artifact>>, id: string, good: bool) {
    id != "" && exists r :: r in artifacts && r.id == id && GoodOutcome(r.body) == good
  }

  /** The one proof the finding names, under the one case it names. */
  ghost predicate OnPath(f: Finding, proofs: multiset<Record<Proof>>, cases: multiset<Record<Case>>, p: Proof) {
    && Sole(proofs, f.proofId, Record(f.proofId, p)) && ProofCase(p) == f.caseId
    && exists c :: Sole(cases, f.caseId, c)
  }

  /** Some artifact id the proof leans on has good and bad outcomes, and none has bad ones only. */
  ghost predicate Undecided(p: Proof, artifacts: multiset<Record<Artifact>>) {
    && (exists id :: id in EvidenceIds(p) && HasOutcome(artifacts, id, true) && HasOutcome(artifacts, id, false))
    && forall id :: id in EvidenceIds(p) && HasOutcome(artifacts, id, false) ==> HasOutcome(artifacts, id, true)
  }

  ghost predicate OrderMatters(f: Finding, proofs: multiset<Record<Proof>>, cases: multiset<Record<Case>>,
                               artifacts: multiset<Record<Artifact>>) {
    f.confirmed == Bool(true) && exists p :: OnPath(f, proofs, cases, p) && Undecided(p, artifacts)
  }

  /** The audit reports a bad outcome. */
  predicate ReportsBad(p: Proof, first: map<string, Artifact>) {
    exists id :: id in EvidenceIds(p) && id in first && !GoodOutcome(first[id])
  }

  // ------------------------------------------------------------------
  // Nothing but the reported outcome can depend on the order
  // ------------------------------------------------------------------

  lemma {:induction false} PathMeans(f: Finding, proofs: seq<Record<Proof>>, cases: seq<Record<Case>>, p: Proof)
    ensures OnPath(f, multiset(proofs), multiset(cases), p) <==>
              && PathFault(f, FirstOf(proofs), TwiceOf(proofs), FirstOf(cases), TwiceOf(cases)) == []
              && f.proofId in FirstOf(proofs) && p == FirstOf(proofs)[f.proofId]
  {
    hide IsIndex, Sole, FirstOf, TwiceOf, ProofCase;
    OfIsIndex(proofs);
    OfIsIndex(cases);
    NoEmptyId(proofs, FirstOf(proofs), TwiceOf(proofs));
    NoEmptyId(cases, FirstOf(cases), TwiceOf(cases));
    SoleIsIndexed(proofs, FirstOf(proofs), TwiceOf(proofs), f.proofId, Record(f.proofId, p));
    forall c ensures Sole(multiset(cases), f.caseId, c) <==>
                       && f.caseId in FirstOf(cases) && f.caseId !in TwiceOf(cases)
                       && c == Record(f.caseId, FirstOf(cases)[f.caseId])
    {
      SoleIsIndexed(cases, FirstOf(cases), TwiceOf(cases), f.caseId, c);
    }
    if f.caseId in FirstOf(cases) && f.caseId !in TwiceOf(cases) {
      assert Sole(multiset(cases), f.caseId, Record(f.caseId, FirstOf(cases)[f.caseId]));
    }
  }

  lemma {:induction false} ShuffledOf<T(!new)>(records: seq<Record<T>>, shuffled: seq<Record<T>>)
    requires multiset(records) == multiset(shuffled)
    ensures FirstOf(records).Keys == FirstOf(shuffled).Keys && TwiceOf(records) == TwiceOf(shuffled)
    ensures forall id :: id in FirstOf(records) && id !in TwiceOf(records) ==>
              FirstOf(records)[id] == FirstOf(shuffled)[id]
  {
    hide IsIndex, FirstOf, TwiceOf;
    OfIsIndex(records);
    OfIsIndex(shuffled);
    ShuffledIndex(records, shuffled, FirstOf(records), TwiceOf(records), FirstOf(shuffled), TwiceOf(shuffled));
  }

  /** The evidence objections with the bad outcome as a parameter. */
  lemma ObjectionsByOutcome(p: Proof, first: map<string, Artifact>, first': map<string, Artifact>, twice: set<string>)
    requires first.Keys == first'.Keys
    ensures EvidenceObjections(EvidenceIds(p), first, twice) == EvidenceObjections(EvidenceIds(p), first', twice)
            <==> ReportsBad(p, first) == ReportsBad(p, first')
  {
    hide GoodOutcome, EvidenceIds;
    var ids := EvidenceIds(p);
    if ids != [] {
      var missing := Note([], exists id :: id in ids && id !in first, EvidenceMissing);
      var unclear := Note(missing, exists id :: id in ids && id in twice, EvidenceAmbiguous);
      assert EvidenceObjections(ids, first, twice) == Note(unclear, ReportsBad(p, first), BadOutcome);
      assert (exists id :: id in ids && id !in first) <==> (exists id :: id in ids && id !in first');
      assert EvidenceObjections(ids, first', twice) == Note(unclear, ReportsBad(p, first'), BadOutcome);
    }
  }

  lemma {:induction false} ReasonsByOutcome(
      f: Finding, proofs: seq<Record<Proof>>, proofs': seq<Record<Proof>>, cases: seq<Record<Case>>,
      cases': seq<Record<Case>>, artifacts: seq<Record<Artifact>>, artifacts': seq<Record<Artifact>>)
    requires multiset(proofs) == multiset(proofs') && multiset(cases) == multiset(cases')
    requires multiset(artifacts) == multiset(artifacts')
    ensures ReasonsOf(f, proofs, cases, artifacts) == ReasonsOf(f, proofs', cases', artifacts') <==>
              (f.confirmed == Bool(true)
               && PathFault(f, FirstOf(proofs), TwiceOf(proofs), FirstOf(cases), TwiceOf(cases)) == []
               ==> ReportsBad(FirstOf(proofs)[f.proofId], FirstOf(artifacts))
                   == ReportsBad(FirstOf(proofs)[f.proofId], FirstOf(artifacts')))
  {
    hide FirstOf, TwiceOf, ProofObjections, EvidenceObjections, EvidenceIds, ReportsBad, ProofCase;
    ShuffledOf(proofs, proofs');
    ShuffledOf(cases, cases');
    ShuffledOf(artifacts, artifacts');
    SamePath(f, proofs, proofs', cases, cases');
    if f.confirmed == Bool(true)
       && PathFault(f, FirstOf(proofs), TwiceOf(proofs), FirstOf(cases), TwiceOf(cases)) == []
    {
      var p, c := FirstOf(proofs)[f.proofId], FirstOf(cases)[f.caseId];
      ObjectionsByOutcome(p, FirstOf(artifacts), FirstOf(artifacts'), TwiceOf(artifacts));
      ObjectionsAreFaults(f, p, c, FirstOf(artifacts), TwiceOf(artifacts));
      ObjectionsAreFaults(f, p, c, FirstOf(artifacts'), TwiceOf(artifacts));
      SameFront(ProofObjections(f, p, c), EvidenceObjections(EvidenceIds(p), FirstOf(artifacts), TwiceOf(artifacts)),
                EvidenceObjections(EvidenceIds(p), FirstOf(artifacts'), TwiceOf(artifacts)));
    }
  }

  lemma SameFront<T>(front: seq<T>, a: seq<T>, b: seq<T>)
    ensures front + a == front + b <==> a == b
  {
    assert (front + a)[|front|..] == a && (front + b)[|front|..] == b;
  }

  lemma {:induction false} SamePath(
      f: Finding, proofs: seq<Record<Proof>>, proofs': seq<Record<Proof>>, cases: seq<Record<Case>>,
      cases': seq<Record<Case>>)
    requires multiset(proofs) == multiset(proofs') && multiset(cases) == multiset(cases')
    ensures var fault := PathFault(f, FirstOf(proofs), TwiceOf(proofs), FirstOf(cases), TwiceOf(cases));
            && fault == PathFault(f, FirstOf(proofs'), TwiceOf(proofs'), FirstOf(cases'), TwiceOf(cases'))
            && (fault == [] ==> FirstOf(proofs)[f.proofId] == FirstOf(proofs')[f.proofId]
                                && FirstOf(cases)[f.caseId] == FirstOf(cases')[f.caseId])
  {
    hide FirstOf, TwiceOf, ProofCase;
    ShuffledOf(proofs, proofs');
    ShuffledOf(cases, cases');
  }

  // ------------------------------------------------------------------
  // What a shuffle can do to the reported outcome
  // ------------------------------------------------------------------

  lemma {:induction false} FirstIsThere(artifacts: seq<Record<Artifact>>, id: string)
    ensures id in FirstOf(artifacts) <==>
              HasOutcome(multiset(artifacts), id, true) || HasOutcome(multiset(artifacts), id, false)
    ensures id in FirstOf(artifacts) ==> HasOutcome(multiset(artifacts), id, GoodOutcome(FirstOf(artifacts)[id]))
  {
    hide GoodOutcome, FirstOf, TwiceOf, Clashing;
    OfIsIndex(artifacts);
    if id in FirstOf(artifacts) {
      var body := FirstOf(artifacts)[id];
      assert IsFirst(artifacts, id, body);
      assert Record(id, body) in multiset(artifacts);
    }
  }

  /** A bad outcome is reported in every order, in none, or in some: in every one when an id has bad
      outcomes only, in none when no id has any. */
  lemma {:induction false} ReportedWhen(p: Proof, artifacts: seq<Record<Artifact>>)
    ensures (exists id :: id in EvidenceIds(p) && HasOutcome(multiset(artifacts), id, false)
                          && !HasOutcome(multiset(artifacts), id, true))
            ==> ReportsBad(p, FirstOf(artifacts))
    ensures ReportsBad(p, FirstOf(artifacts)) ==>
              exists id :: id in EvidenceIds(p) && HasOutcome(multiset(artifacts), id, false)
  {
    hide GoodOutcome, FirstOf, EvidenceIds, HasOutcome;
    forall id { FirstIsThere(artifacts, id); }
  }

  /** The record at `i` is moved to the front. */
  function ToFront<T>(records: seq<Record<T>>, i: nat): seq<Record<T>>
    requires i < |records|
  {
    [records[i]] + records[..i] + records[i + 1..]
  }

  lemma ToFrontShuffles<T>(records: seq<Record<T>>, i: nat)
    requires i < |records|
    ensures multiset(ToFront(records, i)) == multiset(records)
  {
    assert records == records[..i] + [records[i]] + records[i + 1..];
  }

  lemma {:induction false} HeadIsFirst<T>(records: seq<Record<T>>)
    requires records != [] && records[0].id != ""
    ensures records[0].id in FirstOf(records) && FirstOf(records)[records[0].id] == records[0].body
  {
    var front := records[..|records| - 1];
    if front == [] {
      assert FirstOf(front) == map[];
    } else {
      HeadIsFirst(front);
    }
  }

  /** The records with a good outcome, or those without. */
  function Those(artifacts: seq<Record<Artifact>>, good: bool): seq<Record<Artifact>> {
    if artifacts == [] then []
    else
      var front, r := Those(artifacts[..|artifacts| - 1], good), artifacts[|artifacts| - 1];
      if GoodOutcome(r.body) == good then front + [r] else front
  }

  lemma {:induction false} ThoseShuffle(artifacts: seq<Record<Artifact>>)
    ensures multiset(Those(artifacts, true) + Those(artifacts, false)) == multiset(artifacts)
  {
    if artifacts != [] {
      hide GoodOutcome;
      var front, r := artifacts[..|artifacts| - 1], artifacts[|artifacts| - 1];
      ThoseShuffle(front);
      assert artifacts == front + [r];
    }
  }

  lemma {:induction false} ThoseAre(artifacts: seq<Record<Artifact>>, good: bool)
    ensures forall r :: r in Those(artifacts, good) <==> r in artifacts && GoodOutcome(r.body) == good
  {
    if artifacts != [] {
      hide GoodOutcome;
      var front, r := artifacts[..|artifacts| - 1], artifacts[|artifacts| - 1];
      ThoseAre(front, good);
      assert forall x :: x in artifacts <==> x in front || x == r;
    }
  }

  lemma {:induction false} FirstOfFront<T>(a: seq<Record<T>>, b: seq<Record<T>>, id: string)
    requires id in FirstOf(a)
    ensures id in FirstOf(a + b) && FirstOf(a + b)[id] == FirstOf(a)[id]
    decreases |b|
  {
    if b == [] {
      assert a + b == a;
    } else {
      FirstOfFront(a, b[..|b| - 1], id);
      assert (a + b)[..|a + b| - 1] == a + b[..|b| - 1];
    }
  }

  /** With the good records in front no bad outcome is reported that can be avoided. */
  lemma {:induction false} GoodInFront(p: Proof, artifacts: seq<Record<Artifact>>)
    requires forall id :: id in EvidenceIds(p) && HasOutcome(multiset(artifacts), id, false) ==>
              HasOutcome(multiset(artifacts), id, true)
    ensures !ReportsBad(p, FirstOf(Those(artifacts, true) + Those(artifacts, false)))
  {
    hide GoodOutcome, EvidenceIds, FirstOf, Those;
    var good, all := Those(artifacts, true), Those(artifacts, true) + Those(artifacts, false);
    ThoseShuffle(artifacts);
    ThoseAre(artifacts, true);
    forall id | id in EvidenceIds(p) && id in FirstOf(all) ensures GoodOutcome(FirstOf(all)[id]) {
      FirstIsThere(all, id);
      assert HasOutcome(multiset(artifacts), id, true);
      var r :| r in multiset(artifacts) && r.id == id && GoodOutcome(r.body);
      assert r in good && HasOutcome(multiset(good), id, true);
      FirstIsThere(good, id);
      assert forall x :: x in multiset(good) ==> x in good;
      FirstOfFront(good, Those(artifacts, false), id);
    }
  }

  /** With one bad record in front its bad outcome is reported. */
  lemma BadInFront(p: Proof, artifacts: seq<Record<Artifact>>, id: string) returns (shuffled: seq<Record<Artifact>>)
    requires id in EvidenceIds(p) && HasOutcome(multiset(artifacts), id, false)
    ensures multiset(shuffled) == multiset(artifacts) && ReportsBad(p, FirstOf(shuffled))
  {
    hide GoodOutcome, EvidenceIds, FirstOf;
    var r :| r in multiset(artifacts) && r.id == id && !GoodOutcome(r.body);
    var i :| 0 <= i < |artifacts| && artifacts[i] == r;
    shuffled := ToFront(artifacts, i);
    ToFrontShuffles(artifacts, i);
    HeadIsFirst(shuffled);
  }

  // ------------------------------------------------------------------
  // The exact condition
  // ------------------------------------------------------------------

  /** The listed reasons ignore the order of all records unless the exact condition holds. */
  lemma ReasonsIgnoreOrder(
      f: Finding, proofs: seq<Record<Proof>>, proofs': seq<Record<Proof>>, cases: seq<Record<Case>>,
      cases': seq<Record<Case>>, artifacts: seq<Record<Artifact>>, artifacts': seq<Record<Artifact>>)
    requires multiset(proofs) == multiset(proofs') && multiset(cases) == multiset(cases')
    requires multiset(artifacts) == multiset(artifacts')
    requires !OrderMatters(f, multiset(proofs), multiset(cases), multiset(artifacts))
    ensures ReasonsOf(f, proofs, cases, artifacts) == ReasonsOf(f, proofs', cases', artifacts')
  {
    hide FirstOf, TwiceOf, PathFault, ReasonsOf, ReportsBad, OnPath, EvidenceIds, HasOutcome;
    ReasonsByOutcome(f, proofs, proofs', cases, cases', artifacts, artifacts');
    if f.confirmed == Bool(true)
       && PathFault(f, FirstOf(proofs), TwiceOf(proofs), FirstOf(cases), TwiceOf(cases)) == []
    {
      var p := FirstOf(proofs)[f.proofId];
      PathMeans(f, proofs, cases, p);
      ReportedWhen(p, artifacts);
      ReportedWhen(p, artifacts');
    }
  }

  /** Where it holds, some shuffle of the artifacts alone changes the reasons. */
  lemma ReasonsCanFollowOrder(
      f: Finding, proofs: seq<Record<Proof>>, cases: seq<Record<Case>>, artifacts: seq<Record<Artifact>>)
    returns (shuffled: seq<Record<Artifact>>)
    requires OrderMatters(f, multiset(proofs), multiset(cases), multiset(artifacts))
    ensures multiset(shuffled) == multiset(artifacts)
    ensures ReasonsOf(f, proofs, cases, shuffled) != ReasonsOf(f, proofs, cases, artifacts)
  {
    hide FirstOf, TwiceOf, PathFault, ReasonsOf, ReportsBad, OnPath, EvidenceIds, HasOutcome;
    var p :| OnPath(f, multiset(proofs), multiset(cases), p) && Undecided(p, multiset(artifacts));
    PathMeans(f, proofs, cases, p);
    if ReportsBad(p, FirstOf(artifacts)) {
      shuffled := Those(artifacts, true) + Those(artifacts, false);
      ThoseShuffle(artifacts);
      GoodInFront(p, artifacts);
    } else {
      var id :| id in EvidenceIds(p) && HasOutcome(multiset(artifacts), id, false);
      shuffled := BadInFront(p, artifacts, id);
    }
    ReasonsByOutcome(f, proofs, proofs, cases, cases, artifacts, shuffled);
  }

  /** The reasons listed for a finding depend on the order of the records if and only if its claim gets
      as far as its evidence, some artifact id leaned on has good and bad outcomes, and none has bad
      ones only. */
  lemma ReasonsFollowOrderIff(
      f: Finding, proofs: seq<Record<Proof>>, cases: seq<Record<Case>>, artifacts: seq<Record<Artifact>>)
    ensures OrderMatters(f, multiset(proofs), multiset(cases), multiset(artifacts)) <==>
              exists proofs', cases', artifacts' :: Differs(f, proofs, cases, artifacts, proofs', cases', artifacts')
  {
    hide OrderMatters, ReasonsOf;
    if OrderMatters(f, multiset(proofs), multiset(cases), multiset(artifacts)) {
      var shuffled := ReasonsCanFollowOrder(f, proofs, cases, artifacts);
      assert Differs(f, proofs, cases, artifacts, proofs, cases, shuffled);
    } else {
      forall proofs', cases', artifacts' | Shuffles(proofs, cases, artifacts, proofs', cases', artifacts')
        ensures ReasonsOf(f, proofs, cases, artifacts) == ReasonsOf(f, proofs', cases', artifacts')
      {
        ReasonsIgnoreOrder(f, proofs, proofs', cases, cases', artifacts, artifacts');
      }
    }
  }

  ghost predicate Shuffles(proofs: seq<Record<Proof>>, cases: seq<Record<Case>>, artifacts: seq<Record<Artifact>>,
                           proofs': seq<Record<Proof>>, cases': seq<Record<Case>>, artifacts': seq<Record<Artifact>>) {
    && multiset(proofs) == multiset(proofs') && multiset(cases) == multiset(cases')
    && multiset(artifacts) == multiset(artifacts')
  }

  ghost predicate Differs(
      f: Finding, proofs: seq<Record<Proof>>, cases: seq<Record<Case>>, artifacts: seq<Record<Artifact>>,
      proofs': seq<Record<Proof>>, cases': seq<Record<Case>>, artifacts': seq<Record<Artifact>>) {
    && Shuffles(proofs, cases, artifacts, proofs', cases', artifacts')
    && ReasonsOf(f, proofs, cases, artifacts) != ReasonsOf(f, proofs', cases', artifacts')
  }

  // ------------------------------------------------------------------
  // Two audits that differ
  // ------------------------------------------------------------------

  /** A finding with its one proof and one case, which leans on one id with a good and a bad record. */
  method AuditsCanDiffer(
      f: Finding, p: Proof, c: Case, good: Artifact, bad: Artifact) returns (one: Report, two: Report)
    requires f.confirmed == Bool(true) && f.proofId != "" && f.caseId != "" && ProofCase(p) == f.caseId
    requires p.baseline != "" && p.attack == p.baseline && p.controls == []
    requires GoodOutcome(good) && !GoodOutcome(bad)
    ensures |one.diagnostics| == |two.diagnostics| == 1
    ensures one.diagnostics[0].reasons != two.diagnostics[0].reasons
    ensures one.diagnostics[0].support == two.diagnostics[0].support
  {
    hide GoodOutcome, ReasonsOf, SupportOf;
    var proofs, cases := [Record(f.proofId, p)], [Record(f.caseId, c)];
    var a, b := Record(p.baseline, good), Record(p.baseline, bad);
    OneClash(f, p, c, a, b);
    one := AuditFindings([f], proofs, cases, [a, b]);
    two := AuditFindings([f], proofs, cases, [b, a]);
    assert multiset([a, b]) == multiset([b, a]);
  }

  lemma OneClash(f: Finding, p: Proof, c: Case, a: Record<Artifact>, b: Record<Artifact>)
    requires f.confirmed == Bool(true) && f.proofId != "" && f.caseId != "" && ProofCase(p) == f.caseId
    requires EvidenceIds(p) == [p.baseline, p.baseline] && p.baseline != "" && a.id == b.id == p.baseline
    requires GoodOutcome(a.body) && !GoodOutcome(b.body)
    ensures ReasonsOf(f, [Record(f.proofId, p)], [Record(f.caseId, c)], [a, b])
         != ReasonsOf(f, [Record(f.proofId, p)], [Record(f.caseId, c)], [b, a])
  {
    hide GoodOutcome, ReasonsOf, PathFault, TwiceOf, FirstOf;
    var proofs, cases := [Record(f.proofId, p)], [Record(f.caseId, c)];
    assert multiset([a, b]) == multiset{a, b} == multiset([b, a]);
    ReasonsByOutcome(f, proofs, proofs, cases, cases, [a, b], [b, a]);
    AloneIsSole(Record(f.proofId, p));
    AloneIsSole(Record(f.caseId, c));
    PathMeans(f, proofs, cases, p);
    HeadIsFirst([a, b]);
    HeadIsFirst([b, a]);
    assert p.baseline in EvidenceIds(p);
  }

  lemma AloneIsSole<T(!new)>(r: Record<T>)
    requires r.id != ""
    ensures Sole(multiset([r]), r.id, r)
  {
    assert multiset([r]) == multiset{r};
  }
}
