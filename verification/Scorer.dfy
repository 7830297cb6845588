/** The sealed scorer: how claims are credited to expected mechanisms, and the pre-registered
    decision between two arms. */
module Scorer {
  import opened Options
  import Text

  // ------------------------------------------------------------------
  // Crediting claims
  // ------------------------------------------------------------------

  /** A claim; its classes are the lower-cased parts of its class label. */
  datatype Claim = Claim(verdict: string, validator: string, classes: set<string>, path: string)

  /** A match: a field left out is a wildcard. */
  datatype Spec = Spec(validator: Option<string>, cls: Option<string>, route: Option<string>)

  datatype Entry = Entry(spec: Spec, equivalents: seq<Spec>, available: bool)

  const AUDITED := {
    "confirmed", "confirmed_hardening", "confirmed_observation", "false_positive", "not_applicable", "not_supported"}

  predicate Verified(c: Claim) { c.verdict == "confirmed" }

  function TrimRight(path: string): string {
    if path != "" && path[|path| - 1] == '/' then TrimRight(path[..|path| - 1]) else path
  }

  function NormalRoute(path: string): string { if TrimRight(path) == "" then "/" else TrimRight(path) }

  predicate Matches(c: Claim, s: Spec) {
    && (s.validator.Some? ==> c.validator == s.validator.value)
    && (s.cls.Some? ==> Text.Lower(s.cls.value) in c.classes)
    && (s.route.Some? ==> NormalRoute(c.path) == NormalRoute(s.route.value))
  }

  predicate MatchesEntry(c: Claim, e: Entry) {
    Matches(c, e.spec) || exists s :: s in e.equivalents && Matches(c, s)
  }

  /** Where an available entry ends up. */
  datatype Standing = Direct | ViaEquivalence | NoClaim | NotAudited | NotConfirmed

  function StandingOf(e: Entry, claims: seq<Claim>): Standing {
    if exists c :: c in claims && Verified(c) && Matches(c, e.spec) then Direct
    else if exists c :: c in claims && Verified(c) && MatchesEntry(c, e) then ViaEquivalence
    else if !exists c :: c in claims && MatchesEntry(c, e) then NoClaim
    else if exists c :: c in claims && MatchesEntry(c, e) && c.verdict in AUDITED then NotConfirmed
    else NotAudited
  }

  // ------------------------------------------------------------------
  // The same, told on validators, classes and routes.
  // ------------------------------------------------------------------

  /** The same path but for slashes at the end. */
  ghost predicate SameRoute(a: string, b: string) {
    exists m: nat, n: nat :: SlashesFrom(a, m) && SlashesFrom(b, n) && a[..m] == b[..n]
  }

  ghost predicate SlashesFrom(s: string, n: nat) { n <= |s| && forall i :: n <= i < |s| ==> s[i] == '/' }

  lemma {:induction false} Trimmed(s: string, n: nat)
    requires SlashesFrom(s, n)
    ensures TrimRight(s) == TrimRight(s[..n])
  {
    if n < |s| {
      assert s[..|s| - 1][..n] == s[..n];
      Trimmed(s[..|s| - 1], n);
    } else {
      assert s[..n] == s;
    }
  }

  lemma {:induction false} TrimCuts(s: string) returns (n: nat)
    ensures SlashesFrom(s, n) && TrimRight(s) == s[..n] && (n > 0 ==> s[n - 1] != '/')
  {
    if s != "" && s[|s| - 1] == '/' {
      n := TrimCuts(s[..|s| - 1]);
      assert s[..|s| - 1][..n] == s[..n];
    } else {
      n := |s|;
      assert s[..n] == s;
    }
  }

  lemma SameRouteIff(a: string, b: string)
    ensures NormalRoute(a) == NormalRoute(b) <==> SameRoute(a, b)
  {
    var m := TrimCuts(a);
    var n := TrimCuts(b);
    if SameRoute(a, b) {
      var k: nat, l: nat :| SlashesFrom(a, k) && SlashesFrom(b, l) && a[..k] == b[..l];
      Trimmed(a, k);
      Trimmed(b, l);
    }
  }

  /** Every field of the match agrees with the claim. */
  ghost predicate Fits(c: Claim, s: Spec) {
    && (s.validator == None || s.validator == Some(c.validator))
    && (s.cls == None || exists cls :: cls in c.classes && cls == Text.Lower(s.cls.value))
    && (s.route == None || SameRoute(c.path, s.route.value))
  }

  ghost predicate FitsEntry(c: Claim, e: Entry) {
    Fits(c, e.spec) || exists k :: 0 <= k < |e.equivalents| && Fits(c, e.equivalents[k])
  }

  lemma FitsIff(c: Claim, s: Spec)
    ensures Matches(c, s) <==> Fits(c, s)
  {
    hide SameRoute, NormalRoute;
    if s.route.Some? { SameRouteIff(c.path, s.route.value); }
  }

  lemma FitsEntryIff(c: Claim, e: Entry)
    ensures MatchesEntry(c, e) <==> FitsEntry(c, e)
  {
    hide Matches, Fits;
    FitsIff(c, e.spec);
    forall k | 0 <= k < |e.equivalents| ensures Matches(c, e.equivalents[k]) <==> Fits(c, e.equivalents[k]) {
      FitsIff(c, e.equivalents[k]);
    }
  }

  /** Some claim with one of these verdicts fits the entry. */
  ghost predicate SomeFits(claims: seq<Claim>, e: Entry, verdicts: set<string>) {
    exists c :: c in claims && c.verdict in verdicts && FitsEntry(c, e)
  }

  ghost predicate SomeFitsDirectly(claims: seq<Claim>, e: Entry) {
    exists c :: c in claims && c.verdict == "confirmed" && Fits(c, e.spec)
  }

  /** What each standing says about the claims that fit the entry; exactly one holds. */
  lemma StandingMeans(e: Entry, claims: seq<Claim>)
    ensures var s := StandingOf(e, claims);
            var audited := {"confirmed", "confirmed_hardening", "confirmed_observation", "false_positive",
                            "not_applicable", "not_supported"};
            var confirmed := SomeFits(claims, e, {"confirmed"});
            && (s == Direct <==> SomeFitsDirectly(claims, e))
            && (s == ViaEquivalence <==> confirmed && !SomeFitsDirectly(claims, e))
            && (s == NotConfirmed <==> !confirmed && SomeFits(claims, e, audited))
            && (s == NoClaim <==> forall c :: c in claims ==> !FitsEntry(c, e))
            && (s == NotAudited <==>
                  !SomeFits(claims, e, audited) && exists c :: c in claims && FitsEntry(c, e))
  {
    forall c | c in claims
      ensures (Matches(c, e.spec) <==> Fits(c, e.spec)) && (MatchesEntry(c, e) <==> FitsEntry(c, e))
    {
      FitsIff(c, e.spec);
      FitsEntryIff(c, e);
    }
    assert forall c: Claim :: Matches(c, e.spec) ==> MatchesEntry(c, e);
    hide Matches, MatchesEntry, Fits, FitsEntry;
  }

  function Hits(c: Claim, entries: seq<Entry>): set<nat> {
    set i | 0 <= i < |entries| && MatchesEntry(c, entries[i])
  }

  /** No verified claim matches two entries, available or not. */
  ghost predicate Disjoint(claims: seq<Claim>, entries: seq<Entry>) {
    forall c :: c in claims && Verified(c) ==> |Hits(c, entries)| <= 1
  }

  /** How many available entries have this standing. */
  function CountOf(entries: seq<Entry>, claims: seq<Claim>, s: Standing): nat {
    if entries == [] then 0
    else
      var last := entries[|entries| - 1];
      CountOf(entries[..|entries| - 1], claims, s)
      + if last.available && StandingOf(last, claims) == s then 1 else 0
  }

  function Available(entries: seq<Entry>): (n: nat)
    ensures n <= |entries|
  {
    if entries == [] then 0
    else Available(entries[..|entries| - 1]) + if entries[|entries| - 1].available then 1 else 0
  }

  function VerifiedCount(claims: seq<Claim>): (n: nat)
    ensures n <= |claims|
  {
    if claims == [] then 0
    else VerifiedCount(claims[..|claims| - 1]) + if Verified(claims[|claims| - 1]) then 1 else 0
  }

  ghost function WithStanding(entries: seq<Entry>, claims: seq<Claim>, s: Standing): set<nat> {
    set i | 0 <= i < |entries| && entries[i].available && StandingOf(entries[i], claims) == s
  }

  ghost function AvailableAt(entries: seq<Entry>): set<nat> {
    set i | 0 <= i < |entries| && entries[i].available
  }

  ghost function ConfirmedAt(claims: seq<Claim>): set<nat> {
    set i | 0 <= i < |claims| && claims[i].verdict == "confirmed"
  }

  /** The counts are what they say. */
  lemma {:induction false} CountOfMeans(entries: seq<Entry>, claims: seq<Claim>, s: Standing)
    ensures CountOf(entries, claims, s) == |WithStanding(entries, claims, s)|
  {
    hide StandingOf;
    if entries != [] {
      var front, last := entries[..|entries| - 1], entries[|entries| - 1];
      CountOfMeans(front, claims, s);
      assert WithStanding(entries, claims, s)
          == WithStanding(front, claims, s) + if last.available && StandingOf(last, claims) == s then {|front|} else {};
    }
  }

  lemma {:induction false} AvailableMeans(entries: seq<Entry>)
    ensures Available(entries) == |AvailableAt(entries)|
  {
    if entries != [] {
      var front, last := entries[..|entries| - 1], entries[|entries| - 1];
      AvailableMeans(front);
      assert AvailableAt(entries) == AvailableAt(front) + if last.available then {|front|} else {};
    }
  }

  lemma {:induction false} VerifiedCountMeans(claims: seq<Claim>)
    ensures VerifiedCount(claims) == |ConfirmedAt(claims)|
  {
    if claims != [] {
      var front, last := claims[..|claims| - 1], claims[|claims| - 1];
      VerifiedCountMeans(front);
      assert ConfirmedAt(claims) == ConfirmedAt(front) + if last.verdict == "confirmed" then {|front|} else {};
    }
  }

  datatype Recall = NoDenominator | Recall(primary: nat, denominator: int)

  datatype Score = Score(
    direct: nat, viaEquivalence: nat, noClaim: nat, notAudited: nat, notConfirmed: nat,
    available: nat, unavailable: nat, verified: nat, recall: Recall)

  datatype ScoreResult = Scored(score: Score) | NotDisjoint | TotalTooSmall

  method CountHits(c: Claim, entries: seq<Entry>) returns (hits: nat)
    ensures hits == |Hits(c, entries)|
  {
    hits := 0;
    assert Hits(c, entries[..0]) == {};
    for i := 0 to |entries|
      invariant hits == |Hits(c, entries[..i])|
    {
      HitsStep(c, entries, i);
      if MatchesEntry(c, entries[i]) {
        hits := hits + 1;
      }
    }
    assert entries[..|entries|] == entries;
  }

  lemma HitsStep(c: Claim, entries: seq<Entry>, i: nat)
    requires i < |entries|
    ensures |Hits(c, entries[..i + 1])| == |Hits(c, entries[..i])| + if MatchesEntry(c, entries[i]) then 1 else 0
  {
    assert Hits(c, entries[..i + 1]) == Hits(c, entries[..i]) + if MatchesEntry(c, entries[i]) then {i} else {};
  }

  method ScoreRepeat(claims: seq<Claim>, entries: seq<Entry>, total: Option<int>) returns (r: ScoreResult)
    ensures r == NotDisjoint <==> !Disjoint(claims, entries)
    ensures r == TotalTooSmall <==>
              Disjoint(claims, entries) && total.Some?
              && (total.value - (|entries| - Available(entries)) < Available(entries)
                  || total.value - (|entries| - Available(entries)) < 1)
    ensures r.Scored? ==>
              var s := r.score;
              && s.direct == CountOf(entries, claims, Direct)
              && s.viaEquivalence == CountOf(entries, claims, ViaEquivalence)
              && s.noClaim == CountOf(entries, claims, NoClaim) && s.notAudited == CountOf(entries, claims, NotAudited)
              && s.notConfirmed == CountOf(entries, claims, NotConfirmed)
              && s.available == Available(entries) && s.unavailable == |entries| - Available(entries)
              && s.verified == VerifiedCount(claims)
              && s.recall == if total.None? then NoDenominator
                             else Recall(s.direct + s.viaEquivalence, total.value - s.unavailable)
  {
    var verified := 0;
    for i := 0 to |claims|
      invariant verified == VerifiedCount(claims[..i])
      invariant forall k :: 0 <= k < i && Verified(claims[k]) ==> |Hits(claims[k], entries)| <= 1
    {
      assert claims[..i + 1][..i] == claims[..i];
      if Verified(claims[i]) {
        verified := verified + 1;
        var hits := CountHits(claims[i], entries);
        if hits > 1 {
          return NotDisjoint;
        }
      }
    }
    assert claims[..|claims|] == claims && entries[..|entries|] == entries;
    var s := CountStandings(entries, claims);
    var unavailable := |entries| - s.available;
    if total.Some? && (total.value - unavailable < s.available || total.value - unavailable < 1) {
      return TotalTooSmall;
    }
    return Scored(s.(verified := verified, unavailable := unavailable, recall :=
      if total.None? then NoDenominator else Recall(s.direct + s.viaEquivalence, total.value - unavailable)));
  }

  method CountStandings(entries: seq<Entry>, claims: seq<Claim>) returns (s: Score)
    ensures s.direct == CountOf(entries, claims, Direct) && s.viaEquivalence == CountOf(entries, claims, ViaEquivalence)
    ensures s.noClaim == CountOf(entries, claims, NoClaim) && s.notAudited == CountOf(entries, claims, NotAudited)
    ensures s.notConfirmed == CountOf(entries, claims, NotConfirmed) && s.available == Available(entries)
  {
    hide StandingOf;
    s := Score(0, 0, 0, 0, 0, 0, 0, 0, NoDenominator);
    for i := 0 to |entries|
      invariant s.direct == CountOf(entries[..i], claims, Direct)
      invariant s.viaEquivalence == CountOf(entries[..i], claims, ViaEquivalence)
      invariant s.noClaim == CountOf(entries[..i], claims, NoClaim)
      invariant s.notAudited == CountOf(entries[..i], claims, NotAudited)
      invariant s.notConfirmed == CountOf(entries[..i], claims, NotConfirmed)
      invariant s.available == Available(entries[..i])
    {
      var e := entries[i];
      assert entries[..i + 1][..i] == entries[..i] && entries[..i + 1][i] == e;
      if !e.available {
        continue;
      }
      s := s.(available := s.available + 1);
      match StandingOf(e, claims)
      case Direct => s := s.(direct := s.direct + 1);
      case ViaEquivalence => s := s.(viaEquivalence := s.viaEquivalence + 1);
      case NoClaim => s := s.(noClaim := s.noClaim + 1);
      case NotAudited => s := s.(notAudited := s.notAudited + 1);
      case NotConfirmed => s := s.(notConfirmed := s.notConfirmed + 1);
    }
    assert entries[..|entries|] == entries;
  }

  /** Every available entry has exactly one standing. */
  lemma {:induction false} StandingsAddUp(entries: seq<Entry>, claims: seq<Claim>)
    ensures CountOf(entries, claims, Direct) + CountOf(entries, claims, ViaEquivalence)
            + CountOf(entries, claims, NoClaim) + CountOf(entries, claims, NotAudited)
            + CountOf(entries, claims, NotConfirmed) == Available(entries)
  {
    if entries != [] {
      StandingsAddUp(entries[..|entries| - 1], claims);
    }
  }

  predicate IsCredited(e: Entry, claims: seq<Claim>) {
    e.available && exists c :: c in claims && Verified(c) && MatchesEntry(c, e)
  }

  /** The available entries some verified claim is credited to. */
  ghost function Credited(entries: seq<Entry>, claims: seq<Claim>): set<nat> {
    set i | 0 <= i < |entries| && IsCredited(entries[i], claims)
  }

  lemma CreditedStanding(e: Entry, claims: seq<Claim>)
    ensures IsCredited(e, claims) <==> e.available && StandingOf(e, claims) in {Direct, ViaEquivalence}
  {}

  lemma {:induction false} CreditedCount(entries: seq<Entry>, claims: seq<Claim>)
    ensures |Credited(entries, claims)| == CountOf(entries, claims, Direct) + CountOf(entries, claims, ViaEquivalence)
  {
    hide IsCredited, StandingOf;
    if entries != [] {
      var front, last := entries[..|entries| - 1], entries[|entries| - 1];
      CreditedCount(front, claims);
      CreditedStanding(last, claims);
      assert Credited(entries, claims) == Credited(front, claims) + if IsCredited(last, claims) then {|front|} else {};
    }
  }

  /** One more verified claim credits at most one more entry, when no claim hits two. */
  lemma {:induction false} CreditedAtMostClaims(entries: seq<Entry>, claims: seq<Claim>)
    requires Disjoint(claims, entries)
    ensures |Credited(entries, claims)| <= VerifiedCount(claims)
  {
    if claims == [] {
      assert Credited(entries, claims) == {};
    } else {
      var front, last := claims[..|claims| - 1], claims[|claims| - 1];
      assert forall c :: c in claims <==> c in front || c == last;
      CreditedAtMostClaims(entries, front);
      if Verified(last) {
        var more := Hits(last, entries);
        assert Credited(entries, claims) <= Credited(entries, front) + more;
        SubsetSize(Credited(entries, claims), Credited(entries, front) + more);
      } else {
        assert Credited(entries, claims) == Credited(entries, front);
      }
    }
  }

  lemma SubsetSize<T>(a: set<T>, b: set<T>)
    requires a <= b
    ensures |a| <= |b|
  {
    if a != {} {
      var x :| x in a;
      SubsetSize(a - {x}, b - {x});
    }
  }

  /** Whatever is scored: verified mechanisms never exceed confirmed claims, the five standings
      add up to the available entries, and recall is a share between 0 and 1. */
  method ScoreIsSound(claims: seq<Claim>, entries: seq<Entry>, total: Option<int>) returns (r: ScoreResult)
    ensures r.Scored? ==>
              var s := r.score;
              && s.direct + s.viaEquivalence <= s.verified
              && s.direct + s.viaEquivalence + s.noClaim + s.notAudited + s.notConfirmed == s.available
              && (s.recall.Recall? ==> 0 <= s.recall.primary <= s.recall.denominator && s.recall.denominator >= 1)
  {
    r := ScoreRepeat(claims, entries, total);
    StandingsAddUp(entries, claims);
    CreditedCount(entries, claims);
    if Disjoint(claims, entries) { CreditedAtMostClaims(entries, claims); }
  }

  // ------------------------------------------------------------------
  // The decision
  // ------------------------------------------------------------------

  ghost predicate Sorted(s: seq<real>) { forall i, j :: 0 <= i <= j < |s| ==> s[i] <= s[j] }

  function Insert(x: real, s: seq<real>): seq<real> {
    if s == [] || x <= s[0] then [x] + s else [s[0]] + Insert(x, s[1..])
  }

  function Sort(s: seq<real>): (r: seq<real>)
    ensures |r| == |s|
  {
    if s == [] then [] else
      InsertLength(s[0], Sort(s[1..]));
      Insert(s[0], Sort(s[1..]))
  }

  lemma {:induction false} InsertLength(x: real, s: seq<real>)
    ensures |Insert(x, s)| == |s| + 1
  {
    if s != [] && x > s[0] { InsertLength(x, s[1..]); }
  }

  function Median(s: seq<real>): real
    requires s != []
  {
    var data, h := Sort(s), |s| / 2;
    if |s| % 2 == 1 then data[h] else (data[h - 1] + data[h]) / 2.0
  }

  function Least(s: seq<real>): real
    requires s != []
  {
    if |s| == 1 then s[0] else var m := Least(s[1..]); if s[0] <= m then s[0] else m
  }

  datatype Verdict = Better | Worse | NoDifference | NoRepeats

  function Decide(baseline: seq<real>, candidate: seq<real>, baselineFailed: bool, candidateFailed: bool): Verdict {
    if baseline == [] || candidate == [] then NoRepeats
    else
      var a, b := Median(baseline), Median(candidate);
      if b > a && Least(candidate) >= a && !candidateFailed then Better
      else if a > b && Least(baseline) >= b && !baselineFailed then Worse
      else NoDifference
  }

  /** How many values are at most `v`. */
  function AtMost(s: seq<real>, v: real): (n: nat)
    ensures n <= |s|
  {
    if s == [] then 0 else (if s[0] <= v then 1 else 0) + AtMost(s[1..], v)
  }

  lemma {:induction false} InsertKeeps(x: real, s: seq<real>, v: real)
    requires Sorted(s)
    ensures Sorted(Insert(x, s)) && (forall y :: y in Insert(x, s) <==> y == x || y in s)
    ensures AtMost(Insert(x, s), v) == (if x <= v then 1 else 0) + AtMost(s, v)
  {
    if s != [] && x > s[0] {
      InsertKeeps(x, s[1..], v);
      var rest := Insert(x, s[1..]);
      forall y | y in rest ensures s[0] <= y { assert y == x || y in s[1..]; }
      assert Insert(x, s)[1..] == rest;
    } else {
      assert ([x] + s)[1..] == s;
    }
  }

  lemma {:induction false} SortKeeps(s: seq<real>, v: real)
    ensures Sorted(Sort(s)) && AtMost(Sort(s), v) == AtMost(s, v)
  {
    if s != [] {
      SortKeeps(s[1..], v);
      InsertKeeps(s[0], Sort(s[1..]), v);
    }
  }

  /** In a sorted list the `k`-th value is at most `v` exactly when more than `k` values are. */
  lemma {:induction false} RankIsCount(s: seq<real>, k: nat, v: real)
    requires Sorted(s) && k < |s|
    ensures s[k] <= v <==> AtMost(s, v) > k
  {
    if s[0] <= v {
      if k > 0 { RankIsCount(s[1..], k - 1, v); }
    } else {
      NoneAtMost(s, v);
    }
  }

  lemma {:induction false} NoneAtMost(s: seq<real>, v: real)
    requires forall x :: x in s ==> x > v
    ensures AtMost(s, v) == 0
  {
    if s != [] {
      assert s[0] in s && forall x :: x in s[1..] ==> x in s;
      NoneAtMost(s[1..], v);
    }
  }

  /** Ordered pointwise, ordered at every rank. */
  lemma {:induction false} RanksAreMonotone(xs: seq<real>, ys: seq<real>, k: nat)
    requires |xs| == |ys| && k < |xs|
    requires forall v :: AtMost(xs, v) >= AtMost(ys, v)
    ensures Sort(xs)[k] <= Sort(ys)[k]
  {
    var v := Sort(ys)[k];
    SortKeeps(xs, v);
    SortKeeps(ys, v);
    RankIsCount(Sort(ys), k, v);
    RankIsCount(Sort(xs), k, v);
  }

  ghost predicate Pointwise(xs: seq<real>, ys: seq<real>) {
    |xs| == |ys| && forall i :: 0 <= i < |xs| ==> xs[i] <= ys[i]
  }

  lemma {:induction false} PointwiseCounts(xs: seq<real>, ys: seq<real>, v: real)
    requires Pointwise(xs, ys)
    ensures AtMost(xs, v) >= AtMost(ys, v)
  {
    if xs != [] { PointwiseCounts(xs[1..], ys[1..], v); }
  }

  lemma MedianIsMonotone(xs: seq<real>, ys: seq<real>)
    requires xs != [] && Pointwise(xs, ys)
    ensures Median(xs) <= Median(ys)
  {
    forall v ensures AtMost(xs, v) >= AtMost(ys, v) { PointwiseCounts(xs, ys, v); }
    var h := |xs| / 2;
    RanksAreMonotone(xs, ys, h);
    if |xs| % 2 == 0 { RanksAreMonotone(xs, ys, h - 1); }
  }

  lemma {:induction false} LeastIsMonotone(xs: seq<real>, ys: seq<real>)
    requires xs != [] && Pointwise(xs, ys)
    ensures Least(xs) <= Least(ys)
  {
    if |xs| > 1 { LeastIsMonotone(xs[1..], ys[1..]); }
  }

  lemma {:induction false} LeastBounds(s: seq<real>)
    requires s != []
    ensures Least(s) in s && forall x :: x in s ==> Least(s) <= x
  {
    if |s| > 1 {
      LeastBounds(s[1..]);
      assert forall x :: x in s ==> x == s[0] || x in s[1..];
    }
  }

  /** The median halves its list: at least half of the values are at most any bound from the median
      up, and at most half are at most any bound below it. */
  lemma {:induction false} MedianHalves(s: seq<real>, v: real)
    requires s != []
    ensures if v >= Median(s) then 2 * AtMost(s, v) >= |s| else 2 * AtMost(s, v) <= |s|
  {
    hide AtMost, Sort;
    var h, data := |s| / 2, Sort(s);
    SortKeeps(s, v);
    RankIsCount(data, h, v);
    if |s| % 2 == 0 {
      assert data[h - 1] <= data[h];
      RankIsCount(data, h - 1, v);
    }
  }

  lemma {:induction false} NoneAbove(s: seq<real>, v: real)
    requires forall x :: x in s ==> x <= v
    ensures AtMost(s, v) == |s|
  {
    if s != [] {
      assert s[0] in s && forall x :: x in s[1..] ==> x in s;
      NoneAbove(s[1..], v);
    }
  }

  lemma MedianWithin(s: seq<real>, low: real, high: real)
    requires s != [] && forall x :: x in s ==> low <= x <= high
    ensures low <= Median(s) <= high
  {
    hide AtMost, Sort, Median;
    NoneAbove(s, high);
    if Median(s) < low {
      var v := (Median(s) + low) / 2.0;
      NoneAtMost(s, v);
      MedianHalves(s, v);
    }
    if Median(s) > high {
      MedianHalves(s, high);
    }
  }

  /** A clear win is a win: when every candidate repeat beats every baseline repeat and no candidate
      repeat failed a hard criterion, the candidate is better. */
  lemma ClearWinIsBetter(a: seq<real>, b: seq<real>, failedA: bool)
    requires a != [] && b != [] && forall x, y :: x in a && y in b ==> x < y
    ensures Decide(a, b, failedA, false) == Better
  {
    hide Median, Least;
    LeastBounds(a);
    LeastBounds(b);
    var top := Greatest(a);
    var best := Greatest(b);
    MedianWithin(a, Least(a), top);
    MedianWithin(b, Least(b), best);
  }

  lemma {:induction false} Greatest(s: seq<real>) returns (top: real)
    requires s != []
    ensures top in s && forall x :: x in s ==> x <= top
  {
    top := s[0];
    if |s| > 1 {
      var rest := Greatest(s[1..]);
      assert forall x :: x in s ==> x == s[0] || x in s[1..];
      if rest > top { top := rest; }
    }
  }

  /** Swapping the arms swaps better and worse. */
  lemma DecisionIsSymmetric(a: seq<real>, b: seq<real>, failedA: bool, failedB: bool)
    ensures Decide(a, b, failedA, failedB) == Better <==> Decide(b, a, failedB, failedA) == Worse
    ensures Decide(a, b, failedA, failedB) == NoDifference <==> Decide(b, a, failedB, failedA) == NoDifference
  {}

  /** A better candidate stays better when its repeats rise or the baseline's fall. */
  lemma BetterIsMonotone(a: seq<real>, b: seq<real>, a': seq<real>, b': seq<real>, failedA: bool, failedA': bool)
    requires Decide(a, b, failedA, false) == Better && Pointwise(a', a) && Pointwise(b, b')
    ensures Decide(a', b', failedA', false) == Better
  {
    MedianIsMonotone(a', a);
    MedianIsMonotone(b, b');
    LeastIsMonotone(b, b');
  }

  /** A better candidate never failed a hard criterion, and at least half of the baseline repeats
      are no better than its worst repeat. */
  lemma {:induction false} BetterMeans(a: seq<real>, b: seq<real>, failedA: bool, failedB: bool, x: real)
    requires Decide(a, b, failedA, failedB) == Better && x in b
    ensures !failedB && 2 * AtMost(a, x) >= |a|
  {
    LeastBounds(b);
    var h, data := |a| / 2, Sort(a);
    SortKeeps(a, x);
    if |a| % 2 == 1 {
      RankIsCount(data, h, x);
    } else {
      assert data[h - 1] <= data[h];
      RankIsCount(data, h - 1, x);
    }
  }

  /** The order in which the repeats are listed does not matter. */
  lemma DecisionIgnoresOrder(a: seq<real>, a': seq<real>, b: seq<real>, b': seq<real>, failedA: bool, failedB: bool)
    requires multiset(a) == multiset(a') && multiset(b) == multiset(b')
    ensures Decide(a, b, failedA, failedB) == Decide(a', b', failedA, failedB)
  {
    SameStatistics(a, a');
    SameStatistics(b, b');
  }

  lemma {:induction false} AtMostPermutes(xs: seq<real>, ys: seq<real>, v: real)
    requires multiset(xs) == multiset(ys)
    ensures AtMost(xs, v) == AtMost(ys, v)
    decreases |xs|
  {
    if xs == [] {
      assert |ys| == |multiset(ys)| == 0;
    } else {
      assert xs[0] in multiset(ys);
      var i :| 0 <= i < |ys| && ys[i] == xs[0];
      WithoutOne(xs, ys, i);
      AtMostPermutes(xs[1..], ys[..i] + ys[i + 1..], v);
      AtMostWithout(ys, i, v);
    }
  }

  lemma WithoutOne(xs: seq<real>, ys: seq<real>, i: nat)
    requires xs != [] && i < |ys| && ys[i] == xs[0] && multiset(xs) == multiset(ys)
    ensures multiset(xs[1..]) == multiset(ys[..i] + ys[i + 1..])
  {
    RemoveAt(xs, 0);
    RemoveAt(ys, i);
    assert xs[..0] + xs[1..] == xs[1..];
  }

  lemma RemoveAt(s: seq<real>, i: nat)
    requires i < |s|
    ensures multiset(s[..i] + s[i + 1..]) == multiset(s) - multiset{s[i]}
  {
    assert s == s[..i] + [s[i]] + s[i + 1..];
  }

  lemma {:induction false} AtMostWithout(ys: seq<real>, i: nat, v: real)
    requires i < |ys|
    ensures AtMost(ys, v) == AtMost(ys[..i] + ys[i + 1..], v) + if ys[i] <= v then 1 else 0
  {
    var rest := ys[..i] + ys[i + 1..];
    if i == 0 {
      assert rest == ys[1..];
    } else {
      assert rest[0] == ys[0] && rest[1..] == ys[1..][..i - 1] + ys[1..][i..];
      AtMostWithout(ys[1..], i - 1, v);
    }
  }

  lemma {:induction false} SortsAlike(xs: seq<real>, ys: seq<real>)
    requires multiset(xs) == multiset(ys)
    ensures |xs| == |ys| && Sort(xs) == Sort(ys)
  {
    hide AtMost, Sort;
    assert |xs| == |multiset(xs)| == |multiset(ys)| == |ys|;
    forall v ensures AtMost(xs, v) == AtMost(ys, v) { AtMostPermutes(xs, ys, v); }
    forall k | 0 <= k < |xs| ensures Sort(xs)[k] == Sort(ys)[k] {
      RanksAreMonotone(xs, ys, k);
      RanksAreMonotone(ys, xs, k);
    }
  }

  lemma {:induction false} LeastOfAlike(xs: seq<real>, ys: seq<real>)
    requires xs != [] && ys != [] && multiset(xs) == multiset(ys)
    ensures Least(xs) == Least(ys)
  {
    hide Least;
    LeastBounds(xs);
    LeastBounds(ys);
    var x, y := Least(xs), Least(ys);
    assert x in multiset(ys) && y in multiset(xs);
    assert x in ys && y in xs;
  }

  lemma {:induction false} SameStatistics(xs: seq<real>, ys: seq<real>)
    requires multiset(xs) == multiset(ys)
    ensures |xs| == |ys|
    ensures xs != [] ==> Median(xs) == Median(ys) && Least(xs) == Least(ys)
  {
    hide Least, Sort;
    SortsAlike(xs, ys);
    if xs != [] { LeastOfAlike(xs, ys); }
  }

  /** A middle value: of some listing in order, the one in the middle, or halfway between the two. */
  ghost predicate IsMedian(s: seq<real>, m: real)
    requires s != []
  {
    exists t :: Sorted(t) && multiset(t) == multiset(s) && |t| == |s| && m == Middle(t)
  }

  ghost function Middle(t: seq<real>): real
    requires t != []
  {
    if |t| % 2 == 1 then t[|t| / 2] else (t[|t| / 2 - 1] + t[|t| / 2]) / 2.0
  }

  lemma {:induction false} InsertPermutes(x: real, s: seq<real>)
    ensures multiset(Insert(x, s)) == multiset(s) + multiset{x}
  {
    if s != [] && x > s[0] {
      InsertPermutes(x, s[1..]);
      assert s == [s[0]] + s[1..];
    }
  }

  lemma {:induction false} SortPermutes(s: seq<real>)
    ensures multiset(Sort(s)) == multiset(s)
  {
    if s != [] {
      SortPermutes(s[1..]);
      InsertPermutes(s[0], Sort(s[1..]));
      assert s == [s[0]] + s[1..];
    }
  }

  lemma {:induction false} SortedStays(t: seq<real>)
    requires Sorted(t)
    ensures Sort(t) == t
  {
    if t != [] {
      assert Sorted(t[1..]);
      SortedStays(t[1..]);
      assert t == [t[0]] + t[1..];
    }
  }

  /** There is exactly one. */
  lemma MedianIff(s: seq<real>, m: real)
    requires s != []
    ensures IsMedian(s, m) <==> m == Median(s)
  {
    SortPermutes(s);
    SortKeeps(s, 0.0);
    assert Median(s) == Middle(Sort(s));
    hide Sort;
    if IsMedian(s, m) {
      var t :| Sorted(t) && multiset(t) == multiset(s) && |t| == |s| && m == Middle(t);
      SortsAlike(t, s);
      SortedStays(t);
    }
  }

  /** The pre-registered rule on the repeats themselves: the better arm has the higher median, none of
      its repeats is below the other's, and it failed nothing hard. */
  lemma DecisionMeans(a: seq<real>, b: seq<real>, failedA: bool, failedB: bool, x: real, y: real)
    requires a != [] && b != [] && IsMedian(a, x) && IsMedian(b, y)
    ensures Decide(a, b, failedA, failedB) == Better <==> y > x && (forall r :: r in b ==> r >= x) && !failedB
    ensures Decide(a, b, failedA, failedB) == Worse <==> x > y && (forall r :: r in a ==> r >= y) && !failedA
    ensures Decide(a, b, failedA, failedB) != NoRepeats
  {
    hide Median, Least, IsMedian;
    MedianIff(a, x);
    MedianIff(b, y);
    LeastBounds(a);
    LeastBounds(b);
  }
}
