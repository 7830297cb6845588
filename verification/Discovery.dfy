/** Surface discovery against an arbitrary responder: every probe is charged to the current
    phase limit, and guessed branches that keep answering the soft-404 page are pruned. */
module Discovery {
  import opened Options
  import Text

  // ------------------------------------------------------------------
  // Paths and their namespaces
  // ------------------------------------------------------------------

  /** The non-empty segments of a path. */
  function Segments(path: string): (segs: seq<string>)
    ensures forall s :: s in segs ==> s != ""
    decreases |path|
  {
    if path == "" then []
    else
      var head := Text.Before(path, '/');
      BeforeLength(path, '/');
      if head == "" then Segments(path[1..])
      else [head] + Segments(path[|head|..])
  }

  lemma {:induction false} BeforeLength(s: string, c: char)
    ensures |Text.Before(s, c)| <= |s|
  {
    if s != "" && s[0] != c { BeforeLength(s[1..], c); }
  }

  function NamespaceOf(segs: seq<string>): (prefix: string)
    ensures |prefix| >= 1 + |segs|
  {
    if segs == [] then "/" else NamespaceOf(segs[..|segs| - 1]) + segs[|segs| - 1] + "/"
  }

  /** `/a/b/c` has the ancestors `/a/` and `/a/b/`; the root is nobody's ancestor. */
  function Ancestors(path: string): (prefixes: seq<string>)
    ensures forall i :: 0 <= i < |prefixes| ==> |prefixes[i]| > 1
  {
    var segs := Segments(Text.Before(path, '?'));
    if |segs| <= 1 then [] else seq(|segs| - 1, i requires 0 <= i < |segs| - 1 => NamespaceOf(segs[..i + 1]))
  }

  lemma NamespacesGrow(segs: seq<string>, i: nat, j: nat)
    requires i < j <= |segs|
    ensures |NamespaceOf(segs[..i])| < |NamespaceOf(segs[..j])|
    ensures segs[j - 1] != "" ==> |NamespaceOf(segs[..i])| + 1 < |NamespaceOf(segs[..j])|
    decreases j
  {
    assert segs[..j][..j - 1] == segs[..j - 1];
    if i < j - 1 { NamespacesGrow(segs, i, j - 1); }
  }

  predicate Distinct<T(==)>(s: seq<T>) { forall i, j :: 0 <= i < j < |s| ==> s[i] != s[j] }

  lemma AncestorsDistinct(path: string)
    ensures Distinct(Ancestors(path)) && "/" !in Ancestors(path)
  {
    var segs, prefixes := Segments(Text.Before(path, '?')), Ancestors(path);
    forall i, j | 0 <= i < j < |prefixes| ensures prefixes[i] != prefixes[j] {
      NamespacesGrow(segs, i + 1, j + 1);
    }
  }

  /** A path that starts with a slash, repeats none, and has no query. */
  ghost predicate Canonical(path: string) {
    && path != "" && path[0] == '/' && '?' !in path
    && forall i :: 0 <= i < |path| - 1 ==> !(path[i] == '/' && path[i + 1] == '/')
  }

  /** The ancestors of a path are its prefixes that end in a slash and are neither the root nor all
      of it. */
  lemma AncestorsMean(path: string, p: string)
    requires Canonical(path)
    ensures p in Ancestors(path) <==> p <= path && 1 < |p| < |path| && p[|p| - 1] == '/'
  {
    hide Ancestors, Canonical;
    if p in Ancestors(path) { AncestorIsPrefix(path, p); }
    if p <= path && 1 < |p| < |path| && p[|p| - 1] == '/' { PrefixIsAncestor(path, p); }
  }

  lemma {:induction false} AncestorsOf(path: string)
    requires Canonical(path)
    ensures var segs := Segments(path);
            && |Ancestors(path)| == (if |segs| <= 1 then 0 else |segs| - 1)
            && forall i :: 0 <= i < |Ancestors(path)| ==> Ancestors(path)[i] == NamespaceOf(segs[..i + 1])
  {
    Text.BeforeSeparator(path, '?', "");
    assert path + "" == path;
  }

  lemma AncestorIsPrefix(path: string, p: string)
    requires Canonical(path) && p in Ancestors(path)
    ensures p <= path && 1 < |p| < |path| && p[|p| - 1] == '/'
  {
    hide Segments, Ancestors, Canonical;
    AncestorsOf(path);
    SegmentsSpell(path);
    var segs := Segments(path);
    var i :| 0 <= i < |Ancestors(path)| && Ancestors(path)[i] == p;
    NamespacePrefix(segs, i + 1);
    NamespacesGrow(segs, i + 1, |segs|);
    assert segs[..|segs|] == segs && segs[|segs| - 1] in segs;
  }

  lemma PrefixIsAncestor(path: string, p: string)
    requires Canonical(path) && p <= path && 1 < |p| < |path| && p[|p| - 1] == '/'
    ensures p in Ancestors(path)
  {
    hide Segments, Ancestors, Canonical, NamespaceOf;
    AncestorsOf(path);
    SegmentsSpell(path);
    SegmentsPlain(path);
    var segs := Segments(path);
    var i := NamespaceCut(segs, p);
    assert segs[..|segs|] == segs;
    assert NamespaceOf([]) == "/" by { NamespaceOfNone(); }
    assert segs[..0] == [];
    assert Ancestors(path)[i - 1] == p;
  }

  lemma NamespaceOfNone()
    ensures NamespaceOf([]) == "/"
  {}

  /** A query adds no ancestors. */
  lemma AncestorsIgnoreQuery(path: string, query: string)
    requires '?' !in path
    ensures Ancestors(path + "?" + query) == Ancestors(path)
  {
    Text.BeforeSeparator(path, '?', "?" + query);
    Text.BeforeSeparator(path, '?', "");
    assert path + "?" + query == path + ("?" + query) && path + "" == path;
  }

  lemma {:induction false} SegmentsPlain(path: string)
    ensures forall s :: s in Segments(path) ==> '/' !in s
    decreases |path|
  {
    if path != "" {
      var head := Text.Before(path, '/');
      BeforeLength(path, '/');
      BeforePlain(path, '/');
      SegmentsPlain(if head == "" then path[1..] else path[|head|..]);
    }
  }

  lemma {:induction false} BeforePlain(s: string, c: char)
    ensures c !in Text.Before(s, c)
    ensures Text.Before(s, c) <= s && (|Text.Before(s, c)| < |s| ==> s[|Text.Before(s, c)|] == c)
  {
    if s != "" && s[0] != c { BeforePlain(s[1..], c); }
  }

  /** The namespace of a path's segments is the path, up to a slash at its end. */
  lemma {:induction false} SegmentsSpell(path: string)
    requires Canonical(path)
    ensures NamespaceOf(Segments(path)) == if path[|path| - 1] == '/' then path else path + "/"
    decreases |path|
  {
    hide NamespaceOf, Segments, Canonical;
    if |path| > 1 {
      var head, tail := FirstSegment(path);
      NamespaceFront(head, Segments(tail));
      if tail == "" {
        NamespaceOfNone();
        assert path == "/" + head && path[|path| - 1] == head[|head| - 1];
      } else {
        SegmentsSpell(tail);
        assert path[|path| - 1] == tail[|tail| - 1];
      }
    } else {
      RootSpells(path);
    }
  }

  lemma {:induction false} RootSpells(path: string)
    requires Canonical(path) && |path| <= 1
    ensures NamespaceOf(Segments(path)) == path == "/" && path[0] == '/'
  {
    assert Segments("") == [];
    assert path[1..] == "";
  }

  lemma FirstSegment(path: string) returns (head: string, tail: string)
    requires Canonical(path) && |path| > 1
    ensures path == "/" + head + tail && head != "" && '/' !in head && (tail == "" || Canonical(tail))
    ensures Segments(path) == [head] + Segments(tail) && (tail == "" ==> Segments(tail) == [])
  {
    var rest := path[1..];
    head := Text.Before(rest, '/');
    BeforePlain(rest, '/');
    assert rest[0] == path[1];
    tail := rest[|head|..];
    assert Text.Before(path, '/') == "";
    assert forall i :: 0 <= i < |tail| ==> tail[i] == path[1 + |head| + i];
  }

  lemma {:induction false} NamespaceFront(head: string, segs: seq<string>)
    ensures NamespaceOf([head] + segs) == "/" + head + NamespaceOf(segs)
  {
    if segs == [] {
      assert [head] + segs == [head] && [head][..0] == [];
    } else {
      var front := segs[..|segs| - 1];
      assert ([head] + segs)[..|segs|] == [head] + front;
      NamespaceFront(head, front);
    }
  }

  lemma {:induction false} NamespacePrefix(segs: seq<string>, i: nat)
    requires i <= |segs|
    ensures NamespaceOf(segs[..i]) <= NamespaceOf(segs)
  {
    if i < |segs| {
      var front := segs[..|segs| - 1];
      assert front[..i] == segs[..i];
      NamespacePrefix(front, i);
    } else {
      assert segs[..i] == segs;
    }
  }

  /** A prefix that ends in a slash is the namespace of the first so many segments. */
  lemma {:induction false} NamespaceCut(segs: seq<string>, p: string) returns (i: nat)
    requires p <= NamespaceOf(segs) && p != "" && p[|p| - 1] == '/'
    requires forall s :: s in segs ==> '/' !in s
    ensures i <= |segs| && p == NamespaceOf(segs[..i])
  {
    if segs == [] {
      i := 0;
    } else {
      var front, last := segs[..|segs| - 1], segs[|segs| - 1];
      var before := NamespaceOf(front);
      assert forall s :: s in front ==> s in segs;
      if |p| <= |before| {
        i := NamespaceCut(front, p);
        assert front[..i] == segs[..i];
      } else {
        assert last in segs;
        assert NamespaceOf(segs) == before + last + "/";
        assert forall k :: 0 <= k < |last| ==> NamespaceOf(segs)[|before| + k] == last[k];
        i := |segs|;
        assert segs[..i] == segs;
      }
    }
  }

  /** `/health/x` has the parent `/health/`. */
  function ParentOf(path: string): string { UpToLastSlash(Text.Before(path, '?')) + "/" }

  function UpToLastSlash(s: string): string {
    if s == "" then "" else if s[|s| - 1] == '/' then s[..|s| - 1]
    else if '/' in s then UpToLastSlash(s[..|s| - 1]) else s
  }

  /** The parent is what comes before the last segment. */
  lemma ParentMeans(above: string, leaf: string, query: string)
    requires '?' !in above && '?' !in leaf && '/' !in leaf && (query == "" || query[0] == '?')
    ensures ParentOf(above + "/" + leaf + query) == above + "/"
  {
    Text.BeforeSeparator(above + "/" + leaf, '?', query);
    LastSlashCut(above, leaf);
  }

  lemma {:induction false} LastSlashCut(above: string, leaf: string)
    requires '/' !in leaf
    ensures UpToLastSlash(above + "/" + leaf) == above
  {
    var s := above + "/" + leaf;
    if leaf != "" {
      assert s[|above|] == '/';
      assert s[..|s| - 1] == above + "/" + leaf[..|leaf| - 1];
      LastSlashCut(above, leaf[..|leaf| - 1]);
    } else {
      assert s[..|s| - 1] == above;
    }
  }

  // ------------------------------------------------------------------
  // The target
  // ------------------------------------------------------------------

  datatype Response = Response(status: int, body: string, ctype: string, allow: seq<string>)
  datatype Route = Route(status: int, methods: seq<string>, length: nat, source: string)
  datatype Signature = Signature(status: int, ctype: string, hash: string)
  datatype SoftSignature = SoftSignature(status: int, ctype: string, hash: string, length: nat, stable: bool)

  /** The target and the fingerprints: any response to any probe, at any point of the run. */
  datatype Target = Target(
    respond: (nat, string, string) -> Option<Response>, token: nat -> string,
    notFound: (int, string) -> bool, hash: (string, string) -> string, length: (string, string) -> nat,
    specRoutes: string -> Option<seq<string>>)

  // ------------------------------------------------------------------
  // Phase limits
  // ------------------------------------------------------------------

  const ALLOW_MINING_RESERVE := 200

  function Min(a: int, b: int): int { if a <= b then a else b }
  function Max(a: int, b: int): int { if a >= b then a else b }

  function MiningReserve(maxProbes: int): int { Min(ALLOW_MINING_RESERVE, Max(0, maxProbes / 10)) }

  function LateReserve(maxProbes: int): int {
    if maxProbes >= 24 then Min(maxProbes / 4, Max(0, maxProbes - MiningReserve(maxProbes))) else 0
  }

  function QueryReserve(maxProbes: int): int { LateReserve(maxProbes) / 2 }

  /** The limits of the wordlist, adaptive, query and OPTIONS phases. */
  function PhaseLimits(maxProbes: int): (l: seq<int>)
    ensures |l| == 4
  {
    var m := MiningReserve(maxProbes);
    [Max(0, maxProbes - m - LateReserve(maxProbes)), Max(0, maxProbes - m - QueryReserve(maxProbes)),
     Max(0, maxProbes - m), maxProbes]
  }

  /** The limits never shrink. OPTIONS mining has a tenth of all probes, 200 at most, on top of what the
      phases before it may spend; from 24 probes on, adaptive and query probing share another quarter. */
  lemma LimitsReserve(maxProbes: int)
    requires maxProbes >= 0
    ensures var l := PhaseLimits(maxProbes);
            var mining := if maxProbes >= 2000 then 200 else maxProbes / 10;
            && 0 <= l[0] <= l[1] <= l[2] <= l[3] == maxProbes
            && l[2] == maxProbes - mining
            && l[1] == l[2] - (if maxProbes >= 24 then maxProbes / 8 else 0)
            && l[0] == l[2] - (if maxProbes >= 24 then maxProbes / 4 else 0)
  {}

  // ------------------------------------------------------------------
  // Soft-404 bookkeeping
  // ------------------------------------------------------------------

  function CountOf(counts: map<string, nat>, prefix: string): nat {
    if prefix in counts then counts[prefix] else 0
  }

  /** How many of `paths` lie under `prefix`. */
  function Under(paths: seq<string>, prefix: string): nat {
    if paths == [] then 0
    else Under(paths[..|paths| - 1], prefix) + if prefix in Ancestors(paths[|paths| - 1]) then 1 else 0
  }

  /** No namespace is both live and dead; a dead one is not the root and has enough soft-404
      answers under it; the counts are exact; every recorded route keeps its namespaces live. */
  ghost predicate PruningOk(counts: map<string, nat>, live: set<string>, dead: set<string>,
                            matched: seq<string>, found: set<string>, pruneAfter: nat) {
    && dead !! live
    && (forall p :: p in dead ==> p != "/" && CountOf(counts, p) >= pruneAfter)
    && (forall p :: CountOf(counts, p) == Under(matched, p))
    && (forall p, a :: p in found && a in Ancestors(p) ==> a in live)
  }

  /** The counts and dead namespaces after a soft-404 answer under `prefixes`. */
  lemma SoftNoted(counts: map<string, nat>, counts': map<string, nat>, live: set<string>, dead: set<string>,
                  dead': set<string>, matched: seq<string>, found: set<string>, pruneAfter: nat, path: string)
    requires PruningOk(counts, live, dead, matched, found, pruneAfter)
    requires forall p :: CountOf(counts', p) == CountOf(counts, p) + if p in Ancestors(path) then 1 else 0
    requires forall p :: p in dead' <==>
               p in dead || (p in Ancestors(path) && p !in live && CountOf(counts', p) >= pruneAfter)
    ensures PruningOk(counts', live, dead', matched + [path], found, pruneAfter)
  {
    AncestorsDistinct(path);
  }

  lemma LiveNoted(counts: map<string, nat>, live: set<string>, live': set<string>, dead: set<string>,
                  dead': set<string>, matched: seq<string>, found: set<string>, pruneAfter: nat, path: string)
    requires PruningOk(counts, live, dead, matched, found, pruneAfter)
    requires forall p :: p in live' <==> p in live || p in Ancestors(path)
    requires forall p :: p in dead' <==> p in dead && p !in Ancestors(path)
    ensures PruningOk(counts, live', dead', matched, found + {path}, pruneAfter)
  {}

  /** One candidate a phase produces: a checked path, a plain probe, or a query-parameter probe
      whose answer did or did not differ from the page without it. */
  datatype Candidate =
    | CheckPath(path: string, source: string)
    | PlainProbe(path: string)
    | QueryProbe(path: string, differs: bool)

  /** What a probe was for: a control or calibration, a plain probe of a phase, or a checked path,
      guessed or referenced by the application. */
  datatype Kind = Control | Plain | Guess | Reference

  /** A probe on the wire, with the namespaces that were dead or wildcards when it was sent. */
  datatype Sent = Sent(verb: string, path: string, kind: Kind, dead: set<string>, wildcards: set<string>)

  /** An ancestor of the path is one of these namespaces. */
  predicate IsUnder(path: string, namespaces: set<string>) {
    exists i :: 0 <= i < |Ancestors(path)| && Ancestors(path)[i] in namespaces
  }

  predicate HasPrefix(path: string, prefixes: set<string>) { exists p :: p in prefixes && p <= path }

  /** None of the namespaces above the path was dead, and none it starts with a wildcard. */
  ghost predicate NotPruned(s: Sent) {
    (forall p :: p in Ancestors(s.path) ==> p !in s.dead) && forall w :: w in s.wildcards ==> !(w <= s.path)
  }

  /** No guess was sent under a namespace that was dead or a wildcard at that moment. */
  ghost predicate NoPrunedGuess(sent: seq<Sent>) {
    forall i :: 0 <= i < |sent| && sent[i].kind == Guess ==> NotPruned(sent[i])
  }

  /** What a run knows at some moment, and whether it may send on. */
  datatype Known = Known(
    seen: set<string>, attempted: set<(string, string)>, wildcards: set<string>, counts: map<string, nat>,
    sent: seq<Sent>, budget: bool)

  ghost predicate Grew(before: Known, after: Known) {
    && before.seen <= after.seen && before.attempted <= after.attempted && before.wildcards <= after.wildcards
    && (forall p :: CountOf(before.counts, p) <= CountOf(after.counts, p))
    && before.sent <= after.sent && (after.budget ==> before.budget)
  }

  ghost predicate IsPlain(p: Sent, path: string) { p.verb == "GET" && p.kind == Plain && p.path == path }

  ghost predicate WasPlain(sent: seq<Sent>, from: nat, path: string) {
    exists i :: from <= i < |sent| && IsPlain(sent[i], path)
  }

  class SurfaceDiscovery {
    const target: Target
    const maxProbes: int
    const pruneAfter: nat
    const seedPaths: set<string>

    var probes: nat
    var phaseLimit: int
    var seen: map<string, Route>
    var attempted: set<(string, string)>
    var soft404: Option<SoftSignature>
    var counts: map<string, nat>
    var live: set<string>
    var dead: set<string>
    var pruned: nat
    var controls: map<(string, string), Option<Signature>>
    var wildcards: set<string>
    var suppressed: nat

    ghost var sent: seq<Sent>                 // every probe put on the wire
    ghost var matched: seq<string>            // the checked paths that answered the soft-404 page
    ghost var found: set<string>              // the paths _check recorded as routes

    ghost predicate Valid()
      reads this
    {
      && PruningOk(counts, live, dead, matched, found, pruneAfter) && pruneAfter >= 1
      && |sent| == probes && probes <= Max(0, maxProbes) && NoPrunedGuess(sent)
    }

    constructor (target: Target, maxProbes: int, pruneAfter: int, seedPaths: set<string>)
      ensures Valid() && probes == 0 && phaseLimit == maxProbes
      ensures this.target == target && this.maxProbes == maxProbes && this.seedPaths == seedPaths
      ensures this.pruneAfter == if pruneAfter >= 1 then pruneAfter else 1
    {
      this.target, this.maxProbes, this.seedPaths := target, maxProbes, seedPaths;
      this.pruneAfter := Max(1, pruneAfter);
      probes, phaseLimit, seen, attempted, soft404 := 0, maxProbes, map[], {}, None;
      counts, live, dead, pruned := map[], {}, {}, 0;
      controls, wildcards, suppressed := map[], {}, 0;
      sent, matched, found := [], [], {};
    }

    predicate BudgetLeft()
      reads this
    {
      probes < Min(maxProbes, phaseLimit)
    }

    /** Probes are only ever added, and none beyond the limit in force. */
    twostate predicate Spent()
      reads this
    {
      && old(probes) <= probes <= Max(old(probes), Min(maxProbes, phaseLimit))
      && phaseLimit == old(phaseLimit)
      && old(sent) <= sent && old(live) <= live
    }

    /** What was known stays known. */
    twostate predicate Grown()
      reads this
    {
      && old(seen).Keys <= seen.Keys && old(attempted) <= attempted && old(wildcards) <= wildcards
      && forall p :: CountOf(old(counts), p) <= CountOf(counts, p)
    }

    /** What was sent in between used this method and was of these kinds. */
    twostate predicate SentOnly(verb: string, kinds: set<Kind>)
      reads this
    {
      |old(sent)| <= |sent| && forall i :: |old(sent)| <= i < |sent| ==> sent[i].verb == verb && sent[i].kind in kinds
    }

    method Raw(verb: string, path: string, ghost kind: Kind) returns (r: Option<Response>)
      requires Valid() && (kind == Guess ==> !UnderDead(path) && !UnderWildcard(path))
      modifies this`probes, this`sent
      ensures Valid() && Spent() && SentOnly(verb, {kind})
      ensures old(BudgetLeft()) ==>
                && sent == old(sent) + [Sent(verb, path, kind, dead, wildcards)]
                && r == target.respond(old(probes), verb, path)
      ensures !old(BudgetLeft()) ==> sent == old(sent) && r == None
    {
      if !BudgetLeft() {
        return None;
      }
      r := target.respond(probes, verb, path);
      probes, sent := probes + 1, sent + [Sent(verb, path, kind, dead, wildcards)];
    }

    /** Every namespace above the path counts one more soft-404 answer; those that reach the
        threshold with no live route under them are dead. */
    method NoteSoft404(path: string)
      requires Valid()
      modifies this`counts, this`dead, this`matched
      ensures Valid() && matched == old(matched) + [path]
      ensures forall p :: CountOf(counts, p) == CountOf(old(counts), p) + if p in Ancestors(path) then 1 else 0
      ensures forall p :: p in dead <==>
                p in old(dead) || (p in Ancestors(path) && p !in live && CountOf(counts, p) >= pruneAfter)
    {
      AncestorsDistinct(path);
      hide Ancestors, PruningOk, Under, Text.Before;
      var prefixes := Ancestors(path);
      for i := 0 to |prefixes|
        invariant unchanged(`matched)
        invariant forall p :: CountOf(counts, p) == CountOf(old(counts), p) + if p in prefixes[..i] then 1 else 0
        invariant forall p :: p in dead <==>
                    p in old(dead) || (p in prefixes[..i] && p !in live && CountOf(counts, p) >= pruneAfter)
      {
        var prefix := prefixes[i];
        assert prefix !in prefixes[..i];
        assert prefixes[..i + 1] == prefixes[..i] + [prefix];
        var n := CountOf(counts, prefix) + 1;
        counts := counts[prefix := n];
        if n >= pruneAfter && prefix !in live {
          dead := dead + {prefix};
        }
      }
      assert prefixes[..|prefixes|] == prefixes;
      matched := matched + [path];
      SoftNoted(old(counts), counts, live, old(dead), dead, old(matched), found, pruneAfter, path);
    }

    /** The namespaces above a route are live from now on, and no longer dead. */
    method NoteLive(path: string)
      requires Valid()
      modifies this`live, this`dead, this`found
      ensures Valid() && found == old(found) + {path}
      ensures forall p :: p in live <==> p in old(live) || p in Ancestors(path)
      ensures forall p :: p in dead <==> p in old(dead) && p !in Ancestors(path)
    {
      hide Ancestors, PruningOk, Under, Text.Before;
      var prefixes := Ancestors(path);
      for i := 0 to |prefixes|
        invariant unchanged(`found)
        invariant forall p :: p in live <==> p in old(live) || p in prefixes[..i]
        invariant forall p :: p in dead <==> p in old(dead) && p !in prefixes[..i]
      {
        assert prefixes[..i + 1] == prefixes[..i] + [prefixes[i]];
        live := live + {prefixes[i]};
        dead := dead - {prefixes[i]};
      }
      assert prefixes[..|prefixes|] == prefixes;
      found := found + {path};
      LiveNoted(counts, old(live), live, old(dead), dead, matched, old(found), pruneAfter, path);
    }

    predicate SoftMatch(r: Response, path: string)
      reads this
    {
      soft404.Some? &&
      var sig := soft404.value;
      && r.status == sig.status && r.ctype == sig.ctype
      && (target.hash(r.body, path) == sig.hash || (!sig.stable && target.length(r.body, path) == sig.length))
    }

    function SignatureOf(r: Response, path: string): Signature {
      Signature(r.status, r.ctype, target.hash(r.body, path))
    }

    /** A candidate looks like a control exactly when status, type and fingerprint agree. */
    lemma SameSignatureIff(r: Response, path: string, control: Response, bogus: string)
      ensures SignatureOf(r, path) == SignatureOf(control, bogus) <==>
                r.status == control.status && r.ctype == control.ctype
                && target.hash(r.body, path) == target.hash(control.body, bogus)
    {}

    /** Two controls under a namespace: nothing is learnt unless both are answered, and a signature
        only when both answers have it. */
    method LearnControl(verb: string, parent: string)
      requires Valid() && (verb, parent) !in controls
      modifies this`probes, this`sent, this`controls
      ensures Valid() && Spent() && SentOnly(verb, {Control}) && |sent| <= |old(sent)| + 2
      ensures (verb, parent) !in controls ==> controls == old(controls)
      ensures (verb, parent) in controls ==>
                && |sent| == |old(sent)| + 2
                && parent + "__harness_missing_" <= sent[|old(sent)|].path
                && parent + "__harness_missing_" <= sent[|old(sent)| + 1].path
                && var a := target.respond(old(probes), verb, sent[|old(sent)|].path);
                   var b := target.respond(old(probes) + 1, verb, sent[|old(sent)| + 1].path);
                   && a.Some? && b.Some?
                   && var first := SignatureOf(a.value, sent[|old(sent)|].path);
                      controls == old(controls)[(verb, parent) :=
                        if first == SignatureOf(b.value, sent[|old(sent)| + 1].path) then Some(first) else None]
    {
      hide PruningOk;
      var bogus := parent + "__harness_missing_" + target.token(probes);
      var first := Raw(verb, bogus, Control);
      if first.None? {
        return;
      }
      var bogus' := parent + "__harness_missing_" + target.token(probes);
      var second := Raw(verb, bogus', Control);
      if second.None? {
        return;
      }
      var signature := SignatureOf(first.value, bogus);
      controls := controls[(verb, parent) := if signature == SignatureOf(second.value, bogus') then Some(signature)
                                             else None];
    }

    /** Compares a candidate with the controls of its namespace, which are probes like any other; a
        candidate whose controls could not be afforded stays unproven. */
    method PrefixWildcard(verb: string, path: string, r: Response) returns (wildcard: bool)
      requires Valid()
      modifies this`probes, this`sent, this`controls, this`wildcards, this`suppressed
      ensures Valid() && Spent() && SentOnly(verb, {Control}) && |sent| <= |old(sent)| + 2
      ensures ParentOf(path) == "/" ==> !wildcard && sent == old(sent) && controls == old(controls)
      ensures ParentOf(path) != "/" ==>
                var key := (verb, ParentOf(path));
                && (wildcard <==> key !in controls || controls[key] == Some(SignatureOf(r, path)))
                && (key in old(controls) ==> sent == old(sent) && controls == old(controls))
                && (forall k :: k != key ==>
                    (k in controls <==> k in old(controls)) && (k in controls ==> controls[k] == old(controls)[k]))
      ensures var stands := wildcard && (verb, ParentOf(path)) in controls;
              wildcards == old(wildcards) + if stands then {ParentOf(path)} else {}
    {
      hide PruningOk, ParentOf;
      var parent := ParentOf(path);
      if parent == "/" {
        return false;
      }
      var key := (verb, parent);
      if key !in controls {
        LearnControl(verb, parent);
        if key !in controls {
          return true;
        }
      }
      wildcard := controls[key] == Some(SignatureOf(r, path));
      if wildcard {
        wildcards := wildcards + {parent};
        suppressed := suppressed + 1;
      }
    }

    predicate Referenced(path: string, source: string) { source in {"seed", "body", "html"} || path in seedPaths }

    /** An ancestor of the path is a dead namespace. */
    predicate UnderDead(path: string)
      reads this
    {
      IsUnder(path, dead)
    }

    predicate UnderWildcard(path: string)
      reads this
    {
      HasPrefix(path, wildcards)
    }

    /** What a check sends: a path not yet seen or tried, within budget, and not a guess under a
        dead or wildcard namespace. */
    predicate Eligible(path: string, source: string)
      reads this
    {
      && path !in seen && ("GET", path) !in attempted && BudgetLeft()
      && (Referenced(path, source) || !(UnderWildcard(path) || UnderDead(path)))
    }

    /** A path is sent exactly when it is eligible; a seen one is answered from the record. */
    method Check(path: string, source: string) returns (route: Option<Route>)
      requires Valid()
      modifies this
      ensures Valid() && Spent() && Grown() && SentFor(CheckPath(path, source))
      ensures old(path in seen) ==> route == Some(old(seen)[path])
      ensures !old(path in seen || Eligible(path, source)) ==> route == None
      ensures !old(Eligible(path, source)) ==>
                && sent == old(sent) && seen == old(seen) && matched == old(matched)
                && found == old(found) && attempted == old(attempted)
      ensures old(Eligible(path, source)) ==>
                Probed(path, source, route, target.respond(old(probes), "GET", path))
    {
      hide PruningOk, Ancestors, Under, Text.Before, ParentOf, NoPrunedGuess;
      if path in seen {
        return Some(seen[path]);
      }
      if ("GET", path) in attempted || !BudgetLeft() {
        return None;
      }
      var referenced := Referenced(path, source);
      if !referenced && UnderWildcard(path) {
        suppressed := suppressed + 1;
        return None;
      }
      if !referenced && UnderDead(path) {
        pruned := pruned + 1;
        return None;
      }
      route := Probe(path, source);
    }

    /** What the application refers to, its pages or the caller name; the rest is guessed. */
    ghost function KindOf(path: string, source: string): Kind {
      if source in {"seed", "body", "html"} || path in seedPaths then Reference else Guess
    }

    /** A probe that this candidate accounts for: a control, or its own path under its own kind. */
    ghost predicate IsFor(c: Candidate, p: Sent) {
      p.verb == "GET" &&
      (p.kind == Control ||
       match c
       case CheckPath(path, source) => p.path == path && p.kind == KindOf(path, source)
       case PlainProbe(path) => p.path == path && p.kind == Plain
       case QueryProbe(path, _) => p.path == path && p.kind == Plain)
    }

    /** What was sent in between was for this candidate. */
    twostate predicate SentFor(c: Candidate)
      reads this
    {
      |old(sent)| <= |sent| && forall i :: |old(sent)| <= i < |sent| ==> IsFor(c, sent[i])
    }

    function RouteOf(r: Response, source: string): Route {
      Route(r.status, if r.allow != [] then r.allow else ["GET"], |r.body|, source)
    }

    /** One candidate was sent and judged: an absent, not-found or soft-404 answer is no route, and a
        soft-404 one is counted; any other is a route exactly unless its controls look like it. */
    twostate predicate Probed(path: string, source: string, new route: Option<Route>, new answer: Option<Response>)
      reads this
    {
      && attempted == old(attempted) + {("GET", path)}
      && |old(sent)| < |sent| <= |old(sent)| + 3
      && sent[|old(sent)|] == Sent("GET", path, KindOf(path, source), old(dead), old(wildcards))
      && Judged(path, source, route, answer)
      && (NoRoute(path, answer) ==> |sent| == |old(sent)| + 1)
    }

    /** The answer alone shows that the path is no route. */
    predicate NoRoute(path: string, answer: Option<Response>)
      reads this
    {
      answer.None? || target.notFound(answer.value.status, answer.value.body) || SoftMatch(answer.value, path)
    }

    twostate predicate Judged(path: string, source: string, new route: Option<Route>, new answer: Option<Response>)
      reads this
    {
      && (route.None? ==> seen == old(seen) && found == old(found))
      && (route.Some? ==> found == old(found) + {path} && seen == old(seen)[path := route.value])
      && (route.Some? ==> forall a :: a in Ancestors(path) ==> a in live && a !in dead)
      && if answer.None? || target.notFound(answer.value.status, answer.value.body) then
           route == None && matched == old(matched)
         else if SoftMatch(answer.value, path) then
           route == None && matched == old(matched) + [path]
         else
           && matched == old(matched)
           && route == if LooksAlike(path, answer.value) then None
                       else Some(Route(answer.value.status,
                                       if answer.value.allow != [] then answer.value.allow else ["GET"],
                                       |answer.value.body|, source))
    }

    /** The namespace's controls look like the answer, or could not be afforded. */
    predicate LooksAlike(path: string, r: Response)
      reads this
    {
      var key := ("GET", ParentOf(path));
      ParentOf(path) != "/" && (key !in controls || controls[key] == Some(SignatureOf(r, path)))
    }

    method Probe(path: string, source: string) returns (route: Option<Route>)
      requires Valid() && Eligible(path, source)
      modifies this
      ensures Valid() && Spent() && Grown() && SentFor(CheckPath(path, source))
      ensures Probed(path, source, route, target.respond(old(probes), "GET", path))
    {
      hide PruningOk, Ancestors, Under, Text.Before, ParentOf, NoPrunedGuess, CountOf;
      attempted := attempted + {("GET", path)};
      var r := Raw("GET", path, KindOf(path, source));
      route := Judge(path, source, r);
    }

    method Judge(path: string, source: string, r: Option<Response>) returns (route: Option<Route>)
      requires Valid() && path !in seen
      modifies this`probes, this`sent, this`controls, this`wildcards, this`suppressed, this`seen
      modifies this`live, this`dead, this`found, this`counts, this`matched
      ensures Valid() && Spent() && Grown() && SentOnly("GET", {Control}) && |sent| <= |old(sent)| + 2
      ensures Judged(path, source, route, r) && (NoRoute(path, r) ==> sent == old(sent))
    {
      hide PruningOk, Ancestors, Under, Text.Before, ParentOf, NoPrunedGuess;
      if r.None? || target.notFound(r.value.status, r.value.body) {
        return None;
      }
      if SoftMatch(r.value, path) {
        NoteSoft404(path);
        return None;
      }
      route := Compare(path, source, r.value);
    }

    /** An answer that is neither is a route unless its controls look like it. */
    method Compare(path: string, source: string, r: Response) returns (route: Option<Route>)
      requires Valid() && path !in seen
      modifies this`probes, this`sent, this`controls, this`wildcards, this`suppressed, this`seen
      modifies this`live, this`dead, this`found
      ensures Valid() && Spent() && Grown() && SentOnly("GET", {Control}) && |sent| <= |old(sent)| + 2
      ensures route == if LooksAlike(path, r) then None else Some(RouteOf(r, source))
      ensures route.None? ==> seen == old(seen) && found == old(found)
      ensures route.Some? ==> found == old(found) + {path} && seen == old(seen)[path := route.value]
      ensures route.Some? ==> forall a :: a in Ancestors(path) ==> a in live && a !in dead
    {
      hide PruningOk, Ancestors, Under, Text.Before, ParentOf, NoPrunedGuess, CountOf;
      var wildcard := PrefixWildcard("GET", path, r);
      if wildcard {
        return None;
      }
      route := Some(RouteOf(r, source));
      seen := seen[path := route.value];
      NoteLive(path);
    }

    function Shape(r: Response, path: string): SoftSignature {
      SoftSignature(r.status, r.ctype, target.hash(r.body, path), target.length(r.body, path), true)
    }

    function Shapes(r: Response, path: string): seq<SoftSignature> {
      if target.notFound(r.status, r.body) then [] else [Shape(r, path)]
    }

    /** The signature two control answers agree on, if they do. */
    function Agreed(shapes: seq<SoftSignature>): Option<SoftSignature> {
      if |shapes| == 2 && shapes[0].status == shapes[1].status && shapes[0].ctype == shapes[1].ctype
         && shapes[0].length == shapes[1].length
      then Some(shapes[0].(stable := shapes[0].hash == shapes[1].hash)) else None
    }

    /** What calibration teaches, on the answers to the two random paths: they have to agree in status,
        type and length without being plain not-found pages, and then every answer of that status and
        type with the same fingerprint is taken for a missing page, or, if their fingerprints differ,
        every one of the same length. */
    lemma LooksMissing(a: Response, path: string, b: Response, path': string, r: Response, at: string)
      requires soft404 == Agreed(Shapes(a, path) + Shapes(b, path'))
      ensures soft404.Some? <==>
                && !target.notFound(a.status, a.body) && !target.notFound(b.status, b.body)
                && a.status == b.status && a.ctype == b.ctype
                && target.length(a.body, path) == target.length(b.body, path')
      ensures soft404.Some? ==>
                (SoftMatch(r, at) <==>
                   && r.status == a.status && r.ctype == a.ctype
                   && (|| target.hash(r.body, at) == target.hash(a.body, path)
                       || (target.hash(a.body, path) != target.hash(b.body, path')
                           && target.length(r.body, at) == target.length(a.body, path))))
    {}

    /** The answer to the request sent at a given point of the run. */
    ghost function AnswerAt(n: nat): Option<Response>
      reads this
      requires n < |sent|
    {
      target.respond(n, sent[n].verb, sent[n].path)
    }

    /** A soft-404 signature is learnt exactly when two random paths get the same non-404 answer. */
    method CalibrateNotFound()
      requires Valid()
      modifies this`probes, this`sent, this`soft404
      ensures Valid() && Spent() && SentOnly("GET", {Control}) && |sent| <= |old(sent)| + 2
      ensures var n := |old(sent)|;
              if |sent| == n + 2 && AnswerAt(n).Some? && AnswerAt(n + 1).Some? then
                var one := Shapes(AnswerAt(n).value, sent[n].path);
                var two := Shapes(AnswerAt(n + 1).value, sent[n + 1].path);
                var agreed := Agreed(one + two);
                soft404 == if agreed.Some? then agreed else old(soft404)
              else soft404 == old(soft404)
    {
      hide PruningOk;
      var shapes: seq<SoftSignature> := [];
      ghost var n := |sent|;
      for i := 0 to 2
        invariant Valid() && Spent() && SentOnly("GET", {Control}) && |sent| == n + i && soft404 == old(soft404)
        invariant i == 0 ==> shapes == []
        invariant i >= 1 ==> AnswerAt(n).Some?
        invariant i == 1 ==> shapes == Shapes(AnswerAt(n).value, sent[n].path)
        invariant i == 2 ==>
                    && AnswerAt(n + 1).Some?
                    && shapes == Shapes(AnswerAt(n).value, sent[n].path)
                                 + Shapes(AnswerAt(n + 1).value, sent[n + 1].path)
      {
        var bogus := "/" + target.token(probes);
        var r := Raw("GET", bogus, Control);
        if r.None? {
          return;
        }
        if !target.notFound(r.value.status, r.value.body) {
          shapes := shapes + [Shape(r.value, bogus)];
        }
      }
      var agreed := Agreed(shapes);
      if agreed.Some? {
        soft404 := agreed;
      }
    }

    /** The contract probe: it stops at the first document found, and before the phase could no
        longer pay for one candidate with its two controls. */
    method ProbeSpecs(specPaths: seq<string>)
      requires Valid()
      modifies this`probes, this`sent, this`seen
      ensures Valid() && Spent() && SentOnly("GET", {Plain})
      ensures phaseLimit - old(probes) >= 3 ==> phaseLimit - probes >= 3
    {
      for i := 0 to |specPaths|
        invariant Valid() && Spent() && SentOnly("GET", {Plain})
        invariant phaseLimit - old(probes) >= 3 ==> phaseLimit - probes >= 3
      {
        if phaseLimit - probes <= 3 {
          break;
        }
        var r := Raw("GET", specPaths[i], Plain);
        if r.Some? && !target.notFound(r.value.status, r.value.body) && r.value.status == 200
           && target.specRoutes(r.value.body).Some?
        {
          AddSpecRoutes(target.specRoutes(r.value.body).value);
          break;
        }
      }
    }

    method AddSpecRoutes(paths: seq<string>)
      modifies this`seen
      ensures forall p :: p in seen <==> p in old(seen) || p in paths
      ensures forall p :: p in old(seen) ==> seen[p] == old(seen)[p]
    {
      for i := 0 to |paths|
        invariant forall p :: p in seen <==> p in old(seen) || p in paths[..i]
        invariant forall p :: p in old(seen) ==> seen[p] == old(seen)[p]
      {
        assert paths[..i + 1] == paths[..i] + [paths[i]];
        if paths[i] !in seen {
          seen := seen[paths[i] := Route(0, [], 0, "spec")];
        }
      }
      assert paths[..|paths|] == paths;
    }

    /** A parameter that makes a difference is recorded unless its answer means nothing there. */
    method Query(path: string, differs: bool)
      requires Valid()
      modifies this`probes, this`sent, this`controls, this`wildcards, this`suppressed, this`seen
      ensures Valid() && Spent() && Grown() && SentFor(QueryProbe(path, differs))
      ensures old(BudgetLeft()) ==> |sent| > |old(sent)| && IsPlain(sent[|old(sent)|], path)
      ensures || seen == old(seen)
              || (differs && path !in old(seen) && path in seen && seen == old(seen)[path := seen[path]]
                  && seen[path].methods == ["GET"] && seen[path].source == "param_probe")
    {
      hide PruningOk, ParentOf, NoPrunedGuess, CountOf;
      var r := Raw("GET", path, Plain);
      if r.None? || target.notFound(r.value.status, r.value.body) || SoftMatch(r.value, path) {
        return;
      }
      var wildcard := PrefixWildcard("GET", path, r.value);
      if !wildcard && differs && path !in seen {
        seen := seen[path := Route(r.value.status, ["GET"], |r.value.body|, "param_probe")];
      }
    }

    method PlainGet(path: string)
      requires Valid()
      modifies this`probes, this`sent
      ensures Valid() && Spent() && Grown() && SentFor(PlainProbe(path))
      ensures old(BudgetLeft()) ==> |sent| > |old(sent)| && IsPlain(sent[|old(sent)|], path)
    {
      var r := Raw("GET", path, Plain);
    }

    /** What was sent in between was for one of these candidates each. */
    twostate predicate SentForSome(candidates: seq<Candidate>)
      reads this
    {
      |old(sent)| <= |sent|
      && forall i :: |old(sent)| <= i < |sent| ==> exists c :: c in candidates && IsFor(c, sent[i])
    }

    ghost function Now(): Known
      reads this
    {
      Known(seen.Keys, attempted, wildcards, counts, sent, BudgetLeft())
    }

    /** A namespace above the path has reached the threshold of soft-404 answers. */
    ghost predicate UnderSuspect(known: Known, path: string) {
      exists i :: 0 <= i < |Ancestors(path)| && CountOf(known.counts, Ancestors(path)[i]) >= pruneAfter
    }

    /** The candidate had its turn in the phase that began with `from` probes: unless the budget is used
        up, a plain probe was sent, and a checked path was seen or tried, except for a guess under a
        wildcard or under a namespace with enough soft-404 answers. */
    ghost predicate HadItsTurn(known: Known, c: Candidate, from: nat) {
      !known.budget ||
      match c
      case CheckPath(path, source) =>
        || path in known.seen || ("GET", path) in known.attempted
        || (KindOf(path, source) == Guess && (HasPrefix(path, known.wildcards) || UnderSuspect(known, path)))
      case PlainProbe(path) => WasPlain(known.sent, from, path)
      case QueryProbe(path, _) => WasPlain(known.sent, from, path)
    }

    lemma TurnStaysHad(before: Known, after: Known, c: Candidate, from: nat)
      requires HadItsTurn(before, c, from) && Grew(before, after)
      ensures HadItsTurn(after, c, from)
    {
      hide Ancestors, Referenced, IsPlain;
      match c
      case CheckPath(path, source) => if UnderSuspect(before, path) { SuspectStays(before, after, path); }
      case PlainProbe(path) =>
      case QueryProbe(path, _) =>
    }

    lemma SuspectStays(before: Known, after: Known, path: string)
      requires UnderSuspect(before, path) && Grew(before, after)
      ensures UnderSuspect(after, path)
    {
      hide Ancestors;
      var i :| 0 <= i < |Ancestors(path)| && CountOf(before.counts, Ancestors(path)[i]) >= pruneAfter;
      assert CountOf(after.counts, Ancestors(path)[i]) >= pruneAfter;
    }

    lemma FromEarlier(known: Known, c: Candidate, from: nat, later: nat)
      requires from <= later && HadItsTurn(known, c, later)
      ensures HadItsTurn(known, c, from)
    {}

    /** Dead namespaces have enough soft-404 answers. */
    lemma DeadIsSuspect(path: string)
      requires Valid() && UnderDead(path)
      ensures UnderSuspect(Now(), path)
    {
      hide Ancestors, Under;
      var i :| 0 <= i < |Ancestors(path)| && Ancestors(path)[i] in dead;
    }

    /** One candidate: a checked path is sent if it is eligible now, any other probe if there is budget. */
    method TakeTurn(c: Candidate)
      requires Valid()
      modifies this
      ensures Valid() && Spent() && Grown() && SentFor(c) && HadItsTurn(Now(), c, |old(sent)|)
      ensures c.CheckPath? && old(Eligible(c.path, c.source)) ==>
                && |sent| > |old(sent)| && sent[|old(sent)|].path == c.path
                && sent[|old(sent)|].kind == KindOf(c.path, c.source)
      ensures !c.CheckPath? && old(BudgetLeft()) ==> |sent| > |old(sent)| && IsPlain(sent[|old(sent)|], c.path)
    {
      hide PruningOk, Ancestors, ParentOf, NoPrunedGuess, IsFor, CountOf;
      match c {
        case CheckPath(path, source) =>
          ghost var before, suspect := Now(), UnderDead(path);
          if suspect { DeadIsSuspect(path); }
          var route := Check(path, source);
          if suspect { SuspectStays(before, Now(), path); }
        case PlainProbe(path) => PlainGet(path);
        case QueryProbe(path, differs) => Query(path, differs);
      }
    }

    /** Whatever candidates a phase derives, they take their turns in order and are charged alike: each
        has had its turn, and a checked path is never sent as anything but the guess or the reference it
        is. */
    method RunPhase(candidates: seq<Candidate>)
      requires Valid()
      modifies this
      ensures Valid() && Spent() && Grown() && SentForSome(candidates)
      ensures forall k :: 0 <= k < |candidates| ==> HadItsTurn(Now(), candidates[k], |old(sent)|)
    {
      hide PruningOk, Ancestors, ParentOf, NoPrunedGuess, IsFor, HadItsTurn, CountOf;
      for i := 0 to |candidates|
        invariant Valid() && Spent() && Grown() && SentForSome(candidates)
        invariant forall k :: 0 <= k < i ==> HadItsTurn(Now(), candidates[k], |old(sent)|)
      {
        ghost var before := |sent|;
        NextTurn(candidates, i, |old(sent)|);
        assert forall j :: before <= j < |sent| ==> IsFor(candidates[i], sent[j]);
        assert candidates[i] in candidates;
      }
    }

    method NextTurn(candidates: seq<Candidate>, i: nat, ghost from: nat)
      requires Valid() && i < |candidates| && from <= |sent|
      requires forall k :: 0 <= k < i ==> HadItsTurn(Now(), candidates[k], from)
      modifies this
      ensures Valid() && Spent() && Grown() && SentFor(candidates[i])
      ensures forall k :: 0 <= k <= i ==> HadItsTurn(Now(), candidates[k], from)
    {
      hide PruningOk, Ancestors, ParentOf, NoPrunedGuess, IsFor, HadItsTurn, CountOf;
      ghost var before := Now();
      TakeTurn(candidates[i]);
      forall k | 0 <= k < i ensures HadItsTurn(Now(), candidates[k], from) {
        TurnStaysHad(before, Now(), candidates[k], from);
      }
      FromEarlier(Now(), candidates[i], from, |before.sent|);
    }

    /** The methods known for a path after the answers since `from`: those of the latest OPTIONS answer
        that listed any, else those known before. */
    ghost function Learnt(probed: seq<Sent>, from: nat, path: string, known: seq<string>): seq<string> {
      if |probed| <= from then known
      else
        var n := |probed| - 1;
        var answer := target.respond(n, probed[n].verb, probed[n].path);
        if probed[n].path == path && answer.Some? && answer.value.allow != [] then answer.value.allow
        else Learnt(probed[..n], from, path, known)
    }

    /** Every route has the methods its answers since `from` listed, and is otherwise as it was. */
    ghost predicate AllLearnt(known: map<string, Route>, now: map<string, Route>, probed: seq<Sent>, from: nat) {
      && now.Keys == known.Keys
      && forall p :: p in known ==> now[p] == known[p].(methods := Learnt(probed, from, p, known[p].methods))
    }

    lemma LearntMore(known: map<string, Route>, now: map<string, Route>, probed: seq<Sent>, from: nat, s: Sent)
      requires AllLearnt(known, now, probed, from) && from <= |probed| && s.path in known
      ensures var answer := target.respond(|probed|, s.verb, s.path);
              var learns := answer.Some? && answer.value.allow != [];
              var after := if learns then now[s.path := now[s.path].(methods := answer.value.allow)] else now;
              AllLearnt(known, after, probed + [s], from)
    {
      assert (probed + [s])[..|probed|] == probed;
    }

    predicate Ambiguous(routes: map<string, Route>, path: string) {
      path in routes && routes[path].methods in {[], ["GET"]} && '?' !in path
    }

    /** Only paths that were ambiguous to begin with are asked. */
    ghost predicate AskedAmbiguous(known: map<string, Route>, paths: seq<string>, probed: seq<Sent>, from: nat) {
      forall i :: from <= i < |probed| ==> probed[i].path in paths && Ambiguous(known, probed[i].path)
    }

    lemma StillAmbiguous(known: map<string, Route>, now: map<string, Route>, paths: seq<string>, probed: seq<Sent>,
                         from: nat, path: string)
      requires AllLearnt(known, now, probed, from) && AskedAmbiguous(known, paths, probed, from) && Ambiguous(now, path)
      ensures Ambiguous(known, path)
    {
      if !Ambiguous(known, path) { NeverAsked(known, paths, probed, from, path); }
    }

    lemma {:induction false} NeverAsked(
        known: map<string, Route>, paths: seq<string>, probed: seq<Sent>, from: nat, path: string)
      requires AskedAmbiguous(known, paths, probed, from) && !Ambiguous(known, path) && path in known
      ensures Learnt(probed, from, path, known[path].methods) == known[path].methods
    {
      if |probed| > from { NeverAsked(known, paths, probed[..|probed| - 1], from, path); }
    }

    ghost predicate Asked(probed: seq<Sent>, from: nat, path: string) {
      exists i :: from <= i < |probed| && probed[i].path == path
    }

    /** Learns the methods of ambiguous routes without sending a write: each is asked while there is
        budget, nothing else is, and what is learnt is what the answers list. */
    method LearnMethods(paths: seq<string>)
      requires Valid()
      modifies this`probes, this`sent, this`seen
      ensures Valid() && Spent() && SentOnly("OPTIONS", {Plain})
      ensures AllLearnt(old(seen), seen, sent, |old(sent)|)
      ensures forall i :: |old(sent)| <= i < |sent| ==>
                var p := sent[i].path;
                p in paths && p in old(seen) && old(seen)[p].methods in {[], ["GET"]} && '?' !in p
      ensures forall p :: p in paths && p in old(seen) && old(seen)[p].methods in {[], ["GET"]} && '?' !in p ==>
                !BudgetLeft() || Asked(sent, |old(sent)|, p)
    {
      hide PruningOk, NoPrunedGuess, AllLearnt, Learnt, AskedAmbiguous, Ambiguous, Asked;
      ghost var known, from := seen, |sent|;
      NothingAskedYet(known, paths, sent);
      for i := 0 to |paths|
        invariant Valid() && Spent() && SentOnly("OPTIONS", {Plain})
        invariant AllLearnt(known, seen, sent, from) && AskedAmbiguous(known, paths, sent, from)
        invariant forall k :: 0 <= k < i && Ambiguous(known, paths[k]) ==> !BudgetLeft() || Asked(sent, from, paths[k])
      {
        ghost var before := sent;
        assert paths[i] in paths;
        AskMethods(paths[i], known, paths, from);
        forall k | 0 <= k < i && Ambiguous(known, paths[k]) ensures !BudgetLeft() || Asked(sent, from, paths[k]) {
          if Asked(before, from, paths[k]) { AskedStays(before, sent, from, paths[k]); }
        }
      }
      forall p: string
        ensures Ambiguous(known, p) <==> p in known && known[p].methods in {[], ["GET"]} && '?' !in p
      {
        AmbiguousMeans(known, p);
      }
      OnlyAmbiguous(known, paths, sent, from);
    }

    lemma AmbiguousMeans(routes: map<string, Route>, path: string)
      ensures Ambiguous(routes, path) <==> path in routes && routes[path].methods in {[], ["GET"]} && '?' !in path
    {}

    lemma OnlyAmbiguous(known: map<string, Route>, paths: seq<string>, probed: seq<Sent>, from: nat)
      requires AskedAmbiguous(known, paths, probed, from)
      ensures forall i :: from <= i < |probed| ==> probed[i].path in paths && Ambiguous(known, probed[i].path)
    {}

    lemma NothingAskedYet(known: map<string, Route>, paths: seq<string>, probed: seq<Sent>)
      ensures AllLearnt(known, known, probed, |probed|) && AskedAmbiguous(known, paths, probed, |probed|)
    {}

    lemma AskedStays(before: seq<Sent>, after: seq<Sent>, from: nat, path: string)
      requires Asked(before, from, path) && before <= after
      ensures Asked(after, from, path)
    {}

    lemma UnaskedIsAsBefore(
        known: map<string, Route>, now: map<string, Route>, probed: seq<Sent>, from: nat, path: string)
      requires AllLearnt(known, now, probed, from) && Ambiguous(known, path) && !Asked(probed, from, path)
      ensures Ambiguous(now, path)
    {
      UnaskedLearnsNothing(probed, from, path, known[path].methods);
    }

    lemma {:induction false} UnaskedLearnsNothing(probed: seq<Sent>, from: nat, path: string, known: seq<string>)
      requires !Asked(probed, from, path)
      ensures Learnt(probed, from, path, known) == known
    {
      if |probed| > from {
        var n := |probed| - 1;
        if Asked(probed[..n], from, path) { AskedStays(probed[..n], probed, from, path); }
        UnaskedLearnsNothing(probed[..n], from, path, known);
      }
    }

    method AskMethods(path: string, ghost known: map<string, Route>, ghost paths: seq<string>, ghost from: nat)
      requires Valid() && path in paths && from <= |sent|
      requires AllLearnt(known, seen, sent, from) && AskedAmbiguous(known, paths, sent, from)
      modifies this`probes, this`sent, this`seen
      ensures Valid() && Spent() && SentOnly("OPTIONS", {Plain})
      ensures AllLearnt(known, seen, sent, from) && AskedAmbiguous(known, paths, sent, from)
      ensures Ambiguous(known, path) ==> !BudgetLeft() || Asked(sent, from, path)
    {
      hide PruningOk, NoPrunedGuess, AllLearnt, Learnt, AskedAmbiguous, Asked;
      if !Ambiguous(seen, path) {
        if Ambiguous(known, path) && !Asked(sent, from, path) { UnaskedIsAsBefore(known, seen, sent, from, path); }
        return;
      }
      StillAmbiguous(known, seen, paths, sent, from, path);
      ghost var before, s := sent, Sent("OPTIONS", path, Plain, dead, wildcards);
      var r := Raw("OPTIONS", path, Plain);
      if sent != before {
        AskOneMore(known, paths, before, from, s);
        LearntMore(known, seen, before, from, s);
      }
      if r.Some? && r.value.allow != [] {
        seen := seen[path := seen[path].(methods := r.value.allow)];
      }
    }

    lemma AskOneMore(known: map<string, Route>, paths: seq<string>, probed: seq<Sent>, from: nat, s: Sent)
      requires AskedAmbiguous(known, paths, probed, from) && s.path in paths && Ambiguous(known, s.path)
      requires from <= |probed|
      ensures AskedAmbiguous(known, paths, probed + [s], from) && Asked(probed + [s], from, s.path)
    {
      assert (probed + [s])[|probed|] == s;
    }

    method SetLimit(limit: int)
      requires Valid()
      modifies this`phaseLimit
      ensures Valid() && phaseLimit == limit
    {
      phaseLimit := limit;
    }

    /** Each candidate had its turn in the phase that began with `from` probes, and at its end there was
        budget left exactly if fewer than `limit` probes had been sent. */
    ghost predicate PhaseDone(candidates: seq<Candidate>, end: Known, from: nat, limit: int) {
      && (forall c :: c in candidates ==> HadItsTurn(end, c, from))
      && (end.budget <==> |end.sent| < limit)
    }

    /** The whole discovery, without the container fast path: `ends` lists what was known when the
        sweep, the adaptive and the query phase ended. No phase passes its limit; query probing and
        OPTIONS mining each start with at least their reserve unsent, and no candidate is left without
        its turn while a phase has budget. At every moment of the run no guess goes under a namespace
        then known dead or a wildcard. */
    method Discover(specPaths: seq<string>, sweep: seq<Candidate>, adaptive: seq<Candidate>,
                    queries: seq<Candidate>, ambiguous: seq<string>)
      returns (ghost ends: seq<Known>)
      requires Valid()
      modifies this
      ensures Valid() && probes <= Max(0, maxProbes) && |sent| == probes && NoPrunedGuess(sent)
      ensures forall i :: |old(sent)| <= i < |sent| ==> IsOfRun(sweep + adaptive + queries, sent[i])
      ensures |ends| == 3 && ends[0].sent <= ends[1].sent <= ends[2].sent <= sent && old(sent) <= ends[0].sent
      ensures old(probes) == 0 && maxProbes >= 0 ==>
                var mining := if maxProbes >= 2000 then 200 else maxProbes / 10;
                var late := if maxProbes >= 24 then maxProbes / 4 else 0;
                && |ends[0].sent| <= maxProbes - mining - late
                && |ends[1].sent| <= maxProbes - mining - late / 2
                && |ends[2].sent| <= maxProbes - mining && probes <= maxProbes
                && PhaseDone(sweep, ends[0], 0, maxProbes - mining - late)
                && PhaseDone(adaptive, ends[1], |ends[0].sent|, maxProbes - mining - late / 2)
                && PhaseDone(queries, ends[2], |ends[1].sent|, maxProbes - mining)
      ensures forall i :: |old(sent)| <= i < |sent| ==>
                sent[i].verb == if i < |ends[2].sent| then "GET" else "OPTIONS"
    {
      hide PruningOk, PhaseLimits, HadItsTurn;
      if maxProbes >= 0 { LimitsReserve(maxProbes); }
      var l := PhaseLimits(maxProbes);
      ends := RouteAndQueryPhases(specPaths, sweep, adaptive, queries);
      SetLimit(l[3]);
      LearnMethods(ambiguous);
    }

    /** A probe of the run is a control, a plain probe, or a checked path of one of its candidates. */
    ghost predicate IsOfRun(candidates: seq<Candidate>, p: Sent) {
      p.kind in {Control, Plain} || exists c :: c in candidates && IsFor(c, p)
    }

    method PhaseOf(candidates: seq<Candidate>, ghost all: seq<Candidate>, limit: int) returns (ghost end: Known)
      requires Valid() && forall c :: c in candidates ==> c in all
      modifies this
      ensures Valid() && old(sent) <= sent && probes <= Max(old(probes), Min(maxProbes, limit)) && end == Now()
      ensures forall i :: |old(sent)| <= i < |sent| ==> sent[i].verb == "GET" && IsOfRun(all, sent[i])
      ensures limit <= maxProbes ==> PhaseDone(candidates, end, |old(sent)|, limit)
    {
      hide PruningOk, NoPrunedGuess, HadItsTurn;
      SetLimit(limit);
      RunPhase(candidates);
      end := Now();
    }

    /** The phases before the OPTIONS mining. */
    method RouteAndQueryPhases(
        specPaths: seq<string>, sweep: seq<Candidate>, adaptive: seq<Candidate>, queries: seq<Candidate>)
      returns (ghost ends: seq<Known>)
      requires Valid()
      modifies this
      ensures Valid() && |ends| == 3 && old(sent) <= ends[0].sent <= ends[1].sent <= ends[2].sent == sent
      ensures forall i :: |old(sent)| <= i < |sent| ==>
                sent[i].verb == "GET" && IsOfRun(sweep + adaptive + queries, sent[i])
      ensures var l := PhaseLimits(maxProbes);
              && |ends[0].sent| <= Max(old(probes), Min(maxProbes, l[0]))
              && |ends[1].sent| <= Max(|ends[0].sent|, Min(maxProbes, l[1]))
              && |ends[2].sent| <= Max(|ends[1].sent|, Min(maxProbes, l[2]))
              && (l[0] <= maxProbes ==> PhaseDone(sweep, ends[0], |old(sent)|, l[0]))
              && (l[1] <= maxProbes ==> PhaseDone(adaptive, ends[1], |ends[0].sent|, l[1]))
              && (l[2] <= maxProbes ==> PhaseDone(queries, ends[2], |ends[1].sent|, l[2]))
    {
      hide PruningOk, Agreed, Shapes, PhaseLimits, NoPrunedGuess, IsFor, HadItsTurn, PhaseDone;
      var l := PhaseLimits(maxProbes);
      ghost var all := sweep + adaptive + queries;
      ghost var first := SweepPhase(specPaths, sweep, all, l[0]);
      ghost var second := PhaseOf(adaptive, all, l[1]);
      ghost var third := PhaseOf(queries, all, l[2]);
      ends := [first, second, third];
    }

    /** Calibration and the contract probe come out of the sweep's limit. */
    method SweepPhase(specPaths: seq<string>, sweep: seq<Candidate>, ghost all: seq<Candidate>, limit: int)
      returns (ghost end: Known)
      requires Valid() && forall c :: c in sweep ==> c in all
      modifies this
      ensures Valid() && old(sent) <= sent && probes <= Max(old(probes), Min(maxProbes, limit)) && end == Now()
      ensures forall i :: |old(sent)| <= i < |sent| ==> sent[i].verb == "GET" && IsOfRun(all, sent[i])
      ensures limit <= maxProbes ==> PhaseDone(sweep, end, |old(sent)|, limit)
    {
      hide PruningOk, Agreed, Shapes, NoPrunedGuess, IsFor, HadItsTurn, PhaseDone;
      SetLimit(limit);
      CalibrateNotFound();
      ProbeSpecs(specPaths);
      assert forall i :: |old(sent)| <= i < |sent| ==> sent[i].verb == "GET" && IsOfRun(all, sent[i]);
      ghost var start := |sent|;
      end := PhaseOf(sweep, all, limit);
      if limit <= maxProbes { DoneFromEarlier(sweep, end, |old(sent)|, start, limit); }
    }

    lemma DoneFromEarlier(candidates: seq<Candidate>, end: Known, from: nat, later: nat, limit: int)
      requires from <= later && PhaseDone(candidates, end, later, limit)
      ensures PhaseDone(candidates, end, from, limit)
    {
      forall c | c in candidates ensures HadItsTurn(end, c, from) { FromEarlier(end, c, from, later); }
    }
  }
}
