/** The analysis cache: two bounded tables keyed by the canonical form of an exchange, with
    expiry, staleness, oldest-first eviction and statistics. */
module Cache {
  import opened Options
  import opened Digests
  import Text

  // ------------------------------------------------------------------
  // Canonical keys
  // ------------------------------------------------------------------

  /** Headers in the order they were captured. */
  type HeaderList = seq<(string, string)>

  datatype Traffic = Traffic(
    url: string, verb: string, requestHeaders: HeaderList, requestBody: string,
    responseStatus: Option<int>, responseHeaders: HeaderList, responseBody: string, note: string)

  const VOLATILE := {
    "date", "age", "etag", "x-request-id", "x-correlation-id", "traceparent", "tracestate", "cf-ray",
    "server-timing", "via", "x-amzn-trace-id", "x-runtime", "x-response-time"}

  predicate Stable(header: (string, string)) { Text.Lower(header.0) !in VOLATILE }

  /** Names are distinct in a header dictionary, so its sorted list of pairs is this set. */
  function StableHeaders(headers: HeaderList): set<(string, string)> {
    set h | h in headers && Stable(h)
  }

  datatype Canonical = Canonical(
    namespace: string, url: string, verb: string, requestHeaders: set<(string, string)>, requestBody: string,
    responseStatus: Option<int>, responseHeaders: set<(string, string)>, responseBody: string, note: string)

  type Key = Digest<Canonical>

  function ExchangeHash(x: Traffic, namespace: string): Key {
    Sha256(Canonical(
      namespace, x.url, x.verb, StableHeaders(x.requestHeaders), x.requestBody,
      x.responseStatus, StableHeaders(x.responseHeaders), x.responseBody, x.note))
  }

  /** Two exchanges share a key exactly when they agree on everything but the order of their
      headers and the volatile ones among them. */
  lemma SameKeyIff(x: Traffic, y: Traffic, m: string, n: string)
    ensures ExchangeHash(x, m) == ExchangeHash(y, n) <==>
            && m == n
            && x.(requestHeaders := [], responseHeaders := []) == y.(requestHeaders := [], responseHeaders := [])
            && SameButVolatile(x.requestHeaders, y.requestHeaders)
            && SameButVolatile(x.responseHeaders, y.responseHeaders)
  {
    SameStableIff(x.requestHeaders, y.requestHeaders);
    SameStableIff(x.responseHeaders, y.responseHeaders);
  }

  /** The same headers, but for those that differ from one answer to the next. */
  ghost predicate SameButVolatile(a: HeaderList, b: HeaderList) {
    forall h: (string, string) ::
      Text.Lower(h.0) !in {
        "date", "age", "etag", "x-request-id", "x-correlation-id", "traceparent", "tracestate", "cf-ray",
        "server-timing", "via", "x-amzn-trace-id", "x-runtime", "x-response-time"}
      ==> (h in a <==> h in b)
  }

  lemma SameStableIff(a: HeaderList, b: HeaderList)
    ensures StableHeaders(a) == StableHeaders(b) <==> SameButVolatile(a, b)
  {
    hide Text.Lower;
    forall h | Stable(h) ensures h in StableHeaders(a) <==> h in a {}
    forall h | Stable(h) ensures h in StableHeaders(b) <==> h in b {}
  }

  // ------------------------------------------------------------------
  // Rows
  // ------------------------------------------------------------------

  type Prompts = map<string, string>

  datatype Row<P> = Row(
    payload: P, createdAt: int, ttl: int, model: string, prompts: Prompts, fingerprint: string)

  predicate Expired<P>(row: Row<P>, now: int) { now > row.createdAt + row.ttl }

  /** A prompt only counts against a row that recorded a version for its agent. */
  predicate StalePrompts(recorded: Prompts, current: Prompts) {
    exists agent :: agent in current && agent in recorded && recorded[agent] != current[agent]
  }

  predicate Stale<P>(row: Row<P>, model: string, prompts: Prompts) {
    row.model != model || StalePrompts(row.prompts, prompts)
  }

  predicate StaleHypothesis<P>(row: Row<P>, model: string, prompts: Prompts, fingerprint: string) {
    row.model != model || row.fingerprint != fingerprint || StalePrompts(row.prompts, prompts)
  }

  /** The serialized analysis result. */
  type Response = string

  datatype Finding = Finding(
    proofId: string, caseId: string, confirmed: bool, confirmedByLeg: string, oracleVerified: bool,
    oracleCapsuleId: string, oracleReason: string, verificationState: string)

  datatype Hypothesis = Hypothesis(reports: seq<seq<Finding>>, tail: string)

  predicate Authoritative(f: Finding) {
    || f.proofId != "" || f.caseId != "" || f.confirmed || f.confirmedByLeg != ""
    || f.oracleVerified || f.oracleCapsuleId != "" || f.oracleReason != ""
    || f.verificationState != "candidate"
  }

  predicate HasAuthority(h: Hypothesis) {
    exists i, j :: 0 <= i < |h.reports| && 0 <= j < |h.reports[i]| && Authoritative(h.reports[i][j])
  }

  datatype Stats = Stats(hits: nat, misses: nat, bypasses: nat, evictions: nat)

  // ------------------------------------------------------------------
  // Capacity eviction
  // ------------------------------------------------------------------

  function DeleteCount(maxSize: int): (n: nat)
    ensures n >= 1 && (maxSize >= 1 ==> n <= maxSize)
  {
    if maxSize / 10 > 1 then maxSize / 10 else 1
  }

  function Min(a: nat, b: nat): nat { if a <= b then a else b }

  predicate NoNewerThanRest<P>(rows: map<Key, Row<P>>, chosen: set<Key>) {
    chosen <= rows.Keys &&
    forall v, s :: v in chosen && s in rows && s !in chosen ==> rows[v].createdAt <= rows[s].createdAt
  }

  /** What a store may remove first: nothing below capacity, else the oldest rows. */
  predicate CapacityEviction<P>(rows: map<Key, Row<P>>, evicted: set<Key>, maxSize: int) {
    if |rows| < maxSize then evicted == {}
    else |evicted| == Min(DeleteCount(maxSize), |rows|) && NoNewerThanRest(rows, evicted)
  }

  /** What the eviction counter is told. */
  function Counted<P>(rows: map<Key, Row<P>>, maxSize: int): nat {
    if |rows| < maxSize then 0 else DeleteCount(maxSize)
  }

  lemma OldestOf<P>(rows: map<Key, Row<P>>, rest: set<Key>) returns (k: Key)
    requires rest <= rows.Keys && rest != {}
    ensures k in rest && forall s :: s in rest ==> rows[k].createdAt <= rows[s].createdAt
    decreases |rest|
  {
    k :| k in rest;
    if rest != {k} {
      var other := OldestOf(rows, rest - {k});
      if rows[other].createdAt < rows[k].createdAt { k := other; }
    }
  }

  lemma OldestExist<P>(rows: map<Key, Row<P>>, n: nat) returns (chosen: set<Key>)
    requires n <= |rows|
    ensures |chosen| == n && NoNewerThanRest(rows, chosen)
  {
    if n == 0 {
      chosen := {};
    } else {
      var fewer := OldestExist(rows, n - 1);
      assert |rows.Keys - fewer| == |rows.Keys| - |fewer|;
      var k := OldestOf(rows, rows.Keys - fewer);
      chosen := fewer + {k};
    }
  }

  /** The counter agrees with the rows removed exactly when the capacity is positive or the
      table is not empty: an empty table of capacity zero counts an eviction of nothing. */
  lemma CountedIsRemoved<P>(rows: map<Key, Row<P>>, evicted: set<Key>, maxSize: int)
    requires CapacityEviction(rows, evicted, maxSize)
    ensures Counted(rows, maxSize) == |evicted| <==> maxSize >= 1 || rows != map[]
  {
    if rows == map[] {
      assert |rows| == 0;
    } else {
      var k :| k in rows;
      assert rows.Keys != {} && |rows| == |rows.Keys| > 0;
    }
  }

  /** An evicted row was crowded out: at least the capacity less one eviction batch of other
      rows, none older, stay in the table. */
  lemma CrowdedOut<P>(rows: map<Key, Row<P>>, evicted: set<Key>, maxSize: int, v: Key)
    requires CapacityEviction(rows, evicted, maxSize) && v in evicted && maxSize >= 1
    ensures var batch := if maxSize >= 20 then maxSize / 10 else 1;
            |rows.Keys - evicted| >= maxSize - batch && |evicted| == if batch <= |rows| then batch else |rows|
    ensures forall s :: s in rows.Keys - evicted ==> rows[v].createdAt <= rows[s].createdAt
  {
    assert evicted <= rows.Keys;
    assert |rows.Keys - evicted| == |rows.Keys| - |evicted|;
  }

  // ------------------------------------------------------------------
  // One table with its history
  // ------------------------------------------------------------------

  /** Why the latest row stored under a key is not in its table any more. */
  datatype Loss = Crowded | HeldAuthority | LookedUpExpired | LookedUpStale | Cleared

  /** Why a row found under the key is not an answer. */
  function Flaw<P>(row: Row<P>, model: string, prompts: Prompts, now: int): Option<Loss> {
    if Expired(row, now) then Some(LookedUpExpired)
    else if Stale(row, model, prompts) then Some(LookedUpStale) else None
  }

  function HypothesisFlaw(
      row: Row<Hypothesis>, model: string, prompts: Prompts, fingerprint: string, now: int): Option<Loss> {
    if HasAuthority(row.payload) then Some(HeldAuthority)
    else if Expired(row, now) then Some(LookedUpExpired)
    else if StaleHypothesis(row, model, prompts, fingerprint) then Some(LookedUpStale) else None
  }

  /** A table, the latest row ever stored under each key, the losses on record, how many stores
      did not replace a row, and how many rows were removed. */
  datatype Ledger<P> = Ledger(
    rows: map<Key, Row<P>>, latest: map<Key, Row<P>>, gone: map<Key, Loss>, inserted: nat, removed: nat)

  function EmptyLedger<P>(): Ledger<P> { Ledger(map[], map[], map[], 0, 0) }

  /** The table is the map of latest stores, less the rows whose loss is on record. */
  ghost predicate Accounted<P>(l: Ledger<P>) {
    && (forall k :: k in l.rows ==> k in l.latest && k !in l.gone && l.rows[k] == l.latest[k])
    && (forall k :: k in l.gone ==> k in l.latest)
    && (forall k :: k in l.latest ==> k in l.rows || k in l.gone)
    && l.inserted == |l.rows| + l.removed
  }

  ghost predicate Bounded<P>(l: Ledger<P>, maxSize: int) { maxSize >= 1 ==> |l.rows| <= maxSize }

  function Losses(keys: set<Key>, why: Loss): map<Key, Loss> { map k | k in keys :: why }

  function Dropped<P>(l: Ledger<P>, k: Key, why: Loss): Ledger<P> {
    l.(rows := l.rows - {k}, gone := l.gone[k := why], removed := l.removed + 1)
  }

  function Stored<P>(l: Ledger<P>, evicted: set<Key>, k: Key, row: Row<P>): Ledger<P> {
    Ledger((l.rows - evicted)[k := row], l.latest[k := row], (l.gone + Losses(evicted, Crowded)) - {k},
           l.inserted + (if k in l.rows && k !in evicted then 0 else 1), l.removed + |evicted|)
  }

  function Emptied<P>(l: Ledger<P>): Ledger<P> {
    l.(rows := map[], gone := l.gone + Losses(l.rows.Keys, Cleared), removed := l.removed + |l.rows|)
  }

  /** A lookup's answer and the table after it: a row with a flaw is removed. */
  function LookedUp<P>(l: Ledger<P>, k: Key, flaw: Option<Loss>): (Option<P>, Ledger<P>) {
    if k !in l.rows then (None, l)
    else if flaw.Some? then (None, Dropped(l, k, flaw.value))
    else (Some(l.rows[k].payload), l)
  }

  lemma DropKeeps<P>(l: Ledger<P>, k: Key, why: Loss)
    requires Accounted(l) && k in l.rows
    ensures Accounted(Dropped(l, k, why)) && |Dropped(l, k, why).rows| == |l.rows| - 1
  {
    assert (l.rows - {k}).Keys == l.rows.Keys - {k};
  }

  lemma EmptyingKeeps<P>(l: Ledger<P>)
    requires Accounted(l)
    ensures Accounted(Emptied(l))
  {}

  lemma StoreCounts<P>(rows: map<Key, Row<P>>, evicted: set<Key>, k: Key, row: Row<P>)
    requires evicted <= rows.Keys
    ensures |(rows - evicted)[k := row]| == |rows| - |evicted| + if k in rows && k !in evicted then 0 else 1
  {
    var kept := rows - evicted;
    assert kept.Keys == rows.Keys - evicted;
    assert |kept.Keys| == |rows.Keys| - |evicted|;
    var after := kept[k := row];
    assert after.Keys == kept.Keys + {k};
    if k in kept {
      assert after.Keys == kept.Keys;
    }
  }

  lemma StoreKeeps<P>(l: Ledger<P>, evicted: set<Key>, k: Key, row: Row<P>, maxSize: int)
    requires Accounted(l) && Bounded(l, maxSize) && CapacityEviction(l.rows, evicted, maxSize)
    ensures Accounted(Stored(l, evicted, k, row)) && Bounded(Stored(l, evicted, k, row), maxSize)
  {
    StoreCounts(l.rows, evicted, k, row);
    var after := Stored(l, evicted, k, row);
    forall x | x in after.rows ensures x in after.latest && x !in after.gone && after.rows[x] == after.latest[x] {
      if x != k { assert x in l.rows && x !in evicted; }
    }
    forall x | x in after.gone ensures x in after.latest { assert x in l.gone || x in evicted; }
    forall x | x in after.latest ensures x in after.rows || x in after.gone {
      if x != k { assert x in l.rows || x in l.gone; }
    }
  }

  /** A lookup hits exactly when something was stored under the key, its row has not been
      removed, and the row has no flaw; a hit is the latest store. */
  lemma HitIsLatest<P>(l: Ledger<P>, k: Key, flaw: Option<Loss>)
    requires Accounted(l)
    ensures LookedUp(l, k, flaw).0.Some? <==> k in l.latest && k !in l.gone && flaw.None?
    ensures LookedUp(l, k, flaw).0.Some? ==> LookedUp(l, k, flaw).0.value == l.latest[k].payload
    ensures Accounted(LookedUp(l, k, flaw).1)
    ensures |LookedUp(l, k, flaw).1.rows| <= |l.rows|
  {
    if k in l.rows && flaw.Some? { DropKeeps(l, k, flaw.value); }
  }

  /** The row is usable: in its time, by the same model, and by the same prompt of every agent that has
      one now and had one then. */
  ghost predicate Usable<P>(row: Row<P>, model: string, prompts: Prompts, now: int) {
    && now - row.createdAt <= row.ttl && row.model == model
    && forall agent :: agent in prompts && agent in row.prompts ==> prompts[agent] == row.prompts[agent]
  }

  /** Nothing in it claims proof or confirmation. */
  ghost predicate Unproven(h: Hypothesis) {
    forall i, j :: 0 <= i < |h.reports| && 0 <= j < |h.reports[i]| ==>
      var f := h.reports[i][j];
      f == Finding("", "", false, "", false, "", "", "candidate")
  }

  /** In full, for both tables: the latest store answers exactly while it is not lost, expired or
      stale, and, as a hypothesis, was made under the same fingerprint and claims nothing proven. */
  lemma HitIff(
      l: Ledger<Response>, h: Ledger<Hypothesis>, k: Key, model: string, prompts: Prompts, fingerprint: string,
      now: int)
    requires Accounted(l) && Accounted(h)
    ensures var flaw := if k in l.rows then Flaw(l.rows[k], model, prompts, now) else None;
            LookedUp(l, k, flaw).0 ==
            if k in l.latest && k !in l.gone && Usable(l.latest[k], model, prompts, now)
            then Some(l.latest[k].payload) else None
    ensures var flaw := if k in h.rows then HypothesisFlaw(h.rows[k], model, prompts, fingerprint, now) else None;
            LookedUp(h, k, flaw).0 ==
            if k in h.latest && k !in h.gone && Usable(h.latest[k], model, prompts, now)
               && h.latest[k].fingerprint == fingerprint && Unproven(h.latest[k].payload)
            then Some(h.latest[k].payload) else None
  {
    if k in l.rows { FlawMeans(l.rows[k], model, prompts, now); }
    if k in h.rows { HypothesisFlawMeans(h.rows[k], model, prompts, fingerprint, now); }
    hide Usable, Unproven, Flaw, HypothesisFlaw;
    HitIsLatest(l, k, if k in l.rows then Flaw(l.rows[k], model, prompts, now) else None);
    HitIsLatest(h, k, if k in h.rows then HypothesisFlaw(h.rows[k], model, prompts, fingerprint, now) else None);
  }

  lemma FlawMeans<P>(row: Row<P>, model: string, prompts: Prompts, now: int)
    ensures Flaw(row, model, prompts, now).None? <==> Usable(row, model, prompts, now)
  {}

  lemma HypothesisFlawMeans(row: Row<Hypothesis>, model: string, prompts: Prompts, fingerprint: string, now: int)
    ensures HypothesisFlaw(row, model, prompts, fingerprint, now).None? <==>
              Usable(row, model, prompts, now) && row.fingerprint == fingerprint && Unproven(row.payload)
  {
    UnprovenIff(row.payload);
    hide HasAuthority, Unproven;
  }

  lemma UnprovenIff(h: Hypothesis)
    ensures HasAuthority(h) <==> !Unproven(h)
  {}

  method Evict<P>(rows: map<Key, Row<P>>, maxSize: int) returns (kept: map<Key, Row<P>>, evicted: set<Key>)
    ensures CapacityEviction(rows, evicted, maxSize) && kept == rows - evicted
  {
    evicted := {};
    if |rows| >= maxSize {
      ghost var oldest := OldestExist(rows, Min(DeleteCount(maxSize), |rows|));
      evicted :| && evicted <= rows.Keys && |evicted| == Min(DeleteCount(maxSize), |rows|)
                 && NoNewerThanRest(rows, evicted);
    }
    kept := rows - evicted;
  }

  /** INSERT OR REPLACE after the capacity eviction. */
  method StoreIn<P>(rows: map<Key, Row<P>>, ghost l: Ledger<P>, k: Key, row: Row<P>, maxSize: int)
    returns (after: map<Key, Row<P>>, ghost evicted: set<Key>, ghost l': Ledger<P>)
    requires rows == l.rows && Accounted(l) && Bounded(l, maxSize)
    ensures CapacityEviction(rows, evicted, maxSize)
    ensures l' == Stored(l, evicted, k, row) && after == l'.rows && Accounted(l') && Bounded(l', maxSize)
    ensures maxSize >= 1 ==> l'.removed == l.removed + Counted(rows, maxSize)
    ensures forall x :: x in after ==> after[x] == row || (x in rows && after[x] == rows[x])
  {
    var kept, removed := Evict(rows, maxSize);
    evicted := removed;
    StoreKeeps(l, evicted, k, row, maxSize);
    CountedIsRemoved(rows, evicted, maxSize);
    hide Accounted, CapacityEviction, Bounded, Counted;
    l' := Stored(l, evicted, k, row);
    after := kept[k := row];
  }

  // ------------------------------------------------------------------
  // The cache
  // ------------------------------------------------------------------

  class ExchangeCache {
    const ttl: int
    const maxSize: int
    var enabled: bool
    var entries: map<Key, Row<Response>>
    var hypotheses: map<Key, Row<Hypothesis>>
    var stats: Stats
    var hypStats: Stats
    var persisted: Stats

    ghost var ledger: Ledger<Response>
    ghost var hypLedger: Ledger<Hypothesis>

    ghost predicate Valid()
      reads this
    {
      && entries == ledger.rows && hypotheses == hypLedger.rows
      && Accounted(ledger) && Accounted(hypLedger)
      && Bounded(ledger, maxSize) && Bounded(hypLedger, maxSize)
      && persisted == stats
      && (maxSize >= 1 ==> stats.evictions + hypStats.evictions == ledger.removed + hypLedger.removed)
    }

    constructor (ttl: int, maxSize: int, enabled: bool)
      ensures Valid() && ledger == EmptyLedger() && hypLedger == EmptyLedger()
      ensures this.ttl == ttl && this.maxSize == maxSize && this.enabled == enabled
      ensures stats == hypStats == Stats(0, 0, 0, 0)
    {
      this.ttl, this.maxSize, this.enabled := ttl, maxSize, enabled;
      entries, hypotheses := map[], map[];
      stats, hypStats, persisted := Stats(0, 0, 0, 0), Stats(0, 0, 0, 0), Stats(0, 0, 0, 0);
      ledger, hypLedger := EmptyLedger(), EmptyLedger();
    }

    method Bypass()
      requires Valid()
      modifies this`stats, this`persisted
      ensures Valid() && stats == old(stats).(bypasses := old(stats).bypasses + 1)
    {
      stats := stats.(bypasses := stats.bypasses + 1);
      persisted := stats;
    }

    method Get(x: Traffic, model: string, prompts: Prompts, bypass: bool, namespace: string, now: int)
      returns (r: Option<Response>)
      requires Valid()
      modifies this`entries, this`ledger, this`stats, this`persisted
      ensures Valid()
      ensures !enabled || bypass ==>
                r == None && ledger == old(ledger) && stats == old(stats).(bypasses := old(stats).bypasses + 1)
      ensures enabled && !bypass ==>
                var k := ExchangeHash(x, namespace);
                var flaw := if k in old(entries) then Flaw(old(entries)[k], model, prompts, now) else None;
                && (r, ledger) == LookedUp(old(ledger), k, flaw)
                && stats == if r.Some? then old(stats).(hits := old(stats).hits + 1)
                            else old(stats).(misses := old(stats).misses + 1,
                                             evictions := old(stats).evictions + if k in old(entries) then 1 else 0)
    {
      hide Accounted, Bounded, Expired, Stale, ExchangeHash;
      if !enabled || bypass {
        Bypass();
        return None;
      }
      var k := ExchangeHash(x, namespace);
      if k !in entries {
        stats := stats.(misses := stats.misses + 1);
        persisted := stats;
        return None;
      }
      var row := entries[k];
      if Expired(row, now) {
        RemoveEntry(k, LookedUpExpired);
        return None;
      }
      if Stale(row, model, prompts) {
        RemoveEntry(k, LookedUpStale);
        return None;
      }
      stats := stats.(hits := stats.hits + 1);
      persisted := stats;
      return Some(row.payload);
    }

    method RemoveEntry(k: Key, ghost why: Loss)
      requires Valid() && k in entries
      modifies this`entries, this`ledger, this`stats, this`persisted
      ensures Valid() && ledger == Dropped(old(ledger), k, why)
      ensures stats == old(stats).(misses := old(stats).misses + 1, evictions := old(stats).evictions + 1)
    {
      hide Accounted;
      DropKeeps(ledger, k, why);
      ledger := Dropped(ledger, k, why);
      entries := entries - {k};
      stats := stats.(misses := stats.misses + 1, evictions := stats.evictions + 1);
      persisted := stats;
    }

    method Put(x: Traffic, response: Response, model: string, prompts: Prompts, namespace: string, now: int)
      returns (ghost evicted: set<Key>)
      requires Valid()
      modifies this`entries, this`ledger, this`stats, this`persisted
      ensures Valid()
      ensures !enabled ==> ledger == old(ledger) && stats == old(stats)
      ensures enabled ==>
                && CapacityEviction(old(entries), evicted, maxSize)
                && ledger == Stored(old(ledger), evicted, ExchangeHash(x, namespace),
                                    Row(response, now, ttl, model, prompts, ""))
                && stats == old(stats).(evictions := old(stats).evictions + Counted(old(entries), maxSize))
    {
      hide Accounted, Bounded, CapacityEviction, ExchangeHash, Stored, Counted;
      evicted := {};
      if !enabled {
        return;
      }
      evicted := Store(ExchangeHash(x, namespace), Row(response, now, ttl, model, prompts, ""));
    }

    /** Makes room, counts what the counter is told, and files the row. */
    method Store(k: Key, row: Row<Response>) returns (ghost evicted: set<Key>)
      requires Valid()
      modifies this`entries, this`ledger, this`stats, this`persisted
      ensures Valid() && CapacityEviction(old(entries), evicted, maxSize)
      ensures ledger == Stored(old(ledger), evicted, k, row)
      ensures stats == old(stats).(evictions := old(stats).evictions + Counted(old(entries), maxSize))
    {
      hide Accounted, Bounded, CapacityEviction, HasAuthority, Stored, Counted;
      var after, chosen, history := StoreIn(entries, ledger, k, row, maxSize);
      evicted := chosen;
      stats := stats.(evictions := stats.evictions + Counted(entries, maxSize));
      persisted := stats;
      entries, ledger := after, history;
    }

    /** No answer carries authority, whatever rows the table holds: one that does is removed. */
    method GetHypothesis(x: Traffic, model: string, prompts: Prompts, fingerprint: string, bypass: bool,
                         namespace: string, now: int)
      returns (r: Option<Hypothesis>)
      requires Valid()
      modifies this`hypotheses, this`hypLedger, this`hypStats
      ensures Valid()
      ensures r.Some? ==> Unproven(r.value)
      ensures !enabled || bypass ==>
                r == None && hypLedger == old(hypLedger)
                && hypStats == old(hypStats).(bypasses := old(hypStats).bypasses + 1)
      ensures enabled && !bypass ==>
                var k := ExchangeHash(x, namespace);
                var flaw := if k in old(hypotheses)
                            then HypothesisFlaw(old(hypotheses)[k], model, prompts, fingerprint, now) else None;
                && (r, hypLedger) == LookedUp(old(hypLedger), k, flaw)
                && hypStats == if r.Some? then old(hypStats).(hits := old(hypStats).hits + 1)
                               else old(hypStats).(misses := old(hypStats).misses + 1,
                                                   evictions := old(hypStats).evictions
                                                                + if k in old(hypotheses) then 1 else 0)
    {
      hide Accounted, Bounded, Expired, StaleHypothesis, HasAuthority, Unproven, ExchangeHash;
      if !enabled || bypass {
        hypStats := hypStats.(bypasses := hypStats.bypasses + 1);
        return None;
      }
      var k := ExchangeHash(x, namespace);
      if k !in hypotheses {
        hypStats := hypStats.(misses := hypStats.misses + 1);
        return None;
      }
      var row := hypotheses[k];
      if HasAuthority(row.payload) {
        RemoveHypothesis(k, HeldAuthority);
        return None;
      }
      if Expired(row, now) {
        RemoveHypothesis(k, LookedUpExpired);
        return None;
      }
      if StaleHypothesis(row, model, prompts, fingerprint) {
        RemoveHypothesis(k, LookedUpStale);
        return None;
      }
      hypStats := hypStats.(hits := hypStats.hits + 1);
      UnprovenIff(row.payload);
      return Some(row.payload);
    }

    method RemoveHypothesis(k: Key, ghost why: Loss)
      requires Valid() && k in hypotheses
      modifies this`hypotheses, this`hypLedger, this`hypStats
      ensures Valid() && hypLedger == Dropped(old(hypLedger), k, why)
      ensures hypStats == old(hypStats).(misses := old(hypStats).misses + 1, evictions := old(hypStats).evictions + 1)
    {
      hide Accounted;
      DropKeeps(hypLedger, k, why);
      hypLedger := Dropped(hypLedger, k, why);
      hypotheses := hypotheses - {k};
      hypStats := hypStats.(misses := hypStats.misses + 1, evictions := hypStats.evictions + 1);
    }

    /** Anything carrying proof or confirmation authority is refused, changing nothing. */
    method PutHypothesis(x: Traffic, hypothesis: Hypothesis, model: string, prompts: Prompts, fingerprint: string,
                         namespace: string, now: int)
      returns (ghost evicted: set<Key>)
      requires Valid()
      modifies this`hypotheses, this`hypLedger, this`hypStats
      ensures Valid()
      ensures !enabled || HasAuthority(hypothesis) ==> hypLedger == old(hypLedger) && hypStats == old(hypStats)
      ensures enabled && !HasAuthority(hypothesis) ==>
                && CapacityEviction(old(hypotheses), evicted, maxSize)
                && hypLedger == Stored(old(hypLedger), evicted, ExchangeHash(x, namespace),
                                       Row(hypothesis, now, ttl, model, prompts, fingerprint))
                && hypStats == old(hypStats).(evictions := old(hypStats).evictions + Counted(old(hypotheses), maxSize))
    {
      hide Accounted, Bounded, CapacityEviction, ExchangeHash, HasAuthority, Stored, Counted;
      evicted := {};
      if !enabled || HasAuthority(hypothesis) {
        return;
      }
      evicted := StoreHypothesis(ExchangeHash(x, namespace), Row(hypothesis, now, ttl, model, prompts, fingerprint));
    }

    /** Makes room, counts what the counter is told, and files the row. */
    method StoreHypothesis(k: Key, row: Row<Hypothesis>) returns (ghost evicted: set<Key>)
      requires Valid()
      modifies this`hypotheses, this`hypLedger, this`hypStats
      ensures Valid() && CapacityEviction(old(hypotheses), evicted, maxSize)
      ensures hypLedger == Stored(old(hypLedger), evicted, k, row)
      ensures hypStats == old(hypStats).(evictions := old(hypStats).evictions + Counted(old(hypotheses), maxSize))
    {
      hide Accounted, Bounded, CapacityEviction, HasAuthority, Stored, Counted;
      var after, chosen, history := StoreIn(hypotheses, hypLedger, k, row, maxSize);
      evicted := chosen;
      hypStats := hypStats.(evictions := hypStats.evictions + Counted(hypotheses, maxSize));
      hypotheses, hypLedger := after, history;
    }

    /** Both tables are emptied; the exchange counter takes the evictions of both. */
    method Clear()
      requires Valid()
      modifies this
      ensures Valid() && ledger == Emptied(old(ledger)) && hypLedger == Emptied(old(hypLedger))
      ensures stats == old(stats).(evictions := old(stats).evictions + old(|entries| + |hypotheses|))
      ensures unchanged(`enabled, `hypStats)
    {
      hide Accounted;
      EmptyingKeeps(ledger);
      EmptyingKeeps(hypLedger);
      var count := |entries|;
      entries, ledger := map[], Emptied(ledger);
      var hcount := |hypotheses|;
      hypotheses, hypLedger := map[], Emptied(hypLedger);
      count := count + hcount;
      stats := stats.(evictions := stats.evictions + count);
      persisted := stats;
    }

    /** The persisted counters are read back first, which changes nothing. */
    method ReadStats() returns (s: Stats)
      requires Valid()
      modifies this`stats
      ensures Valid() && s == stats == old(stats)
    {
      stats := persisted;
      s := stats;
    }

    /** With a positive capacity, stores that added a row are what both tables still hold plus
        what both eviction counters say was removed. */
    lemma InsertsAreConserved()
      requires Valid() && maxSize >= 1
      ensures ledger.inserted + hypLedger.inserted
           == |entries| + |hypotheses| + stats.evictions + hypStats.evictions
      ensures |entries| <= maxSize && |hypotheses| <= maxSize
    {}

    method SetEnabled(value: bool)
      requires Valid()
      modifies this`enabled
      ensures Valid() && enabled == value
    {
      enabled := value;
    }
  }
}
