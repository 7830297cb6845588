/** The browser request policy and the router that sends what it allows: every hop of a redirect
    chain is decided, accounted, and credentialed on its own. */
module BrowserPolicy {
  import opened Options
  import Text

  /** A parsed URL; `origin` is empty when it has none. */
  datatype Url = Url(text: string, scheme: string, host: string, origin: string)

  const ALLOWED_SCHEMES := {"http", "https"}
  const ALLOWED_RESOURCE_TYPES := {"document", "script", "xhr", "fetch", "image", "stylesheet", "font"}
  const REDIRECT_STATUSES := {301, 302, 303, 307, 308}
  const MAX_REDIRECT_HOPS: nat := 10
  const UNFORWARDED := {
    "host", "connection", "keep-alive", "proxy-connection", "upgrade", "te", "trailer",
    "transfer-encoding", "content-length", "accept-encoding", "cookie"}

  datatype Reason = Scheme | ResourceType | OutOfScope | NavigationMethod | CrossOriginWrite | GateDenied | NoBudget
  datatype Decision = Allow(credentials: bool) | Block(reason: Reason)

  datatype Request = Request(url: Url, verb: string, resourceType: string, isNavigation: bool)

  /** The run's policy: scope, an optional gate over mutating requests, and the run origin. */
  datatype Policy = Policy(
    runOrigin: string, inScope: Url -> bool, gate: Option<(string, Url) -> bool>)

  /** The decision before the budget is asked; the gate is only consulted for an accounted one. */
  function Evaluate(p: Policy, q: Request, accounted: bool): Decision {
    var verb := Text.Upper(q.verb);
    var sameOrigin := q.url.origin == p.runOrigin;
    if Text.Lower(q.url.scheme) !in ALLOWED_SCHEMES then Block(Scheme)
    else if Text.Lower(q.resourceType) !in ALLOWED_RESOURCE_TYPES then Block(ResourceType)
    else if !p.inScope(q.url) then Block(OutOfScope)
    else if q.isNavigation && verb != "GET" then Block(NavigationMethod)
    else if !q.isNavigation && verb != "GET" && !sameOrigin then Block(CrossOriginWrite)
    else if accounted && p.gate.Some? && verb != "GET" && !p.gate.value(verb, q.url) then Block(GateDenied)
    else Allow(sameOrigin)
  }

  /** Exactly what is allowed, and when credentials may go along. */
  lemma AllowedIff(p: Policy, q: Request, accounted: bool)
    ensures var d, reading := Evaluate(p, q, accounted), Text.Upper(q.verb) == "GET";
            && (d.Allow? <==>
                && Text.Lower(q.url.scheme) in {"http", "https"}
                && Text.Lower(q.resourceType) in {"document", "script", "xhr", "fetch", "image", "stylesheet", "font"}
                && p.inScope(q.url)
                && (reading || (!q.isNavigation && q.url.origin == p.runOrigin))
                && (reading || !accounted || p.gate.None? || p.gate.value(Text.Upper(q.verb), q.url)))
            && (d.Allow? ==> (d.credentials <==> q.url.origin == p.runOrigin))
            && (d == Block(OutOfScope) ==> !p.inScope(q.url))
            && (d == Block(NavigationMethod) ==> q.isNavigation && !reading)
            && (d == Block(CrossOriginWrite) ==> !q.isNavigation && !reading && q.url.origin != p.runOrigin)
            && (d == Block(GateDenied) ==>
                  accounted && !reading && p.gate.Some? && !p.gate.value(Text.Upper(q.verb), q.url))
  {}

  /** A method counts as its upper-case form. */
  lemma CaseDoesNotMatter(p: Policy, q: Request, accounted: bool)
    ensures Evaluate(p, q.(verb := Text.Upper(q.verb)), accounted) == Evaluate(p, q, accounted)
  {
    UpperTwice(q.verb);
  }

  function RedirectMethod(status: int, verb: string): string {
    if status == 303 || (status in {301, 302} && verb == "POST") then "GET" else verb
  }

  type Names = map<string, string>

  datatype SetCookie = SetCookie(name: string, value: string, deletes: bool)

  /** A response; `location` is the redirect target already resolved against the request. */
  datatype Response = Response(status: int, location: Option<Url>, cookies: seq<SetCookie>)

  /** One request on the wire. */
  datatype Sent = Sent(url: Url, verb: string, headers: Names, cookies: Names, body: Option<string>)

  predicate Redirects(r: Response) { r.status in REDIRECT_STATUSES && r.location.Some? }

  function Forwarded(headers: Names): Names {
    map k | k in headers && Text.Lower(k) !in UNFORWARDED && !(":" <= k) :: headers[k]
  }

  function Without(m: Names, name: string): Names { m - {name} }

  /** The identity after a response of the run origin re-issued or deleted some of its cookies. */
  function Reissued(identity: Names, cookies: seq<SetCookie>): Names {
    if cookies == [] then identity
    else
      var before, c := Reissued(identity, cookies[..|cookies| - 1]), cookies[|cookies| - 1];
      if c.name !in before then before else if c.deletes then Without(before, c.name) else before[c.name := c.value]
  }

  /** The cookies such a response still hands on: those that were not the identity's. */
  function HandedOn(identity: Names, cookies: seq<SetCookie>): seq<SetCookie> {
    if cookies == [] then []
    else
      var front, c := cookies[..|cookies| - 1], cookies[|cookies| - 1];
      HandedOn(identity, front) + if c.name in Reissued(identity, front) then [] else [c]
  }

  /** A hop jar after the cookies of one response. */
  function Filed(jar: Names, cookies: seq<SetCookie>): Names {
    if cookies == [] then jar
    else
      var before, c := Filed(jar, cookies[..|cookies| - 1]), cookies[|cookies| - 1];
      if c.deletes then Without(before, c.name) else before[c.name := c.value]
  }

  datatype Outcome =
    | Aborted
    | Fulfilled(status: int, cookies: seq<SetCookie>)
    | NavigationHop(next: Url, cookies: seq<SetCookie>)

  /** The network, the browser's cookie jar and the cancel flag, all arbitrary: each may answer
      differently at every moment, counted in requests sent so far. */
  datatype World = World(
    respond: (nat, Sent) -> Option<Response>, jar: (nat, Url) -> Names, cancelled: nat -> bool)

  function JarFor(hops: map<string, Names>, host: string): Names { if host in hops then hops[host] else map[] }

  // ------------------------------------------------------------------
  // One redirect chain
  // ------------------------------------------------------------------

  /** Some response of this host, among sends `from` to `to`, set the cookie. */
  ghost predicate SetByHost(world: World, wire: seq<Sent>, from: nat, to: nat, host: string, c: SetCookie) {
    exists n :: from <= n < to <= |wire| && wire[n].url.host == host
                && world.respond(n, wire[n]).Some? && c in world.respond(n, wire[n]).value.cookies
  }

  /** Some response of this origin did. */
  ghost predicate SetByOrigin(world: World, wire: seq<Sent>, from: nat, to: nat, origin: string, c: SetCookie) {
    exists n :: from <= n < to <= |wire| && wire[n].url.origin == origin
                && world.respond(n, wire[n]).Some? && c in world.respond(n, wire[n]).value.cookies
  }

  /** What one handled request starts from: the run's origin and identity as they are then, and the
      browser's headers and address. */
  datatype Ground = Ground(
    world: World, runOrigin: string, identity: Names, cookies: Names, headers: Names, first: Url)

  /** An identity cookie is one the run started from, or one its origin re-issued on the way. */
  ghost predicate IsIdentity(g: Ground, wire: seq<Sent>, from: nat, to: nat, k: string, v: string) {
    (k in g.cookies && g.cookies[k] == v) || SetByOrigin(g.world, wire, from, to, g.runOrigin, SetCookie(k, v, false))
  }

  /** The run's origin deleted the cookie on the way. */
  ghost predicate IsDeleted(g: Ground, wire: seq<Sent>, from: nat, to: nat, k: string) {
    exists v :: SetByOrigin(g.world, wire, from, to, g.runOrigin, SetCookie(k, v, true))
  }

  /** A cookie of the browser's jar, or one set earlier in the chain by the host it goes to. */
  ghost predicate IsForHost(g: Ground, wire: seq<Sent>, from: nat, n: nat, url: Url, k: string, v: string) {
    || (k in g.world.jar(n, url) && g.world.jar(n, url)[k] == v)
    || SetByHost(g.world, wire, from, n, url.host, SetCookie(k, v, false))
  }

  /** Send `n` carries the identity only to the run origin, and there all of it that was not deleted;
      to any host it carries the browser's cookies and no others than those set earlier in the chain
      by that very host. */
  ghost predicate CleanAt(g: Ground, wire: seq<Sent>, from: nat, n: nat)
    requires from <= n < |wire|
  {
    CookiesOk(g, wire, from, n) && HeadersOk(g, wire[n], wire[n].verb != wire[from].verb)
  }

  ghost predicate CookiesOk(g: Ground, wire: seq<Sent>, from: nat, n: nat)
    requires from <= n < |wire|
  {
    var s := wire[n];
    && (forall k :: k in s.cookies ==>
          || IsForHost(g, wire, from, n, s.url, k, s.cookies[k])
          || (s.url.origin == g.runOrigin && IsIdentity(g, wire, from, n, k, s.cookies[k])))
    && (forall k :: k in g.world.jar(n, s.url) ==> k in s.cookies)
    && (s.url.origin == g.runOrigin ==>
          forall k :: k in g.cookies && k !in s.cookies ==> IsDeleted(g, wire, from, n, k))
  }

  /** A header of the browser's request that describes neither connection, body length nor cookies. */
  ghost predicate Passes(name: string) {
    && (name == "" || name[0] != ':')
    && Text.Lower(name) !in {
         "host", "connection", "keep-alive", "proxy-connection", "upgrade", "te", "trailer",
         "transfer-encoding", "content-length", "accept-encoding", "cookie"}
  }

  /** Exactly which headers go along: the browser's that pass, without a content type once the method
      has changed, the router's own encoding, and on the run origin the identity's above all. */
  ghost predicate HeadersOk(g: Ground, s: Sent, changed: bool) {
    var exact := s.url.origin == g.runOrigin;
    && (forall k :: k in s.headers <==>
          || k == "accept-encoding" || (exact && k in g.identity)
          || (k in g.headers && Passes(k) && !(changed && Text.Lower(k) == "content-type")))
    && (forall k :: k in s.headers ==>
          s.headers[k] == if exact && k in g.identity then g.identity[k]
                          else if k == "accept-encoding" then "gzip, deflate" else g.headers[k])
  }

  /** What a redirect makes of method and body: a 303 turns every method into GET, a 301 or 302 only
      POST, and a 307 or 308 none; the body goes with the method. */
  ghost predicate Redirected(status: int, verb: string, body: Option<string>, verb': string, body': Option<string>) {
    && status in {301, 302, 303, 307, 308}
    && (status == 303 ==> verb' == "GET" && body' == if verb == "GET" then body else None)
    && (status in {301, 302} && verb == "POST" ==> verb' == "GET" && body' == None)
    && (status in {301, 302} && verb != "POST" ==> verb' == verb && body' == body)
    && (status in {307, 308} ==> verb' == verb && body' == body)
  }

  /** Send `n + 1` is the redirect that answered send `n`. */
  ghost predicate Follows(world: World, wire: seq<Sent>, n: nat)
    requires n + 1 < |wire|
  {
    var r := world.respond(n, wire[n]);
    && r.Some? && r.value.location == Some(wire[n + 1].url)
    && Redirected(r.value.status, wire[n].verb, wire[n].body, wire[n + 1].verb, wire[n + 1].body)
  }

  /** What the next send of a chain will use. */
  datatype Chain = Chain(
    url: Url, verb: string, headers: Names, body: Option<string>, hops: map<string, Names>, handed: seq<SetCookie>)

  function DropContentType(headers: Names): Names {
    map k | k in headers && Text.Lower(k) != "content-type" :: headers[k]
  }

  function NextHop(c: Chain, first: Url, r: Response, cookies: seq<SetCookie>): Chain
    requires Redirects(r)
  {
    var verb := RedirectMethod(r.status, c.verb);
    Chain(
      r.location.value, verb,
      if verb != c.verb then DropContentType(c.headers) else c.headers,
      if verb != c.verb then None else c.body,
      if cookies == [] then c.hops else c.hops[c.url.host := Filed(JarFor(c.hops, c.url.host), cookies)],
      c.handed + if c.url.host == first.host then cookies else [])
  }

  /** The sends from `from` on are one clean chain, and `c` is what comes next. */
  ghost predicate ChainOk(g: Ground, wire: seq<Sent>, from: nat, c: Chain) {
    && SentOk(g, wire, from)
    && ChainHeaders(g, c, if |wire| > from then wire[from].verb else c.verb)
    && (forall h, k :: h in c.hops && k in c.hops[h] ==>
          SetByHost(g.world, wire, from, |wire|, h, SetCookie(k, c.hops[h][k], false)))
    && (forall x :: x in c.handed ==> SetByHost(g.world, wire, from, |wire|, g.first.host, x))
    && (|wire| > from ==>
          var r := g.world.respond(|wire| - 1, wire[|wire| - 1]);
          && r.Some? && r.value.location == Some(c.url)
          && Redirected(r.value.status, wire[|wire| - 1].verb, wire[|wire| - 1].body, c.verb, c.body))
  }

  /** A chain that started with `verb` has all the browser's headers, but the content type once its
      method has changed, which it does to GET. */
  ghost predicate ChainHeaders(g: Ground, c: Chain, verb: string) {
    && (c.verb == verb || c.verb == "GET")
    && (forall k :: k in c.headers <==> k in g.headers && (c.verb == verb || Text.Lower(k) != "content-type"))
    && (forall k :: k in c.headers ==> c.headers[k] == g.headers[k])
  }

  /** The identity's cookies now. */
  ghost predicate IdentityOk(g: Ground, wire: seq<Sent>, from: nat, cookies: Names) {
    && (forall k :: k in cookies ==> IsIdentity(g, wire, from, |wire|, k, cookies[k]))
    && (forall k :: k in g.cookies && k !in cookies ==> IsDeleted(g, wire, from, |wire|, k))
  }

  /** The outcome is what the last answer makes of it: it reaches the browser unless it redirects,
      and a navigation is told where it redirects to. */
  ghost predicate Settled(world: World, wire: seq<Sent>, outcome: Outcome)
    requires wire != []
  {
    var r := world.respond(|wire| - 1, wire[|wire| - 1]);
    && (outcome.Fulfilled? <==>
          r.Some? && !(r.value.location.Some? && r.value.status in {301, 302, 303, 307, 308}))
    && (outcome.Fulfilled? ==> outcome.status == r.value.status)
    && (outcome.NavigationHop? ==>
          r.Some? && r.value.location == Some(outcome.next) && r.value.status in {301, 302, 303, 307, 308})
  }

  /** The request a redirect of send `s` asks for. */
  ghost predicate AsksFor(q: Request, s: Sent, r: Response, next: Request) {
    && r.location == Some(next.url) && next.resourceType == q.resourceType && next.isNavigation == q.isNavigation
    && exists body' :: Redirected(r.status, s.verb, s.body, next.verb, body')
  }

  /** The sends from `from` on are one clean chain. */
  ghost predicate SentOk(g: Ground, wire: seq<Sent>, from: nat) {
    && from <= |wire|
    && (forall n :: from <= n < |wire| ==> CleanAt(g, wire, from, n))
    && (forall n :: from <= n < |wire| - 1 ==> Follows(g.world, wire, n))
  }

  lemma SetByHostStays(world: World, wire: seq<Sent>, s: Sent, from: nat, to: nat, to': nat, host: string, c: SetCookie)
    requires SetByHost(world, wire, from, to, host, c) && to <= to' <= |wire| + 1
    ensures SetByHost(world, wire + [s], from, to', host, c)
  {
    var n :| from <= n < to <= |wire| && wire[n].url.host == host
             && world.respond(n, wire[n]).Some? && c in world.respond(n, wire[n]).value.cookies;
    assert (wire + [s])[n] == wire[n];
  }

  lemma SetByOriginStays(
      world: World, wire: seq<Sent>, s: Sent, from: nat, to: nat, to': nat, origin: string, c: SetCookie)
    requires SetByOrigin(world, wire, from, to, origin, c) && to <= to' <= |wire| + 1
    ensures SetByOrigin(world, wire + [s], from, to', origin, c)
  {
    var n :| from <= n < to <= |wire| && wire[n].url.origin == origin
             && world.respond(n, wire[n]).Some? && c in world.respond(n, wire[n]).value.cookies;
    assert (wire + [s])[n] == wire[n];
  }

  lemma IsDeletedStays(g: Ground, wire: seq<Sent>, s: Sent, from: nat, to: nat, to': nat, k: string)
    requires IsDeleted(g, wire, from, to, k) && to <= to' <= |wire| + 1
    ensures IsDeleted(g, wire + [s], from, to', k)
  {
    var v :| SetByOrigin(g.world, wire, from, to, g.runOrigin, SetCookie(k, v, true));
    SetByOriginStays(g.world, wire, s, from, to, to', g.runOrigin, SetCookie(k, v, true));
  }

  lemma IsIdentityStays(g: Ground, wire: seq<Sent>, s: Sent, from: nat, to: nat, to': nat, k: string, v: string)
    requires IsIdentity(g, wire, from, to, k, v) && to <= to' <= |wire| + 1
    ensures IsIdentity(g, wire + [s], from, to', k, v)
  {
    var c := SetCookie(k, v, false);
    if SetByOrigin(g.world, wire, from, to, g.runOrigin, c) {
      SetByOriginStays(g.world, wire, s, from, to, to', g.runOrigin, c);
    }
  }

  lemma CleanStays(g: Ground, wire: seq<Sent>, s: Sent, from: nat, n: nat)
    requires from <= n < |wire| && CleanAt(g, wire, from, n)
    ensures CleanAt(g, wire + [s], from, n)
  {
    hide SetByHost, IsIdentity, IsDeleted, HeadersOk;
    var sent := wire[n];
    assert (wire + [s])[n] == sent;
    forall k | k in sent.cookies
      ensures || IsForHost(g, wire + [s], from, n, sent.url, k, sent.cookies[k])
              || (sent.url.origin == g.runOrigin && IsIdentity(g, wire + [s], from, n, k, sent.cookies[k]))
    {
      var c := SetCookie(k, sent.cookies[k], false);
      if SetByHost(g.world, wire, from, n, sent.url.host, c) {
        SetByHostStays(g.world, wire, s, from, n, n, sent.url.host, c);
      }
      if IsIdentity(g, wire, from, n, k, sent.cookies[k]) {
        IsIdentityStays(g, wire, s, from, n, n, k, sent.cookies[k]);
      }
    }
    if sent.url.origin == g.runOrigin {
      forall k | k in g.cookies && k !in sent.cookies ensures IsDeleted(g, wire + [s], from, n, k) {
        IsDeletedStays(g, wire, s, from, n, n, k);
      }
    }
  }

  /** What the router sends next: the browser's headers, with the identity's on the run origin, and
      the cookies of jar and chain for that host, over the identity's on the run origin. */
  ghost predicate Prescribed(g: Ground, n: nat, c: Chain, cookies: Names, s: Sent) {
    var exact, out := s.url.origin == g.runOrigin, Forwarded(c.headers)["accept-encoding" := "gzip, deflate"];
    && s.url == c.url && s.verb == c.verb && s.body == c.body
    && s.headers == (if exact then out + g.identity else out)
    && s.cookies == (if exact then cookies else map[]) + (g.world.jar(n, s.url) + JarFor(c.hops, s.url.host))
  }

  /** Sending what the chain prescribes keeps it clean. */
  lemma SendKeepsClean(g: Ground, wire: seq<Sent>, from: nat, c: Chain, cookies: Names, s: Sent)
    requires ChainOk(g, wire, from, c) && IdentityOk(g, wire, from, cookies) && Prescribed(g, |wire|, c, cookies, s)
    ensures SentOk(g, wire + [s], from)
    ensures IdentityOk(g, wire + [s], from, cookies)
  {
    hide CleanAt, SetByHost, IsIdentity, IsDeleted, Prescribed;
    var wire' := wire + [s];
    forall n | from <= n < |wire'| ensures CleanAt(g, wire', from, n) {
      if n < |wire| {
        CleanStays(g, wire, s, from, n);
      } else {
        LastIsClean(g, wire, from, c, cookies, s);
      }
    }
    LastFollows(g, wire, from, c, cookies, s);
    forall k | k in cookies ensures IsIdentity(g, wire', from, |wire'|, k, cookies[k]) {
      IsIdentityStays(g, wire, s, from, |wire|, |wire'|, k, cookies[k]);
    }
    forall k | k in g.cookies && k !in cookies ensures IsDeleted(g, wire', from, |wire'|, k) {
      IsDeletedStays(g, wire, s, from, |wire|, |wire'|, k);
    }
  }

  lemma LastFollows(g: Ground, wire: seq<Sent>, from: nat, c: Chain, cookies: Names, s: Sent)
    requires ChainOk(g, wire, from, c) && Prescribed(g, |wire|, c, cookies, s)
    ensures forall n :: from <= n < |wire + [s]| - 1 ==> Follows(g.world, wire + [s], n)
  {
    hide CleanAt;
    var wire' := wire + [s];
    forall n | from <= n < |wire'| - 1 ensures Follows(g.world, wire', n) {
      assert wire'[n] == wire[n];
      if n + 1 < |wire| { assert wire'[n + 1] == wire[n + 1] && Follows(g.world, wire, n); }
    }
  }

  lemma LastHeaders(g: Ground, n: nat, c: Chain, cookies: Names, s: Sent, first: string)
    requires ChainHeaders(g, c, first) && Prescribed(g, n, c, cookies, s)
    ensures HeadersOk(g, s, s.verb != first)
  {
    hide Text.Lower;
    assert forall k :: k in c.headers ==> (Passes(k) <==> k in Forwarded(c.headers));
  }

  lemma LastIsClean(g: Ground, wire: seq<Sent>, from: nat, c: Chain, cookies: Names, s: Sent)
    requires ChainOk(g, wire, from, c) && IdentityOk(g, wire, from, cookies) && Prescribed(g, |wire|, c, cookies, s)
    ensures CleanAt(g, wire + [s], from, |wire|)
  {
    hide ChainHeaders, HeadersOk, CookiesOk;
    var wire', first := wire + [s], if |wire| > from then wire[from].verb else c.verb;
    LastCookies(g, wire, from, c, cookies, s);
    LastHeaders(g, |wire|, c, cookies, s, first);
    assert wire'[|wire|] == s && wire'[from].verb == first;
  }

  lemma LastCookies(g: Ground, wire: seq<Sent>, from: nat, c: Chain, cookies: Names, s: Sent)
    requires ChainOk(g, wire, from, c) && IdentityOk(g, wire, from, cookies) && Prescribed(g, |wire|, c, cookies, s)
    ensures CookiesOk(g, wire + [s], from, |wire|)
  {
    hide SetByHost, IsIdentity, IsDeleted, SentOk, ChainHeaders, HeadersOk, Forwarded;
    var n, hops := |wire|, JarFor(c.hops, s.url.host);
    assert (wire + [s])[n] == s;
    forall k | k in s.cookies
      ensures || IsForHost(g, wire + [s], from, n, s.url, k, s.cookies[k])
              || (s.url.origin == g.runOrigin && IsIdentity(g, wire + [s], from, n, k, s.cookies[k]))
    {
      if k in hops {
        SetByHostStays(g.world, wire, s, from, n, n, s.url.host, SetCookie(k, hops[k], false));
      } else if k !in g.world.jar(n, s.url) {
        IsIdentityStays(g, wire, s, from, n, n, k, cookies[k]);
      }
    }
    if s.url.origin == g.runOrigin {
      forall k | k in g.cookies && k !in s.cookies ensures IsDeleted(g, wire + [s], from, n, k) {
        IsDeletedStays(g, wire, s, from, n, n, k);
      }
    }
  }

  lemma {:induction false} ReissuedFrom(identity: Names, cookies: seq<SetCookie>, k: string)
    requires k in Reissued(identity, cookies)
    ensures || (k in identity && Reissued(identity, cookies)[k] == identity[k])
            || SetCookie(k, Reissued(identity, cookies)[k], false) in cookies
  {
    if cookies != [] {
      var front, c := cookies[..|cookies| - 1], cookies[|cookies| - 1];
      if k in Reissued(identity, front) {
        ReissuedFrom(identity, front, k);
        assert forall x :: x in front ==> x in cookies;
      }
    }
  }

  lemma {:induction false} ReissuedOrDeleted(identity: Names, cookies: seq<SetCookie>, k: string)
    requires k in identity
    ensures k in Reissued(identity, cookies) || exists v :: SetCookie(k, v, true) in cookies
  {
    if cookies != [] {
      var front, c := cookies[..|cookies| - 1], cookies[|cookies| - 1];
      ReissuedOrDeleted(identity, front, k);
      if k !in Reissued(identity, front) {
        var v :| SetCookie(k, v, true) in front;
        assert SetCookie(k, v, true) in cookies;
      } else if c.name == k && c.deletes {
        assert c == SetCookie(k, c.value, true);
      }
    }
  }

  /** The identity stays the run's own when its origin re-issues cookies. */
  lemma {:induction false} ReissuedIsIdentity(g: Ground, wire: seq<Sent>, from: nat, cookies: Names, r: Response)
    requires IdentityOk(g, wire, from, cookies) && from < |wire|
    requires wire[|wire| - 1].url.origin == g.runOrigin && g.world.respond(|wire| - 1, wire[|wire| - 1]) == Some(r)
    ensures IdentityOk(g, wire, from, Reissued(cookies, r.cookies))
  {
    hide Reissued;
    var now := Reissued(cookies, r.cookies);
    forall k | k in now ensures IsIdentity(g, wire, from, |wire|, k, now[k]) {
      ReissuedFrom(cookies, r.cookies, k);
    }
    forall k | k in g.cookies && k !in now ensures IsDeleted(g, wire, from, |wire|, k) {
      if k in cookies {
        ReissuedOrDeleted(cookies, r.cookies, k);
        var v :| SetCookie(k, v, true) in r.cookies;
        assert SetByOrigin(g.world, wire, from, |wire|, g.runOrigin, SetCookie(k, v, true));
      }
    }
  }

  lemma {:induction false} FiledFrom(jar: Names, cookies: seq<SetCookie>, k: string)
    requires k in Filed(jar, cookies)
    ensures (k in jar && Filed(jar, cookies)[k] == jar[k]) || SetCookie(k, Filed(jar, cookies)[k], false) in cookies
  {
    if cookies != [] {
      var front, c := cookies[..|cookies| - 1], cookies[|cookies| - 1];
      if c.deletes || c.name != k {
        FiledFrom(jar, front, k);
        assert forall x :: x in front ==> x in cookies;
      }
    }
  }

  lemma {:induction false} HandedOnFrom(identity: Names, cookies: seq<SetCookie>)
    ensures forall c :: c in HandedOn(identity, cookies) ==> c in cookies
  {
    if cookies != [] { HandedOnFrom(identity, cookies[..|cookies| - 1]); }
  }

  /** The last cookie of that name, if there is one, at `i`. */
  ghost predicate LastNamed(cookies: seq<SetCookie>, k: string, i: nat) {
    i < |cookies| && cookies[i].name == k && forall j :: i < j < |cookies| ==> cookies[j].name != k
  }

  /** In a jar the last cookie of a name decides: it is there with that value, or deleted. */
  lemma {:induction false} FiledMeans(jar: Names, cookies: seq<SetCookie>, k: string, i: nat)
    requires LastNamed(cookies, k, i)
    ensures k in Filed(jar, cookies) <==> !cookies[i].deletes
    ensures !cookies[i].deletes ==> Filed(jar, cookies)[k] == cookies[i].value
  {
    var front := cookies[..|cookies| - 1];
    if i < |front| {
      assert cookies[|front|].name != k && LastNamed(front, k, i);
      FiledMeans(jar, front, k, i);
    }
  }

  /** Other names stay as they are. */
  lemma {:induction false} FiledKeeps(jar: Names, cookies: seq<SetCookie>, k: string)
    requires forall c :: c in cookies ==> c.name != k
    ensures (k in Filed(jar, cookies) <==> k in jar) && (k in jar ==> Filed(jar, cookies)[k] == jar[k])
  {
    if cookies != [] { FiledKeeps(jar, cookies[..|cookies| - 1], k); }
  }

  /** The identity keeps its names but those deleted, with the values re-issued last. */
  lemma {:induction false} ReissuedMeans(identity: Names, cookies: seq<SetCookie>, k: string)
    ensures k in Reissued(identity, cookies) <==>
              k in identity && forall c :: c in cookies && c.name == k ==> !c.deletes
    ensures k in Reissued(identity, cookies) ==>
              && ((forall c :: c in cookies ==> c.name != k) ==> Reissued(identity, cookies)[k] == identity[k])
              && (forall i: nat :: LastNamed(cookies, k, i) ==> Reissued(identity, cookies)[k] == cookies[i].value)
  {
    if cookies != [] {
      var front, c := cookies[..|cookies| - 1], cookies[|cookies| - 1];
      ReissuedMeans(identity, front, k);
      assert forall x :: x in cookies <==> x in front || x == c;
      forall i: nat | k in Reissued(identity, cookies) && LastNamed(cookies, k, i)
        ensures Reissued(identity, cookies)[k] == cookies[i].value
      {
        if i < |front| { assert c.name != k && LastNamed(front, k, i); }
      }
    }
  }

  /** Handed on are, in order, the cookies that are no longer, or never were, the identity's. */
  lemma {:induction false} HandedOnMeans(identity: Names, cookies: seq<SetCookie>, c: SetCookie)
    ensures HandedOn(identity, cookies + [c])
         == HandedOn(identity, cookies)
            + if c.name in identity && (forall x :: x in cookies && x.name == c.name ==> !x.deletes) then [] else [c]
  {
    ReissuedMeans(identity, cookies, c.name);
    assert (cookies + [c])[..|cookies|] == cookies;
  }

  lemma NothingSent(g: Ground, wire: seq<Sent>)
    ensures SentOk(g, wire, |wire|)
  {}

  lemma ChainStarts(g: Ground, wire: seq<Sent>, c: Chain)
    requires c.headers == g.headers && c.hops == map[] && c.handed == []
    ensures ChainOk(g, wire, |wire|, c) && IdentityOk(g, wire, |wire|, g.cookies)
  {}

  /** Everything handed to the browser was set by the host it asked. */
  lemma HandedFrom(
      g: Ground, wire: seq<Sent>, from: nat, c: Chain, s: Sent, cookies: seq<SetCookie>, all: seq<SetCookie>)
    requires ChainOk(g, wire, from, c) && s.url == c.url
    requires g.world.respond(|wire|, s).Some?
    requires forall x :: x in cookies ==> x in g.world.respond(|wire|, s).value.cookies
    requires all == c.handed + if c.url.host == g.first.host then cookies else []
    ensures forall x :: x in all ==> SetByHost(g.world, wire + [s], from, |wire| + 1, g.first.host, x)
  {
    hide CleanAt, Follows;
    var wire' := wire + [s];
    forall x | x in c.handed ensures SetByHost(g.world, wire', from, |wire'|, g.first.host, x) {
      SetByHostStays(g.world, wire, s, from, |wire|, |wire'|, g.first.host, x);
    }
    if c.url.host == g.first.host {
      forall x | x in cookies ensures SetByHost(g.world, wire', from, |wire'|, g.first.host, x) {
        assert wire'[|wire|] == s && from <= |wire|;
      }
    }
  }

  lemma HopKeepsHeaders(g: Ground, c: Chain, verb: string, r: Response, cookies: seq<SetCookie>)
    requires ChainHeaders(g, c, verb) && Redirects(r)
    ensures ChainHeaders(g, NextHop(c, g.first, r, cookies), verb)
  {
    hide Text.Lower, Filed;
  }

  /** Following a redirect files its cookies under the host that set them. */
  lemma HopKeepsChain(g: Ground, wire: seq<Sent>, from: nat, c: Chain, s: Sent, cookies: seq<SetCookie>)
    requires ChainOk(g, wire, from, c) && SentOk(g, wire + [s], from)
    requires s.url == c.url && s.verb == c.verb && s.body == c.body
    requires g.world.respond(|wire|, s).Some? && Redirects(g.world.respond(|wire|, s).value)
    requires forall x :: x in cookies ==> x in g.world.respond(|wire|, s).value.cookies
    ensures ChainOk(g, wire + [s], from, NextHop(c, g.first, g.world.respond(|wire|, s).value, cookies))
  {
    hide CleanAt, Follows, ChainHeaders;
    HopKeepsHeaders(g, c, if |wire| > from then wire[from].verb else c.verb, g.world.respond(|wire|, s).value, cookies);
    var wire', c' := wire + [s], NextHop(c, g.first, g.world.respond(|wire|, s).value, cookies);
    assert wire'[|wire|] == s;
    forall x | x in cookies ensures SetByHost(g.world, wire', from, |wire'|, c.url.host, x) {
      assert wire'[|wire|].url.host == c.url.host;
    }
    forall h, k | h in c'.hops && k in c'.hops[h]
      ensures SetByHost(g.world, wire', from, |wire'|, h, SetCookie(k, c'.hops[h][k], false))
    {
      var prior, x := JarFor(c.hops, h), SetCookie(k, c'.hops[h][k], false);
      if h == c.url.host && cookies != [] { FiledFrom(prior, cookies, k); }
      if k in prior && prior[k] == c'.hops[h][k] {
        SetByHostStays(g.world, wire, s, from, |wire|, |wire'|, h, x);
      }
    }
    forall x | x in c'.handed ensures SetByHost(g.world, wire', from, |wire'|, g.first.host, x) {
      if x in c.handed { SetByHostStays(g.world, wire, s, from, |wire|, |wire'|, g.first.host, x); }
    }
  }

  /** The decision under which a request of one handled chain was sent. */
  function AsDecided(s: Sent, q: Request): Request { Request(s.url, s.verb, q.resourceType, q.isNavigation) }

  ghost predicate AllAllowed(policy: Policy, accounted: seq<Request>) {
    forall i :: 0 <= i < |accounted| ==> Evaluate(policy, accounted[i], true).Allow?
  }

  /** Every send from `sends` on is a GET the policy allows, with an accounted decision of its own. */
  ghost predicate AllGets(
      policy: Policy, resourceType: string, wire: seq<Sent>, accounted: seq<Request>, sends: nat, decisions: nat) {
    forall n :: sends <= n < |wire| ==>
      var d := Request(wire[n].url, "GET", resourceType, true);
      && wire[n].verb == "GET" && policy.inScope(wire[n].url) && Evaluate(policy, d, true).Allow?
      && d in accounted[if decisions <= |accounted| then decisions else |accounted|..]
  }

  lemma OneMoreGet(
      policy: Policy, resourceType: string, wire: seq<Sent>, a: seq<Request>, s: Sent, sends: nat, decisions: nat)
    requires AllGets(policy, resourceType, wire, a, sends, decisions) && decisions <= |a|
    requires s.verb == "GET" && Evaluate(policy, Request(s.url, "GET", resourceType, true), true).Allow?
    ensures AllGets(policy, resourceType, wire + [s], a + [Request(s.url, "GET", resourceType, true)], sends, decisions)
  {
    var d := Request(s.url, "GET", resourceType, true);
    AllowedIff(policy, d, true);
    assert (a + [d])[decisions..] == a[decisions..] + [d];
  }

  class IdentityRouter {
    const policy: Policy
    const world: World
    const identityHeaders: Names
    const ceiling: Option<nat>      // of the run's request budget
    const held: nat                 // withheld for a later stage
    var identityCookies: Names
    var used: nat                   // reserved so far

    var wire: seq<Sent>                         // every request sent
    ghost var accounted: seq<Request>           // every request a unit was reserved for

    ghost predicate Valid()
      reads this
    {
      AllAllowed(policy, accounted) && (ceiling.Some? ==> used <= ceiling.value)
    }

    constructor (policy: Policy, world: World, identityHeaders: Names, identityCookies: Names,
                 ceiling: Option<nat>, held: nat)
      ensures Valid() && wire == [] && accounted == [] && used == 0
      ensures this.policy == policy && this.world == world && this.identityHeaders == identityHeaders
      ensures this.identityCookies == identityCookies && this.ceiling == ceiling && this.held == held
    {
      this.policy, this.world, this.identityHeaders := policy, world, identityHeaders;
      this.identityCookies, this.ceiling, this.held := identityCookies, ceiling, held;
      used, wire, accounted := 0, [], [];
    }

    /** A blocked request reserves nothing; an allowed one reserves exactly one unit. */
    method Decide(q: Request) returns (d: Decision)
      requires Valid()
      modifies this`used, this`accounted
      ensures Valid()
      ensures Evaluate(policy, q, true).Block? ==> d == Evaluate(policy, q, true)
      ensures Evaluate(policy, q, true).Allow? ==>
                d == if ceiling.Some? && old(used) + 1 > ceiling.value - held then Block(NoBudget)
                     else Evaluate(policy, q, true)
      ensures if d.Allow? then used == old(used) + 1 && accounted == old(accounted) + [q.(verb := Text.Upper(q.verb))]
              else used == old(used) && accounted == old(accounted)
    {
      d := Evaluate(policy, q, true);
      if d.Block? {
        return;
      }
      if ceiling.Some? && used + 1 > ceiling.value - held {
        return Block(NoBudget);
      }
      CaseDoesNotMatter(policy, q, true);
      used, accounted := used + 1, accounted + [q.(verb := Text.Upper(q.verb))];
    }

    /** One request on the wire: credentials of the identity go to the exact run origin and nowhere
        else; a hop cookie goes to the host that set it. */
    method Send(c: Chain, ghost g: Ground) returns (r: Option<Response>)
      requires g.world == world && g.runOrigin == policy.runOrigin && g.identity == identityHeaders
      modifies this`wire
      ensures |wire| == |old(wire)| + 1 && wire == old(wire) + [wire[|old(wire)|]]
      ensures Prescribed(g, |old(wire)|, c, identityCookies, wire[|old(wire)|])
      ensures r == world.respond(|old(wire)|, wire[|old(wire)|])
    {
      var exact := c.url.origin == policy.runOrigin;
      var out := Forwarded(c.headers)["accept-encoding" := "gzip, deflate"];
      var cookies := if exact then identityCookies else map[];
      cookies := cookies + world.jar(|wire|, c.url);
      cookies := cookies + JarFor(c.hops, c.url.host);
      if exact {
        out := out + identityHeaders;
      }
      var s := Sent(c.url, c.verb, out, cookies, c.body);
      r := world.respond(|wire|, s);
      wire := wire + [s];
    }

    /** The headers the answer leaves for the browser: the identity's own cookies, re-issued by
        the run origin, update the identity instead. */
    method ResponseCookies(r: Response, url: Url) returns (cookies: seq<SetCookie>)
      modifies this`identityCookies
      ensures if url.origin == policy.runOrigin then
                && cookies == HandedOn(old(identityCookies), r.cookies)
                && identityCookies == Reissued(old(identityCookies), r.cookies)
              else cookies == r.cookies && identityCookies == old(identityCookies)
      ensures forall c :: c in cookies ==> c in r.cookies
    {
      HandedOnFrom(identityCookies, r.cookies);
      if url.origin != policy.runOrigin {
        return r.cookies;
      }
      cookies := [];
      for i := 0 to |r.cookies|
        invariant identityCookies == Reissued(old(identityCookies), r.cookies[..i])
        invariant cookies == HandedOn(old(identityCookies), r.cookies[..i])
      {
        var c := r.cookies[i];
        assert r.cookies[..i + 1][..i] == r.cookies[..i] && r.cookies[..i + 1][i] == c;
        if c.name in identityCookies {
          identityCookies := if c.deletes then Without(identityCookies, c.name) else identityCookies[c.name := c.value];
        } else {
          cookies := cookies + [c];
        }
      }
      assert r.cookies[..|r.cookies|] == r.cookies;
    }

    /** The accounted decisions and the sends from the given points on match one to one, save
        for a last decision whose request was not sent. */
    ghost predicate Matched(sends: nat, decisions: nat, q: Request)
      reads this
    {
      && sends <= |wire| && decisions <= |accounted|
      && |wire| - sends <= |accounted| - decisions <= |wire| - sends + 1
      && |wire| - sends <= 11
      && (forall n :: sends <= n < |wire| ==> accounted[decisions + n - sends] == AsDecided(wire[n], q))
    }

    /** Why a chain is given up: no answer came, eleven requests were sent, or the redirect that came is
        not allowed, or, where it would be followed here, cancelled or beyond the budget. */
    ghost predicate GivenUp(q: Request, sends: nat)
      requires wire != []
      reads this
    {
      var r := world.respond(|wire| - 1, wire[|wire| - 1]);
      || r.None? || |wire| - sends == 11
      || (exists next :: AsksFor(q, wire[|wire| - 1], r.value, next) && NotFollowed(next))
    }

    ghost predicate NotFollowed(next: Request)
      reads this
    {
      || Evaluate(policy, next, !next.isNavigation).Block?
      || (!next.isNavigation && (world.cancelled(|wire|) || (ceiling.Some? && used + 1 > ceiling.value - held)))
    }

    /** What a request handled now starts from. */
    function GroundOf(headers: Names, first: Url): Ground
      reads this
    {
      Ground(world, policy.runOrigin, identityHeaders, identityCookies, headers, first)
    }

    /** One intercepted request. Whatever it puts on the wire, at whichever hop, was allowed by one
        accounted decision of its own. */
    method Handle(q: Request, headers: Names, body: Option<string>) returns (outcome: Outcome)
      requires Valid()
      modifies this
      ensures Valid() && old(wire) <= wire && old(accounted) <= accounted
      ensures Matched(|old(wire)|, |old(accounted)|, q)
      ensures forall n :: |old(wire)| <= n < |wire| ==> Evaluate(policy, AsDecided(wire[n], q), true).Allow?
      ensures used - old(used) == |accounted| - |old(accounted)|
      ensures Evaluate(policy, q, true).Block? ==>
                outcome == Aborted && wire == old(wire) && accounted == old(accounted)
      ensures SentOk(old(GroundOf(headers, q.url)), wire, |old(wire)|)
      ensures IdentityOk(old(GroundOf(headers, q.url)), wire, |old(wire)|, identityCookies)
      ensures |wire| > |old(wire)| ==>
                wire[|old(wire)|].url == q.url && wire[|old(wire)|].verb == Text.Upper(q.verb)
                && wire[|old(wire)|].body == body
      ensures q.isNavigation ==> |wire| <= |old(wire)| + 1 && |accounted| <= |old(accounted)| + 1
      ensures outcome.Fulfilled? ==>
                forall c :: c in outcome.cookies ==> SetByHost(world, wire, |old(wire)|, |wire|, q.url.host, c)
      ensures outcome.NavigationHop? ==>
                q.isNavigation && Evaluate(policy, Request(outcome.next, "GET", q.resourceType, true), false).Allow?
      ensures |wire| > |old(wire)| ==> Settled(world, wire, outcome)
      ensures |wire| > |old(wire)| && outcome.Aborted? ==> GivenUp(q, |old(wire)|)
      ensures (!world.cancelled(|old(wire)|) && Evaluate(policy, q, true).Allow?
               && (ceiling.None? || old(used) + 1 <= ceiling.value - held)) ==> |wire| > |old(wire)|
    {
      hide SentOk, Evaluate, SetByHost, Settled, Text.Upper, IsIdentity;
      ChainStarts(GroundOf(headers, q.url), wire, Chain(q.url, "", headers, body, map[], []));
      assert SentOk(GroundOf(headers, q.url), wire, |wire|) by { NothingSent(GroundOf(headers, q.url), wire); }
      if world.cancelled(|wire|) {
        return Aborted;
      }
      var d := Decide(q);
      if d.Block? {
        return Aborted;
      }
      outcome := SendAndFulfill(q, headers, body);
      assert forall n :: |old(wire)| <= n < |wire| ==>
          AsDecided(wire[n], q) == accounted[|old(accounted)| + n - |old(wire)|];
    }

    method SendAndFulfill(q: Request, headers: Names, body: Option<string>) returns (outcome: Outcome)
      requires Valid() && accounted != [] && accounted[|accounted| - 1] == q.(verb := Text.Upper(q.verb))
      modifies this
      ensures Valid() && old(wire) <= wire && old(accounted) <= accounted
      ensures Matched(|old(wire)|, |old(accounted)| - 1, q)
      ensures used - old(used) == |accounted| - |old(accounted)|
      ensures SentOk(old(GroundOf(headers, q.url)), wire, |old(wire)|)
      ensures IdentityOk(old(GroundOf(headers, q.url)), wire, |old(wire)|, identityCookies)
      ensures |wire| > |old(wire)| && wire[|old(wire)|].url == q.url && wire[|old(wire)|].verb == Text.Upper(q.verb)
              && wire[|old(wire)|].body == body
      ensures q.isNavigation ==> |wire| == |old(wire)| + 1 && accounted == old(accounted)
      ensures outcome.Fulfilled? ==>
                forall c :: c in outcome.cookies ==> SetByHost(world, wire, |old(wire)|, |wire|, q.url.host, c)
      ensures outcome.NavigationHop? ==>
                q.isNavigation && Evaluate(policy, Request(outcome.next, "GET", q.resourceType, true), false).Allow?
      ensures Settled(world, wire, outcome) && (outcome.Aborted? ==> GivenUp(q, |old(wire)|))
    {
      hide ChainOk, SentOk, SetByHost, Text.Upper, Settled, Evaluate, IdentityOk;
      ghost var w0, a0, g := |wire|, |accounted| - 1, GroundOf(headers, q.url);
      UpperTwice(q.verb);
      var c := Chain(q.url, Text.Upper(q.verb), headers, body, map[], []);
      ChainStarts(g, wire, c);
      var done: Option<Outcome> := None;
      var i := 0;
      while i <= MAX_REDIRECT_HOPS && done.None?
        invariant Valid() && old(wire) <= wire && old(accounted) <= accounted
        invariant used - old(used) == |accounted| - |old(accounted)|
        invariant i <= MAX_REDIRECT_HOPS + 1
        invariant done.None? ==> Running(q, body, g, w0, a0, c, i)
        invariant done.Some? ==> Ended(q, body, g, w0, a0, done.value)
      {
        done, c := Hop(q, body, g, w0, a0, c, i);
        i := i + 1;
      }
      if done.Some? {
        return done.value;
      }
      RunningEnds(q, body, g, w0, a0, c, i);
      return Aborted;
    }

    /** The ground is this router's, and its identity is still the run's own. */
    ghost predicate OnGround(g: Ground, q: Request, w0: nat)
      reads this
    {
      && g.world == world && g.runOrigin == policy.runOrigin && g.identity == identityHeaders && g.first == q.url
      && IdentityOk(g, wire, w0, identityCookies)
    }

    /** `i` requests of the chain were sent and redirected, the next one is decided. */
    ghost predicate Running(q: Request, body: Option<string>, g: Ground, w0: nat, a0: nat, c: Chain, i: nat)
      reads this
    {
      && |wire| == w0 + i && |accounted| == a0 + 1 + i
      && OnGround(g, q, w0) && ChainOk(g, wire, w0, c)
      && accounted[a0 + i] == Request(c.url, c.verb, q.resourceType, q.isNavigation) && Text.Upper(c.verb) == c.verb
      && (forall n :: w0 <= n < |wire| ==> accounted[a0 + n - w0] == AsDecided(wire[n], q))
      && (i == 0 ==> c.url == q.url && c.verb == Text.Upper(q.verb) && c.body == body)
      && (i > 0 ==> !q.isNavigation && FirstIs(q, body, w0))
    }

    ghost predicate FirstIs(q: Request, body: Option<string>, w0: nat)
      reads this
    {
      |wire| > w0 && wire[w0].url == q.url && wire[w0].verb == Text.Upper(q.verb) && wire[w0].body == body
    }

    /** The chain has been answered or given up. */
    ghost predicate Ended(q: Request, body: Option<string>, g: Ground, w0: nat, a0: nat, outcome: Outcome)
      reads this
    {
      && OnGround(g, q, w0) && Matched(w0, a0, q) && FirstIs(q, body, w0) && Settled(world, wire, outcome)
      && (outcome.Aborted? ==> GivenUp(q, w0))
      && SentOk(g, wire, w0)
      && (q.isNavigation ==> |wire| == w0 + 1 && |accounted| == a0 + 1)
      && (outcome.Fulfilled? ==>
            forall c :: c in outcome.cookies ==> SetByHost(world, wire, w0, |wire|, q.url.host, c))
      && (outcome.NavigationHop? ==>
            q.isNavigation && Evaluate(policy, Request(outcome.next, "GET", q.resourceType, true), false).Allow?)
    }

    lemma RunningEnds(q: Request, body: Option<string>, g: Ground, w0: nat, a0: nat, c: Chain, i: nat)
      requires Running(q, body, g, w0, a0, c, i) && i == MAX_REDIRECT_HOPS + 1
      ensures Ended(q, body, g, w0, a0, Aborted)
    {}

    /** One send of the chain: it ends it, or leaves the next hop decided. */
    method Hop(q: Request, body: Option<string>, ghost g: Ground, ghost w0: nat, ghost a0: nat, c: Chain, ghost i: nat)
      returns (done: Option<Outcome>, c': Chain)
      requires Valid() && Running(q, body, g, w0, a0, c, i) && i <= MAX_REDIRECT_HOPS
      modifies this
      ensures Valid() && old(wire) <= wire && old(accounted) <= accounted
      ensures used - old(used) == |accounted| - |old(accounted)|
      ensures done.None? ==> Running(q, body, g, w0, a0, c', i + 1)
      ensures done.Some? ==> Ended(q, body, g, w0, a0, done.value)
    {
      hide ChainOk, SentOk, Text.Upper, IdentityOk;
      done, c' := None, c;
      ghost var before := wire;
      var r := Send(c, g);
      SendKeepsClean(g, before, w0, c, identityCookies, wire[|before|]);
      if r.None? {
        return Some(Aborted), c;
      }
      done, c' := Answer(q, body, g, w0, a0, c, i, r.value, before);
    }

    /** What an answer leaves of its cookies, given the identity before it. */
    function LeftOf(r: Response, url: Url, identity: Names): seq<SetCookie> {
      if url.origin == policy.runOrigin then HandedOn(identity, r.cookies) else r.cookies
    }

    /** The chain's latest send was answered. */
    ghost predicate Answered(q: Request, body: Option<string>, g: Ground, w0: nat, a0: nat, c: Chain, i: nat,
                             r: Response, before: seq<Sent>)
      reads this
    {
      && i <= MAX_REDIRECT_HOPS && |wire| == |before| + 1 && wire == before + [wire[|before|]]
      && OnGround(g, q, w0) && ChainOk(g, before, w0, c) && SentOk(g, wire, w0)
      && |wire| == w0 + i + 1 && |accounted| == a0 + 1 + i && Text.Upper(c.verb) == c.verb
      && Matched(w0, a0, q) && FirstIs(q, body, w0) && (q.isNavigation ==> i == 0)
      && var s := wire[|before|];
         s.url == c.url && s.verb == c.verb && s.body == c.body && world.respond(|before|, s) == Some(r)
    }

    /** The answer to the chain's latest send goes to the browser, with the cookies its own host set
        on the way, unless it redirects. */
    method Answer(q: Request, body: Option<string>, ghost g: Ground, ghost w0: nat, ghost a0: nat, c: Chain,
                  ghost i: nat, r: Response, ghost before: seq<Sent>)
      returns (done: Option<Outcome>, c': Chain)
      requires Valid() && Answered(q, body, g, w0, a0, c, i, r, before)
      modifies this
      ensures Valid() && wire == old(wire) && old(accounted) <= accounted
      ensures used - old(used) == |accounted| - |old(accounted)|
      ensures done.None? ==> Running(q, body, g, w0, a0, c', i + 1)
      ensures done.Some? ==> Ended(q, body, g, w0, a0, done.value)
      ensures var left := LeftOf(r, c.url, old(identityCookies));
              && (!Redirects(r) ==>
                  done == Some(Fulfilled(r.status, c.handed + if c.url.host == q.url.host then left else [])))
              && (Redirects(r) && done.None? ==> c' == NextHop(c, q.url, r, left))
    {
      hide ChainOk, SentOk, NextHop, SetByHost, Text.Upper, Text.Lower, Evaluate, RedirectMethod, IdentityOk;
      c' := c;
      if c.url.origin == policy.runOrigin { ReissuedIsIdentity(g, wire, w0, identityCookies, r); }
      var cookies := ResponseCookies(r, c.url);
      if Redirects(r) {
        done, c' := Follow(q, body, g, w0, a0, c, i, r, before, cookies);
        return;
      }
      var all := c.handed + if c.url.host == q.url.host then cookies else [];
      HandedFrom(g, before, w0, c, wire[|before|], cookies, all);
      done := Some(Fulfilled(r.status, all));
    }

    /** A redirect: a navigation is handed its next address if a look-ahead allows it; anything else
        goes on exactly when the next hop is allowed, accounted and not cancelled. */
    method Follow(q: Request, body: Option<string>, ghost g: Ground, ghost w0: nat, ghost a0: nat, c: Chain,
                  ghost i: nat, r: Response, ghost before: seq<Sent>, cookies: seq<SetCookie>)
      returns (done: Option<Outcome>, c': Chain)
      requires Valid() && Answered(q, body, g, w0, a0, c, i, r, before)
      requires Redirects(r) && forall x :: x in cookies ==> x in r.cookies
      modifies this`used, this`accounted
      ensures Valid() && old(accounted) <= accounted
      ensures used - old(used) == |accounted| - |old(accounted)|
      ensures done.None? ==> Running(q, body, g, w0, a0, c', i + 1) && c' == NextHop(c, q.url, r, cookies)
      ensures done.Some? ==> Ended(q, body, g, w0, a0, done.value)
      ensures var next := Request(Target(r), RedirectMethod(r.status, c.verb), q.resourceType, q.isNavigation);
              if q.isNavigation then
                done == Some(if Evaluate(policy, next, false).Allow? then NavigationHop(next.url, cookies) else Aborted)
              else
                done == if Evaluate(policy, next, true).Allow? && !world.cancelled(|wire|)
                           && (ceiling.None? || old(used) + 1 <= ceiling.value - held)
                        then None else Some(Aborted)
    {
      hide ChainOk, SentOk, NextHop, SetByHost, Text.Upper, Text.Lower, Evaluate, RedirectMethod, IdentityOk;
      c' := c;
      var next, verb := Target(r), RedirectMethod(r.status, c.verb);
      RedirectIsUpper(r.status, c.verb);
      RedirectAsks(q, wire[|before|], r);
      if q.isNavigation {
        AllowedIff(policy, Request(next, verb, q.resourceType, true), false);
        if Evaluate(policy, Request(next, verb, q.resourceType, true), false).Block? {
          assert NotFollowed(Request(next, verb, q.resourceType, true));
          assert AsksFor(q, wire[|wire| - 1], r, Request(next, verb, q.resourceType, true));
          return Some(Aborted), c;
        }
        return Some(NavigationHop(next, cookies)), c;
      }
      var d := Decide(Request(next, verb, q.resourceType, false));
      if d.Block? || world.cancelled(|wire|) {
        assert NotFollowed(Request(next, verb, q.resourceType, false));
        assert AsksFor(q, wire[|wire| - 1], r, Request(next, verb, q.resourceType, false));
        return Some(Aborted), c;
      }
      HopKeepsChain(g, before, w0, c, wire[|before|], cookies);
      NextTarget(c, q.url, r, cookies);
      return None, NextHop(c, q.url, r, cookies);
    }

    /** The main-frame load: each redirect hop comes back as a fresh routed navigation. The
        browser's headers may differ on each. */
    method Goto(url: Url, resourceType: string, headers: nat -> Names) returns (loaded: Option<Outcome>)
      requires Valid()
      modifies this
      ensures Valid() && old(wire) <= wire && old(accounted) <= accounted
      ensures |wire| - |old(wire)| <= |accounted| - |old(accounted)| <= 11
      ensures used - old(used) == |accounted| - |old(accounted)|
      ensures AllGets(policy, resourceType, wire, accounted, |old(wire)|, |old(accounted)|)
    {
      hide SentOk, SetByHost, Evaluate, Text.Upper, IdentityOk, Settled;
      var target := url;
      for i := 0 to MAX_REDIRECT_HOPS + 1
        invariant Valid() && old(wire) <= wire && old(accounted) <= accounted
        invariant |wire| - |old(wire)| <= |accounted| - |old(accounted)| <= i
        invariant used - old(used) == |accounted| - |old(accounted)|
        invariant AllGets(policy, resourceType, wire, accounted, |old(wire)|, |old(accounted)|)
      {
        var q := Request(target, "GET", resourceType, true);
        UpperGet();
        ghost var sends, decisions := wire, accounted;
        var outcome := Handle(q, headers(i), None);
        if |wire| > |sends| {
          assert wire == sends + [wire[|sends|]];
          assert AsDecided(wire[|sends|], q) == q && accounted == decisions + [q];
          OneMoreGet(policy, resourceType, sends, decisions, wire[|sends|], |old(wire)|, |old(accounted)|);
        } else {
        }
        if !outcome.NavigationHop? {
          return Some(outcome);
        }
        target := outcome.next;
      }
      return None;
    }
  }

  function Target(r: Response): Url
    requires Redirects(r)
  {
    r.location.value
  }

  /** Where the cookies of a redirect go: into the jar of the host that set them, and to the browser
      when that is the host it asked. */
  lemma {:induction false} NextCookies(c: Chain, first: Url, r: Response, cookies: seq<SetCookie>, host: string)
    requires Redirects(r)
    ensures var c' := NextHop(c, first, r, cookies);
            && JarFor(c'.hops, host)
               == (if host == c.url.host then Filed(JarFor(c.hops, host), cookies) else JarFor(c.hops, host))
            && c'.handed == c.handed + (if c.url.host == first.host then cookies else [])
  {}

  lemma NextTarget(c: Chain, first: Url, r: Response, cookies: seq<SetCookie>)
    requires Redirects(r)
    ensures NextHop(c, first, r, cookies).url == Target(r)
    ensures NextHop(c, first, r, cookies).verb == RedirectMethod(r.status, c.verb)
  {}

  lemma RedirectIsUpper(status: int, verb: string)
    requires Text.Upper(verb) == verb
    ensures Text.Upper(RedirectMethod(status, verb)) == RedirectMethod(status, verb)
  {
    UpperGet();
  }

  lemma RedirectAsks(q: Request, s: Sent, r: Response)
    requires Redirects(r)
    ensures AsksFor(q, s, r, Request(Target(r), RedirectMethod(r.status, s.verb), q.resourceType, q.isNavigation))
  {
    var verb := RedirectMethod(r.status, s.verb);
    assert Redirected(r.status, s.verb, s.body, verb, if verb == s.verb then s.body else None);
  }

  lemma UpperGet()
    ensures Text.Upper("GET") == "GET"
  {}

  lemma UpperTwice(s: string)
    ensures Text.Upper(Text.Upper(s)) == Text.Upper(s)
  {}
}
