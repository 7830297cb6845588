/** Captured exchanges and the facts the content review sorts and groups them by. Header
    names are taken as already lower-cased. */
module Captures {
  import opened Options
  import opened Digests
  import Text

  type Headers = map<string, string>

  datatype Url = Url(scheme: string, netloc: string, path: string, query: string, fragment: string)

  datatype Exchange = Exchange(
    verb: string, url: Url, requestHeaders: Headers, requestBody: string,
    responseStatus: Option<int>, responseHeaders: Headers, responseBody: string)

  /** The tables kept elsewhere in the program: which header names a caller's identity, which
      path carries an object id, and the extended security-header summary. */
  datatype Vocabulary = Vocabulary(
    identityHeader: string -> bool, namesObject: Url -> bool, fingerprint: Headers -> string)

  datatype ContentFamily = Html | Json | Xml | PlainText | Other

  function Identity(v: Vocabulary, ex: Exchange): Headers {
    map k | k in ex.requestHeaders && v.identityHeader(k) :: ex.requestHeaders[k]
  }

  function FamilyOfBody(body: string): ContentFamily {
    var trimmed := Text.StripLeft(body);
    var head := Text.Lower(if |trimmed| > 200 then trimmed[..200] else trimmed);
    if "<!doctype html" <= head || Text.Contains(head, "<html") then Html
    else if "{" <= head || "[" <= head then Json
    else if "<?xml" <= head then Xml
    else Other
  }

  function FamilyOfContent(ex: Exchange): ContentFamily {
    var declared := if "content-type" in ex.responseHeaders then ex.responseHeaders["content-type"] else "";
    var ctype := Text.Lower(Text.Strip(Text.Before(declared, ';')));
    if ctype == "" then FamilyOfBody(ex.responseBody)
    else if Text.Contains(ctype, "html") then Html
    else if Text.Contains(ctype, "json") then Json
    else if Text.Contains(ctype, "xml") then Xml
    else if "text/" <= ctype then PlainText
    else Other
  }

  const WRITE_METHODS := {"POST", "PUT", "PATCH", "DELETE"}

  /** 0 authenticated API or write, 1 anonymous API or write, 2 other non-HTML, 3 HTML. */
  function TierFrom(verb: string, identity: Headers, family: ContentFamily): (tier: nat)
    ensures tier < 4
  {
    if verb in WRITE_METHODS || family == Json then
      if identity != map[] then 0 else 1
    else if family == Html then 3 else 2
  }

  function CaptureTier(v: Vocabulary, ex: Exchange): (tier: nat)
    ensures tier < 4
  {
    TierFrom(Text.Upper(ex.verb), Identity(v, ex), FamilyOfContent(ex))
  }

  /** What each tier says about a capture, in both directions. */
  lemma TierMeans(v: Vocabulary, ex: Exchange)
    ensures var t := CaptureTier(v, ex);
            var callsApi := Text.Upper(ex.verb) in {"POST", "PUT", "PATCH", "DELETE"} || FamilyOfContent(ex) == Json;
            var identified := exists k :: k in ex.requestHeaders && v.identityHeader(k);
            && (t == 0 <==> callsApi && identified) && (t == 1 <==> callsApi && !identified)
            && (t == 3 <==> !callsApi && FamilyOfContent(ex) == Html)
            && (t == 2 <==> !callsApi && FamilyOfContent(ex) != Html)
  {
    hide FamilyOfContent;
    var identity := Identity(v, ex);
    if k :| k in ex.requestHeaders && v.identityHeader(k) { assert k in identity; }
    if identity != map[] { var k :| k in identity; }
  }

  function TrimSlashes(path: string): string {
    if path != "" && path[0] == '/' then TrimSlashes(path[1..]) else path
  }

  function FirstSegment(url: Url): string {
    Text.Lower(Text.Before(TrimSlashes(url.path), '/'))
  }

  datatype FamilyId = FamilyId(identity: Headers, segment: string)
  datatype RouteId = RouteId(verb: string, netloc: string, path: string, identity: Headers)
  datatype ContentKey = ContentKey(
    verb: string, netloc: string, status: Option<int>, identity: Headers, family: ContentFamily,
    body: Digest<string>, headerNames: set<string>, fingerprint: string)

  function RouteFamily(v: Vocabulary, ex: Exchange): FamilyId {
    FamilyId(Identity(v, ex), FirstSegment(ex.url))
  }

  function RouteOf(v: Vocabulary, ex: Exchange): RouteId {
    RouteId(ex.verb, ex.url.netloc, ex.url.path, Identity(v, ex))
  }

  /** The capture carries input of its own, or names an object. */
  predicate HasOwnInput(v: Vocabulary, ex: Exchange) {
    ex.url.query != "" || Text.Strip(ex.requestBody) != "" || v.namesObject(ex.url)
  }

  function ContentOf(v: Vocabulary, ex: Exchange): ContentKey {
    ContentKey(
      Text.Upper(ex.verb), Text.Lower(ex.url.netloc), ex.responseStatus, Identity(v, ex),
      FamilyOfContent(ex), Sha256(ex.responseBody), ex.responseHeaders.Keys,
      v.fingerprint(ex.responseHeaders))
  }

  function GroupKey(v: Vocabulary, ex: Exchange): Option<ContentKey> {
    if HasOwnInput(v, ex) then None else Some(ContentOf(v, ex))
  }

  type Key = Digest<Exchange>

  /** A capture with everything the scheduler asks about it. */
  datatype Item = Item(key: Key, tier: nat, family: FamilyId, route: RouteId, content: Option<ContentKey>)

  function Classify(v: Vocabulary, ex: Exchange): (item: Item)
    ensures item.key.of == ex && item.tier < 4
  {
    Item(Sha256(ex), CaptureTier(v, ex), RouteFamily(v, ex), RouteOf(v, ex), GroupKey(v, ex))
  }

  lemma ContentFixesTier(v: Vocabulary, ex: Exchange, key: ContentKey)
    requires GroupKey(v, ex) == Some(key)
    ensures CaptureTier(v, ex) == TierFrom(key.verb, key.identity, key.family)
  {}

  /** The grouping identity of a capture fixes its review tier. */
  lemma GroupKeyFixesTier(v: Vocabulary, a: Exchange, b: Exchange)
    requires GroupKey(v, a).Some? && GroupKey(v, a) == GroupKey(v, b)
    ensures CaptureTier(v, a) == CaptureTier(v, b)
  {
    ContentFixesTier(v, a, GroupKey(v, a).value);
    ContentFixesTier(v, b, GroupKey(v, a).value);
  }

  // ------------------------------------------------------------------
  // The same facts, told on the exchanges themselves.
  // ------------------------------------------------------------------

  /** Neither query nor request body of its own, and no object in its path. */
  ghost predicate NoInput(v: Vocabulary, ex: Exchange) {
    ex.url.query == "" && Text.Blank(ex.requestBody) && !v.namesObject(ex.url)
  }

  ghost predicate SameIdentity(v: Vocabulary, a: Exchange, b: Exchange) {
    forall k :: v.identityHeader(k) ==>
      && (k in a.requestHeaders <==> k in b.requestHeaders)
      && (k in a.requestHeaders && k in b.requestHeaders ==> a.requestHeaders[k] == b.requestHeaders[k])
  }

  /** Two exchanges with the same caller, verb, host and answer. */
  ghost predicate LookAlike(v: Vocabulary, a: Exchange, b: Exchange) {
    && SameIdentity(v, a, b)
    && Text.Upper(a.verb) == Text.Upper(b.verb) && Text.Lower(a.url.netloc) == Text.Lower(b.url.netloc)
    && a.responseStatus == b.responseStatus && a.responseBody == b.responseBody
    && FamilyOfContent(a) == FamilyOfContent(b)
    && a.responseHeaders.Keys == b.responseHeaders.Keys
    && v.fingerprint(a.responseHeaders) == v.fingerprint(b.responseHeaders)
  }

  lemma IdentityIff(v: Vocabulary, a: Exchange, b: Exchange)
    ensures Identity(v, a) == Identity(v, b) <==> SameIdentity(v, a, b)
  {
    var x, y := Identity(v, a), Identity(v, b);
    if x == y {
      forall k | v.identityHeader(k)
        ensures k in a.requestHeaders <==> k in b.requestHeaders
        ensures k in a.requestHeaders && k in b.requestHeaders ==> a.requestHeaders[k] == b.requestHeaders[k]
      {
        assert k in a.requestHeaders <==> k in x;
        assert k in b.requestHeaders <==> k in y;
        if k in x { assert x[k] == y[k]; }
      }
    }
  }

  /** Two captures may be grouped exactly when they look alike and neither carries input. */
  lemma ContentIff(v: Vocabulary, a: Exchange, b: Exchange)
    ensures (Classify(v, a).content.Some? && Classify(v, a).content == Classify(v, b).content)
       <==> NoInput(v, a) && NoInput(v, b) && LookAlike(v, a, b)
  {
    hide FamilyOfContent;
    IdentityIff(v, a, b);
    Text.StripsToNothing(a.requestBody);
    Text.StripsToNothing(b.requestBody);
  }

  /** What takes turns: routes of one verb, host, path and caller. */
  lemma SameRouteIff(v: Vocabulary, a: Exchange, b: Exchange)
    ensures Classify(v, a).route == Classify(v, b).route <==>
              a.verb == b.verb && a.url.netloc == b.url.netloc && a.url.path == b.url.path && SameIdentity(v, a, b)
  {
    IdentityIff(v, a, b);
  }

  /** Families of one caller on one first path segment. */
  lemma SameFamilyIff(v: Vocabulary, a: Exchange, b: Exchange, s: string, s': string, t: string, t': string)
    requires Segments(a.url.path, s, s') && Segments(b.url.path, t, t')
    ensures Classify(v, a).family == Classify(v, b).family <==>
              SameIdentity(v, a, b) && Text.Lower(s) == Text.Lower(t)
  {
    IdentityIff(v, a, b);
    FirstSegmentMeans(a.url, s, s');
    FirstSegmentMeans(b.url, t, t');
  }

  /** `segment` is the first one of the path, after leading slashes. */
  ghost predicate Segments(path: string, segment: string, rest: string) {
    && '/' !in segment && (segment == "" ==> rest == "") && (rest == "" || rest[0] == '/')
    && exists n: nat :: n <= |path| && (forall i :: 0 <= i < n ==> path[i] == '/') && path[n..] == segment + rest
  }

  lemma {:induction false} FirstSegmentMeans(url: Url, segment: string, rest: string)
    requires Segments(url.path, segment, rest)
    ensures FirstSegment(url) == Text.Lower(segment)
  {
    var n: nat :| n <= |url.path| && (forall i :: 0 <= i < n ==> url.path[i] == '/')
                  && url.path[n..] == segment + rest;
    SlashesTrimmed(url.path, n);
    Text.BeforeSeparator(segment, '/', rest);
    if segment == "" { assert segment + rest == ""; }
  }

  lemma {:induction false} SlashesTrimmed(path: string, n: nat)
    requires n <= |path| && forall i :: 0 <= i < n ==> path[i] == '/'
    requires n < |path| ==> path[n] != '/'
    ensures TrimSlashes(path) == path[n..]
  {
    if n > 0 {
      assert path[1..][n - 1..] == path[n..];
      SlashesTrimmed(path[1..], n - 1);
    }
  }

  /** The family of a declared media type: parameters, padding and case do not matter. */
  lemma DeclaredFamily(ex: Exchange, before: string, media: string, after: string, rest: string)
    requires "content-type" in ex.responseHeaders
    requires ex.responseHeaders["content-type"] == before + media + after + rest
    requires Text.Blank(before) && Text.Blank(after) && ';' !in media && (rest == "" || rest[0] == ';')
    requires media != "" && !Text.IsSpace(media[0]) && !Text.IsSpace(media[|media| - 1])
    ensures var family, m := FamilyOfContent(ex), Text.Lower(media);
            && (family == Html <==> Text.Contains(m, "html"))
            && (family == Json <==> Text.Contains(m, "json") && !Text.Contains(m, "html"))
            && (family == Xml <==>
                  Text.Contains(m, "xml") && !Text.Contains(m, "json") && !Text.Contains(m, "html"))
            && (family == PlainText <==> "text/" <= m && !Text.Contains(m, "xml")
                                         && !Text.Contains(m, "json") && !Text.Contains(m, "html"))
  {
    hide FamilyOfBody, Text.Contains, Text.Before, Text.Strip;
    Text.BeforeSeparator(before + media + after, ';', rest);
    Text.StripPadded(before, media, after);
  }

  /** Without a declared type: the family shown by the body's first 200 characters. */
  lemma UndeclaredFamily(ex: Exchange, before: string, text: string)
    requires "content-type" !in ex.responseHeaders || Text.Blank(ex.responseHeaders["content-type"])
    requires ex.responseBody == before + text && Text.Blank(before) && text != "" && !Text.IsSpace(text[0])
    ensures var family, head := FamilyOfContent(ex), Text.Lower(if |text| > 200 then text[..200] else text);
            && (family == Html <==> "<!doctype html" <= head || Text.Contains(head, "<html"))
            && (family == Json <==> text[0] in {'{', '['} && !Text.Contains(head, "<html"))
            && (family == Xml <==> "<?xml" <= head && !Text.Contains(head, "<html"))
            && family != PlainText
  {
    hide Text.Contains, Text.Before, Text.Strip, Text.StripLeft;
    Text.LeftPadded(before, text);
    BlankType(if "content-type" in ex.responseHeaders then ex.responseHeaders["content-type"] else "");
    var head := Text.Lower(if |text| > 200 then text[..200] else text);
    assert head[0] == Text.LowerChar(text[0]);
    assert "<?xml" <= head ==> head[1] == "<?xml"[1];
    assert "<!doctype html" <= head ==> head[1] == "<!doctype html"[1];
  }

  lemma {:induction false} BlankType(declared: string)
    requires Text.Blank(declared)
    ensures Text.Strip(Text.Before(declared, ';')) == ""
  {
    Text.BeforeSeparator(declared, ';', "");
    assert declared + "" == declared;
    Text.StripsToNothing(declared);
  }
}
