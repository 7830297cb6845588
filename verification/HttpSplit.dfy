/** Splitting a raw HTTP message into start line, headers and body. */
module HttpSplit {
  import Text

  datatype Header = Header(name: string, value: string)

  datatype Message = Message(start: string, headers: seq<Header>, body: string)

  const LF: string := "\n"
  const CRLF: string := "\r\n"

  /** Every CRLF becomes LF. */
  function Fold(s: string): (r: string)
    ensures |r| <= |s| && (s != "" ==> r != "")
  {
    if s == "" then ""
    else if s[0] == '\r' && |s| > 1 && s[1] == '\n' then ['\n'] + Fold(s[2..])
    else [s[0]] + Fold(s[1..])
  }

  predicate AtBlank(s: string) { |s| >= 2 && s[0] == '\n' && s[1] == '\n' }

  /** What stands before the first blank line, and what stands after it. */
  function Head(s: string): string { if s == "" || AtBlank(s) then "" else [s[0]] + Head(s[1..]) }

  function Rest(s: string): string { if s == "" then "" else if AtBlank(s) then s[2..] else Rest(s[1..]) }

  function Lines(s: string): (r: seq<string>)
    ensures r != []
  {
    if s == "" then [""]
    else
      var rest := Lines(s[1..]);
      if s[0] == '\n' then [""] + rest else [[s[0]] + rest[0]] + rest[1..]
  }

  // ------------------------------------------------------------------
  // Headers: an insertion-ordered table
  // ------------------------------------------------------------------

  function Joiner(name: string): string { if Text.Lower(name) == "set-cookie" then "\n" else ", " }

  /** Adds one header: to the value under its name if there is one, at the end otherwise. */
  function Add(headers: seq<Header>, h: Header): seq<Header> {
    if headers == [] then [h]
    else if headers[0].name == h.name then [Header(h.name, headers[0].value + Joiner(h.name) + h.value)] + headers[1..]
    else [headers[0]] + Add(headers[1..], h)
  }

  function AddAll(headers: seq<Header>): seq<Header> {
    if headers == [] then [] else Add(AddAll(headers[..|headers| - 1]), headers[|headers| - 1])
  }

  /** The part after the first `c`. */
  function After(s: string, c: char): string {
    if s == "" then "" else if s[0] == c then s[1..] else After(s[1..], c)
  }

  /** The header a line spells, with both sides stripped; none without a colon. */
  function Spelt(line: string): seq<Header> {
    if ':' in line then [Header(Text.Strip(Text.Before(line, ':')), Text.Strip(After(line, ':')))] else []
  }

  function SpeltAll(lines: seq<string>): seq<Header> {
    if lines == [] then [] else SpeltAll(lines[..|lines| - 1]) + Spelt(lines[|lines| - 1])
  }

  function Split(raw: string): Message {
    if raw == "" then Message("", [], "")
    else
      var lines := Lines(Head(Fold(raw)));
      Message(lines[0], AddAll(SpeltAll(lines[1..])), Rest(Fold(raw)))
  }

  method SplitMessage(raw: string) returns (m: Message)
    ensures m == Split(raw)
  {
    hide Add, Fold, Head, Lines, Rest, Text.Before, Text.Strip, After;
    if raw == "" {
      return Message("", [], "");
    }
    var norm := Fold(raw);
    var lines := Lines(Head(norm));
    var headers: seq<Header> := [];
    var tail := lines[1..];
    for i := 0 to |tail|
      invariant headers == AddAll(SpeltAll(tail[..i]))
    {
      assert tail[..i + 1][..i] == tail[..i] && tail[..i + 1][i] == tail[i];
      if ':' in tail[i] {
        var h := Header(Text.Strip(Text.Before(tail[i], ':')), Text.Strip(After(tail[i], ':')));
        headers := Add(headers, h);
      } else {
        assert SpeltAll(tail[..i]) + [] == SpeltAll(tail[..i]);
      }
    }
    assert tail[..|tail|] == tail;
    m := Message(lines[0], headers, Rest(norm));
  }

  // ------------------------------------------------------------------
  // Printing
  // ------------------------------------------------------------------

  function HeaderLine(h: Header): string { h.name + ": " + h.value }

  function HeaderLines(headers: seq<Header>): seq<string> {
    if headers == [] then [] else HeaderLines(headers[..|headers| - 1]) + [HeaderLine(headers[|headers| - 1])]
  }

  /** Every line with its line ending. */
  function Ended(lines: seq<string>, eol: string): string {
    if lines == [] then "" else lines[0] + eol + Ended(lines[1..], eol)
  }

  function Print(m: Message, eol: string): string {
    Ended([m.start] + HeaderLines(m.headers), eol) + eol + m.body
  }

  predicate Clean(h: Header) {
    && Text.Strip(h.name) == h.name && '\n' !in h.name && ':' !in h.name
    && Text.Strip(h.value) == h.value && '\n' !in h.value
  }

  predicate CleanAll(headers: seq<Header>) { forall h :: h in headers ==> Clean(h) }

  predicate EndsInCr(s: string) { s != "" && s[|s| - 1] == '\r' }

  // ------------------------------------------------------------------
  // Folding a print
  // ------------------------------------------------------------------

  lemma {:induction false} FoldSkips(line: string, rest: string)
    requires '\n' !in line && !(EndsInCr(line) && rest != "" && rest[0] == '\n')
    ensures Fold(line + rest) == line + Fold(rest)
  {
    if line == "" {
      assert line + rest == rest;
    } else {
      var all := line + rest;
      assert all[0] == line[0] && all[1..] == line[1..] + rest;
      FoldSkips(line[1..], rest);
      if |line| > 1 { assert all[1] == line[1] && line[1] in line; }
    }
  }

  lemma {:induction false} FoldEol(eol: string, rest: string)
    requires eol in {LF, CRLF}
    ensures Fold(eol + rest) == LF + Fold(rest)
  {
    assert (eol + rest)[|eol|..] == rest;
  }

  lemma {:induction false} FoldLine(line: string, eol: string, rest: string)
    requires '\n' !in line && eol in {LF, CRLF} && (eol == LF ==> !EndsInCr(line))
    ensures Fold(line + eol + rest) == line + LF + Fold(rest)
  {
    hide Fold;
    FoldSkips(line, eol + rest);
    FoldEol(eol, rest);
    assert line + eol + rest == line + (eol + rest) && line + LF + Fold(rest) == line + (LF + Fold(rest));
  }

  ghost predicate PlainLines(lines: seq<string>, eol: string) {
    forall l :: l in lines ==> '\n' !in l && (eol == LF ==> !EndsInCr(l))
  }

  lemma {:induction false} FoldLines(lines: seq<string>, eol: string, rest: string)
    requires PlainLines(lines, eol) && eol in {LF, CRLF}
    ensures Fold(Ended(lines, eol) + rest) == Ended(lines, LF) + Fold(rest)
  {
    hide Fold;
    if lines == [] {
      assert Ended(lines, eol) + rest == rest && Ended(lines, LF) + Fold(rest) == Fold(rest);
    } else {
      assert lines[0] in lines;
      FoldLine(lines[0], eol, Ended(lines[1..], eol) + rest);
      FoldLines(lines[1..], eol, rest);
      assert Ended(lines, eol) + rest == lines[0] + eol + (Ended(lines[1..], eol) + rest);
      assert Ended(lines, LF) + Fold(rest) == lines[0] + LF + (Ended(lines[1..], LF) + Fold(rest));
    }
  }

  lemma Regroup(a: string, b: string, c: string)
    ensures a + b + c == a + (b + c)
  {}

  lemma FoldPrint(m: Message, eol: string)
    requires '\n' !in m.start && CleanAll(m.headers) && eol in {LF, CRLF} && (eol == LF ==> !EndsInCr(m.start))
    ensures Fold(Print(m, eol)) == Ended([m.start] + HeaderLines(m.headers), LF) + LF + Fold(m.body)
  {
    hide Fold, Ended, HeaderLines, CleanAll;
    var lines := [m.start] + HeaderLines(m.headers);
    HeaderLinesArePlain(m.headers);
    FoldLines(lines, eol, eol + m.body);
    FoldEol(eol, m.body);
    Regroup(Ended(lines, eol), eol, m.body);
    Regroup(Ended(lines, LF), LF, Fold(m.body));
  }

  lemma StripEnds(s: string)
    requires Text.Strip(s) == s && s != ""
    ensures !Text.IsSpace(s[0]) && !Text.IsSpace(s[|s| - 1])
  {
    hide Text.StripLeft, Text.StripRight, Text.IsSpace;
    var l := Text.StripLeft(s);
    assert |Text.StripRight(l)| <= |l| <= |s|;
  }

  lemma {:induction false} HeaderLinesArePlain(headers: seq<Header>)
    requires CleanAll(headers)
    ensures forall l :: l in HeaderLines(headers) ==> '\n' !in l && !EndsInCr(l) && l != ""
  {
    hide HeaderLine, Clean;
    if headers != [] {
      assert headers[|headers| - 1] in headers;
      HeaderLinesArePlain(headers[..|headers| - 1]);
      HeaderLineIsPlain(headers[|headers| - 1]);
    }
  }

  lemma HeaderLineIsPlain(h: Header)
    requires Clean(h)
    ensures '\n' !in HeaderLine(h) && !EndsInCr(HeaderLine(h)) && HeaderLine(h) != ""
  {
    hide Text.Strip;
    if h.value != "" { StripEnds(h.value); }
  }

  // ------------------------------------------------------------------
  // Reading the folded print back
  // ------------------------------------------------------------------

  lemma {:induction false} HeadOfLine(line: string, rest: string)
    requires '\n' !in line
    ensures Head(line + rest) == line + Head(rest) && Rest(line + rest) == Rest(rest)
  {
    if line == "" {
      assert line + rest == rest;
    } else {
      assert line[0] in line && (line + rest)[1..] == line[1..] + rest;
      HeadOfLine(line[1..], rest);
    }
  }

  lemma {:induction false} LinesOfLine(line: string, rest: string)
    requires '\n' !in line
    ensures Lines(line) == [line] && Lines(line + LF + rest) == [line] + Lines(rest)
  {
    var all := line + LF + rest;
    if line == "" {
      assert all[1..] == rest;
    } else {
      assert line[0] in line && all[1..] == line[1..] + LF + rest;
      LinesOfLine(line[1..], rest);
      assert [line[0]] + line[1..] == line;
      assert ([line[1..]] + Lines(rest))[1..] == Lines(rest);
    }
  }

  /** Lines joined by LF. */
  function Joined(lines: seq<string>): string
    requires lines != []
  {
    if |lines| == 1 then lines[0] else lines[0] + LF + Joined(lines[1..])
  }

  lemma {:induction false} EndedIsJoined(lines: seq<string>)
    requires lines != []
    ensures Ended(lines, LF) == Joined(lines) + LF
  {
    if |lines| == 1 {
      assert Ended(lines[1..], LF) == "";
    } else {
      EndedIsJoined(lines[1..]);
    }
  }

  lemma {:induction false} LinesOfJoined(lines: seq<string>)
    requires lines != [] && forall l :: l in lines ==> '\n' !in l
    ensures Lines(Joined(lines)) == lines
  {
    assert lines[0] in lines;
    if |lines| > 1 {
      LinesOfJoined(lines[1..]);
      LinesOfLine(lines[0], Joined(lines[1..]));
    } else {
      LinesOfLine(lines[0], "");
    }
  }

  ghost predicate NoBlank(lines: seq<string>) {
    (forall l :: l in lines ==> '\n' !in l) && forall k :: 1 <= k < |lines| ==> lines[k] != ""
  }

  /** With no empty line after the first, the first blank line is the one after the lines. */
  lemma {:induction false} HeadOfJoined(lines: seq<string>, body: string)
    requires lines != [] && NoBlank(lines)
    ensures Head(Joined(lines) + (LF + (LF + body))) == Joined(lines)
    ensures Rest(Joined(lines) + (LF + (LF + body))) == body
  {
    hide Head, Rest;
    var end := LF + (LF + body);
    assert lines[0] in lines;
    if |lines| == 1 {
      HeadOfLine(lines[0], end);
      HeadAtBlank(body);
    } else {
      var tail := Joined(lines[1..]);
      assert lines[1] in lines && lines[1..][0] == lines[1] && tail[0] == lines[1][0];
      HeadOfJoined(lines[1..], body);
      HeadAfterLf(tail + end);
      HeadOfLine(lines[0], LF + (tail + end));
      Regroup(lines[0] + LF, tail, end);
      Regroup(lines[0], LF, tail + end);
      Regroup(lines[0], LF, tail);
    }
  }

  lemma {:induction false} HeadAtBlank(body: string)
    ensures Head(LF + (LF + body)) == "" && Rest(LF + (LF + body)) == body
  {
    var end := LF + (LF + body);
    assert AtBlank(end) && end[2..] == body;
  }

  lemma {:induction false} HeadAfterLf(s: string)
    requires s != "" && s[0] != '\n'
    ensures Head(LF + s) == LF + Head(s) && Rest(LF + s) == Rest(s)
  {
    assert (LF + s)[1..] == s && !AtBlank(LF + s);
  }

  lemma {:induction false} BeforeColon(name: string, rest: string)
    requires ':' !in name
    ensures Text.Before(name + ":" + rest, ':') == name && After(name + ":" + rest, ':') == rest
  {
    var all := name + ":" + rest;
    if name == "" {
      assert all[1..] == rest;
    } else {
      assert name[0] in name && all[1..] == name[1..] + ":" + rest;
      BeforeColon(name[1..], rest);
    }
  }

  lemma SpeltLine(h: Header)
    requires Clean(h)
    ensures Spelt(HeaderLine(h)) == [h]
  {
    var line := HeaderLine(h);
    assert line == h.name + ":" + (" " + h.value);
    assert line[|h.name|] == ':';
    BeforeColon(h.name, " " + h.value);
  }

  lemma {:induction false} SpeltLines(headers: seq<Header>)
    requires CleanAll(headers)
    ensures SpeltAll(HeaderLines(headers)) == headers
  {
    hide Spelt, HeaderLine, Clean;
    if headers != [] {
      var front, h := headers[..|headers| - 1], headers[|headers| - 1];
      assert h in headers;
      SpeltLines(front);
      SpeltLine(h);
      var lines := HeaderLines(headers);
      assert lines[..|lines| - 1] == HeaderLines(front);
    }
  }

  /** Splitting inverts printing, with either line ending: the start line as it was, the headers
      with repeats joined in order, the body with its CRLFs folded. */
  lemma SplitInvertsPrint(m: Message, eol: string)
    requires '\n' !in m.start && CleanAll(m.headers) && eol in {LF, CRLF} && (eol == LF ==> !EndsInCr(m.start))
    ensures Split(Print(m, eol)) == Message(m.start, AddAll(m.headers), Fold(m.body))
  {
    var lines := [m.start] + HeaderLines(m.headers);
    HeaderLinesArePlain(m.headers);
    FoldPrint(m, eol);
    EndedIsJoined(lines);
    assert forall k :: 1 <= k < |lines| ==> lines[k] in HeaderLines(m.headers);
    HeadOfJoined(lines, Fold(m.body));
    Regroup(Joined(lines) + LF, LF, Fold(m.body));
    Regroup(Joined(lines), LF, LF + Fold(m.body));
    LinesOfJoined(lines);
    assert lines[1..] == HeaderLines(m.headers);
    SpeltLines(m.headers);
    assert Print(m, eol) != "";
  }

  /** Without CRLFs in the body and without repeats in the headers nothing is lost at all. */
  lemma SplitPrintExactly(m: Message, eol: string)
    requires '\n' !in m.start && CleanAll(m.headers) && eol in {LF, CRLF} && (eol == LF ==> !EndsInCr(m.start))
    ensures Split(Print(m, eol)) == m <==>
              (forall i :: 0 <= i < |m.body| - 1 ==> !(m.body[i] == '\r' && m.body[i + 1] == '\n'))
              && NamesDiffer(m.headers)
  {
    SplitInvertsPrint(m, eol);
    FoldFixes(m.body);
    AddAllFixes(m.headers);
  }

  lemma {:induction false} FoldFixes(s: string)
    ensures Fold(s) == s <==> forall i :: 0 <= i < |s| - 1 ==> !(s[i] == '\r' && s[i + 1] == '\n')
  {
    if s != "" {
      if s[0] == '\r' && |s| > 1 && s[1] == '\n' {
        assert Fold(s)[0] != s[0];
      } else {
        FoldFixes(s[1..]);
        assert Fold(s)[0] == s[0] && Fold(s)[1..] == Fold(s[1..]);
        if i :| 0 <= i < |s| - 1 && s[i] == '\r' && s[i + 1] == '\n' {
          assert s[1..][i - 1] == '\r' && s[1..][i] == '\n';
        }
        if i :| 0 <= i < |s[1..]| - 1 && s[1..][i] == '\r' && s[1..][i + 1] == '\n' {
          assert s[i + 1] == '\r' && s[i + 2] == '\n';
        }
      }
    }
  }

  predicate HasName(headers: seq<Header>, name: string) { exists h :: h in headers && h.name == name }

  lemma {:induction false} AddShape(headers: seq<Header>, h: Header)
    ensures !HasName(headers, h.name) ==> Add(headers, h) == headers + [h]
    ensures HasName(headers, h.name) ==> |Add(headers, h)| == |headers|
    ensures forall n :: HasName(Add(headers, h), n) <==> HasName(headers, n) || n == h.name
  {
    if headers == [] {
      assert h in [h];
    } else {
      var rest := headers[1..];
      AddShape(rest, h);
      var out := Add(headers, h);
      assert forall x :: x in headers <==> x == headers[0] || x in rest;
      assert forall x :: x in out <==> x == out[0] || x in out[1..];
      if headers[0].name == h.name {
        assert out[1..] == rest;
      } else {
        assert out[1..] == Add(rest, h);
        assert forall n :: HasName(out, n) <==> headers[0].name == n || HasName(out[1..], n);
        assert forall n :: HasName(headers, n) <==> headers[0].name == n || HasName(rest, n);
      }
    }
  }

  ghost predicate NamesDiffer(headers: seq<Header>) {
    forall i, j :: 0 <= i < j < |headers| ==> headers[i].name != headers[j].name
  }

  lemma HasNameOneMore(front: seq<Header>, h: Header)
    ensures forall n :: HasName(front + [h], n) <==> HasName(front, n) || n == h.name
    ensures NamesDiffer(front + [h]) <==> NamesDiffer(front) && !HasName(front, h.name)
  {
    var headers := front + [h];
    assert h in headers && forall x :: x in headers <==> x in front || x == h;
    forall n | HasName(front, n) ensures HasName(headers, n) {
      var x :| x in front && x.name == n;
      assert x in headers;
    }
    assert forall i :: 0 <= i < |front| ==> headers[i] == front[i];
    if HasName(front, h.name) {
      var i :| 0 <= i < |front| && front[i].name == h.name;
      assert headers[i].name == headers[|front|].name;
    }
  }

  lemma {:induction false} AddAllFixes(headers: seq<Header>)
    ensures AddAll(headers) == headers <==> NamesDiffer(headers)
    ensures |AddAll(headers)| <= |headers|
    ensures forall n :: HasName(AddAll(headers), n) <==> HasName(headers, n)
  {
    hide NamesDiffer, HasName, Add;
    if headers == [] {
      NoNames();
    } else {
      var front, h := headers[..|headers| - 1], headers[|headers| - 1];
      assert headers == front + [h];
      AddAllFixes(front);
      AddShape(AddAll(front), h);
      HasNameOneMore(front, h);
    }
  }

  lemma NoNames()
    ensures NamesDiffer([]) && forall n :: !HasName([], n)
  {}

  /** A start line that ends in CR is the one thing an LF print loses: the CR joins the line ending. */
  lemma TrailingCrIsLost(m: Message)
    requires '\n' !in m.start && CleanAll(m.headers) && EndsInCr(m.start)
    ensures Split(Print(m, LF)) == Message(m.start[..|m.start| - 1], AddAll(m.headers), Fold(m.body))
  {
    hide Fold, CleanAll;
    var short := m.start[..|m.start| - 1];
    var m' := m.(start := short);
    FoldsToShort(m);
    SplitInvertsPrint(m', CRLF);
    assert Print(m, LF) != "" && Print(m', CRLF) != "";
  }

  lemma FoldsToShort(m: Message)
    requires '\n' !in m.start && CleanAll(m.headers) && EndsInCr(m.start)
    ensures Fold(Print(m, LF)) == Fold(Print(m.(start := m.start[..|m.start| - 1]), CRLF))
  {
    hide Fold, CleanAll, Ended, HeaderLines;
    var short, lines := m.start[..|m.start| - 1], HeaderLines(m.headers);
    FoldPrint(m.(start := short), CRLF);
    HeaderLinesArePlain(m.headers);
    FoldLines(lines, LF, LF + m.body);
    FoldEol(LF, m.body);
    FoldLine(short, CRLF, Ended(lines, LF) + (LF + m.body));
    assert m.start + LF == short + CRLF;
    PrintGroups(m.start, lines, m.body);
    PrintGroups(short, lines, Fold(m.body));
  }

  lemma {:induction false} PrintGroups(start: string, lines: seq<string>, body: string)
    ensures Ended([start] + lines, LF) + LF + body == start + LF + (Ended(lines, LF) + (LF + body))
  {
    assert ([start] + lines)[1..] == lines;
    EndedOfFirst([start] + lines);
    var e := Ended(lines, LF);
    Regroup(start + LF, e, LF + body);
    Regroup(start + LF + e, LF, body);
  }

  lemma {:induction false} EndedOfFirst(lines: seq<string>)
    requires lines != []
    ensures Ended(lines, LF) == lines[0] + LF + Ended(lines[1..], LF)
  {}

  /** An LF print comes back exactly when its start line does not end in CR. */
  lemma LfPrintComesBack(m: Message)
    requires '\n' !in m.start && CleanAll(m.headers)
    ensures Split(Print(m, LF)) == Message(m.start, AddAll(m.headers), Fold(m.body)) <==> !EndsInCr(m.start)
  {
    hide Fold, Split, Print, CleanAll;
    if EndsInCr(m.start) { TrailingCrIsLost(m); } else { SplitInvertsPrint(m, LF); }
  }

  // ------------------------------------------------------------------
  // Repeated headers
  // ------------------------------------------------------------------

  /** The values under a name, in order. */
  function ValuesOf(headers: seq<Header>, name: string): seq<string> {
    if headers == [] then []
    else
      var front := ValuesOf(headers[..|headers| - 1], name);
      if headers[|headers| - 1].name == name then front + [headers[|headers| - 1].value] else front
  }

  /** Values joined as repeated headers are. */
  function JoinValues(values: seq<string>, joiner: string): string {
    if values == [] then "" else if |values| == 1 then values[0]
    else JoinValues(values[..|values| - 1], joiner) + joiner + values[|values| - 1]
  }

  function ValueOf(headers: seq<Header>, name: string): string {
    if headers == [] then "" else if headers[0].name == name then headers[0].value else ValueOf(headers[1..], name)
  }

  lemma {:induction false} AddValue(headers: seq<Header>, h: Header, name: string)
    ensures ValueOf(Add(headers, h), name) ==
              if name != h.name then ValueOf(headers, name)
              else if HasName(headers, name) then ValueOf(headers, name) + Joiner(name) + h.value
              else h.value
  {
    if headers != [] {
      assert forall x :: x in headers <==> x == headers[0] || x in headers[1..];
      AddValue(headers[1..], h, name);
      assert HasName(headers, name) <==> headers[0].name == name || HasName(headers[1..], name);
    }
  }

  /** Each name ends up with its values joined in the order in which they came. */
  lemma {:induction false} RepeatsFoldInOrder(headers: seq<Header>, name: string)
    ensures ValueOf(AddAll(headers), name)
         == JoinValues(ValuesOf(headers, name), if Text.Lower(name) == "set-cookie" then "\n" else ", ")
    ensures HasName(headers, name) <==> ValuesOf(headers, name) != []
  {
    if headers != [] {
      var front, h := headers[..|headers| - 1], headers[|headers| - 1];
      RepeatsFoldInOrder(front, name);
      AddValue(AddAll(front), h, name);
      AddAllFixes(front);
      assert forall x :: x in headers <==> x in front || x == h;
      var values := ValuesOf(headers, name);
      if h.name == name { assert values[..|values| - 1] == ValuesOf(front, name); }
    }
  }

  /** No cookie is lost: splitting the joined Set-Cookie on LF gives back the list. */
  lemma {:induction false} CookiesComeBack(m: Message, eol: string, name: string)
    requires '\n' !in m.start && CleanAll(m.headers) && eol in {LF, CRLF} && (eol == LF ==> !EndsInCr(m.start))
    requires Text.Lower(name) == "set-cookie" && ValuesOf(m.headers, name) != []
    ensures Lines(ValueOf(Split(Print(m, eol)).headers, name)) == ValuesOf(m.headers, name)
  {
    hide Split, Print, Clean, Lines, Text.Lower, AddAll;
    SplitInvertsPrint(m, eol);
    RepeatsFoldInOrder(m.headers, name);
    ValuesAreClean(m.headers, name);
    JoinedByLf(ValuesOf(m.headers, name));
    LinesOfJoined(ValuesOf(m.headers, name));
  }

  lemma {:induction false} ValuesAreClean(headers: seq<Header>, name: string)
    requires CleanAll(headers)
    ensures forall v :: v in ValuesOf(headers, name) ==> '\n' !in v
  {
    hide Text.Strip;
    if headers != [] {
      assert headers[|headers| - 1] in headers;
      ValuesAreClean(headers[..|headers| - 1], name);
    }
  }

  lemma {:induction false} JoinedByLf(values: seq<string>)
    requires values != []
    ensures JoinValues(values, LF) == Joined(values)
  {
    if |values| > 1 {
      var front, last := values[..|values| - 1], values[|values| - 1];
      JoinedByLf(front);
      JoinedMore(front, last);
      assert front + [last] == values;
    }
  }

  lemma {:induction false} JoinedMore(lines: seq<string>, last: string)
    requires lines != []
    ensures Joined(lines + [last]) == Joined(lines) + LF + last
  {
    assert (lines + [last])[1..] == lines[1..] + [last];
    if |lines| > 1 { JoinedMore(lines[1..], last); }
  }
}
