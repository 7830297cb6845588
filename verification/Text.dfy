/** The few string operations the modelled code uses, on ASCII case and Python's
    Latin-1 whitespace. */
module Text {

  predicate IsSpace(c: char) {
    c == ' ' || '\t' <= c <= '\r' || '\U{1C}' <= c <= '\U{1F}' || c == '\U{85}' || c == '\U{A0}'
  }

  /** The white space there is. */
  lemma SpacesAre(c: char)
    ensures IsSpace(c) <==> c in "\t\n\U{0B}\U{0C}\r\U{1C}\U{1D}\U{1E}\U{1F} \U{85}\U{A0}"
  {}

  function StripLeft(s: string): (r: string)
    ensures r == "" || !IsSpace(r[0])
    ensures |r| <= |s| && (|r| == |s| ==> r == s)
  {
    if s != "" && IsSpace(s[0]) then StripLeft(s[1..]) else s
  }

  function StripRight(s: string): (r: string)
    ensures r == "" || !IsSpace(r[|r| - 1])
    ensures |r| <= |s| && (|r| == |s| ==> r == s)
  {
    if s != "" && IsSpace(s[|s| - 1]) then StripRight(s[..|s| - 1]) else s
  }

  function Strip(s: string): string { StripRight(StripLeft(s)) }

  predicate Blank(s: string) { forall i :: 0 <= i < |s| ==> IsSpace(s[i]) }

  /** Nothing is left of blank strings, and of no others. */
  lemma {:induction false} StripsToNothing(s: string)
    ensures Strip(s) == "" <==> Blank(s)
  {
    LeftStripped(s);
    var kept := StripLeft(s);
    if kept != "" { KeepsFirst(kept); }
  }

  /** What stripping on the left removes is blank. */
  lemma {:induction false} LeftStripped(s: string)
    ensures exists n :: 0 <= n <= |s| && Blank(s[..n]) && StripLeft(s) == s[n..]
  {
    if s != "" && IsSpace(s[0]) {
      LeftStripped(s[1..]);
      var n :| 0 <= n <= |s[1..]| && Blank(s[1..][..n]) && StripLeft(s[1..]) == s[1..][n..];
      assert s[..n + 1] == [s[0]] + s[1..][..n] && s[n + 1..] == s[1..][n..];
    } else {
      assert Blank(s[..0]) && s[0..] == s;
    }
  }

  lemma {:induction false} KeepsFirst(s: string)
    requires s != "" && !IsSpace(s[0])
    ensures StripRight(s) != "" && StripRight(s)[0] == s[0]
  {
    if IsSpace(s[|s| - 1]) { KeepsFirst(s[..|s| - 1]); }
  }

  /** Stripping leaves exactly what stands between blanks. */
  lemma {:induction false} StripPadded(before: string, s: string, after: string)
    requires Blank(before) && Blank(after)
    requires s != "" && !IsSpace(s[0]) && !IsSpace(s[|s| - 1])
    ensures StripLeft(before + s) == s && Strip(before + s + after) == s
  {
    LeftPadded(before, s);
    LeftPadded(before, s + after);
    assert before + s + after == before + (s + after);
    RightPadded(s, after);
  }

  lemma {:induction false} LeftPadded(before: string, s: string)
    requires Blank(before) && s != "" && !IsSpace(s[0])
    ensures StripLeft(before + s) == s
  {
    if before == "" {
      assert before + s == s;
    } else {
      assert (before + s)[1..] == before[1..] + s;
      LeftPadded(before[1..], s);
    }
  }

  lemma {:induction false} RightPadded(s: string, after: string)
    requires Blank(after) && s != "" && !IsSpace(s[|s| - 1])
    ensures StripRight(s + after) == s
  {
    if after == "" {
      assert s + after == s;
    } else {
      assert (s + after)[..|s + after| - 1] == s + after[..|after| - 1];
      RightPadded(s, after[..|after| - 1]);
    }
  }

  /** The part before the first separator, if there is one. */
  lemma {:induction false} BeforeSeparator(s: string, c: char, rest: string)
    requires c !in s && (rest == "" || rest[0] == c)
    ensures Before(s + rest, c) == s
  {
    if s == "" {
      assert s + rest == rest;
    } else {
      assert (s + rest)[1..] == s[1..] + rest;
      BeforeSeparator(s[1..], c, rest);
    }
  }

  /** The two cases of the alphabet; everything else is its own lower and upper case. */
  lemma Cases(c: char)
    ensures !('A' <= c <= 'Z') ==> LowerChar(c) == c
    ensures !('a' <= c <= 'z') ==> UpperChar(c) == c
    ensures 'A' <= c <= 'Z' ==> 'a' <= LowerChar(c) <= 'z' && UpperChar(LowerChar(c)) == c
    ensures 'a' <= c <= 'z' ==> 'A' <= UpperChar(c) <= 'Z' && LowerChar(UpperChar(c)) == c
    ensures LowerChar('A') == 'a' && forall d: char :: 'A' <= c < d <= 'Z' ==> LowerChar(c) < LowerChar(d)
  {}

  function LowerChar(c: char): char {
    if 'A' <= c <= 'Z' then (c as int + 32) as char else c
  }

  function UpperChar(c: char): char {
    if 'a' <= c <= 'z' then (c as int - 32) as char else c
  }

  function Lower(s: string): string { seq(|s|, i requires 0 <= i < |s| => LowerChar(s[i])) }

  function Upper(s: string): string { seq(|s|, i requires 0 <= i < |s| => UpperChar(s[i])) }

  /** The part of `s` before its first `c`, or all of `s`. */
  function Before(s: string, c: char): string {
    if s == "" || s[0] == c then "" else [s[0]] + Before(s[1..], c)
  }

  predicate Contains(s: string, sub: string) {
    exists i :: 0 <= i <= |s| && sub <= s[i..]
  }

  /** What is contained stands between a front and a back. */
  lemma ContainsIff(s: string, sub: string)
    ensures Contains(s, sub) <==> exists front, back :: s == Join(front, sub, back)
  {
    if Contains(s, sub) {
      var i :| 0 <= i <= |s| && sub <= s[i..];
      assert s == Join(s[..i], sub, s[i + |sub|..]);
    }
    if exists front, back :: s == Join(front, sub, back) {
      var front, back :| s == Join(front, sub, back);
      assert s[|front|..] == sub + back;
    }
  }

  ghost function Join(front: string, middle: string, back: string): string { front + middle + back }
}

module Options {
  datatype Option<+T> = None | Some(value: T)
}

/** SHA-256 of a canonical rendering, taken to be injective on what it renders. */
module Digests {
  datatype Digest<T> = Sha256(of: T)
}
