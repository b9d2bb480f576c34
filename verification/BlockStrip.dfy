/** The awk program that renderStripBlockStep of controllers/render.go emits, and what it leaves of any lines. */
module BlockStrip {
  import opened Text

  // ----- the two header patterns -----

  function SkipSpace(s: string): string {
    if s != "" && IsSpace(s[0]) then SkipSpace(s[1..]) else s
  }

  /** What follows the first double quote. */
  function AfterQuote(s: string): (r: string) {
    if s == "" then "" else if s[0] == '"' then s[1..] else AfterQuote(s[1..])
  }

  /** A line that opens a block of this keyword: the keyword, at most one quoted label, an opening brace. */
  predicate IsHeader(keyword: string, line: string) {
    var s := SkipSpace(line);
    keyword <= s && OpensAfter(s[|keyword|..])
  }

  predicate OpensAfter(s: string) {
    var t := SkipSpace(s);
    || "{" <= t
    || (t != s && "\"" <= t && '"' in t[1..] && "{" <= SkipSpace(AfterQuote(t[1..])))
  }

  // ----- the awk program -----

  datatype Pass = Pass(skip: bool, depth: int, out: seq<string>)

  /** The rules applied to one line. */
  function Feed(keyword: string, p: Pass, line: string): Pass {
    if IsHeader(keyword, line) then Pass(true, 1, p.out)
    else if p.skip then
      var depth := p.depth + (if '{' in line then 1 else 0) - (if '}' in line then 1 else 0);
      Pass(depth > 0, depth, p.out)
    else p.(out := p.out + [line])
  }

  function FeedAll(keyword: string, p: Pass, lines: seq<string>): Pass
    decreases |lines|
  {
    if lines == [] then p else FeedAll(keyword, Feed(keyword, p, lines[0]), lines[1..])
  }

  function Stripped(keyword: string, lines: seq<string>): seq<string> {
    FeedAll(keyword, Pass(false, 0, []), lines).out
  }

  method Strip(keyword: string, lines: seq<string>) returns (out: seq<string>)
    ensures out == Stripped(keyword, lines)
  {
    var skip, depth := false, 0;
    out := [];
    for i := 0 to |lines|
      invariant FeedAll(keyword, Pass(skip, depth, out), lines[i..]).out == Stripped(keyword, lines)
    {
      var line := lines[i];
      assert lines[i..][1..] == lines[i + 1..];
      if IsHeader(keyword, line) {
        skip, depth := true, 1;
        continue;
      }
      if skip {
        if '{' in line {
          depth := depth + 1;
        }
        if '}' in line {
          depth := depth - 1;
        }
        if depth <= 0 {
          skip := false;
        }
        continue;
      }
      out := out + [line];
    }
  }

  // ----- the header patterns, as the regular expressions read -----

  /** The pattern without label: white space, the keyword, white space, an opening brace; anything may follow. */
  ghost predicate MatchesBare(keyword: string, line: string) {
    exists a, m :: AllSpace(a) && AllSpace(m) && a + keyword + m + "{" <= line
  }

  /** The pattern with a label in double quotes, which some white space sets apart from the keyword. */
  ghost predicate MatchesLabelled(keyword: string, line: string) {
    exists a, m, name, c ::
      && AllSpace(a) && AllSpace(m) && m != "" && '"' !in name && AllSpace(c)
      && a + keyword + m + "\"" + name + "\"" + c + "{" <= line
  }

  predicate IsKeyword(keyword: string) {
    keyword != "" && forall i :: 0 <= i < |keyword| ==> !IsSpace(keyword[i]) && keyword[i] != '"' && keyword[i] != '{'
  }

  lemma {:induction false} SkipSpaceSplits(s: string) returns (a: string)
    ensures AllSpace(a) && s == a + SkipSpace(s)
    ensures SkipSpace(s) == "" || !IsSpace(SkipSpace(s)[0])
    ensures a == "" <==> SkipSpace(s) == s
  {
    if s != "" && IsSpace(s[0]) {
      a := SkipSpaceSplits(s[1..]);
      a := [s[0]] + a;
      assert s == [s[0]] + s[1..];
    } else {
      a := "";
    }
  }

  lemma {:induction false} SkipSpaceOf(a: string, s: string)
    requires AllSpace(a) && (s == "" || !IsSpace(s[0]))
    ensures SkipSpace(a + s) == s
  {
    if a == "" {
      assert a + s == s;
    } else {
      assert (a + s)[1..] == a[1..] + s;
      SkipSpaceOf(a[1..], s);
    }
  }

  lemma {:induction false} AfterQuoteSplits(s: string) returns (name: string)
    requires '"' in s
    ensures '"' !in name && s == name + "\"" + AfterQuote(s)
  {
    if s[0] == '"' {
      name := "";
    } else {
      name := AfterQuoteSplits(s[1..]);
      name := [s[0]] + name;
    }
  }

  lemma {:induction false} AfterQuoteOf(name: string, s: string)
    requires '"' !in name
    ensures AfterQuote(name + "\"" + s) == s
  {
    var t := name + "\"" + s;
    if name == "" {
      assert t[1..] == s;
    } else {
      assert t[1..] == name[1..] + "\"" + s;
      AfterQuoteOf(name[1..], s);
    }
  }

  lemma LabelSplits(t: string) returns (name: string, c: string, v: string)
    requires "\"" <= t && '"' in t[1..] && "{" <= SkipSpace(AfterQuote(t[1..]))
    ensures '"' !in name && AllSpace(c) && "{" <= v && t == "\"" + name + "\"" + c + v
  {
    name := AfterQuoteSplits(t[1..]);
    var u := AfterQuote(t[1..]);
    c := SkipSpaceSplits(u);
    v := SkipSpace(u);
    assert t == "\"" + t[1..];
  }

  lemma LabelledMatches(keyword: string, line: string, a: string, m: string, name: string, c: string, v: string)
    requires AllSpace(a) && AllSpace(m) && m != "" && '"' !in name && AllSpace(c) && "{" <= v
    requires line == a + keyword + m + ("\"" + name + "\"" + c + v)
    ensures MatchesLabelled(keyword, line)
  {
    assert line == a + keyword + m + "\"" + name + "\"" + c + "{" + v[1..];
    assert a + keyword + m + "\"" + name + "\"" + c + "{" <= line;
  }

  lemma HeaderMatches(keyword: string, line: string)
    requires IsHeader(keyword, line)
    ensures MatchesBare(keyword, line) || MatchesLabelled(keyword, line)
  {
    hide MatchesLabelled;
    var a := SkipSpaceSplits(line);
    var s := SkipSpace(line)[|keyword|..];
    var m := SkipSpaceSplits(s);
    var t := SkipSpace(s);
    assert line == a + keyword + m + t;
    if "{" <= t {
      assert a + keyword + m + "{" <= line;
    } else {
      var name, c, v := LabelSplits(t);
      LabelledMatches(keyword, line, a, m, name, c, v);
    }
  }

  lemma BareIsHeader(keyword: string, line: string, a: string, m: string)
    requires IsKeyword(keyword) && AllSpace(a) && AllSpace(m) && a + keyword + m + "{" <= line
    ensures IsHeader(keyword, line)
  {
    var brace := "{" + line[|a + keyword + m + "{"|..];
    assert line == a + (keyword + (m + brace));
    SkipSpaceOf(a, keyword + (m + brace));
    SkipSpaceOf(m, brace);
    assert (keyword + (m + brace))[|keyword|..] == m + brace;
  }

  lemma LabelledOpens(m: string, name: string, c: string, brace: string)
    requires AllSpace(m) && m != "" && '"' !in name && AllSpace(c) && "{" <= brace
    ensures OpensAfter(m + ("\"" + (name + "\"" + (c + brace))))
  {
    var u := c + brace;
    var q := "\"" + (name + "\"" + u);
    SkipSpaceOf(m, q);
    SkipSpaceOf(c, brace);
    AfterQuoteOf(name, u);
    assert q[1..] == name + "\"" + u;
    assert (name + "\"" + u)[|name|] == '"';
    assert (m + q)[0] == m[0];
  }

  lemma LabelledIsHeader(keyword: string, line: string, a: string, m: string, name: string, c: string)
    requires IsKeyword(keyword) && AllSpace(a) && AllSpace(m) && m != "" && '"' !in name && AllSpace(c)
    requires a + keyword + m + "\"" + name + "\"" + c + "{" <= line
    ensures IsHeader(keyword, line)
  {
    var brace := "{" + line[|a + keyword + m + "\"" + name + "\"" + c + "{"|..];
    var after := m + ("\"" + (name + "\"" + (c + brace)));
    assert line == a + (keyword + after);
    LabelledOpens(m, name, c, brace);
    SkipSpaceOf(a, keyword + after);
    assert (keyword + after)[|keyword|..] == after;
  }

  /** The header test is the two regular expressions. */
  lemma HeaderIsTheRegexps(keyword: string, line: string)
    requires IsKeyword(keyword)
    ensures IsHeader(keyword, line) <==> MatchesBare(keyword, line) || MatchesLabelled(keyword, line)
  {
    hide IsHeader;
    if IsHeader(keyword, line) {
      HeaderMatches(keyword, line);
    } else if MatchesBare(keyword, line) {
      var a, m :| AllSpace(a) && AllSpace(m) && a + keyword + m + "{" <= line;
      BareIsHeader(keyword, line, a, m);
    } else if MatchesLabelled(keyword, line) {
      var a, m, name, c :|
        && AllSpace(a) && AllSpace(m) && m != "" && '"' !in name && AllSpace(c)
        && a + keyword + m + "\"" + name + "\"" + c + "{" <= line;
      LabelledIsHeader(keyword, line, a, m, name, c);
    }
  }

  // ----- any input: no header is left, and a second pass changes nothing -----

  lemma {:induction false} PassKeepsNoHeader(keyword: string, p: Pass, lines: seq<string>)
    requires forall l :: l in p.out ==> !IsHeader(keyword, l)
    ensures forall l :: l in FeedAll(keyword, p, lines).out ==> !IsHeader(keyword, l)
    decreases |lines|
  {
    if lines != [] {
      PassKeepsNoHeader(keyword, Feed(keyword, p, lines[0]), lines[1..]);
    }
  }

  lemma {:induction false} NoHeaderPassesThrough(keyword: string, p: Pass, lines: seq<string>)
    requires !p.skip && forall l :: l in lines ==> !IsHeader(keyword, l)
    ensures FeedAll(keyword, p, lines) == p.(out := p.out + lines)
    decreases |lines|
  {
    if lines == [] {
      assert p.out + lines == p.out;
    } else {
      NoHeaderPassesThrough(keyword, Feed(keyword, p, lines[0]), lines[1..]);
      assert p.out + [lines[0]] + lines[1..] == p.out + lines;
    }
  }

  lemma StripLeavesNoHeader(keyword: string, lines: seq<string>)
    ensures forall l :: l in Stripped(keyword, lines) ==> !IsHeader(keyword, l)
    ensures Stripped(keyword, Stripped(keyword, lines)) == Stripped(keyword, lines)
  {
    PassKeepsNoHeader(keyword, Pass(false, 0, []), lines);
    NoHeaderPassesThrough(keyword, Pass(false, 0, []), Stripped(keyword, lines));
    assert [] + Stripped(keyword, lines) == Stripped(keyword, lines);
  }
}
