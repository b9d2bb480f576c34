/** String operations shared by the text modules. A string is a sequence of one-byte characters. */
module Text {

  /** The six ASCII white-space characters: awk's [[:space:]], and what TrimSpace removes from ASCII text. */
  predicate IsSpace(c: char) {
    c == ' ' || c == '\t' || c == '\n' || c == '\r' || c == '\U{b}' || c == '\U{c}'
  }

  predicate AllSpace(s: string) {
    forall i :: 0 <= i < |s| ==> IsSpace(s[i])
  }

  function TrimLeft(s: string): string {
    if s != "" && IsSpace(s[0]) then TrimLeft(s[1..]) else s
  }

  function TrimRight(s: string): string {
    if s != "" && IsSpace(s[|s| - 1]) then TrimRight(s[..|s| - 1]) else s
  }

  function TrimSpace(s: string): string {
    TrimRight(TrimLeft(s))
  }

  lemma {:induction false} TrimLeftSplits(s: string) returns (a: string)
    ensures AllSpace(a) && s == a + TrimLeft(s)
    ensures TrimLeft(s) == "" || !IsSpace(TrimLeft(s)[0])
  {
    if s != "" && IsSpace(s[0]) {
      a := TrimLeftSplits(s[1..]);
      a := [s[0]] + a;
      assert s == [s[0]] + s[1..];
    } else {
      a := "";
    }
  }

  lemma {:induction false} TrimRightSplits(s: string) returns (b: string)
    ensures AllSpace(b) && s == TrimRight(s) + b
    ensures TrimRight(s) == "" || !IsSpace(TrimRight(s)[|TrimRight(s)| - 1])
  {
    if s != "" && IsSpace(s[|s| - 1]) {
      b := TrimRightSplits(s[..|s| - 1]);
      b := b + [s[|s| - 1]];
      assert s == s[..|s| - 1] + [s[|s| - 1]];
    } else {
      b := "";
    }
  }

  /** Trimming removes white space at both ends and nothing else. */
  lemma TrimSpaceSplits(s: string) returns (a: string, b: string)
    ensures AllSpace(a) && AllSpace(b) && s == a + TrimSpace(s) + b
    ensures TrimSpace(s) == "" || (!IsSpace(TrimSpace(s)[0]) && !IsSpace(TrimSpace(s)[|TrimSpace(s)| - 1]))
  {
    a := TrimLeftSplits(s);
    b := TrimRightSplits(TrimLeft(s));
    assert TrimSpace(s) <= TrimLeft(s);
  }

  lemma TrimAfterSpace(c: char, s: string)
    requires IsSpace(c)
    ensures TrimSpace([c] + s) == TrimSpace(s)
  {
    assert ([c] + s)[1..] == s;
  }

  lemma {:induction false} TrimLeftBeforeSpace(s: string, c: char)
    requires IsSpace(c)
    ensures TrimLeft(s + [c]) == if TrimLeft(s) == "" then "" else TrimLeft(s) + [c]
  {
    if s == "" {
      assert (s + [c])[1..] == "";
    } else if IsSpace(s[0]) {
      assert (s + [c])[1..] == s[1..] + [c];
      TrimLeftBeforeSpace(s[1..], c);
    }
  }

  lemma TrimBeforeSpace(s: string, c: char)
    requires IsSpace(c)
    ensures TrimSpace(s + [c]) == TrimSpace(s)
  {
    TrimLeftBeforeSpace(s, c);
    var t := TrimLeft(s);
    assert (t + [c])[..|t|] == t;
  }

  /** strings.Split(s, "\n"). */
  function Lines(s: string): (ls: seq<string>)
    ensures |ls| > 0
  {
    if s == "" then [""]
    else
      var rest := Lines(s[1..]);
      if s[0] == '\n' then [""] + rest else [[s[0]] + rest[0]] + rest[1..]
  }

  /** A file whose lines all end in a newline. */
  function Unlines(ls: seq<string>): string {
    if ls == [] then "" else ls[0] + "\n" + Unlines(ls[1..])
  }

  /** awk's records: the lines of a file, where a final newline ends the last line and opens no new one. */
  function Records(s: string): seq<string> {
    var ls := Lines(s);
    if ls[|ls| - 1] == "" then ls[..|ls| - 1] else ls
  }

  lemma {:induction false} LinesAfterLine(line: string, s: string)
    requires '\n' !in line
    ensures Lines(line + "\n" + s) == [line] + Lines(s)
  {
    var t := line + "\n" + s;
    if line == "" {
      assert t[1..] == s;
    } else {
      assert t[1..] == line[1..] + "\n" + s;
      LinesAfterLine(line[1..], s);
      assert [line[0]] + line[1..] == line;
    }
  }

  lemma {:induction false} LinesOfUnlines(ls: seq<string>)
    requires forall l :: l in ls ==> '\n' !in l
    ensures Lines(Unlines(ls)) == ls + [""]
  {
    if ls != [] {
      LinesAfterLine(ls[0], Unlines(ls[1..]));
      LinesOfUnlines(ls[1..]);
    }
  }

  /** Writing lines to a file and reading its records gives the lines back. */
  lemma RecordsOfUnlines(ls: seq<string>)
    requires forall l :: l in ls ==> '\n' !in l
    ensures Records(Unlines(ls)) == ls
  {
    LinesOfUnlines(ls);
  }

  /** The lines with one more character at the end of the file. */
  function WithChar(ls: seq<string>, c: char): seq<string>
    requires |ls| > 0
  {
    if c == '\n' then ls + [""] else ls[..|ls| - 1] + [ls[|ls| - 1] + [c]]
  }

  /** Adding a character at the end and one at the front commute. */
  lemma CharsCommute(d: char, rest: seq<string>, c: char)
    requires |rest| > 0 && d != '\n'
    ensures var ls := [[d] + rest[0]] + rest[1..];
            WithChar(ls, c) == [[d] + WithChar(rest, c)[0]] + WithChar(rest, c)[1..]
  {
    if c != '\n' && |rest| == 1 {
      assert [d] + (rest[0] + [c]) == [d] + rest[0] + [c];
    }
  }

  lemma {:induction false} LinesBeforeChar(s: string, c: char)
    ensures Lines(s + [c]) == WithChar(Lines(s), c)
  {
    if s == "" {
      assert (s + [c])[1..] == "";
      assert [c] + "" == "" + [c];
    } else {
      hide WithChar;
      assert (s + [c])[1..] == s[1..] + [c];
      LinesBeforeChar(s[1..], c);
      if s[0] == '\n' {
        LineFirst(Lines(s[1..]), c);
      } else {
        CharsCommute(s[0], Lines(s[1..]), c);
      }
    }
  }

  lemma LineFirst(rest: seq<string>, c: char)
    requires |rest| > 0
    ensures WithChar([""] + rest, c) == [""] + WithChar(rest, c)
  {
  }

  predicate IsDigit(c: char) {
    '0' <= c <= '9'
  }

  function Digit(d: nat): (c: char)
    requires d < 10
    ensures IsDigit(c)
  {
    ['0', '1', '2', '3', '4', '5', '6', '7', '8', '9'][d]
  }

  function DigitValue(c: char): nat
    requires IsDigit(c)
  {
    c as int - '0' as int
  }

  function Decimal(n: nat): (s: string)
    ensures s != "" && forall i :: 0 <= i < |s| ==> IsDigit(s[i])
  {
    if n < 10 then [Digit(n)] else Decimal(n / 10) + [Digit(n % 10)]
  }

  function Value(s: string): nat
    requires forall i :: 0 <= i < |s| ==> IsDigit(s[i])
  {
    if s == "" then 0 else 10 * Value(s[..|s| - 1]) + DigitValue(s[|s| - 1])
  }

  lemma {:induction false} ValueOfDecimal(n: nat)
    ensures Value(Decimal(n)) == n
  {
    if n >= 10 {
      ValueOfDecimal(n / 10);
      assert Decimal(n)[..|Decimal(n)| - 1] == Decimal(n / 10);
    }
  }

  predicate OccursAt(s: string, p: string, i: int) {
    0 <= i && i + |p| <= |s| && s[i..i + |p|] == p
  }

  /** strings.LastIndex: the largest position at which `p` occurs in `s`, or -1. */
  function LastIndex(s: string, p: string): (i: int)
    ensures i == -1 || OccursAt(s, p, i)
    ensures forall j :: OccursAt(s, p, j) ==> j <= i
  {
    LastIndexUpTo(s, p, |s| - |p|)
  }

  function LastIndexUpTo(s: string, p: string, top: int): (i: int)
    ensures i == -1 || OccursAt(s, p, i)
    ensures forall j :: OccursAt(s, p, j) && j <= top ==> j <= i
    decreases top
  {
    if top < 0 then -1
    else if OccursAt(s, p, top) then top
    else LastIndexUpTo(s, p, top - 1)
  }

  /** strings.Contains. */
  predicate Contains(s: string, p: string) {
    LastIndex(s, p) >= 0
  }
}
