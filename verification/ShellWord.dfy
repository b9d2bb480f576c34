/**
 shellEscape of controllers/render.go against a reader of shell words: sections 2.2.1 (escape character) and
 2.2.2 (single quotes) of the POSIX.1-2017 Shell Command Language.
 */
module ShellWord {

  const NUL: char := '\0'

  // ----- the renderer -----

  /** strings.ReplaceAll(s, "'", "'\\''"). */
  function ReplaceQuotes(s: string): string {
    if s == "" then ""
    else (if s[0] == '\'' then "'\\''" else [s[0]]) + ReplaceQuotes(s[1..])
  }

  function ShellEscape(s: string): string {
    "'" + ReplaceQuotes(s) + "'"
  }

  // ----- the reader -----

  datatype Token =
    | Word(text: string, rest: string)
    | Operator(c: char, rest: string)
    | End
    | Unterminated
    | Unsupported  // a NUL, or a character that starts an expansion, a comment or another kind of quoting

  predicate IsBlank(c: char) {
    c == ' ' || c == '\t'
  }

  /** The characters that end an unquoted word: blanks, newline and the first characters of operators. */
  predicate EndsWord(c: char) {
    || IsBlank(c) || c == '\n'
    || c == '|' || c == '&' || c == ';' || c == '<' || c == '>' || c == '(' || c == ')'
  }

  predicate IsSpecial(c: char) {
    || c == NUL || c == '"' || c == '$' || c == '`'
    || c == '*' || c == '?' || c == '[' || c == '#' || c == '~' || c == '=' || c == '%' || c == '!'
    || c == '{' || c == '}'
  }

  /** Reads on, outside quotes, a word whose value so far is `acc`. */
  function Unquoted(s: string, acc: string): (t: Token)
    ensures !t.Operator?
    ensures t.Word? ==> |t.rest| <= |s| && (s != "" && !EndsWord(s[0]) ==> |t.rest| < |s|)
    decreases |s|
  {
    if s == "" || EndsWord(s[0]) then Word(acc, s)
    else if s[0] == '\'' then Quoted(s[1..], acc)
    else if s[0] == '\\' then
      if |s| == 1 then Unterminated
      else if s[1] == NUL then Unsupported
      else if s[1] == '\n' then Unquoted(s[2..], acc)
      else Unquoted(s[2..], acc + [s[1]])
    else if IsSpecial(s[0]) then Unsupported
    else Unquoted(s[1..], acc + [s[0]])
  }

  /** Reads on between single quotes: every character up to the next quote stands for itself. */
  function Quoted(s: string, acc: string): (t: Token)
    ensures !t.Operator?
    ensures t.Word? ==> |t.rest| < |s|
    decreases |s|
  {
    if s == "" then Unterminated
    else if s[0] == '\'' then Unquoted(s[1..], acc)
    else if s[0] == NUL then Unsupported
    else Quoted(s[1..], acc + [s[0]])
  }

  /** The next token: blanks are skipped, a newline or an operator character is a token of its own. */
  function NextToken(s: string): (t: Token)
    ensures t.Word? || t.Operator? ==> |t.rest| < |s|
  {
    if s == "" then End
    else if IsBlank(s[0]) then NextToken(s[1..])
    else if EndsWord(s[0]) then Operator(s[0], s[1..])
    else Unquoted(s, "")
  }

  datatype Lexeme = Text(text: string) | Control(c: char)

  /** A command line as its words and operator characters, cut at the first thing this reader does not read. */
  function Lexemes(s: string): seq<Lexeme>
    decreases |s|
  {
    match NextToken(s)
    case Word(text, rest) => [Text(text)] + Lexemes(rest)
    case Operator(c, rest) => [Control(c)] + Lexemes(rest)
    case _ => []
  }

  // ----- quoting is undone by reading -----

  /** Closing, escaping and reopening the quotes puts one quote into the word. */
  lemma EscapedQuoteReads(u: string, acc: string)
    ensures Quoted("'\\''" + u, acc) == Quoted(u, acc + ['\''])
  {
    var afterClose := "\\''" + u;
    var reopen := "'" + u;
    assert "'\\''" + u == "'" + afterClose;
    assert ("'" + afterClose)[1..] == afterClose && afterClose[2..] == reopen && reopen[1..] == u;
    assert Unquoted(afterClose, acc) == Unquoted(reopen, acc + ['\'']);
    assert Unquoted(reopen, acc + ['\'']) == Quoted(u, acc + ['\'']);
  }

  lemma ClosingQuoteReads(rest: string, acc: string)
    requires rest == "" || EndsWord(rest[0])
    ensures Quoted("'" + rest, acc) == Word(acc, rest)
  {
    assert ("'" + rest)[1..] == rest;
  }

  lemma {:induction false} QuotedReadsBack(s: string, rest: string, acc: string)
    requires rest == "" || EndsWord(rest[0])
    ensures Quoted(ReplaceQuotes(s) + "'" + rest, acc) == if NUL in s then Unsupported else Word(acc + s, rest)
    decreases |s|
  {
    hide Unquoted, IsSpecial, EndsWord;
    var t := ReplaceQuotes(s) + "'" + rest;
    if s == "" {
      assert t == "'" + rest;
      ClosingQuoteReads(rest, acc);
      assert acc + s == acc;
    } else {
      var u := ReplaceQuotes(s[1..]) + "'" + rest;
      QuotedReadsBack(s[1..], rest, acc + [s[0]]);
      assert acc + s == acc + [s[0]] + s[1..];
      if s[0] == '\'' {
        assert t == "'\\''" + u;
        EscapedQuoteReads(u, acc);
      } else {
        assert t == [s[0]] + u;
        assert t[1..] == u;
      }
    }
  }

  /** A quoted string without NUL is read as exactly that one word, whatever command text follows the word's end. */
  lemma ShellEscapeRoundTrip(s: string, rest: string)
    requires rest == "" || EndsWord(rest[0])
    ensures NextToken(ShellEscape(s) + rest) == Word(s, rest) <==> NUL !in s
  {
    var t := ShellEscape(s) + rest;
    var inner := ReplaceQuotes(s) + "'" + rest;
    assert t == "'" + inner;
    assert t[1..] == inner;
    QuotedReadsBack(s, rest, "");
    assert "" + s == s;
  }

  // ----- the command that selects a workspace -----

  function WorkspaceCommand(verb: string, workspace: string): string {
    "tofu workspace " + verb + " " + ShellEscape(workspace)
  }

  function WorkspaceStep(workspace: string): string {
    WorkspaceCommand("select", workspace) + " || " + WorkspaceCommand("new", workspace) + "\n"
  }

  predicate IsPlain(w: string) {
    forall i :: 0 <= i < |w| ==> !EndsWord(w[i]) && w[i] != '\'' && w[i] != '\\' && !IsSpecial(w[i])
  }

  lemma {:induction false} PlainReads(w: string, rest: string, acc: string)
    requires IsPlain(w) && (rest == "" || EndsWord(rest[0]))
    ensures Unquoted(w + rest, acc) == Word(acc + w, rest)
  {
    if w == "" {
      assert w + rest == rest && acc + w == acc;
    } else {
      assert (w + rest)[1..] == w[1..] + rest;
      assert acc + w == acc + [w[0]] + w[1..];
      PlainReads(w[1..], rest, acc + [w[0]]);
    }
  }

  lemma PlainLexeme(w: string, rest: string)
    requires w != "" && IsPlain(w)
    ensures Lexemes(w + " " + rest) == [Text(w)] + Lexemes(rest)
  {
    var s := w + " " + rest;
    assert s == w + (" " + rest);
    PlainReads(w, " " + rest, "");
    assert NextToken(s) == Word(w, " " + rest);
    assert (" " + rest)[1..] == rest;
    assert NextToken(" " + rest) == NextToken(rest);
  }

  lemma QuotedLexeme(s: string, rest: string)
    requires NUL !in s && (rest == "" || EndsWord(rest[0]))
    ensures Lexemes(ShellEscape(s) + rest) == [Text(s)] + Lexemes(rest)
  {
    ShellEscapeRoundTrip(s, rest);
  }

  lemma ControlLexeme(c: char, rest: string)
    requires EndsWord(c)
    ensures Lexemes([c] + rest) == (if IsBlank(c) then [] else [Control(c)]) + Lexemes(rest)
  {
    assert ([c] + rest)[1..] == rest;
  }

  lemma Regroup(a: string, b: string, verb: string, q: string, rest: string)
    ensures (a + " " + b + " ") + verb + " " + q + rest == a + " " + (b + " " + (verb + " " + (q + rest)))
  {
  }

  lemma FourWordsRead(a: string, b: string, verb: string, last: string, rest: string)
    requires a != "" && b != "" && verb != "" && IsPlain(a) && IsPlain(b) && IsPlain(verb)
    requires NUL !in last && (rest == "" || EndsWord(rest[0]))
    ensures Lexemes((a + " " + b + " ") + verb + " " + ShellEscape(last) + rest) ==
            [Text(a), Text(b), Text(verb), Text(last)] + Lexemes(rest)
  {
    hide *;
    var s3 := ShellEscape(last) + rest;
    var s2 := verb + " " + s3;
    var s1 := b + " " + s2;
    Regroup(a, b, verb, ShellEscape(last), rest);
    QuotedLexeme(last, rest);
    PlainLexeme(verb, s3);
    PlainLexeme(b, s2);
    PlainLexeme(a, s1);
  }

  lemma WorkspaceCommandReads(verb: string, workspace: string, rest: string)
    requires verb != "" && IsPlain(verb) && NUL !in workspace && (rest == "" || EndsWord(rest[0]))
    ensures Lexemes(WorkspaceCommand(verb, workspace) + rest) ==
            [Text("tofu"), Text("workspace"), Text(verb), Text(workspace)] + Lexemes(rest)
  {
    hide Lexemes, ShellEscape;
    assert "tofu workspace " == "tofu" + " " + "workspace" + " ";
    FourWordsRead("tofu", "workspace", verb, workspace, rest);
  }

  lemma OrReads(rest: string)
    ensures Lexemes(" || " + rest) == [Control('|'), Control('|')] + Lexemes(rest)
  {
    var s3 := [' '] + rest;
    var s2 := ['|'] + s3;
    var s1 := ['|'] + s2;
    assert " || " + rest == [' '] + s1;
    ControlLexeme(' ', s1);
    ControlLexeme('|', s2);
    ControlLexeme('|', s3);
    ControlLexeme(' ', rest);
  }

  /** Whatever the workspace is called, the step is the two intended commands with that one name as their argument. */
  lemma WorkspaceStepReadsBack(workspace: string)
    requires NUL !in workspace
    ensures Lexemes(WorkspaceStep(workspace)) ==
            [Text("tofu"), Text("workspace"), Text("select"), Text(workspace), Control('|'), Control('|'),
             Text("tofu"), Text("workspace"), Text("new"), Text(workspace), Control('\n')]
  {
    var second := WorkspaceCommand("new", workspace) + "\n";
    assert WorkspaceStep(workspace) == WorkspaceCommand("select", workspace) + (" || " + second);
    WorkspaceCommandReads("select", workspace, " || " + second);
    OrReads(second);
    WorkspaceCommandReads("new", workspace, "\n");
    ControlLexeme('\n', "");
    assert Lexemes("") == [];
  }
}
