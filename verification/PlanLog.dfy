/**
 Reading a plan job's log: controllers/render.go prints it, controllers/tofuproject_controller.go splits it
 and controllers/helpers.go parses it into the counts that automatic approval compares with its threshold.
 */
module PlanLog {
  import opened Wrappers
  import opened Text

  const MAX_PLAN_OUTPUT_BYTES := 32 * 1024
  const PLAN_JSON_MARKER := "---TOFU-PLAN-JSON---"

  const INT32_MAX := 0x7FFF_FFFF
  const INT64_MAX := 0x7FFF_FFFF_FFFF_FFFF

  datatype BlastRadius = BlastRadius(add: int, change: int, destroy: int, total: int)

  /** What the controller keeps of a plan log. */
  datatype PlanReport = PlanReport(text: string, summary: string, radius: Option<BlastRadius>, json: string)

  // ----- the log the plan script prints -----

  function PrintPlanLog(text: string, json: string): string {
    text + PLAN_JSON_MARKER + "\n" + json
  }

  // ----- splitting -----

  /** The log kept: its last 32 KiB. */
  function Tail(output: string): string {
    if |output| > MAX_PLAN_OUTPUT_BYTES then output[|output| - MAX_PLAN_OUTPUT_BYTES..] else output
  }

  function TextPart(output: string): string {
    var idx := LastIndex(output, PLAN_JSON_MARKER);
    if idx >= 0 then TrimSpace(output[..idx]) else output
  }

  function JsonPart(output: string): string {
    var idx := LastIndex(output, PLAN_JSON_MARKER);
    if idx < 0 then "" else TrimSpace(output[idx + |PLAN_JSON_MARKER|..])
  }

  // ----- the summary line -----

  function SummaryLine(line: string): Option<string> {
    var trimmed := TrimSpace(line);
    if "Plan:" <= trimmed then Some(trimmed)
    else if trimmed == "No changes. Your infrastructure matches the configuration."
         || trimmed == "No changes. Infrastructure is up-to-date." then Some("No changes.")
    else None
  }

  function FirstSummary(lines: seq<string>): Option<string> {
    if lines == [] then None
    else if SummaryLine(lines[0]).Some? then SummaryLine(lines[0])
    else FirstSummary(lines[1..])
  }

  function ExtractPlanSummary(output: string): string {
    FirstSummary(Lines(output)).GetOr("")
  }

  // ----- the counts -----

  function DigitRun(s: string): (n: nat)
    ensures n <= |s|
    ensures forall i :: 0 <= i < n ==> IsDigit(s[i])
    ensures n < |s| ==> !IsDigit(s[n])
  {
    if s != "" && IsDigit(s[0]) then 1 + DigitRun(s[1..]) else 0
  }

  /** A run of digits followed by `word`: the count and what comes after. */
  function CountThen(s: string, word: string): Option<(nat, string)> {
    var n := DigitRun(s);
    if n > 0 && word <= s[n..] then Some((Value(s[..n]), s[n + |word|..])) else None
  }

  /** planCountsRe at the start of `s`. */
  function CountsAt(s: string): Option<(nat, nat, nat)> {
    if !("Plan: " <= s) then None
    else
      match CountThen(s[6..], " to add, ")
      case None => None
      case Some((add, s1)) =>
        match CountThen(s1, " to change, ")
        case None => None
        case Some((change, s2)) =>
          match CountThen(s2, " to destroy")
          case None => None
          case Some((destroy, _)) => Some((add, change, destroy))
  }

  /** planCountsRe.FindStringSubmatch: the leftmost match. */
  function FindCounts(s: string): Option<(nat, nat, nat)> {
    if CountsAt(s).Some? || s == "" then CountsAt(s) else FindCounts(s[1..])
  }

  /** strconv.Atoi on digits, its range error ignored: values above the int64 range become its maximum. */
  function Atoi(n: nat): int {
    if n > INT64_MAX then INT64_MAX else n
  }

  /** Go's wrap-around int64 addition of values already in range. */
  function Wrap64(n: int): (r: int)
    ensures -INT64_MAX - 1 <= r <= INT64_MAX
  {
    (n + INT64_MAX + 1) % 0x1_0000_0000_0000_0000 - INT64_MAX - 1
  }

  /** Go's int32 conversion. */
  function Wrap32(n: int): (r: int)
    ensures -INT32_MAX - 1 <= r <= INT32_MAX
  {
    (n + INT32_MAX + 1) % 0x1_0000_0000 - INT32_MAX - 1
  }

  function Counted(add: nat, change: nat, destroy: nat): BlastRadius {
    var a, c, d := Atoi(add), Atoi(change), Atoi(destroy);
    BlastRadius(Wrap32(a), Wrap32(c), Wrap32(d), Wrap32(Wrap64(Wrap64(a + c) + d)))
  }

  function ParsePlanCounts(summary: string): Option<BlastRadius> {
    if summary == "" then None
    else if summary == "No changes." then Some(BlastRadius(0, 0, 0, 0))
    else
      match FindCounts(summary)
      case None => None
      case Some((add, change, destroy)) => Some(Counted(add, change, destroy))
  }

  /** What a succeeded plan job's log is read as. */
  function ReadPlan(log: string): PlanReport {
    var output := Tail(log);
    var text := TextPart(output);
    var summary := ExtractPlanSummary(text);
    PlanReport(text, summary, ParsePlanCounts(summary), JsonPart(output))
  }

  /** The threshold comparison: no threshold or no parsed counts means no automatic approval. */
  predicate WithinThreshold(threshold: Option<int>, radius: Option<BlastRadius>) {
    threshold.Some? && radius.Some? && radius.value.total <= threshold.value
  }

  // ----- splitting recovers what was printed -----

  /** The marker overlaps its own end, but a newline follows it there. */
  lemma NoOccurrenceAcross(text: string, json: string, j: nat)
    requires |text| < j <= |text| + |PLAN_JSON_MARKER|
    ensures !OccursAt(PrintPlanLog(text, json), PLAN_JSON_MARKER, j)
  {
    var log := PrintPlanLog(text, json);
    var m := |PLAN_JSON_MARKER|;
    var k := |text| + m - j;
    assert log[|text| + m] == '\n';
    assert PLAN_JSON_MARKER[k] != '\n';
    assert j + m <= |log| ==> log[j..j + m][k] == log[|text| + m];
  }

  lemma OccurrenceAfter(front: string, json: string, p: string, j: nat)
    requires |front| <= j && OccursAt(front + json, p, j)
    ensures OccursAt(json, p, j - |front|)
  {
    var k := j - |front|;
    assert (front + json)[j..j + |p|] == json[k..k + |p|];
  }

  /** So the last occurrence of the marker is the printed one, whatever the text contains. */
  lemma MarkerFound(text: string, json: string)
    requires !Contains(json, PLAN_JSON_MARKER)
    ensures LastIndex(PrintPlanLog(text, json), PLAN_JSON_MARKER) == |text|
  {
    var log := PrintPlanLog(text, json);
    var front := text + PLAN_JSON_MARKER + "\n";
    assert log[|text|..|text| + |PLAN_JSON_MARKER|] == PLAN_JSON_MARKER;
    assert OccursAt(log, PLAN_JSON_MARKER, |text|);
    var last := LastIndex(log, PLAN_JSON_MARKER);
    if last >= |front| {
      OccurrenceAfter(front, json, PLAN_JSON_MARKER, last);
    } else if last > |text| {
      NoOccurrenceAcross(text, json, last);
    }
  }

  /** The end of the text that is kept with this JSON after it. */
  function KeptText(text: string, json: string): string
    requires |PLAN_JSON_MARKER| + 1 + |json| <= MAX_PLAN_OUTPUT_BYTES
  {
    var room := MAX_PLAN_OUTPUT_BYTES - |PLAN_JSON_MARKER| - 1 - |json|;
    if |text| <= room then text else text[|text| - room..]
  }

  lemma DropFromFront(a: string, b: string, k: nat)
    requires k <= |a|
    ensures (a + b)[k..] == a[k..] + b
  {
  }

  lemma TailOfPrinted(text: string, json: string)
    requires |PLAN_JSON_MARKER| + 1 + |json| <= MAX_PLAN_OUTPUT_BYTES
    ensures Tail(PrintPlanLog(text, json)) == PrintPlanLog(KeptText(text, json), json)
  {
    var end := PLAN_JSON_MARKER + "\n" + json;
    var kept := KeptText(text, json);
    assert PrintPlanLog(text, json) == text + end && PrintPlanLog(kept, json) == kept + end by {
      assert forall t: string :: t + PLAN_JSON_MARKER + "\n" + json == t + end;
    }
    var cut := |text| - |kept|;
    DropFromFront(text, end, cut);
    assert |text + end| > MAX_PLAN_OUTPUT_BYTES ==> |text + end| - MAX_PLAN_OUTPUT_BYTES == cut;
    assert cut == 0 ==> kept == text;
  }

  lemma PartsOfPrinted(text: string, json: string)
    requires !Contains(json, PLAN_JSON_MARKER)
    ensures TextPart(PrintPlanLog(text, json)) == TrimSpace(text)
    ensures JsonPart(PrintPlanLog(text, json)) == TrimSpace(json)
  {
    var log := PrintPlanLog(text, json);
    MarkerFound(text, json);
    assert log == text + (PLAN_JSON_MARKER + ("\n" + json));
    assert log[..|text|] == text;
    assert log[|text| + |PLAN_JSON_MARKER|..] == ['\n'] + json;
    TrimAfterSpace('\n', json);
  }

  /**
   Printing and reading a plan log gives back the JSON and the part of the text that fits, up to outer white space,
   as soon as marker and JSON fit into what is kept.
   */
  lemma PlanLogRoundTrip(text: string, json: string)
    requires !Contains(json, PLAN_JSON_MARKER)
    requires |PLAN_JSON_MARKER| + 1 + |json| <= MAX_PLAN_OUTPUT_BYTES
    ensures ReadPlan(PrintPlanLog(text, json)).text == TrimSpace(KeptText(text, json))
    ensures ReadPlan(PrintPlanLog(text, json)).json == TrimSpace(json)
    ensures |PrintPlanLog(text, json)| <= MAX_PLAN_OUTPUT_BYTES ==> KeptText(text, json) == text
  {
    TailOfPrinted(text, json);
    PartsOfPrinted(KeptText(text, json), json);
  }

  // ----- the summary survives trimming -----

  lemma {:induction false} FirstSummaryOfConcat(a: seq<string>, b: seq<string>)
    ensures FirstSummary(a + b) == if FirstSummary(a).Some? then FirstSummary(a) else FirstSummary(b)
  {
    if a == [] {
      assert a + b == b;
    } else {
      assert (a + b)[1..] == a[1..] + b;
      FirstSummaryOfConcat(a[1..], b);
    }
  }

  lemma SummaryAfterSpace(c: char, s: string)
    requires IsSpace(c)
    ensures ExtractPlanSummary([c] + s) == ExtractPlanSummary(s)
  {
    assert ([c] + s)[1..] == s;
    var ls := Lines(s);
    if c == '\n' {
      assert Lines([c] + s)[1..] == ls;
      assert SummaryLine("").None?;
    } else {
      TrimAfterSpace(c, ls[0]);
      assert Lines([c] + s)[1..] == ls[1..];
    }
  }

  lemma FirstSummaryEndingIn(lines: seq<string>, last: string)
    ensures FirstSummary(lines + [last]) ==
            if FirstSummary(lines).Some? then FirstSummary(lines) else SummaryLine(last)
  {
    FirstSummaryOfConcat(lines, [last]);
    assert [last][1..] == [];
  }

  lemma SummaryBeforeSpace(s: string, c: char)
    requires IsSpace(c)
    ensures ExtractPlanSummary(s + [c]) == ExtractPlanSummary(s)
  {
    hide SummaryLine, FirstSummary, TrimSpace, Lines;
    LinesBeforeChar(s, c);
    var ls := Lines(s);
    var init, last := ls[..|ls| - 1], ls[|ls| - 1];
    assert ls == init + [last];
    FirstSummaryEndingIn(init, last);
    if c == '\n' {
      FirstSummaryEndingIn(ls, "");
      EmptyLineIsNoSummary();
    } else {
      FirstSummaryEndingIn(init, last + [c]);
      SummaryLineBeforeSpace(last, c);
    }
  }

  lemma SummaryLineBeforeSpace(line: string, c: char)
    requires IsSpace(c)
    ensures SummaryLine(line + [c]) == SummaryLine(line)
  {
    TrimBeforeSpace(line, c);
  }

  lemma EmptyLineIsNoSummary()
    ensures SummaryLine("").None?
  {
  }

  lemma {:induction false} SummaryInsideSpace(a: string, s: string, b: string)
    requires AllSpace(a) && AllSpace(b)
    ensures ExtractPlanSummary(a + s + b) == ExtractPlanSummary(s)
    decreases |a| + |b|
  {
    if a != "" {
      assert a + s + b == [a[0]] + (a[1..] + s + b);
      SummaryAfterSpace(a[0], a[1..] + s + b);
      SummaryInsideSpace(a[1..], s, b);
    } else if b != "" {
      var n := |b| - 1;
      assert a + s + b == (a + s + b[..n]) + [b[n]];
      SummaryBeforeSpace(a + s + b[..n], b[n]);
      SummaryInsideSpace(a, s, b[..n]);
    } else {
      assert a + s + b == s;
    }
  }

  lemma SummaryOfTrimmed(s: string)
    ensures ExtractPlanSummary(TrimSpace(s)) == ExtractPlanSummary(s)
  {
    var a, b := TrimSpaceSplits(s);
    SummaryInsideSpace(a, TrimSpace(s), b);
  }

  // ----- the counts -----

  function PlanLine(add: nat, change: nat, destroy: nat): string {
    "Plan: " + Decimal(add) + " to add, " + Decimal(change) + " to change, " + Decimal(destroy) + " to destroy."
  }

  lemma {:induction false} DigitRunStops(d: string, rest: string)
    requires forall i :: 0 <= i < |d| ==> IsDigit(d[i])
    requires rest == "" || !IsDigit(rest[0])
    ensures DigitRun(d + rest) == |d|
  {
    if d == "" {
      assert d + rest == rest;
    } else {
      assert (d + rest)[1..] == d[1..] + rest;
      DigitRunStops(d[1..], rest);
    }
  }

  lemma CountThenReads(n: nat, word: string, rest: string)
    requires word != "" && !IsDigit(word[0])
    ensures CountThen(Decimal(n) + word + rest, word) == Some((n, rest))
  {
    var s := Decimal(n) + word + rest;
    var k := |Decimal(n)|;
    assert s == Decimal(n) + (word + rest);
    DigitRunStops(Decimal(n), word + rest);
    assert s[..k] == Decimal(n) && s[k..] == word + rest && s[k + |word|..] == rest;
    ValueOfDecimal(n);
  }

  lemma PlanLineSpells(a: string, c: string, d: string)
    ensures "Plan: " + a + " to add, " + c + " to change, " + d + " to destroy." ==
            "Plan: " + (a + " to add, " + (c + " to change, " + (d + " to destroy" + ".")))
  {
    assert " to destroy." == " to destroy" + ".";
  }

  lemma CountsAtPlanLine(add: nat, change: nat, destroy: nat)
    ensures CountsAt(PlanLine(add, change, destroy)) == Some((add, change, destroy))
  {
    hide CountThen, Decimal;
    var s2 := Decimal(destroy) + " to destroy" + ".";
    var s1 := Decimal(change) + " to change, " + s2;
    var s0 := Decimal(add) + " to add, " + s1;
    var line := "Plan: " + s0;
    PlanLineSpells(Decimal(add), Decimal(change), Decimal(destroy));
    assert line[6..] == s0;
    CountThenReads(add, " to add, ", s1);
    CountThenReads(change, " to change, ", s2);
    CountThenReads(destroy, " to destroy", ".");
  }

  lemma CountsOfPlanLine(add: nat, change: nat, destroy: nat)
    ensures ParsePlanCounts(PlanLine(add, change, destroy)) == Some(Counted(add, change, destroy))
  {
    CountsAtPlanLine(add, change, destroy);
    assert PlanLine(add, change, destroy)[0] == 'P' && "No changes."[0] == 'N';
  }

  /** The 32-bit total is the sum exactly while the sum fits. */
  lemma TotalIsSumIffItFits(add: nat, change: nat, destroy: nat)
    ensures Counted(add, change, destroy).total == add + change + destroy <==> add + change + destroy <= INT32_MAX
  {
    var sum := add + change + destroy;
    if sum <= INT32_MAX {
      assert Wrap64(add + change) == add + change && Wrap64(sum) == sum && Wrap32(sum) == sum;
    }
  }

  /** The smallest sum that does not fit reads as the most negative total. */
  lemma TotalWrapsAround()
    ensures Counted(INT32_MAX + 1, 0, 0).total == -INT32_MAX - 1
  {
    assert Wrap64(Wrap64(INT32_MAX + 1 + 0) + 0) == INT32_MAX + 1;
  }

  /** `text` shows the line of these counts, indented or not, before any other summary line. */
  ghost predicate ShowsCounts(text: string, add: nat, change: nat, destroy: nat) {
    exists i :: 0 <= i < |Lines(text)| && CountsLineAt(Lines(text), i, add, change, destroy)
  }

  ghost predicate CountsLineAt(lines: seq<string>, i: nat, add: nat, change: nat, destroy: nat)
    requires i < |lines|
  {
    && TrimSpace(lines[i]) == PlanLine(add, change, destroy)
    && forall k :: 0 <= k < i ==> SummaryLine(lines[k]).None?
  }

  lemma {:induction false} FirstSummaryIsCountsLine(lines: seq<string>, i: nat, add: nat, change: nat, destroy: nat)
    requires i < |lines| && CountsLineAt(lines, i, add, change, destroy)
    ensures FirstSummary(lines) == Some(PlanLine(add, change, destroy))
  {
    if i == 0 {
      assert "Plan:" <= PlanLine(add, change, destroy);
    } else {
      assert SummaryLine(lines[0]).None?;
      FirstSummaryIsCountsLine(lines[1..], i - 1, add, change, destroy);
    }
  }

  /**
   From the counts a plan prints to the decision taken on its log. When their sum fits in 32 bits the threshold
   is compared with the sum itself.
   */
  lemma ThresholdDecidesOnThePrintedCounts(text: string, json: string, add: nat, change: nat, destroy: nat,
                                           threshold: Option<int>)
    requires |PrintPlanLog(text, json)| <= MAX_PLAN_OUTPUT_BYTES && !Contains(json, PLAN_JSON_MARKER)
    requires ShowsCounts(text, add, change, destroy)
    ensures var r := ReadPlan(PrintPlanLog(text, json));
            && r.radius == Some(Counted(add, change, destroy))
            && (add + change + destroy <= INT32_MAX ==>
                  (WithinThreshold(threshold, r.radius) <==>
                     threshold.Some? && add + change + destroy <= threshold.value))
  {
    PlanLogRoundTrip(text, json);
    SummaryOfTrimmed(text);
    var i :| 0 <= i < |Lines(text)| && CountsLineAt(Lines(text), i, add, change, destroy);
    FirstSummaryIsCountsLine(Lines(text), i, add, change, destroy);
    CountsOfPlanLine(add, change, destroy);
    TotalIsSumIffItFits(add, change, destroy);
  }
}
