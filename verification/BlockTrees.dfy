/**
 The block stripper on printed block trees: when it removes the blocks of its keyword and nothing else, and what it does
 to trees on which it does not.
 */
module BlockTrees {
  import opened Text
  import opened BlockStrip

  // ----- a tree of blocks -----

  /**
   A file as a sequence of nodes: blocks with their opening and closing brace on lines of their own, blocks of the
   keyword that are opened and closed on one line, and other lines.
   */
  datatype Node = Line(text: string) | Block(open: string, body: seq<Node>, close: string) | Inline(text: string)

  /** A block of the keyword. */
  predicate IsStripped(keyword: string, n: Node) {
    n.Inline? || (n.Block? && IsHeader(keyword, n.open))
  }

  /** A printed file: only blocks of the keyword have a header, and other lines have both braces or neither. */
  predicate WellPrinted(keyword: string, f: seq<Node>)
    decreases f
  {
    f == [] || (WellPrintedNode(keyword, f[0]) && WellPrinted(keyword, f[1..]))
  }

  predicate WellPrintedNode(keyword: string, n: Node)
    decreases n
  {
    match n
    case Line(t) => !IsHeader(keyword, t) && ('{' in t <==> '}' in t)
    case Inline(t) => IsHeader(keyword, t) && '}' in t
    case Block(open, body, close) =>
      && '{' in open && '}' !in open
      && !IsHeader(keyword, close) && '}' in close && '{' !in close
      && WellPrinted(keyword, body)
  }

  function Print(f: seq<Node>): seq<string> {
    if f == [] then []
    else
      (match f[0]
       case Line(t) => [t]
       case Inline(t) => [t]
       case Block(open, body, close) => [open] + Print(body) + [close]) + Print(f[1..])
  }

  /** The tree without its blocks of the keyword. */
  function Remove(keyword: string, f: seq<Node>): seq<Node> {
    if f == [] then []
    else if IsStripped(keyword, f[0]) then Remove(keyword, f[1..])
    else
      [match f[0]
       case Block(open, body, close) => Block(open, Remove(keyword, body), close)
       case _ => f[0]] + Remove(keyword, f[1..])
  }

  predicate HasBlock(keyword: string, f: seq<Node>)
    decreases f
  {
    f != [] && (HasBlockIn(keyword, f[0]) || HasBlock(keyword, f[1..]))
  }

  predicate HasBlockIn(keyword: string, n: Node)
    decreases n
  {
    IsStripped(keyword, n) || (n.Block? && HasBlock(keyword, n.body))
  }

  /** Some block of the keyword is inside another one. */
  predicate Nested(keyword: string, f: seq<Node>)
    decreases f
  {
    f != [] && (NestedIn(keyword, f[0]) || Nested(keyword, f[1..]))
  }

  predicate NestedIn(keyword: string, n: Node)
    decreases n
  {
    n.Block? && if IsHeader(keyword, n.open) then HasBlock(keyword, n.body) else Nested(keyword, n.body)
  }

  /** No block of the keyword is printed on one line. */
  predicate Multiline(f: seq<Node>)
    decreases f
  {
    f == [] || (MultilineNode(f[0]) && Multiline(f[1..]))
  }

  predicate MultilineNode(n: Node)
    decreases n
  {
    !n.Inline? && (n.Block? ==> Multiline(n.body))
  }

  /** The last node is a block of the keyword on one line. */
  predicate OpenEnded(f: seq<Node>) {
    f != [] && f[|f| - 1].Inline?
  }

  /**
   After a block of the keyword on one line comes another block of the keyword or, at the top of the file only, nothing:
   so past the one-line ones comes one over several lines, whose closing line ends the skipping.
   */
  predicate Recovers(keyword: string, f: seq<Node>)
    decreases f
  {
    f == [] ||
    (&& RecoversIn(keyword, f[0])
     && (f[0].Inline? ==> f[1..] == [] || IsStripped(keyword, f[1]))
     && Recovers(keyword, f[1..]))
  }

  predicate RecoversIn(keyword: string, n: Node)
    decreases n
  {
    n.Block? && !IsHeader(keyword, n.open) ==> Recovers(keyword, n.body) && !OpenEnded(n.body)
  }

  // ----- the pass over a printed tree -----

  lemma {:induction false} FeedAllConcat(keyword: string, p: Pass, a: seq<string>, b: seq<string>)
    ensures FeedAll(keyword, p, a + b) == FeedAll(keyword, FeedAll(keyword, p, a), b)
    decreases |a|
  {
    if a == [] {
      assert a + b == b;
    } else {
      assert (a + b)[1..] == a[1..] + b;
      FeedAllConcat(keyword, Feed(keyword, p, a[0]), a[1..], b);
    }
  }

  lemma FeedAllOne(keyword: string, p: Pass, line: string)
    ensures FeedAll(keyword, p, [line]) == Feed(keyword, p, line)
  {
    assert [line][1..] == [];
  }

  /** The pass over one printed node. */
  function FeedNode(keyword: string, p: Pass, n: Node): Pass {
    match n
    case Line(t) => Feed(keyword, p, t)
    case Inline(t) => Feed(keyword, p, t)
    case Block(open, body, close) =>
      Feed(keyword, FeedAll(keyword, Feed(keyword, p, open), Print(body)), close)
  }

  lemma FeedBlock(keyword: string, p: Pass, n: Node)
    requires n.Block?
    ensures FeedAll(keyword, p, [n.open] + Print(n.body) + [n.close]) == FeedNode(keyword, p, n)
  {
    FeedAllConcat(keyword, p, [n.open] + Print(n.body), [n.close]);
    FeedAllConcat(keyword, p, [n.open], Print(n.body));
    FeedAllOne(keyword, p, n.open);
    FeedAllOne(keyword, FeedAll(keyword, Feed(keyword, p, n.open), Print(n.body)), n.close);
  }

  lemma FeedForest(keyword: string, p: Pass, f: seq<Node>)
    requires f != []
    ensures FeedAll(keyword, p, Print(f)) == FeedAll(keyword, FeedNode(keyword, p, f[0]), Print(f[1..]))
  {
    match f[0] {
      case Line(t) =>
        FeedAllConcat(keyword, p, [t], Print(f[1..]));
        FeedAllOne(keyword, p, t);
      case Inline(t) =>
        FeedAllConcat(keyword, p, [t], Print(f[1..]));
        FeedAllOne(keyword, p, t);
      case Block(open, body, close) =>
        FeedAllConcat(keyword, p, [open] + Print(body) + [close], Print(f[1..]));
        FeedBlock(keyword, p, f[0]);
    }
  }

  /** What is printed of one node outside a skipped block. */
  function Kept(keyword: string, n: Node): seq<string> {
    match n
    case Line(t) => [t]
    case Inline(_) => []
    case Block(open, body, close) =>
      if IsHeader(keyword, open) then [] else [open] + Print(Remove(keyword, body)) + [close]
  }

  lemma KeptFirst(keyword: string, f: seq<Node>)
    requires f != []
    ensures Print(Remove(keyword, f)) == Kept(keyword, f[0]) + Print(Remove(keyword, f[1..]))
  {
    if !IsStripped(keyword, f[0]) {
      assert Remove(keyword, f)[1..] == Remove(keyword, f[1..]);
    }
  }

  // ----- inside a skipped block -----

  /** Where no block of the keyword is, nothing is printed and the depth is back where it was. */
  lemma {:induction false} SkippedNode(keyword: string, p: Pass, n: Node)
    requires WellPrintedNode(keyword, n) && p.skip && p.depth > 0 && !HasBlockIn(keyword, n)
    ensures FeedNode(keyword, p, n) == p
    decreases n
  {
    if n.Block? {
      SkippedForest(keyword, Feed(keyword, p, n.open), n.body);
    }
  }

  lemma {:induction false} SkippedForest(keyword: string, p: Pass, f: seq<Node>)
    requires WellPrinted(keyword, f) && p.skip && p.depth > 0 && !HasBlock(keyword, f)
    ensures FeedAll(keyword, p, Print(f)) == p
    decreases f
  {
    if f != [] {
      FeedForest(keyword, p, f);
      SkippedNode(keyword, p, f[0]);
      SkippedForest(keyword, p, f[1..]);
    }
  }

  /** A block of the keyword without another one inside leaves no trace, and ends whatever skipping there was. */
  lemma StrippedBlock(keyword: string, p: Pass, n: Node)
    requires WellPrintedNode(keyword, n) && n.Block? && IsHeader(keyword, n.open) && !HasBlock(keyword, n.body)
    ensures FeedNode(keyword, p, n) == Pass(false, 0, p.out)
  {
    hide IsHeader, HasBlock, Print, FeedAll, WellPrinted;
    SkippedForest(keyword, Feed(keyword, p, n.open), n.body);
  }

  // ----- trees without nested blocks -----

  /** At most these lines are added. */
  ghost predicate Within(before: seq<string>, after: seq<string>, lines: seq<string>) {
    before <= after && |after| <= |before| + |lines|
  }

  /** All lines of two parts are added exactly when those of each part are. */
  lemma BothParts(a: seq<string>, b: seq<string>, c: seq<string>, x: seq<string>, y: seq<string>)
    requires Within(a, b, x) && Within(b, c, y)
    ensures Within(a, c, x + y)
    ensures c == a + (x + y) <==> b == a + x && c == b + y
  {
    assert a + (x + y) == a + x + y;
    if c == a + (x + y) {
      assert b == c[..|b|] && a + x == c[..|a + x|];
    }
  }

  /** The pass is ready for these nodes: it does not skip, or the next one is a block of the keyword. */
  predicate Ready(keyword: string, p: Pass, f: seq<Node>) {
    p.skip && f != [] ==> IsStripped(keyword, f[0])
  }

  lemma {:induction false} ExactBlock(keyword: string, p: Pass, n: Node)
    requires WellPrintedNode(keyword, n) && !NestedIn(keyword, n) && n.Block? && !IsHeader(keyword, n.open)
    ensures var q := FeedNode(keyword, p, n);
            && Within(p.out, q.out, Kept(keyword, n))
            && (q.out == p.out + Kept(keyword, n) <==> !p.skip && RecoversIn(keyword, n))
            && (q.out == p.out + Kept(keyword, n) ==> !q.skip)
    decreases n, 0
  {
    hide IsHeader, Nested, Print, Remove, FeedAll, WellPrinted, Recovers;
    var r := Feed(keyword, p, n.open);
    var q := FeedAll(keyword, r, Print(n.body));
    var c := FeedNode(keyword, p, n);
    var lines := Print(Remove(keyword, n.body));
    ExactForest(keyword, r, n.body);
    BothParts(p.out, r.out, q.out, [n.open], lines);
    BothParts(p.out, q.out, c.out, [n.open] + lines, [n.close]);
  }

  lemma {:induction false} ExactNode(keyword: string, p: Pass, n: Node)
    requires WellPrintedNode(keyword, n) && !NestedIn(keyword, n)
    ensures var q := FeedNode(keyword, p, n);
            && Within(p.out, q.out, Kept(keyword, n))
            && (q.out == p.out + Kept(keyword, n) <==> (p.skip ==> IsStripped(keyword, n)) && RecoversIn(keyword, n))
            && (q.out == p.out + Kept(keyword, n) ==> (q.skip <==> n.Inline?))
    decreases n, 1
  {
    hide IsHeader, HasBlock, Nested, Print, Remove, FeedAll, WellPrinted, Recovers;
    assert p.out + [] == p.out;
    if n.Block? {
      if IsHeader(keyword, n.open) {
        StrippedBlock(keyword, p, n);
      } else {
        ExactBlock(keyword, p, n);
      }
    }
  }

  /** Never is more printed than is to be kept, and all of it exactly where the tree recovers. */
  lemma {:induction false} ExactForest(keyword: string, p: Pass, f: seq<Node>)
    requires WellPrinted(keyword, f) && !Nested(keyword, f)
    ensures var q := FeedAll(keyword, p, Print(f));
            var kept := Print(Remove(keyword, f));
            && Within(p.out, q.out, kept)
            && (q.out == p.out + kept <==> Ready(keyword, p, f) && Recovers(keyword, f))
            && (q.out == p.out + kept ==> (q.skip <==> OpenEnded(f) || (f == [] && p.skip)))
    decreases f, 2
  {
    if f == [] {
      assert p.out + [] == p.out;
    } else {
      hide IsHeader, HasBlock, NestedIn, Print, Remove, FeedAll, FeedNode, Kept, WellPrintedNode, IsStripped,
           RecoversIn, Within;
      var q := FeedNode(keyword, p, f[0]);
      var r := FeedAll(keyword, q, Print(f[1..]));
      ExactNode(keyword, p, f[0]);
      ExactForest(keyword, q, f[1..]);
      FeedForest(keyword, p, f);
      KeptFirst(keyword, f);
      BothParts(p.out, q.out, r.out, Kept(keyword, f[0]), Print(Remove(keyword, f[1..])));
    }
  }

  /**
   Where no block of the keyword is inside another one, the awk pass over a printed tree prints the tree without those
   blocks if and only if each of them that is opened and closed on one line is followed, past other one-line ones, by
   one over several lines in the same sequence, or at the top of the file by nothing.
   */
  lemma StripRemovesTheBlocks(keyword: string, f: seq<Node>)
    requires WellPrinted(keyword, f) && !Nested(keyword, f)
    ensures Stripped(keyword, Print(f)) == Print(Remove(keyword, f)) <==> Recovers(keyword, f)
  {
    ExactForest(keyword, Pass(false, 0, []), f);
    assert [] + Print(Remove(keyword, f)) == Print(Remove(keyword, f));
  }

  // ----- the text of the file -----

  lemma {:induction false} OutputIsInput(keyword: string, p: Pass, lines: seq<string>)
    ensures forall l :: l in FeedAll(keyword, p, lines).out ==> l in p.out || l in lines
    decreases |lines|
  {
    if lines != [] {
      OutputIsInput(keyword, Feed(keyword, p, lines[0]), lines[1..]);
    }
  }

  lemma {:induction false} KeptIsPrinted(keyword: string, f: seq<Node>)
    ensures forall l :: l in Print(Remove(keyword, f)) ==> l in Print(f)
    decreases f
  {
    if f != [] {
      KeptIsPrinted(keyword, f[1..]);
      KeptFirst(keyword, f);
      if f[0].Block? {
        KeptIsPrinted(keyword, f[0].body);
      }
    }
  }

  /** The same for the file's text: read into records, stripped, written back with a newline after each line. */
  lemma StrippedFileText(keyword: string, f: seq<Node>)
    requires WellPrinted(keyword, f) && !Nested(keyword, f)
    requires forall l :: l in Print(f) ==> '\n' !in l
    ensures Unlines(Stripped(keyword, Records(Unlines(Print(f))))) == Unlines(Print(Remove(keyword, f))) <==>
            Recovers(keyword, f)
  {
    hide Recovers, Nested, Print, Remove, Stripped, FeedAll, Unlines, Records;
    var kept := Print(Remove(keyword, f));
    RecordsOfUnlines(Print(f));
    StripRemovesTheBlocks(keyword, f);
    StrippedIsInput(keyword, Print(f));
    KeptIsPrinted(keyword, f);
    RecordsOfUnlines(Stripped(keyword, Print(f)));
    RecordsOfUnlines(kept);
  }

  lemma StrippedIsInput(keyword: string, lines: seq<string>)
    ensures forall l :: l in Stripped(keyword, lines) ==> l in lines
  {
    OutputIsInput(keyword, Pass(false, 0, []), lines);
  }

  // ----- nested blocks -----

  /** A block of the keyword inside a skipped one ends the skipping early. */
  lemma {:induction false} LeakingNode(keyword: string, p: Pass, n: Node)
    requires WellPrintedNode(keyword, n) && MultilineNode(n) && p.skip && p.depth > 0 && HasBlockIn(keyword, n)
    ensures var q := FeedNode(keyword, p, n); !q.skip && p.out <= q.out
    decreases n
  {
    hide IsHeader;
    var r := Feed(keyword, p, n.open);
    if HasBlock(keyword, n.body) {
      LeakingForest(keyword, r, n.body);
    } else {
      SkippedForest(keyword, r, n.body);
    }
  }

  lemma {:induction false} LeakingForest(keyword: string, p: Pass, f: seq<Node>)
    requires WellPrinted(keyword, f) && Multiline(f) && p.skip && p.depth > 0 && HasBlock(keyword, f)
    ensures var q := FeedAll(keyword, p, Print(f)); !q.skip && p.out <= q.out
    decreases f
  {
    FeedForest(keyword, p, f);
    if HasBlockIn(keyword, f[0]) {
      LeakingNode(keyword, p, f[0]);
      PlainForest(keyword, FeedNode(keyword, p, f[0]), f[1..]);
    } else {
      SkippedNode(keyword, p, f[0]);
      LeakingForest(keyword, p, f[1..]);
    }
  }

  /** The output grows by these lines, or by more than them. */
  ghost predicate Grows(before: seq<string>, after: seq<string>, lines: seq<string>, more: bool) {
    before <= after && if more then |after| > |before| + |lines| else after == before + lines
  }

  lemma GrowsTwice(a: seq<string>, b: seq<string>, c: seq<string>, x: seq<string>, y: seq<string>, m: bool, n: bool)
    requires Grows(a, b, x, m) && Grows(b, c, y, n)
    ensures Grows(a, c, x + y, m || n)
  {
    if !m && !n {
      assert a + x + y == a + (x + y);
    }
  }

  lemma GrowsByOne(out: seq<string>, line: string)
    ensures Grows(out, out + [line], [line], false)
  {
  }

  lemma {:induction false} PlainHeaderBlock(keyword: string, p: Pass, n: Node)
    requires WellPrintedNode(keyword, n) && MultilineNode(n) && !p.skip && IsStripped(keyword, n)
    ensures var q := FeedNode(keyword, p, n); !q.skip && Grows(p.out, q.out, [], HasBlock(keyword, n.body))
    decreases n, 0
  {
    hide IsHeader, HasBlock, Print, FeedAll, WellPrinted, Multiline;
    assert p.out + [] == p.out;
    if HasBlock(keyword, n.body) {
      LeakingForest(keyword, Feed(keyword, p, n.open), n.body);
    } else {
      StrippedBlock(keyword, p, n);
    }
  }

  lemma {:induction false} PlainOtherBlock(keyword: string, p: Pass, n: Node)
    requires WellPrintedNode(keyword, n) && MultilineNode(n) && !p.skip && n.Block? && !IsHeader(keyword, n.open)
    ensures var q := FeedNode(keyword, p, n);
            && !q.skip
            && Grows(p.out, q.out, [n.open] + Print(Remove(keyword, n.body)) + [n.close], Nested(keyword, n.body))
    decreases n, 0
  {
    hide IsHeader, Nested, Print, Remove, FeedAll, Grows, WellPrinted, Multiline;
    var r := Feed(keyword, p, n.open);
    var q := FeedAll(keyword, r, Print(n.body));
    var lines := Print(Remove(keyword, n.body));
    PlainForest(keyword, r, n.body);
    GrowsByOne(p.out, n.open);
    GrowsByOne(q.out, n.close);
    GrowsTwice(p.out, r.out, q.out, [n.open], lines, false, Nested(keyword, n.body));
    GrowsTwice(p.out, q.out, q.out + [n.close], [n.open] + lines, [n.close], Nested(keyword, n.body), false);
  }

  /** Outside, what a node keeps is printed, and more than that exactly when blocks are nested in it. */
  lemma {:induction false} PlainNode(keyword: string, p: Pass, n: Node)
    requires WellPrintedNode(keyword, n) && MultilineNode(n) && !p.skip
    ensures var q := FeedNode(keyword, p, n);
            !q.skip && Grows(p.out, q.out, Kept(keyword, n), NestedIn(keyword, n))
    decreases n, 1
  {
    hide IsHeader, HasBlock, Nested, Print, Remove, FeedAll, Grows, WellPrinted, Multiline;
    if n.Line? {
      GrowsByOne(p.out, n.text);
    } else if IsHeader(keyword, n.open) {
      PlainHeaderBlock(keyword, p, n);
    } else {
      PlainOtherBlock(keyword, p, n);
    }
  }

  lemma {:induction false} PlainForest(keyword: string, p: Pass, f: seq<Node>)
    requires WellPrinted(keyword, f) && Multiline(f) && !p.skip
    ensures var q := FeedAll(keyword, p, Print(f));
            !q.skip && Grows(p.out, q.out, Print(Remove(keyword, f)), Nested(keyword, f))
    decreases f, 2
  {
    if f != [] {
      hide IsHeader, HasBlock, NestedIn, Print, Remove, FeedAll, FeedNode, Grows, Kept, WellPrintedNode, MultilineNode;
      var q := FeedNode(keyword, p, f[0]);
      var r := FeedAll(keyword, q, Print(f[1..]));
      PlainNode(keyword, p, f[0]);
      PlainForest(keyword, q, f[1..]);
      FeedForest(keyword, p, f);
      KeptFirst(keyword, f);
      GrowsTwice(p.out, q.out, r.out, Kept(keyword, f[0]), Print(Remove(keyword, f[1..])),
                 NestedIn(keyword, f[0]), Nested(keyword, f[1..]));
    }
  }

  /** Where every block of the keyword takes several lines, the pass removes them if and only if none is nested. */
  lemma MultilineStripsUnlessNested(keyword: string, f: seq<Node>)
    requires WellPrinted(keyword, f) && Multiline(f)
    ensures Stripped(keyword, Print(f)) == Print(Remove(keyword, f)) <==> !Nested(keyword, f)
  {
    PlainForest(keyword, Pass(false, 0, []), f);
  }

  // ----- inputs that the pass does not get right -----

  /** The definitions above, one node at a time. */
  lemma OneNode(keyword: string, n: Node, f: seq<Node>)
    ensures WellPrinted(keyword, [n] + f) <==> WellPrintedNode(keyword, n) && WellPrinted(keyword, f)
    ensures Nested(keyword, [n] + f) <==> NestedIn(keyword, n) || Nested(keyword, f)
    ensures HasBlock(keyword, [n] + f) <==> HasBlockIn(keyword, n) || HasBlock(keyword, f)
    ensures Multiline([n] + f) <==> MultilineNode(n) && Multiline(f)
    ensures Recovers(keyword, [n] + f) <==>
            RecoversIn(keyword, n) && (n.Inline? ==> f == [] || IsStripped(keyword, f[0])) && Recovers(keyword, f)
    ensures Print(Remove(keyword, [n] + f)) == Kept(keyword, n) + Print(Remove(keyword, f))
    ensures forall p :: FeedAll(keyword, p, Print([n] + f)) == FeedAll(keyword, FeedNode(keyword, p, n), Print(f))
  {
    hide IsHeader, FeedNode, Kept, Feed;
    assert ([n] + f)[1..] == f;
    KeptFirst(keyword, [n] + f);
    forall p
      ensures FeedAll(keyword, p, Print([n] + f)) == FeedAll(keyword, FeedNode(keyword, p, n), Print(f))
    {
      FeedForest(keyword, p, [n] + f);
    }
  }

  predicate IsInline(keyword: string, line: string) {
    IsHeader(keyword, line) && '}' in line
  }

  predicate Opens(line: string) {
    '{' in line && '}' !in line
  }

  predicate Closes(keyword: string, line: string) {
    !IsHeader(keyword, line) && '}' in line && '{' !in line
  }

  /** After a block of the keyword on one line another block is gone, though nothing is nested. */
  lemma InlineTakesTheNextBlock(keyword: string, inline: string, open: string, line: string, close: string)
    requires IsInline(keyword, inline) && !IsHeader(keyword, open) && Opens(open) && Closes(keyword, close)
    requires !IsHeader(keyword, line) && '{' !in line && '}' !in line
    ensures var f := [Inline(inline), Block(open, [Line(line)], close)];
            && WellPrinted(keyword, f) && !Nested(keyword, f) && !Recovers(keyword, f)
            && Print(Remove(keyword, f)) == [open, line, close] && Stripped(keyword, Print(f)) == []
  {
    hide IsHeader;
    var block := Block(open, [Line(line)], close);
    assert [Line(line)] + [] == [Line(line)] && [block] + [] == [block];
    assert [Inline(inline)] + [block] == [Inline(inline), block];
    OneNode(keyword, Line(line), []);
    OneNode(keyword, block, []);
    OneNode(keyword, Inline(inline), [block]);
  }

  /** At the end of another block's body it takes the closing line of that block. */
  lemma InlineTakesTheClosingLine(keyword: string, open: string, inline: string, close: string)
    requires IsInline(keyword, inline) && !IsHeader(keyword, open) && Opens(open) && Closes(keyword, close)
    ensures var f := [Block(open, [Inline(inline)], close)];
            && WellPrinted(keyword, f) && !Nested(keyword, f) && !Recovers(keyword, f)
            && Print(Remove(keyword, f)) == [open, close] && Stripped(keyword, Print(f)) == [open]
  {
    hide IsHeader;
    var block := Block(open, [Inline(inline)], close);
    assert [Inline(inline)] + [] == [Inline(inline)] && [block] + [] == [block];
    OneNode(keyword, Inline(inline), []);
    OneNode(keyword, block, []);
  }

  /** Inside a block of the keyword another one leaves the closing line of the outer one behind. */
  lemma NestedLeavesTheClosingLine(keyword: string, outer: string, inner: string, close: string)
    requires IsHeader(keyword, outer) && Opens(outer) && IsHeader(keyword, inner) && Opens(inner)
    requires Closes(keyword, close)
    ensures var f := [Block(outer, [Block(inner, [], close)], close)];
            && WellPrinted(keyword, f) && Multiline(f) && Nested(keyword, f)
            && Print(Remove(keyword, f)) == [] && Stripped(keyword, Print(f)) == [close]
  {
    hide IsHeader;
    var block := Block(inner, [], close);
    var tree := Block(outer, [block], close);
    assert [block] + [] == [block] && [tree] + [] == [tree];
    OneNode(keyword, block, []);
    OneNode(keyword, tree, []);
  }

  /** With both faults a lost and a left line can cancel out, so neither condition decides alone then. */
  lemma BothFaultsMayCancel(keyword: string, open: string, inline: string, outer: string, inner: string, close: string)
    requires IsInline(keyword, inline) && !IsHeader(keyword, open) && Opens(open) && Closes(keyword, close)
    requires IsHeader(keyword, outer) && Opens(outer) && IsHeader(keyword, inner) && Opens(inner)
    ensures var f := [Block(open, [Inline(inline)], close), Block(outer, [Block(inner, [], close)], close)];
            && WellPrinted(keyword, f) && Nested(keyword, f) && !Recovers(keyword, f)
            && Print(Remove(keyword, f)) == [open, close] == Stripped(keyword, Print(f))
  {
    hide IsHeader;
    var first := Block(open, [Inline(inline)], close);
    var block := Block(inner, [], close);
    var tree := Block(outer, [block], close);
    assert [Inline(inline)] + [] == [Inline(inline)] && [block] + [] == [block] && [tree] + [] == [tree];
    assert [first] + [tree] == [first, tree];
    OneNode(keyword, Inline(inline), []);
    OneNode(keyword, block, []);
    OneNode(keyword, tree, []);
    OneNode(keyword, first, [tree]);
  }

  const PROVIDER := "provider \"random\" {}"
  const RESOURCE := "resource \"random_pet\" \"name\" {"
  const BACKEND := "backend \"s3\" {}"

  lemma OtherFirstCharacter(keyword: string, line: string)
    requires keyword != "" && line != "" && !IsSpace(line[0]) && line[0] != keyword[0]
    ensures !IsHeader(keyword, line)
  {
  }

  lemma TheseAreInline()
    ensures IsInline("provider", PROVIDER) && IsInline("backend", BACKEND)
  {
    hide IsHeader;
    LabelledIsHeader("provider", PROVIDER, "", " ", "random", " ");
    LabelledIsHeader("backend", BACKEND, "", " ", "s3", " ");
    assert PROVIDER[|PROVIDER| - 1] == '}' && BACKEND[|BACKEND| - 1] == '}';
  }

  lemma TheseOpen()
    ensures Opens(RESOURCE) && Opens("terraform {")
    ensures !IsHeader("provider", RESOURCE) && !IsHeader("backend", "terraform {")
  {
    hide IsHeader;
    assert RESOURCE[|RESOURCE| - 1] == '{' && "terraform {"[10] == '{';
    OtherFirstCharacter("provider", RESOURCE);
    OtherFirstCharacter("backend", "terraform {");
  }

  lemma TheseDoNeither()
    ensures Closes("provider", "}") && Closes("backend", "}")
    ensures !IsHeader("provider", "length = 2") && '{' !in "length = 2" && '}' !in "length = 2"
  {
    hide IsHeader;
    OtherFirstCharacter("provider", "}");
    OtherFirstCharacter("backend", "}");
    OtherFirstCharacter("provider", "length = 2");
  }

  /** Ordinary files: an empty provider takes the resource after it, an empty backend a closing brace. */
  lemma OrdinaryFilesLoseLines()
    ensures Stripped("provider", Print([Inline(PROVIDER), Block(RESOURCE, [Line("length = 2")], "}")])) == []
    ensures Stripped("backend", Print([Block("terraform {", [Inline(BACKEND)], "}")])) == ["terraform {"]
  {
    hide IsHeader, Print, Stripped, Opens, Closes, IsInline;
    TheseAreInline();
    TheseOpen();
    TheseDoNeither();
    InlineTakesTheNextBlock("provider", PROVIDER, RESOURCE, "length = 2", "}");
    InlineTakesTheClosingLine("backend", "terraform {", BACKEND, "}");
  }
}
