/**
 * The line classifier of the report viewer (components/ReportViewer.tsx,
 * `MarkdownRenderer`): the report is split on `'\n'`, and each line becomes a heading,
 * a spacer or a paragraph, except that a run of consecutive list lines of one kind
 * becomes a single list with one item per line.
 *
 * `Blocks` states the classification as a recursive definition over the lines;
 * `RenderMarkdown` is the index loop of the source, with its `i++` inside the list
 * loops and the `i--` after them, proved to produce the same blocks. The inline styling
 * of each line (`renderLine`) is not modelled: blocks carry the raw text.
 */
module Markdown {
  import opened Text

  /** What the renderer emits for one or more lines. */
  datatype Block =
    | H1(text: string)
    | H2(text: string)
    | H3(text: string)
    | Bullets(items: seq<string>)   // `<ul>`
    | Numbered(items: seq<string>)  // `<ol>`
    | Spacer                        // the empty `div` for a blank line
    | Paragraph(text: string)

  /** A line that starts (or continues) an unordered list: `'* '` or `'- '` in front. */
  predicate IsBullet(line: string) {
    StartsWith(line, "* ") || StartsWith(line, "- ")
  }

  /** The number of ASCII digits at the start of a line. */
  function LeadingDigits(line: string): (d: nat)
    ensures d <= |line|
    ensures forall k | 0 <= k < d :: IsDigit(line[k])
    ensures d < |line| ==> !IsDigit(line[d])
    decreases |line|
  {
    if line != [] && IsDigit(line[0]) then 1 + LeadingDigits(line[1..]) else 0
  }

  /**
   * A line the pattern `^\d+\.\s` matches: digits, a dot, one white-space character.
   * The digits are all of the leading digits, since a digit is not a dot.
   */
  predicate IsNumbered(line: string) {
    var d := LeadingDigits(line);
    1 <= d && d + 2 <= |line| && line[d] == '.' && IsWhitespace(line[d + 1])
  }

  /** The list item of a bullet line: `line.substring(2)`. */
  function BulletItem(line: string): string
    requires IsBullet(line)
  {
    line[2..]
  }

  /** The list item of a numbered line: the line with its matched prefix removed. */
  function NumberedItem(line: string): string
    requires IsNumbered(line)
  {
    line[LeadingDigits(line) + 2..]
  }

  /** The number of lines at the front of `lines` that satisfy `isItem`. */
  function RunLength(lines: seq<string>, isItem: string -> bool): (n: nat)
    ensures n <= |lines|
    ensures lines != [] && isItem(lines[0]) ==> n >= 1
    decreases |lines|
  {
    if lines != [] && isItem(lines[0]) then 1 + RunLength(lines[1..], isItem) else 0
  }

  /** The run really is the maximal prefix of item lines. */
  lemma {:induction false} RunLengthIsMaximal(lines: seq<string>, isItem: string -> bool)
    ensures var n := RunLength(lines, isItem);
      && (forall k | 0 <= k < n :: isItem(lines[k]))
      && (n < |lines| ==> !isItem(lines[n]))
    decreases |lines|
  {
    if lines != [] && isItem(lines[0]) {
      RunLengthIsMaximal(lines[1..], isItem);
      var n := RunLength(lines, isItem);
      forall k | 0 <= k < n
        ensures isItem(lines[k])
      {
        if k > 0 {
          assert lines[k] == lines[1..][k - 1];
        }
      }
    }
  }

  /** A prefix of item lines followed by a non-item line (or the end) is the run. */
  lemma {:induction false} RunLengthOfMaximalPrefix(lines: seq<string>, isItem: string -> bool, n: nat)
    requires n <= |lines|
    requires forall k | 0 <= k < n :: isItem(lines[k])
    requires n < |lines| ==> !isItem(lines[n])
    ensures RunLength(lines, isItem) == n
    decreases n
  {
    if n > 0 {
      RunLengthOfMaximalPrefix(lines[1..], isItem, n - 1);
    }
  }

  function BulletItems(lines: seq<string>): (items: seq<string>)
    requires forall k | 0 <= k < |lines| :: IsBullet(lines[k])
  {
    seq(|lines|, k requires 0 <= k < |lines| => BulletItem(lines[k]))
  }

  function NumberedItems(lines: seq<string>): (items: seq<string>)
    requires forall k | 0 <= k < |lines| :: IsNumbered(lines[k])
  {
    seq(|lines|, k requires 0 <= k < |lines| => NumberedItem(lines[k]))
  }

  /**
   * The block the first line starts, and how many lines it takes. The heading tests
   * come first, longest marker first; then a bullet run, then a numbered run, each
   * taken whole; anything else is a spacer when `trim` leaves nothing and a paragraph
   * otherwise.
   */
  function Head(lines: seq<string>): (r: (Block, nat))
    requires lines != []
    ensures 1 <= r.1 <= |lines|
  {
    var line := lines[0];
    if StartsWith(line, "### ") then (H3(line[4..]), 1)
    else if StartsWith(line, "## ") then (H2(line[3..]), 1)
    else if StartsWith(line, "# ") then (H1(line[2..]), 1)
    else if IsBullet(line) then
      var n := RunLength(lines, IsBullet);
      RunLengthIsMaximal(lines, IsBullet);
      (Bullets(BulletItems(lines[..n])), n)
    else if IsNumbered(line) then
      var n := RunLength(lines, IsNumbered);
      RunLengthIsMaximal(lines, IsNumbered);
      (Numbered(NumberedItems(lines[..n])), n)
    else if Trim(line) == "" then (Spacer, 1)
    else (Paragraph(line), 1)
  }

  /** The blocks for a list of lines: the first block, then the blocks of what it leaves. */
  function Blocks(lines: seq<string>): seq<Block>
    decreases |lines|
  {
    if lines == [] then []
    else
      var (b, n) := Head(lines);
      [b] + Blocks(lines[n..])
  }

  /** The loop's invariant survives one pass that pushes the head block of `lines[i..]`. */
  lemma BlocksStep(lines: seq<string>, i: nat, elements: seq<Block>, block: Block, last: nat)
    requires i <= last < |lines|
    requires Blocks(lines) == elements + Blocks(lines[i..])
    requires (block, last + 1 - i) == Head(lines[i..])
    ensures Blocks(lines) == (elements + [block]) + Blocks(lines[last + 1..])
  {
    var rest := lines[i..];
    BlocksFromHead(rest);
    assert rest[last + 1 - i..] == lines[last + 1..];
    PushBlock(Blocks(lines), elements, Blocks(rest), block, Blocks(lines[last + 1..]));
  }

  /** Pushing the head of what is left onto what is done. */
  lemma PushBlock(whole: seq<Block>, done: seq<Block>, left: seq<Block>, block: Block, after: seq<Block>)
    requires whole == done + left && left == [block] + after
    ensures whole == (done + [block]) + after
  {
  }

  /** The blocks of non-empty lines: the head block, then the blocks after it. */
  lemma BlocksFromHead(lines: seq<string>)
    requires lines != []
    ensures Head(lines).1 <= |lines| && Blocks(lines) == [Head(lines).0] + Blocks(lines[Head(lines).1..])
  {
  }

  /**
   * The inner `while` of a list branch: from `start`, the index past the run of item
   * lines, one `substring(2)` item per line.
   */
  method CollectBullets(lines: seq<string>, start: nat) returns (items: seq<string>, i: nat)
    requires start < |lines| && IsBullet(lines[start])
    ensures start < i <= |lines|
    ensures i - start == RunLength(lines[start..], IsBullet)
    ensures forall k | start <= k < i :: IsBullet(lines[k])
    ensures items == BulletItems(lines[start..i])
  {
    i := start;
    items := [];
    while i < |lines| && IsBullet(lines[i])
      invariant start <= i <= |lines|
      invariant forall k | start <= k < i :: IsBullet(lines[k])
      invariant items == BulletItems(lines[start..i])
      decreases |lines| - i
    {
      items := items + [BulletItem(lines[i])];
      i := i + 1;
    }
    RunLengthOfMaximalPrefix(lines[start..], IsBullet, i - start);
  }

  /** The inner `while` of the numbered-list branch, as `CollectBullets`. */
  method CollectNumbered(lines: seq<string>, start: nat) returns (items: seq<string>, i: nat)
    requires start < |lines| && IsNumbered(lines[start])
    ensures start < i <= |lines|
    ensures i - start == RunLength(lines[start..], IsNumbered)
    ensures forall k | start <= k < i :: IsNumbered(lines[k])
    ensures items == NumberedItems(lines[start..i])
  {
    i := start;
    items := [];
    while i < |lines| && IsNumbered(lines[i])
      invariant start <= i <= |lines|
      invariant forall k | start <= k < i :: IsNumbered(lines[k])
      invariant items == NumberedItems(lines[start..i])
      decreases |lines| - i
    {
      items := items + [NumberedItem(lines[i])];
      i := i + 1;
    }
    RunLengthOfMaximalPrefix(lines[start..], IsNumbered, i - start);
  }

  /**
   * One pass of `MarkdownRenderer`'s loop body from line `i`: the block it pushes and
   * the index it leaves in `i` for the loop's `i++`, which after a list is the run's
   * last line (the `i--`).
   */
  method NextBlock(lines: seq<string>, i: nat) returns (block: Block, last: nat)
    requires i < |lines|
    ensures i <= last < |lines|
    ensures (block, last + 1 - i) == Head(lines[i..])
  {
    var line := lines[i];
    ghost var rest := lines[i..];
    assert rest[0] == line;
    if StartsWith(line, "### ") {
      block, last := H3(line[4..]), i;
    } else if StartsWith(line, "## ") {
      block, last := H2(line[3..]), i;
    } else if StartsWith(line, "# ") {
      block, last := H1(line[2..]), i;
    } else if IsBullet(line) {
      var items, j := CollectBullets(lines, i);
      assert rest[..j - i] == lines[i..j];
      j := j - 1;
      block, last := Bullets(items), j;
    } else if IsNumbered(line) {
      var items, j := CollectNumbered(lines, i);
      assert rest[..j - i] == lines[i..j];
      j := j - 1;
      block, last := Numbered(items), j;
    } else if Trim(line) == "" {
      block, last := Spacer, i;
    } else {
      block, last := Paragraph(line), i;
    }
  }

  /** `MarkdownRenderer`'s loop over `content.split('\n')`. */
  method RenderMarkdown(content: string) returns (elements: seq<Block>)
    ensures elements == Blocks(Split(content, "\n"))
  {
    var lines := Split(content, "\n");
    elements := [];
    var i := 0;
    while i < |lines|
      invariant 0 <= i <= |lines|
      invariant Blocks(lines) == elements + Blocks(lines[i..])
      decreases |lines| - i
    {
      var block, last := NextBlock(lines, i);
      BlocksStep(lines, i, elements, block, last);
      elements := elements + [block];
      i := last + 1;
    }
    assert lines[i..] == [];
  }

  // ---------------------------------------------------------------------------
  // Properties

  /** The number of lines a block stands for. */
  function LinesOf(b: Block): nat {
    match b
    case Bullets(items) => |items|
    case Numbered(items) => |items|
    case _ => 1
  }

  function TotalLines(blocks: seq<Block>): nat
    decreases |blocks|
  {
    if blocks == [] then 0 else LinesOf(blocks[0]) + TotalLines(blocks[1..])
  }

  lemma {:induction false} TotalLinesAppend(a: seq<Block>, b: seq<Block>)
    ensures TotalLines(a + b) == TotalLines(a) + TotalLines(b)
    decreases |a|
  {
    if a == [] {
      assert a + b == b;
    } else {
      assert (a + b)[0] == a[0] && (a + b)[1..] == a[1..] + b;
      TotalLinesAppend(a[1..], b);
    }
  }

  /** What the first block says about the lines it took and the line after them. */
  lemma HeadFacts(lines: seq<string>)
    requires lines != []
    ensures var (b, n) := Head(lines);
      && (b.Bullets? ==> IsBullet(lines[0]) && |b.items| == n && (n < |lines| ==> !IsBullet(lines[n])))
      && (b.Numbered? ==> IsNumbered(lines[0]) && |b.items| == n && (n < |lines| ==> !IsNumbered(lines[n])))
      && (!b.Bullets? && !b.Numbered? ==> n == 1)
  {
    RunLengthIsMaximal(lines, IsBullet);
    RunLengthIsMaximal(lines, IsNumbered);
  }

  /** Every line is consumed exactly once: the blocks stand for as many lines as there are. */
  lemma {:induction false} EveryLineConsumedOnce(lines: seq<string>)
    ensures TotalLines(Blocks(lines)) == |lines|
    decreases |lines|
  {
    if lines != [] {
      var (b, n) := Head(lines);
      HeadFacts(lines);
      EveryLineConsumedOnce(lines[n..]);
      TotalLinesAppend([b], Blocks(lines[n..]));
    }
  }

  /** For every list, its length minus one: the lines it takes beyond its one block. */
  function ListSurplus(blocks: seq<Block>): int
    decreases |blocks|
  {
    if blocks == [] then 0
    else
      (match blocks[0]
       case Bullets(items) => |items| - 1
       case Numbered(items) => |items| - 1
       case _ => 0)
      + ListSurplus(blocks[1..])
  }

  /** The lines blocks stand for are one per block plus the surplus of the lists. */
  lemma {:induction false} LinesAreBlocksPlusSurplus(blocks: seq<Block>)
    ensures TotalLines(blocks) == |blocks| + ListSurplus(blocks)
    decreases |blocks|
  {
    if blocks != [] {
      LinesAreBlocksPlusSurplus(blocks[1..]);
    }
  }

  /**
   * The renderer emits as many blocks as there are lines, less, for every list, its
   * length minus one.
   */
  lemma BlockCount(lines: seq<string>)
    ensures |Blocks(lines)| == |lines| - ListSurplus(Blocks(lines))
  {
    EveryLineConsumedOnce(lines);
    LinesAreBlocksPlusSurplus(Blocks(lines));
  }

  /**
   * A heading keeps the line's text after its marker, and the marker it took is the
   * longest that matches: the tests run from `### ` down to `# `.
   */
  lemma HeadingsGiveBackTheirLine(lines: seq<string>)
    requires lines != []
    ensures Head(lines).0.H3? ==> lines[0] == "### " + Head(lines).0.text
    ensures Head(lines).0.H2? ==> lines[0] == "## " + Head(lines).0.text && !StartsWith(lines[0], "### ")
    ensures Head(lines).0.H1? ==>
      && lines[0] == "# " + Head(lines).0.text
      && !StartsWith(lines[0], "### ") && !StartsWith(lines[0], "## ")
    ensures StartsWith(lines[0], "# ") ==> Head(lines).0.H1? || Head(lines).0.H2? || Head(lines).0.H3?
  {
    var line := lines[0];
    if StartsWith(line, "### ") {
      assert line == line[..4] + line[4..];
    } else if StartsWith(line, "## ") {
      assert line == line[..3] + line[3..];
    } else if StartsWith(line, "# ") {
      assert line == line[..2] + line[2..];
    }
  }

  /** Every list has at least one item. */
  predicate ListsNonEmpty(blocks: seq<Block>) {
    forall k | 0 <= k < |blocks| :: (blocks[k].Bullets? || blocks[k].Numbered?) ==> |blocks[k].items| >= 1
  }

  /** No list directly follows a list of the same kind: runs are grouped whole. */
  predicate RunsGrouped(blocks: seq<Block>) {
    forall k | 0 <= k < |blocks| - 1 ::
      && (blocks[k].Bullets? ==> !blocks[k + 1].Bullets?)
      && (blocks[k].Numbered? ==> !blocks[k + 1].Numbered?)
  }

  /** The blocks of any lines have non-empty lists, and no two same-kind lists adjoin. */
  lemma {:induction false} ListsAreMaximalRuns(lines: seq<string>)
    ensures ListsNonEmpty(Blocks(lines))
    ensures RunsGrouped(Blocks(lines))
    decreases |lines|
  {
    if lines != [] {
      var (b, n) := Head(lines);
      HeadFacts(lines);
      var tail := Blocks(lines[n..]);
      var bs := [b] + tail;
      assert Blocks(lines) == bs;
      ListsAreMaximalRuns(lines[n..]);
      if tail != [] {
        HeadFacts(lines[n..]);
        assert lines[n..][0] == lines[n];
        assert b.Bullets? ==> !tail[0].Bullets?;
        assert b.Numbered? ==> !tail[0].Numbered?;
      }
      forall k | 0 <= k < |bs|
        ensures (bs[k].Bullets? || bs[k].Numbered?) ==> |bs[k].items| >= 1
      {
        if k > 0 {
          assert bs[k] == tail[k - 1];
        }
      }
      forall k | 0 <= k < |bs| - 1
        ensures && (bs[k].Bullets? ==> !bs[k + 1].Bullets?)
                && (bs[k].Numbered? ==> !bs[k + 1].Numbered?)
      {
        if k > 0 {
          assert bs[k] == tail[k - 1] && bs[k + 1] == tail[k];
        }
      }
    }
  }

  /** A line that starts with a longer prefix starts with each of its prefixes. */
  lemma StartsWithPrefix(line: string, longer: string, shorter: string)
    requires StartsWith(longer, shorter)
    ensures StartsWith(line, longer) ==> StartsWith(line, shorter)
  {
  }

  /** Four hashes make a paragraph, not a heading: the tests want the marker and a space. */
  lemma FourHashesMakeAParagraph()
    ensures Head(["####x"]) == (Paragraph("####x"), 1)
  {
    var line := "####x";
    assert "### "[3] != line[3] && "## "[2] != line[2] && "# "[1] != line[1];
    assert !IsDigit(line[0]) && line[0] != '*' && line[0] != '-';
    assert !IsWhitespace(line[0]) && !IsWhitespace(line[4]);
  }

  /** A hash without a space makes a paragraph. */
  lemma HashWithoutSpaceMakesAParagraph()
    ensures Head(["#x"]) == (Paragraph("#x"), 1)
  {
    var line := "#x";
    assert "### "[1] != line[1] && "## "[1] != line[1] && "# "[1] != line[1];
    assert !IsDigit(line[0]) && line[0] != '*' && line[0] != '-';
    assert !IsWhitespace(line[0]) && !IsWhitespace(line[1]);
  }

  /** A single line of white space is a spacer; any other plain line a paragraph. */
  lemma SpacerIffBlank(line: string)
    requires !StartsWith(line, "#") && !IsBullet(line) && !IsNumbered(line)
    ensures Blocks([line]) == (if IsBlank(line) then [Spacer] else [Paragraph(line)])
  {
    TrimEmptyIffBlank(line);
    StartsWithPrefix(line, "### ", "#");
    StartsWithPrefix(line, "## ", "#");
    StartsWithPrefix(line, "# ", "#");
    assert [line][1..] == [];
  }
}
