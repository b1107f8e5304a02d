/** Markdown tables in a text: found by their separator lines, counted, and the oldest
    dropped when a card may not hold them all. */
module MarkdownTables {
  import opened Texts

  const MAX_TABLES: nat := 5

  const NEWLINE: CodeUnit := 10
  const PIPE: CodeUnit := 0x7C
  const HASH: CodeUnit := 0x23

  // ---- lines ----

  function TrimStart(s: Text): Text {
    if s != [] && IsSpace(s[0]) then TrimStart(s[1..]) else s
  }

  function TrimEnd(s: Text): Text {
    if s != [] && IsSpace(s[|s| - 1]) then TrimEnd(s[..|s| - 1]) else s
  }

  function Trim(s: Text): Text {
    TrimEnd(TrimStart(s))
  }

  /** `text.split('\n')`. */
  function Split(s: Text): (r: seq<Text>)
    ensures r != []
  {
    if s == [] then [[]]
    else
      var r := Split(s[1..]);
      if s[0] == NEWLINE then [[]] + r else [[s[0]] + r[0]] + r[1..]
  }

  /** `lines.join('\n')`. */
  function Join(lines: seq<Text>): Text {
    if lines == [] then []
    else if |lines| == 1 then lines[0]
    else lines[0] + [NEWLINE] + Join(lines[1..])
  }

  predicate IsLine(s: Text) {
    NEWLINE !in s
  }

  lemma {:induction false} SplitGivesLines(s: Text)
    ensures forall i | 0 <= i < |Split(s)| :: IsLine(Split(s)[i])
  {
    if s != [] {
      SplitGivesLines(s[1..]);
    }
  }

  lemma {:induction false} JoinOfSplit(s: Text)
    ensures Join(Split(s)) == s
  {
    if s != [] {
      JoinOfSplit(s[1..]);
      var r := Split(s[1..]);
      if s[0] == NEWLINE {
        assert ([[]] + r)[1..] == r;
      } else {
        assert ([[s[0]] + r[0]] + r[1..])[1..] == r[1..];
      }
    }
  }

  lemma {:induction false} SplitOfLine(line: Text, rest: Text)
    requires IsLine(line)
    ensures Split(line) == [line]
    ensures Split(line + [NEWLINE] + rest) == [line] + Split(rest)
  {
    if line == [] {
      assert line + [NEWLINE] + rest == [NEWLINE] + rest;
    } else {
      SplitOfLine(line[1..], rest);
      assert [line[0]] + line[1..] == line;
      assert [line] + [] == [line];
      assert (line + [NEWLINE] + rest)[1..] == line[1..] + [NEWLINE] + rest;
    }
  }

  /** Lines survive joining and splitting; no lines at all come back as a blank one. */
  lemma {:induction false} SplitOfJoin(lines: seq<Text>)
    requires forall i | 0 <= i < |lines| :: IsLine(lines[i])
    ensures Split(Join(lines)) == if lines == [] then [[]] else lines
  {
    if |lines| == 1 {
      SplitOfLine(lines[0], []);
    } else if |lines| > 1 {
      SplitOfLine(lines[0], Join(lines[1..]));
      SplitOfJoin(lines[1..]);
    }
  }

  // ---- tables ----

  /** `|` followed by one or more of `-`, `:`, space and `|`. */
  predicate IsSeparator(line: Text) {
    var t := Trim(line);
    |t| >= 2 && t[0] == PIPE && forall i | 1 <= i < |t| :: t[i] == 0x2D || t[i] == 0x3A || t[i] == 0x20 || t[i] == PIPE
  }

  predicate IsRow(line: Text) {
    var t := Trim(line);
    t != [] && t[0] == PIPE
  }

  /** How many `#` the text begins with. */
  function Hashes(s: Text): (n: nat)
    ensures n <= |s|
  {
    if s != [] && s[0] == HASH then 1 + Hashes(s[1..]) else 0
  }

  /** Blank, or a heading: one to six `#` and a space. */
  predicate IsPreamble(line: Text) {
    var t := Trim(line);
    t == [] || (1 <= Hashes(t) <= 6 && Hashes(t) < |t| && IsSpace(t[Hashes(t)]))
  }

  lemma SeparatorIsRow(line: Text)
    ensures IsSeparator(line) ==> IsRow(line)
    ensures IsRow(line) ==> !IsPreamble(line)
  {
  }

  function CountUpTo(lines: seq<Text>, n: nat): (c: nat)
    requires n <= |lines|
    ensures c <= n
  {
    if n == 0 then 0 else CountUpTo(lines, n - 1) + if IsSeparator(lines[n - 1]) then 1 else 0
  }

  /** How many tables: one for each separator line. */
  function CountTables(lines: seq<Text>): nat {
    CountUpTo(lines, |lines|)
  }

  function Tables(text: Text): nat {
    CountTables(Split(text))
  }

  method CountMarkdownTables(text: Text) returns (count: nat)
    ensures count == Tables(text)
  {
    var lines := Split(text);
    count := 0;
    for i := 0 to |lines|
      invariant count == CountUpTo(lines, i)
    {
      if IsSeparator(lines[i]) {
        count := count + 1;
      }
    }
  }

  /** From the first line to remove to the first line after. */
  datatype TableBlock = TableBlock(start: nat, end: nat)

  function ExpandUp(lines: seq<Text>, start: nat): (r: nat)
    requires start < |lines|
    ensures r <= start
    ensures forall i | r <= i < start :: IsPreamble(lines[i])
    ensures r == 0 || !IsPreamble(lines[r - 1])
  {
    if start > 0 && IsPreamble(lines[start - 1]) then ExpandUp(lines, start - 1) else start
  }

  function ExpandDown(lines: seq<Text>, end: nat): (r: nat)
    requires end <= |lines|
    ensures end <= r <= |lines|
    ensures forall i | end <= i < r :: IsRow(lines[i])
    ensures r == |lines| || !IsRow(lines[r])
    decreases |lines| - end
  {
    if end < |lines| && IsRow(lines[end]) then ExpandDown(lines, end + 1) else end
  }

  /** The block of the separator line `sep`: its header, the blank lines and headings
      above, and the rows below. */
  function BlockOf(lines: seq<Text>, sep: nat): (b: TableBlock)
    requires 1 <= sep < |lines|
    ensures b.start < sep < b.end <= |lines|
  {
    TableBlock(ExpandUp(lines, sep - 1), ExpandDown(lines, sep + 1))
  }

  /** Separator lines below `n` that have a header line above. */
  function SepsUpTo(lines: seq<Text>, n: nat): (r: seq<nat>)
    requires n <= |lines|
    ensures |r| <= n && forall i | 0 <= i < |r| :: 1 <= r[i] < n && IsSeparator(lines[r[i]])
    ensures forall i, j | 0 <= i < j < |r| :: r[i] < r[j]
  {
    if n <= 1 then []
    else SepsUpTo(lines, n - 1) + if IsSeparator(lines[n - 1]) then [n - 1] else []
  }

  function Seps(lines: seq<Text>): (r: seq<nat>)
    ensures forall i | 0 <= i < |r| :: 1 <= r[i] < |lines| && IsSeparator(lines[r[i]])
  {
    SepsUpTo(lines, |lines|)
  }

  function Blocks(lines: seq<Text>): (r: seq<TableBlock>)
    ensures |r| == |Seps(lines)|
    ensures forall i | 0 <= i < |r| :: r[i] == BlockOf(lines, Seps(lines)[i]) && r[i].start < r[i].end <= |lines|
  {
    seq(|Seps(lines)|, i requires 0 <= i < |Seps(lines)| => BlockOf(lines, Seps(lines)[i]))
  }

  method FindStart(lines: seq<Text>, header: nat) returns (start: nat)
    requires header < |lines|
    ensures start == ExpandUp(lines, header)
  {
    hide IsPreamble;
    start := header;
    while start > 0
      invariant start <= header && ExpandUp(lines, header) == ExpandUp(lines, start)
    {
      if IsPreamble(lines[start - 1]) {
        start := start - 1;
      } else {
        break;
      }
    }
  }

  method FindEnd(lines: seq<Text>, first: nat) returns (end: nat)
    requires first <= |lines|
    ensures end == ExpandDown(lines, first)
  {
    hide IsRow;
    end := first;
    while end < |lines| && IsRow(lines[end])
      invariant end <= |lines| && ExpandDown(lines, first) == ExpandDown(lines, end)
      decreases |lines| - end
    {
      end := end + 1;
    }
  }

  method FindMarkdownTableBlocks(lines: seq<Text>) returns (blocks: seq<TableBlock>)
    ensures blocks == Blocks(lines)
  {
    hide IsSeparator, IsPreamble, IsRow;
    blocks := [];
    for sepIdx := 0 to |lines|
      invariant |blocks| == |SepsUpTo(lines, sepIdx)|
      invariant forall i | 0 <= i < |blocks| :: blocks[i] == BlockOf(lines, SepsUpTo(lines, sepIdx)[i])
    {
      if !IsSeparator(lines[sepIdx]) {
        continue;
      }
      if sepIdx == 0 {
        continue;
      }
      var start := FindStart(lines, sepIdx - 1);
      var end := FindEnd(lines, sepIdx + 1);
      blocks := blocks + [TableBlock(start, end)];
    }
  }

  /** Of two tables, the later one begins where the earlier has ended, or lies inside
      it and ends with it. */
  lemma BlocksNest(lines: seq<Text>, s: nat, t: nat)
    requires 1 <= s < t < |lines| && IsSeparator(lines[s]) && IsSeparator(lines[t])
    ensures var a, b := BlockOf(lines, s), BlockOf(lines, t);
            a.start <= b.start && a.end <= b.end && (a.end <= b.start || (a.end == b.end && t < a.end))
  {
    var a, b := BlockOf(lines, s), BlockOf(lines, t);
    SeparatorIsRow(lines[s]);
    SeparatorIsRow(lines[t]);
    SeparatorIsRow(lines[a.end - 1]);
    if t < a.end {
      DownMeets(lines, s + 1, t + 1);
      UpMeets(lines, s - 1, t - 1);
    }
  }

  lemma DownMeets(lines: seq<Text>, i: nat, j: nat)
    requires i <= |lines| && i <= j <= ExpandDown(lines, i)
    ensures ExpandDown(lines, i) == ExpandDown(lines, j)
    decreases |lines| - i
  {
    if i < j {
      DownMeets(lines, i + 1, j);
    }
  }

  lemma UpMeets(lines: seq<Text>, i: nat, j: nat)
    requires i <= j < |lines| && i + 1 < |lines| && !IsPreamble(lines[i + 1])
    ensures ExpandUp(lines, i) <= ExpandUp(lines, j)
  {
  }

  // ---- dropping the oldest ----

  predicate Covered(blocks: seq<TableBlock>, i: nat) {
    exists j :: 0 <= j < |blocks| && blocks[j].start <= i < blocks[j].end
  }

  /** The lines below `n` that lie in none of the blocks. */
  function Outside(lines: seq<Text>, blocks: seq<TableBlock>, n: nat): (r: seq<Text>)
    requires n <= |lines|
  {
    if n == 0 then []
    else Outside(lines, blocks, n - 1) + if Covered(blocks, n - 1) then [] else [lines[n - 1]]
  }

  /** No block of the first `n` begins inside the one before it. */
  predicate Apart(blocks: seq<TableBlock>, n: nat)
    requires n <= |blocks|
  {
    forall j | 1 <= j < n :: blocks[j - 1].end <= blocks[j].start
  }

  const HINT_BEFORE: Text := [0x5F, 0xD83D, 0xDCA1, 0x20, 0x524D, 0x20]
  const HINT_AFTER: Text := [0x20, 0x4E2A, 0x8868, 0x683C, 0x5DF2, 0x7701, 0x7565, 0x5F]

  /** `_💡 前 n 个表格已省略_` */
  function Hint(n: nat): Text {
    HINT_BEFORE + Decimal(n) + HINT_AFTER
  }

  /** The lines that remain when `blocks` go. Where they lie apart a hint stands in
      the place of the last; where two overlap there is none. */
  function Remaining(lines: seq<Text>, blocks: seq<TableBlock>): seq<Text>
    requires blocks != [] && blocks[|blocks| - 1].end <= |lines|
  {
    if Apart(blocks, |blocks|)
    then Outside(lines, blocks, blocks[|blocks| - 1].end) + [Hint(|blocks|)] + lines[blocks[|blocks| - 1].end..]
    else Outside(lines, blocks, |lines|)
  }

  function Dropped(lines: seq<Text>, maxDrop: int): seq<Text>
    requires maxDrop > 0 && Blocks(lines) != []
  {
    Remaining(lines, Blocks(lines)[..Min(maxDrop, |Blocks(lines)|)])
  }

  /** Blocks in document order, each beginning after the one before has ended or
      lying in it to its end: what `Blocks` gives, and any first part of it. */
  predicate Nested(lines: seq<Text>, blocks: seq<TableBlock>) {
    && (forall j | 0 <= j < |blocks| :: blocks[j].start < blocks[j].end <= |lines|)
    && (forall i, j | 0 <= i < j < |blocks| ::
          && blocks[i].start <= blocks[j].start && blocks[i].end <= blocks[j].end
          && (blocks[i].end <= blocks[j].start || blocks[i].end == blocks[j].end))
  }

  lemma BlocksAreNested(lines: seq<Text>, k: nat)
    requires k <= |Blocks(lines)|
    ensures Nested(lines, Blocks(lines)[..k])
  {
    var blocks := Blocks(lines)[..k];
    hide IsSeparator;
    forall i, j | 0 <= i < j < |blocks|
      ensures && blocks[i].start <= blocks[j].start && blocks[i].end <= blocks[j].end
              && (blocks[i].end <= blocks[j].start || blocks[i].end == blocks[j].end)
    {
      BlocksNest(lines, Seps(lines)[i], Seps(lines)[j]);
    }
  }

  lemma {:induction false} OutsideSkips(lines: seq<Text>, blocks: seq<TableBlock>, i: nat, j: nat)
    requires i <= j <= |lines| && forall k | i <= k < j :: Covered(blocks, k)
    ensures Outside(lines, blocks, j) == Outside(lines, blocks, i)
  {
    if i < j {
      OutsideSkips(lines, blocks, i, j - 1);
    }
  }

  lemma {:induction false} OutsideTail(lines: seq<Text>, blocks: seq<TableBlock>, i: nat, j: nat)
    requires i <= j <= |lines| && forall k | i <= k < j :: !Covered(blocks, k)
    ensures Outside(lines, blocks, j) == Outside(lines, blocks, i) + lines[i..j]
  {
    if i < j {
      OutsideTail(lines, blocks, i, j - 1);
      assert lines[i..j] == lines[i..j - 1] + [lines[j - 1]];
    }
  }

  /** The walk stands at line `i`: `seen` blocks begin above it and have ended, `dropped`
      of them were met, and `result` is what remains so far. */
  ghost predicate Walk(lines: seq<Text>, blocks: seq<TableBlock>, i: nat, seen: nat, dropped: nat, result: seq<Text>) {
    && blocks != [] && i <= |lines| && seen <= |blocks| && dropped <= seen
    && (forall j | 0 <= j < seen :: blocks[j].start < i && blocks[j].end <= i)
    && (forall j | seen <= j < |blocks| :: i <= blocks[j].start)
    && (dropped == seen <==> Apart(blocks, seen))
    && result == if dropped == |blocks|
                 then Outside(lines, blocks, blocks[|blocks| - 1].end) + [Hint(|blocks|)] + lines[blocks[|blocks| - 1].end..i]
                 else Outside(lines, blocks, i)
  }

  lemma WalkLine(lines: seq<Text>, blocks: seq<TableBlock>, i: nat, seen: nat, dropped: nat, result: seq<Text>)
    requires Walk(lines, blocks, i, seen, dropped, result) && i < |lines|
    requires forall j | 0 <= j < |blocks| :: blocks[j].start != i
    ensures Walk(lines, blocks, i + 1, seen, dropped, result + [lines[i]])
  {
    assert !Covered(blocks, i);
    if dropped == |blocks| {
      var end := blocks[|blocks| - 1].end;
      assert lines[end..i + 1] == lines[end..i] + [lines[i]];
    }
  }

  lemma WalkBlock(lines: seq<Text>, blocks: seq<TableBlock>, i: nat, seen: nat, dropped: nat, result: seq<Text>, m: nat)
    requires Walk(lines, blocks, i, seen, dropped, result) && Nested(lines, blocks) && i < |lines|
    requires m < |blocks| && blocks[m].start == i
    ensures var end := blocks[m].end;
            && i < end <= |lines|
            && Walk(lines, blocks, end, BegunBefore(blocks, end, seen), dropped + 1,
                    if dropped + 1 == |blocks| then result + [Hint(dropped + 1)] else result)
  {
    hide *;
    WalkFacts(lines, blocks, i, seen, dropped, result);
    StartsAt(lines, blocks, i, seen, m);
    var end := blocks[m].end;
    var next := BegunBefore(blocks, end, seen);
    StepOver(lines, blocks, seen, next);
    StepApart(lines, blocks, seen, next);
    OutsideSkips(lines, blocks, i, end);
    WalkHolds(lines, blocks, end, next, dropped + 1, if dropped + 1 == |blocks| then result + [Hint(dropped + 1)] else result);
  }

  lemma WalkFacts(lines: seq<Text>, blocks: seq<TableBlock>, i: nat, seen: nat, dropped: nat, result: seq<Text>)
    requires Walk(lines, blocks, i, seen, dropped, result)
    ensures i <= |lines| && seen <= |blocks| && dropped <= seen
    ensures forall j | 0 <= j < seen :: blocks[j].start < i && blocks[j].end <= i
    ensures forall j | seen <= j < |blocks| :: i <= blocks[j].start
    ensures dropped == seen <==> Apart(blocks, seen)
    ensures dropped < |blocks| ==> result == Outside(lines, blocks, i)
  {
    hide Apart, Outside;
  }

  lemma WalkHolds(lines: seq<Text>, blocks: seq<TableBlock>, i: nat, seen: nat, dropped: nat, result: seq<Text>)
    requires blocks != [] && i <= |lines| && seen <= |blocks| && dropped <= seen
    requires forall j | 0 <= j < seen :: blocks[j].start < i && blocks[j].end <= i
    requires forall j | seen <= j < |blocks| :: i <= blocks[j].start
    requires dropped == seen <==> Apart(blocks, seen)
    requires if dropped == |blocks|
             then blocks[|blocks| - 1].end == i && result == Outside(lines, blocks, i) + [Hint(|blocks|)]
             else result == Outside(lines, blocks, i)
    ensures Walk(lines, blocks, i, seen, dropped, result)
  {
    hide Apart, Outside;
    assert lines[i..i] == [];
  }

  lemma WalkEnds(lines: seq<Text>, blocks: seq<TableBlock>, seen: nat, dropped: nat, result: seq<Text>)
    requires Walk(lines, blocks, |lines|, seen, dropped, result) && Nested(lines, blocks)
    ensures result == Remaining(lines, blocks)
  {
    hide Apart, Nested;
    if seen < |blocks| {
      NestedAt(lines, blocks, seen, seen);
    }
    var end := blocks[|blocks| - 1].end;
    assert lines[end..|lines|] == lines[end..];
  }

  lemma WalkStarts(lines: seq<Text>, blocks: seq<TableBlock>)
    requires blocks != []
    ensures Walk(lines, blocks, 0, 0, 0, [])
  {
  }

  /** Where two blocks begin on the same line the later one stands in the map. */
  method MapByStart(blocks: seq<TableBlock>) returns (blockByStart: map<nat, TableBlock>)
    ensures forall m | 0 <= m < |blocks| :: blocks[m].start in blockByStart
    ensures forall s | s in blockByStart :: blockByStart[s].start == s && blockByStart[s] in blocks
  {
    blockByStart := map[];
    for j := 0 to |blocks|
      invariant forall m | 0 <= m < j :: blocks[m].start in blockByStart
      invariant forall s | s in blockByStart :: blockByStart[s].start == s && blockByStart[s] in blocks
    {
      blockByStart := blockByStart[blocks[j].start := blocks[j]];
    }
  }

  /** The source's walk over the lines. */
  method RemoveBlocks(lines: seq<Text>, blocks: seq<TableBlock>) returns (result: seq<Text>)
    requires blocks != [] && Nested(lines, blocks)
    ensures result == Remaining(lines, blocks)
  {
    hide Walk, Nested, Remaining;
    var blockByStart := MapByStart(blocks);
    result := [];
    var i: nat := 0;
    var dropped: nat := 0;
    ghost var seen: nat := 0;
    WalkStarts(lines, blocks);
    while i < |lines|
      invariant i <= |lines| && seen <= |blocks| && Walk(lines, blocks, i, seen, dropped, result)
      decreases |lines| - i
    {
      if i in blockByStart {
        var block := blockByStart[i];
        ghost var m: nat :| m < |blocks| && blocks[m] == block;
        WalkBlock(lines, blocks, i, seen, dropped, result, m);
        seen := BegunBefore(blocks, block.end, seen);
        dropped := dropped + 1;
        i := block.end;
        if dropped == |blocks| {
          result := result + [Hint(dropped)];
        }
      } else {
        WalkLine(lines, blocks, i, seen, dropped, result);
        result := result + [lines[i]];
        i := i + 1;
      }
    }
    WalkEnds(lines, blocks, seen, dropped, result);
  }

  /** The first block at or after `n` that begins at `x` or later. */
  function BegunBefore(blocks: seq<TableBlock>, x: nat, n: nat): (r: nat)
    requires n <= |blocks|
    ensures n <= r <= |blocks| && (r < |blocks| ==> x <= blocks[r].start)
    ensures forall j | n <= j < r :: blocks[j].start < x
    decreases |blocks| - n
  {
    if n < |blocks| && blocks[n].start < x then BegunBefore(blocks, x, n + 1) else n
  }

  lemma NestedAt(lines: seq<Text>, blocks: seq<TableBlock>, i: nat, j: nat)
    requires Nested(lines, blocks) && i <= j < |blocks|
    ensures blocks[j].start < blocks[j].end <= |lines|
    ensures blocks[i].start <= blocks[j].start && blocks[i].end <= blocks[j].end
    ensures blocks[i].end <= blocks[j].start || blocks[i].end == blocks[j].end
  {
  }

  lemma StartsAt(lines: seq<Text>, blocks: seq<TableBlock>, i: nat, seen: nat, m: nat)
    requires Nested(lines, blocks) && seen <= |blocks|
    requires forall j | 0 <= j < seen :: blocks[j].start < i
    requires forall j | seen <= j < |blocks| :: i <= blocks[j].start
    requires m < |blocks| && blocks[m].start == i
    ensures seen < |blocks| && i < blocks[m].end <= |lines|
    ensures blocks[seen].start == i && blocks[seen].end == blocks[m].end
    ensures forall k | i <= k < blocks[m].end :: Covered(blocks, k)
  {
    assert seen <= m;
    NestedAt(lines, blocks, seen, m);
  }

  /** All blocks that begin inside block `seen` end with it. */
  lemma StepOver(lines: seq<Text>, blocks: seq<TableBlock>, seen: nat, next: nat)
    requires Nested(lines, blocks) && seen < |blocks| && next == BegunBefore(blocks, blocks[seen].end, seen)
    requires forall j | 0 <= j < seen :: blocks[j].end <= blocks[seen].start
    ensures seen < next <= |blocks|
    ensures forall j | 0 <= j < next :: blocks[j].start < blocks[seen].end && blocks[j].end <= blocks[seen].end
    ensures forall j | next <= j < |blocks| :: blocks[seen].end <= blocks[j].start
    ensures blocks[next - 1].end == blocks[seen].end
  {
    hide Nested;
    NestedAt(lines, blocks, seen, seen);
    forall j | 0 <= j < next
      ensures blocks[j].start < blocks[seen].end && blocks[j].end <= blocks[seen].end
      ensures seen <= j ==> blocks[j].end == blocks[seen].end
    {
      if seen <= j {
        NestedAt(lines, blocks, seen, j);
      } else {
        NestedAt(lines, blocks, j, seen);
      }
    }
    forall j | next <= j < |blocks|
      ensures blocks[seen].end <= blocks[j].start
    {
      NestedAt(lines, blocks, next, j);
    }
  }

  /** They still lie apart only if none of them but the first began inside it. */
  lemma StepApart(lines: seq<Text>, blocks: seq<TableBlock>, seen: nat, next: nat)
    requires Nested(lines, blocks) && seen < |blocks| && next == BegunBefore(blocks, blocks[seen].end, seen)
    requires forall j | 0 <= j < seen :: blocks[j].end <= blocks[seen].start
    ensures Apart(blocks, next) <==> Apart(blocks, seen) && next == seen + 1
  {
    if next > seen + 1 {
      assert blocks[seen + 1].start < blocks[seen].end;
    }
  }

  /** Drop the oldest tables of a text, at most `maxDrop`. */
  method DropOldestMarkdownTables(text: Text, maxDrop: int) returns (r: Text)
    ensures r == DropOldest(text, maxDrop)
  {
    hide Split, Blocks, Remaining, Nested, Join;
    if maxDrop <= 0 {
      return text;
    }
    var lines := Split(text);
    var blocks := FindMarkdownTableBlocks(lines);
    var blocksToRemove := blocks[..if maxDrop <= |blocks| then maxDrop else |blocks|];
    if |blocksToRemove| == 0 {
      return text;
    }
    BlocksAreNested(lines, |blocksToRemove|);
    var result := RemoveBlocks(lines, blocksToRemove);
    r := Join(result);
  }

  function DropOldest(text: Text, maxDrop: int): Text {
    var lines := Split(text);
    if maxDrop <= 0 || Blocks(lines) == [] then text else Join(Dropped(lines, maxDrop))
  }

  /** Keep the newest `maxTables` tables of one text. */
  method TruncateMarkdownTables(text: Text, maxTables: int) returns (r: Text)
    ensures r == Truncate(text, maxTables)
  {
    hide Split, Blocks, DropOldest;
    if maxTables <= 0 {
      return text;
    }
    var blocks := FindMarkdownTableBlocks(Split(text));
    var dropCount := |blocks| - maxTables;
    if dropCount <= 0 {
      NothingDropped(text, dropCount);
      return text;
    }
    r := DropOldestMarkdownTables(text, dropCount);
  }

  lemma NothingDropped(text: Text, maxDrop: int)
    requires maxDrop <= 0
    ensures DropOldest(text, maxDrop) == text
  {
  }

  function Truncate(text: Text, maxTables: int): Text {
    if maxTables <= 0 then text else DropOldest(text, |Blocks(Split(text))| - maxTables)
  }

  // ---- what dropping promises ----

  lemma {:induction false} CountSplit(a: seq<Text>, b: seq<Text>, n: nat)
    requires n <= |b|
    ensures CountUpTo(a + b, |a| + n) == CountTables(a) + CountUpTo(b, n)
  {
    hide IsSeparator;
    if n == 0 {
      CountPrefix(a + b, a, |a|);
    } else {
      CountSplit(a, b, n - 1);
      assert (a + b)[|a| + n - 1] == b[n - 1];
    }
  }

  lemma {:induction false} CountPrefix(a: seq<Text>, b: seq<Text>, n: nat)
    requires n <= |a| && n <= |b| && a[..n] == b[..n]
    ensures CountUpTo(a, n) == CountUpTo(b, n)
  {
    hide IsSeparator;
    if n > 0 {
      assert a[..n][n - 1] == b[..n][n - 1];
      assert a[..n - 1] == a[..n][..n - 1] == b[..n - 1];
      CountPrefix(a, b, n - 1);
    }
  }

  lemma CountConcat(a: seq<Text>, b: seq<Text>)
    ensures CountTables(a + b) == CountTables(a) + CountTables(b)
  {
    CountSplit(a, b, |b|);
  }

  lemma CountOne(line: Text)
    ensures CountTables([line]) == if IsSeparator(line) then 1 else 0
  {
    assert CountUpTo([line], 0) == 0;
  }

  lemma {:induction false} TrimStartKeeps(s: Text)
    requires s != [] && !IsSpace(s[|s| - 1])
    ensures TrimStart(s) != [] && !IsSpace(TrimStart(s)[0]) && TrimStart(s)[|TrimStart(s)| - 1] == s[|s| - 1]
  {
    if IsSpace(s[0]) {
      TrimStartKeeps(s[1..]);
    }
  }

  /** The hint is no table. */
  lemma HintIsNoSeparator(n: nat)
    ensures !IsSeparator(Hint(n)) && IsLine(Hint(n))
  {
    var h := Hint(n);
    assert h[0] == 0x5F && h[|h| - 1] == 0x5F;
    assert TrimStart(h) == h;
    assert Trim(h) == h;
    assert forall u | u in Decimal(n) :: IsDigit(u);
  }

  /** A line counts when it is a separator and stays. */
  lemma OutsideStep(lines: seq<Text>, blocks: seq<TableBlock>, n: nat)
    requires 0 < n <= |lines|
    ensures CountTables(Outside(lines, blocks, n)) == CountTables(Outside(lines, blocks, n - 1))
            + if IsSeparator(lines[n - 1]) && !Covered(blocks, n - 1) then 1 else 0
  {
    hide IsSeparator, Covered;
    var before := Outside(lines, blocks, n - 1);
    CountConcat(before, [lines[n - 1]]);
    CountOne(lines[n - 1]);
    assert before + [] == before;
  }

  /** With `n` lines walked, of the tables met the first `k` have gone. */
  lemma {:induction false} OutsideCounts(lines: seq<Text>, k: nat, n: nat)
    requires n <= |lines| && k <= |Blocks(lines)|
    ensures CountTables(Outside(lines, Blocks(lines)[..k], n)) + Min(k, |SepsUpTo(lines, n)|) <= CountUpTo(lines, n)
  {
    hide IsSeparator, Covered;
    var blocks := Blocks(lines)[..k];
    if n > 0 {
      OutsideCounts(lines, k, n - 1);
      OutsideStep(lines, blocks, n);
      if IsSeparator(lines[n - 1]) && n > 1 && |SepsUpTo(lines, n - 1)| < k {
        var j := |SepsUpTo(lines, n - 1)|;
        SepIsCovered(lines, k, n, j);
      }
    }
  }

  /** The separator line that is number `j` lies in the block with that number. */
  lemma SepIsCovered(lines: seq<Text>, k: nat, n: nat, j: nat)
    requires 1 < n <= |lines| && IsSeparator(lines[n - 1]) && j == |SepsUpTo(lines, n - 1)|
    ensures j < |Blocks(lines)|
    ensures j < k <= |Blocks(lines)| ==> Covered(Blocks(lines)[..k], n - 1)
  {
    hide IsSeparator;
    SepsPrefix(lines, n, |lines|);
    assert SepsUpTo(lines, n)[j] == n - 1;
    assert Blocks(lines)[j] == BlockOf(lines, n - 1);
    if j < k <= |Blocks(lines)| {
      var b := Blocks(lines)[..k][j];
      assert b.start <= n - 1 < b.end;
    }
  }

  lemma {:induction false} SepsPrefix(lines: seq<Text>, n: nat, m: nat)
    requires n <= m <= |lines|
    ensures SepsUpTo(lines, n) <= SepsUpTo(lines, m)
  {
    if n < m {
      SepsPrefix(lines, n, m - 1);
    }
  }

  /** Every separator line but a first one heads a block. */
  lemma {:induction false} SepsCount(lines: seq<Text>, n: nat)
    requires n <= |lines|
    ensures CountUpTo(lines, n) == |SepsUpTo(lines, n)| + if n > 0 && IsSeparator(lines[0]) then 1 else 0
  {
    hide IsSeparator;
    if n > 0 {
      SepsCount(lines, n - 1);
      if n == 1 {
        assert CountUpTo(lines, 0) == 0;
      }
    }
  }

  lemma RemainingCounts(lines: seq<Text>, blocks: seq<TableBlock>)
    requires blocks != [] && Nested(lines, blocks)
    ensures CountTables(Remaining(lines, blocks)) == CountTables(Outside(lines, blocks, |lines|))
  {
    var end := blocks[|blocks| - 1].end;
    LastEnds(lines, blocks);
    OutsideTail(lines, blocks, end, |lines|);
    assert lines[end..|lines|] == lines[end..];
    var a, b := Outside(lines, blocks, end), lines[end..];
    HintIsNoSeparator(|blocks|);
    CountOne(Hint(|blocks|));
    CountConcat(a, [Hint(|blocks|)]);
    CountConcat(a + [Hint(|blocks|)], b);
    CountConcat(a, b);
  }

  lemma LastEnds(lines: seq<Text>, blocks: seq<TableBlock>)
    requires blocks != [] && Nested(lines, blocks)
    ensures forall k | blocks[|blocks| - 1].end <= k :: !Covered(blocks, k)
  {
    forall j | 0 <= j < |blocks|
      ensures blocks[j].end <= blocks[|blocks| - 1].end
    {
      NestedAt(lines, blocks, j, |blocks| - 1);
    }
  }

  lemma {:induction false} OutsideAreLines(lines: seq<Text>, blocks: seq<TableBlock>, n: nat)
    requires n <= |lines| && forall i | 0 <= i < |lines| :: IsLine(lines[i])
    ensures forall i | 0 <= i < |Outside(lines, blocks, n)| :: IsLine(Outside(lines, blocks, n)[i])
  {
    if n > 0 {
      OutsideAreLines(lines, blocks, n - 1);
    }
  }

  lemma RemainingAreLines(lines: seq<Text>, blocks: seq<TableBlock>)
    requires blocks != [] && Nested(lines, blocks) && forall i | 0 <= i < |lines| :: IsLine(lines[i])
    ensures forall i | 0 <= i < |Remaining(lines, blocks)| :: IsLine(Remaining(lines, blocks)[i])
  {
    var end := blocks[|blocks| - 1].end;
    OutsideAreLines(lines, blocks, end);
    OutsideAreLines(lines, blocks, |lines|);
    HintIsNoSeparator(|blocks|);
  }

  /** Tables of a text whose lines are those that remain. */
  lemma DroppedCounts(text: Text, maxDrop: int)
    requires maxDrop > 0 && Blocks(Split(text)) != []
    ensures var lines := Split(text);
            var k := Min(maxDrop, |Blocks(lines)|);
            Tables(DropOldest(text, maxDrop)) == CountTables(Outside(lines, Blocks(lines)[..k], |lines|))
  {
    var lines := Split(text);
    var blocks := Blocks(lines)[..Min(maxDrop, |Blocks(lines)|)];
    SplitGivesLines(text);
    BlocksAreNested(lines, |blocks|);
    RemainingAreLines(lines, blocks);
    RemainingCounts(lines, blocks);
    SplitOfJoin(Remaining(lines, blocks));
    CountOne([]);
    assert !IsSeparator([]);
  }

  /** With `k` the smaller of `maxDrop` and the number of blocks found, the count falls
      by `k` at least, however the blocks overlap. */
  lemma DropLowersTheCount(text: Text, maxDrop: int)
    ensures Tables(DropOldest(text, maxDrop)) + Min(Max(maxDrop, 0), |Blocks(Split(text))|) <= Tables(text)
  {
    if maxDrop > 0 && Blocks(Split(text)) != [] {
      DroppedCounts(text, maxDrop);
      OutsideCounts(Split(text), Min(maxDrop, |Blocks(Split(text))|), |Split(text)|);
    }
  }

  /** Every table but one on the first line has a block. */
  lemma BlocksAndTables(text: Text)
    ensures Tables(text) == |Blocks(Split(text))| + if IsSeparator(Split(text)[0]) then 1 else 0
  {
    SepsCount(Split(text), |Split(text)|);
  }

  lemma {:induction false} SepAt(lines: seq<Text>, j: nat)
    requires j < |Seps(lines)|
    ensures |SepsUpTo(lines, Seps(lines)[j])| == j
  {
    hide IsSeparator;
    var x := Seps(lines)[j];
    var m := |SepsUpTo(lines, x)|;
    assert SepsUpTo(lines, x + 1)[m] == x;
    SepsPrefix(lines, x + 1, |lines|);
    assert Seps(lines)[m] == x;
  }

  /** A further separator line in the blocks lowers the count by one more. */
  lemma {:induction false} OneMoreGoes(lines: seq<Text>, k: nat, x: nat, n: nat)
    requires x < n <= |lines| && k <= |Blocks(lines)|
    requires IsSeparator(lines[x]) && Covered(Blocks(lines)[..k], x)
    requires x == 0 || k <= |SepsUpTo(lines, x)|
    ensures CountTables(Outside(lines, Blocks(lines)[..k], n)) + Min(k, |SepsUpTo(lines, n)|) + 1 <= CountUpTo(lines, n)
  {
    hide IsSeparator, Covered, Outside, BlockOf;
    OutsideStep(lines, Blocks(lines)[..k], n);
    if n - 1 == x {
      OutsideCounts(lines, k, x);
    } else {
      OneMoreGoes(lines, k, x, n - 1);
      if IsSeparator(lines[n - 1]) && |SepsUpTo(lines, n - 1)| < k {
        SepIsCovered(lines, k, n, |SepsUpTo(lines, n - 1)|);
      }
    }
  }

  /** Where only the first `k` tables lie in the blocks, and a separator on the first line
      does not, all but `k` stay. */
  lemma {:induction false} OthersStay(lines: seq<Text>, blocks: seq<TableBlock>, k: nat, n: nat)
    requires 0 < n <= |lines|
    requires IsSeparator(lines[0]) && !Covered(blocks, 0)
    requires forall i | 0 < i < |lines| && IsSeparator(lines[i]) && Covered(blocks, i) :: |SepsUpTo(lines, i)| < k
    ensures CountTables(Outside(lines, blocks, n)) + Min(k, |SepsUpTo(lines, n)|) >= CountUpTo(lines, n)
  {
    hide IsSeparator, Covered;
    OutsideStep(lines, blocks, n);
    if n == 1 {
      assert CountUpTo(lines, 0) == 0;
    } else {
      OthersStay(lines, blocks, k, n - 1);
    }
  }

  lemma LaterStays(lines: seq<Text>, k: nat, x: nat)
    requires 0 < x < |lines| && 0 < k < |Blocks(lines)|
    requires IsSeparator(lines[x]) && |SepsUpTo(lines, x)| >= k
    requires Blocks(lines)[k - 1].end <= Seps(lines)[k]
    ensures !Covered(Blocks(lines)[..k], x)
  {
    hide *;
    SepBelow(lines, k, x);
    BlocksAreNested(lines, k);
    BelowAll(lines, Blocks(lines)[..k], x);
  }

  lemma BelowAll(lines: seq<Text>, blocks: seq<TableBlock>, i: nat)
    requires blocks != [] && Nested(lines, blocks) && blocks[|blocks| - 1].end <= i
    ensures !Covered(blocks, i)
  {
    hide *;
    LastEnds(lines, blocks);
  }

  lemma SepBelow(lines: seq<Text>, k: nat, x: nat)
    requires 0 < x < |lines| && k < |Seps(lines)|
    requires IsSeparator(lines[x]) && |SepsUpTo(lines, x)| >= k
    ensures Seps(lines)[k] <= x
  {
    hide IsSeparator;
    var j := |SepsUpTo(lines, x)|;
    SepsPrefix(lines, x + 1, |lines|);
    assert SepsUpTo(lines, x + 1)[j] == x && Seps(lines)[j] == x;
  }

  /** One text is left with `maxTables` tables at most exactly when it does not begin with
      a separator line, or has fewer tables with a header than allowed, or gives up that
      line or a table too many with the ones dropped: its second line is a separator too,
      or the oldest table to keep lies in the last one to go. */
  predicate KeepsLimit(text: Text, maxTables: nat) {
    var lines := Split(text);
    var excess := |Blocks(lines)| - maxTables;
    || !IsSeparator(lines[0])
    || excess < 0
    || (excess > 0 && |lines| > 1 && IsSeparator(lines[1]))
    || (0 < excess < |Blocks(lines)| && Seps(lines)[excess] < Blocks(lines)[excess - 1].end)
  }

  /** In any case one table more at most is left. */
  lemma TruncateKeepsTheLimit(text: Text, maxTables: nat)
    requires maxTables > 0
    ensures Tables(Truncate(text, maxTables)) <= maxTables <==> KeepsLimit(text, maxTables)
    ensures Tables(Truncate(text, maxTables)) <= maxTables + 1
  {
    hide Tables, Seps, Split, IsSeparator, DropOldest, Outside, BlockOf;
    var lines := Split(text);
    var excess := |Blocks(lines)| - maxTables;
    BlocksAndTables(text);
    DropLowersTheCount(text, excess);
    if excess <= 0 {
      NothingDropped(text, excess);
    } else if IsSeparator(lines[0]) {
      DroppedCounts(text, excess);
      LimitWithFirstSeparator(text, excess);
    }
  }

  lemma LimitWithFirstSeparator(text: Text, excess: nat)
    requires IsSeparator(Split(text)[0]) && 0 < excess < |Blocks(Split(text))|
    ensures var lines := Split(text);
            CountTables(Outside(lines, Blocks(lines)[..excess], |lines|)) <= |Blocks(lines)| - excess <==>
            (|lines| > 1 && IsSeparator(lines[1])) || Seps(lines)[excess] < Blocks(lines)[excess - 1].end
  {
    hide *;
    var lines := Split(text);
    SepsCount(lines, |lines|);
    AllSeps(lines, excess);
    if (|lines| > 1 && IsSeparator(lines[1])) || Seps(lines)[excess] < Blocks(lines)[excess - 1].end {
      OneMoreWent(lines, excess);
    } else {
      NoMoreWent(lines, excess);
    }
  }

  lemma AllSeps(lines: seq<Text>, k: nat)
    requires k <= |Blocks(lines)|
    ensures |SepsUpTo(lines, |lines|)| == |Blocks(lines)| && Min(k, |SepsUpTo(lines, |lines|)|) == k
  {
    hide IsSeparator;
  }

  lemma OneMoreWent(lines: seq<Text>, k: nat)
    requires lines != [] && IsSeparator(lines[0]) && 0 < k < |Blocks(lines)|
    requires (|lines| > 1 && IsSeparator(lines[1])) || Seps(lines)[k] < Blocks(lines)[k - 1].end
    ensures CountTables(Outside(lines, Blocks(lines)[..k], |lines|)) + Min(k, |SepsUpTo(lines, |lines|)|) + 1 <= CountUpTo(lines, |lines|)
  {
    hide *;
    if |lines| > 1 && IsSeparator(lines[1]) {
      FirstLineGoesSoon(lines, k);
      OneMoreGoes(lines, k, 0, |lines|);
    } else {
      NextIsCovered(lines, k);
      SepAt(lines, k);
      OneMoreGoes(lines, k, Seps(lines)[k], |lines|);
    }
  }

  lemma NoMoreWent(lines: seq<Text>, k: nat)
    requires lines != [] && IsSeparator(lines[0]) && 0 < k < |Blocks(lines)|
    requires !(|lines| > 1 && IsSeparator(lines[1])) && Blocks(lines)[k - 1].end <= Seps(lines)[k]
    ensures CountTables(Outside(lines, Blocks(lines)[..k], |lines|)) + Min(k, |SepsUpTo(lines, |lines|)|) >= CountUpTo(lines, |lines|)
  {
    hide *;
    FirstLineCovered(lines, k);
    forall x | 0 < x < |lines| && IsSeparator(lines[x]) && Covered(Blocks(lines)[..k], x)
      ensures |SepsUpTo(lines, x)| < k
    {
      if |SepsUpTo(lines, x)| >= k {
        LaterStays(lines, k, x);
      }
    }
    OthersStay(lines, Blocks(lines)[..k], k, |lines|);
  }

  lemma NextIsCovered(lines: seq<Text>, k: nat)
    requires 0 < k < |Blocks(lines)| && Seps(lines)[k] < Blocks(lines)[k - 1].end
    ensures Covered(Blocks(lines)[..k], Seps(lines)[k])
  {
    hide IsSeparator;
    var b := Blocks(lines)[..k][k - 1];
    assert b == BlockOf(lines, Seps(lines)[k - 1]);
    assert Seps(lines)[k - 1] < Seps(lines)[k];
    assert b.start <= Seps(lines)[k] < b.end;
  }

  lemma FirstLineGoesSoon(lines: seq<Text>, k: nat)
    requires |lines| > 1 && IsSeparator(lines[1]) && 0 < k <= |Blocks(lines)|
    ensures Covered(Blocks(lines)[..k], 0)
  {
    hide IsSeparator;
    assert SepsUpTo(lines, 2) == [1] by {
      assert SepsUpTo(lines, 1) == [];
    }
    SepsPrefix(lines, 2, |lines|);
    assert Blocks(lines)[..k][0] == BlockOf(lines, 1);
  }

  /** The numbers of the lines that remain. */
  function OutsideAt(blocks: seq<TableBlock>, n: nat): (r: seq<nat>)
    ensures forall i | 0 <= i < |r| :: r[i] < n && !Covered(blocks, r[i])
    ensures forall i, j | 0 <= i < j < |r| :: r[i] < r[j]
    ensures forall m | 0 <= m < n && !Covered(blocks, m) :: m in r
  {
    if n == 0 then [] else OutsideAt(blocks, n - 1) + if Covered(blocks, n - 1) then [] else [n - 1]
  }

  lemma {:induction false} OutsideIsSubsequence(lines: seq<Text>, blocks: seq<TableBlock>, n: nat)
    requires n <= |lines|
    ensures |Outside(lines, blocks, n)| == |OutsideAt(blocks, n)|
    ensures forall i | 0 <= i < |OutsideAt(blocks, n)| :: Outside(lines, blocks, n)[i] == lines[OutsideAt(blocks, n)[i]]
  {
    if n > 0 {
      OutsideIsSubsequence(lines, blocks, n - 1);
      var text, at := Outside(lines, blocks, n), OutsideAt(blocks, n);
      var before := OutsideAt(blocks, n - 1);
      if Covered(blocks, n - 1) {
        assert at == before && text == Outside(lines, blocks, n - 1);
      } else {
        assert at == before + [n - 1] && text == Outside(lines, blocks, n - 1) + [lines[n - 1]];
        hide Covered, OutsideAt, Outside;
        forall i | 0 <= i < |at|
          ensures text[i] == lines[at[i]]
        {
          assert i < |before| ==> at[i] == before[i];
        }
      }
    }
  }

  /** What remains is the lines outside the blocks, in order, with one hint among them
      at most, and all that follows the last block stands at the end untouched. */
  lemma OldestGoNewestStay(lines: seq<Text>, blocks: seq<TableBlock>)
    requires blocks != [] && Nested(lines, blocks)
    ensures var end := blocks[|blocks| - 1].end;
            var kept := Outside(lines, blocks, end);
            && Remaining(lines, blocks) == kept + (if Apart(blocks, |blocks|) then [Hint(|blocks|)] else []) + lines[end..]
            && |kept| == |OutsideAt(blocks, end)|
            && forall i | 0 <= i < |kept| :: kept[i] == lines[OutsideAt(blocks, end)[i]]
  {
    var end := blocks[|blocks| - 1].end;
    LastEnds(lines, blocks);
    OutsideTail(lines, blocks, end, |lines|);
    assert lines[end..|lines|] == lines[end..];
    OutsideIsSubsequence(lines, blocks, end);
    hide Outside, Covered, Apart;
  }

  // ---- the cap on a whole card ----

  function Total(fields: seq<Text>): nat {
    if fields == [] then 0 else Tables(fields[0]) + Total(fields[1..])
  }

  /** Drop `excess` tables from the fields of a card, oldest field first; what a field
      could not give up is asked of the next. */
  function Cap(fields: seq<Text>, excess: int): (r: seq<Text>)
    ensures |r| == |fields|
  {
    if fields == [] || excess <= 0 then fields
    else
      var content := DropOldest(fields[0], Min(excess, Tables(fields[0])));
      [content] + Cap(fields[1..], excess - Tables(fields[0]) + Tables(content))
  }

  /** A separator line with no header, itself no header of another. */
  predicate BeginsWithLoneSeparator(text: Text) {
    var lines := Split(text);
    IsSeparator(lines[0]) && !(|lines| > 1 && IsSeparator(lines[1]))
  }

  function Stuck(text: Text): nat {
    if BeginsWithLoneSeparator(text) then 1 else 0
  }

  function TotalStuck(fields: seq<Text>): nat {
    if fields == [] then 0 else Stuck(fields[0]) + TotalStuck(fields[1..])
  }

  /** A first line that is a separator goes only with a second that is one too. */
  lemma FirstLineCovered(lines: seq<Text>, k: nat)
    requires lines != [] && IsSeparator(lines[0]) && k <= |Blocks(lines)|
    ensures Covered(Blocks(lines)[..k], 0) ==> |lines| > 1 && IsSeparator(lines[1])
  {
    SeparatorIsRow(lines[0]);
    hide IsSeparator, IsPreamble, IsRow;
    var blocks := Blocks(lines)[..k];
    if Covered(blocks, 0) {
      var j :| 0 <= j < |blocks| && blocks[j].start <= 0 < blocks[j].end;
      FirstCoveredBy(lines, Seps(lines)[j]);
    }
  }

  lemma FirstCoveredBy(lines: seq<Text>, sep: nat)
    requires 1 <= sep < |lines| && IsSeparator(lines[sep]) && !IsPreamble(lines[0]) && BlockOf(lines, sep).start == 0
    ensures sep == 1
  {
  }

  lemma FirstLineGoes(lines: seq<Text>)
    requires |lines| > 1 && IsSeparator(lines[1])
    ensures Covered(Blocks(lines), 0)
  {
    hide IsSeparator;
    SepsPrefix(lines, 2, |lines|);
    FirstLineGoesSoon(lines, |Blocks(lines)|);
    assert Blocks(lines)[..|Blocks(lines)|] == Blocks(lines);
  }

  /** When all blocks go, nothing but a lone first separator is left to count. */
  lemma {:induction false} AllBlocksGo(text: Text, n: nat)
    requires n <= |Split(text)|
    ensures var lines := Split(text);
            CountTables(Outside(lines, Blocks(lines), n)) == if n > 0 then Stuck(text) else 0
  {
    assert CountTables(Outside(Split(text), Blocks(Split(text)), 0)) == 0;
    hide IsSeparator, Covered, Outside, BeginsWithLoneSeparator;
    if n > 0 {
      AllBlocksGo(text, n - 1);
      OutsideStep(Split(text), Blocks(Split(text)), n);
      if IsSeparator(Split(text)[n - 1]) {
        OnlyLoneStays(text, n);
      }
      if BeginsWithLoneSeparator(text) {
        LoneMeansSeparator(text);
      }
    }
  }

  lemma LoneMeansSeparator(text: Text)
    requires BeginsWithLoneSeparator(text)
    ensures IsSeparator(Split(text)[0])
  {
  }

  lemma OnlyLoneStays(text: Text, n: nat)
    requires 0 < n <= |Split(text)| && IsSeparator(Split(text)[n - 1])
    ensures Covered(Blocks(Split(text)), n - 1) <==> n > 1 || !BeginsWithLoneSeparator(text)
  {
    hide IsSeparator, Covered;
    var lines := Split(text);
    var blocks := Blocks(lines);
    assert blocks[..|blocks|] == blocks;
    if n > 1 {
      SepIsCovered(lines, |blocks|, n, |SepsUpTo(lines, n - 1)|);
    } else {
      FirstLineCovered(lines, |blocks|);
      if |lines| > 1 && IsSeparator(lines[1]) {
        FirstLineGoes(lines);
      }
    }
  }

  /** A lone first separator stays whatever is dropped. */
  lemma {:induction false} LoneSeparatorStays(text: Text, k: nat, n: nat)
    requires k <= |Blocks(Split(text))| && 0 < n <= |Split(text)| && BeginsWithLoneSeparator(text)
    ensures CountTables(Outside(Split(text), Blocks(Split(text))[..k], n)) >= 1
  {
    var lines := Split(text);
    var blocks := Blocks(lines)[..k];
    FirstLineCovered(lines, k);
    hide IsSeparator, Covered;
    OutsideStep(lines, blocks, n);
    if n > 1 {
      LoneSeparatorStays(text, k, n - 1);
    }
  }

  lemma OneFieldCapped(text: Text, excess: int)
    requires excess > 0
    ensures var left := Tables(DropOldest(text, Min(excess, Tables(text))));
            && Stuck(text) <= left <= Tables(text)
            && (excess >= Tables(text) ==> left == Stuck(text))
            && (excess < Tables(text) ==> left <= Tables(text) - excess)
  {
    var d := Min(excess, Tables(text));
    BlocksAndTables(text);
    DropLowersTheCount(text, d);
    StuckIsOnTheFirstLine(text);
    if d > 0 && Blocks(Split(text)) != [] {
      DroppedIsBetween(text, d);
    } else if Blocks(Split(text)) == [] {
      NoBlocksOnlyStuck(text);
    }
    hide Tables, Stuck, DropOldest, Blocks, Split;
  }

  lemma StuckIsOnTheFirstLine(text: Text)
    ensures Stuck(text) <= if IsSeparator(Split(text)[0]) then 1 else 0
  {
  }

  lemma NoBlocksOnlyStuck(text: Text)
    requires Blocks(Split(text)) == []
    ensures Tables(text) == Stuck(text)
  {
    AllBlocksGo(text, |Split(text)|);
    NothingOutside(Split(text), |Split(text)|);
    assert Split(text)[..|Split(text)|] == Split(text);
  }

  lemma DroppedIsBetween(text: Text, d: int)
    requires d > 0 && Blocks(Split(text)) != []
    ensures Stuck(text) <= Tables(DropOldest(text, d))
    ensures d >= |Blocks(Split(text))| ==> Tables(DropOldest(text, d)) == Stuck(text)
  {
    hide DropOldest, Split, Tables, Outside;
    var k := Min(d, |Blocks(Split(text))|);
    DroppedCounts(text, d);
    if BeginsWithLoneSeparator(text) {
      LoneSeparatorStays(text, k, |Split(text)|);
    }
    if k == |Blocks(Split(text))| {
      AllBlocksGo(text, |Split(text)|);
      assert Blocks(Split(text))[..k] == Blocks(Split(text));
    }
  }

  lemma {:induction false} NothingOutside(lines: seq<Text>, n: nat)
    requires n <= |lines|
    ensures Outside(lines, [], n) == lines[..n]
  {
    if n > 0 {
      NothingOutside(lines, n - 1);
      assert !Covered([], n - 1);
    }
  }

  lemma {:induction false} CapBounds(fields: seq<Text>, excess: int)
    ensures TotalStuck(fields) <= Total(Cap(fields, excess)) <= Total(fields)
    ensures Total(Cap(fields, excess)) <= Max(Total(fields) - excess, TotalStuck(fields))
  {
    hide Tables, Stuck, DropOldest;
    if fields != [] {
      OneFieldCapped(fields[0], if excess > 0 then excess else 1);
      if excess <= 0 {
        CapBounds(fields[1..], 0);
        StuckAreTables(fields[0]);
      } else {
        var content := DropOldest(fields[0], Min(excess, Tables(fields[0])));
        CapBounds(fields[1..], excess - Tables(fields[0]) + Tables(content));
        assert Cap(fields, excess)[1..] == Cap(fields[1..], excess - Tables(fields[0]) + Tables(content));
      }
    }
  }

  lemma StuckAreTables(text: Text)
    ensures Stuck(text) <= Tables(text)
  {
    BlocksAndTables(text);
  }

  /** The whole card is left with `maxTables` tables at most exactly when no more than
      `maxTables` of its fields begin with a separator line on its own. */
  lemma CapKeepsTheLimit(fields: seq<Text>, maxTables: nat)
    ensures Total(Cap(fields, Total(fields) - maxTables)) <= maxTables <==> TotalStuck(fields) <= maxTables
  {
    CapBounds(fields, Total(fields) - maxTables);
    hide Cap, Total, TotalStuck;
  }

  /** Fields before number `k` have given up all the tables they can, those after it none. */
  predicate CappedUpTo(fields: seq<Text>, capped: seq<Text>, k: nat) {
    && |capped| == |fields|
    && (forall i | 0 <= i < |fields| && i < k :: Tables(capped[i]) == Stuck(fields[i]))
    && (forall i | k < i < |fields| :: capped[i] == fields[i])
  }

  lemma CappedOneMore(first: Text, content: Text, fields: seq<Text>, capped: seq<Text>, k: nat)
    requires Tables(content) == Stuck(first) && CappedUpTo(fields, capped, k)
    ensures CappedUpTo([first] + fields, [content] + capped, k + 1)
  {
    hide Tables, Stuck;
  }

  lemma OnlyTheFirst(first: Text, content: Text, fields: seq<Text>)
    ensures CappedUpTo([first] + fields, [content] + fields, 0)
  {
  }

  /** The oldest fields give up their tables first: those before one field all they can,
      those after it nothing. */
  lemma {:induction false} OldestFieldsFirst(fields: seq<Text>, excess: int) returns (k: nat)
    ensures CappedUpTo(fields, Cap(fields, excess), k)
  {
    hide *;
    k := 0;
    if fields == [] || excess <= 0 {
      CapStops(fields, excess);
      NothingCapped(fields);
    } else {
      var content, left := FirstCapped(fields, excess);
      assert fields == [fields[0]] + fields[1..];
      if left > 0 {
        var j := OldestFieldsFirst(fields[1..], left);
        CappedOneMore(fields[0], content, fields[1..], Cap(fields[1..], left), j);
        k := j + 1;
      } else {
        CapStops(fields[1..], left);
        OnlyTheFirst(fields[0], content, fields[1..]);
      }
    }
  }

  /** What the first field leaves for the others, which is nothing unless it gave all it can. */
  lemma FirstCapped(fields: seq<Text>, excess: int) returns (content: Text, left: int)
    requires fields != [] && excess > 0
    ensures Cap(fields, excess) == [content] + Cap(fields[1..], left)
    ensures left > 0 ==> Tables(content) == Stuck(fields[0])
  {
    hide Tables, Stuck, DropOldest;
    OneFieldCapped(fields[0], excess);
    content := DropOldest(fields[0], Min(excess, Tables(fields[0])));
    left := excess - Tables(fields[0]) + Tables(content);
  }

  lemma NothingCapped(fields: seq<Text>)
    ensures CappedUpTo(fields, fields, 0)
  {
  }

  lemma {:induction false} AllStuck(fields: seq<Text>)
    requires forall i | 0 <= i < |fields| :: BeginsWithLoneSeparator(fields[i])
    ensures TotalStuck(fields) == |fields|
  {
    hide BeginsWithLoneSeparator;
    if fields != [] {
      assert Stuck(fields[0]) == 1;
      AllStuck(fields[1..]);
    }
  }

  /** Six fields that are nothing but a separator line: the cap on five removes none. */
  lemma LoneSeparatorsDefeatTheCap()
    ensures var line := [PIPE, 0x2D];
            var fields := [line, line, line, line, line, line];
            Total(Cap(fields, Total(fields) - MAX_TABLES)) > MAX_TABLES
  {
    var line: Text := [PIPE, 0x2D];
    SplitOfLine(line, []);
    assert TrimStart(line) == line && Trim(line) == line;
    assert BeginsWithLoneSeparator(line);
    hide BeginsWithLoneSeparator, Cap, Total;
    var fields := [line, line, line, line, line, line];
    AllStuck(fields);
    CapKeepsTheLimit(fields, MAX_TABLES);
  }

  method TotalTables(fields: seq<Text>) returns (total: nat)
    ensures total == Total(fields)
  {
    hide Tables;
    total := 0;
    for i := 0 to |fields|
      invariant total + Total(fields[i..]) == Total(fields)
    {
      var tables := CountMarkdownTables(fields[i]);
      assert fields[i..][1..] == fields[i + 1..];
      total := total + tables;
    }
  }

  ghost predicate Capping(fields: seq<Text>, maxTables: nat, i: nat, capped: seq<Text>, dropped: nat) {
    && i <= |fields| && dropped <= Total(fields) && |capped| == i
    && capped + Cap(fields[i..], Total(fields) - dropped - maxTables) == Cap(fields, Total(fields) - maxTables)
    && Total(capped) + dropped == Total(fields[..i])
  }

  lemma CappingStarts(fields: seq<Text>, maxTables: nat)
    ensures Capping(fields, maxTables, 0, [], 0)
  {
    assert fields[0..] == fields;
  }

  lemma CappingGoesOn(fields: seq<Text>, maxTables: nat, i: nat, capped: seq<Text>, dropped: nat, content: Text)
    requires Capping(fields, maxTables, i, capped, dropped) && i < |fields|
    requires Total(fields) - dropped - maxTables > 0
    requires content == DropOldest(fields[i], Min(Total(fields) - dropped - maxTables, Tables(fields[i])))
    ensures Tables(content) <= Tables(fields[i])
    ensures Capping(fields, maxTables, i + 1, capped + [content], dropped + Tables(fields[i]) - Tables(content))
  {
    hide *;
    CappingFacts(fields, maxTables, i, capped, dropped);
    TotalOfParts(fields, i);
    CapContinues(fields, i, capped, Total(fields) - dropped - maxTables, content);
    CappingHolds(fields, maxTables, i + 1, capped + [content], dropped + Tables(fields[i]) - Tables(content));
  }

  lemma CappingFacts(fields: seq<Text>, maxTables: nat, i: nat, capped: seq<Text>, dropped: nat)
    requires Capping(fields, maxTables, i, capped, dropped)
    ensures i <= |fields| && dropped <= Total(fields) && |capped| == i
    ensures capped + Cap(fields[i..], Total(fields) - dropped - maxTables) == Cap(fields, Total(fields) - maxTables)
    ensures Total(capped) + dropped == Total(fields[..i])
  {
    hide Cap, Total;
  }

  lemma CappingHolds(fields: seq<Text>, maxTables: nat, i: nat, capped: seq<Text>, dropped: nat)
    requires i <= |fields| && dropped <= Total(fields) && |capped| == i
    requires capped + Cap(fields[i..], Total(fields) - dropped - maxTables) == Cap(fields, Total(fields) - maxTables)
    requires Total(capped) + dropped == Total(fields[..i])
    ensures Capping(fields, maxTables, i, capped, dropped)
  {
    hide Cap, Total;
  }

  lemma CappingStops(fields: seq<Text>, maxTables: nat, i: nat, capped: seq<Text>, dropped: nat)
    requires Capping(fields, maxTables, i, capped, dropped)
    requires Total(fields) - dropped - maxTables <= 0 || i == |fields|
    ensures capped + fields[i..] == Cap(fields, Total(fields) - maxTables)
    ensures dropped == Total(fields) - Total(capped + fields[i..])
  {
    hide Cap, Total;
    CapStops(fields[i..], Total(fields) - dropped - maxTables);
    TotalConcat(capped, fields[i..]);
    TotalConcat(fields[..i], fields[i..]);
    assert fields[..i] + fields[i..] == fields;
  }

  /** The walk over the fields in document order, asking each for what is still too
      many; the number of tables removed is returned. */
  method CapTables(fields: seq<Text>, maxTables: nat) returns (capped: seq<Text>, dropped: nat)
    ensures capped == Cap(fields, Total(fields) - maxTables)
    ensures dropped == Total(fields) - Total(capped)
  {
    hide *;
    var total := TotalTables(fields);
    capped, dropped := [], 0;
    CappingStarts(fields, maxTables);
    var i: nat := 0;
    while i < |fields| && total - dropped - maxTables > 0
      invariant i <= |fields| && Capping(fields, maxTables, i, capped, dropped)
      decreases |fields| - i
    {
      var toDrop := total - dropped - maxTables;
      var tables := CountMarkdownTables(fields[i]);
      var content := DropOldestMarkdownTables(fields[i], Min(toDrop, tables));
      var left := CountMarkdownTables(content);
      CappingGoesOn(fields, maxTables, i, capped, dropped, content);
      capped := capped + [content];
      dropped := dropped + tables - left;
      i := i + 1;
    }
    CappingStops(fields, maxTables, i, capped, dropped);
    capped := capped + fields[i..];
  }

  lemma CapStops(fields: seq<Text>, excess: int)
    ensures excess <= 0 || fields == [] ==> Cap(fields, excess) == fields
  {
  }

  lemma TotalOfParts(fields: seq<Text>, i: nat)
    requires i < |fields|
    ensures Total(fields) == Total(fields[..i]) + Total(fields[i..])
    ensures Total(fields[..i + 1]) == Total(fields[..i]) + Tables(fields[i])
    ensures Tables(fields[i]) <= Total(fields[i..])
  {
    hide *;
    TotalCut(fields, i);
    TotalCut(fields, i + 1);
    TotalCut(fields[i..], 1);
    TotalOne(fields[i]);
    assert fields[i..][..1] == [fields[i]] && fields[i..][1..] == fields[i + 1..];
  }

  lemma TotalCut(fields: seq<Text>, i: nat)
    requires i <= |fields|
    ensures Total(fields) == Total(fields[..i]) + Total(fields[i..])
  {
    hide *;
    assert fields == fields[..i] + fields[i..];
    TotalConcat(fields[..i], fields[i..]);
  }

  lemma CapContinues(fields: seq<Text>, i: nat, capped: seq<Text>, excess: int, content: Text)
    requires i < |fields| && excess > 0 && content == DropOldest(fields[i], Min(excess, Tables(fields[i])))
    ensures capped + Cap(fields[i..], excess) == capped + [content] + Cap(fields[i + 1..], excess - Tables(fields[i]) + Tables(content))
    ensures Total(capped + [content]) == Total(capped) + Tables(content)
    ensures Tables(content) <= Tables(fields[i])
  {
    hide DropOldest, Tables;
    DropLowersTheCount(fields[i], Min(excess, Tables(fields[i])));
    assert fields[i..][0] == fields[i] && fields[i..][1..] == fields[i + 1..];
    TotalConcat(capped, [content]);
    TotalOne(content);
    assert Cap(fields[i..], excess) == [content] + Cap(fields[i + 1..], excess - Tables(fields[i]) + Tables(content));
  }

  lemma TotalOne(text: Text)
    ensures Total([text]) == Tables(text)
  {
    assert [text][1..] == [];
  }

  lemma {:induction false} TotalConcat(a: seq<Text>, b: seq<Text>)
    ensures Total(a + b) == Total(a) + Total(b)
  {
    if a == [] {
      assert a + b == b;
    } else {
      TotalConcat(a[1..], b);
      assert (a + b)[1..] == a[1..] + b;
    }
  }
}
