/** Caption layout: greedy line wrapping by pixel width, and grouping words into blocks of at most two lines. */
module Captions {

  const MAX_LINES := 2

  /** A word with its measured width and its times. */
  datatype Word = Word(width: real, from: real, to: real)

  /** The gap between words and the width of the safe box. */
  datatype Box = Box(gap: real, maxw: real)

  type Line = seq<Word>

  function Used(line: Line, gap: real): real {
    if line == [] then 0.0
    else if |line| == 1 then line[0].width
    else Used(line[..|line| - 1], gap) + (gap + line[|line| - 1].width)
  }

  function Joined<T>(parts: seq<seq<T>>): seq<T> {
    if parts == [] then [] else Joined(parts[..|parts| - 1]) + parts[|parts| - 1]
  }

  /** A line may overflow only when it is a single word. */
  predicate Legal(line: Line, box: Box) {
    |line| > 1 ==> Used(line, box.gap) <= box.maxw
  }

  /** A split of the block into consecutive legal lines. */
  ghost predicate Layout(lines: seq<Line>, block: seq<Word>, box: Box) {
    Joined(lines) == block && forall i :: 0 <= i < |lines| ==> Legal(lines[i], box)
  }

  /** No line is empty, and no line could have taken the first word of the next. */
  ghost predicate Greedy(lines: seq<Line>, box: Box) {
    && (forall i :: 0 <= i < |lines| ==> lines[i] != [])
    && (forall i :: 0 < i < |lines| ==> !Legal(lines[i - 1] + [lines[i][0]], box))
  }

  ghost predicate Measured(words: seq<Word>, box: Box) {
    box.gap >= 0.0 && forall i :: 0 <= i < |words| ==> words[i].width >= 0.0
  }

  // ── greedy is optimal ──

  lemma {:induction false} JoinedFirst<T>(parts: seq<seq<T>>)
    requires parts != []
    ensures Joined(parts) == parts[0] + Joined(parts[1..])
    decreases |parts|
  {
    if |parts| == 1 {
      assert parts[..0] == [] && parts[1..] == [];
    } else {
      var n := |parts| - 1;
      JoinedFirst(parts[..n]);
      var rest := parts[1..];
      assert parts[..n][1..] == rest[..n - 1] && rest[n - 1] == parts[n];
      assert parts[0] + Joined(rest[..n - 1]) + parts[n] == parts[0] + Joined(rest);
    }
  }

  lemma {:induction false} TailIsNarrower(line: Line, gap: real)
    requires |line| > 1 && gap >= 0.0 && forall i :: 0 <= i < |line| ==> line[i].width >= 0.0
    ensures Used(line[1..], gap) <= Used(line, gap)
    decreases |line|
  {
    var n := |line| - 1;
    if n > 1 {
      TailIsNarrower(line[..n], gap);
      assert line[..n][1..] == line[1..][..n - 1];
    } else {
      assert Used(line[..1], gap) == line[0].width;
    }
  }

  /** A stretch of a line is no wider than the line. */
  lemma {:induction false} StretchIsNarrower(line: Line, i: nat, j: nat, gap: real)
    requires i < j <= |line| && gap >= 0.0 && forall k :: 0 <= k < |line| ==> line[k].width >= 0.0
    ensures Used(line[i..j], gap) <= Used(line, gap)
    decreases |line|
  {
    if j < |line| {
      var n := |line| - 1;
      StretchIsNarrower(line[..n], i, j, gap);
      assert line[..n][i..j] == line[i..j];
    } else if i > 0 {
      TailIsNarrower(line, gap);
      StretchIsNarrower(line[1..], i - 1, j - 1, gap);
      assert line[1..][i - 1..j - 1] == line[i..j];
    } else {
      assert line[i..j] == line;
    }
  }

  lemma MeasuredPart(words: seq<Word>, i: nat, j: nat, box: Box)
    requires Measured(words, box) && i <= j <= |words|
    ensures Measured(words[i..j], box)
  {
  }

  /** Inside a legal line no break is forced. */
  lemma NoBreakInLine(line: Line, i: nat, j: nat, box: Box)
    requires Measured(line, box) && Legal(line, box) && i < j < |line|
    ensures Legal(line[i..j] + [line[j]], box)
  {
    StretchIsNarrower(line, i, j + 1, box.gap);
    assert line[i..j + 1] == line[i..j] + [line[j]];
  }

  /** The part after the first starts with what follows the first. */
  lemma SecondStarts<T>(parts: seq<seq<T>>, whole: seq<T>)
    requires Joined(parts) == whole && parts != [] && |parts[0]| < |whole|
    requires forall i :: 0 <= i < |parts| ==> parts[i] != []
    ensures |parts| > 1 && parts[1][0] == whole[|parts[0]|]
  {
    JoinedFirst(parts);
    assert parts[1..] != [];
    JoinedFirst(parts[1..]);
  }

  lemma StretchOfWhole<T>(before: seq<T>, block: seq<T>, n: nat, m: nat)
    requires |before| + m < n <= |before + block|
    ensures var o := (before + block)[0..n];
      o[|before|..|before| + m] == block[..m] && o[|before| + m] == block[m]
  {
  }

  /** The first greedy line reaches at least as far as the first line of any layout that starts no later. */
  lemma FirstLineReaches(lines: seq<Line>, others: seq<Line>, before: seq<Word>, block: seq<Word>, box: Box)
    requires Measured(before + block, box)
    requires Layout(lines, block, box) && Greedy(lines, box) && lines != []
    requires Layout(others, before + block, box) && others != []
    ensures |others[0]| <= |before| + |lines[0]|
  {
    LayoutRest(lines, block, box);
    LayoutRest(others, before + block, box);
    var o, l, all := others[0], lines[0], before + block;
    var i, j := |before|, |before| + |l|;
    if j < |o| {
      MeasuredPart(all, 0, |o|, box);
      SecondStarts(lines, block);
      StretchOfWhole(before, block, |o|, |l|);
      assert o == all[0..|o|] && l == block[..|l|];
      NoBreakInLine(o, i, j, box);
    }
  }

  lemma LayoutRest(lines: seq<Line>, block: seq<Word>, box: Box)
    requires Layout(lines, block, box) && lines != []
    ensures |lines[0]| <= |block| && block[..|lines[0]|] == lines[0]
    ensures Layout(lines[1..], block[|lines[0]|..], box)
    ensures Greedy(lines, box) ==> Greedy(lines[1..], box)
  {
    JoinedFirst(lines);
    assert forall i :: 0 <= i < |lines| - 1 ==> lines[1..][i] == lines[i + 1];
  }

  /** A greedy layout of the end of a text has no more lines than any layout of the whole text. */
  lemma {:induction false} GreedyNeverLoses(lines: seq<Line>, others: seq<Line>, before: seq<Word>, block: seq<Word>,
                                            box: Box)
    requires Measured(before + block, box)
    requires Layout(lines, block, box) && Greedy(lines, box)
    requires Layout(others, before + block, box)
    ensures |lines| <= |others|
    decreases |lines|
  {
    if lines != [] {
      JoinedFirst(lines);
      assert others != [];
      FirstLineReaches(lines, others, before, block, box);
      LayoutRest(lines, block, box);
      LayoutRest(others, before + block, box);
      var n, m := |lines[0]|, |others[0]|;
      var before' := (before + block[..n])[m..];
      assert before + block == (before + block[..n]) + block[n..];
      assert (before + block)[m..] == before' + block[n..];
      assert Measured(before' + block[n..], box) by {
        assert forall k :: 0 <= k < |before' + block[n..]| ==> (before' + block[n..])[k] == (before + block)[m + k];
      }
      GreedyNeverLoses(lines[1..], others[1..], before', block[n..], box);
    }
  }

  /** No legal split into consecutive lines uses fewer lines than the greedy one. */
  lemma GreedyIsOptimal(lines: seq<Line>, others: seq<Line>, block: seq<Word>, box: Box)
    requires Measured(block, box) && Layout(lines, block, box) && Greedy(lines, box) && Layout(others, block, box)
    ensures |lines| <= |others|
  {
    assert [] + block == block;
    GreedyNeverLoses(lines, others, [], block, box);
  }

  lemma FirstLinesMatch(lines: seq<Line>, others: seq<Line>, block: seq<Word>, box: Box)
    requires Measured(block, box) && lines != [] && others != []
    requires Layout(lines, block, box) && Greedy(lines, box)
    requires Layout(others, block, box) && Greedy(others, box)
    ensures lines[0] == others[0]
  {
    assert [] + block == block;
    FirstLineReaches(lines, others, [], block, box);
    FirstLineReaches(others, lines, [], block, box);
    LayoutRest(lines, block, box);
    LayoutRest(others, block, box);
  }

  /** Greedy layouts are unique: where each line ends is forced. */
  lemma {:induction false} GreedyIsUnique(lines: seq<Line>, others: seq<Line>, block: seq<Word>, box: Box)
    requires Measured(block, box)
    requires Layout(lines, block, box) && Greedy(lines, box)
    requires Layout(others, block, box) && Greedy(others, box)
    ensures lines == others
    decreases |lines|
  {
    GreedyIsOptimal(lines, others, block, box);
    GreedyIsOptimal(others, lines, block, box);
    if lines != [] {
      FirstLinesMatch(lines, others, block, box);
      LayoutRest(lines, block, box);
      LayoutRest(others, block, box);
      var n := |lines[0]|;
      MeasuredPart(block, n, |block|, box);
      GreedyIsUnique(lines[1..], others[1..], block[n..], box);
      assert lines == [lines[0]] + lines[1..] && others == [others[0]] + others[1..];
    }
  }

  // ── wrapping ──

  lemma JoinedLast(lines: seq<Line>, line: Line, w: Word)
    ensures Joined(lines + [line + [w]]) == Joined(lines + [line]) + [w]
    ensures Joined(lines + [line] + [[w]]) == Joined(lines + [line]) + [w]
  {
    assert (lines + [line])[..|lines|] == lines && (lines + [line + [w]])[..|lines|] == lines;
    assert (lines + [line] + [[w]])[..|lines| + 1] == lines + [line];
  }

  /** What the loop has laid out so far: finished lines and the one it is filling. */
  ghost predicate Filling(lines: seq<Line>, line: Line, done: seq<Word>, box: Box) {
    if line == [] then lines == [] && done == []
    else Layout(lines + [line], done, box) && Greedy(lines + [line], box)
  }

  lemma FillSame(lines: seq<Line>, line: Line, done: seq<Word>, w: Word, box: Box)
    requires Filling(lines, line, done, box) && Legal(line + [w], box)
    ensures Filling(lines, line + [w], done + [w], box)
  {
    var now := lines + [line + [w]];
    if line == [] {
      assert now[..0] == [] && [] + [w] == [w];
    } else {
      JoinedLast(lines, line, w);
      var was := lines + [line];
      assert forall i :: 0 <= i < |lines| ==> now[i] == was[i];
      assert now[|lines|][0] == was[|lines|][0];
    }
  }

  lemma FillNext(lines: seq<Line>, line: Line, done: seq<Word>, w: Word, box: Box)
    requires Filling(lines, line, done, box) && line != [] && !Legal(line + [w], box)
    ensures Filling(lines + [line], [w], done + [w], box)
  {
    JoinedLast(lines, line, w);
    var was, now := lines + [line], lines + [line] + [[w]];
    assert forall i :: 0 <= i < |was| ==> now[i] == was[i];
  }

  /** Wrapping loses nothing, every line of several words fits, no line breaks early, and so no legal split into
      lines is shorter. */
  method WrapLines(block: seq<Word>, box: Box) returns (lines: seq<Line>)
    ensures Layout(lines, block, box) && Greedy(lines, box)
    ensures Measured(block, box) ==> forall others :: Layout(others, block, box) ==> |lines| <= |others|
  {
    lines := [];
    var line: Line, used := [], 0.0;
    var i := 0;
    while i < |block|
      invariant 0 <= i <= |block| && (line == [] <==> i == 0)
      invariant Filling(lines, line, block[..i], box) && used == Used(line, box.gap)
    {
      var w := block[i];
      var adv := if line == [] then w.width else box.gap + w.width;
      assert block[..i + 1] == block[..i] + [w];
      assert (line + [w])[..|line|] == line;
      if line != [] && used + adv > box.maxw {
        FillNext(lines, line, block[..i], w, box);
        lines, line, used, adv := lines + [line], [], 0.0, w.width;
        assert [] + [w] == [w];
      } else {
        FillSame(lines, line, block[..i], w, box);
      }
      line, used := line + [w], used + adv;
      i := i + 1;
    }
    assert block[..i] == block;
    if line != [] {
      lines := lines + [line];
    }
    if Measured(block, box) {
      forall others | Layout(others, block, box) ensures |lines| <= |others| {
        GreedyIsOptimal(lines, others, block, box);
      }
    }
  }

  // ── grouping ──

  /** Some legal split of the words takes at most two lines. */
  ghost predicate FitsBlock(words: seq<Word>, box: Box) {
    exists lines :: Layout(lines, words, box) && |lines| <= MAX_LINES
  }

  predicate Pause(a: Word, b: Word, seconds: real) {
    b.from - a.to > seconds
  }

  ghost predicate GoodBlock(block: seq<Word>, box: Box, seconds: real) {
    && block != [] && FitsBlock(block, box)
    && forall i :: 0 < i < |block| ==> !Pause(block[i - 1], block[i], seconds)
  }

  /** A new block starts after a pause, or where one more word leaves no legal split into two lines. */
  ghost predicate Justified(block: seq<Word>, next: Word, box: Box, seconds: real)
    requires block != []
  {
    Pause(block[|block| - 1], next, seconds) || !FitsBlock(block + [next], box)
  }

  ghost predicate BreakAt(blocks: seq<seq<Word>>, i: int, box: Box, seconds: real) {
    0 < i < |blocks| && blocks[i - 1] != [] && blocks[i] != [] ==>
      Justified(blocks[i - 1], blocks[i][0], box, seconds)
  }

  ghost predicate Grouped(blocks: seq<seq<Word>>, words: seq<Word>, box: Box, seconds: real) {
    && Joined(blocks) == words
    && (forall i :: 0 <= i < |blocks| ==> blocks[i] != [])
    && (forall i {:trigger GoodBlock(blocks[i], box, seconds)} :: 0 <= i < |blocks| ==>
          GoodBlock(blocks[i], box, seconds))
    && (forall i {:trigger BreakAt(blocks, i, box, seconds)} :: BreakAt(blocks, i, box, seconds))
  }

  ghost predicate Gathering(blocks: seq<seq<Word>>, cur: seq<Word>, done: seq<Word>, box: Box, seconds: real) {
    if cur == [] then blocks == [] && done == []
    else Grouped(blocks + [cur], done, box, seconds)
  }

  lemma OneWordFits(w: Word, box: Box)
    ensures FitsBlock([w], box)
  {
    assert [[w]][..0] == [];
    assert Layout([[w]], [w], box);
  }

  lemma BlockGrows(cur: seq<Word>, w: Word, box: Box, seconds: real)
    requires GoodBlock(cur, box, seconds) && FitsBlock(cur + [w], box) && !Pause(cur[|cur| - 1], w, seconds)
    ensures GoodBlock(cur + [w], box, seconds)
  {
    var now := cur + [w];
    forall i | 0 < i < |now| ensures !Pause(now[i - 1], now[i], seconds) {
      if i < |cur| {
        assert !Pause(cur[i - 1], cur[i], seconds);
      }
    }
  }

  lemma LastBlockGrows(blocks: seq<seq<Word>>, cur: seq<Word>, done: seq<Word>, w: Word, box: Box, seconds: real)
    requires cur != [] && Grouped(blocks + [cur], done, box, seconds) && GoodBlock(cur + [w], box, seconds)
    ensures Grouped(blocks + [cur + [w]], done + [w], box, seconds)
  {
    var was, now := blocks + [cur], blocks + [cur + [w]];
    JoinedLast(blocks, cur, w);
    forall i | 0 <= i < |now| ensures GoodBlock(now[i], box, seconds) {
      if i < |blocks| {
        assert GoodBlock(was[i], box, seconds);
      }
    }
    forall i ensures BreakAt(now, i, box, seconds) {
      assert BreakAt(was, i, box, seconds);
    }
  }

  lemma GatherSame(blocks: seq<seq<Word>>, cur: seq<Word>, done: seq<Word>, w: Word, box: Box, seconds: real)
    requires Gathering(blocks, cur, done, box, seconds) && FitsBlock(cur + [w], box)
    requires cur != [] ==> !Pause(cur[|cur| - 1], w, seconds)
    ensures Gathering(blocks, cur + [w], done + [w], box, seconds)
  {
    if cur == [] {
      var now := blocks + [cur + [w]];
      assert now[..0] == [] && [] + [w] == [w];
    } else {
      assert GoodBlock((blocks + [cur])[|blocks|], box, seconds);
      BlockGrows(cur, w, box, seconds);
      LastBlockGrows(blocks, cur, done, w, box, seconds);
    }
  }

  lemma GatherNext(blocks: seq<seq<Word>>, cur: seq<Word>, done: seq<Word>, w: Word, box: Box, seconds: real)
    requires Gathering(blocks, cur, done, box, seconds) && cur != [] && Justified(cur, w, box, seconds)
    ensures Gathering(blocks + [cur], [w], done + [w], box, seconds)
  {
    JoinedLast(blocks, cur, w);
    OneWordFits(w, box);
    var was, now := blocks + [cur], blocks + [cur] + [[w]];
    forall i | 0 <= i < |now| ensures GoodBlock(now[i], box, seconds) {
      if i < |was| {
        assert GoodBlock(was[i], box, seconds);
      }
    }
    forall i ensures BreakAt(now, i, box, seconds) {
      assert BreakAt(was, i, box, seconds);
    }
  }

  /** A greedy layout tells whether there is any legal one of two lines. */
  lemma WrapDecides(lines: seq<Line>, words: seq<Word>, box: Box)
    requires Measured(words, box) && Layout(lines, words, box) && Greedy(lines, box)
    ensures FitsBlock(words, box) <==> |lines| <= MAX_LINES
  {
    if FitsBlock(words, box) {
      var others :| Layout(others, words, box) && |others| <= MAX_LINES;
      GreedyIsOptimal(lines, others, words, box);
    }
  }

  /** Whether the next word starts a new block. */
  method StartsBlock(cur: seq<Word>, w: Word, box: Box, seconds: real) returns (breaks: bool)
    requires cur != [] && Measured(cur + [w], box)
    ensures breaks <==> Justified(cur, w, box, seconds)
  {
    if Pause(cur[|cur| - 1], w, seconds) {
      return true;
    }
    var lines := WrapLines(cur + [w], box);
    WrapDecides(lines, cur + [w], box);
    return |lines| > MAX_LINES;
  }

  lemma GatherStep(blocks: seq<seq<Word>>, cur: seq<Word>, done: seq<Word>, w: Word, breaks: bool, box: Box,
                   seconds: real)
    requires Gathering(blocks, cur, done, box, seconds)
    requires if cur == [] then !breaks else breaks <==> Justified(cur, w, box, seconds)
    ensures Gathering(if breaks then blocks + [cur] else blocks, if breaks then [w] else cur + [w], done + [w],
                      box, seconds)
  {
    if breaks {
      GatherNext(blocks, cur, done, w, box, seconds);
    } else {
      OneWordFits(w, box);
      assert cur == [] ==> cur + [w] == [w];
      GatherSame(blocks, cur, done, w, box, seconds);
    }
  }

  lemma MeasuredMore(cur: seq<Word>, w: Word, box: Box)
    requires Measured(cur, box) && w.width >= 0.0
    ensures Measured(cur + [w], box) && Measured([w], box)
  {
  }

  /** Grouping loses nothing; every block has a legal split into two lines and no pause inside; and each new block
      is justified by a pause, or by there being no legal split into two lines with one more word. */
  method GroupBlocks(words: seq<Word>, box: Box, windowMs: real) returns (blocks: seq<seq<Word>>)
    requires Measured(words, box)
    ensures Grouped(blocks, words, box, windowMs / 1000.0)
  {
    var seconds := windowMs / 1000.0;
    blocks := [];
    var cur: seq<Word> := [];
    var i := 0;
    while i < |words|
      invariant 0 <= i <= |words| && (cur == [] <==> i == 0) && Measured(cur, box)
      invariant Gathering(blocks, cur, words[..i], box, seconds)
    {
      var w := words[i];
      MeasuredMore(cur, w, box);
      var breaks := false;
      if cur != [] {
        breaks := StartsBlock(cur, w, box, seconds);
      }
      GatherStep(blocks, cur, words[..i], w, breaks, box, seconds);
      assert words[..i + 1] == words[..i] + [w];
      if breaks {
        blocks, cur := blocks + [cur], [];
        assert [] + [w] == [w];
      }
      cur := cur + [w];
      i := i + 1;
    }
    assert words[..i] == words;
    if cur != [] {
      blocks := blocks + [cur];
    }
  }

  // ── only one grouping ──

  lemma {:induction false} LayoutShrinks(lines: seq<Line>, words: seq<Word>, box: Box)
    requires Layout(lines, words, box) && words != [] && Measured(words, box)
    ensures exists fewer :: Layout(fewer, words[..|words| - 1], box) && |fewer| <= |lines|
    decreases |lines|
  {
    var n := |lines| - 1;
    var init, last := lines[..n], lines[n];
    assert Layout(init, Joined(init), box);
    if last == [] {
      assert Joined(init) == words;
      LayoutShrinks(init, words, box);
      var fewer :| Layout(fewer, words[..|words| - 1], box) && |fewer| <= |init|;
    } else {
      var short := last[..|last| - 1];
      var fewer := init + [short];
      assert fewer[..n] == init;
      assert Joined(fewer) == Joined(init) + short == words[..|words| - 1];
      assert Legal(last, box);
      assert last[|last| - 1] == words[|words| - 1];
      assert Layout(fewer, words[..|words| - 1], box);
    }
  }

  lemma {:induction false} PrefixFits(words: seq<Word>, k: nat, box: Box)
    requires FitsBlock(words, box) && k <= |words| && Measured(words, box)
    ensures FitsBlock(words[..k], box)
    decreases |words|
  {
    if k == |words| {
      assert words[..k] == words;
    } else {
      var lines :| Layout(lines, words, box) && |lines| <= MAX_LINES;
      LayoutShrinks(lines, words, box);
      var init := words[..|words| - 1];
      PrefixFits(init, k, box);
      assert init[..k] == words[..k];
    }
  }

  /** Inside a good block no break is justified. */
  lemma NoBreakInside(block: seq<Word>, n: nat, box: Box, seconds: real)
    requires GoodBlock(block, box, seconds) && Measured(block, box) && 0 < n < |block|
    ensures !Justified(block[..n], block[n], box, seconds)
  {
    PrefixFits(block, n + 1, box);
    assert block[..n + 1] == block[..n] + [block[n]];
  }

  lemma FirstBlockReaches(blocks: seq<seq<Word>>, others: seq<seq<Word>>, words: seq<Word>, box: Box, seconds: real)
    requires Measured(words, box) && words != []
    requires Grouped(blocks, words, box, seconds) && Grouped(others, words, box, seconds)
    ensures blocks != [] && others != [] && |others[0]| <= |blocks[0]|
  {
    GroupRest(blocks, words, box, seconds);
    GroupRest(others, words, box, seconds);
    var b, o := blocks[0], others[0];
    if |b| < |o| {
      SecondStarts(blocks, words);
      assert BreakAt(blocks, 1, box, seconds) && GoodBlock(o, box, seconds);
      MeasuredPart(words, 0, |o|, box);
      assert words[0..|o|] == o && o[..|b|] == b;
      NoBreakInside(o, |b|, box, seconds);
    }
  }

  /** The conditions leave no choice: a text has one grouping. */
  lemma {:induction false} GroupingIsUnique(blocks: seq<seq<Word>>, others: seq<seq<Word>>, words: seq<Word>, box: Box,
                                            seconds: real)
    requires Measured(words, box)
    requires Grouped(blocks, words, box, seconds) && Grouped(others, words, box, seconds)
    ensures blocks == others
    decreases |words|
  {
    if words == [] {
      EmptyGroups(blocks, box, seconds);
      EmptyGroups(others, box, seconds);
    } else {
      FirstBlockReaches(blocks, others, words, box, seconds);
      FirstBlockReaches(others, blocks, words, box, seconds);
      GroupRest(blocks, words, box, seconds);
      GroupRest(others, words, box, seconds);
      var n := |blocks[0]|;
      MeasuredPart(words, n, |words|, box);
      GroupingIsUnique(blocks[1..], others[1..], words[n..], box, seconds);
      assert blocks == [blocks[0]] + blocks[1..] && others == [others[0]] + others[1..];
    }
  }

  lemma EmptyGroups(blocks: seq<seq<Word>>, box: Box, seconds: real)
    requires Grouped(blocks, [], box, seconds)
    ensures blocks == []
  {
    if blocks != [] {
      JoinedFirst(blocks);
    }
  }

  lemma GroupRest(blocks: seq<seq<Word>>, words: seq<Word>, box: Box, seconds: real)
    requires Grouped(blocks, words, box, seconds) && blocks != []
    ensures 0 < |blocks[0]| <= |words| && words[..|blocks[0]|] == blocks[0]
    ensures Grouped(blocks[1..], words[|blocks[0]|..], box, seconds)
  {
    JoinedFirst(blocks);
    var rest := blocks[1..];
    forall i | 0 <= i < |rest| ensures GoodBlock(rest[i], box, seconds) {
      assert GoodBlock(blocks[i + 1], box, seconds);
    }
    forall i ensures BreakAt(rest, i, box, seconds) {
      assert BreakAt(blocks, i + 1, box, seconds);
    }
  }
}
