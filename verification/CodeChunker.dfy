/** Overlapping line windows and symbol chunks of code-version/extraction/code_chunker.py.

    A line is a string without a line feed; the other characters at which splitlines
    also breaks are left out.  `space` says which characters strip removes. */
module CodeChunker {
  type Line = string

  datatype Params = Params(target: int, overlap: int, max: int)

  /** Start line and end line count from 1 and are inclusive. */
  datatype Chunk = Chunk(number: nat, startLine: int, endLine: int, content: string)

  /** A window of lines [start..end). */
  datatype Window = Window(start: nat, end: nat)

  // ----- Text -----

  predicate OneLine(l: Line) {
    '\n' !in l
  }

  predicate OneLines(ls: seq<Line>) {
    forall l :: l in ls ==> OneLine(l)
  }

  function Join(ls: seq<Line>): string {
    if ls == [] then "" else if |ls| == 1 then ls[0] else ls[0] + "\n" + Join(ls[1..])
  }

  function NewlineAt(s: string): (i: nat)
    ensures i <= |s| && '\n' !in s[..i] && (i < |s| ==> s[i] == '\n')
  {
    if s == "" || s[0] == '\n' then 0 else 1 + NewlineAt(s[1..])
  }

  function SplitLines(s: string): seq<Line>
    decreases |s|
  {
    if s == "" then [] else
    var i := NewlineAt(s);
    if i == |s| then [s] else [s[..i]] + SplitLines(s[i + 1..])
  }

  lemma {:induction false} FirstNewline(s: string, i: nat)
    requires i <= |s| && '\n' !in s[..i] && (i < |s| ==> s[i] == '\n')
    ensures NewlineAt(s) == i
  {
    if i > 0 {
      assert s[..i] == [s[0]] + s[1..][..i - 1];
      FirstNewline(s[1..], i - 1);
    }
  }

  lemma SplitHead(a: Line, rest: string)
    requires OneLine(a)
    ensures SplitLines(a + "\n" + rest) == [a] + SplitLines(rest)
  {
    var s := a + "\n" + rest;
    assert s[..|a|] == a && s[|a| + 1..] == rest;
    FirstNewline(s, |a|);
  }

  lemma SplitOne(l: Line)
    requires OneLine(l)
    ensures SplitLines(l) == if l == "" then [] else [l]
  {
    assert l[..|l|] == l;
    FirstNewline(l, |l|);
  }

  lemma TailLines(ls: seq<Line>)
    requires OneLines(ls) && ls != []
    ensures OneLines(ls[1..])
  {
  }

  /** Joining and splitting again loses exactly one trailing empty line. */
  lemma {:induction false} SplitJoin(ls: seq<Line>)
    requires OneLines(ls)
    ensures SplitLines(Join(ls)) == if ls != [] && ls[|ls| - 1] == "" then ls[..|ls| - 1] else ls
  {
    if |ls| == 1 {
      assert ls[0] in ls;
      SplitOne(ls[0]);
      assert ls == [ls[0]];
    } else if |ls| > 1 {
      hide SplitLines, OneLine;
      assert ls[0] in ls;
      assert OneLines(ls[1..]) by { TailLines(ls); }
      SplitHead(ls[0], Join(ls[1..]));
      SplitJoin(ls[1..]);
      assert ls == [ls[0]] + ls[1..] && ls[1..][|ls| - 2] == ls[|ls| - 1];
    }
  }

  predicate Blank(s: string, space: char -> bool) {
    forall c :: c in s ==> space(c)
  }

  lemma {:induction false} JoinBlank(ls: seq<Line>, space: char -> bool)
    requires space('\n')
    ensures Blank(Join(ls), space) <==> forall l :: l in ls ==> Blank(l, space)
  {
    if |ls| == 1 {
      assert ls == [ls[0]];
    } else if |ls| > 1 {
      JoinBlank(ls[1..], space);
      var s := Join(ls);
      assert s == ls[0] + "\n" + Join(ls[1..]);
      assert ls == [ls[0]] + ls[1..];
      BlankParts(ls[0], "\n", Join(ls[1..]), space);
    }
  }

  lemma BlankParts(a: string, b: string, c: string, space: char -> bool)
    ensures Blank(a + b + c, space) <==> Blank(a, space) && Blank(b, space) && Blank(c, space)
  {
    var s := a + b + c;
    assert forall x :: x in s <==> x in a || x in b || x in c;
  }

  /** Characters of some lines, each with its line feed. */
  function Chars(ls: seq<Line>): nat {
    if ls == [] then 0 else Chars(ls[..|ls| - 1]) + |ls[|ls| - 1]| + 1
  }

  // ----- Windows -----

  /** Where the window from `start` ends, once the lines before i are in it. */
  function Fill(ls: seq<Line>, p: Params, start: nat, i: nat, chars: int): nat
    decreases |ls| - i
  {
    if i >= |ls| then i
    else if chars + |ls[i]| + 1 > p.target && i > start then i
    else if chars + |ls[i]| + 1 >= p.max then i + 1
    else Fill(ls, p, start, i + 1, chars + |ls[i]| + 1)
  }

  function End(ls: seq<Line>, p: Params, start: nat): nat {
    Fill(ls, p, start, start, 0)
  }

  /** Lines before `end` to take again, until they hold `overlap` characters. */
  function Overlap(ls: seq<Line>, p: Params, end: nat, chars: int): nat
    requires end <= |ls|
  {
    if end == 0 || chars >= p.overlap then 0 else 1 + Overlap(ls, p, end - 1, chars + |ls[end - 1]| + 1)
  }

  function NextStart(ls: seq<Line>, p: Params, start: nat, end: nat): int
    requires end <= |ls|
  {
    var back := end - Overlap(ls, p, end, 0);
    if start + 1 >= back then start + 1 else back
  }

  /** A window holds at least one line; with two or more it stays within the target;
      and it ends only where it must: at the end of the text, where the next line
      would not fit, or where the maximum is reached. */
  ghost predicate WindowOk(ls: seq<Line>, p: Params, w: Window) {
    && w.start < w.end <= |ls|
    && (w.end - w.start >= 2 ==> Chars(ls[w.start..w.end]) <= p.target)
    && (w.end == |ls| || Chars(ls[w.start..w.end]) + |ls[w.end]| + 1 > p.target || Chars(ls[w.start..w.end]) >= p.max)
    && (forall k :: w.start < k < w.end ==> Chars(ls[w.start..k]) < p.max)
  }

  lemma CharsMore(ls: seq<Line>, i: nat, j: nat)
    requires i <= j < |ls|
    ensures Chars(ls[i..j + 1]) == Chars(ls[i..j]) + |ls[j]| + 1
  {
    assert ls[i..j + 1] == ls[i..j] + [ls[j]];
  }

  lemma {:induction false} FillOk(ls: seq<Line>, p: Params, start: nat, i: nat)
    requires start < |ls| && start <= i <= |ls| && (i - start >= 2 ==> Chars(ls[start..i]) <= p.target)
    requires forall k :: start < k <= i ==> Chars(ls[start..k]) < p.max
    ensures WindowOk(ls, p, Window(start, Fill(ls, p, start, i, Chars(ls[start..i]))))
    ensures i <= Fill(ls, p, start, i, Chars(ls[start..i]))
    decreases |ls| - i
  {
    hide Chars;
    if i < |ls| {
      CharsMore(ls, start, i);
      var n := Chars(ls[start..i + 1]);
      if !(n > p.target && i > start) && n < p.max { FillOk(ls, p, start, i + 1); }
    }
  }

  lemma EndOk(ls: seq<Line>, p: Params, start: nat)
    requires start < |ls|
    ensures WindowOk(ls, p, Window(start, End(ls, p, start)))
  {
    assert Chars(ls[start..start]) == 0;
    FillOk(ls, p, start, start);
  }

  lemma {:induction false} CharsLess(ls: seq<Line>, i: nat, i': nat, j: nat)
    requires i <= i' <= j <= |ls|
    ensures Chars(ls[i'..j]) <= Chars(ls[i..j])
  {
    if i' < j {
      CharsLess(ls, i, i', j - 1);
      CharsMore(ls, i, j - 1);
      CharsMore(ls, i', j - 1);
    }
  }

  /** Starting later never ends earlier. */
  lemma {:induction false} LaterFill(ls: seq<Line>, p: Params, w: Window, start: nat, i: nat)
    requires WindowOk(ls, p, w) && w.start < start < w.end && start <= i <= w.end
    ensures Fill(ls, p, start, i, Chars(ls[start..i])) >= w.end
    decreases w.end - i
  {
    hide Chars, WindowOk;
    if i < w.end {
      WindowFacts(ls, p, w, i);
      CharsLess(ls, w.start, start, i + 1);
      CharsMore(ls, start, i);
      if i + 1 < w.end {
        LaterFill(ls, p, w, start, i + 1);
      } else {
        FillGrows(ls, p, start, i + 1, Chars(ls[start..i + 1]));
      }
    } else {
      Reach(ls, p, w);
      FillGrows(ls, p, start, i, Chars(ls[start..i]));
    }
  }

  lemma WindowFacts(ls: seq<Line>, p: Params, w: Window, i: nat)
    requires WindowOk(ls, p, w) && w.start < i < w.end
    ensures i < |ls| && Chars(ls[w.start..i + 1]) <= p.target && (i + 1 < w.end ==> Chars(ls[w.start..i + 1]) < p.max)
  {
    hide Chars;
    Longer(ls, w.start, i + 1, w.end);
  }

  lemma {:induction false} Longer(ls: seq<Line>, i: nat, j: nat, j': nat)
    requires i <= j <= j' <= |ls|
    ensures Chars(ls[i..j]) <= Chars(ls[i..j'])
  {
    if j < j' {
      Longer(ls, i, j, j' - 1);
      CharsMore(ls, i, j' - 1);
    }
  }

  lemma {:induction false} FillGrows(ls: seq<Line>, p: Params, start: nat, i: nat, chars: int)
    ensures Fill(ls, p, start, i, chars) >= i
    decreases |ls| - i
  {
    if i < |ls| { FillGrows(ls, p, start, i + 1, chars + |ls[i]| + 1); }
  }

  // ----- All windows of a text -----

  function Windows(ls: seq<Line>, p: Params, start: nat): seq<Window>
    requires start <= |ls|
    decreases |ls| - start
  {
    if start == |ls| then [] else
    var end := End(ls, p, start);
    EndOk(ls, p, start);
    OverlapAtMost(ls, p, end, 0);
    [Window(start, end)] + if end >= |ls| then [] else Windows(ls, p, NextStart(ls, p, start, end))
  }

  lemma {:induction false} OverlapAtMost(ls: seq<Line>, p: Params, end: nat, chars: int)
    requires end <= |ls|
    ensures Overlap(ls, p, end, chars) <= end
  {
    if end > 0 && chars < p.overlap { OverlapAtMost(ls, p, end - 1, chars + |ls[end - 1]| + 1); }
  }

  /** The repeated lines are the fewest that hold `overlap` characters, or all. */
  lemma {:induction false} OverlapIsLeast(ls: seq<Line>, p: Params, end: nat, chars: int)
    requires end <= |ls|
    ensures var n := Overlap(ls, p, end, chars);
      && n <= end && (n == end || chars + Chars(ls[end - n..end]) >= p.overlap)
      && (forall m :: end - n < m <= end ==> chars + Chars(ls[m..end]) < p.overlap)
  {
    hide Chars;
    NoChars(ls, end);
    if end > 0 && chars < p.overlap {
      OverlapIsLeast(ls, p, end - 1, chars + |ls[end - 1]| + 1);
      var n := Overlap(ls, p, end, chars);
      assert n == 1 + Overlap(ls, p, end - 1, chars + |ls[end - 1]| + 1);
      hide Overlap;
      CharsMore(ls, end - n, end - 1);
      forall m | end - n < m <= end ensures chars + Chars(ls[m..end]) < p.overlap {
        if m < end { CharsMore(ls, m, end - 1); }
      }
    }
  }

  /** Starts strictly increase, ends never decrease, and there is no gap: the next window
      repeats the fewest lines that hold the overlap, or all but the first if they do not. */
  ghost predicate Follows(ls: seq<Line>, p: Params, v: Window, w: Window) {
    && v.start < w.start <= v.end <= w.end <= |ls|
    && (w.start == v.start + 1 || Chars(ls[w.start..v.end]) >= p.overlap)
    && (forall m :: w.start < m <= v.end ==> Chars(ls[m..v.end]) < p.overlap)
  }

  lemma NextFollows(ls: seq<Line>, p: Params, start: nat)
    requires start < |ls| && End(ls, p, start) < |ls|
    ensures var end := End(ls, p, start); var next := NextStart(ls, p, start, end);
      0 <= next < |ls| && Follows(ls, p, Window(start, end), Window(next, End(ls, p, next)))
  {
    hide Chars, WindowOk, Fill;
    EndOk(ls, p, start);
    var end := End(ls, p, start);
    Reach(ls, p, Window(start, end));
    OverlapIsLeast(ls, p, end, 0);
    var next := NextStart(ls, p, start, end);
    EndOk(ls, p, next);
    Reach(ls, p, Window(next, End(ls, p, next)));
    if next < end {
      NoChars(ls, next);
      LaterFill(ls, p, Window(start, end), next, next);
    } else {
      FillGrows(ls, p, next, next, 0);
    }
  }

  lemma NoChars(ls: seq<Line>, i: nat)
    requires i <= |ls|
    ensures Chars(ls[i..i]) == 0
  {
  }

  lemma Reach(ls: seq<Line>, p: Params, w: Window)
    requires WindowOk(ls, p, w)
    ensures w.start < w.end <= |ls|
  {
  }

  /** The windows of a text: each is as large as allowed, they follow each other
      without a gap, the first starts and the last ends with the text. */
  ghost predicate Tiling(ls: seq<Line>, p: Params, start: nat, ws: seq<Window>) {
    && (forall i :: 0 <= i < |ws| ==> WindowOk(ls, p, ws[i]))
    && (forall i :: 0 <= i < |ws| - 1 ==> Follows(ls, p, ws[i], ws[i + 1]))
    && (start < |ls| ==> ws != [] && ws[0].start == start && ws[|ws| - 1].end == |ls|)
    && (start == |ls| ==> ws == [])
  }

  lemma {:induction false} WindowsTile(ls: seq<Line>, p: Params, start: nat)
    requires start <= |ls|
    ensures Tiling(ls, p, start, Windows(ls, p, start))
    decreases |ls| - start
  {
    hide Chars, WindowOk, Fill;
    if start < |ls| {
      var end := End(ls, p, start);
      EndOk(ls, p, start);
      Reach(ls, p, Window(start, end));
      if end < |ls| {
        NextFollows(ls, p, start);
        var next := NextStart(ls, p, start, end);
        WindowsTile(ls, p, next);
        HeadWindow(ls, p, next);
      }
    }
  }

  lemma HeadWindow(ls: seq<Line>, p: Params, start: nat)
    requires start < |ls|
    ensures Windows(ls, p, start) != [] && Windows(ls, p, start)[0] == Window(start, End(ls, p, start))
  {
    hide Fill, NextStart, Overlap;
  }

  /** Every line lies in a window. */
  lemma {:induction false} EveryLineIsCovered(ls: seq<Line>, p: Params, start: nat, ws: seq<Window>, k: nat)
    requires Tiling(ls, p, start, ws) && start <= k < |ls|
    ensures exists i :: 0 <= i < |ws| && ws[i].start <= k < ws[i].end
  {
    hide WindowOk;
    var i := 0;
    while !(ws[i].start <= k < ws[i].end)
      invariant 0 <= i < |ws| && ws[i].start <= k
      decreases |ws| - i
    {
      assert i < |ws| - 1;
      assert Follows(ls, p, ws[i], ws[i + 1]);
      i := i + 1;
    }
  }

  // ----- Chunks -----

  function ChunkOf(ls: seq<Line>, w: Window, base: int, number: nat): Chunk
    requires w.start <= w.end <= |ls|
  {
    Chunk(number, base + w.start, base + w.end - 1, Join(ls[w.start..w.end]))
  }

  /** A chunk for every window that is not blank, numbered from 1. */
  function Chunks(ls: seq<Line>, space: char -> bool, base: int, ws: seq<Window>): seq<Chunk>
    requires forall w :: w in ws ==> w.start <= w.end <= |ls|
  {
    if ws == [] then [] else
    var cs, w := Chunks(ls, space, base, ws[..|ws| - 1]), ws[|ws| - 1];
    if Blank(Join(ls[w.start..w.end]), space) then cs else cs + [ChunkOf(ls, w, base, |cs| + 1)]
  }

  /** Every chunk is a window that is not blank, with the text of its lines; chunk
      numbers count from 1. */
  ghost predicate ChunkOk(ls: seq<Line>, space: char -> bool, base: int, ws: seq<Window>, c: Chunk) {
    exists w :: w in ws && w.start < w.end <= |ls| && c == ChunkOf(ls, w, base, c.number) && !Blank(c.content, space)
  }

  lemma {:induction false} ChunksAre(ls: seq<Line>, space: char -> bool, base: int, ws: seq<Window>)
    requires forall w :: w in ws ==> w.start < w.end <= |ls|
    ensures var cs := Chunks(ls, space, base, ws);
      && (forall i :: 0 <= i < |cs| ==> cs[i].number == i + 1 && ChunkOk(ls, space, base, ws, cs[i]))
      && (forall w :: w in ws && !Blank(Join(ls[w.start..w.end]), space) ==>
            exists c :: c in cs && c == ChunkOf(ls, w, base, c.number))
  {
    hide Blank, Join;
    if ws != [] {
      var init, w := ws[..|ws| - 1], ws[|ws| - 1];
      ChunksAre(ls, space, base, init);
      var before, cs := Chunks(ls, space, base, init), Chunks(ls, space, base, ws);
      forall i | 0 <= i < |cs| ensures cs[i].number == i + 1 && ChunkOk(ls, space, base, ws, cs[i]) {
        if i < |before| {
          assert ChunkOk(ls, space, base, init, before[i]);
          var v :| v in init && v.start < v.end <= |ls| && before[i] == ChunkOf(ls, v, base, before[i].number) &&
            !Blank(before[i].content, space);
          assert v in ws;
        }
      }
      forall v | v in ws && !Blank(Join(ls[v.start..v.end]), space)
        ensures exists c :: c in cs && c == ChunkOf(ls, v, base, c.number)
      {
        if v in init {
          var c :| c in before && c == ChunkOf(ls, v, base, c.number);
          assert c in cs;
        } else {
          assert cs[|before|] in cs;
        }
      }
    }
  }

  /** Line number k, counted from 1, is there and not blank. */
  ghost predicate HasText(ls: seq<Line>, space: char -> bool, k: int) {
    1 <= k <= |ls| && !Blank(ls[k - 1], space)
  }

  ghost predicate Covered(chunks: seq<Chunk>, k: int) {
    exists c :: c in chunks && c.startLine <= k <= c.endLine
  }

  /** A line that is not blank is in the text of some chunk. */
  lemma NoTextIsLost(ls: seq<Line>, space: char -> bool, base: int, p: Params, ws: seq<Window>, k: int)
    requires space('\n') && HasText(ls, space, k) && Tiling(ls, p, 0, ws)
    requires forall w :: w in ws ==> w.start < w.end <= |ls|
    ensures Covered(Chunks(ls, space, base, ws), base - 1 + k)
  {
    hide Blank, Join, Tiling, Chunks;
    EveryLineIsCovered(ls, p, 0, ws, k - 1);
    var i :| 0 <= i < |ws| && ws[i].start <= k - 1 < ws[i].end;
    var w := ws[i];
    JoinBlank(ls[w.start..w.end], space);
    assert ls[w.start..w.end][k - 1 - w.start] == ls[k - 1];
    ChunksAre(ls, space, base, ws);
    assert w in ws;
  }

  // ----- The program -----

  /** The inner loop: take lines until the window is full. */
  method FillWindow(ls: seq<Line>, p: Params, start: nat) returns (end: nat)
    requires start < |ls|
    ensures end == End(ls, p, start)
  {
    var chars := 0;
    end := start;
    while end < |ls|
      invariant start <= end <= |ls|
      invariant Fill(ls, p, start, end, chars) == End(ls, p, start)
      decreases |ls| - end
    {
      var n := |ls[end]| + 1;
      if chars + n > p.target && end > start { return; }
      chars := chars + n;
      end := end + 1;
      if chars >= p.max { return; }
    }
  }

  method OverlapLineCount(ls: seq<Line>, end: nat, p: Params) returns (count: nat)
    requires end <= |ls|
    ensures count == Overlap(ls, p, end, 0)
  {
    var chars, cursor: nat := 0, end;
    count := 0;
    while cursor > 0 && chars < p.overlap
      invariant cursor + count == end
      invariant count + Overlap(ls, p, cursor, chars) == Overlap(ls, p, end, 0)
      decreases cursor
    {
      chars := chars + |ls[cursor - 1]| + 1;
      count := count + 1;
      cursor := cursor - 1;
    }
  }

  /** The line windows of a text.  Their chunks carry the text of exactly the lines
      they report, and no line with content is left out. */
  method ChunkLineWindows(ls: seq<Line>, space: char -> bool, p: Params, base: int)
    returns (chunks: seq<Chunk>, ghost ws: seq<Window>)
    requires space('\n')
    ensures Tiling(ls, p, 0, ws) && (forall w :: w in ws ==> w.start < w.end <= |ls|)
    ensures chunks == Chunks(ls, space, base, ws)
    ensures forall i :: 0 <= i < |chunks| ==> chunks[i].number == i + 1 && ChunkOk(ls, space, base, ws, chunks[i])
    ensures forall k :: HasText(ls, space, k) ==> Covered(chunks, base - 1 + k)
  {
    hide Chars, End, NextStart, Overlap, Join, Blank, WindowOk, Windows, Chunks, Tiling, HasText, Covered, ChunkOk;
    NoWindows(ls, space, p, base);
    chunks, ws := [], [];
    var start, number, done := 0, 1, ls == [];
    ghost var all := Windows(ls, p, 0);
    while start < |ls| && !done
      invariant start <= |ls| && (!done ==> start < |ls|) && number == |chunks| + 1
      invariant done ==> ws == all
      invariant !done ==> all == ws + Windows(ls, p, start)
      invariant forall w :: w in ws ==> w.start < w.end <= |ls|
      invariant chunks == Chunks(ls, space, base, ws)
      decreases |ls| - start, !done
    {
      var end := FillWindow(ls, p, start);
      EndOk(ls, p, start);
      Reach(ls, p, Window(start, end));
      ghost var w := Window(start, end);
      ChunksMore(ls, space, base, ws, w);
      var content := Join(ls[start..end]);
      if !Blank(content, space) {
        chunks := chunks + [Chunk(number, base + start, base + end - 1, content)];
        number := number + 1;
      }
      UnfoldWindows(ls, p, start);
      ghost var rest := if end >= |ls| then [] else Windows(ls, p, NextStart(ls, p, start, end));
      Regroup(ws, [w], rest);
      ws := ws + [w];
      if end >= |ls| {
        done := true;
      } else {
        var overlap := OverlapLineCount(ls, end, p);
        var back := end - overlap;
        NextIs(ls, p, start, end);
        start := if start + 1 >= back then start + 1 else back;
      }
    }
    WindowsTile(ls, p, 0);
    ChunksAre(ls, space, base, ws);
    forall k | HasText(ls, space, k) ensures Covered(chunks, base - 1 + k) {
      NoTextIsLost(ls, space, base, p, ws, k);
    }
  }

  lemma NoWindows(ls: seq<Line>, space: char -> bool, p: Params, base: int)
    ensures Chunks(ls, space, base, []) == [] && (ls == [] ==> Windows(ls, p, 0) == [])
  {
  }

  lemma ChunksMore(ls: seq<Line>, space: char -> bool, base: int, ws: seq<Window>, w: Window)
    requires (forall v :: v in ws ==> v.start < v.end <= |ls|) && w.start < w.end <= |ls|
    ensures var cs := Chunks(ls, space, base, ws);
      Chunks(ls, space, base, ws + [w]) == if Blank(Join(ls[w.start..w.end]), space) then cs
        else cs + [ChunkOf(ls, w, base, |cs| + 1)]
  {
    hide Blank, Join;
    assert (ws + [w])[..|ws|] == ws;
  }

  lemma NextIs(ls: seq<Line>, p: Params, start: nat, end: nat)
    requires start < |ls| && end == End(ls, p, start) < |ls|
    ensures var back := end - Overlap(ls, p, end, 0);
      NextStart(ls, p, start, end) == (if start + 1 >= back then start + 1 else back) &&
        start < NextStart(ls, p, start, end) < |ls|
  {
    hide Fill, Overlap, WindowOk;
    NextFollows(ls, p, start);
  }

  lemma Regroup<T>(a: seq<T>, b: seq<T>, c: seq<T>)
    ensures a + (b + c) == (a + b) + c
  {
  }

  lemma UnfoldWindows(ls: seq<Line>, p: Params, start: nat)
    requires start < |ls|
    ensures var end := End(ls, p, start);
      && start < end <= |ls|
      && (end < |ls| ==> 0 <= NextStart(ls, p, start, end) <= |ls|)
      && Windows(ls, p, start) == [Window(start, end)] + if end >= |ls| then []
        else Windows(ls, p, NextStart(ls, p, start, end))
  {
    hide Fill, Overlap, WindowOk;
    EndOk(ls, p, start);
    Reach(ls, p, Window(start, End(ls, p, start)));
    if End(ls, p, start) < |ls| { NextFollows(ls, p, start); }
  }

  // ----- Symbols of a Python file -----

  /** A top-level definition as the parser reports it. */
  datatype Symbol = Symbol(name: string, start: int, end: int)

  /** The lines of a file, clamped to it. */
  function SliceLines(ls: seq<Line>, start: int, end: int): seq<Line> {
    var lo, hi := if start >= 1 then start - 1 else 0, if end <= |ls| then end else |ls|;
    if 0 <= lo <= hi then ls[lo..hi] else []
  }

  /** The text of the lines from `start` to `end`, as far as there are any. */
  ghost function TextOf(ls: seq<Line>, start: int, end: int): string {
    var last := if end <= |ls| then end else |ls|;
    if 1 <= start <= last then Join(ls[start - 1..last]) else ""
  }

  /** Content and reported lines agree. */
  ghost predicate Exact(ls: seq<Line>, c: Chunk) {
    c.content == TextOf(ls, c.startLine, c.endLine)
  }

  lemma SliceIsText(ls: seq<Line>, start: int, end: int)
    requires 1 <= start <= end
    ensures Join(SliceLines(ls, start, end)) == TextOf(ls, start, end)
  {
    if start > |ls| { assert SliceLines(ls, start, end) == []; }
  }

  lemma {:induction false} JoinLength(ls: seq<Line>)
    requires ls != []
    ensures |Join(ls)| == Chars(ls) - 1
  {
    if |ls| == 1 {
      assert ls[..0] == [] && Chars(ls) == Chars(ls[..0]) + |ls[0]| + 1;
    } else {
      JoinLength(ls[1..]);
      CharsFront(ls);
    }
  }

  lemma {:induction false} CharsFront(ls: seq<Line>)
    requires ls != []
    ensures Chars(ls) == |ls[0]| + 1 + Chars(ls[1..])
  {
    if |ls| == 1 {
      assert ls[..0] == [] && ls[1..] == [];
    } else {
      CharsFront(ls[..|ls| - 1]);
      assert ls[..|ls| - 1][1..] == ls[1..][..|ls| - 2];
    }
  }

  /** A symbol within the maximum is one chunk.  A longer one is cut into windows of its
      lines, all of them with less than the target unless they are a single line. */
  ghost predicate CutAsNeeded(ls: seq<Line>, space: char -> bool, max: int, sym: Symbol, chunks: seq<Chunk>,
                              ws: seq<Window>) {
    var text, target := TextOf(ls, sym.start, sym.end), if max <= 2500 then max else 2500;
    if Blank(text, space) then chunks == []
    else if |text| <= max then chunks == [Chunk(1, sym.start, sym.end, text)]
    else
      && Tiling(SplitLines(text), Params(target, 200, max), 0, ws)
      && (forall w :: w in ws ==> w.start < w.end <= |SplitLines(text)|)
      && chunks == Chunks(SplitLines(text), space, sym.start, ws)
      && forall c :: c in chunks ==> c.startLine == c.endLine || |c.content| < target
  }

  lemma ChunksFit(ls: seq<Line>, space: char -> bool, p: Params, base: int, ws: seq<Window>, chunks: seq<Chunk>)
    requires Tiling(ls, p, 0, ws)
    requires forall i :: 0 <= i < |chunks| ==> ChunkOk(ls, space, base, ws, chunks[i])
    ensures forall c :: c in chunks ==> c.startLine == c.endLine || |c.content| < p.target
  {
    hide Chars, Join, Blank, Follows;
    forall c | c in chunks ensures c.startLine == c.endLine || |c.content| < p.target {
      var i :| 0 <= i < |chunks| && chunks[i] == c;
      assert ChunkOk(ls, space, base, ws, chunks[i]);
      var w :| w in ws && w.start < w.end <= |ls| && c == ChunkOf(ls, w, base, c.number);
      var j :| 0 <= j < |ws| && ws[j] == w;
      assert WindowOk(ls, p, ws[j]);
      JoinLength(ls[w.start..w.end]);
    }
  }

  const MAX_TARGET: int := 2500
  const SYMBOL_OVERLAP: int := 200

  /** A symbol longer than the maximum is split into windows of its own text. */
  method ChunkSymbol(ls: seq<Line>, space: char -> bool, max: int, sym: Symbol)
    returns (chunks: seq<Chunk>, ghost ws: seq<Window>)
    requires space('\n') && OneLines(ls) && 1 <= sym.start <= sym.end
    ensures forall c :: c in chunks ==>
      Exact(ls, c) && sym.start <= c.startLine && c.endLine <= sym.end && !Blank(c.content, space)
    ensures forall k :: HasText(ls, space, k) && sym.start <= k <= sym.end ==> Covered(chunks, k)
    ensures CutAsNeeded(ls, space, max, sym, chunks, ws)
  {
    hide Tiling, SplitLines, Join, Chars, TextOf;
    ws := [];
    var lines := SliceLines(ls, sym.start, sym.end);
    var content := Join(lines);
    JoinBlank(lines, space);
    SliceIsText(ls, sym.start, sym.end);
    if Blank(content, space) {
      forall k | sym.start <= k <= sym.end ensures !HasText(ls, space, k) {
        BlankSymbol(ls, space, sym, k);
      }
      return [], ws;
    }
    if |content| > max {
      var p := Params(if max <= MAX_TARGET then max else MAX_TARGET, SYMBOL_OVERLAP, max);
      var sub := SplitLines(content);
      chunks, ws := ChunkLineWindows(sub, space, p, sym.start);
      SubChunks(ls, space, sym, sub, ws, chunks);
      ChunksFit(sub, space, p, sym.start, ws, chunks);
    } else {
      chunks := [Chunk(1, sym.start, sym.end, content)];
      assert forall c :: c in chunks ==> c == chunks[0];
      assert chunks[0] in chunks;
    }
  }

  lemma BlankSymbol(ls: seq<Line>, space: char -> bool, sym: Symbol, k: int)
    requires 1 <= sym.start <= k <= sym.end && forall l :: l in SliceLines(ls, sym.start, sym.end) ==> Blank(l, space)
    ensures !HasText(ls, space, k)
  {
    if k <= |ls| { assert SliceLines(ls, sym.start, sym.end)[k - sym.start] == ls[k - 1]; }
  }

  lemma SubChunks(ls: seq<Line>, space: char -> bool, sym: Symbol, sub: seq<Line>, ws: seq<Window>, chunks: seq<Chunk>)
    requires OneLines(ls) && 1 <= sym.start <= sym.end && sub == SplitLines(Join(SliceLines(ls, sym.start, sym.end)))
    requires forall i :: 0 <= i < |chunks| ==> ChunkOk(sub, space, sym.start, ws, chunks[i])
    requires forall k :: HasText(sub, space, k) ==> Covered(chunks, sym.start - 1 + k)
    ensures forall c :: c in chunks ==>
      Exact(ls, c) && sym.start <= c.startLine && c.endLine <= sym.end && !Blank(c.content, space)
    ensures forall k :: HasText(ls, space, k) && sym.start <= k <= sym.end ==> Covered(chunks, k)
  {
    hide Exact, Blank, Covered, HasText, ChunkOk, SplitLines, Join, SliceLines;
    forall c | c in chunks
      ensures Exact(ls, c) && sym.start <= c.startLine && c.endLine <= sym.end && !Blank(c.content, space)
    {
      var i :| 0 <= i < |chunks| && chunks[i] == c;
      SubChunk(ls, space, sym, sub, ws, c);
    }
    forall k | HasText(ls, space, k) && sym.start <= k <= sym.end ensures Covered(chunks, k) {
      SubLine(ls, space, sym, sub, k);
      assert HasText(sub, space, k - sym.start + 1);
    }
  }

  lemma SubChunk(ls: seq<Line>, space: char -> bool, sym: Symbol, sub: seq<Line>, ws: seq<Window>, c: Chunk)
    requires OneLines(ls) && 1 <= sym.start <= sym.end && sub == SplitLines(Join(SliceLines(ls, sym.start, sym.end)))
    requires ChunkOk(sub, space, sym.start, ws, c)
    ensures Exact(ls, c) && sym.start <= c.startLine && c.endLine <= sym.end && !Blank(c.content, space)
  {
    hide Join, SplitLines, Blank, SliceLines, OneLines;
    SliceOneLines(ls, sym.start, sym.end);
    SplitJoin(SliceLines(ls, sym.start, sym.end));
    assert sub <= SliceLines(ls, sym.start, sym.end);
    var w :| w in ws && w.start < w.end <= |sub| && c == ChunkOf(sub, w, sym.start, c.number) &&
      !Blank(c.content, space);
    SliceOfSlice(ls, sym, sub, w);
    SliceIsText(ls, c.startLine, c.endLine);
  }

  lemma SliceOneLines(ls: seq<Line>, start: int, end: int)
    requires OneLines(ls)
    ensures OneLines(SliceLines(ls, start, end))
  {
  }

  /** A line with text is not the one that splitting again may lose. */
  lemma SubLine(ls: seq<Line>, space: char -> bool, sym: Symbol, sub: seq<Line>, k: int)
    requires OneLines(ls) && 1 <= sym.start <= k <= sym.end
    requires sub == SplitLines(Join(SliceLines(ls, sym.start, sym.end)))
    requires HasText(ls, space, k)
    ensures HasText(sub, space, k - sym.start + 1)
  {
    hide Join, SplitLines, Blank;
    var lines, m := SliceLines(ls, sym.start, sym.end), k - sym.start;
    SplitJoin(lines);
    assert lines[m] == ls[k - 1];
    assert Blank("", space) by { EmptyIsBlank(space); }
    assert Blank(lines[|lines| - 1], space) ==> m != |lines| - 1;
    assert sub[m] == lines[m];
  }

  lemma CoveredMore(a: seq<Chunk>, b: seq<Chunk>, k: int)
    requires Covered(a, k) || Covered(b, k)
    ensures Covered(a + b, k)
  {
    var c :| (c in a || c in b) && c.startLine <= k <= c.endLine;
    assert c in a + b;
  }

  lemma EmptyIsBlank(space: char -> bool)
    ensures Blank("", space)
  {
  }

  lemma Inner<T>(xs: seq<T>, lo: nat, hi: nat, i: nat, j: nat)
    requires lo <= hi <= |xs| && i <= j <= hi - lo
    ensures xs[lo..hi][i..j] == xs[lo + i..lo + j]
  {
    var part, a, b := xs[lo..hi], xs[lo..hi][i..j], xs[lo + i..lo + j];
    forall k | 0 <= k < j - i ensures a[k] == b[k] {
      assert a[k] == part[i + k] && part[i + k] == xs[lo + i + k];
    }
    assert a == b;
  }

  lemma SliceOfSlice(ls: seq<Line>, sym: Symbol, sub: seq<Line>, w: Window)
    requires 1 <= sym.start <= sym.end && sub <= SliceLines(ls, sym.start, sym.end) && w.start < w.end <= |sub|
    ensures sub[w.start..w.end] == SliceLines(ls, sym.start + w.start, sym.start + w.end - 1)
    ensures sym.start + w.end - 1 <= sym.end
  {
    var lines, lo := SliceLines(ls, sym.start, sym.end), sym.start - 1;
    var hi := if sym.end <= |ls| then sym.end else |ls|;
    assert lines == ls[lo..hi];
    assert sub[w.start..w.end] == lines[w.start..w.end];
    Inner(ls, lo, hi, w.start, w.end);
  }

  ghost function Flat(parts: seq<seq<Chunk>>): seq<Chunk> {
    if parts == [] then [] else Flat(parts[..|parts| - 1]) + parts[|parts| - 1]
  }

  lemma FlatMore(parts: seq<seq<Chunk>>, part: seq<Chunk>)
    ensures Flat(parts + [part]) == Flat(parts) + part
  {
    assert (parts + [part])[..|parts|] == parts;
  }

  lemma FlatNone()
    ensures Flat([]) == []
  {
  }

  /** What one symbol contributes. */
  ghost predicate PartOk(ls: seq<Line>, space: char -> bool, max: int, sym: Symbol, part: seq<Chunk>) {
    if 1 <= sym.start <= sym.end then exists ws :: CutAsNeeded(ls, space, max, sym, part, ws) else part == []
  }

  /** All symbols of a file in order; one without a valid range is skipped. */
  method ChunkPythonAst(ls: seq<Line>, space: char -> bool, max: int, symbols: seq<Symbol>)
    returns (chunks: seq<Chunk>, ghost parts: seq<seq<Chunk>>)
    requires space('\n') && OneLines(ls)
    ensures chunks == Flat(parts) && |parts| == |symbols|
    ensures forall n :: 0 <= n < |symbols| ==> PartOk(ls, space, max, symbols[n], parts[n])
    ensures forall c :: c in chunks ==> Exact(ls, c) && !Blank(c.content, space)
    ensures forall sym, k :: sym in symbols && HasText(ls, space, k) && 1 <= sym.start <= k <= sym.end ==>
      Covered(chunks, k)
  {
    hide Exact, Blank, OneLines, Covered, HasText, CutAsNeeded, Flat;
    chunks, parts := [], [];
    assert Flat([]) == [] by { FlatNone(); }
    for n := 0 to |symbols|
      invariant chunks == Flat(parts) && |parts| == n
      invariant forall m :: 0 <= m < n ==> PartOk(ls, space, max, symbols[m], parts[m])
      invariant forall c :: c in chunks ==> Exact(ls, c) && !Blank(c.content, space)
      invariant forall sym, k :: sym in symbols[..n] && HasText(ls, space, k) && 1 <= sym.start <= k <= sym.end ==>
        Covered(chunks, k)
    {
      var sym := symbols[n];
      assert symbols[..n + 1] == symbols[..n] + [sym];
      if sym.start >= 1 && sym.end >= sym.start {
        var more, ws := ChunkSymbol(ls, space, max, sym);
        assert CutAsNeeded(ls, space, max, sym, more, ws);
        forall k | Covered(chunks, k) || Covered(more, k) ensures Covered(chunks + more, k) {
          CoveredMore(chunks, more, k);
        }
        FlatMore(parts, more);
        chunks, parts := chunks + more, parts + [more];
      } else {
        FlatMore(parts, []);
        parts := parts + [[]];
      }
    }
    assert symbols[..|symbols|] == symbols;
  }
}
