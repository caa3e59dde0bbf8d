/**
  The cursor arithmetic of `read_chat_attachment`: a page is a window of lines, cut off
  after so many characters; the reply names the line and the character to go on from.
 */
module Pager {
  const READ_CHARS: nat := 16000

  /** A slice whose bounds may lie past the end. */
  function Slice<T>(s: seq<T>, lo: nat, hi: nat): seq<T> {
    var to := if hi < |s| then hi else |s|;
    if lo < to then s[lo..to] else []
  }

  function Join(lines: seq<string>): string {
    if lines == [] then ""
    else if |lines| == 1 then lines[0]
    else lines[0] + "\n" + Join(lines[1..])
  }

  function Newlines(s: string): nat {
    if s == "" then 0 else (if s[0] == '\n' then 1 else 0) + Newlines(s[1..])
  }

  /** What follows the last newline. */
  function LastLine(s: string): string {
    if s == "" then "" else if Newlines(s) == 0 then s else LastLine(s[1..])
  }

  datatype Cursor = Cursor(line: nat, column: nat)

  /** `completed` says that the block of lines was shown to its end. */
  datatype Page = Page(content: string, next: Cursor, hasMore: bool, completed: bool)

  function AtLeast(x: int, lo: nat): nat {
    if x < lo then lo else x
  }

  function LineCount(requested: int): (r: nat)
    ensures 1 <= r <= 200
    ensures r == requested || (requested < 1 && r == 1) || (requested > 200 && r == 200)
  {
    if requested > 200 then 200 else AtLeast(requested, 1)
  }

  function ReadPage(lines: seq<string>, startLine: int, lineCount: int, startChar: int): Page {
    var start := AtLeast(startLine, 1);
    var count := LineCount(lineCount);
    var column := AtLeast(startChar, 0);
    var block := Join(Slice(lines, start - 1, start - 1 + count));
    var content := Slice(block, column, column + READ_CHARS);
    var consumed := Slice(block, 0, column + |content|);
    var partial := column + |content| < |block|;
    var next := if partial then Cursor(start + Newlines(consumed), |LastLine(consumed)|) else Cursor(start + count, 0);
    Page(content, next, next.line <= |lines|, !partial)
  }

  // ----- positions in the whole text

  /** Where line n starts (n counts from 0; the number of lines stands for the end). */
  function Offset(lines: seq<string>, n: nat): nat
    requires n <= |lines|
  {
    if n == 0 then 0 else |lines[0]| + 1 + Offset(lines[1..], n - 1)
  }

  predicate OneLine(s: string) {
    forall i | 0 <= i < |s| :: s[i] != '\n'
  }

  predicate Lines(lines: seq<string>) {
    forall i | 0 <= i < |lines| :: OneLine(lines[i])
  }

  /** A cursor on a line, at most at its end. */
  predicate OnLine(lines: seq<string>, c: Cursor) {
    1 <= c.line <= |lines| && c.column <= |lines[c.line - 1]|
  }

  function Position(lines: seq<string>, c: Cursor): nat
    requires OnLine(lines, c)
  {
    Offset(lines, c.line - 1) + c.column
  }

  lemma {:induction false} LengthOfJoin(lines: seq<string>)
    requires lines != []
    ensures |Join(lines)| + 1 == Offset(lines, |lines|)
    ensures |Join(lines)| >= |lines[0]|
  {
    if |lines| > 1 {
      LengthOfJoin(lines[1..]);
    } else {
      assert Offset(lines[1..], 0) == 0;
    }
  }

  lemma {:induction false} OffsetsAdd(lines: seq<string>, a: nat, b: nat)
    requires a + b <= |lines|
    ensures Offset(lines, a + b) == Offset(lines, a) + Offset(lines[a..], b)
  {
    if a == 0 {
      assert lines[0..] == lines;
    } else {
      OffsetsAdd(lines[1..], a - 1, b);
      assert lines[1..][a - 1..] == lines[a..];
    }
  }

  lemma {:induction false} OffsetOfFront(lines: seq<string>, a: nat, b: nat)
    requires a <= b <= |lines|
    ensures Offset(lines[..b], a) == Offset(lines, a)
  {
    if a > 0 {
      assert lines[..b][1..] == lines[1..][..b - 1];
      OffsetOfFront(lines[1..], a - 1, b - 1);
    }
  }

  /** The text from the start of line a on. */
  lemma {:induction false} JoinFrom(lines: seq<string>, a: nat)
    requires a < |lines|
    ensures Offset(lines, a) <= |Join(lines)|
    ensures Join(lines)[Offset(lines, a)..] == Join(lines[a..])
  {
    if a == 0 {
      assert lines[0..] == lines && Join(lines)[0..] == Join(lines);
    } else {
      JoinFrom(lines[1..], a - 1);
      assert lines[1..][a - 1..] == lines[a..];
      var first := lines[0] + "\n";
      assert Join(lines) == first + Join(lines[1..]);
      assert (first + Join(lines[1..]))[|first| + Offset(lines[1..], a - 1)..]
          == Join(lines[1..])[Offset(lines[1..], a - 1)..];
    }
  }

  /** The text up to the end of line b - 1, and the newline after it if there is another line. */
  lemma {:induction false} JoinUpTo(lines: seq<string>, b: nat)
    requires 0 < b <= |lines|
    ensures 0 < Offset(lines, b) <= |Join(lines)| + 1
    ensures Join(lines)[..Offset(lines, b) - 1] == Join(lines[..b])
    ensures b < |lines| ==> Offset(lines, b) <= |Join(lines)| && Join(lines)[Offset(lines, b) - 1] == '\n'
  {
    if b == 1 {
      assert Offset(lines[1..], 0) == 0;
      assert lines[..1] == [lines[0]];
      assert Join(lines[..1]) == lines[0];
    } else {
      JoinUpTo(lines[1..], b - 1);
      assert lines[..b][1..] == lines[1..][..b - 1];
      var first := lines[0] + "\n";
      assert Join(lines) == first + Join(lines[1..]);
      assert Join(lines[..b]) == first + Join(lines[1..][..b - 1]);
      assert (first + Join(lines[1..]))[..|first| + Offset(lines[1..], b - 1) - 1]
          == first + Join(lines[1..])[..Offset(lines[1..], b - 1) - 1];
    }
  }

  /** A block of lines is a window of the text. */
  lemma BlockIsWindow(lines: seq<string>, a: nat, b: nat)
    requires a < b <= |lines|
    ensures Offset(lines, a) < Offset(lines, b) <= |Join(lines)| + 1
    ensures Join(lines[a..b]) == Join(lines)[Offset(lines, a)..Offset(lines, b) - 1]
    ensures b < |lines| ==> Offset(lines, b) <= |Join(lines)| && Join(lines)[Offset(lines, b) - 1] == '\n'
    ensures |Join(lines[a..b])| >= |lines[a]|
  {
    hide Join, Offset;
    JoinFrom(lines, a);
    JoinUpTo(lines, b);
    JoinUpTo(lines[a..], b - a);
    OffsetsAdd(lines, a, b - a);
    assert lines[a..][..b - a] == lines[a..b];
    LengthOfJoin(lines[a..b]);
    var text, from, to := Join(lines), Offset(lines, a), Offset(lines, b) - 1;
    assert text[from..][..to - from] == text[from..to];
  }

  // ----- counting newlines finds the place

  lemma {:induction false} NewlinesAppend(a: string, b: string)
    ensures Newlines(a + b) == Newlines(a) + Newlines(b)
  {
    if a == "" {
      assert a + b == b;
    } else {
      NewlinesAppend(a[1..], b);
      assert (a + b)[1..] == a[1..] + b;
    }
  }

  lemma {:induction false} NoNewlines(s: string)
    requires OneLine(s)
    ensures Newlines(s) == 0 && LastLine(s) == s
  {
    if s != "" {
      NoNewlines(s[1..]);
    }
  }

  lemma {:induction false} LastLineAfter(line: string, rest: string)
    requires OneLine(line)
    ensures Newlines(line + "\n" + rest) == 1 + Newlines(rest)
    ensures LastLine(line + "\n" + rest) == LastLine(rest)
  {
    NewlinesAppend(line + "\n", rest);
    NewlinesAppend(line, "\n");
    NoNewlines(line);
    assert Newlines("\n") == 1 by {
      assert "\n"[1..] == "";
    }
    if line == "" {
      assert (line + "\n" + rest)[1..] == rest;
    } else {
      LastLineAfter(line[1..], rest);
      assert (line + "\n" + rest)[1..] == line[1..] + "\n" + rest;
    }
  }

  /** The newlines in the first n characters and the length of their last line give the place n. */
  lemma {:induction false} Locate(lines: seq<string>, n: nat)
    requires Lines(lines) && lines != [] && n < |Join(lines)|
    ensures var consumed := Join(lines)[..n]; var j := Newlines(consumed);
      && j < |lines|
      && |LastLine(consumed)| <= |lines[j]|
      && Offset(lines, j) + |LastLine(consumed)| == n
    decreases |lines|
  {
    hide LastLine;
    var consumed := Join(lines)[..n];
    if n <= |lines[0]| {
      assert consumed == lines[0][..n];
      NoNewlines(consumed);
    } else {
      var first, rest := lines[0] + "\n", lines[1..];
      assert |lines| > 1;
      var m := n - |first|;
      Locate(rest, m);
      assert Join(lines) == first + Join(rest);
      assert consumed == first + Join(rest)[..m];
      LastLineAfter(lines[0], Join(rest)[..m]);
    }
  }

  // ----- one page

  /** The line after the block, and the part of the block that has been shown after the page. */
  function BlockEnd(lines: seq<string>, c: Cursor, lineCount: int): nat {
    if c.line - 1 + LineCount(lineCount) < |lines| then AtLeast(c.line - 1 + LineCount(lineCount), 0) else |lines|
  }

  function ShownEnd(block: string, c: Cursor): nat {
    if c.column + READ_CHARS < |block| then c.column + READ_CHARS else |block|
  }

  lemma WindowInWindow(s: string, lo: nat, hi: nat, a: nat, b: nat)
    requires lo <= hi <= |s| && a <= b <= hi - lo
    ensures s[lo..hi][a..b] == s[lo + a..lo + b]
  {
    assert |s[lo..hi][a..b]| == b - a == |s[lo + a..lo + b]|;
    forall i | 0 <= i < b - a ensures s[lo..hi][a..b][i] == s[lo + a..lo + b][i] {
    }
  }

  lemma SliceIs<T>(s: seq<T>, lo: nat, hi: nat, to: nat)
    requires to == (if hi < |s| then hi else |s|) && lo <= to
    ensures Slice(s, lo, hi) == s[lo..to]
  {
  }

  lemma PageOfBlock(lines: seq<string>, c: Cursor, lineCount: int)
    requires OnLine(lines, c)
    ensures var to := BlockEnd(lines, c, lineCount); c.line <= to <= |lines|
    ensures var page := ReadPage(lines, c.line, lineCount, c.column);
      var block := Join(lines[c.line - 1..BlockEnd(lines, c, lineCount)]); var n := ShownEnd(block, c);
      && c.column <= n <= |block|
      && page.content == block[c.column..n]
      && page.completed == (n == |block|)
      && page.next == (if n < |block| then Cursor(c.line + Newlines(block[..n]), |LastLine(block[..n])|)
                       else Cursor(c.line + LineCount(lineCount), 0))
      && page.hasMore == (page.next.line <= |lines|)
  {
    hide Join, Newlines, LastLine, Slice;
    var to := BlockEnd(lines, c, lineCount);
    var block := Join(lines[c.line - 1..to]);
    var n := ShownEnd(block, c);
    FirstLineFits(lines, c, to);
    SliceIs(lines, c.line - 1, c.line - 1 + LineCount(lineCount), to);
    SliceIs(block, c.column, c.column + READ_CHARS, n);
    SliceIs(block, 0, n, n);
  }

  lemma FirstLineFits(lines: seq<string>, c: Cursor, to: nat)
    requires OnLine(lines, c) && c.line <= to <= |lines|
    ensures c.column <= |Join(lines[c.line - 1..to])|
  {
    LengthOfJoin(lines[c.line - 1..to]);
  }

  /**
    A page read from a cursor shows exactly the text from there to the next cursor; a newline
    stands between them where the block was shown to its end, and the last page ends the text.
   */
  lemma PageIsWindow(lines: seq<string>, c: Cursor, lineCount: int)
    requires Lines(lines) && OnLine(lines, c)
    ensures var page := ReadPage(lines, c.line, lineCount, c.column); var text := Join(lines);
      && Position(lines, c) <= |text|
      && (page.hasMore ==>
            && OnLine(lines, page.next)
            && Position(lines, c) < Position(lines, page.next) <= |text|
            && text[Position(lines, c)..Position(lines, page.next)]
               == page.content + (if page.completed then "\n" else ""))
      && (!page.hasMore ==> page.content == text[Position(lines, c)..])
  {
    hide Join, Offset, Newlines, LastLine, ReadPage, Lines;
    var from, to := c.line - 1, BlockEnd(lines, c, lineCount);
    PageOfBlock(lines, c, lineCount);
    var block := Join(lines[from..to]);
    var n := ShownEnd(block, c);
    BlockIsWindow(lines, from, to);
    var text, base := Join(lines), Offset(lines, from);
    WindowInWindow(text, base, base + |block|, c.column, n);
    if n < |block| {
      PartialPage(lines, from, to, n);
      assert text[base + c.column..base + n] + "" == text[base + c.column..base + n];
    } else if to < |lines| {
      OneMore(text, base + c.column, base + n);
    } else {
      EndOfText(lines);
    }
  }

  lemma OneMore(text: string, a: nat, b: nat)
    requires a <= b < |text|
    ensures text[a..b + 1] == text[a..b] + [text[b]]
  {
  }

  lemma PartialPage(lines: seq<string>, from: nat, to: nat, n: nat)
    requires Lines(lines) && from < to <= |lines| && n < |Join(lines[from..to])|
    ensures var consumed := Join(lines[from..to])[..n];
      var next := Cursor(from + 1 + Newlines(consumed), |LastLine(consumed)|);
      OnLine(lines, next) && Position(lines, next) == Offset(lines, from) + n
  {
    hide Join, Offset, Newlines, LastLine;
    Locate(lines[from..to], n);
    NextOnLine(lines, from, to, Newlines(Join(lines[from..to])[..n]));
  }

  lemma NextOnLine(lines: seq<string>, from: nat, to: nat, j: nat)
    requires from + j < to <= |lines|
    ensures lines[from..to][j] == lines[from + j]
    ensures Offset(lines, from + j) == Offset(lines, from) + Offset(lines[from..to], j)
  {
    hide Offset;
    OffsetsAdd(lines, from, j);
    OffsetOfFront(lines[from..], j, to - from);
    assert lines[from..][..to - from] == lines[from..to];
  }

  lemma EndOfText(lines: seq<string>)
    requires lines != []
    ensures Offset(lines, |lines|) == |Join(lines)| + 1
  {
    LengthOfJoin(lines);
  }

  /** A page is cut off for two reasons only: its block of at most 200 lines ends, or 16000 characters are shown. */
  lemma PageIsAsLongAsAllowed(lines: seq<string>, c: Cursor, lineCount: int)
    requires OnLine(lines, c)
    ensures var page := ReadPage(lines, c.line, lineCount, c.column);
      var count := if lineCount < 1 then 1 else if lineCount > 200 then 200 else lineCount;
      var to := if c.line - 1 + count < |lines| then c.line - 1 + count else |lines|;
      && c.line - 1 < to
      && var block := Join(lines[c.line - 1..to]);
      && c.column <= |block|
      && page.completed == (|block| - c.column <= 16000)
      && page.content == block[c.column..if page.completed then |block| else c.column + 16000]
      && (page.completed ==> page.next == Cursor(c.line + count, 0))
  {
    hide ReadPage, Join, LastLine, Newlines;
    PageOfBlock(lines, c, lineCount);
  }

  /** A place before the text is its start. */
  lemma PlacesBefore(lines: seq<string>, startLine: int, lineCount: int, startChar: int)
    ensures startLine < 1 ==>
              ReadPage(lines, startLine, lineCount, startChar) == ReadPage(lines, 1, lineCount, startChar)
    ensures startChar < 0 ==>
              ReadPage(lines, startLine, lineCount, startChar) == ReadPage(lines, startLine, lineCount, 0)
  {
    hide Join, LastLine, Newlines, Slice;
  }

  /** A place behind the text, or in its lines but behind its characters, shows nothing. */
  lemma PlacesBehind(lines: seq<string>, startLine: int, lineCount: int, startChar: int)
    requires startLine >= 1
    ensures startLine > |lines| ==> var page := ReadPage(lines, startLine, lineCount, startChar);
              page.content == "" && page.completed && !page.hasMore
    ensures startChar >= |Join(lines)| ==> ReadPage(lines, startLine, lineCount, startChar).content == ""
  {
    hide Join, LastLine, Newlines, BlockEnd, ShownEnd;
    BlockIsNoLonger(lines, startLine - 1, startLine - 1 + LineCount(lineCount));
    NothingSplit();
  }

  lemma BlockIsNoLonger(lines: seq<string>, lo: nat, hi: nat)
    ensures |Join(Slice(lines, lo, hi))| <= |Join(lines)|
  {
    var to := if hi < |lines| then hi else |lines|;
    if lo < to {
      BlockIsWindow(lines, lo, to);
    }
  }

  // ----- following the cursor

  /** The pages in order, with a newline after each completed block that is not the last. */
  function Follow(lines: seq<string>, c: Cursor, counts: seq<int>): string
    decreases |counts|
  {
    if counts == [] then ""
    else
      var page := ReadPage(lines, c.line, counts[0], c.column);
      if page.hasMore then
        page.content + (if page.completed then "\n" else "") + Follow(lines, page.next, counts[1..])
      else page.content
  }

  /** The reply that said there is no more. */
  predicate Finished(lines: seq<string>, c: Cursor, counts: seq<int>)
    decreases |counts|
  {
    counts != [] &&
    var page := ReadPage(lines, c.line, counts[0], c.column);
    !page.hasMore || Finished(lines, page.next, counts[1..])
  }

  /** Whatever the page sizes, the pages shown so far are the text from the cursor on, without a
      gap or a repetition, and after enough requests the end is reached. */
  lemma {:induction false} FollowIsText(lines: seq<string>, c: Cursor, counts: seq<int>)
    requires Lines(lines) && OnLine(lines, c)
    ensures Position(lines, c) <= |Join(lines)|
    ensures var shown := Follow(lines, c, counts); var rest := Join(lines)[Position(lines, c)..];
      && |shown| <= |rest| && shown == rest[..|shown|]
      && (Finished(lines, c, counts) ==> shown == rest)
    ensures |counts| > |Join(lines)| - Position(lines, c) ==> Finished(lines, c, counts)
    decreases |counts|
  {
    hide ReadPage, Join, Position, OnLine;
    var text, at := Join(lines), Position(lines, c);
    PageIsWindow(lines, c, if counts == [] then 1 else counts[0]);
    if counts != [] {
      var page := ReadPage(lines, c.line, counts[0], c.column);
      if page.hasMore {
        FollowIsText(lines, page.next, counts[1..]);
        var next := Position(lines, page.next);
        assert text[at..] == text[at..next] + text[next..];
      }
    }
  }

  /** From the first line on, until a reply says there is no more, every character of the
      attachment is shown exactly once and in order; at most one request per character and one more. */
  lemma EverythingIsShownOnce(lines: seq<string>, counts: seq<int>)
    requires Lines(lines)
    ensures |counts| > |Join(lines)| ==> Finished(lines, Cursor(1, 0), counts)
    ensures Finished(lines, Cursor(1, 0), counts) ==> Follow(lines, Cursor(1, 0), counts) == Join(lines)
  {
    if lines == [] {
      assert Slice(lines, 0, 0) == [];
    } else {
      assert Join(lines)[0..] == Join(lines);
      assert Offset(lines, 0) == 0;
      FollowIsText(lines, Cursor(1, 0), counts);
    }
  }

  // ----- from the stored text to lines

  /** A line and the line break that ends it (the last line may have none). */
  datatype Line = Line(text: string, ending: string)

  predicate IsBreak(c: char) {
    c in "\n\r" || c as int in {0x0b, 0x0c, 0x1c, 0x1d, 0x1e, 0x85, 0x2028, 0x2029}
  }

  /** The length of the line break at the front, if there is one. */
  function BreakLength(s: string): (r: nat)
    ensures r <= |s|
  {
    if s == "" || !IsBreak(s[0]) then 0
    else if |s| > 1 && s[0] == '\r' && s[1] == '\n' then 2
    else 1
  }

  /** str.splitlines, keeping the breaks beside the lines. */
  function Split(s: string): seq<Line>
    decreases |s|
  {
    if s == "" then []
    else if BreakLength(s) > 0 then [Line("", s[..BreakLength(s)])] + Split(s[BreakLength(s)..])
    else
      var rest := Split(s[1..]);
      if rest == [] then [Line([s[0]], "")] else [Line([s[0]] + rest[0].text, rest[0].ending)] + rest[1..]
  }

  function Texts(split: seq<Line>): seq<string> {
    if split == [] then [] else [split[0].text] + Texts(split[1..])
  }

  function Stored(split: seq<Line>): string {
    if split == [] then "" else split[0].text + split[0].ending + Stored(split[1..])
  }

  /** A line break as `Split` finds it. */
  predicate Ending(e: string) {
    e == "\r\n" || (|e| == 1 && IsBreak(e[0]))
  }

  predicate WellSplit(split: seq<Line>) {
    split == [] ||
    (&& OneLine(split[0].text)
       && (Ending(split[0].ending) || (split[0].ending == "" && |split| == 1))
       && WellSplit(split[1..]))
  }

  lemma {:induction false} SplitLosesNothing(s: string)
    ensures Stored(Split(s)) == s
    ensures WellSplit(Split(s))
    decreases |s|
  {
    hide OneLine, IsBreak, BreakLength, Ending, Stored, WellSplit;
    if s == "" {
      NothingSplit();
    } else if BreakLength(s) > 0 {
      var b := BreakLength(s);
      BreaksAreEndings(s);
      SplitLosesNothing(s[b..]);
      FirstLine(Line("", s[..b]), Split(s[b..]));
      assert s == "" + s[..b] + s[b..];
    } else {
      var rest := Split(s[1..]);
      SplitLosesNothing(s[1..]);
      assert s == [s[0]] + s[1..];
      LineGrows(s, if rest == [] then "" else rest[0].text);
      if rest == [] {
        FirstLine(Line([s[0]], ""), []);
        NothingSplit();
        assert [Line([s[0]], "")] + [] == Split(s);
      } else {
        FirstLineGrows(rest, s[0]);
      }
    }
  }

  lemma {:induction false} NoBreakInside(s: string, i: nat, k: nat)
    requires i < |Split(s)| && k < |Split(s)[i].text|
    ensures Split(s)[i].text[k] !in "\n\r"
    ensures Split(s)[i].text[k] as int !in {0x0b, 0x0c, 0x1c, 0x1d, 0x1e, 0x85, 0x2028, 0x2029}
    decreases |s|
  {
    if BreakLength(s) > 0 {
      NoBreakInside(s[BreakLength(s)..], i - 1, k);
    } else if i > 0 || k > 0 {
      NoBreakInside(s[1..], i, if i == 0 then k - 1 else k);
    }
  }

  /** The text is split at every break: no line holds one, and a carriage return takes its newline with it. */
  lemma {:induction false} SplitAtEveryBreak(s: string)
    ensures var split := Split(s);
      && (forall i, k | 0 <= i < |split| && 0 <= k < |split[i].text| ::
            split[i].text[k] !in "\n\r" &&
            split[i].text[k] as int !in {0x0b, 0x0c, 0x1c, 0x1d, 0x1e, 0x85, 0x2028, 0x2029})
      && (forall i | 0 < i < |split| && split[i - 1].ending == "\r" && split[i].text == "" && split[i].ending != "" ::
            split[i].ending[0] != '\n')
  {
    forall i, k | 0 <= i < |Split(s)| && 0 <= k < |Split(s)[i].text|
      ensures Split(s)[i].text[k] !in "\n\r" &&
              Split(s)[i].text[k] as int !in {0x0b, 0x0c, 0x1c, 0x1d, 0x1e, 0x85, 0x2028, 0x2029}
    {
      NoBreakInside(s, i, k);
    }
    hide IsBreak;
    forall i: nat | 0 < i < |Split(s)| { NoNewlineAfterReturn(s, i); }
  }

  lemma {:induction false} NoNewlineAfterReturn(s: string, i: nat)
    requires 0 < i < |Split(s)|
    ensures var split := Split(s);
      split[i - 1].ending == "\r" && split[i].text == "" && split[i].ending != "" ==> split[i].ending[0] != '\n'
    decreases |s|
  {
    hide IsBreak;
    if BreakLength(s) > 0 {
      if i > 1 {
        NoNewlineAfterReturn(s[BreakLength(s)..], i - 1);
      } else {
        assert Split(s)[1] == Split(s[BreakLength(s)..])[0];
      }
    } else {
      NoNewlineAfterReturn(s[1..], i);
    }
  }

  lemma NothingSplit()
    ensures Stored([]) == "" == Join([]) && WellSplit([])
  {
  }

  lemma FirstLine(line: Line, rest: seq<Line>)
    ensures Stored([line] + rest) == line.text + line.ending + Stored(rest)
    ensures WellSplit([line] + rest) <==>
      && OneLine(line.text) && (Ending(line.ending) || (line.ending == "" && rest == []))
      && WellSplit(rest)
  {
    assert ([line] + rest)[1..] == rest;
  }

  lemma FirstLineGrows(split: seq<Line>, c: char)
    requires split != []
    ensures var grown := [Line([c] + split[0].text, split[0].ending)] + split[1..];
      && Stored(grown) == [c] + Stored(split)
      && (WellSplit(split) ==> OneLine(split[0].text))
      && (WellSplit(split) && OneLine([c] + split[0].text) ==> WellSplit(grown))
  {
    hide OneLine, Ending, Stored, WellSplit;
    FirstLine(Line([c] + split[0].text, split[0].ending), split[1..]);
    FirstLine(split[0], split[1..]);
    assert [split[0]] + split[1..] == split;
    assert [c] + split[0].text + split[0].ending + Stored(split[1..])
        == [c] + (split[0].text + split[0].ending + Stored(split[1..]));
  }

  lemma BreaksAreEndings(s: string)
    requires BreakLength(s) > 0
    ensures Ending(s[..BreakLength(s)]) && OneLine("")
  {
    if BreakLength(s) == 2 {
      assert s[..2] == ['\r', '\n'];
    }
  }

  lemma LineGrows(s: string, line: string)
    requires s != "" && BreakLength(s) == 0
    ensures OneLine(line) ==> OneLine([s[0]] + line)
    ensures OneLine([s[0]])
  {
    assert !IsBreak(s[0]);
  }

  lemma {:induction false} TextsAreLines(split: seq<Line>)
    requires WellSplit(split)
    ensures |Texts(split)| == |split| && Lines(Texts(split))
    ensures forall i | 0 <= i < |split| :: Texts(split)[i] == split[i].text
  {
    hide OneLine, Ending;
    if split != [] {
      TextsAreLines(split[1..]);
    }
  }

  /** The whole tool: paging through the stored text shows its lines, each character once and in order. */
  lemma AttachmentIsShownOnce(text: string, counts: seq<int>)
    ensures var lines := Texts(Split(text));
      && (Finished(lines, Cursor(1, 0), counts) ==> Follow(lines, Cursor(1, 0), counts) == Join(lines))
      && (|counts| > |Join(lines)| ==> Finished(lines, Cursor(1, 0), counts))
  {
    SplitLosesNothing(text);
    TextsAreLines(Split(text));
    EverythingIsShownOnce(Texts(Split(text)), counts);
  }

  predicate PlainBreaks(split: seq<Line>) {
    split == [] || (split[0].ending == (if |split| == 1 then "" else "\n") && PlainBreaks(split[1..]))
  }

  /** What is shown is the stored text itself exactly when every break is a newline and none ends the text. */
  lemma {:induction false} ShownIsStored(split: seq<Line>)
    requires WellSplit(split)
    ensures Join(Texts(split)) == Stored(split) <==> PlainBreaks(split)
  {
    hide OneLine, Ending, Join, Stored;
    if split == [] {
      NothingSplit();
    } else {
      var line, ending, rest := split[0].text, split[0].ending, split[1..];
      ShownIsStored(rest);
      FirstLine(split[0], rest);
      assert [split[0]] + rest == split;
      if rest == [] {
        NothingSplit();
        OnlyLine(line, ending);
        assert Texts(split) == [line];
      } else {
        JoinFirst(line, Texts(rest));
        assert Stored(split) == line + (ending + Stored(rest));
        SameAfter(line, "\n" + Join(Texts(rest)), ending + Stored(rest));
        BreakIsNewline(ending, Join(Texts(rest)), Stored(rest));
      }
    }
  }

  lemma OnlyLine(line: string, ending: string)
    ensures Join([line]) == line
    ensures line + ending + "" == line <==> ending == ""
  {
    assert |line + ending + ""| == |line| + |ending|;
    assert ending == "" ==> line + ending + "" == line;
  }

  lemma JoinFirst(line: string, rest: seq<string>)
    requires rest != []
    ensures Join([line] + rest) == line + ("\n" + Join(rest))
  {
    assert ([line] + rest)[1..] == rest;
  }

  lemma SameAfter(line: string, a: string, b: string)
    ensures line + a == line + b <==> a == b
  {
    assert (line + a)[|line|..] == a && (line + b)[|line|..] == b;
  }

  lemma BreakIsNewline(ending: string, a: string, b: string)
    requires Ending(ending)
    ensures "\n" + a == ending + b <==> ending == "\n" && a == b
  {
    assert ("\n" + a)[0] == '\n' && (ending + b)[0] == ending[0];
    assert ("\n" + a)[1..] == a;
    if ending == "\n" {
      assert (ending + b)[1..] == b;
    }
  }

  // ----- the character offset in the reply

  /** Where line n starts in the stored text. */
  function StoredOffset(split: seq<Line>, n: nat): nat
    requires n <= |split|
  {
    if n == 0 then 0 else |split[0].text| + |split[0].ending| + StoredOffset(split[1..], n - 1)
  }

  /** The offset in the reply counts one character per line break: it is the place of the line in
      the stored text exactly when no break before it is a carriage return with a newline. */
  lemma {:induction false} OffsetIsExact(split: seq<Line>, n: nat)
    requires WellSplit(split) && n < |split|
    ensures |Texts(split)| == |split|
    ensures Offset(Texts(split), n) == StoredOffset(split, n) <==> forall i | 0 <= i < n :: split[i].ending != "\r\n"
    ensures Offset(Texts(split), n) <= StoredOffset(split, n)
  {
    TextsAreLines(split);
    if n > 0 {
      OffsetIsExact(split[1..], n - 1);
      assert Texts(split)[1..] == Texts(split[1..]);
      assert (forall i | 0 <= i < n :: split[i].ending != "\r\n")
        <==> split[0].ending != "\r\n" && forall i | 0 <= i < n - 1 :: split[1..][i].ending != "\r\n" by {
        assert forall i | 0 < i < n :: split[i] == split[1..][i - 1];
      }
    }
  }

  /** Reading a stored file turns every kind of carriage return into a newline. */
  function ReadText(file: string): string {
    if file == "" then ""
    else if file[0] == '\r' then
      "\n" + ReadText(if |file| > 1 && file[1] == '\n' then file[2..] else file[1..])
    else [file[0]] + ReadText(file[1..])
  }

  lemma {:induction false} NoReturnsRead(file: string)
    ensures '\r' !in ReadText(file)
    decreases |file|
  {
    if file != "" {
      NoReturnsRead(file[1..]);
      if |file| > 1 {
        NoReturnsRead(file[2..]);
      }
    }
  }

  lemma {:induction false} NoReturnsInBreaks(split: seq<Line>)
    requires '\r' !in Stored(split)
    ensures forall i | 0 <= i < |split| :: split[i].ending != "\r\n"
  {
    if split != [] {
      var first, rest := split[0].text + split[0].ending, Stored(split[1..]);
      assert forall k | 0 <= k < |first| :: first[k] == Stored(split)[k];
      assert forall k | 0 <= k < |rest| :: rest[k] == Stored(split)[|first| + k];
      assert forall k | 0 <= k < |split[0].ending| :: split[0].ending[k] == first[|split[0].text| + k];
      NoReturnsInBreaks(split[1..]);
      assert forall i | 0 < i < |split| :: split[i] == split[1..][i - 1];
    }
  }

  /** So for every stored file the offset in the reply is the place of the line in the text. */
  lemma OffsetIsExactForFiles(file: string, n: nat)
    requires n < |Split(ReadText(file))|
    ensures var split := Split(ReadText(file));
      && Stored(split) == ReadText(file)
      && |Texts(split)| == |split|
      && Offset(Texts(split), n) == StoredOffset(split, n)
  {
    var split := Split(ReadText(file));
    SplitLosesNothing(ReadText(file));
    NoReturnsRead(file);
    NoReturnsInBreaks(split);
    OffsetIsExact(split, n);
  }
}
