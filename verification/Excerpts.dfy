/**
  Cutting a source text into quotable excerpts at exact offsets.
 */
module Excerpts {
  import opened Wrappers

  const MAX_EXCERPT: nat := 1600
  const MIN_EXCERPT: nat := 300

  /** str.isspace */
  predicate IsSpace(c: char) {
    var n := c as int;
    || 0x09 <= n <= 0x0d || 0x1c <= n <= 0x20 || n == 0x85 || n == 0xa0 || n == 0x1680
    || 0x2000 <= n <= 0x200a || n in {0x2028, 0x2029, 0x202f, 0x205f, 0x3000}
  }

  predicate Blank(s: string) {
    forall i | 0 <= i < |s| :: IsSpace(s[i])
  }

  /** The white space of str.strip: 29 characters in all. */
  lemma WhiteSpaceIs(c: char)
    ensures IsSpace(c) <==>
      c as int in
        {0x09, 0x0a, 0x0b, 0x0c, 0x0d, 0x1c, 0x1d, 0x1e, 0x1f, 0x20, 0x85, 0xa0, 0x1680,
         0x2000, 0x2001, 0x2002, 0x2003, 0x2004, 0x2005, 0x2006, 0x2007, 0x2008, 0x2009, 0x200a,
         0x2028, 0x2029, 0x202f, 0x205f, 0x3000}
  {
  }

  datatype Excerpt = Excerpt(offset: nat, text: string)

  /** The closest boundary ahead of start, or `end`. */
  function Nearest(boundaries: seq<int>, start: nat, end: nat): (r: nat)
    requires start < end
    ensures start < r <= end
  {
    if boundaries == [] then end
    else
      var rest := Nearest(boundaries[1..], start, end);
      if start < boundaries[0] < rest then boundaries[0] else rest
  }

  predicate ParagraphBreak(text: string, i: nat) {
    i + 2 <= |text| && text[i] == '\n' && text[i + 1] == '\n'
  }

  /** str.rfind of an empty line that lies between lo and hi. */
  function LastBreak(text: string, lo: nat, hi: nat): (r: Option<nat>)
    requires hi <= |text|
    ensures r.Some? ==> lo <= r.value <= hi - 2 && ParagraphBreak(text, r.value)
    ensures r.Some? ==> forall i | r.value < i <= hi - 2 :: !ParagraphBreak(text, i)
    ensures r.None? ==> forall i | lo <= i <= hi - 2 :: !ParagraphBreak(text, i)
    decreases hi
  {
    if hi < lo + 2 then None
    else if ParagraphBreak(text, hi - 2) then Some(hi - 2)
    else LastBreak(text, lo, hi - 1)
  }

  /** The furthest an excerpt may go: the end of the text, the limit, the next boundary. */
  function Limit(text: string, boundaries: seq<int>, start: nat): (r: nat)
    requires start < |text|
    ensures start < r <= |text| && r <= start + MAX_EXCERPT
  {
    Nearest(boundaries, start, if start + MAX_EXCERPT < |text| then start + MAX_EXCERPT else |text|)
  }

  function Cut(text: string, boundaries: seq<int>, start: nat): (r: nat)
    requires start < |text|
    ensures start < r <= Limit(text, boundaries, start)
  {
    var end := Limit(text, boundaries, start);
    if end == |text| then end
    else
      var at := LastBreak(text, start + MIN_EXCERPT, end);
      if at.Some? then at.value + 2 else end
  }

  /** All pieces from start on, blank ones too. */
  function Pieces(text: string, boundaries: seq<int>, start: nat): seq<Excerpt>
    requires start <= |text|
    decreases |text| - start
  {
    if start == |text| then []
    else
      var end := Cut(text, boundaries, start);
      [Excerpt(start, text[start..end])] + Pieces(text, boundaries, end)
  }

  function NotBlank(pieces: seq<Excerpt>): seq<Excerpt> {
    if pieces == [] then []
    else (if Blank(pieces[0].text) then [] else [pieces[0]]) + NotBlank(pieces[1..])
  }

  method Excerpted(text: string, boundaries: seq<int>) returns (excerpts: seq<Excerpt>)
    ensures excerpts == NotBlank(Pieces(text, boundaries, 0))
  {
    hide Blank, Nearest, LastBreak, Pieces, NotBlank, ParagraphBreak;
    excerpts := [];
    var start := 0;
    while start < |text|
      invariant start <= |text|
      invariant excerpts + NotBlank(Pieces(text, boundaries, start)) == NotBlank(Pieces(text, boundaries, 0))
    {
      var end := if start + MAX_EXCERPT < |text| then start + MAX_EXCERPT else |text|;
      end := Nearest(boundaries, start, end);
      if end < |text| {
        var boundary := LastBreak(text, start + MIN_EXCERPT, end);
        if boundary.Some? {
          end := boundary.value + 2;
        }
      }
      assert end == Cut(text, boundaries, start);
      FirstPiece(text, boundaries, start);
      if !Blank(text[start..end]) {
        excerpts := excerpts + [Excerpt(start, text[start..end])];
      }
      start := end;
    }
    NoPiece(text, boundaries);
  }

  lemma FirstPiece(text: string, boundaries: seq<int>, start: nat)
    requires start < |text|
    ensures var end := Cut(text, boundaries, start); var piece := Excerpt(start, text[start..end]);
      NotBlank(Pieces(text, boundaries, start))
        == (if Blank(piece.text) then [] else [piece]) + NotBlank(Pieces(text, boundaries, end))
  {
    var end := Cut(text, boundaries, start);
    assert Pieces(text, boundaries, start)[1..] == Pieces(text, boundaries, end);
  }

  lemma NoPiece(text: string, boundaries: seq<int>)
    ensures NotBlank(Pieces(text, boundaries, |text|)) == []
  {
  }

  // ----- what the pieces are

  lemma {:induction false} NearestIsNearest(boundaries: seq<int>, start: nat, end: nat)
    requires start < end
    ensures var r := Nearest(boundaries, start, end);
      && (r == end || r in boundaries)
      && forall b | b in boundaries && start < b :: r <= b
  {
    if boundaries != [] {
      NearestIsNearest(boundaries[1..], start, end);
      assert boundaries == [boundaries[0]] + boundaries[1..];
    }
  }

  /** A piece ends for one of four reasons: the text ends, a boundary comes, the piece is full,
      or an empty line between its first 300 characters and that point is the last one there. */
  ghost predicate EndsWell(text: string, boundaries: seq<int>, start: nat, end: nat)
    requires start < end <= |text|
  {
    && end - start <= 1600
    && (forall b | b in boundaries :: !(start < b < end))
    && (|| end == |text|
        || ((end in boundaries || end - start == 1600)
            && forall i | start + 300 <= i <= end - 2 :: !ParagraphBreak(text, i))
        || (end - 2 >= start + 300 && ParagraphBreak(text, end - 2)))
  }

  lemma CutEndsWell(text: string, boundaries: seq<int>, start: nat)
    requires start < |text|
    ensures EndsWell(text, boundaries, start, Cut(text, boundaries, start))
  {
    NearestIsNearest(boundaries, start, if start + MAX_EXCERPT < |text| then start + MAX_EXCERPT else |text|);
  }

  function Concatenated(pieces: seq<Excerpt>): string {
    if pieces == [] then "" else pieces[0].text + Concatenated(pieces[1..])
  }

  ghost predicate Exact(text: string, boundaries: seq<int>, e: Excerpt) {
    && e.text != "" && e.offset + |e.text| <= |text|
    && e.text == text[e.offset..e.offset + |e.text|]
    && EndsWell(text, boundaries, e.offset, e.offset + |e.text|)
  }

  /** Each piece begins where the one before it ends. */
  predicate Contiguous(pieces: seq<Excerpt>, start: nat) {
    pieces == [] || (pieces[0].offset == start && Contiguous(pieces[1..], start + |pieces[0].text|))
  }

  /** The pieces are contiguous windows of the text that together are the text. */
  lemma {:induction false} PiecesPartition(text: string, boundaries: seq<int>, start: nat)
    requires start <= |text|
    ensures Concatenated(Pieces(text, boundaries, start)) == text[start..]
    ensures Contiguous(Pieces(text, boundaries, start), start)
    ensures forall e | e in Pieces(text, boundaries, start) :: Exact(text, boundaries, e) && e.offset >= start
    decreases |text| - start
  {
    hide EndsWell, Cut;
    if start < |text| {
      var end := Cut(text, boundaries, start);
      var first, rest := Excerpt(start, text[start..end]), Pieces(text, boundaries, end);
      PiecesPartition(text, boundaries, end);
      CutEndsWell(text, boundaries, start);
      assert Pieces(text, boundaries, start) == [first] + rest;
      assert ([first] + rest)[1..] == rest;
      assert text[start..end] + text[end..] == text[start..];
    }
  }

  lemma {:induction false} NotBlankKeeps(pieces: seq<Excerpt>)
    ensures forall e :: e in NotBlank(pieces) <==> e in pieces && !Blank(e.text)
  {
    if pieces != [] {
      NotBlankKeeps(pieces[1..]);
      assert pieces == [pieces[0]] + pieces[1..];
    }
  }

  predicate Covers(e: Excerpt, i: nat) {
    e.offset <= i < e.offset + |e.text|
  }

  lemma {:induction false} PieceOf(text: string, boundaries: seq<int>, start: nat, i: nat)
    requires start <= i < |text|
    ensures exists e :: e in Pieces(text, boundaries, start) && Covers(e, i)
    ensures forall e, f | e in Pieces(text, boundaries, start) && f in Pieces(text, boundaries, start)
                          && Covers(e, i) && Covers(f, i) :: e == f
    decreases |text| - start
  {
    var end := Cut(text, boundaries, start);
    var first, rest := Excerpt(start, text[start..end]), Pieces(text, boundaries, end);
    PiecesPartition(text, boundaries, end);
    assert Pieces(text, boundaries, start) == [first] + rest;
    if i < end {
      assert Covers(first, i) && first in [first] + rest;
    } else {
      PieceOf(text, boundaries, end, i);
      var e :| e in rest && Covers(e, i);
      assert e in [first] + rest;
    }
  }

  /** Every character that is no white space lies in exactly one excerpt, at its exact offset. */
  lemma EveryCharacterIsQuotable(text: string, boundaries: seq<int>, i: nat)
    requires i < |text| && !IsSpace(text[i])
    ensures var excerpts := NotBlank(Pieces(text, boundaries, 0));
      exists e :: e in excerpts && Covers(e, i) && Exact(text, boundaries, e)
                  && forall f | f in excerpts && Covers(f, i) :: f == e
  {
    hide EndsWell, IsSpace, Pieces, NotBlank;
    var pieces := Pieces(text, boundaries, 0);
    PieceOf(text, boundaries, 0, i);
    PiecesPartition(text, boundaries, 0);
    NotBlankKeeps(pieces);
    var e :| e in pieces && Covers(e, i);
    assert e.text[i - e.offset] == text[i];
    assert !Blank(e.text);
    assert e in NotBlank(pieces);
  }
}
