/**
  The streaming parser that separates inline reasoning from answer text.
  The provider delivers the text in arbitrary chunks; delimiters may be split.
 */
module ThinkTags {
  import opened Wrappers

  datatype Channel = Answer | Thinking

  datatype Segment = Segment(channel: Channel, text: string)

  /** No character of the delimiter repeats its first one, so two occurrences never overlap. */
  predicate Borderless(tag: string) {
    tag != "" && forall i | 0 < i < |tag| :: tag[i] != tag[0]
  }

  /** The opening and the closing delimiter. */
  datatype Tags = Tags(open: string, close: string) {
    function At(inThink: bool): string {
      if inThink then close else open
    }

    predicate Valid() {
      Borderless(open) && Borderless(close)
    }
  }

  const THINK: Tags := Tags("<think>", "</think>")

  lemma ThinkTagsAreBorderless()
    ensures THINK.Valid()
  {
    assert THINK.open == ['<', 't', 'h', 'i', 'n', 'k', '>'];
    assert THINK.close == ['<', '/', 't', 'h', 'i', 'n', 'k', '>'];
  }

  function ChannelOf(inThink: bool): Channel {
    if inThink then Thinking else Answer
  }

  // ----- the reference: read from left to right, one character or one delimiter at a time

  predicate Occurs(tag: string, text: string, i: nat) {
    i + |tag| <= |text| && text[i..i + |tag|] == tag
  }

  function Labelled(text: string, c: Channel): seq<(Channel, char)> {
    seq(|text|, i requires 0 <= i < |text| => (c, text[i]))
  }

  function Classify(d: Tags, text: string, inThink: bool): seq<(Channel, char)>
    requires d.Valid()
    decreases |text|
  {
    if text == "" then []
    else if Occurs(d.At(inThink), text, 0) then Classify(d, text[|d.At(inThink)|..], !inThink)
    else [(ChannelOf(inThink), text[0])] + Classify(d, text[1..], inThink)
  }

  // ----- what one feed does

  function FindFrom(text: string, tag: string, i: nat): (r: Option<nat>)
    ensures r.Some? ==> r.value + |tag| <= |text|
    decreases |text| - i
  {
    if i + |tag| > |text| then None
    else if Occurs(tag, text, i) then Some(i)
    else FindFrom(text, tag, i + 1)
  }

  /** str.find */
  function Find(text: string, tag: string): (r: Option<nat>)
    ensures r.Some? ==> r.value + |tag| <= |text|
  {
    FindFrom(text, tag, 0)
  }

  lemma {:induction false} FindIsFirst(text: string, tag: string, i: nat)
    ensures var r := FindFrom(text, tag, i);
      && (r.Some? ==> i <= r.value && Occurs(tag, text, r.value))
      && (r.Some? ==> forall k | i <= k < r.value :: !Occurs(tag, text, k))
      && (r.None? ==> forall k | i <= k :: !Occurs(tag, text, k))
    decreases |text| - i
  {
    if i + |tag| <= |text| && !Occurs(tag, text, i) {
      FindIsFirst(text, tag, i + 1);
    }
  }

  /** Some but not all of the delimiter. */
  predicate Begins(tag: string, text: string) {
    |text| < |tag| && text == tag[..|text|]
  }

  predicate EndsWith(text: string, suffix: string) {
    |suffix| <= |text| && text[|text| - |suffix|..] == suffix
  }

  /** Where the shortest non-empty proper prefix of the delimiter that ends the text begins. */
  function PartialFrom(text: string, tag: string, i: nat): (r: Option<nat>)
    requires 1 <= i <= |tag|
    ensures r.Some? ==> r.value < |text|
    decreases |tag| - i
  {
    if i == |tag| then None
    else if EndsWith(text, tag[..i]) then Some(|text| - i)
    else PartialFrom(text, tag, i + 1)
  }

  lemma {:induction false} PartialIsShortest(text: string, tag: string, i: nat)
    requires 1 <= i <= |tag|
    ensures var r := PartialFrom(text, tag, i);
      && (r.Some? ==> i <= |text| - r.value < |tag| && EndsWith(text, tag[..|text| - r.value]))
      && (r.None? ==> forall j | i <= j < |tag| :: !EndsWith(text, tag[..j]))
    decreases |tag| - i
  {
    if i < |tag| && !EndsWith(text, tag[..i]) {
      PartialIsShortest(text, tag, i + 1);
    }
  }

  datatype Scan = Scan(segments: seq<Segment>, pending: string, inThink: bool)

  function Piece(text: string, inThink: bool): seq<Segment> {
    if text == "" then [] else [Segment(ChannelOf(inThink), text)]
  }

  function ScanText(d: Tags, text: string, inThink: bool, atEnd: bool): Scan
    requires d.Valid()
    decreases |text|
  {
    var tag := d.At(inThink);
    match Find(text, tag)
    case Some(idx) =>
      var rest := ScanText(d, text[idx + |tag|..], !inThink, atEnd);
      rest.(segments := Piece(text[..idx], inThink) + rest.segments)
    case None =>
      var cut := if atEnd then None else PartialFrom(text, tag, 1);
      var shown := if cut.Some? then cut.value else |text|;
      Scan(Piece(text[..shown], inThink), text[shown..], inThink)
  }

  lemma ScanFound(d: Tags, text: string, inThink: bool, atEnd: bool, idx: nat)
    requires d.Valid() && Find(text, d.At(inThink)) == Some(idx)
    ensures var rest := ScanText(d, text[idx + |d.At(inThink)|..], !inThink, atEnd);
      ScanText(d, text, inThink, atEnd) == rest.(segments := Piece(text[..idx], inThink) + rest.segments)
  {
  }

  lemma ScanNotFound(d: Tags, text: string, inThink: bool, atEnd: bool, shown: nat)
    requires d.Valid() && Find(text, d.At(inThink)).None?
    requires var cut := if atEnd then None else PartialFrom(text, d.At(inThink), 1);
             shown == if cut.Some? then cut.value else |text|
    ensures ScanText(d, text, inThink, atEnd) == Scan(Piece(text[..shown], inThink), text[shown..], inThink)
  {
  }

  lemma NothingToScan(d: Tags, inThink: bool, atEnd: bool)
    requires d.Valid()
    ensures ScanText(d, "", inThink, atEnd) == Scan([], "", inThink)
  {
  }

  class ThinkTagStreamParser {
    const tags: Tags
    var pending: string
    var inThink: bool

    constructor ()
      ensures tags == THINK && tags.Valid()
      ensures pending == "" && !inThink
    {
      tags := THINK;
      pending, inThink := "", false;
      ThinkTagsAreBorderless();
    }

    method Feed(chunk: string, atEnd: bool) returns (segments: seq<Segment>)
      requires tags.Valid()
      modifies this
      ensures Scan(segments, pending, inThink) == ScanText(tags, old(pending) + chunk, old(inThink), atEnd)
    {
      hide Occurs, ScanText, Find, PartialFrom, ChannelOf;
      var text := pending + chunk;
      pending, segments := "", [];
      ghost var goal := ScanText(tags, text, inThink, atEnd);
      while text != ""
        invariant pending == ""
        invariant var rest := ScanText(tags, text, inThink, atEnd);
                  goal == rest.(segments := segments + rest.segments)
        decreases |text|
      {
        var tag := tags.At(inThink);
        var kind := ChannelOf(inThink);
        var idx := Find(text, tag);
        if idx.Some? {
          ScanFound(tags, text, inThink, atEnd, idx.value);
          Regrouped(segments, Piece(text[..idx.value], inThink),
                    ScanText(tags, text[idx.value + |tag|..], !inThink, atEnd).segments);
          if idx.value > 0 {
            segments := segments + [Segment(kind, text[..idx.value])];
          }
          text := text[idx.value + |tag|..];
          inThink := !inThink;
          continue;
        }
        var partial := None;
        if !atEnd {
          partial := FindPartialTag(text, tag);
        }
        assert text[|text|..] == "" && text[..|text|] == text;
        ScanNotFound(tags, text, inThink, atEnd, if partial.Some? then partial.value else |text|);
        if partial.Some? {
          pending := text[partial.value..];
          text := text[..partial.value];
        }
        if text != "" {
          segments := segments + [Segment(kind, text)];
        }
        return;
      }
      NothingToScan(tags, inThink, atEnd);
    }
  }

  method FindPartialTag(text: string, tag: string) returns (r: Option<nat>)
    requires tag != ""
    ensures r == PartialFrom(text, tag, 1)
  {
    for i := 1 to |tag|
      invariant PartialFrom(text, tag, 1) == PartialFrom(text, tag, i)
    {
      if EndsWith(text, tag[..i]) {
        return Some(|text| - i);
      }
    }
    return None;
  }

  // ----- what a feed shows is settled

  function Flatten(segments: seq<Segment>): seq<(Channel, char)> {
    if segments == [] then [] else Labelled(segments[0].text, segments[0].channel) + Flatten(segments[1..])
  }

  lemma {:induction false} FlattenAppend(a: seq<Segment>, b: seq<Segment>)
    ensures Flatten(a + b) == Flatten(a) + Flatten(b)
  {
    if a == [] {
      assert a + b == b;
    } else {
      assert (a + b)[1..] == a[1..] + b;
      FlattenAppend(a[1..], b);
    }
  }

  lemma FlattenPiece(text: string, inThink: bool)
    ensures Flatten(Piece(text, inThink)) == Labelled(text, ChannelOf(inThink))
  {
    assert text != "" ==> Piece(text, inThink)[1..] == [];
  }

  lemma Regrouped<T>(a: seq<T>, b: seq<T>, c: seq<T>)
    ensures a + (b + c) == a + b + c
  {
  }

  lemma ClassifyDelimiter(d: Tags, text: string, inThink: bool)
    requires d.Valid() && Occurs(d.At(inThink), text, 0)
    ensures Classify(d, text, inThink) == Classify(d, text[|d.At(inThink)|..], !inThink)
  {
  }

  lemma OccursLater(text: string, tag: string, i: nat, k: nat)
    requires i <= |text|
    ensures Occurs(tag, text[i..], k) == Occurs(tag, text, i + k)
  {
    if i + k + |tag| <= |text| {
      assert text[i..][k..k + |tag|] == text[i + k..i + k + |tag|];
    }
  }

  /** Text in which no delimiter starts is read character by character. */
  lemma ClassifyCharacter(d: Tags, text: string, inThink: bool)
    requires d.Valid() && text != "" && !Occurs(d.At(inThink), text, 0)
    ensures Classify(d, text, inThink) == [(ChannelOf(inThink), text[0])] + Classify(d, text[1..], inThink)
  {
  }

  lemma {:induction false} ClassifyPlain(d: Tags, text: string, inThink: bool, cut: nat)
    requires d.Valid()
    requires cut <= |text|
    requires forall i | 0 <= i < cut :: !Occurs(d.At(inThink), text, i)
    ensures Classify(d, text, inThink) == Labelled(text[..cut], ChannelOf(inThink)) + Classify(d, text[cut..], inThink)
    decreases cut
  {
    hide Classify;
    if cut == 0 {
      assert text[0..] == text;
    } else {
      var tag := d.At(inThink);
      assert !Occurs(tag, text, 0);
      ClassifyCharacter(d, text, inThink);
      forall i | 0 <= i < cut - 1 ensures !Occurs(tag, text[1..], i) {
        OccursLater(text, tag, 1, i);
      }
      ClassifyPlain(d, text[1..], inThink, cut - 1);
      assert text[1..][cut - 1..] == text[cut..];
      assert Labelled(text[..cut], ChannelOf(inThink))
          == [(ChannelOf(inThink), text[0])] + Labelled(text[1..][..cut - 1], ChannelOf(inThink));
    }
  }

  lemma OccursInside(text: string, more: string, tag: string, i: nat)
    requires i + |tag| <= |text|
    ensures Occurs(tag, text + more, i) == Occurs(tag, text, i)
  {
    assert (text + more)[i..i + |tag|] == text[i..i + |tag|];
  }

  lemma OccursAcross(text: string, more: string, tag: string, i: nat)
    requires i < |text| < i + |tag| && Occurs(tag, text + more, i)
    ensures EndsWith(text, tag[..|text| - i])
  {
    assert (text + more)[i..i + |tag|][..|text| - i] == text[i..];
  }

  /** A text cannot end in two different beginnings of a borderless delimiter. */
  lemma OnePartial(text: string, tag: string, j0: nat, j: nat)
    requires Borderless(tag) && 1 <= j0 < j < |tag| && EndsWith(text, tag[..j0])
    ensures !EndsWith(text, tag[..j])
  {
    if |text| >= j {
      assert text[|text| - j0..][0] == tag[..j0][0];
      assert text[|text| - j..][j - j0] == text[|text| - j0];
      assert tag[..j][j - j0] == tag[j - j0];
    }
  }

  /** More text cannot create a delimiter that starts in the part already shown. */
  lemma ShownIsSettled(text: string, more: string, tag: string, i: nat)
    requires Borderless(tag) && Find(text, tag).None?
    requires var cut := PartialFrom(text, tag, 1); i < if cut.Some? then cut.value else |text|
    ensures !Occurs(tag, text + more, i)
  {
    var cut := PartialFrom(text, tag, 1);
    FindIsFirst(text, tag, 0);
    PartialIsShortest(text, tag, 1);
    if i + |tag| <= |text| {
      OccursInside(text, more, tag, i);
    } else {
      if cut.Some? {
        OnePartial(text, tag, |text| - cut.value, |text| - i);
      }
      assert !EndsWith(text, tag[..|text| - i]);
      if Occurs(tag, text + more, i) {
        OccursAcross(text, more, tag, i);
      }
    }
  }

  lemma NothingEarlier(text: string, more: string, tag: string, idx: nat)
    requires Find(text, tag) == Some(idx)
    ensures forall i | 0 <= i < idx :: !Occurs(tag, text + more, i)
    ensures Occurs(tag, text + more, idx)
  {
    FindIsFirst(text, tag, 0);
    OccursInside(text, more, tag, idx);
    forall i | 0 <= i < idx ensures !Occurs(tag, text + more, i) {
      OccursInside(text, more, tag, i);
    }
  }

  lemma FoundIsSettled(d: Tags, text: string, more: string, inThink: bool, idx: nat)
    requires d.Valid() && Find(text, d.At(inThink)) == Some(idx)
    ensures Classify(d, text + more, inThink)
         == Labelled(text[..idx], ChannelOf(inThink)) + Classify(d, text[idx + |d.At(inThink)|..] + more, !inThink)
  {
    hide Classify, Find, Labelled;
    var tag := d.At(inThink);
    NothingEarlier(text, more, tag, idx);
    ClassifyPlain(d, text + more, inThink, idx);
    assert (text + more)[..idx] == text[..idx];
    OccursLater(text + more, tag, idx, 0);
    ClassifyDelimiter(d, (text + more)[idx..], inThink);
    assert (text + more)[idx..][|tag|..] == text[idx + |tag|..] + more;
  }

  lemma NotFoundIsSettled(d: Tags, text: string, more: string, inThink: bool, shown: nat)
    requires d.Valid() && Find(text, d.At(inThink)).None?
    requires var cut := PartialFrom(text, d.At(inThink), 1); shown == if cut.Some? then cut.value else |text|
    ensures Classify(d, text + more, inThink)
         == Labelled(text[..shown], ChannelOf(inThink)) + Classify(d, text[shown..] + more, inThink)
    ensures Begins(d.At(inThink), text[shown..])
  {
    var tag := d.At(inThink);
    PartialIsShortest(text, tag, 1);
    forall i | 0 <= i < shown ensures !Occurs(tag, text + more, i) {
      ShownIsSettled(text, more, tag, i);
    }
    ClassifyPlain(d, text + more, inThink, shown);
    assert (text + more)[..shown] == text[..shown];
    assert (text + more)[shown..] == text[shown..] + more;
  }

  /**
    What a feed shows is final: whatever follows, the reading of the whole text
    is what was shown followed by the reading of what is pending and the rest.
   */
  lemma {:induction false} FeedIsSettled(d: Tags, text: string, more: string, inThink: bool)
    requires d.Valid()
    ensures var s := ScanText(d, text, inThink, false);
      && Classify(d, text + more, inThink) == Flatten(s.segments) + Classify(d, s.pending + more, s.inThink)
      && Begins(d.At(s.inThink), s.pending)
    decreases |text|
  {
    hide Classify, ScanText, Find, Flatten;
    var tag := d.At(inThink);
    match Find(text, tag)
    case Some(idx) =>
      var rest := text[idx + |tag|..];
      var r := ScanText(d, rest, !inThink, false);
      ScanFound(d, text, inThink, false, idx);
      FoundIsSettled(d, text, more, inThink, idx);
      FeedIsSettled(d, rest, more, !inThink);
      FlattenAppend(Piece(text[..idx], inThink), r.segments);
      FlattenPiece(text[..idx], inThink);
      Regrouped(Flatten(Piece(text[..idx], inThink)), Flatten(r.segments), Classify(d, r.pending + more, r.inThink));
    case None =>
      var cut := PartialFrom(text, tag, 1);
      var shown := if cut.Some? then cut.value else |text|;
      ScanNotFound(d, text, inThink, false, shown);
      NotFoundIsSettled(d, text, more, inThink, shown);
      FlattenPiece(text[..shown], inThink);
  }

  lemma NothingFound(d: Tags, text: string, inThink: bool)
    requires d.Valid() && Find(text, d.At(inThink)).None?
    ensures Classify(d, text, inThink) == Labelled(text, ChannelOf(inThink))
  {
    FindIsFirst(text, d.At(inThink), 0);
    ClassifyPlain(d, text, inThink, |text|);
    assert text[..|text|] == text && Classify(d, text[|text|..], inThink) == [];
  }

  /** The last feed reads its text completely. */
  lemma {:induction false} FinalFeedReadsAll(d: Tags, text: string, inThink: bool)
    requires d.Valid()
    ensures var s := ScanText(d, text, inThink, true);
      Flatten(s.segments) == Classify(d, text, inThink) && s.pending == ""
    decreases |text|
  {
    hide Classify, ScanText, Find, Flatten;
    var tag := d.At(inThink);
    match Find(text, tag)
    case Some(idx) =>
      var rest := text[idx + |tag|..];
      ScanFound(d, text, inThink, true, idx);
      FoundIsSettled(d, text, "", inThink, idx);
      assert text + "" == text && rest + "" == rest;
      FinalFeedReadsAll(d, rest, !inThink);
      FlattenAppend(Piece(text[..idx], inThink), ScanText(d, rest, !inThink, true).segments);
      FlattenPiece(text[..idx], inThink);
    case None =>
      ScanNotFound(d, text, inThink, true, |text|);
      NothingFound(d, text, inThink);
      FlattenPiece(text, inThink);
      assert text[..|text|] == text && text[|text|..] == "";
  }

  // ----- any chunking

  function Joined(chunks: seq<string>): string {
    if chunks == [] then "" else chunks[0] + Joined(chunks[1..])
  }

  /** Feeding the chunks one after another, all but the last with more to come. */
  function FeedAll(d: Tags, pending: string, inThink: bool, chunks: seq<string>): seq<Segment>
    requires d.Valid()
    decreases |chunks|
  {
    if chunks == [] then []
    else
      var s := ScanText(d, pending + chunks[0], inThink, |chunks| == 1);
      s.segments + FeedAll(d, s.pending, s.inThink, chunks[1..])
  }

  /** State after feeding chunks none of which is the last. */
  function FeedSome(d: Tags, pending: string, inThink: bool, chunks: seq<string>): Scan
    requires d.Valid()
    decreases |chunks|
  {
    if chunks == [] then Scan([], pending, inThink)
    else
      var s := ScanText(d, pending + chunks[0], inThink, false);
      var rest := FeedSome(d, s.pending, s.inThink, chunks[1..]);
      rest.(segments := s.segments + rest.segments)
  }

  lemma {:induction false} FeedAllReads(d: Tags, pending: string, inThink: bool, chunks: seq<string>)
    requires d.Valid()
    requires chunks != []
    ensures Flatten(FeedAll(d, pending, inThink, chunks)) == Classify(d, pending + Joined(chunks), inThink)
    decreases |chunks|
  {
    hide Classify, ScanText, Flatten;
    var s := ScanText(d, pending + chunks[0], inThink, |chunks| == 1);
    if |chunks| == 1 {
      FinalFeedReadsAll(d, pending + chunks[0], inThink);
      assert Joined(chunks) == chunks[0];
      assert FeedAll(d, pending, inThink, chunks) == s.segments;
    } else {
      FeedIsSettled(d, pending + chunks[0], Joined(chunks[1..]), inThink);
      FeedAllReads(d, s.pending, s.inThink, chunks[1..]);
      FlattenAppend(s.segments, FeedAll(d, s.pending, s.inThink, chunks[1..]));
      assert pending + chunks[0] + Joined(chunks[1..]) == pending + Joined(chunks);
    }
  }

  /** The characters and their channels do not depend on how the text was cut into chunks. */
  lemma ChunkingIsInvisible(d: Tags, chunks: seq<string>)
    requires d.Valid()
    requires chunks != []
    ensures Flatten(FeedAll(d, "", false, chunks)) == Flatten(FeedAll(d, "", false, [Joined(chunks)]))
    ensures Flatten(FeedAll(d, "", false, chunks)) == Classify(d, Joined(chunks), false)
  {
    FeedAllReads(d, "", false, chunks);
    FeedAllReads(d, "", false, [Joined(chunks)]);
    assert Joined([Joined(chunks)]) == Joined(chunks);
    assert "" + Joined(chunks) == Joined(chunks);
  }

  /** Before the end, the final reading starts with what was shown, whatever is still to come,
      and what is withheld is a proper prefix of the delimiter the parser is waiting for. */
  lemma {:induction false} ShownIsPrefix(d: Tags, pending: string, inThink: bool, chunks: seq<string>, more: string)
    requires d.Valid()
    requires Begins(d.At(inThink), pending)
    ensures var s := FeedSome(d, pending, inThink, chunks);
      && Classify(d, pending + (Joined(chunks) + more), inThink)
         == Flatten(s.segments) + Classify(d, s.pending + more, s.inThink)
      && Begins(d.At(s.inThink), s.pending)
    decreases |chunks|
  {
    hide Classify, ScanText;
    if chunks == [] {
      assert Joined(chunks) + more == more;
    } else {
      var s := ScanText(d, pending + chunks[0], inThink, false);
      var rest := FeedSome(d, s.pending, s.inThink, chunks[1..]);
      FeedIsSettled(d, pending + chunks[0], Joined(chunks[1..]) + more, inThink);
      ShownIsPrefix(d, s.pending, s.inThink, chunks[1..], more);
      FlattenAppend(s.segments, rest.segments);
      assert pending + chunks[0] + (Joined(chunks[1..]) + more) == pending + (Joined(chunks) + more);
      Regrouped(Flatten(s.segments), Flatten(rest.segments), Classify(d, rest.pending + more, rest.inThink));
    }
  }

  // ----- round trip

  /** Alternating answer and reasoning texts with the delimiters between them. */
  function Render(d: Tags, texts: seq<string>, inThink: bool): string {
    if texts == [] then ""
    else if |texts| == 1 then texts[0]
    else texts[0] + d.At(inThink) + Render(d, texts[1..], !inThink)
  }

  function LabelledAll(texts: seq<string>, inThink: bool): seq<(Channel, char)> {
    if texts == [] then []
    else Labelled(texts[0], ChannelOf(inThink)) + LabelledAll(texts[1..], !inThink)
  }

  ghost predicate Contains(text: string, tag: string) {
    exists i: nat :: Occurs(tag, text, i)
  }

  /** No answer text contains the opening delimiter, no reasoning text the closing one. */
  ghost predicate Unambiguous(d: Tags, texts: seq<string>, inThink: bool) {
    texts == [] || (!Contains(texts[0], d.At(inThink)) && Unambiguous(d, texts[1..], !inThink))
  }

  lemma DelimiterIsFoundAtTheEnd(d: Tags, text: string, rest: string, inThink: bool)
    requires d.Valid()
    requires !Contains(text, d.At(inThink))
    ensures Classify(d, text + d.At(inThink) + rest, inThink)
         == Labelled(text, ChannelOf(inThink)) + Classify(d, rest, !inThink)
  {
    var tag := d.At(inThink);
    var whole := text + tag + rest;
    forall i | 0 <= i < |text| ensures !Occurs(tag, whole, i) {
      assert !Occurs(tag, text, i);
      if i + |tag| <= |text| {
        assert whole[i..i + |tag|] == text[i..i + |tag|];
      } else if i + |tag| <= |whole| {
        assert whole[i..i + |tag|][|text| - i] == tag[0];
      }
    }
    ClassifyPlain(d, whole, inThink, |text|);
    assert whole[..|text|] == text;
    assert whole[|text|..] == tag + rest;
    assert (tag + rest)[..|tag|] == tag;
    ClassifyDelimiter(d, tag + rest, inThink);
    assert (tag + rest)[|tag|..] == rest;
  }

  lemma {:induction false} ClassifyRender(d: Tags, texts: seq<string>, inThink: bool)
    requires d.Valid()
    requires Unambiguous(d, texts, inThink)
    ensures Classify(d, Render(d, texts, inThink), inThink) == LabelledAll(texts, inThink)
    decreases |texts|
  {
    if texts == [] {
    } else if |texts| == 1 {
      assert !Contains(texts[0], d.At(inThink));
      assert forall i: nat :: !Occurs(d.At(inThink), texts[0], i);
      ClassifyPlain(d, texts[0], inThink, |texts[0]|);
      assert texts[0][..|texts[0]|] == texts[0];
      assert LabelledAll(texts[1..], !inThink) == [];
    } else {
      DelimiterIsFoundAtTheEnd(d, texts[0], Render(d, texts[1..], !inThink), inThink);
      ClassifyRender(d, texts[1..], !inThink);
    }
  }

  /** Rendering and then parsing under any chunking gives every text back in its channel. */
  lemma RoundTrip(d: Tags, texts: seq<string>)
    requires d.Valid() && Unambiguous(d, texts, false)
    ensures forall chunks | chunks != [] && Joined(chunks) == Render(d, texts, false) ::
      Flatten(FeedAll(d, "", false, chunks)) == LabelledAll(texts, false)
  {
    ClassifyRender(d, texts, false);
    forall chunks | chunks != [] && Joined(chunks) == Render(d, texts, false)
      ensures Flatten(FeedAll(d, "", false, chunks)) == LabelledAll(texts, false)
    {
      ChunkingIsInvisible(d, chunks);
    }
  }

  /** What stands between the tags is reasoning, what stands outside them is the answer, however it is cut up. */
  lemma ReasoningIsBetweenTheTags(answer: string, reasoning: string, more: string, chunks: seq<string>)
    requires !Contains(answer, "<think>") && !Contains(reasoning, "</think>") && !Contains(more, "<think>")
    requires chunks != [] && Joined(chunks) == answer + "<think>" + reasoning + "</think>" + more
    ensures THINK.Valid()
    ensures Flatten(FeedAll(THINK, "", false, chunks))
         == Labelled(answer, Answer) + Labelled(reasoning, Thinking) + Labelled(more, Answer)
  {
    ThinkTagsAreBorderless();
    hide Contains, Labelled, FeedAll, Flatten;
    var texts := [answer, reasoning, more];
    assert texts[1..] == [reasoning, more] && texts[1..][1..] == [more] && texts[1..][1..][1..] == [];
    ThreeTexts(answer, reasoning, more);
    RoundTrip(THINK, texts);
  }

  lemma ThreeTexts(a: string, b: string, c: string)
    requires !Contains(a, "<think>") && !Contains(b, "</think>") && !Contains(c, "<think>")
    ensures THINK.Valid()
    ensures Render(THINK, [a, b, c], false) == a + "<think>" + b + "</think>" + c
    ensures LabelledAll([a, b, c], false) == Labelled(a, Answer) + Labelled(b, Thinking) + Labelled(c, Answer)
    ensures Unambiguous(THINK, [a, b, c], false)
  {
    ThinkTagsAreBorderless();
    hide Contains, Labelled;
    assert [a, b, c][1..] == [b, c] && [b, c][1..] == [c] && [c][1..] == [];
    assert Render(THINK, [c], false) == c;
    assert Render(THINK, [b, c], true) == b + "</think>" + c;
    assert a + "<think>" + (b + "</think>" + c) == a + "<think>" + b + "</think>" + c;
    assert LabelledAll([c], false) == Labelled(c, Answer) + [];
    assert LabelledAll([b, c], true) == Labelled(b, Thinking) + Labelled(c, Answer);
    assert Unambiguous(THINK, [c], false);
    assert Unambiguous(THINK, [b, c], true);
  }
}
