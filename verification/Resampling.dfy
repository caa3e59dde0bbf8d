/**
  The streaming linear resampler. Samples arrive in blocks; the read position is a real
  number that may run ahead of the samples that are there. Exact reals stand for floats.
 */
module Resampling {
  const OUT_RATE: real := 16000.0

  function Clamped(x: real, lo: real, hi: real): real {
    var below := if x < hi then x else hi;
    if below > lo then below else lo
  }

  function Between(a: real, b: real, frac: real): real {
    a * (1.0 - frac) + b * frac
  }

  /** The value at position p on the line through the two samples around it. */
  function Interpolated(s: seq<real>, p: real): real
    requires 0.0 <= p && p + 1.0 < |s| as real
  {
    var i := p.Floor;
    var frac := p - i as real;
    Clamped(Between(s[i], s[i + 1], frac), -1.0, 1.0)
  }

  // ----- the batch form

  /** How many steps the position can take before it passes the last sample but one. */
  function StepsLeft(n: nat, p: real, step: real): nat
    requires step > 0.0
  {
    if p + 1.0 < n as real then
      ((n as real - 1.0 - p) / step).Floor + 1
    else 0
  }

  lemma QuotientIsUnique(x: real, step: real, q: real)
    requires step > 0.0 && q * step == x
    ensures x / step == q
  {
  }

  lemma StepsLeftIs(n: nat, p: real, step: real)
    requires step > 0.0
    ensures StepsLeft(n, p, step)
         == if p + 1.0 < n as real then ((n as real - 1.0 - p) / step).Floor + 1 else 0
  {
  }

  lemma OneStepLess(n: nat, p: real, step: real)
    requires step > 0.0 && p + 1.0 < n as real
    ensures StepsLeft(n, p + step, step) < StepsLeft(n, p, step)
  {
    hide *;
    var x := n as real - 1.0 - p;
    QuotientIsUnique(x - step, step, x / step - 1.0);
    QuotientIsUnique(n as real - 1.0 - (p + step), step, x / step - 1.0);
    StepsLeftIs(n, p, step);
    StepsLeftIs(n, p + step, step);
  }

  /** All samples of s from position p on, one every `step`. */
  function Batch(s: seq<real>, p: real, step: real): seq<real>
    requires p >= 0.0 && step > 0.0
    decreases StepsLeft(|s|, p, step)
  {
    if p + 1.0 < |s| as real then
      OneStepLess(|s|, p, step);
      [Interpolated(s, p)] + Batch(s, p + step, step)
    else []
  }

  /** Where reading n samples from position p stops. */
  function Stop(n: nat, p: real, step: real): (r: real)
    requires p >= 0.0 && step > 0.0
    ensures r >= p && r + 1.0 >= n as real
    decreases StepsLeft(n, p, step)
  {
    if p + 1.0 < n as real then
      OneStepLess(n, p, step);
      Stop(n, p + step, step)
    else p
  }

  /** The position after k steps. */
  function At(p: real, k: nat, step: real): real {
    p + k as real * step
  }

  lemma StepLater(p: real, k: nat, step: real)
    requires p >= 0.0 && step > 0.0
    ensures At(p, 0, step) == p
    ensures k > 0 ==> At(p + step, k - 1, step) == At(p, k, step)
    ensures At(p, k, step) >= p
  {
    assert k > 0 ==> (k - 1) as real == k as real - 1.0;
    assert k as real * step >= 0.0;
  }

  /** Output k is the interpolation at position p + k * step, and output goes on exactly
      as long as that position has a sample on both sides. */
  lemma {:induction false} BatchAt(s: seq<real>, p: real, step: real, k: nat)
    requires p >= 0.0 && step > 0.0
    ensures At(p, k, step) >= p
    ensures k < |Batch(s, p, step)| <==> At(p, k, step) + 1.0 < |s| as real
    ensures k < |Batch(s, p, step)| ==> Batch(s, p, step)[k] == Interpolated(s, At(p, k, step))
    ensures k == |Batch(s, p, step)| ==> Stop(|s|, p, step) == At(p, k, step)
    decreases k
  {
    hide At, Interpolated, StepsLeft;
    StepLater(p, k, step);
    if k > 0 && p + 1.0 < |s| as real {
      OneStepLess(|s|, p, step);
      BatchAt(s, p + step, step, k - 1);
    }
  }

  // ----- what the outputs are

  /** Cut off at full scale. */
  function Limited(x: real): (r: real)
    ensures -1.0 <= r <= 1.0
    ensures -1.0 <= x <= 1.0 ==> r == x
    ensures x > 1.0 ==> r == 1.0
    ensures x < -1.0 ==> r == -1.0
  {
    if x > 1.0 then 1.0 else if x < -1.0 then -1.0 else x
  }

  /** The value at position p on the line through its two neighbours. */
  function OnLine(s: seq<real>, p: real): real
    requires 0.0 <= p && p + 1.0 < |s| as real
  {
    var i := p.Floor;
    s[i] + (p - i as real) * (s[i + 1] - s[i])
  }

  lemma OnTheWay(a: real, b: real, frac: real)
    ensures Between(a, b, frac) == a + frac * (b - a)
  {
    assert a * (1.0 - frac) == a - a * frac;
    assert frac * (b - a) == b * frac - a * frac;
  }

  lemma OnTheLine(s: seq<real>, p: real)
    requires 0.0 <= p && p + 1.0 < |s| as real
    ensures Interpolated(s, p) == Limited(OnLine(s, p))
    ensures p == p.Floor as real ==> OnLine(s, p) == s[p.Floor]
  {
    var i := p.Floor;
    var value := Between(s[i], s[i + 1], p - i as real);
    assert Interpolated(s, p) == Clamped(value, -1.0, 1.0) == Limited(value);
    OnTheWay(s[i], s[i + 1], p - i as real);
    hide Between, Limited, Clamped;
    assert value == OnLine(s, p);
    if p == i as real {
      assert (p - i as real) * (s[i + 1] - s[i]) == 0.0;
    }
  }

  /** Output k lies on the line through the two samples around its position, cut off at full scale:
      at a whole position it is the sample itself, and it moves towards the next one in proportion. */
  lemma OutputIsOnTheLine(s: seq<real>, p: real, step: real, k: nat)
    requires p >= 0.0 && step > 0.0 && k < |Batch(s, p, step)|
    ensures var q := At(p, k, step); var i := q.Floor;
      && 0.0 <= q && q + 1.0 < |s| as real
      && Batch(s, p, step)[k] == Limited(OnLine(s, q))
      && (q == i as real ==> Batch(s, p, step)[k] == Limited(s[i]))
  {
    hide At, Batch, Interpolated, Limited, OnLine;
    BatchAt(s, p, step, k);
    OnTheLine(s, At(p, k, step));
  }

  predicate WithinScale(s: seq<real>) {
    forall i | 0 <= i < |s| :: -1.0 <= s[i] <= 1.0
  }

  lemma ScaleAt(s: seq<real>, i: nat)
    requires WithinScale(s) && i < |s|
    ensures -1.0 <= s[i] <= 1.0
  {
  }

  lemma PointOfLine(a: real, b: real, q: real, i: int, x: real, y: real, part: real)
    requires x == a + b * i as real && y == a + b * (i + 1) as real && part == (q - i as real) * (y - x)
    ensures x + part == a + b * q
  {
    assert (i + 1) as real == i as real + 1.0;
    assert b * (i as real + 1.0) == b * i as real + b;
    assert y - x == b;
    assert (q - i as real) * b == b * q - b * i as real;
  }

  lemma SameSign(a: real, d: real, x: real)
    requires a >= 0.0 && x == a * d
    ensures d >= 0.0 ==> x >= 0.0
    ensures d <= 0.0 ==> x <= 0.0
  {
  }

  lemma Fraction(frac: real, d: real, part: real)
    requires 0.0 <= frac < 1.0 && part == frac * d
    ensures d >= 0.0 ==> 0.0 <= part <= d
    ensures d <= 0.0 ==> d <= part <= 0.0
  {
    var rest := (1.0 - frac) * d;
    assert rest == d - part;
    SameSign(frac, d, part);
    SameSign(1.0 - frac, d, rest);
  }

  lemma LineMovesOn(s: seq<real>, p: real, q: real)
    requires 0.0 <= p <= q && p.Floor == q.Floor && q + 1.0 < |s| as real
    ensures var i := p.Floor;
      && (s[i] <= s[i + 1] ==> s[i] <= OnLine(s, p) <= OnLine(s, q) <= s[i + 1])
      && (s[i] >= s[i + 1] ==> s[i] >= OnLine(s, p) >= OnLine(s, q) >= s[i + 1])
  {
    var i := p.Floor;
    var d := s[i + 1] - s[i];
    var here, there := (p - i as real) * d, (q - i as real) * d;
    Fraction(p - i as real, d, here);
    Fraction(q - i as real, d, there);
    assert (q - p) * d == there - here;
    SameSign(q - p, d, there - here);
  }

  lemma PointsOfLine(s: seq<real>, a: real, b: real, q: real)
    requires 0.0 <= q && q + 1.0 < |s| as real
    requires forall i | 0 <= i < |s| :: s[i] == a + b * i as real
    ensures OnLine(s, q) == a + b * q
  {
    var i := q.Floor;
    PointOfLine(a, b, q, i, s[i], s[i + 1], (q - i as real) * (s[i + 1] - s[i]));
  }

  /** A straight line comes out as the same straight line. */
  lemma LinesAreKept(s: seq<real>, a: real, b: real, p: real, step: real, k: nat)
    requires p >= 0.0 && step > 0.0 && k < |Batch(s, p, step)|
    requires WithinScale(s) && forall i | 0 <= i < |s| :: s[i] == a + b * i as real
    ensures Batch(s, p, step)[k] == a + b * At(p, k, step)
  {
    hide At, Batch, WithinScale, OnLine;
    OutputIsOnTheLine(s, p, step, k);
    var q := At(p, k, step);
    PointsOfLine(s, a, b, q);
    ScaleAt(s, q.Floor);
    ScaleAt(s, q.Floor + 1);
    LineMovesOn(s, q, q);
  }

  lemma FirstOutput(s: seq<real>, p: real, step: real)
    requires 0.0 <= p && p + 1.0 < |s| as real && step > 0.0
    ensures Batch(s, p, step) != [] && Batch(s, p, step)[0] == Limited(OnLine(s, p))
  {
    hide Interpolated, StepsLeft, Limited;
    OnTheLine(s, p);
  }

  /** Later positions between the same two samples give outputs closer to the second. */
  lemma OutputMovesOn(s: seq<real>, p: real, q: real, step: real)
    requires 0.0 <= p <= q && p.Floor == q.Floor && q + 1.0 < |s| as real && step > 0.0 && WithinScale(s)
    ensures var i := p.Floor;
      && Batch(s, p, step) != [] && Batch(s, q, step) != []
      && (s[i] <= s[i + 1] ==> s[i] <= Batch(s, p, step)[0] <= Batch(s, q, step)[0] <= s[i + 1])
      && (s[i] >= s[i + 1] ==> s[i] >= Batch(s, p, step)[0] >= Batch(s, q, step)[0] >= s[i + 1])
  {
    hide Batch, WithinScale, OnLine;
    FirstOutput(s, p, step);
    FirstOutput(s, q, step);
    ScaleAt(s, p.Floor);
    ScaleAt(s, p.Floor + 1);
    LineMovesOn(s, p, q);
  }

  /** At the output's own rate the samples pass unchanged, all but the last, which waits for its neighbour. */
  lemma SameRatePasses(s: seq<real>)
    requires s != [] && WithinScale(s)
    ensures Batch(s, 0.0, 1.0) == s[..|s| - 1]
  {
    hide Batch, WithinScale;
    var n := |Batch(s, 0.0, 1.0)|;
    BatchAt(s, 0.0, 1.0, n);
    WholePosition(n);
    BatchAt(s, 0.0, 1.0, |s| - 1);
    WholePosition(|s| - 1);
    forall k | 0 <= k < n ensures Batch(s, 0.0, 1.0)[k] == s[k] {
      hide At;
      OutputIsOnTheLine(s, 0.0, 1.0, k);
      WholePosition(k);
      ScaleAt(s, k);
    }
  }

  lemma WholePosition(k: nat)
    ensures At(0.0, k, 1.0) == k as real
  {
  }

  // ----- more samples, fewer samples

  lemma {:induction false} MoreSamples(s: seq<real>, more: seq<real>, p: real, step: real)
    requires p >= 0.0 && step > 0.0
    ensures Batch(s + more, p, step) == Batch(s, p, step) + Batch(s + more, Stop(|s|, p, step), step)
    ensures Stop(|s + more|, Stop(|s|, p, step), step) == Stop(|s + more|, p, step)
    decreases StepsLeft(|s|, p, step)
  {
    if p + 1.0 < |s| as real {
      OneStepLess(|s|, p, step);
      MoreSamples(s, more, p + step, step);
      assert Batch(s, p, step) == [Interpolated(s, p)] + Batch(s, p + step, step);
      assert Batch(s + more, p, step) == [Interpolated(s, p)] + Batch(s + more, p + step, step);
    }
  }

  lemma SamplesFromTheBack(s: seq<real>, n: nat, p: real)
    requires n <= |s| && n as real <= p && p + 1.0 < |s| as real
    ensures Interpolated(s[n..], p - n as real) == Interpolated(s, p)
  {
    hide Clamped, Between;
    var i := p.Floor;
    assert (p - n as real).Floor == i - n;
    assert s[n..][i - n] == s[i] && s[n..][i - n + 1] == s[i + 1];
  }

  lemma {:induction false} DroppedSamples(s: seq<real>, n: nat, p: real, step: real)
    requires n <= |s| && n as real <= p && step > 0.0
    ensures Batch(s[n..], p - n as real, step) == Batch(s, p, step)
    ensures Stop(|s| - n, p - n as real, step) == Stop(|s|, p, step) - n as real
    decreases StepsLeft(|s|, p, step)
  {
    hide Interpolated, StepsLeft;
    assert p - n as real + 1.0 < (|s| - n) as real <==> p + 1.0 < |s| as real;
    if p + 1.0 < |s| as real {
      OneStepLess(|s|, p, step);
      DroppedSamples(s, n, p + step, step);
      SamplesFromTheBack(s, n, p);
      assert p + step - n as real == p - n as real + step;
    }
  }

  lemma InterpolatedAt(s: seq<real>, p: real, i: nat, frac: real)
    requires 0.0 <= p && p + 1.0 < |s| as real && i == p.Floor && frac == p - i as real
    ensures i + 1 < |s| && 0.0 <= frac < 1.0
    ensures Interpolated(s, p) == Clamped(Between(s[i], s[i + 1], frac), -1.0, 1.0)
  {
  }

  lemma OneMoreRead(out: seq<real>, s: seq<real>, p: real, step: real)
    requires p >= 0.0 && step > 0.0 && p + 1.0 < |s| as real
    ensures out + Batch(s, p, step) == out + [Interpolated(s, p)] + Batch(s, p + step, step)
    ensures Stop(|s|, p, step) == Stop(|s|, p + step, step)
    ensures StepsLeft(|s|, p + step, step) < StepsLeft(|s|, p, step)
  {
    hide Interpolated, StepsLeft;
    OneStepLess(|s|, p, step);
  }

  lemma NoMoreRead(s: seq<real>, p: real, step: real)
    requires p >= 0.0 && step > 0.0 && p + 1.0 >= |s| as real
    ensures Batch(s, p, step) == [] && Stop(|s|, p, step) == p
  {
  }

  // ----- one push

  datatype Stream = Stream(pending: seq<real>, pos: real) {
    predicate Valid() {
      pos >= 0.0
    }
  }

  /** Whole samples behind the position are dropped, unless the position is past them all. */
  function Trimmed(pending: seq<real>, pos: real): (r: Stream)
    requires pos >= 0.0
    ensures r.Valid()
  {
    var consumed := pos.Floor;
    if 0 < consumed <= |pending| then Stream(pending[consumed..], pos - consumed as real) else Stream(pending, pos)
  }

  function Pushed(st: Stream, samples: seq<real>, step: real): (r: Stream)
    requires st.Valid() && step > 0.0
    ensures r.Valid()
  {
    var all := st.pending + samples;
    Trimmed(all, Stop(|all|, st.pos, step))
  }

  class Resampler {
    var pending: seq<real>
    var pos: real
    var inRate: real
    var rateAdjust: real

    predicate Valid()
      reads this
    {
      pos >= 0.0 && inRate >= 1.0 && rateAdjust > 0.0
    }

    function Step(): (r: real)
      requires inRate >= 1.0 && rateAdjust > 0.0
      reads this`inRate, this`rateAdjust
      ensures r > 0.0
    {
      inRate / OUT_RATE * rateAdjust
    }

    /** 16000 outputs, one second of them, read on by one second of input at the adjusted rate. */
    lemma OneSecond(p: real)
      requires Valid() && p >= 0.0
      ensures At(p, 16000, Step()) == p + inRate * rateAdjust
    {
      var ratio := inRate / OUT_RATE;
      assert ratio * 16000.0 == inRate;
      assert 16000.0 * (ratio * rateAdjust) == (ratio * 16000.0) * rateAdjust;
    }

    function View(): Stream
      reads this
    {
      Stream(pending, pos)
    }

    constructor ()
      ensures Valid() && View() == Stream([], 0.0) && inRate == 48000.0 && rateAdjust == 1.0
    {
      pending, pos, inRate, rateAdjust := [], 0.0, 48000.0, 1.0;
    }

    method Reset(rate: real)
      modifies this
      ensures Valid() && View() == Stream([], 0.0) && rateAdjust == 1.0
      ensures inRate == if rate >= 1.0 then rate else 1.0
    {
      inRate := if rate >= 1.0 then rate else 1.0;
      rateAdjust := 1.0;
      pending := [];
      pos := 0.0;
    }

    method PushFloat(samples: seq<real>) returns (out: seq<real>)
      requires Valid()
      modifies this`pending, this`pos
      ensures Valid()
      ensures out == Batch(old(pending) + samples, old(pos), Step())
      ensures View() == Pushed(old(View()), samples, Step())
    {
      hide Interpolated, StepsLeft, Step, Between, Clamped, Batch, Stop;
      pending := pending + samples;
      var step := Step();
      out := [];
      while pos + 1.0 < |pending| as real
        invariant pos >= 0.0 && step == Step() && pending == old(pending) + samples
        invariant out + Batch(pending, pos, step) == Batch(pending, old(pos), step)
        invariant Stop(|pending|, pos, step) == Stop(|pending|, old(pos), step)
        decreases StepsLeft(|pending|, pos, step)
      {
        OneMoreRead(out, pending, pos, step);
        var i := pos.Floor;
        var frac := pos - i as real;
        var s := Between(pending[i], pending[i + 1], frac);
        InterpolatedAt(pending, pos, i, frac);
        out := out + [Clamped(s, -1.0, 1.0)];
        pos := pos + step;
      }
      NoMoreRead(pending, pos, step);
      var consumed := pos.Floor;
      if consumed > 0 && consumed <= |pending| {
        pending := pending[consumed..];
        pos := pos - consumed as real;
      }
    }
  }

  // ----- any chunking at a fixed rate

  function Joined(chunks: seq<seq<real>>): seq<real> {
    if chunks == [] then [] else chunks[0] + Joined(chunks[1..])
  }

  function PushAll(st: Stream, chunks: seq<seq<real>>, step: real): seq<real>
    requires st.Valid() && step > 0.0
    decreases |chunks|
  {
    if chunks == [] then []
    else Batch(st.pending + chunks[0], st.pos, step) + PushAll(Pushed(st, chunks[0], step), chunks[1..], step)
  }

  /** Trimming is invisible to everything that is read later. */
  lemma TrimmingIsInvisible(pending: seq<real>, pos: real, more: seq<real>, step: real)
    requires pos >= 0.0 && step > 0.0
    ensures var st := Trimmed(pending, pos); Batch(st.pending + more, st.pos, step) == Batch(pending + more, pos, step)
    ensures pos + 1.0 >= |pending| as real ==>
      var st := Trimmed(pending, pos); st.pos + 1.0 >= |st.pending| as real
  {
    var consumed := pos.Floor;
    if 0 < consumed <= |pending| {
      DroppedSamples(pending + more, consumed, pos, step);
      assert (pending + more)[consumed..] == pending[consumed..] + more;
    }
  }

  lemma {:induction false} PushAllIsBatch(st: Stream, chunks: seq<seq<real>>, step: real)
    requires st.Valid() && step > 0.0
    requires st.pos + 1.0 >= |st.pending| as real
    ensures PushAll(st, chunks, step) == Batch(st.pending + Joined(chunks), st.pos, step)
    decreases |chunks|
  {
    hide Interpolated, StepsLeft, Stop, Trimmed;
    if chunks == [] {
      assert st.pending + Joined(chunks) == st.pending;
    } else {
      var all, rest := st.pending + chunks[0], Joined(chunks[1..]);
      var stop := Stop(|all|, st.pos, step);
      MoreSamples(all, rest, st.pos, step);
      TrimmingIsInvisible(all, stop, rest, step);
      PushAllIsBatch(Pushed(st, chunks[0], step), chunks[1..], step);
      assert st.pending + Joined(chunks) == all + rest;
    }
  }

  /** However the input is cut, the output is that of one push of the whole input: output k is the
      clamped interpolation at position k * step, for every k whose position lies inside the input. */
  lemma StreamingRefinesBatch(chunks: seq<seq<real>>, step: real, k: nat)
    requires step > 0.0
    ensures PushAll(Stream([], 0.0), chunks, step) == PushAll(Stream([], 0.0), [Joined(chunks)], step)
    ensures var out := PushAll(Stream([], 0.0), chunks, step); var whole := Joined(chunks);
      && At(0.0, k, step) >= 0.0
      && (k < |out| <==> At(0.0, k, step) + 1.0 < |whole| as real)
      && (k < |out| ==> out[k] == Interpolated(whole, At(0.0, k, step)) == Limited(OnLine(whole, At(0.0, k, step))))
  {
    hide At, Interpolated, Batch, PushAll, OnLine, Limited;
    var whole := Joined(chunks);
    PushAllIsBatch(Stream([], 0.0), chunks, step);
    PushAllIsBatch(Stream([], 0.0), [whole], step);
    assert Joined([whole]) == whole;
    assert [] + whole == whole;
    BatchAt(whole, 0.0, step, k);
    if k < |Batch(whole, 0.0, step)| {
      OnTheLine(whole, At(0.0, k, step));
    }
  }

  // ----- a step that changes from push to push

  datatype Push = Push(samples: seq<real>, step: real)

  predicate Steps(ds: seq<Push>) {
    forall i | 0 <= i < |ds| :: ds[i].step > 0.0
  }

  function Whole(ds: seq<Push>): seq<real> {
    if ds == [] then [] else ds[0].samples + Whole(ds[1..])
  }

  function PushEach(st: Stream, ds: seq<Push>): seq<real>
    requires st.Valid() && Steps(ds)
    decreases |ds|
  {
    if ds == [] then []
    else
      Batch(st.pending + ds[0].samples, st.pos, ds[0].step) + PushEach(Pushed(st, ds[0].samples, ds[0].step), ds[1..])
  }

  /** The positions read of n samples from p on. */
  function Positions(n: nat, p: real, step: real): (ps: seq<real>)
    requires p >= 0.0 && step > 0.0
    ensures forall k | 0 <= k < |ps| :: p <= ps[k] && ps[k] + 1.0 < n as real
    decreases StepsLeft(n, p, step)
  {
    if p + 1.0 < n as real then
      OneStepLess(n, p, step);
      [p] + Positions(n, p + step, step)
    else []
  }

  /** The positions read in the whole stream, when n samples of it have come already. */
  function AllPositions(n: nat, p: real, ds: seq<Push>): (ps: seq<real>)
    requires p >= 0.0 && Steps(ds)
    ensures forall k | 0 <= k < |ps| :: 0.0 <= ps[k] && ps[k] + 1.0 < (n + |Whole(ds)|) as real
    decreases |ds|
  {
    if ds == [] then []
    else
      var m := n + |ds[0].samples|;
      Positions(m, p, ds[0].step) + AllPositions(m, Stop(m, p, ds[0].step), ds[1..])
  }

  function ReadAt(s: seq<real>, ps: seq<real>): seq<real>
    requires forall k | 0 <= k < |ps| :: 0.0 <= ps[k] && ps[k] + 1.0 < |s| as real
  {
    seq(|ps|, k requires 0 <= k < |ps| => Interpolated(s, ps[k]))
  }

  lemma {:induction false} BatchReads(s: seq<real>, p: real, step: real)
    requires p >= 0.0 && step > 0.0
    ensures Batch(s, p, step) == ReadAt(s, Positions(|s|, p, step))
    decreases StepsLeft(|s|, p, step)
  {
    hide Interpolated, StepsLeft;
    if p + 1.0 < |s| as real {
      OneStepLess(|s|, p, step);
      BatchReads(s, p + step, step);
    }
  }

  lemma MoreSamplesReadAlike(s: seq<real>, more: seq<real>, ps: seq<real>)
    requires forall k | 0 <= k < |ps| :: 0.0 <= ps[k] && ps[k] + 1.0 < |s| as real
    ensures ReadAt(s + more, ps) == ReadAt(s, ps)
  {
    forall k | 0 <= k < |ps| ensures Interpolated(s + more, ps[k]) == Interpolated(s, ps[k]) {
      var i := ps[k].Floor;
      assert (s + more)[i] == s[i] && (s + more)[i + 1] == s[i + 1];
    }
  }

  predicate InRange(n: nat, ps: seq<real>) {
    forall k | 0 <= k < |ps| :: 0.0 <= ps[k] && ps[k] + 1.0 < n as real
  }

  lemma ReadInTurn(s: seq<real>, a: seq<real>, b: seq<real>)
    requires InRange(|s|, a) && InRange(|s|, b)
    ensures InRange(|s|, a + b) && ReadAt(s, a + b) == ReadAt(s, a) + ReadAt(s, b)
  {
    hide Interpolated;
  }

  /** After n samples have been dropped, the stream goes on where the whole input would. */
  lemma {:induction false} PushEachReads(all: seq<real>, n: nat, p: real, ds: seq<Push>)
    requires n <= |all| && n as real <= p && Steps(ds)
    ensures InRange(|all + Whole(ds)|, AllPositions(|all|, p, ds))
    ensures PushEach(Stream(all[n..], p - n as real), ds)
         == ReadAt(all + Whole(ds), AllPositions(|all|, p, ds))
    decreases |ds|
  {
    hide ReadAt, Batch, Stop, Positions, Trimmed, Interpolated, StepsLeft;
    if ds == [] {
      NothingRead(all + Whole(ds));
    } else {
      var now, rest := all + ds[0].samples, Whole(ds[1..]);
      var step := ds[0].step;
      var stop := Stop(|now|, p, step);
      assert all + Whole(ds) == now + rest;
      assert all[n..] + ds[0].samples == now[n..];
      DroppedSamples(now, n, p, step);
      BatchReads(now, p, step);
      var drop := TrimmedDrops(now, n, stop);
      PushEachReads(now, drop, stop, ds[1..]);
      MoreSamplesReadAlike(now, rest, Positions(|now|, p, step));
      ReadInTurn(now + rest, Positions(|now|, p, step), AllPositions(|now|, stop, ds[1..]));
    }
  }

  lemma NothingRead(s: seq<real>)
    ensures ReadAt(s, []) == []
  {
  }

  lemma TrimmedDrops(s: seq<real>, n: nat, stop: real) returns (drop: nat)
    requires n <= |s| && n as real <= stop
    ensures drop <= |s| && drop as real <= stop
    ensures Trimmed(s[n..], stop - n as real) == Stream(s[drop..], stop - drop as real)
  {
    var consumed := (stop - n as real).Floor;
    drop := if 0 < consumed <= |s| - n then n + consumed else n;
    assert drop as real == n as real + (drop - n) as real;
    if drop > n {
      assert s[n..][consumed..] == s[drop..];
    }
  }

  lemma {:induction false} PositionsAreSteps(n: nat, p: real, step: real, k: nat)
    requires p >= 0.0 && step > 0.0
    ensures var ps := Positions(n, p, step);
      && (k < |ps| ==> ps[k] == if k == 0 then p else ps[k - 1] + step)
      && Stop(n, p, step) == if ps == [] then p else ps[|ps| - 1] + step
    decreases StepsLeft(n, p, step)
  {
    hide StepsLeft;
    if p + 1.0 < n as real {
      OneStepLess(n, p, step);
      PositionsAreSteps(n, p + step, step, if k == 0 then 0 else k - 1);
    }
  }

  predicate Follows(before: real, after: real, ds: seq<Push>) {
    exists i | 0 <= i < |ds| :: after == before + ds[i].step
  }

  lemma FollowsLater(before: real, after: real, ds: seq<Push>)
    requires ds != [] && Follows(before, after, ds[1..])
    ensures Follows(before, after, ds)
  {
    var i :| 0 <= i < |ds[1..]| && after == before + ds[1..][i].step;
    assert ds[i + 1] == ds[1..][i];
  }

  /** The first position is where reading starts, and each other lies one step of one of the pushes further. */
  lemma {:induction false} PositionsGoOn(n: nat, p: real, ds: seq<Push>, k: nat)
    requires p >= 0.0 && Steps(ds) && k < |AllPositions(n, p, ds)|
    ensures var ps := AllPositions(n, p, ds);
      if k == 0 then ps[0] == p else Follows(ps[k - 1], ps[k], ds)
    decreases |ds|
  {
    hide Positions, Stop, StepsLeft;
    FirstThenRest(n, p, ds);
    hide AllPositions, Steps, Follows;
    var m := n + |ds[0].samples|;
    var step := ds[0].step;
    var stop := Stop(m, p, step);
    var first, rest := Positions(m, p, step), AllPositions(m, stop, ds[1..]);
    PositionsAreSteps(m, p, step, k);
    if k < |first| {
      if k > 0 {
        OneStepOn(first[k - 1], ds);
      }
    } else {
      var later := k - |first|;
      PositionsGoOn(m, stop, ds[1..], later);
      if later > 0 {
        FollowsLater(rest[later - 1], rest[later], ds);
      } else if first != [] {
        OneStepOn(first[k - 1], ds);
      }
    }
  }

  lemma FirstThenRest(n: nat, p: real, ds: seq<Push>)
    requires p >= 0.0 && Steps(ds) && AllPositions(n, p, ds) != []
    ensures ds != [] && ds[0].step > 0.0 && Steps(ds[1..])
    ensures var m := n + |ds[0].samples|;
      AllPositions(n, p, ds)
        == Positions(m, p, ds[0].step) + AllPositions(m, Stop(m, p, ds[0].step), ds[1..])
  {
    hide Positions, Stop, StepsLeft;
  }

  lemma OneStepOn(before: real, ds: seq<Push>)
    requires ds != []
    ensures Follows(before, before + ds[0].step, ds)
  {
  }

  /**
    The step may change from push to push, as the level loop makes it: however
    the input is cut, the output is the interpolation of the whole input at
    positions that start at 0 and go on from each to the next by the step of a
    push. No sample is lost or read at another place.
   */
  lemma VaryingStepsReadTheWhole(ds: seq<Push>, k: nat)
    requires Steps(ds)
    ensures var ps := AllPositions(0, 0.0, ds);
      && InRange(|Whole(ds)|, ps)
      && PushEach(Stream([], 0.0), ds) == ReadAt(Whole(ds), ps)
      && (k < |ps| ==> if k == 0 then ps[0] == 0.0 else Follows(ps[k - 1], ps[k], ds))
      && |PushEach(Stream([], 0.0), ds)| == |ps|
      && (k < |ps| ==> PushEach(Stream([], 0.0), ds)[k] == Limited(OnLine(Whole(ds), ps[k])))
  {
    hide PushEach, AllPositions, Follows, OnLine, Limited, Interpolated;
    PushEachReads([], 0, 0.0, ds);
    assert [] + Whole(ds) == Whole(ds);
    if k < |AllPositions(0, 0.0, ds)| {
      PositionsGoOn(0, 0.0, ds, k);
      OnTheLine(Whole(ds), AllPositions(0, 0.0, ds)[k]);
    }
  }

  /** When the position runs past everything that is there, nothing is dropped and nothing is lost. */
  lemma RunningAheadKeepsAll(pending: seq<real>, pos: real)
    requires pos >= 0.0 && pos.Floor > |pending|
    ensures Trimmed(pending, pos) == Stream(pending, pos)
  {
  }
}
