/**
  The two-leg mixer. The microphone is the clock: every microphone sample yields one output
  sample, with a queued tap sample added to it or, when the queue runs low, the last one held.
 */
module Mixing {
  import opened Resampling
  import opened RateControl

  const START_GATE: nat := 480
  const CHUNK: nat := 320
  const HOLD_LIMIT: nat := CHUNK * 4
  const QUEUE_CAP: nat := 16000

  // ----- one output sample

  /** Rounding to the nearest integer, halves away from zero. */
  function Rounded(x: real): (r: int)
    ensures x - 0.5 <= r as real <= x + 0.5
    ensures x >= 0.0 ==> r as real > x - 0.5
    ensures x < 0.0 ==> r as real < x + 0.5
  {
    if x >= 0.0 then (x + 0.5).Floor else -((-x + 0.5).Floor)
  }

  function Mixed(mic: real, tap: real): (r: int)
    ensures -32767 <= r <= 32767
  {
    Rounded(Clamped(mic + tap, -1.0, 1.0) * 32767.0)
  }

  /** A 16-bit sample of this sum: to the nearest, and cut off at full scale. */
  predicate SampleOf(sample: int, sum: real) {
    && (-1.0 <= sum <= 1.0 ==> 32767.0 * sum - 0.5 <= sample as real <= 32767.0 * sum + 0.5)
    && (sum > 1.0 ==> sample == 32767)
    && (sum < -1.0 ==> sample == -32767)
  }

  /** Both legs are in the output, each at full strength. */
  lemma MixedIsTheSum(mic: real, tap: real)
    ensures SampleOf(Mixed(mic, tap), mic + tap)
  {
  }

  // ----- a batch, sample by sample

  datatype Mix = Mix(queue: seq<real>, lastTap: real, holds: nat)

  function TapFor(m: Mix): real {
    if |m.queue| >= START_GATE then m.queue[0]
    else if m.holds + 1 > HOLD_LIMIT then 0.0
    else m.lastTap
  }

  function Advanced(m: Mix): Mix {
    if |m.queue| >= START_GATE then Mix(m.queue[1..], m.queue[0], 0) else m.(holds := m.holds + 1)
  }

  function MixedBatch(m: Mix, mic: seq<real>): seq<int>
    decreases |mic|
  {
    if mic == [] then [] else [Mixed(mic[0], TapFor(m))] + MixedBatch(Advanced(m), mic[1..])
  }

  function AfterBatch(m: Mix, mic: seq<real>): Mix
    decreases |mic|
  {
    if mic == [] then m else AfterBatch(Advanced(m), mic[1..])
  }

  lemma FirstSample(m: Mix, mic: seq<real>)
    requires mic != []
    ensures MixedBatch(m, mic) == [Mixed(mic[0], TapFor(m))] + MixedBatch(Advanced(m), mic[1..])
    ensures AfterBatch(m, mic) == AfterBatch(Advanced(m), mic[1..])
  {
  }

  lemma NoSample(m: Mix)
    ensures MixedBatch(m, []) == [] && AfterBatch(m, []) == m
  {
  }

  // ----- the same in closed form

  /** How many queued samples a batch of n uses. */
  function Used(queued: nat, n: nat): (r: nat)
    ensures r <= queued && r <= n
  {
    if queued < START_GATE then 0
    else if n <= queued - START_GATE + 1 then n
    else queued - START_GATE + 1
  }

  /** The tap sample that goes with microphone sample k. */
  function TapAt(m: Mix, k: nat): real {
    var used := Used(|m.queue|, k);
    if |m.queue| - k >= START_GATE then m.queue[k]
    else if (if used > 0 then 0 else m.holds) + (k - used) + 1 > HOLD_LIMIT then 0.0
    else if used > 0 then m.queue[used - 1]
    else m.lastTap
  }

  lemma TapLater(m: Mix, k: nat)
    requires k > 0
    ensures TapAt(Advanced(m), k - 1) == TapAt(m, k)
  {
  }

  /** A batch yields as many samples as it has, each with the tap sample of its place, and uses
      the oldest queued samples in order; it never takes the queue from the gate or above to more
      than one sample below it. */
  lemma {:induction false} BatchInClosedForm(m: Mix, mic: seq<real>)
    ensures |MixedBatch(m, mic)| == |mic|
    ensures forall k | 0 <= k < |mic| :: MixedBatch(m, mic)[k] == Mixed(mic[k], TapAt(m, k))
    ensures AfterBatch(m, mic).queue == m.queue[Used(|m.queue|, |mic|)..]
    ensures |m.queue| >= START_GATE ==> |AfterBatch(m, mic).queue| >= START_GATE - 1
    ensures |m.queue| < START_GATE ==> AfterBatch(m, mic).queue == m.queue
    decreases |mic|
  {
    hide Mixed;
    if mic != [] {
      BatchInClosedForm(Advanced(m), mic[1..]);
      forall k | 0 <= k < |mic| ensures MixedBatch(m, mic)[k] == Mixed(mic[k], TapAt(m, k)) {
        if k > 0 {
          TapLater(m, k);
          assert MixedBatch(m, mic)[k] == MixedBatch(Advanced(m), mic[1..])[k - 1];
        }
      }
    }
  }

  /** In numbers: output k is the sum of microphone sample k and the tap sample of its place. */
  lemma EachOutputIsTheSum(m: Mix, mic: seq<real>)
    ensures |MixedBatch(m, mic)| == |mic|
    ensures forall k | 0 <= k < |mic| :: SampleOf(MixedBatch(m, mic)[k], mic[k] + TapAt(m, k))
  {
    hide Mixed, SampleOf, TapAt, MixedBatch, AfterBatch;
    BatchInClosedForm(m, mic);
    forall k | 0 <= k < |mic| ensures SampleOf(MixedBatch(m, mic)[k], mic[k] + TapAt(m, k)) {
      MixedIsTheSum(mic[k], TapAt(m, k));
    }
  }

  /** From 480 queued samples on they are used one for one; below, the last one is held for 80 ms in all,
      which is 1280 samples, and then there is silence. */
  lemma TapInNumbers(m: Mix, k: nat)
    ensures |m.queue| - k >= 480 ==> TapAt(m, k) == m.queue[k]
    ensures |m.queue| < 480 ==> TapAt(m, k) == if m.holds + k < 1280 then m.lastTap else 0.0
    ensures |m.queue| >= 480 > |m.queue| - k ==>
      TapAt(m, k) == if k < |m.queue| - 479 + 1280 then m.queue[|m.queue| - 480] else 0.0
  {
  }

  /** Two batches in a row are one batch. */
  lemma {:induction false} BatchesJoin(m: Mix, a: seq<real>, b: seq<real>)
    ensures MixedBatch(m, a + b) == MixedBatch(m, a) + MixedBatch(AfterBatch(m, a), b)
    ensures AfterBatch(m, a + b) == AfterBatch(AfterBatch(m, a), b)
    decreases |a|
  {
    hide Mixed, TapFor, Advanced;
    if a == [] {
      assert a + b == b;
    } else {
      assert (a + b)[1..] == a[1..] + b;
      BatchesJoin(Advanced(m), a[1..], b);
    }
  }

  /** What a client gets: whole chunks, the rest waits. */
  function Flushable(n: nat): (r: nat)
    ensures r <= n < r + 320 && r % 320 == 0
  {
    n / CHUNK * CHUNK
  }

  /** The safety valve: the oldest samples go. */
  function Excess(n: nat): (r: nat)
    ensures n <= 16000 ==> r == 0
    ensures n > 16000 ==> n - r == 16000
  {
    if n > QUEUE_CAP then n - QUEUE_CAP else 0
  }

  class Capture {
    const resampler: Resampler
    var tapQueue: seq<real>
    var lastTap: real
    var tapHoldCount: nat
    var pendingOut: seq<int>
    var clientFD: int
    var tapWinStart: nat
    var tapWinFrames: nat
    var tapWinProcs: nat
    var tapDeliveryEMA: real
    var tapDeliveryAdjust: real
    var tapCruise: bool

    predicate Valid()
      reads this, resampler
    {
      && resampler.Valid()
      && MIN_ADJUST <= tapDeliveryAdjust <= MAX_ADJUST && tapDeliveryEMA >= 0.0
      && |tapQueue| <= QUEUE_CAP
      && |pendingOut| < CHUNK
    }

    function View(): Mix
      reads this
    {
      Mix(tapQueue, lastTap, tapHoldCount)
    }

    function Measure(): Delivery
      reads this
    {
      Delivery(tapWinStart, tapWinFrames, tapWinProcs, tapDeliveryEMA, tapDeliveryAdjust)
    }

    constructor ()
      ensures Valid() && fresh(resampler)
      ensures View() == Mix([], 0.0, 0) && Measure() == NO_DELIVERY && pendingOut == [] && clientFD == -1 && !tapCruise
    {
      resampler := new Resampler();
      tapQueue, lastTap, tapHoldCount, pendingOut, clientFD := [], 0.0, 0, [], -1;
      tapWinStart, tapWinFrames, tapWinProcs := 0, 0, 0;
      tapDeliveryEMA, tapDeliveryAdjust, tapCruise := 0.0, 1.0, false;
    }

    method ResetMixState()
      requires Valid()
      modifies this
      ensures Valid() && clientFD == old(clientFD)
      ensures View() == Mix([], 0.0, 0) && Measure() == NO_DELIVERY && pendingOut == [] && !tapCruise
    {
      tapQueue := [];
      lastTap := 0.0;
      tapHoldCount := 0;
      tapWinStart := 0;
      tapWinFrames := 0;
      tapWinProcs := 0;
      tapDeliveryEMA := 0.0;
      tapDeliveryAdjust := 1.0;
      tapCruise := false;
      pendingOut := [];
    }

    method Attach(fd: nat)
      requires Valid()
      modifies this`clientFD
      ensures Valid() && clientFD == fd
    {
      clientFD := fd;
    }

    /** The client goes, then the capture is stopped and the mix state reset. */
    method Detach()
      requires Valid()
      modifies this
      ensures Valid() && clientFD == -1
      ensures View() == Mix([], 0.0, 0) && Measure() == NO_DELIVERY && pendingOut == [] && !tapCruise
    {
      clientFD := -1;
      ResetMixState();
    }

    method OnMicSamples(mic: seq<real>) returns (payload: seq<int>)
      requires Valid()
      modifies this`tapQueue, this`lastTap, this`tapHoldCount, this`pendingOut
      ensures Valid()
      ensures View() == AfterBatch(old(View()), mic)
      ensures payload + pendingOut
           == old(pendingOut) + if clientFD >= 0 then MixedBatch(old(View()), mic) else []
      ensures |payload| % CHUNK == 0
      ensures clientFD >= 0 ==>
        && |payload + pendingOut| == |old(pendingOut)| + |mic|
        && forall k | 0 <= k < |mic| ::
             SampleOf((payload + pendingOut)[|old(pendingOut)| + k], mic[k] + TapAt(old(View()), k))
    {
      hide Mixed, MixedBatch, AfterBatch, SampleOf, TapAt;
      EachOutputIsTheSum(View(), mic);
      payload := [];
      NoSample(View());
      if mic == [] {
        return;
      }
      var out := MixIn(mic);
      if clientFD >= 0 {
        pendingOut := pendingOut + out;
      }
      if clientFD >= 0 && |pendingOut| >= CHUNK {
        var flushable := Flushable(|pendingOut|);
        payload := pendingOut[..flushable];
        pendingOut := pendingOut[flushable..];
      }
    }

    /** A read cursor over the queue and one compaction at the end. */
    method MixIn(mic: seq<real>) returns (out: seq<int>)
      requires Valid()
      modifies this`tapQueue, this`lastTap, this`tapHoldCount
      ensures Valid()
      ensures View() == AfterBatch(old(View()), mic)
      ensures out == MixedBatch(old(View()), mic)
    {
      hide Mixed, MixedBatch, AfterBatch;
      out := [];
      ghost var start := View();
      var read := 0;
      var avail := |tapQueue|;
      assert tapQueue[0..] == tapQueue && mic[0..] == mic;
      for k := 0 to |mic|
        invariant 0 <= read <= avail == |tapQueue| && tapQueue == start.queue
        invariant out + MixedBatch(Mix(tapQueue[read..], lastTap, tapHoldCount), mic[k..]) == MixedBatch(start, mic)
        invariant AfterBatch(Mix(tapQueue[read..], lastTap, tapHoldCount), mic[k..]) == AfterBatch(start, mic)
      {
        var m := mic[k];
        var t: real;
        ghost var before := Mix(tapQueue[read..], lastTap, tapHoldCount);
        FirstSample(before, mic[k..]);
        assert mic[k..][1..] == mic[k + 1..];
        if avail - read >= START_GATE {
          t := tapQueue[read];
          read := read + 1;
          lastTap := t;
          tapHoldCount := 0;
        } else {
          tapHoldCount := tapHoldCount + 1;
          t := if tapHoldCount > HOLD_LIMIT then 0.0 else lastTap;
        }
        assert t == TapFor(before);
        assert Mix(tapQueue[read..], lastTap, tapHoldCount) == Advanced(before);
        out := out + [Mixed(m, t)];
      }
      NoSample(Mix(tapQueue[read..], lastTap, tapHoldCount));
      if read > 0 {
        tapQueue := tapQueue[read..];
      }
    }

    /** What the resampler has for these samples, after a change of rate has restarted it. */
    function Resampled(samples: seq<real>, rate: real): seq<real>
      requires resampler.Valid()
      reads this, resampler
    {
      if Restarts(rate) then Batch([] + samples, 0.0, rate / OUT_RATE * 1.0)
      else Batch(resampler.pending + samples, resampler.pos, resampler.Step())
    }

    predicate Restarts(rate: real)
      reads this, resampler
    {
      rate > 1.0 && !(-1.0 <= rate - resampler.inRate <= 1.0)
    }

    method IngestTap(samples: seq<real>, rate: real, now: nat)
      requires Valid() && now >= tapWinStart
      modifies this, resampler
      ensures Valid() && clientFD == old(clientFD) && pendingOut == old(pendingOut)
      ensures lastTap == old(lastTap) && tapHoldCount == old(tapHoldCount)
      ensures resampler.inRate ==
        if rate > 1.0 && (rate > old(resampler.inRate) + 1.0 || rate < old(resampler.inRate) - 1.0) then rate
        else old(resampler.inRate)
      ensures resampler.View() ==
        if old(Restarts(rate)) then Pushed(Stream([], 0.0), samples, rate / OUT_RATE * 1.0)
        else Pushed(old(resampler.View()), samples, old(resampler.Step()))
      ensures Measure() == Measured(old(Measure()), Callback(|samples|, now, resampler.inRate))
      ensures var tap := old(Resampled(samples, rate)); var all := old(tapQueue) + tap;
        && tapQueue == all[Excess(|all|)..]
        && tapCruise == (if tap == [] then old(tapCruise) else Cruises(old(tapCruise), |all|))
        && (tap != [] ==> resampler.rateAdjust == RateAdjust(Drift(old(tapCruise), |all|), tapDeliveryAdjust))
    {
      hide Batch, Drift, RateAdjust, Measured, Pushed, Cruises;
      if rate > 1.0 && !(-1.0 <= rate - resampler.inRate <= 1.0) {
        resampler.Reset(rate);
      }
      MeasureDelivery(|samples|, now);
      var tap := resampler.PushFloat(samples);
      QueueTap(tap);
    }

    method QueueTap(tap: seq<real>)
      requires Valid()
      modifies this`tapQueue, this`tapCruise, resampler`rateAdjust
      ensures Valid()
      ensures var all := old(tapQueue) + tap;
        && tapQueue == all[Excess(|all|)..]
        && tapCruise == (if tap == [] then old(tapCruise) else Cruises(old(tapCruise), |all|))
        && (tap != [] ==> resampler.rateAdjust == RateAdjust(Drift(old(tapCruise), |all|), tapDeliveryAdjust))
    {
      hide Drift, RateAdjust, Cruises;
      assert tapQueue + [] == tapQueue;
      if tap == [] {
        return;
      }
      var level := |tapQueue| + |tap|;
      LevelLoopPullsToTarget(tapCruise, level, tapDeliveryAdjust);
      var drift := Drift(tapCruise, level);
      tapCruise := Cruises(tapCruise, level);
      resampler.rateAdjust := RateAdjust(drift, tapDeliveryAdjust);
      tapQueue := tapQueue + tap;
      if |tapQueue| > QUEUE_CAP {
        tapQueue := tapQueue[|tapQueue| - QUEUE_CAP..];
      }
    }

    method MeasureDelivery(frames: nat, now: nat)
      requires Valid() && now >= tapWinStart
      modifies this`tapWinStart, this`tapWinFrames, this`tapWinProcs, this`tapDeliveryEMA, this`tapDeliveryAdjust
      ensures Valid()
      ensures Measure() == Measured(old(Measure()), Callback(frames, now, resampler.inRate))
    {
      AdjustMovesSlowly(Measure(), Callback(frames, now, resampler.inRate));
      tapWinFrames := tapWinFrames + frames;
      tapWinProcs := tapWinProcs + 1;
      if tapWinStart == 0 {
        tapWinStart := now;
      } else {
        var dt := (now - tapWinStart) as real / 1000000000.0;
        if dt >= 2.0 && tapWinFrames > 0 {
          var procsPerSec := PerSecond(tapWinProcs, dt);
          if procsPerSec >= 40.0 {
            var inst := PerSecond(tapWinFrames, dt);
            tapDeliveryEMA := if tapDeliveryEMA == 0.0 then inst else tapDeliveryEMA + (inst - tapDeliveryEMA) * 0.3;
            tapWinStart := now;
            tapWinFrames := 0;
            tapWinProcs := 0;
            if resampler.inRate > 1.0 && tapDeliveryEMA > 1.0 {
              var target := Target(tapDeliveryEMA, resampler.inRate);
              tapDeliveryAdjust := Clamped(target, tapDeliveryAdjust - MAX_MOVE, tapDeliveryAdjust + MAX_MOVE);
            }
          } else {
            tapWinStart := now;
            tapWinFrames := 0;
            tapWinProcs := 0;
          }
        }
      }
    }
  }

  // ----- whole runs between resets

  /** What happens to a capture: a microphone batch, tap samples out of the resampler, a client. */
  datatype Event = MicBatch(mic: seq<real>) | TapSamples(tap: seq<real>) | ClientComes | ClientGoes

  /** A tap sample that left the queue, played or thrown away. */
  datatype Departure = Departure(sample: real, played: bool)

  /** The state, and the history since the last reset. */
  datatype Run = Run(mix: Mix, pendingOut: seq<int>, attached: bool,
                     appended: seq<real>, departed: seq<Departure>,
                     captured: nat, produced: nat, made: seq<int>, payloads: seq<seq<int>>)

  const FRESH: Run := Run(Mix([], 0.0, 0), [], false, [], [], 0, 0, [], [])

  function Departures(samples: seq<real>, played: bool): seq<Departure> {
    seq(|samples|, i requires 0 <= i < |samples| => Departure(samples[i], played))
  }

  function Next(r: Run, e: Event): Run {
    match e
    case MicBatch(mic) =>
      var out := MixedBatch(r.mix, mic);
      var pending := r.pendingOut + if r.attached then out else [];
      var flush := if r.attached then Flushable(|pending|) else 0;
      r.(mix := AfterBatch(r.mix, mic), pendingOut := pending[flush..],
         departed := r.departed + Departures(r.mix.queue[..Used(|r.mix.queue|, |mic|)], true),
         captured := r.captured + |mic|, produced := r.produced + |out|,
         made := r.made + if r.attached then out else [],
         payloads := r.payloads + if flush > 0 then [pending[..flush]] else [])
    case TapSamples(tap) =>
      var all := r.mix.queue + tap;
      var excess := Excess(|all|);
      r.(mix := r.mix.(queue := all[excess..]), appended := r.appended + tap,
         departed := r.departed + Departures(all[..excess], false))
    case ClientComes => r.(attached := true)
    case ClientGoes => r.(attached := false)
  }

  function AfterAll(r: Run, events: seq<Event>): Run
    decreases |events|
  {
    if events == [] then r else AfterAll(Next(r, events[0]), events[1..])
  }

  function SamplesOf(departed: seq<Departure>): seq<real> {
    seq(|departed|, i requires 0 <= i < |departed| => departed[i].sample)
  }

  function Sent(payloads: seq<seq<int>>): seq<int> {
    if payloads == [] then [] else Sent(payloads[..|payloads| - 1]) + payloads[|payloads| - 1]
  }

  /** Every tap sample ever queued left in the order it came, or is still there. */
  predicate TapConserved(r: Run) {
    r.appended == SamplesOf(r.departed) + r.mix.queue && |r.mix.queue| <= QUEUE_CAP
  }

  /** Every sample made for a client was sent in whole chunks or is waiting, in order. */
  ghost predicate ClientConserved(r: Run) {
    && r.made == Sent(r.payloads) + r.pendingOut
    && |r.pendingOut| < CHUNK
    && forall p | p in r.payloads :: |p| > 0 && |p| % CHUNK == 0
  }

  /** The microphone is the clock. */
  predicate InTime(r: Run) {
    r.produced == r.captured
  }

  ghost predicate Conserved(r: Run) {
    TapConserved(r) && ClientConserved(r) && InTime(r)
  }

  lemma DeparturesInOrder(departed: seq<Departure>, all: seq<real>, n: nat, played: bool)
    requires n <= |all|
    ensures SamplesOf(departed + Departures(all[..n], played)) + all[n..] == SamplesOf(departed) + all
  {
  }

  lemma FlushingKeepsOrder(payloads: seq<seq<int>>, pendingOut: seq<int>, out: seq<int>, flush: nat)
    requires flush <= |pendingOut + out|
    ensures var pending := pendingOut + out;
      Sent(payloads + if flush > 0 then [pending[..flush]] else []) + pending[flush..]
        == Sent(payloads) + pendingOut + out
  {
    var pending := pendingOut + out;
    if flush > 0 {
      var more := payloads + [pending[..flush]];
      assert more[..|more| - 1] == payloads;
      assert Sent(more) == Sent(payloads) + pending[..flush];
    } else {
      assert payloads + [] == payloads && pending[0..] == pending;
    }
  }

  lemma NextOnMic(r: Run, mic: seq<real>)
    ensures var next := Next(r, MicBatch(mic));
      && next.mix == AfterBatch(r.mix, mic)
      && next.appended == r.appended
      && next.departed == r.departed + Departures(r.mix.queue[..Used(|r.mix.queue|, |mic|)], true)
      && next.captured == r.captured + |mic|
      && next.produced == r.produced + |MixedBatch(r.mix, mic)|
  {
    hide MixedBatch, AfterBatch, Used, Departures, Flushable;
  }

  lemma MicBatchConservesTap(r: Run, mic: seq<real>)
    requires TapConserved(r)
    ensures TapConserved(Next(r, MicBatch(mic)))
    ensures InTime(r) ==> InTime(Next(r, MicBatch(mic)))
  {
    hide Next, MixedBatch, AfterBatch, Used, Departures, SamplesOf;
    NextOnMic(r, mic);
    BatchInClosedForm(r.mix, mic);
    DeparturesInOrder(r.departed, r.mix.queue, Used(|r.mix.queue|, |mic|), true);
  }

  lemma MicBatchConservesOutput(r: Run, mic: seq<real>)
    requires ClientConserved(r)
    ensures ClientConserved(Next(r, MicBatch(mic)))
  {
    hide MixedBatch, AfterBatch, Used, Departures, SamplesOf, Sent;
    var out := if r.attached then MixedBatch(r.mix, mic) else [];
    var pending := r.pendingOut + out;
    var flush := if r.attached then Flushable(|pending|) else 0;
    FlushingKeepsOrder(r.payloads, r.pendingOut, out, flush);
  }

  lemma TapSamplesConserve(r: Run, tap: seq<real>)
    requires Conserved(r)
    ensures Conserved(Next(r, TapSamples(tap)))
  {
    hide Departures, SamplesOf, Sent;
    var all := r.mix.queue + tap;
    DeparturesInOrder(r.departed, all, Excess(|all|), false);
    assert SamplesOf(r.departed) + r.mix.queue + tap == SamplesOf(r.departed) + all;
  }

  lemma {:induction false} RunConserves(r: Run, events: seq<Event>)
    requires Conserved(r)
    ensures Conserved(AfterAll(r, events))
    decreases |events|
  {
    hide TapConserved, ClientConserved, InTime, Next;
    if events != [] {
      match events[0] {
        case MicBatch(mic) => MicBatchConservesTap(r, mic); MicBatchConservesOutput(r, mic);
        case TapSamples(tap) => TapSamplesConserve(r, tap);
        case ClientComes => ClientConserves(r, events[0]);
        case ClientGoes => ClientConserves(r, events[0]);
      }
      RunConserves(Next(r, events[0]), events[1..]);
    }
  }

  lemma ClientConserves(r: Run, e: Event)
    requires Conserved(r) && (e.ClientComes? || e.ClientGoes?)
    ensures Conserved(Next(r, e))
  {
  }

  /** From a reset on, whatever comes in whatever order: nothing is lost, doubled or reordered. */
  lemma EverythingIsConserved(events: seq<Event>)
    ensures Conserved(AfterAll(FRESH, events))
  {
    RunConserves(FRESH, events);
  }
}
