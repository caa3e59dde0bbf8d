/**
  The two control loops of the system-audio leg: the measured delivery rate, slew-limited,
  and the queue level, with a fast-fill and a cruise mode. Exact reals stand for floats.
 */
module RateControl {
  import opened Resampling

  const MIN_ADJUST: real := 0.25
  const MAX_ADJUST: real := 2.0
  const MAX_MOVE: real := 0.25
  const TARGET_LEVEL: nat := 3200

  /** Delivery measurement: the open window, the rate estimate (0 = none yet) and the adjustment. */
  datatype Delivery = Delivery(winStart: nat, winFrames: nat, winProcs: nat, ema: real, adjust: real) {
    predicate Valid() {
      ema >= 0.0 && MIN_ADJUST <= adjust <= MAX_ADJUST
    }
  }

  const NO_DELIVERY: Delivery := Delivery(0, 0, 0, 0.0, 1.0)

  /** One callback: so many frames arrive, at this uptime in nanoseconds, for this input rate. */
  datatype Callback = Callback(frames: nat, now: nat, inRate: real)

  function Seconds(c: Delivery, cb: Callback): real {
    (cb.now - c.winStart) as real / 1000000000.0
  }

  function PerSecond(n: nat, dt: real): real
    requires dt >= 2.0
  {
    n as real / dt
  }

  /** The callback closes the window. */
  predicate Closes(c: Delivery, cb: Callback) {
    c.winStart != 0 && Seconds(c, cb) >= 2.0 && c.winFrames + cb.frames > 0
  }

  /** ... and there were enough callbacks for the reading to mean something. */
  predicate Healthy(c: Delivery, cb: Callback) {
    Closes(c, cb) && PerSecond(c.winProcs + 1, Seconds(c, cb)) >= 40.0
  }

  function Reading(c: Delivery, cb: Callback): (r: real)
    requires Closes(c, cb)
    ensures r > 0.0
  {
    PerSecond(c.winFrames + cb.frames, Seconds(c, cb))
  }

  function Estimate(ema: real, reading: real): real {
    if ema == 0.0 then reading else ema + (reading - ema) * 0.3
  }

  function Target(ema: real, inRate: real): real
    requires inRate > 1.0
  {
    Clamped(ema / inRate, MIN_ADJUST, MAX_ADJUST)
  }

  function Slewed(adjust: real, target: real): real {
    Clamped(target, adjust - MAX_MOVE, adjust + MAX_MOVE)
  }

  /** A window closes after two seconds with samples in it, and is healthy at forty callbacks a second; its
      reading times its length is what was delivered. */
  lemma WindowsInNumbers(c: Delivery, cb: Callback)
    requires cb.now >= c.winStart
    ensures var ns := cb.now - c.winStart;
      && (Closes(c, cb) <==> c.winStart != 0 && ns >= 2000000000 && c.winFrames + cb.frames > 0)
      && (Healthy(c, cb) <==> Closes(c, cb) && 1000000000 * (c.winProcs + 1) >= 40 * ns)
      && (Closes(c, cb) ==> Reading(c, cb) * ns as real == (c.winFrames + cb.frames) as real * 1000000000.0)
  {
    var ns := cb.now - c.winStart;
    assert Seconds(c, cb) * 1000000000.0 == ns as real;
    if Closes(c, cb) {
      var dt := Seconds(c, cb);
      QuotientTimes((c.winFrames + cb.frames) as real, dt);
      QuotientTimes((c.winProcs + 1) as real, dt);
      AtLeastForty(c.winProcs + 1, dt, ns);
      assert Reading(c, cb) * ns as real == Reading(c, cb) * dt * 1000000000.0;
    }
  }

  lemma QuotientTimes(x: real, y: real)
    requires y > 0.0
    ensures x / y * y == x
  {
  }

  lemma AtLeastForty(n: nat, dt: real, ns: nat)
    requires dt >= 2.0 && dt * 1000000000.0 == ns as real
    ensures PerSecond(n, dt) >= 40.0 <==> 1000000000 * n >= 40 * ns
  {
    QuotientTimes(n as real, dt);
    var q := PerSecond(n, dt);
    assert q * dt == n as real;
    if q >= 40.0 {
      assert (q - 40.0) * dt >= 0.0;
    } else {
      assert (40.0 - q) * dt > 0.0;
    }
  }

  /** The target is the ratio of the estimated to the nominal rate, kept between a quarter and two. */
  lemma TargetIsTheRatio(ema: real, inRate: real)
    requires inRate > 1.0
    ensures 0.25 <= Target(ema, inRate) <= 2.0
    ensures 0.25 * inRate <= ema <= 2.0 * inRate ==> Target(ema, inRate) * inRate == ema
    ensures ema < 0.25 * inRate ==> Target(ema, inRate) == 0.25
    ensures ema > 2.0 * inRate ==> Target(ema, inRate) == 2.0
  {
    QuotientTimes(ema, inRate);
    Sides(ema / inRate, 0.25, inRate, ema, 0.25 * inRate);
    Sides(ema / inRate, 2.0, inRate, ema, 2.0 * inRate);
  }

  lemma Sides(x: real, y: real, z: real, xz: real, yz: real)
    requires z > 0.0 && xz == x * z && yz == y * z
    ensures x < y <==> xz < yz
    ensures x > y <==> xz > yz
  {
    assert (y - x) * z == yz - xz;
    if x < y {
      assert (y - x) * z > 0.0;
    } else if x > y {
      assert (x - y) * z > 0.0;
    }
  }

  function Measured(c: Delivery, cb: Callback): Delivery {
    var counted := c.(winFrames := c.winFrames + cb.frames, winProcs := c.winProcs + 1);
    if c.winStart == 0 then counted.(winStart := cb.now)
    else if !Closes(c, cb) then counted
    else if !Healthy(c, cb) then Delivery(cb.now, 0, 0, c.ema, c.adjust)
    else
      var ema := Estimate(c.ema, Reading(c, cb));
      Delivery(cb.now, 0, 0, ema,
               if cb.inRate > 1.0 && ema > 1.0 then Slewed(c.adjust, Target(ema, cb.inRate)) else c.adjust)
  }

  /** What one callback does: the first one opens a window, each adds its samples, and the one that closes it
      opens the next. A healthy window moves the estimate three tenths of the way to the reading, and the
      adjustment by a quarter towards the target, or onto it. */
  lemma MeasuredInSteps(c: Delivery, cb: Callback)
    ensures var m := Measured(c, cb);
      && (if Closes(c, cb) then m.winStart == cb.now && m.winFrames == 0 && m.winProcs == 0
          else && m.winStart == (if c.winStart == 0 then cb.now else c.winStart)
               && m.winFrames == c.winFrames + cb.frames && m.winProcs == c.winProcs + 1)
      && (Healthy(c, cb) ==> m.ema == if c.ema == 0.0 then Reading(c, cb) else 0.7 * c.ema + 0.3 * Reading(c, cb))
      && (Healthy(c, cb) && cb.inRate > 1.0 && m.ema > 1.0 ==> var target := Target(m.ema, cb.inRate);
            if c.adjust + 0.25 < target then m.adjust == c.adjust + 0.25
            else if target < c.adjust - 0.25 then m.adjust == c.adjust - 0.25
            else m.adjust == target)
      && (!Healthy(c, cb) ==> m.ema == c.ema)
      && (!(Healthy(c, cb) && cb.inRate > 1.0 && m.ema > 1.0) ==> m.adjust == c.adjust)
  {
    hide Seconds, PerSecond, Target;
  }

  function MeasuredAll(c: Delivery, cbs: seq<Callback>): Delivery
    decreases |cbs|
  {
    if cbs == [] then c else MeasuredAll(Measured(c, cbs[0]), cbs[1..])
  }

  /** One callback moves the adjustment by a quarter at most, and not at all unless it closes a healthy window. */
  lemma AdjustMovesSlowly(c: Delivery, cb: Callback)
    requires c.Valid()
    ensures Measured(c, cb).Valid()
    ensures -MAX_MOVE <= Measured(c, cb).adjust - c.adjust <= MAX_MOVE
    ensures !Healthy(c, cb) ==> Measured(c, cb).adjust == c.adjust && Measured(c, cb).ema == c.ema
  {
    hide Seconds, PerSecond, Healthy, Closes;
  }

  /** Over any stream of callbacks the adjustment stays in range. */
  lemma {:induction false} AdjustStaysInRange(c: Delivery, cbs: seq<Callback>)
    requires c.Valid()
    ensures MeasuredAll(c, cbs).Valid()
    decreases |cbs|
  {
    if cbs != [] {
      AdjustMovesSlowly(c, cbs[0]);
      AdjustStaysInRange(Measured(c, cbs[0]), cbs[1..]);
    }
  }

  /** Every reading the controller takes lies in this interval. */
  predicate ReadingsWithin(c: Delivery, cbs: seq<Callback>, lo: real, hi: real)
    decreases |cbs|
  {
    cbs == [] ||
    ((Healthy(c, cbs[0]) ==> lo <= Reading(c, cbs[0]) <= hi) && ReadingsWithin(Measured(c, cbs[0]), cbs[1..], lo, hi))
  }

  /** The estimate never leaves the interval the readings lie in. */
  lemma {:induction false} EstimateStaysInHull(c: Delivery, cbs: seq<Callback>, lo: real, hi: real)
    requires 0.0 < lo <= hi
    requires c.ema == 0.0 || lo <= c.ema <= hi
    requires ReadingsWithin(c, cbs, lo, hi)
    ensures var ema := MeasuredAll(c, cbs).ema; (ema == 0.0 && c.ema == 0.0) || lo <= ema <= hi
    decreases |cbs|
  {
    hide Seconds, PerSecond, Closes, Healthy, Reading, Target;
    if cbs != [] {
      EstimateStaysInHull(Measured(c, cbs[0]), cbs[1..], lo, hi);
    }
  }

  /** Each further reading closes three tenths of the gap between the estimate and itself. */
  lemma EstimateClosesIn(ema: real, reading: real)
    requires ema != 0.0
    ensures Distance(Estimate(ema, reading), reading) == 0.7 * Distance(ema, reading)
  {
  }

  // ----- reaching a constant target

  predicate Aims(c: Delivery, cb: Callback) {
    Healthy(c, cb) && cb.inRate > 1.0 && Estimate(c.ema, Reading(c, cb)) > 1.0
  }

  function Aim(c: Delivery, cb: Callback): real
    requires Aims(c, cb)
  {
    Target(Estimate(c.ema, Reading(c, cb)), cb.inRate)
  }

  /** Whenever the controller aims, it aims at this value. */
  predicate AimsAt(c: Delivery, cbs: seq<Callback>, target: real)
    decreases |cbs|
  {
    cbs == [] ||
    ((Aims(c, cbs[0]) ==> Aim(c, cbs[0]) == target) && AimsAt(Measured(c, cbs[0]), cbs[1..], target))
  }

  function AimCount(c: Delivery, cbs: seq<Callback>): nat
    decreases |cbs|
  {
    if cbs == [] then 0 else (if Aims(c, cbs[0]) then 1 else 0) + AimCount(Measured(c, cbs[0]), cbs[1..])
  }

  function Distance(x: real, y: real): real {
    if x < y then y - x else x - y
  }

  lemma {:induction false} DistanceShrinks(c: Delivery, cbs: seq<Callback>, target: real)
    requires AimsAt(c, cbs, target)
    ensures var left := Distance(c.adjust, target) - MAX_MOVE * AimCount(c, cbs) as real;
      if left > 0.0 then Distance(MeasuredAll(c, cbs).adjust, target) == left
      else AimCount(c, cbs) > 0 || Distance(c.adjust, target) == 0.0 ==> MeasuredAll(c, cbs).adjust == target
    decreases |cbs|
  {
    hide Aims, Aim, Estimate, Target, Healthy, Closes, Reading, Measured;
    if cbs != [] {
      OneMove(c, cbs[0], target);
      DistanceShrinks(Measured(c, cbs[0]), cbs[1..], target);
    }
  }

  lemma OneMove(c: Delivery, cb: Callback, target: real)
    requires Aims(c, cb) ==> Aim(c, cb) == target
    ensures Measured(c, cb).adjust == if Aims(c, cb) then Slewed(c.adjust, target) else c.adjust
  {
  }

  /** A constant target is met exactly after seven healthy windows. */
  lemma ReachedInSevenWindows(c: Delivery, cbs: seq<Callback>, target: real)
    requires c.Valid() && MIN_ADJUST <= target <= MAX_ADJUST
    requires AimsAt(c, cbs, target) && AimCount(c, cbs) >= 7
    ensures MeasuredAll(c, cbs).adjust == target
  {
    DistanceShrinks(c, cbs, target);
  }

  /** A source that delivers at a constant rate is a constant target, from the first window on. */
  lemma {:induction false} ConstantRateIsConstantTarget(c: Delivery, cbs: seq<Callback>, rate: real, inRate: real)
    requires rate > 1.0 && inRate > 1.0
    requires c.ema == 0.0 || c.ema == rate
    requires ReadingsWithin(c, cbs, rate, rate)
    requires forall cb | cb in cbs :: cb.inRate == inRate
    ensures AimsAt(c, cbs, Target(rate, inRate))
    decreases |cbs|
  {
    hide Seconds, PerSecond, Closes, Healthy, Reading, Target, Slewed;
    if cbs != [] {
      ConstantRateIsConstantTarget(Measured(c, cbs[0]), cbs[1..], rate, inRate);
    }
  }

  // ----- the level loop

  /** The mode is left below half the target level and entered again at the target level. */
  function Cruises(cruise: bool, level: nat): bool {
    if cruise then 2 * level >= TARGET_LEVEL else level >= TARGET_LEVEL
  }

  function Drift(cruise: bool, level: nat): real {
    if cruise then Clamped(1.0 + (level as real - TARGET_LEVEL as real) / 500000.0, 0.9985, 1.0015)
    else if level >= TARGET_LEVEL then 1.0
    else 0.98
  }

  /** Filling up starts at 2 % slow and lasts until the level is 3200; the cruise that follows ends below 1600.
      While it lasts every 500 samples too many or too few change the rate by 0.1 %, up to 0.15 %. */
  lemma LevelLoopInNumbers(level: nat)
    ensures Cruises(false, level) <==> level >= 3200
    ensures Cruises(true, level) <==> level >= 1600
    ensures Drift(false, level) == if level >= 3200 then 1.0 else 0.98
    ensures 2450 <= level <= 3950 ==> (Drift(true, level) - 1.0) * 500000.0 == (level - 3200) as real
    ensures level < 2450 ==> Drift(true, level) == 0.9985
    ensures level > 3950 ==> Drift(true, level) == 1.0015
  {
  }

  function RateAdjust(drift: real, adjust: real): real {
    Clamped(drift * adjust, MIN_ADJUST, MAX_ADJUST)
  }

  /** The two adjustments multiply, within a quarter and two. */
  lemma RateAdjustIsTheProduct(drift: real, adjust: real, product: real)
    requires product == drift * adjust
    ensures RateAdjust(drift, adjust) == if product < 0.25 then 0.25 else if product > 2.0 then 2.0 else product
  {
  }

  lemma ProductSide(drift: real, adjust: real, product: real)
    requires adjust > 0.0 && product == drift * adjust
    ensures drift < 1.0 ==> product < adjust
    ensures drift > 1.0 ==> product > adjust
    ensures drift == 1.0 ==> product == adjust
  {
    if drift < 1.0 {
      assert (1.0 - drift) * adjust > 0.0;
    } else if drift > 1.0 {
      assert (drift - 1.0) * adjust > 0.0;
    }
  }

  lemma AdjustFollowsDrift(drift: real, adjust: real)
    requires MIN_ADJUST <= adjust <= MAX_ADJUST
    ensures var r := RateAdjust(drift, adjust);
      && MIN_ADJUST <= r <= MAX_ADJUST
      && (drift < 1.0 ==> r <= adjust && (adjust > MIN_ADJUST ==> r < adjust))
      && (drift > 1.0 ==> r >= adjust && (adjust < MAX_ADJUST ==> r > adjust))
      && (drift == 1.0 ==> r == adjust)
  {
    var product := drift * adjust;
    ProductSide(drift, adjust, product);
    assert RateAdjust(drift, adjust) == Clamped(product, MIN_ADJUST, MAX_ADJUST);
  }

  /**
    The level loop pulls towards the target: below it the resampler reads no faster than the
    delivery rate asks for, above it no slower, and in between steps it stays positive and in range.
   */
  lemma LevelLoopPullsToTarget(cruise: bool, level: nat, adjust: real)
    requires MIN_ADJUST <= adjust <= MAX_ADJUST
    ensures var r := RateAdjust(Drift(cruise, level), adjust);
      && MIN_ADJUST <= r <= MAX_ADJUST
      && (level < TARGET_LEVEL ==> r <= adjust && (adjust > MIN_ADJUST ==> r < adjust))
      && (level > TARGET_LEVEL ==> r >= adjust && (cruise && adjust < MAX_ADJUST ==> r > adjust))
      && (level == TARGET_LEVEL ==> r == adjust)
  {
    AdjustFollowsDrift(Drift(cruise, level), adjust);
    hide RateAdjust;
  }
}
