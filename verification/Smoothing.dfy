/** Metric smoothing: the exponential decay of a route's metric, randomised. */
module Smoothing {
  import opened Bytes
  import opened Seqno

  /** C division: truncates towards zero. */
  function Quot(a: int, b: int): int
    requires b > 0
  {
    if a >= 0 then a / b else -((-a) / b)
  }

  /**
   roughly: a random number in [3/4, 5/4) of the value, keeping its sign.  The draw is any natural
   number, as frr_weak_random supplies it.
   */
  function Roughly(value: int, draw: nat): (r: int)
    ensures value >= 0 ==> 0 <= r && 2 * r <= 3 * value && 4 * r <= 5 * value
    ensures value <= 0 ==> r <= 0 && 2 * r >= 3 * value && 4 * r >= 5 * value
    ensures value != 0 ==> r != 0
  {
    if value < 0 then 0 - RoughlyPositive(-value, draw) else RoughlyPositive(value, draw)
  }

  function RoughlyPositive(value: nat, draw: nat): (r: nat)
    ensures 4 * r <= 5 * value
    ensures value != 0 ==> r != 0
  {
    if value <= 1 then value
    else
      assert draw % (value / 2) < value / 2;
      value * 3 / 4 + draw % (value / 2)
  }

  /** two_to_the_one_over_hl: 2^(1/half-life) in units of 1/0x10000. */
  function TwoToTheOneOver(halfLife: int): (k: nat)
    ensures halfLife >= 1 ==> 0x1_0000 <= k <= 131072
    ensures halfLife >= 2 ==> k <= 92682
  {
    if halfLife <= 0 then 0
    else if halfLife == 1 then 131072
    else if halfLife == 2 then 92682
    else if halfLife == 3 then 82570
    else if halfLife == 4 then 77935
    else 0x1_0000 + 45426 / halfLife
  }

  /** y lies between x and the target, both ends included. */
  predicate Between(x: int, y: int, target: int) {
    (x <= y <= target) || (target <= y <= x)
  }

  /** The value that route_smoothed_metric leaves: nothing is left to do at this instant. */
  predicate Settled(metric: u16, smoothed: u16, time: int, now: int, halfLife: int) {
    && time == now
    && (halfLife <= 0 || metric >= INFINITY ==> smoothed == metric)
    && (smoothed == metric || smoothed - metric >= 4 || metric - smoothed >= 4)
  }

  /** One half-life: move by about half the gap. */
  function HalfStep(metric: u16, smoothed: u16, draw: nat): (s: u16)
    ensures Between(smoothed, s, metric)
  {
    var diff := metric - smoothed;
    smoothed + Quot(Roughly(diff, draw), 2)
  }

  /** One second: move by about 2^(1/half-life) - 1 of the gap. */
  function SecondStep(metric: u16, smoothed: u16, draw: nat, halfLife: int): (s: u16)
    requires halfLife >= 2
    ensures Between(smoothed, s, metric)
  {
    var diff := metric - smoothed;
    var k := TwoToTheOneOver(halfLife) - 0x1_0000;
    var r := Roughly(diff, draw);
    SecondStepBound(r, k, diff);
    smoothed + Quot(r * k, 0x1_0000)
  }

  lemma SecondStepBound(r: int, k: nat, diff: int)
    requires k <= 27146
    requires diff >= 0 ==> 0 <= r && 4 * r <= 5 * diff
    requires diff <= 0 ==> r <= 0 && 4 * r >= 5 * diff
    ensures diff >= 0 ==> 0 <= Quot(r * k, 0x1_0000) <= diff
    ensures diff <= 0 ==> diff <= Quot(r * k, 0x1_0000) <= 0
  {
    var a := if r >= 0 then r else -r;
    var d := if diff >= 0 then diff else -diff;
    MulMonotone(k, 27146, a);
    assert a * k <= a * 27146 <= d * 0x1_0000;
    assert (if diff >= 0 then r * k else -(r * k)) == a * k;
    assert 0 <= a * k / 0x1_0000 <= d;
  }

  lemma MulMonotone(k: nat, m: nat, a: nat)
    requires k <= m
    ensures 0 <= a * k <= a * m
  {
  }

  /** The product of the second loop, as a C int. */
  predicate ProductFits(diff: int, draw: nat, halfLife: int) {
    -0x8000_0000 <= Roughly(diff, draw) * (TwoToTheOneOver(halfLife) - 0x1_0000) < 0x8000_0000
  }

  /** For half-lives of three seconds or more the product fits 32 bits for every pair of metrics. */
  lemma SecondStepProductFits(diff: int, draw: nat, halfLife: int)
    requires halfLife >= 2 && -0xFFFF <= diff <= 0xFFFF
    requires halfLife == 2 ==> -63287 <= diff <= 63287
    ensures ProductFits(diff, draw, halfLife)
  {
    var k := TwoToTheOneOver(halfLife) - 0x1_0000;
    var r := Roughly(diff, draw);
    var a := if r >= 0 then r else -r;
    if halfLife == 2 {
      assert a <= 79108 && k == 27146;
    } else {
      assert a <= 81918 && k <= 17034;
      MulMonotone(k, 17034, a);
    }
    assert r * k == a * k || r * k == -(a * k);
  }

  lemma LargestDraw(d: nat)
    requires 63288 <= d <= 0xFFFF
    ensures RoughlyPositive(d, d / 2 - 1) >= 79109
  {
    SmallRemainder(d / 2 - 1, d / 2);
  }

  lemma SmallRemainder(x: nat, m: nat)
    requires x < m
    ensures x % m == x
  {
  }

  /** Beyond a gap of 63287 the largest draw overflows. */
  lemma SecondStepProductOverflows(diff: int)
    requires 63288 <= diff <= 0xFFFF || -0xFFFF <= diff <= -63288
    ensures !ProductFits(diff, (if diff < 0 then -diff else diff) / 2 - 1, 2)
  {
    var d := if diff < 0 then -diff else diff;
    hide RoughlyPositive;
    LargestDraw(d);
    var a: int := RoughlyPositive(d, d / 2 - 1);
    assert Roughly(diff, d / 2 - 1) == if diff < 0 then -a else a;
    assert TwoToTheOneOver(2) - 0x1_0000 == 27146;
  }

  /** At a half-life of two seconds: exactly the gaps up to 63287 are safe whatever is drawn. */
  lemma SecondStepSafeGaps(diff: int)
    requires -0xFFFF <= diff <= 0xFFFF
    ensures -63287 <= diff <= 63287 <==> forall draw: nat :: ProductFits(diff, draw, 2)
  {
    if -63287 <= diff <= 63287 {
      forall draw: nat
        ensures ProductFits(diff, draw, 2)
      {
        SecondStepProductFits(diff, draw, 2);
      }
    } else {
      SecondStepProductOverflows(diff);
    }
  }

  // ---- The outcome, over all draws ----

  /** The value after the loops: m is reached from s when the clock runs from t to now. */
  ghost predicate Decays(metric: u16, s: u16, t: int, now: int, halfLife: int, m: u16)
    requires halfLife >= 1
    decreases now - t
  {
    if t >= now then m == s
    else if t <= now - halfLife then
      exists draw: nat :: Decays(metric, HalfStep(metric, s, draw), t + halfLife, now, halfLife, m)
    else exists draw: nat :: Decays(metric, SecondStep(metric, s, draw, halfLife), t + 1, now, halfLife, m)
  }

  function Snapped(metric: u16, s: u16): u16 {
    if -4 < metric - s < 4 then metric else s
  }

  /** s' is a value route_smoothed_metric can leave at now, starting from s at time t. */
  ghost predicate Smooths(metric: u16, s: u16, t: int, now: int, halfLife: int, s': u16) {
    if halfLife <= 0 || metric >= INFINITY || t > now || s == metric then s' == metric
    else exists m :: Decays(metric, s, t, now, halfLife, m) && s' == Snapped(metric, m)
  }

  lemma {:induction false} DecaysBetween(metric: u16, s: u16, t: int, now: int, halfLife: int, m: u16)
    requires halfLife >= 1 && Decays(metric, s, t, now, halfLife, m)
    ensures Between(s, m, metric)
    decreases now - t
  {
    if t < now {
      if t <= now - halfLife {
        var draw: nat :| Decays(metric, HalfStep(metric, s, draw), t + halfLife, now, halfLife, m);
        DecaysBetween(metric, HalfStep(metric, s, draw), t + halfLife, now, halfLife, m);
      } else {
        var draw: nat :| Decays(metric, SecondStep(metric, s, draw, halfLife), t + 1, now, halfLife, m);
        DecaysBetween(metric, SecondStep(metric, s, draw, halfLife), t + 1, now, halfLife, m);
      }
    }
  }

  /** Whatever is drawn: the value never passes the metric, and once settled it stays at that instant. */
  lemma SmoothsFacts(metric: u16, s: u16, t: int, now: int, halfLife: int, s': u16)
    requires Smooths(metric, s, t, now, halfLife, s')
    ensures Settled(metric, s', now, now, halfLife) && Between(s, s', metric)
    ensures Settled(metric, s, t, now, halfLife) ==> s' == s
  {
    if !(halfLife <= 0 || metric >= INFINITY || t > now || s == metric) {
      var m :| Decays(metric, s, t, now, halfLife, m) && s' == Snapped(metric, m);
      DecaysBetween(metric, s, t, now, halfLife, m);
    }
  }

  /** A draw of the random number generator. */
  method Draw() returns (d: nat) {
    d := *;
  }

  /**
   route_smoothed_metric.  Both loops end with the clock caught up, the value never passes the metric
   whatever is drawn, and calling it again at the same instant changes nothing.
   */
  method SmoothedMetric(metric: u16, smoothed: u16, time: int, now: int, halfLife: int)
    returns (s: u16, t: int)
    ensures t == now
    ensures Smooths(metric, smoothed, time, now, halfLife, s)
    ensures Settled(metric, s, t, now, halfLife)
    ensures Between(smoothed, s, metric)
    ensures Settled(metric, smoothed, time, now, halfLife) ==> s == smoothed
  {
    s, t := smoothed, time;
    if halfLife <= 0 || metric >= INFINITY || time > now || smoothed == metric {
      s, t := metric, now;
      return;
    }
    while t <= now - halfLife
      invariant t <= now
      invariant forall m :: Decays(metric, s, t, now, halfLife, m) ==> Decays(metric, smoothed, time, now, halfLife, m)
      decreases now - t
    {
      var d := Draw();
      assert forall m :: Decays(metric, HalfStep(metric, s, d), t + halfLife, now, halfLife, m) ==>
                           Decays(metric, s, t, now, halfLife, m);
      s := HalfStep(metric, s, d);
      t := t + halfLife;
    }
    while t < now
      invariant t <= now && now - t < halfLife
      invariant forall m :: Decays(metric, s, t, now, halfLife, m) ==> Decays(metric, smoothed, time, now, halfLife, m)
      decreases now - t
    {
      var d := Draw();
      assert forall m :: Decays(metric, SecondStep(metric, s, d, halfLife), t + 1, now, halfLife, m) ==>
                           Decays(metric, s, t, now, halfLife, m);
      s := SecondStep(metric, s, d, halfLife);
      t := t + 1;
    }
    assert Decays(metric, s, t, now, halfLife, s);
    s := Snapped(metric, s);
    SmoothsFacts(metric, smoothed, time, now, halfLife, s);
  }
}
