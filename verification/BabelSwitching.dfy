/**
 How often a router changes its mind: runs of one destination's list in which no route is heard, lost or re-costed,
 so that only smoothed metrics move and only consider_route switches.
 */
module BabelSwitching {
  import opened Bytes
  import opened Seqno
  import opened BabelNode
  import opened BabelRuns
  import opened Slots
  import opened Smoothing
  import opened BabelTable

  /** One moment to the next: some metrics are smoothed, or the installed route is switched for another. */
  ghost predicate Switches(l: seq<Entry>, l': seq<Entry>, now: int, halfLife: int) {
    exists n: Node, j: nat {:trigger Considered(n, l, j, now, halfLife, true, l', true)} ::
      j < |l| && Considered(n, l, j, now, halfLife, true, l', true)
  }

  ghost predicate Step(l: seq<Entry>, l': seq<Entry>, now: int, halfLife: int) {
    l != [] && l[0].route.installed && (SlotAges(l, l', now, halfLife) || Switches(l, l', now, halfLife))
  }

  predicate DistinctKeys(l: seq<Entry>) {
    forall i, j | 0 <= i < j < |l| :: l[i].route.Key() != l[j].route.Key()
  }

  /** l' holds the same routes as l, flags and smoothed metrics apart; o says where each came from. */
  predicate Kin(l: seq<Entry>, l': seq<Entry>, o: seq<nat>) {
    && |l'| == |l| == |o|
    && (forall k | 0 <= k < |o| :: o[k] < |l| && Body(l'[k].route) == Body(l[o[k]].route))
    && (forall i, j | 0 <= i < j < |o| :: o[i] != o[j])
  }

  /** An entry whose smoothed metric was up to date keeps it. */
  predicate Keeps(e: Entry, e': Entry, now: int, halfLife: int) {
    SettledAt(e, now, halfLife) ==> SettledAt(e', now, halfLife) && e'.smoothed == e.smoothed
  }

  lemma BodyFacts(r: Route, r': Route)
    requires Body(r) == Body(r')
    ensures r.Key() == r'.Key() && r.Metric() == r'.Metric() && r.src == r'.src
  {
  }

  lemma AgesKeeps(e: Entry, e': Entry, now: int, halfLife: int)
    requires Ages(e, e', now, halfLife)
    ensures Body(e'.route) == Body(e.route) && Keeps(e, e', now, halfLife)
  {
    hide Smooths, Settled;
    AgesFacts(e, e', now, halfLife);
  }

  function Identity(n: nat): (o: seq<nat>)
    ensures |o| == n && forall k | 0 <= k < n :: o[k] == k
  {
    seq(n, k requires 0 <= k < n => k)
  }

  /** Where each entry of a promoted list came from. */
  function Origins(n: nat, j: nat): (o: seq<nat>)
    requires j < n
    ensures |o| == n && forall k | 0 <= k < n :: o[k] == if k == 0 then j else if k <= j then k - 1 else k
  {
    seq(n, k requires 0 <= k < n => if k == 0 then j else if k <= j then k - 1 else k)
  }

  lemma PromotedFrom(m: seq<Entry>, j: nat, k: nat, now: int, halfLife: int)
    requires 0 < j < |m| && k < |m|
    ensures var l', o := PromoteEntry(m, j), Origins(|m|, j);
            Body(l'[k].route) == Body(m[o[k]].route) && Keeps(m[o[k]], l'[k], now, halfLife)
  {
  }

  /** One step moves entries about, keeps their routes, and keeps what is up to date. */
  lemma StepIsKin(l: seq<Entry>, l': seq<Entry>, now: int, halfLife: int) returns (o: seq<nat>)
    requires Step(l, l', now, halfLife)
    ensures Kin(l, l', o) && forall k | 0 <= k < |o| :: Keeps(l[o[k]], l'[k], now, halfLife)
    ensures |l| > 0 && l'[0].route.installed
    ensures SlotAges(l, l', now, halfLife) ==> o == Identity(|l|)
    ensures !SlotAges(l, l', now, halfLife) ==>
              && |l| >= 2 && o[0] > 0 && o[1] == 0 && Wins(l'[0], l'[1])
              && (l[0].route.Metric() < INFINITY ==> SettledAt(l'[0], now, halfLife) && SettledAt(l'[1], now, halfLife))
  {
    hide Ages, Settled, Wins, Keeps, Considered;
    if SlotAges(l, l', now, halfLife) {
      o := Identity(|l|);
      forall k | 0 <= k < |l| ensures Body(l'[k].route) == Body(l[k].route) && Keeps(l[k], l'[k], now, halfLife) {
        AgesKeeps(l[k], l'[k], now, halfLife);
      }
      AgesFacts(l[0], l'[0], now, halfLife);
    } else {
      var n, j: nat :| j < |l| && Considered(n, l, j, now, halfLife, true, l', true);
      o := SwitchIsKin(n, l, l', j, now, halfLife);
    }
  }

  lemma SwitchIsKin(n: Node, l: seq<Entry>, l': seq<Entry>, j: nat, now: int, halfLife: int) returns (o: seq<nat>)
    requires j < |l| && l[0].route.installed && Considered(n, l, j, now, halfLife, true, l', true)
    ensures Kin(l, l', o) && forall k | 0 <= k < |o| :: Keeps(l[o[k]], l'[k], now, halfLife)
    ensures |l| >= 2 && o[0] > 0 && o[1] == 0 && l'[0].route.installed && Wins(l'[0], l'[1])
    ensures l[0].route.Metric() < INFINITY ==> SettledAt(l'[0], now, halfLife) && SettledAt(l'[1], now, halfLife)
  {
    hide Ages, Settled, Wins, Usable, Keeps, Considered, Challenged, PromoteEntry, Promote, Routes;
    ConsideredFacts(n, l, j, now, halfLife, true, l', true);
    var m := SwitchFrom(n, l, l', j, now, halfLife);
    o := Origins(|l|, j);
    forall k | 0 <= k < |l|
      ensures Body(l'[k].route) == Body(l[o[k]].route) && Keeps(l[o[k]], l'[k], now, halfLife)
    {
      AgesKeeps(l[o[k]], m[o[k]], now, halfLife);
      PromotedFrom(m, j, k, now, halfLife);
      KeepsTrans(l[o[k]], m[o[k]], l'[k], now, halfLife);
    }
  }

  lemma SwitchFrom(n: Node, l: seq<Entry>, l': seq<Entry>, j: nat, now: int, halfLife: int) returns (m: seq<Entry>)
    requires j < |l| && l[0].route.installed && Considered(n, l, j, now, halfLife, true, l', true)
    ensures 0 < j && SlotAges(l, m, now, halfLife) && l' == PromoteEntry(m, j)
  {
    hide Ages, Settled, Wins, Usable, PromoteEntry;
    m :| Challenged(l, j, now, halfLife, m) && Wins(m[j], m[0]) && l' == PromoteEntry(m, j);
  }

  lemma KeepsTrans(e: Entry, e': Entry, e'': Entry, now: int, halfLife: int)
    requires Keeps(e, e', now, halfLife) && Keeps(e', e'', now, halfLife)
    ensures Keeps(e, e'', now, halfLife)
  {
  }

  lemma KinKeepsDistinct(l: seq<Entry>, l': seq<Entry>, o: seq<nat>)
    requires Kin(l, l', o) && DistinctKeys(l)
    ensures DistinctKeys(l')
  {
    forall i, j | 0 <= i < j < |l'| ensures l'[i].route.Key() != l'[j].route.Key() {
      BodyFacts(l'[i].route, l[o[i]].route);
      BodyFacts(l'[j].route, l[o[j]].route);
    }
  }

  // ---- (a) At one instant ----

  type RouteKey = (Neighbour, Addr)

  function Front(l: seq<Entry>): RouteKey
    requires l != []
  {
    l[0].route.Key()
  }

  /** The entry cannot win against the front at this instant. */
  predicate Loses(e: Entry, front: Entry, now: int, halfLife: int) {
    || e.route.Metric() >= INFINITY
    || (&& front.route.Metric() < INFINITY && SettledAt(e, now, halfLife) && SettledAt(front, now, halfLife)
        && front.smoothed < e.smoothed)
  }

  predicate Beaten(l: seq<Entry>, key: RouteKey, now: int, halfLife: int) {
    && l != [] && Front(l) != key
    && forall k | 0 <= k < |l| && l[k].route.Key() == key :: Loses(l[k], l[0], now, halfLife)
  }

  lemma StepKeepsBeaten(l: seq<Entry>, l': seq<Entry>, key: RouteKey, now: int, halfLife: int)
    requires Step(l, l', now, halfLife) && Beaten(l, key, now, halfLife)
    ensures Beaten(l', key, now, halfLife)
  {
    hide Step, Settled, Ages, SlotAges;
    var o := StepIsKin(l, l', now, halfLife);
    forall k | 0 <= k < |l'|
      ensures l'[k].route.Key() == l[o[k]].route.Key() && l'[k].route.Metric() == l[o[k]].route.Metric()
    {
      BodyFacts(l'[k].route, l[o[k]].route);
    }
    if !SlotAges(l, l', now, halfLife) {
      assert Keeps(l[o[0]], l'[0], now, halfLife) && Keeps(l[o[1]], l'[1], now, halfLife);
    } else {
      assert Keeps(l[o[0]], l'[0], now, halfLife);
    }
    forall k | 0 <= k < |l'| && l'[k].route.Key() == key
      ensures Loses(l'[k], l'[0], now, halfLife)
    {
      assert Keeps(l[o[k]], l'[k], now, halfLife) && Loses(l[o[k]], l[0], now, halfLife);
    }
  }

  /** A switch beats the route that was installed. */
  lemma SwitchBeats(l: seq<Entry>, l': seq<Entry>, now: int, halfLife: int)
    requires Step(l, l', now, halfLife) && DistinctKeys(l) && l' != [] && Front(l') != Front(l)
    ensures Beaten(l', Front(l), now, halfLife)
  {
    hide Step, Settled, Ages, SlotAges;
    var o := StepIsKin(l, l', now, halfLife);
    KinKeepsDistinct(l, l', o);
    forall k | 0 <= k < |l'|
      ensures l'[k].route.Key() == l[o[k]].route.Key() && l'[k].route.Metric() == l[o[k]].route.Metric()
    {
      BodyFacts(l'[k].route, l[o[k]].route);
    }
    assert l'[1].route.Key() == Front(l);
  }

  /** A run at one instant, the list starting with its installed route. */
  ghost predicate InstantRun(ls: seq<seq<Entry>>, now: int, halfLife: int) {
    && ls != [] && ls[0] != [] && ls[0][0].route.installed && DistinctKeys(ls[0])
    && forall i | 0 <= i < |ls| - 1 :: Step(ls[i], ls[i + 1], now, halfLife)
  }

  lemma {:induction false} RunKeepsShape(ls: seq<seq<Entry>>, now: int, halfLife: int, i: nat)
    requires InstantRun(ls, now, halfLife) && i < |ls|
    ensures |ls[i]| == |ls[0]| && DistinctKeys(ls[i]) && Keys(ls[i]) == Keys(ls[0])
  {
    hide Step, DistinctKeys;
    if i > 0 {
      RunKeepsShape(ls, now, halfLife, i - 1);
      assert Step(ls[i - 1], ls[i - 1 + 1], now, halfLife);
      var o := StepIsKin(ls[i - 1], ls[i], now, halfLife);
      KinKeepsDistinct(ls[i - 1], ls[i], o);
      KinKeys(ls[i - 1], ls[i], o);
    }
  }

  function Keys(l: seq<Entry>): set<RouteKey> {
    set k | 0 <= k < |l| :: l[k].route.Key()
  }

  lemma KinKeys(l: seq<Entry>, l': seq<Entry>, o: seq<nat>)
    requires Kin(l, l', o) && DistinctKeys(l)
    ensures Keys(l') == Keys(l)
  {
    KinKeepsDistinct(l, l', o);
    forall k | 0 <= k < |l'| ensures l'[k].route.Key() == l[o[k]].route.Key() {
      BodyFacts(l'[k].route, l[o[k]].route);
    }
    assert Keys(l') <= Keys(l);
    KeysCount(l);
    KeysCount(l');
    SubsetEqual(Keys(l'), Keys(l));
  }

  lemma SubsetEqual(a: set<RouteKey>, b: set<RouteKey>)
    requires a <= b && |a| == |b|
    ensures a == b
  {
    if a != b {
      var x :| x in b && x !in a;
      assert a <= b - {x} && |b - {x}| == |b| - 1;
      SubsetSmaller(a, b - {x});
      assert false;
    }
  }

  lemma {:induction false} SubsetSmaller(a: set<RouteKey>, b: set<RouteKey>)
    requires a <= b
    ensures |a| <= |b|
  {
    if a != {} {
      var x :| x in a;
      SubsetSmaller(a - {x}, b - {x});
    }
  }

  lemma {:induction false} KeysCount(l: seq<Entry>)
    requires DistinctKeys(l)
    ensures |Keys(l)| == |l|
  {
    if l != [] {
      var n := |l| - 1;
      KeysCount(l[..n]);
      assert Keys(l) == Keys(l[..n]) + {l[n].route.Key()};
      assert l[n].route.Key() !in Keys(l[..n]);
    }
  }

  lemma {:induction false} BeatenStays(ls: seq<seq<Entry>>, now: int, halfLife: int, key: RouteKey, i: nat, k: nat)
    requires InstantRun(ls, now, halfLife) && i <= k < |ls| && Beaten(ls[i], key, now, halfLife)
    ensures Beaten(ls[k], key, now, halfLife)
    decreases k
  {
    hide Step, Beaten, DistinctKeys;
    if i < k {
      BeatenStays(ls, now, halfLife, key, i, k - 1);
      assert Step(ls[k - 1], ls[k - 1 + 1], now, halfLife);
      StepKeepsBeaten(ls[k - 1], ls[k], key, now, halfLife);
    }
  }

  /** At one instant a route that was switched away from is not installed again. */
  lemma NoReturnAtOneInstant(ls: seq<seq<Entry>>, now: int, halfLife: int, i: nat, k: nat)
    requires InstantRun(ls, now, halfLife) && i + 1 <= k < |ls|
    requires |ls[i]| == |ls[i + 1]| == |ls[k]| > 0 && Front(ls[i + 1]) != Front(ls[i])
    ensures Front(ls[k]) != Front(ls[i])
  {
    hide Step, DistinctKeys;
    RunKeepsShape(ls, now, halfLife, i);
    assert Step(ls[i], ls[i + 1], now, halfLife);
    SwitchBeats(ls[i], ls[i + 1], now, halfLife);
    BeatenStays(ls, now, halfLife, Front(ls[i]), i + 1, k);
  }

  predicate NonEmpty(ls: seq<seq<Entry>>) {
    forall i | 0 <= i < |ls| :: ls[i] != []
  }

  /** How many times the installed route changes. */
  function Changes(ls: seq<seq<Entry>>): nat
    requires NonEmpty(ls)
  {
    if |ls| < 2 then 0
    else
      var n := |ls| - 1;
      Changes(ls[..n]) + if Front(ls[n]) != Front(ls[n - 1]) then 1 else 0
  }

  function Fronts(ls: seq<seq<Entry>>): set<RouteKey>
    requires NonEmpty(ls)
  {
    set i | 0 <= i < |ls| :: Front(ls[i])
  }

  lemma RunPrefix(ls: seq<seq<Entry>>, now: int, halfLife: int)
    requires InstantRun(ls, now, halfLife) && |ls| >= 2
    ensures InstantRun(ls[..|ls| - 1], now, halfLife)
  {
    hide Step, DistinctKeys;
    var n := |ls| - 1;
    forall i | 0 <= i < n - 1 ensures Step(ls[..n][i], ls[..n][i + 1], now, halfLife) {
      assert Step(ls[i], ls[i + 1], now, halfLife);
    }
  }

  lemma {:induction false} ChangesCountFronts(ls: seq<seq<Entry>>, now: int, halfLife: int)
    requires InstantRun(ls, now, halfLife)
    ensures NonEmpty(ls)
    ensures Changes(ls) + 1 == |Fronts(ls)| && Fronts(ls) <= Keys(ls[0])
  {
    hide InstantRun, Front, Keys;
    assert ls != [] by {
      RunNotEmpty(ls, now, halfLife);
    }
    var n := |ls| - 1;
    forall i | 0 <= i < |ls| ensures ls[i] != [] && Front(ls[i]) in Keys(ls[0]) {
      FrontIsKey(ls, now, halfLife, i);
    }
    if n == 0 {
      assert Fronts(ls) == {Front(ls[0])};
    } else {
      RunPrefix(ls, now, halfLife);
      ChangesCountFronts(ls[..n], now, halfLife);
      assert Fronts(ls) == Fronts(ls[..n]) + {Front(ls[n])};
      LastFront(ls, now, halfLife);
    }
  }

  lemma RunNotEmpty(ls: seq<seq<Entry>>, now: int, halfLife: int)
    requires InstantRun(ls, now, halfLife)
    ensures ls != []
  {
  }

  lemma FrontIsKey(ls: seq<seq<Entry>>, now: int, halfLife: int, i: nat)
    requires InstantRun(ls, now, halfLife) && i < |ls|
    ensures ls[i] != [] && Front(ls[i]) in Keys(ls[0])
  {
    RunKeepsShape(ls, now, halfLife, i);
    assert ls[i][0].route.Key() in Keys(ls[i]);
  }

  lemma LastFront(ls: seq<seq<Entry>>, now: int, halfLife: int)
    requires InstantRun(ls, now, halfLife) && |ls| >= 2 && NonEmpty(ls)
    ensures var n := |ls| - 1;
            Front(ls[n]) in Fronts(ls[..n]) <==> Front(ls[n]) == Front(ls[n - 1])
  {
    hide Step, DistinctKeys, Front;
    var n := |ls| - 1;
    assert ls[..n][n - 1] == ls[n - 1];
    if Front(ls[n]) in Fronts(ls[..n]) && Front(ls[n]) != Front(ls[n - 1]) {
      var i :| 0 <= i < n && Front(ls[..n][i]) == Front(ls[n]);
      var j := LastChange(ls, i, n);
      RunKeepsShape(ls, now, halfLife, j);
      RunKeepsShape(ls, now, halfLife, j + 1);
      RunKeepsShape(ls, now, halfLife, n);
      NoReturnAtOneInstant(ls, now, halfLife, j, n);
      assert false;
    }
  }

  /** Between a moment with some front and a later one followed by another, the front was left somewhere. */
  lemma {:induction false} LastChange(ls: seq<seq<Entry>>, i: nat, n: nat) returns (j: nat)
    requires i < n < |ls| && NonEmpty(ls) && Front(ls[n - 1]) != Front(ls[i])
    ensures i <= j < n && Front(ls[j]) == Front(ls[i]) && Front(ls[j + 1]) != Front(ls[i])
    decreases n - i
  {
    if Front(ls[i + 1]) != Front(ls[i]) {
      j := i;
    } else {
      j := LastChange(ls, i + 1, n);
    }
  }

  /** (a) At one instant there are fewer switches than routes. */
  lemma SwitchesAtOneInstant(ls: seq<seq<Entry>>, now: int, halfLife: int)
    requires InstantRun(ls, now, halfLife)
    ensures NonEmpty(ls)
    ensures Changes(ls) < |ls[0]|
  {
    ChangesCountFronts(ls, now, halfLife);
    KeysCount(ls[0]);
    SubsetSmaller(Fronts(ls), Keys(ls[0]));
  }

  // ---- (b) Over any time ----

  /** A run while the clock does whatever it does. */
  ghost predicate LongRun(ls: seq<seq<Entry>>, times: seq<int>, halfLife: int) {
    && ls != [] && |times| == |ls| - 1 && ls[0] != [] && ls[0][0].route.installed && DistinctKeys(ls[0])
    && forall i | 0 <= i < |times| :: Step(ls[i], ls[i + 1], times[i], halfLife)
  }

  /** The metric of the route with a key; the same along a run. */
  predicate HasMetric(l: seq<Entry>, key: RouteKey, metric: u16) {
    exists k :: 0 <= k < |l| && l[k].route.Key() == key && l[k].route.Metric() == metric
  }

  lemma StepIsMonotone(l: seq<Entry>, l': seq<Entry>, now: int, halfLife: int)
    requires Step(l, l', now, halfLife) && DistinctKeys(l)
    ensures l' != [] && DistinctKeys(l')
    ensures l'[0].route.Metric() <= l[0].route.Metric()
    ensures forall key, metric :: HasMetric(l', key, metric) ==> HasMetric(l, key, metric)
    ensures Front(l') != Front(l) ==>
              l'[0].route.Metric() < INFINITY && (halfLife <= 0 ==> l'[0].route.Metric() < l[0].route.Metric())
  {
    hide Step, Ages, SlotAges;
    var o := StepIsKin(l, l', now, halfLife);
    KinKeepsDistinct(l, l', o);
    forall k | 0 <= k < |l'|
      ensures l'[k].route.Key() == l[o[k]].route.Key() && l'[k].route.Metric() == l[o[k]].route.Metric()
    {
      BodyFacts(l'[k].route, l[o[k]].route);
    }
    forall key, metric | HasMetric(l', key, metric) ensures HasMetric(l, key, metric) {
      var k :| 0 <= k < |l'| && l'[k].route.Key() == key && l'[k].route.Metric() == metric;
      assert l[o[k]].route.Key() == key;
    }
  }

  lemma {:induction false} MetricNeverRises(ls: seq<seq<Entry>>, times: seq<int>, halfLife: int, i: nat, k: nat)
    requires LongRun(ls, times, halfLife) && i <= k < |ls|
    ensures ls[i] != [] && ls[k] != [] && DistinctKeys(ls[k]) && ls[k][0].route.Metric() <= ls[i][0].route.Metric()
    ensures forall key, metric :: HasMetric(ls[k], key, metric) ==> HasMetric(ls[i], key, metric)
    decreases k
  {
    hide Step, DistinctKeys, HasMetric;
    if k > 0 {
      MetricNeverRises(ls, times, halfLife, if i < k then i else k - 1, k - 1);
      assert Step(ls[k - 1], ls[k - 1 + 1], times[k - 1], halfLife);
      StepIsMonotone(ls[k - 1], ls[k], times[k - 1], halfLife);
    }
  }

  lemma OneMetric(l: seq<Entry>, metric: u16)
    requires DistinctKeys(l) && l != [] && HasMetric(l, Front(l), metric)
    ensures metric == l[0].route.Metric()
  {
  }

  /** (b) A route comes back only while every route installed in between has its metric. */
  lemma ReturnOnlyAmongEquals(ls: seq<seq<Entry>>, times: seq<int>, halfLife: int, i: nat, m: nat, k: nat)
    requires LongRun(ls, times, halfLife) && i <= m <= k < |ls|
    ensures ls[i] != [] && ls[m] != [] && ls[k] != []
    ensures Front(ls[i]) == Front(ls[k]) ==>
            ls[m][0].route.Metric() == ls[i][0].route.Metric() == ls[k][0].route.Metric()
  {
    hide LongRun, DistinctKeys;
    MetricNeverRises(ls, times, halfLife, i, m);
    MetricNeverRises(ls, times, halfLife, m, k);
    MetricNeverRises(ls, times, halfLife, i, k);
    MetricNeverRises(ls, times, halfLife, 0, i);
    if Front(ls[i]) == Front(ls[k]) {
      assert HasMetric(ls[k], Front(ls[k]), ls[k][0].route.Metric());
      OneMetric(ls[i], ls[k][0].route.Metric());
    }
  }

  /** (c) Without smoothing a route that was switched away from never comes back. */
  lemma NoReturnWithoutSmoothing(ls: seq<seq<Entry>>, times: seq<int>, halfLife: int, i: nat, k: nat)
    requires LongRun(ls, times, halfLife) && halfLife <= 0 && i + 1 <= k < |ls|
    ensures ls[i] != [] && ls[i + 1] != [] && ls[k] != []
    ensures Front(ls[i + 1]) != Front(ls[i]) ==> Front(ls[k]) != Front(ls[i])
  {
    hide Step, DistinctKeys;
    MetricNeverRises(ls, times, halfLife, 0, i);
    MetricNeverRises(ls, times, halfLife, i, i + 1);
    MetricNeverRises(ls, times, halfLife, i + 1, k);
    if Front(ls[i + 1]) != Front(ls[i]) && Front(ls[k]) == Front(ls[i]) {
      assert Step(ls[i], ls[i + 1], times[i], halfLife);
      StepIsMonotone(ls[i], ls[i + 1], times[i], halfLife);
      ReturnOnlyAmongEquals(ls, times, halfLife, i, i + 1, k);
      assert false;
    }
  }

  // ---- With smoothing it can ----

  const LINK: Addr := [0xFE, 0x80, 0, 0, 0, 0, 0, 0, 0, 0, 0, 0, 0, 0, 0, 1]
  const SRC := SourceKey([9, 0, 0, 0, 0, 0, 0, 1], Prefix([0x20, 1, 0, 0, 0, 0, 0, 0, 0, 0, 0, 0, 0, 0, 0, 1], 128))

  function Twin(via: nat, installed: bool, smoothed: u16, time: int): Entry {
    Entry(Route(SRC, Dist(1, 99), 1, 0, Neighbour(via, LINK), LINK, 0, 100, installed), smoothed, time)
  }

  const TABLE := Node(0, map[], map[SRC := Source(Dist(0, INFINITY), 0)], {})

  lemma TwinSmooths(smoothed: u16, draw: nat, to: u16)
    requires (smoothed == 1000 && draw == 449 && to == 788) || (smoothed == 990 && draw == 0 && to == 864)
    ensures Smooths(100, smoothed, 0, 1, 4, to)
  {
    assert SecondStep(100, smoothed, draw, 4) == to;
    assert Decays(100, to, 1, 1, 4, to);
    assert Decays(100, smoothed, 0, 1, 4, to);
  }

  lemma TwinSwitch(a: seq<Entry>, m: seq<Entry>, l': seq<Entry>, now: int)
    requires |a| == |m| == 2 && Challenged(a, 1, now, 4, m) && Wins(m[1], m[0]) && l' == PromoteEntry(m, 1)
    requires a[0].route.installed && !a[1].route.installed && Usable(TABLE, a[1].route)
    ensures Switches(a, l', now, 4)
  {
    hide Challenged, Wins, Usable, PromoteEntry;
    assert Considered(TABLE, a, 1, now, 4, true, l', true);
  }

  const L0 := [Twin(1, true, 1000, 0), Twin(2, false, 990, 0)]
  const L1 := [Twin(2, true, 990, 0), Twin(1, false, 1000, 0)]
  const L2 := [Twin(1, true, 788, 1), Twin(2, false, 864, 1)]

  lemma TwinAway()
    ensures Step(L0, L1, 0, 4)
  {
    hide Smooths;
    assert Challenged(L0, 1, 0, 4, L0);
    assert PromoteEntry(L0, 1) == L1;
    TwinSwitch(L0, L0, L1, 0);
  }

  lemma TwinBack()
    ensures Step(L1, L2, 1, 4)
  {
    hide Smooths;
    TwinSmooths(1000, 449, 788);
    TwinSmooths(990, 0, 864);
    var m := [Twin(2, true, 864, 1), Twin(1, false, 788, 1)];
    assert Ages(L1[0], m[0], 1, 4) && Ages(L1[1], m[1], 1, 4);
    assert Challenged(L1, 1, 1, 4, m);
    assert PromoteEntry(m, 1) == L2;
    TwinSwitch(L1, m, L2, 1);
  }

  /** Two routes of metric 100 with a half-life of four seconds: away, and one second later back. */
  lemma SwitchComesBack()
    ensures LongRun([L0, L1, L2], [0, 1], 4) && Front(L0) == Front(L2) != Front(L1)
  {
    hide Step;
    TwinAway();
    TwinBack();
  }
}
