/** babeld's tables as it keeps them: the slot array, the source table and the redistributed routes. */
module BabelTable {
  import opened Bytes
  import opened Seqno
  import opened BabelNode
  import opened BabelRuns
  import opened Slots
  import opened Smoothing

  datatype SourceRec = SourceRec(source: Source, routeCount: nat)

  datatype Xroute = Xroute(prefix: Prefix, metric: u16, ifindex: nat, proto: int)

  function SourceView(m: map<SourceKey, SourceRec>): map<SourceKey, Source> {
    map k | k in m :: m[k].source
  }

  function XroutePrefixes(xs: seq<Xroute>): set<Prefix> {
    set i | 0 <= i < |xs| :: xs[i].prefix
  }

  predicate XroutesDistinct(xs: seq<Xroute>) {
    forall i, j | 0 <= i < j < |xs| :: xs[i].prefix != xs[j].prefix
  }

  ghost predicate Counts(sources: map<SourceKey, SourceRec>, bs: set<Route>) {
    forall k | k in sources :: sources[k].routeCount == RefCount(bs, k)
  }

  function Counted(sources: map<SourceKey, SourceRec>, k: SourceKey, d: int): map<SourceKey, SourceRec>
    requires k in sources && sources[k].routeCount + d >= 0
  {
    sources[k := sources[k].(routeCount := sources[k].routeCount + d)]
  }

  /** Retaining the new source and releasing the old one counts the exchange of one route for another. */
  lemma CountsExchange(srcs: map<SourceKey, SourceRec>, bs: set<Route>, before: Route, after: Route)
    requires Counts(srcs, bs) && before in bs && (after in bs ==> after == before)
    requires before.src in srcs && after.src in srcs
    ensures var srcs1 := Counted(srcs, after.src, 1);
            srcs1[before.src].routeCount > 0 && Counts(Counted(srcs1, before.src, -1), bs - {before} + {after})
  {
    forall k | k in srcs
      ensures RefCount(bs - {before} + {after}, k) ==
              srcs[k].routeCount - (if before.src == k then 1 else 0) + (if after.src == k then 1 else 0)
    {
      CountExchange(bs, before, after, k);
    }
    CountRemove(bs, before, before.src);
  }

  lemma CountsAdd(srcs: map<SourceKey, SourceRec>, bs: set<Route>, r: Route)
    requires Counts(srcs, bs) && r !in bs && r.src in srcs
    ensures Counts(Counted(srcs, r.src, 1), bs + {r})
  {
    forall k | k in srcs
      ensures RefCount(bs + {r}, k) == srcs[k].routeCount + if r.src == k then 1 else 0
    {
      CountAdd(bs, r, k);
    }
  }

  lemma CountsRemove(srcs: map<SourceKey, SourceRec>, bs: set<Route>, r: Route)
    requires Counts(srcs, bs) && r in bs && r.src in srcs
    ensures srcs[r.src].routeCount > 0 && Counts(Counted(srcs, r.src, -1), bs - {r})
  {
    forall k | k in srcs
      ensures RefCount(bs - {r}, k) == srcs[k].routeCount - if r.src == k then 1 else 0
    {
      CountRemove(bs, r, k);
    }
  }

  /** The front entry no longer installed; entry j installed and moved to the front. */
  function PromoteEntry(l: seq<Entry>, j: nat): (l': seq<Entry>)
    requires j < |l|
    ensures Routes(l') == Promote(Routes(l), j)
  {
    var l1 := l[0 := l[0].(route := l[0].route.(installed := false))];
    [l1[j].(route := l1[j].route.(installed := true))] + l1[..j] + l1[j + 1..]
  }

  /** Which routes a flush loop removes. */
  datatype Match = ByNeighbour(neigh: Neighbour) | ByInterface(ifindex: nat, v4only: bool)

  predicate Matches(m: Match, r: Route) {
    match m
    case ByNeighbour(n) => r.neigh == n
    case ByInterface(x, v4only) => r.neigh.ifindex == x && (!v4only || V4Mapped(r.nexthop))
  }

  datatype Exclude = Nobody | Except(neigh: Neighbour)

  /** route_acceptable. */
  predicate Acceptable(sources: map<SourceKey, SourceRec>, now: int, r: Route, feasible: bool, exclude: Exclude) {
    && !r.Expired(now)
    && (feasible ==> r.src in sources && Feasible(sources[r.src].source, now, r.dist))
    && (exclude.Except? ==> r.neigh != exclude.neigh)
  }

  /** The strong ordering of consider_route: better by metric and by smoothed metric, or all there is. */
  predicate Wins(challenger: Entry, installed: Entry) {
    && challenger.route.Metric() < INFINITY
    && (|| installed.route.Metric() >= INFINITY
        || (installed.route.Metric() >= challenger.route.Metric() && installed.smoothed > challenger.smoothed))
  }

  /** An entry left alone, or brought up to date by route_smoothed_metric. */
  ghost predicate Ages(e: Entry, e': Entry, now: int, halfLife: int) {
    e' == e ||
    (e' == Entry(e.route, e'.smoothed, now) &&
     Smooths(e.route.Metric(), e.smoothed, e.smoothedTime, now, halfLife, e'.smoothed))
  }

  ghost predicate SlotAges(l: seq<Entry>, l': seq<Entry>, now: int, halfLife: int) {
    |l'| == |l| && forall k | 0 <= k < |l| :: Ages(l[k], l'[k], now, halfLife)
  }

  lemma AgesFacts(e: Entry, e': Entry, now: int, halfLife: int)
    requires Ages(e, e', now, halfLife)
    ensures e'.route == e.route && (e' == e || SettledAt(e', now, halfLife))
    ensures SettledAt(e, now, halfLife) ==> e' == e
  {
    hide Smooths;
    if e' != e {
      SmoothsFacts(e.route.Metric(), e.smoothed, e.smoothedTime, now, halfLife, e'.smoothed);
    }
  }

  /** Up to date once is up to date for the rest of the instant. */
  lemma AgesTwice(e: Entry, e': Entry, e'': Entry, now: int, halfLife: int)
    requires Ages(e, e', now, halfLife) && Ages(e', e'', now, halfLife)
    ensures Ages(e, e'', now, halfLife)
  {
    hide Smooths, Settled;
    AgesFacts(e, e', now, halfLife);
    AgesFacts(e', e'', now, halfLife);
  }

  lemma SlotAgesTwice(l: seq<Entry>, l': seq<Entry>, l'': seq<Entry>, now: int, halfLife: int)
    requires SlotAges(l, l', now, halfLife) && SlotAges(l', l'', now, halfLife)
    ensures SlotAges(l, l'', now, halfLife)
  {
    hide Ages;
    forall k | 0 <= k < |l|
      ensures Ages(l[k], l''[k], now, halfLife)
    {
      AgesTwice(l[k], l'[k], l''[k], now, halfLife);
    }
  }

  lemma SlotAgesRefl(l: seq<Entry>, now: int, halfLife: int)
    ensures SlotAges(l, l, now, halfLife)
  {
  }

  lemma SlotAgesRoutes(l: seq<Entry>, l': seq<Entry>, now: int, halfLife: int)
    requires SlotAges(l, l', now, halfLife)
    ensures Routes(l') == Routes(l)
  {
    hide Ages;
    forall k | 0 <= k < |l|
      ensures l'[k].route == l[k].route
    {
      AgesFacts(l[k], l'[k], now, halfLife);
    }
  }

  /** What the comparison of consider_route leaves: the two routes up to date if both are compared at all. */
  ghost predicate Challenged(l: seq<Entry>, j: nat, now: int, halfLife: int, m: seq<Entry>)
    requires 0 < |l| && j < |l|
  {
    && SlotAges(l, m, now, halfLife)
    && (l[j].route.Metric() <= l[0].route.Metric() < INFINITY ==>
          SettledAt(m[0], now, halfLife) && SettledAt(m[j], now, halfLife))
  }

  /** consider_route for the route at j: what becomes of its slot, and whether the route is now installed. */
  ghost predicate Considered(n: Node, l: seq<Entry>, j: nat, now: int, halfLife: int, kernel: bool,
                             l': seq<Entry>, switched: bool)
    requires j < |l|
  {
    if l[j].route.installed || !Usable(n, l[j].route) then !switched && l' == l
    else if !l[0].route.installed then switched == kernel && l' == if switched then PromoteEntry(l, j) else l
    else
      exists m :: && Challenged(l, j, now, halfLife, m) && switched == (Wins(m[j], m[0]) && kernel)
                  && l' == if switched then PromoteEntry(m, j) else m
  }

  /**
   A switch between finite routes: both up to date, the new one with the lower smoothed metric and no higher metric.
   */
  lemma ConsideredFacts(n: Node, l: seq<Entry>, j: nat, now: int, halfLife: int, kernel: bool,
                        l': seq<Entry>, switched: bool)
    requires j < |l| && Considered(n, l, j, now, halfLife, kernel, l', switched)
    ensures |l'| == |l| && (switched ==> kernel && Usable(n, l[j].route) && !l[j].route.installed)
    ensures !switched ==> SlotAges(l, l', now, halfLife) && Routes(l') == Routes(l)
    ensures switched ==> Routes(l') == Promote(Routes(l), j) && l'[0].route.installed
    ensures !switched && kernel && Usable(n, l[j].route) && !l[j].route.installed ==>
              l[0].route.installed && !Wins(l'[j], l'[0])
    ensures switched && l[0].route.installed ==>
              && |l'| >= 2 && Wins(l'[0], l'[1]) && l'[1].route == Body(l[0].route)
              && l'[0].route == l[j].route.(installed := true)
    ensures switched && l[0].route.installed && l[0].route.Metric() < INFINITY ==>
              SettledAt(l'[0], now, halfLife) && SettledAt(l'[1], now, halfLife)
  {
    hide Ages, Settled, Usable, Wins, Routes, Promote, PromoteEntry;
    SlotAgesRefl(l, now, halfLife);
    PromotedEntries(l, j);
    if !l[j].route.installed && Usable(n, l[j].route) && l[0].route.installed {
      var m :| Challenged(l, j, now, halfLife, m) && switched == (Wins(m[j], m[0]) && kernel) &&
               l' == if switched then PromoteEntry(m, j) else m;
      SlotAgesRoutes(l, m, now, halfLife);
      SameRoutesAt(l, m);
      PromotedEntries(m, j);
      WinsByMetrics(m[j], m[0]);
    }
  }

  lemma PromotedEntries(m: seq<Entry>, j: nat)
    requires j < |m|
    ensures |PromoteEntry(m, j)| == |m| && PromoteEntry(m, j)[0].route.installed
    ensures Routes(PromoteEntry(m, j)) == Promote(Routes(m), j)
    ensures 0 < j ==>
              && PromoteEntry(m, j)[0] == m[j].(route := m[j].route.(installed := true))
              && PromoteEntry(m, j)[1] == m[0].(route := Body(m[0].route))
  {
  }

  /** Installed flags do not enter the comparison. */
  lemma WinsByMetrics(e: Entry, f: Entry)
    ensures Wins(e.(route := e.route.(installed := true)), f.(route := Body(f.route))) == Wins(e, f)
    ensures Wins(e, f) && f.route.Metric() < INFINITY ==> e.route.Metric() <= f.route.Metric()
    ensures forall now, halfLife ::
              SettledAt(e.(route := e.route.(installed := true)), now, halfLife) == SettledAt(e, now, halfLife)
    ensures forall now, halfLife :: SettledAt(f.(route := Body(f.route)), now, halfLife) == SettledAt(f, now, halfLife)
  {
  }

  /**
   The installed front of m gave way to the best route b: asked for when b has the lower metric, and not done only if
   the kernel refused or b does not win.
   */
  predicate GaveWay(m: seq<Entry>, b: int, l': seq<Entry>, kernel: bool, gave: bool)
    requires |m| == |l'| > 0 && -1 <= b < |m|
  {
    && (gave ==> kernel && b >= 0 && m[b].route.Metric() < m[0].route.Metric())
    && (!gave && kernel ==> b < 0 || m[b].route.Metric() >= m[0].route.Metric() || !Wins(l'[b], l'[0]))
  }

  lemma PromotedFront(l: seq<Entry>, l': seq<Entry>, j: nat)
    requires j < |l| && (Routes(l') == Routes(l) || Routes(l') == Promote(Routes(l), j))
    ensures |l'| == |l| && l'[0].route.src.prefix in {l[0].route.src.prefix, l[j].route.src.prefix}
  {
    assert Routes(l')[0] == l'[0].route && Routes(l)[0] == l[0].route && Routes(l)[j] == l[j].route;
  }

  /** A destination is served: redistributed, or with an installed route, or without any to install. */
  predicate Served(n: Node, p: Prefix) {
    || p in n.xroutes || (n.Slot(p) != [] && n.Slot(p)[0].installed)
    || forall r | r in n.Slot(p) :: r.Expired(n.now) || !RouteFeasible(n, r)
  }

  ghost predicate SameElsewhere(n: Node, n': Node, p: Prefix) {
    && n'.now == n.now && n'.sources == n.sources && n'.xroutes == n.xroutes
    && forall q | q != p :: n'.Slot(q) == n.Slot(q)
  }

  /** Taking a route that is not installed away, and selecting one, leave every destination served that was. */
  lemma RemovedServes(c: Config, n: Node, p: Prefix, j: nat, q: Prefix)
    requires Good(c, n) && j < |n.Slot(p)| && (n.Slot(p)[j].installed ==> q != p) && Served(n, q)
    ensures Served(Apply(c, n, Removed(p, j)), q)
  {
    var l := n.Slot(p);
    GoodSlot(c, n, p);
    var l' := l[..j] + l[j + 1..];
    assert forall r | r in l' :: r in l;
    if q == p && l[0].installed {
      assert j > 0 && l'[0] == l[0];
    }
  }

  /** Rewriting a slot without touching its routes leaves the dictionary alone. */
  lemma SameRoutes(slots: seq<seq<Entry>>, i: nat, l: seq<Entry>)
    requires Distinct(slots) && Ascending(slots) && i < |slots| && Routes(l) == Routes(slots[i])
    ensures Distinct(slots[i := l]) && Ascending(slots[i := l])
    ensures TableOf(slots[i := l]) == TableOf(slots)
  {
    assert forall j | 0 <= j < |l| :: l[j].route == Routes(l)[j] == slots[i][j].route;
    SetSlot(slots, i, l);
    TableAt(slots, i);
  }

  lemma SameRoutesAt(l: seq<Entry>, l': seq<Entry>)
    requires Routes(l) == Routes(l')
    ensures |l| == |l'| && forall k | 0 <= k < |l| :: l[k].route == l'[k].route
  {
    assert forall k | 0 <= k < |l| :: l[k].route == Routes(l)[k];
  }

  predicate SettledAt(e: Entry, now: int, halfLife: int) {
    Settled(e.route.Metric(), e.smoothed, e.smoothedTime, now, halfLife)
  }

  /** route_smoothed_metric on an entry of a list. */
  method SmoothEntry(l: seq<Entry>, j: nat, now: int, halfLife: int) returns (l': seq<Entry>, s: u16)
    requires j < |l|
    ensures l' == l[j := Entry(l[j].route, s, now)] && Routes(l') == Routes(l) && SlotAges(l, l', now, halfLife)
    ensures SettledAt(l'[j], now, halfLife)
    ensures SettledAt(l[j], now, halfLife) ==> s == l[j].smoothed
  {
    hide Smooths;
    var e, t := l[j], now;
    s, t := SmoothedMetric(e.route.Metric(), e.smoothed, e.smoothedTime, now, halfLife);
    l' := l[j := Entry(e.route, s, t)];
  }

  /** Place j holds an acceptable route of least smoothed metric; or there is none. */
  predicate BestIn(l: seq<Entry>, ok: seq<bool>, j: int)
    requires |ok| == |l|
  {
    && -1 <= j < |l|
    && (j >= 0 ==> ok[j] && forall k | 0 <= k < |l| && ok[k] :: l[j].smoothed <= l[k].smoothed)
    && (j < 0 ==> forall k | 0 <= k < |l| :: !ok[k])
  }

  /** The walk of find_best_route over one list, ok telling which routes are acceptable. */
  method BestOf(l: seq<Entry>, ok: seq<bool>, now: int, halfLife: int) returns (l': seq<Entry>, j: int)
    requires |ok| == |l|
    ensures Routes(l') == Routes(l) && SlotAges(l, l', now, halfLife) && BestIn(l', ok, j)
    ensures j < 0 ==> l' == l
  {
    hide Ages;
    SlotAgesRefl(l, now, halfLife);
    l', j := l, 0;
    while j < |l| && !ok[j]
      invariant 0 <= j <= |l|
      invariant forall k | 0 <= k < j :: !ok[k]
    {
      j := j + 1;
    }
    if j == |l| {
      j := -1;
      return;
    }
    var k := j + 1;
    while k < |l|
      invariant Routes(l') == Routes(l) && SlotAges(l, l', now, halfLife)
      invariant 0 <= j < k <= |l| && ok[j]
      invariant forall m | 0 <= m < k && m != j && ok[m] ::
                  SettledAt(l'[j], now, halfLife) && l'[j].smoothed <= l'[m].smoothed
    {
      if ok[k] {
        var s, best;
        ghost var l0 := l';
        l', s := SmoothEntry(l', k, now, halfLife);
        SlotAgesTwice(l, l0, l', now, halfLife);
        l0 := l';
        l', best := SmoothEntry(l', j, now, halfLife);
        SlotAgesTwice(l, l0, l', now, halfLife);
        if s < best {
          j := k;
        }
      }
      k := k + 1;
    }
  }

  /** The strong comparison of consider_route between the installed front and the route at j. */
  method Challenge(l: seq<Entry>, j: nat, now: int, halfLife: int) returns (l': seq<Entry>, go: bool)
    requires 0 < j < |l|
    ensures Routes(l') == Routes(l) && Challenged(l, j, now, halfLife, l')
    ensures go <==> Wins(l'[j], l'[0])
  {
    hide Ages, Settled;
    l', go := l, false;
    SlotAgesRefl(l, now, halfLife);
    if l[j].route.Metric() >= INFINITY {
      return;
    }
    if l[0].route.Metric() >= INFINITY {
      return l, true;
    }
    if l[0].route.Metric() >= l[j].route.Metric() {
      var s0, s;
      l', s0 := SmoothEntry(l', 0, now, halfLife);
      ghost var l0 := l';
      l', s := SmoothEntry(l', j, now, halfLife);
      SlotAgesTwice(l, l0, l', now, halfLife);
      go := s0 > s;
    }
  }

  function Remetered(r: Route, refmetric: u16, cost: u16, add: u16): Route {
    r.(dist := Dist(r.dist.seqno, refmetric), cost := cost, add := add)
  }

  /**
   The kernel's answers to one operation, each asked for at most once: to a changed metric, to giving way to a
   better route, to switching to the route at hand, and to replacing a route that is lost.
   */
  datatype Kernel = Kernel(change: bool, giveWay: bool, switch: bool, replace: bool)

  /** change_route_metric on an entry: an installed route changes only if the kernel agrees. */
  method NewMetric(e: Entry, refmetric: u16, cost: u16, add: u16, now: int, halfLife: int, kernel: bool)
    returns (e': Entry, ok: bool)
    ensures var metric := Remetered(e.route, refmetric, cost, add).Metric();
            ok <==> kernel || !e.route.installed || metric == e.route.Metric()
    ensures ok ==> e'.route == Remetered(e.route, refmetric, cost, add)
    ensures ok && halfLife == 0 ==> e'.smoothed == e'.route.Metric()
    ensures ok && halfLife != 0 ==>
              && Smooths(e.route.Metric(), e.smoothed, e.smoothedTime, now, halfLife, e'.smoothed)
              && e'.smoothedTime == now
    ensures !ok ==> e' == e
  {
    var r := Remetered(e.route, refmetric, cost, add);
    e', ok := e, true;
    if e.route.installed && e.route.Metric() != r.Metric() {
      ok := kernel;
      if !ok {
        return;
      }
    }
    var s, t := SmoothedMetric(e.route.Metric(), e.smoothed, e.smoothedTime, now, halfLife);
    e' := if halfLife == 0 then Entry(r, r.Metric(), now) else Entry(r, s, t);
  }

  /** Taking the update would change the metric of an installed route, so the kernel is asked. */
  predicate Contested(c: Config, now: int, r: Route, u: Update, feasible: bool, cost: u16, add: u16) {
    r.installed && feasible && Refreshed(c, now, r, u, feasible, cost, add).Metric() != r.Metric()
  }

  /** The route after the update, as the kernel allowed it. */
  function Outcome(c: Config, now: int, r: Route, u: Update, feasible: bool, cost: u16, add: u16, ok: bool): Route {
    if ok then Refreshed(c, now, r, u, feasible, cost, add) else HalfRefreshed(now, r, u)
  }

  lemma OutcomeInstalled(c: Config, now: int, r: Route, u: Update, feasible: bool, cost: u16, add: u16, ok: bool)
    requires !ok ==> feasible
    ensures Outcome(c, now, r, u, feasible, cost, add, ok).installed == (r.installed && feasible)
  {
  }

  /** Hearing the update would change the metric of the installed route it is about. */
  predicate MetricContested(c: Config, n: Node, u: Update, cost: u16, add: u16) {
    var l, key := n.Slot(u.prefix), SourceKey(u.id, u.prefix);
    var j := Find(l, (u.neigh, u.nexthop));
    && !Rejected(c, u, add) && j >= 0
    && Contested(c, n.now, l[j], u, Feasible(WithSource(n, key, u.dist.seqno).sources[key], n.now, u.dist), cost, add)
  }

  lemma ContestedIs(c: Config, n: Node, u: Update, feasible: bool, cost: u16, add: u16)
    requires !Rejected(c, u, add) && Find(n.Slot(u.prefix), (u.neigh, u.nexthop)) >= 0
    requires var key := SourceKey(u.id, u.prefix);
             feasible == Feasible(WithSource(n, key, u.dist.seqno).sources[key], n.now, u.dist)
    ensures var r := n.Slot(u.prefix)[Find(n.Slot(u.prefix), (u.neigh, u.nexthop))];
            && (MetricContested(c, n, u, cost, add) <==> Contested(c, n.now, r, u, feasible, cost, add))
            && (Contested(c, n.now, r, u, feasible, cost, add) ==> CanHalfHear(c, n, u) && feasible)
            && (!feasible ==> !Contested(c, n.now, r, u, feasible, cost, add))
  {
    hide Refreshed, Feasible, Find;
  }

  lemma HeardThen(c: Config, n: Node, u: Update, cost: u16, add: u16)
    ensures Evolves(c, n, Hear(c, n, u, cost, add), {u})
    ensures Evolves(c, Hear(c, n, u, cost, add), Hear(c, n, u, cost, add), {})
  {
    hide Hear, Runs, Evolves;
    EvolvesOne(c, n, Heard(u, cost, add), {u});
    EvolvesRefl(c, Hear(c, n, u, cost, add), {});
  }

  /** Hearing, in full or in half, and then a run of one's own, is a run that hears the update. */
  lemma EvolvesFromHeard(c: Config, n: Node, u: Update, cost: u16, add: u16, ok: bool, n': Node)
    requires !ok ==> CanHalfHear(c, n, u)
    requires Evolves(c, if ok then Hear(c, n, u, cost, add) else HalfHear(c, n, u), n', {})
    ensures Evolves(c, n, n', {u})
  {
    hide Hear, HalfHear, CanHalfHear, Runs, Evolves;
    var e := if ok then Heard(u, cost, add) else HalfHeard(u);
    EvolvesOne(c, n, e, {u});
    EvolvesWiden(c, Apply(c, n, e), n', {}, {u});
    EvolvesTrans(c, n, Apply(c, n, e), n', {u});
  }

  /** update_route_metric before anything is reconsidered; ok tells that the kernel was not asked or agreed. */
  predicate Remeasured(c: Config, n: Node, p: Prefix, j: nat, cost: u16, add: u16, kernel: bool, ok: bool, n': Node) {
    && j < |n.Slot(p)|
    && var r := n.Slot(p)[j];
       if r.Expired(n.now) && r.dist.metric == INFINITY then ok && n' == n
       else if r.Expired(n.now) then
         && (ok <==> kernel || !r.installed || r.Metric() == INFINITY)
         && var e := if ok then RouteExpired(p, j) else HalfExpired(p, j);
            Can(c, n, e) && n' == Apply(c, n, e)
       else
         && (ok <==> kernel || !r.installed || r.Metric() == r.(cost := cost, add := add).Metric())
         && n' == if ok then Apply(c, n, Remetric(p, j, cost, add)) else n
  }

  lemma RemeasuredUsable(c: Config, n: Node, p: Prefix, j: nat, cost: u16, add: u16, kernel: bool, ok: bool, n': Node)
    requires Remeasured(c, n, p, j, cost, add, kernel, ok, n') && !n.Slot(p)[j].Expired(n.now) && ok
    ensures var r := n.Slot(p)[j];
            && j < |n'.Slot(p)| && n'.Slot(p)[j] == r.(cost := cost, add := add)
            && (Usable(n', n'.Slot(p)[j]) <==> Usable(n, r))
  {
  }

  /** An unfeasible update leaves a route uninstalled, whether or not it was taken down before. */
  lemma UninstalledRefresh(c: Config, now: int, r: Route, u: Update, cost: u16, add: u16)
    ensures Refreshed(c, now, Body(r), u, false, cost, add) == Refreshed(c, now, r, u, false, cost, add)
  {
  }

  /** A refreshed route may be installed when a new one from the same update may. */
  lemma RefreshedIsUsable(c: Config, n: Node, r: Route, u: Update, feasible: bool, cost: u16, add: u16)
    ensures Usable(n, Refreshed(c, n.now, r, u, feasible, cost, add)) <==> Usable(n, NewRoute(n.now, u, cost, add))
    ensures forall l :: Usable(n.WithSlot(u.prefix, l), Refreshed(c, n.now, r, u, feasible, cost, add)) <==>
                        Usable(n, NewRoute(n.now, u, cost, add))
  {
  }

  lemma InsertGood(c: Config, n: Node, r: Route)
    requires Good(c, n) && !r.installed && r.src.id != c.myid
    requires Find(n.Slot(r.src.prefix), r.Key()) < 0
    ensures Good(c, n.WithSlot(r.src.prefix, n.Slot(r.src.prefix) + [r]))
    ensures Bodies(n.WithSlot(r.src.prefix, n.Slot(r.src.prefix) + [r])) == Bodies(n) + {Body(r)}
    ensures Body(r) !in Bodies(n)
  {
    var p, l := r.src.prefix, n.Slot(r.src.prefix);
    GoodSlot(c, n, p);
    AppendGood(c, p, l, r);
    WithSlotGood(c, n, p, l + [r]);
    AppendedBodies(c, n, p, r);
  }

  predicate NoMatch(m: Match, l: seq<Entry>) {
    forall j | 0 <= j < |l| :: !Matches(m, l[j].route)
  }

  /** Entry i overwritten by the last, and the array one shorter. */
  function SwapRemove(xs: seq<Xroute>, i: nat): (ys: seq<Xroute>)
    requires i < |xs|
    ensures |ys| == |xs| - 1
  {
    var k := |xs| - 1;
    if i != k then xs[i := xs[k]][..k] else xs[..k]
  }

  lemma SwapRemoved(xs: seq<Xroute>, i: nat)
    requires i < |xs| && XroutesDistinct(xs)
    ensures XroutesDistinct(SwapRemove(xs, i))
    ensures XroutePrefixes(SwapRemove(xs, i)) == XroutePrefixes(xs) - {xs[i].prefix}
    ensures forall x :: x in SwapRemove(xs, i) <==> x in xs && x != xs[i]
    ensures forall k | 0 <= k < i :: k < |SwapRemove(xs, i)| && SwapRemove(xs, i)[k] == xs[k]
  {
    var ys, last := SwapRemove(xs, i), |xs| - 1;
    assert forall k | 0 <= k < |ys| :: ys[k] == if k == i then xs[last] else xs[k];
    forall x | x in xs && x != xs[i] ensures x in ys {
      var k :| 0 <= k < |xs| && xs[k] == x;
      assert ys[if k == last then i else k] == x;
    }
    forall p | p in XroutePrefixes(xs) - {xs[i].prefix} ensures p in XroutePrefixes(ys) {
      var k :| 0 <= k < |xs| && xs[k].prefix == p;
      assert ys[if k == last then i else k].prefix == p;
    }
  }

  lemma XroutesReplaced(xs: seq<Xroute>, i: nat, x: Xroute)
    requires i < |xs| && XroutesDistinct(xs) && xs[i].prefix == x.prefix
    ensures XroutesDistinct(xs[i := x]) && XroutePrefixes(xs[i := x]) == XroutePrefixes(xs) + {x.prefix}
  {
    assert forall k | 0 <= k < |xs| :: xs[i := x][k].prefix == xs[k].prefix;
  }

  lemma XroutesAppended(xs: seq<Xroute>, x: Xroute)
    requires XroutesDistinct(xs) && x.prefix !in XroutePrefixes(xs)
    ensures XroutesDistinct(xs + [x]) && XroutePrefixes(xs + [x]) == XroutePrefixes(xs) + {x.prefix}
  {
    var ys := xs + [x];
    assert ys[|xs|] == x && forall k | 0 <= k < |xs| :: ys[k] == xs[k] && xs[k].prefix in XroutePrefixes(xs);
  }

  lemma XrouteKeepsBodies(c: Config, n: Node, p: Prefix)
    requires Can(c, n, XrouteSet(p))
    ensures Bodies(Apply(c, n, XrouteSet(p))) == Bodies(n)
  {
  }

  lemma XrouteGoneKeepsBodies(c: Config, n: Node, p: Prefix)
    ensures Bodies(Apply(c, n, XrouteGone(p))) == Bodies(n)
  {
  }

  /** Older than SOURCE_GC_TIME and used by no route. */
  predicate Stale(s: SourceRec, now: int) {
    s.source.time < now - SOURCE_GC_TIME && s.routeCount == 0
  }

  /** The walk of expire_sources over the source table. */
  method WalkSources(was: map<SourceKey, SourceRec>, now: int) returns (srcs: map<SourceKey, SourceRec>)
    ensures srcs == map k | k in was && !Stale(was[k], now) :: was[k].(source := Clamped(was[k].source, now))
  {
    srcs := was;
    var todo := was.Keys;
    while todo != {}
      invariant todo <= srcs.Keys <= was.Keys
      invariant forall k | k in todo :: srcs[k] == was[k]
      invariant forall k | k in was.Keys - todo :: k in srcs <==> !Stale(was[k], now)
      invariant forall k | k in srcs.Keys - todo :: srcs[k] == was[k].(source := Clamped(was[k].source, now))
      decreases todo
    {
      var k :| k in todo;
      todo := todo - {k};
      srcs := srcs[k := srcs[k].(source := Clamped(srcs[k].source, now))];
      if Stale(srcs[k], now) {
        srcs := srcs - {k};
      }
    }
  }

  lemma SourcesKeepBodies(n: Node, n': Node)
    requires n.table == n'.table
    ensures Bodies(n) == Bodies(n')
  {
  }

  predicate OfType(x: Xroute, v4: bool, proto: int) {
    x.proto == proto && v4 == (x.prefix.plen >= 96 && V4Mapped(x.prefix.addr))
  }

  /** The same routes, sources, redistributed destinations and time: only what is installed may differ. */
  ghost predicate SameHoldings(n: Node, n': Node) {
    Bodies(n) == Bodies(n') && n.sources == n'.sources && n.xroutes == n'.xroutes && n.now == n'.now
  }

  /** A route that may be installed: feasible, and its destination not redistributed. */
  predicate Usable(n: Node, r: Route) {
    RouteFeasible(n, r) && r.src.prefix !in n.xroutes
  }

  /** The output filter adds to the metric, or denies the destination; a retraction always passes. */
  function Filtered(a: Announcement, filter: nat): Announcement
    requires a.Announcement?
  {
    if filter < INFINITY then a.(dist := Dist(a.dist.seqno, Capped(a.dist.metric + filter)))
    else if a.dist.metric < INFINITY then Silence
    else a
  }

  class Babel {
    const config: Config
    var now: int
    var halfLife: int
    var slots: seq<seq<Entry>>
    var maxSlots: nat
    var sources: map<SourceKey, SourceRec>
    var xroutes: seq<Xroute>
    var maxXroutes: nat

    ghost predicate Shaped()
      reads this
    {
      && Distinct(slots) && Ascending(slots) && |slots| <= maxSlots
      && XroutesDistinct(xroutes) && |xroutes| <= maxXroutes
    }

    /** The router's state, apart from the smoothed metrics. */
    ghost function State(): Node
      requires Shaped()
      reads this
    {
      Node(now, TableOf(slots), SourceView(sources), XroutePrefixes(xroutes))
    }

    /** The table invariant; every route's source is in the source table. */
    ghost predicate Sane()
      reads this
    {
      Shaped() && Good(config, State()) && forall b | b in Bodies(State()) :: b.src in sources
    }

    /** Each source's route_count is the number of routes in the table that point at it. */
    ghost predicate CountsRight()
      requires Shaped()
      reads this
    {
      Counts(sources, Bodies(State()))
    }

    ghost predicate Valid()
      reads this
    {
      Sane() && CountsRight()
    }

    constructor (c: Config, start: int)
      ensures Valid() && State() == Node(start, map[], map[], {}) && config == c
    {
      config := c;
      now, halfLife := start, 0;
      slots, maxSlots := [], 0;
      sources := map[];
      xroutes, maxXroutes := [], 0;
    }

    // ---- Looking up ----

    /** find_route_slot: binary search; on failure n is where the slot would go. */
    method FindRouteSlot(p: Prefix) returns (i: int, n: nat)
      requires Shaped()
      ensures i >= 0 ==> SlotFor(slots, i, p) && State().Slot(p) == Routes(slots[i])
      ensures i < 0 ==> i == -1 && Fits(slots, n, p) && p !in State().table
    {
      i, n := -1, 0;
      if |slots| < 1 {
        return;
      }
      var lo, hi := 0, |slots| - 1;
      while lo <= hi
        invariant 0 <= lo <= hi + 1 <= |slots|
        invariant forall k | 0 <= k < lo :: PrefixCompare(Destination(slots[k]), p) < 0
        invariant forall k | hi < k < |slots| :: PrefixCompare(p, Destination(slots[k])) < 0
      {
        var m := (lo + hi) / 2;
        var c := PrefixCompare(p, Destination(slots[m]));
        PrefixCompareTotal(p, Destination(slots[m]));
        if c == 0 {
          TableAt(slots, m);
          return m, 0;
        } else if c < 0 {
          AboveAll(slots, m, p);
          hi := m - 1;
        } else {
          BelowAll(slots, m, p);
          lo := m + 1;
        }
      }
      n := lo;
      FitsAbsent(slots, n, p);
    }

    /** find_route: the slot of the destination, and the place of the route in its list. */
    method FindRoute(p: Prefix, key: (Neighbour, Addr)) returns (i: int, j: int)
      requires Shaped()
      ensures j == Find(State().Slot(p), key)
      ensures j >= 0 ==> SlotFor(slots, i, p) && j < |slots[i]| && slots[i][j].route.Key() == key
    {
      var n;
      i, n := FindRouteSlot(p);
      if i < 0 {
        return -1, -1;
      }
      j := 0;
      var l := Routes(slots[i]);
      while j < |l|
        invariant 0 <= j <= |l|
        invariant Find(l, key) == if Find(l[j..], key) < 0 then -1 else j + Find(l[j..], key)
      {
        if l[j].Key() == key {
          return;
        }
        assert l[j..][1..] == l[j + 1..];
        j := j + 1;
      }
      j := -1;
    }

    /** find_installed_route looks at the front only; there is no other installed route to the destination. */
    method FindInstalledRoute(p: Prefix) returns (i: int)
      requires Shaped()
      ensures i >= 0 ==> SlotFor(slots, i, p) && State().Slot(p) == Routes(slots[i])
      ensures i >= 0 <==> State().Slot(p) != [] && State().Slot(p)[0].installed
      ensures Sane() ==> (i >= 0 <==> exists r :: r in State().Slot(p) && r.installed)
    {
      var n;
      i, n := FindRouteSlot(p);
      ghost var l := State().Slot(p);
      assert l != [] ==> l[0] in l;
      assert Sane() ==> GoodList(config, p, l) by {
        if Sane() {
          GoodSlot(config, State(), p);
        }
      }
      if i >= 0 && !slots[i][0].route.installed {
        i := -1;
      }
    }

    method FindXroute(p: Prefix) returns (i: int)
      ensures i >= 0 ==> i < |xroutes| && xroutes[i].prefix == p
      ensures i < 0 <==> p !in XroutePrefixes(xroutes)
    {
      i := 0;
      while i < |xroutes|
        invariant 0 <= i <= |xroutes|
        invariant forall k | 0 <= k < i :: xroutes[k].prefix != p
      {
        if xroutes[i].prefix == p {
          return;
        }
        i := i + 1;
      }
      i := -1;
    }

    // ---- Changing one list ----

    /** Rewrites one entry in place: its fields may change, its key and destination may not. */
    method Put(i: nat, j: nat, e: Entry)
      requires Sane() && i < |slots| && j < |slots[i]|
      requires var r := slots[i][j].route;
               && e.route.Key() == r.Key() && e.route.src.prefix == r.src.prefix
               && (e.route.installed ==> r.installed)
      requires e.route.src.id != config.myid && e.route.src in sources
      modifies this`slots
      ensures slots == old(slots)[i := old(slots[i])[j := e]]
      ensures Sane()
      ensures State() == old(State().WithSlot(Destination(slots[i]), Routes(slots[i])[j := e.route]))
      ensures Bodies(State()) == old(Bodies(State()) - {Body(slots[i][j].route)}) + {Body(e.route)}
      ensures old(Body(slots[i][j].route) in Bodies(State()))
      ensures Body(e.route) in old(Bodies(State())) ==> Body(e.route) == old(Body(slots[i][j].route))
    {
      hide Good, Bodies, BodySet, TableOf, Ascending;
      ghost var n, p := State(), Destination(slots[i]);
      SlotKnown(i, j);
      KnownGood(i);
      var l := slots[i][j := e];
      assert Routes(l) == n.Slot(p)[j := e.route];
      SetSlot(slots, i, l);
      EditKeepsGood(config, n, p, j, e.route);
      ReplaceGood(config, p, n.Slot(p), j, e.route);
      EditedBodies(config, n, p, j, e.route);
      slots := slots[i := l];
    }

    /** Stores new smoothed metrics for one slot. */
    method Resmooth(i: nat, l: seq<Entry>)
      requires Sane() && i < |slots| && Routes(l) == Routes(slots[i])
      modifies this`slots
      ensures Sane() && State() == old(State())
      ensures slots == old(slots)[i := l]
    {
      SameRoutes(slots, i, l);
      slots := slots[i := l];
    }

    /** The effect of a successful install or switch: flags change and the route moves to the front. */
    method MoveInstalledRoute(i: nat, j: nat)
      requires Sane() && i < |slots| && j < |slots[i]|
      requires Can(config, State(), Selected(Destination(slots[i]), j))
      modifies this`slots
      ensures Sane()
      ensures slots == old(slots)[i := PromoteEntry(old(slots[i]), j)]
      ensures State() == Apply(config, old(State()), Selected(Destination(old(slots[i])), j))
      ensures Bodies(State()) == old(Bodies(State()))
    {
      hide Good, Bodies, BodySet, TableOf, Ascending, Can, Apply, Promote;
      ghost var n, p := State(), Destination(slots[i]);
      SelectedIs(config, n, p, j);
      SlotKnown(i, j);
      KnownGood(i);
      var l := PromoteEntry(slots[i], j);
      assert forall k | 0 <= k < |l| :: l[k].route == Routes(l)[k];
      PromoteGood(config, p, n.Slot(p), j);
      SetSlot(slots, i, l);
      SelectKeepsGood(config, n, p, j);
      FlagsKeepBodies(config, n, Selected(p, j));
      slots := slots[i := l];
    }

    /** uninstall_route on the front of a slot, whatever the kernel answers. */
    method UninstallRoute(i: nat)
      requires Sane() && i < |slots| && slots[i][0].route.installed
      modifies this`slots
      ensures Sane()
      ensures slots == old(slots)[i := old(slots[i])[0 := old(slots[i][0]).(route := Body(old(slots[i][0].route)))]]
      ensures Can(config, old(State()), Uninstalled(Destination(old(slots[i]))))
      ensures State() == Apply(config, old(State()), Uninstalled(Destination(old(slots[i]))))
      ensures Bodies(State()) == old(Bodies(State()))
    {
      ghost var n, p := State(), Destination(slots[i]);
      TableAt(slots, i);
      GoodSlot(config, n, p);
      SlotKnown(i, 0);
      FlagsKeepBodies(config, n, Uninstalled(p));
      Put(i, 0, slots[i][0].(route := Body(slots[i][0].route)));
    }

    lemma KnownGood(i: nat)
      requires Sane() && i < |slots|
      ensures GoodList(config, Destination(slots[i]), Routes(slots[i]))
    {
      TableAt(slots, i);
      GoodSlot(config, State(), Destination(slots[i]));
    }

    lemma SlotKnown(i: nat, j: nat)
      requires Sane() && i < |slots| && j < |slots[i]|
      ensures State().Slot(Destination(slots[i])) == Routes(slots[i])
      ensures slots[i][j].route.src in sources && slots[i][j].route.src.id != config.myid
      ensures slots[i][j].route.src.prefix == Destination(slots[i])
      ensures j > 0 ==> !slots[i][j].route.installed
      ensures slots[i][j].route.installed ==> Destination(slots[i]) !in XroutePrefixes(xroutes)
    {
      var n, p := State(), Destination(slots[i]);
      TableAt(slots, i);
      GoodSlot(config, n, p);
      SlotBodiesIncluded(n, p);
      assert Routes(slots[i])[j] == slots[i][j].route;
      assert Body(n.Slot(p)[j]) in BodySet(n.Slot(p));
    }

    // ---- Choosing a route ----

    predicate Accepts(r: Route, feasible: bool, exclude: Exclude)
      reads this
    {
      Acceptable(sources, now, r, feasible, exclude)
    }

    /** Nothing but smoothed metrics in slot i differs from the slots before. */
    twostate predicate OnlySlot(i: int)
      reads this
    {
      && |slots| == old(|slots|)
      && forall k | 0 <= k < |slots| && k != i :: slots[k] == old(slots[k])
    }

    /** Which routes of a list are acceptable. */
    function Acceptances(l: seq<Entry>, feasible: bool, exclude: Exclude): (ok: seq<bool>)
      reads this
      ensures |ok| == |l| && forall k | 0 <= k < |l| :: ok[k] == Accepts(l[k].route, feasible, exclude)
    {
      var srcs, t := sources, now;
      seq(|l|, k requires 0 <= k < |l| => Acceptable(srcs, t, l[k].route, feasible, exclude))
    }

    /** find_best_route: a true minimum of the smoothed metric over the acceptable routes. */
    method FindBestRoute(p: Prefix, feasible: bool, exclude: Exclude) returns (i: int, j: int)
      requires Sane()
      modifies this`slots
      ensures Sane() && State() == old(State()) && OnlySlot(i)
      ensures p in State().table <==> i >= 0
      ensures i >= 0 ==>
                && SlotFor(slots, i, p) && SlotAges(old(slots[i]), slots[i], now, halfLife)
                && Routes(slots[i]) == Routes(old(slots[i]))
                && BestIn(slots[i], Acceptances(slots[i], feasible, exclude), j)
      ensures j < 0 ==> slots == old(slots) && forall r | r in State().Slot(p) :: !Accepts(r, feasible, exclude)
      ensures i < 0 ==> j < 0
    {
      hide Good, Bodies, TableOf, Ascending, Ages;
      var n;
      i, n := FindRouteSlot(p);
      if i < 0 {
        j := -1;
        return;
      }
      var l := slots[i];
      var ok := Acceptances(l, feasible, exclude);
      ghost var rs := Routes(l);
      assert forall k | 0 <= k < |l| :: rs[k] == l[k].route && ok[k] == Accepts(rs[k], feasible, exclude);
      l, j := BestOf(l, ok, now, halfLife);
      SameRoutesAt(l, slots[i]);
      Resmooth(i, l);
      TableAt(slots, i);
      assert Acceptances(slots[i], feasible, exclude) == ok;
    }

    /** The tests of consider_route, in its order. */
    method Decide(i: nat, j: nat) returns (go: bool)
      requires Sane() && i < |slots| && j < |slots[i]|
      modifies this`slots
      ensures Sane() && State() == old(State()) && OnlySlot(i) && Routes(slots[i]) == Routes(old(slots[i]))
      ensures var l, r := old(slots[i]), old(slots[i][j].route);
              if r.installed || !Usable(State(), r) then !go && slots[i] == l
              else if !l[0].route.installed then go && slots[i] == l
              else Challenged(l, j, now, halfLife, slots[i]) && (go <==> Wins(slots[i][j], slots[i][0]))
      ensures go ==> Can(config, State(), Selected(Destination(slots[i]), j))
    {
      hide Good, Bodies, TableOf, Ascending, Ages;
      SlotKnown(i, j);
      var r := slots[i][j].route;
      if r.installed || !Feasible(sources[r.src].source, now, r.dist) {
        return false;
      }
      var x := FindXroute(r.src.prefix);
      if x >= 0 {
        return false;
      }
      var inst := FindInstalledRoute(r.src.prefix);
      assert Routes(slots[i])[0] == slots[i][0].route;
      if inst < 0 {
        return true;
      }
      var l;
      l, go := Challenge(slots[i], j, now, halfLife);
      SameRoutesAt(l, slots[i]);
      Resmooth(i, l);
      TableAt(slots, i);
    }

    /**
     consider_route: installs a feasible route when the destination is not redistributed and either
     nothing is installed or the route wins, and the kernel agrees.
     */
    method ConsiderRoute(i: nat, j: nat, kernel: bool) returns (switched: bool)
      requires Sane() && i < |slots| && j < |slots[i]|
      modifies this`slots
      ensures Sane() && OnlySlot(i) && Bodies(State()) == old(Bodies(State()))
      ensures Considered(old(State()), old(slots[i]), j, now, halfLife, kernel, slots[i], switched)
      ensures !switched ==> State() == old(State())
      ensures switched ==> Can(config, old(State()), Selected(Destination(old(slots[i])), j))
      ensures switched ==> State() == Apply(config, old(State()), Selected(Destination(old(slots[i])), j))
    {
      hide Good, Bodies, Ascending, TableOf, Ages, Settled, Challenged, Wins, Can, Apply, Usable;
      switched := false;
      var go := Decide(i, j);
      if go && kernel {
        MoveInstalledRoute(i, j);
        switched := true;
      }
    }

    // ---- When a route changes ----

    /** Packets for the destination are forwarded. */
    ghost predicate HasInstalled(p: Prefix)
      requires Shaped()
      reads this
    {
      State().Slot(p) != [] && State().Slot(p)[0].installed
    }

    /** The first half of route_changed: an installed route gives way to a better one, and is then second. */
    method GiveWay(i: nat, kernel: bool) returns (switched: bool, ghost m: seq<Entry>, ghost b: int)
      requires Sane() && i < |slots| && slots[i][0].route.installed
      modifies this`slots
      ensures Sane() && OnlySlot(i) && Bodies(State()) == old(Bodies(State()))
      ensures |slots[i]| == old(|slots[i]|) && SlotAges(old(slots[i]), m, now, halfLife)
      ensures BestIn(m, Acceptances(m, true, Nobody), b)
      ensures if b >= 0 && m[b].route.Metric() < m[0].route.Metric()
              then Considered(old(State()), m, b, now, halfLife, kernel, slots[i], switched)
              else slots[i] == m && !switched
      ensures !switched ==> State() == old(State())
      ensures switched ==> b >= 0 && m[b].route.Metric() < m[0].route.Metric()
      ensures b > 0 ==> Usable(old(State()), m[b].route) && !m[b].route.installed
      ensures switched ==> Can(config, old(State()), Selected(Destination(old(slots[i])), b))
      ensures switched ==> State() == Apply(config, old(State()), Selected(Destination(old(slots[i])), b))
    {
      hide Good, Bodies, Ascending, TableOf, Ages, Settled, Considered, Can, Apply;
      ghost var p := Destination(slots[i]);
      SlotKnown(i, 0);
      switched := false;
      var metric := slots[i][0].route.Metric();
      var at, better := FindBestRoute(slots[i][0].route.src.prefix, true, Nobody);
      assert at == i;
      SameRoutesAt(slots[i], old(slots[i]));
      m, b := slots[i], better;
      if better >= 0 {
        SlotKnown(i, better);
      }
      if better >= 0 && slots[i][better].route.Metric() < metric {
        switched := ConsiderRoute(i, better, kernel);
        ConsideredFacts(old(State()), m, b, now, halfLife, kernel, slots[i], switched);
      }
    }

    /** A route that has just given way does not come back at the same instant. */
    lemma NoWayBack(l: seq<Entry>, m: seq<Entry>)
      requires |l| >= 2 && Wins(l[0], l[1]) && Challenged(l, 1, now, halfLife, m)
      requires l[1].route.Metric() < INFINITY ==> SettledAt(l[0], now, halfLife) && SettledAt(l[1], now, halfLife)
      ensures !Wins(m[1], m[0])
    {
      hide Ages, Settled;
      AgesFacts(l[0], m[0], now, halfLife);
      AgesFacts(l[1], m[1], now, halfLife);
    }

    /** The second half of route_changed for a route that has just given way: it changes nothing. */
    method Reconsider(i: nat, kernel: bool)
      requires Sane() && i < |slots| && |slots[i]| >= 2 && slots[i][0].route.installed && Wins(slots[i][0], slots[i][1])
      requires slots[i][1].route.Metric() < INFINITY ==>
                 SettledAt(slots[i][0], now, halfLife) && SettledAt(slots[i][1], now, halfLife)
      modifies this`slots
      ensures Sane() && OnlySlot(i) && State() == old(State()) && |slots[i]| == old(|slots[i]|)
      ensures SlotAges(old(slots[i]), slots[i], now, halfLife)
    {
      hide Good, Bodies, Ascending, TableOf, Ages, Settled, Can, Apply;
      SlotAgesRefl(slots[i], now, halfLife);
      var switched := ConsiderRoute(i, 1, kernel);
      ghost var l := old(slots[i]);
      if !l[1].route.installed && Usable(old(State()), l[1].route) {
        ghost var m :| Challenged(l, 1, now, halfLife, m) && switched == (Wins(m[1], m[0]) && kernel) &&
                       slots[i] == if switched then PromoteEntry(m, 1) else m;
        NoWayBack(l, m);
      }
    }

    /** route_changed for an installed route: it gives way to a better one if there is one, for good. */
    method GiveWayForGood(i: nat, k: Kernel) returns (ghost m: seq<Entry>, ghost b: int, ghost gave: bool)
      requires Sane() && i < |slots| && slots[i][0].route.installed
      modifies this`slots
      ensures Sane() && OnlySlot(i) && Bodies(State()) == old(Bodies(State()))
      ensures |slots[i]| == old(|slots[i]|) && SlotAges(old(slots[i]), m, now, halfLife)
      ensures BestIn(m, Acceptances(m, true, Nobody), b) && GaveWay(m, b, slots[i], k.giveWay, gave)
      ensures gave ==> Can(config, old(State()), Selected(Destination(old(slots[i])), b))
      ensures gave ==> State() == Apply(config, old(State()), Selected(Destination(old(slots[i])), b))
      ensures !gave ==> State() == old(State())
      ensures slots[i][0].route.installed && Destination(slots[i]) == Destination(old(slots[i]))
    {
      hide Good, Bodies, Ascending, TableOf, Ages, Settled, Considered, Can, Apply, Wins;
      SlotKnown(i, 0);
      var switched;
      switched, m, b := GiveWay(i, k.giveWay);
      gave := switched;
      SlotAgesRoutes(old(slots[i]), m, now, halfLife);
      SameRoutesAt(m, old(slots[i]));
      if b >= 0 && m[b].route.Metric() < m[0].route.Metric() {
        ConsideredFacts(old(State()), m, b, now, halfLife, k.giveWay, slots[i], switched);
      }
      if switched {
        ghost var l := slots[i];
        Reconsider(i, k.switch);
        SlotAgesRoutes(l, slots[i], now, halfLife);
        SameRoutesAt(l, slots[i]);
      } else {
        SlotKnown(i, 0);
      }
      SlotKnown(i, 0);
    }

    /**
     route_changed: an installed route gives way to a better one if there is one and is not looked at again; any
     other is considered.
     */
    method RouteChanged(i: nat, j: nat, k: Kernel) returns (ghost moved: bool, ghost m: seq<Entry>, ghost b: int)
      requires Sane() && i < |slots| && j < |slots[i]|
      modifies this`slots
      ensures Sane() && OnlySlot(i) && Bodies(State()) == old(Bodies(State()))
      ensures Destination(slots[i]) == Destination(old(slots[i])) && |slots[i]| == old(|slots[i]|)
      ensures Evolves(config, old(State()), State(), {})
      ensures !moved ==> State() == old(State())
      ensures !old(slots[i][j].route.installed) ==>
                && Considered(old(State()), old(slots[i]), j, now, halfLife, k.switch, slots[i], moved)
                && (moved ==> Can(config, old(State()), Selected(Destination(old(slots[i])), j)))
                && (moved ==> State() == Apply(config, old(State()), Selected(Destination(old(slots[i])), j)))
      ensures old(slots[i][j].route.installed) ==>
                && SlotAges(old(slots[i]), m, now, halfLife) && BestIn(m, Acceptances(m, true, Nobody), b)
                && GaveWay(m, b, slots[i], k.giveWay, moved)
                && (moved ==> Can(config, old(State()), Selected(Destination(old(slots[i])), b)))
                && (moved ==> State() == Apply(config, old(State()), Selected(Destination(old(slots[i])), b)))
      ensures old(slots[i][j].route.installed) ==> HasInstalled(Destination(old(slots[i])))
      ensures k.switch && Usable(old(State()), old(slots[i][j].route)) ==> HasInstalled(Destination(old(slots[i])))
    {
      hide Good, Bodies, Ascending, TableOf, Runs, Ages, Settled, BestIn, Considered, Can, Apply, Usable, Evolves;
      ghost var n0, p, l := State(), Destination(slots[i]), slots[i];
      EvolvesRefl(config, n0, {});
      SlotKnown(i, j);
      if slots[i][j].route.installed {
        m, b, moved := GiveWayForGood(i, k);
        SlotKnown(i, 0);
        if moved {
          EvolvesThen(config, n0, n0, Selected(p, b), {});
        }
      } else {
        m, b := slots[i], -1;
        var switched := ConsiderRoute(i, j, k.switch);
        moved := switched;
        ConsideredFacts(n0, l, j, now, halfLife, k.switch, slots[i], switched);
        PromotedFront(l, slots[i], j);
        SlotKnown(i, 0);
        if switched {
          EvolvesThen(config, n0, n0, Selected(p, j), {});
        }
      }
    }

    /** route_lost: the installed route to a destination is gone; take the best feasible one. */
    method RouteLost(p: Prefix, kernel: bool) returns (ghost j: int)
      requires Sane()
      modifies this`slots
      ensures Sane() && Bodies(State()) == old(Bodies(State())) && |slots| == old(|slots|)
      ensures forall k | 0 <= k < |slots| && Destination(old(slots[k])) != p :: slots[k] == old(slots[k])
      ensures j < 0 ==> State() == old(State())
      ensures j >= 0 ==>
                && kernel && j < |old(State()).Slot(p)| && Accepts(old(State()).Slot(p)[j], true, Nobody)
                && Can(config, old(State()), Selected(p, j)) && State() == Apply(config, old(State()), Selected(p, j))
      ensures SameElsewhere(old(State()), State(), p)
      ensures Evolves(config, old(State()), State(), {})
      ensures old(HasInstalled(p)) ==> HasInstalled(p)
      ensures kernel ==> Served(State(), p)
    {
      hide Good, Bodies, Ascending, TableOf, Runs, Ages, Considered, Settled, Evolves, Wins;
      ghost var n0 := State();
      EvolvesRefl(config, n0, {});
      var i, best := FindBestRoute(p, true, Nobody);
      j := -1;
      if best >= 0 {
        SlotKnown(i, best);
        ghost var l := slots[i];
        assert State().Slot(p)[best] == slots[i][best].route;
        var switched := ConsiderRoute(i, best, kernel);
        ConsideredFacts(n0, l, best, now, halfLife, kernel, slots[i], switched);
        PromotedFront(l, slots[i], best);
        SlotKnown(i, 0);
        if switched {
          j := best;
          EvolvesThen(config, n0, n0, Selected(p, j), {});
        }
      }
    }

    // ---- The source table ----

    /** find_source: the entry for a key, created with no metric if missing. */
    method FindSource(k: SourceKey, seqno: u16)
      requires Valid()
      modifies this`sources
      ensures Valid() && k in sources && State() == WithSource(old(State()), k, seqno)
      ensures k in old(sources) ==> sources == old(sources)
      ensures k !in old(sources) ==> sources[k].routeCount == 0
    {
      if k !in sources {
        hide Good, Bodies, TableOf, Ascending;
        ghost var n := State();
        assert (set b | b in Bodies(n) && b.src == k) == {};
        sources := sources[k := SourceRec(Source(Dist(seqno, INFINITY), now), 0)];
        assert State() == WithSource(n, k, seqno);
        assert Bodies(State()) == Bodies(n);
      }
    }

    /** retain_source; the counter is sixteen bits wide and must not overflow. */
    method RetainSource(k: SourceKey)
      requires k in sources && sources[k].routeCount < 0xFFFF
      modifies this`sources
      ensures sources == Counted(old(sources), k, 1)
      ensures SourceView(sources) == SourceView(old(sources))
    {
      sources := sources[k := sources[k].(routeCount := sources[k].routeCount + 1)];
    }

    method ReleaseSource(k: SourceKey)
      requires k in sources && sources[k].routeCount > 0
      modifies this`sources
      ensures sources == Counted(old(sources), k, -1)
      ensures SourceView(sources) == SourceView(old(sources))
    {
      sources := sources[k := sources[k].(routeCount := sources[k].routeCount - 1)];
    }

    // ---- Hearing an update ----

    /** The fields that update_route rewrites in a route it has, the metric last. */
    method Refresh(i: nat, j: nat, u: Update, feasible: bool, cost: u16, add: u16, kernel: bool) returns (ok: bool)
      requires Sane() && i < |slots| && j < |slots[i]| && SourceKey(u.id, u.prefix) in sources
      requires slots[i][j].route.Key() == (u.neigh, u.nexthop) && Destination(slots[i]) == u.prefix
      requires u.id != config.myid && (slots[i][j].route.installed ==> feasible)
      modifies this`slots
      ensures Sane() && OnlySlot(i) && |slots[i]| == old(|slots[i]|) && Destination(slots[i]) == u.prefix
      ensures ok <==> kernel || !Contested(config, now, old(slots[i][j].route), u, feasible, cost, add)
      ensures State() == old(State()).WithSlot(u.prefix, Routes(old(slots[i]))[
                             j := Outcome(config, now, old(slots[i][j].route), u, feasible, cost, add, ok)])
      ensures slots[i][j].route.src == SourceKey(u.id, u.prefix)
      ensures Bodies(State()) == old(Bodies(State()) - {Body(slots[i][j].route)}) + {Body(slots[i][j].route)}
      ensures old(Body(slots[i][j].route) in Bodies(State()))
      ensures Body(slots[i][j].route) in old(Bodies(State())) ==>
                Body(slots[i][j].route) == old(Body(slots[i][j].route))
    {
      hide Good, Bodies, Ascending, TableOf, Distinct, Smooths;
      SlotKnown(i, j);
      var e := slots[i][j];
      var renewed := (feasible || config.keepUnfeasible) && u.dist.metric < INFINITY;
      var r := e.route.(src := SourceKey(u.id, u.prefix), dist := Dist(u.dist.seqno, e.route.dist.metric),
                        time := if renewed then now else e.route.time);
      e, ok := NewMetric(e.(route := r), u.dist.metric, cost, add, now, halfLife, kernel);
      e := e.(route := e.route.(holdTime := HoldTime(u.interval)));
      Put(i, j, e);
      SlotKnown(i, j);
    }

    /** The same, after taking down an installed route that the update makes unfeasible. */
    method TakeUpdate(i: nat, j: nat, u: Update, feasible: bool, cost: u16, add: u16, kernel: bool)
      returns (ok: bool, lost: bool)
      requires Sane() && i < |slots| && j < |slots[i]| && SourceKey(u.id, u.prefix) in sources
      requires slots[i][j].route.Key() == (u.neigh, u.nexthop) && Destination(slots[i]) == u.prefix
      requires u.id != config.myid
      modifies this`slots
      ensures Sane() && OnlySlot(i) && |slots[i]| == old(|slots[i]|) && Destination(slots[i]) == u.prefix
      ensures ok <==> kernel || !Contested(config, now, old(slots[i][j].route), u, feasible, cost, add)
      ensures State() == old(State()).WithSlot(u.prefix, Routes(old(slots[i]))[
                             j := Outcome(config, now, old(slots[i][j].route), u, feasible, cost, add, ok)])
      ensures slots[i][j].route.src == SourceKey(u.id, u.prefix)
      ensures Bodies(State()) == old(Bodies(State()) - {Body(slots[i][j].route)}) + {Body(slots[i][j].route)}
      ensures old(Body(slots[i][j].route) in Bodies(State()))
      ensures Body(slots[i][j].route) in old(Bodies(State())) ==>
                Body(slots[i][j].route) == old(Body(slots[i][j].route))
      ensures lost <==> !feasible && old(slots[i][j].route.installed)
    {
      hide Good, Bodies, Ascending, TableOf, Distinct, Refreshed, HalfRefreshed;
      SlotKnown(i, j);
      ghost var n, l := State(), Routes(slots[i]);
      lost := !feasible && slots[i][j].route.installed;
      if lost {
        UninstallRoute(i);
        UninstalledRefresh(config, now, l[j], u, cost, add);
        ghost var r := Refreshed(config, now, l[j], u, false, cost, add);
        assert Routes(slots[i])[0 := r] == l[0 := r];
        assert State().WithSlot(u.prefix, l[0 := r]) == n.WithSlot(u.prefix, l[0 := r]);
      }
      ok := Refresh(i, j, u, feasible, cost, add, kernel);
    }

    /** update_route for a route already in the table, once the update is to be taken. */
    method UpdateExisting(i: nat, j: nat, u: Update, feasible: bool, cost: u16, add: u16, k: Kernel)
      returns (ok: bool)
      requires Valid() && i < |slots| && j < |slots[i]|
      requires SourceKey(u.id, u.prefix) in sources && sources[SourceKey(u.id, u.prefix)].routeCount < 0xFFFF
      requires slots[i][j].route.Key() == (u.neigh, u.nexthop) && Destination(slots[i]) == u.prefix
      requires u.id != config.myid
      modifies this`slots, this`sources
      ensures Valid()
      ensures ok <==> k.change || !Contested(config, now, old(slots[i][j].route), u, feasible, cost, add)
      ensures var heard := old(State()).WithSlot(u.prefix, Routes(old(slots[i]))[
                                 j := Outcome(config, now, old(slots[i][j].route), u, feasible, cost, add, ok)]);
              Evolves(config, heard, State(), {}) && SameHoldings(State(), heard)
      ensures k.switch && feasible && ok && Usable(old(State()), NewRoute(now, u, cost, add)) ==> HasInstalled(u.prefix)
      ensures feasible && old(slots[i][j].route.installed) ==> HasInstalled(u.prefix)
      ensures !feasible && old(slots[i][j].route.installed) && k.replace ==> Served(State(), u.prefix)
    {
      hide Good, Bodies, Ascending, TableOf, Distinct, Runs, Evolves, RefCount, Refreshed, HalfRefreshed, Usable,
           Ages, Considered, BestIn, GaveWay, Served, Can, Apply;
      ghost var n0, p, key := State(), Destination(slots[i]), SourceKey(u.id, u.prefix);
      ghost var bs, srcs := Bodies(State()), sources;
      SlotKnown(i, j);
      ghost var before := Body(slots[i][j].route);
      var oldSrc, lost := slots[i][j].route.src, false;
      RetainSource(SourceKey(u.id, u.prefix));
      ghost var r0 := slots[i][j].route;
      ok, lost := TakeUpdate(i, j, u, feasible, cost, add, k.change);
      SlotKnown(i, j);
      RefreshedIsUsable(config, n0, r0, u, feasible, cost, add);
      OutcomeInstalled(config, now, r0, u, feasible, cost, add, ok);
      ghost var n1, after := State(), Body(slots[i][j].route);
      ghost var moved, m, b := RouteChanged(i, j, k);
      if lost {
        ghost var n2 := State();
        ghost var q := RouteLost(u.prefix, k.replace);
        EvolvesTrans(config, n1, n2, State(), {});
      }
      CountsExchange(srcs, bs, before, after);
      ReleaseSource(oldSrc);
    }

    /** insert_route: at the end of its destination's list, or in a slot of its own, growing the array if full. */
    method InsertRoute(e: Entry) returns (i: nat, j: nat)
      requires Sane() && !e.route.installed && e.route.src in sources && e.route.src.id != config.myid
      requires Find(State().Slot(e.route.src.prefix), e.route.Key()) < 0
      modifies this`slots, this`maxSlots
      ensures Sane() && i < |slots| && j < |slots[i]| && slots[i][j] == e
      ensures Destination(slots[i]) == e.route.src.prefix
      ensures State() == old(State()).WithSlot(e.route.src.prefix, old(State()).Slot(e.route.src.prefix) + [e.route])
      ensures Bodies(State()) == old(Bodies(State())) + {Body(e.route)} && Body(e.route) !in old(Bodies(State()))
    {
      hide Good, Bodies, Ascending, TableOf, Fits, Inserted, Find;
      var p := e.route.src.prefix;
      ghost var n, l0 := State(), State().Slot(p);
      InsertGood(config, n, e.route);
      var at, place := FindRouteSlot(p);
      if at < 0 {
        if |slots| >= maxSlots {
          maxSlots := if maxSlots < 1 then 8 else 2 * maxSlots;
        }
        InsertSlot(slots, place, [e]);
        slots := Inserted(slots, place, [e]);
        InsertedAt(old(slots), place, [e], place);
        i, j := place, 0;
        assert Routes([e]) == l0 + [e.route];
      } else {
        var l := slots[at] + [e];
        assert Routes(l) == l0 + [e.route];
        SetSlot(slots, at, l);
        slots := slots[at := l];
        i, j := at, |l| - 1;
      }
      assert State() == n.WithSlot(p, l0 + [e.route]);
    }

    /** update_route for a route not yet in the table. */
    method UpdateNew(u: Update, cost: u16, add: u16, kernel: bool)
      requires Valid() && SourceKey(u.id, u.prefix) in sources && u.id != config.myid
      requires sources[SourceKey(u.id, u.prefix)].routeCount < 0xFFFF
      requires Find(State().Slot(u.prefix), (u.neigh, u.nexthop)) < 0
      modifies this`slots, this`maxSlots, this`sources
      ensures Valid()
      ensures var heard := old(State()).WithSlot(u.prefix, old(State()).Slot(u.prefix) + [NewRoute(now, u, cost, add)]);
              Evolves(config, heard, State(), {}) && SameHoldings(State(), heard)
      ensures kernel && Usable(old(State()), NewRoute(now, u, cost, add)) ==> HasInstalled(u.prefix)
    {
      hide Good, Bodies, Ascending, TableOf, Distinct, Runs, Evolves, RefCount, Find, Ages, Considered;
      ghost var bs, srcs := Bodies(State()), sources;
      RetainSource(SourceKey(u.id, u.prefix));
      var r := NewRoute(now, u, cost, add);
      var i, j := InsertRoute(Entry(r, if r.Metric() <= INFINITY / 2 then INFINITY / 2 else r.Metric(), now));
      CountsAdd(srcs, bs, r);
      ghost var n := State();
      EvolvesRefl(config, n, {});
      SlotKnown(i, j);
      ghost var l := slots[i];
      var switched := ConsiderRoute(i, j, kernel);
      ConsideredFacts(n, l, j, now, halfLife, kernel, slots[i], switched);
      PromotedFront(l, slots[i], j);
      SlotKnown(i, 0);
      if switched {
        EvolvesThen(config, n, n, Selected(u.prefix, j), {});
      }
    }

    /**
     update_route.  The router moves from its old state to its new one by hearing this update once, in full or,
     where the kernel refuses to change the installed route, in half, and then only by selecting feasible routes.
     */
    method UpdateRoute(u: Update, cost: u16, add: u16, k: Kernel) returns (ok: bool)
      requires Valid()
      requires SourceKey(u.id, u.prefix) in sources ==> sources[SourceKey(u.id, u.prefix)].routeCount < 0xFFFF
      modifies this`slots, this`maxSlots, this`sources
      ensures Valid()
      ensures ok <==> k.change || !MetricContested(config, old(State()), u, cost, add)
      ensures !ok ==> CanHalfHear(config, old(State()), u)
      ensures var heard := if ok then Hear(config, old(State()), u, cost, add) else HalfHear(config, old(State()), u);
              Evolves(config, heard, State(), {}) && SameHoldings(State(), heard)
      ensures Evolves(config, old(State()), State(), {u})
      ensures ok && k.switch && !Rejected(config, u, add) && u.dist.metric < INFINITY ==>
                Usable(WithSource(old(State()), SourceKey(u.id, u.prefix), u.dist.seqno),
                    NewRoute(now, u, cost, add)) ==>
                  HasInstalled(u.prefix)
      ensures Rejected(config, u, add) ==> State() == old(State())
    {
      hide Good, Bodies, Ascending, TableOf, Distinct, Runs, Evolves, Find, RefCount, Feasible, MartianPrefix,
           Refreshed, HalfRefreshed, Contested;
      ghost var n0 := State();
      ok := true;
      HeardThen(config, n0, u, cost, add);
      if u.id == config.myid || MartianPrefix(u.prefix) || add >= INFINITY {
        return;
      }
      var key := SourceKey(u.id, u.prefix);
      var i, j := FindRoute(u.prefix, (u.neigh, u.nexthop));
      FindSource(key, u.dist.seqno);
      var feasible := Feasible(sources[key].source, now, u.dist);
      if j >= 0 {
        SlotKnown(i, j);
        ghost var l, r0 := State().Slot(u.prefix), slots[i][j].route;
        ContestedIs(config, n0, u, feasible, cost, add);
        if !feasible && slots[i][j].route.installed && slots[i][j].route.src == key {
          return;
        }
        ok := UpdateExisting(i, j, u, feasible, cost, add, k);
        EvolvesFromHeard(config, n0, u, cost, add, ok, State());
      } else {
        if u.dist.metric >= INFINITY || (!feasible && !config.keepUnfeasible) {
          return;
        }
        UpdateNew(u, cost, add, k.switch);
        EvolvesFromHeard(config, n0, u, cost, add, true, State());
      }
    }

    /** The first half of update_route_metric: retract an expired route, else recompute its metric. */
    method Remeasure(i: nat, j: nat, cost: u16, add: u16, kernel: bool) returns (ok: bool, changed: bool)
      requires Valid() && i < |slots| && j < |slots[i]|
      modifies this`slots
      ensures Valid() && OnlySlot(i) && |slots[i]| == old(|slots[i]|)
      ensures slots[i] != [] && Destination(slots[i]) == Destination(old(slots[i]))
      ensures Remeasured(config, old(State()), Destination(old(slots[i])), j, cost, add, kernel, ok, State())
      ensures Evolves(config, old(State()), State(), {})
      ensures slots[i][j].route.installed == old(slots[i][j].route.installed)
      ensures slots[i][j].route.Metric() != old(slots[i][j].route.Metric()) ==> changed
    {
      hide Good, Bodies, Ascending, TableOf, Distinct, Runs, Evolves, Ages, Settled, Can, Apply;
      ghost var n0, p := State(), Destination(slots[i]);
      SlotKnown(i, j);
      EvolvesRefl(config, n0, {});
      ok, changed := true, false;
      var oldMetric := slots[i][j].route.Metric();
      var oldSmoothed := Resmoothed(i, j);
      var r := slots[i][j].route;
      if r.Expired(now) {
        if r.dist.metric < INFINITY {
          ok := Expire(i, j, kernel);
          changed := oldMetric < INFINITY;
          EvolvesThen(config, n0, n0, if ok then RouteExpired(p, j) else HalfExpired(p, j), {});
        }
      } else {
        ok := Recost(i, j, cost, add, kernel);
        if ok {
          EvolvesThen(config, n0, n0, Remetric(p, j, cost, add), {});
        }
        changed := slots[i][j].route.Metric() != oldMetric;
        if !changed {
          var smoothed := Resmoothed(i, j);
          changed := smoothed != oldSmoothed;
        }
      }
    }

    /** update_route_metric: a new metric, or none for an expired route; then reconsider if it changed. */
    method UpdateRouteMetric(i: nat, j: nat, cost: u16, add: u16, k: Kernel) returns (ok: bool, ghost n1: Node)
      requires Valid() && i < |slots| && j < |slots[i]|
      modifies this`slots
      ensures Valid() && OnlySlot(i)
      ensures Remeasured(config, old(State()), Destination(old(slots[i])), j, cost, add, k.change, ok, n1)
      ensures Evolves(config, n1, State(), {}) && SameHoldings(State(), n1)
      ensures Evolves(config, old(State()), State(), {})
      ensures var r := old(slots[i][j].route);
              ok && !r.Expired(now) && k.switch && Usable(old(State()), r) &&
                  r.(cost := cost, add := add).Metric() != r.Metric() ==>
                HasInstalled(Destination(old(slots[i])))
      ensures old(slots[i][j].route.installed) ==> HasInstalled(Destination(old(slots[i])))
    {
      hide Good, Bodies, Ascending, TableOf, Distinct, Runs, Evolves, Ages, Considered, BestIn, Settled, GaveWay, Can,
        Apply;
      ghost var n0, p := State(), Destination(slots[i]);
      SlotKnown(i, j);
      var changed;
      ok, changed := Remeasure(i, j, cost, add, k.change);
      SlotKnown(i, j);
      SlotKnown(i, 0);
      n1 := State();
      EvolvesRefl(config, n1, {});
      if ok && !old(slots[i][j].route).Expired(now) {
        RemeasuredUsable(config, n0, p, j, cost, add, k.change, ok, n1);
      }
      if changed {
        ghost var moved, m, b := RouteChanged(i, j, k);
        EvolvesTrans(config, n0, n1, State(), {});
      }
    }

    /** route_smoothed_metric on the route at a place. */
    method Resmoothed(i: nat, j: nat) returns (s: u16)
      requires Sane() && i < |slots| && j < |slots[i]|
      modifies this`slots
      ensures Sane() && State() == old(State()) && OnlySlot(i)
      ensures |slots[i]| == old(|slots[i]|) && slots[i][j] == Entry(old(slots[i][j].route), s, now)
      ensures Destination(slots[i]) == Destination(old(slots[i]))
    {
      hide Good, Bodies, Ascending, TableOf;
      SlotKnown(i, j);
      var l;
      l, s := SmoothEntry(slots[i], j, now, halfLife);
      Resmooth(i, l);
      SlotKnown(i, j);
    }

    /** Retracting an expired route, under a sequence number of its own. */
    method Expire(i: nat, j: nat, kernel: bool) returns (ok: bool)
      requires Valid() && i < |slots| && j < |slots[i]| && slots[i][j].route.Expired(now)
      modifies this`slots
      ensures Valid() && OnlySlot(i) && |slots[i]| == old(|slots[i]|)
      ensures slots[i] != [] && Destination(slots[i]) == Destination(old(slots[i]))
      ensures ok <==> kernel || !old(slots[i][j].route.installed) || old(slots[i][j].route.Metric()) == INFINITY
      ensures var e := if ok then RouteExpired(Destination(old(slots[i])), j)
              else HalfExpired(Destination(old(slots[i])), j);
              Can(config, old(State()), e) && State() == Apply(config, old(State()), e)
      ensures slots[i][j].route.installed == old(slots[i][j].route.installed)
      ensures slots[i][j].route.Metric() == if ok then INFINITY else old(slots[i][j].route.Metric())
    {
      hide Good, Bodies, Ascending, TableOf, Distinct, RefCount, Smooths;
      SlotKnown(i, j);
      ghost var srcs, bs, before := sources, Bodies(State()), Body(slots[i][j].route);
      var e := slots[i][j];
      var seqno := SeqnoPlus(sources[e.route.src].source.dist.seqno, 1);
      e, ok := NewMetric(e.(route := e.route.(dist := Dist(seqno, e.route.dist.metric))), INFINITY, INFINITY, 0,
                         now, halfLife, kernel);
      Put(i, j, e);
      SlotKnown(i, j);
      CountsExchange(srcs, bs, before, Body(e.route));
    }

    /** A new link cost or filter result for a route. */
    method Recost(i: nat, j: nat, cost: u16, add: u16, kernel: bool) returns (ok: bool)
      requires Valid() && i < |slots| && j < |slots[i]|
      modifies this`slots
      ensures Valid() && OnlySlot(i) && |slots[i]| == old(|slots[i]|)
      ensures slots[i] != [] && Destination(slots[i]) == Destination(old(slots[i]))
      ensures ok <==> kernel || !old(slots[i][j].route.installed) ||
                      old(slots[i][j].route.Metric()) == old(slots[i][j].route).(cost := cost, add := add).Metric()
      ensures !ok ==> State() == old(State()) && slots == old(slots)
      ensures Can(config, old(State()), Remetric(Destination(old(slots[i])), j, cost, add))
      ensures ok ==> State() == Apply(config, old(State()), Remetric(Destination(old(slots[i])), j, cost, add))
      ensures ok ==> slots[i][j].route == old(slots[i][j].route).(cost := cost, add := add)
    {
      hide Good, Bodies, Ascending, TableOf, Distinct, RefCount, Smooths;
      SlotKnown(i, j);
      ghost var srcs, bs, before := sources, Bodies(State()), Body(slots[i][j].route);
      var e;
      e, ok := NewMetric(slots[i][j], slots[i][j].route.dist.metric, cost, add, now, halfLife, kernel);
      if ok {
        Put(i, j, e);
        SlotKnown(i, j);
        CountsExchange(srcs, bs, before, Body(e.route));
      }
    }

    // ---- Flushing routes ----

    /** Unlinks a route that is not installed, and its slot with it when the list becomes empty. */
    method Unlink(i: nat, j: nat)
      requires Sane() && i < |slots| && j < |slots[i]|
      modifies this`slots, this`maxSlots
      ensures Sane()
      ensures i <= |slots| <= old(|slots|) && forall k | 0 <= k < i :: slots[k] == old(slots[k])
      ensures Can(config, old(State()), Removed(Destination(old(slots[i])), j))
      ensures State() == Apply(config, old(State()), Removed(Destination(old(slots[i])), j))
      ensures Bodies(State()) == old(Bodies(State()) - {Body(slots[i][j].route)})
      ensures old(Body(slots[i][j].route) in Bodies(State()))
    {
      hide Good, Bodies, Ascending, TableOf, Dropped;
      SlotKnown(i, j);
      ghost var n, p := State(), Destination(slots[i]);
      var l := slots[i][..j] + slots[i][j + 1..];
      assert Routes(l) == n.Slot(p)[..j] + n.Slot(p)[j + 1..];
      RemovedBodies(config, n, p, j);
      StepKeepsGood(config, n, Removed(p, j));
      if l == [] {
        DropSlot(slots, i);
        forall k | 0 <= k < i ensures Dropped(slots, i)[k] == slots[k] {
          DroppedAt(slots, i, k);
        }
        slots := Dropped(slots, i);
      } else {
        SetSlot(slots, i, l);
        slots := slots[i := l];
      }
      if j == 0 {
        if |slots| == 0 {
          maxSlots := 0;
        } else if maxSlots > 8 && |slots| < maxSlots / 4 {
          maxSlots := maxSlots / 2;
        }
      }
    }

    /**
     flush_route: the route goes away and no other does; if it was installed, the best feasible route to
     the destination takes its place.
     */
    method FlushRoute(i: nat, j: nat, kernel: bool)
      requires Valid() && i < |slots| && j < |slots[i]|
      modifies this`slots, this`maxSlots, this`sources
      ensures Valid() && Evolves(config, old(State()), State(), {})
      ensures SourceView(sources) == old(SourceView(sources))
      ensures Bodies(State()) == old(Bodies(State()) - {Body(slots[i][j].route)})
      ensures old(Body(slots[i][j].route) in Bodies(State()))
      ensures kernel ==> forall p | Served(old(State()), p) :: Served(State(), p)
      ensures i <= |slots| <= old(|slots|) && forall k | 0 <= k < i :: slots[k] == old(slots[k])
    {
      hide Good, Bodies, Ascending, TableOf, Runs, Evolves, RefCount, Dropped, Served;
      SlotKnown(i, j);
      ghost var n0, p, srcs, bs := State(), Destination(slots[i]), sources, Bodies(State());
      ghost var gone := Body(slots[i][j].route);
      EvolvesRefl(config, n0, {});
      var src, lost := slots[i][j].route.src, slots[i][j].route.installed;
      if lost {
        UninstallRoute(i);
        EvolvesThen(config, n0, n0, Uninstalled(p), {});
      }
      ghost var n1 := State();
      Unlink(i, j);
      EvolvesThen(config, n0, n1, Removed(p, j), {});
      CountsRemove(srcs, bs, gone);
      ghost var n2 := State();
      assert forall k | 0 <= k < i :: Destination(slots[k]) != p;
      if lost {
        ghost var q := RouteLost(src.prefix, kernel);
        EvolvesTrans(config, n0, n2, State(), {});
      }
      ReleaseSource(src);
      if kernel {
        forall q | Served(n0, q) ensures Served(State(), q) {
          FlushServes(n0, n1, n2, p, j, q, lost);
        }
      }
    }

    /** What is served before a flush is served after it, the replacement included. */
    lemma FlushServes(n0: Node, n1: Node, n2: Node, p: Prefix, j: nat, q: Prefix, lost: bool)
      requires Shaped() && Good(config, n0) && j < |n0.Slot(p)| && lost == n0.Slot(p)[j].installed && Served(n0, q)
      requires n1 == (if lost then n0.WithSlot(p, Demote(n0.Slot(p))) else n0) && j < |n1.Slot(p)|
      requires n2 == Apply(config, n1, Removed(p, j))
      requires lost ==> Served(State(), p) && SameElsewhere(n2, State(), p)
      requires !lost ==> State() == n2
      ensures Served(State(), q)
    {
      hide Good;
      if !lost {
        RemovedServes(config, n0, p, j, q);
      } else if q != p {
        assert State().Slot(q) == n0.Slot(q);
      }
    }

    /**
     flush_neighbour_routes and flush_interface_routes.  Although each flush shifts the slots and may
     reorder a list, the loop ends, no matching route remains and every other route does.
     */
    method FlushMatching(m: Match, kernel: nat -> bool)
      requires Valid()
      modifies this`slots, this`maxSlots, this`sources
      ensures Valid() && Evolves(config, old(State()), State(), {})
      ensures Bodies(State()) == set b | b in old(Bodies(State())) && !Matches(m, b)
      ensures SourceView(sources) == old(SourceView(sources))
      ensures (forall n :: kernel(n)) ==> forall p | Served(old(State()), p) :: Served(State(), p)
    {
      hide Good, Bodies, Ascending, TableOf, Runs, Evolves, RefCount, Distinct, Served;
      EvolvesRefl(config, State(), {});
      var i, asked := 0, 0;
      while i < |slots|
        invariant SourceView(sources) == old(SourceView(sources))
        invariant Valid()
        invariant (forall n :: kernel(n)) ==> forall p | Served(old(State()), p) :: Served(State(), p)
        invariant i <= |slots| && Evolves(config, old(State()), State(), {})
        invariant Bodies(State()) <= old(Bodies(State()))
        invariant forall b | b in old(Bodies(State())) && !Matches(m, b) :: b in Bodies(State())
        invariant forall k | 0 <= k < i :: NoMatch(m, slots[k])
        decreases |Bodies(State())|, |slots| - i
      {
        var j := 0;
        while j < |slots[i]| && !Matches(m, slots[i][j].route)
          invariant j <= |slots[i]| && forall k | 0 <= k < j :: !Matches(m, slots[i][k].route)
        {
          j := j + 1;
        }
        if j < |slots[i]| {
          ghost var n := State();
          FlushRoute(i, j, kernel(asked));
          asked := asked + 1;
          EvolvesTrans(config, old(State()), n, State(), {});
        } else {
          i := i + 1;
        }
      }
      forall b | b in Bodies(State()) ensures !Matches(m, b) {
        PlaceOf(b, m);
      }
    }

    lemma PlaceOf(b: Route, m: Match)
      requires Sane() && b in Bodies(State()) && forall k | 0 <= k < |slots| :: NoMatch(m, slots[k])
      ensures !Matches(m, b)
    {
      BodyHasPlace(config, State(), b);
      var i := TableHas(slots, b.src.prefix);
      var j :| 0 <= j < |State().Slot(b.src.prefix)| && Body(State().Slot(b.src.prefix)[j]) == b;
      assert State().Slot(b.src.prefix) == Routes(slots[i]);
      assert NoMatch(m, slots[i]) && slots[i][j].route == Routes(slots[i])[j];
    }

    method FlushNeighbourRoutes(neigh: Neighbour, kernel: nat -> bool)
      requires Valid()
      modifies this`slots, this`maxSlots, this`sources
      ensures Valid() && Evolves(config, old(State()), State(), {})
      ensures Bodies(State()) == set b | b in old(Bodies(State())) && b.neigh != neigh
      ensures SourceView(sources) == old(SourceView(sources))
      ensures (forall n :: kernel(n)) ==> forall p | Served(old(State()), p) :: Served(State(), p)
    {
      FlushMatching(ByNeighbour(neigh), kernel);
    }

    method FlushInterfaceRoutes(ifindex: nat, v4only: bool, kernel: nat -> bool)
      requires Valid()
      modifies this`slots, this`maxSlots, this`sources
      ensures Valid() && Evolves(config, old(State()), State(), {})
      ensures Bodies(State()) ==
              set b | b in old(Bodies(State())) && !(b.neigh.ifindex == ifindex && (v4only ==> V4Mapped(b.nexthop)))
      ensures SourceView(sources) == old(SourceView(sources))
      ensures (forall n :: kernel(n)) ==> forall p | Served(old(State()), p) :: Served(State(), p)
    {
      FlushMatching(ByInterface(ifindex, v4only), kernel);
    }

    /** Uninstalls the front of a slot first, so that flushing it asks for no replacement. */
    method FlushFront(i: nat)
      requires Valid() && i < |slots|
      modifies this`slots, this`maxSlots, this`sources
      ensures Valid() && Evolves(config, old(State()), State(), {})
      ensures |slots| <= old(|slots|) && |Bodies(State())| < |old(Bodies(State()))|
    {
      hide Good, Bodies, Ascending, TableOf, Runs, Evolves, RefCount;
      ghost var n0, bs := State(), Bodies(State());
      SlotKnown(i, 0);
      EvolvesRefl(config, n0, {});
      if slots[i][0].route.installed {
        UninstallRoute(i);
        EvolvesThen(config, n0, n0, Uninstalled(Destination(old(slots[i]))), {});
      }
      ghost var n1, b := State(), Body(slots[i][0].route);
      FlushRoute(i, 0, false);
      EvolvesTrans(config, n0, n1, State(), {});
      assert b in bs && Bodies(State()) == bs - {b};
    }

    lemma AllReleased()
      requires Valid() && slots == []
      ensures Bodies(State()) == {} && forall k | k in sources :: sources[k].routeCount == 0
    {
      assert Bodies(State()) == {};
      forall k | k in sources ensures sources[k].routeCount == 0 {
        assert (set b | b in Bodies(State()) && b.src == k) == {};
      }
    }

    /** flush_all_routes: from the last slot down; nothing is left and every source is released. */
    method FlushAllRoutes()
      requires Valid()
      modifies this`slots, this`maxSlots, this`sources
      ensures Valid() && Evolves(config, old(State()), State(), {})
      ensures slots == [] && Bodies(State()) == {} && forall k | k in sources :: sources[k].routeCount == 0
    {
      hide Good, Bodies, Ascending, TableOf, Distinct, Runs, Evolves, RefCount;
      EvolvesRefl(config, State(), {});
      var i := |slots| - 1;
      while i >= 0
        invariant Valid() && -1 <= i && |slots| <= i + 1 && Evolves(config, old(State()), State(), {})
      {
        while i < |slots|
          invariant Valid() && |slots| <= i + 1 && Evolves(config, old(State()), State(), {})
          decreases |Bodies(State())|
        {
          ghost var n := State();
          FlushFront(i);
          EvolvesTrans(config, old(State()), n, State(), {});
        }
        i := i - 1;
      }
      AllReleased();
    }


    // ---- Redistributed routes ----

    /** add_xroute: a better metric replaces what is there, a new destination is appended. */
    method AddXroute(x: Xroute) returns (changed: bool)
      requires XroutesDistinct(xroutes) && |xroutes| <= maxXroutes
      modifies this`xroutes, this`maxXroutes
      ensures XroutesDistinct(xroutes) && |xroutes| <= maxXroutes
      ensures changed ==> x in xroutes && XroutePrefixes(xroutes) == old(XroutePrefixes(xroutes)) + {x.prefix}
      ensures !changed ==> xroutes == old(xroutes)
      ensures !changed <==> exists y :: y in old(xroutes) && y.prefix == x.prefix && y.metric <= x.metric
      ensures forall y | y in old(xroutes) && y.prefix != x.prefix :: y in xroutes
    {
      var i := FindXroute(x.prefix);
      if i >= 0 {
        if xroutes[i].metric <= x.metric {
          assert xroutes[i] in xroutes;
          return false;
        }
        xroutes := xroutes[i := x];
        assert xroutes[i] == x;
        forall y | y in old(xroutes) && y.prefix != x.prefix ensures y in xroutes {
          var k :| 0 <= k < |xroutes| && old(xroutes)[k] == y;
          assert xroutes[k] == y;
        }
        XroutesReplaced(old(xroutes), i, x);
        return true;
      }
      if |xroutes| >= maxXroutes {
        maxXroutes := if maxXroutes < 1 then 8 else 2 * maxXroutes;
      }
      XroutesAppended(xroutes, x);
      xroutes := xroutes + [x];
      changed := true;
    }

    /** xroute_add_new_route, given the metric that the redistribution filter allows. */
    method XrouteAddNewRoute(x: Xroute) returns (changed: bool)
      requires Valid()
      modifies this`slots, this`xroutes, this`maxXroutes
      ensures Valid() && Evolves(config, old(State()), State(), {})
      ensures !changed <==> || MartianPrefix(x.prefix) || x.metric >= INFINITY
                            || exists y :: y in old(xroutes) && y.prefix == x.prefix && y.metric <= x.metric
      ensures !changed ==> slots == old(slots) && xroutes == old(xroutes)
      ensures forall y | y in old(xroutes) && y.prefix != x.prefix :: y in xroutes
      ensures XroutePrefixes(xroutes) == old(XroutePrefixes(xroutes)) + if changed then {x.prefix} else {}
      ensures changed ==> x in xroutes && forall r | r in State().Slot(x.prefix) :: !r.installed
      ensures Bodies(State()) == old(Bodies(State()))
    {
      hide Good, Bodies, Ascending, TableOf, Runs, Evolves, RefCount;
      ghost var n0 := State();
      var p := x.prefix;
      EvolvesRefl(config, n0, {});
      changed := false;
      if MartianPrefix(p) || x.metric >= INFINITY {
        return;
      }
      changed := AddXroute(x);
      if !changed {
        return;
      }
      var i := FindInstalledRoute(p);
      ghost var n1 := n0;
      if i >= 0 {
        n1 := Apply(config, n0, Uninstalled(p));
        EvolvesThen(config, n0, n0, Uninstalled(p), {});
        FlagsKeepBodies(config, n0, Uninstalled(p));
        var l := slots[i][0 := slots[i][0].(route := Body(slots[i][0].route))];
        assert Routes(l) == Demote(n0.Slot(p));
        SetSlot(slots, i, l);
        slots := slots[i := l];
      }
      assert State() == Apply(config, n1, XrouteSet(p));
      EvolvesThen(config, n0, n1, XrouteSet(p), {});
      EvolvesKeepsGood(config, n0, State(), {});
      XrouteKeepsBodies(config, n1, p);
      GoodSlot(config, State(), p);
    }

    /** flush_xroute: the last entry moves into the place of the one removed. */
    method FlushXroute(i: nat)
      requires Valid() && i < |xroutes|
      modifies this`xroutes, this`maxXroutes
      ensures Valid() && xroutes == SwapRemove(old(xroutes), i)
      ensures State() == Apply(config, old(State()), XrouteGone(old(xroutes[i].prefix)))
    {
      hide Good, Bodies, TableOf;
      ghost var n := State();
      SwapRemoved(xroutes, i);
      xroutes := SwapRemove(xroutes, i);
      if |xroutes| == 0 {
        maxXroutes := 0;
      } else if maxXroutes > 8 && |xroutes| < maxXroutes / 4 {
        maxXroutes := maxXroutes / 2;
      }
      StepKeepsGood(config, n, XrouteGone(old(xroutes[i].prefix)));
      XrouteGoneKeepsBodies(config, n, old(xroutes[i].prefix));
    }

    /** flush_xroutes_by_type: exactly the entries of that family and type go. */
    method FlushXroutesByType(v4: bool, proto: int)
      requires Valid()
      modifies this`xroutes, this`maxXroutes
      ensures Valid() && Evolves(config, old(State()), State(), {})
      ensures forall x :: x in xroutes <==> x in old(xroutes) && !OfType(x, v4, proto)
    {
      hide Good, Bodies, TableOf, Runs, Evolves, SwapRemove;
      EvolvesRefl(config, State(), {});
      var i := 0;
      while i < |xroutes|
        invariant Valid() && i <= |xroutes| && Evolves(config, old(State()), State(), {})
        invariant forall k | 0 <= k < i :: !OfType(xroutes[k], v4, proto)
        invariant forall x | x in xroutes :: x in old(xroutes)
        invariant forall x | x in old(xroutes) && !OfType(x, v4, proto) :: x in xroutes
        decreases |xroutes| - i
      {
        if OfType(xroutes[i], v4, proto) {
          ghost var n, p := State(), xroutes[i].prefix;
          SwapRemoved(xroutes, i);
          FlushXroute(i);
          EvolvesThen(config, old(State()), n, XrouteGone(p), {});
        } else {
          i := i + 1;
        }
      }
    }

    // ---- Sources over time ----

    /** expire_sources: stale entries go, except those that a route still uses. */
    method ExpireSources()
      requires Valid()
      modifies this`sources
      ensures Valid() && Evolves(config, old(State()), State(), {})
      ensures sources == map k | k in old(sources) && !Stale(old(sources)[k], now) ::
                           old(sources)[k].(source := Clamped(old(sources)[k].source, now))
      ensures forall b | b in Bodies(State()) :: b.src in sources
    {
      hide Good, Bodies, TableOf, Ascending, Distinct, Runs, Evolves;
      ghost var n, was, bs := State(), sources, Bodies(State());
      sources := WalkSources(sources, now);
      ghost var dead := set k | k in was && Stale(was[k], now);
      assert SourceView(sources) == Apply(config, n, SourcesExpired(dead)).sources;
      EvolvesOne(config, n, SourcesExpired(dead), {});
      StepKeepsGood(config, n, SourcesExpired(dead));
      SourcesKeepBodies(n, State());
      forall b | b in bs ensures b.src in sources {
        CountRemove(bs, b, b.src);
      }
    }

    /** update_source for the route being announced from slot i. */
    method UpdateSource(i: nat, d: Dist, ghost f: Factor, ghost outAdd: nat)
      requires Valid() && i < |slots| && slots[i][0].route.installed
      requires d == Dist(slots[i][0].route.dist.seqno, AdvertisedMetric(slots[i][0].route, f))
      modifies this`sources
      ensures Valid()
      ensures Can(config, old(State()), Advertised(Destination(slots[i]), f, outAdd))
      ensures State() == Apply(config, old(State()), Advertised(Destination(slots[i]), f, outAdd))
    {
      hide Good, Bodies, TableOf, Ascending, RefCount, UpdatedSource;
      ghost var n, e := State(), Advertised(Destination(slots[i]), f, outAdd);
      SlotKnown(i, 0);
      var k := slots[i][0].route.src;
      sources := sources[k := sources[k].(source := UpdatedSource(sources[k].source, now, d))];
      assert SourceView(sources) == Apply(config, n, e).sources;
      SourcesKeepBodies(n, State());
      StepKeepsGood(config, n, e);
    }

    /**
     What flushupdates does for one buffered destination: announce the redistributed route as our own, or
     the installed route together with the new feasibility distance, or a retraction.  Split horizon keeps quiet
     about a route heard on the same interface; the output filter raises a metric or denies the destination.
     */
    method FlushUpdate(p: Prefix, myseqno: u16, kernelMetric: u16, f: Factor, split: bool, filter: nat)
      returns (said: Announcement, ghost e: Event)
      requires Valid()
      modifies this`sources
      ensures Valid()
      ensures forall x | x in xroutes && x.prefix == p ::
                State() == old(State()) &&
                    said == Filtered(Announcement(config.myid, p, Dist(myseqno, x.metric)), filter)
      ensures p !in XroutePrefixes(xroutes) && !old(HasInstalled(p)) ==>
                State() == old(State()) && said == Announcement(config.myid, p, Dist(myseqno, INFINITY))
      ensures p !in XroutePrefixes(xroutes) && old(HasInstalled(p)) && split ==>
                State() == old(State()) && said == Silence
      ensures p !in XroutePrefixes(xroutes) && old(HasInstalled(p)) && !split ==>
                var r := old(State()).Slot(p)[0];
                && e == Advertised(p, f, if filter < INFINITY then filter else 0)
                && Can(config, old(State()), e) && State() == Apply(config, old(State()), e)
                && said == Filtered(Announcement(r.src.id, p, Dist(r.dist.seqno, AdvertisedMetric(r, f))), filter)
      ensures said.Announcement? ==>
                && said.prefix == p && Can(config, old(State()), e)
                && said == Announced(config, old(State()), e) && State() == Apply(config, old(State()), e)
    {
      hide Good, Bodies, TableOf, Ascending, RefCount, Can, Apply, Announced;
      ghost var n := State();
      var x := FindXroute(p);
      var i := FindInstalledRoute(p);
      if x >= 0 && (i < 0 || xroutes[x].metric <= kernelMetric) {
        said := Filtered(Announcement(config.myid, p, Dist(myseqno, xroutes[x].metric)), filter);
        e := SelfAdvertised(p, if said.Announcement? then said.dist else Dist(myseqno, xroutes[x].metric));
        SelfAdvertisedIs(config, n, p, e.dist);
      } else if i >= 0 {
        SlotKnown(i, 0);
        var r := slots[i][0].route;
        e := Advertised(p, f, if filter < INFINITY then filter else 0);
        if split {
          said := Silence;
          return;
        }
        said := Filtered(Announcement(r.src.id, p, Dist(r.dist.seqno, AdvertisedMetric(r, f))), filter);
        UpdateSource(i, Dist(r.dist.seqno, AdvertisedMetric(r, f)), f, if filter < INFINITY then filter else 0);
        AdvertisedIs(config, n, p, f, if filter < INFINITY then filter else 0);
      } else {
        said := Announcement(config.myid, p, Dist(myseqno, INFINITY));
        e := SelfAdvertised(p, said.dist);
        SelfAdvertisedIs(config, n, p, e.dist);
      }
    }
  }

  lemma AboveAll(slots: seq<seq<Entry>>, m: nat, p: Prefix)
    requires Distinct(slots) && Ascending(slots) && m < |slots|
    requires PrefixCompare(p, Destination(slots[m])) < 0
    ensures forall k | m <= k < |slots| :: PrefixCompare(p, Destination(slots[k])) < 0
  {
    forall k | m < k < |slots|
      ensures PrefixCompare(p, Destination(slots[k])) < 0
    {
      PrefixCompareTransitive(p, Destination(slots[m]), Destination(slots[k]));
    }
  }

  lemma BelowAll(slots: seq<seq<Entry>>, m: nat, p: Prefix)
    requires Distinct(slots) && Ascending(slots) && m < |slots|
    requires PrefixCompare(Destination(slots[m]), p) < 0
    ensures forall k | 0 <= k <= m :: PrefixCompare(Destination(slots[k]), p) < 0
  {
    forall k | 0 <= k < m
      ensures PrefixCompare(Destination(slots[k]), p) < 0
    {
      PrefixCompareTransitive(Destination(slots[k]), Destination(slots[m]), p);
    }
  }
}
