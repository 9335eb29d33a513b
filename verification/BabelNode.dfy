/**
 One Babel router as the protocol sees it: for every destination a list of routes with the installed
 one, if any, in front; for every (router id, destination) a feasibility distance; and the
 redistributed destinations.  Metric smoothing only chooses among routes and is not part of this state.
 */
module BabelNode {
  import opened Bytes
  import opened Seqno

  const SOURCE_GC_TIME := 200

  datatype Neighbour = Neighbour(ifindex: nat, address: Addr)
  datatype SourceKey = SourceKey(id: RouterId, prefix: Prefix)
  datatype Source = Source(dist: Dist, time: int)

  datatype Route = Route(src: SourceKey, dist: Dist, cost: u16, add: u16, neigh: Neighbour, nexthop: Addr,
                         time: int, holdTime: u16, installed: bool) {
    /** route_metric: the announced metric plus the cost of the link, capped. */
    function Metric(): (m: u16)
      ensures m >= dist.metric
    {
      var m := dist.metric + cost + add;
      if m <= INFINITY then m else INFINITY
    }

    /** route_metric_noninterfering: the link may be discounted, but never below one. */
    function MetricNoninterfering(factor: nat): (m: u16)
      ensures m >= dist.metric
    {
      var m := dist.metric + (factor * cost + 128) / 256 + add;
      var m' := if m <= dist.metric + 1 then dist.metric + 1 else m;
      if m' <= INFINITY then m' else INFINITY
    }

    predicate Expired(now: int) {
      time < now - holdTime
    }

    function Key(): (Neighbour, Addr) {
      (neigh, nexthop)
    }
  }

  datatype Config = Config(myid: RouterId, keepUnfeasible: bool)

  /** An update as parse_packet hands it to update_route. */
  datatype Update = Update(id: RouterId, prefix: Prefix, dist: Dist, interval: u16,
                           neigh: Neighbour, nexthop: Addr)

  datatype Node = Node(now: int, table: map<Prefix, seq<Route>>, sources: map<SourceKey, Source>,
                       xroutes: set<Prefix>) {
    function Slot(p: Prefix): seq<Route> {
      if p in table then table[p] else []
    }

    /** The slots hold no empty list: a slot that becomes empty goes away. */
    function WithSlot(p: Prefix, l: seq<Route>): Node {
      this.(table := if l == [] then table - {p} else table[p := l])
    }
  }

  /** Position of the route through a neighbour and next hop, or -1. */
  function Find(l: seq<Route>, key: (Neighbour, Addr)): (j: int)
    ensures -1 <= j < |l|
    ensures j >= 0 ==> l[j].Key() == key
    ensures j < 0 ==> forall i | 0 <= i < |l| :: l[i].Key() != key
  {
    if l == [] then -1
    else if l[0].Key() == key then 0
    else
      var j := Find(l[1..], key);
      assert forall i | 1 <= i < |l| :: l[i] == l[1..][i - 1];
      if j < 0 then -1 else j + 1
  }

  /** update_feasible for a source that exists. */
  predicate Feasible(s: Source, now: int, d: Dist) {
    s.time < now - SOURCE_GC_TIME || d.metric >= INFINITY || Before(d, s.dist)
  }

  predicate RouteFeasible(n: Node, r: Route) {
    r.src in n.sources && Feasible(n.sources[r.src], n.now, r.dist)
  }

  /** update_source. */
  function UpdatedSource(s: Source, now: int, d: Dist): Source {
    if d.metric >= INFINITY then s
    else
      Source(if s.time < now - SOURCE_GC_TIME || SeqnoCompare(s.dist.seqno, d.seqno) < 0 ||
                (s.dist.seqno == d.seqno && s.dist.metric > d.metric) then d else s.dist,
             now)
  }

  /** expire_sources guards against a clock that was stepped back. */
  function Clamped(s: Source, now: int): Source {
    if s.time > now then s.(time := now) else s
  }

  /** find_source with creation: a new entry knows the seqno and no metric. */
  function WithSource(n: Node, k: SourceKey, seqno: u16): Node {
    if k in n.sources then n else n.(sources := n.sources[k := Source(Dist(seqno, INFINITY), n.now)])
  }

  function HoldTime(interval: u16): u16 {
    var h := 4 * interval / 100 + interval / 50;
    if h <= 15 then 15 else h
  }

  /** The fields update_route writes into a route it already has. */
  function Refreshed(c: Config, now: int, r: Route, u: Update, feasible: bool, cost: u16, add: u16): Route {
    r.(src := SourceKey(u.id, u.prefix), dist := u.dist, cost := cost, add := add,
       time := if (feasible || c.keepUnfeasible) && u.dist.metric < INFINITY then now else r.time,
       holdTime := HoldTime(u.interval), installed := r.installed && feasible)
  }

  function NewRoute(now: int, u: Update, cost: u16, add: u16): Route {
    Route(SourceKey(u.id, u.prefix), u.dist, cost, add, u.neigh, u.nexthop, now, HoldTime(u.interval), false)
  }

  predicate Rejected(c: Config, u: Update, add: u16) {
    u.id == c.myid || MartianPrefix(u.prefix) || add >= INFINITY
  }

  /** What update_route does to the tables before it reconsiders which route to use. */
  function Hear(c: Config, n: Node, u: Update, cost: u16, add: u16): Node {
    if Rejected(c, u, add) then n
    else
      var key := SourceKey(u.id, u.prefix);
      var n1 := WithSource(n, key, u.dist.seqno);
      var feasible := Feasible(n1.sources[key], n.now, u.dist);
      var l := n.Slot(u.prefix);
      var j := Find(l, (u.neigh, u.nexthop));
      if j >= 0 then
        if !feasible && l[j].installed && l[j].src == key then n1
        else n1.WithSlot(u.prefix, l[j := Refreshed(c, n.now, l[j], u, feasible, cost, add)])
      else if u.dist.metric >= INFINITY || (!feasible && !c.keepUnfeasible) then n1
      else n1.WithSlot(u.prefix, l + [NewRoute(n.now, u, cost, add)])
  }

  /** What a refused metric change leaves of an update: everything but the metric and the link. */
  function HalfRefreshed(now: int, r: Route, u: Update): Route {
    r.(src := SourceKey(u.id, u.prefix), dist := Dist(u.dist.seqno, r.dist.metric),
       time := if u.dist.metric < INFINITY then now else r.time, holdTime := HoldTime(u.interval))
  }

  /** The route an update is about, when it is installed and the update may be taken for it. */
  predicate CanHalfHear(c: Config, n: Node, u: Update) {
    var key, j := SourceKey(u.id, u.prefix), Find(n.Slot(u.prefix), (u.neigh, u.nexthop));
    && u.id != c.myid && j >= 0 && n.Slot(u.prefix)[j].installed
    && Feasible(WithSource(n, key, u.dist.seqno).sources[key], n.now, u.dist)
  }

  /** update_route when the kernel refuses the new metric of the installed route. */
  function HalfHear(c: Config, n: Node, u: Update): Node
    requires CanHalfHear(c, n, u)
  {
    var l := n.Slot(u.prefix);
    var j := Find(l, (u.neigh, u.nexthop));
    WithSource(n, SourceKey(u.id, u.prefix), u.dist.seqno).WithSlot(u.prefix, l[j := HalfRefreshed(n.now, l[j], u)])
  }

  /** The list with entry j installed and moved to the front, whatever was installed before. */
  function Promote(l: seq<Route>, j: nat): (l': seq<Route>)
    requires j < |l|
    ensures |l'| == |l|
  {
    var l1 := Demote(l);
    [l1[j].(installed := true)] + l1[..j] + l1[j + 1..]
  }

  /** The list with its front entry not installed. */
  function Demote(l: seq<Route>): (l': seq<Route>)
    ensures |l'| == |l|
  {
    if l == [] then [] else l[0 := l[0].(installed := false)]
  }

  /** One atomic change of a router's state. */
  datatype Event =
    | Heard(update: Update, heardCost: u16, heardAdd: u16)
    | Selected(prefix: Prefix, j: nat)
    | Uninstalled(prefix: Prefix)
    | Removed(prefix: Prefix, j: nat)
    | Remetric(prefix: Prefix, j: nat, cost: u16, add: u16)
    | RouteExpired(prefix: Prefix, j: nat)
    | Retracted(prefix: Prefix, j: nat)
    /** The kernel refused the metric of the update, or the retraction of the expired route. */
    | HalfHeard(half: Update)
    | HalfExpired(prefix: Prefix, j: nat)
    | Advertised(prefix: Prefix, factor: Factor, outAdd: nat)
    | XrouteSet(prefix: Prefix)
    | XrouteGone(prefix: Prefix)
    | SelfAdvertised(prefix: Prefix, dist: Dist)
    | SourcesExpired(dead: set<SourceKey>)
    | Ticked(now: int)

  /** The update the step takes, if it takes one, is in h. */
  predicate Hears(e: Event, h: set<Update>) {
    (e.Heard? ==> e.update in h) && (e.HalfHeard? ==> e.half in h)
  }

  datatype Factor = Interfering | Discount(factor: nat)

  function AdvertisedMetric(r: Route, f: Factor): (m: u16)
    ensures m >= r.dist.metric
  {
    match f
    case Interfering => r.Metric()
    case Discount(k) => r.MetricNoninterfering(k)
  }

  function Capped(m: nat): u16 {
    if m <= INFINITY then m else INFINITY
  }

  /** When the code takes the step: the conditions under which it reaches the corresponding statements. */
  predicate Can(c: Config, n: Node, e: Event) {
    match e
    case Heard(_, _, _) => true
    case Selected(p, j) =>
      j < |n.Slot(p)| && !n.Slot(p)[j].installed && RouteFeasible(n, n.Slot(p)[j]) && p !in n.xroutes
    case Uninstalled(p) => n.Slot(p) != [] && n.Slot(p)[0].installed
    case Removed(p, j) => j < |n.Slot(p)|
    case Remetric(p, j, _, _) => j < |n.Slot(p)|
    case RouteExpired(p, j) =>
      j < |n.Slot(p)| && n.Slot(p)[j].Expired(n.now) && n.Slot(p)[j].src in n.sources
    case Retracted(p, j) => j < |n.Slot(p)|
    case HalfHeard(u) => CanHalfHear(c, n, u)
    case HalfExpired(p, j) =>
      j < |n.Slot(p)| && n.Slot(p)[j].Expired(n.now) && n.Slot(p)[j].src in n.sources && n.Slot(p)[j].installed
    case Advertised(p, _, _) => n.Slot(p) != [] && n.Slot(p)[0].installed && n.Slot(p)[0].src in n.sources
    case XrouteSet(p) => n.Slot(p) == [] || !n.Slot(p)[0].installed
    case XrouteGone(p) => true
    case SelfAdvertised(_, _) => true
    case SourcesExpired(dead) =>
      forall k | k in dead :: k in n.sources && n.sources[k].time < n.now - SOURCE_GC_TIME
    case Ticked(now) => true
  }

  function Apply(c: Config, n: Node, e: Event): Node
    requires Can(c, n, e)
  {
    match e
    case Heard(u, cost, add) => Hear(c, n, u, cost, add)
    case Selected(p, j) => n.WithSlot(p, Promote(n.Slot(p), j))
    case Uninstalled(p) => n.WithSlot(p, Demote(n.Slot(p)))
    case Removed(p, j) => n.WithSlot(p, n.Slot(p)[..j] + n.Slot(p)[j + 1..])
    case Remetric(p, j, cost, add) =>
      n.WithSlot(p, n.Slot(p)[j := n.Slot(p)[j].(cost := cost, add := add)])
    case RouteExpired(p, j) =>
      var r := n.Slot(p)[j];
      n.WithSlot(p, n.Slot(p)[j := r.(dist := Dist(SeqnoPlus(n.sources[r.src].dist.seqno, 1), INFINITY),
                                      cost := INFINITY, add := 0)])
    case Retracted(p, j) =>
      var r := n.Slot(p)[j];
      n.WithSlot(p, n.Slot(p)[j := r.(dist := Dist(r.dist.seqno, INFINITY), cost := INFINITY, add := 0)])
    case HalfHeard(u) => HalfHear(c, n, u)
    case HalfExpired(p, j) =>
      var r := n.Slot(p)[j];
      n.WithSlot(p, n.Slot(p)[j := r.(dist := Dist(SeqnoPlus(n.sources[r.src].dist.seqno, 1), r.dist.metric))])
    case Advertised(p, f, _) =>
      var r := n.Slot(p)[0];
      n.(sources := n.sources[r.src := UpdatedSource(n.sources[r.src], n.now,
                                                     Dist(r.dist.seqno, AdvertisedMetric(r, f)))])
    case XrouteSet(p) => n.(xroutes := n.xroutes + {p})
    case XrouteGone(p) => n.(xroutes := n.xroutes - {p})
    case SelfAdvertised(_, _) => n
    case SourcesExpired(dead) => n.(sources := map k | k in n.sources && k !in dead :: Clamped(n.sources[k], n.now))
    case Ticked(now) => n.(now := now)
  }

  lemma SelectedIs(c: Config, n: Node, p: Prefix, j: nat)
    requires Can(c, n, Selected(p, j))
    ensures j < |n.Slot(p)| && Apply(c, n, Selected(p, j)) == n.WithSlot(p, Promote(n.Slot(p), j))
  {
  }

  /** What the step puts on the wire, if anything: router id, destination and distance. */
  datatype Announcement = Silence | Announcement(id: RouterId, prefix: Prefix, dist: Dist)

  function Announced(c: Config, n: Node, e: Event): Announcement
    requires Can(c, n, e)
  {
    match e
    case Advertised(p, f, outAdd) =>
      var r := n.Slot(p)[0];
      Announcement(r.src.id, p, Dist(r.dist.seqno, Capped(AdvertisedMetric(r, f) + outAdd)))
    case SelfAdvertised(p, d) => Announcement(c.myid, p, d)
    case _ => Silence
  }

  lemma SelfAdvertisedIs(c: Config, n: Node, p: Prefix, d: Dist)
    ensures var e := SelfAdvertised(p, d);
            Can(c, n, e) && Apply(c, n, e) == n && Announced(c, n, e) == Announcement(c.myid, p, d)
  {
  }

  lemma AdvertisedIs(c: Config, n: Node, p: Prefix, f: Factor, outAdd: nat)
    requires Can(c, n, Advertised(p, f, outAdd))
    ensures n.Slot(p) != []
    ensures var r := n.Slot(p)[0];
            Announced(c, n, Advertised(p, f, outAdd)) ==
            Announcement(r.src.id, p, Dist(r.dist.seqno, Capped(AdvertisedMetric(r, f) + outAdd)))
  {
  }

  // ---- Structure that every step keeps ----

  /** One list: one destination, no router id of ours, only the front installed, keys distinct. */
  ghost predicate GoodList(c: Config, p: Prefix, l: seq<Route>) {
    && (forall i | 0 <= i < |l| :: l[i].src.prefix == p && l[i].src.id != c.myid)
    && (forall i | 1 <= i < |l| :: !l[i].installed)
    && (forall i, j | 0 <= i < j < |l| :: l[i].Key() != l[j].Key())
  }

  ghost predicate Good(c: Config, n: Node) {
    && (forall p | p in n.table :: n.table[p] != [] && GoodList(c, p, n.table[p]))
    && (forall p | p in n.table :: n.table[p][0].installed ==> p !in n.xroutes)
  }

  lemma GoodSlot(c: Config, n: Node, p: Prefix)
    requires Good(c, n)
    ensures GoodList(c, p, n.Slot(p))
  {
  }

  lemma WithSlotGood(c: Config, n: Node, p: Prefix, l: seq<Route>)
    requires Good(c, n) && GoodList(c, p, l)
    requires l != [] && l[0].installed ==> p !in n.xroutes
    ensures Good(c, n.WithSlot(p, l))
  {
  }

  lemma PromoteGood(c: Config, p: Prefix, l: seq<Route>, j: nat)
    requires GoodList(c, p, l) && j < |l|
    ensures GoodList(c, p, Promote(l, j)) && Promote(l, j)[0].installed
  {
    hide Promote;
    var l' := Promote(l, j);
    forall i | 0 <= i < |l'|
      ensures var k := if i == 0 then j else if i <= j then i - 1 else i;
              l'[i].Key() == l[k].Key() && l'[i].src == l[k].src && (l'[i].installed ==> i == 0)
    {
      PromoteAt(c, p, l, j, i);
    }
    PromoteAt(c, p, l, j, 0);
  }

  lemma PromoteAt(c: Config, p: Prefix, l: seq<Route>, j: nat, i: nat)
    requires GoodList(c, p, l) && j < |l| && i < |l|
    ensures var k := if i == 0 then j else if i <= j then i - 1 else i;
            var r := Promote(l, j)[i];
            r.Key() == l[k].Key() && r.src == l[k].src && (r.installed <==> i == 0)
  {
  }

  /** Changing one route in place, without installing it, its key or its destination, keeps a list good. */
  lemma ReplaceGood(c: Config, p: Prefix, l: seq<Route>, j: nat, r: Route)
    requires GoodList(c, p, l) && j < |l|
    requires r.Key() == l[j].Key() && r.src.prefix == p && r.src.id != c.myid
    requires r.installed ==> l[j].installed
    ensures GoodList(c, p, l[j := r])
  {
  }

  lemma RemoveGood(c: Config, p: Prefix, l: seq<Route>, j: nat)
    requires GoodList(c, p, l) && j < |l|
    ensures GoodList(c, p, l[..j] + l[j + 1..])
    ensures l[..j] + l[j + 1..] != [] && (l[..j] + l[j + 1..])[0].installed ==> l[0].installed
  {
    var l' := l[..j] + l[j + 1..];
    assert forall i | 0 <= i < |l'| :: l'[i] == l[if i < j then i else i + 1];
  }

  /** Every step keeps the table well formed and never leaves a destination both installed and redistributed. */
  lemma StepKeepsGood(c: Config, n: Node, e: Event)
    requires Good(c, n) && Can(c, n, e)
    ensures Good(c, Apply(c, n, e))
  {
    match e
    case Heard(u, cost, add) => HearKeepsGood(c, n, u, cost, add);
    case Selected(p, j) => SelectKeepsGood(c, n, p, j);
    case Uninstalled(p) =>
      var l := n.Slot(p);
      ReplaceGood(c, p, l, 0, l[0].(installed := false));
      WithSlotGood(c, n, p, Demote(l));
    case Removed(p, j) =>
      RemoveGood(c, p, n.Slot(p), j);
      WithSlotGood(c, n, p, n.Slot(p)[..j] + n.Slot(p)[j + 1..]);
    case Remetric(p, j, cost, add) => EditKeepsGood(c, n, p, j, n.Slot(p)[j].(cost := cost, add := add));
    case RouteExpired(p, j) =>
      var r := n.Slot(p)[j];
      EditKeepsGood(c, n, p, j, r.(dist := Dist(SeqnoPlus(n.sources[r.src].dist.seqno, 1), INFINITY),
                                   cost := INFINITY, add := 0));
    case Retracted(p, j) =>
      var r := n.Slot(p)[j];
      EditKeepsGood(c, n, p, j, r.(dist := Dist(r.dist.seqno, INFINITY), cost := INFINITY, add := 0));
    case HalfHeard(u) =>
      var l, key := n.Slot(u.prefix), SourceKey(u.id, u.prefix);
      var j := Find(l, (u.neigh, u.nexthop));
      EditKeepsGood(c, WithSource(n, key, u.dist.seqno), u.prefix, j, HalfRefreshed(n.now, l[j], u));
    case HalfExpired(p, j) =>
      var r := n.Slot(p)[j];
      EditKeepsGood(c, n, p, j, r.(dist := Dist(SeqnoPlus(n.sources[r.src].dist.seqno, 1), r.dist.metric)));
    case XrouteGone(p) =>
    case _ =>
  }

  lemma EditKeepsGood(c: Config, n: Node, p: Prefix, j: nat, r: Route)
    requires Good(c, n) && j < |n.Slot(p)|
    requires r.Key() == n.Slot(p)[j].Key() && r.src.prefix == p && r.src.id != c.myid
    requires r.installed ==> n.Slot(p)[j].installed
    ensures Good(c, n.WithSlot(p, n.Slot(p)[j := r]))
  {
    ReplaceGood(c, p, n.Slot(p), j, r);
    WithSlotGood(c, n, p, n.Slot(p)[j := r]);
  }

  lemma SelectKeepsGood(c: Config, n: Node, p: Prefix, j: nat)
    requires Good(c, n) && Can(c, n, Selected(p, j))
    ensures Good(c, Apply(c, n, Selected(p, j)))
  {
    PromoteGood(c, p, n.Slot(p), j);
    WithSlotGood(c, n, p, Promote(n.Slot(p), j));
  }

  lemma AppendGood(c: Config, p: Prefix, l: seq<Route>, r: Route)
    requires GoodList(c, p, l)
    requires r.src.prefix == p && r.src.id != c.myid && !r.installed
    requires forall i | 0 <= i < |l| :: l[i].Key() != r.Key()
    ensures GoodList(c, p, l + [r])
  {
  }

  lemma HearKeepsGood(c: Config, n: Node, u: Update, cost: u16, add: u16)
    requires Good(c, n)
    ensures Good(c, Hear(c, n, u, cost, add))
  {
    if !Rejected(c, u, add) {
      var key := SourceKey(u.id, u.prefix);
      var n1 := WithSource(n, key, u.dist.seqno);
      var feasible := Feasible(n1.sources[key], n.now, u.dist);
      var l := n.Slot(u.prefix);
      var j := Find(l, (u.neigh, u.nexthop));
      if j >= 0 {
        EditKeepsGood(c, n1, u.prefix, j, Refreshed(c, n.now, l[j], u, feasible, cost, add));
      } else {
        AppendGood(c, u.prefix, l, NewRoute(n.now, u, cost, add));
        WithSlotGood(c, n1, u.prefix, l + [NewRoute(n.now, u, cost, add)]);
      }
    }
  }
}
