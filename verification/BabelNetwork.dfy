/**
 Loop freedom.  A network of Babel routers exchanges updates over a medium that may lose, duplicate,
 delay and reorder them.  Along every run, the installed routes towards one source never form a loop.
 */
module BabelNetwork {
  import opened Bytes
  import opened Seqno
  import opened BabelNode

  type NodeId = nat

  datatype Packet = Packet(sender: NodeId, id: RouterId, prefix: Prefix, dist: Dist)

  datatype World = World(nodes: map<NodeId, Node>, air: set<Packet>)

  /** Who the routers are, and which router is behind each neighbour of each router. */
  datatype Setting = Setting(config: map<NodeId, Config>, peer: map<(NodeId, Neighbour), NodeId>)

  datatype NetEvent = NodeDoes(who: NodeId, event: Event) | PacketLost(packet: Packet)

  /** The update is in the air, from the router behind the neighbour it names. */
  predicate OnItsWay(g: Setting, w: World, a: NodeId, u: Update) {
    (a, u.neigh) in g.peer && Packet(g.peer[(a, u.neigh)], u.id, u.prefix, u.dist) in w.air
  }

  ghost predicate WorldCan(g: Setting, w: World, ne: NetEvent) {
    match ne
    case NodeDoes(a, e) =>
      && a in w.nodes && a in g.config && Can(g.config[a], w.nodes[a], e)
      && (e.Heard? ==> OnItsWay(g, w, a, e.update)) && (e.HalfHeard? ==> OnItsWay(g, w, a, e.half))
    case PacketLost(_) => true
  }

  /** Hearing a packet leaves it in the air: it may be heard again, and by others. */
  ghost function WorldApply(g: Setting, w: World, ne: NetEvent): World
    requires WorldCan(g, w, ne)
  {
    match ne
    case NodeDoes(a, e) =>
      var said := Announced(g.config[a], w.nodes[a], e);
      World(w.nodes[a := Apply(g.config[a], w.nodes[a], e)],
            if said.Silence? then w.air else w.air + {Packet(a, said.id, said.prefix, said.dist)})
    case PacketLost(p) => w.(air := w.air - {p})
  }

  // ---- What the theorem assumes of a run, for the source in question ----

  /** No source entry for s has outlived SOURCE_GC_TIME. */
  ghost predicate Fresh(n: Node, s: SourceKey) {
    s in n.sources ==> n.sources[s].time >= n.now - SOURCE_GC_TIME
  }

  ghost predicate NodeInWindow(base: u16, n: Node, s: SourceKey) {
    && (s in n.sources ==> InWindow(base, n.sources[s].dist.seqno))
    && (forall i | 0 <= i < |n.Slot(s.prefix)| ::
          Carries(n.Slot(s.prefix)[i], s) ==> InWindow(base, n.Slot(s.prefix)[i].dist.seqno))
  }

  /** The live sequence numbers of s all lie in the half circle starting at base. */
  ghost predicate WorldInWindow(base: u16, w: World, s: SourceKey) {
    && (forall a | a in w.nodes :: NodeInWindow(base, w.nodes[a], s))
    && (forall p | p in w.air && About(p, s) :: InWindow(base, p.dist.seqno))
  }

  ghost predicate Assumed(base: u16, w: World, w': World, s: SourceKey) {
    && WorldInWindow(base, w, s) && WorldInWindow(base, w', s)
    && forall a | a in w.nodes :: Fresh(w.nodes[a], s)
  }

  /**
   A refused metric change does no harm: the metric kept is no better than the one announced, and still feasible.
   A refused retraction of an expired route does none only to a route that is unreachable anyway.
   */
  predicate NodeHarmless(n: Node, e: Event, s: SourceKey) {
    && (e.HalfHeard? && SourceKey(e.half.id, e.half.prefix) == s ==>
          var n1, j := WithSource(n, s, e.half.dist.seqno), Find(n.Slot(s.prefix), (e.half.neigh, e.half.nexthop));
          j >= 0 && n.Slot(s.prefix)[j].dist.metric < INFINITY ==>
            var kept := Dist(e.half.dist.seqno, n.Slot(s.prefix)[j].dist.metric);
            e.half.dist.metric <= kept.metric && Before(kept, n1.sources[s].dist))
    && (e.HalfExpired? && e.prefix == s.prefix && e.j < |n.Slot(s.prefix)| ==> !Carries(n.Slot(s.prefix)[e.j], s))
  }

  predicate Harmless(w: World, ne: NetEvent, s: SourceKey) {
    ne.NodeDoes? && ne.who in w.nodes ==> NodeHarmless(w.nodes[ne.who], ne.event, s)
  }

  // ---- The invariant ----

  /** A route that reaches s with a finite announced metric. */
  predicate Carries(r: Route, s: SourceKey) {
    r.src == s && r.dist.metric < INFINITY
  }

  predicate About(p: Packet, s: SourceKey) {
    p.id == s.id && p.prefix == s.prefix && p.dist.metric < INFINITY
  }

  /** The router forwards towards s along its front route. */
  predicate Uses(n: Node, s: SourceKey) {
    n.Slot(s.prefix) != [] && n.Slot(s.prefix)[0].installed && Carries(n.Slot(s.prefix)[0], s)
  }

  function Used(n: Node, s: SourceKey): Route
    requires Uses(n, s)
  {
    n.Slot(s.prefix)[0]
  }

  /** Router b stands behind d: its own feasibility distance is at least as good.  The origin of s is exempt. */
  ghost predicate Vouches(g: Setting, w: World, b: NodeId, s: SourceKey, d: Dist) {
    b in w.nodes && b in g.config && g.config[b].myid != s.id ==>
      s in w.nodes[b].sources && AtLeast(w.nodes[b].sources[s].dist, d)
  }

  ghost predicate RoutesVouched(g: Setting, w: World, a: NodeId, s: SourceKey)
    requires a in w.nodes
  {
    forall i | 0 <= i < |w.nodes[a].Slot(s.prefix)| ::
      var r := w.nodes[a].Slot(s.prefix)[i];
      Carries(r, s) && (a, r.neigh) in g.peer ==> Vouches(g, w, g.peer[(a, r.neigh)], s, r.dist)
  }

  /** A used route is at least as good as the router's own feasibility distance. */
  ghost predicate UseBounded(n: Node, s: SourceKey) {
    Uses(n, s) ==> s in n.sources && AtLeast(Used(n, s).dist, n.sources[s].dist)
  }

  /** a forwards to b. */
  ghost predicate Hop(g: Setting, w: World, s: SourceKey, a: NodeId, b: NodeId) {
    a in w.nodes && Uses(w.nodes[a], s) &&
    (a, Used(w.nodes[a], s).neigh) in g.peer && g.peer[(a, Used(w.nodes[a], s).neigh)] == b
  }

  ghost predicate HopAt(g: Setting, w: World, s: SourceKey, c: seq<NodeId>, i: nat)
    requires i + 1 < |c|
  {
    Hop(g, w, s, c[i], c[i + 1])
  }

  /** A path of hops, from its first node to its last. */
  ghost predicate Path(g: Setting, w: World, s: SourceKey, c: seq<NodeId>) {
    forall i: nat | i + 1 < |c| :: HopAt(g, w, s, c, i)
  }

  ghost predicate Loop(g: Setting, w: World, s: SourceKey, c: seq<NodeId>) {
    |c| >= 2 && c[0] == c[|c| - 1] && Path(g, w, s, c)
  }

  ghost predicate Inv(g: Setting, w: World, s: SourceKey) {
    && w.nodes.Keys <= g.config.Keys
    && (forall a | a in w.nodes :: Good(g.config[a], w.nodes[a]))
    && (forall a | a in w.nodes :: RoutesVouched(g, w, a, s))
    && (forall a | a in w.nodes :: UseBounded(w.nodes[a], s))
    && (forall p | p in w.air && About(p, s) :: Vouches(g, w, p.sender, s, p.dist))
    && (forall c :: !Loop(g, w, s, c))
  }

  // ---- What one router's step does to the distances of s ----

  /** The feasibility distance of s only ever improves. */
  lemma DistanceImproves(base: u16, c: Config, n: Node, e: Event, s: SourceKey)
    requires Can(c, n, e) && Fresh(n, s) && s in n.sources
    requires NodeInWindow(base, n, s) && NodeInWindow(base, Apply(c, n, e), s)
    ensures s in Apply(c, n, e).sources
    ensures AtLeast(Apply(c, n, e).sources[s].dist, n.sources[s].dist)
  {
    hide Promote, Demote, Find, Refreshed, NewRoute, AdvertisedMetric, Rejected, Before, Carries;
    var n' := Apply(c, n, e);
    if e.Advertised? && n.Slot(e.prefix)[0].src == s {
      CompareInWindow(base, n'.sources[s].dist.seqno, n.sources[s].dist.seqno);
    }
  }

  /** r' says about s what r said: the same distance through the same neighbour. */
  predicate SameClaim(r: Route, r': Route) {
    r.src == r'.src && r.dist == r'.dist && r.neigh == r'.neigh
  }

  ghost predicate ClaimIn(l: seq<Route>, r: Route) {
    exists j :: 0 <= j < |l| && SameClaim(l[j], r)
  }

  /** The update says it: the route claims no more than what the neighbour announced. */
  predicate Says(u: Update, s: SourceKey, r: Route) {
    && u.id == s.id && u.prefix == s.prefix && u.neigh == r.neigh
    && u.dist.seqno == r.dist.seqno && u.dist.metric <= r.dist.metric
  }

  predicate IsHeard(e: Event, s: SourceKey, r: Route) {
    (e.Heard? && Says(e.update, s, r)) || (e.HalfHeard? && Says(e.half, s, r))
  }

  lemma HeardRouteIsOldOrHeard(c: Config, n: Node, e: Event, s: SourceKey, i: nat)
    requires e.Heard?
    requires i < |Apply(c, n, e).Slot(s.prefix)| && Carries(Apply(c, n, e).Slot(s.prefix)[i], s)
    ensures ClaimIn(n.Slot(s.prefix), Apply(c, n, e).Slot(s.prefix)[i]) ||
            IsHeard(e, s, Apply(c, n, e).Slot(s.prefix)[i])
  {
    var l, l' := n.Slot(s.prefix), Hear(c, n, e.update, e.heardCost, e.heardAdd).Slot(s.prefix);
    if i < |l| && l'[i] == l[i] {
      assert SameClaim(l[i], l'[i]);
    } else {
      assert e.update.prefix == s.prefix && !Rejected(c, e.update, e.heardAdd);
    }
  }

  lemma HalfRouteIsOldOrHeard(c: Config, n: Node, e: Event, s: SourceKey, i: nat)
    requires (e.HalfHeard? || e.HalfExpired?) && Can(c, n, e) && NodeHarmless(n, e, s)
    requires i < |Apply(c, n, e).Slot(s.prefix)| && Carries(Apply(c, n, e).Slot(s.prefix)[i], s)
    ensures ClaimIn(n.Slot(s.prefix), Apply(c, n, e).Slot(s.prefix)[i]) ||
            IsHeard(e, s, Apply(c, n, e).Slot(s.prefix)[i])
  {
    var l, l' := n.Slot(s.prefix), Apply(c, n, e).Slot(s.prefix);
    if l'[i] == l[i] {
      assert SameClaim(l[i], l'[i]);
    }
  }

  /** Every finite route afterwards was there before, or is the update just heard. */
  lemma RoutesAreOldOrHeard(c: Config, n: Node, e: Event, s: SourceKey, i: nat)
    requires Can(c, n, e) && NodeHarmless(n, e, s)
    requires i < |Apply(c, n, e).Slot(s.prefix)| && Carries(Apply(c, n, e).Slot(s.prefix)[i], s)
    ensures ClaimIn(n.Slot(s.prefix), Apply(c, n, e).Slot(s.prefix)[i]) ||
            IsHeard(e, s, Apply(c, n, e).Slot(s.prefix)[i])
  {
    if e.Heard? {
      HeardRouteIsOldOrHeard(c, n, e, s, i);
    } else if e.HalfHeard? || e.HalfExpired? {
      HalfRouteIsOldOrHeard(c, n, e, s, i);
    } else {
      var l, l' := n.Slot(s.prefix), Apply(c, n, e).Slot(s.prefix);
      var k :=
        if e.Selected? && e.prefix == s.prefix then (if i == 0 then e.j else if i <= e.j then i - 1 else i)
        else if e.Removed? && e.prefix == s.prefix then (if i < e.j then i else i + 1)
        else i;
      assert SameClaim(l[k], l'[i]);
    }
  }

  /** Afterwards the router still uses what it used before, or it uses something strictly feasible. */
  lemma UseIsOldOrStrict(c: Config, n: Node, e: Event, s: SourceKey)
    requires Good(c, n) && Can(c, n, e) && NodeHarmless(n, e, s) && Fresh(n, s) && Uses(Apply(c, n, e), s)
    ensures var n' := Apply(c, n, e);
            || (Uses(n, s) && SameClaim(Used(n, s), Used(n', s)))
            || (s in n'.sources && Before(Used(n', s).dist, n'.sources[s].dist))
  {
    if e.Heard? {
      HeardUseIsOldOrStrict(c, n, e, s);
    } else if e.Selected? {
      SelectedUseIsOldOrStrict(c, n, e, s);
    } else if e.HalfHeard? || e.HalfExpired? {
      HalfUseIsOldOrStrict(c, n, e, s);
    } else {
      GoodSlot(c, n, s.prefix);
      var l, l' := n.Slot(s.prefix), Apply(c, n, e).Slot(s.prefix);
      if e.Removed? && e.prefix == s.prefix {
        assert l'[0] == l[if 0 < e.j then 0 else 1];
      } else {
        assert l' == l || SameClaim(l[0], l'[0]);
      }
    }
  }

  lemma SelectedUseIsOldOrStrict(c: Config, n: Node, e: Event, s: SourceKey)
    requires Good(c, n) && Fresh(n, s) && e.Selected? && Can(c, n, e) && Uses(Apply(c, n, e), s)
    ensures var n' := Apply(c, n, e);
            || (Uses(n, s) && SameClaim(Used(n, s), Used(n', s)))
            || (s in n'.sources && Before(Used(n', s).dist, n'.sources[s].dist))
  {
    if e.prefix == s.prefix {
      var l, l' := n.Slot(s.prefix), Promote(n.Slot(s.prefix), e.j);
      assert l'[0].dist == l[e.j].dist && l'[0].src == l[e.j].src;
    }
  }

  lemma HalfUseIsOldOrStrict(c: Config, n: Node, e: Event, s: SourceKey)
    requires Good(c, n) && Fresh(n, s) && (e.HalfHeard? || e.HalfExpired?) && Can(c, n, e) && NodeHarmless(n, e, s)
    requires Uses(Apply(c, n, e), s)
    ensures var n' := Apply(c, n, e);
            || (Uses(n, s) && SameClaim(Used(n, s), Used(n', s)))
            || (s in n'.sources && Before(Used(n', s).dist, n'.sources[s].dist))
  {
    hide HoldTime;
    GoodSlot(c, n, s.prefix);
    var l, l' := n.Slot(s.prefix), Apply(c, n, e).Slot(s.prefix);
    if l'[0] == l[0] {
      assert SameClaim(l[0], l'[0]);
    }
  }

  lemma HeardUseIsOldOrStrict(c: Config, n: Node, e: Event, s: SourceKey)
    requires Good(c, n) && Fresh(n, s) && e.Heard? && Uses(Apply(c, n, e), s)
    ensures var n' := Apply(c, n, e);
            || (Uses(n, s) && SameClaim(Used(n, s), Used(n', s)))
            || (s in n'.sources && Before(Used(n', s).dist, n'.sources[s].dist))
  {
    hide AtLeast, Before, HoldTime, MartianPrefix;
    GoodSlot(c, n, s.prefix);
    var l, l' := n.Slot(s.prefix), Hear(c, n, e.update, e.heardCost, e.heardAdd).Slot(s.prefix);
    if l' != l {
      assert e.update.prefix == s.prefix && !Rejected(c, e.update, e.heardAdd);
    }
  }

  /** A used route stays bounded by the distance, however the step moves either. */
  lemma UseStaysBounded(base: u16, c: Config, n: Node, e: Event, s: SourceKey)
    requires Good(c, n) && Can(c, n, e) && NodeHarmless(n, e, s) && Fresh(n, s) && UseBounded(n, s)
    requires NodeInWindow(base, n, s) && NodeInWindow(base, Apply(c, n, e), s)
    ensures UseBounded(Apply(c, n, e), s)
  {
    var n' := Apply(c, n, e);
    if Uses(n', s) {
      UseIsOldOrStrict(c, n, e, s);
      if !(s in n'.sources && Before(Used(n', s).dist, n'.sources[s].dist)) {
        DistanceImproves(base, c, n, e, s);
        assert n'.sources[s].dist == n.sources[s].dist || e.Advertised?;
      }
    }
  }

  /** Whatever a router announces about s, other than as its origin, it stands behind afterwards. */
  lemma AnnouncementVouched(base: u16, c: Config, n: Node, e: Event, s: SourceKey)
    requires Good(c, n) && Can(c, n, e) && Fresh(n, s) && c.myid != s.id
    requires NodeInWindow(base, n, s) && NodeInWindow(base, Apply(c, n, e), s)
    requires var said := Announced(c, n, e);
             said.Announcement? && said.id == s.id && said.prefix == s.prefix && said.dist.metric < INFINITY
    ensures s in Apply(c, n, e).sources
    ensures AtLeast(Apply(c, n, e).sources[s].dist, Announced(c, n, e).dist)
  {
    var r := n.Slot(e.prefix)[0];
    assert r.src == s;
    CompareInWindow(base, n.sources[s].dist.seqno, r.dist.seqno);
  }

  // ---- Steps of the network keep the invariant ----

  lemma AtLeastTransitive(base: u16, a: Dist, b: Dist, c: Dist)
    requires InWindow(base, a.seqno) && InWindow(base, b.seqno) && InWindow(base, c.seqno)
    requires AtLeast(a, b) && AtLeast(b, c)
    ensures AtLeast(a, c)
  {
    RankOrders(base, a, b);
    RankOrders(base, b, c);
    RankOrders(base, a, c);
  }

  lemma VouchingLasts(g: Setting, base: u16, w: World, ne: NetEvent, s: SourceKey, b: NodeId, d: Dist)
    requires WorldCan(g, w, ne) && Assumed(base, w, WorldApply(g, w, ne), s)
    requires InWindow(base, d.seqno) && Vouches(g, w, b, s, d)
    ensures Vouches(g, WorldApply(g, w, ne), b, s, d)
  {
    if ne.NodeDoes? && ne.who == b && g.config[b].myid != s.id {
      var n, n' := w.nodes[b], WorldApply(g, w, ne).nodes[b];
      assert NodeInWindow(base, n, s) && NodeInWindow(base, n', s);
      DistanceImproves(base, g.config[b], n, ne.event, s);
      AtLeastTransitive(base, n'.sources[s].dist, n.sources[s].dist, d);
    }
  }

  lemma StepKeepsRoutesVouched(g: Setting, base: u16, w: World, ne: NetEvent, s: SourceKey, a: NodeId)
    requires Inv(g, w, s) && WorldCan(g, w, ne) && Harmless(w, ne, s) && Assumed(base, w, WorldApply(g, w, ne), s)
    requires a in w.nodes
    ensures RoutesVouched(g, WorldApply(g, w, ne), a, s)
  {
    var w' := WorldApply(g, w, ne);
    var l, l' := w.nodes[a].Slot(s.prefix), w'.nodes[a].Slot(s.prefix);
    forall i | 0 <= i < |l'| && Carries(l'[i], s) && (a, l'[i].neigh) in g.peer
      ensures Vouches(g, w', g.peer[(a, l'[i].neigh)], s, l'[i].dist)
    {
      assert NodeInWindow(base, w'.nodes[a], s);
      var b := g.peer[(a, l'[i].neigh)];
      if ne.NodeDoes? && ne.who == a {
        RoutesAreOldOrHeard(g.config[a], w.nodes[a], ne.event, s, i);
        if IsHeard(ne.event, s, l'[i]) {
          var u := if ne.event.Heard? then ne.event.update else ne.event.half;
          var p := Packet(b, u.id, u.prefix, u.dist);
          assert p in w.air && About(p, s) && Vouches(g, w, p.sender, s, p.dist);
        }
      }
      assert Vouches(g, w, b, s, l'[i].dist);
      VouchingLasts(g, base, w, ne, s, b, l'[i].dist);
    }
  }

  lemma StepKeepsAirVouched(g: Setting, base: u16, w: World, ne: NetEvent, s: SourceKey, p: Packet)
    requires Inv(g, w, s) && WorldCan(g, w, ne) && Harmless(w, ne, s) && Assumed(base, w, WorldApply(g, w, ne), s)
    requires p in WorldApply(g, w, ne).air && About(p, s)
    ensures Vouches(g, WorldApply(g, w, ne), p.sender, s, p.dist)
  {
    if p in w.air {
      VouchingLasts(g, base, w, ne, s, p.sender, p.dist);
    } else {
      var a := ne.who;
      assert p.sender == a;
      if g.config[a].myid != s.id {
        AnnouncementVouched(base, g.config[a], w.nodes[a], ne.event, s);
      }
    }
  }

  /** The part of the invariant that concerns one state of the routers. */
  ghost predicate Sound(g: Setting, base: u16, w: World, s: SourceKey) {
    && w.nodes.Keys <= g.config.Keys && WorldInWindow(base, w, s)
    && (forall a | a in w.nodes :: Good(g.config[a], w.nodes[a]))
    && (forall a | a in w.nodes :: RoutesVouched(g, w, a, s))
    && (forall a | a in w.nodes :: UseBounded(w.nodes[a], s))
  }

  ghost predicate Forwards(w: World, s: SourceKey, a: NodeId) {
    a in w.nodes && Uses(w.nodes[a], s)
  }

  ghost function OwnRank(base: u16, w: World, s: SourceKey, a: NodeId): int {
    if a in w.nodes && s in w.nodes[a].sources then Rank(base, w.nodes[a].sources[s].dist) else 0
  }

  /** One hop: the next router's distance, the route's distance and our own distance, in that order. */
  lemma HopImproves(g: Setting, base: u16, w: World, s: SourceKey, a: NodeId, b: NodeId)
    requires Sound(g, base, w, s) && Hop(g, w, s, a, b) && Forwards(w, s, b)
    ensures s in w.nodes[a].sources && InWindow(base, w.nodes[a].sources[s].dist.seqno)
    ensures InWindow(base, Used(w.nodes[a], s).dist.seqno)
    ensures OwnRank(base, w, s, b) >= Rank(base, Used(w.nodes[a], s).dist) >= OwnRank(base, w, s, a)
  {
    var r := Used(w.nodes[a], s);
    assert NodeInWindow(base, w.nodes[a], s) && NodeInWindow(base, w.nodes[b], s);
    assert RoutesVouched(g, w, a, s) && UseBounded(w.nodes[a], s);
    GoodSlot(g.config[b], w.nodes[b], s.prefix);
    assert Vouches(g, w, b, s, r.dist);
    RankOrders(base, w.nodes[b].sources[s].dist, r.dist);
    RankOrders(base, r.dist, w.nodes[a].sources[s].dist);
  }

  lemma PathHop(g: Setting, w: World, s: SourceKey, c: seq<NodeId>, k: nat)
    requires Path(g, w, s, c) && k + 1 < |c|
    ensures Hop(g, w, s, c[k], c[k + 1])
  {
    assert HopAt(g, w, s, c, k);
  }

  lemma LoopForwards(g: Setting, w: World, s: SourceKey, c: seq<NodeId>, k: nat)
    requires Loop(g, w, s, c) && k < |c|
    ensures Forwards(w, s, c[k])
  {
    assert HopAt(g, w, s, c, if k < |c| - 1 then k else 0);
  }

  lemma {:induction false} ClimbsThroughout(f: seq<int>, i: nat, j: nat)
    requires i <= j < |f| && forall k: nat | k + 1 < |f| :: Climbs(f, k)
    ensures f[i] <= f[j]
    decreases j - i
  {
    if i < j {
      assert Climbs(f, i);
      ClimbsThroughout(f, i + 1, j);
    }
  }

  predicate Climbs(f: seq<int>, k: nat)
    requires k + 1 < |f|
  {
    f[k] <= f[k + 1]
  }

  /** Distances do not get worse along the hops of a loop. */
  lemma LoopClimbs(g: Setting, base: u16, w: World, s: SourceKey, c: seq<NodeId>, f: seq<int>, k: nat)
    requires Loop(g, w, s, c) && Sound(g, base, w, s) && k + 1 < |c|
    requires |f| == |c| && f[k] == OwnRank(base, w, s, c[k]) && f[k + 1] == OwnRank(base, w, s, c[k + 1])
    ensures Climbs(f, k)
  {
    hide Good, RoutesVouched, UseBounded, WorldInWindow, Forwards, Rank, Path, Sound, Hop;
    LoopForwards(g, w, s, c, k + 1);
    PathHop(g, w, s, c, k);
    HopImproves(g, base, w, s, c[k], c[k + 1]);
  }

  /** So going round from the hop after c[i] back to c[i] it does not get worse either. */
  lemma AroundLoop(g: Setting, base: u16, w: World, s: SourceKey, c: seq<NodeId>, i: nat)
    requires Loop(g, w, s, c) && i + 1 < |c| && Sound(g, base, w, s)
    ensures OwnRank(base, w, s, c[i]) >= OwnRank(base, w, s, c[i + 1])
  {
    hide Sound, Path, Rank;
    var f := seq(|c|, k requires 0 <= k < |c| => OwnRank(base, w, s, c[k]));
    forall k: nat | k + 1 < |f| ensures Climbs(f, k) {
      LoopClimbs(g, base, w, s, c, f, k);
    }
    ClimbsThroughout(f, i + 1, |c| - 1);
    ClimbsThroughout(f, 0, i);
  }

  /** No router on a loop uses a route that is strictly better than its own distance. */
  lemma LoopIsNowhereStrict(g: Setting, base: u16, w: World, s: SourceKey, c: seq<NodeId>, i: nat)
    requires Loop(g, w, s, c) && i + 1 < |c| && Sound(g, base, w, s)
    ensures Forwards(w, s, c[i]) && s in w.nodes[c[i]].sources
    ensures !Before(Used(w.nodes[c[i]], s).dist, w.nodes[c[i]].sources[s].dist)
  {
    hide Good, RoutesVouched, UseBounded, WorldInWindow, Rank, Path, Sound, Before;
    AroundLoop(g, base, w, s, c, i);
    LoopForwards(g, w, s, c, i);
    LoopForwards(g, w, s, c, i + 1);
    PathHop(g, w, s, c, i);
    HopImproves(g, base, w, s, c[i], c[i + 1]);
    RankOrders(base, Used(w.nodes[c[i]], s).dist, w.nodes[c[i]].sources[s].dist);
  }

  lemma StepKeepsLoopFree(g: Setting, base: u16, w: World, ne: NetEvent, s: SourceKey, c: seq<NodeId>)
    requires Inv(g, w, s) && WorldCan(g, w, ne) && Harmless(w, ne, s) && Assumed(base, w, WorldApply(g, w, ne), s)
    requires Sound(g, base, WorldApply(g, w, ne), s)
    ensures !Loop(g, WorldApply(g, w, ne), s, c)
  {
    var w' := WorldApply(g, w, ne);
    assert !Loop(g, w, s, c);
    if Loop(g, w', s, c) {
      var i: nat :| i + 1 < |c| && !HopAt(g, w, s, c, i);
      assert HopAt(g, w', s, c, i);
      LoopIsNowhereStrict(g, base, w', s, c, i);
      UseIsOldOrStrict(g.config[c[i]], w.nodes[c[i]], ne.event, s);
    }
  }

  lemma StepKeepsInv(g: Setting, base: u16, w: World, ne: NetEvent, s: SourceKey)
    requires Inv(g, w, s) && WorldCan(g, w, ne) && Harmless(w, ne, s) && Assumed(base, w, WorldApply(g, w, ne), s)
    ensures Inv(g, WorldApply(g, w, ne), s)
  {
    var w' := WorldApply(g, w, ne);
    forall a | a in w'.nodes
      ensures Good(g.config[a], w'.nodes[a]) && RoutesVouched(g, w', a, s) && UseBounded(w'.nodes[a], s)
    {
      StepKeepsRoutesVouched(g, base, w, ne, s, a);
      if ne.NodeDoes? && ne.who == a {
        StepKeepsGood(g.config[a], w.nodes[a], ne.event);
        assert NodeInWindow(base, w'.nodes[a], s);
        UseStaysBounded(base, g.config[a], w.nodes[a], ne.event, s);
      }
    }
    forall p | p in w'.air && About(p, s)
      ensures Vouches(g, w', p.sender, s, p.dist)
    {
      StepKeepsAirVouched(g, base, w, ne, s, p);
    }
    forall c ensures !Loop(g, w', s, c) {
      StepKeepsLoopFree(g, base, w, ne, s, c);
    }
  }

  // ---- Runs ----

  /** Routers that have heard nothing, and nothing in the air. */
  ghost predicate Initial(g: Setting, w: World) {
    && w.nodes.Keys <= g.config.Keys && w.air == {}
    && forall a | a in w.nodes :: w.nodes[a].table == map[]
  }

  ghost predicate Run(g: Setting, ws: seq<World>, es: seq<NetEvent>) {
    && |ws| == |es| + 1 && Initial(g, ws[0])
    && forall i | 0 <= i < |es| :: WorldCan(g, ws[i], es[i]) && ws[i + 1] == WorldApply(g, ws[i], es[i])
  }

  ghost predicate StepAssumed(w: World, w': World, s: SourceKey) {
    exists base :: Assumed(base, w, w', s)
  }

  ghost predicate RunAssumed(ws: seq<World>, es: seq<NetEvent>, s: SourceKey) {
    && (forall i | 0 <= i < |ws| - 1 :: StepAssumed(ws[i], ws[i + 1], s))
    && (forall i | 0 <= i < |ws| - 1 && i < |es| :: Harmless(ws[i], es[i], s))
  }

  lemma {:induction false} RunKeepsInv(g: Setting, ws: seq<World>, es: seq<NetEvent>, s: SourceKey, k: nat)
    requires Run(g, ws, es) && RunAssumed(ws, es, s) && k < |ws|
    ensures Inv(g, ws[k], s)
  {
    if k == 0 {
      forall c ensures !Loop(g, ws[0], s, c) {
        if |c| >= 2 {
          assert !HopAt(g, ws[0], s, c, 0);
        }
      }
    } else {
      RunKeepsInv(g, ws, es, s, k - 1);
      assert StepAssumed(ws[k - 1], ws[k - 1 + 1], s);
      var base :| Assumed(base, ws[k - 1], ws[k], s);
      StepKeepsInv(g, base, ws[k - 1], es[k - 1], s);
    }
  }

  /**
   Loop freedom.  In every state of every run in which the entries for s stay fresh and the live
   sequence numbers of s span less than half the circle, no packet forwarded along installed routes
   for s visits a router twice: link costs, delays, losses and all other sources are arbitrary.
   */
  lemma LoopFreedom(g: Setting, ws: seq<World>, es: seq<NetEvent>, s: SourceKey, k: nat, c: seq<NodeId>)
    requires Run(g, ws, es) && RunAssumed(ws, es, s) && k < |ws|
    requires Path(g, ws[k], s, c)
    ensures forall i, j | 0 <= i < j < |c| :: c[i] != c[j]
  {
    RunKeepsInv(g, ws, es, s, k);
    forall i, j | 0 <= i < j < |c|
      ensures c[i] != c[j]
    {
      if c[i] == c[j] {
        SegmentLoops(g, ws[k], s, c, i, j);
        assert false;
      }
    }
  }

  lemma SegmentLoops(g: Setting, w: World, s: SourceKey, c: seq<NodeId>, i: nat, j: nat)
    requires Path(g, w, s, c) && i < j < |c| && c[i] == c[j]
    ensures Loop(g, w, s, c[i..j + 1])
  {
    var d := c[i..j + 1];
    forall m: nat | m + 1 < |d|
      ensures HopAt(g, w, s, d, m)
    {
      assert HopAt(g, w, s, c, i + m);
    }
  }
}
