/**
 Around the loop freedom theorem: every run of a single router, such as a call of any operation on its tables,
 is part of a run of the network; what follows when a destination has one origin; and why the theorem has
 to assume that source entries are still fresh and that the kernel does no harm when it refuses a change.
 */
module BabelSystem {
  import opened Bytes
  import opened Seqno
  import opened BabelNode
  import opened BabelRuns
  import opened BabelNetwork
  import opened BabelTable

  // ---- A router's run inside the network ----

  /** Every update in h is on its way from the neighbour it names. */
  ghost predicate InTheAir(g: Setting, w: World, a: NodeId, h: set<Update>) {
    forall u | u in h :: OnItsWay(g, w, a, u)
  }

  function Lifted(a: NodeId, es: seq<Event>): seq<NetEvent> {
    seq(|es|, i requires 0 <= i < |es| => NodeDoes(a, es[i]))
  }

  function SaidAs(a: NodeId, said: Announcement): set<Packet> {
    if said.Silence? then {} else {Packet(a, said.id, said.prefix, said.dist)}
  }

  /** Everything router a announces on the way. */
  function SaidAll(c: Config, a: NodeId, n: Node, es: seq<Event>): set<Packet>
    decreases |es|
  {
    if es == [] || !Can(c, n, es[0]) then {}
    else SaidAs(a, Announced(c, n, es[0])) + SaidAll(c, a, Apply(c, n, es[0]), es[1..])
  }

  ghost function Last(ws: seq<World>): World
    requires ws != []
  {
    ws[|ws| - 1]
  }

  lemma RunNext(g: Setting, ws: seq<World>, es: seq<NetEvent>, ne: NetEvent)
    requires Run(g, ws, es) && WorldCan(g, Last(ws), ne)
    ensures Run(g, ws + [WorldApply(g, Last(ws), ne)], es + [ne])
  {
    hide WorldCan, WorldApply, Initial;
    var ws', es' := ws + [WorldApply(g, Last(ws), ne)], es + [ne];
    forall i | 0 <= i < |es'|
      ensures WorldCan(g, ws'[i], es'[i]) && ws'[i + 1] == WorldApply(g, ws'[i], es'[i])
    {
      assert i < |es| ==> WorldCan(g, ws[i], es[i]) && ws[i + 1] == WorldApply(g, ws[i], es[i]);
    }
  }

  /**
   Whatever router a does on its own, hearing only what is in the air, is an extension of the run of the network: the
   others stand still, and all that a announces is in the air afterwards.
   */
  lemma {:induction false} NodeRunIsNetworkRun(g: Setting, ws: seq<World>, es: seq<NetEvent>, a: NodeId, fs: seq<Event>,
                                               n: Node, h: set<Update>)
    returns (ws': seq<World>)
    requires Run(g, ws, es) && a in Last(ws).nodes && a in g.config
    requires Runs(g.config[a], Last(ws).nodes[a], fs, n, h) && InTheAir(g, Last(ws), a, h)
    ensures Run(g, ws', es + Lifted(a, fs)) && ws <= ws'
    ensures Last(ws').nodes == Last(ws).nodes[a := n]
    ensures Last(ws').air == Last(ws).air + SaidAll(g.config[a], a, Last(ws).nodes[a], fs)
    decreases |fs|
  {
    hide Run;
    assert ws != [] by {
      RunHasWorlds(g, ws, es);
    }
    var w := Last(ws);
    if fs == [] {
      ws' := ws;
      assert es + Lifted(a, fs) == es && w.nodes[a := n] == w.nodes;
    } else {
      var ne := NodeDoes(a, fs[0]);
      var w1 := WorldApply(g, w, ne);
      RunNext(g, ws, es, ne);
      ws' := NodeRunIsNetworkRun(g, ws + [w1], es + [ne], a, fs[1..], n, h);
      assert es + Lifted(a, fs) == es + [ne] + Lifted(a, fs[1..]);
      assert w1.nodes[a := n] == w.nodes[a := n];
      assert ws <= ws + [w1];
    }
  }

  lemma RunHasWorlds(g: Setting, ws: seq<World>, es: seq<NetEvent>)
    requires Run(g, ws, es)
    ensures ws != []
  {
  }

  predicate NoRepeat(c: seq<NodeId>) {
    forall i, j | 0 <= i < j < |c| :: c[i] != c[j]
  }

  /**
   After any run of one router's own from a reached state, still nothing loops, under the assumptions of the theorem.
   */
  lemma OperationKeepsLoopFree(g: Setting, ws: seq<World>, es: seq<NetEvent>, a: NodeId, n: Node, h: set<Update>,
                               s: SourceKey)
    returns (ws': seq<World>, es': seq<NetEvent>)
    requires Run(g, ws, es) && a in Last(ws).nodes && a in g.config
    requires Evolves(g.config[a], Last(ws).nodes[a], n, h) && InTheAir(g, Last(ws), a, h)
    ensures Run(g, ws', es') && ws <= ws' && es <= es' && Last(ws').nodes == Last(ws).nodes[a := n]
    ensures Last(ws).air <= Last(ws').air
    ensures RunAssumed(ws', es', s) ==> forall c | Path(g, Last(ws'), s, c) :: NoRepeat(c)
  {
    hide Run, RunAssumed, Path;
    RunHasWorlds(g, ws, es);
    var fs :| Runs(g.config[a], Last(ws).nodes[a], fs, n, h);
    ws' := NodeRunIsNetworkRun(g, ws, es, a, fs, n, h);
    es' := es + Lifted(a, fs);
    RunHasWorlds(g, ws', es');
    if RunAssumed(ws', es', s) {
      forall c | Path(g, Last(ws'), s, c) ensures NoRepeat(c) {
        LoopFreedom(g, ws', es', s, |ws'| - 1, c);
      }
    }
  }

  /** The tables of router a, in a state that the network has reached, hear an update that is in the air. */
  method HearInNetwork(b: Babel, u: Update, cost: u16, add: u16, k: Kernel, ghost g: Setting, ghost ws: seq<World>,
                       ghost es: seq<NetEvent>, ghost a: NodeId, ghost s: SourceKey)
    returns (ok: bool, ghost ws': seq<World>, ghost es': seq<NetEvent>)
    requires b.Valid() && Run(g, ws, es) && a in Last(ws).nodes && a in g.config
    requires g.config[a] == b.config && Last(ws).nodes[a] == b.State() && OnItsWay(g, Last(ws), a, u)
    requires SourceKey(u.id, u.prefix) in b.sources ==> b.sources[SourceKey(u.id, u.prefix)].routeCount < 0xFFFF
    modifies b
    ensures b.Valid() && Run(g, ws', es') && ws <= ws' && es <= es'
    ensures Last(ws').nodes == Last(ws).nodes[a := b.State()]
    ensures RunAssumed(ws', es', s) ==> forall c | Path(g, Last(ws'), s, c) :: NoRepeat(c)
  {
    hide Run, RunAssumed, Path, Evolves, Hear, HalfHear, CanHalfHear, MetricContested;
    ok := b.UpdateRoute(u, cost, add, k);
    ws', es' := OperationKeepsLoopFree(g, ws, es, a, b.State(), {u}, s);
  }

  // ---- One origin ----

  /** a forwards packets for p to b, whatever the source of the route. */
  ghost predicate ForwardsTo(g: Setting, w: World, p: Prefix, a: NodeId, b: NodeId) {
    && a in w.nodes && w.nodes[a].Slot(p) != [] && w.nodes[a].Slot(p)[0].installed
    && w.nodes[a].Slot(p)[0].dist.metric < INFINITY
    && (a, w.nodes[a].Slot(p)[0].neigh) in g.peer && g.peer[(a, w.nodes[a].Slot(p)[0].neigh)] == b
  }

  /** Nobody forwards for the destination along a route of another source. */
  ghost predicate OneOrigin(w: World, s: SourceKey) {
    forall a | a in w.nodes && w.nodes[a].Slot(s.prefix) != [] && w.nodes[a].Slot(s.prefix)[0].installed ::
      w.nodes[a].Slot(s.prefix)[0].src == s
  }

  /** With one origin, packets for the destination never come back to a router they have passed. */
  lemma NoForwardingLoop(g: Setting, ws: seq<World>, es: seq<NetEvent>, s: SourceKey, k: nat, c: seq<NodeId>)
    requires Run(g, ws, es) && RunAssumed(ws, es, s) && k < |ws| && OneOrigin(ws[k], s)
    requires forall i | 0 <= i < |c| - 1 :: ForwardsTo(g, ws[k], s.prefix, c[i], c[i + 1])
    ensures forall i, j | 0 <= i < j < |c| :: c[i] != c[j]
  {
    hide Run, RunAssumed;
    forall i: nat | i + 1 < |c|
      ensures HopAt(g, ws[k], s, c, i)
    {
      assert ForwardsTo(g, ws[k], s.prefix, c[i], c[i + 1]);
    }
    LoopFreedom(g, ws, es, s, k, c);
  }

  // ---- A small network ----

  const DEST: Prefix := Prefix([0x20, 1, 0, 0, 0, 0, 0, 0, 0, 0, 0, 0, 0, 0, 0, 1], 128)
  const ORIGIN: RouterId := [9, 0, 0, 0, 0, 0, 0, 1]
  const LINK: Addr := [0xFE, 0x80, 0, 0, 0, 0, 0, 0, 0, 0, 0, 0, 0, 0, 0, 1]
  const SRC := SourceKey(ORIGIN, DEST)

  /** Updates every 655 seconds, so that routes are held for over an hour. */
  const INTERVAL: u16 := 65535

  /** Neighbours 1, 2 and 3 stand for the interfaces towards A, B and the origin. */
  function Towards(i: nat): Neighbour {
    Neighbour(i, LINK)
  }

  const CA := Config([9, 0, 0, 0, 0, 0, 0, 2], false)
  const CB := Config([9, 0, 0, 0, 0, 0, 0, 3], false)

  /** Router 1 is A, router 2 is B, router 3 originates; each is linked to both others. */
  function Triangle(): Setting {
    Setting(map[1 := CA, 2 := CB, 3 := Config(ORIGIN, false)],
            map[(1, Towards(3)) := 3, (1, Towards(2)) := 2, (2, Towards(1)) := 1, (2, Towards(3)) := 3])
  }

  const SILENT := Node(0, map[], map[], {})

  function Start(): World {
    World(map[1 := SILENT, 2 := SILENT, 3 := SILENT], {})
  }

  function Message(d: Dist, via: nat): Update {
    Update(ORIGIN, DEST, d, INTERVAL, Towards(via), LINK)
  }

  function Learned(d: Dist, via: nat, time: int, installed: bool): Route {
    Route(SRC, d, 1, 0, Towards(via), LINK, time, HoldTime(INTERVAL), installed)
  }

  /** A node of the example: at most one route, and one source entry made or confirmed at time zero. */
  function Small(now: int, table: map<Prefix, seq<Route>>, fd: Dist): Node {
    Node(now, table, map[SRC := Source(fd, 0)], {})
  }

  function Holds(r: Route): map<Prefix, seq<Route>> {
    map[DEST := [r]]
  }

  function Said(who: NodeId, d: Dist): Packet {
    Packet(who, ORIGIN, DEST, d)
  }

  function Three(a: Node, b: Node, o: Node, air: set<Packet>): World {
    World(map[1 := a, 2 := b, 3 := o], air)
  }

  // ---- What the steps of the example do to a node ----

  lemma NotMartian()
    ensures !MartianPrefix(DEST)
  {
    assert DEST.addr[..15][0] != 0;
  }

  /** Hearing the destination with an empty table, and an entry that is new, stale or worse. */
  lemma HearsNew(c: Config, n: Node, d: Dist, via: nat)
    requires c.myid != ORIGIN && d.metric < 1000 && n.table == map[]
    requires SRC in n.sources ==> n.sources[SRC].time < n.now - SOURCE_GC_TIME || Before(d, n.sources[SRC].dist)
    ensures Apply(c, n, Heard(Message(d, via), 1, 0)) ==
            WithSource(n, SRC, d.seqno).(table := Holds(Learned(d, via, n.now, false)))
  {
    hide MartianPrefix, HoldTime;
    NotMartian();
    var u, r := Message(d, via), Learned(d, via, n.now, false);
    var n1 := WithSource(n, SRC, d.seqno);
    assert n.Slot(DEST) == [] && Find([], (u.neigh, u.nexthop)) == -1;
    assert Feasible(n1.sources[SRC], n.now, u.dist);
    assert [] + [NewRoute(n.now, u, 1, 0)] == [r];
    assert n1.table[DEST := [r]] == Holds(r);
  }

  lemma Selects(c: Config, now: int, d: Dist, via: nat, time: int, fd: Dist)
    requires d.metric < 1000 && (0 < now - SOURCE_GC_TIME || Before(d, fd))
    ensures var n := Small(now, Holds(Learned(d, via, time, false)), fd);
            && Can(c, n, Selected(DEST, 0))
            && Apply(c, n, Selected(DEST, 0)) == Small(now, Holds(Learned(d, via, time, true)), fd)
  {
    hide HoldTime;
    var r := Learned(d, via, time, false);
    assert Promote([r], 0) == [r.(installed := true)];
    assert Holds(r)[DEST := [r.(installed := true)]] == Holds(r.(installed := true));
  }

  /** At time zero an announcement records the distance announced when it is better than the one on record. */
  lemma Advertises(c: Config, d: Dist, via: nat, fd: Dist)
    requires d.metric < 1000 && fd.seqno <= d.seqno <= 1 && (fd.seqno < d.seqno || d.metric + 1 < fd.metric)
    ensures var n, e := Small(0, Holds(Learned(d, via, 0, true)), fd), Advertised(DEST, Interfering, 0);
            && Can(c, n, e) && Announced(c, n, e) == Announcement(ORIGIN, DEST, Dist(d.seqno, d.metric + 1))
            && Apply(c, n, e) == Small(0, Holds(Learned(d, via, 0, true)), Dist(d.seqno, d.metric + 1))
  {
    hide HoldTime;
    var n := Small(0, Holds(Learned(d, via, 0, true)), fd);
    assert n.sources[SRC := Source(Dist(d.seqno, d.metric + 1), 0)] ==
           map[SRC := Source(Dist(d.seqno, d.metric + 1), 0)];
  }

  lemma Removes(c: Config, now: int, r: Route, fd: Dist)
    ensures var n := Small(now, Holds(r), fd);
            Can(c, n, Removed(DEST, 0)) && Apply(c, n, Removed(DEST, 0)) == Small(now, map[], fd)
  {
    assert [r][..0] + [r][1..] == [];
    assert Holds(r) - {DEST} == map[];
  }

  /** A later update for the installed route, taken in full, or in half when the kernel refuses its metric. */
  lemma Refreshes(c: Config, d: Dist, d': Dist, via: nat, fd: Dist)
    requires c.myid != ORIGIN && d.metric < 1000 && d'.metric < 1000 && Before(d', fd)
    ensures var n := Small(0, Holds(Learned(d, via, 0, true)), fd);
            && Apply(c, n, Heard(Message(d', via), 1, 0)) == Small(0, Holds(Learned(d', via, 0, true)), fd)
            && Can(c, n, HalfHeard(Message(d', via)))
            && Apply(c, n, HalfHeard(Message(d', via))) ==
               Small(0, Holds(Learned(Dist(d'.seqno, d.metric), via, 0, true)), fd)
  {
    hide MartianPrefix, HoldTime;
    NotMartian();
    var n, u, r := Small(0, Holds(Learned(d, via, 0, true)), fd), Message(d', via), Learned(d, via, 0, true);
    assert n.Slot(DEST) == [r] && Find([r], (u.neigh, u.nexthop)) == 0;
    var r1, r2 := Learned(d', via, 0, true), Learned(Dist(d'.seqno, d.metric), via, 0, true);
    assert [r][0 := r1] == [r1] && [r][0 := r2] == [r2];
    assert Holds(r)[DEST := [r1]] == Holds(r1) && Holds(r)[DEST := [r2]] == Holds(r2);
  }

  // ---- Steps of the example network ----

  /** What happens in the two examples: in one time passes, in the other a change is refused. */
  predicate Fits(aged: bool, ne: NetEvent) {
    && ne.NodeDoes?
    && match ne.event
       case Heard(_, _, _) => true
       case Selected(_, _) => true
       case Removed(_, _) => true
       case Advertised(_, _, _) => true
       case SelfAdvertised(_, d) => d.seqno <= 1
       case Ticked(_) => aged
       case HalfHeard(_) => !aged
       case _ => false
  }

  ghost predicate ExampleRun(aged: bool, ws: seq<World>, es: seq<NetEvent>) {
    && ws != [] && ws[0] == Start() && Run(Triangle(), ws, es)
    && forall k | 0 <= k < |es| :: Fits(aged, es[k])
  }

  ghost predicate Reached(aged: bool, a: Node, b: Node, o: Node, air: set<Packet>) {
    exists ws, es :: ws != [] && ExampleRun(aged, ws, es) && Last(ws) == Three(a, b, o, air)
  }

  lemma RunLength(g: Setting, ws: seq<World>, es: seq<NetEvent>)
    requires Run(g, ws, es)
    ensures |ws| == |es| + 1
  {
  }

  lemma ExampleNext(aged: bool, ws: seq<World>, es: seq<NetEvent>, ne: NetEvent)
    requires ExampleRun(aged, ws, es) && WorldCan(Triangle(), Last(ws), ne) && Fits(aged, ne)
    ensures var w := WorldApply(Triangle(), Last(ws), ne);
            ExampleRun(aged, ws + [w], es + [ne]) && Last(ws + [w]) == w
  {
    hide WorldCan, WorldApply, Run, Fits;
    RunNext(Triangle(), ws, es, ne);
  }

  ghost predicate Allowed(who: NodeId, w: World, e: Event) {
    (e.Heard? ==> OnItsWay(Triangle(), w, who, e.update)) && (e.HalfHeard? ==> OnItsWay(Triangle(), w, who, e.half))
  }

  function Aired(who: NodeId, air: set<Packet>, said: Announcement): set<Packet> {
    if said.Silence? then air else air + {Packet(who, said.id, said.prefix, said.dist)}
  }

  lemma Begins()
    ensures forall aged :: Reached(aged, SILENT, SILENT, SILENT, {})
    ensures Initial(Triangle(), Start())
  {
    assert forall aged :: ExampleRun(aged, [Start()], []);
    assert Last([Start()]) == Three(SILENT, SILENT, SILENT, {});
  }

  lemma MoveA(aged: bool, a: Node, b: Node, o: Node, air: set<Packet>, e: Event)
    requires Reached(aged, a, b, o, air) && Can(CA, a, e)
    requires Allowed(1, Three(a, b, o, air), e) && Fits(aged, NodeDoes(1, e))
    ensures Reached(aged, Apply(CA, a, e), b, o, Aired(1, air, Announced(CA, a, e)))
  {
    hide Can, Apply, Announced, ExampleRun, OnItsWay;
    var ws, es :| ws != [] && ExampleRun(aged, ws, es) && Last(ws) == Three(a, b, o, air);
    ExampleNext(aged, ws, es, NodeDoes(1, e));
    var w := WorldApply(Triangle(), Three(a, b, o, air), NodeDoes(1, e));
    assert w == Three(Apply(CA, a, e), b, o, Aired(1, air, Announced(CA, a, e)));
  }

  lemma MoveB(aged: bool, a: Node, b: Node, o: Node, air: set<Packet>, e: Event)
    requires Reached(aged, a, b, o, air) && Can(CB, b, e)
    requires Allowed(2, Three(a, b, o, air), e) && Fits(aged, NodeDoes(2, e))
    ensures Reached(aged, a, Apply(CB, b, e), o, Aired(2, air, Announced(CB, b, e)))
  {
    hide Can, Apply, Announced, ExampleRun, OnItsWay;
    var ws, es :| ws != [] && ExampleRun(aged, ws, es) && Last(ws) == Three(a, b, o, air);
    ExampleNext(aged, ws, es, NodeDoes(2, e));
    var w := WorldApply(Triangle(), Three(a, b, o, air), NodeDoes(2, e));
    assert w == Three(a, Apply(CB, b, e), o, Aired(2, air, Announced(CB, b, e)));
  }

  lemma MoveO(aged: bool, a: Node, b: Node, o: Node, air: set<Packet>, e: Event)
    requires Reached(aged, a, b, o, air) && (e.Ticked? || e.SelfAdvertised?)
    requires Fits(aged, NodeDoes(3, e))
    ensures e.Ticked? ==> Reached(aged, a, b, o.(now := e.now), air)
    ensures e.SelfAdvertised? ==> Reached(aged, a, b, o, air + {Packet(3, ORIGIN, e.prefix, e.dist)})
  {
    hide ExampleRun;
    var ws, es :| ws != [] && ExampleRun(aged, ws, es) && Last(ws) == Three(a, b, o, air);
    ExampleNext(aged, ws, es, NodeDoes(3, e));
    var w := WorldApply(Triangle(), Three(a, b, o, air), NodeDoes(3, e));
    assert e.Ticked? ==> w == Three(a, b, o.(now := e.now), air);
    assert e.SelfAdvertised? ==> w == Three(a, b, o, air + {Packet(3, ORIGIN, e.prefix, e.dist)});
  }

  lemma Silently(c: Config, n: Node, e: Event)
    requires e.Heard? || e.Ticked? || (Can(c, n, e) && (e.Selected? || e.Removed? || e.HalfHeard?))
    ensures Can(c, n, e) && Announced(c, n, e) == Silence && (e.Ticked? ==> Apply(c, n, e) == n.(now := e.now))
  {
  }

  /** A router that knows nothing hears the destination, selects it and announces it. */
  lemma ALearns(aged: bool, b: Node, o: Node, air: set<Packet>, d: Dist, via: nat)
    requires Reached(aged, SILENT, b, o, air) && d.metric < 1000 && d.seqno == 0 && (1, Towards(via)) in Triangle().peer
    requires Said(Triangle().peer[(1, Towards(via))], d) in air
    ensures Reached(aged, Small(0, Holds(Learned(d, via, 0, true)), Dist(0, d.metric + 1)), b, o,
                    air + {Said(1, Dist(0, d.metric + 1))})
  {
    hide Can, Apply, Announced, Reached, HoldTime;
    HearsNew(CA, SILENT, d, via);
    Silently(CA, SILENT, Heard(Message(d, via), 1, 0));
    MoveA(aged, SILENT, b, o, air, Heard(Message(d, via), 1, 0));
    var fd := Dist(0, INFINITY);
    var n1 := Small(0, Holds(Learned(d, via, 0, false)), fd);
    assert WithSource(SILENT, SRC, 0).(table := Holds(Learned(d, via, 0, false))) == n1;
    Selects(CA, 0, d, via, 0, fd);
    Silently(CA, n1, Selected(DEST, 0));
    MoveA(aged, n1, b, o, air, Selected(DEST, 0));
    Advertises(CA, d, via, fd);
    MoveA(aged, Small(0, Holds(Learned(d, via, 0, true)), fd), b, o, air, Advertised(DEST, Interfering, 0));
  }

  lemma BLearns(aged: bool, a: Node, o: Node, air: set<Packet>, d: Dist, via: nat)
    requires Reached(aged, a, SILENT, o, air) && d.metric < 1000 && d.seqno == 0 && (2, Towards(via)) in Triangle().peer
    requires Said(Triangle().peer[(2, Towards(via))], d) in air
    ensures Reached(aged, a, Small(0, Holds(Learned(d, via, 0, true)), Dist(0, d.metric + 1)), o,
                    air + {Said(2, Dist(0, d.metric + 1))})
  {
    hide Can, Apply, Announced, Reached, HoldTime;
    HearsNew(CB, SILENT, d, via);
    Silently(CB, SILENT, Heard(Message(d, via), 1, 0));
    MoveB(aged, a, SILENT, o, air, Heard(Message(d, via), 1, 0));
    var fd := Dist(0, INFINITY);
    var n1 := Small(0, Holds(Learned(d, via, 0, false)), fd);
    assert WithSource(SILENT, SRC, 0).(table := Holds(Learned(d, via, 0, false))) == n1;
    Selects(CB, 0, d, via, 0, fd);
    Silently(CB, n1, Selected(DEST, 0));
    MoveB(aged, a, n1, o, air, Selected(DEST, 0));
    Advertises(CB, d, via, fd);
    MoveB(aged, a, Small(0, Holds(Learned(d, via, 0, true)), fd), o, air, Advertised(DEST, Interfering, 0));
  }

  /** A and B forward to each other. */
  lemma FaceToFace(w: World, now: int, da: Dist, ta: int, fa: Dist, db: Dist, tb: int, fb: Dist)
    requires da.metric < 1000 && db.metric < 1000 && 1 in w.nodes && 2 in w.nodes
    requires w.nodes[1] == Small(now, Holds(Learned(da, 2, ta, true)), fa)
    requires w.nodes[2] == Small(now, Holds(Learned(db, 1, tb, true)), fb)
    ensures Loop(Triangle(), w, SRC, [1, 2, 1])
  {
    hide HoldTime;
    var c := [1, 2, 1];
    assert Hop(Triangle(), w, SRC, 1, 2) && Hop(Triangle(), w, SRC, 2, 1);
    assert HopAt(Triangle(), w, SRC, c, 0) && HopAt(Triangle(), w, SRC, c, 1);
  }

  // ---- What holds throughout the examples ----

  predicate NodeLow(n: Node) {
    && (forall s | s in n.sources :: n.sources[s].dist.seqno <= 1)
    && (forall p, i | p in n.table && 0 <= i < |n.table[p]| :: n.table[p][i].dist.seqno <= 1)
  }

  predicate NodeYoung(n: Node) {
    n.now == 0 && forall s | s in n.sources :: n.sources[s].time == 0
  }

  /** Sequence numbers are 0 or 1 and, in the example with a refusal, it is still time zero. */
  predicate WorldLow(aged: bool, w: World) {
    && (forall a | a in w.nodes :: NodeLow(w.nodes[a]) && (aged || NodeYoung(w.nodes[a])))
    && (forall p | p in w.air :: p.dist.seqno <= 1)
  }

  lemma SlotStaysLow(n: Node, p: Prefix, l: seq<Route>)
    requires NodeLow(n) && forall i | 0 <= i < |l| :: l[i].dist.seqno <= 1
    ensures NodeLow(n.WithSlot(p, l)) && (NodeYoung(n) ==> NodeYoung(n.WithSlot(p, l)))
  {
  }

  lemma SlotIsLow(n: Node, p: Prefix)
    requires NodeLow(n)
    ensures forall i | 0 <= i < |n.Slot(p)| :: n.Slot(p)[i].dist.seqno <= 1
  {
  }

  lemma HearingStaysLow(c: Config, n: Node, u: Update, cost: u16, add: u16)
    requires NodeLow(n) && u.dist.seqno <= 1
    ensures var n' := Hear(c, n, u, cost, add);
            NodeLow(n') && (NodeYoung(n) ==> NodeYoung(n'))
    ensures CanHalfHear(c, n, u) ==>
              var n' := HalfHear(c, n, u);
              NodeLow(n') && (NodeYoung(n) ==> NodeYoung(n'))
  {
    hide MartianPrefix, HoldTime, Find, Feasible;
    var l := n.Slot(u.prefix);
    var n1 := WithSource(n, SourceKey(u.id, u.prefix), u.dist.seqno);
    SlotIsLow(n, u.prefix);
    assert NodeLow(n1) && (NodeYoung(n) ==> NodeYoung(n1));
    hide NodeLow, NodeYoung;
    var j := Find(l, (u.neigh, u.nexthop));
    if j >= 0 {
      var feasible := Feasible(n1.sources[SourceKey(u.id, u.prefix)], n.now, u.dist);
      SlotStaysLow(n1, u.prefix, l[j := Refreshed(c, n.now, l[j], u, feasible, cost, add)]);
      SlotStaysLow(n1, u.prefix, l[j := HalfRefreshed(n.now, l[j], u)]);
    } else {
      SlotStaysLow(n1, u.prefix, l + [NewRoute(n.now, u, cost, add)]);
    }
  }

  lemma NodeStaysLow(aged: bool, c: Config, n: Node, e: Event)
    requires NodeLow(n) && (aged || NodeYoung(n)) && Can(c, n, e) && Fits(aged, NodeDoes(0, e))
    requires (e.Heard? ==> e.update.dist.seqno <= 1) && (e.HalfHeard? ==> e.half.dist.seqno <= 1)
    ensures NodeLow(Apply(c, n, e)) && (aged || NodeYoung(Apply(c, n, e)))
    ensures Announced(c, n, e).Announcement? ==> Announced(c, n, e).dist.seqno <= 1
  {
    hide Hear, HalfHear, CanHalfHear;
    match e
    case Heard(u, cost, add) => HearingStaysLow(c, n, u, cost, add);
    case HalfHeard(u) => HearingStaysLow(c, n, u, 0, 0);
    case Selected(p, j) =>
      SlotIsLow(n, p);
      SlotStaysLow(n, p, Promote(n.Slot(p), j));
    case Removed(p, j) =>
      SlotIsLow(n, p);
      SlotStaysLow(n, p, n.Slot(p)[..j] + n.Slot(p)[j + 1..]);
    case Advertised(p, f, outAdd) =>
      SlotIsLow(n, p);
    case _ =>
  }

  lemma WorldStaysLow(aged: bool, w: World, ne: NetEvent)
    requires WorldLow(aged, w) && WorldCan(Triangle(), w, ne) && Fits(aged, ne)
    ensures WorldLow(aged, WorldApply(Triangle(), w, ne))
  {
    hide Can, Apply, Announced, NodeLow, NodeYoung, Triangle;
    NodeStaysLow(aged, Triangle().config[ne.who], w.nodes[ne.who], ne.event);
  }

  lemma {:induction false} RunStaysLow(aged: bool, ws: seq<World>, es: seq<NetEvent>, k: nat)
    requires ExampleRun(aged, ws, es) && k < |ws|
    ensures WorldLow(aged, ws[k])
  {
    hide WorldCan, WorldApply, Fits, WorldLow;
    if k == 0 {
      StartIsLow(aged);
    } else {
      RunStaysLow(aged, ws, es, k - 1);
      WorldStaysLow(aged, ws[k - 1], es[k - 1]);
    }
  }

  lemma StartIsLow(aged: bool)
    ensures WorldLow(aged, Start())
  {
  }

  lemma LowIsInWindow(aged: bool, w: World)
    requires WorldLow(aged, w)
    ensures WorldInWindow(0, w, SRC) && (!aged ==> forall a | a in w.nodes :: Fresh(w.nodes[a], SRC))
  {
    forall a | a in w.nodes
      ensures NodeInWindow(0, w.nodes[a], SRC)
    {
      SlotIsLow(w.nodes[a], DEST);
    }
  }

  /** All that the theorem assumes but freshness, or all but harmless refusals. */
  lemma ExampleAssumes(aged: bool, ws: seq<World>, es: seq<NetEvent>, k: nat)
    requires ExampleRun(aged, ws, es) && |ws| == |es| + 1 && k < |ws|
    ensures WorldInWindow(0, ws[k], SRC)
    ensures k < |es| ==> if aged then Harmless(ws[k], es[k], SRC) else Assumed(0, ws[k], ws[k + 1], SRC)
  {
    hide WorldLow, Run, WorldInWindow;
    RunStaysLow(aged, ws, es, k);
    LowIsInWindow(aged, ws[k]);
    if k < |es| {
      RunStaysLow(aged, ws, es, k + 1);
      LowIsInWindow(aged, ws[k + 1]);
      assert Fits(aged, es[k]);
    }
  }

  // ---- Stale entries ----

  /** Long after, A has lost its route, hears its own announcement come back, and takes it. */
  lemma Comeback(b: Node, o: Node, air: set<Packet>)
    requires Reached(true, Small(0, Holds(Learned(Dist(0, 0), 3, 0, true)), Dist(0, 1)), b, o, air) &&
             Said(2, Dist(0, 2)) in air
    ensures Reached(true, Small(201, Holds(Learned(Dist(0, 2), 2, 201, true)), Dist(0, 1)), b, o, air)
  {
    hide Can, Apply, Announced, Reached, HoldTime;
    var r, fd, d := Learned(Dist(0, 0), 3, 0, true), Dist(0, 1), Dist(0, 2);
    var a0 := Small(0, Holds(r), fd);
    Silently(CA, a0, Ticked(201));
    MoveA(true, a0, b, o, air, Ticked(201));
    var a1 := Small(201, Holds(r), fd);
    Removes(CA, 201, r, fd);
    Silently(CA, a1, Removed(DEST, 0));
    MoveA(true, a1, b, o, air, Removed(DEST, 0));
    var a2 := Small(201, map[], fd);
    HearsNew(CA, a2, d, 2);
    Silently(CA, a2, Heard(Message(d, 2), 1, 0));
    MoveA(true, a2, b, o, air, Heard(Message(d, 2), 1, 0));
    var a3 := Small(201, Holds(Learned(d, 2, 201, false)), fd);
    Selects(CA, 201, d, 2, 201, fd);
    Silently(CA, a3, Selected(DEST, 0));
    MoveA(true, a3, b, o, air, Selected(DEST, 0));
  }

  /**
   Why the theorem speaks of fresh entries: A learns the destination from its origin and B from A; 201 seconds later,
   at all three, A's source entry is older than SOURCE_GC_TIME while B's route is still good; A has lost its route,
   takes it back from B, and the two forward to each other, with every sequence number equal.
   */
  lemma StaleEntriesLoop()
    returns (ws: seq<World>, es: seq<NetEvent>)
    ensures Run(Triangle(), ws, es) && Loop(Triangle(), Last(ws), SRC, [1, 2, 1])
    ensures forall k | 0 <= k < |ws| :: WorldInWindow(0, ws[k], SRC)
    ensures forall k | 0 <= k < |es| :: Harmless(ws[k], es[k], SRC)
    ensures forall a | a in Last(ws).nodes :: Last(ws).nodes[a].now == 201
    ensures forall a | a in {1, 2} ::
              && a in Last(ws).nodes && |Last(ws).nodes[a].Slot(DEST)| == 1
              && !Last(ws).nodes[a].Slot(DEST)[0].Expired(201)
  {
    hide Run, Loop, WorldInWindow, Harmless, Fits;
    var air := EntriesGoStale();
    var a := Small(201, Holds(Learned(Dist(0, 2), 2, 201, true)), Dist(0, 1));
    var b := Small(201, Holds(Learned(Dist(0, 1), 1, 0, true)), Dist(0, 2));
    ws, es :| ws != [] && ExampleRun(true, ws, es) && Last(ws) == Three(a, b, SILENT.(now := 201), air);
    RunLength(Triangle(), ws, es);
    forall k | 0 <= k < |ws|
      ensures WorldInWindow(0, ws[k], SRC) && (k < |es| ==> Harmless(ws[k], es[k], SRC))
    {
      ExampleAssumes(true, ws, es, k);
    }
    FaceToFace(Last(ws), 201, Dist(0, 2), 201, Dist(0, 1), Dist(0, 1), 0, Dist(0, 2));
  }

  /** After 201 seconds A takes B's route, though B's leads through A. */
  lemma EntriesGoStale() returns (air': set<Packet>)
    ensures Reached(true, Small(201, Holds(Learned(Dist(0, 2), 2, 201, true)), Dist(0, 1)),
                    Small(201, Holds(Learned(Dist(0, 1), 1, 0, true)), Dist(0, 2)), SILENT.(now := 201), air')
  {
    hide Reached;
    Begins();
    MoveO(true, SILENT, SILENT, SILENT, {}, SelfAdvertised(DEST, Dist(0, 0)));
    var air := {Said(3, Dist(0, 0))};
    assert {} + {Packet(3, ORIGIN, DEST, Dist(0, 0))} == air;
    ALearns(true, SILENT, SILENT, air, Dist(0, 0), 3);
    var a := Small(0, Holds(Learned(Dist(0, 0), 3, 0, true)), Dist(0, 1));
    BLearns(true, a, SILENT, air + {Said(1, Dist(0, 1))}, Dist(0, 1), 1);
    var b := Small(0, Holds(Learned(Dist(0, 1), 1, 0, true)), Dist(0, 2));
    var air2 := air + {Said(1, Dist(0, 1))} + {Said(2, Dist(0, 2))};
    Silently(CB, b, Ticked(201));
    MoveB(true, a, b, SILENT, air2, Ticked(201));
    var b' := Small(201, Holds(Learned(Dist(0, 1), 1, 0, true)), Dist(0, 2));
    MoveO(true, a, b', SILENT, air2, Ticked(201));
    Comeback(b', SILENT.(now := 201), air2);
    air' := air2;
  }

  // ---- Refused changes ----

  /** A's kernel refuses the longer metric of a new sequence number; A announces the old metric under it. */
  lemma ABoasts(b: Node, air: set<Packet>)
    requires Reached(false, Small(0, Holds(Learned(Dist(0, 10), 2, 0, true)), Dist(0, 11)), b, SILENT, air)
    requires Said(2, Dist(1, 500)) in air
    ensures Reached(false, Small(0, Holds(Learned(Dist(1, 10), 2, 0, true)), Dist(1, 11)), b, SILENT,
                    air + {Said(1, Dist(1, 11))})
    ensures !NodeHarmless(Small(0, Holds(Learned(Dist(0, 10), 2, 0, true)), Dist(0, 11)),
                          HalfHeard(Message(Dist(1, 500), 2)), SRC)
  {
    BoastIsHarmful();
    hide Can, Apply, Announced, Reached, HoldTime, NodeHarmless;
    var a, fd := Small(0, Holds(Learned(Dist(0, 10), 2, 0, true)), Dist(0, 11)), Dist(0, 11);
    Refreshes(CA, Dist(0, 10), Dist(1, 500), 2, fd);
    Silently(CA, a, HalfHeard(Message(Dist(1, 500), 2)));
    MoveA(false, a, b, SILENT, air, HalfHeard(Message(Dist(1, 500), 2)));
    Advertises(CA, Dist(1, 10), 2, fd);
    var a' := Small(0, Holds(Learned(Dist(1, 10), 2, 0, true)), fd);
    MoveA(false, a', b, SILENT, air, Advertised(DEST, Interfering, 0));
  }

  lemma BoastIsHarmful()
    ensures !NodeHarmless(Small(0, Holds(Learned(Dist(0, 10), 2, 0, true)), Dist(0, 11)),
                          HalfHeard(Message(Dist(1, 500), 2)), SRC)
  {
    hide HoldTime;
    var n, r := Small(0, Holds(Learned(Dist(0, 10), 2, 0, true)), Dist(0, 11)), Learned(Dist(0, 10), 2, 0, true);
    assert n.Slot(DEST) == [r] && Find([r], (Towards(2), LINK)) == 0;
  }

  /** B hears the new sequence number at a longer metric, and says so. */
  lemma BMovesOn(a: Node, air: set<Packet>)
    requires Reached(false, a, Small(0, Holds(Learned(Dist(0, 9), 3, 0, true)), Dist(0, 10)), SILENT, air)
    requires Said(3, Dist(1, 499)) in air
    ensures Reached(false, a, Small(0, Holds(Learned(Dist(1, 499), 3, 0, true)), Dist(1, 500)), SILENT,
                    air + {Said(2, Dist(1, 500))})
  {
    hide Can, Apply, Announced, Reached, HoldTime;
    var b := Small(0, Holds(Learned(Dist(0, 9), 3, 0, true)), Dist(0, 10));
    var fd, u := Dist(0, 10), Message(Dist(1, 499), 3);
    Refreshes(CB, Dist(0, 9), Dist(1, 499), 3, fd);
    Silently(CB, b, Heard(u, 1, 0));
    MoveB(false, a, b, SILENT, air, Heard(u, 1, 0));
    Advertises(CB, Dist(1, 499), 3, fd);
    var b' := Small(0, Holds(Learned(Dist(1, 499), 3, 0, true)), fd);
    MoveB(false, a, b', SILENT, air, Advertised(DEST, Interfering, 0));
  }

  /** B loses its route and believes A. */
  lemma BBelieves(a: Node, air: set<Packet>)
    requires Reached(false, a, Small(0, Holds(Learned(Dist(1, 499), 3, 0, true)), Dist(1, 500)), SILENT, air)
    requires Said(1, Dist(1, 11)) in air
    ensures Reached(false, a, Small(0, Holds(Learned(Dist(1, 11), 1, 0, true)), Dist(1, 500)), SILENT, air)
  {
    hide Can, Apply, Announced, Reached, HoldTime;
    var r, fd, d := Learned(Dist(1, 499), 3, 0, true), Dist(1, 500), Dist(1, 11);
    Removes(CB, 0, r, fd);
    Silently(CB, Small(0, Holds(r), fd), Removed(DEST, 0));
    MoveB(false, a, Small(0, Holds(r), fd), SILENT, air, Removed(DEST, 0));
    var b2 := Small(0, map[], fd);
    HearsNew(CB, b2, d, 1);
    Silently(CB, b2, Heard(Message(d, 1), 1, 0));
    MoveB(false, a, b2, SILENT, air, Heard(Message(d, 1), 1, 0));
    var b3 := Small(0, Holds(Learned(d, 1, 0, false)), fd);
    Selects(CB, 0, d, 1, 0, fd);
    Silently(CB, b3, Selected(DEST, 0));
    MoveB(false, a, b3, SILENT, air, Selected(DEST, 0));
  }

  /**
   Why the theorem speaks of harmless refusals: the origin's path gets longer under a new sequence number, A's kernel
   refuses the longer metric, A goes on announcing the short one, and B, having lost its route, forwards to A.
   */
  lemma RefusedChangeLoops()
    returns (ws: seq<World>, es: seq<NetEvent>)
    ensures Run(Triangle(), ws, es) && Loop(Triangle(), Last(ws), SRC, [1, 2, 1])
    ensures forall k | 0 <= k < |es| :: StepAssumed(ws[k], ws[k + 1], SRC)
  {
    hide Run, Loop, Assumed, Fits;
    var air := BoastIsBelieved();
    var a := Small(0, Holds(Learned(Dist(1, 10), 2, 0, true)), Dist(1, 11));
    var b := Small(0, Holds(Learned(Dist(1, 11), 1, 0, true)), Dist(1, 500));
    ws, es :| ws != [] && ExampleRun(false, ws, es) && Last(ws) == Three(a, b, SILENT, air);
    RunLength(Triangle(), ws, es);
    forall k | 0 <= k < |es|
      ensures StepAssumed(ws[k], ws[k + 1], SRC)
    {
      ExampleAssumes(false, ws, es, k);
    }
    FaceToFace(Last(ws), 0, Dist(1, 10), 0, Dist(1, 11), Dist(1, 11), 0, Dist(1, 500));
  }

  /** B has switched to A, whose own route leads through B. */
  lemma BoastIsBelieved() returns (air: set<Packet>)
    ensures Reached(false, Small(0, Holds(Learned(Dist(1, 10), 2, 0, true)), Dist(1, 11)),
                    Small(0, Holds(Learned(Dist(1, 11), 1, 0, true)), Dist(1, 500)), SILENT, air)
  {
    hide Reached;
    Begins();
    var d0, d1 := Dist(0, 9), Dist(1, 499);
    MoveO(false, SILENT, SILENT, SILENT, {}, SelfAdvertised(DEST, d0));
    var air0 := {} + {Said(3, d0)};
    BLearns(false, SILENT, SILENT, air0, d0, 3);
    var b0 := Small(0, Holds(Learned(d0, 3, 0, true)), Dist(0, 10));
    var air1 := air0 + {Said(2, Dist(0, 10))};
    ALearns(false, b0, SILENT, air1, Dist(0, 10), 2);
    var a0 := Small(0, Holds(Learned(Dist(0, 10), 2, 0, true)), Dist(0, 11));
    var air2 := air1 + {Said(1, Dist(0, 11))};
    MoveO(false, a0, b0, SILENT, air2, SelfAdvertised(DEST, d1));
    var air3 := air2 + {Said(3, d1)};
    BMovesOn(a0, air3);
    var b1 := Small(0, Holds(Learned(d1, 3, 0, true)), Dist(1, 500));
    var air4 := air3 + {Said(2, Dist(1, 500))};
    ABoasts(b1, air4);
    var a1 := Small(0, Holds(Learned(Dist(1, 10), 2, 0, true)), Dist(1, 11));
    var air5 := air4 + {Said(1, Dist(1, 11))};
    BBelieves(a1, air5);
    air := air5;
  }
}
