/** Sequences of steps of one router, and what they do to the set of routes it holds. */
module BabelRuns {
  import opened Bytes
  import opened Seqno
  import opened BabelNode

  /** n' is reached from n by the events, each possible where it happens, hearing only updates in h. */
  ghost predicate Runs(c: Config, n: Node, es: seq<Event>, n': Node, h: set<Update>)
    decreases |es|
  {
    if es == [] then n == n'
    else
      && Can(c, n, es[0]) && Hears(es[0], h)
      && Runs(c, Apply(c, n, es[0]), es[1..], n', h)
  }

  ghost predicate Evolves(c: Config, n: Node, n': Node, h: set<Update>) {
    exists es :: Runs(c, n, es, n', h)
  }

  lemma EvolvesRefl(c: Config, n: Node, h: set<Update>)
    ensures Evolves(c, n, n, h)
  {
    assert Runs(c, n, [], n, h);
  }

  lemma EvolvesOne(c: Config, n: Node, e: Event, h: set<Update>)
    requires Can(c, n, e) && Hears(e, h)
    ensures Evolves(c, n, Apply(c, n, e), h)
  {
    var n' := Apply(c, n, e);
    assert Runs(c, n', [], n', h);
    assert [e][1..] == [];
    assert Runs(c, n, [e], n', h);
  }

  lemma {:induction false} RunsTrans(c: Config, n: Node, es: seq<Event>, m: Node, fs: seq<Event>, n': Node,
                                     h: set<Update>)
    requires Runs(c, n, es, m, h) && Runs(c, m, fs, n', h)
    ensures Runs(c, n, es + fs, n', h)
    decreases |es|
  {
    if es == [] {
      assert es + fs == fs;
    } else {
      RunsTrans(c, Apply(c, n, es[0]), es[1..], m, fs, n', h);
      assert (es + fs)[1..] == es[1..] + fs;
    }
  }

  lemma {:induction false} RunsWiden(c: Config, n: Node, es: seq<Event>, n': Node, h: set<Update>, h': set<Update>)
    requires Runs(c, n, es, n', h) && h <= h'
    ensures Runs(c, n, es, n', h')
    decreases |es|
  {
    if es != [] {
      RunsWiden(c, Apply(c, n, es[0]), es[1..], n', h, h');
    }
  }

  lemma EvolvesWiden(c: Config, n: Node, n': Node, h: set<Update>, h': set<Update>)
    requires Evolves(c, n, n', h) && h <= h'
    ensures Evolves(c, n, n', h')
  {
    var es :| Runs(c, n, es, n', h);
    RunsWiden(c, n, es, n', h, h');
  }

  lemma EvolvesTrans(c: Config, n: Node, m: Node, n': Node, h: set<Update>)
    requires Evolves(c, n, m, h) && Evolves(c, m, n', h)
    ensures Evolves(c, n, n', h)
  {
    var es :| Runs(c, n, es, m, h);
    var fs :| Runs(c, m, fs, n', h);
    RunsTrans(c, n, es, m, fs, n', h);
  }

  lemma {:induction false} RunsKeepGood(c: Config, n: Node, es: seq<Event>, n': Node, h: set<Update>)
    requires Good(c, n) && Runs(c, n, es, n', h)
    ensures Good(c, n')
    decreases |es|
  {
    if es != [] {
      StepKeepsGood(c, n, es[0]);
      RunsKeepGood(c, Apply(c, n, es[0]), es[1..], n', h);
    }
  }

  /** Whatever a router does, its table stays well formed and disjoint from the redistributed routes. */
  lemma EvolvesKeepsGood(c: Config, n: Node, n': Node, h: set<Update>)
    requires Good(c, n) && Evolves(c, n, n', h)
    ensures Good(c, n')
  {
    var es :| Runs(c, n, es, n', h);
    RunsKeepGood(c, n, es, n', h);
  }

  /** One more step at the end. */
  lemma EvolvesThen(c: Config, n: Node, m: Node, e: Event, h: set<Update>)
    requires Evolves(c, n, m, h) && Can(c, m, e) && Hears(e, h)
    ensures Evolves(c, n, Apply(c, m, e), h)
  {
    EvolvesOne(c, m, e, h);
    EvolvesTrans(c, n, m, Apply(c, m, e), h);
  }

  // ---- The routes held, whether installed or not ----

  function Body(r: Route): Route {
    r.(installed := false)
  }

  ghost function BodySet(l: seq<Route>): set<Route> {
    set i | 0 <= i < |l| :: Body(l[i])
  }

  ghost function Bodies(n: Node): set<Route> {
    set p, b | p in n.table && b in BodySet(n.table[p]) :: b
  }

  /** How many routes point at source k: what route_count should be. */
  ghost function RefCount(bs: set<Route>, k: SourceKey): nat {
    |set b | b in bs && b.src == k|
  }

  lemma BodiesWithSlot(c: Config, n: Node, p: Prefix, l: seq<Route>)
    requires Good(c, n) && GoodList(c, p, l)
    ensures Bodies(n.WithSlot(p, l)) == Bodies(n) - BodySet(n.Slot(p)) + BodySet(l)
  {
    var n' := n.WithSlot(p, l);
    forall b | b in Bodies(n) - BodySet(n.Slot(p)) + BodySet(l)
      ensures b in Bodies(n')
    {
      if b in BodySet(l) {
        assert p in n'.table && n'.table[p] == l;
      } else {
        var q :| q in n.table && b in BodySet(n.table[q]);
        assert q in n'.table && n'.table[q] == n.table[q];
      }
    }
    forall b | b in Bodies(n')
      ensures b in Bodies(n) - BodySet(n.Slot(p)) + BodySet(l)
    {
      var q :| q in n'.table && b in BodySet(n'.table[q]);
      if q != p {
        assert n.table[q] == n'.table[q] && b.src.prefix == q;
      }
    }
  }

  lemma BodySetReplace(c: Config, p: Prefix, l: seq<Route>, j: nat, r: Route)
    requires GoodList(c, p, l) && j < |l|
    ensures BodySet(l[j := r]) == BodySet(l) - {Body(l[j])} + {Body(r)}
  {
    var l' := l[j := r];
    forall b | b in BodySet(l) - {Body(l[j])} + {Body(r)}
      ensures b in BodySet(l')
    {
      if b == Body(r) {
        assert l'[j] == r;
      } else {
        var i :| 0 <= i < |l| && Body(l[i]) == b;
        assert l'[i] == l[i];
      }
    }
    forall b | b in BodySet(l')
      ensures b in BodySet(l) - {Body(l[j])} + {Body(r)}
    {
      var i :| 0 <= i < |l'| && Body(l'[i]) == b;
      if i != j {
        assert l'[i] == l[i] && l[i].Key() != l[j].Key();
      }
    }
  }

  lemma BodySetRemove(c: Config, p: Prefix, l: seq<Route>, j: nat)
    requires GoodList(c, p, l) && j < |l|
    ensures BodySet(l[..j] + l[j + 1..]) == BodySet(l) - {Body(l[j])}
  {
    var l' := l[..j] + l[j + 1..];
    forall b | b in BodySet(l) - {Body(l[j])}
      ensures b in BodySet(l')
    {
      var i :| 0 <= i < |l| && Body(l[i]) == b;
      assert l'[if i < j then i else i - 1] == l[i];
    }
    forall b | b in BodySet(l')
      ensures b in BodySet(l) - {Body(l[j])}
    {
      var i :| 0 <= i < |l'| && Body(l'[i]) == b;
      var k := if i < j then i else i + 1;
      assert l'[i] == l[k] && l[k].Key() != l[j].Key();
    }
  }

  lemma BodySetAppend(l: seq<Route>, r: Route)
    ensures BodySet(l + [r]) == BodySet(l) + {Body(r)}
  {
    var l' := l + [r];
    assert l'[|l|] == r && forall i | 0 <= i < |l| :: l'[i] == l[i];
  }

  lemma BodySetPromote(l: seq<Route>, j: nat)
    requires j < |l|
    ensures BodySet(Promote(l, j)) == BodySet(l)
  {
    var l' := Promote(l, j);
    forall b | b in BodySet(l)
      ensures b in BodySet(l')
    {
      var i :| 0 <= i < |l| && Body(l[i]) == b;
      assert Body(l'[if i == j then 0 else if i < j then i + 1 else i]) == b;
    }
    forall b | b in BodySet(l')
      ensures b in BodySet(l)
    {
      var i :| 0 <= i < |l'| && Body(l'[i]) == b;
      assert Body(l[if i == 0 then j else if i <= j then i - 1 else i]) == b;
    }
  }

  /** Selecting and uninstalling routes moves flags about: the router holds the same routes. */
  lemma FlagsKeepBodies(c: Config, n: Node, e: Event)
    requires Good(c, n) && Can(c, n, e) && (e.Selected? || e.Uninstalled?)
    ensures Bodies(Apply(c, n, e)) == Bodies(n)
  {
    var l := n.Slot(e.prefix);
    if e.Selected? {
      PromoteGood(c, e.prefix, l, e.j);
      BodiesWithSlot(c, n, e.prefix, Promote(l, e.j));
      BodySetPromote(l, e.j);
    } else {
      ReplaceGood(c, e.prefix, l, 0, Demote(l)[0]);
      BodiesWithSlot(c, n, e.prefix, Demote(l));
      BodySetReplace(c, e.prefix, l, 0, Demote(l)[0]);
    }
    SlotBodiesIncluded(n, e.prefix);
  }

  lemma SlotBodiesIncluded(n: Node, p: Prefix)
    ensures BodySet(n.Slot(p)) <= Bodies(n)
  {
    forall b | b in BodySet(n.Slot(p)) ensures b in Bodies(n) {
      assert p in n.table && b in BodySet(n.table[p]);
    }
  }

  /** Removing a route takes exactly that route away. */
  lemma RemovedBodies(c: Config, n: Node, p: Prefix, j: nat)
    requires Good(c, n) && j < |n.Slot(p)|
    ensures Bodies(Apply(c, n, Removed(p, j))) == Bodies(n) - {Body(n.Slot(p)[j])}
    ensures Body(n.Slot(p)[j]) in Bodies(n)
  {
    var l := n.Slot(p);
    RemoveGood(c, p, l, j);
    BodiesWithSlot(c, n, p, l[..j] + l[j + 1..]);
    BodySetRemove(c, p, l, j);
    SlotBodiesIncluded(n, p);
  }

  /** Rewriting a route in place exchanges the old one for the new one. */
  lemma EditedBodies(c: Config, n: Node, p: Prefix, j: nat, r: Route)
    requires Good(c, n) && j < |n.Slot(p)| && GoodList(c, p, n.Slot(p)[j := r])
    ensures Bodies(n.WithSlot(p, n.Slot(p)[j := r])) == Bodies(n) - {Body(n.Slot(p)[j])} + {Body(r)}
    ensures Body(n.Slot(p)[j]) in Bodies(n)
    ensures Body(r) in Bodies(n) ==> Body(r) == Body(n.Slot(p)[j])
  {
    BodiesWithSlot(c, n, p, n.Slot(p)[j := r]);
    BodySetReplace(c, p, n.Slot(p), j, r);
    SlotBodiesIncluded(n, p);
    var l := n.Slot(p);
    assert l[j := r][j] == r;
    if Body(r) in Bodies(n) {
      BodyHasPlace(c, n, Body(r));
      var i :| 0 <= i < |l| && Body(l[i]) == Body(r);
      assert i != j ==> l[j := r][i] == l[i] && l[i].Key() != r.Key();
    }
  }

  lemma BodyHasPlace(c: Config, n: Node, b: Route)
    requires Good(c, n) && b in Bodies(n)
    ensures b in BodySet(n.Slot(b.src.prefix))
  {
    var q :| q in n.table && b in BodySet(n.table[q]);
    assert b.src.prefix == q;
  }

  lemma AppendedBodies(c: Config, n: Node, p: Prefix, r: Route)
    requires Good(c, n) && GoodList(c, p, n.Slot(p) + [r])
    ensures Bodies(n.WithSlot(p, n.Slot(p) + [r])) == Bodies(n) + {Body(r)}
    ensures Body(r) !in Bodies(n)
  {
    var l := n.Slot(p);
    BodiesWithSlot(c, n, p, l + [r]);
    BodySetAppend(l, r);
    SlotBodiesIncluded(n, p);
    var l' := l + [r];
    assert l'[|l|] == r && forall i | 0 <= i < |l| :: l'[i] == l[i] && l'[i].Key() != l'[|l|].Key();
    assert Body(r) !in BodySet(l);
    if Body(r) in Bodies(n) {
      BodyHasPlace(c, n, Body(r));
    }
  }

  lemma CountAdd(bs: set<Route>, b: Route, k: SourceKey)
    requires b !in bs
    ensures RefCount(bs + {b}, k) == RefCount(bs, k) + if b.src == k then 1 else 0
  {
    var s := set x | x in bs && x.src == k;
    if b.src == k {
      assert (set x | x in bs + {b} && x.src == k) == s + {b};
    } else {
      assert (set x | x in bs + {b} && x.src == k) == s;
    }
  }

  lemma CountRemove(bs: set<Route>, b: Route, k: SourceKey)
    requires b in bs
    ensures RefCount(bs - {b}, k) == RefCount(bs, k) - if b.src == k then 1 else 0
  {
    CountAdd(bs - {b}, b, k);
    assert bs - {b} + {b} == bs;
  }

  lemma CountExchange(bs: set<Route>, old': Route, new': Route, k: SourceKey)
    requires old' in bs && (new' in bs ==> new' == old')
    ensures RefCount(bs - {old'} + {new'}, k) ==
            RefCount(bs, k) - (if old'.src == k then 1 else 0) + (if new'.src == k then 1 else 0)
  {
    CountRemove(bs, old', k);
    CountAdd(bs - {old'}, new', k);
  }
}
