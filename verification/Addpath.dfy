/**
 Identifiers for BGP additional paths (RFC 7911) under one advertising strategy of one address family: the
 allocator, the identifier each path holds, and the per-prefix pools that keep identifiers between a path that
 gives one up and a path that needs one.
 */
module Addpath {
  type u32 = x: int | 0 <= x < 0x1_0000_0000

  const INVALID: u32 := 0
  const FOR_DEFAULT_ORIGINATE: u32 := 1

  datatype Strategy = All | BestPerAs | BestSelected

  datatype Path = Path(id: u32, dmed: bool)

  /**
   A prefix: its paths, those taken off its list that an advertisement still refers to, and the identifiers
   waiting to be given out again.
   */
  datatype Dest = Dest(paths: seq<Path>, lingering: seq<Path>, pool: seq<u32>)

  /** bgp_addpath_tx_path: best-per-AS sends only the paths that won their AS. */
  predicate Eligible(strategy: Strategy, p: Path) {
    strategy.BestPerAs? ==> p.dmed
  }

  // ---- Identifiers held ----

  function IdOf(p: Path): multiset<u32> {
    if p.id == INVALID then multiset{} else multiset{p.id}
  }

  function PathIds(paths: seq<Path>): multiset<u32> {
    if paths == [] then multiset{} else PathIds(paths[..|paths| - 1]) + IdOf(paths[|paths| - 1])
  }

  function DestIds(d: Dest): multiset<u32> {
    PathIds(d.paths) + PathIds(d.lingering) + multiset(d.pool)
  }

  function Ids(dests: seq<Dest>): multiset<u32> {
    if dests == [] then multiset{} else Ids(dests[..|dests| - 1]) + DestIds(dests[|dests| - 1])
  }

  /** Adding the same to both sides. */
  lemma Both(a: multiset<u32>, b: multiset<u32>, x: multiset<u32>, y: multiset<u32>, more: multiset<u32>)
    requires a + x == b + y
    ensures a + more + x == b + more + y
  {
    assert a + more + x == (a + x) + more;
    assert b + more + y == (b + y) + more;
  }

  lemma {:induction false} PathIdsExchange(paths: seq<Path>, k: nat, p: Path)
    requires k < |paths|
    ensures PathIds(paths[k := p]) + IdOf(paths[k]) == PathIds(paths) + IdOf(p)
    decreases |paths|
  {
    hide IdOf;
    var n := |paths| - 1;
    if k == n {
      assert paths[k := p][..n] == paths[..n];
    } else {
      PathIdsExchange(paths[..n], k, p);
      assert paths[k := p][..n] == paths[..n][k := p];
      Both(PathIds(paths[..n][k := p]), PathIds(paths[..n]), IdOf(paths[k]), IdOf(p), IdOf(paths[n]));
    }
  }

  lemma {:induction false} IdsExchange(dests: seq<Dest>, i: nat, d: Dest)
    requires i < |dests|
    ensures Ids(dests[i := d]) + DestIds(dests[i]) == Ids(dests) + DestIds(d)
    decreases |dests|
  {
    hide DestIds;
    var n := |dests| - 1;
    if i == n {
      assert dests[i := d][..n] == dests[..n];
    } else {
      IdsExchange(dests[..n], i, d);
      assert dests[i := d][..n] == dests[..n][i := d];
      Both(Ids(dests[..n][i := d]), Ids(dests[..n]), DestIds(dests[i]), DestIds(d), DestIds(dests[n]));
    }
  }

  /** The allocator's books: what is marked used is what is reserved and what is held, each exactly once. */
  predicate Balanced(used: set<u32>, held: multiset<u32>) {
    multiset(used) == multiset{INVALID, FOR_DEFAULT_ORIGINATE} + held
  }

  // ---- No identifier is held twice ----

  lemma {:induction false} PathHolds(paths: seq<Path>, k: nat)
    requires k < |paths| && paths[k].id != INVALID
    ensures PathIds(paths)[paths[k].id] >= 1
    decreases |paths|
  {
    var n := |paths| - 1;
    if k < n {
      PathHolds(paths[..n], k);
    }
  }

  lemma {:induction false} PathsHoldTwice(paths: seq<Path>, j: nat, k: nat)
    requires j < k < |paths| && paths[j].id == paths[k].id != INVALID
    ensures PathIds(paths)[paths[k].id] >= 2
    decreases |paths|
  {
    var n := |paths| - 1;
    if k == n {
      PathHolds(paths[..n], j);
    } else {
      PathsHoldTwice(paths[..n], j, k);
    }
  }

  lemma {:induction false} DestHolds(dests: seq<Dest>, i: nat)
    requires i < |dests|
    ensures DestIds(dests[i]) <= Ids(dests)
    decreases |dests|
  {
    hide DestIds;
    var n := |dests| - 1;
    if i < n {
      DestHolds(dests[..n], i);
    }
  }

  lemma {:induction false} DestsHoldBoth(dests: seq<Dest>, i: nat, j: nat)
    requires i < j < |dests|
    ensures DestIds(dests[i]) + DestIds(dests[j]) <= Ids(dests)
    decreases |dests|
  {
    hide DestIds;
    var n := |dests| - 1;
    if j == n {
      DestHolds(dests[..n], i);
    } else {
      DestsHoldBoth(dests[..n], i, j);
    }
  }

  /** Two paths, of one prefix or of two, never carry the same identifier, and none carries a reserved one. */
  lemma IdsAreUnique(used: set<u32>, dests: seq<Dest>, i: nat, j: nat, k: nat, l: nat)
    requires Balanced(used, Ids(dests))
    requires i < |dests| && j < |dests| && k < |dests[i].paths| && l < |dests[j].paths| && (i, k) != (j, l)
    requires dests[i].paths[k].id != INVALID
    ensures dests[i].paths[k].id != dests[j].paths[l].id
    ensures dests[i].paths[k].id != FOR_DEFAULT_ORIGINATE && dests[i].paths[k].id in used
  {
    hide PathIds, Ids;
    var x := dests[i].paths[k].id;
    PathHolds(dests[i].paths, k);
    DestHolds(dests, i);
    assert Ids(dests)[x] >= DestIds(dests[i])[x] >= 1;
    assert multiset(used)[x] <= 1;
    assert x == FOR_DEFAULT_ORIGINATE ==> multiset(used)[x] >= 2;
    if dests[j].paths[l].id == x {
      if i == j {
        PathsHoldTwice(dests[i].paths, if k < l then k else l, if k < l then l else k);
      } else {
        PathHolds(dests[j].paths, l);
        DestsHoldBoth(dests, if i < j then i else j, if i < j then j else i);
      }
      assert false;
    }
  }

  // ---- The allocator ----

  predicate Full(used: set<u32>) {
    forall id: u32 :: id in used
  }

  /** Any free identifier, or the invalid one when there is none left. */
  method Allocate(used: set<u32>) returns (id: u32, used': set<u32>)
    requires INVALID in used
    ensures id == INVALID ==> Full(used) && used' == used
    ensures id != INVALID ==> id !in used && used' == used + {id}
  {
    if exists x :: 0 <= x < 0x1_0000_0000 && x !in used {
      var x :| 0 <= x < 0x1_0000_0000 && x !in used;
      return x, used + {x};
    }
    return INVALID, used;
  }

  /** Identifiers in the pool go back to the allocator. */
  method Drain(used: set<u32>, pool: seq<u32>, ghost rest: multiset<u32>) returns (used': set<u32>)
    requires Balanced(used, rest + multiset(pool))
    ensures Balanced(used', rest) && used' <= used
  {
    used' := used;
    var i := 0;
    while i < |pool|
      invariant 0 <= i <= |pool| && used' <= used
      invariant Balanced(used', rest + multiset(pool[i..]))
    {
      assert pool[i..] == [pool[i]] + pool[i + 1..];
      Unmark(used', rest + multiset(pool[i + 1..]), pool[i]);
      used' := used' - {pool[i]};
      i := i + 1;
    }
    assert pool[i..] == [];
  }

  lemma Unmark(used: set<u32>, held: multiset<u32>, id: u32)
    requires Balanced(used, held + multiset{id})
    ensures id in used && Balanced(used - {id}, held)
  {
    assert multiset(used)[id] >= 1;
    assert multiset(used - {id}) == multiset(used) - multiset{id};
  }

  lemma Mark(used: set<u32>, held: multiset<u32>, id: u32)
    requires Balanced(used, held) && id !in used
    ensures Balanced(used + {id}, held + multiset{id})
  {
    assert multiset(used + {id}) == multiset(used) + multiset{id};
  }

  // ---- The three passes over a prefix ----

  /** Takes identifiers from paths that are no longer to be sent. */
  method Release(strategy: Strategy, paths: seq<Path>, pool: seq<u32>) returns (paths': seq<Path>, pool': seq<u32>)
    ensures PathIds(paths') + multiset(pool') == PathIds(paths) + multiset(pool)
    ensures |paths'| == |paths|
    ensures forall k :: 0 <= k < |paths| ==>
                          paths'[k] == if Eligible(strategy, paths[k]) then paths[k] else paths[k].(id := INVALID)
    ensures paths' == paths ==> pool' == pool
  {
    hide PathIds;
    paths', pool' := paths, pool;
    var i := 0;
    while i < |paths|
      invariant 0 <= i <= |paths| == |paths'|
      invariant PathIds(paths') + multiset(pool') == PathIds(paths) + multiset(pool)
      invariant forall k :: i <= k < |paths| ==> paths'[k] == paths[k]
      invariant forall k :: 0 <= k < i ==>
                              paths'[k] == if Eligible(strategy, paths[k]) then paths[k] else paths[k].(id := INVALID)
      invariant paths' == paths ==> pool' == pool
    {
      var p := paths'[i];
      if p.id != INVALID && !Eligible(strategy, p) {
        PathIdsExchange(paths', i, p.(id := INVALID));
        MoveOne(PathIds(paths'[i := p.(id := INVALID)]), PathIds(paths'), pool', p.id);
        pool' := [p.id] + pool';
        paths' := paths'[i := p.(id := INVALID)];
      }
      i := i + 1;
    }
  }

  lemma MoveOne(after: multiset<u32>, before: multiset<u32>, pool: seq<u32>, id: u32)
    requires after + multiset{id} == before + multiset{}
    ensures after + multiset([id] + pool) == before + multiset(pool)
  {
    assert after + multiset([id] + pool) == (after + multiset{id}) + multiset(pool);
  }

  /** Gives identifiers to paths that are to be sent and have none, from the pool as long as it lasts. */
  method Assign(strategy: Strategy, paths: seq<Path>, pool: seq<u32>, used: set<u32>, ghost rest: multiset<u32>)
    returns (paths': seq<Path>, pool': seq<u32>, used': set<u32>)
    requires Balanced(used, rest + PathIds(paths) + multiset(pool))
    ensures Balanced(used', rest + PathIds(paths') + multiset(pool'))
    ensures |paths'| == |paths|
    ensures forall k :: 0 <= k < |paths| ==> Given(strategy, paths[k], paths'[k], used', pool')
    ensures used' == used || pool' == []
    ensures used <= used' && |pool'| <= |pool|
  {
    hide PathIds, Balanced, Full;
    paths', pool', used' := paths, pool, used;
    var i := 0;
    while i < |paths|
      invariant 0 <= i <= |paths| == |paths'|
      invariant Balanced(used', rest + PathIds(paths') + multiset(pool'))
      invariant forall k :: i <= k < |paths| ==> paths'[k] == paths[k]
      invariant forall k :: 0 <= k < i ==> Given(strategy, paths[k], paths'[k], used', pool')
      invariant used' == used || pool' == []
      invariant used <= used' && |pool'| <= |pool|
    {
      var p := paths'[i];
      if p.id == INVALID && Eligible(strategy, p) {
        var id;
        ghost var before := paths';
        if pool' != [] {
          id := pool'[0];
          TakeOne(used', rest, before, i, pool');
          pool' := pool'[1..];
        } else {
          ReservedIsUsed(used', rest + PathIds(paths') + multiset(pool'));
          ghost var u := used';
          id, used' := Allocate(used');
          GiveOne(u, rest, before, i, id, pool');
          FullStays(u, used');
        }
        paths' := paths'[i := p.(id := id)];
      }
      i := i + 1;
    }
  }

  /** A path that is to be sent has an identifier unless they have run out; one that had one keeps it. */
  predicate Given(strategy: Strategy, before: Path, after: Path, used: set<u32>, pool: seq<u32>) {
    && after.dmed == before.dmed
    && (before.id != INVALID || !Eligible(strategy, before) ==> after == before)
    && (Eligible(strategy, before) && after.id == INVALID ==> Full(used) && pool == [])
  }

  lemma FullStays(used: set<u32>, used': set<u32>)
    requires used <= used'
    ensures Full(used) ==> Full(used')
  {
  }

  lemma ReservedIsUsed(used: set<u32>, held: multiset<u32>)
    requires Balanced(used, held)
    ensures INVALID in used
  {
    assert INVALID in multiset(used);
  }

  lemma TakeOne(used: set<u32>, rest: multiset<u32>, paths: seq<Path>, i: nat, pool: seq<u32>)
    requires i < |paths| && paths[i].id == INVALID && pool != []
    requires Balanced(used, rest + PathIds(paths) + multiset(pool))
    ensures pool[0] != INVALID
    ensures Balanced(used, rest + PathIds(paths[i := paths[i].(id := pool[0])]) + multiset(pool[1..]))
  {
    hide PathIds;
    var p := paths[i].(id := pool[0]);
    assert pool == [pool[0]] + pool[1..];
    PoolIdReal(used, rest + PathIds(paths), pool, 0);
    PathIdsExchange(paths, i, p);
    assert PathIds(paths[i := p]) == PathIds(paths) + multiset{pool[0]};
  }

  lemma GiveOne(used: set<u32>, rest: multiset<u32>, paths: seq<Path>, i: nat, id: u32, pool: seq<u32>)
    requires i < |paths| && paths[i].id == INVALID && pool == []
    requires Balanced(used, rest + PathIds(paths) + multiset(pool)) && (id == INVALID || id !in used)
    ensures Balanced(if id == INVALID then used else used + {id},
                     rest + PathIds(paths[i := paths[i].(id := id)]) + multiset(pool))
  {
    hide PathIds;
    var p := paths[i].(id := id);
    PathIdsExchange(paths, i, p);
    if id == INVALID {
      assert p == paths[i] && paths[i := p] == paths;
    } else {
      assert PathIds(paths[i := p]) == PathIds(paths) + multiset{id};
      Mark(used, rest + PathIds(paths) + multiset(pool), id);
      assert rest + PathIds(paths[i := p]) + multiset(pool) == rest + PathIds(paths) + multiset(pool) + multiset{id};
    }
  }

  lemma PoolIdReal(used: set<u32>, held: multiset<u32>, pool: seq<u32>, k: nat)
    requires Balanced(used, held + multiset(pool)) && k < |pool|
    ensures pool[k] != INVALID
  {
    assert pool[k] in multiset(pool);
    assert multiset(used)[pool[k]] <= 1;
    ghost var all := multiset{INVALID, FOR_DEFAULT_ORIGINATE} + (held + multiset(pool));
    assert all[pool[k]] >= (if pool[k] == INVALID then 2 else 1);
  }

  lemma {:induction false} PathIdsRemove(paths: seq<Path>, k: nat)
    requires k < |paths|
    ensures PathIds(paths[..k] + paths[k + 1..]) + IdOf(paths[k]) == PathIds(paths)
    decreases |paths|
  {
    hide IdOf;
    var n := |paths| - 1;
    var left := paths[..k] + paths[k + 1..];
    if k == n {
      assert left == paths[..n];
    } else {
      PathIdsRemove(paths[..n], k);
      assert left[..n - 1] == paths[..n][..k] + paths[..n][k + 1..];
      Both(PathIds(left[..n - 1]), PathIds(paths[..n]), IdOf(paths[k]), multiset{}, IdOf(paths[n]));
    }
  }

  lemma {:induction false} IdsRemove(dests: seq<Dest>, i: nat)
    requires i < |dests|
    ensures Ids(dests[..i] + dests[i + 1..]) + DestIds(dests[i]) == Ids(dests)
    decreases |dests|
  {
    hide DestIds;
    var n := |dests| - 1;
    var left := dests[..i] + dests[i + 1..];
    if i == n {
      assert left == dests[..n];
    } else {
      IdsRemove(dests[..n], i);
      assert left[..n - 1] == dests[..n][..i] + dests[..n][i + 1..];
      Both(Ids(left[..n - 1]), Ids(dests[..n]), DestIds(dests[i]), multiset{}, DestIds(dests[n]));
    }
  }

  /** Everything held, seen from one prefix. */
  lemma Elsewhere(dests: seq<Dest>, i: nat, d: Dest)
    requires i < |dests|
    ensures DestIds(dests[i]) <= Ids(dests)
    ensures Ids(dests[i := d]) == (Ids(dests) - DestIds(dests[i])) + DestIds(d)
  {
    hide DestIds, Ids;
    DestHolds(dests, i);
    IdsExchange(dests, i, d);
    assert Ids(dests[i := d]) == (Ids(dests[i := d]) + DestIds(dests[i])) - DestIds(dests[i]);
    assert (Ids(dests) + DestIds(d)) - DestIds(dests[i]) == (Ids(dests) - DestIds(dests[i])) + DestIds(d);
  }

  lemma SameHeld(used: set<u32>, used': set<u32>, rest: multiset<u32>, x: multiset<u32>, y: multiset<u32>)
    requires Balanced(used, rest + x) && Balanced(used', rest + y) && used <= used'
    ensures x <= y
    ensures used == used' ==> x == y
  {
    var both := multiset{INVALID, FOR_DEFAULT_ORIGINATE} + rest;
    assert both + x == multiset(used) && both + y == multiset(used');
    assert multiset(used) <= multiset(used');
    assert (both + x) - both == x && (both + y) - both == y;
  }

  /** The outcome of a round for one path: exactly the paths to be sent hold identifiers, and none is exchanged. */
  predicate Updated(strategy: Strategy, before: Path, after: Path, used: set<u32>) {
    && after.dmed == before.dmed
    && (!Eligible(strategy, before) ==> after.id == INVALID)
    && (Eligible(strategy, before) && before.id != INVALID ==> after.id == before.id)
    && (Eligible(strategy, before) && after.id == INVALID ==> Full(used))
  }

  /** The passes over a prefix: release, assign, and hand back what is left over. */
  method Passes(strategy: Strategy, paths: seq<Path>, pool: seq<u32>, used: set<u32>, ghost rest: multiset<u32>)
    returns (paths': seq<Path>, used': set<u32>)
    requires Balanced(used, rest + PathIds(paths) + multiset(pool))
    ensures Balanced(used', rest + PathIds(paths')) && |paths'| == |paths|
    ensures forall k :: 0 <= k < |paths| ==> Updated(strategy, paths[k], paths'[k], used')
    ensures var before := PathIds(paths) + multiset(pool);
            PathIds(paths') <= before || before <= PathIds(paths')
  {
    hide PathIds, Balanced, Full;
    var released, freed := Release(strategy, paths, pool);
    ghost var before := PathIds(paths) + multiset(pool);
    assert rest + PathIds(released) + multiset(freed) == rest + before;
    assert rest + PathIds(paths) + multiset(pool) == rest + before;
    var given, left, mid := Assign(strategy, released, freed, used, rest);
    assert rest + PathIds(given) + multiset(left) == rest + (PathIds(given) + multiset(left));
    SameHeld(used, mid, rest, before, PathIds(given) + multiset(left));
    used' := Drain(mid, left, rest + PathIds(given));
    paths' := given;
    if left == [] {
      assert rest + PathIds(given) + multiset(left) == rest + PathIds(given);
      DrainNothing(mid, used', rest + PathIds(given));
    }
  }

  /** One round over a prefix; what lingers is passed over. */
  method Round(strategy: Strategy, d: Dest, used: set<u32>, ghost rest: multiset<u32>)
    returns (d': Dest, used': set<u32>)
    requires Balanced(used, rest + DestIds(d))
    ensures Balanced(used', rest + DestIds(d'))
    ensures d'.pool == [] && d'.lingering == d.lingering && |d'.paths| == |d.paths|
    ensures forall k :: 0 <= k < |d.paths| ==> Updated(strategy, d.paths[k], d'.paths[k], used')
    ensures DestIds(d') <= DestIds(d) || DestIds(d) <= DestIds(d')
    ensures Settled(strategy, d) ==> d' == d
  {
    hide PathIds, Balanced, Updated, Full;
    ghost var rest' := rest + PathIds(d.lingering);
    assert rest + DestIds(d) == rest' + PathIds(d.paths) + multiset(d.pool);
    var paths, next := Passes(strategy, d.paths, d.pool, used, rest');
    d', used' := Dest(paths, d.lingering, []), next;
    assert rest + DestIds(d') == rest' + PathIds(paths);
    assert DestIds(d') == PathIds(paths) + PathIds(d.lingering);
    assert DestIds(d) == (PathIds(d.paths) + multiset(d.pool)) + PathIds(d.lingering);
    if Settled(strategy, d) {
      SettledStays(strategy, d, d', used');
    }
  }

  lemma DrainNothing(mid: set<u32>, used: set<u32>, held: multiset<u32>)
    requires Balanced(mid, held) && Balanced(used, held)
    ensures mid == used
  {
    forall x: u32
      ensures x in mid <==> x in used
    {
      assert x in mid <==> x in multiset(mid);
      assert x in used <==> x in multiset(used);
    }
  }

  /** A path that needs no change gets none. */
  predicate Settled(strategy: Strategy, d: Dest) {
    d.pool == [] && Served(strategy, d.paths)
  }

  /** Running a round again changes nothing. */
  lemma SettledStays(strategy: Strategy, d: Dest, d': Dest, used: set<u32>)
    requires Settled(strategy, d) && d'.pool == [] && d'.lingering == d.lingering && |d'.paths| == |d.paths|
    requires forall k :: 0 <= k < |d.paths| ==> Updated(strategy, d.paths[k], d'.paths[k], used)
    ensures d' == d
  {
    forall k | 0 <= k < |d.paths|
      ensures d'.paths[k] == d.paths[k]
    {
      assert Updated(strategy, d.paths[k], d'.paths[k], used);
    }
  }

  /** Frees what the paths of a prefix hold, when the strategy is given up. */
  method FreePaths(paths: seq<Path>, used: set<u32>, ghost rest: multiset<u32>)
    returns (paths': seq<Path>, used': set<u32>)
    requires Balanced(used, rest + PathIds(paths))
    ensures Balanced(used', rest)
    ensures PathIds(paths') == multiset{} && |paths'| == |paths|
    ensures forall k :: 0 <= k < |paths| ==> paths'[k] == paths[k].(id := INVALID)
  {
    hide PathIds, Balanced;
    paths', used' := paths, used;
    var i := 0;
    while i < |paths|
      invariant 0 <= i <= |paths| == |paths'|
      invariant Balanced(used', rest + PathIds(paths'))
      invariant forall k :: i <= k < |paths| ==> paths'[k] == paths[k]
      invariant forall k :: 0 <= k < i ==> paths'[k] == paths[k].(id := INVALID)
    {
      var p := paths'[i];
      if p.id != INVALID {
        ghost var bare := paths'[i := p.(id := INVALID)];
        PathIdsExchange(paths', i, p.(id := INVALID));
        assert PathIds(paths') == PathIds(bare) + multiset{p.id};
        assert rest + PathIds(paths') == rest + PathIds(bare) + multiset{p.id};
        Unmark(used', rest + PathIds(bare), p.id);
        used' := used' - {p.id};
        paths' := paths'[i := p.(id := INVALID)];
      }
      i := i + 1;
    }
    NoneHeld(paths');
    assert rest + PathIds(paths') == rest;
  }

  lemma {:induction false} NoneHeld(paths: seq<Path>)
    requires forall k :: 0 <= k < |paths| ==> paths[k].id == INVALID
    ensures PathIds(paths) == multiset{}
  {
    if paths != [] {
      NoneHeld(paths[..|paths| - 1]);
    }
  }

  lemma {:induction false} NoIds(dests: seq<Dest>)
    requires forall i :: 0 <= i < |dests| ==> DestIds(dests[i]) == multiset{}
    ensures Ids(dests) == multiset{}
  {
    if dests != [] {
      NoIds(dests[..|dests| - 1]);
    }
  }

  predicate SameShape(a: seq<Dest>, b: seq<Dest>) {
    |a| == |b| && forall i :: 0 <= i < |a| ==> SamePaths(a[i].paths, b[i].paths) && b[i].lingering == a[i].lingering
  }

  predicate SamePaths(a: seq<Path>, b: seq<Path>) {
    |a| == |b| && forall k :: 0 <= k < |a| ==> a[k].dmed == b[k].dmed
  }

  // ---- What is held on the list of paths, and what is held elsewhere ----

  function OnList(d: Dest): Dest {
    Dest(d.paths, [], [])
  }

  function OffList(d: Dest): Dest {
    Dest([], d.lingering, d.pool)
  }

  function AllOnList(dests: seq<Dest>): seq<Dest> {
    seq(|dests|, i requires 0 <= i < |dests| => OnList(dests[i]))
  }

  function AllOffList(dests: seq<Dest>): seq<Dest> {
    seq(|dests|, i requires 0 <= i < |dests| => OffList(dests[i]))
  }

  lemma {:induction false} ListAndRest(dests: seq<Dest>)
    ensures Ids(dests) == Ids(AllOnList(dests)) + Ids(AllOffList(dests))
  {
    hide DestIds, Ids;
    if dests == [] {
      NoIds(dests);
      NoIds(AllOnList(dests));
      NoIds(AllOffList(dests));
    } else {
      var n := |dests| - 1;
      var on, off := AllOnList(dests), AllOffList(dests);
      ListAndRest(dests[..n]);
      assert on[..n] == AllOnList(dests[..n]) && off[..n] == AllOffList(dests[..n]);
      IdsLast(dests);
      IdsLast(on);
      IdsLast(off);
      DestListAndRest(dests[n]);
      Regroup(Ids(on[..n]), Ids(off[..n]), DestIds(on[n]), DestIds(off[n]));
    }
  }

  lemma IdsLast(dests: seq<Dest>)
    requires dests != []
    ensures Ids(dests) == Ids(dests[..|dests| - 1]) + DestIds(dests[|dests| - 1])
  {
  }

  lemma DestListAndRest(d: Dest)
    ensures DestIds(d) == DestIds(OnList(d)) + DestIds(OffList(d))
  {
    hide PathIds;
    NoneHeld([]);
  }

  lemma Regroup(a: multiset<u32>, b: multiset<u32>, x: multiset<u32>, y: multiset<u32>)
    ensures (a + b) + (x + y) == (a + x) + (b + y)
  {
  }

  predicate NoId(paths: seq<Path>) {
    forall k :: 0 <= k < |paths| ==> paths[k].id == INVALID
  }

  /** No path of any prefix has an identifier. */
  predicate NoneListed(dests: seq<Dest>) {
    forall i :: 0 <= i < |dests| ==> NoId(dests[i].paths)
  }

  /** No path that an advertisement still refers to has an identifier. */
  predicate NoneLingers(dests: seq<Dest>) {
    forall i :: 0 <= i < |dests| ==> NoId(dests[i].lingering)
  }

  lemma NoneListedHoldsNothing(dests: seq<Dest>)
    requires NoneListed(dests)
    ensures Ids(AllOnList(dests)) == multiset{}
  {
    hide PathIds, NoId;
    forall i | 0 <= i < |dests|
      ensures DestIds(AllOnList(dests)[i]) == multiset{}
    {
      assert NoId(dests[i].paths);
      NoIdHeld(dests[i].paths);
      NoneHeld([]);
    }
    NoIds(AllOnList(dests));
  }

  lemma NoIdHeld(paths: seq<Path>)
    ensures NoId(paths) <==> PathIds(paths) == multiset{}
  {
    hide PathIds;
    if NoId(paths) {
      NoneHeld(paths);
    }
    if PathIds(paths) == multiset{} {
      NoneHolds(paths);
    }
  }

  lemma Opening(dests: seq<Dest>)
    requires Ids(dests) == multiset{}
    ensures Balanced({INVALID, FOR_DEFAULT_ORIGINATE}, Ids(dests))
  {
  }

  lemma DestParts(d: Dest)
    ensures DestIds(d) == PathIds(d.paths) + PathIds(d.lingering) + multiset(d.pool)
  {
  }

  /** While nothing is held, no path has an identifier and no pool has one either. */
  lemma EmptyHanded(dests: seq<Dest>, i: nat)
    requires i < |dests| && Ids(dests) == multiset{}
    ensures dests[i].pool == [] && DestIds(dests[i]) == multiset{}
    ensures NoId(dests[i].paths) && NoId(dests[i].lingering)
  {
    hide Ids, PathIds, NoId;
    DestHolds(dests, i);
    NothingHeld(dests[i]);
  }

  lemma NothingHeld(d: Dest)
    requires DestIds(d) == multiset{}
    ensures d.pool == [] && NoId(d.paths) && NoId(d.lingering)
  {
    hide PathIds;
    assert multiset(d.pool) <= DestIds(d) && PathIds(d.paths) <= DestIds(d) && PathIds(d.lingering) <= DestIds(d);
    assert |multiset(d.pool)| == |d.pool|;
    NoneHolds(d.paths);
    NoneHolds(d.lingering);
  }

  lemma {:induction false} NoneHolds(paths: seq<Path>)
    requires PathIds(paths) == multiset{}
    ensures NoId(paths)
  {
    if paths != [] {
      var n := |paths| - 1;
      assert PathIds(paths[..n]) <= PathIds(paths) && IdOf(paths[n]) <= PathIds(paths);
      var p := paths[n];
      assert p.id == INVALID || p.id in IdOf(p);
      NoneHolds(paths[..n]);
    }
  }

  /** Exactly the paths to be sent hold identifiers. */
  predicate Served(strategy: Strategy, paths: seq<Path>) {
    forall k :: 0 <= k < |paths| ==> (Eligible(strategy, paths[k]) <==> paths[k].id != INVALID)
  }

  lemma GivenServes(strategy: Strategy, before: seq<Path>, after: seq<Path>, used: set<u32>)
    requires |after| == |before|
    requires forall k :: 0 <= k < |before| ==>
                           before[k].id == INVALID && Given(strategy, before[k], after[k], used, [])
    ensures SamePaths(before, after)
    ensures Full(used) || Served(strategy, after)
  {
    hide Full;
    if !Full(used) {
      forall k | 0 <= k < |after|
        ensures Eligible(strategy, after[k]) <==> after[k].id != INVALID
      {
        assert Given(strategy, before[k], after[k], used, []);
      }
    }
  }

  /** What is held elsewhere than at one prefix. */
  ghost function Others(dests: seq<Dest>, i: nat): multiset<u32>
    requires i < |dests|
  {
    Ids(dests) - DestIds(dests[i])
  }

  lemma Isolate(dests: seq<Dest>, i: nat)
    requires i < |dests|
    ensures Others(dests, i) + DestIds(dests[i]) == Ids(dests)
  {
    hide Ids, DestIds;
    DestHolds(dests, i);
  }

  lemma EditKeeps(dests: seq<Dest>, i: nat, d: Dest)
    requires i < |dests| && DestIds(d) == DestIds(dests[i])
    ensures Ids(dests[i := d]) == Ids(dests)
  {
    hide Ids, DestIds;
    Elsewhere(dests, i, d);
    Isolate(dests, i);
  }

  lemma PathAdded(d: Dest, dmed: bool)
    ensures DestIds(d.(paths := d.paths + [Path(INVALID, dmed)])) == DestIds(d)
  {
    assert (d.paths + [Path(INVALID, dmed)])[..|d.paths|] == d.paths;
  }

  lemma PathUnlinked(d: Dest, k: nat)
    requires k < |d.paths|
    ensures DestIds(Dest(d.paths[..k] + d.paths[k + 1..], d.lingering + [d.paths[k]], d.pool)) == DestIds(d)
  {
    hide IdOf;
    PathIdsRemove(d.paths, k);
    assert (d.lingering + [d.paths[k]])[..|d.lingering|] == d.lingering;
  }

  lemma PathFreed(d: Dest, k: nat, pool: seq<u32>)
    requires k < |d.lingering| && multiset(pool) == IdOf(d.lingering[k]) + multiset(d.pool)
    ensures DestIds(Dest(d.paths, d.lingering[..k] + d.lingering[k + 1..], pool)) == DestIds(d)
  {
    hide PathIds, IdOf;
    PathIdsRemove(d.lingering, k);
  }

  lemma PathSelected(d: Dest, k: nat, dmed: bool)
    requires k < |d.paths|
    ensures DestIds(d.(paths := d.paths[k := d.paths[k].(dmed := dmed)])) == DestIds(d)
  {
    hide PathIds;
    var p := d.paths[k].(dmed := dmed);
    PathIdsExchange(d.paths, k, p);
    SameRest(PathIds(d.paths[k := p]), PathIds(d.paths), IdOf(p));
  }

  /** Backfills the paths of one prefix, none of which has an identifier; its pool is not looked at. */
  method PopulateDest(strategy: Strategy, d: Dest, used: set<u32>, ghost rest: multiset<u32>)
    returns (d': Dest, used': set<u32>)
    requires NoId(d.paths) && Balanced(used, rest + DestIds(OnList(d)))
    ensures Balanced(used', rest + DestIds(OnList(d'))) && used <= used'
    ensures SamePaths(d.paths, d'.paths) && OffList(d') == OffList(d)
    ensures Full(used') || Served(strategy, d'.paths)
  {
    hide PathIds, Balanced, Full;
    NoneHeld([]);
    assert rest + PathIds(d.paths) + multiset([]) == rest + DestIds(OnList(d));
    var paths, pool, next := Assign(strategy, d.paths, [], used, rest);
    d', used' := d.(paths := paths), next;
    assert rest + DestIds(OnList(d')) == rest + PathIds(paths) + multiset(pool);
    GivenServes(strategy, d.paths, paths, used');
  }

  method PopulateAll(strategy: Strategy, dests: seq<Dest>) returns (dests': seq<Dest>, used: set<u32>)
    requires NoneListed(dests)
    ensures Balanced(used, Ids(AllOnList(dests')))
    ensures SameShape(dests, dests') && AllOffList(dests') == AllOffList(dests)
    ensures Full(used) || forall i :: 0 <= i < |dests'| ==> Served(strategy, dests'[i].paths)
  {
    hide DestIds, Balanced, Full, Ids, Served, Others, SamePaths, NoId;
    dests', used := dests, {INVALID, FOR_DEFAULT_ORIGINATE};
    NoneListedHoldsNothing(dests);
    Opening(AllOnList(dests));
    ShapeSame(dests);
    var i := 0;
    while i < |dests|
      invariant 0 <= i <= |dests| == |dests'|
      invariant Balanced(used, Ids(AllOnList(dests')))
      invariant SameShape(dests, dests') && AllOffList(dests') == AllOffList(dests)
      invariant forall j :: i <= j < |dests| ==> dests'[j] == dests[j]
      invariant Full(used) || forall j :: 0 <= j < i ==> Served(strategy, dests'[j].paths)
    {
      assert NoId(dests[i].paths);
      ghost var listed := AllOnList(dests');
      Isolate(listed, i);
      var d, next := PopulateDest(strategy, dests'[i], used, Others(listed, i));
      Replaced(listed, i, OnList(d));
      assert AllOnList(dests'[i := d]) == listed[i := OnList(d)];
      assert AllOffList(dests'[i := d]) == AllOffList(dests')[i := OffList(d)] == AllOffList(dests');
      FullStays(used, next);
      dests' := dests'[i := d];
      used := next;
      i := i + 1;
    }
  }

  lemma ShapeSame(dests: seq<Dest>)
    ensures SameShape(dests, dests)
  {
  }

  lemma Replaced(dests: seq<Dest>, i: nat, d: Dest)
    requires i < |dests|
    ensures Ids(dests[i := d]) == Others(dests, i) + DestIds(d)
  {
    hide Ids, DestIds;
    Elsewhere(dests, i, d);
  }

  method FlushDest(d: Dest, used: set<u32>, ghost rest: multiset<u32>) returns (d': Dest, used': set<u32>)
    requires Balanced(used, rest + DestIds(d))
    ensures Balanced(used', rest + DestIds(d')) && SamePaths(d.paths, d'.paths)
    ensures NoId(d'.paths) && d'.pool == [] && d'.lingering == d.lingering
  {
    hide PathIds, Balanced;
    ghost var rest' := rest + PathIds(d.lingering);
    assert rest' + PathIds(d.paths) + multiset(d.pool) == rest + DestIds(d);
    var drained := Drain(used, d.pool, rest' + PathIds(d.paths));
    var paths, freed := FreePaths(d.paths, drained, rest');
    d', used' := Dest(paths, d.lingering, []), freed;
    assert rest + DestIds(d') == rest';
  }

  /** Hands everything back that a path on its list or a pool holds; what lingers keeps its identifier. */
  method FlushAll(dests: seq<Dest>, used: set<u32>) returns (dests': seq<Dest>, used': set<u32>)
    requires Balanced(used, Ids(dests))
    ensures Balanced(used', Ids(dests')) && SameShape(dests, dests')
    ensures NoneListed(dests') && forall i :: 0 <= i < |dests'| ==> dests'[i].pool == []
  {
    hide DestIds, Balanced, Ids, Others, SamePaths, NoId;
    dests', used' := dests, used;
    ShapeSame(dests);
    var i := 0;
    while i < |dests|
      invariant 0 <= i <= |dests| == |dests'|
      invariant Balanced(used', Ids(dests')) && SameShape(dests, dests')
      invariant forall j :: i <= j < |dests| ==> dests'[j] == dests[j]
      invariant forall j :: 0 <= j < i ==> NoId(dests'[j].paths) && dests'[j].pool == []
    {
      Isolate(dests', i);
      var d, next := FlushDest(dests'[i], used', Others(dests', i));
      Replaced(dests', i, d);
      dests' := dests'[i := d];
      used' := next;
      i := i + 1;
    }
  }

  /** After a flush nothing is held exactly if nothing lingers with an identifier. */
  lemma FlushedHoldsNothing(dests: seq<Dest>)
    requires NoneListed(dests) && forall i :: 0 <= i < |dests| ==> dests[i].pool == []
    ensures Ids(dests) == multiset{} <==> NoneLingers(dests)
  {
    hide Ids, PathIds, NoId;
    if Ids(dests) == multiset{} {
      forall i | 0 <= i < |dests|
        ensures NoId(dests[i].lingering)
      {
        EmptyHanded(dests, i);
      }
    }
    if NoneLingers(dests) {
      forall i | 0 <= i < |dests|
        ensures DestIds(dests[i]) == multiset{}
      {
        assert NoId(dests[i].paths) && NoId(dests[i].lingering);
        NoIdHeld(dests[i].paths);
        NoIdHeld(dests[i].lingering);
      }
      NoIds(dests);
    }
  }

  /** One strategy of one address family: how many peers use it, its allocator, and every prefix. */
  class Tx {
    const strategy: Strategy
    var peers: nat
    var active: bool
    var used: set<u32>
    var dests: seq<Dest>

    /** In use, the books balance; out of use, no path on a list has an identifier. */
    ghost predicate Wired()
      reads this
    {
      && (active <==> peers > 0)
      && (if active then Balanced(used, Ids(dests)) else used == {} && NoneListed(dests))
    }

    /** Out of use, nothing at all is held. */
    ghost predicate Valid()
      reads this
    {
      && (active <==> peers > 0)
      && (if active then Balanced(used, Ids(dests)) else used == {} && Ids(dests) == multiset{})
    }

    lemma ValidIsWired()
      ensures Valid() ==> Wired()
    {
      hide Ids, Balanced, NoId;
      if Valid() && !active {
        forall i | 0 <= i < |dests|
          ensures NoId(dests[i].paths)
        {
          EmptyHanded(dests, i);
        }
      }
    }

    constructor (s: Strategy)
      ensures Valid() && strategy == s && peers == 0 && dests == []
    {
      strategy, peers, active, used, dests := s, 0, false, {}, [];
    }

    /** After a best-path run for one prefix. */
    method UpdateIds(i: nat)
      requires Wired() && i < |dests|
      modifies this`used, this`dests
      ensures Wired() && (old(Valid()) ==> Valid())
      ensures |dests| == |old(dests)| && forall j :: 0 <= j < |dests| && j != i ==> dests[j] == old(dests)[j]
      ensures peers == 0 ==> dests == old(dests)
      ensures peers > 0 ==> dests[i].pool == [] && |dests[i].paths| == |old(dests)[i].paths|
      ensures peers > 0 ==> forall k :: 0 <= k < |dests[i].paths| ==>
                                          Updated(strategy, old(dests)[i].paths[k], dests[i].paths[k], used)
      ensures dests[i].lingering == old(dests)[i].lingering
      ensures DestIds(dests[i]) <= DestIds(old(dests)[i]) || DestIds(old(dests)[i]) <= DestIds(dests[i])
      ensures Settled(strategy, old(dests)[i]) ==> dests == old(dests)
    {
      hide Ids, DestIds, Balanced, Updated, Others, Settled, NoneListed;
      if peers == 0 {
        return;
      }
      Isolate(dests, i);
      var d, next := Round(strategy, dests[i], used, Others(dests, i));
      Replaced(dests, i, d);
      dests := dests[i := d];
      used := next;
    }

    /** The first peer to use the strategy: a new allocator, and an identifier for every path to be sent. */
    method Populate()
      requires !active && NoneListed(dests)
      modifies this`active, this`used, this`dests
      ensures active && SameShape(old(dests), dests) && AllOffList(dests) == AllOffList(old(dests))
      ensures Balanced(used, Ids(dests)) <==> Ids(AllOffList(old(dests))) == multiset{}
      ensures Full(used) || forall i :: 0 <= i < |dests| ==> Served(strategy, dests[i].paths)
    {
      hide Ids, Balanced, Full, Served, SameShape, NoneListed;
      active := true;
      dests, used := PopulateAll(strategy, dests);
      ListAndRest(dests);
      NothingElse(used, Ids(AllOnList(dests)), Ids(AllOffList(dests)));
    }

    /** The last peer to leave the strategy: every identifier on a list or in a pool goes back. */
    method Flush()
      requires active && Balanced(used, Ids(dests))
      modifies this`active, this`used, this`dests
      ensures !active && used == {} && NoneListed(dests) && SameShape(old(dests), dests)
      ensures forall i :: 0 <= i < |dests| ==> dests[i].pool == []
      ensures Ids(dests) == multiset{} <==> NoneLingers(old(dests))
    {
      hide Ids, Balanced, NoId;
      dests, used := FlushAll(dests, used);
      active := false;
      used := {};
      FlushedHoldsNothing(dests);
      assert NoneLingers(dests) <==> NoneLingers(old(dests)) by {
        hide SamePaths;
      }
    }

    /**
     The number of peers that use the strategy has changed.  The books survive it exactly if, when the last peer
     leaves, no unlinked path still holds an identifier, and when the first one comes, none was left behind.
     */
    method TypeChanged(count: nat)
      requires Wired()
      modifies this
      ensures peers == count && (active <==> peers > 0) && SameShape(old(dests), dests)
      ensures old(peers) > 0 && count > 0 ==> Valid() && dests == old(dests) && used == old(used)
      ensures old(peers) > 0 && count == 0 ==> Wired() && (Valid() <==> NoneLingers(old(dests)))
      ensures old(peers) > 0 && count == 0 ==> forall i :: 0 <= i < |dests| ==> dests[i].pool == []
      ensures old(peers) == 0 && count > 0 ==> (Valid() <==> Ids(AllOffList(old(dests))) == multiset{})
      ensures old(peers) == 0 && count > 0 ==> AllOffList(dests) == AllOffList(old(dests))
      ensures old(peers) == 0 && count > 0 && !Full(used) ==>
                forall i :: 0 <= i < |dests| ==> Served(strategy, dests[i].paths)
      ensures old(peers) == 0 && count == 0 ==> dests == old(dests) && used == old(used)
    {
      hide Ids, Balanced, Full, Served, SameShape, NoneListed, NoneLingers, AllOffList;
      ShapeSame(dests);
      var before := peers;
      peers := count;
      if before == 0 && count != 0 {
        Populate();
      } else if before != 0 && count == 0 {
        Flush();
      }
    }

    /** A new path arrives without an identifier. */
    method AddPath(i: nat, dmed: bool)
      requires Wired() && i < |dests|
      modifies this`dests
      ensures Wired() && Ids(dests) == Ids(old(dests))
      ensures dests == old(dests)[i := old(dests)[i].(paths := old(dests)[i].paths + [Path(INVALID, dmed)])]
    {
      hide Ids, DestIds, Balanced;
      var d := dests[i].(paths := dests[i].paths + [Path(INVALID, dmed)]);
      PathAdded(dests[i], dmed);
      EditKeeps(dests, i, d);
      dests := dests[i := d];
    }

    /** A path is taken off its list, and freed only when the last advertisement has let go of it. */
    method Unlink(i: nat, k: nat)
      requires Wired() && i < |dests| && k < |dests[i].paths|
      modifies this`dests
      ensures Wired() && Ids(dests) == Ids(old(dests))
      ensures var d := old(dests)[i];
              dests == old(dests)[i := Dest(d.paths[..k] + d.paths[k + 1..], d.lingering + [d.paths[k]], d.pool)]
    {
      hide Ids, DestIds, Balanced;
      var d := dests[i];
      var d' := Dest(d.paths[..k] + d.paths[k + 1..], d.lingering + [d.paths[k]], d.pool);
      PathUnlinked(d, k);
      EditKeeps(dests, i, d');
      dests := dests[i := d'];
    }

    /** A path is freed: what it held waits in the prefix's pool. */
    method Free(i: nat, k: nat)
      requires Wired() && i < |dests| && k < |dests[i].lingering|
      modifies this`dests
      ensures Wired() && Ids(dests) == Ids(old(dests))
      ensures var d := old(dests)[i];
              && |dests| == |old(dests)| && dests == old(dests)[i := dests[i]] && dests[i].paths == d.paths
              && dests[i].lingering == d.lingering[..k] + d.lingering[k + 1..]
              && (d.lingering[k].id != INVALID ==> dests[i].pool == [d.lingering[k].id] + d.pool)
    {
      hide Ids, Balanced, PathIds;
      var d := dests[i];
      var p := d.lingering[k];
      var pool := d.pool;
      if p.id != INVALID {
        pool := [p.id] + pool;
      }
      var d' := Dest(d.paths, d.lingering[..k] + d.lingering[k + 1..], pool);
      PathFreed(d, k, pool);
      EditKeeps(dests, i, d');
      dests := dests[i := d'];
    }

    /** Best-path selection marks or unmarks a path as the best of its AS. */
    method Select(i: nat, k: nat, dmed: bool)
      requires Wired() && i < |dests| && k < |dests[i].paths|
      modifies this`dests
      ensures Wired() && Ids(dests) == Ids(old(dests))
      ensures var d := old(dests)[i];
              dests == old(dests)[i := d.(paths := d.paths[k := d.paths[k].(dmed := dmed)])]
    {
      hide Ids, Balanced, PathIds;
      var d := dests[i];
      var p := d.paths[k].(dmed := dmed);
      var d' := d.(paths := d.paths[k := p]);
      PathSelected(d, k, dmed);
      EditKeeps(dests, i, d');
      dests := dests[i := d'];
    }

    method AddDest()
      requires Wired()
      modifies this`dests
      ensures Wired() && Ids(dests) == Ids(old(dests)) && dests == old(dests) + [Dest([], [], [])]
    {
      hide Balanced, Ids;
      DestAdded(dests);
      dests := dests + [Dest([], [], [])];
    }

    /** A prefix to which nothing refers any more is freed: its pool goes back to the allocator. */
    method RemoveDest(i: nat)
      requires Valid() && i < |dests| && dests[i].paths == [] && dests[i].lingering == []
      modifies this`dests, this`used
      ensures Valid() && dests == old(dests)[..i] + old(dests)[i + 1..]
    {
      hide Ids, Balanced, PathIds;
      IdsRemove(dests, i);
      DestParts(dests[i]);
      NoneHeld([]);
      var left := dests[..i] + dests[i + 1..];
      if active {
        assert Ids(left) + multiset(dests[i].pool) == Ids(dests);
        used := Drain(used, dests[i].pool, Ids(left));
      } else {
        DestHolds(dests, i);
        assert Ids(left) == multiset{};
      }
      dests := left;
    }
  }

  lemma NothingElse(used: set<u32>, held: multiset<u32>, more: multiset<u32>)
    requires Balanced(used, held)
    ensures Balanced(used, held + more) <==> more == multiset{}
  {
    if Balanced(used, held + more) {
      SameHeld(used, used, held, multiset{}, more);
    }
  }

  // ---- An identifier left behind ----

  lemma OneHeld(p: Path)
    ensures Ids([Dest([p], [], [])]) == IdOf(p) && Ids([Dest([], [p], [])]) == IdOf(p)
  {
    hide IdOf;
    assert PathIds([p]) == PathIds([]) + IdOf(p);
    assert Ids([Dest([p], [], [])]) == Ids([]) + DestIds(Dest([p], [], []));
    assert Ids([Dest([], [p], [])]) == Ids([]) + DestIds(Dest([], [p], []));
  }

  lemma NotFull(used: set<u32>, p: Path)
    requires Balanced(used, IdOf(p))
    ensures !Full(used)
  {
    var x: u32 := if p.id == 2 then 3 else 2;
    assert x in used <==> x in multiset(used);
  }

  /**
   A path is unlinked while an advertisement refers to it, the last peer leaves the strategy, and the path is freed:
   an identifier waits in the pool of a strategy that has no allocator, and the next allocator will not know of it.
   */
  method IdLeftBehind() returns (t: Tx, id: u32)
    ensures t.Wired() && t.peers == 0 && !t.Valid() && id != INVALID && t.dests == [Dest([], [], [id])]
  {
    hide Ids, Balanced, Full, IdOf;
    t := new Tx(All);
    t.ValidIsWired();
    t.AddDest();
    t.AddPath(0, false);
    OneHeld(t.dests[0].paths[0]);
    assert Ids(AllOffList(t.dests)) == multiset{} by {
      ListAndRest(t.dests);
    }
    t.TypeChanged(1);
    assert AllOffList(t.dests)[0] == Dest([], [], []) == OffList(t.dests[0]);
    var p := t.dests[0].paths[0];
    assert t.dests[0].paths == [p];
    assert t.dests[0] == Dest([p], [], []);
    assert t.dests == [Dest([p], [], [])];
    OneHeld(p);
    NotFull(t.used, p);
    assert Served(All, t.dests[0].paths);
    id := p.id;
    t.Unlink(0, 0);
    assert [p][..0] + [p][1..] == [] && [] + [p] == [p];
    assert t.dests == [Dest([], [p], [])];
    t.TypeChanged(0);
    assert t.dests[0].paths == [] && t.dests[0] == Dest([], [p], []);
    t.Free(0, 0);
    assert [id] + [] == [id];
    assert t.dests[0] == Dest([], [], [id]);
  }

  lemma DestAdded(dests: seq<Dest>)
    ensures Ids(dests + [Dest([], [], [])]) == Ids(dests)
  {
    assert (dests + [Dest([], [], [])])[..|dests|] == dests;
    assert DestIds(Dest([], [], [])) == multiset{};
  }

  lemma SameRest(a: multiset<u32>, b: multiset<u32>, x: multiset<u32>)
    requires a + x == b + x
    ensures a == b
  {
    assert (a + x) - x == a && (b + x) - x == b;
  }
}
